/** What each event of the recorder supervisor achieves, told by the state before and the state after.
    The invariants in Supervisor say that nothing goes wrong; these say that what was asked for is done. */
module SupervisorProgress {
  import opened Wrappers
  import opened RecorderState
  import opened Supervisor

  /** The games-only policy and the gate in terms of the settings, the game and the verdict. */
  lemma PolicyMeans(s: Inner)
    ensures MayRecord(s) <==>
              || s.manual
              || (&& !(s.settings.autoDetect && s.settings.pauseWhenNoGame && s.game.None?)
                  && s.gate != Some(Pending) && s.gate != Some(Denied))
    ensures ShouldRun(s) <==> s.desired && !s.quotaBlocked && MayRecord(s)
  {
  }

  /** At first nothing is wanted, running, seen or blocked. */
  lemma NothingAtFirst(settings: Settings)
    ensures var w := InitialWorld(settings);
            && w.inner.tx.None? && !w.inner.desired && !w.inner.manual && !w.inner.quotaBlocked
            && w.inner.game.None? && w.inner.gate.None? && !w.inner.lookup && w.inner.settings == settings
            && w.tasks == map[] && w.spawned == {} && w.pumps == map[]
  {
  }

  /** `s` was spawned, installed and pumped under a new generation. */
  predicate InstalledNow(w: World, n: World, s: ServiceId) {
    && n.inner.tx == Some(s) && n.inner.generation == w.inner.generation + 1
    && n.spawned == w.spawned + {s} && n.pumps == w.pumps[s := n.inner.generation]
  }

  /** The sender was taken out under a new generation, and `t` owes it a Stop. */
  predicate TakenOut(w: World, n: World, t: TaskId) {
    && n.inner.tx.None? && n.inner.generation == w.inner.generation + 1
    && (w.inner.tx.Some? ==> Holds(n, t, w.inner.tx.value))
  }

  predicate SameRecorder(w: World, n: World) {
    && n.inner.tx == w.inner.tx && n.inner.generation == w.inner.generation
    && n.tasks == w.tasks && n.spawned == w.spawned && n.pumps == w.pumps
  }

  /** Settings, game, verdict and block are as they were. */
  predicate SameSurroundings(s: Inner, n: Inner) {
    && n.settings == s.settings && n.game == s.game && n.gate == s.gate && n.lookup == s.lookup
    && n.quotaBlocked == s.quotaBlocked
  }

  // ---- The user ----

  /** A start makes the recorder wanted, and starts it unless it runs already or something forbids it. */
  lemma StartAchieves(w: World, builds: bool, s: ServiceId)
    requires Enabled(w, Start(builds, s))
    ensures var n := Next(w, Start(builds, s));
            && (n.inner.tx.Some? || n.inner.desired)
            && SameSurroundings(w.inner, n.inner) && n.inner.manual == w.inner.manual
            && (if w.inner.tx.Some? then n == w
                else
                  && n.inner.desired
                  && if MayRecord(w.inner) && !w.inner.quotaBlocked && builds
                     then InstalledNow(w, n, s) else SameRecorder(w, n))
  {
  }

  /** The start at the end of a quota recheck is a start like any other. */
  lemma TailStartAchieves(w: World, t: TaskId, builds: bool, s: ServiceId)
    requires Enabled(w, TailStart(t, builds, s))
    ensures var n := Next(w, TailStart(t, builds, s));
            && (n.inner.tx.Some? || n.inner.desired) && n.tasks == w.tasks - {t}
            && SameSurroundings(w.inner, n.inner) && n.inner.manual == w.inner.manual
            && (w.inner.tx.Some? ==> n.inner == w.inner)
            && (w.inner.tx.None? && MayRecord(w.inner) && !w.inner.quotaBlocked && builds ==> InstalledNow(w, n, s))
  {
  }

  lemma StopAchieves(w: World, t: TaskId)
    requires Enabled(w, Stop(t))
    ensures var n := Next(w, Stop(t));
            && TakenOut(w, n, t) && !n.inner.desired && !n.inner.manual
            && SameSurroundings(w.inner, n.inner)
  {
  }

  /** Unless quota blocks it, a manual session is on, wanted, and recorded by the recorder there is or by
      a new one. */
  lemma SessionStartAchieves(w: World, builds: bool, s: ServiceId)
    requires Enabled(w, SessionStart(builds, s))
    ensures var n := Next(w, SessionStart(builds, s));
            && SameSurroundings(w.inner, n.inner)
            && (if w.inner.quotaBlocked then n == w
                else
                  && n.inner.manual && n.inner.desired
                  && if w.inner.tx.None? && builds then InstalledNow(w, n, s) else SameRecorder(w, n))
  {
  }

  /** After a manual session the recorder goes on exactly if policy and gate let it, or quota is stopping
      it anyway. */
  lemma SessionStopAchieves(w: World, t: TaskId)
    requires Enabled(w, SessionStop(t))
    ensures var n := Next(w, SessionStop(t));
            && !n.inner.manual && n.inner.desired == w.inner.desired && SameSurroundings(w.inner, n.inner)
            && (if w.inner.desired && !w.inner.quotaBlocked && !MayRecord(w.inner.(manual := false))
                then TakenOut(w, n, t) && !PlanIs(n, t, n.inner.generation)
                else SameRecorder(w, n))
  {
  }

  // ---- Restarts ----

  /** A restart of the recorder under the surroundings in `n`: the old service is told, and a new one
      planned if it should run.  Without options the running service stays, and a plan in flight is
      retired. */
  predicate Restarted(w: World, n: World, t: TaskId, builds: bool) {
    if ShouldRun(n.inner) && !builds then
      && n.inner.tx == w.inner.tx && n.tasks == w.tasks
      && n.inner.generation == w.inner.generation + if w.inner.tx.None? then 1 else 0
    else
      TakenOut(w, n, t) && (ShouldRun(n.inner) <==> PlanIs(n, t, n.inner.generation))
  }

  /** A game counts if detection is on and the game is in the list. */
  predicate Configured(settings: Settings, game: Option<Game>) {
    game.Some? && settings.autoDetect && game.value.identity in settings.configured
  }

  /** The verdict a newly seen game begins with. */
  function OpeningVerdict(settings: Settings, game: Option<Game>, lookup: bool): Option<Verdict> {
    if && lookup && game.Some? && game.value.identity.id == "league_of_legends"
       && exists q <- ALL_QUEUES :: q !in settings.recordedQueues
    then Some(Pending) else None
  }

  lemma ReplanAchieves(w: World, mid: Inner, t: TaskId, builds: bool)
    requires t !in w.tasks && mid.tx == w.inner.tx && mid.generation == w.inner.generation
    ensures var (inner, prepared) := PrepareRestart(mid, builds);
            var n := if prepared.Ok? then BeginPrepared(w, inner, t, prepared.value) else Leave(w, inner);
            && Restarted(w, n, t, builds)
            && n.inner == mid.(tx := n.inner.tx, generation := n.inner.generation)
  {
  }

  /** The surroundings after a detection. */
  function Surveyed(s: Inner, seen: Option<Game>, lookup: bool): Inner {
    var game := if Configured(s.settings, seen) then seen else None;
    if SameScene(s.game, game) then s.(game := game)
    else
      var verdict := OpeningVerdict(s.settings, game, lookup);
      s.(game := game, gate := verdict, lookup := verdict.Some?)
  }

  /** The same window of the same game, or no game both times. */
  predicate SameScene(before: Option<Game>, now: Option<Game>) {
    if before.Some? && now.Some?
    then before.value.identity == now.value.identity && before.value.window == now.value.window
    else before.None? && now.None?
  }

  /** A new window, or another recording mode in the same one. */
  predicate NewScene(before: Option<Game>, now: Option<Game>) {
    !SameScene(before, now) || (now.Some? && now.value.fullSession != before.value.fullSession)
  }

  lemma DetectSurveys(s: Inner, seen: Option<Game>, lookup: bool, builds: bool)
    ensures var mid := Surveyed(s, seen, lookup);
            var (inner, prepared) := PrepareRestart(mid, builds);
            DetectGame(s, seen, lookup, builds)
              == if !NewScene(s.game, mid.game) then (mid, Ok(None))
                 else (inner, if prepared.Ok? then Ok(Some(prepared.value)) else Err(prepared.error))
  {
    VerdictOpens(s.settings, if Configured(s.settings, seen) then seen else None, lookup);
    assert (if StillConfigured(s.settings, seen) then seen else None)
        == if Configured(s.settings, seen) then seen else None;
  }

  /** The configured game seen becomes the current one.  A new window opens a verdict, and a new window or
      recording mode restarts the recorder; seeing the same again changes nothing else. */
  lemma DetectAchieves(w: World, t: TaskId, seen: Option<Game>, lookup: bool, builds: bool)
    requires Enabled(w, Detect(t, seen, lookup, builds))
    ensures var n, mid := Next(w, Detect(t, seen, lookup, builds)), Surveyed(w.inner, seen, lookup);
            && n.inner == mid.(tx := n.inner.tx, generation := n.inner.generation)
            && if NewScene(w.inner.game, mid.game) then Restarted(w, n, t, builds) else SameRecorder(w, n)
  {
    DetectSurveys(w.inner, seen, lookup, builds);
    ReplanAchieves(w, Surveyed(w.inner, seen, lookup), t, builds);
  }

  lemma VerdictOpens(settings: Settings, game: Option<Game>, lookup: bool)
    ensures OpeningVerdict(settings, game, lookup)
         == if GateApplies(settings, game) && lookup then Some(Pending) else None
  {
  }

  /** An answered lookup settles the verdict by the settings of the moment, once; permission restarts the
      recorder unless a manual session is running. */
  lemma GateTickAchieves(w: World, t: TaskId, answer: Lookup, builds: bool)
    requires Enabled(w, GateTick(t, answer, builds))
    ensures var n := Next(w, GateTick(t, answer, builds));
            if !w.inner.lookup || answer.Unresolved? then n == w
            else
              && !n.inner.lookup && n.inner.game == w.inner.game && n.inner.settings == w.inner.settings
              && n.inner.desired == w.inner.desired && n.inner.manual == w.inner.manual
              && n.inner.quotaBlocked == w.inner.quotaBlocked
              && n.inner.gate ==
                   Some(if answer.category in w.inner.settings.recordedQueues then Allowed else Denied)
              && if n.inner.gate == Some(Allowed) && !w.inner.manual
                 then Restarted(w, n, t, builds) else SameRecorder(w, n)
  {
  }

  /** Saved settings are in force at once; a game they no longer list is dropped with its verdict, and the
      recorder is replaced on the spot, or stopped. */
  lemma SaveSettingsAchieves(w: World, t: TaskId, settings: Settings, builds: bool, s: ServiceId)
    requires Enabled(w, SaveSettings(t, settings, builds, s))
    ensures var n := Next(w, SaveSettings(t, settings, builds, s));
            var kept := w.inner.game.None? || Configured(settings, w.inner.game);
            var target := w.inner.(settings := settings,
                                   game := if kept then w.inner.game else None,
                                   gate := if kept then w.inner.gate else None,
                                   lookup := kept && w.inner.lookup);
            if ShouldRun(target) && !builds then n == w
            else
              && SameSurroundings(target, n.inner)
              && n.inner.desired == w.inner.desired && n.inner.manual == w.inner.manual
              && (w.inner.tx.Some? ==> Holds(n, t, w.inner.tx.value))
              && if ShouldRun(target) then InstalledNow(w, n, s)
                 else && n.inner.tx.None? && n.spawned == w.spawned && n.pumps == w.pumps
                      && (w.inner.desired && !w.inner.quotaBlocked && !w.inner.manual && n.inner.game.None?
                          && settings.autoDetect && settings.pauseWhenNoGame
                          <==> n.inner.generation == w.inner.generation + 1)
                      && w.inner.generation <= n.inner.generation <= w.inner.generation + 1
  {
  }

  // ---- Services and quota ----

  /** The installed service's last word takes it out, and with it the intent unless quota stopped it. */
  lemma StatusAchieves(w: World, s: ServiceId, recording: bool)
    requires Enabled(w, ServiceStatus(s, recording)) && Consistent(w)
    ensures var n := Next(w, ServiceStatus(s, recording));
            && SameSurroundings(w.inner, n.inner) && n.tasks == w.tasks
            && (if w.inner.tx == Some(s) && !recording then
                  && n.inner.tx.None? && n.inner.generation == w.inner.generation + 1
                  && n.inner.desired == (w.inner.quotaBlocked && w.inner.desired)
                  && n.inner.manual == (w.inner.quotaBlocked && w.inner.manual)
                else n.inner == w.inner)
            && (!recording ==> s in n.ended)
  {
  }

  /** Quota reported by the installed service blocks recording; nothing else changes. */
  lemma QuotaAchieves(w: World, s: ServiceId)
    requires Enabled(w, ServiceQuota(s)) && Consistent(w)
    ensures Next(w, ServiceQuota(s))
         == w.(inner := w.inner.(quotaBlocked := w.inner.quotaBlocked || w.inner.tx == Some(s)))
  {
  }

  /** A recheck looks into a block once the recorder has stopped, and only then. */
  lemma RecheckBeginAchieves(w: World, t: TaskId)
    requires Enabled(w, RecheckBegin(t))
    ensures Next(w, RecheckBegin(t))
         == if w.inner.quotaBlocked && w.inner.tx.None? then w.(tasks := w.tasks[t := Rechecking]) else w
  {
  }

  /** It sets or lifts the block, and goes on to a start if the recorder is wanted and may run. */
  lemma RecheckSettleAchieves(w: World, t: TaskId, over: bool)
    requires Enabled(w, RecheckSettle(t, over))
    ensures var n := Next(w, RecheckSettle(t, over));
            && n.inner == w.inner.(quotaBlocked := over)
            && n.tasks == if !over && w.inner.desired then w.tasks[t := TailStarting] else w.tasks - {t}
  {
  }

  lemma RecheckFailAchieves(w: World, t: TaskId)
    requires Enabled(w, RecheckFail(t))
    ensures Next(w, RecheckFail(t)) == w.(tasks := w.tasks - {t})
  {
  }

  // ---- What callers are told ----

  /** A start reports what it found and did, and names the generation it installed. */
  lemma StartReports(s: Inner, builds: bool, service: ServiceId)
    ensures var (n, outcome) := StartRecording(s, builds, service);
            && (outcome == Ok(AlreadyRunning) <==> s.tx.Some?)
            && (outcome == Ok(Blocked) <==> s.tx.None? && s.quotaBlocked)
            && (outcome.Err? <==> s.tx.None? && !s.quotaBlocked && MayRecord(s) && !builds)
            && (outcome == Ok(Spawned(n.generation)) <==> s.tx.None? && n.tx.Some?)
  {
  }

  lemma SessionReports(s: Inner, builds: bool, service: ServiceId)
    ensures var (n, outcome) := StartSession(s, builds, service);
            && (outcome == Ok(SessionBlocked) <==> s.quotaBlocked)
            && (outcome.Err? <==> !s.quotaBlocked && s.tx.None? && !builds)
            && (s.tx.Some? && !s.quotaBlocked ==> outcome == Ok(Existing(s.tx.value)))
            && (outcome == Ok(SessionSpawned(n.generation)) <==> s.tx.None? && n.tx.Some?)
  {
  }

  /** A stopped session is finalised by the recorder that ran it. */
  lemma SessionStopReports(s: Inner)
    ensures var (_, outcome) := StopSession(s, true);
            outcome.Ok? && outcome.value.0 == s.tx
  {
  }

  lemma GateReports(s: Inner, answer: Lookup, builds: bool)
    ensures var (n, outcome) := ResolveGate(s, answer, builds);
            && (outcome == Ok(None) <==> !s.lookup || answer.Unresolved?)
            && (outcome == Ok(Some(Deny)) <==>
                  s.lookup && answer.Resolved? && answer.category !in s.settings.recordedQueues)
            && (outcome == Ok(Some(Allow(None))) <==>
                  s.lookup && answer.Resolved? && answer.category in s.settings.recordedQueues && s.manual)
  {
  }

  lemma CommitReports(s: Inner, settings: Settings, builds: bool, service: ServiceId)
    ensures var (n, outcome) := CommitSettings(s, settings, builds, service);
            outcome.Ok? ==>
              && outcome.value.oldTx == s.tx
              && (outcome.value.clearedGame <==> s.game.Some? && n.game.None?)
              && outcome.value.replacement == if n.tx.Some? then Some(n.generation) else None
  {
  }

  // ---- What a thread does outside the lock ----

  lemma SpawnAchieves(w: World, t: TaskId, s: ServiceId)
    requires Enabled(w, Spawn(t, s))
    ensures var n := Next(w, Spawn(t, s));
            && n.inner == w.inner && s in n.spawned && n.tasks.Keys == w.tasks.Keys
            && n.tasks[t] == Holding(s, PlanOf(w.tasks[t]).value)
  {
  }

  /** An accepted service is installed under a new generation; a refused one is owed a Stop. */
  lemma InstallAchieves(w: World, t: TaskId)
    requires Enabled(w, Install(t)) && Consistent(w)
    ensures var n := Next(w, Install(t));
            var Holding(s, generation) := w.tasks[t];
            if generation == w.inner.generation && !w.inner.quotaBlocked then
              && n.inner == w.inner.(tx := Some(s), generation := w.inner.generation + 1)
              && n.tasks == w.tasks - {t} && n.pumps == w.pumps[s := n.inner.generation]
            else
              n.inner == w.inner && Holds(n, t, s) && PlanOf(n.tasks[t]).None?
  {
    var Holding(s, generation) := w.tasks[t];
    assert PlanIs(w, t, generation);
  }

  /** From a fresh program a start is all it takes: with nothing forbidding it the recorder runs. */
  lemma FirstStartRuns(settings: Settings, s: ServiceId)
    requires !(settings.autoDetect && settings.pauseWhenNoGame)
    ensures var w := InitialWorld(settings);
            Enabled(w, Start(true, s)) && Next(w, Start(true, s)).inner.tx == Some(s)
  {
    StartAchieves(InitialWorld(settings), true, s);
  }

  /** Whatever stopped the recorder and whatever is in flight, the user can have it back: a stop and a
      start later it runs again, unless quota, policy or gate forbid it. */
  lemma StopThenStartRuns(w: World, t: TaskId, s: ServiceId)
    requires Enabled(w, Stop(t)) && s !in w.spawned
    requires !w.inner.quotaBlocked && MayRecord(w.inner.(manual := false))
    ensures var stopped := Next(w, Stop(t));
            Enabled(stopped, Start(true, s)) && Next(stopped, Start(true, s)).inner.tx == Some(s)
  {
    StopAchieves(w, t);
    StartAchieves(Next(w, Stop(t)), true, s);
  }
}
