/** The recorder supervisor's protected state and the effect of each critical section on it
    (apps/clipline-app/src/app.rs).  Every function below is one lock-to-unlock section, as a
    function from the state found to the state left behind. */
module RecorderState {
  import opened Wrappers

  /** Identifies one spawned recorder service and the command channel that feeds it. */
  type ServiceId = nat

  datatype Identity = BuiltIn(id: string) | Custom(id: string)

  const LEAGUE_OF_LEGENDS_ID := "league_of_legends"

  datatype Game = Game(identity: Identity, window: int, fullSession: bool, title: string)

  datatype QueueCategory =
    RankedSoloDuo | RankedFlex | Normal | Aram | Arena | CustomGame | Replay | Other

  /** The settings the supervisor reads.  `configured` holds the identities still enabled in the
      game list; `recordedQueues` the League queue tags to record, `None` being the unknown tag. */
  datatype Settings = Settings(
    autoDetect: bool,
    pauseWhenNoGame: bool,
    configured: set<Identity>,
    recordedQueues: set<Option<QueueCategory>>)

  datatype Verdict = Pending | Allowed | Denied

  datatype Inner = Inner(
    tx: Option<ServiceId>,
    generation: nat,
    desired: bool,
    manual: bool,
    settings: Settings,
    game: Option<Game>,
    gate: Option<Verdict>,
    lookup: bool,
    quotaBlocked: bool)

  /** What a restart prepared under the lock still has to do outside it. */
  datatype Prepared = Prepared(
    oldTx: Option<ServiceId>,
    replacement: Option<nat>,
    waitingGeneration: Option<nat>)

  /** What a committed settings change still has to do; the replacement is already installed. */
  datatype Committed = Committed(
    oldTx: Option<ServiceId>,
    replacement: Option<nat>,
    clearedGame: bool,
    waitingGeneration: Option<nat>)

  datatype StartOutcome = AlreadyRunning | Blocked | Spawned(generation: nat) | NotStarted

  datatype SessionOutcome = SessionBlocked | Existing(tx: ServiceId) | SessionSpawned(generation: nat)

  datatype Lookup = Unresolved | Resolved(category: Option<QueueCategory>)

  datatype Resolution = Allow(restart: Option<Prepared>) | Deny

  /** Building the service options failed. */
  datatype BuildError = BuildError

  function Initial(settings: Settings): Inner {
    Inner(None, 0, false, false, settings, None, None, false, false)
  }

  predicate RecorderShouldRun(settings: Settings, game: Option<Game>) {
    !settings.autoDetect || !settings.pauseWhenNoGame || game.Some?
  }

  predicate GateAllows(gate: Option<Verdict>) {
    gate != Some(Pending) && gate != Some(Denied)
  }

  const ALL_QUEUES: set<Option<QueueCategory>> :=
    {Some(RankedSoloDuo), Some(RankedFlex), Some(Normal), Some(Aram), Some(Arena),
     Some(CustomGame), Some(Replay), Some(Other), None}

  predicate HasGate(settings: Settings) {
    !(ALL_QUEUES <= settings.recordedQueues)
  }

  predicate GateApplies(settings: Settings, game: Option<Game>) {
    HasGate(settings) && game.Some? && game.value.identity.id == LEAGUE_OF_LEGENDS_ID
  }

  predicate AutomaticStartAllowed(s: Inner) {
    RecorderShouldRun(s.settings, s.game) && GateAllows(s.gate)
  }

  /** A manual session bypasses both the games-only policy and the League gate. */
  predicate MayRecord(s: Inner) {
    s.manual || AutomaticStartAllowed(s)
  }

  predicate StillConfigured(settings: Settings, game: Option<Game>) {
    game.None? || (settings.autoDetect && game.value.identity in settings.configured)
  }

  predicate SameWindow(current: Option<Game>, next: Option<Game>) {
    match (current, next)
    case (Some(c), Some(n)) => c.identity == n.identity && c.window == n.window
    case (None, None) => true
    case _ => false
  }

  predicate ModeChanged(current: Option<Game>, next: Option<Game>) {
    current.Some? && next.Some? && current.value.fullSession != next.value.fullSession
  }

  function Bump(s: Inner): Inner {
    s.(generation := s.generation + 1)
  }

  function InstallSender(s: Inner, tx: ServiceId): Inner {
    Bump(s).(desired := true, tx := Some(tx))
  }

  function AcceptStatus(s: Inner, generation: nat, recording: bool): (Inner, bool) {
    if s.generation != generation || s.tx.None? then (s, false)
    else if recording then (s, true)
    else if s.quotaBlocked then (Bump(s).(tx := None), true)
    else (Bump(s).(tx := None, desired := false, manual := false), true)
  }

  function AcceptQuota(s: Inner, generation: nat): (Inner, bool) {
    if s.generation != generation || s.tx.None? then (s, false)
    else (s.(quotaBlocked := true), true)
  }

  predicate ShouldRun(s: Inner) {
    s.desired && !s.quotaBlocked && MayRecord(s)
  }

  predicate WaitsForGame(s: Inner) {
    s.desired && !s.quotaBlocked && !s.manual && !RecorderShouldRun(s.settings, s.game)
  }

  function PrepareRestart(s: Inner, builds: bool): (Inner, Result<Prepared, BuildError>) {
    if ShouldRun(s) && !builds then
      (if s.tx.None? then Bump(s) else s, Err(BuildError))
    else
      var next := Bump(s).(tx := None);
      (next, Ok(Prepared(
                  s.tx,
                  if ShouldRun(s) then Some(next.generation) else None,
                  if WaitsForGame(s) then Some(next.generation) else None)))
  }

  function InstallPrepared(s: Inner, generation: nat, tx: ServiceId): (Inner, bool) {
    if !s.desired || s.quotaBlocked || s.generation != generation || s.tx.Some? then (s, false)
    else (InstallSender(s, tx), true)
  }

  /** The settings commit spawns its replacement `spawned` without releasing the lock. */
  function CommitSettings(s: Inner, settings: Settings, builds: bool, spawned: ServiceId)
    : (Inner, Result<Committed, BuildError>)
  {
    var cleared := s.game.Some? && !StillConfigured(settings, s.game);
    var game := if cleared then None else s.game;
    var baseShouldRun := RecorderShouldRun(settings, game);
    var gateAllows := cleared || GateAllows(s.gate);
    var shouldRun := s.desired && !s.quotaBlocked && (s.manual || (baseShouldRun && gateAllows));
    var waiting := s.desired && !s.quotaBlocked && !s.manual && !baseShouldRun;
    if shouldRun && !builds then (s, Err(BuildError))
    else
      var applied := s.(settings := settings, game := game,
                        gate := if cleared then None else s.gate,
                        lookup := if cleared then false else s.lookup);
      var next := if shouldRun then InstallSender(applied, spawned) else applied.(tx := None);
      var final := if waiting then Bump(next) else next;
      (final, Ok(Committed(
                   s.tx,
                   if shouldRun then Some(next.generation) else None,
                   cleared,
                   if waiting then Some(final.generation) else None)))
  }

  /** The waiting state announced under generation `g` is still the truth. */
  predicate WaitingIsCurrent(s: Inner, g: nat) {
    s.generation == g && s.desired && s.tx.None? && !s.manual && !RecorderShouldRun(s.settings, s.game)
  }

  /** A restart announces that the recorder waits for a game exactly when it does. */
  lemma WaitingIsAnnouncedTruly(s: Inner, settings: Settings, builds: bool, spawned: ServiceId)
    ensures var (n, prepared) := PrepareRestart(s, builds);
            prepared.Ok? ==>
              (prepared.value.waitingGeneration ==
               if WaitingIsCurrent(n, n.generation) && !n.quotaBlocked then Some(n.generation) else None)
    ensures var (n, committed) := CommitSettings(s, settings, builds, spawned);
            committed.Ok? ==>
              (committed.value.waitingGeneration ==
               if WaitingIsCurrent(n, n.generation) && !n.quotaBlocked then Some(n.generation) else None)
  {
  }

  function StartRecording(s: Inner, builds: bool, spawned: ServiceId)
    : (Inner, Result<StartOutcome, BuildError>)
  {
    if s.tx.Some? then (s, Ok(AlreadyRunning))
    else
      var wanted := s.(desired := true);
      if wanted.quotaBlocked then (wanted, Ok(Blocked))
      else if !MayRecord(wanted) then (wanted, Ok(NotStarted))
      else if !builds then (wanted, Err(BuildError))
      else
        var next := InstallSender(wanted, spawned);
        (next, Ok(Spawned(next.generation)))
  }

  function StopRecording(s: Inner): (Inner, Option<ServiceId>) {
    (Bump(s).(desired := false, manual := false, tx := None), s.tx)
  }

  function StartSession(s: Inner, builds: bool, spawned: ServiceId)
    : (Inner, Result<SessionOutcome, BuildError>)
  {
    if s.quotaBlocked then (s, Ok(SessionBlocked))
    else
      var armed := s.(manual := true, desired := true);
      if armed.tx.Some? then (armed, Ok(Existing(armed.tx.value)))
      else if !builds then (armed, Err(BuildError))
      else
        var next := InstallSender(armed, spawned);
        (next, Ok(SessionSpawned(next.generation)))
  }

  /** Stopping a manual session: the channel to tell, and a restart when nothing may keep running. */
  function StopSession(s: Inner, builds: bool)
    : (Inner, Result<(Option<ServiceId>, Option<Prepared>), BuildError>)
  {
    var plain := s.(manual := false);
    if plain.desired && !plain.quotaBlocked && !AutomaticStartAllowed(plain) then
      var (next, prepared) := PrepareRestart(plain, builds);
      match prepared
      case Ok(p) => (next, Ok((p.oldTx, Some(p))))
      case Err(error) => (next, Err(error))
    else (plain, Ok((plain.tx, None)))
  }

  /** `lookup` says whether the detector brought a way to ask for the League queue. */
  function DetectGame(s: Inner, seen: Option<Game>, lookup: bool, builds: bool)
    : (Inner, Result<Option<Prepared>, BuildError>)
  {
    var detected := if StillConfigured(s.settings, seen) then seen else None;
    if SameWindow(s.game, detected) then
      var next := s.(game := detected);
      if ModeChanged(s.game, detected) then Replanned(next, builds) else (next, Ok(None))
    else
      var gated := GateApplies(s.settings, detected) && lookup;
      var next := s.(game := detected,
                     gate := if gated then Some(Pending) else None,
                     lookup := gated);
      Replanned(next, builds)
  }

  function Replanned(s: Inner, builds: bool): (Inner, Result<Option<Prepared>, BuildError>) {
    var (next, prepared) := PrepareRestart(s, builds);
    match prepared
    case Ok(p) => (next, Ok(Some(p)))
    case Err(error) => (next, Err(error))
  }

  function ResolveGate(s: Inner, answer: Lookup, builds: bool)
    : (Inner, Result<Option<Resolution>, BuildError>)
  {
    if !s.lookup || answer.Unresolved? then (s, Ok(None))
    else
      var drained := s.(lookup := false);
      if answer.category in s.settings.recordedQueues then
        var allowed := drained.(gate := Some(Allowed));
        if allowed.manual then (allowed, Ok(Some(Allow(None))))
        else
          var (next, prepared) := PrepareRestart(allowed, builds);
          match prepared
          case Ok(p) => (next, Ok(Some(Allow(Some(p)))))
          case Err(error) => (next, Err(error))
      else (drained.(gate := Some(Denied)), Ok(Some(Deny)))
  }

  /** First section of a quota recheck: only a blocked, already stopped recorder is looked into. */
  predicate RecheckProceeds(s: Inner) {
    s.quotaBlocked && s.tx.None?
  }

  /** Second section of a quota recheck; when the quota is resolved the caller restarts if wanted. */
  function SettleRecheck(s: Inner, over: bool): (Inner, bool) {
    (s.(quotaBlocked := over), !over && s.desired)
  }
}
