/** Every interleaving of the recorder supervisor's threads.

    The state found under the lock is `inner`; `tasks` are the threads between two critical
    sections; the sets record what has become of every service ever spawned.  One `Event` is one
    critical section, or one action a thread takes outside the lock.

    The commands of the user interface (start, stop, saving settings, rechecking the quota) all run on
    the main thread, one at a time, so none of them begins inside a quota recheck.  The detector, the
    services' pumps and the hotkey hook have threads of their own and may act at any moment. */
module Supervisor {
  import opened Wrappers
  import opened RecorderState

  type TaskId = nat

  datatype Task =
    /** Left a critical section owing `outgoing` a Stop and then, if there is a plan, a spawn. */
    | Finishing(outgoing: Option<ServiceId>, plan: Option<nat>)
    /** Spawned outside the lock for plan `generation`, not yet offered for installation. */
    | Holding(service: ServiceId, generation: nat)
    /** A quota recheck between its two critical sections. */
    | Rechecking
    /** A resolved quota recheck about to call start_recording. */
    | TailStarting

  datatype World = World(
    inner: Inner,
    tasks: map<TaskId, Task>,
    spawned: set<ServiceId>,
    stopped: set<ServiceId>,
    ended: set<ServiceId>,
    pumps: map<ServiceId, nat>)

  datatype Event =
    | ServiceStatus(service: ServiceId, recording: bool)
    | ServiceQuota(service: ServiceId)
    | Detect(task: TaskId, seen: Option<Game>, lookup: bool, builds: bool)
    | GateTick(task: TaskId, answer: Lookup, builds: bool)
    | SaveSettings(task: TaskId, settings: Settings, builds: bool, service: ServiceId)
    | Start(builds: bool, service: ServiceId)
    | Stop(task: TaskId)
    | SessionStart(builds: bool, service: ServiceId)
    | SessionStop(task: TaskId)
    | SendStop(task: TaskId)
    | Spawn(task: TaskId, service: ServiceId)
    | Install(task: TaskId)
    | RecheckBegin(task: TaskId)
    | RecheckFail(task: TaskId)
    | RecheckSettle(task: TaskId, over: bool)
    | TailStart(task: TaskId, builds: bool, service: ServiceId)

  function InitialWorld(settings: Settings): World {
    World(Initial(settings), map[], {}, {}, {}, map[])
  }

  /** The generation an in-flight plan will present when it asks to be installed. */
  function PlanOf(t: Task): Option<nat> {
    match t
    case Finishing(_, plan) => plan
    case Holding(_, generation) => Some(generation)
    case _ => None
  }

  /** The service a task alone is responsible for installing or stopping. */
  function HeldBy(t: Task): Option<ServiceId> {
    match t
    case Finishing(outgoing, _) => outgoing
    case Holding(service, _) => Some(service)
    case _ => None
  }

  predicate InRecheck(t: Task) {
    t.Rechecking? || t.TailStarting?
  }

  /** The main thread is not inside a quota recheck. */
  predicate MainThreadFree(w: World) {
    forall t <- w.tasks :: !InRecheck(w.tasks[t])
  }

  predicate Enabled(w: World, e: Event) {
    match e
    case ServiceStatus(s, _) => s in w.pumps
    case ServiceQuota(s) => s in w.pumps
    case Detect(t, _, _, _) => t !in w.tasks
    case GateTick(t, _, _) => t !in w.tasks
    case SaveSettings(t, _, _, s) => MainThreadFree(w) && t !in w.tasks && s !in w.spawned
    case Start(_, s) => MainThreadFree(w) && s !in w.spawned
    case Stop(t) => MainThreadFree(w) && t !in w.tasks
    case SessionStart(_, s) => s !in w.spawned
    case SessionStop(t) => t !in w.tasks
    case SendStop(t) => t in w.tasks && w.tasks[t].Finishing? && w.tasks[t].outgoing.Some?
    case Spawn(t, s) =>
      t in w.tasks && s !in w.spawned && w.tasks[t].Finishing? && w.tasks[t].outgoing.None?
      && w.tasks[t].plan.Some?
    case Install(t) => t in w.tasks && w.tasks[t].Holding?
    case RecheckBegin(t) => MainThreadFree(w) && t !in w.tasks
    case RecheckFail(t) => t in w.tasks && w.tasks[t].Rechecking?
    case RecheckSettle(t, _) => t in w.tasks && w.tasks[t].Rechecking?
    case TailStart(t, _, s) => t in w.tasks && w.tasks[t].TailStarting? && s !in w.spawned
  }

  function Leave(w: World, inner: Inner): World {
    w.(inner := inner)
  }

  /** Leaves `inner` and starts a task, unless it would have nothing left to do. */
  function Begin(w: World, inner: Inner, t: TaskId, outgoing: Option<ServiceId>, plan: Option<nat>): World {
    if outgoing.None? && plan.None? then Leave(w, inner)
    else w.(inner := inner, tasks := w.tasks[t := Finishing(outgoing, plan)])
  }

  function BeginPrepared(w: World, inner: Inner, t: TaskId, p: Prepared): World {
    Begin(w, inner, t, p.oldTx, p.replacement)
  }

  /** Leaves `inner`, where `s` was spawned and installed inside the section. */
  function Installed(w: World, inner: Inner, s: ServiceId): World {
    w.(inner := inner, spawned := w.spawned + {s}, pumps := w.pumps[s := inner.generation])
  }

  function Done(w: World, t: TaskId): World {
    w.(tasks := w.tasks - {t})
  }

  function Started(w: World, builds: bool, s: ServiceId): World {
    var (inner, outcome) := StartRecording(w.inner, builds, s);
    if outcome.Ok? && outcome.value.Spawned? then Installed(w, inner, s) else Leave(w, inner)
  }

  function Next(w: World, e: Event): World
    requires Enabled(w, e)
  {
    match e
    case ServiceStatus(s, recording) =>
      var (inner, _) := AcceptStatus(w.inner, w.pumps[s], recording);
      w.(inner := inner, ended := if recording then w.ended else w.ended + {s})
    case ServiceQuota(s) =>
      Leave(w, AcceptQuota(w.inner, w.pumps[s]).0)
    case Detect(t, seen, lookup, builds) =>
      var (inner, outcome) := DetectGame(w.inner, seen, lookup, builds);
      if outcome.Ok? && outcome.value.Some? then BeginPrepared(w, inner, t, outcome.value.value)
      else Leave(w, inner)
    case GateTick(t, answer, builds) =>
      var (inner, outcome) := ResolveGate(w.inner, answer, builds);
      var restart := RestartOf(outcome);
      if restart.Some? then BeginPrepared(w, inner, t, restart.value) else Leave(w, inner)
    case SaveSettings(t, settings, builds, s) =>
      var (inner, outcome) := CommitSettings(w.inner, settings, builds, s);
      if outcome.Err? then Leave(w, inner)
      else
        var committed := outcome.value;
        var next := if committed.replacement.Some? then Installed(w, inner, s) else Leave(w, inner);
        Begin(next, inner, t, committed.oldTx, None)
    case Start(builds, s) => Started(w, builds, s)
    case Stop(t) =>
      var (inner, tx) := StopRecording(w.inner);
      Begin(w, inner, t, tx, None)
    case SessionStart(builds, s) =>
      var (inner, outcome) := StartSession(w.inner, builds, s);
      if outcome.Ok? && outcome.value.SessionSpawned? then Installed(w, inner, s) else Leave(w, inner)
    case SessionStop(t) =>
      // The section never builds options: with the gate or policy closed nothing is to be started.
      var (inner, outcome) := StopSession(w.inner, true);
      if outcome.Ok? && outcome.value.1.Some? then BeginPrepared(w, inner, t, outcome.value.1.value)
      else Leave(w, inner)
    case SendStop(t) =>
      var Finishing(outgoing, plan) := w.tasks[t];
      var told := w.(stopped := w.stopped + {outgoing.value});
      if plan.Some? then told.(tasks := w.tasks[t := Finishing(None, plan)]) else Done(told, t)
    case Spawn(t, s) =>
      w.(spawned := w.spawned + {s}, tasks := w.tasks[t := Holding(s, w.tasks[t].plan.value)])
    case Install(t) =>
      var Holding(s, generation) := w.tasks[t];
      var (inner, accepted) := InstallPrepared(w.inner, generation, s);
      if accepted then Done(w.(inner := inner, pumps := w.pumps[s := inner.generation]), t)
      else w.(tasks := w.tasks[t := Finishing(Some(s), None)])
    case RecheckBegin(t) =>
      if RecheckProceeds(w.inner) then w.(tasks := w.tasks[t := Rechecking]) else w
    case RecheckFail(t) => Done(w, t)
    case RecheckSettle(t, over) =>
      var (inner, restart) := SettleRecheck(w.inner, over);
      if restart then w.(inner := inner, tasks := w.tasks[t := TailStarting])
      else Done(Leave(w, inner), t)
    case TailStart(t, builds, s) => Done(Started(w, builds, s), t)
  }

  /** The protected state an event leaves, apart from what it does to tasks and services. */
  function InnerAfter(w: World, e: Event): Inner
    requires Enabled(w, e)
  {
    match e
    case ServiceStatus(s, recording) => AcceptStatus(w.inner, w.pumps[s], recording).0
    case ServiceQuota(s) => AcceptQuota(w.inner, w.pumps[s]).0
    case Detect(_, seen, lookup, builds) => DetectGame(w.inner, seen, lookup, builds).0
    case GateTick(_, answer, builds) => ResolveGate(w.inner, answer, builds).0
    case SaveSettings(_, settings, builds, s) => CommitSettings(w.inner, settings, builds, s).0
    case Start(builds, s) => StartRecording(w.inner, builds, s).0
    case Stop(_) => StopRecording(w.inner).0
    case SessionStart(builds, s) => StartSession(w.inner, builds, s).0
    case SessionStop(_) => StopSession(w.inner, true).0
    case Install(t) => InstallPrepared(w.inner, w.tasks[t].generation, w.tasks[t].service).0
    case RecheckSettle(_, over) => SettleRecheck(w.inner, over).0
    case TailStart(_, builds, s) => StartRecording(w.inner, builds, s).0
    case _ => w.inner
  }

  lemma NextLeaves(w: World, e: Event)
    requires Enabled(w, e)
    ensures Next(w, e).inner == InnerAfter(w, e)
  {
    match e
    case Detect(_, _, _, _) =>
    case GateTick(_, _, _) =>
    case SaveSettings(_, _, _, _) =>
    case SessionStop(_) =>
    case _ =>
  }

  // ---- Runs ----

  /** `es` can be taken one after the other from `w`. */
  predicate CanRun(w: World, es: seq<Event>)
    decreases |es|
  {
    es == [] || (Enabled(w, es[0]) && CanRun(Next(w, es[0]), es[1..]))
  }

  function Run(w: World, es: seq<Event>): World
    requires CanRun(w, es)
    decreases |es|
  {
    if es == [] then w else Run(Next(w, es[0]), es[1..])
  }

  // ---- What every step keeps ----

  predicate Holds(w: World, t: TaskId, s: ServiceId) {
    t in w.tasks && HeldBy(w.tasks[t]) == Some(s)
  }

  predicate PlanIs(w: World, t: TaskId, generation: nat) {
    t in w.tasks && PlanOf(w.tasks[t]) == Some(generation)
  }

  /** Some in-flight plan would still be accepted as far as its generation goes. */
  ghost predicate CurrentPlan(w: World) {
    exists t :: PlanIs(w, t, w.inner.generation)
  }

  /** Generations identify services: a pump's generation is that of its installation, no two agree,
      and the installed service is the one pumping the current generation. */
  ghost predicate Generations(w: World) {
    && w.pumps.Keys <= w.spawned
    && (forall s <- w.pumps :: w.pumps[s] <= w.inner.generation)
    && (forall r <- w.pumps, s <- w.pumps :: w.pumps[r] == w.pumps[s] ==> r == s)
    && (forall t, g: nat :: PlanIs(w, t, g) ==> g <= w.inner.generation)
    && (w.inner.tx.Some? ==>
          && w.inner.tx.value in w.pumps
          && w.pumps[w.inner.tx.value] == w.inner.generation
          && !CurrentPlan(w))
  }

  /** A plan that could still be installed was not overtaken by a user stop. */
  ghost predicate Wanted(w: World) {
    && (CurrentPlan(w) ==> w.inner.desired)
    && (w.inner.lookup ==> w.inner.gate == Some(Pending))
  }

  ghost predicate Accounted(w: World, s: ServiceId) {
    w.inner.tx == Some(s) || s in w.stopped || s in w.ended || exists t :: Holds(w, t, s)
  }

  /** Every service is somebody's: installed, told to stop, ended, or held by one task alone. */
  ghost predicate Ownership(w: World) {
    && w.stopped <= w.spawned
    && (forall s <- w.spawned :: Accounted(w, s))
    && (forall t, s: ServiceId :: Holds(w, t, s) ==> s in w.spawned && s !in w.stopped && w.inner.tx != Some(s))
    && (forall t, u, s: ServiceId :: Holds(w, t, s) && Holds(w, u, s) ==> t == u)
    && (w.inner.tx.Some? ==> w.inner.tx.value in w.spawned && w.inner.tx.value !in w.stopped)
  }

  ghost predicate Consistent(w: World) {
    Generations(w) && Wanted(w) && Ownership(w)
  }

  // The shapes a critical section can take, as far as ownership is concerned.

  predicate LookupPends(s: Inner) {
    s.lookup ==> s.gate == Some(Pending)
  }

  predicate Untouched(s: Inner, n: Inner) {
    n.tx == s.tx && n.generation == s.generation && (s.desired ==> n.desired)
  }

  predicate Vacated(s: Inner, n: Inner) {
    n.tx.None? && s.generation <= n.generation
    && (n.generation == s.generation && s.desired ==> n.desired)
  }

  predicate Replaced(s: Inner, n: Inner, service: ServiceId) {
    n.tx == Some(service) && s.generation < n.generation && n.desired
  }

  lemma LeaveKeeps(w: World, n: Inner)
    requires Consistent(w) && LookupPends(n) && Untouched(w.inner, n)
    ensures Consistent(Leave(w, n))
  {
    assert forall t, s: ServiceId :: Holds(Leave(w, n), t, s) == Holds(w, t, s);
    assert forall t, g: nat :: PlanIs(Leave(w, n), t, g) == PlanIs(w, t, g);
  }

  lemma BeginKeeps(w: World, n: Inner, t: TaskId, plan: Option<nat>)
    requires Consistent(w) && LookupPends(n) && Vacated(w.inner, n) && t !in w.tasks
    requires plan.Some? ==> plan.value == n.generation > w.inner.generation && n.desired
    ensures Consistent(Begin(w, n, t, w.inner.tx, plan))
  {
    var b := Begin(w, n, t, w.inner.tx, plan);
    assert forall u, s: ServiceId :: Holds(b, u, s) ==> Holds(w, u, s) || (u == t && w.inner.tx == Some(s));
    assert forall u, s: ServiceId :: Holds(w, u, s) ==> Holds(b, u, s);
    assert w.inner.tx.Some? ==> Holds(b, t, w.inner.tx.value);
    assert forall u, g: nat :: PlanIs(b, u, g) ==> PlanIs(w, u, g) || (u == t && plan == Some(g));
  }

  lemma InstalledKeeps(w: World, n: Inner, service: ServiceId)
    requires Consistent(w) && LookupPends(n) && w.inner.tx.None?
    requires Replaced(w.inner, n, service) && service !in w.spawned
    ensures Consistent(Installed(w, n, service))
  {
    var b := Installed(w, n, service);
    assert forall u, s: ServiceId :: Holds(b, u, s) == Holds(w, u, s);
    assert forall u, g: nat :: PlanIs(b, u, g) == PlanIs(w, u, g);
  }

  lemma SwappedKeeps(w: World, n: Inner, service: ServiceId, t: TaskId)
    requires Consistent(w) && LookupPends(n) && t !in w.tasks
    requires Replaced(w.inner, n, service) && service !in w.spawned
    ensures Consistent(Begin(Installed(w, n, service), n, t, w.inner.tx, None))
  {
    var b := Begin(Installed(w, n, service), n, t, w.inner.tx, None);
    assert forall u, s: ServiceId :: Holds(b, u, s) ==> Holds(w, u, s) || (u == t && w.inner.tx == Some(s));
    assert forall u, s: ServiceId :: Holds(w, u, s) ==> Holds(b, u, s);
    assert w.inner.tx.Some? ==> Holds(b, t, w.inner.tx.value);
    assert forall u, g: nat :: PlanIs(b, u, g) ==> PlanIs(w, u, g);
  }

  lemma StatusKeeps(w: World, s: ServiceId, recording: bool)
    requires Consistent(w) && s in w.pumps
    ensures Consistent(Next(w, ServiceStatus(s, recording)))
  {
    var b := Next(w, ServiceStatus(s, recording));
    assert forall u, s: ServiceId :: Holds(b, u, s) == Holds(w, u, s);
    assert forall u, g: nat :: PlanIs(b, u, g) == PlanIs(w, u, g);
  }

  lemma SendStopKeeps(w: World, t: TaskId)
    requires Consistent(w) && Enabled(w, SendStop(t))
    ensures Consistent(Next(w, SendStop(t)))
  {
    var b := Next(w, SendStop(t));
    var sent := w.tasks[t].outgoing.value;
    assert Holds(w, t, sent);
    forall u, s: ServiceId | Holds(b, u, s) ensures Holds(w, u, s) && s != sent {
      assert u != t && Holds(w, u, s);
    }
    assert forall u, s: ServiceId :: Holds(w, u, s) && s != sent ==> Holds(b, u, s);
    assert forall u, g: nat :: PlanIs(b, u, g) ==> PlanIs(w, u, g);
  }

  lemma SpawnKeeps(w: World, t: TaskId, service: ServiceId)
    requires Consistent(w) && Enabled(w, Spawn(t, service))
    ensures Consistent(Next(w, Spawn(t, service)))
  {
    var b := Next(w, Spawn(t, service));
    assert forall u, s: ServiceId :: Holds(b, u, s) ==> Holds(w, u, s) || (u == t && s == service);
    assert forall u, s: ServiceId :: Holds(w, u, s) ==> Holds(b, u, s);
    assert Holds(b, t, service);
    assert forall u, g: nat :: PlanIs(b, u, g) == PlanIs(w, u, g);
  }

  lemma InstallKeeps(w: World, t: TaskId)
    requires Consistent(w) && Enabled(w, Install(t))
    ensures Consistent(Next(w, Install(t)))
  {
    var Holding(service, generation) := w.tasks[t];
    var (inner, accepted) := InstallPrepared(w.inner, generation, service);
    assert Holds(w, t, service);
    if accepted {
      AcceptedKeeps(w, inner, t, service);
    } else {
      var b := w.(tasks := w.tasks[t := Finishing(Some(service), None)]);
      assert forall u, s: ServiceId :: Holds(b, u, s) == Holds(w, u, s);
      assert forall u, g: nat :: PlanIs(b, u, g) ==> PlanIs(w, u, g);
    }
  }

  lemma AcceptedKeeps(w: World, n: Inner, t: TaskId, service: ServiceId)
    requires Consistent(w) && LookupPends(n) && w.inner.tx.None? && Holds(w, t, service)
    requires n.tx == Some(service) && n.generation == w.inner.generation + 1 && n.desired
    ensures Consistent(Done(w.(inner := n, pumps := w.pumps[service := n.generation]), t))
  {
    var b := Done(w.(inner := n, pumps := w.pumps[service := n.generation]), t);
    assert forall u, s: ServiceId :: Holds(b, u, s) == (Holds(w, u, s) && u != t);
    assert forall u, g: nat :: PlanIs(b, u, g) ==> PlanIs(w, u, g);
  }

  lemma IdleTasksKeep(w: World, n: World)
    requires Consistent(w)
    requires n == w.(tasks := n.tasks)
    requires forall t, s: ServiceId :: Holds(n, t, s) == Holds(w, t, s)
    requires forall t, g: nat :: PlanIs(n, t, g) == PlanIs(w, t, g)
    ensures Consistent(n)
  {
  }

  /** A section that left the state alone, retired a plan after failing to build, or vacated the
      state for a prepared restart. */
  predicate PlanShape(s: Inner, n: Inner, prepared: Option<Prepared>) {
    && LookupPends(n)
    && (prepared.None? ==> Untouched(s, n) || (s.tx.None? && Vacated(s, n)))
    && (prepared.Some? ==>
          && Vacated(s, n) && prepared.value.oldTx == s.tx
          && (prepared.value.replacement.Some? ==>
                prepared.value.replacement.value == n.generation > s.generation && n.desired))
  }

  lemma PrepareShape(s: Inner, builds: bool)
    requires LookupPends(s)
    ensures var (n, prepared) := PrepareRestart(s, builds);
            PlanShape(s, n, if prepared.Ok? then Some(prepared.value) else None)
  {
  }

  lemma DetectShape(s: Inner, seen: Option<Game>, lookup: bool, builds: bool)
    requires LookupPends(s)
    ensures var (n, outcome) := DetectGame(s, seen, lookup, builds);
            PlanShape(s, n, if outcome.Ok? then outcome.value else None)
  {
    var detected := if StillConfigured(s.settings, seen) then seen else None;
    if SameWindow(s.game, detected) {
      PrepareShape(s.(game := detected), builds);
    } else {
      var gated := GateApplies(s.settings, detected) && lookup;
      PrepareShape(s.(game := detected, gate := if gated then Some(Pending) else None, lookup := gated), builds);
    }
  }

  function RestartOf(outcome: Result<Option<Resolution>, BuildError>): Option<Prepared> {
    if outcome.Ok? && outcome.value.Some? && outcome.value.value.Allow? then outcome.value.value.restart else None
  }

  lemma ResolveShape(s: Inner, answer: Lookup, builds: bool)
    requires LookupPends(s)
    ensures var (n, outcome) := ResolveGate(s, answer, builds);
            PlanShape(s, n, RestartOf(outcome))
  {
    if s.lookup && answer.Resolved? {
      PrepareShape(s.(lookup := false, gate := Some(Allowed)), builds);
    }
  }

  lemma PlannedKeeps(w: World, n: Inner, t: TaskId, prepared: Option<Prepared>)
    requires Consistent(w) && PlanShape(w.inner, n, prepared) && t !in w.tasks
    ensures Consistent(if prepared.Some? then BeginPrepared(w, n, t, prepared.value) else Leave(w, n))
  {
    if prepared.Some? {
      BeginKeeps(w, n, t, prepared.value.replacement);
    } else if Untouched(w.inner, n) {
      LeaveKeeps(w, n);
    } else {
      BeginKeeps(w, n, t, None);
    }
  }

  lemma DetectKeeps(w: World, e: Event)
    requires Consistent(w) && e.Detect? && Enabled(w, e)
    ensures Consistent(Next(w, e))
  {
    var (inner, outcome) := DetectGame(w.inner, e.seen, e.lookup, e.builds);
    DetectShape(w.inner, e.seen, e.lookup, e.builds);
    PlannedKeeps(w, inner, e.task, if outcome.Ok? then outcome.value else None);
  }

  lemma GateTickKeeps(w: World, e: Event)
    requires Consistent(w) && e.GateTick? && Enabled(w, e)
    ensures Consistent(Next(w, e))
  {
    var (inner, outcome) := ResolveGate(w.inner, e.answer, e.builds);
    ResolveShape(w.inner, e.answer, e.builds);
    PlannedKeeps(w, inner, e.task, RestartOf(outcome));
  }

  lemma SaveSettingsKeeps(w: World, e: Event)
    requires Consistent(w) && e.SaveSettings? && Enabled(w, e)
    ensures Consistent(Next(w, e))
  {
    var (inner, outcome) := CommitSettings(w.inner, e.settings, e.builds, e.service);
    if outcome.Err? {
      LeaveKeeps(w, inner);
    } else if outcome.value.replacement.Some? {
      SwappedKeeps(w, inner, e.service, e.task);
    } else {
      BeginKeeps(w, inner, e.task, None);
    }
  }

  lemma SessionKeeps(w: World, e: Event)
    requires Consistent(w) && (e.SessionStart? || e.SessionStop?) && Enabled(w, e)
    ensures Consistent(Next(w, e))
  {
    if e.SessionStop? {
      var (inner, outcome) := StopSession(w.inner, true);
      PlannedKeeps(w, inner, e.task, if outcome.Ok? then outcome.value.1 else None);
    } else {
      var (inner, outcome) := StartSession(w.inner, e.builds, e.service);
      if outcome.Ok? && outcome.value.SessionSpawned? {
        InstalledKeeps(w, inner, e.service);
      } else {
        LeaveKeeps(w, inner);
      }
    }
  }

  lemma StartedKeeps(w: World, builds: bool, s: ServiceId)
    requires Consistent(w) && s !in w.spawned
    ensures Consistent(Started(w, builds, s))
  {
    var (inner, outcome) := StartRecording(w.inner, builds, s);
    if outcome.Ok? && outcome.value.Spawned? {
      InstalledKeeps(w, inner, s);
    } else {
      LeaveKeeps(w, inner);
    }
  }

  lemma SettleKeeps(w: World, t: TaskId, over: bool)
    requires Consistent(w) && Enabled(w, RecheckSettle(t, over))
    ensures Consistent(Next(w, RecheckSettle(t, over)))
  {
    var middle := Leave(w, SettleRecheck(w.inner, over).0);
    LeaveKeeps(w, middle.inner);
    IdleTasksKeep(middle, Next(w, RecheckSettle(t, over)));
  }

  lemma TailKeeps(w: World, t: TaskId, builds: bool, s: ServiceId)
    requires Consistent(w) && Enabled(w, TailStart(t, builds, s))
    ensures Consistent(Next(w, TailStart(t, builds, s)))
  {
    StartedKeeps(w, builds, s);
    assert t in Started(w, builds, s).tasks && Started(w, builds, s).tasks[t].TailStarting?;
    IdleTasksKeep(Started(w, builds, s), Next(w, TailStart(t, builds, s)));
  }

  /** The invariant is inductive: no event, in any interleaving, breaks it. */
  lemma StepKeepsConsistency(w: World, e: Event)
    requires Enabled(w, e) && Consistent(w)
    ensures Consistent(Next(w, e))
  {
    match e
    case ServiceStatus(s, recording) => StatusKeeps(w, s, recording);
    case ServiceQuota(s) => LeaveKeeps(w, Next(w, e).inner);
    case Detect(_, _, _, _) => DetectKeeps(w, e);
    case GateTick(_, _, _) => GateTickKeeps(w, e);
    case SaveSettings(_, _, _, _) => SaveSettingsKeeps(w, e);
    case Start(builds, s) => StartedKeeps(w, builds, s);
    case Stop(t) => BeginKeeps(w, Next(w, e).inner, t, None);
    case SessionStart(_, _) => SessionKeeps(w, e);
    case SessionStop(_) => SessionKeeps(w, e);
    case SendStop(t) => SendStopKeeps(w, t);
    case Spawn(t, s) => SpawnKeeps(w, t, s);
    case Install(t) => InstallKeeps(w, t);
    case RecheckSettle(t, over) => SettleKeeps(w, t, over);
    case TailStart(t, builds, s) => TailKeeps(w, t, builds, s);
    case _ => IdleTasksKeep(w, Next(w, e));
  }

  lemma {:induction false} RunKeepsConsistency(w: World, es: seq<Event>)
    requires CanRun(w, es) && Consistent(w)
    ensures Consistent(Run(w, es))
    decreases |es|
  {
    if es != [] {
      StepKeepsConsistency(w, es[0]);
      RunKeepsConsistency(Next(w, es[0]), es[1..]);
    }
  }

  // ---- No orphan recorder ----

  /** After any run, a spawned service is installed, told to stop, ended, or held by exactly one
      task; a held one is neither installed nor told already. */
  lemma NoOrphanRecorder(settings: Settings, es: seq<Event>, s: ServiceId)
    requires CanRun(InitialWorld(settings), es)
    requires s in Run(InitialWorld(settings), es).spawned
    ensures var w := Run(InitialWorld(settings), es);
            && Accounted(w, s)
            && forall t, u :: Holds(w, t, s) && Holds(w, u, s) ==>
                 t == u && s !in w.stopped && w.inner.tx != Some(s)
  {
    RunKeepsConsistency(InitialWorld(settings), es);
  }

  /** The task holding a service can always act, and acting installs the service or tells it. */
  lemma HolderInstallsOrStops(w: World, t: TaskId, s: ServiceId)
    requires Holds(w, t, s)
    ensures w.tasks[t].Finishing? ==> Enabled(w, SendStop(t)) && s in Next(w, SendStop(t)).stopped
    ensures w.tasks[t].Holding? ==>
              && Enabled(w, Install(t))
              && var n := Next(w, Install(t));
                 || n.inner.tx == Some(s)
                 || (Holds(n, t, s) && Enabled(n, SendStop(t)) && s in Next(n, SendStop(t)).stopped)
  {
  }

  // ---- Stale isolation ----

  /** A status or quota event counts exactly when its service is the installed one; any other
      service's event changes nothing. */
  lemma OnlyTheInstalledServiceIsHeard(settings: Settings, es: seq<Event>, s: ServiceId, recording: bool)
    requires CanRun(InitialWorld(settings), es)
    requires s in Run(InitialWorld(settings), es).pumps
    ensures var w := Run(InitialWorld(settings), es);
            var (status, heard) := AcceptStatus(w.inner, w.pumps[s], recording);
            var (quota, blocked) := AcceptQuota(w.inner, w.pumps[s]);
            && (heard <==> w.inner.tx == Some(s)) && (blocked <==> w.inner.tx == Some(s))
            && (!heard ==> status == w.inner && quota == w.inner)
  {
    RunKeepsConsistency(InitialWorld(settings), es);
  }

  // ---- User stop and quota win ----

  ghost predicate TailPending(w: World) {
    exists t :: t in w.tasks && w.tasks[t].TailStarting?
  }

  predicate StartsByRequest(e: Event) {
    e.Start? || e.SessionStart?
  }

  /** Nobody wants a recorder, there is none, and no recheck is about to start one. */
  ghost predicate Stopped(w: World) {
    w.inner.tx.None? && !w.inner.desired && !TailPending(w)
  }

  lemma StoppedStep(w: World, e: Event)
    requires Enabled(w, e) && !StartsByRequest(e) && !e.TailStart? && w.inner.tx.None? && !w.inner.desired
    ensures InnerAfter(w, e).tx.None? && !InnerAfter(w, e).desired
  {
  }

  /** Only a recheck that finds a recorder wanted goes on to start one. */
  lemma TailsAfter(w: World, e: Event, t: TaskId)
    requires Enabled(w, e) && t in Next(w, e).tasks && Next(w, e).tasks[t].TailStarting?
    ensures (t in w.tasks && w.tasks[t].TailStarting?) || (e.RecheckSettle? && w.inner.desired)
  {
    match e
    case Detect(_, _, _, _) =>
    case GateTick(_, _, _) =>
    case SaveSettings(_, _, _, _) =>
    case _ =>
  }

  lemma StoppedStaysStopped(w: World, e: Event)
    requires Enabled(w, e) && Stopped(w) && !StartsByRequest(e)
    ensures Stopped(Next(w, e))
  {
    StoppedStep(w, e);
    NextLeaves(w, e);
    if TailPending(Next(w, e)) {
      var t :| t in Next(w, e).tasks && Next(w, e).tasks[t].TailStarting?;
      TailsAfter(w, e, t);
    }
  }

  lemma {:induction false} StoppedRun(w: World, es: seq<Event>)
    requires CanRun(w, es) && Stopped(w)
    requires forall e <- es :: !StartsByRequest(e)
    ensures Stopped(Run(w, es))
    decreases |es|
  {
    if es != [] {
      assert !StartsByRequest(es[0]);
      StoppedStaysStopped(w, es[0]);
      StoppedRun(Next(w, es[0]), es[1..]);
    }
  }

  /** Once the user stopped the recorder nothing but the user's own start, of the recorder or of a
      session, brings one back, whatever plans, lookups and detections were under way and however
      often the quota is rechecked. */
  lemma UserStopWins(w: World, t: TaskId, es: seq<Event>)
    requires Enabled(w, Stop(t)) && CanRun(Next(w, Stop(t)), es)
    requires forall e <- es :: !StartsByRequest(e)
    ensures Run(Next(w, Stop(t)), es).inner.tx.None?
  {
    StoppedRun(Next(w, Stop(t)), es);
  }

  /** While the quota block is set no event installs or replaces a recorder; and the blocked
      recorder's own stop keeps the intent to record. */
  lemma QuotaBlockWins(w: World, e: Event)
    requires Enabled(w, e) && w.inner.quotaBlocked
    ensures Next(w, e).inner.tx.Some? ==> Next(w, e).inner.tx == w.inner.tx
    ensures e.ServiceStatus? ==>
              Next(w, e).inner.desired == w.inner.desired && Next(w, e).inner.manual == w.inner.manual
  {
    NextLeaves(w, e);
    BlockedStep(w, e);
  }

  lemma BlockedStep(w: World, e: Event)
    requires Enabled(w, e) && w.inner.quotaBlocked
    ensures var n := InnerAfter(w, e);
            && (n.tx.Some? ==> n.tx == w.inner.tx)
            && (e.ServiceStatus? ==> n.desired == w.inner.desired && n.manual == w.inner.manual)
  {
  }

  // ---- No lost restart ----

  /** A wanted, allowed and unblocked recorder is running, or something is under way to start it. */
  ghost predicate IntentCovered(w: World) {
    ShouldRun(w.inner) && w.inner.tx.None? ==> CurrentPlan(w) || TailPending(w)
  }

  /** Building service options succeeds whenever `e` asks for it. */
  predicate Builds(e: Event) {
    match e
    case Detect(_, _, _, builds) => builds
    case GateTick(_, _, builds) => builds
    case SaveSettings(_, _, builds, _) => builds
    case Start(builds, _) => builds
    case SessionStart(builds, _) => builds
    case TailStart(_, builds, _) => builds
    case _ => true
  }

  predicate Section(e: Event) {
    !(e.SendStop? || e.Spawn? || e.Install? || e.RecheckFail? || e.RecheckSettle? || e.TailStart?)
  }

  /** What a section leaves to be started it has issued a plan for, or it found it so. */
  ghost predicate SectionCovers(w: World, n: World) {
    ShouldRun(n.inner) && n.inner.tx.None? ==>
      || CurrentPlan(n)
      || (n.inner.generation == w.inner.generation && w.inner.tx.None? && ShouldRun(w.inner))
  }

  lemma IssuedPlanIsCurrent(w: World, n: Inner, t: TaskId, p: Prepared)
    requires p.replacement == Some(n.generation)
    ensures CurrentPlan(BeginPrepared(w, n, t, p))
  {
    assert PlanIs(BeginPrepared(w, n, t, p), t, n.generation);
  }

  lemma OtherSectionsIssueNoPlan(w: World, e: Event)
    requires Enabled(w, e) && Section(e) && Builds(e) && !e.Detect? && !e.GateTick?
    ensures var s, n := w.inner, InnerAfter(w, e);
            ShouldRun(n) && n.tx.None? ==> n.generation == s.generation && s.tx.None? && ShouldRun(s)
  {
  }

  lemma SectionCoversIntent(w: World, e: Event)
    requires Enabled(w, e) && Section(e) && Builds(e)
    ensures SectionCovers(w, Next(w, e))
  {
    match e
    case Detect(t, seen, lookup, builds) =>
      var (inner, outcome) := DetectGame(w.inner, seen, lookup, builds);
      if outcome.value.Some? && ShouldRun(inner) {
        IssuedPlanIsCurrent(w, inner, t, outcome.value.value);
      }
    case GateTick(t, answer, builds) =>
      var (inner, outcome) := ResolveGate(w.inner, answer, builds);
      if RestartOf(outcome).Some? && ShouldRun(inner) {
        IssuedPlanIsCurrent(w, inner, t, RestartOf(outcome).value);
      }
    case _ =>
      NextLeaves(w, e);
      OtherSectionsIssueNoPlan(w, e);
  }

  lemma SectionKeepsTasks(w: World, e: Event, t: TaskId)
    requires Enabled(w, e) && Section(e) && t in w.tasks
    ensures t in Next(w, e).tasks && Next(w, e).tasks[t] == w.tasks[t]
  {
  }

  lemma SectionKeepsIntent(w: World, e: Event)
    requires Enabled(w, e) && Section(e) && Builds(e) && IntentCovered(w)
    ensures IntentCovered(Next(w, e))
  {
    SectionCoversIntent(w, e);
    KeptTasksKeepIntent(w, Next(w, e)) by {
      forall t | t in w.tasks ensures t in Next(w, e).tasks && Next(w, e).tasks[t] == w.tasks[t] {
        SectionKeepsTasks(w, e, t);
      }
    }
  }

  lemma KeptTasksKeepIntent(w: World, n: World)
    requires IntentCovered(w) && SectionCovers(w, n)
    requires forall t <- w.tasks :: t in n.tasks && n.tasks[t] == w.tasks[t]
    ensures IntentCovered(n)
  {
    assert forall t, g: nat :: PlanIs(w, t, g) ==> PlanIs(n, t, g);
  }

  lemma StepKeepsIntent(w: World, e: Event)
    requires Enabled(w, e) && Consistent(w) && IntentCovered(w) && Builds(e)
    ensures IntentCovered(Next(w, e))
  {
    var n := Next(w, e);
    if Section(e) {
      SectionKeepsIntent(w, e);
    } else if e.Install? {
      assert forall t, g: nat :: PlanIs(w, t, g) && t != e.task ==> PlanIs(n, t, g);
      assert PlanIs(w, e.task, w.tasks[e.task].generation);
      assert forall t :: t in w.tasks && w.tasks[t].TailStarting? ==> t in n.tasks && n.tasks[t] == w.tasks[t];
    } else if e.RecheckSettle? && !e.over {
      assert w.inner.desired ==> n.tasks[e.task].TailStarting?;
    } else {
      assert forall t, g: nat :: PlanIs(w, t, g) ==> PlanIs(n, t, g);
      assert !e.TailStart? ==>
               forall t :: t in w.tasks && w.tasks[t].TailStarting? ==> t in n.tasks && n.tasks[t] == w.tasks[t];
    }
  }

  lemma {:induction false} RunKeepsIntent(w: World, es: seq<Event>)
    requires CanRun(w, es) && Consistent(w) && IntentCovered(w)
    requires forall e <- es :: Builds(e)
    ensures IntentCovered(Run(w, es))
    decreases |es|
  {
    if es != [] {
      StepKeepsIntent(w, es[0]);
      StepKeepsConsistency(w, es[0]);
      RunKeepsIntent(Next(w, es[0]), es[1..]);
    }
  }

  /** No restart is ever lost: after any run whose option builds succeed, a recorder that is wanted,
      allowed and not quota-blocked is installed, planned under the current generation, or about to
      be started by a settled recheck. */
  lemma NoLostRestart(settings: Settings, es: seq<Event>)
    requires CanRun(InitialWorld(settings), es) && forall e <- es :: Builds(e)
    ensures var w := Run(InitialWorld(settings), es);
            ShouldRun(w.inner) ==> w.inner.tx.Some? || CurrentPlan(w) || TailPending(w)
  {
    RunKeepsIntent(InitialWorld(settings), es);
  }

  /** A plan under the current generation is not lost either: when its thread offers the service, it is
      installed if and only if no quota block stands. */
  lemma CurrentPlansAreAccepted(settings: Settings, es: seq<Event>, t: TaskId)
    requires CanRun(InitialWorld(settings), es)
    requires Enabled(Run(InitialWorld(settings), es), Install(t))
    ensures var w := Run(InitialWorld(settings), es);
            var Holding(s, generation) := w.tasks[t];
            Next(w, Install(t)).inner.tx == Some(s) <==> generation == w.inner.generation && !w.inner.quotaBlocked
  {
    RunKeepsConsistency(InitialWorld(settings), es);
    var w := Run(InitialWorld(settings), es);
    assert PlanIs(w, t, w.tasks[t].generation);
    assert Holds(w, t, w.tasks[t].service);
  }

  // ---- Late installs still obey policy ----

  /** A plan that would be accepted is one the manual session, or policy and gate, allow now. */
  ghost predicate PlansObeyPolicy(w: World) {
    CurrentPlan(w) ==> MayRecord(w.inner)
  }

  /** `e` ends the permission to record without looking for a plan in flight. */
  predicate ClosesPolicy(s: Inner, e: Event) {
    match e
    case SaveSettings(_, settings, _, _) =>
      var game := if StillConfigured(settings, s.game) then s.game else None;
      !s.manual && !(RecorderShouldRun(settings, game) && (game != s.game || GateAllows(s.gate)))
    case SessionStop(_) => !AutomaticStartAllowed(s)
    case _ => false
  }

  /** A plan seen after an event was there before, or was issued for a state that wants it. */
  lemma PlanKeptOrIssued(w: World, e: Event, t: TaskId, g: nat)
    requires Enabled(w, e) && PlanIs(Next(w, e), t, g)
    ensures PlanIs(w, t, g) || ShouldRun(Next(w, e).inner)
  {
    match e
    case Detect(_, _, _, _) =>
    case GateTick(_, _, _) =>
    case SaveSettings(_, _, _, _) =>
    case _ =>
  }

  lemma DetectKeepsPermission(s: Inner, seen: Option<Game>, lookup: bool, builds: bool)
    ensures var n := DetectGame(s, seen, lookup, builds).0;
            && s.generation <= n.generation && n.quotaBlocked == s.quotaBlocked
            && (s.tx.None? && s.desired && MayRecord(s) && n.generation == s.generation ==> MayRecord(n))
  {
  }

  lemma GateKeepsPermission(s: Inner, answer: Lookup, builds: bool)
    ensures var n := ResolveGate(s, answer, builds).0;
            && s.generation <= n.generation && n.quotaBlocked == s.quotaBlocked
            && (LookupPends(s) && MayRecord(s) && n.generation == s.generation ==> MayRecord(n))
  {
  }

  lemma SavePermission(s: Inner, e: Event)
    requires e.SaveSettings?
    ensures var n := CommitSettings(s, e.settings, e.builds, e.service).0;
            && s.generation <= n.generation && n.quotaBlocked == s.quotaBlocked
            && (s.tx.None? && s.desired && MayRecord(s) && n.generation == s.generation ==>
                  (MayRecord(n) <==> !(s.quotaBlocked && ClosesPolicy(s, e))))
  {
  }

  /** Within one generation only the two unguarded events end the permission a plan relies on. */
  lemma PermissionWithinGeneration(w: World, e: Event)
    requires Enabled(w, e)
    ensures var s, n := w.inner, InnerAfter(w, e);
            && s.generation <= n.generation
            && (s.tx.None? && s.desired && LookupPends(s) && MayRecord(s) && n.generation == s.generation ==>
                  (MayRecord(n) <==> !(s.quotaBlocked && ClosesPolicy(s, e))))
  {
    match e
    case Detect(_, seen, lookup, builds) => DetectKeepsPermission(w.inner, seen, lookup, builds);
    case GateTick(_, answer, builds) => GateKeepsPermission(w.inner, answer, builds);
    case SaveSettings(_, _, _, _) => SavePermission(w.inner, e);
    case _ =>
  }

  lemma ClosingUnderQuotaKeepsPlan(w: World, e: Event)
    requires Enabled(w, e) && w.inner.quotaBlocked && ClosesPolicy(w.inner, e) && CurrentPlan(w)
    ensures Next(w, e).inner.generation == w.inner.generation && CurrentPlan(Next(w, e))
  {
    var t :| PlanIs(w, t, w.inner.generation);
    SectionKeepsTasks(w, e, t);
    assert PlanIs(Next(w, e), t, w.inner.generation);
  }

  /** In any consistent state a plan keeps obeying policy through every event but one: settings saved,
      or a session stopped, under a quota block set over that plan.  QuotaGuardsPlans says that no run
      reaches such a state. */
  lemma PolicyKeptExactly(w: World, e: Event)
    requires Enabled(w, e) && Consistent(w) && PlansObeyPolicy(w)
    ensures PlansObeyPolicy(Next(w, e)) <==>
              !(w.inner.quotaBlocked && CurrentPlan(w) && ClosesPolicy(w.inner, e))
  {
    var n := Next(w, e);
    if w.inner.quotaBlocked && CurrentPlan(w) && ClosesPolicy(w.inner, e) {
      ClosingUnderQuotaKeepsPlan(w, e);
      NextLeaves(w, e);
      PermissionWithinGeneration(w, e);
    } else if CurrentPlan(n) {
      var t :| PlanIs(n, t, n.inner.generation);
      PlanKeptOrIssued(w, e, t, n.inner.generation);
      if !ShouldRun(n.inner) {
        NextLeaves(w, e);
        PermissionWithinGeneration(w, e);
      }
    }
  }

  /** Rechecks come one at a time, so that a block is never set over a plan in flight. */
  ghost predicate QuotaGuardsPlans(w: World) {
    && (forall t <- w.tasks, u <- w.tasks :: InRecheck(w.tasks[t]) && InRecheck(w.tasks[u]) ==> t == u)
    && (forall t <- w.tasks :: w.tasks[t].Rechecking? ==> w.inner.quotaBlocked)
    && (w.inner.quotaBlocked ==> !CurrentPlan(w))
  }

  /** Which tasks are rechecks, and the block itself, change only as rechecks and services do it. */
  lemma RecheckTasksAfter(w: World, e: Event, t: TaskId)
    requires Enabled(w, e) && t in Next(w, e).tasks && InRecheck(Next(w, e).tasks[t])
    ensures (t in w.tasks && InRecheck(w.tasks[t])) || (e == RecheckBegin(t) && RecheckProceeds(w.inner))
    ensures Next(w, e).tasks[t].Rechecking? ==>
              || (t in w.tasks && w.tasks[t].Rechecking? && e != RecheckSettle(t, false) && e != RecheckSettle(t, true))
              || (e == RecheckBegin(t) && RecheckProceeds(w.inner))
  {
  }

  lemma BlockAfter(w: World, e: Event)
    requires Enabled(w, e) && InnerAfter(w, e).quotaBlocked != w.inner.quotaBlocked
    ensures (e.RecheckSettle? && e.over == InnerAfter(w, e).quotaBlocked)
            || (e.ServiceQuota? && !w.inner.quotaBlocked && InnerAfter(w, e).tx.Some?)
  {
    match e
    case Detect(_, seen, lookup, builds) => DetectKeepsPermission(w.inner, seen, lookup, builds);
    case GateTick(_, answer, builds) => GateKeepsPermission(w.inner, answer, builds);
    case SaveSettings(_, _, _, _) => SavePermission(w.inner, e);
    case _ =>
  }

  lemma StepKeepsQuotaGuard(w: World, e: Event)
    requires Enabled(w, e) && Consistent(w) && QuotaGuardsPlans(w)
    ensures QuotaGuardsPlans(Next(w, e))
  {
    var n := Next(w, e);
    forall t | t in n.tasks && InRecheck(n.tasks[t])
      ensures (t in w.tasks && InRecheck(w.tasks[t])) || e == RecheckBegin(t)
    {
      RecheckTasksAfter(w, e, t);
    }
    NextLeaves(w, e);
    if n.inner.quotaBlocked != w.inner.quotaBlocked {
      BlockAfter(w, e);
    }
    forall t | t in n.tasks && n.tasks[t].Rechecking? ensures n.inner.quotaBlocked {
      RecheckTasksAfter(w, e, t);
    }
    StepKeepsConsistency(w, e);
    if n.inner.quotaBlocked && CurrentPlan(n) {
      var t :| PlanIs(n, t, n.inner.generation);
      PlanKeptOrIssued(w, e, t, n.inner.generation);
      NextLeaves(w, e);
      PermissionWithinGeneration(w, e);
    }
  }

  lemma {:induction false} RunKeepsPolicy(w: World, es: seq<Event>)
    requires CanRun(w, es)
    requires Consistent(w) && QuotaGuardsPlans(w) && PlansObeyPolicy(w)
    ensures var n := Run(w, es); Consistent(n) && PlansObeyPolicy(n)
    decreases |es|
  {
    if es != [] {
      StepKeepsConsistency(w, es[0]);
      StepKeepsQuotaGuard(w, es[0]);
      PolicyKeptExactly(w, es[0]);
      RunKeepsPolicy(Next(w, es[0]), es[1..]);
    }
  }

  /** Installing checks neither policy nor gate, yet whatever it accepts after any run may record under
      the settings, game and verdict then current, option errors included. */
  lemma LateInstallsObeyPolicy(settings: Settings, es: seq<Event>, t: TaskId)
    requires CanRun(InitialWorld(settings), es)
    requires Enabled(Run(InitialWorld(settings), es), Install(t))
    ensures var w := Run(InitialWorld(settings), es);
            var Holding(s, generation) := w.tasks[t];
            InstallPrepared(w.inner, generation, s).1 ==> MayRecord(w.inner)
  {
    RunKeepsPolicy(InitialWorld(settings), es);
    var w := Run(InitialWorld(settings), es);
    assert PlanIs(w, t, w.tasks[t].generation);
  }

  // ---- A running recorder obeys policy ----

  /** An installed recorder is wanted and, unless it is being stopped for quota, allowed. */
  predicate RunningObeys(s: Inner) {
    s.tx.Some? ==> s.desired && (s.quotaBlocked || MayRecord(s))
  }

  ghost predicate RecheckedAreStopped(w: World) {
    forall t <- w.tasks :: w.tasks[t].Rechecking? ==> w.inner.tx.None?
  }

  lemma DetectKeepsRunning(s: Inner, seen: Option<Game>, lookup: bool, builds: bool)
    requires RunningObeys(s)
    ensures RunningObeys(DetectGame(s, seen, lookup, builds).0)
  {
  }

  lemma GateKeepsRunning(s: Inner, answer: Lookup, builds: bool)
    requires RunningObeys(s) && LookupPends(s)
    ensures RunningObeys(ResolveGate(s, answer, builds).0)
  {
  }

  lemma SaveKeepsRunning(s: Inner, settings: Settings, builds: bool, service: ServiceId)
    requires RunningObeys(s)
    ensures RunningObeys(CommitSettings(s, settings, builds, service).0)
  {
  }

  lemma SectionKeepsRunning(w: World, e: Event)
    requires Enabled(w, e) && LookupPends(w.inner) && RunningObeys(w.inner)
    requires e.Install? && InstallPrepared(w.inner, w.tasks[e.task].generation, w.tasks[e.task].service).1 ==>
               MayRecord(w.inner)
    requires e.RecheckSettle? ==> w.inner.tx.None?
    ensures RunningObeys(InnerAfter(w, e))
  {
    match e
    case Detect(_, seen, lookup, builds) => DetectKeepsRunning(w.inner, seen, lookup, builds);
    case GateTick(_, answer, builds) => GateKeepsRunning(w.inner, answer, builds);
    case SaveSettings(_, settings, builds, s) => SaveKeepsRunning(w.inner, settings, builds, s);
    case _ =>
  }

  lemma StepKeepsRunning(w: World, e: Event)
    requires Enabled(w, e) && Consistent(w) && QuotaGuardsPlans(w) && PlansObeyPolicy(w)
    requires RunningObeys(w.inner) && RecheckedAreStopped(w)
    ensures RunningObeys(Next(w, e).inner) && RecheckedAreStopped(Next(w, e))
  {
    if e.Install? {
      assert PlanIs(w, e.task, w.tasks[e.task].generation);
    }
    SectionKeepsRunning(w, e);
    NextLeaves(w, e);
    forall t | t in Next(w, e).tasks && Next(w, e).tasks[t].Rechecking? ensures Next(w, e).inner.tx.None? {
      RecheckTasksAfter(w, e, t);
      BlockedStep(w, e);
    }
  }

  lemma {:induction false} RunKeepsRunning(w: World, es: seq<Event>)
    requires CanRun(w, es)
    requires Consistent(w) && QuotaGuardsPlans(w) && PlansObeyPolicy(w)
    requires RunningObeys(w.inner) && RecheckedAreStopped(w)
    ensures RunningObeys(Run(w, es).inner)
    decreases |es|
  {
    if es != [] {
      StepKeepsConsistency(w, es[0]);
      StepKeepsQuotaGuard(w, es[0]);
      PolicyKeptExactly(w, es[0]);
      StepKeepsRunning(w, es[0]);
      RunKeepsRunning(Next(w, es[0]), es[1..]);
    }
  }

  /** No recorder runs against the user's policy: after any run an installed recorder is wanted and,
      unless the quota is already stopping it, the session is manual or both the games-only policy and
      the League gate allow recording, option errors included. */
  lemma RunningObeysPolicy(settings: Settings, es: seq<Event>)
    requires CanRun(InitialWorld(settings), es)
    ensures RunningObeys(Run(InitialWorld(settings), es).inner)
  {
    RunKeepsRunning(InitialWorld(settings), es);
  }

  // ---- The League gate ----

  /** A verdict, pending or given, belongs to a League game on screen. */
  predicate GateIsLeagues(s: Inner) {
    && LookupPends(s)
    && (s.gate.Some? ==> s.game.Some? && s.game.value.identity.id == LEAGUE_OF_LEGENDS_ID)
  }

  lemma DetectKeepsGate(s: Inner, seen: Option<Game>, lookup: bool, builds: bool)
    requires GateIsLeagues(s)
    ensures GateIsLeagues(DetectGame(s, seen, lookup, builds).0)
  {
  }

  lemma ResolveKeepsGate(s: Inner, answer: Lookup, builds: bool)
    requires GateIsLeagues(s)
    ensures GateIsLeagues(ResolveGate(s, answer, builds).0)
  {
  }

  lemma SaveKeepsGate(s: Inner, settings: Settings, builds: bool, service: ServiceId)
    requires GateIsLeagues(s)
    ensures GateIsLeagues(CommitSettings(s, settings, builds, service).0)
  {
  }

  lemma StepKeepsGate(w: World, e: Event)
    requires Enabled(w, e) && GateIsLeagues(w.inner)
    ensures GateIsLeagues(InnerAfter(w, e))
  {
    match e
    case Detect(_, seen, lookup, builds) => DetectKeepsGate(w.inner, seen, lookup, builds);
    case GateTick(_, answer, builds) => ResolveKeepsGate(w.inner, answer, builds);
    case SaveSettings(_, settings, builds, s) => SaveKeepsGate(w.inner, settings, builds, s);
    case _ =>
      assert InnerAfter(w, e).game == w.inner.game && InnerAfter(w, e).gate == w.inner.gate;
  }

  lemma {:induction false} RunKeepsGate(w: World, es: seq<Event>)
    requires CanRun(w, es) && GateIsLeagues(w.inner)
    ensures GateIsLeagues(Run(w, es).inner)
    decreases |es|
  {
    if es != [] {
      StepKeepsGate(w, es[0]);
      NextLeaves(w, es[0]);
      RunKeepsGate(Next(w, es[0]), es[1..]);
    }
  }

  /** After any run the gate stands in the way of no game but League, and a League game newly seen
      behind a gate keeps the recorder off until the lookup answers, unless the session is manual. */
  lemma GateHoldsBackLeagueOnly(settings: Settings, es: seq<Event>, seen: Option<Game>, builds: bool)
    requires CanRun(InitialWorld(settings), es)
    ensures var s := Run(InitialWorld(settings), es).inner;
            var n := DetectGame(s, seen, true, builds).0;
            && (!GateAllows(s.gate) ==> s.game.Some? && s.game.value.identity.id == LEAGUE_OF_LEGENDS_ID)
            && (GateApplies(s.settings, seen) && StillConfigured(s.settings, seen) && !SameWindow(s.game, seen) ==>
                  n.gate == Some(Pending) && n.lookup && (n.manual || n.tx.None?))
  {
    RunKeepsGate(InitialWorld(settings), es);
  }
}
