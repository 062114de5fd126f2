/** Concurrent read-modify-writes of the live settings and settings.json
    (apps/clipline-app/src/app.rs).  Cloud updates, osu! updates and settings saves each take the save
    lock, snapshot the live settings, write the file without holding the state lock, and only then
    change the live settings. */
module SettingsStore {
  import opened Wrappers

  /** The cloud fields only the backend writes: upload records, credential target, account. */
  datatype Owned = Owned(uploads: map<string, string>, credential: string, account: string)

  datatype Cloud = Cloud(owned: Owned, user: nat)

  datatype Settings = Settings(cloud: Cloud, osu: nat, rest: nat)

  datatype Operation =
    | UpdateCloud(cloud: Cloud -> Cloud)
    | UpdateOsu(osu: nat -> nat)
    | Save(requested: Settings)

  /** The backend-owned fields win over whatever the save request carries. */
  function PreserveBackend(requested: Settings, backend: Settings): Settings {
    requested.(cloud := backend.cloud.(user := requested.cloud.user), osu := backend.osu)
  }

  /** What an operation would do to the settings if it ran alone. */
  function Apply(op: Operation, s: Settings): Settings {
    match op
    case UpdateCloud(f) => s.(cloud := f(s.cloud))
    case UpdateOsu(f) => s.(osu := f(s.osu))
    case Save(requested) => PreserveBackend(requested, s)
  }

  function Replay(s: Settings, log: seq<Operation>): Settings {
    if log == [] then s else Apply(log[|log| - 1], Replay(s, log[..|log| - 1]))
  }

  /** A thread between taking the save lock and releasing it. */
  datatype Job = Job(op: Operation, previous: Settings, next: Settings, written: bool)

  datatype Store = Store(
    live: Settings,
    disk: Settings,
    lock: Option<nat>,
    jobs: map<nat, Job>,
    log: seq<Operation>,
    synced: bool)

  datatype Event =
    | Begin(thread: nat, op: Operation)
    | Write(thread: nat, ok: bool)
    | Commit(thread: nat)
    | Abort(thread: nat, restored: bool)

  predicate Enabled(s: Store, e: Event) {
    match e
    case Begin(t, _) => s.lock.None? && t !in s.jobs
    case Write(t, _) => t in s.jobs && !s.jobs[t].written
    case Commit(t) => t in s.jobs && s.jobs[t].written
    case Abort(t, _) => t in s.jobs && s.jobs[t].written && s.jobs[t].op.Save?
  }

  /** An update replaces its own part of whatever is live by then; a save replaces everything. */
  function Merge(job: Job, live: Settings): Settings {
    match job.op
    case UpdateCloud(_) => live.(cloud := job.next.cloud)
    case UpdateOsu(_) => live.(osu := job.next.osu)
    case Save(_) => job.next
  }

  function Release(s: Store, t: nat): Store {
    s.(lock := None, jobs := s.jobs - {t})
  }

  function Next(s: Store, e: Event): Store
    requires Enabled(s, e)
  {
    match e
    case Begin(t, op) =>
      s.(lock := Some(t), jobs := s.jobs[t := Job(op, s.live, Apply(op, s.live), false)])
    case Write(t, ok) =>
      if ok then s.(disk := s.jobs[t].next, jobs := s.jobs[t := s.jobs[t].(written := true)])
      else Release(s, t)
    case Commit(t) =>
      Release(s.(live := Merge(s.jobs[t], s.live), log := s.log + [s.jobs[t].op], synced := true), t)
    case Abort(t, restored) =>
      // The recorder could not be restarted; the old file is written back.
      Release(if restored then s.(disk := s.jobs[t].previous, synced := true) else s.(synced := false), t)
  }

  predicate CanRun(s: Store, es: seq<Event>)
    decreases |es|
  {
    es == [] || (Enabled(s, es[0]) && CanRun(Next(s, es[0]), es[1..]))
  }

  function Run(s: Store, es: seq<Event>): Store
    requires CanRun(s, es)
    decreases |es|
  {
    if es == [] then s else Run(Next(s, es[0]), es[1..])
  }

  ghost predicate Linear(origin: Settings, s: Store) {
    && s.live == Replay(origin, s.log)
    && (forall t <- s.jobs :: s.lock == Some(t))
    && (s.lock.Some? ==> s.lock.value in s.jobs)
    && (forall t <- s.jobs ::
          && s.jobs[t].previous == s.live
          && s.jobs[t].next == Apply(s.jobs[t].op, s.live)
          && (if s.jobs[t].written then s.disk == s.jobs[t].next else s.synced ==> s.disk == s.live))
    && (s.lock.None? && s.synced ==> s.disk == s.live)
  }

  lemma StepStaysLinear(origin: Settings, s: Store, e: Event)
    requires Enabled(s, e) && Linear(origin, s)
    ensures Linear(origin, Next(s, e))
  {
    if e.Commit? {
      var op := s.jobs[e.thread].op;
      assert (s.log + [op])[..|s.log|] == s.log;
    }
  }

  function Opened(live: Settings, disk: Settings): Store {
    Store(live, disk, None, map[], [], false)
  }

  /** Whatever threads interleave, the live settings are those of the committed operations run one
      after the other, and between operations the file agrees with them once it ever did, unless the
      compensating write of a failed save itself failed. */
  lemma {:induction false} UpdatesAreSerialised(origin: Settings, s: Store, es: seq<Event>)
    requires CanRun(s, es) && Linear(origin, s)
    ensures var n := Run(s, es);
            Linear(origin, n) && n.live == Replay(origin, n.log)
            && (n.synced && n.lock.None? ==> n.disk == n.live)
    decreases |es|
  {
    if es != [] {
      StepStaysLinear(origin, s, es[0]);
      UpdatesAreSerialised(origin, Next(s, es[0]), es[1..]);
    }
  }

  /** Once an operation has been committed the file stays in step, as long as every compensating
      write succeeds: when the save lock is free, file and live settings are equal. */
  lemma {:induction false} FileFollowsLive(origin: Settings, s: Store, es: seq<Event>)
    requires CanRun(s, es) && Linear(origin, s)
    requires forall e <- es :: e.Abort? ==> e.restored
    requires s.synced || exists e <- es :: e.Commit?
    ensures Run(s, es).lock.None? ==> Run(s, es).disk == Run(s, es).live
    ensures Run(s, es).synced && Linear(origin, Run(s, es))
    decreases |es|
  {
    if es != [] {
      StepStaysLinear(origin, s, es[0]);
      assert es[0] in es;
      FileFollowsLive(origin, Next(s, es[0]), es[1..]);
    }
  }

  // ---- What each operation does ----

  /** A cloud update replaces the cloud settings by its function of them and nothing else. */
  lemma CloudUpdateCommits(origin: Settings, s: Store, t: nat)
    requires Linear(origin, s) && Enabled(s, Commit(t)) && s.jobs[t].op.UpdateCloud?
    ensures var n := Next(s, Commit(t));
            && n.live.cloud == s.jobs[t].op.cloud(s.live.cloud) && n.live.osu == s.live.osu && n.live.rest == s.live.rest
            && n.disk == n.live && n.lock.None?
  {
  }

  /** An osu! update replaces the osu! settings by its function of them and nothing else. */
  lemma OsuUpdateCommits(origin: Settings, s: Store, t: nat)
    requires Linear(origin, s) && Enabled(s, Commit(t)) && s.jobs[t].op.UpdateOsu?
    ensures var n := Next(s, Commit(t));
            && n.live.osu == s.jobs[t].op.osu(s.live.osu) && n.live.cloud == s.live.cloud && n.live.rest == s.live.rest
            && n.disk == n.live && n.lock.None?
  {
  }

  /** A save takes what was requested, but for what belongs to the backend. */
  lemma SaveCommits(origin: Settings, s: Store, t: nat)
    requires Linear(origin, s) && Enabled(s, Commit(t)) && s.jobs[t].op.Save?
    ensures var n, requested := Next(s, Commit(t)), s.jobs[t].op.requested;
            && n.live.rest == requested.rest && n.live.cloud.user == requested.cloud.user
            && n.live.cloud.owned == s.live.cloud.owned && n.live.osu == s.live.osu
            && n.disk == n.live && n.lock.None?
  {
  }

  /** Begun, written or given up, an operation leaves the live settings alone; a failed write leaves the
      file alone too, and an abandoned save puts the file back if it can. */
  lemma OthersCommitNothing(origin: Settings, s: Store, e: Event)
    requires Linear(origin, s) && Enabled(s, e) && !e.Commit?
    ensures Next(s, e).live == s.live
    ensures e.Begin? ==> Next(s, e).lock == Some(e.thread) && Next(s, e).jobs[e.thread].op == e.op
    ensures e.Begin? || (e.Write? && !e.ok) ==> Next(s, e).disk == s.disk
    ensures e.Abort? && e.restored ==> Next(s, e).disk == s.live
    ensures e.Abort? || (e.Write? && !e.ok) ==> Next(s, e).lock.None?
    ensures e.Write? && e.ok ==> e.thread in Next(s, e).jobs && Enabled(Next(s, e), Commit(e.thread))
  {
  }

  /** Alone from beginning to end, an osu! update arrives, live and on disk. */
  lemma OsuUpdateArrives(origin: Settings, s: Store, t: nat, f: nat -> nat)
    requires Linear(origin, s) && s.lock.None?
    ensures var es := [Begin(t, UpdateOsu(f)), Write(t, true), Commit(t)];
            && CanRun(s, es)
            && Run(s, es).live == s.live.(osu := f(s.live.osu)) && Run(s, es).disk == Run(s, es).live
  {
    assert t !in s.jobs;
    var es := [Begin(t, UpdateOsu(f)), Write(t, true), Commit(t)];
    var begun := Next(s, es[0]);
    var written := Next(begun, es[1]);
    StepStaysLinear(origin, s, es[0]);
    StepStaysLinear(origin, begun, es[1]);
    OsuUpdateCommits(origin, written, t);
    assert es[1..] == [es[1], es[2]] && es[1..][1..] == [es[2]] && es[1..][1..][1..] == [];
    var done := Next(written, es[2]);
    assert CanRun(done, []) && CanRun(written, [es[2]]) && Run(written, [es[2]]) == Run(done, []) == done;
    assert CanRun(begun, es[1..]) && Run(begun, es[1..]) == done;
  }

  /** `op` establishes `fact` about the backend-owned cloud fields, whatever it finds. */
  ghost predicate Establishes(op: Operation, fact: Owned -> bool) {
    op.UpdateCloud? && forall c: Cloud :: fact(op.cloud(c).owned)
  }

  /** `op` does not undo `fact`, whatever cloud settings it finds. */
  ghost predicate Respects(op: Operation, fact: Owned -> bool) {
    op.UpdateCloud? ==> forall c: Cloud :: fact(c.owned) ==> fact(op.cloud(c).owned)
  }

  /** Every operation committed in the run respects `fact`. */
  ghost predicate CommitsRespect(s: Store, es: seq<Event>, fact: Owned -> bool)
    requires CanRun(s, es)
    decreases |es|
  {
    es == [] || (&& (es[0].Commit? ==> Respects(s.jobs[es[0].thread].op, fact))
                 && CommitsRespect(Next(s, es[0]), es[1..], fact))
  }

  lemma {:induction false} FactKept(origin: Settings, s: Store, es: seq<Event>, fact: Owned -> bool)
    requires CanRun(s, es) && Linear(origin, s) && CommitsRespect(s, es, fact) && fact(s.live.cloud.owned)
    ensures fact(Run(s, es).live.cloud.owned) && Linear(origin, Run(s, es))
    decreases |es|
  {
    if es != [] {
      StepStaysLinear(origin, s, es[0]);
      FactKept(origin, Next(s, es[0]), es[1..], fact);
    }
  }

  /** What a cloud update established when it was committed (an upload record, a credential target) is
      still so in the live settings after any run, and in the file whenever that is in step: no osu!
      update, no settings save, no failed or abandoned operation and no cloud update that respects it
      loses it, whichever of them were under way. */
  lemma CommittedFactSurvives(origin: Settings, s: Store, t: nat, es: seq<Event>, fact: Owned -> bool)
    requires Linear(origin, s) && Enabled(s, Commit(t)) && Establishes(s.jobs[t].op, fact)
    requires CanRun(Next(s, Commit(t)), es) && CommitsRespect(Next(s, Commit(t)), es, fact)
    ensures var n := Run(Next(s, Commit(t)), es);
            && fact(n.live.cloud.owned)
            && (n.synced && n.lock.None? ==> fact(n.disk.cloud.owned))
  {
    StepStaysLinear(origin, s, Commit(t));
    FactKept(origin, Next(s, Commit(t)), es, fact);
  }

  ghost predicate EstablishesOsu(op: Operation, fact: nat -> bool) {
    op.UpdateOsu? && forall o :: fact(op.osu(o))
  }

  ghost predicate RespectsOsu(op: Operation, fact: nat -> bool) {
    op.UpdateOsu? ==> forall o :: fact(o) ==> fact(op.osu(o))
  }

  ghost predicate CommitsRespectOsu(s: Store, es: seq<Event>, fact: nat -> bool)
    requires CanRun(s, es)
    decreases |es|
  {
    es == [] || (&& (es[0].Commit? ==> RespectsOsu(s.jobs[es[0].thread].op, fact))
                 && CommitsRespectOsu(Next(s, es[0]), es[1..], fact))
  }

  lemma {:induction false} OsuFactKept(origin: Settings, s: Store, es: seq<Event>, fact: nat -> bool)
    requires CanRun(s, es) && Linear(origin, s) && CommitsRespectOsu(s, es, fact) && fact(s.live.osu)
    ensures fact(Run(s, es).live.osu) && Linear(origin, Run(s, es))
    decreases |es|
  {
    if es != [] {
      StepStaysLinear(origin, s, es[0]);
      if es[0].Commit? {
        CommitKeepsOsuFact(origin, s, es[0].thread, fact);
      }
      OsuFactKept(origin, Next(s, es[0]), es[1..], fact);
    }
  }

  lemma CommitKeepsOsuFact(origin: Settings, s: Store, t: nat, fact: nat -> bool)
    requires Linear(origin, s) && Enabled(s, Commit(t)) && RespectsOsu(s.jobs[t].op, fact) && fact(s.live.osu)
    ensures fact(Next(s, Commit(t)).live.osu)
  {
    match s.jobs[t].op
    case UpdateCloud(_) => CloudUpdateCommits(origin, s, t);
    case UpdateOsu(_) => OsuUpdateCommits(origin, s, t);
    case Save(_) => SaveCommits(origin, s, t);
  }

  /** The same for osu! updates: what one established is lost to no cloud update, no settings save and
      no osu! update that respects it. */
  lemma CommittedOsuFactSurvives(origin: Settings, s: Store, t: nat, es: seq<Event>, fact: nat -> bool)
    requires Linear(origin, s) && Enabled(s, Commit(t)) && EstablishesOsu(s.jobs[t].op, fact)
    requires CanRun(Next(s, Commit(t)), es) && CommitsRespectOsu(Next(s, Commit(t)), es, fact)
    ensures var n := Run(Next(s, Commit(t)), es);
            && fact(n.live.osu)
            && (n.synced && n.lock.None? ==> fact(n.disk.osu))
  {
    StepStaysLinear(origin, s, Commit(t));
    OsuUpdateCommits(origin, s, t);
    OsuFactKept(origin, Next(s, Commit(t)), es, fact);
  }

  /** The osu! settings after any log are those of the osu! updates in it alone. */
  lemma {:induction false} OsuUpdatesAlone(s: Settings, log: seq<Operation>)
    ensures Replay(s, log).osu == Replay(s, OsuOnly(log)).osu
  {
    if log != [] {
      var last := |log| - 1;
      OsuUpdatesAlone(s, log[..last]);
      if log[last].UpdateOsu? {
        assert OsuOnly(log)[..|OsuOnly(log)| - 1] == OsuOnly(log[..last]);
      } else {
        assert OsuOnly(log) == OsuOnly(log[..last]);
      }
    }
  }

  function OsuOnly(log: seq<Operation>): seq<Operation> {
    if log == [] then []
    else
      var last := |log| - 1;
      OsuOnly(log[..last]) + if log[last].UpdateOsu? then [log[last]] else []
  }
}
