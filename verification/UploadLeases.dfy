/** The registry of files being uploaded (apps/clipline-app/src/cloud_upload.rs): a use count per file
    identity, changed under a lock, beside the operating system's share locks, which are not. */
module UploadLeases {
  import opened Wrappers

  type FileId = nat
  type LeaseId = nat

  /** `Opening` holds the share lock and the registry lock but is not counted yet; `Released` has
      given the share lock back but is still counted. */
  datatype Phase = Opening | Active | Released

  datatype Lease = Lease(source: FileId, phase: Phase)

  datatype Registry = Registry(
    counts: map<FileId, nat>,
    lock: Option<LeaseId>,
    leases: map<LeaseId, Lease>)

  datatype Event =
    | Lock(lease: LeaseId)
    | Open(lease: LeaseId, source: FileId)
    | GiveUp(lease: LeaseId)
    | Register(lease: LeaseId)
    | ReleaseFile(lease: LeaseId)
    | Unregister(lease: LeaseId)

  predicate InPhase(s: Registry, l: LeaseId, phase: Phase) {
    l in s.leases && s.leases[l].phase == phase
  }

  predicate Enabled(s: Registry, e: Event) {
    match e
    case Lock(l) => s.lock.None? && l !in s.leases
    case Open(l, _) => s.lock == Some(l) && l !in s.leases
    case GiveUp(l) => s.lock == Some(l)
    case Register(l) => s.lock == Some(l) && InPhase(s, l, Opening)
    case ReleaseFile(l) => InPhase(s, l, Active)
    case Unregister(l) => s.lock.None? && InPhase(s, l, Released)
  }

  /** One more use of `id`. */
  function Acquired(counts: map<FileId, nat>, id: FileId): map<FileId, nat> {
    counts[id := (if id in counts then counts[id] else 0) + 1]
  }

  /** One use fewer; the last one removes the entry. */
  function Dropped(counts: map<FileId, nat>, id: FileId): map<FileId, nat> {
    if id !in counts then counts
    else if counts[id] > 1 then counts[id := counts[id] - 1]
    else counts - {id}
  }

  function Next(s: Registry, e: Event): Registry
    requires Enabled(s, e)
  {
    match e
    case Lock(l) => s.(lock := Some(l))
    case Open(l, source) => s.(leases := s.leases[l := Lease(source, Opening)])
    case GiveUp(l) => s.(lock := None, leases := s.leases - {l})
    case Register(l) =>
      s.(lock := None, counts := Acquired(s.counts, s.leases[l].source),
         leases := s.leases[l := s.leases[l].(phase := Active)])
    case ReleaseFile(l) => s.(leases := s.leases[l := s.leases[l].(phase := Released)])
    case Unregister(l) =>
      s.(counts := Dropped(s.counts, s.leases[l].source), leases := s.leases - {l})
  }

  predicate CanRun(s: Registry, es: seq<Event>)
    decreases |es|
  {
    es == [] || (Enabled(s, es[0]) && CanRun(Next(s, es[0]), es[1..]))
  }

  function Run(s: Registry, es: seq<Event>): Registry
    requires CanRun(s, es)
    decreases |es|
  {
    if es == [] then s else Run(Next(s, es[0]), es[1..])
  }

  const EMPTY := Registry(map[], None, map[])

  /** The registered leases of a file, which are those the count stands for. */
  function Users(s: Registry, id: FileId): set<LeaseId> {
    set l | l in s.leases && s.leases[l].source == id && !s.leases[l].phase.Opening?
  }

  function CountOf(s: Registry, id: FileId): nat {
    if id in s.counts then s.counts[id] else 0
  }

  ghost predicate Exact(s: Registry) {
    && (forall id :: CountOf(s, id) == |Users(s, id)|)
    && (forall id <- s.counts :: s.counts[id] > 0)
    && (forall l: LeaseId :: InPhase(s, l, Opening) ==> s.lock == Some(l))
    && (s.lock.Some? && s.lock.value in s.leases ==> InPhase(s, s.lock.value, Opening))
  }

  /** What a step does to the registered leases of a file. */
  function UsersAfter(s: Registry, e: Event, id: FileId): set<LeaseId> {
    if e.Register? && e.lease in s.leases && s.leases[e.lease].source == id then Users(s, id) + {e.lease}
    else if e.Unregister? then Users(s, id) - {e.lease}
    else Users(s, id)
  }

  lemma StepUsers(s: Registry, e: Event, id: FileId)
    requires Enabled(s, e) && (e.GiveUp? && e.lease in s.leases ==> InPhase(s, e.lease, Opening))
    ensures Users(Next(s, e), id) == UsersAfter(s, e, id)
  {
    var n := Next(s, e);
    forall l: LeaseId ensures l in Users(n, id) <==> l in UsersAfter(s, e, id) {
    }
  }

  lemma StepCounts(s: Registry, e: Event, id: FileId)
    requires Enabled(s, e) && CountOf(s, id) == |Users(s, id)|
    requires id in s.counts ==> s.counts[id] > 0
    ensures CountOf(Next(s, e), id) == |UsersAfter(s, e, id)|
  {
    if e.Register? {
      assert e.lease !in Users(s, id);
    } else if e.Unregister? && s.leases[e.lease].source == id {
      assert e.lease in Users(s, id);
    } else if e.Unregister? {
      assert UsersAfter(s, e, id) == Users(s, id);
    }
  }

  lemma StepStaysPositive(s: Registry, e: Event, id: FileId)
    requires Enabled(s, e) && Exact(s) && id in Next(s, e).counts
    ensures Next(s, e).counts[id] > 0
  {
  }

  lemma StepKeepsOpening(s: Registry, e: Event, l: LeaseId)
    requires Enabled(s, e) && Exact(s) && l in Next(s, e).leases
    ensures Next(s, e).leases[l].phase.Opening? <==> Next(s, e).lock == Some(l)
  {
    assert l in s.leases ==> (InPhase(s, l, Opening) <==> s.lock == Some(l));
  }

  lemma StepStaysExact(s: Registry, e: Event)
    requires Enabled(s, e) && Exact(s)
    ensures Exact(Next(s, e))
  {
    var n := Next(s, e);
    forall id ensures CountOf(n, id) == |Users(n, id)| {
      assert CountOf(s, id) == |Users(s, id)|;
      StepUsers(s, e, id);
      StepCounts(s, e, id);
    }
    forall id | id in n.counts ensures n.counts[id] > 0 {
      StepStaysPositive(s, e, id);
    }
    forall l | l in n.leases ensures InPhase(n, l, Opening) <==> n.lock == Some(l) {
      StepKeepsOpening(s, e, l);
    }
  }

  lemma {:induction false} RunStaysExact(s: Registry, es: seq<Event>)
    requires CanRun(s, es) && Exact(s)
    ensures Exact(Run(s, es))
    decreases |es|
  {
    if es != [] {
      StepStaysExact(s, es[0]);
      RunStaysExact(Next(s, es[0]), es[1..]);
    }
  }

  /** However acquisitions and drops interleave, each file's count is the number of its registered
      leases, and a file without one has no entry at all. */
  lemma CountsAreExact(es: seq<Event>, id: FileId)
    requires CanRun(EMPTY, es)
    ensures var s := Run(EMPTY, es);
            (id in s.counts <==> Users(s, id) != {}) && (id in s.counts ==> s.counts[id] == |Users(s, id)|)
  {
    RunStaysExact(EMPTY, es);
    var s := Run(EMPTY, es);
    assert CountOf(s, id) == |Users(s, id)|;
  }

  /** Whoever holds the registry lock finds every share-locked upload source registered, so a refused
      mutation can always be explained by the upload. */
  lemma ShareLockedIsRegistered(es: seq<Event>, l: LeaseId)
    requires CanRun(EMPTY, es) && Run(EMPTY, es).lock.None?
    requires l in Run(EMPTY, es).leases && !Run(EMPTY, es).leases[l].phase.Released?
    ensures Run(EMPTY, es).leases[l].source in Run(EMPTY, es).counts
  {
    RunStaysExact(EMPTY, es);
    var s := Run(EMPTY, es);
    assert !InPhase(s, l, Opening);
    assert l in Users(s, s.leases[l].source);
    CountsAreExact(es, s.leases[l].source);
  }

  /** The registry itself, as the program mutates it while holding the lock. */
  class Sources {
    var counts: map<FileId, nat>

    constructor ()
      ensures counts == map[]
    {
      counts := map[];
    }

    method Acquire(id: FileId)
      modifies this
      ensures counts == Acquired(old(counts), id)
    {
      if id !in counts {
        counts := counts[id := 0];
      }
      counts := counts[id := counts[id] + 1];
    }

    method Drop(id: FileId)
      modifies this
      ensures counts == Dropped(old(counts), id)
    {
      var remove := false;
      if id in counts {
        if counts[id] > 1 {
          counts := counts[id := counts[id] - 1];
        } else {
          remove := true;
        }
      }
      if remove {
        counts := counts - {id};
      }
    }
  }
}
