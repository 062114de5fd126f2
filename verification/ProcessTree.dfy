/** The walk over a process snapshot that finds the descendants of one process
    (apps/clipline-app/src/memory.rs). */
module ProcessTree {

  type Pid = nat

  datatype Process = Process(pid: Pid, parent: Pid, name: string)

  const CONHOST := "conhost.exe"

  /** A chain of snapshot entries, each the parent of the next, starting at a child of `root`. */
  predicate Chain(entries: seq<Process>, root: Pid, path: seq<Process>) {
    && path != [] && path[0].parent == root
    && (forall i | 0 <= i < |path| :: path[i] in entries)
    && (forall i | 0 < i < |path| :: path[i].parent == path[i - 1].pid)
  }

  ghost predicate Descends(entries: seq<Process>, root: Pid, p: Process) {
    exists path :: Chain(entries, root, path) && path[|path| - 1] == p
  }

  function ChildrenOf(entries: seq<Process>, parent: Pid): seq<Process> {
    if entries == [] then []
    else
      var last := entries[|entries| - 1];
      ChildrenOf(entries[..|entries| - 1], parent) + if last.parent == parent then [last] else []
  }

  lemma {:induction false} ChildrenAreExact(entries: seq<Process>, parent: Pid)
    ensures forall p :: p in ChildrenOf(entries, parent) <==> p in entries && p.parent == parent
  {
    if entries != [] {
      ChildrenAreExact(entries[..|entries| - 1], parent);
      assert entries == entries[..|entries| - 1] + [entries[|entries| - 1]];
    }
  }

  /** The index lists the children of every process outside `done` that has any. */
  ghost predicate Indexes(children: map<Pid, seq<Process>>, entries: seq<Process>, done: set<Pid>) {
    forall q :: if q in children then q !in done && children[q] == ChildrenOf(entries, q)
                else q in done || ChildrenOf(entries, q) == []
  }

  lemma ChildDescends(entries: seq<Process>, root: Pid, p: Process, child: Process)
    requires Descends(entries, root, p) && child in entries && child.parent == p.pid
    ensures Descends(entries, root, child)
  {
    var path :| Chain(entries, root, path) && path[|path| - 1] == p;
    assert Chain(entries, root, path + [child]);
  }

  lemma DirectChildDescends(entries: seq<Process>, root: Pid, child: Process)
    requires child in entries && child.parent == root
    ensures Descends(entries, root, child)
  {
    assert Chain(entries, root, [child]);
  }

  /** Every process on a chain has been seen, once the children of whatever was seen have been. */
  lemma {:induction false} ClosedCoversChain(entries: seq<Process>, root: Pid, seen: set<Pid>, path: seq<Process>)
    requires Chain(entries, root, path) && root in seen
    requires forall p <- entries :: p.parent in seen ==> p.pid in seen
    ensures path[|path| - 1].pid in seen
    decreases |path|
  {
    if |path| > 1 {
      ClosedCoversChain(entries, root, seen, path[..|path| - 1]);
    }
    assert path[|path| - 1] in entries;
  }

  method BuildIndex(entries: seq<Process>) returns (children: map<Pid, seq<Process>>)
    ensures Indexes(children, entries, {})
  {
    children := map[];
    for i := 0 to |entries|
      invariant Indexes(children, entries[..i], {})
    {
      var entry := entries[i];
      assert entries[..i + 1][..i] == entries[..i];
      var siblings := if entry.parent in children then children[entry.parent] else [];
      children := children[entry.parent := siblings + [entry]];
    }
    assert entries[..|entries|] == entries;
  }

  /** The processes to be found: every entry some chain from the root reaches. */
  ghost function Family(entries: seq<Process>, root: Pid): set<Process> {
    set p | p in entries && Descends(entries, root, p)
  }

  /** Children of the root and of members are members. */
  ghost predicate TakesChildren(entries: seq<Process>, root: Pid, family: set<Process>) {
    && (forall child <- ChildrenOf(entries, root) :: child in family)
    && (forall p <- family :: forall child <- ChildrenOf(entries, p.pid) :: child in family)
  }

  lemma FamilyTakesChildren(entries: seq<Process>, root: Pid)
    ensures TakesChildren(entries, root, Family(entries, root))
  {
    ChildrenAreExact(entries, root);
    forall child | child in ChildrenOf(entries, root) ensures child in Family(entries, root) {
      DirectChildDescends(entries, root, child);
    }
    forall p | p in Family(entries, root)
      ensures forall child <- ChildrenOf(entries, p.pid) :: child in Family(entries, root)
    {
      ChildrenAreExact(entries, p.pid);
      forall child | child in ChildrenOf(entries, p.pid) ensures child in Family(entries, root) {
        ChildDescends(entries, root, p, child);
      }
    }
  }

  /** Some member with this pid is not a console host. */
  ghost predicate Listed(family: set<Process>, pid: Pid) {
    exists p <- family :: p.pid == pid && p.name != CONHOST
  }

  /** Some member with this pid is a console host. */
  ghost predicate Hosted(family: set<Process>, pid: Pid) {
    exists p <- family :: p.pid == pid && p.name == CONHOST
  }

  /** The pids reported so far, against those seen. */
  ghost predicate OutIsRight(family: set<Process>, root: Pid, seen: set<Pid>, out: seq<Pid>) {
    && (forall i, j | 0 <= i < j < |out| :: out[i] != out[j])
    && (forall pid <- out :: pid in seen && pid != root && Listed(family, pid))
    && (forall pid <- seen :: pid == root || pid in out || Hosted(family, pid))
  }

  /** Everything the walk has established when `stack` is still to be looked at. */
  ghost predicate Progress(entries: seq<Process>, family: set<Process>, root: Pid,
                           children: map<Pid, seq<Process>>, seen: set<Pid>, stack: seq<Process>, out: seq<Pid>)
  {
    && root in seen && Indexes(children, entries, seen)
    && (forall p <- stack :: p in family)
    && (forall p <- entries :: p.parent in seen ==> p.pid in seen || p in stack)
    && OutIsRight(family, root, seen, out)
  }

  function Remaining(children: map<Pid, seq<Process>>, pid: Pid): seq<Process> {
    if pid in children then children[pid] else []
  }

  lemma VisitKeepsClosed(entries: seq<Process>, seen: set<Pid>, stack: seq<Process>, process: Process)
    requires forall p <- entries :: p.parent in seen ==> p.pid in seen || p in stack + [process]
    ensures forall p <- entries :: p.parent in seen + {process.pid} ==>
              p.pid in seen + {process.pid} || p in stack + ChildrenOf(entries, process.pid)
  {
    ChildrenAreExact(entries, process.pid);
  }

  lemma VisitKeepsOut(family: set<Process>, root: Pid, seen: set<Pid>, out: seq<Pid>, process: Process)
    requires root in seen && process.pid !in seen && process in family && OutIsRight(family, root, seen, out)
    ensures OutIsRight(family, root, seen + {process.pid},
                       if process.name == CONHOST then out else out + [process.pid])
  {
    if process.name == CONHOST {
      assert Hosted(family, process.pid);
    } else {
      assert Listed(family, process.pid);
    }
  }

  lemma VisitKeepsProgress(entries: seq<Process>, family: set<Process>, root: Pid,
                           children: map<Pid, seq<Process>>, seen: set<Pid>, stack: seq<Process>,
                           out: seq<Pid>, process: Process)
    requires TakesChildren(entries, root, family)
    requires Progress(entries, family, root, children, seen, stack + [process], out) && process.pid !in seen
    ensures Progress(entries, family, root, children - {process.pid}, seen + {process.pid},
                     stack + Remaining(children, process.pid),
                     if process.name == CONHOST then out else out + [process.pid])
  {
    assert Remaining(children, process.pid) == ChildrenOf(entries, process.pid);
    assert process in stack + [process];
    assert forall p <- stack :: p in stack + [process];
    VisitKeepsClosed(entries, seen, stack, process);
    VisitKeepsOut(family, root, seen, out, process);
  }

  lemma SkipKeepsProgress(entries: seq<Process>, family: set<Process>, root: Pid,
                          children: map<Pid, seq<Process>>, seen: set<Pid>, stack: seq<Process>,
                          out: seq<Pid>, process: Process)
    requires Progress(entries, family, root, children, seen, stack + [process], out) && process.pid in seen
    ensures Progress(entries, family, root, children, seen, stack, out)
  {
    assert forall p <- stack :: p in stack + [process];
  }

  predicate UniquePids(entries: seq<Process>) {
    forall a <- entries, b <- entries :: a.pid == b.pid ==> a == b
  }

  /** Takes any snapshot, cycles and reused pids included.  The result has no duplicates and never the
      root; it holds only descendants other than console hosts, and misses a descendant only if one
      with the same pid is a console host.  Without reused pids it is therefore exactly the descendants
      that are neither the root nor console hosts; children of console hosts are among them. */
  method ChildProcessIds(root: Pid, entries: seq<Process>) returns (out: seq<Pid>)
    ensures forall i, j | 0 <= i < j < |out| :: out[i] != out[j]
    ensures root !in out
    ensures forall pid <- out :: Listed(Family(entries, root), pid)
    ensures forall p <- Family(entries, root) :: p.pid != root ==> p.pid in out || Hosted(Family(entries, root), p.pid)
    ensures UniquePids(entries) ==>
              forall p <- entries :: p.pid in out <==>
                Descends(entries, root, p) && p.pid != root && p.name != CONHOST
  {
    ghost var seen, children;
    FamilyTakesChildren(entries, root);
    out, seen, children := Walk(root, entries, Family(entries, root));
    WalkIsComplete(entries, root, children, seen, out);
  }

  /** Taking an entry out of the index shrinks it; without an entry there is nothing to look at. */
  lemma IndexShrinks(children: map<Pid, seq<Process>>, pid: Pid)
    ensures if pid in children then (children - {pid}).Keys < children.Keys
            else children - {pid} == children && Remaining(children, pid) == []
  {
    if pid in children {
      assert pid !in (children - {pid}).Keys;
    }
  }

  method Walk(root: Pid, entries: seq<Process>, ghost family: set<Process>)
    returns (out: seq<Pid>, ghost visited: set<Pid>, ghost index: map<Pid, seq<Process>>)
    requires TakesChildren(entries, root, family)
    ensures Progress(entries, family, root, index, visited, [], out)
  {
    var children := BuildIndex(entries);
    out := [];
    var seen := {root};
    var stack := Remaining(children, root);
    StartProgress(entries, family, root, children);
    children := children - {root};
    while stack != []
      invariant Progress(entries, family, root, children, seen, stack, out)
      decreases children.Keys, |stack|
    {
      var process := stack[|stack| - 1];
      assert stack == stack[..|stack| - 1] + [process];
      stack := stack[..|stack| - 1];
      if process.pid in seen {
        SkipKeepsProgress(entries, family, root, children, seen, stack, out, process);
        continue;
      }
      VisitKeepsProgress(entries, family, root, children, seen, stack, out, process);
      IndexShrinks(children, process.pid);
      seen := seen + {process.pid};
      out := if process.name == CONHOST then out else out + [process.pid];
      stack := stack + Remaining(children, process.pid);
      children := children - {process.pid};
    }
    visited, index := seen, children;
  }

  lemma StartProgress(entries: seq<Process>, family: set<Process>, root: Pid, children: map<Pid, seq<Process>>)
    requires Indexes(children, entries, {}) && TakesChildren(entries, root, family)
    ensures Progress(entries, family, root, children - {root}, {root}, Remaining(children, root), [])
  {
    ChildrenAreExact(entries, root);
    assert Remaining(children, root) == ChildrenOf(entries, root);
    assert Indexes(children - {root}, entries, {root});
  }

  lemma WalkIsComplete(entries: seq<Process>, root: Pid, children: map<Pid, seq<Process>>, seen: set<Pid>, out: seq<Pid>)
    requires Progress(entries, Family(entries, root), root, children, seen, [], out)
    ensures forall p <- Family(entries, root) :: p.pid != root ==> p.pid in out || Hosted(Family(entries, root), p.pid)
    ensures UniquePids(entries) ==>
              forall p <- entries :: p.pid in out <==>
                Descends(entries, root, p) && p.pid != root && p.name != CONHOST
  {
    forall p | p in Family(entries, root) ensures p.pid in seen {
      var path :| Chain(entries, root, path) && path[|path| - 1] == p;
      ClosedCoversChain(entries, root, seen, path);
    }
  }
}
