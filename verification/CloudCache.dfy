/** Cloud cache eviction (apps/clipline-app/src/cloud.rs): a greedy pass over the cached files, oldest
    first, under a quota, a free-space floor, an age limit and a list of protected paths. */
module CloudCache {
  import opened Wrappers

  const U64_MAX := 0xFFFF_FFFF_FFFF_FFFF

  type Path = nat

  datatype Entry = Entry(path: Path, marker: Option<Path>, bytes: nat, modified: int)

  datatype Limits = Limits(
    now: int,
    maxAge: nat,
    quota: nat,
    available: nat,
    floor: nat,
    additional: nat)

  datatype Report = Report(evicted: nat, freed: nat, remaining: nat)

  function SatAdd(a: nat, b: nat): nat {
    if a + b > U64_MAX then U64_MAX else a + b
  }

  function SatSub(a: nat, b: nat): nat {
    if a < b then 0 else a - b
  }

  function Max(a: nat, b: nat): nat {
    if a < b then b else a
  }

  predicate Protected(e: Entry, protected: set<Path>) {
    e.path in protected || (e.marker.Some? && e.marker.value in protected)
  }

  /** A file from the future has no age. */
  predicate Expired(e: Entry, limits: Limits) {
    e.modified <= limits.now && limits.now - e.modified >= limits.maxAge
  }

  function Total(entries: seq<Entry>): nat {
    if entries == [] then 0 else Total(entries[..|entries| - 1]) + entries[|entries| - 1].bytes
  }

  function SatTotal(entries: seq<Entry>): nat {
    if entries == [] then 0
    else SatAdd(SatTotal(entries[..|entries| - 1]), entries[|entries| - 1].bytes)
  }

  /** The bytes that must be freed to respect both the quota and the free-space floor. */
  function Shortfall(entries: seq<Entry>, limits: Limits): nat {
    var overQuota, belowFloor := Total(entries) + limits.additional - limits.quota, limits.floor - limits.available;
    if overQuota <= 0 && belowFloor <= 0 then 0
    else if overQuota >= belowFloor then overQuota else belowFloor
  }

  predicate Ordered(entries: seq<Entry>) {
    forall i, j | 0 <= i < j < |entries| :: entries[i].modified <= entries[j].modified
  }

  /** The stable sort by modification time. */
  function Insert(e: Entry, sorted: seq<Entry>): seq<Entry> {
    if sorted == [] || sorted[|sorted| - 1].modified <= e.modified then sorted + [e]
    else Insert(e, sorted[..|sorted| - 1]) + [sorted[|sorted| - 1]]
  }

  function Sort(entries: seq<Entry>): seq<Entry> {
    if entries == [] then [] else Insert(entries[|entries| - 1], Sort(entries[..|entries| - 1]))
  }

  lemma OrderedSnoc(sorted: seq<Entry>, e: Entry)
    requires Ordered(sorted) && forall x <- sorted :: x.modified <= e.modified
    ensures Ordered(sorted + [e])
  {
  }

  lemma TotalSnoc(entries: seq<Entry>, e: Entry)
    ensures Total(entries + [e]) == Total(entries) + e.bytes
  {
    assert (entries + [e])[..|entries|] == entries;
  }

  lemma {:induction false} InsertAdds(e: Entry, sorted: seq<Entry>)
    ensures multiset(Insert(e, sorted)) == multiset(sorted) + multiset{e}
    ensures Total(Insert(e, sorted)) == Total(sorted) + e.bytes
  {
    if sorted == [] || sorted[|sorted| - 1].modified <= e.modified {
      TotalSnoc(sorted, e);
    } else {
      var front, last := sorted[..|sorted| - 1], sorted[|sorted| - 1];
      assert sorted == front + [last];
      InsertAdds(e, front);
      TotalSnoc(front, last);
      TotalSnoc(Insert(e, front), last);
    }
  }

  lemma InsertHolds(e: Entry, sorted: seq<Entry>, x: Entry)
    requires x in Insert(e, sorted)
    ensures x in sorted || x == e
  {
    InsertAdds(e, sorted);
    assert x in multiset(Insert(e, sorted));
  }

  lemma {:induction false} InsertOrders(e: Entry, sorted: seq<Entry>)
    requires Ordered(sorted)
    ensures Ordered(Insert(e, sorted))
  {
    if sorted == [] || sorted[|sorted| - 1].modified <= e.modified {
      OrderedSnoc(sorted, e);
    } else {
      var front, last := sorted[..|sorted| - 1], sorted[|sorted| - 1];
      InsertOrders(e, front);
      forall x | x in Insert(e, front) ensures x.modified <= last.modified {
        InsertHolds(e, front, x);
      }
      OrderedSnoc(Insert(e, front), last);
    }
  }

  /** Sorting reorders the entries, oldest first, and loses nothing. */
  lemma {:induction false} SortOrders(entries: seq<Entry>)
    ensures Ordered(Sort(entries)) && multiset(Sort(entries)) == multiset(entries)
    ensures Total(Sort(entries)) == Total(entries)
  {
    if entries != [] {
      var front, last := entries[..|entries| - 1], entries[|entries| - 1];
      assert entries == front + [last];
      SortOrders(front);
      InsertAdds(last, Sort(front));
      InsertOrders(last, Sort(front));
      TotalSnoc(front, last);
    }
  }

  /** The entries modified at `time`, in order. */
  function ModifiedAt(entries: seq<Entry>, time: int): seq<Entry> {
    if entries == [] then []
    else
      var last := entries[|entries| - 1];
      ModifiedAt(entries[..|entries| - 1], time) + if last.modified == time then [last] else []
  }

  lemma {:induction false} InsertIsLast(e: Entry, sorted: seq<Entry>, time: int)
    ensures ModifiedAt(Insert(e, sorted), time) == ModifiedAt(sorted, time) + if e.modified == time then [e] else []
  {
    if sorted == [] || sorted[|sorted| - 1].modified <= e.modified {
      assert (sorted + [e])[..|sorted|] == sorted;
    } else {
      var front, last := sorted[..|sorted| - 1], sorted[|sorted| - 1];
      InsertIsLast(e, front, time);
      assert (Insert(e, front) + [last])[..|Insert(e, front)|] == Insert(e, front);
    }
  }

  /** Entries of the same age keep their order. */
  lemma {:induction false} SortIsStable(entries: seq<Entry>, time: int)
    ensures ModifiedAt(Sort(entries), time) == ModifiedAt(entries, time)
  {
    if entries != [] {
      SortIsStable(entries[..|entries| - 1], time);
      InsertIsLast(entries[|entries| - 1], Sort(entries[..|entries| - 1]), time);
    }
  }

  lemma {:induction false} TotalGrows(entries: seq<Entry>, i: nat)
    requires i <= |entries|
    ensures Total(entries[..i]) <= Total(entries)
    decreases |entries|
  {
    if i < |entries| {
      var front := entries[..|entries| - 1];
      TotalGrows(front, i);
      assert front[..i] == entries[..i];
    } else {
      assert entries[..i] == entries;
    }
  }

  lemma {:induction false} SatTotalIsTotal(entries: seq<Entry>)
    requires Total(entries) <= U64_MAX
    ensures SatTotal(entries) == Total(entries)
  {
    if entries != [] {
      SatTotalIsTotal(entries[..|entries| - 1]);
    }
  }

  function Unprotected(entries: seq<Entry>, protected: set<Path>): seq<Entry> {
    if entries == [] then []
    else
      var last := entries[|entries| - 1];
      Unprotected(entries[..|entries| - 1], protected) + if Protected(last, protected) then [] else [last]
  }

  lemma {:induction false} UnprotectedOnly(entries: seq<Entry>, protected: set<Path>)
    ensures forall e <- Unprotected(entries, protected) :: e in entries && !Protected(e, protected)
    ensures Total(Unprotected(entries, protected)) <= Total(entries)
  {
    if entries != [] {
      var front, last := entries[..|entries| - 1], entries[|entries| - 1];
      UnprotectedOnly(front, protected);
      TotalSnoc(Unprotected(front, protected), last);
      assert Protected(last, protected) ==> Unprotected(entries, protected) == Unprotected(front, protected);
    }
  }

  lemma {:induction false} UnprotectedOrdered(entries: seq<Entry>, protected: set<Path>)
    requires Ordered(entries)
    ensures Ordered(Unprotected(entries, protected))
  {
    if entries != [] {
      var front, last := entries[..|entries| - 1], entries[|entries| - 1];
      assert Ordered(front);
      UnprotectedOrdered(front, protected);
      UnprotectedOnly(front, protected);
      assert forall x <- front :: x.modified <= last.modified;
      OrderedSnoc(Unprotected(front, protected), last);
      assert Protected(last, protected) ==> Unprotected(entries, protected) == Unprotected(front, protected);
    }
  }

  /** The first `k` unprotected entries are the shortest oldest-first prefix that holds every expired
      one and covers `required`, or all of them when nothing shorter does. */
  ghost predicate ShortestPrefix(candidates: seq<Entry>, k: nat, required: nat, limits: Limits) {
    && k <= |candidates|
    && (forall i | k <= i < |candidates| :: !Expired(candidates[i], limits))
    && (k < |candidates| ==> Total(candidates[..k]) >= required)
    && (k > 0 ==> Expired(candidates[k - 1], limits) || Total(candidates[..k - 1]) < required)
  }

  /** No shorter prefix would do. */
  lemma NoShorterPrefix(candidates: seq<Entry>, k: nat, j: nat, required: nat, limits: Limits)
    requires ShortestPrefix(candidates, k, required, limits) && j < k
    ensures (exists i :: j <= i < |candidates| && Expired(candidates[i], limits))
            || Total(candidates[..j]) < required
  {
    TotalGrows(candidates[..k - 1], j);
    assert candidates[..k - 1][..j] == candidates[..j];
  }

  /** What the pass deletes; `deletable` tells which files the operating system lets go. */
  function Evicted(entries: seq<Entry>, protected: set<Path>, required: nat, limits: Limits, deletable: Path -> bool)
    : seq<Entry>
  {
    if entries == [] then []
    else
      var last := entries[|entries| - 1];
      var before := Evicted(entries[..|entries| - 1], protected, required, limits, deletable);
      if !Protected(last, protected) && (Expired(last, limits) || SatTotal(before) < required)
         && deletable(last.path)
      then before + [last] else before
  }

  function Required(entries: seq<Entry>, limits: Limits): nat {
    Max(SatSub(SatAdd(SatTotal(entries), limits.additional), limits.quota),
        SatSub(limits.floor, limits.available))
  }

  /** No sum the pass forms reaches the 64-bit limit. */
  predicate Unsaturated(entries: seq<Entry>, limits: Limits) {
    Total(entries) + limits.additional <= U64_MAX && Total(entries) + limits.available <= U64_MAX
  }

  lemma {:induction false} EvictedAreUnprotected(
      entries: seq<Entry>, protected: set<Path>, required: nat, limits: Limits, deletable: Path -> bool)
    ensures var evicted := Evicted(entries, protected, required, limits, deletable);
            && Total(evicted) <= Total(entries)
            && forall e <- evicted :: e in entries && !Protected(e, protected) && deletable(e.path)
  {
    if entries != [] {
      var front, last := entries[..|entries| - 1], entries[|entries| - 1];
      EvictedAreUnprotected(front, protected, required, limits, deletable);
      TotalSnoc(Evicted(front, protected, required, limits, deletable), last);
    }
  }

  lemma ExpiredComesFirst(entries: seq<Entry>, i: nat, j: nat, limits: Limits)
    requires Ordered(entries) && i <= j < |entries| && Expired(entries[j], limits)
    ensures Expired(entries[i], limits)
  {
  }

  /** Looking at one more candidate, the pass takes it exactly when the shortest prefix grows. */
  lemma ExtendPrefix(before: seq<Entry>, k: nat, last: Entry, required: nat, limits: Limits)
    requires Ordered(before + [last]) && ShortestPrefix(before, k, required, limits)
    ensures if Expired(last, limits) || Total(before[..k]) < required
            then k == |before| && ShortestPrefix(before + [last], k + 1, required, limits)
            else ShortestPrefix(before + [last], k, required, limits)
  {
    var all := before + [last];
    assert all[..k] == before[..k];
    if k > 0 {
      assert all[..k - 1] == before[..k - 1];
    }
    if k < |before| {
      assert all[k] == before[k];
      if Expired(last, limits) {
        ExpiredComesFirst(all, k, |before|, limits);
      }
    }
    assert forall i | k <= i < |before| :: all[i] == before[i];
  }

  /** When every delete succeeds the pass evicts exactly the shortest prefix that is enough. */
  lemma {:induction false} EvictsShortestPrefix(
      entries: seq<Entry>, protected: set<Path>, required: nat, limits: Limits, deletable: Path -> bool)
    returns (k: nat)
    requires Ordered(entries) && Total(entries) <= U64_MAX && forall p :: deletable(p)
    ensures var candidates := Unprotected(entries, protected);
            && ShortestPrefix(candidates, k, required, limits)
            && Evicted(entries, protected, required, limits, deletable) == candidates[..k]
  {
    if entries == [] {
      k := 0;
    } else {
      var front, last := entries[..|entries| - 1], entries[|entries| - 1];
      var before := Unprotected(front, protected);
      TotalGrows(entries, |front|);
      k := EvictsShortestPrefix(front, protected, required, limits, deletable);
      if Protected(last, protected) {
        assert Unprotected(entries, protected) == before;
      } else {
        UnprotectedOrdered(entries, protected);
        UnprotectedOnly(front, protected);
        k := TakeOrStop(before, k, last, required, limits);
      }
    }
  }

  lemma TakeOrStop(before: seq<Entry>, k: nat, last: Entry, required: nat, limits: Limits) returns (n: nat)
    requires Ordered(before + [last]) && ShortestPrefix(before, k, required, limits) && Total(before) <= U64_MAX
    ensures ShortestPrefix(before + [last], n, required, limits)
    ensures (before + [last])[..n] ==
              if Expired(last, limits) || SatTotal(before[..k]) < required then before[..k] + [last] else before[..k]
  {
    TotalGrows(before, k);
    SatTotalIsTotal(before[..k]);
    ExtendPrefix(before, k, last, required, limits);
    n := if Expired(last, limits) || Total(before[..k]) < required then k + 1 else k;
  }

  method SumBytes(entries: seq<Entry>) returns (total: nat)
    ensures total == SatTotal(entries)
  {
    total := 0;
    for i := 0 to |entries|
      invariant total == SatTotal(entries[..i])
    {
      assert entries[..i + 1][..i] == entries[..i];
      total := SatAdd(total, entries[i].bytes);
    }
    assert entries[..|entries|] == entries;
  }

  /** The entries at the positions in `taken`, in order. */
  function Select(entries: seq<Entry>, taken: set<nat>): seq<Entry> {
    if entries == [] then []
    else
      var last := |entries| - 1;
      Select(entries[..last], taken) + if last in taken then [entries[last]] else []
  }

  /** A decision on every entry: an unprotected one goes if it is expired, or if those that went before it
      have not freed enough, unless the system does not let it go.  The pass carries on either way. */
  ghost predicate Decided(entries: seq<Entry>, taken: set<nat>, protected: set<Path>, required: nat, limits: Limits,
                          deletable: Path -> bool)
  {
    && (forall i <- taken :: i < |entries|)
    && forall i: nat | i < |entries| ::
         i in taken <==>
           && entries[i].path !in protected
           && (entries[i].marker.Some? ==> entries[i].marker.value !in protected)
           && deletable(entries[i].path)
           && ((limits.now - entries[i].modified >= limits.maxAge && limits.now >= entries[i].modified)
               || Total(Select(entries[..i], taken)) < required)
  }

  lemma {:induction false} SelectIgnores(entries: seq<Entry>, taken: set<nat>, more: set<nat>)
    requires forall i <- more :: i >= |entries|
    ensures Select(entries, taken + more) == Select(entries, taken)
  {
    if entries != [] {
      SelectIgnores(entries[..|entries| - 1], taken, more);
    }
  }

  /** Later decisions do not change earlier ones. */
  lemma DecidedOneMore(entries: seq<Entry>, taken: set<nat>, last: Entry, goes: bool, protected: set<Path>,
                       required: nat, limits: Limits, deletable: Path -> bool)
    requires Decided(entries, taken, protected, required, limits, deletable)
    requires goes <==>
               !Protected(last, protected) && deletable(last.path)
               && (Expired(last, limits) || Total(Select(entries, taken)) < required)
    ensures var n := if goes then taken + {|entries|} else taken;
            && Decided(entries + [last], n, protected, required, limits, deletable)
            && Select(entries + [last], n) == Select(entries, taken) + if goes then [last] else []
  {
    var n, all := if goes then taken + {|entries|} else taken, entries + [last];
    assert all[..|entries|] == entries;
    assert |entries| !in taken;
    forall i: nat | i <= |entries| ensures Select(all[..i], n) == Select(entries[..i], taken) {
      assert all[..i] == entries[..i];
      if goes {
        SelectIgnores(entries[..i], taken, {|entries|});
      }
    }
    assert entries[..|entries|] == entries;
  }

  lemma {:induction false} SelectTotal(entries: seq<Entry>, taken: set<nat>)
    ensures Total(Select(entries, taken)) <= Total(entries)
  {
    if entries != [] {
      var front, last := entries[..|entries| - 1], entries[|entries| - 1];
      SelectTotal(front, taken);
      TotalSnoc(Select(front, taken), last);
      assert |entries| - 1 in taken || Select(entries, taken) == Select(front, taken);
    }
  }

  /** The loop over the sorted entries.  `taken` tells which of them went. */
  method EvictOldest(
      entries: seq<Entry>, protected: set<Path>, required: nat, limits: Limits, deletable: Path -> bool)
    returns (evicted: seq<Entry>, freed: nat, ghost taken: set<nat>)
    ensures evicted == Evicted(entries, protected, required, limits, deletable)
    ensures freed == SatTotal(evicted)
    ensures Total(entries) <= U64_MAX ==>
              && evicted == Select(entries, taken)
              && Decided(entries, taken, protected, required, limits, deletable)
  {
    freed, evicted, taken := 0, [], {};
    for i := 0 to |entries|
      invariant evicted == Evicted(entries[..i], protected, required, limits, deletable)
      invariant freed == SatTotal(evicted)
      invariant Total(entries) <= U64_MAX ==>
                  && evicted == Select(entries[..i], taken)
                  && Decided(entries[..i], taken, protected, required, limits, deletable)
    {
      var entry := entries[i];
      assert entries[..i + 1][..i] == entries[..i];
      assert entries[..i + 1] == entries[..i] + [entry];
      ghost var goes := && !Protected(entry, protected) && deletable(entry.path)
                        && (Expired(entry, limits) || freed < required);
      if Total(entries) <= U64_MAX {
        SelectTotal(entries[..i], taken);
        TotalGrows(entries, i);
        SatTotalIsTotal(evicted);
        DecidedOneMore(entries[..i], taken, entry, goes, protected, required, limits, deletable);
      }
      taken := if goes then taken + {i} else taken;
      if Protected(entry, protected) {
        continue;
      }
      if !Expired(entry, limits) && freed >= required {
        continue;
      }
      if !deletable(entry.path) {
        continue;
      }
      assert (evicted + [entry])[..|evicted|] == evicted;
      evicted := evicted + [entry];
      freed := SatAdd(freed, entry.bytes);
    }
    assert entries[..|entries|] == entries;
  }

  /** The eviction pass.  Barring saturation it decides on every entry, oldest first and whatever deletes
      fail, accounts for every byte, and reports success exactly when the bytes it freed cover the larger
      shortfall. */
  method EnforceLimits(collected: seq<Entry>, limits: Limits, protected: set<Path>, deletable: Path -> bool)
    returns (result: Result<Report, Report>, evicted: seq<Entry>, ghost taken: set<nat>)
    ensures evicted == Evicted(Sort(collected), protected, Required(Sort(collected), limits), limits, deletable)
    ensures Unsaturated(collected, limits) ==>
              && evicted == Select(Sort(collected), taken)
              && Decided(Sort(collected), taken, protected, Shortfall(collected, limits), limits, deletable)
    ensures Unsaturated(collected, limits) ==>
              var report := if result.Ok? then result.value else result.error;
              && report.evicted == |evicted| && report.freed == Total(evicted)
              && report.freed + report.remaining == Total(collected)
              && (result.Ok? <==> Total(evicted) >= Shortfall(collected, limits))
  {
    var entries := Sort(collected);
    var total := SumBytes(entries);
    var requiredForQuota := SatSub(SatAdd(total, limits.additional), limits.quota);
    var requiredForFreeSpace := SatSub(limits.floor, limits.available);
    var required := Max(requiredForQuota, requiredForFreeSpace);
    var freed;
    evicted, freed, taken := EvictOldest(entries, protected, required, limits, deletable);
    var remaining := SatSub(total, freed);
    var quotaSatisfied := SatAdd(remaining, limits.additional) <= limits.quota;
    var freeSpaceSatisfied := SatAdd(limits.available, freed) >= limits.floor;
    var report := Report(|evicted|, freed, remaining);
    result := if quotaSatisfied && freeSpaceSatisfied then Ok(report) else Err(report);
    SortOrders(collected);
    if Unsaturated(collected, limits) {
      EvictedAreUnprotected(entries, protected, required, limits, deletable);
      SatTotalIsTotal(entries);
      SatTotalIsTotal(evicted);
    }
  }

  /** For the pass as run on any collection: protected entries stay, and when deletes succeed the
      evicted ones are the shortest oldest-first prefix of the unprotected entries that is enough. */
  lemma EvictionIsExact(collected: seq<Entry>, limits: Limits, protected: set<Path>, deletable: Path -> bool)
    returns (k: nat)
    requires Unsaturated(collected, limits) && forall p :: deletable(p)
    ensures var candidates := Unprotected(Sort(collected), protected);
            var evicted := Evicted(Sort(collected), protected, Required(Sort(collected), limits), limits, deletable);
            && ShortestPrefix(candidates, k, Shortfall(collected, limits), limits)
            && evicted == candidates[..k]
            && Ordered(candidates) && forall e <- evicted :: !Protected(e, protected)
  {
    SortOrders(collected);
    SatTotalIsTotal(Sort(collected));
    EvictedAreUnprotected(Sort(collected), protected, Required(Sort(collected), limits), limits, deletable);
    UnprotectedOrdered(Sort(collected), protected);
    k := EvictsShortestPrefix(Sort(collected), protected, Required(Sort(collected), limits), limits, deletable);
  }
}
