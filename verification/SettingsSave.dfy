/** Saving settings as a compensating transaction over the desktop's fallible services
    (apps/clipline-app/src/app.rs): global shortcut registrations, the low-level hook, the tray
    label, the autostart entry, settings.json and the live settings. */
module SettingsSave {
  import opened Wrappers

  type Shortcut = nat

  /** `backend` stands for the cloud and osu! fields only the backend writes. */
  datatype Preferences = Preferences(
    shortcuts: seq<Shortcut>,
    hook: seq<Shortcut>,
    tray: string,
    openOnStartup: bool,
    backend: nat,
    other: nat)

  datatype SyncOutcome =
    | Synced(warnings: seq<Shortcut>)
    | RegisterRefused(shortcut: Shortcut)
    | UnregisterRefused(shortcut: Shortcut, leftover: seq<Shortcut>)

  datatype Stage = Preflight | GlobalHotkeys | Hook | TrayLabel | Autostart | Restart | Disk | Commit

  datatype Applied = Applied(globalHotkeys: bool, hook: bool, tray: bool, autostart: bool)

  function Elems(s: seq<Shortcut>): set<Shortcut> {
    set x | x in s
  }

  /** From exactly the previous registrations a successful sync leaves exactly the next ones. */
  lemma SyncFromSettled(previous: set<Shortcut>, next: set<Shortcut>, now: set<Shortcut>, warned: set<Shortcut>)
    requires previous - (previous - next) <= now <= previous - (previous - next) + next
    requires next - now <= warned <= previous * next && warned !! previous
    ensures now == next
  {
    assert next - now == {};
    assert forall x <- next :: x !in now ==> x in next - now;
  }

  predicate Distinct(s: seq<Shortcut>) {
    forall i, j | 0 <= i < j < |s| :: s[i] != s[j]
  }

  /** Distinct members of a set are as many as the set only if they are all of it. */
  lemma {:induction false} CountUpTo(part: seq<Shortcut>, whole: set<Shortcut>)
    requires Distinct(part) && Elems(part) <= whole
    ensures |part| <= |whole| && (|part| == |whole| <==> Elems(part) == whole)
  {
    if part != [] {
      var front, last := part[..|part| - 1], part[|part| - 1];
      assert part == front + [last];
      assert Elems(part) == Elems(front) + {last} && last in Elems(part) && last !in Elems(front);
      CountUpTo(front, whole - {last});
      assert whole == (whole - {last}) + {last};
    } else {
      assert Elems(part) == {};
    }
  }

  lemma NonEmptyElems(s: seq<Shortcut>)
    requires s != []
    ensures Elems(s) != {}
  {
    assert s[0] in Elems(s);
  }

  /** The calls a synchronisation makes when exactly the previous shortcuts are registered. */
  function SyncCalls(previous: seq<Shortcut>, next: seq<Shortcut>): nat {
    |Elems(next) - Elems(previous)| + |Elems(previous) - Elems(next)|
  }

  /** From `before` to `after`: a dropped shortcut is gone, nothing but new ones came, and a new one that
      is missing was configured before. */
  predicate SynchronisedAt(before: set<Shortcut>, after: set<Shortcut>, previous: seq<Shortcut>,
                           next: seq<Shortcut>, x: Shortcut)
  {
    if x in next then x in before ==> x in after
    else x in after <==> x in before && x !in previous
  }

  ghost predicate Synchronised(before: set<Shortcut>, after: set<Shortcut>, previous: seq<Shortcut>,
                               next: seq<Shortcut>)
  {
    && (forall x: Shortcut :: SynchronisedAt(before, after, previous, next, x))
    && (forall x <- next :: x in after || x in previous)
  }

  lemma SynchronisedByElement(before: set<Shortcut>, after: set<Shortcut>, previous: seq<Shortcut>, next: seq<Shortcut>)
    requires before - (Elems(previous) - Elems(next)) <= after <= before - (Elems(previous) - Elems(next)) + Elems(next)
    requires Elems(next) - after <= Elems(previous)
    ensures Synchronised(before, after, previous, next)
  {
    forall x: Shortcut ensures SynchronisedAt(before, after, previous, next, x) {
      assert x in Elems(next) <==> x in next;
      assert x in Elems(previous) <==> x in previous;
    }
    forall x | x in next ensures x in after || x in previous {
      assert x in Elems(next) && (x in Elems(previous) <==> x in previous);
    }
  }

  /** The desktop, with scripts saying which of the calls made to it fail, and which writes of the
      startup entry take effect.  A failing call leaves its component as it was. */
  class Desktop {
    const fails: nat -> bool
    const sticks: nat -> bool
    const debugBuild: bool
    const paused: bool
    var calls: nat
    var registered: set<Shortcut>
    var hook: seq<Shortcut>
    var tray: string
    var autostart: bool
    var disk: Preferences
    var live: Preferences

    /** A desktop showing `live` in every component. */
    constructor (fails: nat -> bool, sticks: nat -> bool, debugBuild: bool, paused: bool, live: Preferences)
      ensures this.fails == fails && this.sticks == sticks && this.debugBuild == debugBuild && this.paused == paused
      ensures calls == 0 && this.live == live && Settled()
    {
      this.fails, this.sticks, this.debugBuild, this.paused := fails, sticks, debugBuild, paused;
      calls := 0;
      registered := if paused then {} else Elems(live.shortcuts);
      hook, tray, autostart := live.hook, live.tray, live.openOnStartup;
      disk, this.live := live, live;
    }

    /** None of the calls made since call number `from` failed. */
    ghost predicate Clean(from: nat)
      reads this
    {
      forall i | from <= i < calls :: !fails(i)
    }

    /** None of the calls from number `from` up to, but without, number `to` fails. */
    ghost predicate CleanUpTo(from: nat, to: nat) {
      forall i | from <= i < to :: !fails(i)
    }

    /** None of the calls made since call number `from` failed, and none was a write without effect. */
    ghost predicate Works(from: nat)
      reads this
    {
      Clean(from) && forall i | from <= i < calls :: sticks(i)
    }

    /** Side effects beginning with call `from` come to the startup entry with this call, after the
        synchronisation, the hook and the tray label. */
    function StartupCall(from: nat, previous: Preferences, requested: Preferences): nat {
      from + SyncCalls(Effective(previous), Effective(requested)) + 2
    }

    predicate StartupDue(previous: Preferences, requested: Preferences) {
      requested.openOnStartup != previous.openOnStartup && !debugBuild
    }

    /** Side effects beginning with call `from` get as far as writing a changed startup preference. */
    ghost predicate ReachesStartup(from: nat, previous: Preferences, requested: Preferences) {
      StartupDue(previous, requested) && CleanUpTo(from, StartupCall(from, previous, requested))
    }

    /** The write takes effect, and then reading it back fails. */
    predicate LeavesEntry(write: nat) {
      !fails(write) && sticks(write) && fails(write + 1)
    }

    function Effective(p: Preferences): seq<Shortcut> {
      if paused then [] else p.shortcuts
    }

    /** Every desktop component shows the preferences. */
    ghost predicate Shows(p: Preferences)
      reads this
    {
      registered == Elems(Effective(p)) && hook == p.hook && tray == p.tray && autostart == p.openOnStartup
    }

    /** Every component, the file included, shows the live settings. */
    ghost predicate Settled()
      reads this
    {
      Shows(live) && disk == live
    }

    method Attempt() returns (ok: bool)
      modifies this`calls
      ensures calls == old(calls) + 1 && ok == !fails(old(calls))
    {
      ok := !fails(calls);
      calls := calls + 1;
    }

    method Register(s: Shortcut) returns (ok: bool)
      modifies this`calls, this`registered
      ensures calls == old(calls) + 1 && ok == !fails(old(calls))
      ensures registered == if ok then old(registered) + {s} else old(registered)
    {
      ok := Attempt();
      if ok {
        registered := registered + {s};
      }
    }

    method Unregister(s: Shortcut) returns (ok: bool)
      modifies this`calls, this`registered
      ensures calls == old(calls) + 1 && ok == !fails(old(calls))
      ensures registered == if ok then old(registered) - {s} else old(registered)
    {
      ok := Attempt();
      if ok {
        registered := registered - {s};
      }
    }

    /** Undoes registrations, going on past failures; `leftover` names the failed ones. */
    method UnregisterAll(added: seq<Shortcut>) returns (leftover: seq<Shortcut>)
      requires Distinct(added)
      modifies this`calls, this`registered
      ensures calls == old(calls) + |added|
      ensures registered == old(registered) - (Elems(added) - Elems(leftover))
      ensures Elems(leftover) <= Elems(added)
      ensures leftover == [] <==> Clean(old(calls))
    {
      leftover := [];
      for i := 0 to |added|
        invariant calls == old(calls) + i
        invariant Elems(leftover) <= Elems(added[..i])
        invariant registered == old(registered) - (Elems(added[..i]) - Elems(leftover))
        invariant leftover == [] <==> Clean(old(calls))
      {
        assert Elems(added[..i + 1]) == Elems(added[..i]) + {added[i]};
        var ok := Unregister(added[i]);
        if !ok {
          assert Elems(leftover + [added[i]]) == Elems(leftover) + {added[i]};
          leftover := leftover + [added[i]];
          assert fails(calls - 1);
        }
      }
      assert added[..|added|] == added;
    }

    /** Puts removed registrations back, newest first, going on past failures. */
    method RegisterAll(removed: seq<Shortcut>) returns (leftover: seq<Shortcut>)
      requires Distinct(removed)
      modifies this`calls, this`registered
      ensures calls == old(calls) + |removed|
      ensures registered == old(registered) + (Elems(removed) - Elems(leftover))
      ensures Elems(leftover) <= Elems(removed)
      ensures leftover == [] <==> Clean(old(calls))
    {
      leftover := [];
      for i := |removed| downto 0
        invariant calls == old(calls) + |removed| - i
        invariant Elems(leftover) <= Elems(removed[i..])
        invariant registered == old(registered) + (Elems(removed[i..]) - Elems(leftover))
        invariant leftover == [] <==> Clean(old(calls))
      {
        assert removed[i..] == [removed[i]] + removed[i + 1..];
        assert Elems(removed[i..]) == {removed[i]} + Elems(removed[i + 1..]);
        var ok := Register(removed[i]);
        if !ok {
          assert Elems(leftover + [removed[i]]) == Elems(leftover) + {removed[i]};
          leftover := leftover + [removed[i]];
          assert fails(calls - 1);
        }
      }
    }

    /** A phase begun with call `from` succeeds if and only if none of the `due` calls fails, and then
        makes exactly those. */
    ghost predicate PhaseCalls(from: nat, due: nat, ok: bool)
      reads this
    {
      (ok <==> CleanUpTo(from, from + due)) && (ok ==> calls == from + due)
    }

    /** First phase: registers what is missing from `next`.  A shortcut that was configured before and
        still cannot be had is a warning; any other refusal ends the phase. */
    method RegisterMissing(previous: seq<Shortcut>, next: seq<Shortcut>)
      returns (added: seq<Shortcut>, warnings: seq<Shortcut>, refused: Option<Shortcut>)
      modifies this`calls, this`registered
      ensures old(calls) <= calls
      ensures Distinct(added)
      ensures Elems(added) <= Elems(next) && Elems(added) !! old(registered)
      ensures registered == old(registered) + Elems(added)
      ensures Elems(warnings) <= Elems(previous) * Elems(next) && Elems(warnings) !! old(registered)
      ensures refused.None? ==> Elems(next) - registered <= Elems(warnings)
      ensures refused.Some? ==> refused.value in next && refused.value !in previous && refused.value !in registered
      ensures calls == old(calls) + |added| + |warnings| + if refused.Some? then 1 else 0
      ensures warnings == [] ==> CleanUpTo(old(calls), old(calls) + |added|)
      ensures refused.Some? ==> fails(calls - 1)
      ensures Clean(old(calls)) ==> warnings == [] && refused.None?
    {
      warnings, added := [], [];
      for i := 0 to |next|
        invariant calls == old(calls) + |added| + |warnings|
        invariant warnings == [] <==> Clean(old(calls))
        invariant Distinct(added)
        invariant Elems(added) <= Elems(next) && Elems(added) !! old(registered)
        invariant registered == old(registered) + Elems(added)
        invariant Elems(next[..i]) - registered <= Elems(warnings) <= Elems(previous) * Elems(next)
        invariant Elems(warnings) !! old(registered)
      {
        var s := next[i];
        assert Elems(next[..i + 1]) == Elems(next[..i]) + {s};
        if s in registered {
          continue;
        }
        var ok := Register(s);
        if ok {
          assert Elems(added + [s]) == Elems(added) + {s};
          added := added + [s];
        } else if s in previous {
          assert fails(calls - 1);
          assert Elems(warnings + [s]) == Elems(warnings) + {s};
          warnings := warnings + [s];
        } else {
          assert fails(calls - 1);
          return added, warnings, Some(s);
        }
      }
      assert next[..|next|] == next;
      return added, warnings, None;
    }

    /** From exactly the previous registrations the first phase registers, or fails over, exactly the
        new ones. */
    lemma MissingCounted(previous: set<Shortcut>, next: set<Shortcut>, from: nat,
                         added: seq<Shortcut>, warnings: seq<Shortcut>, refused: Option<Shortcut>)
      requires Distinct(added) && Elems(added) <= next - previous
      requires Elems(warnings) <= previous && Elems(warnings) !! previous
      requires if refused.Some? then refused.value in next - previous - Elems(added)
               else next - (previous + Elems(added)) <= Elems(warnings)
      requires calls == from + |added| + |warnings| + if refused.Some? then 1 else 0
      requires warnings == [] ==> CleanUpTo(from, from + |added|)
      requires refused.Some? ==> fails(calls - 1)
      ensures PhaseCalls(from, |next - previous|, refused.None?)
    {
      if warnings != [] {
        NonEmptyElems(warnings);
      }
      CountUpTo(added, next - previous);
    }

    /** Second phase: unregisters what `previous` had and `next` drops, up to the first refusal. */
    method UnregisterDropped(previous: seq<Shortcut>, next: seq<Shortcut>)
      returns (removed: seq<Shortcut>, refused: Option<Shortcut>)
      modifies this`calls, this`registered
      ensures old(calls) <= calls
      ensures Distinct(removed)
      ensures Elems(removed) <= (Elems(previous) - Elems(next)) * old(registered)
      ensures registered == old(registered) - Elems(removed)
      ensures refused.None? ==> (Elems(previous) - Elems(next)) !! registered
      ensures refused.Some? ==> refused.value in (Elems(previous) - Elems(next)) * registered
      ensures calls == old(calls) + |removed| + if refused.Some? then 1 else 0
      ensures CleanUpTo(old(calls), old(calls) + |removed|)
      ensures refused.Some? ==> fails(calls - 1)
      ensures Clean(old(calls)) ==> refused.None?
    {
      removed := [];
      for i := 0 to |previous|
        invariant calls == old(calls) + |removed| && Clean(old(calls))
        invariant Distinct(removed)
        invariant Elems(removed) <= (Elems(previous) - Elems(next)) * old(registered)
        invariant registered == old(registered) - Elems(removed)
        invariant (Elems(previous[..i]) - Elems(next)) !! registered
      {
        var s := previous[i];
        assert Elems(previous[..i + 1]) == Elems(previous[..i]) + {s};
        if s in next || s !in registered {
          continue;
        }
        var ok := Unregister(s);
        if !ok {
          assert fails(calls - 1);
          return removed, Some(s);
        }
        assert Elems(removed + [s]) == Elems(removed) + {s};
        removed := removed + [s];
      }
      assert previous[..|previous|] == previous;
      return removed, None;
    }

    lemma DroppedCounted(dropped: set<Shortcut>, from: nat, removed: seq<Shortcut>, refused: Option<Shortcut>)
      requires Distinct(removed) && Elems(removed) <= dropped
      requires if refused.Some? then refused.value in dropped - Elems(removed) else dropped <= Elems(removed)
      requires calls == from + |removed| + if refused.Some? then 1 else 0
      requires CleanUpTo(from, from + |removed|)
      requires refused.Some? ==> fails(calls - 1)
      ensures PhaseCalls(from, |dropped|, refused.None?)
    {
      CountUpTo(removed, dropped);
    }

    /** Takes both phases back: re-registers what was removed and unregisters what was added.  The
        registrations of before are restored if and only if no call fails. */
    method TakeBack(removed: seq<Shortcut>, added: seq<Shortcut>) returns (leftover: seq<Shortcut>)
      requires Distinct(removed) && Distinct(added)
      requires Elems(added) <= registered && Elems(removed) !! registered
      modifies this`calls, this`registered
      ensures old(calls) <= calls
      ensures leftover == [] <==> Clean(old(calls))
      ensures registered == old(registered) + Elems(removed) - Elems(added) <==> Clean(old(calls))
    {
      var lost := RegisterAll(removed);
      ghost var middle := calls;
      assert lost != [] ==> lost[0] in Elems(removed) && lost[0] !in registered;
      var extra := UnregisterAll(added);
      assert extra != [] ==> extra[0] in Elems(added) && extra[0] in registered;
      assert lost != [] ==> lost[0] !in registered;
      assert Clean(old(calls)) <==> lost == [] && extra == [];
      if lost == [] && extra == [] {
        assert registered == old(registered) + Elems(removed) - Elems(added);
      }
      leftover := lost + extra;
    }

    /** Unregisters what was added; all of it is gone if and only if no call fails. */
    method TakeBackAdded(added: seq<Shortcut>)
      requires Distinct(added) && Elems(added) <= registered
      modifies this`calls, this`registered
      ensures old(calls) <= calls
      ensures registered == old(registered) - Elems(added) <==> Clean(old(calls))
    {
      var ignored := UnregisterAll(added);
      assert ignored != [] ==> ignored[0] in Elems(added) && ignored[0] in registered;
      assert ignored == [] ==> Elems(ignored) == {};
    }

    /** First phase with its rollback. */
    method RegisterOrTakeBack(previous: seq<Shortcut>, next: seq<Shortcut>)
      returns (added: seq<Shortcut>, warnings: seq<Shortcut>, refused: Option<Shortcut>, ghost undo: nat)
      modifies this`calls, this`registered
      ensures old(calls) <= undo <= calls
      ensures Clean(old(calls)) ==> refused.None? && warnings == []
      ensures refused.None? ==>
                && undo == calls && Distinct(added)
                && Elems(added) <= Elems(next) && Elems(added) !! old(registered)
                && registered == old(registered) + Elems(added)
                && Elems(next) - registered <= Elems(warnings) <= Elems(previous) * Elems(next)
                && Elems(warnings) !! old(registered)
      ensures refused.Some? ==>
                && refused.value in next && refused.value !in previous
                && (registered == old(registered) <==> Clean(undo))
      ensures old(registered) == Elems(previous) ==>
                && (refused.None? <==> CleanUpTo(old(calls), old(calls) + |Elems(next) - Elems(previous)|))
                && (refused.None? ==> calls == old(calls) + |Elems(next) - Elems(previous)|)
    {
      added, warnings, refused := RegisterMissing(previous, next);
      undo := calls;
      if old(registered) == Elems(previous) {
        MissingCounted(Elems(previous), Elems(next), old(calls), added, warnings, refused);
      }
      if refused.Some? {
        assert registered - Elems(added) == old(registered);
        TakeBackAdded(added);
      }
    }

    /** Second phase with the rollback of both. */
    method DropOrTakeBack(previous: seq<Shortcut>, next: seq<Shortcut>, added: seq<Shortcut>)
      returns (kept: Option<Shortcut>, leftover: seq<Shortcut>, ghost undo: nat)
      requires Distinct(added) && Elems(added) <= registered && Elems(added) <= Elems(next)
      modifies this`calls, this`registered
      ensures old(calls) <= undo <= calls
      ensures Clean(old(calls)) ==> kept.None?
      ensures kept.None? ==> undo == calls && registered == old(registered) - (Elems(previous) - Elems(next))
      ensures kept.Some? ==>
                && (registered == old(registered) - Elems(added) <==> Clean(undo))
                && (leftover == [] <==> Clean(undo))
      ensures Elems(previous) <= old(registered) ==>
                && (kept.None? <==> CleanUpTo(old(calls), old(calls) + |Elems(previous) - Elems(next)|))
                && (kept.None? ==> calls == old(calls) + |Elems(previous) - Elems(next)|)
    {
      var removed;
      removed, kept := UnregisterDropped(previous, next);
      leftover := [];
      undo := calls;
      if Elems(previous) <= old(registered) {
        DroppedCounted(Elems(previous) - Elems(next), old(calls), removed, kept);
      }
      if kept.Some? {
        assert old(registered) == registered + Elems(removed);
        leftover := TakeBack(removed, added);
      }
    }

    /** Brings the registrations from `previous` to `next`, duplicates allowed.  Success leaves every
        new shortcut registered, or previously configured and warned about, and no dropped one; failure
        restores the registrations exactly when no rollback call, from number `undo` on, fails.  From
        exactly the previous registrations, success means that none of the calls due failed. */
    method SyncGlobalHotkeys(previous: seq<Shortcut>, next: seq<Shortcut>)
      returns (outcome: SyncOutcome, ghost undo: nat)
      modifies this`calls, this`registered
      ensures old(calls) <= undo <= calls
      ensures Clean(old(calls)) ==> outcome == Synced([])
      ensures outcome.Synced? ==>
                && undo == calls
                && registered <= old(registered) - (Elems(previous) - Elems(next)) + Elems(next)
                && registered >= old(registered) - (Elems(previous) - Elems(next))
                && Elems(next) - registered <= Elems(outcome.warnings) <= Elems(previous) * Elems(next)
                && Elems(outcome.warnings) !! old(registered)
      ensures !outcome.Synced? ==> (registered == old(registered) <==> Clean(undo))
      ensures outcome.UnregisterRefused? ==> (outcome.leftover == [] <==> Clean(undo))
      ensures outcome.RegisterRefused? ==> outcome.shortcut in next && outcome.shortcut !in previous
      ensures old(registered) == Elems(previous) ==>
                PhaseCalls(old(calls), SyncCalls(previous, next), outcome.Synced?)
    {
      var added, warnings, refused;
      added, warnings, refused, undo := RegisterOrTakeBack(previous, next);
      if refused.Some? {
        return RegisterRefused(refused.value), undo;
      }
      ghost var synced := registered;
      assert synced - Elems(added) == old(registered);
      var kept, leftover;
      kept, leftover, undo := DropOrTakeBack(previous, next, added);
      if kept.Some? {
        return UnregisterRefused(kept.value, leftover), undo;
      }
      return Synced(warnings), undo;
    }

    /** The synchronisation as saves and their rollbacks use it, between two exact sets of shortcuts. */
    method SwapGlobalHotkeys(previous: seq<Shortcut>, next: seq<Shortcut>) returns (ok: bool, ghost undo: nat)
      modifies this`calls, this`registered
      ensures old(calls) <= undo <= calls
      ensures Clean(old(calls)) ==> ok
      ensures ok ==> undo == calls && Synchronised(old(registered), registered, previous, next)
      ensures !ok && Clean(undo) ==> registered == old(registered)
      ensures old(registered) == Elems(previous) ==>
                && (ok ==> registered == Elems(next))
                && PhaseCalls(old(calls), SyncCalls(previous, next), ok)
    {
      var outcome;
      outcome, undo := SyncGlobalHotkeys(previous, next);
      ok := outcome.Synced?;
      if ok {
        SynchronisedByElement(old(registered), registered, previous, next);
      }
      if ok && old(registered) == Elems(previous) {
        SyncFromSettled(Elems(previous), Elems(next), registered, Elems(outcome.warnings));
      }
    }

    /** Writes the startup entry and reads back what it then says; `None` when either call failed.  A
        write that took effect stands even when the read-back fails. */
    method SetAutostart(enabled: bool) returns (actual: Option<bool>)
      modifies this`calls, this`autostart
      ensures old(calls) < calls
      ensures calls == old(calls) + if fails(old(calls)) then 1 else 2
      ensures autostart == if fails(old(calls)) || !sticks(old(calls)) then old(autostart) else enabled
      ensures actual == if Clean(old(calls)) then Some(autostart) else None
      ensures actual.None? <==> fails(old(calls)) || fails(old(calls) + 1)
    {
      var written := Attempt();
      if !written {
        assert fails(calls - 1);
        return None;
      }
      if sticks(calls - 1) {
        autostart := enabled;
      }
      var read := Attempt();
      assert !read ==> fails(calls - 1);
      return if read then Some(autostart) else None;
    }

    /** Puts back what was applied, going on past failures. */
    method RollbackSideEffects(previous: Preferences, next: Preferences, applied: Applied)
      modifies this`calls, this`registered, this`hook, this`tray, this`autostart
      ensures old(calls) <= calls
      ensures Works(old(calls)) ==>
                autostart == if applied.autostart then previous.openOnStartup else old(autostart)
      ensures Clean(old(calls)) ==>
                && tray == (if applied.tray then previous.tray else old(tray))
                && hook == (if applied.hook then previous.hook else old(hook))
                && (applied.globalHotkeys && old(registered) == Elems(Effective(next)) ==>
                      registered == Elems(Effective(previous)))
                && (!applied.globalHotkeys ==> registered == old(registered))
    {
      if applied.autostart {
        var actual := SetAutostart(previous.openOnStartup);
      }
      if applied.tray {
        var ok := Attempt();
        if ok {
          tray := previous.tray;
        }
      }
      if applied.hook {
        var ok := Attempt();
        if ok {
          hook := previous.hook;
        }
      }
      if applied.globalHotkeys {
        ghost var from := calls;
        var restored, undo := SwapGlobalHotkeys(Effective(next), Effective(previous));
        assert Clean(old(calls)) ==> Clean(from);
      }
    }

    /** Registers the new shortcuts and hands them to the hook and the tray, up to the first refusal.
        `undo` is the number of the first compensating call. */
    method ApplyShortcuts(previous: Preferences, requested: Preferences)
      returns (applied: Applied, refused: Option<Stage>, ghost undo: nat)
      modifies this`calls, this`registered, this`hook, this`tray
      ensures old(calls) <= undo <= calls && !applied.autostart
      ensures refused.None? ==>
                && applied.globalHotkeys && applied.hook && applied.tray
                && Synchronised(old(registered), registered, Effective(previous), Effective(requested))
      ensures refused.Some? ==> refused.value in {GlobalHotkeys, Hook, TrayLabel}
      ensures refused == Some(GlobalHotkeys) <==> !applied.globalHotkeys
      ensures !applied.globalHotkeys ==>
                !applied.hook && !applied.tray && (Clean(undo) ==> registered == old(registered))
      ensures applied.globalHotkeys ==> undo == calls
      ensures applied.globalHotkeys && old(registered) == Elems(Effective(previous)) ==>
                registered == Elems(Effective(requested))
      ensures hook == if applied.hook then requested.hook else old(hook)
      ensures tray == if applied.tray then requested.tray else old(tray)
      ensures Clean(old(calls)) ==> refused.None?
      ensures old(registered) == Elems(Effective(previous)) ==>
                PhaseCalls(old(calls), SyncCalls(Effective(previous), Effective(requested)) + 2, refused.None?)
    {
      applied := Applied(false, false, false, false);
      var ok;
      ok, undo := SwapGlobalHotkeys(Effective(previous), Effective(requested));
      if !ok {
        return applied, Some(GlobalHotkeys), undo;
      }
      applied := applied.(globalHotkeys := true);
      ok := Attempt();
      undo := calls;
      if !ok {
        assert fails(calls - 1);
        return applied, Some(Hook), undo;
      }
      hook := requested.hook;
      applied := applied.(hook := true);
      ok := Attempt();
      undo := calls;
      if !ok {
        assert fails(calls - 1);
        return applied, Some(TrayLabel), undo;
      }
      tray := requested.tray;
      return applied.(tray := true), None, undo;
    }

    /** Writes a changed startup preference; the settings then carry what the system reports. */
    method ApplyStartup(previous: Preferences, requested: Preferences)
      returns (settings: Preferences, written: bool, refused: bool)
      modifies this`calls, this`autostart
      ensures var due, write := requested.openOnStartup != previous.openOnStartup && !debugBuild, old(calls);
              && (refused <==> due && (fails(write) || fails(write + 1)))
              && (written <==> due && !refused)
              && calls == write + (if !due then 0 else if fails(write) then 1 else 2)
              && autostart == (if due && !fails(write) && sticks(write) then requested.openOnStartup else old(autostart))
      ensures settings == if written then requested.(openOnStartup := autostart) else requested
    {
      settings, written, refused := requested, false, false;
      if requested.openOnStartup != previous.openOnStartup && !debugBuild {
        var actual := SetAutostart(requested.openOnStartup);
        if actual.None? {
          return requested, false, true;
        }
        settings := requested.(openOnStartup := actual.value);
        written := true;
      }
    }

    /** Applies the new settings to the desktop and takes them back at the first refusal.  `undo` is the
        number of the first compensating call.  When every compensating call works, the desktop then
        shows what it showed before, but for a startup entry written and not read back. */
    method ApplySideEffects(previous: Preferences, requested: Preferences)
      returns (settings: Preferences, applied: Applied, refused: Option<Stage>, ghost undo: nat)
      modifies this`calls, this`registered, this`hook, this`tray, this`autostart
      ensures old(calls) <= undo <= calls
      ensures Clean(old(calls)) ==> refused.None?
      ensures refused.None? ==>
                && applied == Applied(true, true, true, StartupDue(previous, requested))
                && settings == (if applied.autostart then requested.(openOnStartup := autostart) else requested)
                && Synchronised(old(registered), registered, Effective(previous), Effective(requested))
                && hook == requested.hook && tray == requested.tray
      ensures refused.Some? ==> refused.value in {GlobalHotkeys, Hook, TrayLabel, Autostart}
      ensures var write := StartupCall(old(calls), previous, requested);
              old(Shows(previous)) ==>
                && (refused == Some(Autostart) <==>
                      ReachesStartup(old(calls), previous, requested) && (fails(write) || fails(write + 1)))
                && (refused == Some(Autostart) ==> undo == write + if fails(write) then 1 else 2)
                && (refused.None? ==>
                      && registered == Elems(Effective(requested)) && hook == requested.hook && tray == requested.tray
                      && autostart == if StartupDue(previous, requested) && sticks(write) then requested.openOnStartup
                                      else previous.openOnStartup)
                && (refused.Some? && Works(undo) ==>
                      && registered == old(registered) && hook == old(hook) && tray == old(tray)
                      && (autostart == old(autostart) <==>
                            !(ReachesStartup(old(calls), previous, requested) && LeavesEntry(write))))
    {
      settings := requested;
      applied, refused, undo := ApplyShortcuts(previous, requested);
      if refused.Some? {
        if applied.globalHotkeys {
          RollbackSideEffects(previous, requested, applied);
        }
        return;
      }
      var written, unknown;
      settings, written, unknown := ApplyStartup(previous, requested);
      undo := calls;
      applied := applied.(autostart := written);
      if unknown {
        RollbackSideEffects(previous, requested, applied);
        refused := Some(Autostart);
      }
    }

    /** The last stages: the recorder's options are checked, the file is written, the settings go live.
        A failure at any of them takes back what was applied. */
    method Persist(previous: Preferences, settings: Preferences, applied: Applied)
      returns (refused: Option<Stage>, ghost undo: nat)
      requires applied.globalHotkeys && applied.hook && applied.tray
      modifies this`calls, this`registered, this`hook, this`tray, this`autostart, this`disk, this`live
      ensures old(calls) < undo <= calls
      ensures Clean(old(calls)) ==> refused.None?
      ensures refused.None? ==>
                && disk == settings && live == settings
                && registered == old(registered) && hook == old(hook) && tray == old(tray)
                && autostart == old(autostart)
      ensures refused.Some? ==> live == old(live) && refused.value in {Restart, Disk, Commit}
      ensures refused.Some? && Works(undo) ==>
                autostart == if applied.autostart then previous.openOnStartup else old(autostart)
      ensures refused.Some? && Clean(undo) ==>
                && disk == (if refused == Some(Commit) then previous else old(disk))
                && tray == previous.tray && hook == previous.hook
                && (old(registered) == Elems(Effective(settings)) ==> registered == Elems(Effective(previous)))
    {
      var ok := Attempt();
      undo := calls;
      if !ok {
        RollbackSideEffects(previous, settings, applied);
        return Some(Restart), undo;
      }
      ok := Attempt();
      undo := calls;
      if !ok {
        RollbackSideEffects(previous, settings, applied);
        return Some(Disk), undo;
      }
      disk := settings;
      ok := Attempt();
      undo := calls;
      if !ok {
        ok := Attempt();
        if ok {
          disk := previous;
        }
        ghost var from := calls;
        RollbackSideEffects(previous, settings, applied);
        assert Clean(undo) ==> !fails(undo) && Clean(from);
        assert Works(undo) ==> Works(from);
        return Some(Commit), undo;
      }
      live := settings;
      return None, undo;
    }

    /** What is to be seen of a save after the fact.  `first` is the number of its first call; `reached`
        says that the calls before the startup entry succeeded and it was due. */
    ghost predicate FailedAsTold(first: nat, previous: Preferences, settings: Preferences,
                                 result: Result<Preferences, Stage>, undo: nat)
    {
      var write := StartupCall(first + 1, previous, settings);
      var reached := !fails(first) && ReachesStartup(first + 1, previous, settings);
      && (result == Err(Autostart) <==> reached && (fails(write) || fails(write + 1)))
      && (result == Err(Autostart) ==> undo == write + if fails(write) then 1 else 2)
    }

    /** The one case in which a failed save leaves something behind, told by the calls alone. */
    ghost predicate EntryLeftBehind(first: nat, previous: Preferences, settings: Preferences) {
      && !fails(first) && ReachesStartup(first + 1, previous, settings)
      && LeavesEntry(StartupCall(first + 1, previous, settings))
    }

    /** The settings as they go live: with the startup preference the system then reports. */
    function AsReported(first: nat, previous: Preferences, settings: Preferences): Preferences {
      if StartupDue(previous, settings) && !sticks(StartupCall(first + 1, previous, settings))
      then settings.(openOnStartup := previous.openOnStartup) else settings
    }

    /** The transaction proper, once the preliminary checks, the call before, have passed. */
    method Transact(settings: Preferences) returns (result: Result<Preferences, Stage>, ghost undo: nat)
      requires calls > 0 && !fails(calls - 1) && (debugBuild ==> settings.openOnStartup == live.openOnStartup)
      modifies this`calls, this`registered, this`hook, this`tray, this`autostart, this`disk, this`live
      ensures old(calls) <= undo <= calls
      ensures Clean(old(calls)) ==> result.Ok?
      ensures result.Err? ==> live == old(live) && result.error != Preflight
      ensures result.Ok? ==>
                && live == result.value == disk && hook == settings.hook && tray == settings.tray
                && live == (if StartupDue(old(live), settings) then settings.(openOnStartup := autostart) else settings)
                && Synchronised(old(registered), registered, Effective(old(live)), Effective(settings))
      ensures old(Settled()) && result.Ok? ==>
                Settled() && live == AsReported(old(calls) - 1, old(live), settings)
      ensures old(Settled()) ==> FailedAsTold(old(calls) - 1, old(live), settings, result, undo)
      ensures old(Settled()) && result.Err? && Works(undo) ==>
                && registered == old(registered) && hook == old(hook) && tray == old(tray) && disk == old(disk)
                && (autostart == old(autostart) <==> !EntryLeftBehind(old(calls) - 1, old(live), settings))
    {
      var previous := live;
      var final, applied, refused;
      final, applied, refused, undo := ApplySideEffects(previous, settings);
      if refused.Some? {
        return Err(refused.value), undo;
      }
      refused, undo := Persist(previous, final, applied);
      if refused.Some? {
        return Err(refused.value), undo;
      }
      return Ok(final), undo;
    }

    /** What is saved: the backend keeps its own fields, and a debug build the startup preference. */
    function Merged(previous: Preferences, requested: Preferences): Preferences {
      requested.(
        backend := previous.backend,
        openOnStartup := if debugBuild then previous.openOnStartup else requested.openOnStartup)
    }

    lemma MergeKeepsStartup(from: nat, previous: Preferences, requested: Preferences)
      ensures StartupCall(from, previous, Merged(previous, requested)) == StartupCall(from, previous, requested)
      ensures Effective(Merged(previous, requested)) == Effective(requested)
      ensures Elems(Effective(requested)) == set x | !paused && x in requested.shortcuts
    {
    }

    /** Saves `requested`; only a failed call makes it fail.  A failure names its stage, and `undo` is the
        number of the first compensating call.  From a settled desktop, success settles it on the new
        settings, with the startup preference the system then reports and with the fields that belong
        to the backend as they were.  Failure with every compensating
        call working restores all of it but in one case: the startup entry was written and reading it
        back failed.  That write, and nothing else, then stays. */
    method SaveSettings(requested: Preferences) returns (result: Result<Preferences, Stage>, ghost undo: nat)
      modifies this`calls, this`registered, this`hook, this`tray, this`autostart, this`disk, this`live
      ensures old(calls) < undo <= calls
      ensures Clean(old(calls)) ==> result.Ok?
      ensures result.Err? ==> live == old(live)
      ensures result == Err(Preflight) <==> fails(old(calls))
      ensures result.Ok? ==>
                && live == result.value == disk && live.backend == old(live.backend)
                && live.shortcuts == requested.shortcuts && live.other == requested.other
                && hook == live.hook == requested.hook && tray == live.tray == requested.tray
                && live.openOnStartup == (if debugBuild then old(live.openOnStartup)
                                          else if requested.openOnStartup == old(live.openOnStartup)
                                          then requested.openOnStartup else autostart)
                && Synchronised(old(registered), registered, Effective(old(live)), Effective(requested))
      ensures old(Settled()) && result.Ok? ==>
                && Settled() && registered == (set x | !paused && x in requested.shortcuts)
                && live.openOnStartup == (if debugBuild || !sticks(StartupCall(old(calls) + 1, old(live), requested))
                                          then old(live.openOnStartup) else requested.openOnStartup)
      ensures old(Settled()) ==> FailedAsTold(old(calls), old(live), Merged(old(live), requested), result, undo)
      ensures old(Settled()) && result.Err? && Works(undo) ==>
                && registered == old(registered) && hook == old(hook) && tray == old(tray) && disk == old(disk)
                && (autostart == old(autostart) <==>
                      !EntryLeftBehind(old(calls), old(live), Merged(old(live), requested)))
    {
      var previous := live;
      var ready := Attempt();
      undo := calls;
      if !ready {
        return Err(Preflight), undo;
      }
      ghost var first := calls;
      result, undo := Transact(Merged(previous, requested));
      MergeKeepsStartup(first, previous, requested);
    }
  }

  /** The exceptional case occurs: nothing but the read-back, call number 4, fails, every compensating
      call works, the save fails and both file and live settings are as before, yet the program will
      start with the system. */
  method StartupEntryLeftBehind() returns (desktop: Desktop)
    ensures desktop.disk == desktop.live && !desktop.live.openOnStartup && desktop.autostart
  {
    var before := Preferences([], [], "", false, 0, 0);
    desktop := new Desktop(i => i == 4, i => true, false, false, before);
    assert desktop.StartupCall(1, before, before.(openOnStartup := true)) == 3;
    var result, undo := desktop.SaveSettings(before.(openOnStartup := true));
    assert result == Err(Autostart) && undo == 5;
  }
}
