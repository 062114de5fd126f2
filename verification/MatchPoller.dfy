/** The League match poller (apps/clipline-app/src/markers.rs): match boundaries, queue lookups and the
    loop that turns polls into messages. */
module MatchPoller {
  import opened Wrappers

  const MATCH_ABSENCE_FAILURES := 6
  const MAX_QUEUE_LOOKUP_ATTEMPTS := 5
  const U32_MAX := 0xFFFF_FFFF

  type Queue = nat

  datatype Message =
    | GameEvent(isEnd: bool)
    | PlayerSummary
    | QueueTag(queue: Queue)
    | MatchStarted
    | MatchEnded
    | Heartbeat

  /** What the poller does that others can notice: a message sent, or a queue lookup begun. */
  datatype Action = Send(message: Message) | BeginLookup

  datatype Lifecycle = Lifecycle(observed: bool, active: bool, failures: nat)

  datatype Lookup = Lookup(generation: nat, attempts: nat, inFlight: bool, resolved: bool)

  // ---- The two state machines ----

  /** The boundaries to send before the events, and whether to end the match after them. */
  function PollSucceeded(s: Lifecycle, newMatch: bool, hasEnd: bool): (Lifecycle, (seq<Message>, bool)) {
    var before :=
      if !s.observed then [MatchStarted]
      else if newMatch then (if s.active then [MatchEnded] else []) + [MatchStarted]
      else [];
    var active := s.active || before != [];
    (Lifecycle(true, active && !hasEnd, 0), (before, active && hasEnd))
  }

  function PollFailed(s: Lifecycle): (Lifecycle, bool) {
    var failures := if s.failures < U32_MAX then s.failures + 1 else U32_MAX;
    var ends := s.active && failures == MATCH_ABSENCE_FAILURES;
    (s.(failures := failures, active := s.active && !ends), ends)
  }

  function ResetLookup(s: Lookup): Lookup {
    Lookup(s.generation + 1, 0, false, false)
  }

  function BeginNext(s: Lookup): (Lookup, Option<nat>) {
    if s.resolved || s.inFlight || s.attempts >= MAX_QUEUE_LOOKUP_ATTEMPTS then (s, None)
    else (s.(attempts := s.attempts + 1, inFlight := true), Some(s.generation))
  }

  function CompleteLookup(s: Lookup, generation: nat, success: bool): (Lookup, bool) {
    if generation != s.generation || !s.inFlight then (s, false)
    else (s.(inFlight := false, resolved := s.resolved || success), success)
  }

  class MatchLifecycle {
    var observed: bool
    var active: bool
    var failures: nat

    function State(): Lifecycle
      reads this
    {
      Lifecycle(observed, active, failures)
    }

    constructor ()
      ensures State() == Lifecycle(false, false, 0)
    {
      observed, active, failures := false, false, 0;
    }

    method Succeed(newMatch: bool, hasEnd: bool) returns (before: seq<Message>, endAfter: bool)
      modifies this
      ensures (State(), (before, endAfter)) == PollSucceeded(old(State()), newMatch, hasEnd)
    {
      failures := 0;
      before, endAfter := [], false;
      if !observed {
        observed, active := true, true;
        before := [MatchStarted];
      } else if newMatch {
        if active {
          before := [MatchEnded];
        }
        active := true;
        before := before + [MatchStarted];
      }
      if hasEnd && active {
        active := false;
        endAfter := true;
      }
    }

    method Fail() returns (ends: bool)
      modifies this
      ensures (State(), ends) == PollFailed(old(State()))
    {
      failures := if failures < U32_MAX then failures + 1 else U32_MAX;
      ends := active && failures == MATCH_ABSENCE_FAILURES;
      if ends {
        active := false;
      }
    }
  }

  class QueueLookupState {
    var generation: nat
    var attempts: nat
    var inFlight: bool
    var resolved: bool

    function State(): Lookup
      reads this
    {
      Lookup(generation, attempts, inFlight, resolved)
    }

    constructor (resolved: bool)
      ensures State() == Lookup(0, 0, false, resolved)
    {
      generation, attempts, inFlight := 0, 0, false;
      this.resolved := resolved;
    }

    method Reset()
      modifies this
      ensures State() == ResetLookup(old(State()))
    {
      generation := generation + 1;
      attempts, inFlight, resolved := 0, false, false;
    }

    method Begin() returns (issued: Option<nat>)
      modifies this
      ensures (State(), issued) == BeginNext(old(State()))
    {
      if resolved || inFlight || attempts >= MAX_QUEUE_LOOKUP_ATTEMPTS {
        return None;
      }
      attempts := attempts + 1;
      inFlight := true;
      return Some(generation);
    }

    method Complete(from: nat, success: bool) returns (accepted: bool)
      modifies this
      ensures (State(), accepted) == CompleteLookup(old(State()), from, success)
    {
      if from != generation || !inFlight {
        return false;
      }
      inFlight := false;
      if success {
        resolved := true;
      }
      return success;
    }
  }

  // ---- One turn of the polling loop ----

  datatype Batch = Batch(newMatch: bool, summary: bool, events: seq<bool>)

  /** What the world answers during one turn: lookup results that arrived, the player identity if asked
      for, and the poll itself. */
  datatype Turn = Turn(results: seq<(nat, Option<Queue>)>, identified: bool, poll: Option<Batch>)

  datatype Poller = Poller(
    lifecycle: Lifecycle,
    lookup: Lookup,
    identity: bool,
    replay: Option<Queue>,
    executable: bool,
    trace: seq<Action>)

  function Spawned(replay: Option<Queue>, executable: bool): Poller {
    Poller(Lifecycle(false, false, 0), Lookup(0, 0, false, replay.Some?), false, replay, executable,
           if replay.Some? then [Send(QueueTag(replay.value))] else [])
  }

  function Doing(p: Poller, actions: seq<Action>): Poller {
    p.(trace := p.trace + actions)
  }

  function Drain(p: Poller, results: seq<(nat, Option<Queue>)>): Poller
    decreases |results|
  {
    if results == [] then p
    else
      var (generation, queue) := results[0];
      var (lookup, accepted) := CompleteLookup(p.lookup, generation, queue.Some?);
      var next := p.(lookup := lookup);
      Drain(if accepted && p.lifecycle.active then Doing(next, [Send(QueueTag(queue.value))]) else next, results[1..])
  }

  /** One boundary; a start is followed by the replay tag if there is one. */
  function Marked(boundary: Message, replay: Option<Queue>): seq<Action> {
    [Send(boundary)] + if boundary.MatchStarted? && replay.Some? then [Send(QueueTag(replay.value))] else []
  }

  function Boundaries(before: seq<Message>, replay: Option<Queue>): seq<Action> {
    if before == [] then [] else Marked(before[0], replay) + Boundaries(before[1..], replay)
  }

  function Events(events: seq<bool>): seq<Action> {
    if events == [] then [] else [Send(GameEvent(events[0]))] + Events(events[1..])
  }

  function Summary(summary: bool): seq<Action> {
    if summary then [Send(PlayerSummary)] else []
  }

  /** A successful poll up to the boundaries before the events. */
  function Bounded(p: Poller, batch: Batch): Poller {
    var (lifecycle, (before, _)) := PollSucceeded(p.lifecycle, batch.newMatch, true in batch.events);
    var lookup := if MatchStarted in before && p.replay.None? then ResetLookup(p.lookup) else p.lookup;
    Doing(p.(lifecycle := lifecycle, lookup := lookup), Boundaries(before, p.replay))
  }

  function Polled(p: Poller, batch: Batch): Poller {
    var told := Doing(Bounded(p, batch), Summary(batch.summary) + Events(batch.events));
    Concluded(told, PollSucceeded(p.lifecycle, batch.newMatch, true in batch.events).1.1)
  }

  /** After the events: a lookup if one is due, then the end of the match if it was among them. */
  function Concluded(p: Poller, endAfter: bool): Poller {
    var looking :=
      if p.lifecycle.active && p.executable && BeginNext(p.lookup).1.Some?
      then Doing(p.(lookup := BeginNext(p.lookup).0), [BeginLookup])
      else p;
    if endAfter then Doing(looking, [Send(MatchEnded)]) else looking
  }

  function Missed(p: Poller): Poller {
    var (lifecycle, ends) := PollFailed(p.lifecycle);
    var told := Doing(Doing(p.(lifecycle := lifecycle), if ends then [Send(MatchEnded)] else []), [Send(Heartbeat)]);
    told.(identity := p.identity && lifecycle.failures < MATCH_ABSENCE_FAILURES)
  }

  function Turned(p: Poller, turn: Turn): Poller {
    var drained := Drain(p, turn.results);
    if !drained.identity && !turn.identified then Doing(drained, [Send(Heartbeat)])
    else
      var known := drained.(identity := true);
      if turn.poll.Some? then Polled(known, turn.poll.value) else Missed(known)
  }

  function Run(p: Poller, turns: seq<Turn>): Poller
    decreases |turns|
  {
    if turns == [] then p else Run(Turned(p, turns[0]), turns[1..])
  }

  // ---- Well-formed traces ----

  /** What a listener knows after a trace. */
  datatype Heard = Heard(ok: bool, active: bool, awaitsTag: bool, tags: nat, lookups: nat)

  /** One more action: starts and ends alternate; a start expects the replay tag at once, if there is a
      replay; at most one other tag and five lookups come per start. */
  function Hear(h: Heard, a: Action, replay: Option<Queue>): Heard {
    var tag := a.Send? && a.message.QueueTag?;
    var heard := h.(
      ok := h.ok && (h.awaitsTag ==> replay.Some? && a == Send(QueueTag(replay.value))),
      awaitsTag := false);
    if a.BeginLookup? then
      heard.(ok := heard.ok && h.active && h.lookups < MAX_QUEUE_LOOKUP_ATTEMPTS, lookups := h.lookups + 1)
    else match a.message
      case MatchStarted => Heard(heard.ok && !h.active, true, replay.Some?, 0, 0)
      case MatchEnded => heard.(ok := heard.ok && h.active, active := false)
      case QueueTag(_) =>
        heard.(ok := heard.ok && h.tags == 0 && (h.active || (replay.Some? && h == SILENCE)), tags := h.tags + 1)
      case _ => heard
  }

  const SILENCE := Heard(true, false, false, 0, 0)

  function Listen(trace: seq<Action>, replay: Option<Queue>): Heard {
    if trace == [] then SILENCE else Hear(Listen(trace[..|trace| - 1], replay), trace[|trace| - 1], replay)
  }

  /** The poller agrees with what a listener makes of its trace. */
  predicate InStep(p: Poller) {
    var h := Listen(p.trace, p.replay);
    && h.ok && !h.awaitsTag
    && h.active == p.lifecycle.active
    && (p.lifecycle.active ==> p.lifecycle.observed && p.lifecycle.failures < MATCH_ABSENCE_FAILURES && p.identity)
    && (if p.replay.Some? then p.lookup.resolved && !p.lookup.inFlight && h.lookups == 0 && h.tags == 1
        else h.lookups == p.lookup.attempts <= MAX_QUEUE_LOOKUP_ATTEMPTS
             && (h.tags > 0 ==> h.tags == 1 && p.lookup.resolved && !p.lookup.inFlight))
  }

  function HearAll(h: Heard, actions: seq<Action>, replay: Option<Queue>): Heard
    decreases |actions|
  {
    if actions == [] then h else HearAll(Hear(h, actions[0], replay), actions[1..], replay)
  }

  lemma {:induction false} ListenAppends(trace: seq<Action>, more: seq<Action>, replay: Option<Queue>)
    ensures Listen(trace + more, replay) == HearAll(Listen(trace, replay), more, replay)
    decreases |more|
  {
    if more == [] {
      assert trace + more == trace;
    } else {
      assert trace + more == (trace + [more[0]]) + more[1..];
      assert (trace + [more[0]])[..|trace|] == trace;
      ListenAppends(trace + [more[0]], more[1..], replay);
    }
  }

  predicate Quiet(a: Action) {
    a.Send? && (a.message.GameEvent? || a.message.PlayerSummary? || a.message.Heartbeat?)
  }

  lemma {:induction false} QuietChangesNothing(h: Heard, actions: seq<Action>, replay: Option<Queue>)
    requires !h.awaitsTag && forall a <- actions :: Quiet(a)
    ensures HearAll(h, actions, replay) == h
    decreases |actions|
  {
    if actions != [] {
      assert Quiet(actions[0]);
      assert Hear(h, actions[0], replay) == h;
      QuietChangesNothing(h, actions[1..], replay);
    }
  }

  lemma {:induction false} EventsAreQuiet(events: seq<bool>)
    ensures forall a <- Events(events) :: Quiet(a)
  {
    if events != [] {
      EventsAreQuiet(events[1..]);
    }
  }

  lemma QuietStaysInStep(p: Poller, actions: seq<Action>)
    requires InStep(p) && forall a <- actions :: Quiet(a)
    ensures InStep(Doing(p, actions))
  {
    ListenAppends(p.trace, actions, p.replay);
    QuietChangesNothing(Listen(p.trace, p.replay), actions, p.replay);
  }

  lemma ListenOne(p: Poller, a: Action)
    ensures Listen(Doing(p, [a]).trace, p.replay) == Hear(Listen(p.trace, p.replay), a, p.replay)
  {
    assert (p.trace + [a])[..|p.trace|] == p.trace;
  }

  lemma EndStaysInStep(p: Poller, failures: nat)
    requires InStep(p) && p.lifecycle.active
    ensures InStep(Doing(p.(lifecycle := p.lifecycle.(active := false, failures := failures)), [Send(MatchEnded)]))
  {
    ListenOne(p.(lifecycle := p.lifecycle.(active := false, failures := failures)), Send(MatchEnded));
  }

  lemma LookupStaysInStep(p: Poller)
    requires InStep(p) && p.lifecycle.active && BeginNext(p.lookup).1.Some?
    ensures InStep(Doing(p.(lookup := BeginNext(p.lookup).0), [BeginLookup]))
  {
    ListenOne(p.(lookup := BeginNext(p.lookup).0), BeginLookup);
  }

  lemma StartStaysInStep(p: Poller)
    requires InStep(p) && !p.lifecycle.active && p.identity
    ensures var lookup := if p.replay.None? then ResetLookup(p.lookup) else p.lookup;
            InStep(Doing(p.(lifecycle := Lifecycle(true, true, 0), lookup := lookup),
                         Boundaries([MatchStarted], p.replay)))
  {
    var lookup := if p.replay.None? then ResetLookup(p.lookup) else p.lookup;
    var started := p.(lifecycle := Lifecycle(true, true, 0), lookup := lookup);
    ListenOne(started, Send(MatchStarted));
    if p.replay.Some? {
      var marked := Doing(started, [Send(MatchStarted)]);
      ListenOne(marked, Send(QueueTag(p.replay.value)));
      assert Doing(marked, [Send(QueueTag(p.replay.value))]) == Doing(started, Boundaries([MatchStarted], p.replay));
    } else {
      assert Boundaries([MatchStarted], p.replay) == [Send(MatchStarted)];
    }
  }

  /** A new match while one is active: the old one ends first. */
  lemma RestartStaysInStep(p: Poller)
    requires InStep(p) && p.lifecycle.active
    ensures var lookup := if p.replay.None? then ResetLookup(p.lookup) else p.lookup;
            InStep(Doing(p.(lifecycle := Lifecycle(true, true, 0), lookup := lookup),
                         Boundaries([MatchEnded, MatchStarted], p.replay)))
  {
    EndStaysInStep(p, 0);
    var ended := Doing(p.(lifecycle := p.lifecycle.(active := false, failures := 0)), [Send(MatchEnded)]);
    StartStaysInStep(ended);
    assert [MatchEnded, MatchStarted][1..] == [MatchStarted];
    assert ended.trace + Boundaries([MatchStarted], p.replay)
        == p.trace + Boundaries([MatchEnded, MatchStarted], p.replay);
  }

  /** Up to the boundaries before the events, and whatever those events say, the poller is in step. */
  lemma MarkedStaysInStep(p: Poller, newMatch: bool)
    requires InStep(p) && p.identity
    ensures var (lifecycle, (before, _)) := PollSucceeded(p.lifecycle, newMatch, false);
            var lookup := if MatchStarted in before && p.replay.None? then ResetLookup(p.lookup) else p.lookup;
            InStep(Doing(p.(lifecycle := lifecycle, lookup := lookup), Boundaries(before, p.replay)))
  {
    var (lifecycle, (before, _)) := PollSucceeded(p.lifecycle, newMatch, false);
    if before == [] {
      assert Doing(p.(lifecycle := lifecycle), []).trace == p.trace;
    } else if p.lifecycle.active {
      assert before == [MatchEnded, MatchStarted] && MatchStarted in before;
      RestartStaysInStep(p);
    } else {
      assert before == [MatchStarted] && MatchStarted in before;
      StartStaysInStep(p);
    }
  }

  lemma {:induction false} DrainStaysInStep(p: Poller, results: seq<(nat, Option<Queue>)>)
    requires InStep(p)
    ensures InStep(Drain(p, results))
    ensures Drain(p, results).identity == p.identity && Drain(p, results).replay == p.replay
    decreases |results|
  {
    if results != [] {
      var (generation, queue) := results[0];
      var (lookup, accepted) := CompleteLookup(p.lookup, generation, queue.Some?);
      var next := p.(lookup := lookup);
      if accepted && p.lifecycle.active {
        ListenOne(next, Send(QueueTag(queue.value)));
        DrainStaysInStep(Doing(next, [Send(QueueTag(queue.value))]), results[1..]);
      } else {
        DrainStaysInStep(next, results[1..]);
      }
    }
  }

  lemma PolledStaysInStep(p: Poller, batch: Batch)
    requires InStep(p) && p.identity
    ensures InStep(Polled(p, batch))
  {
    var (lifecycle, (before, _)) := PollSucceeded(p.lifecycle, batch.newMatch, false);
    var lookup := if MatchStarted in before && p.replay.None? then ResetLookup(p.lookup) else p.lookup;
    var marked := Doing(p.(lifecycle := lifecycle, lookup := lookup), Boundaries(before, p.replay));
    MarkedStaysInStep(p, batch.newMatch);
    var quiet := Summary(batch.summary) + Events(batch.events);
    EventsAreQuiet(batch.events);
    QuietStaysInStep(marked, quiet);
    var told := Doing(marked, quiet);
    if true in batch.events {
      if lifecycle.active {
        EndStaysInStep(told, 0);
      }
    } else if lifecycle.active && p.executable && BeginNext(lookup).1.Some? {
      LookupStaysInStep(told);
    }
  }

  lemma MissedStaysInStep(p: Poller)
    requires InStep(p) && p.identity
    ensures InStep(Missed(p))
  {
    var (lifecycle, ends) := PollFailed(p.lifecycle);
    var told := Doing(p.(lifecycle := lifecycle), if ends then [Send(MatchEnded)] else []);
    if ends {
      EndStaysInStep(p, lifecycle.failures);
    } else {
      assert told.trace == p.trace;
    }
    QuietStaysInStep(told, [Send(Heartbeat)]);
  }

  lemma TurnStaysInStep(p: Poller, turn: Turn)
    requires InStep(p)
    ensures InStep(Turned(p, turn))
  {
    DrainStaysInStep(p, turn.results);
    var drained := Drain(p, turn.results);
    if !drained.identity && !turn.identified {
      QuietStaysInStep(drained, [Send(Heartbeat)]);
    } else if turn.poll.Some? {
      PolledStaysInStep(drained.(identity := true), turn.poll.value);
    } else {
      MissedStaysInStep(drained.(identity := true));
    }
  }

  lemma {:induction false} RunStaysInStep(p: Poller, turns: seq<Turn>)
    requires InStep(p)
    ensures InStep(Run(p, turns))
    decreases |turns|
  {
    if turns != [] {
      TurnStaysInStep(p, turns[0]);
      RunStaysInStep(Turned(p, turns[0]), turns[1..]);
    }
  }

  /** Over any sequence of turns the trace is well formed; an active match has fewer than six failed
      polls in a row and a known player identity. */
  lemma TracesAreWellFormed(replay: Option<Queue>, executable: bool, turns: seq<Turn>)
    ensures var p := Run(Spawned(replay, executable), turns);
            && Listen(p.trace, p.replay).ok
            && (p.lifecycle.active <==> Listen(p.trace, p.replay).active)
            && (p.lifecycle.active ==> p.lifecycle.failures < MATCH_ABSENCE_FAILURES && p.identity)
  {
    var p := Spawned(replay, executable);
    if replay.Some? {
      assert p.trace[..0] == [];
    }
    RunStaysInStep(p, turns);
  }

  // ---- What a well-formed trace means ----

  /** The last boundary heard, if any, was a start. */
  predicate OpenMatch(trace: seq<Action>) {
    trace != [] &&
    match trace[|trace| - 1]
    case Send(MatchStarted) => true
    case Send(MatchEnded) => false
    case _ => OpenMatch(trace[..|trace| - 1])
  }

  lemma {:induction false} HeardActiveIsOpen(trace: seq<Action>, replay: Option<Queue>)
    ensures Listen(trace, replay).active == OpenMatch(trace)
  {
    if trace != [] {
      HeardActiveIsOpen(trace[..|trace| - 1], replay);
    }
  }

  lemma {:induction false} OkPrefix(trace: seq<Action>, i: nat, replay: Option<Queue>)
    requires i <= |trace| && Listen(trace, replay).ok
    ensures Listen(trace[..i], replay).ok
    decreases |trace|
  {
    if i < |trace| {
      OkPrefix(trace[..|trace| - 1], i, replay);
      assert trace[..|trace| - 1][..i] == trace[..i];
    } else {
      assert trace[..i] == trace;
    }
  }

  /** In a well-formed trace every start comes when no match is open and every end when one is, and a
      start is immediately followed by the replay tag whenever there is a replay and anything follows. */
  lemma WellFormedMeans(trace: seq<Action>, i: nat, replay: Option<Queue>)
    requires Listen(trace, replay).ok && i < |trace|
    ensures trace[i] == Send(MatchStarted) ==> !OpenMatch(trace[..i])
    ensures trace[i] == Send(MatchEnded) ==> OpenMatch(trace[..i])
    ensures trace[i] == BeginLookup ==> OpenMatch(trace[..i])
    ensures trace[i] == Send(MatchStarted) && replay.Some? && i + 1 < |trace| ==>
              trace[i + 1] == Send(QueueTag(replay.value))
  {
    OkPrefix(trace, i + 1, replay);
    assert trace[..i + 1][..i] == trace[..i];
    HeardActiveIsOpen(trace[..i], replay);
    if i + 1 < |trace| {
      OkPrefix(trace, i + 2, replay);
      assert trace[..i + 2][..i + 1] == trace[..i + 1];
    }
  }

  function CountTags(actions: seq<Action>): nat {
    if actions == [] then 0
    else CountTags(actions[..|actions| - 1])
         + if actions[|actions| - 1].Send? && actions[|actions| - 1].message.QueueTag? then 1 else 0
  }

  function CountLookups(actions: seq<Action>): nat {
    if actions == [] then 0
    else CountLookups(actions[..|actions| - 1]) + if actions[|actions| - 1].BeginLookup? then 1 else 0
  }

  lemma ListenSnoc(trace: seq<Action>, stop: nat, replay: Option<Queue>)
    requires 0 < stop <= |trace|
    ensures Listen(trace[..stop], replay) == Hear(Listen(trace[..stop - 1], replay), trace[stop - 1], replay)
  {
    assert trace[..stop][..stop - 1] == trace[..stop - 1];
  }

  lemma CountSnoc(actions: seq<Action>, a: Action)
    ensures CountTags(actions + [a]) == CountTags(actions) + if a.Send? && a.message.QueueTag? then 1 else 0
    ensures CountLookups(actions + [a]) == CountLookups(actions) + if a.BeginLookup? then 1 else 0
  {
    assert (actions + [a])[..|actions|] == actions;
  }

  /** Apart from a start, an action that keeps the trace well formed counts itself, within the limits. */
  lemma HeardCounts(h: Heard, a: Action, replay: Option<Queue>)
    requires Hear(h, a, replay).ok && a != Send(MatchStarted)
    requires h.tags <= 1 && h.lookups <= MAX_QUEUE_LOOKUP_ATTEMPTS
    ensures var n := Hear(h, a, replay);
            && n.tags == h.tags + (if a.Send? && a.message.QueueTag? then 1 else 0) <= 1
            && n.lookups == h.lookups + (if a.BeginLookup? then 1 else 0) <= MAX_QUEUE_LOOKUP_ATTEMPTS
  {
  }

  /** What lies between a start at `start` and `stop` is counted right and within the limits. */
  predicate CountedWithin(trace: seq<Action>, start: nat, stop: nat, replay: Option<Queue>)
    requires start < stop <= |trace|
  {
    var between, h := trace[start + 1..stop], Listen(trace[..stop], replay);
    && CountTags(between) == h.tags <= 1
    && CountLookups(between) == h.lookups <= MAX_QUEUE_LOOKUP_ATTEMPTS
  }

  lemma StartCounts(trace: seq<Action>, start: nat, replay: Option<Queue>)
    requires start < |trace| && trace[start] == Send(MatchStarted)
    ensures CountedWithin(trace, start, start + 1, replay)
  {
    ListenSnoc(trace, start + 1, replay);
    assert trace[start + 1..start + 1] == [];
  }

  lemma OneMoreCounts(trace: seq<Action>, start: nat, stop: nat, replay: Option<Queue>)
    requires start + 1 < stop <= |trace| && trace[stop - 1] != Send(MatchStarted)
    requires Listen(trace[..stop], replay).ok && CountedWithin(trace, start, stop - 1, replay)
    ensures CountedWithin(trace, start, stop, replay)
  {
    var last := trace[stop - 1];
    ListenSnoc(trace, stop, replay);
    HeardCounts(Listen(trace[..stop - 1], replay), last, replay);
    CountSnoc(trace[start + 1..stop - 1], last);
    assert trace[start + 1..stop] == trace[start + 1..stop - 1] + [last];
  }

  /** Between two starts of a well-formed trace at most one queue tag is sent and at most five lookups
      are begun. */
  lemma {:induction false} OneTagPerStart(trace: seq<Action>, start: nat, stop: nat, replay: Option<Queue>)
    requires Listen(trace, replay).ok && start < stop <= |trace| && trace[start] == Send(MatchStarted)
    requires forall i | start < i < stop :: trace[i] != Send(MatchStarted)
    ensures CountedWithin(trace, start, stop, replay)
    decreases stop - start
  {
    if stop == start + 1 {
      StartCounts(trace, start, replay);
    } else {
      OneTagPerStart(trace, start, stop - 1, replay);
      OkPrefix(trace, stop, replay);
      OneMoreCounts(trace, start, stop, replay);
    }
  }

  // ---- What a turn says and does ----

  /** At first no match was seen, no player is known, nothing failed or was looked up; a replay is tagged
      at once, and is never looked up. */
  lemma AtFirst(replay: Option<Queue>, executable: bool)
    ensures var p := Spawned(replay, executable);
            && !p.lifecycle.observed && !p.lifecycle.active && p.lifecycle.failures == 0 && !p.identity
            && p.lookup.attempts == 0 && !p.lookup.inFlight && (p.lookup.resolved <==> replay.Some?)
            && p.replay == replay && p.executable == executable
            && p.trace == if replay.Some? then [Send(QueueTag(replay.value))] else []
  {
  }

  lemma {:induction false} EventsInOrder(events: seq<bool>)
    ensures Events(events) == seq(|events|, i requires 0 <= i < |events| => Send(GameEvent(events[i])))
  {
    if events != [] {
      EventsInOrder(events[1..]);
    }
  }

  /** The boundaries of a successful poll: the first poll and every new match start one, after ending the
      one under way, and the replay tag follows at once. */
  function OpeningOf(p: Poller, newMatch: bool): seq<Action> {
    var tag := if p.replay.Some? then [Send(QueueTag(p.replay.value))] else [];
    if !p.lifecycle.observed then [Send(MatchStarted)] + tag
    else if newMatch then (if p.lifecycle.active then [Send(MatchEnded)] else []) + [Send(MatchStarted)] + tag
    else []
  }

  lemma BoundedSays(p: Poller, batch: Batch)
    ensures var n := Bounded(p, batch);
            var starts := !p.lifecycle.observed || batch.newMatch;
            && n.trace == p.trace + OpeningOf(p, batch.newMatch)
            && n.lifecycle == Lifecycle(true, (p.lifecycle.active || starts) && true !in batch.events, 0)
            && n.lookup == (if starts && p.replay.None? then Lookup(p.lookup.generation + 1, 0, false, false)
                            else p.lookup)
            && n.identity == p.identity && n.replay == p.replay && n.executable == p.executable
  {
    var before := PollSucceeded(p.lifecycle, batch.newMatch, true in batch.events).1.0;
    var tag := if p.replay.Some? then [Send(QueueTag(p.replay.value))] else [];
    assert Boundaries([MatchStarted], p.replay) == [Send(MatchStarted)] + tag;
    if |before| == 2 {
      assert before == [MatchEnded, MatchStarted] && before[1..] == [MatchStarted] && MatchStarted in before;
    } else if |before| == 1 {
      assert before == [MatchStarted] && MatchStarted in before;
    }
  }

  /** After the events: a queue lookup begins when the match goes on, the executable is known, and the
      current match has no answer, no lookup open and fewer than five behind it; then the match ends if it
      is time. */
  lemma ConcludedSays(p: Poller, endAfter: bool)
    ensures var n := Concluded(p, endAfter);
            var asks := && p.lifecycle.active && p.executable
                        && !p.lookup.resolved && !p.lookup.inFlight && p.lookup.attempts < 5;
            && n.trace == p.trace + (if asks then [BeginLookup] else []) + (if endAfter then [Send(MatchEnded)] else [])
            && n.lookup == (if asks then Lookup(p.lookup.generation, p.lookup.attempts + 1, true, false) else p.lookup)
            && n.lifecycle == p.lifecycle && n.identity == p.identity
  {
    assert p.trace + [] == p.trace;
  }

  /** After its boundaries a successful poll says, in this order, the player summary if there is one, every
      event of the batch, and what concludes it: the match ends if the batch says so and one was on. */
  lemma PolledSays(p: Poller, batch: Batch)
    ensures var told := Bounded(p, batch).(
                          trace := Bounded(p, batch).trace
                                   + (if batch.summary then [Send(PlayerSummary)] else [])
                                   + seq(|batch.events|,
                                         i requires 0 <= i < |batch.events| => Send(GameEvent(batch.events[i]))));
            Polled(p, batch)
              == Concluded(told, (p.lifecycle.active || !p.lifecycle.observed || batch.newMatch) && true in batch.events)
  {
    EventsInOrder(batch.events);
    Reassociate(Bounded(p, batch).trace, Summary(batch.summary), Events(batch.events));
  }

  /** A failed poll counts, says that the poller lives, and with the sixth in a row ends the match and
      forgets the player. */
  lemma MissedSays(p: Poller)
    ensures var n := Missed(p);
            var ends := p.lifecycle.active && p.lifecycle.failures + 1 == 6;
            && n.trace == p.trace + (if ends then [Send(MatchEnded)] else []) + [Send(Heartbeat)]
            && n.lifecycle.active == (p.lifecycle.active && !ends) && n.lifecycle.observed == p.lifecycle.observed
            && (p.lifecycle.failures < U32_MAX ==> n.lifecycle.failures == p.lifecycle.failures + 1)
            && (p.lifecycle.failures < 5 ==> n.identity == p.identity)
            && (5 <= p.lifecycle.failures ==> !n.identity)
            && n.lookup == p.lookup
  {
  }

  /** A lookup result is delivered if and only if it is the open one of the current match, succeeded, and
      the match is still on; it closes the lookup, and a success is the last word for the match. */
  lemma DrainSays(p: Poller, generation: nat, queue: Option<Queue>)
    ensures var n := Drain(p, [(generation, queue)]);
            var open := generation == p.lookup.generation && p.lookup.inFlight;
            && n.trace == p.trace + (if open && queue.Some? && p.lifecycle.active then [Send(QueueTag(queue.value))]
                                     else [])
            && n.lookup == (if open then p.lookup.(inFlight := false, resolved := p.lookup.resolved || queue.Some?)
                            else p.lookup)
            && n.lifecycle == p.lifecycle && n.identity == p.identity
  {
    assert [(generation, queue)][1..] == [];
  }

  lemma {:induction false} DrainJoins(p: Poller, results: seq<(nat, Option<Queue>)>, more: seq<(nat, Option<Queue>)>)
    ensures Drain(p, results + more) == Drain(Drain(p, results), more)
    decreases |results|
  {
    if results == [] {
      assert results + more == more;
    } else {
      assert (results + more)[1..] == results[1..] + more;
      var (generation, queue) := results[0];
      var (lookup, accepted) := CompleteLookup(p.lookup, generation, queue.Some?);
      var next := p.(lookup := lookup);
      DrainJoins(if accepted && p.lifecycle.active then Doing(next, [Send(QueueTag(queue.value))]) else next,
                 results[1..], more);
    }
  }

  /** A turn drains the results; without a player it only says that it lives, and otherwise it polls. */
  lemma TurnSays(p: Poller, turn: Turn)
    ensures var drained := Drain(p, turn.results);
            Turned(p, turn) ==
              if !p.identity && !turn.identified then drained.(trace := drained.trace + [Send(Heartbeat)])
              else if turn.poll.Some? then Polled(drained.(identity := true), turn.poll.value)
              else Missed(drained.(identity := true))
  {
    DrainKeepsIdentity(p, turn.results);
  }

  lemma {:induction false} DrainKeepsIdentity(p: Poller, results: seq<(nat, Option<Queue>)>)
    ensures Drain(p, results).identity == p.identity
    decreases |results|
  {
    if results != [] {
      var (generation, queue) := results[0];
      var (lookup, accepted) := CompleteLookup(p.lookup, generation, queue.Some?);
      var next := p.(lookup := lookup);
      DrainKeepsIdentity(if accepted && p.lifecycle.active then Doing(next, [Send(QueueTag(queue.value))]) else next,
                         results[1..]);
    }
  }

  const FAILED_POLL := Turn([], true, None)

  function Repeat(n: nat): seq<Turn> {
    if n == 0 then [] else [FAILED_POLL] + Repeat(n - 1)
  }

  function Heartbeats(n: nat): seq<Action> {
    if n == 0 then [] else [Send(Heartbeat)] + Heartbeats(n - 1)
  }

  lemma EarlyFailure(p: Poller)
    requires p.identity && p.lifecycle.failures < 5
    ensures Turned(p, FAILED_POLL)
         == p.(lifecycle := p.lifecycle.(failures := p.lifecycle.failures + 1), trace := p.trace + [Send(Heartbeat)])
  {
    assert p.(identity := true) == p;
    assert p.trace + [] == p.trace;
  }

  /** A match survives five failed polls in a row, and all that is said is that the poller lives. */
  lemma {:induction false} FiveFailuresAreSurvived(p: Poller, n: nat)
    requires p.identity && p.lifecycle.failures + n <= 5
    ensures Run(p, Repeat(n))
         == p.(lifecycle := p.lifecycle.(failures := p.lifecycle.failures + n), trace := p.trace + Heartbeats(n))
    decreases n
  {
    if n > 0 {
      assert Repeat(n)[1..] == Repeat(n - 1) && Repeat(n)[0] == FAILED_POLL;
      var q := Turned(p, FAILED_POLL);
      EarlyFailure(p);
      FiveFailuresAreSurvived(q, n - 1);
      assert (p.trace + [Send(Heartbeat)]) + Heartbeats(n - 1) == p.trace + Heartbeats(n);
    } else {
      assert p.trace + [] == p.trace;
    }
  }

  /** The sixth ends it. */
  lemma SixthFailureEndsTheMatch(p: Poller)
    requires p.identity && p.lifecycle.active && p.lifecycle.failures == 5
    ensures var q := Turned(p, FAILED_POLL);
            !q.lifecycle.active && !q.identity && q.trace == p.trace + [Send(MatchEnded), Send(Heartbeat)]
  {
    MissedSays(p);
  }

  // ---- The loop ----

  lemma {:induction false} DrainGrows(p: Poller, results: seq<(nat, Option<Queue>)>)
    ensures p.trace <= Drain(p, results).trace && Drain(p, results).replay == p.replay
    decreases |results|
  {
    if results != [] {
      var (generation, queue) := results[0];
      var (lookup, accepted) := CompleteLookup(p.lookup, generation, queue.Some?);
      var next := p.(lookup := lookup);
      DrainGrows(if accepted && p.lifecycle.active then Doing(next, [Send(QueueTag(queue.value))]) else next,
                 results[1..]);
    }
  }

  lemma ConcludedGrows(p: Poller, endAfter: bool)
    ensures p.trace <= Concluded(p, endAfter).trace && Concluded(p, endAfter).replay == p.replay
  {
  }

  lemma PolledGrows(p: Poller, batch: Batch)
    ensures Bounded(p, batch).trace + Summary(batch.summary) + Events(batch.events) <= Polled(p, batch).trace
    ensures p.trace <= Bounded(p, batch).trace && Polled(p, batch).replay == p.replay
  {
    var told := Doing(Bounded(p, batch), Summary(batch.summary) + Events(batch.events));
    ConcludedGrows(told, PollSucceeded(p.lifecycle, batch.newMatch, true in batch.events).1.1);
    Reassociate(Bounded(p, batch).trace, Summary(batch.summary), Events(batch.events));
  }

  lemma Reassociate(a: seq<Action>, b: seq<Action>, c: seq<Action>)
    ensures a + (b + c) == (a + b) + c && a <= a + b <= (a + b) + c
  {
  }

  lemma TurnGrows(p: Poller, turn: Turn)
    ensures Drain(p, turn.results).trace <= Turned(p, turn).trace && p.trace <= Turned(p, turn).trace
    ensures Turned(p, turn).replay == p.replay
  {
    DrainGrows(p, turn.results);
    if turn.poll.Some? {
      PolledGrows(Drain(p, turn.results).(identity := true), turn.poll.value);
    }
  }

  lemma {:induction false} RunGrows(p: Poller, turns: seq<Turn>)
    ensures p.trace <= Run(p, turns).trace && Run(p, turns).replay == p.replay
    decreases |turns|
  {
    if turns != [] {
      TurnGrows(p, turns[0]);
      RunGrows(Turned(p, turns[0]), turns[1..]);
    }
  }

  /** The poller thread: its two state objects, and everything it has said so far.  The listener may
      hang up: `hears` says whether it is still there for the message at each position of the trace.
      The first message that finds it gone ends the thread, so every trace is a prefix of the one a
      patient listener would have heard. */
  class PollerThread {
    const lifecycle: MatchLifecycle
    const lookup: QueueLookupState
    const replay: Option<Queue>
    const executable: bool
    const hears: nat -> bool
    var identity: bool
    var trace: seq<Action>
    var alive: bool

    ghost function State(): Poller
      reads this, lifecycle, lookup
    {
      Poller(lifecycle.State(), lookup.State(), identity, replay, executable, trace)
    }

    constructor (replay: Option<Queue>, executable: bool, hears: nat -> bool)
      ensures this.hears == hears && this.replay == replay
      ensures if replay.Some? && !hears(0) then !alive && trace == [] else alive && State() == Spawned(replay, executable)
      ensures fresh(lifecycle) && fresh(lookup)
    {
      var life := new MatchLifecycle();
      var look := new QueueLookupState(replay.Some?);
      lifecycle, lookup := life, look;
      this.replay, this.executable, this.hears := replay, executable, hears;
      identity := false;
      alive := replay.None? || hears(0);
      trace := if replay.Some? && hears(0) then [Send(QueueTag(replay.value))] else [];
    }

    method Tell(message: Message)
      requires alive
      modifies this`trace, this`alive
      ensures alive == hears(|old(trace)|)
      ensures trace == if alive then old(trace) + [Send(message)] else old(trace)
    {
      alive := hears(|trace|);
      if alive {
        trace := trace + [Send(message)];
      }
    }

    /** One boundary, and the replay tag after a start. */
    method SendBoundary(boundary: Message)
      requires alive
      modifies this`trace, this`alive
      ensures alive ==> trace == old(trace) + Marked(boundary, replay)
      ensures trace <= old(trace) + Marked(boundary, replay)
      ensures alive || !hears(|trace|)
    {
      Tell(boundary);
      if alive && boundary.MatchStarted? && replay.Some? {
        Tell(QueueTag(replay.value));
      }
    }

    method SendBoundaries(before: seq<Message>)
      requires alive
      modifies this`trace, this`alive
      ensures alive ==> trace == old(trace) + Boundaries(before, replay)
      ensures trace <= old(trace) + Boundaries(before, replay)
      ensures alive || !hears(|trace|)
    {
      for i := 0 to |before|
        invariant alive
        invariant old(trace) + Boundaries(before, replay) == trace + Boundaries(before[i..], replay)
      {
        assert before[i..][1..] == before[i + 1..];
        ghost var said := trace;
        SendBoundary(before[i]);
        assert said + Boundaries(before[i..], replay)
            == (said + Marked(before[i], replay)) + Boundaries(before[i + 1..], replay);
        if !alive {
          return;
        }
      }
    }

    method DrainResults(results: seq<(nat, Option<Queue>)>)
      requires alive
      modifies this`trace, this`alive, lookup
      ensures alive ==> State() == Drain(old(State()), results)
      ensures trace <= Drain(old(State()), results).trace
      ensures alive || !hears(|trace|)
    {
      for i := 0 to |results|
        invariant alive && Drain(old(State()), results) == Drain(State(), results[i..])
      {
        assert results[i..][1..] == results[i + 1..];
        DrainGrows(State(), results[i..]);
        var accepted := lookup.Complete(results[i].0, results[i].1.Some?);
        if accepted && lifecycle.active {
          Tell(QueueTag(results[i].1.value));
          if !alive {
            return;
          }
        }
      }
    }

    method SendSummary(summary: bool)
      requires alive
      modifies this`trace, this`alive
      ensures alive ==> trace == old(trace) + Summary(summary)
      ensures old(trace) <= trace <= old(trace) + Summary(summary)
      ensures alive || !hears(|trace|)
    {
      if summary {
        Tell(PlayerSummary);
      }
    }

    method SendEvents(events: seq<bool>)
      requires alive
      modifies this`trace, this`alive
      ensures alive ==> trace == old(trace) + Events(events)
      ensures trace <= old(trace) + Events(events)
      ensures alive || !hears(|trace|)
    {
      for i := 0 to |events|
        invariant alive && old(trace) + Events(events) == trace + Events(events[i..])
      {
        assert events[i..][1..] == events[i + 1..];
        Reassociate(trace, [Send(GameEvent(events[i]))], Events(events[i + 1..]));
        Tell(GameEvent(events[i]));
        if !alive {
          return;
        }
      }
    }

    /** The boundaries and the reset that goes with a start. */
    method MarkBoundaries(batch: Batch) returns (endAfter: bool)
      requires alive
      modifies this`trace, this`alive, lifecycle, lookup
      ensures endAfter == PollSucceeded(old(lifecycle.State()), batch.newMatch, true in batch.events).1.1
      ensures alive ==> State() == Bounded(old(State()), batch)
      ensures trace <= Bounded(old(State()), batch).trace
      ensures alive || !hears(|trace|)
    {
      assert lifecycle as object != this && lookup as object != this && lifecycle as object != lookup;
      var before;
      before, endAfter := lifecycle.Succeed(batch.newMatch, true in batch.events);
      ghost var life := lifecycle.State();
      assert lookup.State() == old(lookup.State());
      if MatchStarted in before && replay.None? {
        lookup.Reset();
      }
      assert lifecycle.State() == life;
      SendBoundaries(before);
    }

    method HandleBatch(batch: Batch)
      requires alive
      modifies this`trace, this`alive, lifecycle, lookup
      ensures alive ==> State() == Polled(old(State()), batch)
      ensures trace <= Polled(old(State()), batch).trace
      ensures alive || !hears(|trace|)
    {
      assert lifecycle as object != this && lookup as object != this && lifecycle as object != lookup;
      ghost var bounded := Bounded(State(), batch);
      PolledGrows(State(), batch);
      Reassociate(bounded.trace, Summary(batch.summary), Events(batch.events));
      var endAfter := MarkBoundaries(batch);
      if !alive {
        return;
      }
      SendSummary(batch.summary);
      if !alive {
        return;
      }
      SendEvents(batch.events);
      if !alive {
        return;
      }
      assert State() == Doing(bounded, Summary(batch.summary) + Events(batch.events));
      Conclude(endAfter);
    }

    method Conclude(endAfter: bool)
      requires alive
      modifies this`trace, this`alive, lookup
      ensures alive ==> State() == Concluded(old(State()), endAfter)
      ensures trace <= Concluded(old(State()), endAfter).trace
      ensures alive || !hears(|trace|)
    {
      if lifecycle.active && executable {
        var issued := lookup.Begin();
        if issued.Some? {
          trace := trace + [BeginLookup];
        }
      }
      if endAfter {
        Tell(MatchEnded);
      }
    }

    method HandleFailure()
      requires alive
      modifies this`trace, this`alive, this`identity, lifecycle
      ensures alive ==> State() == Missed(old(State()))
      ensures trace <= Missed(old(State())).trace
      ensures alive || !hears(|trace|)
    {
      assert lifecycle as object != this && lifecycle as object != lookup;
      var ends := lifecycle.Fail();
      if ends {
        Tell(MatchEnded);
        if !alive {
          return;
        }
      }
      Tell(Heartbeat);
      if !alive {
        return;
      }
      if lifecycle.failures >= MATCH_ABSENCE_FAILURES {
        identity := false;
      }
    }

    /** One turn of the loop. */
    method TakeTurn(turn: Turn)
      requires alive
      modifies this`trace, this`alive, this`identity, lifecycle, lookup
      ensures alive ==> State() == Turned(old(State()), turn)
      ensures trace <= Turned(old(State()), turn).trace
      ensures alive || !hears(|trace|)
    {
      TurnGrows(State(), turn);
      DrainResults(turn.results);
      if !alive {
        return;
      }
      if !identity {
        if !turn.identified {
          Tell(Heartbeat);
          return;
        }
        identity := true;
      }
      if turn.poll.Some? {
        HandleBatch(turn.poll.value);
      } else {
        HandleFailure();
      }
    }

    /** The loop, for as many turns as the thread lives. */
    method Loop(turns: seq<Turn>)
      requires alive || !hears(|trace|)
      modifies this`trace, this`alive, this`identity, lifecycle, lookup
      ensures alive ==> State() == Run(old(State()), turns)
      ensures trace <= Run(old(State()), turns).trace
      ensures alive || !hears(|trace|)
    {
      RunGrows(State(), turns);
      var i := 0;
      while i < |turns| && alive
        invariant i <= |turns|
        invariant alive ==> Run(old(State()), turns) == Run(State(), turns[i..])
        invariant trace <= Run(old(State()), turns).trace && (alive || !hears(|trace|))
      {
        assert turns[i..][1..] == turns[i + 1..];
        RunGrows(Turned(State(), turns[i]), turns[i + 1..]);
        TakeTurn(turns[i]);
        i := i + 1;
        if alive {
          RunGrows(State(), turns[i..]);
        }
      }
    }
  }

  /** The thread from start to end: what was heard is well formed whenever the listener hangs up, a
      prefix of what a patient listener hears, and all of that if it never does. */
  method Spawn(replay: Option<Queue>, executable: bool, hears: nat -> bool, turns: seq<Turn>)
    returns (heard: seq<Action>)
    ensures heard <= Run(Spawned(replay, executable), turns).trace && Listen(heard, replay).ok
    ensures (forall i :: hears(i)) ==> heard == Run(Spawned(replay, executable), turns).trace
  {
    var thread := new PollerThread(replay, executable, hears);
    RunGrows(Spawned(replay, executable), turns);
    TracesAreWellFormed(replay, executable, turns);
    if !thread.alive {
      return [];
    }
    thread.Loop(turns);
    heard := thread.trace;
    var full := Run(Spawned(replay, executable), turns).trace;
    OkPrefix(full, |heard|, replay);
    assert heard == full[..|heard|];
  }
}
