/** The boundary between cancelling and publishing an FFmpeg installation
    (apps/clipline-app/src/ffmpeg_install.rs). */
module InstallControl {

  datatype Phase = Idle | Checking | Downloading | Verifying | Publishing | Ready | Failed | Cancelled

  datatype Control = Control(phase: Phase, jobActive: bool, cancel: bool)

  predicate Busy(p: Phase) {
    p.Checking? || p.Downloading? || p.Verifying? || p.Publishing?
  }

  function RequestCancel(c: Control): Control {
    if c.jobActive && !c.phase.Publishing? then c.(cancel := true) else c
  }

  function BeginPublishing(c: Control): (Control, bool) {
    if !c.jobActive || c.cancel then (c, false) else (c.(phase := Publishing), true)
  }

  function TryBeginJob(c: Control): (Control, bool) {
    if c.jobActive || Busy(c.phase) then (c, false) else (Control(Checking, true, false), true)
  }

  function EndJob(c: Control, phase: Phase): Control {
    c.(jobActive := false, phase := phase)
  }

  /** What the job's own thread and everybody else may do. */
  datatype Event = Cancel | TryStart | Progress(phase: Phase) | TryPublish | End(phase: Phase)

  function Next(c: Control, e: Event): Control {
    match e
    case Cancel => RequestCancel(c)
    case TryStart => TryBeginJob(c).0
    case Progress(phase) => c.(phase := phase)
    case TryPublish => BeginPublishing(c).0
    case End(phase) => EndJob(c, phase)
  }

  function Run(c: Control, es: seq<Event>): Control
    decreases |es|
  {
    if es == [] then c else Run(Next(c, es[0]), es[1..])
  }

  /** Once publishing has begun, no cancellation or second start from other threads is noticed until the
      job ends. */
  lemma {:induction false} PublishingCannotBeCancelled(c: Control, es: seq<Event>)
    requires c.phase.Publishing? && c.jobActive && !c.cancel
    requires forall e <- es :: e.Cancel? || e.TryStart?
    ensures Run(c, es) == c
    decreases |es|
  {
    if es != [] {
      assert es[0] in es;
      PublishingCannotBeCancelled(c, es[1..]);
    }
  }

  /** A cancellation that was noticed keeps the running job from ever publishing, whatever else happens
      before the job ends. */
  lemma {:induction false} CancelledNeverPublishes(c: Control, es: seq<Event>)
    requires c.jobActive && c.cancel && !c.phase.Publishing?
    requires forall e <- es :: !e.End? && (e.Progress? ==> !e.phase.Publishing?)
    ensures var n := Run(c, es); n.cancel && n.jobActive && !n.phase.Publishing? && !BeginPublishing(n).1
    decreases |es|
  {
    if es != [] {
      assert es[0] in es;
      CancelledNeverPublishes(Next(c, es[0]), es[1..]);
    }
  }

  /** A cancellation requested during a job that is not publishing yet is noticed, and with it the job
      can be over before it publishes but never publish. */
  lemma CancelStopsTheJob(c: Control, es: seq<Event>)
    requires c.jobActive && !c.phase.Publishing?
    requires forall e <- es :: !e.End? && (e.Progress? ==> !e.phase.Publishing?)
    ensures Next(c, Cancel).cancel && Next(c, Cancel).phase == c.phase && Next(c, Cancel).jobActive
    ensures var n := Run(Next(c, Cancel), es); n.cancel && n.jobActive && !BeginPublishing(n).1
  {
    CancelledNeverPublishes(Next(c, Cancel), es);
  }

  /** Without a job, or once it publishes, a cancellation is nobody's. */
  lemma CancelIsIgnored(c: Control)
    requires !c.jobActive || c.phase.Publishing?
    ensures Next(c, Cancel) == c
  {
  }

  /** A job starts unless one is running or seems to be, with no cancellation pending. */
  lemma JobsStart(c: Control)
    ensures var (n, started) := TryBeginJob(c);
            && (started <==> !c.jobActive && c.phase in {Idle, Ready, Failed, Cancelled})
            && n == if started then Control(Checking, true, false) else c
  {
  }

  /** A job publishes unless it was cancelled, and ends in the phase it names. */
  lemma JobsPublish(c: Control, final: Phase)
    ensures var (n, ok) := BeginPublishing(c);
            && (ok <==> c.jobActive && !c.cancel)
            && n == if ok then c.(phase := Publishing) else c
    ensures var ended := Next(c, End(final)); !ended.jobActive && ended.phase == final && ended.cancel == c.cancel
  {
  }

  class Controller {
    var phase: Phase
    var jobActive: bool
    var cancel: bool

    ghost function State(): Control
      reads this
    {
      Control(phase, jobActive, cancel)
    }

    constructor ()
      ensures State() == Control(Idle, false, false)
    {
      phase, jobActive, cancel := Idle, false, false;
    }

    method Cancel()
      modifies this
      ensures State() == RequestCancel(old(State()))
    {
      if jobActive && !phase.Publishing? {
        cancel := true;
      }
    }

    method StartPublishing() returns (ok: bool)
      modifies this
      ensures (State(), ok) == BeginPublishing(old(State()))
    {
      if !jobActive || cancel {
        return false;
      }
      phase := Publishing;
      return true;
    }

    method TryBegin() returns (ok: bool)
      modifies this
      ensures (State(), ok) == TryBeginJob(old(State()))
    {
      if jobActive || Busy(phase) {
        return false;
      }
      jobActive, phase, cancel := true, Checking, false;
      return true;
    }

    method End(final: Phase)
      modifies this
      ensures State() == EndJob(old(State()), final)
    {
      jobActive := false;
      phase := final;
    }
  }
}
