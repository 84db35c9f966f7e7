/** What the ownership protocol guarantees over every run from a closed device. */
module OwnershipSafety {
  import opened Common
  import opened Ownership
  import opened OwnershipInvariant
  import opened OwnershipSession

  /** Every state a run can reach. */
  function After(events: seq<Event>): Hw {
    Execute(Closed, events)
  }

  lemma {:induction false} RunKeeps(h: Hw, events: seq<Event>)
    requires Inv(h)
    ensures Inv(Execute(h, events))
    decreases |events|
  {
    hide Inv, Step;
    if events != [] {
      StepKeeps(h, events[0]);
      RunKeeps(Step(h, events[0]), events[1..]);
    }
  }

  lemma ReachableKeeps(events: seq<Event>)
    ensures Inv(After(events))
  {
    hide Execute;
    assert Inv(Closed);
    RunKeeps(Closed, events);
  }

  // ------------------------------------------------------------ Main results

  /** No assertion of the driver fails, no command is refused because somebody
      else holds the wire, and no answer overtakes the CPU worker. */
  lemma NeverFaults(events: seq<Event>)
    ensures !After(events).fault.On?
  {
    hide After;
    ReachableKeeps(events);
  }

  /** An action that still owns the hardware. */
  predicate ForegroundDrives(h: Hw) {
    h.s.foreground.On? && h.a.phase != Returning
  }

  /** Suspend or resume I/O between its start and its join. */
  predicate PowerDrives(h: Hw) {
    h.t.op == Some(OpSuspendPower) || h.t.op == Some(OpResume)
    || (h.t.readerJoin.Some? && (h.t.readerJoin.value.SuspendPowerJoined? || h.t.readerJoin.value.ResumeJoined?))
  }

  function Count(b: bool): nat {
    if b then 1 else 0
  }

  /** At most one of foreground action, maintenance (or detached tail), reader
      drain and power I/O drives the hardware, and nobody else issues commands. */
  lemma OneDriver(events: seq<Event>)
    ensures var h := After(events);
      && Count(ForegroundDrives(h)) + Count(h.s.service.On?) + Count(h.s.draining.On?) + Count(PowerDrives(h)) <= 1
      && (h.t.op.Some? || h.t.wire != WireIdle ==> ForegroundDrives(h) || h.s.service.On? || PowerDrives(h))
      && (h.k.owner != Nobody <==> h.k.main.Some?)
      && (h.k.main.Some? ==> h.s.service.On? || (ForegroundDrives(h) && h.k.main.value.parent.On?))
  {
    hide After;
    ReachableKeeps(events);
  }

  /** Every request is answered exactly once and in order, except a current one;
      every quiesce continuation runs exactly once and in order, except a waiting one. */
  lemma AnsweredOnce(events: seq<Event>)
    ensures var h := After(events);
      && h.l.replies == Ids(h.l.nextAction - Count(ActionCurrent(h)))
      && h.l.joins == Ids(h.l.nextJoin - Count(h.s.joined.Some?))
  {
    hide After;
    ReachableKeeps(events);
  }

  /** One CPU job at most, only for the attached action; no refresh beside it;
      and an outcome on its way to the parent means the job has joined. */
  lemma OneJob(events: seq<Event>)
    ensures var h := After(events);
      && h.jobs <= 1
      && (h.jobs == 1 ==> h.k.main.Some? && h.k.main.value.parent.On? && h.k.main.value.cpuOut.On? && h.a.phase == Scanning)
      && (h.t.op == Some(OpRefresh) ==> h.jobs == 0)
      && (h.a.phase == Returning ==> h.jobs == 0 && h.k.main.Some? && h.k.main.value.detached.On?)
      && Outcomes(h.agenda) == Count(h.a.phase == Returning)
  {
    hide After;
    ReachableKeeps(events);
  }

  /** Only the attached action captures: idle and health-wait coordinators never do. */
  lemma OnlyActionsCapture(events: seq<Event>)
    ensures var h := After(events);
      && (h.t.op == Some(OpCapture) ==> h.t.opOwner == Main && ForegroundDrives(h))
      && (h.k.main.Some? && (h.k.main.value.st.Capture? || (h.k.main.value.st.ArmUp? && h.t.op.None?)) ==>
            h.k.main.value.parent.On? && h.d.reference.On?)
      && (h.k.child.Some? ==> !h.k.child.value.st.Capture?)
  {
    hide After;
    ReachableKeeps(events);
  }

  /** Somebody will report back: whoever owns the hardware is waiting for an
      event, working on a command or parked on the one CPU job. */
  lemma OwnerIsBusy(events: seq<Event>)
    requires After(events).agenda.Empty? && After(events).k.owner != Nobody
    ensures var h := After(events); var c := CoordOf(h, h.k.owner);
      || (c.waiting.On? && h.t.wire.WireEvent? && h.t.op.None?)
      || (!c.waiting.On? && h.t.op.Some? && h.t.opOwner == h.k.owner)
      || (!c.waiting.On? && h.t.op.None? && c.cpuOut.On? && h.jobs == 1)
  {
    hide After;
    ReachableKeeps(events);
  }

  /** No request is forgotten: while one waits, either an owner, the draining
      reader or power I/O is still to report, and an owner that only listens for
      events has been told (or, in the health wait, is bounded by its timer). */
  lemma NoLostWakeup(events: seq<Event>)
    requires After(events).agenda.Empty? && (After(events).s.pending.On? || After(events).s.joined.Some?)
    ensures var h := After(events);
      && (h.k.owner != Nobody || h.s.draining.On? || h.a.phase == Reinitializing)
      && (h.k.owner != Nobody && CoordOf(h, h.k.owner).waiting.On? ==>
            h.t.wire == WireEvent(true) || (h.k.owner == Child && h.k.main.Some? && h.k.main.value.timer.On?))
  {
    hide After;
    ReachableKeeps(events);
  }
}
