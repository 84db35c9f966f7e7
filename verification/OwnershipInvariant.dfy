/** What every step of the ownership model keeps. */
module OwnershipInvariant {
  import opened Common
  import opened Ownership

  function Ids(n: int): (s: seq<nat>) {
    seq(if n < 0 then 0 else n, i => i)
  }

  // ------------------------------------------------------------ Call stack

  predicate IsMachine(i: Item) {
    i.Handler? || i.ChildDone?
  }

  /** No state handler is waiting to run. */
  predicate Tame(a: Stack) {
    a.Then? ==> !IsMachine(a.top) && Tame(a.rest)
  }

  predicate OnlyTopMachine(a: Stack) {
    a.Then? ==> Tame(a.rest)
  }

  predicate Hot(a: Stack) {
    a.Then? && IsMachine(a.top)
  }

  function Outcomes(a: Stack): nat {
    if a.Empty? then 0 else (if a.top.ParentOutcome? then 1 else 0) + Outcomes(a.rest)
  }

  predicate Owes(a: Stack, i: Item) {
    a.Then? && (a.top == i || Owes(a.rest, i))
  }

  // ------------------------------------------------------------ Invariant

  predicate Busy(s: Session) {
    s.pending.On? || s.foreground.On?
  }

  /** Every request but a current one, and every join but a current one, is settled in order. */
  predicate LedgerOk(s: Session, l: Ledger) {
    && !(s.pending.On? && s.foreground.On?)
    && (Busy(s) ==> l.nextAction > 0)
    && l.replies == Ids(l.nextAction - if Busy(s) then 1 else 0)
    && (s.joined.Some? ==> l.nextJoin > 0 && s.joined.value.id == l.nextJoin - 1)
    && l.joins == Ids(l.nextJoin - if s.joined.Some? then 1 else 0)
  }

  predicate FreeWire(t: Transport) {
    t.wire == WireIdle && t.op.None? && t.readerJoin.None?
  }

  /** Who owns the coordinator slots, in terms of the session's flags. */
  predicate RolesOk(s: Session, p: Phase, k: Scan, t: Transport, outcomes: nat) {
    && (s.foreground.On? <==> p != NoAction)
    && (p == Scanning <==> k.main.Some? && k.main.value.parent.On?)
    && (s.service.On? <==> k.main.Some? && !k.main.value.parent.On?)
    && (p == Returning ==> k.main.Some? && k.main.value.detached.On? && !k.main.value.st.CleanupDone?)
    && outcomes == (if p == Returning then 1 else 0)
    && (k.owner == Nobody <==> k.main.None?)
    && (k.owner == Child <==> k.child.Some?)
    && (k.owner == Nobody ==> k.lifecycle == Stopped)
    && (s.draining.On? <==> t.readerJoin == Some(HardwareJoined))
    && (s.draining.On? ==> s.joined.Some? && k.main.None? && p == NoAction && !s.pending.On?)
    && (p == Reinitializing <==> t.op == Some(OpReinit) || t.readerJoin == Some(ReinitJoined))
    && (p == Reinitializing ==> k.main.None?)
  }

  predicate IdleSession(s: Session, p: Phase, k: Scan) {
    k.main.None? && p == NoAction && !s.pending.On?
  }

  predicate PowerOk(s: Session, p: Phase, w: Power, k: Scan, t: Transport) {
    && (s.suspending.On? <==> w == GoingToSleep)
    && (s.suspended.On? <==> w == Asleep || w == WakingUp)
    && (s.joined.Some? && s.joined.value.SuspendJoin? ==> s.suspending.On?)
    && (s.joined.Some? && s.joined.value.CloseJoin? ==> w == Awake || w == Asleep)
    && (s.suspended.On? ==> IdleSession(s, p, k))
    && (w == Asleep ==> t.reader == NoReader && FreeWire(t))
    && (w == WakingUp <==> t.op == Some(OpResume) || (t.readerJoin.Some? && t.readerJoin.value.ResumeJoined?))
    && (s.suspending.On? && s.joined.None? <==>
        t.op == Some(OpSuspendPower) || (t.readerJoin.Some? && t.readerJoin.value.SuspendPowerJoined?))
    && (s.suspending.On? && s.joined.None? ==> IdleSession(s, p, k))
    && (!s.open.On? ==> IdleSession(s, p, k) && s.joined.None? && w == Awake && t.reader == NoReader && FreeWire(t))
  }

  /** States entered while a selected event is being dispatched. */
  predicate Dispatches(st: ScanState) {
    st.DispatchEvent? || st.DownManual? || st.DownValidate? || st.Capture? || st.ArmUp? || st.ArmUpDone?
    || st.RecoveryArmUp? || st.RecoveryArmUpDone? || st.Refresh? || st.RefreshDone? || st.UpHealth?
    || st.RearmDown? || st.RearmDownDone? || st.RestoreConfig? || st.EsdRepair? || st.EsdDone?
    || st.DeactivateEc? || st.DeactivateEcDone?
  }

  predicate RestsIn(st: ScanState) {
    st.EnsureReference? || st.EnsureReferenceDone? || st.PowerOn? || st.ArmDown? || st.WaitCpu? || st.CycleSettled?
  }

  /** The three kinds of coordinator and the states each can be in. */
  predicate KindOk(c: Coord) {
    && (c.parent.On? ==> !c.idle.On? && !c.detached.On? && !c.health.On? && (IsCleanup(c.st) ==> c.st.CleanupJoin?))
    && (c.detached.On? ==> !c.idle.On? && !c.parent.On? && !c.health.On? && !c.cpuOut.On?)
    && (c.detached.On? ==> c.st.CleanupHealth? || c.st.CleanupSleep? || c.st.CleanupDone?)
    && (c.idle.On? ==> !c.cycle.On? && (IsCleanup(c.st) ==> c.st.CleanupJoin?))
    && (c.idle.On? ==> !c.st.EnsureReferenceDone? && !c.st.PowerOn? && !c.st.ArmDown?)
    && (c.idle.On? || c.parent.On? || c.detached.On?)
  }

  predicate FlagsOk(c: Coord, op: Option<Op>) {
    && (Dispatches(c.st) ==> c.dispatching.On?)
    && (RestsIn(c.st) ==> !c.dispatching.On?)
    && (c.st.WaitEvent? ==> (c.dispatching.On? <==> op == Some(OpGtls)))
    && (c.cpuOut.On? ==> c.cycle.On? && !c.cpuDone.On? && c.parent.On?)
    && (c.deferred.On? ==> c.st.WaitCpu? && c.cpuOut.On? && !c.reason.NoReason?)
    && (c.cycle.On? && !c.stop.On? ==> c.cpuOut.On? || c.cpuDone.On?)
    && (c.released.On? ==> c.cycle.On?)
    && (c.stopErr.Some? ==> c.stop.On?)
    && (c.st.Refresh? ==> !c.cpuOut.On? && !c.reason.NoReason?)
    && (c.st.WaitCpu? ==> c.cpuOut.On? && (c.stop.On? || c.released.On? || c.deferred.On?))
    && (c.st.CycleSettled? ==> c.cpuDone.On? && !c.idle.On?)
    && (op == Some(OpEnsure) && c.st.EnsureReference? ==> !c.idle.On?)
  }

  /** A capture runs for an admitted request that still expects a frame. */
  predicate CaptureOk(c: Coord, d: Device, op: Option<Op>) {
    && (c.st.Capture? || (c.st.ArmUp? && op.None?) ==>
          !c.idle.On? && !c.cycle.On? && d.reference.On? && d.capturePending.On? && (c.st.Capture? ==> d.unread > 0))
    && (c.st.ArmUp? && op.Some? ==> !d.capturePending.On?)
  }

  predicate CoordsOk(k: Scan, d: Device, t: Transport, jobs: nat) {
    && d.generation.On? == d.reference.On?
    && (k.main.Some? ==>
          var c := k.main.value;
          && KindOk(c) && FlagsOk(c, t.op) && CaptureOk(c, d, t.op) && !c.health.On?
          && (c.timer.On? ==> k.owner == Child)
          && (c.waiting.On? ==> k.owner == Main))
    && (k.child.Some? ==>
          var c := k.child.value;
          && KindOk(c) && FlagsOk(c, t.op) && CaptureOk(c, d, t.op)
          && c.idle.On? && c.health.On? && !c.timer.On?
          && k.main.Some? && k.main.value.detached.On? && k.main.value.st.CleanupHealth?
          && (k.main.value.timer.On? || c.stop.On?))
    && jobs == (if k.main.Some? && k.main.value.cpuOut.On? then 1 else 0)
    && (d.capturePending.On? ==>
          && k.main.Some? && k.child.None? && (!k.main.value.st.ArmUp? ==> d.unread > 0)
          && (k.main.value.parent.On? || (k.main.value.detached.On? && k.main.value.st.CleanupHealth?)))
    && (t.readerJoin.Some? ==> t.reader.Running?)
    && (d.gtlsActive.On? <==> t.op == Some(OpGtls))
  }

  predicate Base(h: Hw) {
    && !h.fault.On?
    && LedgerOk(h.s, h.l)
    && RolesOk(h.s, h.a.phase, h.k, h.t, Outcomes(h.agenda))
    && PowerOk(h.s, h.a.phase, h.power, h.k, h.t)
    && CoordsOk(h.k, h.d, h.t, h.jobs)
    && OnlyTopMachine(h.agenda)
    && (h.agenda.Then? && h.agenda.top.ChildDone? ==> !h.d.capturePending.On?)
  }

  /** Somebody told the current owner that a request is waiting for it. */
  predicate WakeOk(s: Session, a: Action, k: Scan, g: Stack) {
    && (s.pending.On? && !s.service.On? ==> Owes(g, Settle))
    && (s.joined.Some? && !s.service.On? && !s.foreground.On? && !s.draining.On? ==> Owes(g, Settle))
    && (s.pending.On? || s.joined.Some? ==> k.main.Some? && k.main.value.idle.On? ==> k.main.value.stop.On?)
    && (s.joined.Some? && s.foreground.On? ==> a.token.On? || Owes(g, CancelToken))
    && (s.joined.Some? && k.main.Some? && k.main.value.parent.On? ==> k.main.value.stop.On? || Owes(g, StopCoordinator(None)))
  }

  predicate OpFits(op: Op, st: ScanState) {
    match op
    case OpEnsure => st.EnsureReference?
    case OpPowerOn => st.PowerOn?
    case OpArm => st.ArmDown? || st.ArmUp? || st.RecoveryArmUp? || st.RearmDown?
    case OpManual => st.DownManual?
    case OpCapture => st.Capture?
    case OpRefresh => st.Refresh?
    case OpHealthPair => st.UpHealth?
    case OpRestore => st.RestoreConfig?
    case OpEsd => st.EsdRepair?
    case OpDelay => st.DispatchEvent?
    case OpEcOff => st.DeactivateEc?
    case OpSleep => st.CleanupSleep?
    case OpGtls => st.WaitEvent?
    case _ => false
  }

  predicate CanIdleWire(op: Op) {
    op.OpDelay? || op.OpEsd? || op.OpGtls?
  }

  predicate WaitingOn(t: Transport, c: Coord, g: Stack) {
    && c.waiting.On? && c.st.WaitEvent? && t.wire.WireEvent? && t.op.None? && t.readerJoin.None?
    && (c.stop.On? ==> t.wire == WireEvent(true) || Owes(g, CancelEvent))
  }

  predicate WorkingOn(k: Scan, t: Transport, c: Coord) {
    && !c.waiting.On? && t.op.Some? && t.opOwner == k.owner && OpFits(t.op.value, c.st) && t.readerJoin.None?
    && (t.wire == WireCommand || (t.wire == WireIdle && CanIdleWire(t.op.value)))
  }

  predicate ParkedOn(t: Transport, c: Coord) {
    && !c.waiting.On? && FreeWire(t) && c.cpuOut.On? && (c.st.WaitCpu? || c.st.CleanupJoin?)
  }

  predicate SessionOp(op: Op) {
    op.OpReinit? || op.OpSuspendPower? || op.OpResume?
  }

  /** Exactly one thing is owed to whoever owns the hardware. */
  predicate Token(k: Scan, t: Transport, g: Stack) {
    if k.owner == Nobody then
      && !Hot(g)
      && (t.op.Some? ==> t.opOwner == Nobody && t.wire == WireCommand && t.readerJoin.None? && SessionOp(t.op.value))
      && (t.op.None? ==> t.wire == WireIdle)
    else
      var c := CoordIn(k, k.owner);
      if Hot(g) then
        && FreeWire(t) && !c.waiting.On?
        && (g.top == Handler(k.owner) || (g.top.ChildDone? && k.owner == Main && c.st.CleanupHealth?))
      else
        WaitingOn(t, c, g) || WorkingOn(k, t, c) || ParkedOn(t, c)
  }

  predicate Inv(h: Hw) {
    Base(h) && WakeOk(h.s, h.a, h.k, h.agenda) && Token(h.k, h.t, h.agenda)
  }

  /** A coordinator's handler, just taken off the call stack, is running. */
  predicate Control(h: Hw, w: Who) {
    Has(h, w) && h.k.owner == w && FreeWire(h.t) && !CoordOf(h, w).waiting.On? && Tame(h.agenda)
  }
}
