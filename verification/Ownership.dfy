/**
 Hardware ownership and the profile-9 scan coordinator
 (drivers/goodix53x5/device/session.c and scan.c).

 The driver runs on one thread; every external occurrence (a request from
 libfprint, a USB packet, a finished command, a timer) runs a chain of nested
 callbacks to its end before the next one is seen.  `agenda` is that chain's
 call stack: what is still to run, innermost first.  External events are taken
 only when it is empty.

 `fault` records that a g_assert of the source failed or that an owner's
 transport request was refused because somebody else was on the wire.
 */
module Ownership {
  import opened Common

  // ---------------------------------------------------------------- Entities

  /** G_IO and GUsb cancellation, USB/IO faults, and every other domain. */
  datatype Err = IoCancelled | UsbCancelled | UsbFault | OtherFault

  predicate IsCancellation(e: Err) {
    e.IoCancelled? || e.UsbCancelled?
  }

  datatype FdtType = Down | Up | Reverse | Config | Esd | Wake | Deactivate

  datatype Disposition = AuthSuccess | AuthRetryAfterUp | EnrollContinue | EnrollFinal | Fatal | Cancelled

  datatype Reason = NoReason | FalseDown | ReverseDrift | UpDrift | InvalidBase | UpInvalidBase

  /** GoodixScanCoordinatorState, in the source's order. */
  datatype ScanState =
    | EnsureReference | EnsureReferenceDone | PowerOn | ArmDown | WaitEvent
    | DispatchEvent | DownManual | DownValidate | Capture | ArmUp | ArmUpDone
    | RecoveryArmUp | RecoveryArmUpDone | Refresh | RefreshDone | UpHealth
    | RearmDown | RearmDownDone | RestoreConfig | EsdRepair | EsdDone
    | DeactivateEc | DeactivateEcDone | WaitCpu | CycleSettled
    | CleanupJoin | CleanupHealth | CleanupSleep | CleanupDone

  predicate IsCleanup(st: ScanState) {
    st.CleanupJoin? || st.CleanupHealth? || st.CleanupSleep? || st.CleanupDone?
  }

  /** fpi_ssm_next_state: the following state; CleanupDone has none. */
  function Successor(st: ScanState): ScanState {
    match st
    case EnsureReference => EnsureReferenceDone
    case EnsureReferenceDone => PowerOn
    case PowerOn => ArmDown
    case ArmDown => WaitEvent
    case WaitEvent => DispatchEvent
    case DispatchEvent => DownManual
    case DownManual => DownValidate
    case DownValidate => Capture
    case Capture => ArmUp
    case ArmUp => ArmUpDone
    case ArmUpDone => RecoveryArmUp
    case RecoveryArmUp => RecoveryArmUpDone
    case RecoveryArmUpDone => Refresh
    case Refresh => RefreshDone
    case RefreshDone => UpHealth
    case UpHealth => RearmDown
    case RearmDown => RearmDownDone
    case RearmDownDone => RestoreConfig
    case RestoreConfig => EsdRepair
    case EsdRepair => EsdDone
    case EsdDone => DeactivateEc
    case DeactivateEc => DeactivateEcDone
    case DeactivateEcDone => WaitCpu
    case WaitCpu => CycleSettled
    case CycleSettled => CleanupJoin
    case CleanupJoin => CleanupHealth
    case CleanupHealth => CleanupSleep
    case CleanupSleep => CleanupDone
    case CleanupDone => CleanupDone
  }

  /** GoodixScanCoordinatorData.  `fail` is the state machine's own error. */
  datatype Coord = Coord(
    st: ScanState,
    fail: Option<Err>,
    parent: Flag,
    waiting: Flag,
    dispatching: Flag,
    stop: Flag,
    stopErr: Option<Err>,
    cpuDone: Flag,
    cpuOut: Flag,
    deferred: Flag,
    cycle: Flag,
    recovering: Flag,
    released: Flag,
    idle: Flag,
    detached: Flag,
    health: Flag,
    timer: Flag,
    disp: Disposition,
    evt: FdtType,
    reason: Reason)

  function NewCoord(parent: bool, idle: bool, health: bool): Coord {
    Coord(EnsureReference, None, ToFlag(parent), Off, Off, Off, None, Off, Off, Off, Off,
          Off, Off, ToFlag(idle), Off, ToFlag(health), Off, AuthSuccess, Down, NoReason)
  }

  /** Coordinators: an action's or the idle service's (Main), and the
      health-wait child a deactivation tail lends the hardware to. */
  datatype Who = Nobody | Main | Child

  datatype Lifecycle = Stopped | Active | Stopping

  /** Where the current foreground action is. */
  datatype Phase = NoAction | Reinitializing | Scanning | Returning

  datatype Power = Awake | GoingToSleep | Asleep | WakingUp

  datatype Join = SuspendJoin(id: nat) | CloseJoin(id: nat)

  datatype Wire = WireIdle | WireCommand | WireEvent(cancelling: bool)

  /** Work started on the hardware whose completion is still owed. */
  datatype Op =
    | OpEnsure | OpPowerOn | OpArm | OpManual | OpCapture | OpRefresh | OpHealthPair
    | OpRestore | OpEsd | OpDelay | OpEcOff | OpSleep | OpGtls
    | OpReinit | OpSuspendPower | OpResume

  datatype Reader = NoReader | Running | Errored

  datatype JoinCont = HardwareJoined | ReinitJoined | SuspendPowerJoined(err: Option<Err>) | ResumeJoined(err: Option<Err>)

  datatype Item =
    | Handler(who: Who)
    | ChildDone(err: Option<Err>)
    | ParentOutcome(err: Option<Err>)
    | AppCallback
    | Settle
    | CancelEvent
    | CancelToken
    | StopCoordinator(err: Option<Err>)

  /** The ownership fields of session.c. */
  datatype Session = Session(
    open: Flag,
    service: Flag,
    foreground: Flag,
    pending: Flag,
    suspending: Flag,
    suspended: Flag,
    draining: Flag,
    reinit: Flag,
    joined: Option<Join>)

  /** Requests made and answered; quiesce continuations asked for and run. */
  datatype Ledger = Ledger(nextAction: nat, replies: seq<nat>, nextJoin: nat, joins: seq<nat>)

  /** The current action as libfprint and the driver see it. */
  datatype Action = Action(phase: Phase, enroll: Flag, token: Flag, coreCancelled: Flag)

  datatype Scan = Scan(main: Option<Coord>, child: Option<Coord>, owner: Who, lifecycle: Lifecycle)

  /** transport.c, as far as ownership sees it. */
  datatype Transport = Transport(wire: Wire, op: Option<Op>, opOwner: Who, reader: Reader, readerJoin: Option<JoinCont>)

  /** Device state the coordinator branches on. */
  datatype Device = Device(
    generation: Flag,
    reference: Flag,
    recovery: Flag,
    captureMode: Flag,
    capturePending: Flag,
    unread: nat,
    healthComplete: Flag,
    pendingFdt: Option<FdtType>,
    gtlsPending: Flag,
    gtlsActive: Flag)

  /** Callbacks still on the call stack, innermost first. */
  datatype Stack = Empty | Then(top: Item, rest: Stack)

  datatype Hw = Hw(
    s: Session,
    l: Ledger,
    a: Action,
    power: Power,
    k: Scan,
    t: Transport,
    d: Device,
    jobs: nat,
    agenda: Stack,
    fault: Flag)

  /** What the environment decides inside one step. */
  datatype Choice = Choice(
    setupFails: bool,
    startFails: bool,
    jobFails: bool,
    waitUp: bool,
    refresh: bool,
    falseDown: bool,
    reenter: bool,
    reenterEnroll: bool,
    appCancels: bool,
    stale: bool)

  // ------------------------------------------------- State-machine mechanics

  predicate Has(h: Hw, w: Who) {
    (w.Main? && h.k.main.Some?) || (w.Child? && h.k.child.Some?)
  }

  /** The coordinator in a slot; a blank one stands for an empty slot. */
  function CoordIn(k: Scan, w: Who): Coord {
    var slot := if w.Main? then k.main else k.child;
    if slot.Some? then slot.value else NewCoord(false, false, false)
  }

  function CoordOf(h: Hw, w: Who): Coord {
    CoordIn(h.k, w)
  }

  function Put(h: Hw, w: Who, c: Coord): Hw {
    if w.Main? then h.(k := h.k.(main := Some(c))) else h.(k := h.k.(child := Some(c)))
  }

  function Push(h: Hw, item: Item): Hw {
    h.(agenda := Then(item, h.agenda))
  }

  function Fault(h: Hw): Hw {
    h.(fault := On)
  }

  /** fpi_ssm_jump_to_state and fpi_ssm_next_state run the new state's handler. */
  function Jump(h: Hw, w: Who, st: ScanState): Hw
  {
    Push(Put(h, w, CoordOf(h, w).(st := st)), Handler(w))
  }

  function NextState(h: Hw, w: Who): Hw
  {
    Jump(h, w, Successor(CoordOf(h, w).st))
  }

  /** fpi_ssm_mark_completed: to the first cleanup state, or one further. */
  function MarkCompleted(h: Hw, w: Who): Hw
  {
    var st := CoordOf(h, w).st;
    if !IsCleanup(st) then Jump(h, w, CleanupJoin)
    else if st.CleanupDone? then CoordinatorDone(h, w)
    else NextState(h, w)
  }

  /** A machine keeps the first error it is failed with. */
  function WithFailure(c: Coord, e: Err): Coord {
    if c.fail.None? then c.(fail := Some(e)) else c
  }

  function MarkFailed(h: Hw, w: Who, e: Err): Hw {
    MarkCompleted(Put(h, w, WithFailure(CoordOf(h, w), e)), w)
  }

  /** goodix_scan_coordinator_done. */
  function CoordinatorDone(h: Hw, w: Who): Hw
  {
    var c := CoordOf(h, w);
    if h.k.owner != w then Fault(h)
    else if c.health.On? then
      if h.k.main.None? then Fault(h)
      else
        Push(h.(k := h.k.(child := None, owner := Main, lifecycle := Stopping, main := Some(CoordOf(h, Main).(timer := Off)))),
             ChildDone(c.fail))
    else
      var h1 := h.(k := h.k.(main := None, owner := Nobody, lifecycle := Stopped));
      if c.detached.On? then ServiceDone(h1, if h.s.reinit.On? then None else c.fail)
      else if c.idle.On? then ServiceDone(h1, c.fail)
      else Fault(h1)
  }

  /** goodix_session_service_done. */
  function ServiceDone(h: Hw, err: Option<Err>): Hw {
    Push(h.(s := h.s.(service := Off, reinit := ToFlag(h.s.reinit.On? || (err.Some? && !IsCancellation(err.value))))), Settle)
  }

  // ------------------------------------------------------- Transport contract

  /** A command or sub-machine takes the wire; refused while it is taken. */
  function StartOp(h: Hw, w: Who, op: Op): Hw {
    if h.t.wire != WireIdle || h.t.op.Some? || h.t.readerJoin.Some? then Fault(h)
    else
      h.(t := h.t.(op := Some(op), opOwner := w, wire := WireCommand,
                   reader := if h.t.reader.NoReader? then Running else h.t.reader))
  }

  /** goodix_transport_invalidate, which asserts that both owners joined. */
  function Invalidate(h: Hw): Hw {
    if h.t.wire != WireIdle || h.t.reader != NoReader then Fault(h)
    else h.(d := h.d.(pendingFdt := None, gtlsPending := Off))
  }

  /** goodix_transport_quiesce. */
  function TransportQuiesce(h: Hw, k: JoinCont): Hw {
    if h.t.wire != WireIdle || h.t.readerJoin.Some? then Fault(h)
    else if h.t.reader.Running? then h.(t := h.t.(readerJoin := Some(k)))
    else RunJoin(h.(t := h.t.(reader := NoReader)), k)
  }

  function NoGeneration(h: Hw): Hw {
    h.(d := h.d.(generation := Off, reference := Off))
  }

  /** The continuation a joined reader runs. */
  function RunJoin(h: Hw, k: JoinCont): Hw {
    match k
    case HardwareJoined =>
      if h.s.joined.None? then Fault(h)
      else
        var h1 := h.(s := h.s.(joined := None, draining := Off), l := h.l.(joins := h.l.joins + [h.s.joined.value.id]));
        (match h.s.joined.value
         case SuspendJoin(_) => StartOp(h1, Nobody, OpSuspendPower)
         case CloseJoin(_) =>
           Invalidate(NoGeneration(h1.(s := h1.s.(open := Off, suspended := Off), power := Awake))))
    case ReinitJoined =>
      StartOp(NoGeneration(Invalidate(h)), Nobody, OpReinit)
    case SuspendPowerJoined(err) =>
      var h1 := Invalidate(h);
      h1.(s := h1.s.(reinit := ToFlag(h.s.reinit.On? || err.Some?), suspending := Off, suspended := On), power := Asleep)
    case ResumeJoined(err) =>
      var h1 := if err.Some? then Invalidate(h) else h;
      Push(h1.(s := h1.s.(suspended := Off, reinit := ToFlag(err.Some?)), power := Awake), Settle)
  }

  // --------------------------------------------------------- Stop requests

  /** goodix_scan_maybe_finish_requested (finish_requested inlined). */
  function MaybeFinish(h: Hw, w: Who): Hw
  {
    var c := CoordOf(h, w);
    if h.k.owner != w || c.dispatching.On? || c.waiting.On? || h.t.wire != WireIdle then h
    else if c.cpuOut.On? then
      if !IsCleanup(c.st) && !c.st.WaitCpu? then Jump(h, w, WaitCpu) else h
    else if c.deferred.On? then
      Jump(Put(h, w, c.(deferred := Off, dispatching := On)), w, Refresh)
    else if c.stopErr.Some? then
      MarkFailed(Put(h, w, c.(stopErr := None)), w, c.stopErr.value)
    else
      MarkCompleted(h, w)
  }

  /** goodix_transport_cancel_event. */
  function CancelEventWait(h: Hw): Hw {
    if h.t.wire.WireEvent? then h.(t := h.t.(wire := WireEvent(true))) else h
  }

  /** goodix_scan_request_stop. */
  function RequestStop(h: Hw, w: Who, err: Option<Err>): Hw
  {
    var c := CoordOf(h, w);
    if c.stop.On? then
      MaybeFinish(Put(h, w, c.(stopErr := if err.Some? && c.stopErr.None? then err else c.stopErr)), w)
    else
      var h1 := Put(h, w, c.(stop := On, stopErr := err));
      if c.waiting.On? && !c.dispatching.On? then CancelEventWait(h1) else MaybeFinish(h1, w)
  }

  /** g_cancellable_cancel on self->cancel; an action's coordinator listens. */
  function FireToken(h: Hw): Hw {
    if h.a.token.On? then h
    else
      var h1 := h.(a := h.a.(token := On));
      if h1.k.main.Some? && !h1.k.main.value.idle.On? then RequestStop(h1, Main, Some(IoCancelled)) else h1
  }

  /** goodix_scan_stop_coordinator. */
  function StopOwner(h: Hw, err: Option<Err>): Hw {
    if h.k.owner.Nobody? then h
    else if !Has(h, h.k.owner) then Fault(h)
    else
      RequestStop(if CoordOf(h, h.k.owner).cpuOut.On? then Push(h, CancelToken) else h,
                  h.k.owner, if err.Some? then err else Some(IoCancelled))
  }

  /** goodix_scan_join_service. */
  function JoinService(h: Hw): Hw {
    if !h.s.service.On? || h.k.owner.Nobody? || !Has(h, h.k.owner) then Fault(h)
    else RequestStop(h, h.k.owner, None)
  }

  // ------------------------------------------------------------ Session

  /** The current request gets its single answer; it must not overtake the CPU worker. */
  function Reply(h: Hw): Hw {
    if h.l.nextAction == 0 || h.jobs > 0 then Fault(h)
    else h.(l := h.l.(replies := h.l.replies + [h.l.nextAction - 1]))
  }

  /** goodix_session_settle. */
  function SettleOwners(h: Hw, ch: Choice): Hw {
    if h.s.foreground.On? || h.s.service.On? || h.s.draining.On? then h
    else if h.s.pending.On? then
      var h1 := h.(s := h.s.(pending := Off));
      if h.s.suspended.On? || h.s.suspending.On? || h.s.joined.Some? || h.a.coreCancelled.On?
      then SettleRest(Reply(h1))
      else StartForeground(h1, ch)
    else SettleRest(h)
  }

  function SettleRest(h: Hw): Hw {
    if h.s.joined.Some? then TransportQuiesce(h.(s := h.s.(draining := On)), HardwareJoined)
    else if h.s.open.On? && !h.s.reinit.On? && !h.s.suspending.On? && !h.s.suspended.On? then StartService(h)
    else h
  }

  /** goodix_scan_start_service. */
  function StartService(h: Hw): Hw {
    if h.k.owner != Nobody || h.t.wire != WireIdle then Fault(h)
    else
      Push(h.(k := h.k.(main := Some(NewCoord(false, true, false)), owner := Main, lifecycle := Active),
              s := h.s.(service := On)),
           Handler(Main))
  }

  /** goodix_auth_start / goodix_enroll_start up to the scan state. */
  function StartForeground(h: Hw, ch: Choice): Hw {
    var h1 := h.(s := h.s.(foreground := On), a := h.a.(token := Off));
    if h.a.enroll.On? && ch.setupFails then ActionDone(h1)
    else if h.s.reinit.On? then TransportQuiesce(h1.(a := h1.a.(phase := Reinitializing)), ReinitJoined)
    else StartCoordinator(h1.(a := h1.a.(phase := Scanning)))
  }

  /** goodix_scan_start_coordinator_subsm. */
  function StartCoordinator(h: Hw): Hw {
    if h.a.token.On? then ActionDone(h)
    else if h.k.owner != Nobody || h.k.lifecycle != Stopped then Fault(h)
    else
      Push(h.(k := h.k.(main := Some(NewCoord(true, false, false)), owner := Main, lifecycle := Active),
              d := h.d.(captureMode := On,
                        pendingFdt := if h.d.pendingFdt == Some(Deactivate) then None else h.d.pendingFdt,
                        unread := if h.a.enroll.On? then 2 else 1,
                        capturePending := On)),
           Handler(Main))
  }

  /** goodix_session_action_done: the outcome leaves, then the next owner is settled. */
  function ActionDone(h: Hw): Hw {
    Push(Push(Reply(h.(s := h.s.(foreground := Off), a := h.a.(phase := NoAction))), Settle), AppCallback)
  }

  /** goodix_session_start_action. */
  function RequestAction(h: Hw, enroll: bool): Hw {
    var h1 := h.(l := h.l.(nextAction := h.l.nextAction + 1), a := h.a.(enroll := ToFlag(enroll), coreCancelled := Off));
    if h.s.suspending.On? || h.s.suspended.On? || h.s.joined.Some? then Reply(h1)
    else if h.s.service.On? then JoinService(h1.(s := h1.s.(pending := On)))
    else Push(h1.(s := h1.s.(pending := On)), Settle)
  }

  /** goodix_cancel with goodix_session_cancel_pending_action. */
  function CancelAction(h: Hw): Hw {
    var h1 := h.(a := h.a.(coreCancelled := On));
    if h.s.pending.On? then Reply(h1.(s := h1.s.(pending := Off))) else FireToken(h1)
  }

  /** goodix_session_quiesce. */
  function Quiesce(h: Hw, j: Join): Hw {
    if h.s.joined.Some? then Fault(h)
    else
      var h1 := h.(s := h.s.(joined := Some(j)), l := h.l.(nextJoin := h.l.nextJoin + 1));
      if h.s.service.On? then JoinService(h1)
      else if h.s.foreground.On? then Push(Push(h1.(a := h1.a.(coreCancelled := On)), StopCoordinator(None)), CancelToken)
      else Push(h1, Settle)
  }

  // ------------------------------------------------------- Event completion

  datatype WaitResult = Notified | WaitFailed(err: Err) | WaitCancelled

  /** goodix_scan_event_done. */
  function EventDone(h: Hw, w: Who, r: WaitResult, ch: Choice): Hw
  {
    var c := CoordOf(h, w).(waiting := Off);
    match r
    case Notified =>
      var h1 := Put(h, w, c.(dispatching := On));
      if h.d.gtlsPending.On? then StartGtls(h1, w, ch) else NextState(h1, w)
    case WaitFailed(e) =>
      MarkFailed(Put(h.(s := h.s.(reinit := ToFlag(h.s.reinit.On? || e.UsbFault?))), w, c), w, e)
    case WaitCancelled =>
      var c1 := if c.stop.On? then c else c.(stop := On, stopErr := Some(OtherFault));
      MaybeFinish(Put(h, w, c1), w)
  }

  /** goodix_start_gtls_restart; a cancelled session fails it at once. */
  function StartGtls(h: Hw, w: Who, ch: Choice): Hw
  {
    if h.t.wire != WireIdle || h.d.gtlsActive.On? then Fault(h)
    else
      var h1 := h.(d := h.d.(gtlsPending := Off));
      if ch.startFails then GtlsRestarted(h1.(s := h1.s.(reinit := On)), w, Some(IoCancelled))
      else StartOp(h1.(d := h1.d.(gtlsActive := On)), w, OpGtls)
  }

  /** goodix_scan_gtls_restarted. */
  function GtlsRestarted(h: Hw, w: Who, err: Option<Err>): Hw
  {
    var h1 := Put(h, w, CoordOf(h, w).(dispatching := Off));
    if err.Some? then RequestStop(h1, w, err) else Jump(h1, w, WaitEvent)
  }

  // ------------------------------------------------------------- CPU worker

  predicate WaitsForUp(d: Disposition) {
    d.AuthRetryAfterUp? || d.EnrollContinue? || d.EnrollFinal?
  }

  /** goodix_scan_set_disposition. */
  function SetDisposition(h: Hw, d: Disposition): Hw {
    if !Has(h, h.k.owner) then h
    else
      var w := h.k.owner;
      var c := CoordOf(h, w);
      if !c.cycle.On? || c.cpuDone.On? || !c.cpuOut.On? then h
      else
        var c1 := c.(cpuDone := On, cpuOut := Off, disp := d);
        var h1 := Put(h, w, c1);
        if IsCleanup(c.st) then DetachAction(h1, w)
        else if c.stop.On? then MaybeFinish(h1, w)
        else if d.Fatal? then RequestStop(h1, w, Some(OtherFault))
        else if d.Cancelled? then RequestStop(h1, w, Some(IoCancelled))
        else if !WaitsForUp(d) then RequestStop(h1, w, None)
        else if c.deferred.On? then
          Jump(Put(h, w, c1.(deferred := Off, dispatching := On)), w, Refresh)
        else if c.released.On? && !c.dispatching.On? && !c.waiting.On? && h.t.wire == WireIdle then
          Jump(h1, w, CycleSettled)
        else h1
  }

  /** The action's coordinator becomes a tail that maintenance owns. */
  function ActionReleased(h: Hw, w: Who, broken: bool, outcome: Option<Err>): Hw {
    var h1 := Put(h.(s := h.s.(reinit := ToFlag(h.s.reinit.On? || broken), service := On), a := h.a.(phase := Returning)),
                  w, CoordOf(h, w).(parent := Off, stopErr := None, detached := On));
    Push(h1, ParentOutcome(outcome))
  }

  /** goodix_scan_detach_action with goodix_session_detach_action. */
  function DetachAction(h: Hw, w: Who): Hw
  {
    var c := CoordOf(h, w);
    if !c.parent.On? || h.s.service.On? then Fault(h)
    else
      var raw := if c.stopErr.Some? then c.stopErr else c.fail;
      var broken := raw.Some? && raw.value != IoCancelled;
      var outcome := if broken && c.cpuDone.On? && c.disp.AuthSuccess? then None else raw;
      MarkCompleted(ActionReleased(h, w, broken, outcome), w)
  }

  // -------------------------------------------------- Coordinator handler

  /** goodix_scan_prepare_refresh. */
  function PrepareRefresh(h: Hw, w: Who, reason: Reason): Hw
  {
    var c := CoordOf(h, w).(reason := reason);
    if c.cpuOut.On? then Jump(Put(h, w, c.(deferred := On, dispatching := Off)), w, WaitCpu)
    else Jump(Put(h, w, c), w, Refresh)
  }

  function HandleWaitEvent(h: Hw, w: Who, ch: Choice): Hw
  {
    var c0 := CoordOf(h, w);
    var c := if c0.health.On? && h.d.healthComplete.On? then c0.(stop := On) else c0;
    if c.idle.On? && c.stop.On? then
      MaybeFinish(Put(h, w, c.(dispatching := Off)), w)
    else
      PostWait(Put(h, w, c), w, ch)
  }

  /** goodix_transport_wait_event: retained work is reported at once; a wait
      posted by a stopping coordinator is cancelled right after. */
  function WaitBegun(h: Hw, w: Who): Hw {
    var c := CoordOf(h, w);
    var h0 := Put(h, w, c.(waiting := On));
    if c.stop.On? then Push(h0, CancelEvent) else h0
  }

  function PostWait(h: Hw, w: Who, ch: Choice): Hw
  {
    var h1 := WaitBegun(h, w);
    if h.t.wire != WireIdle || h.t.op.Some? || h.t.readerJoin.Some? then Fault(h1)
    else if h.t.reader.Errored? then EventDone(h1, w, WaitFailed(UsbFault), ch)
    else if h.d.pendingFdt.Some? || h.d.gtlsPending.On? then EventDone(h1, w, Notified, ch)
    else h1.(t := h1.t.(wire := WireEvent(false), reader := Running))
  }

  /** A delayed state jump holds the coordinator without using the wire. */
  function StartDelay(h: Hw, w: Who): Hw {
    var h1 := StartOp(h, w, OpDelay);
    h1.(t := h1.t.(wire := WireIdle))
  }

  function HandleDispatch(h: Hw, w: Who, ch: Choice): Hw
  {
    if h.t.wire != WireIdle then Fault(h)
    else if h.d.pendingFdt.None? then MarkFailed(h, w, OtherFault)
    else
      Selected(Put(h.(d := h.d.(pendingFdt := None)), w,
                   CoordOf(h, w).(evt := h.d.pendingFdt.value, dispatching := On)), w, ch)
  }

  /** What each kind of selected event leads to. */
  function Selected(h: Hw, w: Who, ch: Choice): Hw
  {
    var c := CoordOf(h, w);
    match c.evt
    case Esd => Jump(h, w, EsdRepair)
    case Wake => Jump(h, w, if ch.waitUp then RecoveryArmUp else RearmDown)
    case Deactivate => StartDelay(h, w)
    case Config =>
      if h.d.captureMode.On? then Jump(h, w, RestoreConfig)
      else Jump(Put(h, w, c.(dispatching := Off)), w, WaitEvent)
    case Down => NextState(h.(d := h.d.(healthComplete := Off)), w)
    case _ => HandleRelease(h, w, ch)
  }

  /** The up/reverse half of event dispatch: drift decides on a refresh. */
  function HandleRelease(h: Hw, w: Who, ch: Choice): Hw
  {
    var c0 := CoordOf(h, w);
    var c := c0.(released := c0.cycle);
    var reverse := c.evt.Reverse?;
    var given := if c.recovering.On? then InvalidBase
                 else if ch.refresh && ch.stale then (if reverse then InvalidBase else UpInvalidBase)
                 else c.reason;
    if ch.refresh || c.recovering.On? then
      PrepareRefresh(Put(h, w, c), w,
                     if given.NoReason? then (if reverse then ReverseDrift else UpDrift) else given)
    else
      Jump(Put(h, w, c.(reason := NoReason)), w, UpHealth)
  }

  /** goodix_milan_base_start_forced_refresh_subsm: a refusal costs the session. */
  function StartRefresh(h: Hw, w: Who, ch: Choice): Hw
  {
    if CoordOf(h, w).reason.NoReason? then Fault(h)
    else if ch.startFails then MarkFailed(h.(s := h.s.(reinit := On)), w, OtherFault)
    else StartOp(h, w, OpRefresh)
  }

  function HandleDownValidate(h: Hw, w: Who, ch: Choice): Hw
  {
    var c := CoordOf(h, w);
    if ch.startFails then MarkFailed(h, w, OtherFault)
    else if ch.falseDown then PrepareRefresh(h, w, FalseDown)
    else if !h.d.captureMode.On? || !h.d.capturePending.On? || c.cycle.On? then Jump(h, w, RecoveryArmUp)
    else if !h.d.reference.On? then Jump(Put(h, w, c.(recovering := On)), w, RecoveryArmUp)
    else NextState(h, w)
  }

  /** A captured frame opens a cycle and goes to the CPU worker. */
  function TakeFrame(h: Hw, w: Who, ch: Choice): Hw
  {
    var c := CoordOf(h, w).(cycle := On, released := Off, cpuDone := Off);
    var h1 := h.(d := h.d.(capturePending := Off));
    if c.stop.On? || c.idle.On? then Put(h1, w, c)
    else if !h.d.generation.On? then Put(h1, w, c.(recovering := On))
    else
      var h2 := Put(h1, w, c.(cpuOut := On));
      if ch.jobFails || h.jobs > 0 then SetDisposition(h2, Fatal) else h2.(jobs := h.jobs + 1)
  }

  function HandleArmUp(h: Hw, w: Who, ch: Choice): Hw
  {
    StartOp(TakeFrame(h, w, ch), w, OpArm)
  }

  function HandleRearmDone(h: Hw, w: Who): Hw
  {
    var c := CoordOf(h, w).(dispatching := Off);
    var h1 := Put(h, w, c);
    if h.d.pendingFdt.Some? || c.stop.On? || !c.released.On? then Jump(h1, w, WaitEvent)
    else if c.cpuDone.On? then Jump(h1, w, CycleSettled)
    else Jump(h1, w, WaitCpu)
  }

  function HandleCycleSettled(h: Hw, w: Who, ch: Choice): Hw
  {
    var h1 := if h.a.enroll.On? && ch.appCancels then FireToken(h.(a := h.a.(coreCancelled := On))) else h;
    if !Has(h1, w) || CoordOf(h1, w).stop.On? then h1 else Settled(h1, w)
  }

  /** A finished enroll stage admits the next capture; every other cycle ends the action. */
  function Settled(h: Hw, w: Who): Hw
  {
    var c := CoordOf(h, w);
    if c.disp.EnrollContinue? then
      Jump(Put(h.(d := h.d.(unread := 2, capturePending := On)), w,
               c.(cycle := Off, released := Off, cpuDone := Off)), w, WaitEvent)
    else MarkCompleted(h, w)
  }

  function HandleCleanupJoin(h: Hw, w: Who): Hw
  {
    var c := CoordOf(h, w);
    var h1 := h.(k := h.k.(lifecycle := Stopping));
    if c.idle.On? then CoordinatorDone(h1, w)
    else if c.cpuOut.On? then FireToken(h1)
    else DetachAction(h1, w)
  }

  /** goodix_scan_start_health_wait. */
  function StartHealthWait(h: Hw): Hw
  {
    Push(h.(k := h.k.(child := Some(NewCoord(false, true, true)), main := Some(CoordOf(h, Main).(timer := On)),
                      owner := Child, lifecycle := Active)),
         Handler(Child))
  }

  function HandleCleanupHealth(h: Hw, w: Who): Hw
  {
    var h1 := h.(d := h.d.(pendingFdt := Some(Deactivate), capturePending := Off));
    if h.d.healthComplete.On? then NextState(h1, w)
    else if h.k.main.Some? then StartHealthWait(h1) else Fault(h1)
  }

  /** goodix_scan_coordinator_handler. */
  function Handle(h: Hw, w: Who, ch: Choice): Hw
  {
    var c := CoordOf(h, w);
    if !IsCleanup(c.st) && !c.st.WaitEvent? && c.stop.On? && !c.dispatching.On? && !c.waiting.On? then MaybeFinish(h, w)
    else match c.st
      case EnsureReference =>
        if c.idle.On? then Jump(h, w, WaitEvent)
        else if h.d.generation.On? || h.d.recovery.On? then NextState(h, w)
        else if ch.startFails then MarkFailed(h, w, OtherFault)
        else StartOp(h.(d := h.d.(recovery := Off)), w, OpEnsure)
      case EnsureReferenceDone =>
        if h.d.generation.On? then NextState(h, w)
        else if !h.d.recovery.On? then MarkFailed(h, w, OtherFault)
        else NextState(Put(h, w, c.(recovering := On)), w)
      case PowerOn => StartOp(h, w, OpPowerOn)
      case ArmDown => StartOp(h, w, OpArm)
      case WaitEvent => HandleWaitEvent(h, w, ch)
      case DispatchEvent => HandleDispatch(h, w, ch)
      case DownManual => StartOp(h, w, OpManual)
      case DownValidate => HandleDownValidate(h, w, ch)
      case Capture => if h.d.unread == 0 then Fault(h) else StartOp(h, w, OpCapture)
      case ArmUp => HandleArmUp(h, w, ch)
      case ArmUpDone => Jump(Put(h, w, c.(dispatching := Off)), w, WaitEvent)
      case RecoveryArmUp => StartOp(Put(h, w, c.(dispatching := On)), w, OpArm)
      case RecoveryArmUpDone => Jump(Put(h, w, c.(dispatching := Off)), w, WaitEvent)
      case Refresh => StartRefresh(h, w, ch)
      case RefreshDone =>
        NextState(Put(h, w, c.(reason := NoReason, recovering := ToFlag(c.recovering.On? && !h.d.generation.On?))), w)
      case UpHealth => if c.evt.Up? && h.d.reference.On? then StartOp(h, w, OpHealthPair) else NextState(h, w)
      case RearmDown => StartOp(h, w, OpArm)
      case RearmDownDone => HandleRearmDone(h, w)
      case RestoreConfig => StartOp(h, w, OpRestore)
      case EsdRepair => StartOp(h, w, OpEsd)
      case EsdDone => Jump(Put(h, w, c.(dispatching := Off)), w, WaitEvent)
      case DeactivateEc => StartOp(h, w, OpEcOff)
      case DeactivateEcDone => Jump(Put(h, w, c.(dispatching := Off)), w, WaitEvent)
      case WaitCpu => h
      case CycleSettled => HandleCycleSettled(h, w, ch)
      case CleanupJoin => HandleCleanupJoin(h, w)
      case CleanupHealth => HandleCleanupHealth(h, w)
      case CleanupSleep => StartOp(h.(d := h.d.(healthComplete := On)), w, OpSleep)
      case CleanupDone =>
        if c.stopErr.Some? then MarkFailed(Put(h, w, c.(stopErr := None)), w, c.stopErr.value)
        else MarkCompleted(h, w)
  }

  // -------------------------------------------------- Finished operations

  /** How an operation ends: as intended, by ordinary native exhaustion the
      caller survives, or with an error.  `image` says whether an acquisition
      left an admitted reference, `fault` whether it also asks for a cold start. */
  datatype Outcome =
    | Done(image: bool)
    | Ordinary(left: nat)
    | Failed(err: Err, image: bool, broken: bool)

  function CoordOpDone(h: Hw, w: Who, op: Op, out: Outcome): Hw
  {
    var c := CoordOf(h, w);
    match out
    case Failed(e, image, broken) =>
      if op.OpGtls? then GtlsRestarted(h.(d := h.d.(gtlsActive := Off), s := h.s.(reinit := On)), w, Some(e))
      else
        MarkFailed(h.(s := h.s.(reinit := ToFlag(h.s.reinit.On? || broken)),
                      d := h.d.(recovery := ToFlag(h.d.recovery.On? || (op.OpEnsure? && image)))), w, e)
    case Ordinary(left) =>
      (match op
       case OpManual => Jump(Put(h, w, c.(dispatching := Off)), w, WaitEvent)
       case OpCapture =>
         if !c.st.Capture? then Fault(h)
         else Jump(h.(d := h.d.(unread := if 0 < left <= h.d.unread then left else h.d.unread)), w, RearmDown)
       case OpRestore => Jump(h, w, RearmDown)
       case OpEcOff => NextState(h, w)
       case OpSleep => NextState(h.(d := h.d.(captureMode := Off)), w)
       case OpHealthPair => NextState(h.(d := h.d.(healthComplete := On)), w)
       case OpGtls => GtlsRestarted(h.(d := h.d.(gtlsActive := Off)), w, None)
       case OpDelay => Jump(h, w, DeactivateEc)
       case OpEnsure => NextState(h.(d := h.d.(recovery := On)), w)
       case OpPowerOn => MarkFailed(h.(s := h.s.(reinit := On)), w, UsbFault)
       case _ => NextState(h, w))
    case Done(image) =>
      (match op
       case OpEnsure =>
         if image then NextState(h.(d := h.d.(generation := On, reference := On, recovery := Off)), w)
         else NextState(h.(d := h.d.(recovery := On)), w)
       case OpRefresh =>
         if image then NextState(h.(d := h.d.(generation := On, reference := On, recovery := Off)), w)
         else NextState(h, w)
       case OpCapture => NextState(h.(d := h.d.(unread := 0)), w)
       case OpRestore => Jump(h, w, RearmDown)
       case OpSleep => NextState(h.(d := h.d.(captureMode := Off)), w)
       case OpHealthPair => NextState(h.(d := h.d.(healthComplete := On)), w)
       case OpGtls => GtlsRestarted(h.(d := h.d.(gtlsActive := Off)), w, None)
       case OpDelay => Jump(h, w, DeactivateEc)
       case _ => NextState(h, w))
  }

  function SessionOpDone(h: Hw, op: Op, out: Outcome): Hw {
    match op
    case OpReinit =>
      (match out
       case Failed(_, image, _) =>
         ActionDone(h.(d := h.d.(generation := ToFlag(image), reference := ToFlag(image),
                                 recovery := ToFlag(h.d.recovery.On? || !image))))
       case _ =>
         var image := out.Done? && out.image;
         StartCoordinator(h.(d := h.d.(generation := ToFlag(image), reference := ToFlag(image), recovery := ToFlag(!image)),
                             s := h.s.(reinit := Off), a := h.a.(phase := Scanning))))
    case OpSuspendPower =>
      TransportQuiesce(h, SuspendPowerJoined(if out.Failed? then Some(out.err) else None))
    case OpResume =>
      (match out
       case Failed(e, image, _) =>
         TransportQuiesce(h.(d := h.d.(generation := ToFlag(image), reference := ToFlag(image))), ResumeJoined(Some(e)))
       case Done(image) =>
         RunJoin(h.(d := h.d.(generation := ToFlag(image), reference := ToFlag(image),
                              recovery := ToFlag(h.d.recovery.On? || !image))), ResumeJoined(None))
       case Ordinary(_) => RunJoin(h, ResumeJoined(None)))
    case _ => Fault(h)
  }

  function OpDone(h: Hw, out: Outcome): Hw {
    if h.t.op.None? then h
    else
      var op := h.t.op.value;
      var h1 := h.(t := h.t.(op := None, opOwner := Nobody, wire := WireIdle));
      if op.OpReinit? || op.OpSuspendPower? || op.OpResume? then SessionOpDone(h1, op, out)
      else if Has(h1, h.t.opOwner) then CoordOpDone(h1, h.t.opOwner, op, out)
      else Fault(h1)
  }

  // ------------------------------------------------------------- Whole steps

  /** One entry of the pending call stack runs. */
  function RunItem(h: Hw, item: Item, ch: Choice): Hw {
    match item
    case Handler(w) => if Has(h, w) then Handle(h, w, ch) else Fault(h)
    case ChildDone(err) =>
      if h.k.main.None? then Fault(h)
      else if err.Some? then MarkFailed(h, Main, err.value) else NextState(h, Main)
    case ParentOutcome(_) => ActionDone(h)
    case AppCallback =>
      var h1 := h.(s := h.s.(reinit := ToFlag(h.s.reinit.On? || ch.stale)));
      if ch.reenter && !h.s.pending.On? && !h.s.foreground.On? && h.s.open.On? then RequestAction(h1, ch.reenterEnroll) else h1
    case Settle => SettleOwners(h, ch)
    case CancelEvent => CancelEventWait(h)
    case CancelToken => FireToken(h)
    case StopCoordinator(err) => StopOwner(h, err)
  }

  datatype Event =
    | Internal(choice: Choice)
    | Open(image: bool)
    | Request(enroll: bool)
    | Cancel
    | Suspend
    | Resume
    | Close
    | Removed
    | Packet(fdt: FdtType, choice: Choice)
    | ImageErrors(choice: Choice)
    | BadPacket
    | ReaderFault
    | EventWaitCancelled
    | OperationDone(out: Outcome)
    | DelayTick
    | JobDone(disp: Disposition)
    | HealthTimer
    | ReaderStopped

  /** libfprint admits one action at a time and no close beside a power task. */
  predicate ActionCurrent(h: Hw) {
    h.s.pending.On? || h.s.foreground.On?
  }

  predicate Closing(h: Hw) {
    h.s.joined.Some? && h.s.joined.value.CloseJoin?
  }

  function WaiterGets(h: Hw, r: WaitResult, ch: Choice): Hw {
    if !h.t.wire.WireEvent? then h
    else if !Has(h, h.k.owner) then Fault(h)
    else EventDone(h.(t := h.t.(wire := WireIdle)), h.k.owner, r, ch)
  }

  const Quiet := Choice(false, false, false, false, false, false, false, false, false, false)

  function External(h: Hw, e: Event): Hw {
    match e
    case Internal(_) => h
    case Open(image) =>
      if h.s.open.On? || !h.power.Awake? || h.s.joined.Some? then h
      else
        Push(h.(s := h.s.(open := On, reinit := Off, suspending := Off, suspended := Off),
                d := h.d.(generation := ToFlag(image), reference := ToFlag(image), recovery := ToFlag(!image)),
                t := h.t.(reader := Running)), Settle)
    case Request(enroll) => if !h.s.open.On? || ActionCurrent(h) then h else RequestAction(h, enroll)
    case Cancel => if ActionCurrent(h) then CancelAction(h) else h
    case Suspend =>
      if !h.s.open.On? || !h.power.Awake? || Closing(h) then h
      else Quiesce(h.(s := h.s.(suspending := On), power := GoingToSleep), SuspendJoin(h.l.nextJoin))
    case Resume =>
      if !h.s.open.On? || !h.power.Asleep? || Closing(h) then h
      else StartOp(h.(power := WakingUp), Nobody, OpResume)
    case Close =>
      if !h.s.open.On? || ActionCurrent(h) || Closing(h) || h.power.GoingToSleep? || h.power.WakingUp? then h
      else Quiesce(h, CloseJoin(h.l.nextJoin))
    case Removed => if !h.s.open.On? then h else StopOwner(h.(s := h.s.(reinit := On)), Some(OtherFault))
    case Packet(t, ch) =>
      if !h.t.reader.Running? then h else WaiterGets(h.(d := h.d.(pendingFdt := Some(t))), Notified, ch)
    case ImageErrors(ch) =>
      if !h.t.reader.Running? || h.d.gtlsActive.On? then h else WaiterGets(h.(d := h.d.(gtlsPending := On)), Notified, ch)
    case BadPacket => if !h.t.reader.Running? then h else WaiterGets(h, WaitFailed(OtherFault), Quiet)
    case ReaderFault =>
      if !h.t.reader.Running? || h.t.readerJoin.Some? then h
      else WaiterGets(h.(t := h.t.(reader := Errored), s := h.s.(reinit := On)), WaitFailed(UsbFault), Quiet)
    case EventWaitCancelled => if h.t.wire == WireEvent(true) then WaiterGets(h, WaitCancelled, Quiet) else h
    case OperationDone(out) => OpDone(h, out)
    case DelayTick =>
      if h.t.op == Some(OpEsd) || h.t.op == Some(OpGtls)
      then h.(t := h.t.(wire := if h.t.wire == WireIdle then WireCommand else WireIdle)) else h
    case JobDone(d) => if h.jobs == 0 then h else SetDisposition(h.(jobs := h.jobs - 1), d)
    case HealthTimer =>
      if h.k.main.None? || !h.k.main.value.timer.On? then h
      else if !Has(h, h.k.owner) then Fault(h)
      else RequestStop(h.(k := h.k.(main := Some(CoordOf(h, Main).(timer := Off)))), h.k.owner, None)
    case ReaderStopped =>
      if h.t.readerJoin.None? then h
      else RunJoin(h.(t := h.t.(readerJoin := None, reader := NoReader)), h.t.readerJoin.value)
  }

  function Step(h: Hw, e: Event): Hw {
    if h.agenda.Empty? then External(h, e)
    else if e.Internal? then RunItem(h.(agenda := h.agenda.rest), h.agenda.top, e.choice)
    else h
  }

  /** A fresh device object before the first open. */
  const Closed := Hw(
    Session(Off, Off, Off, Off, Off, Off, Off, Off, None),
    Ledger(0, [], 0, []),
    Action(NoAction, Off, Off, Off),
    Awake,
    Scan(None, None, Nobody, Stopped),
    Transport(WireIdle, None, Nobody, NoReader, None),
    Device(Off, Off, Off, On, Off, 0, On, None, Off, Off),
    0, Empty, Off)

  function Execute(h: Hw, events: seq<Event>): Hw
    decreases |events|
  {
    if events == [] then h else Execute(Step(h, events[0]), events[1..])
  }
}
