/**
 The driver as session.c and scan.c run it: one device object and the
 coordinators it owns, all updated in place. Each operation is proved equal to
 its transition in module Ownership and, from the states it may be called in, to
 leave a valid driver: no assertion has failed and exactly one thing is owed to
 whoever owns the hardware.
 */
module OwnershipDriver {
  import opened Common
  import opened Ownership
  import opened OwnershipInvariant
  import Handlers = OwnershipHandlers
  import Session = OwnershipSession

  /** The states that only issue a command or sub-machine. */
  predicate Issues(st: ScanState) {
    st.PowerOn? || st.ArmDown? || st.DownManual? || st.Capture? || st.RecoveryArmUp? || st.UpHealth?
    || st.RearmDown? || st.RestoreConfig? || st.EsdRepair? || st.DeactivateEc?
  }

  /** The states after a finished dispatch. */
  predicate Rewaits(st: ScanState) {
    st.ArmUpDone? || st.RecoveryArmUpDone? || st.EsdDone? || st.DeactivateEcDone?
  }

  predicate Early(st: ScanState) {
    st.WaitEvent? || st.DispatchEvent? || st.DownValidate? || st.ArmUp?
  }

  /** GoodixScanCoordinatorData: one object for each coordinator that lives. */
  class Coordinator {
    var st: ScanState
    var fail: Option<Err>
    var parent: Flag
    var waiting: Flag
    var dispatching: Flag
    var stop: Flag
    var stopErr: Option<Err>
    var cpuDone: Flag
    var cpuOut: Flag
    var deferred: Flag
    var cycle: Flag
    var recovering: Flag
    var released: Flag
    var idle: Flag
    var detached: Flag
    var health: Flag
    var timer: Flag
    var disp: Disposition
    var evt: FdtType
    var reason: Reason

    function View(): Coord
      reads this
    {
      Coord(st, fail, parent, waiting, dispatching, stop, stopErr, cpuDone, cpuOut, deferred, cycle,
            recovering, released, idle, detached, health, timer, disp, evt, reason)
    }

    constructor (parent: bool, idle: bool, health: bool)
      ensures View() == NewCoord(parent, idle, health)
    {
      st, fail, stopErr, disp, evt, reason := EnsureReference, None, None, AuthSuccess, Down, NoReason;
      this.parent, this.idle, this.health := ToFlag(parent), ToFlag(idle), ToFlag(health);
      waiting, dispatching, stop, timer, detached := Off, Off, Off, Off, Off;
      cpuDone, cpuOut, deferred, cycle, recovering, released := Off, Off, Off, Off, Off, Off;
    }

    /** The state machine moves. */
    method Enter(next: ScanState)
      modifies this`st
      ensures View() == old(View()).(st := next)
    {
      st := next;
    }

    /** The health timer is armed or gone. */
    method Timing(running: Flag)
      modifies this`timer
      ensures View() == old(View()).(timer := running)
    {
      timer := running;
    }

    /** A machine keeps the first error it is failed with. */
    method KeepError(e: Err)
      modifies this`fail
      ensures View() == old(View()).(fail := if old(View()).fail.None? then Some(e) else old(View()).fail)
    {
      if fail.None? { fail := Some(e); }
    }

    /** A first request to stop. */
    method Stop(err: Option<Err>)
      modifies this`stop, this`stopErr
      ensures View() == old(View()).(stop := On, stopErr := err)
    {
      stop, stopErr := On, err;
    }

    /** A further request to stop adds only a missing error. */
    method KeepStopError(err: Option<Err>)
      modifies this`stopErr
      ensures View() == old(View()).(stopErr := if err.Some? && old(View()).stopErr.None? then err else old(View()).stopErr)
    {
      if err.Some? && stopErr.None? { stopErr := err; }
    }

    /** The kept error is handed on. */
    method TakeStopError()
      modifies this`stopErr
      ensures View() == old(View()).(stopErr := None)
    {
      stopErr := None;
    }

    /** The event wait is posted. */
    method BeginWait()
      modifies this`waiting
      ensures View() == old(View()).(waiting := On)
    {
      waiting := On;
    }

    /** The event wait is over, with an event selected or not. */
    method EndWait(selected: Flag)
      modifies this`waiting, this`dispatching
      ensures View() == old(View()).(waiting := Off, dispatching := if selected.On? then On else old(View()).dispatching)
    {
      waiting := Off;
      if selected.On? { dispatching := On; }
    }

    /** An event is being dispatched, or no longer. */
    method Dispatch(on: Flag)
      modifies this`dispatching
      ensures View() == old(View()).(dispatching := on)
    {
      dispatching := on;
    }

    /** The event to dispatch. */
    method Select(event: FdtType)
      modifies this`evt, this`dispatching
      ensures View() == old(View()).(evt := event, dispatching := On)
    {
      evt, dispatching := event, On;
    }

    /** The finger was lifted in this cycle. */
    method Release()
      modifies this`released
      ensures View() == old(View()).(released := old(View()).cycle)
    {
      released := cycle;
    }

    /** The reference is being recovered, or no longer. */
    method Recover(on: Flag)
      modifies this`recovering
      ensures View() == old(View()).(recovering := on)
    {
      recovering := on;
    }

    /** Why the reference is refreshed. */
    method Reason(why: Reason)
      modifies this`reason
      ensures View() == old(View()).(reason := why)
    {
      reason := why;
    }

    /** A refresh is over; a reference ends the recovery. */
    method EndRefresh(recovered: Flag)
      modifies this`reason, this`recovering
      ensures View() == old(View()).(reason := NoReason,
        recovering := if recovered.On? then Off else old(View()).recovering)
    {
      reason := NoReason;
      if recovered.On? { recovering := Off; }
    }

    /** The refresh waits for the CPU job. */
    method Defer()
      modifies this`deferred, this`dispatching
      ensures View() == old(View()).(deferred := On, dispatching := Off)
    {
      deferred, dispatching := On, Off;
    }

    /** The deferred refresh is dispatched. */
    method Undefer()
      modifies this`deferred, this`dispatching
      ensures View() == old(View()).(deferred := Off, dispatching := On)
    {
      deferred, dispatching := Off, On;
    }

    /** A captured frame opens a cycle. */
    method BeginCycle()
      modifies this`cycle, this`released, this`cpuDone
      ensures View() == old(View()).(cycle := On, released := Off, cpuDone := Off)
    {
      cycle, released, cpuDone := On, Off, Off;
    }

    /** The next capture is admitted. */
    method EndCycle()
      modifies this`cycle, this`released, this`cpuDone
      ensures View() == old(View()).(cycle := Off, released := Off, cpuDone := Off)
    {
      cycle, released, cpuDone := Off, Off, Off;
    }

    /** The frame goes to the CPU worker. */
    method StartJob()
      modifies this`cpuOut
      ensures View() == old(View()).(cpuOut := On)
    {
      cpuOut := On;
    }

    /** The worker has joined. */
    method EndJob(result: Disposition)
      modifies this`cpuDone, this`cpuOut, this`disp
      ensures View() == old(View()).(cpuDone := On, cpuOut := Off, disp := result)
    {
      cpuDone, cpuOut, disp := On, Off, result;
    }

    /** The health wait has what it waited for. */
    method EndHealth()
      modifies this`stop
      ensures View() == old(View()).(stop := On)
    {
      stop := On;
    }

    /** The action leaves; its tail belongs to maintenance. */
    method Detach()
      modifies this`parent, this`stopErr, this`detached
      ensures View() == old(View()).(parent := Off, stopErr := None, detached := On)
    {
      parent, stopErr, detached := Off, None, On;
    }
  }

  /** FpiDeviceGoodix53x5, as far as ownership goes. */
  class Driver {
    // session.c
    var s: Ownership.Session
    var l: Ledger
    var a: Action
    var power: Power

    // scan.c
    var main: Coordinator?
    var child: Coordinator?
    var owner: Who
    var lifecycle: Lifecycle
    var jobs: nat

    // transport.c and the device state the coordinator branches on.
    var t: Transport
    var d: Device

    // Callbacks still to run, and whether an assertion failed.
    var agenda: Stack
    var fault: Flag

    ghost function View(): Hw
      reads this, main, child
    {
      Hw(s, l, a, power,
         Scan(if main == null then None else Some(main.View()), if child == null then None else Some(child.View()),
              owner, lifecycle),
         t, d, jobs, agenda, fault)
    }

    /** The two coordinators are different objects. */
    ghost predicate Shape()
      reads this
    {
      main != null ==> main != child
    }

    ghost predicate Valid()
      reads this, main, child
    {
      Shape() && Inv(View())
    }

    /** w's state handler is running, and all else is in order. */
    ghost predicate InControl(w: Who)
      reads this, main, child
    {
      Handlers.Ready(View(), w)
    }

    /** Coordinators are created and dropped, never exchanged. */
    twostate predicate Owned()
      reads this
    {
      && (main == null || main == old(main) || fresh(main))
      && (child == null || child == old(child) || fresh(child))
    }

    constructor ()
      ensures Valid() && View() == Closed && main == null && child == null
    {
      s := Ownership.Session.Session(Off, Off, Off, Off, Off, Off, Off, Off, None);
      l := Ledger(0, [], 0, []);
      a := Action(NoAction, Off, Off, Off);
      power := Awake;
      main, child, owner, lifecycle := null, null, Nobody, Stopped;
      t := Transport(WireIdle, None, Nobody, NoReader, None);
      d := Device(Off, Off, Off, On, Off, 0, On, None, Off, Off);
      jobs, agenda, fault := 0, Empty, Off;
    }

    /** The coordinator in a slot that holds one. */
    function At(w: Who): Coordinator
      requires Holds(w)
      reads this
    {
      if w.Main? then main else child
    }

    function Of(w: Who): (c: Coord)
      requires Holds(w)
      reads this, main, child
      ensures c == CoordOf(View(), w)
    {
      At(w).View()
    }

    predicate Holds(w: Who)
      reads this
    {
      (w.Main? && main != null) || (w.Child? && child != null)
    }

    // ------------------------------------- State-machine mechanics

    method Push(item: Item)
      modifies this`agenda
      ensures View() == Ownership.Push(old(View()), item)
    {
      hide Coordinator.View;
      agenda := Then(item, agenda);
    }

    method Fault()
      modifies this`fault
      ensures View() == Ownership.Fault(old(View()))
    {
      hide Coordinator.View;
      fault := On;
    }

    /** The new state runs its handler. */
    method Jump(w: Who, st: ScanState)
      requires Shape() && Holds(w)
      modifies this`agenda, At(w)
      ensures View() == Ownership.Jump(old(View()), w, st)
    {
      hide Coordinator.View;
      At(w).Enter(st);
      Push(Handler(w));
    }

    method NextState(w: Who)
      requires Shape() && Holds(w)
      modifies this`agenda, At(w)
      ensures View() == Ownership.NextState(old(View()), w)
    {
      hide Ownership.Jump, Successor, Coordinator.View;
      Jump(w, Successor(Of(w).st));
    }

    /** fpi_ssm_mark_completed. */
    method MarkCompleted(w: Who)
      requires Shape() && Holds(w)
      modifies this, main, child
      ensures Shape() && Owned()
      ensures View() == Ownership.MarkCompleted(old(View()), w)
    {
      hide Ownership.Jump, Ownership.NextState, Ownership.CoordinatorDone, Coordinator.View;
      var st := Of(w).st;
      if !IsCleanup(st) {
        Jump(w, CleanupJoin);
      } else if st.CleanupDone? {
        CoordinatorDone(w);
      } else {
        NextState(w);
      }
    }

    method MarkFailed(w: Who, e: Err)
      requires Shape() && Holds(w)
      modifies this, main, child
      ensures Shape() && Owned()
      ensures View() == Ownership.MarkFailed(old(View()), w, e)
    {
      hide Ownership.MarkCompleted, Coordinator.View;
      At(w).KeepError(e);
      MarkCompleted(w);
    }

    /** goodix_scan_coordinator_done. */
    method CoordinatorDone(w: Who)
      requires Shape() && Holds(w)
      modifies this, main, child
      ensures Shape() && Owned()
      ensures View() == Ownership.CoordinatorDone(old(View()), w)
      ensures old(InControl(w) && (Of(w).idle.On? || (Of(w).detached.On? && Of(w).st.CleanupDone?))) ==> Valid()
    {
      hide Ownership.ServiceDone, Coordinator.View, Inv, Handlers.Ready;
      if InControl(w) && (Of(w).idle.On? || (Of(w).detached.On? && Of(w).st.CleanupDone?)) {
        Handlers.CoordinatorDoneKeeps(View(), w);
      }
      var c := Of(w);
      if owner != w {
        Fault();
      } else if c.health.On? {
        if main == null {
          Fault();
        } else {
          child, owner, lifecycle := null, Main, Stopping;
          main.Timing(Off);
          Push(ChildDone(c.fail));
        }
      } else {
        main, owner, lifecycle := null, Nobody, Stopped;
        if c.detached.On? {
          ServiceDone(if s.reinit.On? then None else c.fail);
        } else if c.idle.On? {
          ServiceDone(c.fail);
        } else {
          Fault();
        }
      }
    }

    /** goodix_session_service_done. */
    method ServiceDone(err: Option<Err>)
      modifies this`s, this`agenda
      ensures View() == Ownership.ServiceDone(old(View()), err)
    {
      hide Coordinator.View;
      s := s.(service := Off);
      if err.Some? && !IsCancellation(err.value) {
        s := s.(reinit := On);
      }
      Push(Settle);
    }

    // --------------------------------------------------- Transport

    /** A command or sub-machine takes the free wire. */
    method StartOp(w: Who, work: Op)
      modifies this`fault, this`t
      ensures View() == Ownership.StartOp(old(View()), w, work)
    {
      hide Coordinator.View;
      if t.wire != WireIdle || t.op.Some? || t.readerJoin.Some? {
        Fault();
      } else {
        t := t.(op := Some(work), opOwner := w, wire := WireCommand);
        if t.reader.NoReader? { t := t.(reader := Running); }
      }
    }

    /** goodix_transport_invalidate. */
    method Invalidate()
      modifies this`fault, this`d
      ensures View() == Ownership.Invalidate(old(View()))
    {
      hide Coordinator.View;
      if t.wire != WireIdle || t.reader != NoReader {
        Fault();
      } else {
        d := d.(pendingFdt := None, gtlsPending := Off);
      }
    }

    /** goodix_transport_quiesce. */
    method TransportQuiesce(join: JoinCont)
      modifies this`s, this`l, this`power, this`t, this`d, this`agenda, this`fault
      ensures View() == Ownership.TransportQuiesce(old(View()), join)
    {
      hide Ownership.RunJoin, Coordinator.View;
      if t.wire != WireIdle || t.readerJoin.Some? {
        Fault();
      } else if t.reader.Running? {
        t := t.(readerJoin := Some(join));
      } else {
        t := t.(reader := NoReader);
        RunJoin(join);
      }
    }

    /** The continuation a joined reader runs. */
    method RunJoin(join: JoinCont)
      modifies this`s, this`l, this`power, this`t, this`d, this`agenda, this`fault
      ensures View() == Ownership.RunJoin(old(View()), join)
    {
      hide Ownership.StartOp, Coordinator.View;
      match join
      case HardwareJoined =>
        HardwareJoined();
      case ReinitJoined =>
        Invalidate();
        d := d.(generation := Off, reference := Off);
        StartOp(Nobody, OpReinit);
      case SuspendPowerJoined(err) =>
        Invalidate();
        if err.Some? { s := s.(reinit := On); }
        s := s.(suspending := Off, suspended := On);
        power := Asleep;
      case ResumeJoined(err) =>
        if err.Some? { Invalidate(); }
        s := s.(suspended := Off, reinit := ToFlag(err.Some?));
        power := Awake;
        Push(Settle);
    }

    /** goodix_session_hardware_joined and the continuation it runs. */
    method HardwareJoined()
      modifies this`s, this`l, this`power, this`t, this`d, this`agenda, this`fault
      ensures View() == Ownership.RunJoin(old(View()), JoinCont.HardwareJoined)
    {
      hide Ownership.StartOp, Ownership.Invalidate, Coordinator.View;
      if s.joined.None? {
        Fault();
        return;
      }
      var continuation := s.joined.value;
      s := s.(joined := None, draining := Off);
      l := l.(joins := l.joins + [continuation.id]);
      if continuation.SuspendJoin? {
        StartOp(Nobody, OpSuspendPower);
      } else {
        s := s.(open := Off, suspended := Off);
        power := Awake;
        d := d.(generation := Off, reference := Off);
        Invalidate();
      }
    }

    // ----------------------------------------------- Stop requests

    /** goodix_scan_maybe_finish_requested. */
    method MaybeFinish(w: Who)
      requires Shape() && Holds(w)
      modifies this, main, child
      ensures Shape() && Owned()
      ensures View() == Ownership.MaybeFinish(old(View()), w)
      ensures old(InControl(w) && !IsCleanup(Of(w).st) && !Of(w).st.WaitEvent? && Of(w).stop.On? && !Of(w).dispatching.On? && !Of(w).waiting.On?) ==> Valid()
    {
      hide Ownership.Jump, Ownership.MarkFailed, Ownership.MarkCompleted, Coordinator.View, Inv, Handlers.Ready;
      if InControl(w) && !IsCleanup(Of(w).st) && !Of(w).st.WaitEvent? && Of(w).stop.On? && !Of(w).dispatching.On? && !Of(w).waiting.On? {
        Handlers.StoppedKeeps(View(), w);
      }
      var c := Of(w);
      if owner != w || c.dispatching.On? || c.waiting.On? || t.wire != WireIdle {
        return;
      }
      if c.cpuOut.On? {
        if !IsCleanup(c.st) && !c.st.WaitCpu? { Jump(w, WaitCpu); }
      } else if c.deferred.On? {
        At(w).Undefer();
        Jump(w, Refresh);
      } else if c.stopErr.Some? {
        At(w).TakeStopError();
        MarkFailed(w, c.stopErr.value);
      } else {
        MarkCompleted(w);
      }
    }

    /** goodix_transport_cancel_event. */
    method CancelEventWait()
      modifies this`t
      ensures View() == Ownership.CancelEventWait(old(View()))
    {
      hide Coordinator.View;
      if t.wire.WireEvent? { t := t.(wire := WireEvent(true)); }
    }

    /** goodix_scan_request_stop. */
    method RequestStop(w: Who, err: Option<Err>)
      requires Shape() && Holds(w)
      modifies this, main, child
      ensures Shape() && Owned()
      ensures View() == Ownership.RequestStop(old(View()), w, err)
    {
      hide Ownership.MaybeFinish, Ownership.CancelEventWait, Coordinator.View;
      var c := Of(w);
      if c.stop.On? {
        At(w).KeepStopError(err);
        MaybeFinish(w);
      } else {
        At(w).Stop(err);
        if c.waiting.On? && !c.dispatching.On? {
          CancelEventWait();
        } else {
          MaybeFinish(w);
        }
      }
    }

    /** The action's token is cancelled; its coordinator listens. */
    method FireToken()
      requires Shape()
      modifies this, main, child
      ensures Shape() && Owned()
      ensures View() == Ownership.FireToken(old(View()))
      ensures old(Session.Quiescent(View()) && Session.WakeWith(View(), CancelToken)) ==> Valid()
    {
      hide Ownership.RequestStop, Coordinator.View, Inv, Session.Quiescent, Session.WakeWith;
      if Session.Quiescent(View()) && Session.WakeWith(View(), CancelToken) {
        Session.TokenKeeps(View());
      }
      if a.token.On? { return; }
      a := a.(token := On);
      if main != null && !main.View().idle.On? {
        RequestStop(Main, Some(IoCancelled));
      }
    }

    /** goodix_scan_stop_coordinator. */
    method StopOwner(err: Option<Err>)
      requires Shape()
      modifies this, main, child
      ensures Shape() && Owned()
      ensures View() == Ownership.StopOwner(old(View()), err)
      ensures old(Session.Quiescent(View()) && Session.WakeWith(View(), StopCoordinator(err))) ==> Valid()
    {
      hide Ownership.RequestStop, Coordinator.View, Inv, Session.Quiescent, Session.WakeWith;
      if Session.Quiescent(View()) && Session.WakeWith(View(), StopCoordinator(err)) {
        Session.StopOwnerKeeps(View(), err);
      }
      if owner.Nobody? { return; }
      if !Holds(owner) {
        Fault();
        return;
      }
      if Of(owner).cpuOut.On? { Push(CancelToken); }
      RequestStop(owner, if err.Some? then err else Some(IoCancelled));
    }

    /** goodix_scan_join_service. */
    method JoinService()
      requires Shape()
      modifies this, main, child
      ensures Shape() && Owned()
      ensures View() == Ownership.JoinService(old(View()))
      ensures old(Session.Quiescent(View()) && s.service.On? && !s.foreground.On?) ==> Valid()
    {
      hide Ownership.RequestStop, Coordinator.View, Inv, Session.Quiescent;
      if Session.Quiescent(View()) && s.service.On? && !s.foreground.On? {
        Session.JoinServiceKeeps(View());
      }
      if !s.service.On? || owner.Nobody? || !Holds(owner) {
        Fault();
      } else {
        RequestStop(owner, None);
      }
    }

    // ----------------------------------------------------- Session

    /** The current request gets its one answer. */
    method Reply()
      modifies this`fault, this`l
      ensures View() == Ownership.Reply(old(View()))
    {
      hide Coordinator.View;
      if l.nextAction == 0 || jobs > 0 {
        Fault();
      } else {
        l := l.(replies := l.replies + [l.nextAction - 1]);
      }
    }

    /** goodix_session_settle. */
    method SettleOwners(ch: Choice)
      requires Shape()
      modifies this, main, child
      ensures Shape() && Owned()
      ensures View() == Ownership.SettleOwners(old(View()), ch)
      ensures old(Session.Quiescent(View()) && Session.WakeWith(View(), Settle)) ==> Valid()
    {
      hide Ownership.Reply, Ownership.SettleRest, Ownership.StartForeground, Coordinator.View, Inv,
        Session.Quiescent, Session.WakeWith;
      if Session.Quiescent(View()) && Session.WakeWith(View(), Settle) {
        Session.SettleKeeps(View(), ch);
      }
      if s.foreground.On? || s.service.On? || s.draining.On? { return; }
      if s.pending.On? {
        s := s.(pending := Off);
        if s.suspended.On? || s.suspending.On? || s.joined.Some? || a.coreCancelled.On? {
          Reply();
        } else {
          StartForeground(ch);
          return;
        }
      }
      SettleRest();
    }

    method SettleRest()
      requires Shape()
      modifies this, main, child
      ensures Shape() && Owned()
      ensures View() == Ownership.SettleRest(old(View()))
    {
      hide Ownership.TransportQuiesce, Ownership.StartService, Coordinator.View;
      if s.joined.Some? {
        s := s.(draining := On);
        TransportQuiesce(JoinCont.HardwareJoined);
        return;
      }
      if s.open.On? && !s.reinit.On? && !s.suspending.On? && !s.suspended.On? {
        StartService();
      }
    }

    /** goodix_scan_start_service. */
    method StartService()
      requires Shape()
      modifies this, main, child
      ensures Shape() && Owned()
      ensures View() == Ownership.StartService(old(View()))
      ensures old(Session.Unowned(View()) && !s.pending.On? && s.joined.None? && s.open.On? && !s.suspending.On? && !s.suspended.On?) ==> Valid()
    {
      hide Coordinator.View, Inv, Session.Unowned;
      if Session.Unowned(View()) && !s.pending.On? && s.joined.None? && s.open.On? && !s.suspending.On? && !s.suspended.On? {
        Session.ServiceKeeps(View());
      }
      if owner != Nobody || t.wire != WireIdle {
        Fault();
      } else {
        main := new Coordinator(false, true, false);
        owner, lifecycle := Main, Active;
        s := s.(service := On);
        Push(Handler(Main));
      }
    }

    /** goodix_auth_start and goodix_enroll_start up to the scan state. */
    method StartForeground(ch: Choice)
      requires Shape()
      modifies this, main, child
      ensures Shape() && Owned()
      ensures View() == Ownership.StartForeground(old(View()), ch)
    {
      hide Ownership.ActionDone, Ownership.TransportQuiesce, Ownership.StartCoordinator, Coordinator.View;
      s := s.(foreground := On);
      a := a.(token := Off);
      if a.enroll.On? && ch.setupFails {
        ActionDone();
      } else if s.reinit.On? {
        a := a.(phase := Reinitializing);
        TransportQuiesce(JoinCont.ReinitJoined);
      } else {
        a := a.(phase := Scanning);
        StartCoordinator();
      }
    }

    /** goodix_scan_start_coordinator_subsm. */
    method StartCoordinator()
      requires Shape()
      modifies this, main, child
      ensures Shape() && Owned()
      ensures View() == Ownership.StartCoordinator(old(View()))
    {
      hide Ownership.ActionDone, Coordinator.View;
      if a.token.On? {
        ActionDone();
      } else if owner != Nobody || lifecycle != Stopped {
        Fault();
      } else {
        main := new Coordinator(true, false, false);
        owner, lifecycle := Main, Active;
        d := d.(captureMode := On, unread := if a.enroll.On? then 2 else 1, capturePending := On,
                pendingFdt := if d.pendingFdt == Some(Deactivate) then None else d.pendingFdt);
        Push(Handler(Main));
      }
    }

    /** goodix_session_action_done. */
    method ActionDone()
      modifies this`s, this`a, this`l, this`agenda, this`fault
      ensures View() == Ownership.ActionDone(old(View()))
    {
      hide Ownership.Reply, Coordinator.View;
      s := s.(foreground := Off);
      a := a.(phase := NoAction);
      Reply();
      Push(Settle);
      Push(AppCallback);
    }

    /** goodix_session_start_action. */
    method RequestAction(enrolling: bool)
      requires Shape()
      modifies this, main, child
      ensures Shape() && Owned()
      ensures View() == Ownership.RequestAction(old(View()), enrolling)
      ensures old(Session.Steady(View()) && !s.pending.On? && !s.foreground.On? && s.open.On?) ==> Valid()
    {
      hide Ownership.Reply, Ownership.JoinService, Coordinator.View, Inv, Session.Steady;
      if Session.Steady(View()) && !s.pending.On? && !s.foreground.On? && s.open.On? {
        Session.RequestKeeps(View(), enrolling);
      }
      l := l.(nextAction := l.nextAction + 1);
      a := a.(enroll := ToFlag(enrolling), coreCancelled := Off);
      if s.suspending.On? || s.suspended.On? || s.joined.Some? {
        Reply();
        return;
      }
      s := s.(pending := On);
      if s.service.On? {
        JoinService();
      } else {
        Push(Settle);
      }
    }

    /** goodix_cancel with goodix_session_cancel_pending_action. */
    method CancelAction()
      requires Shape()
      modifies this, main, child
      ensures Shape() && Owned()
      ensures View() == Ownership.CancelAction(old(View()))
      ensures old(Session.Steady(View()) && (s.pending.On? || s.foreground.On?)) ==> Valid()
    {
      hide Ownership.Reply, Ownership.FireToken, Coordinator.View, Inv, Session.Steady;
      if Session.Steady(View()) && (s.pending.On? || s.foreground.On?) {
        Session.CancelKeeps(View());
      }
      a := a.(coreCancelled := On);
      if s.pending.On? {
        s := s.(pending := Off);
        Reply();
      } else {
        FireToken();
      }
    }

    /** goodix_session_quiesce. */
    method Quiesce(j: Join)
      requires Shape()
      modifies this, main, child
      ensures Shape() && Owned()
      ensures View() == Ownership.Quiesce(old(View()), j)
      ensures old(Valid() && agenda.Empty? && s.joined.None? && j == CloseJoin(l.nextJoin) && s.open.On? && (power.Awake? || power.Asleep?) && !s.pending.On? && !s.foreground.On?) ==> Valid()
    {
      hide Ownership.JoinService, Coordinator.View, Inv;
      if Valid() && agenda.Empty? && s.joined.None? && j == CloseJoin(l.nextJoin) && s.open.On? && (power.Awake? || power.Asleep?) && !s.pending.On? && !s.foreground.On? {
        Session.QuiesceKeeps(View(), j, View());
      }
      if s.joined.Some? {
        Fault();
        return;
      }
      s := s.(joined := Some(j));
      l := l.(nextJoin := l.nextJoin + 1);
      if s.service.On? {
        JoinService();
      } else if s.foreground.On? {
        a := a.(coreCancelled := On);
        Push(StopCoordinator(None));
        Push(CancelToken);
      } else {
        Push(Settle);
      }
    }

    // -------------------------------------------- Event completion

    /** The event wait failed. */
    method WaitFaulted(w: Who, e: Err)
      requires Shape() && Holds(w)
      modifies this, main, child
      ensures Shape() && Owned()
      ensures View() == Ownership.EventDone(old(View()), w, WaitFailed(e), Quiet)
    {
      hide Ownership.StartGtls, Ownership.NextState, Ownership.MarkFailed, Ownership.MaybeFinish, Coordinator.View;
      At(w).EndWait(Off);
      if e.UsbFault? { s := s.(reinit := On); }
      MarkFailed(w, e);
    }

    /** The event wait was cancelled; without a stop that is an error. */
    method WaitRevoked(w: Who)
      requires Shape() && Holds(w)
      modifies this, main, child
      ensures Shape() && Owned()
      ensures View() == Ownership.EventDone(old(View()), w, WaitCancelled, Quiet)
    {
      hide Ownership.StartGtls, Ownership.NextState, Ownership.MarkFailed, Ownership.MaybeFinish, Coordinator.View;
      At(w).EndWait(Off);
      if !Of(w).stop.On? { At(w).Stop(Some(OtherFault)); }
      MaybeFinish(w);
    }

    /** goodix_scan_event_done. */
    method EventDone(w: Who, r: WaitResult, ch: Choice)
      requires Shape() && Holds(w)
      modifies this, main, child
      ensures Shape() && Owned()
      ensures View() == Ownership.EventDone(old(View()), w, r, ch)
      ensures old(Handlers.Woken(View(), w)) ==> Valid()
    {
      hide Ownership.StartGtls, Ownership.NextState, Ownership.MarkFailed, Ownership.MaybeFinish, Coordinator.View,
        Inv, Handlers.Woken;
      if Handlers.Woken(View(), w) {
        Handlers.EventDoneKeeps(View(), w, r, ch);
      }
      if r.Notified? {
        At(w).EndWait(On);
        if d.gtlsPending.On? {
          StartGtls(w, ch);
        } else {
          NextState(w);
        }
      } else if r.WaitFailed? {
        WaitFaulted(w, r.err);
      } else {
        WaitRevoked(w);
      }
    }

    /** goodix_start_gtls_restart. */
    method StartGtls(w: Who, ch: Choice)
      requires Shape() && Holds(w)
      modifies this, main, child
      ensures Shape() && Owned()
      ensures View() == Ownership.StartGtls(old(View()), w, ch)
    {
      hide Ownership.GtlsRestarted, Ownership.StartOp, Coordinator.View;
      if t.wire != WireIdle || d.gtlsActive.On? {
        Fault();
        return;
      }
      d := d.(gtlsPending := Off);
      if ch.startFails {
        s := s.(reinit := On);
        GtlsRestarted(w, Some(IoCancelled));
      } else {
        d := d.(gtlsActive := On);
        StartOp(w, OpGtls);
      }
    }

    /** goodix_scan_gtls_restarted. */
    method GtlsRestarted(w: Who, err: Option<Err>)
      requires Shape() && Holds(w)
      modifies this, main, child
      ensures Shape() && Owned()
      ensures View() == Ownership.GtlsRestarted(old(View()), w, err)
    {
      hide Ownership.RequestStop, Ownership.Jump, Coordinator.View;
      At(w).Dispatch(Off);
      if err.Some? {
        RequestStop(w, err);
      } else {
        Jump(w, WaitEvent);
      }
    }

    // -------------------------------------------------- CPU worker

    /** goodix_scan_set_disposition. */
    method SetDisposition(result: Disposition)
      requires Shape()
      modifies this, main, child
      ensures Shape() && Owned()
      ensures View() == Ownership.SetDisposition(old(View()), result)
    {
      hide Ownership.DetachAction, Ownership.MaybeFinish, Ownership.RequestStop, Ownership.Jump, Coordinator.View;
      if !Holds(owner) { return; }
      var w := owner;
      var c := Of(w);
      if !c.cycle.On? || c.cpuDone.On? || !c.cpuOut.On? { return; }
      At(w).EndJob(result);
      if IsCleanup(c.st) {
        DetachAction(w);
      } else if c.stop.On? {
        MaybeFinish(w);
      } else if result.Fatal? {
        RequestStop(w, Some(OtherFault));
      } else if result.Cancelled? {
        RequestStop(w, Some(IoCancelled));
      } else if !WaitsForUp(result) {
        RequestStop(w, None);
      } else if c.deferred.On? {
        At(w).Undefer();
        Jump(w, Refresh);
      } else if c.released.On? && !c.dispatching.On? && !c.waiting.On? && t.wire == WireIdle {
        Jump(w, CycleSettled);
      }
    }

    /** goodix_scan_detach_action with goodix_session_detach_action. */
    method DetachAction(w: Who)
      requires Shape() && Holds(w)
      modifies this, main, child
      ensures Shape() && Owned()
      ensures View() == Ownership.DetachAction(old(View()), w)
      ensures old(InControl(w) && Of(w).parent.On? && !Of(w).cpuOut.On? && Of(w).st.CleanupJoin?) ==> Valid()
    {
      hide Ownership.MarkCompleted, Ownership.ActionReleased, Coordinator.View, Inv, Handlers.Ready;
      if InControl(w) && Of(w).parent.On? && !Of(w).cpuOut.On? && Of(w).st.CleanupJoin? {
        Handlers.DetachKeeps(View(), w);
      }
      var c := Of(w);
      if !c.parent.On? || s.service.On? {
        Fault();
        return;
      }
      var raw := if c.stopErr.Some? then c.stopErr else c.fail;
      var broken := raw.Some? && raw.value != IoCancelled;
      var outcome := if broken && c.cpuDone.On? && c.disp.AuthSuccess? then None else raw;
      ReleaseAction(w, broken, outcome);
      MarkCompleted(w);
    }

    /** The action is told its outcome and maintenance takes its coordinator. */
    method ReleaseAction(w: Who, broken: bool, outcome: Option<Err>)
      requires Shape() && Holds(w)
      modifies this`s, this`a, this`agenda, At(w)
      ensures View() == Ownership.ActionReleased(old(View()), w, broken, outcome)
    {
      hide Coordinator.View;
      s := s.(reinit := if broken then On else s.reinit, service := On);
      a := a.(phase := Returning);
      At(w).Detach();
      Push(ParentOutcome(outcome));
    }

    // ----------------------------------------- Coordinator handler

    /** goodix_scan_prepare_refresh. */
    method PrepareRefresh(w: Who, reason: Reason)
      requires Shape() && Holds(w)
      modifies this`agenda, At(w)
      ensures View() == Ownership.PrepareRefresh(old(View()), w, reason)
      ensures old(InControl(w) && !reason.NoReason? && (Of(w).st.DispatchEvent? || Of(w).st.DownValidate?)) ==> Valid()
    {
      hide Ownership.Jump, Coordinator.View, Inv, Handlers.Ready;
      if InControl(w) && !reason.NoReason? && (Of(w).st.DispatchEvent? || Of(w).st.DownValidate?) {
        Handlers.RefreshKeeps(View(), w, reason);
      }
      At(w).Reason(reason);
      if Of(w).cpuOut.On? {
        At(w).Defer();
        Jump(w, WaitCpu);
      } else {
        Jump(w, Refresh);
      }
    }

    /** A health wait that has what it waited for stops. */
    method NoteHealth(w: Who)
      requires Shape() && Holds(w)
      modifies At(w)
      ensures View() == Ownership.Put(old(View()), w,
        var c := CoordOf(old(View()), w); if c.health.On? && old(d).healthComplete.On? then c.(stop := On) else c)
    {
      hide Coordinator.View;
      if Of(w).health.On? && d.healthComplete.On? {
        At(w).EndHealth();
      }
    }

    /** An idle coordinator finishes a stop instead of waiting. */
    method StopWaiting(w: Who)
      requires Shape() && Holds(w)
      modifies this, main, child
      ensures Shape() && Owned()
      ensures View() == Ownership.MaybeFinish(Ownership.Put(old(View()), w, CoordOf(old(View()), w).(dispatching := Off)), w)
    {
      hide Ownership.MaybeFinish, Coordinator.View;
      At(w).Dispatch(Off);
      MaybeFinish(w);
    }

    method HandleWaitEvent(w: Who, ch: Choice)
      requires Shape() && Holds(w)
      modifies this, main, child
      ensures Shape() && Owned()
      ensures View() == Ownership.HandleWaitEvent(old(View()), w, ch)
      ensures old(InControl(w) && Of(w).st.WaitEvent?) ==> Valid()
    {
      hide Ownership.MaybeFinish, Ownership.PostWait, Coordinator.View, Inv, Handlers.Ready;
      if InControl(w) && Of(w).st.WaitEvent? {
        Handlers.WaitEventKeeps(View(), w, ch);
      }
      NoteHealth(w);
      if Of(w).idle.On? && Of(w).stop.On? {
        StopWaiting(w);
      } else {
        PostWait(w, ch);
      }
    }

    method StartWaiting(w: Who)
      requires Shape() && Holds(w)
      modifies this`agenda, At(w)
      ensures View() == Ownership.WaitBegun(old(View()), w)
    {
      hide Coordinator.View;
      At(w).BeginWait();
      if Of(w).stop.On? { Push(CancelEvent); }
    }

    /** goodix_transport_wait_event. */
    method PostWait(w: Who, ch: Choice)
      requires Shape() && Holds(w)
      modifies this, main, child
      ensures Shape() && Owned()
      ensures View() == Ownership.PostWait(old(View()), w, ch)
      ensures old(InControl(w) && Of(w).st.WaitEvent?) ==> Valid()
    {
      hide Ownership.EventDone, Ownership.WaitBegun, Coordinator.View, Inv, Handlers.Ready;
      if InControl(w) && Of(w).st.WaitEvent? {
        Handlers.WaitPostedKeeps(View(), w, ch);
      }
      StartWaiting(w);
      if t.wire != WireIdle || t.op.Some? || t.readerJoin.Some? {
        Fault();
      } else if t.reader.Errored? {
        EventDone(w, WaitFailed(UsbFault), ch);
      } else if d.pendingFdt.Some? || d.gtlsPending.On? {
        EventDone(w, Notified, ch);
      } else {
        t := t.(wire := WireEvent(false), reader := Running);
      }
    }

    method StartDelay(w: Who)
      modifies this`fault, this`t
      ensures View() == Ownership.StartDelay(old(View()), w)
    {
      hide Coordinator.View;
      StartOp(w, OpDelay);
      t := t.(wire := WireIdle);
    }

    method HandleDispatch(w: Who, ch: Choice)
      requires Shape() && Holds(w)
      modifies this, main, child
      ensures Shape() && Owned()
      ensures View() == Ownership.HandleDispatch(old(View()), w, ch)
      ensures old(InControl(w) && Of(w).st.DispatchEvent?) ==> Valid()
    {
      hide Ownership.Selected, Ownership.MarkFailed, Coordinator.View, Inv, Handlers.Ready;
      if InControl(w) && Of(w).st.DispatchEvent? {
        Handlers.DispatchKeeps(View(), w, ch);
      }
      if t.wire != WireIdle {
        Fault();
      } else if d.pendingFdt.None? {
        MarkFailed(w, OtherFault);
      } else {
        At(w).Select(d.pendingFdt.value);
        d := d.(pendingFdt := None);
        Selected(w, ch);
      }
    }

    method Selected(w: Who, ch: Choice)
      requires Shape() && Holds(w)
      modifies this`agenda, this`fault, this`t, this`d, At(w)
      ensures View() == Ownership.Selected(old(View()), w, ch)
      ensures old(InControl(w) && Of(w).st.DispatchEvent?) ==> Valid()
    {
      hide Ownership.Jump, Ownership.StartDelay, Ownership.NextState, Ownership.HandleRelease, Coordinator.View, Inv,
        Handlers.Ready;
      if InControl(w) && Of(w).st.DispatchEvent? {
        Handlers.SelectedKeeps(View(), w, ch);
      }
      var evt := Of(w).evt;
      if evt.Esd? {
        Jump(w, EsdRepair);
      } else if evt.Wake? {
        Jump(w, if ch.waitUp then RecoveryArmUp else RearmDown);
      } else if evt.Deactivate? {
        StartDelay(w);
      } else if evt.Config? {
        if d.captureMode.On? {
          Jump(w, RestoreConfig);
        } else {
          Rewait(w);
        }
      } else if evt.Down? {
        d := d.(healthComplete := Off);
        NextState(w);
      } else {
        HandleRelease(w, ch);
      }
    }

    method HandleRelease(w: Who, ch: Choice)
      requires Shape() && Holds(w)
      modifies this`agenda, At(w)
      ensures View() == Ownership.HandleRelease(old(View()), w, ch)
      ensures old(InControl(w) && Of(w).st.DispatchEvent?) ==> Valid()
    {
      hide Ownership.Jump, Ownership.PrepareRefresh, Coordinator.View, Inv, Handlers.Ready;
      if InControl(w) && Of(w).st.DispatchEvent? {
        Handlers.ReleaseKeeps(View(), w, ch);
      }
      At(w).Release();
      var c := Of(w);
      var reverse := c.evt.Reverse?;
      if ch.refresh || c.recovering.On? {
        var given := c.reason;
        if c.recovering.On? {
          given := InvalidBase;
        } else if ch.stale {
          given := if reverse then InvalidBase else UpInvalidBase;
        }
        if given.NoReason? {
          given := if reverse then ReverseDrift else UpDrift;
        }
        PrepareRefresh(w, given);
      } else {
        At(w).Reason(NoReason);
        Jump(w, UpHealth);
      }
    }

    method StartRefresh(w: Who, ch: Choice)
      requires Shape() && Holds(w)
      modifies this, main, child
      ensures Shape() && Owned()
      ensures View() == Ownership.StartRefresh(old(View()), w, ch)
      ensures old(InControl(w) && Of(w).st.Refresh?) ==> Valid()
    {
      hide Ownership.MarkFailed, Ownership.StartOp, Coordinator.View, Inv, Handlers.Ready;
      if InControl(w) && Of(w).st.Refresh? {
        Handlers.RefreshStartKeeps(View(), w, ch);
      }
      if Of(w).reason.NoReason? {
        Fault();
      } else if ch.startFails {
        s := s.(reinit := On);
        MarkFailed(w, OtherFault);
      } else {
        StartOp(w, OpRefresh);
      }
    }

    method HandleDownValidate(w: Who, ch: Choice)
      requires Shape() && Holds(w)
      modifies this, main, child
      ensures Shape() && Owned()
      ensures View() == Ownership.HandleDownValidate(old(View()), w, ch)
      ensures old(InControl(w) && Of(w).st.DownValidate?) ==> Valid()
    {
      hide Ownership.MarkFailed, Ownership.PrepareRefresh, Ownership.Jump, Ownership.NextState, Coordinator.View,
        Inv, Handlers.Ready;
      if InControl(w) && Of(w).st.DownValidate? {
        Handlers.DownValidateKeeps(View(), w, ch);
      }
      if ch.startFails {
        MarkFailed(w, OtherFault);
      } else if ch.falseDown {
        PrepareRefresh(w, FalseDown);
      } else if !d.captureMode.On? || !d.capturePending.On? || Of(w).cycle.On? {
        Jump(w, RecoveryArmUp);
      } else if !d.reference.On? {
        At(w).Recover(On);
        Jump(w, RecoveryArmUp);
      } else {
        NextState(w);
      }
    }

    /** The captured frame opens a cycle and goes to the CPU worker. */
    method TakeFrame(w: Who, ch: Choice)
      requires Shape() && Holds(w)
      modifies this, main, child
      ensures Shape() && Owned()
      ensures View() == Ownership.TakeFrame(old(View()), w, ch)
    {
      hide Ownership.SetDisposition, Coordinator.View;
      d := d.(capturePending := Off);
      At(w).BeginCycle();
      var c := Of(w);
      if c.stop.On? || c.idle.On? { return; }
      if !d.generation.On? {
        At(w).Recover(On);
      } else {
        At(w).StartJob();
        if ch.jobFails || jobs > 0 {
          SetDisposition(Fatal);
        } else {
          jobs := jobs + 1;
        }
      }
    }

    method HandleArmUp(w: Who, ch: Choice)
      requires Shape() && Holds(w)
      modifies this, main, child
      ensures Shape() && Owned()
      ensures View() == Ownership.HandleArmUp(old(View()), w, ch)
      ensures old(InControl(w) && Of(w).st.ArmUp?) ==> Valid()
    {
      hide Ownership.TakeFrame, Ownership.StartOp, Coordinator.View, Inv, Handlers.Ready;
      if InControl(w) && Of(w).st.ArmUp? {
        Handlers.ArmUpKeeps(View(), w, ch);
      }
      TakeFrame(w, ch);
      StartOp(w, OpArm);
    }

    method HandleRearmDone(w: Who)
      requires Shape() && Holds(w)
      modifies this`agenda, At(w)
      ensures View() == Ownership.HandleRearmDone(old(View()), w)
      ensures old(InControl(w) && Of(w).st.RearmDownDone?) ==> Valid()
    {
      hide Ownership.Jump, Coordinator.View, Inv, Handlers.Ready;
      if InControl(w) && Of(w).st.RearmDownDone? {
        Handlers.RearmDoneKeeps(View(), w);
      }
      At(w).Dispatch(Off);
      var c := Of(w);
      if d.pendingFdt.Some? || c.stop.On? || !c.released.On? {
        Jump(w, WaitEvent);
      } else if c.cpuDone.On? {
        Jump(w, CycleSettled);
      } else {
        Jump(w, WaitCpu);
      }
    }

    /** The enroll progress callback, which may cancel the action. */
    method ReportStage(ch: Choice)
      requires Shape()
      modifies this, main, child
      ensures Shape() && Owned()
      ensures View() == var h := old(View());
        if h.a.enroll.On? && ch.appCancels then Ownership.FireToken(h.(a := h.a.(coreCancelled := On))) else h
    {
      hide Ownership.FireToken, Coordinator.View;
      if a.enroll.On? && ch.appCancels {
        a := a.(coreCancelled := On);
        FireToken();
      }
    }

    method HandleCycleSettled(w: Who, ch: Choice)
      requires Shape() && Holds(w)
      modifies this, main, child
      ensures Shape() && Owned()
      ensures View() == Ownership.HandleCycleSettled(old(View()), w, ch)
      ensures old(InControl(w) && Of(w).st.CycleSettled? && !Of(w).stop.On?) ==> Valid()
    {
      hide Ownership.FireToken, Ownership.Settled, Coordinator.View, Inv, Handlers.Ready;
      if InControl(w) && Of(w).st.CycleSettled? && !Of(w).stop.On? {
        Handlers.CycleSettledKeeps(View(), w, ch);
      }
      ReportStage(ch);
      if !Holds(w) || Of(w).stop.On? { return; }
      Settled(w);
    }

    method Settled(w: Who)
      requires Shape() && Holds(w)
      modifies this, main, child
      ensures Shape() && Owned()
      ensures View() == Ownership.Settled(old(View()), w)
      ensures old(InControl(w) && Of(w).st.CycleSettled? && !Of(w).stop.On?) ==> Valid()
    {
      hide Ownership.Jump, Ownership.MarkCompleted, Coordinator.View, Inv, Handlers.Ready;
      if InControl(w) && Of(w).st.CycleSettled? && !Of(w).stop.On? {
        Handlers.AfterSettled(View(), w);
      }
      if Of(w).disp.EnrollContinue? {
        d := d.(unread := 2, capturePending := On);
        At(w).EndCycle();
        Jump(w, WaitEvent);
      } else {
        MarkCompleted(w);
      }
    }

    method HandleCleanupJoin(w: Who)
      requires Shape() && Holds(w)
      modifies this, main, child
      ensures Shape() && Owned()
      ensures View() == Ownership.HandleCleanupJoin(old(View()), w)
      ensures old(InControl(w) && Of(w).st.CleanupJoin?) ==> Valid()
    {
      hide Ownership.CoordinatorDone, Ownership.FireToken, Ownership.DetachAction, Coordinator.View, Inv,
        Handlers.Ready;
      if InControl(w) && Of(w).st.CleanupJoin? {
        Handlers.CleanupJoinKeeps(View(), w);
      }
      var c := Of(w);
      lifecycle := Stopping;
      if c.idle.On? {
        CoordinatorDone(w);
      } else if c.cpuOut.On? {
        FireToken();
      } else {
        DetachAction(w);
      }
    }

    /** goodix_scan_start_health_wait. */
    method StartHealthWait()
      requires Shape() && Holds(Main)
      modifies this, main, child
      ensures Shape() && Owned()
      ensures View() == Ownership.StartHealthWait(old(View()))
    {
      hide Coordinator.View;
      main.Timing(On);
      child := new Coordinator(false, true, true);
      owner, lifecycle := Child, Active;
      Push(Handler(Child));
    }

    method HandleCleanupHealth(w: Who)
      requires Shape() && Holds(w)
      modifies this, main, child
      ensures Shape() && Owned()
      ensures View() == Ownership.HandleCleanupHealth(old(View()), w)
      ensures old(InControl(w) && Of(w).st.CleanupHealth?) ==> Valid()
    {
      hide Ownership.NextState, Ownership.StartHealthWait, Coordinator.View, Inv, Handlers.Ready;
      if InControl(w) && Of(w).st.CleanupHealth? {
        Handlers.CleanupHealthKeeps(View(), w);
      }
      d := d.(pendingFdt := Some(Deactivate), capturePending := Off);
      if d.healthComplete.On? {
        NextState(w);
      } else if main != null {
        StartHealthWait();
      } else {
        Fault();
      }
    }

    /** goodix_scan_coordinator_handler: a requested stop first, then the state. */
    method Handle(w: Who, ch: Choice)
      requires Shape() && Holds(w)
      modifies this, main, child
      ensures Shape() && Owned()
      ensures View() == Ownership.Handle(old(View()), w, ch)
      ensures old(InControl(w)) ==> Valid()
    {
      hide Ownership.MaybeFinish, Ownership.HandleWaitEvent, Ownership.HandleDispatch, Ownership.HandleDownValidate,
        Ownership.HandleArmUp, Ownership.StartRefresh, Ownership.HandleRearmDone, Ownership.HandleCycleSettled,
        Ownership.HandleCleanupJoin, Ownership.HandleCleanupHealth, Ownership.Jump, Ownership.NextState,
        Ownership.StartOp, Ownership.MarkFailed, Ownership.MarkCompleted, Coordinator.View, CoordOf, CoordIn, Inv,
        Handlers.Ready;
      if InControl(w) {
        Handlers.HandleKeeps(View(), w, ch);
      }
      var c := Of(w);
      if !IsCleanup(c.st) && !c.st.WaitEvent? && c.stop.On? && !c.dispatching.On? && !c.waiting.On? {
        MaybeFinish(w);
      } else if IsCleanup(c.st) {
        HandleCleanup(w);
      } else if c.st.EnsureReference? || c.st.EnsureReferenceDone? {
        HandleEnsure(w, ch);
      } else if Issues(c.st) {
        HandleCommand(w);
      } else if Rewaits(c.st) {
        Rewait(w);
      } else if Early(c.st) {
        HandleEvent(w, ch);
      } else if !c.st.WaitCpu? {
        HandleSettled(w, ch);
      }
    }

    /** The states that only issue a command. */
    method HandleCommand(w: Who)
      requires Shape() && Holds(w)
      requires Issues(Of(w).st) && (Of(w).stop.On? ==> Of(w).dispatching.On? || Of(w).waiting.On?)
      modifies this, main, child
      ensures Shape() && Owned()
      ensures View() == Ownership.Handle(old(View()), w, Quiet)
    {
      hide Ownership.MaybeFinish, Ownership.HandleWaitEvent, Ownership.HandleDispatch, Ownership.HandleDownValidate,
        Ownership.HandleArmUp, Ownership.StartRefresh, Ownership.HandleRearmDone, Ownership.HandleCycleSettled,
        Ownership.HandleCleanupJoin, Ownership.HandleCleanupHealth, Ownership.Jump, Ownership.NextState,
        Ownership.StartOp, Ownership.MarkFailed, Ownership.MarkCompleted, Coordinator.View, CoordOf, CoordIn;
      var st := Of(w).st;
      if st.Capture? {
        if d.unread == 0 { Fault(); } else { StartOp(w, OpCapture); }
      } else if st.UpHealth? {
        if Of(w).evt.Up? && d.reference.On? { StartOp(w, OpHealthPair); } else { NextState(w); }
      } else if st.RecoveryArmUp? {
        IssueArm(w);
      } else {
        StartOp(w, match st
          case PowerOn => OpPowerOn
          case DownManual => OpManual
          case RestoreConfig => OpRestore
          case EsdRepair => OpEsd
          case DeactivateEc => OpEcOff
          case _ => OpArm);
      }
    }

    /** The states around an event. */
    method HandleEvent(w: Who, ch: Choice)
      requires Shape() && Holds(w)
      requires var c := Of(w); Early(c.st) && (!c.st.WaitEvent? && c.stop.On? ==> c.dispatching.On? || c.waiting.On?)
      modifies this, main, child
      ensures Shape() && Owned()
      ensures View() == Ownership.Handle(old(View()), w, ch)
    {
      hide Ownership.MaybeFinish, Ownership.HandleWaitEvent, Ownership.HandleDispatch, Ownership.HandleDownValidate,
        Ownership.HandleArmUp, Ownership.StartRefresh, Ownership.HandleRearmDone, Ownership.HandleCycleSettled,
        Ownership.HandleCleanupJoin, Ownership.HandleCleanupHealth, Ownership.Jump, Ownership.NextState,
        Ownership.StartOp, Ownership.MarkFailed, Ownership.MarkCompleted, Coordinator.View, CoordOf, CoordIn;
      match Of(w).st
      case WaitEvent => HandleWaitEvent(w, ch);
      case DispatchEvent => HandleDispatch(w, ch);
      case DownValidate => HandleDownValidate(w, ch);
      case ArmUp => HandleArmUp(w, ch);
    }

    /** A refresh is over; a reference ends the recovery. */
    method FinishRefresh(w: Who)
      requires Shape() && Holds(w)
      modifies this`agenda, At(w)
      ensures View() == Ownership.NextState(
        Ownership.Put(old(View()), w, var c := CoordOf(old(View()), w);
          c.(reason := NoReason, recovering := ToFlag(c.recovering.On? && !old(d).generation.On?))), w)
    {
      hide Ownership.NextState, Coordinator.View;
      At(w).EndRefresh(d.generation);
      NextState(w);
    }

    /** Recovery arms the up detection inside its dispatch. */
    method IssueArm(w: Who)
      requires Shape() && Holds(w)
      modifies this`fault, this`t, At(w)
      ensures View() == Ownership.StartOp(Ownership.Put(old(View()), w, CoordOf(old(View()), w).(dispatching := On)), w, OpArm)
    {
      hide Ownership.StartOp, Coordinator.View;
      At(w).Dispatch(On);
      StartOp(w, OpArm);
    }

    /** The states around a refresh and a settled cycle. */
    method HandleSettled(w: Who, ch: Choice)
      requires Shape() && Holds(w)
      requires var c := Of(w); (c.st.Refresh? || c.st.RefreshDone? || c.st.RearmDownDone? || c.st.CycleSettled?) && (!c.st.WaitEvent? && c.stop.On? ==> c.dispatching.On? || c.waiting.On?)
      modifies this, main, child
      ensures Shape() && Owned()
      ensures View() == Ownership.Handle(old(View()), w, ch)
    {
      hide Ownership.MaybeFinish, Ownership.HandleWaitEvent, Ownership.HandleDispatch, Ownership.HandleDownValidate,
        Ownership.HandleArmUp, Ownership.StartRefresh, Ownership.HandleRearmDone, Ownership.HandleCycleSettled,
        Ownership.HandleCleanupJoin, Ownership.HandleCleanupHealth, Ownership.Jump, Ownership.NextState,
        Ownership.StartOp, Ownership.MarkFailed, Ownership.MarkCompleted, Coordinator.View, CoordOf, CoordIn;
      match Of(w).st
      case Refresh => StartRefresh(w, ch);
      case RefreshDone => FinishRefresh(w);
      case RearmDownDone => HandleRearmDone(w);
      case CycleSettled => HandleCycleSettled(w, ch);
    }

    /** A finished dispatch returns to the event wait. */
    method Rewait(w: Who)
      requires Shape() && Holds(w)
      modifies this`agenda, At(w)
      ensures View() == Ownership.Jump(Ownership.Put(old(View()), w, CoordOf(old(View()), w).(dispatching := Off)), w, WaitEvent)
    {
      hide Ownership.Jump, Coordinator.View;
      At(w).Dispatch(Off);
      Jump(w, WaitEvent);
    }

    /** The two states that acquire a reference. */
    method HandleEnsure(w: Who, ch: Choice)
      requires Shape() && Holds(w)
      requires var c := Of(w);
        (c.st.EnsureReference? || c.st.EnsureReferenceDone?) && (c.stop.On? ==> c.dispatching.On? || c.waiting.On?)
      modifies this, main, child
      ensures Shape() && Owned()
      ensures View() == Ownership.Handle(old(View()), w, ch)
    {
      hide Ownership.MaybeFinish, Ownership.HandleWaitEvent, Ownership.HandleDispatch, Ownership.HandleDownValidate,
        Ownership.HandleArmUp, Ownership.StartRefresh, Ownership.HandleRearmDone, Ownership.HandleCycleSettled,
        Ownership.HandleCleanupJoin, Ownership.HandleCleanupHealth, Ownership.Jump, Ownership.NextState,
        Ownership.StartOp, Ownership.MarkFailed, Ownership.MarkCompleted, Coordinator.View, CoordOf, CoordIn;
      if Of(w).st.EnsureReference? {
        if Of(w).idle.On? {
          Jump(w, WaitEvent);
        } else if d.generation.On? || d.recovery.On? {
          NextState(w);
        } else if ch.startFails {
          MarkFailed(w, OtherFault);
        } else {
          d := d.(recovery := Off);
          StartOp(w, OpEnsure);
        }
      } else if d.generation.On? {
        NextState(w);
      } else if !d.recovery.On? {
        MarkFailed(w, OtherFault);
      } else {
        At(w).Recover(On);
        NextState(w);
      }
    }

    /** The four cleanup states. */
    method HandleCleanup(w: Who)
      requires Shape() && Holds(w)
      requires IsCleanup(Of(w).st)
      modifies this, main, child
      ensures Shape() && Owned()
      ensures View() == Ownership.Handle(old(View()), w, Quiet)
    {
      hide Ownership.MaybeFinish, Ownership.HandleWaitEvent, Ownership.HandleDispatch, Ownership.HandleDownValidate,
        Ownership.HandleArmUp, Ownership.StartRefresh, Ownership.HandleRearmDone, Ownership.HandleCycleSettled,
        Ownership.HandleCleanupJoin, Ownership.HandleCleanupHealth, Ownership.Jump, Ownership.NextState,
        Ownership.StartOp, Ownership.MarkFailed, Ownership.MarkCompleted, Coordinator.View, CoordOf, CoordIn;
      var c := Of(w);
      if c.st.CleanupJoin? {
        HandleCleanupJoin(w);
      } else if c.st.CleanupHealth? {
        HandleCleanupHealth(w);
      } else if c.st.CleanupSleep? {
        d := d.(healthComplete := On);
        StartOp(w, OpSleep);
      } else if c.stopErr.Some? {
        At(w).TakeStopError();
        MarkFailed(w, c.stopErr.value);
      } else {
        MarkCompleted(w);
      }
    }

    // ----------------------------------------- Finished operations

    method FailedDone(w: Who, work: Op, e: Err, image: bool, broken: bool)
      requires Shape() && Holds(w)
      modifies this, main, child
      ensures Shape() && Owned()
      ensures View() == Ownership.CoordOpDone(old(View()), w, work, Failed(e, image, broken))
    {
      hide Ownership.GtlsRestarted, Ownership.MarkFailed, Ownership.Jump, Ownership.NextState, Coordinator.View,
        CoordOf, CoordIn;
      if work.OpGtls? {
        d := d.(gtlsActive := Off);
        s := s.(reinit := On);
        GtlsRestarted(w, Some(e));
      } else {
        if broken { s := s.(reinit := On); }
        if work.OpEnsure? && image { d := d.(recovery := On); }
        MarkFailed(w, e);
      }
    }

    method WellDone(w: Who, work: Op, image: bool)
      requires Shape() && Holds(w)
      modifies this, main, child
      ensures Shape() && Owned()
      ensures View() == Ownership.CoordOpDone(old(View()), w, work, Done(image))
    {
      hide Ownership.GtlsRestarted, Ownership.MarkFailed, Ownership.Jump, Ownership.NextState, Coordinator.View,
        CoordOf, CoordIn;
      if image && (work.OpEnsure? || work.OpRefresh?) {
        d := d.(generation := On, reference := On, recovery := Off);
        NextState(w);
      } else if work.OpEnsure? {
        d := d.(recovery := On);
        NextState(w);
      } else if work.OpCapture? {
        d := d.(unread := 0);
        NextState(w);
      } else {
        SharedDone(w, work);
      }
    }

    /** A coordinator's command or sub-machine reports. */
    method CoordOpDone(w: Who, work: Op, out: Outcome)
      requires Shape() && Holds(w)
      modifies this, main, child
      ensures Shape() && Owned()
      ensures View() == Ownership.CoordOpDone(old(View()), w, work, out)
      ensures old(Handlers.OpEnded(View(), w, work)) ==> Valid()
    {
      hide Ownership.CoordOpDone, Coordinator.View, CoordOf, CoordIn, Inv, Handlers.OpEnded;
      if Handlers.OpEnded(View(), w, work) {
        Handlers.OpEndsAs(View(), w, work, out);
      }
      match out
      case Failed(e, image, broken) => FailedDone(w, work, e, image, broken);
      case Ordinary(left) => OrdinaryDone(w, work, left);
      case Done(image) => WellDone(w, work, image);
    }

    /** Completions that do not depend on how well the operation went. */
    method SharedDone(w: Who, work: Op)
      requires Shape() && Holds(w)
      modifies this, main, child
      ensures Shape() && Owned()
      ensures View() ==
        var h := old(View());
        if work.OpRestore? then Ownership.Jump(h, w, RearmDown)
        else if work.OpSleep? then Ownership.NextState(h.(d := h.d.(captureMode := Off)), w)
        else if work.OpHealthPair? then Ownership.NextState(h.(d := h.d.(healthComplete := On)), w)
        else if work.OpGtls? then Ownership.GtlsRestarted(h.(d := h.d.(gtlsActive := Off)), w, None)
        else if work.OpDelay? then Ownership.Jump(h, w, DeactivateEc)
        else Ownership.NextState(h, w)
    {
      hide Ownership.GtlsRestarted, Ownership.Jump, Ownership.NextState, Coordinator.View;
      if work.OpRestore? {
        Jump(w, RearmDown);
      } else if work.OpSleep? {
        d := d.(captureMode := Off);
        NextState(w);
      } else if work.OpHealthPair? {
        d := d.(healthComplete := On);
        NextState(w);
      } else if work.OpGtls? {
        d := d.(gtlsActive := Off);
        GtlsRestarted(w, None);
      } else if work.OpDelay? {
        Jump(w, DeactivateEc);
      } else {
        NextState(w);
      }
    }

    /** goodix_scan_continue_command_error and the survivable sub-machines. */
    method OrdinaryDone(w: Who, work: Op, left: nat)
      requires Shape() && Holds(w)
      modifies this, main, child
      ensures Shape() && Owned()
      ensures View() == Ownership.CoordOpDone(old(View()), w, work, Ordinary(left))
    {
      hide Ownership.GtlsRestarted, Ownership.MarkFailed, Ownership.Jump, Ownership.NextState, Coordinator.View,
        CoordOf, CoordIn;
      if work.OpManual? {
        Rewait(w);
      } else if work.OpCapture? {
        if !Of(w).st.Capture? {
          Fault();
        } else {
          if 0 < left <= d.unread { d := d.(unread := left); }
          Jump(w, RearmDown);
        }
      } else if work.OpEnsure? {
        d := d.(recovery := On);
        NextState(w);
      } else if work.OpPowerOn? {
        s := s.(reinit := On);
        MarkFailed(w, UsbFault);
      } else {
        SharedDone(w, work);
      }
    }

    /** Reinitialization reports: the action fails or scans. */
    method ReinitDone(out: Outcome)
      requires Shape()
      modifies this, main, child
      ensures Shape() && Owned()
      ensures View() == Ownership.SessionOpDone(old(View()), OpReinit, out)
    {
      hide Ownership.ActionDone, Ownership.StartCoordinator, Ownership.TransportQuiesce, Ownership.RunJoin,
        Coordinator.View;
      if out.Failed? {
        d := d.(generation := ToFlag(out.image), reference := ToFlag(out.image));
        if !out.image { d := d.(recovery := On); }
        ActionDone();
      } else {
        var image := out.Done? && out.image;
        d := d.(generation := ToFlag(image), reference := ToFlag(image), recovery := ToFlag(!image));
        s := s.(reinit := Off);
        a := a.(phase := Scanning);
        StartCoordinator();
      }
    }

    /** Power and reinitialization machines report. */
    method SessionOpDone(work: Op, out: Outcome)
      requires Shape()
      modifies this, main, child
      ensures Shape() && Owned()
      ensures View() == Ownership.SessionOpDone(old(View()), work, out)
    {
      hide Ownership.ActionDone, Ownership.StartCoordinator, Ownership.TransportQuiesce, Ownership.RunJoin,
        Coordinator.View;
      if work.OpReinit? {
        ReinitDone(out);
      } else if work.OpSuspendPower? {
        TransportQuiesce(JoinCont.SuspendPowerJoined(if out.Failed? then Some(out.err) else None));
      } else if work.OpResume? {
        if out.Failed? {
          d := d.(generation := ToFlag(out.image), reference := ToFlag(out.image));
          TransportQuiesce(JoinCont.ResumeJoined(Some(out.err)));
        } else {
          if out.Done? {
            d := d.(generation := ToFlag(out.image), reference := ToFlag(out.image));
            if !out.image { d := d.(recovery := On); }
          }
          RunJoin(JoinCont.ResumeJoined(None));
        }
      } else {
        Fault();
      }
    }

    method OpDone(out: Outcome)
      requires Shape()
      modifies this, main, child
      ensures Shape() && Owned()
      ensures View() == Ownership.OpDone(old(View()), out)
    {
      hide Ownership.SessionOpDone, Ownership.CoordOpDone, Coordinator.View;
      if t.op.None? { return; }
      var work, holder := t.op.value, t.opOwner;
      t := t.(op := None, opOwner := Nobody, wire := WireIdle);
      if work.OpReinit? || work.OpSuspendPower? || work.OpResume? {
        SessionOpDone(work, out);
      } else if Holds(holder) {
        CoordOpDone(holder, work, out);
      } else {
        Fault();
      }
    }

    // ------------------------------------------------- Whole steps

    method RunItem(item: Item, ch: Choice)
      requires Shape()
      modifies this, main, child
      ensures Shape() && Owned()
      ensures View() == Ownership.RunItem(old(View()), item, ch)
    {
      hide Ownership.Handle, Ownership.MarkFailed, Ownership.NextState, Ownership.ActionDone,
        Ownership.RequestAction, Ownership.SettleOwners, Ownership.FireToken, Ownership.StopOwner, Coordinator.View,
        CoordOf, CoordIn;
      match item
      case Handler(w) =>
        if Holds(w) { Handle(w, ch); } else { Fault(); }
      case ChildDone(err) =>
        if main == null { Fault(); }
        else if err.Some? { MarkFailed(Main, err.value); }
        else { NextState(Main); }
      case ParentOutcome(_) => ActionDone();
      case AppCallback =>
        if ch.stale { s := s.(reinit := On); }
        if ch.reenter && !s.pending.On? && !s.foreground.On? && s.open.On? {
          RequestAction(ch.reenterEnroll);
        }
      case Settle => SettleOwners(ch);
      case CancelEvent => CancelEventWait();
      case CancelToken => FireToken();
      case StopCoordinator(err) => StopOwner(err);
    }

    method WaiterGets(r: WaitResult, ch: Choice)
      requires Shape()
      modifies this, main, child
      ensures Shape() && Owned()
      ensures View() == Ownership.WaiterGets(old(View()), r, ch)
      ensures old(Valid() && agenda.Empty?) ==> Valid()
    {
      hide Ownership.EventDone, Coordinator.View, Inv;
      if Valid() && agenda.Empty? {
        Session.WaiterKeeps(View(), r, ch);
      }
      if !t.wire.WireEvent? { return; }
      if !Holds(owner) {
        Fault();
      } else {
        t := t.(wire := WireIdle);
        EventDone(owner, r, ch);
      }
    }

    /** Requests of libfprint and the system. */
    method Requested(e: Event)
      requires Shape()
      requires e.Open? || e.Request? || e.Cancel? || e.Suspend? || e.Resume? || e.Close? || e.Removed?
      modifies this, main, child
      ensures Shape() && Owned()
      ensures View() == Ownership.External(old(View()), e)
    {
      hide Ownership.RequestAction, Ownership.CancelAction, Ownership.Quiesce, Ownership.StartOp,
        Ownership.StopOwner, Ownership.WaiterGets, Ownership.OpDone, Ownership.SetDisposition, Ownership.RequestStop,
        Ownership.RunJoin, Coordinator.View;
      match e
      case Open(image) =>
        if s.open.On? || !power.Awake? || s.joined.Some? { return; }
        s := s.(open := On, reinit := Off, suspending := Off, suspended := Off);
        d := d.(generation := ToFlag(image), reference := ToFlag(image), recovery := ToFlag(!image));
        t := t.(reader := Running);
        Push(Settle);
      case Request(enrolling) =>
        if s.open.On? && !s.pending.On? && !s.foreground.On? { RequestAction(enrolling); }
      case Cancel =>
        if s.pending.On? || s.foreground.On? { CancelAction(); }
      case Suspend =>
        if !s.open.On? || !power.Awake? || (s.joined.Some? && s.joined.value.CloseJoin?) { return; }
        s := s.(suspending := On);
        power := GoingToSleep;
        Quiesce(SuspendJoin(l.nextJoin));
      case Resume =>
        if !s.open.On? || !power.Asleep? || (s.joined.Some? && s.joined.value.CloseJoin?) { return; }
        power := WakingUp;
        StartOp(Nobody, OpResume);
      case Close =>
        if !s.open.On? || s.pending.On? || s.foreground.On? || (s.joined.Some? && s.joined.value.CloseJoin?)
           || power.GoingToSleep? || power.WakingUp? { return; }
        Quiesce(CloseJoin(l.nextJoin));
      case Removed =>
        if !s.open.On? { return; }
        s := s.(reinit := On);
        StopOwner(Some(OtherFault));
    }

    /** What finished operations, the worker and the timers report. */
    method WorkReported(e: Event)
      requires Shape()
      requires e.OperationDone? || e.DelayTick? || e.JobDone? || e.HealthTimer?
      modifies this, main, child
      ensures Shape() && Owned()
      ensures View() == Ownership.External(old(View()), e)
    {
      hide Ownership.RequestAction, Ownership.CancelAction, Ownership.Quiesce, Ownership.StartOp,
        Ownership.StopOwner, Ownership.WaiterGets, Ownership.OpDone, Ownership.SetDisposition, Ownership.RequestStop,
        Ownership.RunJoin, Coordinator.View;
      match e
      case OperationDone(out) => OpDone(out);
      case DelayTick =>
        if t.op == Some(OpEsd) || t.op == Some(OpGtls) {
          t := t.(wire := if t.wire == WireIdle then WireCommand else WireIdle);
        }
      case JobDone(result) =>
        if jobs > 0 {
          jobs := jobs - 1;
          SetDisposition(result);
        }
      case HealthTimer =>
        if main == null || !main.View().timer.On? { return; }
        if !Holds(owner) {
          Fault();
        } else {
          main.Timing(Off);
          RequestStop(owner, None);
        }
    }

    /** What the reader reports. */
    method ReaderReported(e: Event)
      requires Shape()
      requires e.Packet? || e.ImageErrors? || e.BadPacket? || e.ReaderFault? || e.EventWaitCancelled? || e.ReaderStopped?
      modifies this, main, child
      ensures Shape() && Owned()
      ensures View() == Ownership.External(old(View()), e)
    {
      hide Ownership.RequestAction, Ownership.CancelAction, Ownership.Quiesce, Ownership.StartOp,
        Ownership.StopOwner, Ownership.WaiterGets, Ownership.OpDone, Ownership.SetDisposition, Ownership.RequestStop,
        Ownership.RunJoin, Coordinator.View;
      match e
      case Packet(kind, ch) =>
        if !t.reader.Running? { return; }
        d := d.(pendingFdt := Some(kind));
        WaiterGets(Notified, ch);
      case ImageErrors(ch) =>
        if !t.reader.Running? || d.gtlsActive.On? { return; }
        d := d.(gtlsPending := On);
        WaiterGets(Notified, ch);
      case BadPacket =>
        if t.reader.Running? { WaiterGets(WaitFailed(OtherFault), Quiet); }
      case ReaderFault =>
        if !t.reader.Running? || t.readerJoin.Some? { return; }
        t := t.(reader := Errored);
        s := s.(reinit := On);
        WaiterGets(WaitFailed(UsbFault), Quiet);
      case EventWaitCancelled =>
        if t.wire == WireEvent(true) { WaiterGets(WaitCancelled, Quiet); }
      case ReaderStopped =>
        if t.readerJoin.None? { return; }
        var join := t.readerJoin.value;
        t := t.(readerJoin := None, reader := NoReader);
        RunJoin(join);
    }

    /** One occurrence: an external event when no callback is pending, else the
        innermost pending callback. No assertion fails on the way. */
    method Deliver(e: Event)
      requires Valid()
      modifies this, main, child
      ensures Valid() && Owned() && fault.Off?
      ensures View() == Ownership.Step(old(View()), e)
    {
      Session.StepKeeps(View(), e);
      assert Inv(Ownership.Step(View(), e)) ==> !Ownership.Step(View(), e).fault.On?;
      hide Ownership.RunItem, Inv, Coordinator.View, Ownership.RequestAction, Ownership.CancelAction,
        Ownership.Quiesce, Ownership.StartOp, Ownership.StopOwner, Ownership.WaiterGets, Ownership.OpDone,
        Ownership.SetDisposition, Ownership.RequestStop, Ownership.RunJoin;
      assert e.Internal? ==> Ownership.External(View(), e) == View();
      hide Ownership.External;
      if agenda.Empty? {
        if e.Open? || e.Request? || e.Cancel? || e.Suspend? || e.Resume? || e.Close? || e.Removed? {
          Requested(e);
        } else if e.OperationDone? || e.DelayTick? || e.JobDone? || e.HealthTimer? {
          WorkReported(e);
        } else if !e.Internal? {
          ReaderReported(e);
        }
      } else if e.Internal? {
        var item := agenda.top;
        agenda := agenda.rest;
        RunItem(item, e.choice);
      }
    }

    /** A whole run of occurrences. */
    method Play(events: seq<Event>)
      requires Valid()
      modifies this, main, child
      ensures Valid() && Owned() && fault.Off?
      ensures View() == Execute(old(View()), events)
    {
      assert Inv(View()) ==> fault.Off?;
      hide Ownership.Step, Inv, Coordinator.View;
      var i := 0;
      while i < |events|
        invariant 0 <= i <= |events|
        invariant Valid() && Owned() && fault.Off?
        invariant Execute(View(), events[i..]) == Execute(old(View()), events)
      {
        Deliver(events[i]);
        assert events[i..][1..] == events[i + 1..];
        i := i + 1;
      }
    }
  }
}
