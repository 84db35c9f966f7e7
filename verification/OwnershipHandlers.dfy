/** Every state handler and every finished operation keeps the ownership invariant. */
module OwnershipHandlers {
  import opened Common
  import opened Ownership
  import opened OwnershipInvariant

  // ------------------------------------------------- Handlers keep it all

  /** Same slot, same kind of coordinator, same worker. */
  predicate SameRole(c: Coord, o: Coord) {
    && c.parent.On? == o.parent.On? && c.idle.On? == o.idle.On? && c.detached.On? == o.detached.On? && c.health.On? == o.health.On?
    && c.timer.On? == o.timer.On? && c.cpuOut.On? == o.cpuOut.On? && c.waiting.On? == o.waiting.On?
  }

  /** What the state a coordinator is put in asks of it. */
  predicate Local(h: Hw, w: Who, c: Coord) {
    && KindOk(c) && FlagsOk(c, h.t.op) && CaptureOk(c, h.d, h.t.op)
    && (h.d.capturePending.On? && w.Main? && !c.st.ArmUp? ==> h.d.unread > 0)
    && (w.Child? ==> CoordOf(h, w).stop.On? ==> c.stop.On?)
    && (c.detached.On? ==> (h.d.capturePending.On? ==> c.st.CleanupHealth?))
    && (c.detached.On? ==> (h.a.phase == Returning ==> !c.st.CleanupDone?))
  }

  lemma PutKeeps(h: Hw, w: Who, c: Coord)
    requires Base(h) && Has(h, w) && h.k.owner == w && (h.t.op == Some(OpGtls) ==> h.t.opOwner == w)
    requires SameRole(c, CoordOf(h, w)) && Local(h, w, c)
    ensures Base(Put(h, w, c))
  {
  }

  lemma BaseGives(h: Hw, w: Who)
    requires Base(h) && Has(h, w) && h.k.owner == w && (h.t.op == Some(OpGtls) ==> h.t.opOwner == w)
    ensures Local(h, w, CoordOf(h, w)) && h.d.generation.On? == h.d.reference.On?
    ensures w.Child? ==> CoordOf(h, w).idle.On?
  {
  }

  /** w's handler is running; everything else is in order. */
  predicate Ready(h: Hw, w: Who) {
    Control(h, w) && Base(h) && WakeOk(h.s, h.a, h.k, h.agenda)
  }

  /** w's handler may leave its coordinator as c. */
  predicate MayBecome(h: Hw, w: Who, c: Coord) {
    SameRole(c, CoordOf(h, w)) && (CoordOf(h, w).stop.On? ==> c.stop.On?)
  }

  lemma ReadyAs(h: Hw, w: Who, c: Coord)
    requires Ready(h, w) && MayBecome(h, w, c) && Local(h, w, c)
    ensures Ready(Put(h, w, c), w)
  {
    hide Base;
    PutKeeps(h, w, c);
  }

  lemma HandlerPushed(h: Hw, w: Who)
    requires Ready(h, w)
    ensures Inv(Push(h, Handler(w)))
  {
  }

  lemma JumpKeeps(h: Hw, w: Who, c: Coord, st: ScanState)
    requires Ready(h, w) && MayBecome(h, w, c) && Local(h, w, c.(st := st))
    ensures Inv(Jump(Put(h, w, c), w, st))
  {
    hide Base, WakeOk, Inv, Local;
    ReadyAs(h, w, c.(st := st));
    HandlerPushed(Put(h, w, c.(st := st)), w);
    assert Jump(Put(h, w, c), w, st) == Push(Put(h, w, c.(st := st)), Handler(w));
  }

  lemma JumpsKeeps(h: Hw, w: Who, st: ScanState)
    requires Ready(h, w) && Local(h, w, CoordOf(h, w).(st := st))
    ensures Inv(Jump(h, w, st))
  {
    hide Base, WakeOk, Inv, Local;
    JumpKeeps(h, w, CoordOf(h, w), st);
    assert Put(h, w, CoordOf(h, w)) == h;
  }

  /** Failing from a main state enters cleanup with nothing deferred. */
  lemma FailKeeps(h: Hw, w: Who, c: Coord, e: Err)
    requires Ready(h, w) && MayBecome(h, w, c) && Local(h, w, c.(st := CleanupJoin))
    requires !IsCleanup(c.st)
    ensures Inv(MarkFailed(Put(h, w, c), w, e))
  {
    hide Base, WakeOk, Inv, Ready, MarkFailed, Put, Jump, Local;
    FailIs(h, w, c, e);
    FailLocal(h, w, c, e);
    JumpKeeps(h, w, WithFailure(c, e), CleanupJoin);
  }

  lemma FailIs(h: Hw, w: Who, c: Coord, e: Err)
    requires !IsCleanup(c.st)
    ensures MarkFailed(Put(h, w, c), w, e) == Jump(Put(h, w, WithFailure(c, e)), w, CleanupJoin)
  {
    hide CoordinatorDone, NextState, Jump;
    assert CoordOf(Put(h, w, c), w) == c;
  }

  lemma FailLocal(h: Hw, w: Who, c: Coord, e: Err)
    requires Local(h, w, c.(st := CleanupJoin))
    ensures Local(h, w, WithFailure(c, e).(st := CleanupJoin))
  {
  }

  lemma MaybeFinishKeeps(h: Hw, w: Who, c: Coord)
    requires Ready(h, w) && MayBecome(h, w, c) && Local(h, w, c.(st := CleanupJoin))
    requires c.stop.On? && !c.dispatching.On? && !IsCleanup(c.st)
    requires !(c.cpuOut.On? && c.st.WaitCpu?) && !c.deferred.On?
    ensures Inv(MaybeFinish(Put(h, w, c), w))
  {
    hide Base, WakeOk, Inv;
    if c.cpuOut.On? {
      JumpKeeps(h, w, c, WaitCpu);
    } else if c.stopErr.Some? {
      FailKeeps(h, w, c.(stopErr := None), c.stopErr.value);
      assert Put(Put(h, w, c), w, c.(stopErr := None)) == Put(h, w, c.(stopErr := None));
    } else {
      JumpKeeps(h, w, c, CleanupJoin);
    }
  }

  /** w may start op from the state its coordinator is in. */
  predicate MayStart(h: Hw, w: Who, op: Op) {
    && Ready(h, w) && OpFits(op, CoordOf(h, w).st) && !op.OpGtls? && !CoordOf(h, w).st.ArmUp?
    && (op.OpEnsure? ==> !CoordOf(h, w).idle.On?)
  }

  lemma StartOpBase(h: Hw, w: Who, op: Op)
    requires MayStart(h, w, op)
    ensures Base(StartOp(h, w, op))
  {
    hide WakeOk, LedgerOk, OnlyTopMachine;
    var g := StartOp(h, w, op);
    assert RolesOk(g.s, g.a.phase, g.k, g.t, Outcomes(g.agenda)) by { hide CoordsOk, PowerOk; }
    assert PowerOk(g.s, g.a.phase, g.power, g.k, g.t) by { hide CoordsOk; }
    assert CoordsOk(g.k, g.d, g.t, g.jobs) by { hide RolesOk, PowerOk; }
  }

  lemma StartOpToken(h: Hw, w: Who, op: Op)
    requires MayStart(h, w, op)
    ensures var g := StartOp(h, w, op); WakeOk(g.s, g.a, g.k, g.agenda) && Token(g.k, g.t, g.agenda)
  {
    hide Base, WakeOk;
  }

  lemma StartOpKeeps(h: Hw, w: Who, op: Op)
    requires MayStart(h, w, op)
    ensures Inv(StartOp(h, w, op))
    ensures op.OpDelay? ==> Inv(StartDelay(h, w))
  {
    hide MayStart, Base, WakeOk, StartOp;
    StartOpBase(h, w, op);
    StartOpToken(h, w, op);
    if op.OpDelay? { DelayStarted(h, w); }
  }

  /** A delay leaves the wire free for the packets it waits out. */
  lemma DelayStarted(h: Hw, w: Who)
    requires MayStart(h, w, OpDelay) && Inv(StartOp(h, w, OpDelay))
    ensures Inv(StartDelay(h, w))
  {
    hide WakeOk, LedgerOk, OnlyTopMachine, KindOk, FlagsOk, CaptureOk;
  }

  lemma CoordinatorDoneKeeps(h: Hw, w: Who)
    requires Ready(h, w)
    requires var c := CoordOf(h, w); c.idle.On? || (c.detached.On? && c.st.CleanupDone?)
    ensures Inv(CoordinatorDone(h, w))
  {
    if CoordOf(h, w).health.On? {
      ChildDoneKeeps(h, w);
    } else {
      OwnerDoneKeeps(h, w);
    }
  }

  lemma ChildDoneKeeps(h: Hw, w: Who)
    requires Ready(h, w) && CoordOf(h, w).idle.On? && CoordOf(h, w).health.On?
    ensures Inv(CoordinatorDone(h, w))
  {
  }

  lemma OwnerDoneKeeps(h: Hw, w: Who)
    requires Ready(h, w) && !CoordOf(h, w).health.On?
    requires var c := CoordOf(h, w); c.idle.On? || (c.detached.On? && c.st.CleanupDone?)
    ensures Inv(CoordinatorDone(h, w))
  {
  }

  /** A joined action's coordinator once maintenance has taken it. */
  function Detached(h: Hw, w: Who, broken: bool, outcome: Option<Err>): Hw {
    var g := ActionReleased(h, w, broken, outcome);
    Push(Put(g, w, CoordOf(g, w).(st := CleanupHealth)), Handler(w))
  }

  predicate MayDetach(h: Hw, w: Who) {
    Ready(h, w) && CoordOf(h, w).parent.On? && !CoordOf(h, w).cpuOut.On? && CoordOf(h, w).st.CleanupJoin?
  }

  lemma DetachedBase(h: Hw, w: Who, broken: bool, outcome: Option<Err>)
    requires MayDetach(h, w)
    ensures Base(Detached(h, w, broken, outcome))
  {
    hide WakeOk;
    var g := Detached(h, w, broken, outcome);
    assert RolesOk(g.s, g.a.phase, g.k, g.t, Outcomes(g.agenda)) by { hide CoordsOk, PowerOk, LedgerOk; }
    assert PowerOk(g.s, g.a.phase, g.power, g.k, g.t) by { hide CoordsOk, LedgerOk; }
    assert CoordsOk(g.k, g.d, g.t, g.jobs) by { hide PowerOk, LedgerOk; }
    assert LedgerOk(g.s, g.l) by { hide RolesOk, PowerOk, CoordsOk; }
    hide RolesOk, PowerOk, CoordsOk, LedgerOk;
  }

  lemma DetachedToken(h: Hw, w: Who, broken: bool, outcome: Option<Err>)
    requires MayDetach(h, w)
    ensures var g := Detached(h, w, broken, outcome); WakeOk(g.s, g.a, g.k, g.agenda) && Token(g.k, g.t, g.agenda)
  {
    var a := h.agenda;
    forall i: Item | Owes(a, i) ensures Owes(Then(Handler(w), Then(ParentOutcome(outcome), a)), i) {
      assert Owes(Then(ParentOutcome(outcome), a), i);
    }
  }

  /** A joined action is detached on the assertions' own terms. */
  lemma DetachIs(h: Hw, w: Who)
    requires MayDetach(h, w)
    ensures exists broken, outcome :: DetachAction(h, w) == Detached(h, w, broken, outcome)
  {
    hide LedgerOk, PowerOk, WakeOk, FlagsOk, CaptureOk;
    var c := CoordOf(h, w);
    var raw := if c.stopErr.Some? then c.stopErr else c.fail;
    var broken := raw.Some? && raw.value != IoCancelled;
    var outcome := if broken && c.cpuDone.On? && c.disp.AuthSuccess? then None else raw;
    assert h.s.service.Off?;
    assert DetachAction(h, w) == Detached(h, w, broken, outcome);
  }

  lemma DetachKeeps(h: Hw, w: Who)
    requires MayDetach(h, w)
    ensures Inv(DetachAction(h, w))
  {
    hide MayDetach, DetachAction, Detached, Base, WakeOk, Token;
    DetachIs(h, w);
    var broken, outcome :| DetachAction(h, w) == Detached(h, w, broken, outcome);
    DetachedBase(h, w, broken, outcome);
    DetachedToken(h, w, broken, outcome);
    assert Inv(Detached(h, w, broken, outcome));
  }

  // ---------------------------------------------------- A finished event wait

  /** w's wait has ended and it is about to be told how. */
  predicate Woken(h: Hw, w: Who) {
    && Has(h, w) && CoordOf(h, w).st.WaitEvent?
    && Ready(Put(h, w, CoordOf(h, w).(waiting := Off)), w)
  }

  lemma EventDoneKeeps(h: Hw, w: Who, r: WaitResult, ch: Choice)
    requires Woken(h, w)
    ensures Inv(EventDone(h, w, r, ch))
  {
    hide Inv, Base, WakeOk;
    var c := CoordOf(h, w).(waiting := Off);
    var h0 := Put(h, w, c);
    BaseGives(h0, w);
    match r
    case Notified =>
      if h.d.gtlsPending.On? {
        StartGtlsKeeps(h0, w, ch);
        assert Put(h0, w, c.(dispatching := On)) == Put(h, w, c.(dispatching := On));
      } else {
        JumpKeeps(h0, w, c.(dispatching := On), DispatchEvent);
        assert Put(h0, w, c.(dispatching := On)) == Put(h, w, c.(dispatching := On));
      }
    case WaitFailed(e) =>
      WaitFailedKeeps(h0, w, e);
      assert EventDone(h, w, r, ch) == MarkFailed(h0.(s := h0.s.(reinit := ToFlag(h.s.reinit.On? || e.UsbFault?))), w, e);
    case WaitCancelled =>
      var c1 := if c.stop.On? then c else c.(stop := On, stopErr := Some(OtherFault));
      MaybeFinishKeeps(h0, w, c1);
      assert Put(h0, w, c1) == Put(h, w, c1);
  }

  /** Nothing the invariant looks at differs. */
  predicate Unrelated(h: Hw, g: Hw) {
    && g == h.(s := g.s, d := g.d)
    && g.s == h.s.(reinit := g.s.reinit)
    && g.d == h.d.(recovery := g.d.recovery, captureMode := g.d.captureMode, healthComplete := g.d.healthComplete,
                   pendingFdt := g.d.pendingFdt, gtlsPending := g.d.gtlsPending)
  }

  lemma UnrelatedKeeps(h: Hw, g: Hw, w: Who)
    requires Unrelated(h, g) && Ready(h, w)
    ensures Ready(g, w)
  {
  }

  lemma WaitFailedKeeps(h: Hw, w: Who, e: Err)
    requires Ready(h, w) && CoordOf(h, w).st.WaitEvent?
    ensures Inv(MarkFailed(h.(s := h.s.(reinit := ToFlag(h.s.reinit.On? || e.UsbFault?))), w, e))
  {
    hide Inv, Base, WakeOk, MarkFailed;
    var h1 := h.(s := h.s.(reinit := ToFlag(h.s.reinit.On? || e.UsbFault?)));
    UnrelatedKeeps(h, h1, w);
    BaseGives(h1, w);
    FailKeeps(h1, w, CoordOf(h1, w), e);
    assert Put(h1, w, CoordOf(h1, w)) == h1;
  }

  lemma StartGtlsKeeps(h: Hw, w: Who, ch: Choice)
    requires Ready(h, w) && CoordOf(h, w).st.WaitEvent?
    ensures Inv(StartGtls(Put(h, w, CoordOf(h, w).(dispatching := On)), w, ch))
  {
    hide Inv, Base, WakeOk;
    BaseGives(h, w);
    var c := CoordOf(h, w);
    assert c.dispatching == Off;
    var h1 := Put(h, w, c.(dispatching := On));
    if ch.startFails {
      var g := h.(s := h.s.(reinit := On), d := h.d.(gtlsPending := Off));
      UnrelatedKeeps(h, g, w);
      GtlsRefusedKeeps(g, w);
      assert StartGtls(h1, w, ch) == GtlsRestarted(Put(g, w, c.(dispatching := On)), w, Some(IoCancelled)) by {
        hide GtlsRestarted;
        assert h.d.gtlsActive == Off by { NotActive(h, w); }
      }
    } else {
      var g := h.(d := h.d.(gtlsPending := Off));
      UnrelatedKeeps(h, g, w);
      GtlsBegunKeeps(g, w);
      NotActive(h, w);
    }
  }

  lemma NotActive(h: Hw, w: Who)
    requires Ready(h, w)
    ensures h.d.gtlsActive == Off
  {
  }

  lemma GtlsBegunKeeps(h: Hw, w: Who)
    requires Ready(h, w) && CoordOf(h, w).st.WaitEvent?
    ensures var g := Put(h, w, CoordOf(h, w).(dispatching := On));
      Inv(StartOp(g.(d := g.d.(gtlsActive := On)), w, OpGtls))
  {
  }

  lemma GtlsRefusedKeeps(h: Hw, w: Who)
    requires Ready(h, w) && CoordOf(h, w).st.WaitEvent?
    ensures Inv(GtlsRestarted(Put(h, w, CoordOf(h, w).(dispatching := On)), w, Some(IoCancelled)))
  {
    hide Inv, Base, WakeOk, CancelEventWait;
    BaseGives(h, w);
    var c := CoordOf(h, w);
    var c1 := if c.stop.On? then c.(stopErr := if c.stopErr.None? then Some(IoCancelled) else c.stopErr)
              else c.(stop := On, stopErr := Some(IoCancelled));
    MaybeFinishKeeps(h, w, c1);
    assert Put(Put(h, w, c.(dispatching := On)), w, c) == h;
    assert Put(h, w, c) == h;
  }

  lemma WaitEventKeeps(h: Hw, w: Who, ch: Choice)
    requires Ready(h, w) && CoordOf(h, w).st.WaitEvent?
    ensures Inv(HandleWaitEvent(h, w, ch))
  {
    hide Inv, Base, WakeOk;
    BaseGives(h, w);
    var c0 := CoordOf(h, w);
    var c := if c0.health.On? && h.d.healthComplete.On? then c0.(stop := On) else c0;
    if c.idle.On? && c.stop.On? {
      MaybeFinishKeeps(h, w, c.(dispatching := Off));
    } else {
      WaitPostedKeeps(h, w, ch);
    }
  }

  lemma PushReady(h: Hw, w: Who, item: Item)
    requires Ready(h, w) && !IsMachine(item) && !item.ParentOutcome?
    ensures Ready(Push(h, item), w)
  {
  }

  lemma WaitPostedKeeps(h: Hw, w: Who, ch: Choice)
    requires Ready(h, w) && CoordOf(h, w).st.WaitEvent?
    ensures Inv(PostWait(h, w, ch))
  {
    hide Inv, Base, WakeOk, EventDone;
    var c := CoordOf(h, w);
    var h0 := Put(h, w, c.(waiting := On));
    var h1 := if c.stop.On? then Push(h0, CancelEvent) else h0;
    var g := if c.stop.On? then Push(h, CancelEvent) else h;
    if c.stop.On? { PushReady(h, w, CancelEvent); }
    assert Put(h1, w, CoordOf(h1, w).(waiting := Off)) == g by { assert Put(g, w, c) == g; }
    if h.t.reader.Errored? {
      EventDoneKeeps(h1, w, WaitFailed(UsbFault), ch);
    } else if h.d.pendingFdt.Some? || h.d.gtlsPending.On? {
      EventDoneKeeps(h1, w, Notified, ch);
    } else {
      WaitPending(g, w);
      assert Put(g, w, c.(waiting := On)) == h1;
    }
  }

  lemma WaitPending(h: Hw, w: Who)
    requires Ready(h, w) && CoordOf(h, w).st.WaitEvent?
    requires CoordOf(h, w).stop.On? ==> Owes(h.agenda, CancelEvent)
    ensures var g := Put(h, w, CoordOf(h, w).(waiting := On));
      Inv(g.(t := g.t.(wire := WireEvent(false), reader := Running)))
  {
  }

  // ------------------------------------------------------------- State by state

  lemma DispatchKeeps(h: Hw, w: Who, ch: Choice)
    requires Ready(h, w) && CoordOf(h, w).st.DispatchEvent?
    ensures Inv(HandleDispatch(h, w, ch))
  {
    hide Inv, Base, WakeOk, Control, HandleRelease, StartDelay, MarkFailed, Jump, NextState;
    Gives(h, w);
    var c0 := CoordOf(h, w);
    if h.d.pendingFdt.None? {
      FailKeeps(h, w, c0, OtherFault);
      assert Put(h, w, c0) == h;
    } else {
      var t := h.d.pendingFdt.value;
      var c := c0.(evt := t, dispatching := On);
      var g := h.(d := h.d.(pendingFdt := None));
      UnrelatedKeeps(h, g, w);
      ReadyAs(g, w, c);
      SelectedKeeps(Put(g, w, c), w, ch);
    }
  }

  lemma Gives(h: Hw, w: Who)
    requires Ready(h, w)
    ensures FreeWire(h.t) && Has(h, w) && h.k.owner == w && !CoordOf(h, w).waiting.On?
    ensures Local(h, w, CoordOf(h, w)) && h.d.generation == h.d.reference
  {
  }

  lemma SelectedKeeps(h: Hw, w: Who, ch: Choice)
    requires Ready(h, w) && CoordOf(h, w).st.DispatchEvent?
    ensures Inv(Selected(h, w, ch))
  {
    hide Inv, Base, WakeOk, Control, HandleRelease, StartDelay, Jump, NextState;
    Gives(h, w);
    var c := CoordOf(h, w);
    match c.evt
    case Esd => JumpsKeeps(h, w, EsdRepair);
    case Wake => JumpsKeeps(h, w, if ch.waitUp then RecoveryArmUp else RearmDown);
    case Deactivate => StartOpKeeps(h, w, OpDelay);
    case Config =>
      if h.d.captureMode.On? { JumpsKeeps(h, w, RestoreConfig); }
      else { JumpKeeps(h, w, c.(dispatching := Off), WaitEvent); }
    case Down =>
      var g := h.(d := h.d.(healthComplete := Off));
      UnrelatedKeeps(h, g, w);
      Gives(g, w);
      NextKeeps(g, w);
    case _ => ReleaseKeeps(h, w, ch);
  }

  lemma NextKeeps(h: Hw, w: Who)
    requires Ready(h, w) && Local(h, w, CoordOf(h, w).(st := Successor(CoordOf(h, w).st)))
    ensures Inv(NextState(h, w))
  {
    hide Inv, Base, WakeOk, Control, Local, Jump, Successor;
    JumpsKeeps(h, w, Successor(CoordOf(h, w).st));
  }

  lemma ReleaseKeeps(h: Hw, w: Who, ch: Choice)
    requires Ready(h, w) && CoordOf(h, w).st.DispatchEvent?
    ensures Inv(HandleRelease(h, w, ch))
  {
    hide Inv, Base, WakeOk, Control, PrepareRefresh, Jump;
    Gives(h, w);
    var c0 := CoordOf(h, w);
    var c := c0.(released := c0.cycle);
    ReadyAs(h, w, c);
    var g := Put(h, w, c);
    forall r: Reason | !r.NoReason? ensures Inv(PrepareRefresh(g, w, r)) { RefreshKeeps(g, w, r); }
    JumpKeeps(h, w, c.(reason := NoReason), UpHealth);
  }

  lemma RefreshKeeps(h: Hw, w: Who, reason: Reason)
    requires Ready(h, w) && !reason.NoReason?
    requires CoordOf(h, w).st.DispatchEvent? || CoordOf(h, w).st.DownValidate?
    ensures Inv(PrepareRefresh(h, w, reason))
  {
    hide Inv, Base, WakeOk, Control, Jump;
    Gives(h, w);
    var c := CoordOf(h, w).(reason := reason);
    if c.cpuOut.On? { JumpKeeps(h, w, c.(deferred := On, dispatching := Off), WaitCpu); }
    else { JumpKeeps(h, w, c, Refresh); }
  }

  lemma DownValidateKeeps(h: Hw, w: Who, ch: Choice)
    requires Ready(h, w) && CoordOf(h, w).st.DownValidate?
    ensures Inv(HandleDownValidate(h, w, ch))
  {
    hide Inv, Base, WakeOk, Control, PrepareRefresh, Jump, MarkFailed;
    Gives(h, w);
    var c := CoordOf(h, w);
    assert Put(h, w, c) == h;
    if ch.startFails { FailKeeps(h, w, c, OtherFault); }
    else if ch.falseDown { RefreshKeeps(h, w, FalseDown); }
    else if !h.d.captureMode.On? || !h.d.capturePending.On? || c.cycle.On? { JumpsKeeps(h, w, RecoveryArmUp); }
    else if !h.d.reference.On? { JumpKeeps(h, w, c.(recovering := On), RecoveryArmUp); }
    else {
      IdleNeverCaptures(h, w);
      JumpsKeeps(h, w, Capture);
    }
  }

  /** Idle and health-wait coordinators never find a live capture request. */
  lemma IdleNeverCaptures(h: Hw, w: Who)
    requires Ready(h, w) && h.d.capturePending.On? && !IsCleanup(CoordOf(h, w).st)
    ensures w.Main? && CoordOf(h, w).parent.On? && !CoordOf(h, w).idle.On?
  {
  }

  lemma RearmDoneKeeps(h: Hw, w: Who)
    requires Ready(h, w) && CoordOf(h, w).st.RearmDownDone?
    ensures Inv(HandleRearmDone(h, w))
  {
    hide Inv, Base, WakeOk, Control, Jump;
    Gives(h, w);
    var c := CoordOf(h, w).(dispatching := Off);
    if h.d.pendingFdt.Some? || c.stop.On? || !c.released.On? { JumpKeeps(h, w, c, WaitEvent); }
    else if c.cpuDone.On? { JumpKeeps(h, w, c, CycleSettled); }
    else { JumpKeeps(h, w, c, WaitCpu); }
  }

  /** A captured frame goes to the CPU worker while the up-arm command runs. */
  lemma ArmUpKeeps(h: Hw, w: Who, ch: Choice)
    requires Ready(h, w) && CoordOf(h, w).st.ArmUp?
    ensures Inv(HandleArmUp(h, w, ch))
  {
    hide Inv, Base, WakeOk, Control, StartOp;
    Gives(h, w);
    ActionCaptures(h, w);
    var c := CoordOf(h, w).(cycle := On, released := Off, cpuDone := Off);
    if c.stop.On? {
      ArmUpStarted(h, w, c, 0);
    } else if ch.jobFails {
      ArmUpStarted(h, w, c.(cpuDone := On, disp := Fatal, stop := On, stopErr := Some(OtherFault)), 0);
    } else {
      ArmUpStarted(h, w, c.(cpuOut := On), 1);
    }
  }

  lemma ActionCaptures(h: Hw, w: Who)
    requires Ready(h, w) && (CoordOf(h, w).st.Capture? || CoordOf(h, w).st.ArmUp?)
    ensures w.Main? && CoordOf(h, w).parent.On? && h.jobs == 0
  {
  }

  lemma ArmUpStarted(h: Hw, w: Who, c: Coord, jobs: nat)
    requires Ready(h, w) && CoordOf(h, w).st.ArmUp? && w.Main? && CoordOf(h, w).parent.On?
    requires MayBecome(h, w, c.(cpuOut := CoordOf(h, w).cpuOut)) && c.st.ArmUp?
    requires KindOk(c) && FlagsOk(c, Some(OpArm)) && jobs == if c.cpuOut.On? then 1 else 0
    ensures Inv(StartOp(Put(h.(d := h.d.(capturePending := Off), jobs := jobs), w, c), w, OpArm))
  {
  }

  lemma TokenReady(h: Hw, w: Who, a: Action)
    requires Ready(h, w) && a == h.a.(token := On, coreCancelled := a.coreCancelled)
    ensures Ready(h.(a := a), w)
  {
  }

  lemma CycleSettledKeeps(h: Hw, w: Who, ch: Choice)
    requires Ready(h, w) && CoordOf(h, w).st.CycleSettled? && !CoordOf(h, w).stop.On?
    ensures Inv(HandleCycleSettled(h, w, ch))
  {
    hide Inv, Base, WakeOk, Control, MaybeFinish, CancelEventWait;
    Gives(h, w);
    SettledOwner(h, w);
    var c := CoordOf(h, w);
    var g := h.(a := h.a.(coreCancelled := On));
    if h.a.enroll.On? && ch.appCancels && !h.a.token.On? {
      var g1 := g.(a := g.a.(token := On));
      TokenReady(h, w, g1.a);
      MaybeFinishKeeps(g1, w, c.(stop := On, stopErr := Some(IoCancelled)));
      FinishStops(Put(g1, w, c.(stop := On, stopErr := Some(IoCancelled))), w);
    } else if h.a.enroll.On? && ch.appCancels {
      TokenReady(h, w, g.a);
      AfterSettled(g, w);
    } else {
      AfterSettled(h, w);
    }
  }

  lemma SettledOwner(h: Hw, w: Who)
    requires Ready(h, w) && CoordOf(h, w).st.CycleSettled?
    ensures w.Main? && CoordOf(h, w).parent.On?
  {
  }

  lemma FinishStops(h: Hw, w: Who)
    requires Has(h, w) && CoordOf(h, w).stop.On? && !IsCleanup(CoordOf(h, w).st)
    ensures Has(MaybeFinish(h, w), w) && CoordOf(MaybeFinish(h, w), w).stop.On?
  {
  }

  lemma AfterSettled(h: Hw, w: Who)
    requires Ready(h, w) && CoordOf(h, w).st.CycleSettled? && !CoordOf(h, w).stop.On?
    ensures Inv(Settled(h, w))
  {
    hide Inv, Base, WakeOk, Control, Jump;
    Gives(h, w);
    var c := CoordOf(h, w);
    if c.disp.EnrollContinue? {
      NextCaptureReady(h, w);
      var g := h.(d := h.d.(unread := 2, capturePending := On));
      JumpKeeps(g, w, c.(cycle := Off, released := Off, cpuDone := Off), WaitEvent);
    } else {
      JumpsKeeps(h, w, CleanupJoin);
    }
  }

  lemma NextCaptureReady(h: Hw, w: Who)
    requires Ready(h, w) && CoordOf(h, w).st.CycleSettled?
    ensures Ready(h.(d := h.d.(unread := 2, capturePending := On)), w)
  {
  }

  lemma ParkedKeeps(h: Hw, w: Who)
    requires Ready(h, w)
    requires var c := CoordOf(h, w); c.cpuOut.On? && (c.st.WaitCpu? || c.st.CleanupJoin?)
    ensures Inv(h)
  {
  }

  lemma CleanupJoinKeeps(h: Hw, w: Who)
    requires Ready(h, w) && CoordOf(h, w).st.CleanupJoin?
    ensures Inv(HandleCleanupJoin(h, w))
  {
    hide Inv, Base, WakeOk, Control, CoordinatorDone, DetachAction, CancelEventWait;
    var h1 := h.(k := h.k.(lifecycle := Stopping));
    StoppingReady(h, w);
    Gives(h1, w);
    var c := CoordOf(h1, w);
    if c.idle.On? {
      CoordinatorDoneKeeps(h1, w);
    } else if c.cpuOut.On? {
      JoiningOwner(h1, w);
      if h1.a.token.On? {
        ParkedKeeps(h1, w);
      } else {
        var c1 := if c.stop.On? then c.(stopErr := if c.stopErr.None? then Some(IoCancelled) else c.stopErr)
                  else c.(stop := On, stopErr := Some(IoCancelled));
        TokenReady(h1, w, h1.a.(token := On));
        var g := h1.(a := h1.a.(token := On));
        ReadyAs(g, w, c1);
        ParkedKeeps(Put(g, w, c1), w);
      }
    } else {
      DetachKeeps(h1, w);
    }
  }

  lemma StoppingReady(h: Hw, w: Who)
    requires Ready(h, w)
    ensures Ready(h.(k := h.k.(lifecycle := Stopping)), w)
  {
  }

  lemma JoiningOwner(h: Hw, w: Who)
    requires Ready(h, w) && CoordOf(h, w).cpuOut.On?
    ensures w.Main? && CoordOf(h, w).parent.On?
  {
  }

  lemma CleanupHealthKeeps(h: Hw, w: Who)
    requires Ready(h, w) && CoordOf(h, w).st.CleanupHealth?
    ensures Inv(HandleCleanupHealth(h, w))
  {
    hide Inv, Base, WakeOk, Control, Jump, StartHealthWait;
    var h1 := h.(d := h.d.(pendingFdt := Some(Deactivate), capturePending := Off));
    TailReady(h, w);
    Gives(h1, w);
    if h.d.healthComplete.On? {
      NextKeeps(h1, w);
    } else {
      HealthWaitKeeps(h1, w);
    }
  }

  lemma TailReady(h: Hw, w: Who)
    requires Ready(h, w) && CoordOf(h, w).st.CleanupHealth?
    ensures Ready(h.(d := h.d.(pendingFdt := Some(Deactivate), capturePending := Off)), w)
    ensures h.k.main.Some? && w.Main?
  {
  }

  lemma HealthWaitKeeps(h: Hw, w: Who)
    requires Ready(h, w) && CoordOf(h, w).st.CleanupHealth? && !h.d.capturePending.On?
    ensures Inv(StartHealthWait(h))
  {
  }

  lemma OperationKeeps(h: Hw, g: Hw, w: Who, op: Op)
    requires Ready(h, w) && Unrelated(h, g) && OpFits(op, CoordOf(h, w).st) && !op.OpGtls?
    requires !CoordOf(h, w).st.ArmUp? && (op.OpEnsure? ==> !CoordOf(h, w).idle.On?)
    ensures Inv(StartOp(g, w, op))
  {
    hide Inv, Base, WakeOk, Control, StartOp, OpFits;
    UnrelatedKeeps(h, g, w);
    StartOpKeeps(g, w, op);
  }

  /** One run of a coordinator's handler. */
  lemma HandleKeeps(h: Hw, w: Who, ch: Choice)
    requires Ready(h, w)
    ensures Inv(Handle(h, w, ch))
  {
    hide Inv, Base, WakeOk, Control, MaybeFinish, StartOp;
    Gives(h, w);
    var c := CoordOf(h, w);
    if !IsCleanup(c.st) && !c.st.WaitEvent? && c.stop.On? && !c.dispatching.On? && !c.waiting.On? {
      StoppedKeeps(h, w);
    } else if BeforeEvent(c.st) {
      BeforeEventKeeps(h, w, ch);
    } else if IsCleanup(c.st) {
      CleanupKeeps(h, w, ch);
    } else if Commands(c.st) {
      CommandKeeps(h, w, ch);
    } else {
      DispatchingKeeps(h, w, ch);
    }
  }

  lemma StoppedKeeps(h: Hw, w: Who)
    requires Ready(h, w)
    requires var c := CoordOf(h, w);
      !IsCleanup(c.st) && !c.st.WaitEvent? && c.stop.On? && !c.dispatching.On? && !c.waiting.On?
    ensures Inv(MaybeFinish(h, w))
  {
    hide Inv, Base, WakeOk, Control;
    Gives(h, w);
    var c := CoordOf(h, w);
    assert Put(h, w, c) == h;
    if c.st.WaitCpu? {
      ParkedKeeps(h, w);
    } else {
      MaybeFinishKeeps(h, w, c);
    }
  }

  predicate BeforeEvent(st: ScanState) {
    st.EnsureReference? || st.EnsureReferenceDone? || st.PowerOn? || st.ArmDown? || st.WaitEvent?
  }

  /** States that hand one command or sub-machine to the transport. */
  predicate Commands(st: ScanState) {
    st.DownManual? || st.Capture? || st.RecoveryArmUp? || st.Refresh? || st.UpHealth? || st.RearmDown?
    || st.RestoreConfig? || st.EsdRepair? || st.DeactivateEc?
  }

  lemma BeforeEventKeeps(h: Hw, w: Who, ch: Choice)
    requires Ready(h, w) && BeforeEvent(CoordOf(h, w).st)
    requires CoordOf(h, w).st.WaitEvent? || !CoordOf(h, w).stop.On?
    ensures Inv(Handle(h, w, ch))
  {
    hide Inv, Base, WakeOk, Control, MaybeFinish, StartOp, HandleWaitEvent, Jump, NextState, MarkFailed;
    Gives(h, w);
    var c := CoordOf(h, w);
    assert Put(h, w, c) == h;
    if c.st.EnsureReference? {
      if c.idle.On? { JumpsKeeps(h, w, WaitEvent); }
      else if h.d.generation.On? || h.d.recovery.On? { NextKeeps(h, w); }
      else if ch.startFails { FailKeeps(h, w, c, OtherFault); }
      else { OperationKeeps(h, h.(d := h.d.(recovery := Off)), w, OpEnsure); }
    } else if c.st.EnsureReferenceDone? {
      if h.d.generation.On? { NextKeeps(h, w); }
      else if !h.d.recovery.On? { FailKeeps(h, w, c, OtherFault); }
      else {
        ReadyAs(h, w, c.(recovering := On));
        NextKeeps(Put(h, w, c.(recovering := On)), w);
      }
    } else if c.st.PowerOn? {
      StartOpKeeps(h, w, OpPowerOn);
    } else if c.st.ArmDown? {
      StartOpKeeps(h, w, OpArm);
    } else {
      WaitEventKeeps(h, w, ch);
    }
  }

  lemma CommandKeeps(h: Hw, w: Who, ch: Choice)
    requires Ready(h, w) && Commands(CoordOf(h, w).st)
    ensures Inv(Handle(h, w, ch))
  {
    hide Inv, Base, WakeOk, Control, MaybeFinish, StartOp, Jump, NextState, MarkFailed, StartRefresh;
    Gives(h, w);
    var c := CoordOf(h, w);
    if c.st.DownManual? {
      StartOpKeeps(h, w, OpManual);
    } else if c.st.Capture? {
      StartOpKeeps(h, w, OpCapture);
    } else if c.st.RecoveryArmUp? {
      ReadyAs(h, w, c.(dispatching := On));
      StartOpKeeps(Put(h, w, c.(dispatching := On)), w, OpArm);
    } else if c.st.Refresh? {
      RefreshStartKeeps(h, w, ch);
    } else if c.st.UpHealth? {
      if c.evt.Up? && h.d.reference.On? { StartOpKeeps(h, w, OpHealthPair); } else { NextKeeps(h, w); }
    } else if c.st.RearmDown? {
      StartOpKeeps(h, w, OpArm);
    } else if c.st.RestoreConfig? {
      StartOpKeeps(h, w, OpRestore);
    } else if c.st.EsdRepair? {
      StartOpKeeps(h, w, OpEsd);
    } else {
      StartOpKeeps(h, w, OpEcOff);
    }
  }

  lemma RefreshStartKeeps(h: Hw, w: Who, ch: Choice)
    requires Ready(h, w) && CoordOf(h, w).st.Refresh?
    ensures Inv(StartRefresh(h, w, ch))
  {
    hide Inv, Base, WakeOk, Control, StartOp, MarkFailed;
    Gives(h, w);
    if ch.startFails {
      var g := h.(s := h.s.(reinit := On));
      UnrelatedKeeps(h, g, w);
      Gives(g, w);
      FailKeeps(g, w, CoordOf(g, w), OtherFault);
      assert Put(g, w, CoordOf(g, w)) == g;
    } else {
      StartOpKeeps(h, w, OpRefresh);
    }
  }

  lemma DispatchingKeeps(h: Hw, w: Who, ch: Choice)
    requires Ready(h, w)
    requires var c := CoordOf(h, w);
      && !BeforeEvent(c.st) && !IsCleanup(c.st) && !Commands(c.st)
      && !(c.stop.On? && !c.dispatching.On? && !c.waiting.On?)
    ensures Inv(Handle(h, w, ch))
  {
    hide Inv, Base, WakeOk, Control, MaybeFinish, StartOp, Jump, NextState, HandleDispatch, HandleDownValidate,
         HandleArmUp, HandleRearmDone, HandleCycleSettled;
    Gives(h, w);
    var c := CoordOf(h, w);
    if c.st.DispatchEvent? {
      DispatchKeeps(h, w, ch);
    } else if c.st.DownValidate? {
      DownValidateKeeps(h, w, ch);
    } else if c.st.ArmUp? {
      ArmUpKeeps(h, w, ch);
    } else if c.st.ArmUpDone? {
      JumpKeeps(h, w, c.(dispatching := Off), WaitEvent);
    } else if c.st.RecoveryArmUpDone? {
      JumpKeeps(h, w, c.(dispatching := Off), WaitEvent);
    } else if c.st.RefreshDone? {
      var c1 := c.(reason := NoReason, recovering := ToFlag(c.recovering.On? && !h.d.generation.On?));
      ReadyAs(h, w, c1);
      NextKeeps(Put(h, w, c1), w);
    } else if c.st.RearmDownDone? {
      RearmDoneKeeps(h, w);
    } else if c.st.EsdDone? {
      JumpKeeps(h, w, c.(dispatching := Off), WaitEvent);
    } else if c.st.DeactivateEcDone? {
      JumpKeeps(h, w, c.(dispatching := Off), WaitEvent);
    } else if c.st.WaitCpu? {
      ParkedKeeps(h, w);
    } else {
      CycleSettledKeeps(h, w, ch);
    }
  }

  lemma CleanupKeeps(h: Hw, w: Who, ch: Choice)
    requires Ready(h, w) && IsCleanup(CoordOf(h, w).st)
    ensures Inv(Handle(h, w, ch))
  {
    hide Inv, Base, WakeOk, Control, StartOp, HandleCleanupJoin, HandleCleanupHealth, MarkFailed, CoordinatorDone,
         NextState, Jump;
    Gives(h, w);
    var c := CoordOf(h, w);
    if c.st.CleanupJoin? {
      CleanupJoinKeeps(h, w);
    } else if c.st.CleanupHealth? {
      CleanupHealthKeeps(h, w);
    } else if c.st.CleanupSleep? {
      OperationKeeps(h, h.(d := h.d.(healthComplete := On)), w, OpSleep);
    } else {
      if c.stopErr.Some? {
        FailsDone(h, w, c.stopErr.value);
      } else {
        CoordinatorDoneKeeps(h, w);
      }
    }
  }

  lemma FailsDone(h: Hw, w: Who, e: Err)
    requires Ready(h, w) && CoordOf(h, w).st.CleanupDone?
    ensures Inv(MarkFailed(Put(h, w, CoordOf(h, w).(stopErr := None)), w, e))
  {
    hide Inv, Base, WakeOk, Control, CoordinatorDone, NextState, Jump;
    Gives(h, w);
    var c := WithFailure(CoordOf(h, w).(stopErr := None), e);
    ReadyAs(h, w, c);
    CoordinatorDoneKeeps(Put(h, w, c), w);
    assert Put(Put(h, w, CoordOf(h, w).(stopErr := None)), w, c) == Put(h, w, c);
  }

  // -------------------------------------------------------- Finished operations

  /** The completed operation has left the wire. */
  function Ended(h: Hw): Hw {
    h.(t := h.t.(op := None, opOwner := Nobody, wire := WireIdle))
  }

  predicate OpOwned(h: Hw, w: Who) {
    Inv(h) && h.agenda.Empty? && h.t.op.Some? && !SessionOp(h.t.op.value) && h.t.opOwner == w
  }

  /** The owner as it stands once its operation has ended: an up-arm issued
      for a capture no longer counts as the capture's own state. */
  function Landed(c: Coord): Coord {
    if c.st.ArmUp? then c.(st := ArmUpDone) else c
  }

  lemma EndedReady(h: Hw, w: Who)
    requires OpOwned(h, w) && !h.t.op.value.OpGtls?
    ensures Has(h, w) && OpFits(h.t.op.value, CoordOf(h, w).st) && h.a.phase != Returning
    ensures Ready(Put(Ended(h), w, Landed(CoordOf(h, w))), w)
    ensures CoordOf(h, w).st.Capture? ==> h.d.unread > 0
    ensures h.t.op.value.OpEnsure? ==> !CoordOf(h, w).idle.On?
  {
  }

  lemma GtlsEndedReady(h: Hw, w: Who)
    requires OpOwned(h, w) && h.t.op.value.OpGtls?
    ensures Has(h, w) && CoordOf(h, w).st.WaitEvent?
    ensures var g := Ended(h);
      Ready(Put(g.(d := g.d.(gtlsActive := Off)), w, CoordOf(h, w).(dispatching := Off)), w)
  {
  }

  /** A landed owner moves on to another state. */
  lemma LandedJump(h: Hw, w: Who, c: Coord, st: ScanState)
    requires Has(h, w) && Ready(Put(h, w, Landed(CoordOf(h, w))), w)
    requires MayBecome(h, w, c) && Local(Put(h, w, Landed(CoordOf(h, w))), w, c.(st := st))
    ensures Inv(Jump(Put(h, w, c), w, st))
  {
    hide Inv, Base, WakeOk, Control, Local, Jump;
    var g := Put(h, w, Landed(CoordOf(h, w)));
    JumpKeeps(g, w, c, st);
    assert Put(g, w, c) == Put(h, w, c);
  }

  lemma LandedFail(h: Hw, w: Who, e: Err)
    requires Has(h, w) && Ready(Put(h, w, Landed(CoordOf(h, w))), w)
    requires !CoordOf(h, w).st.WaitCpu?
    requires IsCleanup(CoordOf(h, w).st) ==> CoordOf(h, w).st.CleanupSleep? && h.a.phase != Returning
    ensures Inv(MarkFailed(h, w, e))
  {
    hide Inv, Base, WakeOk, Control, Jump, CoordinatorDone;
    var c := CoordOf(h, w);
    var g := Put(h, w, Landed(c));
    Gives(g, w);
    assert Put(g, w, c) == h by { assert Put(h, w, c) == h; }
    if IsCleanup(c.st) {
      var f := WithFailure(c, e);
      LandedJump(h, w, f, CleanupDone);
    } else {
      FailKeeps(g, w, c, e);
    }
  }

  lemma LandedNext(h: Hw, w: Who)
    requires Has(h, w) && Ready(Put(h, w, Landed(CoordOf(h, w))), w)
    requires Local(Put(h, w, Landed(CoordOf(h, w))), w, CoordOf(h, w).(st := Successor(CoordOf(h, w).st)))
    ensures Inv(NextState(h, w))
  {
    hide Inv, Base, WakeOk, Control, Local, Jump, Successor;
    LandedJump(h, w, CoordOf(h, w), Successor(CoordOf(h, w).st));
    assert Put(h, w, CoordOf(h, w)) == h;
  }

  /** Facts a completed operation may change without touching ownership. */
  lemma UnrelatedLanded(h: Hw, g: Hw, w: Who)
    requires Unrelated(h, g) && Has(h, w) && Ready(Put(h, w, Landed(CoordOf(h, w))), w)
    ensures Has(g, w) && CoordOf(g, w) == CoordOf(h, w) && Ready(Put(g, w, Landed(CoordOf(g, w))), w)
  {
    hide Inv, Base, WakeOk, Control, Ready;
    UnrelatedKeeps(Put(h, w, Landed(CoordOf(h, w))), Put(g, w, Landed(CoordOf(g, w))), w);
  }

  lemma ReferenceReady(h: Hw, w: Who)
    requires Has(h, w) && Ready(Put(h, w, Landed(CoordOf(h, w))), w)
    ensures var g := h.(d := h.d.(generation := On, reference := On, recovery := Off));
      Ready(Put(g, w, Landed(CoordOf(g, w))), w)
  {
  }

  /** After an operation of a coordinator has ended and landed. */
  predicate OpEnded(h: Hw, w: Who, op: Op) {
    && Has(h, w) && OpFits(op, CoordOf(h, w).st) && !op.OpGtls? && h.a.phase != Returning
    && Ready(Put(h, w, Landed(CoordOf(h, w))), w)
    && (CoordOf(h, w).st.Capture? ==> h.d.unread > 0)
    && (op.OpEnsure? ==> !CoordOf(h, w).idle.On?)
  }

  lemma OpSucceeds(h: Hw, w: Who, op: Op)
    requires OpEnded(h, w, op) && !op.OpCapture? && !op.OpRestore? && !op.OpDelay? && !op.OpManual?
    ensures Inv(NextState(h, w))
  {
    hide Inv, Base, WakeOk, Control, Jump, NextState;
    Gives(Put(h, w, Landed(CoordOf(h, w))), w);
    LandedNext(h, w);
  }

  lemma OpLeads(h: Hw, w: Who, op: Op)
    requires OpEnded(h, w, op)
    ensures op.OpManual? ==> Inv(NextState(h, w))
    ensures op.OpManual? ==> Inv(Jump(Put(h, w, CoordOf(h, w).(dispatching := Off)), w, WaitEvent))
    ensures op.OpRestore? || op.OpCapture? ==> Inv(Jump(h, w, RearmDown))
    ensures op.OpDelay? ==> Inv(Jump(h, w, DeactivateEc))
  {
    hide Inv, Base, WakeOk, Control, Jump, NextState;
    Gives(Put(h, w, Landed(CoordOf(h, w))), w);
    var c := CoordOf(h, w);
    assert Put(h, w, c) == h;
    if op.OpManual? {
      LandedNext(h, w);
      LandedJump(h, w, c.(dispatching := Off), WaitEvent);
    } else if op.OpRestore? || op.OpCapture? {
      LandedJump(h, w, c, RearmDown);
    } else if op.OpDelay? {
      LandedJump(h, w, c, DeactivateEc);
    }
  }

  lemma FrameKept(h: Hw, w: Who)
    requires OpEnded(h, w, OpCapture)
    ensures Inv(NextState(h.(d := h.d.(unread := 0)), w))
  {
    hide Inv, WakeOk;
    CaptureLands(h, w);
    HandlerPushed(Put(h.(d := h.d.(unread := 0)), w, CoordOf(h, w).(st := ArmUp)), w);
  }

  lemma CaptureLands(h: Hw, w: Who)
    requires OpEnded(h, w, OpCapture)
    ensures Ready(Put(h.(d := h.d.(unread := 0)), w, CoordOf(h, w).(st := ArmUp)), w)
  {
  }

  lemma FramesLeft(h: Hw, w: Who, left: nat)
    requires OpEnded(h, w, OpCapture)
    ensures OpEnded(h.(d := h.d.(unread := if 0 < left <= h.d.unread then left else h.d.unread)), w, OpCapture)
  {
  }

  lemma OpUnrelated(h: Hw, g: Hw, w: Who, op: Op)
    requires OpEnded(h, w, op) && Unrelated(h, g)
    ensures OpEnded(g, w, op)
  {
    hide Inv, Base, WakeOk, Control, Ready;
    UnrelatedLanded(h, g, w);
  }

  lemma OpReferenced(h: Hw, w: Who, op: Op)
    requires OpEnded(h, w, op)
    ensures OpEnded(h.(d := h.d.(generation := On, reference := On, recovery := Off)), w, op)
  {
    hide Inv, Base, WakeOk, Control, Ready;
    ReferenceReady(h, w);
  }

  lemma OpFails(h: Hw, w: Who, op: Op, out: Outcome)
    requires OpEnded(h, w, op) && out.Failed?
    ensures Inv(CoordOpDone(h, w, op, out))
  {
    hide Inv, Base, WakeOk, Control, MarkFailed;
    var g := h.(s := h.s.(reinit := ToFlag(h.s.reinit.On? || out.broken)),
                d := h.d.(recovery := ToFlag(h.d.recovery.On? || (op.OpEnsure? && out.image))));
    OpUnrelated(h, g, w, op);
    LandedFail(g, w, out.err);
  }

  lemma OpOrdinary(h: Hw, w: Who, op: Op, out: Outcome)
    requires OpEnded(h, w, op) && out.Ordinary?
    ensures Inv(CoordOpDone(h, w, op, out))
  {
    hide Inv, Base, WakeOk, Control, MarkFailed, NextState, Jump, Ready, OpEnded;
    var r := h.(d := h.d.(recovery := On));
    var m := h.(d := h.d.(captureMode := Off));
    var y := h.(d := h.d.(healthComplete := On));
    var i := h.(s := h.s.(reinit := On));
    OpUnrelated(h, r, w, op);
    OpUnrelated(h, m, w, op);
    OpUnrelated(h, y, w, op);
    OpUnrelated(h, i, w, op);
    if op.OpPowerOn? {
      LandedFails(i, w, op, UsbFault);
    } else if op.OpCapture? {
      FramesLeft(h, w, out.left);
      OpLeads(h.(d := h.d.(unread := if 0 < out.left <= h.d.unread then out.left else h.d.unread)), w, op);
      StateOf(h, w, op);
    } else if op.OpManual? || op.OpRestore? || op.OpDelay? {
      OpLeads(h, w, op);
    } else {
      OpSucceeds(h, w, op);
      OpSucceeds(r, w, op);
      OpSucceeds(m, w, op);
      OpSucceeds(y, w, op);
      StateOf(h, w, op);
    }
  }

  lemma StateOf(h: Hw, w: Who, op: Op)
    requires OpEnded(h, w, op)
    ensures !op.OpGtls? && (op.OpCapture? ==> CoordOf(h, w).st.Capture?)
  {
  }

  lemma LandedFails(h: Hw, w: Who, op: Op, e: Err)
    requires OpEnded(h, w, op)
    ensures Inv(MarkFailed(h, w, e))
  {
    hide Inv, Base, WakeOk, Control, MarkFailed, Ready;
    LandedFail(h, w, e);
  }

  lemma OpDoneWell(h: Hw, w: Who, op: Op, out: Outcome)
    requires OpEnded(h, w, op) && out.Done?
    ensures Inv(CoordOpDone(h, w, op, out))
  {
    hide Inv, Base, WakeOk, Control, MarkFailed, NextState, Jump, Ready, OpEnded;
    var r := h.(d := h.d.(recovery := On));
    var m := h.(d := h.d.(captureMode := Off));
    var y := h.(d := h.d.(healthComplete := On));
    OpUnrelated(h, r, w, op);
    OpUnrelated(h, m, w, op);
    OpUnrelated(h, y, w, op);
    OpReferenced(h, w, op);
    StateOf(h, w, op);
    if op.OpCapture? {
      FrameKept(h, w);
    } else if op.OpManual? || op.OpRestore? || op.OpDelay? {
      OpLeads(h, w, op);
    } else {
      OpSucceeds(h.(d := h.d.(generation := On, reference := On, recovery := Off)), w, op);
      OpSucceeds(h, w, op);
      OpSucceeds(r, w, op);
      OpSucceeds(m, w, op);
      OpSucceeds(y, w, op);
    }
  }

  lemma GtlsEnds(h: Hw, w: Who, err: Option<Err>)
    requires Has(h, w) && CoordOf(h, w).st.WaitEvent? && Ready(Put(h, w, CoordOf(h, w).(dispatching := Off)), w)
    ensures Inv(GtlsRestarted(h, w, err))
  {
    hide Inv, Base, WakeOk, CancelEventWait, Jump;
    var c := CoordOf(h, w).(dispatching := Off);
    var g := Put(h, w, c);
    Gives(g, w);
    if err.Some? {
      var c1 := if c.stop.On? then c.(stopErr := if c.stopErr.None? then err else c.stopErr)
                else c.(stop := On, stopErr := err);
      MaybeFinishKeeps(g, w, c1);
    } else {
      JumpsKeeps(g, w, WaitEvent);
    }
  }

  lemma OpDoneKeeps(h: Hw, out: Outcome)
    requires Inv(h) && h.agenda.Empty? && h.t.op.Some? && !SessionOp(h.t.op.value)
    ensures Inv(OpDone(h, out))
  {
    hide Base, WakeOk, Control, Ready, MarkFailed, NextState, Jump, GtlsRestarted;
    var w := h.t.opOwner;
    OpHasOwner(h);
    var op := h.t.op.value;
    var g := Ended(h);
    if op.OpGtls? {
      GtlsEndedReady(h, w);
      GtlsEndsAs(g, w, out);
    } else {
      EndedReady(h, w);
      hide Inv, CoordOpDone;
      OpEndsAs(g, w, op, out);
    }
  }

  lemma OpHasOwner(h: Hw)
    requires Inv(h) && h.agenda.Empty? && h.t.op.Some? && !SessionOp(h.t.op.value)
    ensures Has(h, h.t.opOwner)
  {
  }

  lemma OpEndsAs(h: Hw, w: Who, op: Op, out: Outcome)
    requires OpEnded(h, w, op)
    ensures Inv(CoordOpDone(h, w, op, out))
  {
    hide Inv, OpEnded, CoordOpDone;
    match out
    case Failed(_, _, _) => OpFails(h, w, op, out);
    case Ordinary(_) => OpOrdinary(h, w, op, out);
    case Done(_) => OpDoneWell(h, w, op, out);
  }

  lemma GtlsEndsAs(h: Hw, w: Who, out: Outcome)
    requires Has(h, w) && CoordOf(h, w).st.WaitEvent?
    requires Ready(Put(h.(d := h.d.(gtlsActive := Off)), w, CoordOf(h, w).(dispatching := Off)), w)
    ensures Inv(CoordOpDone(h, w, OpGtls, out))
  {
    hide Inv, Base, WakeOk, Control, Ready, GtlsRestarted;
    var g := h.(d := h.d.(gtlsActive := Off));
    if out.Failed? {
      var g1 := g.(s := g.s.(reinit := On));
      UnrelatedKeeps(Put(g, w, CoordOf(h, w).(dispatching := Off)), Put(g1, w, CoordOf(h, w).(dispatching := Off)), w);
      GtlsEnds(g1, w, Some(out.err));
    } else {
      GtlsEnds(g, w, None);
    }
  }
}
