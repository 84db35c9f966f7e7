/** Every request, session step and external event keeps the ownership invariant. */
module OwnershipSession {
  import opened Common
  import opened Ownership
  import opened OwnershipInvariant
  import opened OwnershipHandlers

  // ----------------------------------------------------- Requests from outside

  /** No handler is about to run: the owner, if any, is waiting, working or parked. */
  predicate Quiescent(h: Hw) {
    Base(h) && Token(h.k, h.t, h.agenda) && Tame(h.agenda)
  }

  /** Waking obligations, with one entry of the call stack about to be run. */
  predicate WakeWith(h: Hw, i: Item) {
    WakeOk(h.s, h.a, h.k, Then(i, h.agenda))
  }

  /** The record a stop request leaves behind. */
  function Told(c: Coord, err: Option<Err>): Coord {
    if c.stop.On? then c.(stopErr := if err.Some? && c.stopErr.None? then err else c.stopErr)
    else c.(stop := On, stopErr := err)
  }

  /** A stop request to a busy owner is noted and at most cancels its event wait. */
  lemma StopNoted(h: Hw, w: Who, err: Option<Err>)
    requires Quiescent(h) && Has(h, w) && (w == h.k.owner || w == Main)
    ensures RequestStop(h, w, err) == Put(h, w, Told(CoordOf(h, w), err)).(t := RequestStop(h, w, err).t)
    ensures RequestStop(h, w, err).t == h.t
         || (h.t.wire.WireEvent? && RequestStop(h, w, err).t == h.t.(wire := WireEvent(true)))
    ensures Quiescent(RequestStop(h, w, err))
  {
    hide Base, Token;
    Owning(h, w);
    StopIs(h, w, err);
    var g := Put(h, w, Told(CoordOf(h, w), err));
    if RequestStop(h, w, err).t == h.t {
      assert RequestStop(h, w, err) == g;
      ToldQuiescent(h, w, err);
    } else {
      assert RequestStop(h, w, err) == g.(t := g.t.(wire := WireEvent(true)));
      CancelQuiescent(h, w, err);
    }
  }

  /** A coordinator that has handed control over has nothing left to finish now. */
  predicate Occupied(h: Hw, w: Who) {
    var c := CoordOf(h, w);
    h.k.owner != w || c.dispatching.On? || c.waiting.On? || h.t.wire != WireIdle
    || (c.cpuOut.On? && (IsCleanup(c.st) || c.st.WaitCpu?))
  }

  lemma Owning(h: Hw, w: Who)
    requires Quiescent(h) && Has(h, w) && (w == h.k.owner || w == Main)
    ensures Occupied(h, w) && (CoordOf(h, w).waiting.On? ==> h.t.wire.WireEvent? && w == h.k.owner)
    ensures CoordOf(h, w).waiting.On? ==> !CoordOf(h, w).dispatching.On?
    ensures !CoordOf(h, w).waiting.On? && w == h.k.owner ==> !h.t.wire.WireEvent?
    ensures CoordOf(h, w).waiting.On? && CoordOf(h, w).stop.On? ==> h.t.wire == WireEvent(true) || Owes(h.agenda, CancelEvent)
  {
  }

  lemma StopIs(h: Hw, w: Who, err: Option<Err>)
    requires Has(h, w) && Occupied(h, w) && (CoordOf(h, w).waiting.On? ==> h.t.wire.WireEvent?)
    requires CoordOf(h, w).waiting.On? ==> !CoordOf(h, w).dispatching.On?
    ensures var g := Put(h, w, Told(CoordOf(h, w), err));
      RequestStop(h, w, err) ==
      if CoordOf(h, w).waiting.On? && !CoordOf(h, w).stop.On? then g.(t := g.t.(wire := WireEvent(true))) else g
  {
    hide MarkCompleted, MarkFailed, Jump;
  }

  lemma ToldQuiescent(h: Hw, w: Who, err: Option<Err>)
    requires Quiescent(h) && Has(h, w) && (w == h.k.owner || w == Main)
    requires CoordOf(h, w).waiting.On? ==> CoordOf(h, w).stop.On? || h.t.wire == WireEvent(true)
    ensures Quiescent(Put(h, w, Told(CoordOf(h, w), err)))
  {
  }

  lemma CancelQuiescent(h: Hw, w: Who, err: Option<Err>)
    requires Quiescent(h) && Has(h, w) && w == h.k.owner && CoordOf(h, w).waiting.On? && h.t.wire.WireEvent?
    ensures var g := Put(h, w, Told(CoordOf(h, w), err)); Quiescent(g.(t := g.t.(wire := WireEvent(true))))
  {
  }

  // --------------------------------------------------------------- Settling

  lemma SettleKeeps(h: Hw, ch: Choice)
    requires Quiescent(h) && WakeWith(h, Settle)
    ensures Inv(SettleOwners(h, ch))
  {
    hide Base, Token, Inv, SettleRest, StartForeground, Reply;
    if h.s.foreground.On? || h.s.service.On? || h.s.draining.On? {
      SettledAlready(h);
    } else if h.s.pending.On? {
      var h1 := h.(s := h.s.(pending := Off));
      if h.s.suspended.On? || h.s.suspending.On? || h.s.joined.Some? || h.a.coreCancelled.On? {
        AnsweredPending(h);
        SettleRestKeeps(Reply(h1));
      } else {
        ForegroundKeeps(h, ch);
      }
    } else {
      SettleRestKeeps(h);
    }
  }

  lemma SettledAlready(h: Hw)
    requires Quiescent(h) && WakeWith(h, Settle)
    requires h.s.foreground.On? || h.s.service.On? || h.s.draining.On?
    ensures Inv(h)
  {
  }

  /** The session between two owners. */
  predicate Unowned(h: Hw) {
    Quiescent(h) && !h.s.foreground.On? && !h.s.service.On? && !h.s.draining.On?
  }

  lemma AnsweredPending(h: Hw)
    requires Unowned(h) && h.s.pending.On?
    ensures Unowned(Reply(h.(s := h.s.(pending := Off)))) && !Reply(h.(s := h.s.(pending := Off))).s.pending.On?
  {
    assert Ids(h.l.nextAction - 1) + [h.l.nextAction - 1] == Ids(h.l.nextAction);
  }

  lemma SettleRestKeeps(h: Hw)
    requires Unowned(h) && !h.s.pending.On?
    ensures Inv(SettleRest(h))
  {
    if h.s.joined.Some? {
      DrainKeeps(h);
    } else if h.s.open.On? && !h.s.reinit.On? && !h.s.suspending.On? && !h.s.suspended.On? {
      ServiceKeeps(h);
    } else {
    }
  }

  lemma ServiceKeeps(h: Hw)
    requires Unowned(h) && !h.s.pending.On? && h.s.joined.None?
    requires h.s.open.On? && !h.s.suspending.On? && !h.s.suspended.On?
    ensures Inv(StartService(h))
  {
  }

  lemma DrainKeeps(h: Hw)
    requires Unowned(h) && !h.s.pending.On? && h.s.joined.Some?
    ensures Inv(TransportQuiesce(h.(s := h.s.(draining := On)), HardwareJoined))
  {
    hide RunJoin;
    WireWhenUnowned(h);
    if !h.t.reader.Running? {
      var g := h.(t := h.t.(reader := NoReader));
      ReaderGone(h);
      JoinedKeeps(g);
      assert TransportQuiesce(h.(s := h.s.(draining := On)), HardwareJoined) == RunJoin(g.(s := g.s.(draining := On)), HardwareJoined);
    }
  }

  lemma WireWhenUnowned(h: Hw)
    requires Unowned(h) && (h.s.joined.Some? || (!h.s.suspending.On? && !h.s.suspended.On?))
    ensures FreeWire(h.t) && h.k.owner == Nobody && h.k.lifecycle == Stopped && h.k.main.None? && h.a.phase == NoAction
  {
  }

  /** The joined continuation runs once, with no reader and nobody on the wire. */
  lemma JoinedKeeps(h: Hw)
    requires Unowned(h) && h.t.reader.NoReader?
    requires !h.s.pending.On? && h.s.joined.Some?
    ensures Inv(RunJoin(h.(s := h.s.(draining := On)), HardwareJoined))
  {
  }

  lemma ReaderGone(h: Hw)
    requires Unowned(h) && FreeWire(h.t)
    ensures Unowned(h.(t := h.t.(reader := NoReader)))
  {
  }

  /** An admitted action: refused setup, reconstruction first, or the scan. */
  lemma ForegroundKeeps(h: Hw, ch: Choice)
    requires Unowned(h) && h.s.pending.On? && h.s.joined.None? && !h.s.suspending.On? && !h.s.suspended.On?
    ensures Inv(StartForeground(h.(s := h.s.(pending := Off)), ch))
  {
    hide Base, Token, Inv, StartCoordinator, TransportQuiesce, ActionDone;
    WireWhenUnowned(h);
    var h0 := h.(s := h.s.(pending := Off));
    var h1 := h0.(s := h0.s.(foreground := On), a := h0.a.(token := Off));
    if h.a.enroll.On? && ch.setupFails {
      RefusedSetup(h);
    } else if h.s.reinit.On? {
      ReinitKeeps(h);
    } else {
      ScanKeeps(h);
    }
  }

  lemma RefusedSetup(h: Hw)
    requires Unowned(h) && h.s.pending.On? && h.s.joined.None?
    ensures Inv(ActionDone(h.(s := h.s.(pending := Off, foreground := On), a := h.a.(token := Off))))
  {
    assert Ids(h.l.nextAction - 1) + [h.l.nextAction - 1] == Ids(h.l.nextAction);
  }

  lemma ReinitKeeps(h: Hw)
    requires Unowned(h) && h.s.pending.On? && h.s.joined.None? && FreeWire(h.t)
    requires !h.s.suspending.On? && !h.s.suspended.On?
    ensures Inv(TransportQuiesce(h.(s := h.s.(pending := Off, foreground := On), a := h.a.(token := Off, phase := Reinitializing)),
                                 ReinitJoined))
  {
  }

  lemma ScanKeeps(h: Hw)
    requires Unowned(h) && h.s.pending.On? && h.s.joined.None? && FreeWire(h.t)
    requires h.k.owner == Nobody && h.k.lifecycle == Stopped && h.k.main.None?
    requires !h.s.suspending.On? && !h.s.suspended.On?
    ensures Inv(StartCoordinator(h.(s := h.s.(pending := Off, foreground := On), a := h.a.(token := Off, phase := Scanning))))
  {
  }

  // ------------------------------------------------------- Session operations

  predicate SessionOwned(h: Hw) {
    Inv(h) && h.agenda.Empty? && h.t.op.Some? && SessionOp(h.t.op.value)
  }

  lemma SessionOpKeeps(h: Hw, out: Outcome)
    requires SessionOwned(h)
    ensures Inv(OpDone(h, out))
  {
    hide Inv, SessionOpDone;
    match h.t.op.value
    case OpReinit => ReinitEnds(h, out);
    case OpSuspendPower => SuspendEnds(h, out);
    case OpResume => ResumeEnds(h, out);
  }

  lemma ReinitEnds(h: Hw, out: Outcome)
    requires SessionOwned(h) && h.t.op.value.OpReinit?
    ensures Inv(SessionOpDone(Ended(h), OpReinit, out))
  {
    hide Inv, StartCoordinator, ActionDone;
    var image := if out.Failed? then out.image else out.Done? && out.image;
    var g := Ended(h);
    var g1 := g.(d := g.d.(generation := ToFlag(image), reference := ToFlag(image),
                           recovery := ToFlag((out.Failed? && g.d.recovery.On?) || !image)));
    if out.Failed? {
      ActionFails(h, g1.d);
    } else {
      ReinitScans(h, g1.d);
    }
  }

  lemma ActionFails(h: Hw, d: Device)
    requires SessionOwned(h) && h.t.op.value.OpReinit? && d.generation == d.reference
    requires d == h.d.(generation := d.generation, reference := d.reference, recovery := d.recovery)
    ensures Inv(ActionDone(Ended(h).(d := d)))
  {
    assert Ids(h.l.nextAction - 1) + [h.l.nextAction - 1] == Ids(h.l.nextAction);
  }

  lemma ReinitScans(h: Hw, d: Device)
    requires SessionOwned(h) && h.t.op.value.OpReinit? && d.generation == d.reference
    requires d == h.d.(generation := d.generation, reference := d.reference, recovery := d.recovery)
    ensures var g := Ended(h);
      Inv(StartCoordinator(g.(d := d, s := g.s.(reinit := Off), a := g.a.(phase := Scanning))))
  {
    if h.a.token.On? {
      ActionFails(h, d);
      var g := Ended(h);
      ActionOver(g.(d := d, s := g.s.(reinit := Off), a := g.a.(phase := Scanning)), g.(d := d));
    } else {
      ReinitAdmits(h, d);
    }
  }

  /** How an action ends does not depend on the phase it was in. */
  lemma ActionOver(h: Hw, g: Hw)
    requires h == g.(s := g.s.(reinit := h.s.reinit), a := g.a.(phase := h.a.phase)) && Inv(ActionDone(g))
    ensures Inv(ActionDone(h))
  {
  }

  lemma ReinitAdmits(h: Hw, d: Device)
    requires SessionOwned(h) && h.t.op.value.OpReinit? && d.generation == d.reference && !h.a.token.On?
    requires d == h.d.(generation := d.generation, reference := d.reference, recovery := d.recovery)
    ensures var g := Ended(h);
      Inv(StartCoordinator(g.(d := d, s := g.s.(reinit := Off), a := g.a.(phase := Scanning))))
  {
  }

  lemma SuspendEnds(h: Hw, out: Outcome)
    requires SessionOwned(h) && h.t.op.value.OpSuspendPower?
    ensures Inv(SessionOpDone(Ended(h), OpSuspendPower, out))
  {
  }

  lemma ResumeEnds(h: Hw, out: Outcome)
    requires SessionOwned(h) && h.t.op.value.OpResume?
    ensures Inv(SessionOpDone(Ended(h), OpResume, out))
  {
  }

  // ------------------------------------------------------------ The call stack

  lemma StopOwnerKeeps(h: Hw, err: Option<Err>)
    requires Quiescent(h) && WakeWith(h, StopCoordinator(err))
    ensures Inv(StopOwner(h, err))
  {
    hide Base, Token, RequestStop;
    if h.k.owner != Nobody {
      OwnerHere(h);
      var w := h.k.owner;
      var g := if CoordOf(h, w).cpuOut.On? then Push(h, CancelToken) else h;
      TokenPushed(h);
      StopNoted(g, w, if err.Some? then err else Some(IoCancelled));
    } else {
      NobodyHome(h);
    }
  }

  lemma NobodyHome(h: Hw)
    requires Quiescent(h) && h.k.owner == Nobody
    ensures h.k.main.None?
  {
  }

  lemma OwnerHere(h: Hw)
    requires Quiescent(h) && h.k.owner != Nobody
    ensures Has(h, h.k.owner)
    ensures h.k.main.Some? && (h.k.main.value.parent.On? || h.k.main.value.idle.On? ==> h.k.owner == Main)
    ensures h.k.owner == Child ==> !h.k.main.value.idle.On? && !h.k.main.value.parent.On?
  {
  }

  lemma TokenPushed(h: Hw)
    requires Quiescent(h)
    ensures Quiescent(Push(h, CancelToken))
  {
  }

  lemma JoinServiceKeeps(h: Hw)
    requires Quiescent(h) && h.s.service.On? && !h.s.foreground.On?
    ensures Inv(JoinService(h))
  {
    hide Base, Token, RequestStop;
    ServiceOwner(h);
    OwnerHere(h);
    StopNoted(h, h.k.owner, None);
  }

  lemma ServiceOwner(h: Hw)
    requires Quiescent(h) && h.s.service.On?
    ensures h.k.owner != Nobody && !h.k.main.None? && !h.k.main.value.parent.On? && !h.s.draining.On?
    ensures h.s.foreground.On? ==> h.a.phase == Returning
  {
  }

  /** Nothing below the running entry is still owed to the waiting requests. */
  predicate Steady(h: Hw) {
    Quiescent(h) && WakeOk(h.s, h.a, h.k, h.agenda)
  }

  lemma RequestKeeps(h: Hw, enroll: bool)
    requires Steady(h) && !h.s.pending.On? && !h.s.foreground.On? && h.s.open.On?
    ensures Inv(RequestAction(h, enroll))
  {
    hide Base, Token, WakeOk, JoinService;
    if h.s.suspending.On? || h.s.suspended.On? || h.s.joined.Some? {
      RequestRefused(h, enroll);
    } else {
      RequestNoted(h, enroll);
      if h.s.service.On? {
        var h1 := h.(l := h.l.(nextAction := h.l.nextAction + 1), a := h.a.(enroll := ToFlag(enroll), coreCancelled := Off));
        JoinServiceKeeps(h1.(s := h1.s.(pending := On)));
      }
    }
  }

  lemma RequestRefused(h: Hw, enroll: bool)
    requires Steady(h) && !h.s.pending.On? && !h.s.foreground.On?
    ensures var h1 := h.(l := h.l.(nextAction := h.l.nextAction + 1), a := h.a.(enroll := ToFlag(enroll), coreCancelled := Off));
      Inv(Reply(h1))
  {
    assert Ids(h.l.nextAction) + [h.l.nextAction] == Ids(h.l.nextAction + 1);
  }

  lemma RequestNoted(h: Hw, enroll: bool)
    requires Steady(h) && !h.s.pending.On? && !h.s.foreground.On? && h.s.open.On?
    requires h.s.joined.None? && !h.s.suspending.On? && !h.s.suspended.On?
    ensures var h1 := h.(l := h.l.(nextAction := h.l.nextAction + 1), a := h.a.(enroll := ToFlag(enroll), coreCancelled := Off));
      var g := h1.(s := h1.s.(pending := On));
      Quiescent(g) && (!h.s.service.On? ==> Inv(Push(g, Settle)))
  {
  }

  lemma CancelKeeps(h: Hw)
    requires Steady(h) && (h.s.pending.On? || h.s.foreground.On?)
    ensures Inv(CancelAction(h))
  {
    var h1 := h.(a := h.a.(coreCancelled := On));
    if h.s.pending.On? {
      assert Ids(h.l.nextAction - 1) + [h.l.nextAction - 1] == Ids(h.l.nextAction);
    } else {
      hide Base, Token, WakeOk;
      assert WakeWith(h1, CancelToken) by { MoreOwed(h, CancelToken); }
      Requested(h);
      TokenKeeps(h1);
    }
  }

  lemma Requested(h: Hw)
    requires Steady(h)
    ensures Quiescent(h.(a := h.a.(coreCancelled := On)))
  {
  }

  lemma MoreOwed(h: Hw, i: Item)
    requires WakeOk(h.s, h.a, h.k, h.agenda)
    ensures WakeWith(h.(a := h.a.(coreCancelled := On)), i) && WakeWith(h, i)
  {
  }

  lemma TokenKeeps(h: Hw)
    requires Quiescent(h) && WakeWith(h, CancelToken)
    ensures Inv(FireToken(h))
  {
    hide Base, Token, RequestStop;
    if !h.a.token.On? {
      var h1 := h.(a := h.a.(token := On));
      TokenTaken(h);
      if h1.k.main.Some? && !h1.k.main.value.idle.On? {
        StopNoted(h1, Main, Some(IoCancelled));
      }
    }
  }

  lemma TokenTaken(h: Hw)
    requires Quiescent(h)
    ensures Quiescent(h.(a := h.a.(token := On)))
  {
  }

  lemma QuiesceKeeps(h: Hw, j: Join, g: Hw)
    requires Inv(h) && h.agenda.Empty? && h.s.joined.None? && j.id == h.l.nextJoin && h.s.open.On?
    requires if j.CloseJoin? then g == h && (h.power.Awake? || h.power.Asleep?) && !h.s.pending.On? && !h.s.foreground.On?
             else g == h.(s := h.s.(suspending := On), power := GoingToSleep) && h.power.Awake?
    ensures Inv(Quiesce(g, j))
  {
    hide Base, Token, WakeOk, JoinService, Inv;
    QuiesceNoted(h, j, g);
    if h.s.service.On? {
      QuiesceTold(h, j, g);
      JoinServiceKeeps(g.(s := g.s.(joined := Some(j)), l := g.l.(nextJoin := g.l.nextJoin + 1)));
    }
  }

  lemma QuiesceTold(h: Hw, j: Join, g: Hw)
    requires Inv(h) && h.agenda.Empty? && h.s.service.On?
    ensures !h.s.foreground.On?
  {
  }

  lemma QuiesceNoted(h: Hw, j: Join, g: Hw)
    requires Inv(h) && h.agenda.Empty? && h.s.joined.None? && j.id == h.l.nextJoin && h.s.open.On?
    requires if j.CloseJoin? then g == h && (h.power.Awake? || h.power.Asleep?) && !h.s.pending.On? && !h.s.foreground.On?
             else g == h.(s := h.s.(suspending := On), power := GoingToSleep) && h.power.Awake?
    ensures var h1 := g.(s := g.s.(joined := Some(j)), l := g.l.(nextJoin := g.l.nextJoin + 1));
      && Quiescent(h1)
      && (!h.s.service.On? && h.s.foreground.On? ==>
            Inv(Push(Push(h1.(a := h1.a.(coreCancelled := On)), StopCoordinator(None)), CancelToken)))
      && (!h.s.service.On? && !h.s.foreground.On? ==> Inv(Push(h1, Settle)))
  {
  }

  // ------------------------------------------------------------- Whole steps

  /** One entry of the call stack runs. */
  lemma ItemKeeps(h: Hw, ch: Choice)
    requires Inv(h) && h.agenda.Then?
    ensures Inv(RunItem(h.(agenda := h.agenda.rest), h.agenda.top, ch))
  {
    hide Inv, RunItem;
    match h.agenda.top
    case Handler(w) => HandlerRuns(h, ch);
    case ChildDone(err) => ChildDoneRuns(h, ch);
    case ParentOutcome(_) => OutcomeRuns(h, ch);
    case AppCallback => CallbackRuns(h, ch);
    case Settle => SettleRuns(h, ch);
    case CancelEvent => CancelEventRuns(h, ch);
    case CancelToken => CancelTokenRuns(h, ch);
    case StopCoordinator(err) => StopRuns(h, ch);
  }

  function Popped(h: Hw): Hw
    requires h.agenda.Then?
  {
    h.(agenda := h.agenda.rest)
  }

  lemma HandlerRuns(h: Hw, ch: Choice)
    requires Inv(h) && h.agenda.Then? && h.agenda.top.Handler?
    ensures Inv(RunItem(Popped(h), h.agenda.top, ch))
  {
    hide Handle;
    HandleKeeps(Popped(h), h.agenda.top.who, ch);
  }

  lemma ChildDoneRuns(h: Hw, ch: Choice)
    requires Inv(h) && h.agenda.Then? && h.agenda.top.ChildDone?
    ensures Inv(RunItem(Popped(h), h.agenda.top, ch))
  {
    hide MarkFailed, NextState;
    var g := Popped(h);
    ParentResumes(h);
    Gives(g, Main);
    if h.agenda.top.err.Some? {
      var c := WithFailure(CoordOf(g, Main), h.agenda.top.err.value);
      ParentFails(g, h.agenda.top.err.value);
    } else {
      NextKeeps(g, Main);
    }
  }

  lemma ParentResumes(h: Hw)
    requires Inv(h) && h.agenda.Then? && h.agenda.top.ChildDone?
    ensures Ready(Popped(h), Main) && CoordOf(Popped(h), Main).st.CleanupHealth? && h.d.capturePending == Off
  {
  }

  lemma ParentFails(h: Hw, e: Err)
    requires Ready(h, Main) && CoordOf(h, Main).st.CleanupHealth? && h.d.capturePending == Off
    ensures Inv(MarkFailed(h, Main, e))
  {
    hide Inv, Base, WakeOk, Control, Jump, CoordinatorDone;
    Gives(h, Main);
    JumpKeeps(h, Main, WithFailure(CoordOf(h, Main), e), CleanupSleep);
  }

  lemma OutcomeRuns(h: Hw, ch: Choice)
    requires Inv(h) && h.agenda.Then? && h.agenda.top.ParentOutcome?
    ensures Inv(RunItem(Popped(h), h.agenda.top, ch))
  {
    assert Ids(h.l.nextAction - 1) + [h.l.nextAction - 1] == Ids(h.l.nextAction);
    var g := Popped(h).agenda;
    forall i: Item | Owes(g, i) ensures Owes(Then(AppCallback, Then(Settle, g)), i) {
      assert Owes(Then(Settle, g), i);
    }
  }

  /** The application's callback runs with nothing of its own left on the stack. */
  lemma CallbackPopped(h: Hw)
    requires Inv(h) && h.agenda.Then? && h.agenda.top.AppCallback?
    ensures Steady(Popped(h))
  {
    hide LedgerOk, PowerOk, CoordsOk;
  }

  lemma StaleKeeps(h: Hw, f: Flag)
    requires Steady(h)
    ensures Steady(h.(s := h.s.(reinit := f)))
  {
    hide CoordsOk, Token;
  }

  lemma CallbackRuns(h: Hw, ch: Choice)
    requires Inv(h) && h.agenda.Then? && h.agenda.top.AppCallback?
    ensures Inv(RunItem(Popped(h), h.agenda.top, ch))
  {
    hide RequestAction, Base, WakeOk, Token;
    CallbackPopped(h);
    var f := ToFlag(h.s.reinit.On? || ch.stale);
    StaleKeeps(Popped(h), f);
    if ch.reenter && !h.s.pending.On? && !h.s.foreground.On? && h.s.open.On? {
      RequestKeeps(Popped(h).(s := h.s.(reinit := f)), ch.reenterEnroll);
    }
  }

  lemma SettleRuns(h: Hw, ch: Choice)
    requires Inv(h) && h.agenda.Then? && h.agenda.top.Settle?
    ensures Inv(RunItem(Popped(h), h.agenda.top, ch))
  {
    hide SettleOwners;
    SettleKeeps(Popped(h), ch);
  }

  lemma CancelEventBase(h: Hw)
    requires Inv(h) && h.agenda.Then? && h.agenda.top.CancelEvent?
    ensures Base(CancelEventWait(Popped(h)))
  {
    hide WakeOk, LedgerOk, KindOk, FlagsOk, CaptureOk;
  }

  lemma CancelEventToken(h: Hw)
    requires Inv(h) && h.agenda.Then? && h.agenda.top.CancelEvent?
    ensures var g := CancelEventWait(Popped(h)); WakeOk(g.s, g.a, g.k, g.agenda) && Token(g.k, g.t, g.agenda)
  {
    hide LedgerOk, RolesOk, PowerOk, CoordsOk;
  }

  lemma CancelEventRuns(h: Hw, ch: Choice)
    requires Inv(h) && h.agenda.Then? && h.agenda.top.CancelEvent?
    ensures Inv(RunItem(Popped(h), h.agenda.top, ch))
  {
    hide Base, WakeOk, Token, CancelEventWait;
    CancelEventBase(h);
    CancelEventToken(h);
    assert RunItem(Popped(h), h.agenda.top, ch) == CancelEventWait(Popped(h));
  }

  lemma CancelTokenRuns(h: Hw, ch: Choice)
    requires Inv(h) && h.agenda.Then? && h.agenda.top.CancelToken?
    ensures Inv(RunItem(Popped(h), h.agenda.top, ch))
  {
    hide FireToken;
    TokenKeeps(Popped(h));
  }

  lemma StopRuns(h: Hw, ch: Choice)
    requires Inv(h) && h.agenda.Then? && h.agenda.top.StopCoordinator?
    ensures Inv(RunItem(Popped(h), h.agenda.top, ch))
  {
    hide StopOwner;
    StopOwnerKeeps(Popped(h), h.agenda.top.err);
  }

  // ---------------------------------------------------------- External events

  lemma WaiterKeeps(h: Hw, r: WaitResult, ch: Choice)
    requires Inv(h) && h.agenda.Empty?
    ensures Inv(WaiterGets(h, r, ch))
  {
    hide EventDone, Inv;
    if h.t.wire.WireEvent? {
      WaiterWoken(h);
      EventDoneKeeps(h.(t := h.t.(wire := WireIdle)), h.k.owner, r, ch);
    }
  }

  lemma WaiterWoken(h: Hw)
    requires Inv(h) && h.agenda.Empty? && h.t.wire.WireEvent?
    ensures Has(h, h.k.owner) && Woken(h.(t := h.t.(wire := WireIdle)), h.k.owner)
  {
  }

  lemma UnrelatedInv(h: Hw, g: Hw)
    requires Inv(h) && Unrelated(h, g)
    ensures Inv(g)
  {
  }

  lemma ReaderFaultKeeps(h: Hw)
    requires Inv(h) && h.t.reader.Running? && h.t.readerJoin.None?
    ensures Inv(h.(t := h.t.(reader := Errored), s := h.s.(reinit := On)))
  {
  }

  lemma DelayTickKeeps(h: Hw)
    requires Inv(h) && (h.t.op == Some(OpEsd) || h.t.op == Some(OpGtls))
    ensures Inv(h.(t := h.t.(wire := if h.t.wire == WireIdle then WireCommand else WireIdle)))
  {
  }

  lemma OpenKeeps(h: Hw, image: bool)
    requires Inv(h) && h.agenda.Empty? && !h.s.open.On?
    ensures Inv(External(h, Open(image)))
  {
  }

  lemma ResumeKeeps(h: Hw)
    requires Inv(h) && h.agenda.Empty? && h.s.open.On? && h.power.Asleep? && !Closing(h)
    ensures Inv(StartOp(h.(power := WakingUp), Nobody, OpResume))
  {
  }

  /** The drained reader's continuation. */
  lemma ReaderStoppedKeeps(h: Hw)
    requires Inv(h) && h.agenda.Empty? && h.t.readerJoin.Some?
    ensures Inv(RunJoin(h.(t := h.t.(readerJoin := None, reader := NoReader)), h.t.readerJoin.value))
  {
    hide RunJoin;
    match h.t.readerJoin.value
    case HardwareJoined => DrainEnds(h);
    case ReinitJoined => ReinitJoins(h);
    case SuspendPowerJoined(err) => SuspendJoins(h);
    case ResumeJoined(err) => ResumeJoins(h);
  }

  lemma DrainEnds(h: Hw)
    requires Inv(h) && h.agenda.Empty? && h.t.readerJoin == Some(HardwareJoined)
    ensures Inv(RunJoin(h.(t := h.t.(readerJoin := None, reader := NoReader)), HardwareJoined))
  {
  }

  lemma ReinitJoins(h: Hw)
    requires Inv(h) && h.agenda.Empty? && h.t.readerJoin == Some(ReinitJoined)
    ensures Inv(RunJoin(h.(t := h.t.(readerJoin := None, reader := NoReader)), ReinitJoined))
  {
  }

  lemma SuspendJoins(h: Hw)
    requires Inv(h) && h.agenda.Empty? && h.t.readerJoin.Some? && h.t.readerJoin.value.SuspendPowerJoined?
    ensures Inv(RunJoin(h.(t := h.t.(readerJoin := None, reader := NoReader)), h.t.readerJoin.value))
  {
  }

  lemma ResumeJoins(h: Hw)
    requires Inv(h) && h.agenda.Empty? && h.t.readerJoin.Some? && h.t.readerJoin.value.ResumeJoined?
    ensures Inv(RunJoin(h.(t := h.t.(readerJoin := None, reader := NoReader)), h.t.readerJoin.value))
  {
  }

  lemma HealthTimerKeeps(h: Hw)
    requires Inv(h) && h.agenda.Empty?
    ensures Inv(External(h, HealthTimer))
  {
    hide RequestStop, Inv, Base, Token, WakeOk;
    if h.k.main.Some? && h.k.main.value.timer.On? {
      TimerFires(h);
    }
  }

  lemma TimerFires(h: Hw)
    requires Inv(h) && h.agenda.Empty? && h.k.main.Some? && h.k.main.value.timer.On?
    ensures h.k.owner == Child && Has(h, Child)
    ensures Inv(RequestStop(h.(k := h.k.(main := Some(CoordOf(h, Main).(timer := Off)))), Child, None))
  {
    hide RequestStop;
    var g := h.(k := h.k.(main := Some(CoordOf(h, Main).(timer := Off))));
    Owning(h, Child);
    StopIs(g, Child, None);
  }

  // ------------------------------------------------------------- The CPU join

  predicate JobRuns(h: Hw) {
    Inv(h) && h.agenda.Empty? && h.jobs > 0
  }

  /** The coordinator once its worker has joined with a verdict. */
  function Judged(h: Hw, d: Disposition): Coord {
    CoordOf(h, Main).(cpuDone := On, cpuOut := Off, disp := d)
  }

  function Joined(h: Hw, c: Coord): Hw
    requires h.jobs > 0
  {
    Put(h.(jobs := h.jobs - 1), Main, c)
  }

  lemma JobOwner(h: Hw)
    requires JobRuns(h)
    ensures Has(h, Main) && h.k.owner == Main && h.jobs == 1
    ensures var c := CoordOf(h, Main);
      && c.cycle.On? && c.cpuOut.On? && !c.cpuDone.On? && c.parent.On?
      && (IsCleanup(c.st) ==> c.st.CleanupJoin?) && (c.deferred.On? ==> c.st.WaitCpu? && !c.reason.NoReason?)
      && (c.stopErr.Some? ==> c.stop.On?)
      && (c.st.WaitCpu? ==> c.stop.On? || c.released.On? || c.deferred.On?)
    ensures var c := CoordOf(h, Main);
      c.st.WaitCpu? || c.st.CleanupJoin? || c.dispatching.On? || c.waiting.On? || h.t.wire != WireIdle
    ensures var c := CoordOf(h, Main); c.st.WaitCpu? ==> !c.dispatching.On? && !c.waiting.On? && h.t.wire == WireIdle
  {
  }

  /** A parked owner is free to go on as soon as its worker has joined. */
  lemma ParkedJoins(h: Hw, d: Disposition)
    requires JobRuns(h) && (CoordOf(h, Main).st.WaitCpu? || CoordOf(h, Main).st.CleanupJoin?)
    ensures Ready(Joined(h, Judged(h, d).(st := CleanupJoin, deferred := Off)), Main)
  {
  }

  lemma BusyJoins(h: Hw, d: Disposition)
    requires JobRuns(h) && !CoordOf(h, Main).st.WaitCpu? && !CoordOf(h, Main).st.CleanupJoin?
    ensures Inv(Joined(h, Judged(h, d)))
  {
  }

  lemma JobDoneKeeps(h: Hw, d: Disposition)
    requires JobRuns(h)
    ensures Inv(SetDisposition(h.(jobs := h.jobs - 1), d))
  {
    hide Inv, Base, Token, WakeOk, RequestStop, MaybeFinish, Jump, DetachAction;
    JobOwner(h);
    var c := CoordOf(h, Main);
    if c.st.CleanupJoin? {
      ParkedJoins(h, d);
      assert Judged(h, d).(st := CleanupJoin, deferred := Off) == Judged(h, d);
      DetachKeeps(Joined(h, Judged(h, d)), Main);
    } else if c.st.WaitCpu? {
      ParkedJobDone(h, d);
    } else {
      BusyJobDone(h, d);
    }
  }

  lemma BusyJobDone(h: Hw, d: Disposition)
    requires JobRuns(h) && !CoordOf(h, Main).st.WaitCpu? && !CoordOf(h, Main).st.CleanupJoin?
    ensures Inv(SetDisposition(h.(jobs := h.jobs - 1), d))
  {
    hide Inv, Base, Token, WakeOk, RequestStop, Jump, DetachAction, MarkCompleted, MarkFailed;
    JobOwner(h);
    BusyJoins(h, d);
    var g := Joined(h, Judged(h, d));
    forall err: Option<Err> ensures Inv(RequestStop(g, Main, err)) { BusyStops(g, err); }
  }

  lemma BusyStops(h: Hw, err: Option<Err>)
    requires Inv(h) && h.agenda.Empty? && Has(h, Main) && h.k.owner == Main
    ensures Inv(RequestStop(h, Main, err))
  {
    hide Base, Token, RequestStop;
    StopNoted(h, Main, err);
  }

  lemma ParkedJobDone(h: Hw, d: Disposition)
    requires JobRuns(h) && CoordOf(h, Main).st.WaitCpu?
    ensures Inv(SetDisposition(h.(jobs := h.jobs - 1), d))
  {
    hide Inv, Base, Token, WakeOk, Jump, DetachAction, MaybeFinish;
    JobOwner(h);
    var c := CoordOf(h, Main);
    var c1 := Judged(h, d);
    var g := Joined(h, c1);
    if c.stop.On? {
      ParkedFinish(h, d, c1);
    } else if d.Fatal? {
      ParkedFinish(h, d, Told(c1, Some(OtherFault)));
    } else if d.Cancelled? {
      ParkedFinish(h, d, Told(c1, Some(IoCancelled)));
    } else if !WaitsForUp(d) {
      ParkedFinish(h, d, Told(c1, None));
    } else if c.deferred.On? {
      ParkedRefresh(h, d, c1);
    } else {
      ParkedSettles(h, d);
    }
  }

  lemma ParkedRefresh(h: Hw, d: Disposition, c: Coord)
    requires JobRuns(h) && CoordOf(h, Main).st.WaitCpu? && CoordOf(h, Main).deferred.On?
    requires c == Judged(h, d).(stop := c.stop, stopErr := c.stopErr) && (CoordOf(h, Main).stop.On? ==> c.stop.On?)
    requires c.stopErr.Some? ==> c.stop.On?
    ensures Inv(Jump(Joined(h, c.(deferred := Off, dispatching := On)), Main, Refresh))
  {
    hide Inv, Base, Token, WakeOk, Jump, Control;
    JobOwner(h);
    ParkedJoins(h, d);
    var g := Joined(h, Judged(h, d).(st := CleanupJoin, deferred := Off));
    Gives(g, Main);
    JumpKeeps(g, Main, c.(deferred := Off, dispatching := On), Refresh);
    assert Put(g, Main, c.(deferred := Off, dispatching := On)) == Joined(h, c.(deferred := Off, dispatching := On));
  }

  lemma ParkedSettles(h: Hw, d: Disposition)
    requires JobRuns(h) && CoordOf(h, Main).st.WaitCpu? && !CoordOf(h, Main).deferred.On? && !CoordOf(h, Main).stop.On?
    ensures Inv(Jump(Joined(h, Judged(h, d)), Main, CycleSettled))
  {
    hide Inv, Base, Token, WakeOk, Jump, Control;
    JobOwner(h);
    ParkedJoins(h, d);
    var g := Joined(h, Judged(h, d).(st := CleanupJoin, deferred := Off));
    Gives(g, Main);
    JumpKeeps(g, Main, Judged(h, d), CycleSettled);
    assert Put(g, Main, Judged(h, d)) == Joined(h, Judged(h, d));
  }

  /** A stopping owner that only waited for its worker finishes now. */
  lemma ParkedFinish(h: Hw, d: Disposition, c: Coord)
    requires JobRuns(h) && CoordOf(h, Main).st.WaitCpu?
    requires c == Judged(h, d).(stop := On, stopErr := c.stopErr)
    ensures Inv(MaybeFinish(Joined(h, c), Main))
  {
    hide Inv, Base, Token, WakeOk, Jump, Control;
    JobOwner(h);
    if c.deferred.On? {
      ParkedRefresh(h, d, c);
    } else {
      ParkedJoins(h, d);
      var g := Joined(h, Judged(h, d).(st := CleanupJoin, deferred := Off));
      Gives(g, Main);
      MaybeFinishKeeps(g, Main, c);
      assert Put(g, Main, c) == Joined(h, c);
    }
  }

  lemma RequestEventKeeps(h: Hw, e: Event)
    requires Inv(h) && h.agenda.Empty?
    requires e.Request? || e.Cancel? || e.Suspend? || e.Resume? || e.Close? || e.Removed? || e.Open?
    ensures Inv(External(h, e))
  {
    hide Inv, Base, Token, WakeOk, RequestAction, CancelAction, Quiesce, StopOwner, StartOp;
    BetweenEvents(h);
    match e
    case Open(image) => if !h.s.open.On? { OpenKeeps(h, image); }
    case Request(enroll) => if h.s.open.On? && !ActionCurrent(h) { RequestKeeps(h, enroll); }
    case Cancel => if ActionCurrent(h) { CancelKeeps(h); }
    case Suspend =>
      if h.s.open.On? && h.power.Awake? && !Closing(h) {
        QuiesceKeeps(h, SuspendJoin(h.l.nextJoin), h.(s := h.s.(suspending := On), power := GoingToSleep));
      }
    case Resume => if h.s.open.On? && h.power.Asleep? && !Closing(h) { ResumeKeeps(h); }
    case Close =>
      if h.s.open.On? && !ActionCurrent(h) && !Closing(h) && !h.power.GoingToSleep? && !h.power.WakingUp? {
        QuiesceKeeps(h, CloseJoin(h.l.nextJoin), h);
      }
    case Removed =>
      var g := h.(s := h.s.(reinit := On));
      UnrelatedInv(h, g);
      BetweenEvents(g);
      StopOwnerKeeps(g, Some(OtherFault));
  }

  lemma BetweenEvents(h: Hw)
    requires Inv(h) && h.agenda.Empty?
    ensures Steady(h) && Quiescent(h)
    ensures forall i: Item :: WakeWith(h, i)
    ensures h.power.Awake? && !Closing(h) ==> h.s.joined.None?
    ensures h.power.Asleep? && !Closing(h) ==> h.s.joined.None?
  {
  }

  lemma HardwareEventKeeps(h: Hw, e: Event)
    requires Inv(h) && h.agenda.Empty?
    requires !(e.Request? || e.Cancel? || e.Suspend? || e.Resume? || e.Close? || e.Removed? || e.Open?)
    ensures Inv(External(h, e))
  {
    hide Inv, Base, Token, WakeOk, WaiterGets, OpDone, SetDisposition, RunJoin;
    match e
    case Packet(t, ch) =>
      UnrelatedInv(h, h.(d := h.d.(pendingFdt := Some(t))));
      WaiterKeeps(h.(d := h.d.(pendingFdt := Some(t))), Notified, ch);
    case ImageErrors(ch) =>
      UnrelatedInv(h, h.(d := h.d.(gtlsPending := On)));
      WaiterKeeps(h.(d := h.d.(gtlsPending := On)), Notified, ch);
    case BadPacket => WaiterKeeps(h, WaitFailed(OtherFault), Quiet);
    case ReaderFault =>
      if h.t.reader.Running? && h.t.readerJoin.None? {
        ReaderFaultKeeps(h);
        WaiterKeeps(h.(t := h.t.(reader := Errored), s := h.s.(reinit := On)), WaitFailed(UsbFault), Quiet);
      }
    case EventWaitCancelled => WaiterKeeps(h, WaitCancelled, Quiet);
    case OperationDone(out) =>
      if h.t.op.Some? && SessionOp(h.t.op.value) { SessionOpKeeps(h, out); }
      else if h.t.op.Some? { OpDoneKeeps(h, out); }
      else { NothingDone(h, out); }
    case DelayTick => if h.t.op == Some(OpEsd) || h.t.op == Some(OpGtls) { DelayTickKeeps(h); }
    case JobDone(d) => if h.jobs > 0 { JobDoneKeeps(h, d); }
    case HealthTimer => HealthTimerKeeps(h);
    case ReaderStopped => if h.t.readerJoin.Some? { ReaderStoppedKeeps(h); }
    case Internal(_) =>
  }

  lemma NothingDone(h: Hw, out: Outcome)
    requires h.t.op.None?
    ensures OpDone(h, out) == h
  {
  }

  /** Every step of the driver keeps the ownership invariant. */
  lemma StepKeeps(h: Hw, e: Event)
    requires Inv(h)
    ensures Inv(Step(h, e))
  {
    hide Inv, External, RunItem;
    if h.agenda.Empty? {
      if e.Request? || e.Cancel? || e.Suspend? || e.Resume? || e.Close? || e.Removed? || e.Open? {
        RequestEventKeeps(h, e);
      } else {
        HardwareEventKeeps(h, e);
      }
    } else if e.Internal? {
      ItemKeeps(h, e.choice);
    }
  }
}
