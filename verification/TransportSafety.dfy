/** What the command exchange guarantees over every run. */
module TransportSafety {
  import opened Common
  import opened Transport

  // ------------------------------------------------ Reading a run's history

  /** The operation that has been accepted and not yet reported. */
  function Running(t: Trace): Option<Happening> {
    if t.Start? || t.last.Finished? || t.last.WaitFinished? then None
    else if t.last.Accepted? || t.last.Waiting? then Some(t.last)
    else Running(t.before)
  }

  /** Submissions since the operation was accepted. */
  function Attempts(t: Trace): nat {
    if t.Start? || t.last.Accepted? || t.last.Waiting? || t.last.Finished? || t.last.WaitFinished? then 0
    else Attempts(t.before) + if t.last.Sent? then 1 else 0
  }

  /** The latest ACK status of the command since its latest submission, or zero. */
  function AckSince(t: Trace, cmd: nat): nat {
    if t.Start? || t.last.Sent? || t.last.Accepted? || t.last.Waiting? then 0
    else if t.last.Acked? && t.last.cmd == cmd then t.last.status
    else AckSince(t.before, cmd)
  }

  /** An odd ACK of the command arrived after its latest submission. */
  predicate OddAckSince(t: Trace, cmd: nat) {
    t.After? && !t.last.Sent? && !t.last.Accepted? && !t.last.Waiting?
    && ((t.last.Acked? && t.last.cmd == cmd && t.last.status % 2 == 1) || OddAckSince(t.before, cmd))
  }

  /** The slot's response event was published after the latest submission. */
  predicate PublishedSince(t: Trace, slot: Slot) {
    t.After? && !t.last.Sent? && !t.last.Accepted? && !t.last.Waiting?
    && (t.last == Published(slot) || PublishedSince(t.before, slot))
  }

  /** The rules of the exchange, event by event. */
  predicate Lawful(t: Trace) {
    t.After? ==>
      && Lawful(t.before)
      && match t.last
         case Accepted(_, _) => Running(t.before).None?
         case Waiting => Running(t.before).None?
         case Sent(cmd) =>
           Running(t.before).Some? && Running(t.before).value.Accepted? && Running(t.before).value.cmd == cmd
           && Attempts(t.before) < 2
         case Finished(cmd, expects, err, ack) =>
           && Running(t.before) == Some(Accepted(cmd, expects))
           && 1 <= Attempts(t.before) <= 2 && ack == AckSince(t.before, cmd)
           && (err.None? ==> OddAckSince(t.before, cmd))
           && (err.None? && expects.On? ==> SlotOf(cmd, On) != NoSlot && PublishedSince(t.before, SlotOf(cmd, On)))
         case WaitFinished(_) => Running(t.before) == Some(Waiting)
         case _ => true
  }

  // ------------------------------------------------------------- Invariant

  /** The running operation's fields, in terms of the history. */
  predicate OperationOk(o: Operation, ready: set<Slot>, t: Trace) {
    && o.phase != Idle
    && Running(t) == Some(if o.command.On? then Accepted(o.cmd, o.expects) else Waiting)
    && (o.command.On? <==> o.phase == Send || AwaitsCommand(o))
    && o.attempt == Attempts(t)
    && (if o.command.On? then 1 <= o.attempt <= 2 else o.attempt == 0)
    && (o.command.On? ==>
          && o.slot == SlotOf(o.cmd, o.expects)
          && o.ack == AckSince(t, o.cmd)
          && (o.ack % 2 == 1 ==> OddAckSince(t, o.cmd))
          && (o.slot != NoSlot && o.slot in ready ==> PublishedSince(t, o.slot))
          && (o.phase == Response ==> OddAckSince(t, o.cmd)))
    && (o.command.Off? ==> o.retries.Off? && o.slot == NoSlot && o.expects.Off?)
    && (o.phase == Send ==> o.pending.Off?)
    && (o.pending.Off? ==> o.err.None?)
    && (o.pending.On? && o.err.None? && o.command.On? ==>
          OddAckSince(t, o.cmd) && (o.expects.On? ==> o.slot != NoSlot && o.slot in ready))
  }

  predicate Ok(l: Link) {
    && Lawful(l.trace)
    && NoSlot !in l.ready
    && (l.op.Some? <==> Running(l.trace).Some?)
    && (l.joined.On? ==> l.op.None?)
    && (l.op.Some? ==> OperationOk(l.op.value, l.ready, l.trace))
  }

  /** A response still waited for has not been published. */
  predicate Unanswered(l: Link) {
    l.op.Some? && l.op.value.phase == Response && l.op.value.pending.Off? ==> l.op.value.slot !in l.ready
  }

  /** Between events nothing is deferred. */
  predicate Rested(l: Link) {
    Ok(l) && Unanswered(l) && (l.op.Some? ==> l.op.value.batching.Off? && l.op.value.pending.Off? && l.op.value.err.None?)
  }

  // ------------------------------------------------------ Every step keeps it

  lemma CompleteKeeps(l: Link, err: Option<Err>, fits: bool)
    requires Ok(l) && l.op.Some?
    requires var o := l.op.value;
      err.None? && o.command.On? ==>
        OddAckSince(l.trace, o.cmd) && (o.expects.On? ==> o.slot != NoSlot && o.slot in l.ready)
    requires l.op.value.batching.On? ==> l.op.value.phase != Send
    requires l.op.value.batching.Off? && l.op.value.command.On? ==> l.op.value.pending.Off?
    ensures Ok(Complete(l, err, fits))
    ensures l.op.value.batching.On? ==> Complete(l, err, fits).op.Some? && Complete(l, err, fits).op.value.batching.On?
    ensures l.op.value.batching.Off? && l.op.value.pending.Off? && l.op.value.err.None? ==> Rested(Complete(l, err, fits))
  {
  }

  lemma TakeAckKeeps(l: Link, fits: bool)
    requires Ok(l) && l.op.Some? && l.op.value.phase == Ack && l.op.value.ack % 2 == 1
    requires l.op.value.batching.Off? ==> l.op.value.pending.Off?
    ensures Ok(TakeAck(l, fits))
    ensures l.op.value.batching.On? ==> TakeAck(l, fits).op.Some? && TakeAck(l, fits).op.value.batching.On?
    ensures Rested(l) ==> Rested(TakeAck(l, fits))
  {
    if l.op.value.expects.Off? || l.op.value.slot in l.ready {
      CompleteKeeps(l, None, fits);
    }
  }

  lemma WrittenKeeps(l: Link, err: Option<Err>, fits: bool)
    requires Rested(l) && l.op.Some? && l.op.value.phase == Send
    ensures Rested(Written(l, err, fits))
  {
    var l1 := l.(op := Some(l.op.value.(phase := Ack)));
    if err.Some? {
      CompleteKeeps(l, err, fits);
    } else if l.readerErr.Some? {
      CompleteKeeps(l1, l.readerErr, fits);
    } else if l.op.value.ack % 2 == 1 {
      TakeAckKeeps(l1, fits);
    }
  }

  /** While a batch is processed: the receiving operation stays where it is. */
  predicate Receiving(l: Link, live: bool) {
    && Ok(l)
    && (live ==> l.op.Some? && l.op.value.batching.On? && l.op.value.phase != Send)
    && (!live ==> Rested(l) && (l.op.Some? ==> l.op.value.phase == Send))
  }

  lemma NoteKeeps(l: Link, live: bool, p: Packet)
    requires Receiving(l, live)
    ensures Receiving(RecordAck(l, p), live)
  {
  }

  lemma PublishKeeps(l: Link, live: bool, slot: Slot)
    requires Receiving(l, live) && slot != NoSlot
    ensures Receiving(Note(l.(ready := l.ready + {slot}), Published(slot)), live)
  {
  }

  lemma SignalKeeps(l: Link, live: bool, sig: Signals)
    requires Receiving(l, live)
    ensures Receiving(l.(sig := sig), live)
  {
  }

  lemma DeferKeeps(l: Link, live: bool, err: Option<Err>)
    requires Receiving(l, live) && live
    requires var o := l.op.value;
      err.None? && o.command.On? ==>
        OddAckSince(l.trace, o.cmd) && (o.expects.On? ==> o.slot != NoSlot && o.slot in l.ready)
    ensures Receiving(Complete(l, err, true), live)
  {
  }

  lemma ReceiveAckKeeps(l: Link, live: bool, payload: seq<nat>)
    requires Receiving(l, live) && Current(l, live) && l.op.value.phase == Ack
    requires |payload| >= 2 && payload[0] == l.op.value.cmd ==> l.op.value.ack == payload[1]
    ensures Receiving(ReceiveAck(l, payload), live)
  {
    if |payload| < 2 {
      DeferKeeps(l, live, Some(Protocol));
    } else if payload[0] != l.op.value.cmd || payload[1] % 2 == 0 {
    } else if l.op.value.expects.Off? || l.op.value.slot in l.ready {
      DeferKeeps(l, live, None);
    }
  }

  lemma ReceiveImageKeeps(l: Link, live: bool, current: bool, image: ImageVerdict)
    requires Receiving(l, live) && current == Current(l, live)
    ensures Receiving(ReceiveImage(l, live, current, image), live)
  {
    var l1 :=
      if image.Frame? then
        Note(l.(ready := l.ready + {Image}, sig := l.sig.(imageFailed := Off)), Published(Image))
      else if l.sig.imageHistory.On? then
        l.(sig := l.sig.(imageHistory := Off, imageFailed := if image.BadFrame? then On else l.sig.imageFailed,
                         gtlsPending := if l.sig.gtlsActive.Off? then On else l.sig.gtlsPending))
      else
        l.(sig := l.sig.(imageHistory := On, imageFailed := if image.BadFrame? then On else l.sig.imageFailed));
    if image.Frame? {
      PublishKeeps(l, live, Image);
      SignalKeeps(Note(l.(ready := l.ready + {Image}), Published(Image)), live, l.sig.(imageFailed := Off));
    } else {
      SignalKeeps(l, live, l1.sig);
    }
    if EventWaits(l1, live) && l1.sig.gtlsPending.On? {
      DeferKeeps(l1, live, None);
    } else if current && l1.op.Some? && l1.op.value.phase == Response && l1.op.value.slot == Image && Image in l1.ready {
      DeferKeeps(l1, live, None);
    }
  }

  lemma ReceiveKeeps(l: Link, live: bool, p: Packet)
    requires Receiving(l, live)
    ensures Receiving(Receive(l, live, p), live)
  {
    hide Ok;
    if p.Overflow? {
      if live { DeferKeeps(l, live, Some(Protocol)); }
    } else if p.Packet? {
      var l1 := RecordAck(l, p);
      NoteKeeps(l, live, p);
      if live { DeferKeeps(l1, live, Some(Protocol)); }
      var slot := SlotSignalled(p.category, p.command);
      var fdt := l1.(sig := l1.sig.(fdtPending := On));
      SignalKeeps(l1, live, fdt.sig);
      SignalKeeps(l1, live, l1.sig.(mcuReady := On));
      if EventWaits(fdt, live) { EventKeeps(fdt, live); }
      ReceiveImageKeeps(l1, live, Current(l, live), p.image);
      if slot != NoSlot { ResponseKeeps(l1, live, slot, |p.payload|); }
      if p.category == ACK_CATEGORY && p.command == 0 && Current(l, live) && l.op.value.phase == Ack {
        IsCommand(l);
        ReceiveAckKeeps(l1, live, p.payload);
      }
    }
  }

  lemma IsCommand(l: Link)
    requires Ok(l) && l.op.Some? && AwaitsCommand(l.op.value)
    ensures l.op.value.command.On?
  {
  }

  lemma EventKeeps(l: Link, live: bool)
    requires Receiving(l, live) && EventWaits(l, live)
    ensures Receiving(Complete(l, None, true), live)
  {
  }

  lemma ResponseKeeps(l: Link, live: bool, slot: Slot, length: nat)
    requires Receiving(l, live) && slot != NoSlot
    ensures Receiving(ReceiveResponse(l, live, Current(l, live), slot, length), live)
  {
    PublishKeeps(l, live, slot);
  }

  lemma {:induction false} ReceiveAllKeeps(l: Link, live: bool, ps: seq<Packet>)
    requires Receiving(l, live)
    ensures Receiving(ReceiveAll(l, live, ps), live)
    decreases |ps|
  {
    hide Receive, Receiving;
    if ps != [] {
      ReceiveKeeps(l, live, ps[0]);
      ReceiveAllKeeps(Receive(l, live, ps[0]), live, ps[1..]);
    }
  }

  /** The packet that answers a waiting command also ends its wait. */
  lemma ReceiveUnanswered(l: Link, live: bool, p: Packet)
    requires Receiving(l, live) && Unanswered(l)
    ensures Unanswered(Receive(l, live, p))
  {
    if p.Packet? {
      if p.category == 2 {
        UnansweredImage(RecordAck(l, p), live, Current(l, live), p.image);
      }
      hide ReceiveImage, Ok;
    }
  }

  lemma UnansweredImage(l: Link, live: bool, current: bool, image: ImageVerdict)
    requires Receiving(l, live) && Unanswered(l) && current == Current(l, live)
    ensures Unanswered(ReceiveImage(l, live, current, image))
  {
  }

  lemma {:induction false} ReceiveAllUnanswered(l: Link, live: bool, ps: seq<Packet>)
    requires Receiving(l, live) && Unanswered(l)
    ensures Unanswered(ReceiveAll(l, live, ps))
    decreases |ps|
  {
    hide Receive, Receiving, Unanswered;
    if ps != [] {
      ReceiveKeeps(l, live, ps[0]);
      ReceiveUnanswered(l, live, ps[0]);
      ReceiveAllUnanswered(Receive(l, live, ps[0]), live, ps[1..]);
    }
  }

  lemma YieldKeeps(l: Link, fits: bool)
    requires Receiving(l, true) && Unanswered(l)
    ensures Rested(Yield(l, fits))
  {
    hide Complete;
    var o := l.op.value;
    var l1 := l.(op := Some(o.(batching := Off)));
    if o.err.None? && TakesMcu(l1) {
      McuTaken(l1);
    } else if o.pending.On? {
      CompleteKeeps(l1.(op := Some(o.(batching := Off, pending := Off, err := None))), o.err, fits);
    }
  }

  lemma McuTaken(l: Link)
    requires Ok(l) && TakesMcu(l) && l.op.value.batching.Off?
    ensures Rested(TakeMcu(l))
  {
  }

  lemma BatchKeeps(l: Link, ps: seq<Packet>, fits: bool)
    requires Rested(l)
    ensures Rested(Batch(l, ps, fits))
  {
    if l.op.None? || l.op.value.phase == Send {
      ReceiveAllKeeps(l, false, ps);
      ReceiveAllUnanswered(l, false, ps);
    } else {
      var l1 := l.(op := Some(l.op.value.(batching := On)));
      ReceiveAllKeeps(l1, true, ps);
      ReceiveAllUnanswered(l1, true, ps);
      YieldKeeps(ReceiveAll(l1, true, ps), fits);
    }
  }

  lemma CommandKeeps(l: Link, cmd: nat, expects: Flag)
    requires Rested(l)
    ensures Rested(Command(l, cmd, expects))
  {
  }

  lemma WaitKeeps(l: Link, phase: Phase)
    requires Rested(l) && (phase == EventWait || phase == McuWait)
    ensures Rested(Wait(l, phase))
  {
  }

  lemma QuietKeeps(l: Link, g: Link)
    requires Rested(l) && g.op == l.op && g.trace == l.trace && g.ready <= l.ready
    requires g.joined.On? ==> g.op.None?
    ensures Rested(g)
  {
  }

  lemma StepKeeps(l: Link, e: Event)
    requires Rested(l)
    ensures Rested(Step(l, e))
  {
    hide Complete, Command, Wait, Batch, Written, Rested;
    Resting(l);
    match e
    case CommandRequested(cmd, expects) => CommandKeeps(l, cmd, expects);
    case EventRequested => WaitKeeps(l, EventWait);
    case McuRequested => WaitKeeps(l, McuWait);
    case OutDone(err, fits) => if l.op.Some? && l.op.value.phase == Send { WrittenKeeps(l, err, fits); }
    case Received(ps, fits) => if l.readerErr.None? { BatchKeeps(l, ps, fits); }
    case ReaderFailed(fault) =>
      var l1 := l.(readerErr := Some(fault));
      QuietKeeps(l, l1);
      QuietKeeps(l, ReaderNext(l));
      Resting(l1);
      if l.op.Some? { CompleteKeeps(l1, Some(fault), true); }
    case Expired => if l.op.Some? { CompleteKeeps(l, Some(TimedOut), true); }
    case WaitCancelled => if l.op.Some? { CompleteKeeps(l, Some(IoCancelled), true); }
    case _ => QuietKeeps(l, Step(l, e));
  }

  lemma Resting(l: Link)
    requires Rested(l)
    ensures Ok(l) && (l.op.Some? ==> l.op.value.batching.Off? && l.op.value.pending.Off? && l.op.value.err.None?)
  {
  }

  lemma {:induction false} RunKeeps(l: Link, events: seq<Event>)
    requires Rested(l)
    ensures Rested(Execute(l, events))
    decreases |events|
  {
    hide Step, Rested;
    if events != [] {
      StepKeeps(l, events[0]);
      RunKeeps(Step(l, events[0]), events[1..]);
    }
  }

  // ------------------------------------------------------------ Main results

  /** Every run obeys the rules of the exchange: accepted operations are
      reported once, commands are sent at most twice, and success means an odd ACK
      of the command and, for data commands, its response event, both after the
      latest submission, however packets are batched. */
  lemma RunsAreLawful(events: seq<Event>)
    ensures Lawful(Execute(Fresh, events).trace)
    ensures Running(Execute(Fresh, events).trace).Some? <==> Execute(Fresh, events).op.Some?
  {
    hide Execute;
    RunKeeps(Fresh, events);
  }

  function Reports(t: Trace): nat {
    if t.Start? then 0 else Reports(t.before) + if t.last.Finished? || t.last.WaitFinished? then 1 else 0
  }

  function Accepts(t: Trace): nat {
    if t.Start? then 0 else Accepts(t.before) + if t.last.Accepted? || t.last.Waiting? then 1 else 0
  }

  /** Conservation: every accepted operation has been reported exactly once,
      except the one the link still holds. */
  lemma {:induction false} ReportedOnce(t: Trace)
    requires Lawful(t)
    ensures Accepts(t) == Reports(t) + (if Running(t).Some? then 1 else 0)
  {
    if t.After? { ReportedOnce(t.before); }
  }

  function Submissions(t: Trace): nat {
    if t.Start? then 0 else Submissions(t.before) + if t.last.Sent? then 1 else 0
  }

  function Commands(t: Trace): nat {
    if t.Start? then 0 else Commands(t.before) + if t.last.Accepted? then 1 else 0
  }

  /** Over a whole run, at most two submissions per accepted command. */
  lemma {:induction false} TwoAttemptsEach(t: Trace)
    requires Lawful(t)
    ensures Submissions(t) + (if Running(t).Some? && Running(t).value.Accepted? then 2 - Attempts(t) else 0) <= 2 * Commands(t)
    ensures Attempts(t) <= 2
  {
    if t.After? { TwoAttemptsEach(t.before); }
  }

  function AckPacket(cmd: nat, status: nat): Packet {
    Packet(ACK_CATEGORY, 0, [cmd, status], Frame, FdtNothing)
  }

  /** A command 0x32 without data, written and waiting for its ACK. */
  function Awaiting(t: Trace): Link {
    Fresh.(op := Some(Operation(Ack, On, 0x32, Off, On, NoSlot, 0, 1, Off, Off, None)), trace := t)
  }

  lemma EvenAckRead(b: Link)
    requires b == Awaiting(b.trace)
    ensures var l := Step(b, Received([AckPacket(0x32, 1), AckPacket(0x32, 2)], true));
      l.op.None? && l.trace.After? && l.trace.last == Finished(0x32, Off, None, 2)
  {
    var ps := [AckPacket(0x32, 1), AckPacket(0x32, 2)];
    var l1 := b.(op := Some(b.op.value.(batching := On)));
    var l2 := Receive(l1, true, ps[0]);
    var l3 := Receive(l2, true, ps[1]);
    assert ps[1..] == [ps[1]];
    assert ReceiveAll(l1, true, ps) == ReceiveAll(l2, true, ps[1..]) == ReceiveAll(l3, true, []) == l3;
  }

  /** An even ACK in the same read as the odd one replaces the reported status. */
  lemma EvenAckReported()
    ensures var l := Execute(Fresh, [CommandRequested(0x32, Off), OutDone(None, true),
                                     Received([AckPacket(0x32, 1), AckPacket(0x32, 2)], true)]);
      l.op.None? && l.trace.After? && l.trace.last == Finished(0x32, Off, None, 2)
  {
    var a := Step(Fresh, CommandRequested(0x32, Off));
    var b := Step(a, OutDone(None, true));
    var ps := [AckPacket(0x32, 1), AckPacket(0x32, 2)];
    EvenAckRead(b);
    var es := [CommandRequested(0x32, Off), OutDone(None, true), Received(ps, true)];
    assert es[1..] == [OutDone(None, true), Received(ps, true)];
    assert es[1..][1..] == [Received(ps, true)];
    assert b == Awaiting(b.trace);
    hide Step, Receive;
    assert Execute(Fresh, es) == Execute(a, es[1..]) == Execute(b, es[1..][1..]) == Step(b, Received(ps, true));
  }

  // ------------------------------------------ When a command does complete

  /** Packets that fail a command's wait whenever they come in its read. */
  predicate Fails(p: Packet) {
    p.Overflow?
    || (p.Packet?
        && (((p.category == 0x0f || (p.category == 9 && p.command == 2)) && |p.payload| == 0)
            || (p.category == 3 && p.command == 3 && |p.payload| < MANUAL_RESPONSE_LEN)
            || (p.category == 3 && (p.command == 1 || p.command == 2) && p.fdt.FdtMalformed?)))
  }

  /** A truncated ACK fails only a wait for the ACK itself. */
  predicate ShortAck(p: Packet) {
    p.Packet? && p.category == ACK_CATEGORY && p.command == 0 && |p.payload| < 2
  }

  predicate OddAck(p: Packet, cmd: nat) {
    IsAck(p) && p.payload[0] == cmd && p.payload[1] % 2 == 1
  }

  /** Some packet of a read fails the command; `taken` says that its ACK has been
      accepted before. */
  predicate Failing(ps: seq<Packet>, cmd: nat, taken: bool) {
    ps != []
    && (Fails(ps[0]) || (ShortAck(ps[0]) && !taken) || Failing(ps[1..], cmd, taken || OddAck(ps[0], cmd)))
  }

  lemma {:induction false} NoneFails(ps: seq<Packet>, cmd: nat, taken: bool)
    requires forall p | p in ps :: !Fails(p) && !ShortAck(p)
    ensures !Failing(ps, cmd, taken)
  {
    if ps != [] {
      assert forall p | p in ps[1..] :: p in ps;
      NoneFails(ps[1..], cmd, taken || OddAck(ps[0], cmd));
    }
  }

  /** A command whose wait has failed inside the batch being received. */
  predicate Doomed(l: Link, o: Operation) {
    && l.op.Some? && AwaitsCommand(l.op.value) && l.op.value.command.On? && l.op.value.batching.On? && l.op.value.pending.On?
    && l.op.value.err == Some(Protocol) && l.op.value.cmd == o.cmd && l.op.value.expects == o.expects
  }

  lemma DoomedStays(l: Link, o: Operation, p: Packet)
    requires Doomed(l, o)
    ensures Doomed(Receive(l, true, p), o) && Receive(l, true, p).joined == l.joined
  {
  }

  lemma {:induction false} DoomedThrough(l: Link, o: Operation, ps: seq<Packet>)
    requires Doomed(l, o)
    ensures Doomed(ReceiveAll(l, true, ps), o) && ReceiveAll(l, true, ps).joined == l.joined
    decreases |ps|
  {
    hide Receive, Doomed;
    if ps != [] {
      DoomedStays(l, o, ps[0]);
      DoomedThrough(Receive(l, true, ps[0]), o, ps[1..]);
    }
  }

  /** A failed wait is reported as it is: protocol errors are not retried. */
  lemma DoomedEnds(l: Link, o: Operation, fits: bool)
    requires Doomed(l, o) && l.joined.Off?
    ensures var r := Yield(l, fits);
      r.op.None? && r.trace.After? && r.trace.last.Finished? && r.trace.last.cmd == o.cmd
      && r.trace.last.expects == o.expects && r.trace.last.err == Some(Protocol)
  {
  }

  /** A batch is being received for a command without data that awaits its ACK. */
  predicate AwaitsAck(l: Link) {
    && l.op.Some? && l.op.value.phase == Ack && l.op.value.command.On? && l.op.value.expects.Off?
    && l.op.value.slot == NoSlot && l.op.value.batching.On? && l.op.value.err.None?
  }

  lemma AckNoticed(l: Link, p: Packet)
    requires AwaitsAck(l)
    ensures var r := Receive(l, true, p); var o := l.op.value;
      && r.joined == l.joined
      && (if Fails(p) || (ShortAck(p) && o.pending.Off?) then Doomed(r, o)
          else AwaitsAck(r) && r.op.value.cmd == o.cmd && (r.op.value.pending.On? <==> o.pending.On? || OddAck(p, o.cmd)))
  {
  }

  lemma {:induction false} AckAmong(l: Link, ps: seq<Packet>)
    requires AwaitsAck(l)
    ensures var r := ReceiveAll(l, true, ps); var o := l.op.value;
      && r.joined == l.joined
      && (if Failing(ps, o.cmd, o.pending.On?) then Doomed(r, o)
          else AwaitsAck(r) && r.op.value.cmd == o.cmd
               && (r.op.value.pending.On? <==> o.pending.On? || exists p | p in ps :: OddAck(p, o.cmd)))
    decreases |ps|
  {
    hide Receive, Doomed, Fails, ShortAck, OddAck;
    if ps != [] {
      var o := l.op.value;
      AckNoticed(l, ps[0]);
      if Fails(ps[0]) || (ShortAck(ps[0]) && o.pending.Off?) {
        DoomedThrough(Receive(l, true, ps[0]), o, ps[1..]);
      } else {
        AckAmong(Receive(l, true, ps[0]), ps[1..]);
        DoomedFor(ReceiveAll(Receive(l, true, ps[0]), true, ps[1..]), Receive(l, true, ps[0]).op.value, o);
      }
      assert ps == [ps[0]] + ps[1..];
    }
  }

  lemma DoomedFor(l: Link, o: Operation, q: Operation)
    requires o.cmd == q.cmd && o.expects == q.expects
    ensures Doomed(l, o) == Doomed(l, q)
  {
  }

  /** Whatever a read holds, a command without data ends with it exactly when a
      packet fails the wait or an odd ACK of its own byte is among them, and it
      succeeds exactly when no packet fails it. */
  lemma AckEndsCommand(l: Link, ps: seq<Packet>, fits: bool)
    requires Rested(l) && l.op.Some? && l.op.value.phase == Ack && l.op.value.expects.Off?
    ensures var r := Batch(l, ps, fits); var cmd := l.op.value.cmd;
      && (r.op.None? <==> Failing(ps, cmd, false) || exists p | p in ps :: OddAck(p, cmd))
      && (r.op.None? ==>
            && r.trace.After? && r.trace.last.Finished? && r.trace.last.cmd == cmd
            && r.trace.last.err == if Failing(ps, cmd, false) then Some(Protocol) else None)
  {
    var l1 := l.(op := Some(l.op.value.(batching := On)));
    AckAmong(l1, ps);
    if Failing(ps, l.op.value.cmd, false) {
      DoomedEnds(ReceiveAll(l1, true, ps), l1.op.value, fits);
      hide Yield, Doomed;
    } else {
      hide Failing, Doomed;
    }
  }

  /** The packet signals the response event of a slot. */
  predicate Publishes(p: Packet, slot: Slot) {
    p.Packet?
    && if slot == Image then p.category == 2 && p.image.Frame?
       else p.category != 2 && p.category != 0x0c && p.category != 0x0d && SlotSignalled(p.category, p.command) == slot
  }

  predicate AckTaken(o: Operation) {
    o.pending.On? || o.phase == Response
  }

  /** A batch is being received for a data command past its submission; it ends
      as soon as both its ACK and its event are there. */
  predicate AwaitsData(l: Link) {
    && l.op.Some?
    && var o := l.op.value;
      && AwaitsCommand(o) && o.command.On? && o.expects.On? && o.slot != NoSlot && o.batching.On? && o.err.None?
      && (o.pending.On? ==> o.slot in l.ready)
      && (o.pending.Off? && o.phase == Response ==> o.slot !in l.ready)
      && (o.pending.On? <==> AckTaken(o) && o.slot in l.ready)
  }

  /** Whether the image receiver has rejected an image since it last took one. */
  function ImageFault(was: Flag, p: Packet): Flag {
    if p.Packet? && p.category == 2 && p.image.Frame? then Off
    else if p.Packet? && p.category == 2 && p.image.BadFrame? then On
    else was
  }

  function ImageFaultAfter(was: Flag, ps: seq<Packet>): Flag
    decreases |ps|
  {
    if ps == [] then was else ImageFaultAfter(ImageFault(was, ps[0]), ps[1..])
  }

  /** How one packet moves a data command: its ACK and its event are noted. */
  predicate DataMoved(l: Link, r: Link, p: Packet)
    requires AwaitsData(l)
  {
    var o := l.op.value;
    && AwaitsData(r) && r.op.value.cmd == o.cmd && r.op.value.slot == o.slot && r.joined == l.joined
    && r.op.value.retries == o.retries && r.readerErr == l.readerErr
    && (o.slot in r.ready <==> o.slot in l.ready || Publishes(p, o.slot))
    && (AckTaken(r.op.value) <==> AckTaken(o) || OddAck(p, o.cmd))
    && r.sig.imageFailed == ImageFault(l.sig.imageFailed, p)
  }

  lemma DataNoticed(l: Link, p: Packet)
    requires AwaitsData(l) && !Fails(p) && !(ShortAck(p) && !AckTaken(l.op.value))
    ensures DataMoved(l, Receive(l, true, p), p)
  {
    if p.Packet? {
      if p.category == 2 {
        DataImage(l, p);
      } else if p.category == ACK_CATEGORY {
        DataAck(l, p);
      } else {
        DataOther(l, p);
      }
    }
  }

  lemma DataImage(l: Link, p: Packet)
    requires AwaitsData(l) && p.Packet? && p.category == 2
    ensures DataMoved(l, Receive(l, true, p), p)
  {
  }

  lemma DataAck(l: Link, p: Packet)
    requires AwaitsData(l) && p.Packet? && p.category == ACK_CATEGORY && !(ShortAck(p) && !AckTaken(l.op.value))
    ensures DataMoved(l, Receive(l, true, p), p)
  {
  }

  lemma DataOther(l: Link, p: Packet)
    requires AwaitsData(l) && p.Packet? && p.category != 2 && p.category != ACK_CATEGORY && !Fails(p)
    ensures DataMoved(l, Receive(l, true, p), p)
  {
  }

  lemma DataFails(l: Link, p: Packet)
    requires AwaitsData(l) && (Fails(p) || (ShortAck(p) && !AckTaken(l.op.value)))
    ensures Doomed(Receive(l, true, p), l.op.value) && Receive(l, true, p).joined == l.joined
  {
  }

  /** With a read the command has both its ACK and its event. */
  predicate Satisfied(l: Link, ps: seq<Packet>) {
    && l.op.Some?
    && (AckTaken(l.op.value) || exists p | p in ps :: OddAck(p, l.op.value.cmd))
    && (l.op.value.slot in l.ready || exists p | p in ps :: Publishes(p, l.op.value.slot))
  }

  lemma {:induction false} DataAmong(l: Link, ps: seq<Packet>)
    requires AwaitsData(l)
    ensures var r := ReceiveAll(l, true, ps); var o := l.op.value;
      && r.joined == l.joined
      && (Failing(ps, o.cmd, AckTaken(o)) ==> Doomed(r, o))
      && (!Failing(ps, o.cmd, AckTaken(o)) ==>
            && AwaitsData(r) && r.op.value.cmd == o.cmd && r.op.value.slot == o.slot
            && r.op.value.retries == o.retries && r.readerErr == l.readerErr
            && (r.op.value.pending.On? <==> Satisfied(l, ps))
            && r.sig.imageFailed == ImageFaultAfter(l.sig.imageFailed, ps))
    decreases |ps|
  {
    hide Receive, Doomed, Fails, ShortAck, OddAck, Publishes;
    if ps != [] {
      var o := l.op.value;
      if Fails(ps[0]) || (ShortAck(ps[0]) && !AckTaken(o)) {
        DataFails(l, ps[0]);
        DoomedThrough(Receive(l, true, ps[0]), o, ps[1..]);
      } else {
        DataNoticed(l, ps[0]);
        var l1 := Receive(l, true, ps[0]);
        assert DataMoved(l, l1, ps[0]);
        DataAmong(l1, ps[1..]);
        DoomedFor(ReceiveAll(l1, true, ps[1..]), l1.op.value, o);
      }
      assert ps == [ps[0]] + ps[1..];
    }
  }

  /** Why a read that leaves a data command with its ACK and its event still fails
      it: the image was rejected, or the cached reply cannot be viewed. */
  function Rejection(slot: Slot, imageFault: Flag, fits: bool): Option<Err> {
    if slot == Image && imageFault.On? then Some(UsbIo)
    else if SharesCache(slot) && !fits then Some(Protocol)
    else None
  }

  /** Whatever a read holds, a data command that awaits its ACK or its response
      ends with it exactly when a packet fails the wait or it is left with both an
      odd ACK and its response event, in whichever order and in however many reads
      they came. What it then reports is settled by the packets, by whether the
      image receiver has rejected the last image, and by the cached view. */
  lemma DataEndsCommand(l: Link, ps: seq<Packet>, fits: bool)
    requires Rested(l) && l.op.Some? && AwaitsCommand(l.op.value) && l.op.value.expects.On? && l.op.value.slot != NoSlot
    ensures var r := Batch(l, ps, fits); var o := l.op.value; var failed := Failing(ps, o.cmd, o.phase == Response);
      && (r.op.None? <==> failed || Satisfied(l, ps))
      && (r.op.None? ==>
            && r.trace.After? && r.trace.last.Finished? && r.trace.last.cmd == o.cmd && r.trace.last.expects.On?
            && r.trace.last.err ==
               if failed then Some(Protocol) else Rejection(o.slot, ImageFaultAfter(l.sig.imageFailed, ps), fits))
  {
    var l1 := l.(op := Some(l.op.value.(batching := On)));
    DataAmong(l1, ps);
    if Failing(ps, l.op.value.cmd, l.op.value.phase == Response) {
      DoomedEnds(ReceiveAll(l1, true, ps), l1.op.value, fits);
      hide Yield, Doomed;
    } else {
      hide Failing, Doomed, OddAck, Publishes, ImageFaultAfter;
    }
  }
}
