/** Which ACK status a command reports, in terms of the packets that arrive. */
module TransportAcks {
  import opened Common
  import opened Transport
  import opened TransportSafety

  // ------------------------------------------------------- What arrives

  /** The statuses of the ACK packets for a command byte, in order. */
  function Statuses(ps: seq<Packet>, cmd: nat): seq<nat> {
    if ps == [] then []
    else (if IsAck(ps[0]) && ps[0].payload[0] == cmd then [ps[0].payload[1]] else []) + Statuses(ps[1..], cmd)
  }

  /** The ACK statuses for a command byte that one event brings. */
  function HeardIn(e: Event, cmd: nat): seq<nat> {
    if e.Received? then Statuses(e.packets, cmd) else []
  }

  /** The ACK statuses for a command byte in all reads of a run. */
  function Heard(events: seq<Event>, cmd: nat): seq<nat> {
    if events == [] then [] else Heard(events[..|events| - 1], cmd) + HeardIn(events[|events| - 1], cmd)
  }

  /** The events after the one that last put a command on the wire. */
  function SinceSent(events: seq<Event>): (since: seq<Event>)
    ensures |since| <= |events| && since == events[|events| - |since|..]
  {
    if events == [] || JustSent(Reached(events).trace) then []
    else SinceSent(events[..|events| - 1]) + [events[|events| - 1]]
  }

  predicate JustSent(t: Trace) {
    t.After? && t.last.Sent?
  }

  function Reached(events: seq<Event>): Link {
    Execute(Fresh, events)
  }

  function LastOr(s: seq<nat>, d: nat): nat {
    if s == [] then d else s[|s| - 1]
  }

  // -------------------------------------------------- What the trace notes

  /** The statuses noted for a command since its latest submission. */
  function Noted(t: Trace, cmd: nat): seq<nat> {
    if t.Start? || t.last.Sent? || t.last.Accepted? || t.last.Waiting? then []
    else Noted(t.before, cmd) + if t.last.Acked? && t.last.cmd == cmd then [t.last.status] else []
  }

  lemma {:induction false} NotedIs(t: Trace, cmd: nat)
    ensures AckSince(t, cmd) == LastOr(Noted(t, cmd), 0)
    ensures OddAckSince(t, cmd) <==> exists s | s in Noted(t, cmd) :: s % 2 == 1
  {
    if t.After? && !t.last.Sent? && !t.last.Accepted? && !t.last.Waiting? {
      NotedIs(t.before, cmd);
      if t.last.Acked? && t.last.cmd == cmd {
        var before := Noted(t.before, cmd);
        assert Noted(t, cmd) == before + [t.last.status];
        assert t.last.status in Noted(t, cmd) && forall s | s in before :: s in Noted(t, cmd);
        assert forall s | s in Noted(t, cmd) :: s in before || s == t.last.status;
      } else {
        assert Noted(t, cmd) == Noted(t.before, cmd);
      }
    }
  }

  /** A command's wait, during a batch or outside one. */
  predicate Hears(l: Link, live: bool, cmd: nat) {
    && l.op.Some? && l.op.value.command.On? && l.op.value.cmd == cmd
    && (live ==> l.op.value.batching.On?)
  }

  lemma PacketHeard(l: Link, live: bool, p: Packet, cmd: nat)
    requires Hears(l, live, cmd) && (live || l.op.value.phase == Send)
    ensures var r := Receive(l, live, p);
      && Hears(r, live, cmd) && r.op.value.attempt == l.op.value.attempt && (live || r.op.value.phase == Send)
      && r.op.value.ack == LastOr(Statuses([p], cmd), l.op.value.ack)
      && Noted(r.trace, cmd) == Noted(l.trace, cmd) + Statuses([p], cmd)
      && r.readerErr == l.readerErr && r.joined == l.joined && r.op.value.expects == l.op.value.expects
  {
    assert [p][1..] == [];
    if IsAck(p) && p.payload[0] == cmd {
      AckHeard(l, live, p, cmd);
    } else {
      OtherHeard(l, live, p, cmd);
    }
  }

  lemma AckHeard(l: Link, live: bool, p: Packet, cmd: nat)
    requires Hears(l, live, cmd) && (live || l.op.value.phase == Send)
    requires IsAck(p) && p.payload[0] == cmd
    ensures var r := Receive(l, live, p);
      && Hears(r, live, cmd) && r.op.value.attempt == l.op.value.attempt && (live || r.op.value.phase == Send)
      && r.op.value.ack == p.payload[1] && Noted(r.trace, cmd) == Noted(l.trace, cmd) + [p.payload[1]]
      && r.readerErr == l.readerErr && r.joined == l.joined && r.op.value.expects == l.op.value.expects
  {
  }

  lemma OtherHeard(l: Link, live: bool, p: Packet, cmd: nat)
    requires Hears(l, live, cmd) && (live || l.op.value.phase == Send)
    requires !(IsAck(p) && p.payload[0] == cmd)
    ensures var r := Receive(l, live, p);
      && Hears(r, live, cmd) && r.op.value.attempt == l.op.value.attempt && (live || r.op.value.phase == Send)
      && r.op.value.ack == l.op.value.ack && Noted(r.trace, cmd) == Noted(l.trace, cmd)
      && r.readerErr == l.readerErr && r.joined == l.joined && r.op.value.expects == l.op.value.expects
  {
    assert RecordAck(l, p) == l;
    if p.Packet? && p.category == 2 {
      ImageHeard(l, live, p.image, cmd);
    }
    hide ReceiveImage, SlotSignalled, Noted;
    assert forall slot: Slot :: Noted(After(l.trace, Published(slot)), cmd) == Noted(l.trace, cmd) + [] by {
      PublishedNotNoted(l.trace, cmd);
    }
    assert Noted(l.trace, cmd) + [] == Noted(l.trace, cmd);
  }

  lemma PublishedNotNoted(t: Trace, cmd: nat)
    ensures forall slot: Slot :: Noted(After(t, Published(slot)), cmd) == Noted(t, cmd) + []
  {
  }

  lemma ImageHeard(l: Link, live: bool, image: ImageVerdict, cmd: nat)
    requires Hears(l, live, cmd) && (live || l.op.value.phase == Send)
    ensures var r := ReceiveImage(l, live, Current(l, live), image);
      && Hears(r, live, cmd) && r.op.value.attempt == l.op.value.attempt && (live || r.op.value.phase == Send)
      && r.op.value.ack == l.op.value.ack && Noted(r.trace, cmd) == Noted(l.trace, cmd)
      && r.readerErr == l.readerErr && r.joined == l.joined && r.op.value.expects == l.op.value.expects
  {
    PublishedNotNoted(l.trace, cmd);
    assert Noted(l.trace, cmd) + [] == Noted(l.trace, cmd);
    hide Noted;
  }

  lemma StatusesFrom(ps: seq<Packet>, cmd: nat)
    requires ps != []
    ensures Statuses(ps, cmd) == Statuses([ps[0]], cmd) + Statuses(ps[1..], cmd)
  {
    assert [ps[0]][1..] == [];
    assert Statuses([ps[0]], cmd) == if IsAck(ps[0]) && ps[0].payload[0] == cmd then [ps[0].payload[1]] else [];
  }

  lemma {:induction false} ReadHeard(l: Link, live: bool, ps: seq<Packet>, cmd: nat)
    requires Hears(l, live, cmd) && (live || l.op.value.phase == Send)
    ensures var r := ReceiveAll(l, live, ps);
      && Hears(r, live, cmd) && r.op.value.attempt == l.op.value.attempt && (live || r.op.value.phase == Send)
      && r.op.value.ack == LastOr(Statuses(ps, cmd), l.op.value.ack)
      && Noted(r.trace, cmd) == Noted(l.trace, cmd) + Statuses(ps, cmd)
      && r.readerErr == l.readerErr && r.joined == l.joined && r.op.value.expects == l.op.value.expects
    decreases |ps|
  {
    hide Receive, Hears, Noted, IsAck;
    if ps != [] {
      var first, rest := Statuses([ps[0]], cmd), Statuses(ps[1..], cmd);
      StatusesFrom(ps, cmd);
      PacketHeard(l, live, ps[0], cmd);
      var l1 := Receive(l, live, ps[0]);
      ReadHeard(l1, live, ps[1..], cmd);
      assert Noted(l.trace, cmd) + first + rest == Noted(l.trace, cmd) + (first + rest);
    }
  }

  // ------------------------------------------------------------ One read

  /** How one event leaves a command that has heard the given statuses. */
  predicate Heeds(l: Link, r: Link, cmd: nat, heard: seq<nat>)
    requires l.op.Some?
  {
    if r.op.Some? then
      && r.op.value.command.On? && r.op.value.cmd == cmd
      && (JustSent(r.trace) || Noted(r.trace, cmd) == Noted(l.trace, cmd) + heard)
    else
      && r.trace.After? && r.trace.last.Finished? && r.trace.last.cmd == cmd
      && r.trace.last.expects == l.op.value.expects && r.trace.last.ack == LastOr(heard, l.op.value.ack)
      && Noted(r.trace.before, cmd) == Noted(l.trace, cmd) + heard
  }

  lemma ConcludeHeeds(l: Link, err: Option<Err>, fits: bool, cmd: nat)
    requires Hears(l, false, cmd) && l.op.value.batching.Off?
    ensures Heeds(l, Complete(l, err, fits), cmd, [])
    ensures Complete(l, err, fits).op.None? && err.Some? ==> Complete(l, err, fits).trace.last.err.Some?
  {
    hide MayRetry;
  }

  /** The status a batch ends with is that of its last ACK for the command, or
      the retained one if it holds none. */
  lemma BatchHeeds(l: Link, ps: seq<Packet>, fits: bool, cmd: nat)
    requires Rested(l) && Hears(l, false, cmd)
    ensures Heeds(l, Batch(l, ps, fits), cmd, Statuses(ps, cmd))
  {
    Resting(l);
    var heard := Statuses(ps, cmd);
    if l.op.value.phase == Send {
      ReadHeard(l, false, ps, cmd);
      hide Rested, ReceiveAll, Noted, Statuses;
    } else {
      var l1 := l.(op := Some(l.op.value.(batching := On)));
      ReadHeard(l1, true, ps, cmd);
      var r := ReceiveAll(l1, true, ps);
      assert r.joined.Off? && l.op.value.phase != McuWait;
      ReceiveAllKeeps(l1, true, ps);
      CommandsAreNotMcu(r);
      hide Rested, ReceiveAll, Noted, Statuses, Receiving, Ok;
      YieldHeeds(r, fits, cmd);
    }
  }

  lemma CommandsAreNotMcu(l: Link)
    requires Ok(l) && l.op.Some? && l.op.value.command.On?
    ensures l.op.value.phase != McuWait
  {
  }

  lemma YieldHeeds(l: Link, fits: bool, cmd: nat)
    requires Hears(l, true, cmd) && l.joined.Off? && l.op.value.phase != McuWait
    ensures Heeds(l, Yield(l, fits), cmd, [])
  {
    hide Complete, Noted;
    var o := l.op.value;
    if o.pending.On? {
      ConcludeHeeds(l.(op := Some(o.(batching := Off, pending := Off, err := None))), o.err, fits, cmd);
    }
  }

  /** Whatever a read holds, a command that ends with it reports the last ACK for
      its byte in that read, or the one retained from before when it holds none. */
  lemma EndsWithLast(l: Link, ps: seq<Packet>, fits: bool)
    requires Rested(l) && l.op.Some? && AwaitsCommand(l.op.value)
    ensures var r := Batch(l, ps, fits); var o := l.op.value;
      r.op.None? ==> r.trace.After? && r.trace.last.Finished? && r.trace.last.ack == LastOr(Statuses(ps, o.cmd), o.ack)
  {
    Resting(l);
    BatchHeeds(l, ps, fits, l.op.value.cmd);
  }

  // ------------------------------------------------------------ Whole runs

  /** After a run: the running command has noted exactly what arrived since it
      was sent; a failed reader leaves a command only its write to finish. */
  predicate Attentive(events: seq<Event>) {
    var l := Reached(events);
    && Rested(l)
    && (l.op.Some? && l.op.value.command.On? && l.readerErr.None? ==>
          Noted(l.trace, l.op.value.cmd) == Heard(SinceSent(events), l.op.value.cmd))
    && Stranded(l)
  }

  lemma {:induction false} Appended(l: Link, events: seq<Event>, e: Event)
    ensures Execute(l, events + [e]) == Step(Execute(l, events), e)
    decreases |events|
  {
    hide Step;
    if events == [] {
      assert (events + [e])[1..] == [];
    } else {
      assert (events + [e])[1..] == events[1..] + [e];
      Appended(Step(l, events[0]), events[1..], e);
    }
  }

  /** What one event does to a running command. */
  lemma StepHeeds(l: Link, e: Event, cmd: nat)
    requires Rested(l) && Hears(l, false, cmd) && l.readerErr.None?
    ensures Heeds(l, Step(l, e), cmd, HeardIn(e, cmd))
  {
    Resting(l);
    hide Rested, Noted, Statuses, Batch;
    if e.OutDone? {
      if l.op.value.phase == Send { WrittenHeeds(l, e.err, e.fits, cmd); }
    } else if e.Received? {
      BatchHeeds(l, e.packets, e.fits, cmd);
    } else if e.ReaderFailed? {
      hide Complete;
      ConcludeHeeds(l.(readerErr := Some(e.fault)), Some(e.fault), true, cmd);
    } else {
      hide Complete;
      ConcludeHeeds(l, Some(TimedOut), true, cmd);
      ConcludeHeeds(l, Some(IoCancelled), true, cmd);
    }
  }

  lemma WrittenHeeds(l: Link, err: Option<Err>, fits: bool, cmd: nat)
    requires Hears(l, false, cmd) && l.op.value.batching.Off? && l.readerErr.None?
    ensures Heeds(l, Written(l, err, fits), cmd, [])
  {
    hide Complete, Noted;
    var l1 := l.(op := Some(l.op.value.(phase := Ack)));
    ConcludeHeeds(l, err, fits, cmd);
    ConcludeHeeds(l1, None, fits, cmd);
  }

  /** A command whose reader has failed can only end in error. */
  lemma FailedReader(l: Link, e: Event)
    requires Rested(l) && l.op.Some? && l.op.value.command.On? && l.readerErr.Some? && l.op.value.phase == Send
    ensures var r := Step(l, e);
      if r.op.Some? then r.op.value.command.On? && r.readerErr.Some? && r.op.value.phase == Send
      else r.trace.After? && r.trace.last.Finished? && r.trace.last.err.Some?
  {
    hide Batch;
  }

  /** A new command starts with nothing heard and no ACK. */
  lemma StartsSilent(l: Link, e: Event)
    requires Rested(l) && l.op.None?
    ensures var r := Step(l, e);
      r.op.Some? && r.op.value.command.On? ==> JustSent(r.trace) && r.op.value.phase == Send
  {
    hide Rested;
    if e.Received? { NobodyReceives(l, e.packets); }
    hide ReceiveAll;
  }

  lemma {:induction false} NobodyReceives(l: Link, ps: seq<Packet>)
    requires l.op.None?
    ensures ReceiveAll(l, false, ps).op.None?
    decreases |ps|
  {
    if ps != [] {
      NobodyReceives(Receive(l, false, ps[0]), ps[1..]);
    }
  }

  /** A command never takes over a wait, nor a wait a command. */
  lemma WaitsStay(l: Link, e: Event)
    requires Rested(l) && l.op.Some? && l.op.value.command.Off?
    ensures Step(l, e).op.Some? ==> Step(l, e).op.value.command.Off?
  {
    Resting(l);
    hide Rested;
    if e.Received? && l.readerErr.None? {
      StillWaits(l, e.packets);
    }
    hide ReceiveAll;
  }

  lemma {:induction false} StillWaits(l: Link, ps: seq<Packet>)
    requires Rested(l) && l.op.Some? && l.op.value.command.Off?
    ensures var r := ReceiveAll(l.(op := Some(l.op.value.(batching := On))), true, ps);
      l.op.value.phase != Send && r.op.Some? && r.op.value.command.Off? && r.op.value.retries.Off?
  {
    WaitHears(l.(op := Some(l.op.value.(batching := On))), ps);
  }

  lemma {:induction false} WaitHears(l: Link, ps: seq<Packet>)
    requires l.op.Some? && l.op.value.command.Off? && l.op.value.retries.Off? && l.op.value.batching.On?
    ensures var r := ReceiveAll(l, true, ps);
      r.op.Some? && r.op.value.command.Off? && r.op.value.retries.Off? && r.op.value.batching.On?
    decreases |ps|
  {
    if ps != [] {
      WaitHearsOne(l, ps[0]);
      hide Receive;
      WaitHears(Receive(l, true, ps[0]), ps[1..]);
    }
  }

  lemma WaitHearsOne(l: Link, p: Packet)
    requires l.op.Some? && l.op.value.command.Off? && l.op.value.retries.Off? && l.op.value.batching.On?
    ensures var r := Receive(l, true, p);
      r.op.Some? && r.op.value.command.Off? && r.op.value.retries.Off? && r.op.value.batching.On?
  {
  }

  /** A failed reader leaves a command only its write to finish. */
  predicate Stranded(l: Link) {
    l.op.Some? && l.op.value.command.On? && l.readerErr.Some? ==> l.op.value.phase == Send
  }

  /** A command that hears goes on from the same command's hearing, or was just sent. */
  predicate GoesOn(l: Link, r: Link, e: Event) {
    r.op.Some? && r.op.value.command.On? && r.readerErr.None? && !JustSent(r.trace) ==>
      && l.op.Some? && l.op.value.command.On? && l.readerErr.None? && l.op.value.cmd == r.op.value.cmd
      && Noted(r.trace, r.op.value.cmd) == Noted(l.trace, l.op.value.cmd) + HeardIn(e, l.op.value.cmd)
  }

  lemma StepGoesOn(l: Link, e: Event)
    requires Rested(l) && Stranded(l)
    ensures Stranded(Step(l, e)) && GoesOn(l, Step(l, e), e)
  {
    if l.op.None? {
      StartsSilent(l, e);
    } else if l.op.value.command.Off? {
      WaitsStay(l, e);
    } else if l.readerErr.Some? {
      FailedReader(l, e);
    } else {
      StepHeeds(l, e, l.op.value.cmd);
      ReaderFaults(l, e);
    }
    hide Step, Rested, HeardIn, Noted;
  }

  lemma {:induction false} StaysAttentive(events: seq<Event>)
    ensures Attentive(events)
    decreases |events|
  {
    RunKeeps(Fresh, events);
    if events != [] {
      StaysAttentive(events[..|events| - 1]);
      AttentiveOn(events[..|events| - 1], events[|events| - 1]);
      assert events == events[..|events| - 1] + [events[|events| - 1]];
    }
  }

  lemma AttentiveOn(events: seq<Event>, e: Event)
    requires Attentive(events)
    ensures Attentive(events + [e])
  {
    Appended(Fresh, events, e);
    Extended(events, e);
    var l := Reached(events);
    StepKeeps(l, e);
    StepGoesOn(l, e);
    hide Step, Rested, Execute, HeardIn, Noted, SinceSent, Heard;
  }

  /** An event that fails the reader of a running command leaves it only its write. */
  lemma ReaderFaults(l: Link, e: Event)
    requires Rested(l) && l.op.Some? && l.op.value.command.On? && l.readerErr.None?
    ensures var r := Step(l, e); r.op.Some? && r.readerErr.Some? ==> r.op.value.phase == Send
  {
    hide Batch;
    if e.Received? { ReaderKept(l, e.packets, e.fits); }
  }

  lemma ReaderKept(l: Link, ps: seq<Packet>, fits: bool)
    requires Rested(l) && l.op.Some? && l.op.value.command.On?
    ensures Batch(l, ps, fits).op.Some? ==> Batch(l, ps, fits).readerErr == l.readerErr
  {
    Resting(l);
    var cmd := l.op.value.cmd;
    if l.op.value.phase == Send {
      ReadHeard(l, false, ps, cmd);
    } else {
      ReadHeard(l.(op := Some(l.op.value.(batching := On))), true, ps, cmd);
    }
    hide ReceiveAll, Noted, Statuses, Rested;
  }

  lemma Extended(events: seq<Event>, e: Event)
    ensures var now := events + [e];
      && SinceSent(now) == (if JustSent(Reached(now).trace) then [] else SinceSent(events) + [e])
      && forall cmd: nat :: Heard(SinceSent(events) + [e], cmd) == Heard(SinceSent(events), cmd) + HeardIn(e, cmd)
  {
    hide Reached, JustSent;
    var now := events + [e];
    assert now[..|now| - 1] == events;
    var since := SinceSent(events);
    assert (since + [e])[..|since|] == since;
  }

  // ------------------------------------------------------------ Main results

  /** Over every run, a command that succeeds reports the status of the last ACK
      for its byte that arrived after its last submission. One odd ACK did arrive
      since; the reported status is odd exactly when no even one came after it. */
  lemma ReportedStatus(events: seq<Event>, e: Event)
    requires Reached(events).op.Some? && Reached(events + [e]).op.None?
    requires var t := Reached(events + [e]).trace; t.After? && t.last.Finished? && t.last.err.None?
    ensures var done := Reached(events + [e]).trace.last; var heard := Heard(SinceSent(events + [e]), done.cmd);
      && (exists s | s in heard :: s % 2 == 1)
      && heard != [] && done.ack == heard[|heard| - 1]
  {
    hide Reached, Execute, Noted, Heard, SinceSent, Lawful, AckSince, OddAckSince;
    ReachedLawful(events + [e]);
    var t := Reached(events + [e]).trace;
    LastRule(t);
    Listened(events, e);
    NotedIs(t.before, t.last.cmd);
  }

  lemma ReachedLawful(events: seq<Event>)
    ensures Lawful(Reached(events).trace)
  {
    RunsAreLawful(events);
  }

  lemma LastRule(t: Trace)
    requires Lawful(t) && t.After? && t.last.Finished?
    ensures t.last.ack == AckSince(t.before, t.last.cmd) && (t.last.err.None? ==> OddAckSince(t.before, t.last.cmd))
  {
  }

  /** When an event ends a command with success, what was noted is what arrived. */
  lemma Listened(events: seq<Event>, e: Event)
    requires Reached(events).op.Some? && Reached(events + [e]).op.None?
    requires var t := Reached(events + [e]).trace; t.After? && t.last.Finished? && t.last.err.None?
    ensures var t := Reached(events + [e]).trace;
      Noted(t.before, t.last.cmd) == Heard(SinceSent(events + [e]), t.last.cmd)
  {
    StaysAttentive(events);
    Appended(Fresh, events, e);
    Extended(events, e);
    LastStep(Reached(events), e);
    hide Step, Rested, Execute, HeardIn, Noted, SinceSent, Heard;
  }

  /** The step that ends a command with success. */
  lemma LastStep(l: Link, e: Event)
    requires Rested(l) && l.op.Some? && Step(l, e).op.None?
    requires var t := Step(l, e).trace; t.After? && t.last.Finished? && t.last.err.None?
    requires l.op.value.command.On? && l.readerErr.Some? ==> l.op.value.phase == Send
    ensures var t := Step(l, e).trace;
      && l.op.value.command.On? && l.readerErr.None? && l.op.value.cmd == t.last.cmd
      && Noted(t.before, t.last.cmd) == Noted(l.trace, t.last.cmd) + HeardIn(e, t.last.cmd)
  {
    if l.op.value.command.Off? {
      WaitsEnd(l, e);
    } else if l.readerErr.Some? {
      FailedReader(l, e);
    } else {
      StepHeeds(l, e, l.op.value.cmd);
    }
    hide Step, Rested, HeardIn, Noted;
  }

  lemma WaitsEnd(l: Link, e: Event)
    requires Rested(l) && l.op.Some? && l.op.value.command.Off?
    ensures var r := Step(l, e); r.op.None? ==> r.trace.After? && r.trace.last.WaitFinished?
  {
    Resting(l);
    hide Rested;
    if e.Received? && l.readerErr.None? {
      StillWaits(l, e.packets);
    }
    hide ReceiveAll;
  }

  /** Something a history holds. */
  predicate Happened(t: Trace, h: Happening) {
    t.After? && (t.last == h || Happened(t.before, h))
  }

  lemma {:induction false} LawfulSuccess(t: Trace, cmd: nat, ack: nat)
    requires Lawful(t) && Happened(t, Finished(cmd, On, None, ack))
    ensures SlotOf(cmd, On) != NoSlot
  {
    if t.last != Finished(cmd, On, None, ack) {
      LawfulSuccess(t.before, cmd, ack);
    }
  }

  /** A data command whose byte the policy table gives no response slot never
      succeeds in any run. */
  lemma UnknownDataFails(events: seq<Event>, cmd: nat, ack: nat)
    requires SlotOf(cmd, On) == NoSlot
    ensures !Happened(Reached(events).trace, Finished(cmd, On, None, ack))
  {
    RunsAreLawful(events);
    hide Execute;
    if Happened(Reached(events).trace, Finished(cmd, On, None, ack)) {
      LawfulSuccess(Reached(events).trace, cmd, ack);
    }
  }

  /** A packet that publishes a slot. */
  function Answer(slot: Slot): Packet {
    var category := match slot
      case Manual => 3 case Config => 9 case System => 0x0a case Image => 2 case Register => 8
      case Otp => 0x0a case Production => 0x0e case Firmware => 0x0f case NoSlot => 0;
    Packet(category, if slot == Manual || slot == Otp then 3 else 0, seq(MANUAL_RESPONSE_LEN, _ => 0), Frame, FdtNothing)
  }

  /** The shortest successful run of a data command. */
  function Exchange(cmd: nat): seq<Event> {
    [CommandRequested(cmd, On), OutDone(None, true), Received([AckPacket(cmd, 1), Answer(SlotOf(cmd, On))], true)]
  }

  lemma ExchangeSucceeds(cmd: nat)
    requires SlotOf(cmd, On) != NoSlot
    ensures exists ack :: Happened(Reached(Exchange(cmd)).trace, Finished(cmd, On, None, ack))
  {
    var es := Exchange(cmd);
    var ps := es[2].packets;
    assert es[..2][..1] == [es[0]] && [es[0]][..0] == [] && es == es[..2] + [es[2]] && es[..2] == [es[0]] + [es[1]];
    Appended(Fresh, [], es[0]);
    Appended(Fresh, [es[0]], es[1]);
    Appended(Fresh, es[..2], es[2]);
    assert [] + [es[0]] == [es[0]];
    RunKeeps(Fresh, es[..2]);
    var l := Written(Command(Fresh, cmd, On), None, true);
    assert Reached(es[..2]) == l;
    assert Reached(es) == Batch(l, ps, true);
    hide Execute, Reached, Step;
    BothEnd(l, ps, cmd);
  }

  lemma BothEnd(l: Link, ps: seq<Packet>, cmd: nat)
    requires SlotOf(cmd, On) != NoSlot && Rested(l) && l == Written(Command(Fresh, cmd, On), None, true)
    requires ps == [AckPacket(cmd, 1), Answer(SlotOf(cmd, On))]
    ensures exists ack :: Happened(Batch(l, ps, true).trace, Finished(cmd, On, None, ack))
  {
    var slot := SlotOf(cmd, On);
    var r := Batch(l, ps, true);
    assert OddAck(ps[0], cmd) && Publishes(ps[1], slot);
    if slot == Image {
      ImageEnds(l, ps, cmd);
    } else {
      NoneFails(ps, cmd, false);
      DataEndsCommand(l, ps, true);
    }
    hide Batch, Rested;
    assert Happened(r.trace, Finished(cmd, On, None, r.trace.last.ack));
  }

  lemma ImageEnds(l: Link, ps: seq<Packet>, cmd: nat)
    requires SlotOf(cmd, On) == Image && l == Written(Command(Fresh, cmd, On), None, true)
    requires ps == [AckPacket(cmd, 1), Answer(Image)]
    ensures var r := Batch(l, ps, true); r.trace.After? && r.trace.last == Finished(cmd, On, None, 1)
  {
    assert ps[1..] == [ps[1]];
    var l1 := l.(op := Some(l.op.value.(batching := On)));
    var l2 := Receive(l1, true, ps[0]);
    var l3 := Receive(l2, true, ps[1]);
    assert ReceiveAll(l1, true, ps) == ReceiveAll(l2, true, [ps[1]]) == ReceiveAll(l3, true, []) == l3;
  }

  /** A data command byte can succeed, in some run, exactly when the policy table
      gives it a response slot. */
  lemma SucceedsIff(cmd: nat)
    ensures (exists events, ack :: Happened(Reached(events).trace, Finished(cmd, On, None, ack)))
      <==> SlotOf(cmd, On) != NoSlot
  {
    if SlotOf(cmd, On) != NoSlot {
      ExchangeSucceeds(cmd);
    } else {
      forall events, ack ensures !Happened(Reached(events).trace, Finished(cmd, On, None, ack)) {
        UnknownDataFails(events, cmd, ack);
      }
    }
    hide *;
  }
}
