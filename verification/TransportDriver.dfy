/** The exchange as transport.c runs it: one object whose fields every callback
    updates in place, proved against the specification in module Transport. */
module TransportDriver {
  import opened Common
  import opened Transport
  import opened TransportSafety

  class Channel {
    // The operation that owns the logical wait (valid while `owned`).
    var owned: bool
    var phase: Phase
    var command: Flag
    var cmd: nat
    var expects: Flag
    var retries: Flag
    var slot: Slot
    var ack: nat
    var attempt: nat
    var batching: Flag
    var pending: Flag
    var err: Option<Err>

    // Published events and the reader.
    var ready: set<Slot>
    var imageFailed: Flag
    var imageHistory: Flag
    var gtlsPending: Flag
    var gtlsActive: Flag
    var mcuReady: Flag
    var fdtPending: Flag
    var readerErr: Option<Err>
    var joined: Flag

    /** What has happened so far. */
    ghost var trace: Trace

    ghost function Op(): Operation
      reads this
    {
      Operation(phase, command, cmd, expects, retries, slot, ack, attempt,
                batching, pending, err)
    }

    ghost function State(): Link
      reads this
    {
      Link(if owned then Some(Op()) else None, ready,
           Signals(imageFailed, imageHistory, gtlsPending, gtlsActive,
                   mcuReady, fdtPending),
           readerErr, joined, trace)
    }

    constructor ()
      ensures State() == Fresh
    {
      owned, phase, command, cmd, expects, retries := false, Idle, Off, 0, Off, Off;
      slot, ack, attempt, batching, pending, err := NoSlot, 0, 0, Off, Off, None;
      ready, readerErr, joined, trace := {}, None, Off, Start;
      imageFailed, imageHistory, gtlsPending, gtlsActive, mcuReady, fdtPending := Off, Off, Off, Off, Off, Off;
    }

    method Submit()
      requires owned
      modifies this
      ensures State() == Transport.Submit(old(State()))
    {
      phase := Send;
      attempt := attempt + 1;
      ack := 0;
      ready := ready - {slot};
      trace := After(trace, Sent(cmd));
    }

    method Complete(error: Option<Err>, fits: bool)
      requires owned
      modifies this
      ensures State() == Transport.Complete(old(State()), error, fits)
    {
      if batching.On? {
        pending := On;
        if err.None? { err := error; }
      } else {
        var waits := phase == Ack || phase == Response;
        if error.Some? {
          Conclude(error);
        } else if slot == Image && imageFailed.On? && waits {
          Conclude(Some(UsbIo));
        } else if expects.On? && waits && SharesCache(slot) && (slot !in ready || !fits) {
          Conclude(Some(Protocol));
        } else {
          Conclude(None);
        }
      }
    }

    method Conclude(error: Option<Err>)
      requires owned
      modifies this
      ensures State() == Transport.Conclude(old(State()), error)
    {
      if error.Some? && readerErr.None? && retries.On? && attempt == 1
         && (phase == Send || phase == Ack || (slot != NoSlot && phase == Response)) && NativeZero(phase, error.value) {
        Submit();
      } else {
        owned := false;
        trace := After(trace, if command.On? then Finished(cmd, expects, error, ack) else WaitFinished(error));
      }
    }

    method TakeAck(fits: bool)
      requires owned
      modifies this
      ensures State() == Transport.TakeAck(old(State()), fits)
    {
      if expects.Off? || slot in ready {
        Complete(None, fits);
      } else {
        phase := Response;
      }
    }

    method Written(error: Option<Err>, fits: bool)
      requires owned
      modifies this
      ensures State() == Transport.Written(old(State()), error, fits)
    {
      if error.Some? {
        Complete(error, fits);
        return;
      }
      phase := Ack;
      if readerErr.Some? {
        Complete(readerErr, fits);
      } else if ack % 2 == 1 {
        TakeAck(fits);
      }
    }

    method ReceiveNotice(live: bool, selector: nat)
      requires live ==> owned
      modifies this
      ensures State() == Transport.ReceiveNotice(old(State()), live, selector)
    {
      if selector <= 1 {
        fdtPending := On;
        if live && phase == EventWait { Complete(None, true); }
      }
    }

    method NoteImage(image: ImageVerdict)
      modifies this`ready, this`imageFailed, this`imageHistory, this`gtlsPending, this`trace
      ensures State() == ImageNoted(old(State()), image)
    {
      if image.Frame? {
        imageFailed := Off;
        ready := ready + {Image};
        trace := After(trace, Published(Image));
      } else {
        if image.BadFrame? { imageFailed := On; }
        if imageHistory.On? {
          imageHistory := Off;
          if gtlsActive.Off? { gtlsPending := On; }
        } else {
          imageHistory := On;
        }
      }
    }

    method ReceiveImage(live: bool, current: bool, image: ImageVerdict)
      requires (live ==> owned) && (current ==> live)
      modifies this
      ensures State() == Transport.ReceiveImage(old(State()), live, current, image)
    {
      hide Transport.Complete;
      NoteImage(image);
      hide ImageNoted;
      if live && phase == EventWait && gtlsPending.On? {
        Complete(None, true);
      } else if current && phase == Response && slot == Image && Image in ready {
        Complete(None, true);
      }
    }

    method ReceiveResponse(live: bool, current: bool, signalled: Slot, length: nat)
      requires (live ==> owned) && (current ==> live)
      modifies this
      ensures State() == Transport.ReceiveResponse(old(State()), live, current, signalled, length)
    {
      if signalled == Manual && length < MANUAL_RESPONSE_LEN {
        if live { Complete(Some(Protocol), true); }
        return;
      }
      ready := ready + {signalled};
      trace := After(trace, Published(signalled));
      if current && phase == Response && slot == signalled { Complete(None, true); }
    }

    method ReceiveFdt(live: bool, fdt: FdtVerdict)
      requires live ==> owned
      modifies this
      ensures State() == Transport.ReceiveFdt(old(State()), live, fdt)
    {
      match fdt
      case FdtMalformed => if live { Complete(Some(Protocol), true); }
      case FdtNothing =>
      case FdtEvent =>
        fdtPending := On;
        if live && phase == EventWait { Complete(None, true); }
    }

    method ReceiveAck(payload: seq<nat>)
      requires owned
      modifies this
      ensures State() == Transport.ReceiveAck(old(State()), payload)
    {
      if |payload| < 2 {
        Complete(Some(Protocol), true);
      } else if payload[0] == cmd && payload[1] % 2 == 1 {
        TakeAck(true);
      }
    }

    method RecordAck(p: Packet)
      modifies this`ack, this`trace
      ensures State() == Transport.RecordAck(old(State()), p)
    {
      if IsAck(p) && owned && command.On? && p.payload[0] == cmd {
        ack := p.payload[1];
        trace := After(trace, Acked(p.payload[0], p.payload[1]));
      }
    }

    /** goodix_rx_cell on a completed packet. */
    method Receive(live: bool, p: Packet)
      requires live ==> owned
      modifies this
      ensures State() == Transport.Receive(old(State()), live, p)
    {
      if p.Overflow? {
        if live { Complete(Some(Protocol), true); }
      } else if p.Packet? {
        var current := live && pending.Off? && (phase == Ack || phase == Response);
        var acking := current && phase == Ack;
        RecordAck(p);
        var signalled := SlotSignalled(p.category, p.command);
        if p.category == 0x0c {
          ReceiveNotice(live, p.command);
        } else if p.category == 2 {
          ReceiveImage(live, current, p.image);
        } else if p.category == 0x0d {
          mcuReady := On;
        } else if (p.category == 0x0f || (p.category == 9 && p.command == 2)) && |p.payload| == 0 {
          if live { Complete(Some(Protocol), true); }
        } else if signalled != NoSlot {
          ReceiveResponse(live, current, signalled, |p.payload|);
        } else if p.category == 3 && (p.command == 1 || p.command == 2) {
          ReceiveFdt(live, p.fdt);
        } else if p.category == ACK_CATEGORY && p.command == 0 && acking {
          ReceiveAck(p.payload);
        }
      }
    }

    /** goodix_rx_cb: all packets of one read, then the deferred completion. */
    method Batch(ps: seq<Packet>, fits: bool)
      requires Rested(State())
      modifies this
      ensures State() == Transport.Batch(old(State()), ps, fits)
      ensures Rested(State())
    {
      ghost var before := State();
      var live := owned && phase != Send;
      if live { batching := On; }
      ghost var begun := State();
      assert Receiving(begun, live);
      var i := 0;
      while i < |ps|
        invariant 0 <= i <= |ps|
        invariant Receiving(State(), live)
        invariant ReceiveAll(State(), live, ps[i..]) == ReceiveAll(begun, live, ps)
      {
        ReceiveKeeps(State(), live, ps[i]);
        assert ps[i..][0] == ps[i] && ps[i..][1..] == ps[i + 1..];
        Receive(live, ps[i]);
        i := i + 1;
      }
      assert ps[i..] == [];
      assert State() == ReceiveAll(begun, live, ps);
      BatchKeeps(before, ps, fits);
      if live { Yield(fits); }
      else if joined.On? { joined, readerErr := Off, None; }
    }

    method Yield(fits: bool)
      requires owned
      modifies this
      ensures State() == Transport.Yield(old(State()), fits)
    {
      hide Transport.Complete;
      batching := Off;
      if joined.On? {
        joined, readerErr := Off, None;
      } else if err.None? && phase == McuWait && mcuReady.On? {
        mcuReady := Off;
        Complete(None, true);
      } else if pending.On? {
        var e := err;
        pending, err := Off, None;
        Complete(e, fits);
      }
    }

    /** A fresh operation object; goodix_transport_new. */
    method Own(kind: Phase, isCommand: Flag, selector: nat, wantsData: Flag)
      requires !owned
      modifies this`owned, this`phase, this`command, this`cmd, this`expects, this`retries, this`slot,
               this`ack, this`attempt, this`batching, this`pending, this`err
      ensures owned
      ensures Op() == Operation(kind, isCommand, selector, wantsData, Off, NoSlot, 0, 0, Off, Off, None)
    {
      owned, phase, command, cmd, expects := true, kind, isCommand, selector, wantsData;
      retries, slot, ack, attempt, batching, pending, err := Off, NoSlot, 0, 0, Off, Off, None;
    }

    /** goodix_transport_command. */
    method Command(selector: nat, wantsData: Flag) returns (accepted: bool)
      modifies this
      ensures State() == Transport.Command(old(State()), selector, wantsData)
      ensures accepted <==> !old(owned) && old(joined).Off?
    {
      hide Transport.Submit;
      accepted := !owned && joined.Off?;
      if accepted {
        Own(Send, On, selector, wantsData);
        SetPolicy();
        assert Op() == CommandOperation(selector, wantsData);
        trace := After(trace, Accepted(selector, wantsData));
        assert State() == Note(old(State()).(op := Some(Op())), Accepted(selector, wantsData));
        Submit();
      }
    }

    /** goodix_cmd_set_policy. */
    method SetPolicy()
      requires owned
      modifies this`retries, this`slot
      ensures retries == ToFlag(Retries(cmd, expects)) && slot == SlotOf(cmd, expects)
    {
      var policy := PolicyOf(cmd);
      slot := if policy.Some? && expects.On? then policy.value.slot else NoSlot;
      retries := if policy.Some? && policy.value.retry && (expects.On? <==> policy.value.slot != NoSlot) then On else Off;
    }

    /** goodix_transport_wait_event and goodix_transport_wait_mcu. */
    method Wait(kind: Phase) returns (accepted: bool)
      requires kind == EventWait || kind == McuWait
      modifies this
      ensures State() == Transport.Wait(old(State()), kind)
      ensures accepted <==> !old(owned) && old(joined).Off?
    {
      accepted := !owned && joined.Off?;
      if accepted {
        Own(kind, Off, 0, Off);
        trace := After(trace, Waiting);
        Begin();
      }
    }

    method Begin()
      requires owned
      modifies this
      ensures State() == WaitBegun(old(State()))
    {
      if readerErr.Some? {
        Complete(readerErr, true);
      } else if phase == EventWait && (fdtPending.On? || gtlsPending.On?) {
        Complete(None, true);
      } else if phase == McuWait && mcuReady.On? {
        mcuReady := Off;
        Complete(None, true);
      }
    }
  }
}
