/**
 The command exchange of drivers/goodix53x5/device/transport.c: one operation at
 a time sends a command, waits for its ACK and, for data commands, for the event
 of its response slot, while one continuous reader publishes whatever arrives.

 Packets are those the reassembler (module Reassembly) hands over.  Bytes of the
 cached payloads, the image decoder and the FDT parser are outside; what they
 decide comes with the packet.
 */
module Transport {
  import opened Common

  // ---------------------------------------------------------------- Entities

  datatype Slot = NoSlot | Manual | Config | System | Image | Register | Otp | Production | Firmware

  datatype Phase = Idle | Send | Ack | Response | EventWait | McuWait

  /** Error classes the exchange tells apart; the first five are what the native
      driver reports as a zero result. */
  datatype Err =
    | TimedOut | UsbIo | UsbFailed | UsbNotSupported | UsbInternal
    | UsbCancelled | UsbOther | IoCancelled | Protocol

  datatype Policy = Policy(slot: Slot, retry: bool)

  /** command_policies: response slot and retry permission by command byte. */
  function PolicyOf(cmd: nat): Option<Policy> {
    if cmd == 0x32 || cmd == 0x34 || cmd == 0x60 || cmd == 0x00 then Some(Policy(NoSlot, true))
    else if cmd == 0x36 then Some(Policy(Manual, true))
    else if cmd == 0x90 then Some(Policy(Config, true))
    else if cmd == 0xa8 then Some(Policy(System, true))
    else if cmd == 0x20 then Some(Policy(Image, false))
    else if cmd == 0xa2 then Some(Policy(System, false))
    else if cmd == 0x82 then Some(Policy(Register, true))
    else if cmd == 0xa6 then Some(Policy(Otp, true))
    else if cmd == 0xe4 || cmd == 0xe2 then Some(Policy(Production, true))
    else if cmd == 0xae || cmd == 0xd2 then Some(Policy(NoSlot, false))
    else None
  }

  /** goodix_cmd_set_policy: only data commands have a response slot. */
  function SlotOf(cmd: nat, expects: Flag): Slot {
    if expects.On? && PolicyOf(cmd).Some? then PolicyOf(cmd).value.slot else NoSlot
  }

  predicate Retries(cmd: nat, expects: Flag) {
    PolicyOf(cmd).Some? && PolicyOf(cmd).value.retry && (expects.On? <==> PolicyOf(cmd).value.slot != NoSlot)
  }

  /** What happened on the link, oldest first. */
  datatype Happening =
    | Accepted(cmd: nat, expects: Flag)
    | Waiting
    | Sent(cmd: nat)
    | Acked(cmd: nat, status: nat)
    | Published(slot: Slot)
    | Finished(cmd: nat, expects: Flag, err: Option<Err>, ack: nat)
    | WaitFinished(err: Option<Err>)

  datatype Trace = Start | After(before: Trace, last: Happening)

  /** GoodixTransport: the operation that owns the logical wait. */
  datatype Operation = Operation(
    phase: Phase,
    command: Flag,
    cmd: nat,
    expects: Flag,
    retries: Flag,
    slot: Slot,
    ack: nat,
    attempt: nat,
    batching: Flag,
    pending: Flag,
    err: Option<Err>)

  /** Events published independently of the operation that waits. */
  datatype Signals = Signals(
    imageFailed: Flag,
    imageHistory: Flag,
    gtlsPending: Flag,
    gtlsActive: Flag,
    mcuReady: Flag,
    fdtPending: Flag)

  datatype Link = Link(
    op: Option<Operation>,
    ready: set<Slot>,
    sig: Signals,
    readerErr: Option<Err>,
    joined: Flag,
    trace: Trace)

  /** What the image decoder makes of a category-2 packet. */
  datatype ImageVerdict = Frame | BadFrame | Unauthenticated

  datatype FdtVerdict = FdtEvent | FdtNothing | FdtMalformed

  /** A completed reassembly, or its failure. */
  datatype Packet =
    | Overflow
    | Garbage
    | Packet(category: nat, command: nat, payload: seq<nat>, image: ImageVerdict, fdt: FdtVerdict)

  const ACK_CATEGORY := 0x0b
  const MANUAL_RESPONSE_LEN := 28

  // -------------------------------------------------------------- Operations

  function Note(l: Link, what: Happening): Link {
    l.(trace := After(l.trace, what))
  }

  /** goodix_transport_send: a new attempt clears its ACK and its response event. */
  function Submit(l: Link): Link
    requires l.op.Some?
  {
    var o := l.op.value;
    Note(l.(op := Some(o.(phase := Send, attempt := o.attempt + 1, ack := 0)), ready := l.ready - {o.slot}), Sent(o.cmd))
  }

  predicate AwaitsCommand(o: Operation) {
    o.phase == Ack || o.phase == Response
  }

  /** goodix_cmd_native_zero. */
  predicate NativeZero(phase: Phase, e: Err) {
    e.TimedOut? || (phase == Send && (e.UsbIo? || e.UsbFailed? || e.UsbNotSupported? || e.UsbInternal?))
  }

  /** goodix_cmd_retry's conditions. */
  predicate MayRetry(o: Operation, e: Err) {
    && o.retries.On? && o.attempt == 1
    && (o.phase == Send || o.phase == Ack || (o.slot != NoSlot && o.phase == Response))
    && NativeZero(o.phase, e)
  }

  predicate SharesCache(s: Slot) {
    s.System? || s.Register? || s.Otp? || s.Production?
  }

  /** The error goodix_transport_complete ends with: a rejected image and an
      unusable cached view turn success into failure. */
  function FinalError(l: Link, err: Option<Err>, fits: bool): Option<Err>
    requires l.op.Some?
  {
    var o := l.op.value;
    if err.Some? then err
    else if o.slot == Image && l.sig.imageFailed.On? && AwaitsCommand(o) then Some(UsbIo)
    else if o.expects.On? && AwaitsCommand(o) && SharesCache(o.slot) && (o.slot !in l.ready || !fits) then Some(Protocol)
    else None
  }

  /** goodix_transport_complete.  While a batch of cells is processed it only
      records the first error; otherwise the command is sent again or the
      operation is detached and reported. */
  function Complete(l: Link, err: Option<Err>, fits: bool): Link
    requires l.op.Some?
  {
    var o := l.op.value;
    if o.batching.On? then l.(op := Some(o.(pending := On, err := if o.err.None? then err else o.err)))
    else Conclude(l, FinalError(l, err, fits))
  }

  function Conclude(l: Link, err: Option<Err>): Link
    requires l.op.Some?
  {
    var o := l.op.value;
    if err.Some? && l.readerErr.None? && MayRetry(o, err.value) then Submit(l)
    else
      Note(l.(op := None),
           if o.command.On? then Finished(o.cmd, o.expects, err, o.ack) else WaitFinished(err))
  }

  function NewOperation(phase: Phase): Operation {
    Operation(phase, Off, 0, Off, Off, NoSlot, 0, 0, Off, Off, None)
  }

  /** The operation a request to send a command creates. */
  function CommandOperation(cmd: nat, expects: Flag): Operation {
    NewOperation(Send).(command := On, cmd := cmd, expects := expects,
                        retries := ToFlag(Retries(cmd, expects)), slot := SlotOf(cmd, expects))
  }

  /** goodix_transport_ack: an odd ACK ends a command without data, and one
      whose response was already published. */
  function TakeAck(l: Link, fits: bool): Link
    requires l.op.Some?
  {
    var o := l.op.value;
    if o.expects.Off? || o.slot in l.ready then Complete(l, None, fits)
    else l.(op := Some(o.(phase := Response)))
  }

  /** goodix_tx_cb. */
  function Written(l: Link, err: Option<Err>, fits: bool): Link
    requires l.op.Some?
  {
    if err.Some? then Complete(l, err, fits)
    else
      var l1 := l.(op := Some(l.op.value.(phase := Ack)));
      if l.readerErr.Some? then Complete(l1, l.readerErr, fits)
      else if l.op.value.ack % 2 == 1 then TakeAck(l1, fits)
      else l1
  }

  /** Which response event a packet signals. */
  function SlotSignalled(category: nat, command: nat): Slot {
    if category == 3 && command == 3 then Manual
    else if category == 9 then Config
    else if category == 0x0a && (command == 0 || command == 1 || command == 4) then System
    else if category == 8 then Register
    else if category == 0x0a && command == 3 then Otp
    else if category == 0x0f then Firmware
    else if category == 0x0e then Production
    else NoSlot
  }

  predicate IsAck(p: Packet) {
    p.Packet? && p.category == ACK_CATEGORY && p.command == 0 && |p.payload| >= 2
  }

  /** The waiter a packet can end: none while idle, writing or already ended. */
  predicate Current(l: Link, live: bool) {
    live && l.op.Some? && l.op.value.pending.Off? && AwaitsCommand(l.op.value)
  }

  function CompleteIf(l: Link, live: bool, err: Option<Err>): Link {
    if live && l.op.Some? then Complete(l, err, true) else l
  }

  predicate EventWaits(l: Link, live: bool) {
    live && l.op.Some? && l.op.value.phase == EventWait
  }

  function RecordAck(l: Link, p: Packet): Link {
    if IsAck(p) && l.op.Some? && l.op.value.command.On? && p.payload[0] == l.op.value.cmd
    then Note(l.(op := Some(l.op.value.(ack := p.payload[1]))), Acked(p.payload[0], p.payload[1]))
    else l
  }

  /** goodix_rx_cell on a completed packet.  `live` says whether the running
      operation or the idle stand-in receives. */
  function Receive(l: Link, live: bool, p: Packet): Link
  {
    match p
    case Overflow => CompleteIf(l, live, Some(Protocol))
    case Garbage => l
    case Packet(category, command, payload, _, _) =>
      var current := Current(l, live);
      var l1 := RecordAck(l, p);
      if category == 0x0c then ReceiveNotice(l1, live, command)
      else if category == 2 then ReceiveImage(l1, live, current, p.image)
      else if category == 0x0d then l1.(sig := l1.sig.(mcuReady := On))
      else if (category == 0x0f || (category == 9 && command == 2)) && |payload| == 0
      then CompleteIf(l1, live, Some(Protocol))
      else
        var slot := SlotSignalled(category, command);
        if slot != NoSlot then ReceiveResponse(l1, live, current, slot, |payload|)
        else if category == 3 && (command == 1 || command == 2) then ReceiveFdt(l1, live, p.fdt)
        else if category == ACK_CATEGORY && command == 0 && current && l.op.value.phase == Ack
        then ReceiveAck(l1, payload)
        else l1
  }

  /** Notices only fill the worker's coalescing slot. */
  function ReceiveNotice(l: Link, live: bool, command: nat): Link {
    if command <= 1 then
      var l1 := l.(sig := l.sig.(fdtPending := On));
      if EventWaits(l, live) then Complete(l1, None, true) else l1
    else l
  }

  /** What an image packet publishes or sets off, whoever waits. */
  function ImageNoted(l: Link, image: ImageVerdict): Link {
    if image.Frame? then
      Note(l.(ready := l.ready + {Image}, sig := l.sig.(imageFailed := Off)), Published(Image))
    else if l.sig.imageHistory.On? then
      l.(sig := l.sig.(imageHistory := Off, imageFailed := if image.BadFrame? then On else l.sig.imageFailed,
                       gtlsPending := if l.sig.gtlsActive.Off? then On else l.sig.gtlsPending))
    else
      l.(sig := l.sig.(imageHistory := On, imageFailed := if image.BadFrame? then On else l.sig.imageFailed))
  }

  function ReceiveImage(l: Link, live: bool, current: bool, image: ImageVerdict): Link {
    var l1 := ImageNoted(l, image);
    if EventWaits(l1, live) && l1.sig.gtlsPending.On? then Complete(l1, None, true)
    else if current && l1.op.Some? && l1.op.value.phase == Response && l1.op.value.slot == Image && Image in l1.ready
    then Complete(l1, None, true)
    else l1
  }

  function ReceiveResponse(l: Link, live: bool, current: bool, slot: Slot, length: nat): Link {
    if slot == Manual && length < MANUAL_RESPONSE_LEN then CompleteIf(l, live, Some(Protocol))
    else
      var l1 := Note(l.(ready := l.ready + {slot}), Published(slot));
      if current && l1.op.Some? && l1.op.value.phase == Response && l1.op.value.slot == slot
      then Complete(l1, None, true) else l1
  }

  function ReceiveFdt(l: Link, live: bool, fdt: FdtVerdict): Link {
    match fdt
    case FdtMalformed => CompleteIf(l, live, Some(Protocol))
    case FdtNothing => l
    case FdtEvent =>
      var l1 := l.(sig := l.sig.(fdtPending := On));
      if EventWaits(l, live) then Complete(l1, None, true) else l1
  }

  /** The awaited ACK packet: too short, addressed elsewhere, even or odd. */
  function ReceiveAck(l: Link, payload: seq<nat>): Link {
    if l.op.None? then l
    else if |payload| < 2 then Complete(l, Some(Protocol), true)
    else if payload[0] != l.op.value.cmd || payload[1] % 2 == 0 then l
    else TakeAck(l, true)
  }

  function ReceiveAll(l: Link, live: bool, ps: seq<Packet>): Link
    decreases |ps|
  {
    if ps == [] then l else ReceiveAll(Receive(l, live, ps[0]), live, ps[1..])
  }

  /** goodix_transport_take_mcu outside a batch. */
  predicate TakesMcu(l: Link) {
    l.op.Some? && l.op.value.phase == McuWait && l.sig.mcuReady.On?
  }

  function TakeMcu(l: Link): Link
    requires TakesMcu(l)
  {
    Complete(l.(sig := l.sig.(mcuReady := Off)), None, true)
  }

  /** goodix_rx_cb: every cell of one read is seen before its owner yields. */
  function Batch(l: Link, ps: seq<Packet>, fits: bool): Link
  {
    if l.op.None? || l.op.value.phase == Send then ReaderNext(ReceiveAll(l, false, ps))
    else
      var l1 := ReceiveAll(l.(op := Some(l.op.value.(batching := On))), true, ps);
      Yield(l1, fits)
  }

  function ReaderNext(l: Link): Link {
    if l.joined.On? then l.(joined := Off, readerErr := None) else l
  }

  /** The end of a batch: the deferred completion is delivered, once. */
  function Yield(l: Link, fits: bool): Link {
    if l.op.None? then l
    else
      var o := l.op.value;
      var l1 := l.(op := Some(o.(batching := Off)));
      if l.joined.On? then ReaderNext(l1)
      else if o.err.None? && TakesMcu(l1) then TakeMcu(l1)
      else if o.pending.On? then Complete(l1.(op := Some(o.(batching := Off, pending := Off, err := None))), o.err, fits)
      else l1
  }

  /** goodix_transport_command; a busy link refuses without touching the owner. */
  function Command(l: Link, cmd: nat, expects: Flag): Link {
    if l.op.Some? || l.joined.On? then l
    else Submit(Note(l.(op := Some(CommandOperation(cmd, expects))), Accepted(cmd, expects)))
  }

  /** goodix_transport_wait for an event or for the MCU stream. */
  function Wait(l: Link, phase: Phase): Link
    requires phase == EventWait || phase == McuWait
  {
    if l.op.Some? || l.joined.On? then l
    else WaitBegun(Note(l.(op := Some(NewOperation(phase))), Waiting))
  }

  /** What is already there is reported at once. */
  function WaitBegun(l: Link): Link
    requires l.op.Some?
  {
    if l.readerErr.Some? then Complete(l, l.readerErr, true)
    else if l.op.value.phase == EventWait && (l.sig.fdtPending.On? || l.sig.gtlsPending.On?) then Complete(l, None, true)
    else if TakesMcu(l) then TakeMcu(l)
    else l
  }

  datatype Event =
    | CommandRequested(cmd: nat, expects: Flag)
    | EventRequested
    | McuRequested
    | OutDone(err: Option<Err>, fits: bool)
    | Received(packets: seq<Packet>, fits: bool)
    | ReaderFailed(fault: Err)
    | Expired
    | WaitCancelled
    | EventSelected
    | GtlsStarted
    | GtlsEnded
    | QuiesceRequested
    | Invalidated

  function Step(l: Link, e: Event): Link {
    match e
    case CommandRequested(cmd, expects) => Command(l, cmd, expects)
    case EventRequested => Wait(l, EventWait)
    case McuRequested => Wait(l, McuWait)
    case OutDone(err, fits) => if l.op.Some? && l.op.value.phase == Send then Written(l, err, fits) else l
    case Received(ps, fits) => if l.readerErr.Some? then l else Batch(l, ps, fits)
    case ReaderFailed(fault) =>
      if l.readerErr.Some? then l
      else if l.joined.On? then ReaderNext(l)
      else
        var l1 := l.(readerErr := Some(fault));
        if l.op.Some? && l.op.value.phase != Send then Complete(l1, Some(fault), true) else l1
    case Expired => if l.op.Some? && l.op.value.phase != Send then Complete(l, Some(TimedOut), true) else l
    case WaitCancelled => if l.op.Some? && l.op.value.phase != Send then Complete(l, Some(IoCancelled), true) else l
    case EventSelected => if l.op.Some? then l else l.(sig := l.sig.(fdtPending := Off))
    case GtlsStarted => l.(sig := l.sig.(gtlsPending := Off, gtlsActive := On))
    case GtlsEnded => l.(sig := l.sig.(gtlsActive := Off))
    case QuiesceRequested => if l.op.Some? then l else l.(joined := On)
    case Invalidated =>
      if l.op.Some? then l
      else l.(ready := l.ready - {Image}, readerErr := None,
              sig := l.sig.(imageFailed := Off, imageHistory := Off, gtlsPending := Off, mcuReady := Off, fdtPending := Off))
  }

  const Fresh := Link(None, {}, Signals(Off, Off, Off, Off, Off, Off), None, Off, Start)

  function Execute(l: Link, events: seq<Event>): Link
    decreases |events|
  {
    if events == [] then l else Execute(Step(l, events[0]), events[1..])
  }
}
