/**
 Reference frames and the generations built on them
 (drivers/goodix53x5/device/base.c and the clear points of session.c): which
 frame a generation id stands for, and how deliveries count within it.
 */
module BaseGeneration {
  import opened Common

  const ROWS := 88
  const COLUMNS := 108
  const PIXELS := ROWS * COLUMNS
  const BORDER := 2
  const MAD_LIMIT := 200
  const MAX_UINT64 := 0xFFFF_FFFF_FFFF_FFFF

  type Frame = seq<nat>

  // ----------------------------------------------------- Admission of a pair

  function Distance(a: int, b: int): (d: nat) {
    if a >= b then a - b else b - a
  }

  /** Distances of one row's interior pixels, left to right, up to `column`. */
  function RowSum(on: Frame, off: Frame, row: nat, column: nat): nat
    requires |on| == PIXELS && |off| == PIXELS && row < ROWS && BORDER <= column <= COLUMNS - BORDER
    decreases column
  {
    if column == BORDER then 0
    else
      var i := row * COLUMNS + column - 1;
      RowSum(on, off, row, column - 1) + Distance(on[i], off[i])
  }

  function PairSum(on: Frame, off: Frame, row: nat): nat
    requires |on| == PIXELS && |off| == PIXELS && BORDER <= row <= ROWS - BORDER
    decreases row
  {
    if row == BORDER then 0
    else PairSum(on, off, row - 1) + RowSum(on, off, row - 1, COLUMNS - BORDER)
  }

  /** Mean absolute difference over the interior, rounded down. */
  function PairMad(on: Frame, off: Frame): nat
    requires |on| == PIXELS && |off| == PIXELS
  {
    PairSum(on, off, ROWS - BORDER) / ((ROWS - 2 * BORDER) * (COLUMNS - 2 * BORDER))
  }

  /** goodix_milan_base_pair_mad. */
  method ComputePairMad(on: array<nat>, off: array<nat>) returns (mad: Option<nat>)
    ensures mad.Some? <==> on.Length == PIXELS && off.Length == PIXELS
    ensures mad.Some? ==> mad.value == PairMad(on[..], off[..])
  {
    if on.Length != PIXELS || off.Length != PIXELS { return None; }
    var sum := 0;
    for row := BORDER to ROWS - BORDER
      invariant sum == PairSum(on[..], off[..], row)
    {
      ghost var before := sum;
      for column := BORDER to COLUMNS - BORDER
        invariant sum == before + RowSum(on[..], off[..], row, column)
      {
        var index := row * COLUMNS + column;
        sum := sum + Distance(on[index], off[index]);
      }
    }
    mad := Some(sum / ((ROWS - 2 * BORDER) * (COLUMNS - 2 * BORDER)));
  }

  predicate Interior(i: nat) {
    BORDER <= i / COLUMNS < ROWS - BORDER && BORDER <= i % COLUMNS < COLUMNS - BORDER
  }

  /** A pair of pixel-wise close frames is admitted: the mean cannot exceed the largest difference. */
  lemma CloseFramesAdmitted(on: Frame, off: Frame, d: nat)
    requires |on| == PIXELS && |off| == PIXELS
    requires forall i | 0 <= i < PIXELS && Interior(i) :: Distance(on[i], off[i]) <= d
    ensures PairMad(on, off) <= d
  {
    PairSumBounded(on, off, d, ROWS - BORDER);
  }

  lemma {:induction false} PairSumBounded(on: Frame, off: Frame, d: nat, row: nat)
    requires |on| == PIXELS && |off| == PIXELS && BORDER <= row <= ROWS - BORDER
    requires forall i | 0 <= i < PIXELS && Interior(i) :: Distance(on[i], off[i]) <= d
    ensures PairSum(on, off, row) <= (row - BORDER) * ((COLUMNS - 2 * BORDER) * d)
    decreases row
  {
    if row > BORDER {
      PairSumBounded(on, off, d, row - 1);
      RowSumBounded(on, off, d, row - 1, COLUMNS - BORDER);
      OneMore(row - 1 - BORDER, (COLUMNS - 2 * BORDER) * d);
    }
  }

  lemma OneMore(n: nat, d: nat)
    ensures (n + 1) * d == n * d + d
  {
  }

  lemma {:induction false} RowSumBounded(on: Frame, off: Frame, d: nat, row: nat, column: nat)
    requires |on| == PIXELS && |off| == PIXELS && BORDER <= row < ROWS - BORDER && BORDER <= column <= COLUMNS - BORDER
    requires forall i | 0 <= i < PIXELS && Interior(i) :: Distance(on[i], off[i]) <= d
    ensures RowSum(on, off, row, column) <= (column - BORDER) * d
    decreases column
  {
    if column > BORDER {
      RowSumBounded(on, off, d, row, column - 1);
      InteriorPixel(row, column - 1);
      OneMore(column - 1 - BORDER, d);
    }
  }

  lemma InteriorPixel(row: nat, column: nat)
    requires BORDER <= row < ROWS - BORDER && BORDER <= column < COLUMNS - BORDER
    ensures row * COLUMNS + column < PIXELS && Interior(row * COLUMNS + column)
  {
    assert (row * COLUMNS + column) / COLUMNS == row;
  }

  // ------------------------------------------------------------- Generations

  datatype Reason = NoReason | FalseDown | ReverseDrift | UpDrift | InvalidBase | UpInvalidBase

  /** GoodixMilanGeneration: the engine's consumed setup and its process state. */
  datatype Generation = Generation(
    id: nat,
    setup: Option<Frame>,
    uses: nat,
    initialized: Flag,
    refreshPending: Flag,
    notReady: Flag,
    retained: Flag)

  datatype Happening = Published(id: nat, frame: Frame) | Delivered(id: nat, frame: Frame, uses: nat)

  datatype Log = Start | After(before: Log, last: Happening)

  datatype Store = Store(
    current: Option<Generation>,
    retired: Option<Generation>,
    reference: Option<Frame>,
    referenceId: nat,
    marked: Flag,
    lastId: nat,
    recovery: Flag,
    log: Log)

  /** goodix_milan_generation_transfer_process_state. */
  function Transfer(to: Generation, from: Generation): Generation {
    to.(initialized := from.initialized, refreshPending := On, notReady := Off, retained := On)
  }

  /** goodix_milan_generation_retain_process: the frame goes, the process state stays. */
  function Retain(s: Store): Store {
    if s.current.None? then s
    else s.(current := None,
            retired := Some(s.current.value.(setup := None, initialized := Off, refreshPending := Off, notReady := Off)))
  }

  /** Open failure, reconstruction and close. */
  function Detach(s: Store): Store {
    Retain(s).(reference := None, marked := Off)
  }

  /** goodix_base_complete_recovery, as far as ownership goes. */
  function Recover(s: Store, forced: bool): Store {
    if forced then s else Retain(s).(recovery := On)
  }

  /** A generation for a newly published frame. */
  function Started(s: Store, id: nat, on: Frame): Store {
    var blank := Generation(id, Some(on), 0, Off, Off, Off, Off);
    s.(current := Some(if s.retired.Some? then Transfer(blank, s.retired.value) else blank), retired := None)
  }

  /** The publication at the end of an acquisition. */
  function Publish(s: Store, on: Frame, forced: bool, reason: Reason): Store
    requires s.lastId < MAX_UINT64
  {
    var id := s.lastId + 1;
    var s1 := if forced && s.current.Some? then s else Started(s, id, on);
    s1.(reference := Some(on), referenceId := id, lastId := id, recovery := Off,
        marked := if forced && !reason.InvalidBase? && !reason.UpInvalidBase? then On else s.marked,
        log := After(s.log, Published(id, on)))
  }

  /** What the sensor and its FDT validations made of one acquisition. */
  datatype Reading =
    | Failed
    | Unpowered
    | Rejected
    | Pair(on: Frame, off: Frame, settled: bool)

  /** goodix_milan_base_start_subsm to its end. */
  function Acquire(s: Store, forced: bool, reason: Reason, r: Reading): Store {
    if !forced && s.current.Some? then s
    else
      var s1 := if forced then s else s.(recovery := Off);
      match r
      case Failed => s1
      case Unpowered => if forced then s1 else s1.(recovery := On)
      case Rejected => Recover(s1, forced)
      case Pair(on, off, settled) =>
        if |on| != PIXELS || |off| != PIXELS then s1
        else if PairMad(on, off) >= MAD_LIMIT || !settled then Recover(s1, forced)
        else if s.lastId >= MAX_UINT64 then s1
        else Publish(s1, on, forced, reason)
  }

  /** goodix_milan_generation_prepare_setup: the newest base is selected only at
      sample delivery, and only when a setup is due. */
  function PrepareSetup(s: Store): Store
    requires s.current.Some?
  {
    var g := s.current.value;
    if g.initialized.On? && g.refreshPending.Off? && s.marked.Off? then s
    else
      var g1 :=
        if s.reference.Some? then
          g.(setup := s.reference, uses := if g.id != s.referenceId then 0 else g.uses, id := s.referenceId)
        else g;
      s.(current := Some(if s.marked.On? then g1.(refreshPending := On) else g1), marked := Off)
  }

  /** goodix_milan_generation_note_use saturates. */
  function NoteUse(uses: nat): nat {
    if uses < MAX_UINT64 then uses + 1 else uses
  }

  /** A captured frame is handed to the engine with its setup. */
  function Deliver(s: Store): Store {
    if s.current.None? || s.reference.None? then s
    else
      var s1 := PrepareSetup(s);
      var g := s1.current.value.(uses := NoteUse(s1.current.value.uses));
      s1.(current := Some(g), log := if g.setup.Some? then After(s1.log, Delivered(g.id, g.setup.value, g.uses)) else s1.log)
  }

  /** The engine's answer only moves the setup flags. */
  function Consume(s: Store, initialized: Flag, refreshPending: Flag, notReady: Flag): Store {
    if s.current.None? then s
    else s.(current := Some(s.current.value.(initialized := initialized, refreshPending := refreshPending, notReady := notReady)))
  }

  datatype Event =
    | Acquisition(forced: bool, reason: Reason, reading: Reading)
    | Delivery
    | Consumed(initialized: Flag, refreshPending: Flag, notReady: Flag)
    | Detached
    | DroppedMark

  function Step(s: Store, e: Event): Store {
    match e
    case Acquisition(forced, reason, reading) => Acquire(s, forced, reason, reading)
    case Delivery => Deliver(s)
    case Consumed(initialized, refreshPending, notReady) => Consume(s, initialized, refreshPending, notReady)
    case Detached => Detach(s)
    case DroppedMark => s.(marked := Off)
  }

  const Fresh := Store(None, None, None, 0, Off, 0, Off, Start)

  function Execute(s: Store, events: seq<Event>): Store
    decreases |events|
  {
    if events == [] then s else Execute(Step(s, events[0]), events[1..])
  }

  // ------------------------------------------------------- Reading a history

  /** The frame published under an id. */
  function FrameOf(log: Log, id: nat): Option<Frame> {
    if log.Start? then None
    else if log.last.Published? && log.last.id == id then Some(log.last.frame)
    else FrameOf(log.before, id)
  }

  /** Deliveries made under an id. */
  function Uses(log: Log, id: nat): nat {
    if log.Start? then 0
    else Uses(log.before, id) + if log.last.Delivered? && log.last.id == id then 1 else 0
  }

  /** The latest id published. */
  function Latest(log: Log): nat {
    if log.Start? then 0 else if log.last.Published? then log.last.id else Latest(log.before)
  }

  /** Ids only grow; every delivery carries the frame its id was published with
      and the number of deliveries under that id so far. */
  predicate Orderly(log: Log) {
    log.After? ==>
      && Orderly(log.before)
      && match log.last
         case Published(id, frame) => id > Latest(log.before) && |frame| == PIXELS
         case Delivered(id, frame, uses) =>
           FrameOf(log.before, id) == Some(frame) && uses == Min(Uses(log.before, id) + 1, MAX_UINT64)
  }

  // ------------------------------------------------------------- Invariant

  predicate GenerationOk(g: Generation, log: Log, lastId: nat) {
    && g.setup.Some? && FrameOf(log, g.id) == g.setup && g.id <= lastId
    && g.uses == Min(Uses(log, g.id), MAX_UINT64)
  }

  predicate Ok(s: Store) {
    && Orderly(s.log)
    && s.lastId == Latest(s.log)
    && (s.reference.Some? <==> s.current.Some?)
    && (s.reference.Some? ==> FrameOf(s.log, s.referenceId) == s.reference && s.referenceId <= s.lastId)
    && (s.current.Some? ==>
          && GenerationOk(s.current.value, s.log, s.lastId)
          && s.current.value.id <= s.referenceId
          && (s.current.value.id < s.referenceId ==> Uses(s.log, s.referenceId) == 0))
  }

  /** Ids above the latest one have neither frames nor deliveries yet. */
  lemma {:induction false} Unused(log: Log, id: nat)
    requires Orderly(log) && id > Latest(log)
    ensures FrameOf(log, id).None? && Uses(log, id) == 0
  {
    if log.After? {
      Unused(log.before, id);
    }
  }

  lemma PublishKeeps(s: Store, on: Frame, forced: bool, reason: Reason)
    requires Ok(s) && s.lastId < MAX_UINT64 && |on| == PIXELS
    ensures Ok(Publish(s, on, forced, reason))
  {
    Unused(s.log, s.lastId + 1);
  }

  lemma AcquireKeeps(s: Store, forced: bool, reason: Reason, r: Reading)
    requires Ok(s)
    ensures Ok(Acquire(s, forced, reason, r))
  {
    hide PairMad, Publish;
    var s1 := if forced then s else s.(recovery := Off);
    if (forced || s.current.None?) && r.Pair? && |r.on| == PIXELS && s.lastId < MAX_UINT64 {
      PublishKeeps(s1, r.on, forced, reason);
    }
  }

  lemma DeliverKeeps(s: Store)
    requires Ok(s)
    ensures Ok(Deliver(s))
  {
    if s.current.Some? {
      PrepareKeeps(s);
      SetupSelected(s);
    }
  }

  lemma PrepareKeeps(s: Store)
    requires Ok(s) && s.current.Some?
    ensures Ok(PrepareSetup(s)) && PrepareSetup(s).current.Some? && PrepareSetup(s).log == s.log
  {
  }

  lemma SetupSelected(s: Store)
    requires Ok(s) && s.current.Some? && Ok(PrepareSetup(s)) && PrepareSetup(s).current.Some?
    ensures Ok(Deliver(s))
  {
    hide PrepareSetup;
  }

  lemma StepKeeps(s: Store, e: Event)
    requires Ok(s)
    ensures Ok(Step(s, e))
  {
    hide Acquire, Deliver;
    match e
    case Acquisition(forced, reason, reading) => AcquireKeeps(s, forced, reason, reading);
    case Delivery => DeliverKeeps(s);
    case Consumed(_, _, _) =>
    case Detached =>
    case DroppedMark =>
  }

  lemma {:induction false} RunKeeps(s: Store, events: seq<Event>)
    requires Ok(s)
    ensures Ok(Execute(s, events))
    decreases |events|
  {
    hide Step, Ok;
    if events != [] {
      StepKeeps(s, events[0]);
      RunKeeps(Step(s, events[0]), events[1..]);
    }
  }

  // ------------------------------------------------------------ Main results

  /** After every run of acquisitions, deliveries, reconstructions and closes: a
      reference exists exactly when a generation does, and the history is orderly. */
  lemma ReferenceIffGeneration(events: seq<Event>)
    ensures var s := Execute(Fresh, events);
      (s.reference.Some? <==> s.current.Some?) && Orderly(s.log) && s.lastId == Latest(s.log)
  {
    hide Execute;
    RunKeeps(Fresh, events);
  }

  predicate Occurs(log: Log, h: Happening) {
    log.After? && (log.last == h || Occurs(log.before, h))
  }

  lemma {:induction false} DeliveredFrame(log: Log, id: nat, frame: Frame, uses: nat)
    requires Orderly(log) && Occurs(log, Delivered(id, frame, uses))
    ensures FrameOf(log, id) == Some(frame) && 1 <= uses <= Uses(log, id) && id <= Latest(log)
  {
    if log.last == Delivered(id, frame, uses) {
      FrameKnown(log.before, id);
    } else {
      DeliveredFrame(log.before, id, frame, uses);
    }
  }

  lemma {:induction false} FrameKnown(log: Log, id: nat)
    requires Orderly(log) && FrameOf(log, id).Some?
    ensures id <= Latest(log)
  {
    if !(log.last.Published? && log.last.id == id) { FrameKnown(log.before, id); }
  }

  /** Two deliveries with the same id carry the same reference frame. */
  lemma SameIdSameFrame(events: seq<Event>, id: nat, f: Frame, m: nat, g: Frame, n: nat)
    requires var log := Execute(Fresh, events).log; Occurs(log, Delivered(id, f, m)) && Occurs(log, Delivered(id, g, n))
    ensures f == g
  {
    hide Execute;
    ReferenceIffGeneration(events);
    DeliveredFrame(Execute(Fresh, events).log, id, f, m);
    DeliveredFrame(Execute(Fresh, events).log, id, g, n);
  }

  /** The use counts seen under an id are exactly 1, 2, 3, ... short of saturation. */
  lemma {:induction false} UsesAreConsecutive(log: Log, id: nat, k: nat)
    requires Orderly(log) && Uses(log, id) < MAX_UINT64
    ensures 1 <= k <= Uses(log, id) <==> (FrameOf(log, id).Some? && Occurs(log, Delivered(id, FrameOf(log, id).value, k)))
  {
    if log.After? {
      UsesAreConsecutive(log.before, id, k);
      if log.last.Published? && log.last.id == id {
        Unused(log.before, id);
        if 1 <= k && Occurs(log.before, Delivered(id, log.last.frame, k)) {
          DeliveredFrame(log.before, id, log.last.frame, k);
        }
      }
      if FrameOf(log, id).Some? && Occurs(log, Delivered(id, FrameOf(log, id).value, k)) {
        DeliveredFrame(log, id, FrameOf(log, id).value, k);
      }
    }
  }

  // ------------------------------------------------- From a refresh to a delivery

  /** What the next delivery depends on: the setup's flags, the refresh mark and
      the newest reference. */
  datatype Due = Due(initialized: Flag, refresh: Flag, marked: Flag, id: nat, frame: Frame, last: nat)

  predicate Admitted(r: Reading) {
    r.Pair? && |r.on| == PIXELS && |r.off| == PIXELS && PairMad(r.on, r.off) < MAD_LIMIT && r.settled
  }

  predicate Repairs(reason: Reason) {
    reason.InvalidBase? || reason.UpInvalidBase?
  }

  /** A setup is due when it was never taken, is to be refreshed, or a mark stands. */
  predicate Reaches(d: Due) {
    d.initialized.Off? || d.refresh.On? || d.marked.On?
  }

  function DueIn(s: Store): Due
    requires s.current.Some? && s.reference.Some?
  {
    Due(s.current.value.initialized, s.current.value.refreshPending, s.marked, s.referenceId, s.reference.value, s.lastId)
  }

  /** What happens before the delivery: refreshes, engine answers, dropped marks. */
  function Awaits(d: Due, e: Event): Due {
    match e
    case Acquisition(forced, reason, reading) =>
      if forced && Admitted(reading) && d.last < MAX_UINT64 then
        d.(id := d.last + 1, last := d.last + 1, frame := reading.on, marked := if Repairs(reason) then d.marked else On)
      else d
    case Consumed(initialized, refreshPending, _) => d.(initialized := initialized, refresh := refreshPending)
    case DroppedMark => d.(marked := Off)
    case _ => d
  }

  function AwaitsAll(d: Due, events: seq<Event>): Due
    decreases |events|
  {
    if events == [] then d else AwaitsAll(Awaits(d, events[0]), events[1..])
  }

  predicate Undelivered(events: seq<Event>) {
    forall e | e in events :: !e.Delivery? && !e.Detached?
  }

  /** The store while the generation g waits for its next delivery. */
  predicate Waits(s: Store, d: Due, g: Generation) {
    && s.current.Some? && s.reference.Some? && DueIn(s) == d
    && s.current.value == g.(initialized := d.initialized, refreshPending := d.refresh, notReady := s.current.value.notReady)
  }

  lemma WaitsOn(s: Store, d: Due, g: Generation, e: Event)
    requires Waits(s, d, g) && !e.Delivery? && !e.Detached?
    ensures Waits(Step(s, e), Awaits(d, e), g)
  {
    hide PairMad;
  }

  lemma {:induction false} WaitsThrough(s: Store, d: Due, g: Generation, events: seq<Event>)
    requires Waits(s, d, g) && Undelivered(events)
    ensures Waits(Execute(s, events), AwaitsAll(d, events), g)
    decreases |events|
  {
    hide Step, Waits, Awaits;
    if events != [] {
      WaitsOn(s, d, g, events[0]);
      WaitsThrough(Step(s, events[0]), Awaits(d, events[0]), g, events[1..]);
    }
  }

  lemma Handed(s: Store, d: Due, g: Generation)
    requires Waits(s, d, g) && g.setup.Some?
    ensures var log := Deliver(s).log;
      log.After? && log.last == if Reaches(d) then Delivered(d.id, d.frame, if d.id == g.id then NoteUse(g.uses) else 1)
                                else Delivered(g.id, g.setup.value, NoteUse(g.uses))
  {
  }

  /** After any run and any stretch of refreshes, engine answers and dropped marks,
      the next delivery carries the newest published reference exactly when a setup
      is due by then, with its use count starting at 1 if it is new; otherwise the
      setup consumed before the stretch stays in use. */
  lemma NextDelivery(before: seq<Event>, between: seq<Event>)
    requires Execute(Fresh, before).current.Some? && Undelivered(between)
    ensures var s := Execute(Fresh, before);
      && s.reference.Some? && s.current.value.setup.Some?
      && var d := AwaitsAll(DueIn(s), between); var g := s.current.value; var log := Deliver(Execute(s, between)).log;
        log.After? && log.last == if Reaches(d) then Delivered(d.id, d.frame, if d.id == g.id then NoteUse(g.uses) else 1)
                                  else Delivered(g.id, g.setup.value, NoteUse(g.uses))
  {
    RunKeeps(Fresh, before);
    hide Execute, Deliver;
    var s := Execute(Fresh, before);
    WaitsThrough(s, DueIn(s), s.current.value, between);
    Handed(Execute(s, between), AwaitsAll(DueIn(s), between), s.current.value);
  }

  /** The last thing the engine answered about its setup. */
  function Answered(d: Due, events: seq<Event>): (a: Due)
    ensures a == d.(initialized := a.initialized, refresh := a.refresh)
    decreases |events|
  {
    if events == [] then d
    else if events[|events| - 1].Consumed? then
      d.(initialized := events[|events| - 1].initialized, refresh := events[|events| - 1].refreshPending)
    else Answered(d, events[..|events| - 1])
  }

  /** Nothing but engine answers and dropped marks. */
  predicate Quiet(events: seq<Event>) {
    forall e | e in events :: e.Consumed? || e.DroppedMark?
  }

  lemma {:induction false} AwaitsLast(d: Due, events: seq<Event>)
    requires events != []
    ensures AwaitsAll(d, events) == Awaits(AwaitsAll(d, events[..|events| - 1]), events[|events| - 1])
    decreases |events|
  {
    hide Awaits;
    var n := |events| - 1;
    if n == 0 {
      assert events[..0] == [];
    } else {
      assert events[1..][..n - 1] == events[..n][1..] && events[1..][n - 1] == events[n];
      AwaitsLast(Awaits(d, events[0]), events[1..]);
    }
  }

  lemma {:induction false} QuietAwaits(d: Due, events: seq<Event>)
    requires Quiet(events)
    ensures AwaitsAll(d, events) == Answered(d, events).(marked := if DroppedMark in events then Off else d.marked)
    decreases |events|
  {
    if events != [] {
      var n := |events| - 1;
      AwaitsLast(d, events);
      QuietAwaits(d, events[..n]);
      assert events == events[..n] + [events[n]];
    }
  }

  /** A forced refresh reaches the next delivery, with its new id, its frame and use
      1, exactly when by then the engine has no initialised setup or asks for a new
      one, or a mark of this or an earlier refresh still stands; a repair of an
      invalid base sets no mark. Otherwise the consumed setup stays in use. */
  lemma RefreshReaches(before: seq<Event>, reason: Reason, reading: Reading, between: seq<Event>)
    requires Execute(Fresh, before).current.Some? && Execute(Fresh, before).lastId < MAX_UINT64
    requires Admitted(reading) && Quiet(between)
    ensures var s := Execute(Fresh, before);
      && s.reference.Some? && s.current.value.setup.Some?
      && var g := s.current.value; var flags := Answered(DueIn(s), between);
        var log := Deliver(Execute(s, [Acquisition(true, reason, reading)] + between)).log;
        && log.After?
        && log.last ==
           (if flags.initialized.Off? || flags.refresh.On?
              || ((s.marked.On? || !Repairs(reason)) && DroppedMark !in between)
            then Delivered(s.lastId + 1, reading.on, 1)
            else Delivered(g.id, g.setup.value, NoteUse(g.uses)))
  {
    var s := Execute(Fresh, before);
    var refresh := Acquisition(true, reason, reading);
    var events := [refresh] + between;
    assert events[1..] == between;
    NextDelivery(before, events);
    RunKeeps(Fresh, before);
    hide Execute, Deliver, PairMad;
    var d := DueIn(s);
    var newest := Awaits(d, refresh);
    assert newest == d.(id := s.lastId + 1, last := s.lastId + 1, frame := reading.on,
                        marked := if Repairs(reason) then d.marked else On);
    QuietAwaits(newest, between);
    AnsweredFlags(d, newest, between);
    assert AwaitsAll(d, events) == AwaitsAll(newest, between);
    assert s.current.value.id <= s.lastId;
  }

  lemma {:induction false} AnsweredFlags(d: Due, e: Due, events: seq<Event>)
    requires d.initialized == e.initialized && d.refresh == e.refresh
    ensures Answered(d, events).initialized == Answered(e, events).initialized
    ensures Answered(d, events).refresh == Answered(e, events).refresh
    decreases |events|
  {
    if events != [] && !events[|events| - 1].Consumed? {
      AnsweredFlags(d, e, events[..|events| - 1]);
    }
  }

  // ------------------------------------------------------- As base.c runs it

  /** GoodixMilanGeneration as an object that moves between two owners' slots. */
  class GenerationObject {
    var id: nat
    var setup: Option<Frame>
    var uses: nat
    var initialized: Flag
    var refreshPending: Flag
    var notReady: Flag
    var retained: Flag

    ghost function View(): Generation
      reads this
    {
      Generation(id, setup, uses, initialized, refreshPending, notReady, retained)
    }

    constructor (id: nat, frame: Frame)
      ensures View() == Generation(id, Some(frame), 0, Off, Off, Off, Off)
    {
      this.id, setup, uses := id, Some(frame), 0;
      initialized, refreshPending, notReady, retained := Off, Off, Off, Off;
    }

    /** goodix_milan_generation_transfer_process_state, into this object. */
    method TakeProcessState(from: GenerationObject)
      requires from != this
      modifies this
      ensures View() == Transfer(old(View()), from.View())
    {
      initialized, refreshPending, notReady := from.initialized, from.refreshPending, from.notReady;
      refreshPending, notReady, retained := On, Off, On;
    }
  }

  class Owner {
    var current: GenerationObject?
    var retired: GenerationObject?
    var reference: Option<Frame>
    var referenceId: nat
    var marked: Flag
    var lastId: nat
    var recovery: Flag
    ghost var log: Log

    ghost predicate Valid()
      reads this
    {
      current != null ==> current != retired
    }

    ghost function View(): Store
      reads this, current, retired
    {
      Store(if current == null then None else Some(current.View()),
            if retired == null then None else Some(retired.View()),
            reference, referenceId, marked, lastId, recovery, log)
    }

    constructor ()
      ensures Valid() && View() == Fresh
    {
      current, retired, reference, referenceId, marked, lastId, recovery, log :=
        null, null, None, 0, Off, 0, Off, Start;
    }

    /** goodix_milan_generation_retain_process: ownership moves, the frame goes. */
    method RetainProcess()
      requires Valid()
      modifies this, current
      ensures Valid() && View() == Retain(old(View()))
      ensures retired == old(if current == null then retired else current)
    {
      if current != null {
        retired := current;
        current := null;
        retired.setup := None;
        retired.initialized, retired.refreshPending, retired.notReady := Off, Off, Off;
      }
    }

    method DetachHardware()
      requires Valid()
      modifies this, current
      ensures Valid() && View() == Detach(old(View()))
    {
      RetainProcess();
      reference := None;
      marked := Off;
    }

    /** goodix_milan_generation_allocate_id. */
    method AllocateId() returns (id: Option<nat>)
      requires Valid()
      modifies this`lastId
      ensures id.None? <==> old(lastId) >= MAX_UINT64
      ensures id.None? ==> lastId == old(lastId)
      ensures id.Some? ==> id.value == lastId == old(lastId) + 1
    {
      if lastId >= MAX_UINT64 { return None; }
      lastId := lastId + 1;
      id := Some(lastId);
    }

    /** A new generation for the frame, with the process state of a retained one. */
    method StartGeneration(on: Frame)
      requires Valid()
      modifies this`current, this`retired
      ensures Valid() && View() == Started(old(View()), lastId, on)
    {
      var made := new GenerationObject(lastId, on);
      if retired != null { made.TakeProcessState(retired); }
      retired := null;
      current := made;
    }

    /** The publication of an admitted pair's TX-on frame. */
    method PublishBase(on: Frame, forced: bool, reason: Reason) returns (published: bool)
      requires Valid()
      modifies this, current
      ensures Valid()
      ensures published <==> old(lastId) < MAX_UINT64
      ensures View() == if published then Publish(old(View()), on, forced, reason) else old(View())
    {
      var id := AllocateId();
      if id.None? { return false; }
      if !(forced && current != null) { StartGeneration(on); }
      reference, referenceId, recovery := Some(on), id.value, Off;
      if forced && !reason.InvalidBase? && !reason.UpInvalidBase? { marked := On; }
      log := After(log, Published(id.value, on));
      published := true;
    }

    /** goodix_milan_generation_prepare_setup. */
    method SelectSetup()
      requires Valid() && current != null
      modifies this`marked, current
      ensures Valid() && View() == PrepareSetup(old(View()))
    {
      if current.initialized.On? && current.refreshPending.Off? && marked.Off? { return; }
      if reference.Some? {
        current.setup := reference;
        if current.id != referenceId { current.uses := 0; }
        current.id := referenceId;
      }
      if marked.On? { current.refreshPending := On; }
      marked := Off;
    }

    /** One delivery: select the setup, count the use, hand both over. */
    method DeliverSample() returns (delivered: bool)
      requires Valid()
      modifies this, current
      ensures Valid() && View() == Deliver(old(View()))
      ensures delivered <==> old(current) != null && old(reference).Some?
    {
      delivered := current != null && reference.Some?;
      if delivered {
        SelectSetup();
        if current.uses < MAX_UINT64 { current.uses := current.uses + 1; }
        if current.setup.Some? {
          log := After(log, Delivered(current.id, current.setup.value, current.uses));
        }
      }
    }
  }
}
