/**
 Wire framing (drivers/goodix53x5/device/proto.c, and the cell loops of
 device/transport.c): a message is built, cut into 64-byte cells and put
 together again by a reassembler that resynchronises on every first cell.
 */
module Reassembly {
  import opened Common

  type byte = x: int | 0 <= x < 256

  const CELL := 64
  const BUFFER := 16384
  const NO_CHECKSUM: byte := 0x88

  // ----------------------------------------------------------- Specification

  function Sum(s: seq<byte>): nat {
    if s == [] then 0 else Sum(s[..|s| - 1]) + s[|s| - 1]
  }

  function Checksum(s: seq<byte>): byte {
    (0xAA - Sum(s)) % 256
  }

  function CommandByte(category: nat, command: nat): byte {
    (category * 16 + command * 2) % 256
  }

  /** Command byte and 16-bit size field, which counts payload and checksum. */
  function Header(category: nat, command: nat, length: nat): (h: seq<byte>)
    ensures |h| == 3
  {
    var size := (length + 1) % 0x10000;
    [CommandByte(category, command), size % 256, size / 256]
  }

  /** goodix_proto_build_message. */
  function Build(category: nat, command: nat, payload: seq<byte>, summed: bool): (m: seq<byte>)
    ensures |m| == |payload| + 4
  {
    var body := Header(category, command, |payload|) + payload;
    body + [if summed then Checksum(body) else NO_CHECKSUM]
  }

  function Zeros(n: nat): (z: seq<byte>)
    ensures |z| == n
  {
    seq(n, _ => 0)
  }

  function Pad(s: seq<byte>, n: nat): (p: seq<byte>)
    requires |s| <= n
    ensures |p| == n
  {
    s + Zeros(n - |s|)
  }

  /** Cells of a message of `total` bytes. */
  function CellCount(total: nat): nat
    requires total > 0
  {
    1 + (total - Min(CELL, total) + 62) / 63
  }

  /** Continuation cells: a marker and up to 63 more bytes each. */
  function Continuations(mark: byte, rest: seq<byte>): (cells: seq<seq<byte>>)
    ensures |cells| == (|rest| + 62) / 63
    ensures forall c | c in cells :: |c| == CELL
    decreases |rest|
  {
    if rest == [] then []
    else
      var n := Min(63, |rest|);
      [[mark] + Pad(rest[..n], 63)] + Continuations(mark, rest[n..])
  }

  /** The padded cells of a message. */
  function Cells(msg: seq<byte>): (cells: seq<seq<byte>>)
    requires |msg| > 0
    ensures |cells| == CellCount(|msg|)
    ensures forall c | c in cells :: |c| == CELL
  {
    var n := Min(CELL, |msg|);
    [Pad(msg[..n], CELL)] + Continuations(msg[0] - msg[0] % 2 + 1, msg[n..])
  }

  /** GoodixReassembly; `data` is the used part of its buffer. */
  datatype Rx = Rx(data: seq<byte>, expected: nat, command: byte)

  const Empty := Rx([], 0, 0)

  predicate Complete(rx: Rx) {
    rx.expected > 0 && |rx.data| >= rx.expected
  }

  datatype Message = Message(category: nat, command: nat, payload: seq<byte>)

  predicate ChecksumValid(msg: seq<byte>) {
    |msg| >= 4 && (msg[|msg| - 1] == NO_CHECKSUM || msg[|msg| - 1] == Checksum(msg[..|msg| - 1]))
  }

  /** goodix_proto_rx_parse: trim the padding, check the sum, split the fields. */
  function Parse(rx: Rx): Option<Message> {
    if !Complete(rx) || rx.expected < 4 || !ChecksumValid(rx.data[..rx.expected]) then None
    else Some(Message(rx.data[0] / 16, rx.data[0] % 16 / 2, rx.data[3..rx.expected - 1]))
  }

  /** The total length a first cell announces. */
  function Announced(cell: seq<byte>): nat
    requires |cell| >= 3
  {
    cell[1] as int + 256 * (cell[2] as int) + 3
  }

  /** goodix_proto_rx_feed_chunk; None is a protocol error. */
  function Feed(rx: Rx, chunk: seq<byte>): Option<Rx> {
    if |chunk| == 0 then Some(rx)
    else if |rx.data| == 0 then
      if |chunk| < 3 || |chunk| > BUFFER then None
      else Some(Rx(chunk, Announced(chunk), chunk[0]))
    else if chunk[0] % 2 == 0 || chunk[0] - 1 != rx.command || |rx.data| + |chunk| - 1 > BUFFER then None
    else Some(rx.(data := rx.data + chunk[1..]))
  }

  datatype Outcome = More | Failed | Delivered(message: Option<Message>)

  /** One received cell: resynchronise, skip orphans, feed, deliver. */
  function Cell(rx: Rx, cell: seq<byte>): (Rx, Outcome)
    requires |cell| > 0
  {
    var rx1 := if cell[0] % 2 == 0 || cell[0] - 1 != rx.command then Empty else rx;
    if |rx1.data| == 0 && cell[0] % 2 == 1 then (rx1, More)
    else
      var fed := Feed(rx1, cell);
      if fed.None? then (rx1, Failed)
      else if Complete(fed.value) then (fed.value, Delivered(Parse(fed.value)))
      else (fed.value, More)
  }

  /** After a delivery the receiver resets, or leaves the packet in place for
      the waiter it ends; `resets` says which, delivery by delivery. */
  function Next(rx: Rx, cell: seq<byte>, reset: bool): Rx
    requires |cell| > 0
  {
    var (rx1, out) := Cell(rx, cell);
    if out.Delivered? && reset then Empty else rx1
  }

  predicate NonEmpty(cells: seq<seq<byte>>) {
    forall c | c in cells :: |c| > 0
  }

  function State(rx: Rx, cells: seq<seq<byte>>, resets: seq<bool>): Rx
    requires NonEmpty(cells) && |resets| == |cells|
    decreases |cells|
  {
    if cells == [] then rx
    else Next(State(rx, cells[..|cells| - 1], resets[..|cells| - 1]), cells[|cells| - 1], resets[|cells| - 1])
  }

  /** What the k-th cell of a run leads to. */
  function OutcomeAt(rx: Rx, cells: seq<seq<byte>>, resets: seq<bool>, k: nat): Outcome
    requires NonEmpty(cells) && |resets| == |cells| && k < |cells|
  {
    Cell(State(rx, cells[..k], resets[..k]), cells[k]).1
  }

  // ------------------------------------------------------------- Bounded use

  /** The reassembler never holds more than its buffer. */
  lemma {:induction false} BufferBounded(rx: Rx, cells: seq<seq<byte>>, resets: seq<bool>)
    requires NonEmpty(cells) && |resets| == |cells| && |rx.data| <= BUFFER
    ensures |State(rx, cells, resets).data| <= BUFFER
    decreases |cells|
  {
    if cells != [] {
      BufferBounded(rx, cells[..|cells| - 1], resets[..|cells| - 1]);
    }
  }

  // ------------------------------------------------------------- Round trip

  /** How many bytes k cells deliver into the buffer. */
  function Filled(k: nat): nat
    requires k > 0
  {
    CELL + 63 * (k - 1)
  }

  lemma SliceOfSuffix(s: seq<byte>, n: nat, a: nat, b: nat)
    requires n <= |s| && a <= b <= |s| - n
    ensures s[n..][a..b] == s[n + a..n + b]
  {
  }

  lemma {:induction false} ContinuationAt(mark: byte, rest: seq<byte>, k: nat)
    requires 63 * k < |rest|
    ensures k < |Continuations(mark, rest)|
    ensures Continuations(mark, rest)[k] == [mark] + Pad(rest[63 * k..Min(63 * k + 63, |rest|)], 63)
    decreases |rest|
  {
    hide Pad;
    if k > 0 {
      var tail := rest[63..];
      ContinuationAt(mark, tail, k - 1);
      SliceOfSuffix(rest, 63, 63 * (k - 1), Min(63 * (k - 1) + 63, |tail|));
    }
  }

  /** What cell k carries: the whole beginning, or a marker and bytes from Filled(k) on. */
  function Carried(msg: seq<byte>, k: nat): seq<byte>
    requires |msg| > 0 && (k == 0 || Filled(k) < |msg|)
  {
    if k == 0 then Pad(msg[..Min(CELL, |msg|)], CELL)
    else [msg[0] - msg[0] % 2 + 1] + Pad(msg[Filled(k)..Min(Filled(k + 1), |msg|)], 63)
  }

  lemma CellSpan(total: nat, k: nat)
    requires total > 0 && 0 < k < CellCount(total)
    ensures total > CELL && 63 * (k - 1) < total - CELL
  {
  }

  lemma CellAt(msg: seq<byte>, k: nat)
    requires |msg| > 0 && k < CellCount(|msg|)
    ensures k == 0 || Filled(k) < |msg|
    ensures Cells(msg)[k] == Carried(msg, k)
  {
    hide Continuations, Pad;
    if k > 0 {
      CellSpan(|msg|, k);
      LaterCell(msg, k);
    }
  }

  lemma LaterCell(msg: seq<byte>, k: nat)
    requires |msg| > CELL && 0 < k < CellCount(|msg|) && 63 * (k - 1) < |msg| - CELL
    ensures Cells(msg)[k] == Carried(msg, k)
  {
    hide Continuations, Pad, CellCount;
    var mark, rest := msg[0] - msg[0] % 2 + 1, msg[CELL..];
    var from := 63 * (k - 1);
    assert Cells(msg)[k] == Continuations(mark, rest)[k - 1];
    ContinuationAt(mark, rest, k - 1);
    SliceOfSuffix(msg, CELL, from, Min(from + 63, |rest|));
  }

  /** The first k bytes of a message, zero-padded beyond its end. */
  function Prefix(msg: seq<byte>, k: nat): seq<byte> {
    if k <= |msg| then msg[..k] else Pad(msg, k)
  }

  lemma PrefixGrows(msg: seq<byte>, a: nat, b: nat)
    requires a <= b && a < |msg|
    ensures Prefix(msg, b) == msg[..a] + Pad(msg[a..Min(b, |msg|)], b - a)
  {
  }

  /** The longest message the 16 KiB buffer takes with its padding. */
  const LONGEST := 16381

  /** A message whose size field tells its length, small enough for the buffer. */
  predicate Framed(msg: seq<byte>) {
    4 <= |msg| <= LONGEST && msg[0] % 2 == 0 && Announced(msg) == |msg|
  }

  /** All but the last cell extend the prefix received so far. */
  lemma Extends(rx: Rx, msg: seq<byte>, k: nat)
    requires Framed(msg) && k + 1 < CellCount(|msg|)
    requires k > 0 ==> rx == Rx(msg[..Filled(k)], |msg|, msg[0])
    ensures Cell(rx, Carried(msg, k)) == (Rx(msg[..Filled(k + 1)], |msg|, msg[0]), More)
  {
    hide Parse, Pad;
    if k == 0 {
      assert Pad(msg[..CELL], CELL) == msg[..CELL] by { FullPad(msg[..CELL]); }
      hide Carried;
    } else {
      var piece := msg[Filled(k)..Filled(k + 1)];
      FullPad(piece);
      assert msg[..Filled(k)] + piece == msg[..Filled(k + 1)];
      var cell := Carried(msg, k);
      assert cell[1..] == piece && cell[0] == msg[0] + 1;
      hide Carried;
    }
  }

  lemma FullPad(s: seq<byte>)
    ensures Pad(s, |s|) == s
  {
  }

  /** Before its last cell, a message in transit is exactly its own prefix. */
  lemma {:induction false} InTransit(rx: Rx, msg: seq<byte>, resets: seq<bool>, k: nat)
    requires Framed(msg) && 0 < k < CellCount(|msg|) && |resets| == k
    ensures State(rx, Cells(msg)[..k], resets) == Rx(msg[..Filled(k)], |msg|, msg[0])
  {
    hide Cells, Cell, Carried;
    var cells := Cells(msg)[..k];
    CellAt(msg, k - 1);
    assert cells[..k - 1] == Cells(msg)[..k - 1];
    if k > 1 {
      InTransit(rx, msg, resets[..k - 1], k - 1);
    }
    Extends(State(rx, cells[..k - 1], resets[..k - 1]), msg, k - 1);
  }

  lemma EvenCommand(category: nat, command: nat)
    ensures CommandByte(category, command) % 2 == 0
  {
    var x := category * 16 + command * 2;
    assert x % 256 == 2 * (category * 8 + command - 128 * (x / 256));
  }

  lemma TwoBytes(n: nat)
    requires n < 0x10000
    ensures n % 0x10000 == n && n % 256 + 256 * (n / 256) == n
  {
  }

  /** A built message names its own length unless the size field wraps. */
  lemma BuiltHeader(category: nat, command: nat, payload: seq<byte>, summed: bool)
    requires |payload| + 1 < 0x10000
    ensures var m := Build(category, command, payload, summed);
      m[0] == CommandByte(category, command) && m[0] % 2 == 0 && Announced(m) == |m|
  {
    EvenCommand(category, command);
    TwoBytes(|payload| + 1);
    hide CommandByte, Checksum;
  }

  lemma BuiltParses(category: nat, command: nat, payload: seq<byte>, summed: bool, data: seq<byte>)
    requires category < 16 && command < 8 && |payload| + 4 <= LONGEST
    requires var m := Build(category, command, payload, summed); |m| <= |data| && data[..|m|] == m
    ensures var m := Build(category, command, payload, summed);
      Parse(Rx(data, |m|, m[0])) == Some(Message(category, command, payload))
  {
    var m := Build(category, command, payload, summed);
    var body := Header(category, command, |payload|) + payload;
    assert m[..|m| - 1] == body;
    assert data[0] == m[0];
    assert data[3..|m| - 1] == m[3..|m| - 1] == payload;
  }

  /** From any reassembler state, the cells of a message of at most 16381 bytes
      deliver it exactly at the last cell, with its category, command and payload. */
  lemma RoundTrip(rx: Rx, category: nat, command: nat, payload: seq<byte>, summed: bool, resets: seq<bool>)
    requires category < 16 && command < 8 && |payload| + 4 <= LONGEST
    requires |resets| == CellCount(|payload| + 4)
    ensures var cells := Cells(Build(category, command, payload, summed));
      && |cells| == |resets| && NonEmpty(cells)
      && (forall k | 0 <= k < |cells| - 1 :: OutcomeAt(rx, cells, resets, k) == More)
      && OutcomeAt(rx, cells, resets, |cells| - 1) == Delivered(Some(Message(category, command, payload)))
  {
    var msg := Build(category, command, payload, summed);
    var cells := Cells(msg);
    BuiltHeader(category, command, payload, summed);
    forall k | 0 <= k < |cells| - 1 ensures OutcomeAt(rx, cells, resets, k) == More {
      StepInTransit(rx, msg, resets, k);
    }
    LastCell(rx, category, command, payload, summed, resets);
  }

  lemma StepInTransit(rx: Rx, msg: seq<byte>, resets: seq<bool>, k: nat)
    requires Framed(msg) && |resets| == CellCount(|msg|) && k + 1 < CellCount(|msg|)
    ensures OutcomeAt(rx, Cells(msg), resets, k) == More
  {
    hide Cells, Cell, Carried;
    CellAt(msg, k);
    if k > 0 {
      InTransit(rx, msg, resets[..k], k);
    }
    Extends(State(rx, Cells(msg)[..k], resets[..k]), msg, k);
  }

  lemma LastCell(rx: Rx, category: nat, command: nat, payload: seq<byte>, summed: bool, resets: seq<bool>)
    requires category < 16 && command < 8 && |payload| + 4 <= LONGEST
    requires |resets| == CellCount(|payload| + 4)
    ensures var cells := Cells(Build(category, command, payload, summed));
      && |cells| == |resets| && NonEmpty(cells)
      && OutcomeAt(rx, cells, resets, |cells| - 1) == Delivered(Some(Message(category, command, payload)))
  {
    hide Cells, Build, Parse;
    var msg := Build(category, command, payload, summed);
    var k := CellCount(|msg|) - 1;
    BuiltHeader(category, command, payload, summed);
    CellAt(msg, k);
    var data := Prefix(msg, Filled(k + 1));
    assert data[..|msg|] == msg;
    BuiltParses(category, command, payload, summed, data);
    LastData(rx, msg, resets[..k]);
  }

  lemma LastData(rx: Rx, msg: seq<byte>, resets: seq<bool>)
    requires Framed(msg)
    requires |resets| == CellCount(|msg|) - 1
    ensures NonEmpty(Cells(msg)) && |Cells(msg)| == CellCount(|msg|)
    ensures var k := CellCount(|msg|) - 1; var full := Rx(Prefix(msg, Filled(k + 1)), |msg|, msg[0]);
      Cell(State(rx, Cells(msg)[..k], resets), Cells(msg)[k]) == (full, Delivered(Parse(full)))
  {
    hide Cells, Parse, Cell, Carried;
    var k := CellCount(|msg|) - 1;
    CellAt(msg, k);
    if k > 0 {
      InTransit(rx, msg, resets, k);
    }
    LastFed(State(rx, Cells(msg)[..k], resets), msg, k);
  }

  lemma LastFed(rx: Rx, msg: seq<byte>, k: nat)
    requires Framed(msg) && k == CellCount(|msg|) - 1
    requires k > 0 ==> rx == Rx(msg[..Filled(k)], |msg|, msg[0])
    ensures k == 0 || Filled(k) < |msg|
    ensures var full := Rx(Prefix(msg, Filled(k + 1)), |msg|, msg[0]);
      Cell(rx, Carried(msg, k)) == (full, Delivered(Parse(full)))
  {
    hide Parse;
    if k == 0 {
      assert Carried(msg, 0) == Prefix(msg, CELL);
    } else {
      PrefixGrows(msg, Filled(k), Filled(k + 1));
      assert Carried(msg, k)[1..] == Pad(msg[Filled(k)..Min(Filled(k + 1), |msg|)], 63);
    }
  }

  // -------------------------------------------------- Messages that are too long

  /** How a message that outgrows the buffer sits in it after k cells. */
  predicate Outgrowing(rx: Rx, first: byte, k: nat) {
    rx.data == [] || (rx.command == first && |rx.data| == Filled(if 0 < k < 260 then k else 260))
  }

  lemma {:induction false} LongInTransit(rx: Rx, msg: seq<byte>, resets: seq<bool>, k: nat)
    requires |msg| > LONGEST && msg[0] % 2 == 0 && 0 < k <= CellCount(|msg|) && |resets| == k
    ensures Outgrowing(State(rx, Cells(msg)[..k], resets), msg[0], k)
  {
    hide Cells, Parse, Carried, Next, Cell, Outgrowing, Filled, CellCount;
    var cells := Cells(msg)[..k];
    CellAt(msg, k - 1);
    assert cells[..k - 1] == Cells(msg)[..k - 1];
    if k == 1 {
      FirstOfLong(State(rx, cells[..0], resets[..0]), msg, resets[0]);
    } else {
      LongInTransit(rx, msg, resets[..k - 1], k - 1);
      NextOfLong(State(rx, cells[..k - 1], resets[..k - 1]), msg, k - 1, resets[k - 1]);
    }
  }

  lemma FirstOfLong(rx: Rx, msg: seq<byte>, reset: bool)
    requires |msg| > LONGEST && msg[0] % 2 == 0
    ensures Outgrowing(Next(rx, Carried(msg, 0), reset), msg[0], 1)
  {
    hide Parse;
    assert Carried(msg, 0) == msg[..CELL];
  }

  lemma NextOfLong(rx: Rx, msg: seq<byte>, k: nat, reset: bool)
    requires |msg| > LONGEST && msg[0] % 2 == 0 && 0 < k && Filled(k) < |msg| && Outgrowing(rx, msg[0], k)
    ensures Outgrowing(Next(rx, Carried(msg, k), reset), msg[0], k + 1)
    ensures k >= 260 ==> !Cell(rx, Carried(msg, k)).1.Delivered?
  {
    hide Parse;
    assert |Carried(msg, k)| == CELL;
    hide Carried;
  }

  /** A message over 16381 bytes is never delivered by its last cell, whatever
      the state it started from and even where its size field wraps. */
  lemma TooLong(rx: Rx, msg: seq<byte>, resets: seq<bool>)
    requires |msg| > LONGEST && msg[0] % 2 == 0 && |resets| == CellCount(|msg|)
    ensures !OutcomeAt(rx, Cells(msg), resets, CellCount(|msg|) - 1).Delivered?
  {
    hide Cells, Cell, Carried;
    var k := CellCount(|msg|) - 1;
    CellAt(msg, k);
    LongInTransit(rx, msg, resets[..k], k);
    NextOfLong(State(rx, Cells(msg)[..k], resets[..k]), msg, k, resets[k]);
  }

  /** The exact condition for framing to be undone. */
  lemma DeliveredIff(rx: Rx, category: nat, command: nat, payload: seq<byte>, summed: bool, resets: seq<bool>)
    requires category < 16 && command < 8 && |resets| == CellCount(|payload| + 4)
    ensures var cells := Cells(Build(category, command, payload, summed));
      OutcomeAt(rx, cells, resets, |cells| - 1) == Delivered(Some(Message(category, command, payload)))
      <==> |payload| + 4 <= LONGEST
  {
    hide Cells, Cell;
    if |payload| + 4 <= LONGEST {
      RoundTrip(rx, category, command, payload, summed, resets);
    } else {
      TooLong(rx, Build(category, command, payload, summed), resets);
    }
  }

  // ----------------------------------------------------------- One USB transfer

  function Concat(cells: seq<seq<byte>>): seq<byte> {
    if cells == [] then [] else Concat(cells[..|cells| - 1]) + cells[|cells| - 1]
  }

  /** The loop over a received buffer: 64-byte steps, the last one may be short. */
  function Split(buffer: seq<byte>): (cells: seq<seq<byte>>)
    ensures forall c | c in cells :: 0 < |c| <= CELL
    decreases |buffer|
  {
    if buffer == [] then [] else [buffer[..Min(CELL, |buffer|)]] + Split(buffer[Min(CELL, |buffer|)..])
  }

  /** goodix_rx_cb drops a read that is empty or starts with a zero byte. */
  function ReadCells(buffer: seq<byte>): seq<seq<byte>> {
    if buffer == [] || buffer[0] == 0 then [] else Split(buffer)
  }

  lemma {:induction false} SplitConcat(cells: seq<seq<byte>>)
    requires forall c | c in cells :: |c| == CELL
    ensures Split(Concat(cells)) == cells
    decreases |cells|
  {
    if cells != [] {
      SplitConcat(cells[1..]);
      ConcatFirst(cells);
      assert Concat(cells)[..CELL] == cells[0] && Concat(cells)[CELL..] == Concat(cells[1..]);
      assert cells == [cells[0]] + cells[1..];
    }
  }

  lemma {:induction false} ConcatFirst(cells: seq<seq<byte>>)
    requires cells != []
    ensures Concat(cells) == cells[0] + Concat(cells[1..])
    decreases |cells|
  {
    if |cells| > 1 {
      ConcatFirst(cells[..|cells| - 1]);
      assert cells[..|cells| - 1][1..] == cells[1..][..|cells| - 2];
      assert cells[1..][|cells| - 2] == cells[|cells| - 1];
    } else {
      assert cells[..0] == [] && cells[1..] == [];
    }
  }

  /** The cells of several messages, one after the other. */
  function AllCells(msgs: seq<seq<byte>>): (cells: seq<seq<byte>>)
    requires NonEmpty(msgs)
    ensures forall c | c in cells :: |c| == CELL
    decreases |msgs|
  {
    if msgs == [] then [] else AllCells(msgs[..|msgs| - 1]) + Cells(msgs[|msgs| - 1])
  }

  lemma NoCells()
    ensures AllCells([]) == [] && Concat([]) == []
  {
  }

  lemma FirstCell(msg: seq<byte>)
    requires |msg| > 0
    ensures Cells(msg)[0][0] == msg[0]
  {
    hide Continuations, CellCount;
  }

  lemma {:induction false} AllCellsStart(msgs: seq<seq<byte>>)
    requires msgs != [] && NonEmpty(msgs)
    ensures AllCells(msgs) != [] && AllCells(msgs)[0] == Cells(msgs[0])[0]
    decreases |msgs|
  {
    hide Cells;
    if |msgs| > 1 {
      AllCellsStart(msgs[..|msgs| - 1]);
    } else {
      NoCells();
      assert msgs[..0] == [];
    }
  }

  /** A read holding whole messages yields the cells of all of them, unless the
      first one's command byte is zero: then the whole read is dropped. */
  lemma ReadOfMessages(msgs: seq<seq<byte>>)
    requires NonEmpty(msgs)
    ensures ReadCells(Concat(AllCells(msgs))) == if msgs != [] && msgs[0][0] == 0 then [] else AllCells(msgs)
  {
    hide Cells, Split, AllCells, CellCount;
    var cells := AllCells(msgs);
    SplitConcat(cells);
    if msgs == [] {
      NoCells();
    } else {
      AllCellsStart(msgs);
      ConcatFirst(cells);
      FirstCell(msgs[0]);
      assert cells[0] in cells;
      assert Concat(cells)[0] == cells[0][0] == msgs[0][0];
    }
  }

  // ------------------------------------------- What a read of messages delivers

  /** What the receiver is told of: everything but cells that only add bytes. */
  function Heard(rx: Rx, cells: seq<seq<byte>>, resets: seq<bool>): seq<Outcome>
    requires NonEmpty(cells) && |resets| == |cells|
    decreases |cells|
  {
    if cells == [] then []
    else
      var k := |cells| - 1;
      var out := OutcomeAt(rx, cells, resets, k);
      Heard(rx, cells[..k], resets[..k]) + if out.More? then [] else [out]
  }

  lemma {:induction false} HeardTogether(rx: Rx, a: seq<seq<byte>>, ra: seq<bool>, b: seq<seq<byte>>, rb: seq<bool>)
    requires NonEmpty(a) && |ra| == |a| && NonEmpty(b) && |rb| == |b|
    ensures State(rx, a + b, ra + rb) == State(State(rx, a, ra), b, rb)
    ensures Heard(rx, a + b, ra + rb) == Heard(rx, a, ra) + Heard(State(rx, a, ra), b, rb)
    decreases |b|
  {
    hide Cell, Next;
    if b == [] {
      assert a + b == a && ra + rb == ra;
    } else {
      var k := |b| - 1;
      HeardTogether(rx, a, ra, b[..k], rb[..k]);
      assert (a + b)[..|a| + k] == a + b[..k] && (ra + rb)[..|a| + k] == ra + rb[..k];
      assert (a + b)[|a| + k] == b[k] && (ra + rb)[|a| + k] == rb[k];
    }
  }

  lemma {:induction false} NothingHeard(rx: Rx, cells: seq<seq<byte>>, resets: seq<bool>)
    requires NonEmpty(cells) && |resets| == |cells|
    requires forall k | 0 <= k < |cells| :: OutcomeAt(rx, cells, resets, k) == More
    ensures Heard(rx, cells, resets) == []
    decreases |cells|
  {
    hide Cell;
    if cells != [] {
      var n := |cells| - 1;
      forall k | 0 <= k < n ensures OutcomeAt(rx, cells[..n], resets[..n], k) == More {
        assert cells[..n][..k] == cells[..k] && resets[..n][..k] == resets[..k];
        assert OutcomeAt(rx, cells, resets, k) == More;
      }
      NothingHeard(rx, cells[..n], resets[..n]);
      assert OutcomeAt(rx, cells, resets, n) == More;
    }
  }

  /** A message as its sender gives it, with its choice of checksum. */
  datatype Sent = Sent(category: nat, command: nat, payload: seq<byte>, summed: bool)

  function Built(m: Sent): (msg: seq<byte>)
    ensures |msg| > 0
  {
    Build(m.category, m.command, m.payload, m.summed)
  }

  function AllBuilt(sent: seq<Sent>): (msgs: seq<seq<byte>>)
    ensures |msgs| == |sent| && NonEmpty(msgs)
  {
    seq(|sent|, i requires 0 <= i < |sent| => Built(sent[i]))
  }

  predicate Fits(m: Sent) {
    m.category < 16 && m.command < 8 && |m.payload| + 4 <= LONGEST
  }

  function Arrived(m: Sent): Outcome {
    Delivered(Some(Message(m.category, m.command, m.payload)))
  }

  lemma OneHeard(rx: Rx, m: Sent, resets: seq<bool>)
    requires Fits(m) && |resets| == |Cells(Built(m))|
    ensures Heard(rx, Cells(Built(m)), resets) == [Arrived(m)]
  {
    hide Cell, Cells, Build, Carried, State;
    var cells := Cells(Built(m));
    var n := |cells| - 1;
    RoundTrip(rx, m.category, m.command, m.payload, m.summed, resets);
    forall k | 0 <= k < n ensures OutcomeAt(rx, cells[..n], resets[..n], k) == More {
      assert cells[..n][..k] == cells[..k] && resets[..n][..k] == resets[..k];
      assert OutcomeAt(rx, cells, resets, k) == More;
    }
    NothingHeard(rx, cells[..n], resets[..n]);
  }

  lemma BuiltTogether(sent: seq<Sent>)
    ensures AllCells(AllBuilt(sent)) ==
      if sent == [] then [] else AllCells(AllBuilt(sent[..|sent| - 1])) + Cells(Built(sent[|sent| - 1]))
  {
    hide Built, Cells;
    if sent != [] {
      var n := |sent| - 1;
      assert AllBuilt(sent)[..n] == AllBuilt(sent[..n]) && AllBuilt(sent)[n] == Built(sent[n]);
    }
  }

  lemma {:induction false} AllHeard(rx: Rx, sent: seq<Sent>, resets: seq<bool>)
    requires (forall m | m in sent :: Fits(m)) && |resets| == |AllCells(AllBuilt(sent))|
    ensures Heard(rx, AllCells(AllBuilt(sent)), resets) == seq(|sent|, i requires 0 <= i < |sent| => Arrived(sent[i]))
    decreases |sent|
  {
    hide Cells, Built, Heard, Arrived, State, AllCells, AllBuilt;
    if sent == [] {
      BuiltTogether(sent);
      NothingHeard(rx, [], []);
    } else {
      var n := |sent| - 1;
      var rest := sent[..n];
      var before, last := AllCells(AllBuilt(rest)), Cells(Built(sent[n]));
      BuiltTogether(sent);
      var ra, rb := resets[..|before|], resets[|before|..];
      assert ra + rb == resets;
      AllHeard(rx, rest, ra);
      HeardTogether(rx, before, ra, last, rb);
      OneHeard(State(rx, before, ra), sent[n], rb);
    }
  }

  /** A read of several built messages delivers exactly those messages, in order
      and without an error, from any reassembler state, if and only if it does not
      open with a zero command byte. */
  lemma ReadDelivers(rx: Rx, sent: seq<Sent>, resets: seq<bool>)
    requires forall m | m in sent :: Fits(m)
    requires |resets| == |ReadCells(Concat(AllCells(AllBuilt(sent))))|
    ensures Heard(rx, ReadCells(Concat(AllCells(AllBuilt(sent)))), resets)
            == seq(|sent|, i requires 0 <= i < |sent| => Arrived(sent[i]))
      <==> sent == [] || CommandByte(sent[0].category, sent[0].command) != 0
  {
    hide AllCells, ReadCells;
    ReadOfMessages(AllBuilt(sent));
    if sent == [] || CommandByte(sent[0].category, sent[0].command) != 0 {
      AllHeard(rx, sent, resets);
    }
  }
}
