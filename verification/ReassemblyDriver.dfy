/** proto.c and the cell loops of transport.c over their real buffers. */
module ReassemblyDriver {
  import opened Common
  import opened Reassembly

  /** GoodixReassembly: a fixed buffer, a fill level and the announced length. */
  class Reassembler {
    const buf: array<byte>
    var len: nat
    var expected: nat
    var command: byte

    ghost predicate Valid()
      reads this, buf
    {
      buf.Length == BUFFER && len <= BUFFER
    }

    ghost function View(): Rx
      reads this, buf
      requires Valid()
    {
      Rx(buf[..len], expected, command)
    }

    constructor ()
      ensures Valid() && fresh(buf) && View() == Empty
    {
      buf := new byte[BUFFER];
      len, expected, command := 0, 0, 0;
    }

    method Reset()
      requires Valid()
      modifies this
      ensures Valid() && View() == Empty
    {
      len, expected, command := 0, 0, 0;
    }

    /** memcpy into the buffer behind what it holds. */
    method Append(chunk: seq<byte>)
      requires Valid() && len + |chunk| <= BUFFER
      modifies this`len, buf
      ensures Valid() && len == old(len) + |chunk| && buf[..len] == old(buf[..len]) + chunk
    {
      forall i | 0 <= i < |chunk| {
        buf[len + i] := chunk[i];
      }
      len := len + |chunk|;
    }

    /** goodix_proto_rx_feed_chunk. */
    method FeedChunk(chunk: seq<byte>) returns (accepted: bool)
      requires Valid()
      modifies this, buf
      ensures Valid()
      ensures accepted <==> Feed(old(View()), chunk).Some?
      ensures View() == if accepted then Feed(old(View()), chunk).value else old(View())
    {
      accepted := true;
      if |chunk| == 0 {
      } else if len == 0 {
        if |chunk| < 3 || |chunk| > BUFFER { return false; }
        command := chunk[0];
        expected := chunk[1] as int + 256 * (chunk[2] as int) + 3;
        assert buf[..len] == [];
        Append(chunk);
      } else {
        if chunk[0] % 2 == 0 || chunk[0] - chunk[0] % 2 != command || len + |chunk| - 1 > BUFFER { return false; }
        Append(chunk[1..]);
      }
    }

    method IsComplete() returns (complete: bool)
      requires Valid()
      ensures complete <==> Complete(View())
    {
      complete := expected != 0 && len >= expected;
    }

    /** goodix_proto_rx_parse. */
    method ParseMessage() returns (message: Option<Message>)
      requires Valid()
      ensures message == Parse(View())
    {
      if expected == 0 || len < expected || expected < 4 { return None; }
      ghost var msg := View().data[..expected];
      assert msg == buf[..expected];
      var marker := buf[expected - 1];
      assert marker == msg[expected - 1] && msg[..expected - 1] == buf[..expected - 1];
      var trusted := Trusted(marker, expected - 1);
      assert trusted <==> ChecksumValid(msg);
      if !trusted { return None; }
      SliceOfPrefix(buf[..], len, 3, expected - 1);
      message := Some(Message(buf[0] / 16, buf[0] % 16 / 2, buf[3..expected - 1]));
    }

    /** Whether the marker asks for no check or matches the bytes before it. */
    method Trusted(marker: byte, n: nat) returns (ok: bool)
      requires Valid() && n <= buf.Length
      ensures ok <==> marker == NO_CHECKSUM || marker == Checksum(buf[..n])
    {
      if marker == NO_CHECKSUM { return true; }
      var sum := SumOf(buf, n);
      var difference: int := 0xAA - (sum as int);
      ok := difference % 256 == marker;
    }

    /** goodix_rx_cell up to the hand-over of a completed packet. */
    method ReceiveCell(cell: seq<byte>) returns (outcome: Outcome)
      requires Valid() && |cell| > 0
      modifies this, buf
      ensures Valid()
      ensures (View(), outcome) == Cell(old(View()), cell)
    {
      if cell[0] % 2 == 0 || cell[0] - cell[0] % 2 != command {
        Reset();
      }
      if len == 0 && cell[0] % 2 == 1 {
        return More;
      }
      var accepted := FeedChunk(cell);
      if !accepted { return Failed; }
      var complete := IsComplete();
      if complete {
        var message := ParseMessage();
        outcome := Delivered(message);
      } else {
        outcome := More;
      }
    }
  }

  method SumOf(data: array<byte>, n: nat) returns (sum: nat)
    requires n <= data.Length
    ensures sum == Sum(data[..n])
  {
    sum := 0;
    for i := 0 to n
      invariant sum == Sum(data[..i])
    {
      assert data[..i + 1][..i] == data[..i];
      sum := sum + data[i];
    }
  }

  /** goodix_proto_build_message. */
  method BuildMessage(category: nat, command: nat, payload: seq<byte>, summed: bool) returns (msg: array<byte>)
    ensures fresh(msg) && msg[..] == Build(category, command, payload, summed)
  {
    var size := (|payload| + 1) % 0x10000;
    var total := 1 + 2 + |payload| + 1;
    msg := new byte[total];
    msg[0] := CommandByte(category, command);
    msg[1] := size % 256;
    msg[2] := size / 256;
    forall i | 0 <= i < |payload| {
      msg[3 + i] := payload[i];
    }
    ghost var body := Header(category, command, |payload|) + payload;
    assert msg[..total - 1] == body;
    if summed {
      var sum := SumOf(msg, total - 1);
      var difference: int := 0xAA - (sum as int);
      msg[total - 1] := difference % 256;
    } else {
      msg[total - 1] := NO_CHECKSUM;
    }
    assert msg[..total - 1] == body;
    assert msg[..] == msg[..total - 1] + [msg[total - 1]];
  }

  /** One continuation cell: the marker, then up to 63 bytes. */
  method WriteCell(chunked: array<byte>, msg: seq<byte>, k: nat)
    requires |msg| > 0 && 0 < k && Filled(k) < |msg| && (k + 1) * CELL <= chunked.Length
    requires forall i | k * CELL <= i < chunked.Length :: chunked[i] == 0
    modifies chunked
    ensures chunked[..k * CELL] == old(chunked[..k * CELL])
    ensures chunked[k * CELL..(k + 1) * CELL] == Carried(msg, k)
    ensures forall i | (k + 1) * CELL <= i < chunked.Length :: chunked[i] == 0
  {
    var dst, src := k * CELL, Filled(k);
    var count := Min(63, |msg| - src);
    chunked[dst] := msg[0] - msg[0] % 2 + 1;
    forall i | 0 <= i < count {
      chunked[dst + 1 + i] := msg[src + i];
    }
    hide Carried;
    CellBytes(chunked[dst..dst + CELL], msg, k, count);
  }

  lemma SliceOfPrefix<T>(s: seq<T>, n: nat, from: nat, to: nat)
    requires from <= to <= n <= |s|
    ensures s[..n][from..to] == s[from..to]
  {
    forall i | 0 <= i < to - from ensures s[..n][from..to][i] == s[from..to][i] {
      assert s[..n][from + i] == s[from + i];
    }
  }

  /** A cell given byte by byte. */
  lemma CellBytes(cell: seq<byte>, msg: seq<byte>, k: nat, count: nat)
    requires |msg| > 0 && 0 < k && Filled(k) < |msg| && |cell| == CELL && count == Min(63, |msg| - Filled(k))
    requires cell[0] == msg[0] - msg[0] % 2 + 1
    requires forall i | 1 <= i <= count :: cell[i] == msg[Filled(k) + i - 1]
    requires forall i | 1 + count <= i < CELL :: cell[i] == 0
    ensures cell == Carried(msg, k)
  {
    var from := Filled(k);
    assert cell[1..1 + count] == msg[from..from + count];
    assert cell[1 + count..] == Zeros(63 - count);
    hide Carried, Zeros;
    CellPieces(cell, msg, k, count);
  }

  /** A cell given by its marker, its bytes and its padding. */
  lemma CellPieces(cell: seq<byte>, msg: seq<byte>, k: nat, count: nat)
    requires |msg| > 0 && 0 < k && Filled(k) < |msg| && |cell| == CELL && count == Min(63, |msg| - Filled(k))
    requires cell[0] == msg[0] - msg[0] % 2 + 1 && cell[1..1 + count] == msg[Filled(k)..Filled(k) + count]
    requires cell[1 + count..] == Zeros(63 - count)
    ensures cell == Carried(msg, k)
  {
    assert cell == [cell[0]] + (cell[1..1 + count] + cell[1 + count..]);
    hide Zeros;
  }

  /** The cell loop of goodix_transport_send: a zero-filled buffer of whole cells. */
  method ChunkMessage(msg: seq<byte>) returns (chunked: array<byte>)
    requires |msg| > 0
    ensures fresh(chunked) && chunked[..] == Concat(Cells(msg))
  {
    hide Cells, Carried;
    var first := Min(CELL, |msg|);
    var chunks := 1 + (|msg| - first + 62) / 63;
    chunked := new byte[chunks * CELL](_ => 0);
    forall i | 0 <= i < first {
      chunked[i] := msg[i];
    }
    FirstChunk(chunked[..CELL], msg);
    for k := 1 to chunks
      invariant chunked[..k * CELL] == Concat(Cells(msg)[..k])
      invariant forall i | k * CELL <= i < chunked.Length :: chunked[i] == 0
    {
      CellAt(msg, k);
      WriteCell(chunked, msg, k);
      assert chunked[..(k + 1) * CELL] == chunked[..k * CELL] + chunked[k * CELL..(k + 1) * CELL];
      assert Cells(msg)[..k + 1][..k] == Cells(msg)[..k];
    }
    assert Cells(msg)[..chunks] == Cells(msg);
    assert chunked[..chunks * CELL] == chunked[..];
  }

  lemma FirstChunk(cell: seq<byte>, msg: seq<byte>)
    requires |msg| > 0 && |cell| == CELL
    requires forall i | 0 <= i < CELL :: cell[i] == if i < |msg| then msg[i] else 0
    ensures cell == Concat(Cells(msg)[..1])
  {
    CellAt(msg, 0);
    assert Cells(msg)[..1] == [Cells(msg)[0]];
    assert Concat([Cells(msg)[0]]) == Concat([]) + Cells(msg)[0];
  }
}
