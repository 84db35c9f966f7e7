/**
 The receive loop of the stand-alone probe (scripts/goodix53x5-detect.c), on the
 cells of the driver's own framing: it always ends, and it accepts every message
 up to its own limit, four times the driver's.
 */
module Probe {
  import opened Common
  import opened Reassembly

  const MOST := 65536
  const PATIENCE := 8

  /** One bulk read: up to a cell of bytes, or an error. */
  datatype Read = Bytes(data: seq<byte>) | Broken

  /** What the loop carries from read to read; `expected` 0 before the first. */
  datatype Loop = Loop(message: seq<byte>, expected: nat, command: byte, stalls: nat)

  datatype Result = Waiting(loop: Loop) | Refused | Received(message: seq<byte>)

  const Idle := Loop([], 0, 0, 0)

  // ------------------------------------------------------------ Specification

  /** receive_made_progress: eight fruitless reads in a row are forgiven. */
  function Stalled(l: Loop): Result {
    if l.stalls + 1 <= PATIENCE then Waiting(l.(stalls := l.stalls + 1)) else Refused
  }

  /** Bytes that belong to the message: progress, and perhaps its end. */
  function Taken(l: Loop, data: seq<byte>): Result
    requires |l.message| < l.expected
  {
    var n := Min(|data|, l.expected - |l.message|);
    if n == 0 then Stalled(l)
    else
      var l1 := l.(message := l.message + data[..n], stalls := 0);
      if |l1.message| < l1.expected then Waiting(l1)
      else if ChecksumValid(l1.message) && Announced(l1.message) == |l1.message| then Received(l1.message)
      else Refused
  }

  predicate Open(l: Loop) {
    && l.stalls <= PATIENCE
    && (l.message == [] ==> l.expected == 0)
    && (l.message != [] ==> 4 <= l.expected <= MOST && 3 <= |l.message| < l.expected)
  }

  function Step(l: Loop, r: Read): Result
    requires Open(l)
  {
    if r.Broken? then Refused
    else if |r.data| == 0 then Stalled(l)
    else if l.message == [] then
      if |r.data| < 3 then Refused
      else
        var total := Announced(r.data);
        if total < 4 || total > MOST then Refused
        else Taken(l.(command := r.data[0], expected := total), r.data)
    else if r.data[0] % 2 == 0 || r.data[0] - r.data[0] % 2 != l.command then Refused
    else Taken(l, r.data[1..])
  }

  lemma StepOpens(l: Loop, r: Read)
    requires Open(l)
    ensures Step(l, r).Waiting? ==> Open(Step(l, r).loop)
  {
  }

  /** receive_message on a run of reads. */
  function Run(l: Loop, input: seq<Read>): Result
    requires Open(l)
    decreases |input|
  {
    if input == [] then Waiting(l)
    else
      StepOpens(l, input[0]);
      var r := Step(l, input[0]);
      if r.Waiting? then Run(r.loop, input[1..]) else r
  }

  // ------------------------------------------------------------ It ends

  /** How many more reads the loop can survive. */
  function Left(l: Loop): int {
    9 * (if l.message == [] then MOST else l.expected - |l.message|) + PATIENCE - l.stalls
  }

  lemma {:induction false} Ends(l: Loop, input: seq<Read>)
    requires Open(l)
    ensures |input| > Left(l) ==> !Run(l, input).Waiting?
    decreases |input|
  {
    if input != [] {
      var r := Step(l, input[0]);
      StepOpens(l, input[0]);
      if r.Waiting? {
        Ends(r.loop, input[1..]);
      }
    }
  }

  /** Whatever is read, the loop ends within nine reads for each byte of the
      longest message, and what it returns is a checked message of its own
      announced length, within its limit. */
  lemma AlwaysEnds(input: seq<Read>)
    ensures |input| > 9 * MOST + PATIENCE ==> !Run(Idle, input).Waiting?
    ensures Run(Idle, input).Received? ==>
      var m := Run(Idle, input).message; 4 <= |m| <= MOST && Announced(m) == |m| && ChecksumValid(m)
  {
    Ends(Idle, input);
    OnlyChecked(Idle, input);
  }

  lemma {:induction false} OnlyChecked(l: Loop, input: seq<Read>)
    requires Open(l)
    ensures Run(l, input).Received? ==>
      var m := Run(l, input).message; 4 <= |m| <= MOST && Announced(m) == |m| && ChecksumValid(m)
    decreases |input|
  {
    if input != [] {
      StepOpens(l, input[0]);
      StepChecks(l, input[0]);
      if Step(l, input[0]).Waiting? {
        OnlyChecked(Step(l, input[0]).loop, input[1..]);
      }
    }
  }

  lemma StepChecks(l: Loop, r: Read)
    requires Open(l)
    ensures Step(l, r).Received? ==>
      var m := Step(l, r).message; 4 <= |m| <= MOST && Announced(m) == |m| && ChecksumValid(m)
  {
    hide ChecksumValid;
  }

  // ------------------------------------------------------------ Round trip

  /** Cells with fruitless reads before each. */
  function Paced(cells: seq<seq<byte>>, pauses: seq<nat>): seq<Read>
    requires |pauses| == |cells|
    decreases |cells|
  {
    if cells == [] then [] else Pause(pauses[0]) + [Bytes(cells[0])] + Paced(cells[1..], pauses[1..])
  }

  function Pause(n: nat): (input: seq<Read>)
    ensures |input| == n
  {
    seq(n, _ => Bytes([]))
  }

  lemma {:induction false} PauseForgiven(l: Loop, n: nat, rest: seq<Read>)
    requires Open(l) && l.stalls + n <= PATIENCE
    ensures Open(l.(stalls := l.stalls + n))
    ensures Run(l, Pause(n) + rest) == Run(l.(stalls := l.stalls + n), rest)
    decreases n
  {
    if n == 0 {
      assert Pause(0) + rest == rest;
    } else {
      var l1 := l.(stalls := l.stalls + 1);
      assert (Pause(n) + rest)[1..] == Pause(n - 1) + rest;
      PauseForgiven(l1, n - 1, rest);
    }
  }

  lemma PacedFrom(cells: seq<seq<byte>>, pauses: seq<nat>)
    requires |pauses| == |cells| > 0
    ensures Paced(cells, pauses) == Pause(pauses[0]) + ([Bytes(cells[0])] + Paced(cells[1..], pauses[1..]))
  {
    hide Pause;
  }

  /** A message in transit: everything up to cell k has arrived. */
  function At(msg: seq<byte>, k: nat): Loop
    requires |msg| > 0
  {
    if k == 0 then Idle else Loop(msg[..Min(Filled(k), |msg|)], |msg|, msg[0], 0)
  }

  predicate Sendable(msg: seq<byte>) {
    4 <= |msg| <= MOST && msg[0] % 2 == 0 && Announced(msg) == |msg| && ChecksumValid(msg)
  }

  lemma CellTaken(msg: seq<byte>, k: nat, stalls: nat)
    requires Sendable(msg) && k < CellCount(|msg|) && stalls <= PATIENCE
    ensures Open(At(msg, k).(stalls := stalls))
    ensures Step(At(msg, k).(stalls := stalls), Bytes(Cells(msg)[k])) ==
      if k + 1 == CellCount(|msg|) then Received(msg) else Waiting(At(msg, k + 1))
  {
    CellAt(msg, k);
    hide Cells, ChecksumValid, Carried, Taken;
    if k == 0 {
      FirstCellBytes(msg);
      FirstTaken(msg, Carried(msg, 0), stalls);
    } else {
      CellSpan(|msg|, k);
      LaterTaken(msg, k, Carried(msg, k), stalls);
    }
  }

  lemma FirstCellBytes(msg: seq<byte>)
    requires Sendable(msg)
    ensures var n, cell := Min(CELL, |msg|), Carried(msg, 0);
      |cell| == CELL && cell[..n] == msg[..n] && Announced(cell) == |msg| && cell[0] == msg[0]
  {
    hide ChecksumValid;
    var n, cell := Min(CELL, |msg|), Carried(msg, 0);
    assert cell[..n] == msg[..n];
    assert cell[0] == msg[0] && cell[1] == msg[1] && cell[2] == msg[2];
  }

  lemma FirstTaken(msg: seq<byte>, cell: seq<byte>, stalls: nat)
    requires Sendable(msg) && |cell| == CELL
    requires var n := Min(CELL, |msg|); cell[..n] == msg[..n]
    ensures Taken(Loop([], |msg|, msg[0], stalls), cell) ==
      if CellCount(|msg|) == 1 then Received(msg) else Waiting(At(msg, 1))
  {
    hide ChecksumValid;
    var n := Min(CELL, |msg|);
    assert [] + cell[..n] == msg[..n];
    assert msg[..|msg|] == msg;
  }

  lemma LaterTaken(msg: seq<byte>, k: nat, cell: seq<byte>, stalls: nat)
    requires Sendable(msg) && 0 < k < CellCount(|msg|) && Filled(k) < |msg| && cell == Carried(msg, k)
    ensures |cell| == CELL && cell[0] == msg[0] + 1
    ensures Taken(At(msg, k).(stalls := stalls), cell[1..]) ==
      if k + 1 == CellCount(|msg|) then Received(msg) else Waiting(At(msg, k + 1))
  {
    hide ChecksumValid;
    var n := Min(63, |msg| - Filled(k));
    assert Min(Filled(k + 1), |msg|) == Filled(k) + n;
    assert cell[1..][..n] == msg[Filled(k)..Filled(k) + n];
    assert msg[..Filled(k)] + msg[Filled(k)..Filled(k) + n] == msg[..Filled(k) + n];
    assert msg[..|msg|] == msg;
  }

  lemma {:induction false} CellsTaken(msg: seq<byte>, pauses: seq<nat>, k: nat)
    requires Sendable(msg) && k < CellCount(|msg|) && |pauses| == CellCount(|msg|)
    requires forall p | p in pauses :: p <= PATIENCE
    ensures Open(At(msg, k))
    ensures Run(At(msg, k), Paced(Cells(msg)[k..], pauses[k..])) == Received(msg)
    decreases CellCount(|msg|) - k
  {
    hide Cells, CellCount;
    var cell, pause := Cells(msg)[k], pauses[k];
    assert pause in pauses;
    var later := Paced(Cells(msg)[k + 1..], pauses[k + 1..]);
    assert Cells(msg)[k..][1..] == Cells(msg)[k + 1..] && pauses[k..][1..] == pauses[k + 1..];
    PacedFrom(Cells(msg)[k..], pauses[k..]);
    CellTaken(msg, k, 0);
    CellTaken(msg, k, pause);
    assert At(msg, k).stalls == 0;
    hide Step, At, Pause, Open, Paced, Sendable;
    PauseForgiven(At(msg, k), pause, [Bytes(cell)] + later);
    assert ([Bytes(cell)] + later)[1..] == later;
    if k + 1 < CellCount(|msg|) {
      CellsTaken(msg, pauses, k + 1);
    }
  }

  lemma BuiltSendable(category: nat, command: nat, payload: seq<byte>, summed: bool)
    requires |payload| + 4 <= MOST
    ensures Sendable(Build(category, command, payload, summed))
  {
    var m := Build(category, command, payload, summed);
    BuiltHeader(category, command, payload, summed);
    hide Announced, Checksum, CommandByte;
    assert m[..|m| - 1] == Header(category, command, |payload|) + payload;
    hide Header;
  }

  /** The driver's cells of a message built with a checksum or with the marker
      that asks for none, with at most eight fruitless reads before each, come back
      as that message exactly when it is no longer than 65536 bytes. */
  lemma ReceivedIff(category: nat, command: nat, payload: seq<byte>, summed: bool, pauses: seq<nat>)
    requires |pauses| == CellCount(|payload| + 4) && forall p | p in pauses :: p <= PATIENCE
    ensures var m := Build(category, command, payload, summed);
      Run(Idle, Paced(Cells(m), pauses)) == Received(m) <==> |payload| + 4 <= MOST
  {
    var m := Build(category, command, payload, summed);
    hide Run, Cells, Paced, Build, Sendable, ChecksumValid;
    if |m| <= MOST {
      BuiltSendable(category, command, payload, summed);
      CellsTaken(m, pauses, 0);
      assert Cells(m)[0..] == Cells(m) && pauses[0..] == pauses;
    } else {
      OnlyChecked(Idle, Paced(Cells(m), pauses));
    }
  }

  // ------------------------------------------------- As the probe runs it

  lemma OneRead(l: Loop, input: seq<Read>, i: nat)
    requires Open(l) && i < |input|
    ensures var r := Step(l, input[i]); if r.Waiting? then Open(r.loop) && Run(l, input[i..]) == Run(r.loop, input[i + 1..])
                                        else Run(l, input[i..]) == r
  {
    StepOpens(l, input[i]);
    assert input[i..][1..] == input[i + 1..];
    hide Step;
  }

  lemma AllRead(l: Loop)
    requires Open(l)
    ensures Run(l, []) == Waiting(l)
  {
  }

  /** receive_message: the reads it will be given, and how many it used. */
  method ReceiveMessage(input: seq<Read>) returns (result: Result)
    ensures result == Run(Idle, input)
  {
    hide ChecksumValid, Announced, Run;
    assert input[0..] == input;
    var message: seq<byte> := [];
    var expected: nat := 0;
    var command: byte := 0;
    var stalls: nat := 0;
    var i := 0;
    while i < |input|
      invariant 0 <= i <= |input| && Open(Loop(message, expected, command, stalls))
      invariant Run(Idle, input) == Run(Loop(message, expected, command, stalls), input[i..])
    {
      var read := input[i];
      OneRead(Loop(message, expected, command, stalls), input, i);
      i := i + 1;
      if read.Broken? { return Refused; }
      var data := read.data;
      if |data| > 0 {
        if |message| == 0 {
          if |data| < 3 { return Refused; }
          command := data[0];
          expected := Announced(data);
          if expected < 4 || expected > MOST { return Refused; }
        } else {
          if data[0] % 2 == 0 || data[0] - data[0] % 2 != command { return Refused; }
          data := data[1..];
        }
      }
      var n := if |data| == 0 then 0 else Min(|data|, expected - |message|);
      if n == 0 {
        if stalls + 1 > PATIENCE { return Refused; }
        stalls := stalls + 1;
      } else {
        stalls := 0;
        message := message + data[..n];
        if |message| >= expected {
          return if ChecksumValid(message) && Announced(message) == |message| then Received(message) else Refused;
        }
      }
    }
    assert input[i..] == [];
    AllRead(Loop(message, expected, command, stalls));
    result := Waiting(Loop(message, expected, command, stalls));
  }
}
