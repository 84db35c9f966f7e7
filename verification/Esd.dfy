/**
 The ESD repair and finger-detection arm machines of
 drivers/goodix53x5/device/commands.c.

 A machine waits for one command at a time. An event is that command's result
 with what the callback reads beside it: the shared response buffer, which
 keeps its bytes across commands, and the session's cancellation.
 */
module Esd {
  type Byte = n: nat | n < 0x100

  // ------------------------------------------------------------ Data

  /** The command a repair waits for, or how it ended. */
  datatype Phase =
    | Reset | ResetAgain | Chip | FailedReadReset | ExhaustedReset | Config
    | ArmFirst | ArmConfig | ArmRepeat
    | Completed | Aborted

  /** A result: Exhausted is the transport's ordinary exhaustion, Broken any
      other error, Refused a command the transport was too busy to take. */
  datatype Reply = Success(status: Byte) | Exhausted | Broken | Refused

  datatype Response = Response(b0: Byte, b1: Byte, b2: Byte, b3: Byte)

  datatype Event = Event(reply: Reply, shared: Response, cancelled: bool)

  datatype Repair = Repair(phase: Phase, attempts: nat, masked: bool, chip: nat)

  predicate Over(r: Repair) {
    r.phase.Completed? || r.phase.Aborted?
  }

  function ChipId(s: Response): nat {
    s.b0 * 0x100 + s.b1 + s.b2 * 0x100_0000 + s.b3 * 0x1_0000
  }

  // ------------------------------------------------------------ Steps

  /** goodix_cmd_repair_esd: entering the reset counts an attempt. */
  function Start(masked: bool): Repair {
    Repair(Reset, 1, masked, 0)
  }

  function Retry(r: Repair): Repair {
    if r.attempts < 10 then r.(phase := Reset, attempts := r.attempts + 1) else r.(phase := ExhaustedReset)
  }

  predicate Arming(p: Phase) {
    p.ArmFirst? || p.ArmConfig? || p.ArmRepeat?
  }

  /** goodix_arm_result; a completed arm completes the repair. */
  function ArmStep(p: Phase, e: Event): Phase
    requires Arming(p)
  {
    if e.reply.Broken? || e.reply.Refused? then Aborted
    else if e.cancelled then (if !p.ArmConfig? && e.reply.Success? then Completed else Aborted)
    else if p.ArmConfig? then ArmRepeat
    else if p.ArmFirst? && e.reply.Success? && e.reply.status % 4 == 3 then ArmConfig
    else Completed
  }

  /** goodix_esd_result and the handler it jumps to. */
  function Step(r: Repair, id: nat, e: Event): Repair {
    if Over(r) then r
    else if Arming(r.phase) then r.(phase := ArmStep(r.phase, e))
    else if e.reply.Broken? || e.reply.Refused? then r.(phase := Aborted)
    else match r.phase
      case Reset =>
        if r.masked then r.(phase := Chip)
        else if e.reply.Success? && e.shared.b1 + e.shared.b2 * 0x100 == 0x410 then r.(phase := ResetAgain)
        else Retry(r)
      case ResetAgain => r.(phase := Chip)
      case Chip =>
        var read := if e.reply.Success? then r.(chip := ChipId(e.shared)) else r;
        if (!r.masked || e.reply.Success?) && read.chip == id then read.(phase := Config)
        else if r.masked && !e.reply.Success? then read.(phase := FailedReadReset)
        else Retry(read)
      case FailedReadReset => Retry(r)
      case Config => r.(phase := ArmFirst)
      case _ => r.(phase := Completed)
  }

  function Run(r: Repair, id: nat, events: seq<Event>): Repair
    decreases |events|
  {
    if events == [] then r
    else Step(Run(r, id, events[..|events| - 1]), id, events[|events| - 1])
  }

  // ------------------------------------------------------------ Main results

  /** How many commands a repair can still issue. */
  function Left(r: Repair): int {
    var cycles := 10 - (r.attempts as int);
    match r.phase
    case Reset => 7 + 3 * cycles
    case ResetAgain => 6 + 3 * cycles
    case Chip => if r.masked then 6 + 3 * cycles else 5 + 3 * cycles
    case FailedReadReset => 5 + 3 * cycles
    case ExhaustedReset => 1
    case Config => 4
    case ArmFirst => 3
    case ArmConfig => 2
    case ArmRepeat => 1
    case _ => 0
  }

  predicate Counted(r: Repair) {
    1 <= r.attempts <= 10 && (r.masked ==> !r.phase.ResetAgain?)
  }

  lemma StepCounts(r: Repair, id: nat, e: Event)
    requires Counted(r)
    ensures Counted(Step(r, id, e)) && 0 <= Left(Step(r, id, e))
    ensures !Over(r) ==> Left(Step(r, id, e)) < Left(r)
  {
  }

  lemma {:induction false} RunCounts(masked: bool, id: nat, events: seq<Event>)
    ensures var r := Run(Start(masked), id, events);
      Counted(r) && 0 <= Left(r) && (Over(r) || Left(r) + |events| <= 34)
    decreases |events|
  {
    if events != [] {
      var before := events[..|events| - 1];
      RunCounts(masked, id, before);
      StepCounts(Run(Start(masked), id, before), id, events[|events| - 1]);
      hide Step;
    }
  }

  /** Given its completions a repair ends: ten reset cycles at most, and no more
      than 34 commands whatever they return. */
  lemma RepairEnds(masked: bool, id: nat, events: seq<Event>)
    ensures Run(Start(masked), id, events).attempts <= 10
    ensures |events| >= 34 ==> Over(Run(Start(masked), id, events))
  {
    RunCounts(masked, id, events);
    hide Run, Step;
  }

  /** A cycle of three commands that ends with the wrong chip. */
  function WrongChip(id: nat): seq<Event> {
    var marker := Event(Success(1), Response(0, 0x10, 4, 0), false);
    var wrong := if id == 0 then Response(0, 1, 0, 0) else Response(0, 0, 0, 0);
    [marker, marker, Event(Success(1), wrong, false)]
  }

  function Cycles(id: nat, n: nat): (events: seq<Event>)
    ensures |events| == 3 * n
  {
    if n == 0 then [] else Cycles(id, n - 1) + WrongChip(id)
  }

  lemma Extended(r: Repair, id: nat, before: seq<Event>, e: Event)
    ensures Run(r, id, before + [e]) == Step(Run(r, id, before), id, e)
  {
    assert (before + [e])[..|before|] == before;
  }

  lemma RunThree(r: Repair, id: nat, before: seq<Event>, a: Event, b: Event, c: Event)
    ensures Run(r, id, before + [a, b, c]) == Step(Step(Step(Run(r, id, before), id, a), id, b), id, c)
  {
    hide Step, Run;
    Extended(r, id, before, a);
    Extended(r, id, before + [a], b);
    Extended(r, id, before + [a] + [b], c);
    assert before + [a, b, c] == before + [a] + [b] + [c];
  }

  /** One cycle leads from a reset to the next. */
  lemma CycleStep(r: Repair, id: nat)
    requires r.phase == Reset && r.attempts < 10 && !r.masked
    ensures var w := WrongChip(id);
      var s := Step(Step(Step(r, id, w[0]), id, w[1]), id, w[2]);
      s.phase == Reset && s.attempts == r.attempts + 1 && !s.masked
  {
    var w := WrongChip(id);
    var r1 := Step(r, id, w[0]);
    assert r1 == r.(phase := ResetAgain);
    var r2 := Step(r1, id, w[1]);
    assert r2 == r.(phase := Chip);
    assert ChipId(w[2].shared) != id;
    assert Step(r2, id, w[2]) == Retry(r2.(chip := ChipId(w[2].shared))) by { hide ChipId, Retry; }
  }

  lemma {:induction false} CyclesCount(id: nat, n: nat)
    requires n <= 9
    ensures var r := Run(Start(false), id, Cycles(id, n)); r.phase == Reset && r.attempts == n + 1 && !r.masked
  {
    if n > 0 {
      CyclesCount(id, n - 1);
      var w := WrongChip(id);
      assert w == [w[0], w[1], w[2]];
      RunThree(Start(false), id, Cycles(id, n - 1), w[0], w[1], w[2]);
      CycleStep(Run(Start(false), id, Cycles(id, n - 1)), id);
      hide Run, Step;
    }
  }

  /** The bound is exact for any chip id a response can carry: some repair is
      still waiting after 33. */
  lemma BoundReached(id: nat, own: Response)
    requires ChipId(own) == id
    ensures exists events: seq<Event> :: |events| == 33 && !Over(Run(Start(false), id, events))
  {
    var marker := Event(Success(1), Response(0, 0x10, 4, 0), false);
    var chip := Event(Success(1), own, false);
    var both := Event(Success(3), own, false);
    CyclesCount(id, 9);
    var cycles := Cycles(id, 9);
    var matched := cycles + [marker, marker, chip];
    var events := matched + [both, both, both];
    RunThree(Start(false), id, cycles, marker, marker, chip);
    RunThree(Start(false), id, matched, both, both, both);
    hide Run, Cycles;
    assert |events| == 33;
    LastCycle(Run(Start(false), id, cycles), id, marker, chip, both);
    assert Run(Start(false), id, events).phase == ArmRepeat;
  }

  lemma LastCycle(r: Repair, id: nat, marker: Event, chip: Event, both: Event)
    requires r.phase == Reset && !r.masked
    requires marker == Event(Success(1), Response(0, 0x10, 4, 0), false)
    requires chip.reply.Success? && ChipId(chip.shared) == id && both.reply == Success(3) && !both.cancelled
    ensures var s := Step(Step(Step(r, id, marker), id, marker), id, chip);
      Step(Step(Step(s, id, both), id, both), id, both).phase == ArmRepeat
  {
    assert Step(r, id, marker) == r.(phase := ResetAgain);
    assert Step(r.(phase := ResetAgain), id, marker) == r.(phase := Chip);
    assert Step(r.(phase := Chip), id, chip) == r.(phase := Config, chip := id);
  }

  // ------------------------------------------------------------ Configuration

  /** Until a read matches, the retained chip value is not the device's. */
  predicate NotYetMatched(r: Repair, id: nat) {
    r.phase in {Reset, ResetAgain, Chip, FailedReadReset} && !r.masked ==> r.chip != id
  }

  /** The step into the configuration restore. */
  predicate Restores(r: Repair, id: nat, e: Event) {
    !r.phase.Config? && Step(r, id, e).phase.Config?
  }

  predicate Matches(r: Repair, id: nat, e: Event) {
    r.phase.Chip? && e.reply.Success? && ChipId(e.shared) == id
  }

  lemma {:induction false} RunNotYetMatched(masked: bool, id: nat, events: seq<Event>)
    requires id != 0 || masked
    ensures NotYetMatched(Run(Start(masked), id, events), id)
    decreases |events|
  {
    if events != [] {
      RunNotYetMatched(masked, id, events[..|events| - 1]);
    }
  }

  /** Over every run the configuration is restored exactly on the successful reads
      of the device's chip id, if and only if that id is nonzero or the notice was
      masked: otherwise a failed first read matches the value never read. */
  lemma RestoresOnlyOnMatch(masked: bool, id: nat)
    ensures id != 0 || masked <==>
      forall events: seq<Event>, e: Event :: Restores(Run(Start(masked), id, events), id, e)
        <==> Matches(Run(Start(masked), id, events), id, e)
  {
    if id != 0 || masked {
      forall events: seq<Event>, e: Event
        ensures Restores(Run(Start(masked), id, events), id, e) <==> Matches(Run(Start(masked), id, events), id, e)
      {
        RunNotYetMatched(masked, id, events);
        hide Run;
      }
    } else {
      var marker := Event(Success(1), Response(0, 0x10, 4, 0), false);
      var lost := Event(Exhausted, Response(0, 0, 0, 0), false);
      Extended(Start(false), id, [], marker);
      Extended(Start(false), id, [] + [marker], marker);
      var r := Run(Start(false), id, [] + [marker] + [marker]);
      assert Run(Start(false), id, []) == Start(false);
      hide Run;
      assert Step(Start(false), id, marker).phase == ResetAgain;
      assert r.phase == Chip;
      assert Restores(r, id, lost) && !Matches(r, id, lost);
    }
  }

  /** A repair completes in two ways only: armed after a restore, or after the
      last reset of ten failed cycles. */
  lemma {:induction false} CompletedHow(masked: bool, id: nat, events: seq<Event>)
    requires Run(Start(masked), id, events).phase == Completed
    ensures exists k | 0 <= k < |events| :: var p := Run(Start(masked), id, events[..k]);
      p.phase == Config || (p.phase == ExhaustedReset && p.attempts == 10)
    decreases |events|
  {
    var last := |events| - 1;
    var before := Run(Start(masked), id, events[..last]);
    if before.phase == Completed {
      CompletedHow(masked, id, events[..last]);
      var k :| 0 <= k < last && (var p := Run(Start(masked), id, events[..last][..k]);
        p.phase == Config || (p.phase == ExhaustedReset && p.attempts == 10));
      assert events[..last][..k] == events[..k];
    } else if Arming(before.phase) {
      ArmedAfterConfig(masked, id, events[..last]);
      var k :| 0 <= k < last && Run(Start(masked), id, events[..last][..k]).phase == Config;
      assert events[..last][..k] == events[..k];
    } else {
      ExhaustedAfterTen(masked, id, events[..last]);
    }
  }

  lemma {:induction false} ArmedAfterConfig(masked: bool, id: nat, events: seq<Event>)
    requires Arming(Run(Start(masked), id, events).phase)
    ensures exists k | 0 <= k < |events| :: Run(Start(masked), id, events[..k]).phase == Config
    decreases |events|
  {
    var last := |events| - 1;
    if Run(Start(masked), id, events[..last]).phase != Config {
      ArmedAfterConfig(masked, id, events[..last]);
      var k :| 0 <= k < last && Run(Start(masked), id, events[..last][..k]).phase == Config;
      assert events[..last][..k] == events[..k];
    }
  }

  lemma {:induction false} ExhaustedAfterTen(masked: bool, id: nat, events: seq<Event>)
    ensures var r := Run(Start(masked), id, events); r.phase == ExhaustedReset ==> r.attempts == 10
    decreases |events|
  {
    if events != [] {
      RunCounts(masked, id, events[..|events| - 1]);
      ExhaustedAfterTen(masked, id, events[..|events| - 1]);
    }
  }

  // ------------------------------------------------------------ Arming

  function ArmRun(p: Phase, events: seq<Event>): Phase
    decreases |events|
  {
    if events == [] || !Arming(p) then p else ArmRun(ArmStep(p, events[0]), events[1..])
  }

  /** The result of an arm command lets the arm end well: no error but ordinary
      exhaustion, and if it was cancelled, no error at all. */
  predicate EndsWell(e: Event) {
    !e.reply.Broken? && !e.reply.Refused? && (e.cancelled ==> e.reply.Success?)
  }

  /** The sensor asks for its configuration. */
  predicate AsksConfig(e: Event) {
    e.reply.Success? && e.reply.status % 4 == 3 && !e.cancelled
  }

  /** An arm alone takes at most three commands. It completes exactly when its
      first command ends well and, if the sensor asked for its configuration with
      it, the configuration is sent uncancelled and the repeated command ends well
      too; otherwise it is aborted. */
  lemma ArmSettles(events: seq<Event>)
    requires |events| >= 3
    ensures ArmRun(ArmFirst, events) ==
      if EndsWell(events[0])
        && (AsksConfig(events[0]) ==>
              !events[1].reply.Broken? && !events[1].reply.Refused? && !events[1].cancelled && EndsWell(events[2]))
      then Completed else Aborted
  {
    var p1 := ArmStep(ArmFirst, events[0]);
    if Arming(p1) {
      var p2 := ArmStep(p1, events[1]);
      assert events[1..][0] == events[1] && events[1..][1..] == events[2..];
      assert ArmRun(ArmFirst, events) == ArmRun(p2, events[2..]);
      if Arming(p2) {
        assert events[2..][0] == events[2];
        assert ArmRun(p2, events[2..]) == ArmRun(ArmStep(p2, events[2]), events[2..][1..]);
      }
    }
  }

  // ---------------------------------------------------- As commands.c runs it

  /** The states the repair's handler knows. */
  datatype SsmState =
    | AtReset | AtResetAgain | AtChip | AtFailedReadReset | AtRetry | AtExhaustedReset | AtConfig | AtArm | AtDone

  /** GoodixEsdOperation with the machine that drives it and its arm. */
  class Operation {
    const id: nat
    const masked: bool
    var attempts: nat
    var chip: nat
    var phase: Phase

    ghost function View(): Repair
      reads this
    {
      Repair(phase, attempts, masked, chip)
    }

    /** goodix_cmd_repair_esd: the notice is masked when either of its two bits
        is set. */
    constructor (id: nat, noticeMask: bool)
      ensures this.id == id && this.masked == noticeMask && View() == Start(noticeMask)
    {
      this.id, masked, attempts, chip, phase := id, noticeMask, 0, 0, Reset;
      new;
      Jump(AtReset);
    }

    /** goodix_esd_handler for the state jumped to. */
    method Jump(state: SsmState)
      modifies this`attempts, this`phase
      ensures View() == match state
        case AtReset => old(View()).(phase := Reset, attempts := old(attempts) + 1)
        case AtResetAgain => old(View()).(phase := ResetAgain)
        case AtChip => old(View()).(phase := Chip)
        case AtFailedReadReset => old(View()).(phase := FailedReadReset)
        case AtRetry => Retry(old(View()))
        case AtExhaustedReset => old(View()).(phase := ExhaustedReset)
        case AtConfig => old(View()).(phase := Config)
        case AtArm => old(View()).(phase := ArmFirst)
        case AtDone => old(View()).(phase := Completed)
      decreases state.AtRetry?
    {
      match state
      case AtReset => attempts := attempts + 1; phase := Reset;
      case AtResetAgain => phase := ResetAgain;
      case AtChip => phase := Chip;
      case AtFailedReadReset => phase := FailedReadReset;
      case AtRetry => Jump(if attempts < 10 then AtReset else AtExhaustedReset);
      case AtExhaustedReset => phase := ExhaustedReset;
      case AtConfig => phase := Config;
      case AtArm => phase := ArmFirst;
      case AtDone => phase := Completed;
    }

    /** One completion, delivered to the machine that issued the command. */
    method Deliver(e: Event)
      modifies this`attempts, this`chip, this`phase
      ensures View() == Step(old(View()), id, e)
    {
      if phase.Completed? || phase.Aborted? { return; }
      if Arming(phase) {
        ArmResult(e);
      } else {
        EsdResult(e);
      }
    }

    /** goodix_esd_result. */
    method EsdResult(e: Event)
      requires !Over(View()) && !Arming(phase)
      modifies this`attempts, this`chip, this`phase
      ensures View() == Step(old(View()), id, e)
    {
      if e.reply.Broken? || e.reply.Refused? {
        phase := Aborted;
        return;
      }
      var success := e.reply.Success?;
      match phase
      case Reset =>
        if masked { Jump(AtChip); }
        else if success && e.shared.b1 + e.shared.b2 * 0x100 == 0x410 { Jump(AtResetAgain); }
        else { Jump(AtRetry); }
      case ResetAgain => Jump(AtChip);
      case Chip =>
        if success { chip := ChipId(e.shared); }
        if (!masked || success) && chip == id { Jump(AtConfig); }
        else if masked && !success { Jump(AtFailedReadReset); }
        else { Jump(AtRetry); }
      case FailedReadReset => Jump(AtRetry);
      case Config => Jump(AtArm);
      case ExhaustedReset => Jump(AtDone);
    }

    /** goodix_arm_result. */
    method ArmResult(e: Event)
      requires Arming(phase)
      modifies this`phase
      ensures phase == ArmStep(old(phase), e)
    {
      if e.reply.Broken? || e.reply.Refused? {
        phase := Aborted;
      } else if e.cancelled {
        phase := if !phase.ArmConfig? && !e.reply.Exhausted? then Completed else Aborted;
      } else if phase.ArmConfig? || (phase.ArmFirst? && !e.reply.Exhausted? && e.reply.status % 4 == 3) {
        phase := if phase.ArmFirst? then ArmConfig else ArmRepeat;
      } else {
        phase := Completed;
      }
    }
  }
}
