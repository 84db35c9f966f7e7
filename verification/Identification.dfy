/**
 The chip identification of an open (drivers/goodix53x5/device/session.c and the
 family test of device/base.c), and what it means for the repairs that follow.

 An event is the result of the command the machine waits for, or the end of a
 delay; `gone` says that the open was cancelled or the device removed by then.
 */
module Identification {
  import opened Common
  import Esd

  type Word = n: nat | n < 0x1_0000_0000

  datatype State = InitialReset | InitialDelay | Reading | RecoveryReset | RecoveryDelay | Identified | Unidentified

  /** `payload` is the parsed chip reply, if it parses; Exhausted is the one error
      that counts as a failed cycle. */
  datatype Event = Event(reply: Esd.Reply, payload: Option<seq<Esd.Byte>>, gone: bool)

  datatype Search = Search(state: State, failures: nat, chip: Word)

  predicate Over(s: Search) {
    s.state.Identified? || s.state.Unidentified?
  }

  // ------------------------------------------------------------ Specification

  /** goodix_milan_runtime_subtype_for_chip: the masked id is the family's prefix. */
  predicate HasSubtype(id: Word) {
    id - id % 0x100 == 0x22_0c00
  }

  /** The four families a chip reply is recognised by. */
  predicate Known(id: Word) {
    id / 0x100 in {0x2202, 0x2207, 0x2208, 0x220c}
  }

  function Decode(payload: seq<Esd.Byte>): Word
    requires |payload| == 4
  {
    Esd.ChipId(Esd.Response(payload[0], payload[1], payload[2], payload[3]))
  }

  /** A cycle without a recognised chip: reset the sensor and wait. */
  function Failed(s: Search): Search {
    s.(state := RecoveryReset, failures := s.failures + 1)
  }

  function Read(s: Search, e: Event): Search {
    if !e.reply.Success? then Failed(s)
    else if e.payload.None? || |e.payload.value| != 4 then s.(state := Unidentified)
    else
      var read := s.(chip := Decode(e.payload.value));
      if !Known(read.chip) then Failed(read)
      else read.(state := if HasSubtype(read.chip) then Identified else Unidentified)
  }

  /** goodix_chip_result, and goodix_chip_ssm_handler once a delay has passed. */
  function Step(s: Search, e: Event): Search {
    if Over(s) then s
    else if e.gone then s.(state := Unidentified)
    else match s.state
      case InitialDelay => s.(state := Reading)
      case RecoveryDelay => s.(state := if s.failures == 6 then Unidentified else Reading)
      case _ =>
        if e.reply.Broken? || e.reply.Refused? then s.(state := Unidentified)
        else if s.state.Reading? then Read(s, e)
        else s.(state := if s.state.InitialReset? then InitialDelay else RecoveryDelay)
  }

  function Run(was: Word, events: seq<Event>): Search
    decreases |events|
  {
    if events == [] then Search(InitialReset, 0, was)
    else Step(Run(was, events[..|events| - 1]), events[|events| - 1])
  }

  // ------------------------------------------------------------ Main results

  function Left(s: Search): int {
    var cycles := 6 - (s.failures as int);
    match s.state
    case InitialReset => 2 + 3 * cycles
    case InitialDelay => 1 + 3 * cycles
    case Reading => 3 * cycles
    case RecoveryReset => 2 + 3 * cycles
    case RecoveryDelay => 1 + 3 * cycles
    case _ => 0
  }

  predicate InOrder(s: Search) {
    && s.failures <= 6
    && (s.state.InitialReset? || s.state.InitialDelay? ==> s.failures == 0)
    && (s.state.Reading? ==> s.failures < 6)
    && (s.state.Identified? ==> s.failures < 6 && Known(s.chip) && HasSubtype(s.chip))
  }

  lemma StepInOrder(s: Search, e: Event)
    requires InOrder(s)
    ensures InOrder(Step(s, e)) && 0 <= Left(Step(s, e))
    ensures !Over(s) ==> Left(Step(s, e)) < Left(s)
  {
    hide Known, HasSubtype, Decode;
  }

  lemma {:induction false} RunInOrder(was: Word, events: seq<Event>)
    ensures var s := Run(was, events); InOrder(s) && 0 <= Left(s) && (Over(s) || Left(s) + |events| <= 20)
    decreases |events|
  {
    hide Step, InOrder, Left;
    if events == [] {
      Started(was);
    } else {
      var before := events[..|events| - 1];
      RunInOrder(was, before);
      StepInOrder(Run(was, before), events[|events| - 1]);
      assert Over(Run(was, before)) ==> Run(was, events) == Run(was, before) by { OverStays(Run(was, before), events[|events| - 1]); }
    }
  }

  lemma Started(was: Word)
    ensures InOrder(Search(InitialReset, 0, was)) && Left(Search(InitialReset, 0, was)) == 20
  {
  }

  lemma OverStays(s: Search, e: Event)
    ensures Over(s) ==> Step(s, e) == s
  {
  }

  /** The two tests of the open together accept one family of 256 ids. */
  lemma AcceptedFamily(id: Word)
    ensures Known(id) && HasSubtype(id) <==> 0x22_0c00 <= id <= 0x22_0cff
  {
  }

  /** Whatever the device answers, identification ends within twenty events and six
      read cycles, and an id it accepts is of the one supported family. */
  lemma IdentificationEnds(was: Word, events: seq<Event>)
    ensures |events| >= 20 ==> Over(Run(was, events))
    ensures Run(was, events).failures <= 6
    ensures Run(was, events).state.Identified? ==> 0x22_0c00 <= Run(was, events).chip <= 0x22_0cff
  {
    RunInOrder(was, events);
    AcceptedFamily(Run(was, events).chip);
    hide Run, Known, HasSubtype, Step;
  }

  /** After an open that identified its chip, whatever it answered, every run of
      every repair restores the configuration exactly when the device has just been
      read successfully and is that very chip. */
  lemma RestoreNeedsMatch(was: Word, events: seq<Event>, masked: bool, repair: seq<Esd.Event>, e: Esd.Event)
    requires Run(was, events).state.Identified?
    ensures var id := Run(was, events).chip; var r := Esd.Run(Esd.Start(masked), id, repair);
      Esd.Restores(r, id, e) <==> Esd.Matches(r, id, e)
  {
    IdentificationEnds(was, events);
    Esd.RestoresOnlyOnMatch(masked, Run(was, events).chip);
    hide Run, Esd.Run, Esd.Step, Esd.Restores, Esd.Matches;
  }

  // ---------------------------------------------------- As session.c runs it

  /** The chip machine's failure count with the session's chip id. */
  class Identifier {
    var state: State
    var failures: nat
    var chip: Word

    ghost function View(): Search
      reads this
    {
      Search(state, failures, chip)
    }

    constructor (was: Word)
      ensures View() == Run(was, [])
    {
      state, failures, chip := InitialReset, 0, was;
    }

    /** goodix_chip_result. */
    method ChipResult(e: Event)
      requires !Over(View()) && !state.InitialDelay? && !state.RecoveryDelay?
      modifies this
      ensures View() == Step(old(View()), e)
    {
      if e.gone || e.reply.Broken? || e.reply.Refused? {
        state := Unidentified;
        return;
      }
      if state.Reading? {
        if e.reply.Success? {
          if e.payload.None? || |e.payload.value| != 4 {
            state := Unidentified;
            return;
          }
          chip := Decode(e.payload.value);
          if Known(chip) {
            state := if HasSubtype(chip) then Identified else Unidentified;
            return;
          }
        }
        failures := failures + 1;
        state := RecoveryReset;
        return;
      }
      state := if state.InitialReset? then InitialDelay else RecoveryDelay;
    }

    /** goodix_chip_ssm_handler for the state entered after a delay. */
    method DelayOver(e: Event)
      requires state.InitialDelay? || state.RecoveryDelay?
      modifies this`state
      ensures View() == Step(old(View()), e)
    {
      if e.gone {
        state := Unidentified;
      } else if state.RecoveryDelay? && failures == 6 {
        state := Unidentified;
      } else {
        state := Reading;
      }
    }
  }
}
