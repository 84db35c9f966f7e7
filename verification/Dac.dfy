/**
 The dynamic DAC controller of drivers/goodix53x5/device/calibration.c, with the
 hardware reconstructions of device/session.c that seed it anew.

 A reading is what the two frames come to: no usable mean, or a mean with the
 step it asks for. The quotient behind the step is a rational number here; on the
 samples a frame can hold it is never a whole number, so rounding does not move
 the step.
 */
module Dac {
  import opened Common
  import Grid

  const U16 := 0x1_0000
  const U32 := 0x1_0000_0000

  datatype Reading = Unusable | Mean(mean: nat, step: nat)

  datatype Event = Read(reading: Reading) | Reconstructed

  // ------------------------------------------------------------ Step sizes

  /** What goodix_device_parse_otp makes of the temperature byte. */
  predicate Calibrated(tcode: nat) {
    tcode == 0 || 2 <= tcode <= 256
  }

  function Temperature(tcode: nat): (t: nat)
    requires Calibrated(tcode)
    ensures 32 <= t <= 4096 && t % 16 == 0
  {
    (if tcode == 0 then 128 else tcode) * 16 % U16
  }

  function Distance(mean: nat): nat {
    if mean > 2000 then mean - 2000 else 2000 - mean
  }

  function Divided(n: nat, d: nat): (q: nat)
    requires d > 0
    ensures q == n / d
  {
    n / d
  }

  /** A quarter of the distance from 2000 over 0.283 of the temperature. */
  function Quotient(mean: nat, tcode: nat): (q: nat)
    requires Calibrated(tcode)
  {
    Divided(Distance(mean) * 250, Temperature(tcode) * 283)
  }

  /** The cast of the quotient to 16 bits, and at least one. */
  function StepSize(mean: nat, tcode: nat): (step: nat)
    requires Calibrated(tcode)
    ensures 1 <= step < U16
  {
    var q := Quotient(mean, tcode);
    if q >= 0x8000_0000 || q % U16 == 0 then 1 else q % U16
  }

  /** What a mean asks for. */
  function Asked(mean: Option<nat>, tcode: nat): Reading
    requires Calibrated(tcode)
  {
    if mean.None? then Unusable else Mean(mean.value, StepSize(mean.value, tcode))
  }

  /** Samples have twelve bits, and so has their mean. */
  predicate Measured(r: Reading, tcode: nat) {
    r.Mean? ==> r.mean < 4096 && Calibrated(tcode) && r == Asked(Some(r.mean), tcode)
  }

  predicate Plausible(r: Reading) {
    r.Mean? ==> 1 <= r.step < U16 && r.mean < U32
  }

  datatype State = State(dac: nat, high: nat, low: nat, active: nat, adjustments: nat)

  // ------------------------------------------------------------ One step

  /** The nine DAC bits of a register word, in place (mask 0x1ff0). */
  function Field(word: int): nat {
    word / 16 % 512 * 16
  }

  /** The register word of a DAC value. */
  function Register(dac: nat): nat {
    dac * 16 % U16 + 8
  }

  function Wrap32(x: int): int {
    if x % U32 < 0x8000_0000 then x % U32 else x % U32 - U32
  }

  /** goodix_dynamic_dac_step. */
  function StepRegister(reg: nat, base: nat, mean: nat, step: nat, correction: bool): nat {
    var field := Field(reg);
    var candidate :=
      if mean > 2000 then
        var ceiling := 16 * (base + 30);
        if field + 16 * step > ceiling then ceiling % U16 else (reg + 16 * step) % U16
      else
        var floorTest := Wrap32(16 * ((base as int) - (if correction then 5 else 4) + step));
        if field < floorTest then (16 * (base as int) - 64) % U16 else ((reg as int) - 16 * step) % U16;
    reg - field + Field(candidate)
  }

  /** Extreme readings build up a streak and break the opposite one. */
  function Streaks(s: State, up: bool): State {
    var opposite := if up then s.low else s.high;
    var own := if up then s.high else s.low;
    var opposite1 := if opposite < 3 then 0 else opposite;
    var active1 := if opposite < 3 then s.active else 0;
    var own1 := if own < 3 then own + 1 else own;
    var opposite2 := if own1 < 3 then opposite1 else 0;
    var active2 := if own1 >= 3 && active1 == 0 then 1 else active1;
    var adjustments2 := if own1 >= 3 && active1 == 0 then 0 else s.adjustments;
    State(s.dac, if up then own1 else opposite2, if up then opposite2 else own1, active2, adjustments2)
  }

  function Stepped(s: State, base: nat, r: Reading, correction: bool): State
    requires r.Mean?
  {
    s.(dac := StepRegister(Register(s.dac), base, r.mean, r.step, correction) / 16,
       adjustments := (s.adjustments + 1) % U16)
  }

  function Kept(s: State): State {
    s.(dac := Register(s.dac) / 16)
  }

  /** goodix_device_adjust_dac. */
  function Adjust(s: State, base: nat, r: Reading): State {
    if r.Unusable? then Kept(s)
    else if r.mean > 3200 || r.mean < 1500 then
      var s1 := Streaks(s, r.mean > 3200);
      if (if r.mean > 3200 then s1.high else s1.low) < 3 then Kept(s1) else Stepped(s1, base, r, false)
    else if s.active == 1 then
      if 1900 <= r.mean <= 2100 then Kept(s.(active := 0, high := 0, low := 0)) else Stepped(s, base, r, true)
    else
      Kept(s.(high := if s.high < 3 then 0 else s.high, low := if s.low < 3 then 0 else s.low))
  }

  /** A reconstruction seeds the DAC from the sensor's own default again; the
      streaks belong to live capture and stay. */
  function Step(s: State, base: nat, e: Event): State {
    match e
    case Read(reading) => Adjust(s, base, reading)
    case Reconstructed => s.(dac := base)
  }

  function Run(s: State, base: nat, es: seq<Event>): State
    decreases |es|
  {
    if es == [] then s else Run(Step(s, base, es[0]), base, es[1..])
  }

  function Initial(base: nat): State {
    State(base, 0, 0, 0, 0)
  }

  // ------------------------------------------------------------ Main results

  predicate InRange(dac: nat, base: nat) {
    (base as int) - 5 <= dac <= base + 30
  }

  predicate Controlled(s: State, base: nat) {
    && InRange(s.dac, base)
    && s.high <= 3 && s.low <= 3 && !(s.high == 3 && s.low == 3)
    && s.active <= 1 && (s.active == 1 ==> (s.high == 3 && s.low == 0) || (s.high == 0 && s.low == 3))
  }

  /** Sixteen-bit wrap-around and the field mask leave the word modulo 512. */
  lemma FieldOf(t: int)
    ensures Field(16 * t % U16) == t % 512 * 16
    ensures Field((16 * t + 8) % U16) == t % 512 * 16
  {
    var q, m := t / 4096, t % 4096;
    Grid.DivisionIs(16 * t, U16, q, 16 * m);
    Grid.DivisionIs(16 * t + 8, U16, q, 16 * m + 8);
    Grid.DivisionIs(16 * m, 16, m, 0);
    Grid.DivisionIs(16 * m + 8, 16, m, 8);
    Grid.DivisionIs(t, 512, 8 * q + m / 512, m % 512);
  }

  /** Where a step aims before the nine-bit field cuts it. */
  function Aim(dac: nat, base: nat, up: bool, step: nat, correction: bool): int {
    if up then (if dac + step > base + 30 then base + 30 else dac + step)
    else (if dac < base - (if correction then 5 else 4) + step then base - 4 else dac - step)
  }

  lemma Wrapped(x: int)
    requires -0x8000_0000 <= x < 0x8000_0000
    ensures Wrap32(x) == x
  {
  }

  lemma Assembled(dac: nat, m: nat)
    ensures (dac * 16 + 8 - dac * 16 + m * 16) / 16 == m
  {
  }

  lemma RegisterOf(dac: nat)
    requires dac < 512
    ensures Register(dac) == dac * 16 + 8 && Field(Register(dac)) == dac * 16 && Register(dac) / 16 == dac
  {
    FieldOf(dac);
  }

  lemma StepUpAims(dac: nat, base: nat, mean: nat, step: nat, correction: bool)
    requires dac < 512 && base < 512 && 1 <= step < U16 && mean > 2000
    ensures StepRegister(Register(dac), base, mean, step, correction) / 16 == Aim(dac, base, true, step, correction) % 512
  {
    var aim := Aim(dac, base, true, step, correction);
    RegisterOf(dac);
    FieldOf(aim);
    Assembled(dac, aim % 512);
    hide Field, Register;
    assert Register(dac) + 16 * step == 16 * (dac + step) + 8;
  }

  lemma StepDownAims(dac: nat, base: nat, mean: nat, step: nat, correction: bool)
    requires dac < 512 && base < 512 && 1 <= step < U16 && mean <= 2000
    ensures StepRegister(Register(dac), base, mean, step, correction) / 16 == Aim(dac, base, false, step, correction) % 512
  {
    var aim := Aim(dac, base, false, step, correction);
    RegisterOf(dac);
    FieldOf(aim);
    Assembled(dac, aim % 512);
    Wrapped(16 * ((base as int) - (if correction then 5 else 4) + step));
    hide Field, Register, Wrap32;
    assert (Register(dac) as int) - 16 * step == 16 * (dac - step) + 8;
  }

  /** A step sets the DAC to its aim modulo 512. */
  lemma StepAims(dac: nat, base: nat, mean: nat, step: nat, correction: bool)
    requires dac < 512 && base < 512 && 1 <= step < U16
    ensures StepRegister(Register(dac), base, mean, step, correction) / 16 == Aim(dac, base, mean > 2000, step, correction) % 512
  {
    hide *;
    if mean > 2000 {
      StepUpAims(dac, base, mean, step, correction);
    } else {
      StepDownAims(dac, base, mean, step, correction);
    }
  }

  lemma AimInRange(dac: nat, base: nat, up: bool, step: nat, correction: bool)
    requires 5 <= base <= 481 && InRange(dac, base) && 1 <= step < U16
    ensures var aim := Aim(dac, base, up, step, correction); (base as int) - 5 <= aim <= base + 30 && aim % 512 == aim
  {
  }

  lemma StepInRange(dac: nat, base: nat, mean: nat, step: nat, correction: bool)
    requires 5 <= base <= 481 && InRange(dac, base) && 1 <= step < U16
    ensures InRange(StepRegister(Register(dac), base, mean, step, correction) / 16, base)
  {
    StepAims(dac, base, mean, step, correction);
    AimInRange(dac, base, mean > 2000, step, correction);
    hide StepRegister, Register, Aim;
  }

  lemma KeptDac(s: State)
    requires s.dac < 512
    ensures Kept(s) == s
  {
    RegisterOf(s.dac);
  }

  lemma AdjustControlled(s: State, base: nat, r: Reading)
    requires 5 <= base <= 481 && Controlled(s, base) && Plausible(r)
    ensures Controlled(Adjust(s, base, r), base)
  {
    assert Register(s.dac) / 16 == s.dac;
    if r.Mean? {
      StepInRange(s.dac, base, r.mean, r.step, false);
      StepInRange(s.dac, base, r.mean, r.step, true);
    }
    hide StepRegister, Register;
  }

  predicate AllPlausible(es: seq<Event>) {
    forall e | e in es :: e.Read? ==> Plausible(e.reading)
  }

  lemma {:induction false} RunControlled(s: State, base: nat, es: seq<Event>)
    requires 5 <= base <= 481 && Controlled(s, base) && AllPlausible(es)
    ensures Controlled(Run(s, base, es), base)
    decreases |es|
  {
    if es != [] {
      if es[0].Read? { AdjustControlled(s, base, es[0].reading); }
      hide Adjust;
      RunControlled(Step(s, base, es[0]), base, es[1..]);
    }
  }

  predicate AllMeasured(es: seq<Event>, tcode: nat) {
    forall e | e in es :: e.Read? ==> Measured(e.reading, tcode)
  }

  /** On twelve-bit means the quotient is never a whole number but zero. */
  lemma NeverWhole(mean: nat, tcode: nat)
    requires mean < 4096 && Calibrated(tcode) && mean != 2000
    ensures 0 < Distance(mean) <= 2095
    ensures Distance(mean) * 250 % (Temperature(tcode) * 283) != 0
  {
    var d, t := Distance(mean), Temperature(tcode);
    assert 0 < d <= 2095;
    hide Temperature, Distance;
    var k := t / 16;
    if d * 250 % (t * 283) == 0 {
      var n := Exactly(d * 250, t * 283);
      assert t == 16 * k;
      WholeMultiple(d, k, n);
    }
  }

  lemma Exactly(n: nat, d: nat) returns (q: nat)
    requires d > 0 && n % d == 0
    ensures n == q * d
  {
    q := Divided(n, d);
  }

  lemma WholeMultiple(d: nat, k: nat, n: nat)
    requires d * 250 == n * (16 * k * 283)
    ensures d % 2264 == 0
  {
    var m := n * k;
    assert 125 * d == 2264 * m;
    assert d == 2264 * (9 * d - 163 * m);
  }

  /** Every run from the default, hardware reconstructions included, keeps the
      controller in its range exactly for defaults from 5 to 481, whatever the
      temperature calibration: below, the floor wraps around zero; above, the
      ceiling leaves the nine-bit field. It makes no difference whether the steps
      are those the readings ask for or any others. */
  lemma ControlledIff(base: nat, tcode: nat)
    requires base < 512 && Calibrated(tcode)
    ensures 5 <= base <= 481 <==>
      forall es: seq<Event> | AllMeasured(es, tcode) :: Controlled(Run(Initial(base), base, es), base)
    ensures 5 <= base <= 481 <==>
      forall es: seq<Event> | AllPlausible(es) :: Controlled(Run(Initial(base), base, es), base)
  {
    if 5 <= base <= 481 {
      forall es: seq<Event> | AllPlausible(es)
        ensures Controlled(Run(Initial(base), base, es), base)
      {
        RunControlled(Initial(base), base, es);
      }
      forall es: seq<Event> | AllMeasured(es, tcode) ensures AllPlausible(es) {
        MeasuredPlausible(es, tcode);
      }
    } else {
      if base < 5 { FloorEscapes(base, tcode); } else { CeilingEscapes(base, tcode); }
      var es :| AllMeasured(es, tcode) && !InRange(Run(Initial(base), base, es).dac, base);
      MeasuredPlausible(es, tcode);
    }
  }

  lemma MeasuredPlausible(es: seq<Event>, tcode: nat)
    requires AllMeasured(es, tcode)
    ensures AllPlausible(es)
  {
    hide StepSize;
  }

  // ------------------------------------------------------------ Out of range

  /** A streak that steps with the next reading of its own kind. */
  predicate Streaking(s: State, up: bool) {
    var own, opposite := if up then s.high else s.low, if up then s.low else s.high;
    opposite == 0 && ((own == 2 && s.active == 0) || (own == 3 && s.active == 1))
  }

  /** A full streak, whose correction is on. */
  predicate Streaked(s: State, up: bool) {
    s.active == 1 && s.high == (if up then 3 else 0) && s.low == (if up then 0 else 3)
  }

  lemma StreakSteps(s: State, base: nat, mean: nat, step: nat)
    requires base < 512 && s.dac < 512 && 1 <= step < U16 && (mean > 3200 || mean < 1500) && Streaking(s, mean > 3200)
    ensures var r := Step(s, base, Read(Mean(mean, step)));
      Streaked(r, mean > 3200) && Streaking(r, mean > 3200) && r.dac == Aim(s.dac, base, mean > 3200, step, false) % 512
  {
    StepAims(s.dac, base, mean, step, false);
    hide StepRegister, Register, Aim;
  }

  lemma CorrectionSteps(s: State, base: nat, mean: nat, step: nat)
    requires base < 512 && s.dac < 512 && 1 <= step < U16 && s.active == 1
    requires 1500 <= mean < 1900 || 2100 < mean <= 3200
    ensures var r := Step(s, base, Read(Mean(mean, step)));
      r == s.(dac := Aim(s.dac, base, mean > 2000, step, true) % 512, adjustments := (s.adjustments + 1) % U16)
  {
    StepAims(s.dac, base, mean, step, true);
    hide StepRegister, Register, Aim;
  }

  /** The first two readings of a streak leave the DAC alone. */
  lemma StreakStarts(base: nat, e: Event)
    requires base < 512 && e.Read? && e.reading.Mean? && (e.reading.mean > 3200 || e.reading.mean < 1500)
    ensures var s := Step(Step(Initial(base), base, e), base, e); s.dac == base && Streaking(s, e.reading.mean > 3200)
  {
    var up := e.reading.mean > 3200;
    KeptDac(State(base, if up then 1 else 0, if up then 0 else 1, 0, 0));
    KeptDac(State(base, if up then 2 else 0, if up then 0 else 2, 0, 0));
    hide Kept, StepRegister;
  }

  lemma Onward(s: State, base: nat, e: Event, rest: seq<Event>)
    ensures Run(s, base, [e] + rest) == Run(Step(s, base, e), base, rest)
  {
    assert ([e] + rest)[1..] == rest;
  }

  /** What the brightest frame asks for. */
  function Bright(tcode: nat): Event
    requires Calibrated(tcode)
  {
    Read(Mean(4095, StepSize(4095, tcode)))
  }

  /** What a black frame asks for. */
  function Black(tcode: nat): Event
    requires Calibrated(tcode)
  {
    Read(Mean(0, StepSize(0, tcode)))
  }

  lemma {:induction false} Climbs(s: State, base: nat, tcode: nat) returns (es: seq<Event>)
    requires 482 <= base <= s.dac < 512 && Calibrated(tcode) && Streaking(s, true)
    ensures AllMeasured(es, tcode) && !InRange(Run(s, base, es).dac, base)
    decreases 512 - s.dac
  {
    hide Step, StepSize, Run;
    var e := Bright(tcode);
    var r := Step(s, base, e);
    StreakSteps(s, base, 4095, StepSize(4095, tcode));
    var aim := Aim(s.dac, base, true, StepSize(4095, tcode), false);
    var rest := [];
    if aim < 512 { rest := Climbs(r, base, tcode); } else { Nothing(r, base); }
    es := [e] + rest;
    Onward(s, base, e, rest);
  }

  lemma Nothing(s: State, base: nat)
    ensures Run(s, base, []) == s
  {
  }

  lemma CeilingEscapes(base: nat, tcode: nat)
    requires 482 <= base < 512 && Calibrated(tcode)
    ensures exists es :: AllMeasured(es, tcode) && !InRange(Run(Initial(base), base, es).dac, base)
  {
    hide Step, StepSize, Run;
    var e := Bright(tcode);
    StreakStarts(base, e);
    var rest := Climbs(Step(Step(Initial(base), base, e), base, e), base, tcode);
    Onward(Initial(base), base, e, [e] + rest);
    Onward(Step(Initial(base), base, e), base, e, rest);
    assert AllMeasured([e] + ([e] + rest), tcode);
  }

  /** Black frames step down until the DAC wraps or, for a default of 4, rests on
      zero. */
  lemma {:induction false} Sinks(s: State, base: nat, tcode: nat) returns (es: seq<Event>)
    requires base < 5 && s.dac <= base && Calibrated(tcode) && Streaking(s, false)
    ensures AllMeasured(es, tcode)
    ensures var r := Run(s, base, es); if base < 4 then !InRange(r.dac, base) else r.dac == 0 && Streaked(r, false)
    decreases s.dac
  {
    hide Step, StepSize, Run;
    var e := Black(tcode);
    var r := Step(s, base, e);
    StreakSteps(s, base, 0, StepSize(0, tcode));
    var aim := Aim(s.dac, base, false, StepSize(0, tcode), false);
    var rest := [];
    if 0 < aim || (base < 4 && aim == 0) { rest := Sinks(r, base, tcode); } else { Nothing(r, base); }
    es := [e] + rest;
    Onward(s, base, e, rest);
  }

  /** Just below 2000 the step is one, unless the calibration is the smallest. */
  lemma SmallSteps(tcode: nat)
    requires Calibrated(tcode)
    ensures StepSize(1899, tcode) == 1 <==> tcode != 2
    ensures tcode == 2 ==> StepSize(2101, tcode) == 2 && StepSize(1891, tcode) == 3
  {
    var t := Temperature(tcode);
    assert Distance(1899) == 101 && Distance(2101) == 101 && Distance(1891) == 109;
    hide Temperature, Distance;
    if tcode == 2 {
      SmallestCalibration();
    } else {
      OtherCalibrations(tcode);
      QuotientAtMostOne(25250, t * 283);
    }
  }

  lemma SmallestCalibration()
    ensures Temperature(2) == 32 && Divided(25250, 9056) == 2 && Divided(27250, 9056) == 3
  {
  }

  lemma OtherCalibrations(tcode: nat)
    requires Calibrated(tcode) && tcode != 2
    ensures Temperature(tcode) >= 48
  {
  }

  lemma QuotientAtMostOne(n: nat, d: nat)
    requires d > 0 && n < 2 * d
    ensures n / d <= 1
  {
    Grid.MulGap(1, n / d, d);
  }

  /** From zero, a default of 4 goes below it: the correction's floor lies one lower. */
  lemma Slips(s: State, tcode: nat) returns (es: seq<Event>)
    requires s.dac == 0 && Streaked(s, false) && Calibrated(tcode)
    ensures AllMeasured(es, tcode) && Run(s, 4, es).dac == 511
  {
    SmallSteps(tcode);
    hide Step, StepSize, Run;
    if tcode != 2 {
      var e := Read(Mean(1899, 1));
      CorrectionSteps(s, 4, 1899, 1);
      Nothing(Step(s, 4, e), 4);
      Onward(s, 4, e, []);
      es := [e] + [];
    } else {
      var up, down := Read(Mean(2101, 2)), Read(Mean(1891, 3));
      SlipsTwice(s, up, down);
      es := [up] + ([down] + []);
    }
  }

  lemma SlipsTwice(s: State, up: Event, down: Event)
    requires s.dac == 0 && Streaked(s, false) && up == Read(Mean(2101, 2)) && down == Read(Mean(1891, 3))
    ensures Run(s, 4, [up] + ([down] + [])).dac == 511
  {
    hide Step, Run;
    CorrectionSteps(s, 4, 2101, 2);
    var r := Step(s, 4, up);
    CorrectionSteps(r, 4, 1891, 3);
    Nothing(Step(r, 4, down), 4);
    Onward(r, 4, down, []);
    Onward(s, 4, up, [down] + []);
  }

  lemma {:induction false} InTurn(s: State, base: nat, xs: seq<Event>, ys: seq<Event>)
    ensures Run(s, base, xs + ys) == Run(Run(s, base, xs), base, ys)
    decreases |xs|
  {
    hide Step;
    if xs == [] {
      assert xs + ys == ys;
    } else {
      assert (xs + ys)[1..] == xs[1..] + ys;
      InTurn(Step(s, base, xs[0]), base, xs[1..], ys);
    }
  }

  /** Below 4 the cap wraps and stops nothing; at 4 the correction's lower floor
      lets one step past zero. */
  lemma FloorEscapes(base: nat, tcode: nat)
    requires base < 5 && Calibrated(tcode)
    ensures exists es :: AllMeasured(es, tcode) && !InRange(Run(Initial(base), base, es).dac, base)
  {
    hide Step, StepSize, Run;
    var e := Black(tcode);
    StreakStarts(base, e);
    var s := Step(Step(Initial(base), base, e), base, e);
    var rest := Sinks(s, base, tcode);
    if base == 4 {
      var tail := Slips(Run(s, base, rest), tcode);
      InTurn(s, base, rest, tail);
      rest := rest + tail;
    }
    Onward(Initial(base), base, e, [e] + rest);
    Onward(Step(Initial(base), base, e), base, e, rest);
    assert AllMeasured([e] + ([e] + rest), tcode);
  }

  lemma Appended(s: State, base: nat, xs: seq<Event>, e: Event)
    ensures Run(s, base, xs + [e]) == Step(Run(s, base, xs), base, e)
    decreases |xs|
  {
    hide Step;
    if xs == [] {
      assert (xs + [e])[1..] == [];
    } else {
      assert (xs + [e])[1..] == xs[1..] + [e];
      Appended(Step(s, base, xs[0]), base, xs[1..], e);
    }
  }

  /** One reading of the correction, just above the floor and on it. */
  lemma CorrectionStep(base: nat, d: nat, k: nat, mean: nat)
    requires 5 <= base <= 481 && 1500 <= mean < 1900 && base - 5 <= d <= base - 4
    ensures Step(State(d, 0, 3, 1, k), base, Read(Mean(mean, 1)))
         == State(2 * base - 9 - d, 0, 3, 1, (k + 1) % U16)
  {
    StepAims(d, base, mean, 1, true);
    assert Aim(d, base, false, 1, true) == 2 * base - 9 - d;
    assert (2 * base - 9 - d) % 512 == 2 * base - 9 - d;
    hide StepRegister, Register, Aim;
  }

  lemma Alternates(n: nat)
    requires n > 0
    ensures n % 2 == 1 - (n - 1) % 2
    ensures n % U16 == ((n - 1) % U16 + 1) % U16
  {
  }

  /** The correction's floor lies one below its cap: just above the floor the
      controller alternates for as long as the readings stay low. */
  lemma {:induction false} CorrectionAlternates(base: nat, n: nat, mean: nat)
    requires 5 <= base <= 481 && 1500 <= mean < 1900
    ensures Run(State(base - 4, 0, 3, 1, 0), base, seq(n, _ => Read(Mean(mean, 1))))
         == State(base - 4 - n % 2, 0, 3, 1, n % U16)
  {
    var r := Read(Mean(mean, 1));
    var s := State(base - 4, 0, 3, 1, 0);
    if n == 0 {
      assert seq(n, _ => r) == [];
    } else {
      hide *;
      CorrectionAlternates(base, n - 1, mean);
      assert seq(n, _ => r) == seq(n - 1, _ => r) + [r];
      Appended(s, base, seq(n - 1, _ => r), r);
      CorrectionStep(base, base - 4 - (n - 1) % 2, (n - 1) % U16, mean);
      Alternates(n);
    }
  }

  // ---------------------------------------------------- As calibration.c runs it

  /** GoodixDynamicDacState with the calibration word it drives. */
  class Controller {
    const base: nat
    const tcode: nat
    var dac: nat
    var high: nat
    var low: nat
    var active: nat
    var adjustments: nat

    ghost function View(): State
      reads this
    {
      State(dac, high, low, active, adjustments)
    }

    constructor (base: nat, tcode: nat)
      ensures this.base == base && this.tcode == tcode && View() == Initial(base)
    {
      this.base, this.tcode := base, tcode;
      dac, high, low, active, adjustments := base, 0, 0, 0, 0;
    }

    /** The seeding from the sensor's calibration data when the hardware is set up anew. */
    method Reconstruct()
      modifies this`dac
      ensures View() == Step(old(View()), base, Reconstructed)
    {
      dac := base;
    }

    /** goodix_device_adjust_dac. */
    method AdjustDac(mean: Option<nat>)
      requires Calibrated(tcode)
      modifies this
      ensures View() == Step(old(View()), base, Read(Asked(mean, tcode)))
    {
      hide StepRegister, StepSize;
      var r := Asked(mean, tcode);
      var reg := Register(dac);
      var moves, correction := false, false;
      if r.Unusable? {
      } else if r.mean > 3200 || r.mean < 1500 {
        moves := Streak(r.mean > 3200);
      } else if active == 1 {
        if 1900 <= r.mean <= 2100 {
          active, high, low := 0, 0, 0;
        } else {
          moves, correction := true, true;
        }
      } else {
        if high < 3 { high := 0; }
        if low < 3 { low := 0; }
      }
      if moves {
        reg := StepRegister(reg, base, r.mean, r.step, correction);
        adjustments := (adjustments + 1) % U16;
      }
      dac := reg / 16;
    }

    /** The streak bookkeeping of an extreme reading. */
    method Streak(up: bool) returns (moves: bool)
      modifies this`high, this`low, this`active, this`adjustments
      ensures View() == Streaks(old(View()), up)
      ensures moves <==> (if up then high else low) >= 3
    {
      var own := if up then high else low;
      var opposite := if up then low else high;
      var wasActive := active;
      if opposite < 3 {
        opposite := 0;
      } else {
        active := 0;
        wasActive := 0;
      }
      if own < 3 { own := own + 1; }
      moves := own >= 3;
      if moves {
        opposite := 0;
        if wasActive == 0 {
          active := 1;
          adjustments := 0;
        }
      }
      if up { high, low := own, opposite; } else { low, high := own, opposite; }
    }
  }
}
