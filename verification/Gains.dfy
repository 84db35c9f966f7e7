/**
 The running-mean gain maps of drivers/goodix53x5/milan/core.c: every accepted
 frame pulls each map pixel toward a candidate, in integer arithmetic.

 The planes an update works from (ratios, adjusted and blurred samples) are
 inputs here; whatever they hold, the maps stay in their bounds.
 */
module Gains {
  import opened Common
  import opened Grid

  const ONE := 0x2000
  const AUXILIARY_BAND := 328
  const CALIBRATION_CENTRE := 8000
  const CALIBRATION_BAND := 6400
  const MAX_AUXILIARY_SAMPLES := 30
  const MAX_SAMPLES := 400
  const NESTED_SAMPLES := 5
  const U16 := 0x1_0000
  const U32 := 0x1_0000_0000

  // --------------------------------------------------------- One pixel at a time

  function Distance(a: int, b: int): nat {
    if a >= b then a - b else b - a
  }

  /** A 32-bit word read as a signed one. */
  function Signed(x: nat): int {
    if x % U32 < 0x8000_0000 then x % U32 else x % U32 - U32
  }

  /** The rounded mean of `samples` old values and one candidate, as 16 bits. */
  function Averaged(value: nat, samples: nat, candidate: nat): nat {
    ((samples + 1) / 2 + value * samples + candidate) / (samples + 1) % U16
  }

  /** The ratio of a sample to its blurred neighbourhood, cut to 16 bits. */
  function AuxiliaryCandidate(adjusted: nat, gaussian: nat): nat {
    if gaussian == 0 then ONE else (adjusted * ONE + gaussian / 2) / gaussian % U16
  }

  function AuxiliaryPixel(value: nat, samples: nat, adjusted: nat, gaussian: nat): nat {
    var candidate := AuxiliaryCandidate(adjusted, gaussian);
    if Distance(candidate, ONE) < AUXILIARY_BAND then Averaged(value, samples, candidate) else value
  }

  function CalibrationCandidate(ratio: nat, scale: nat): (c: nat)
    ensures c < U32
  {
    (ratio * scale + ONE / 2) / ONE % U32
  }

  predicate CalibrationAccepts(candidate: nat) {
    Distance(Signed(candidate), CALIBRATION_CENTRE) < CALIBRATION_BAND
  }

  function CalibrationPixel(value: nat, samples: nat, ratio: nat, scale: nat): nat {
    var candidate := CalibrationCandidate(ratio, scale);
    if CalibrationAccepts(candidate) then Averaged(value, samples, candidate) else value
  }

  lemma QuotientBetween(n: nat, d: nat, least: nat, most: nat)
    requires d > 0 && least * d <= n < (most + 1) * d
    ensures least <= n / d <= most
  {
    MulGap(n / d, least, d);
    MulGap(most, n / d, d);
    assert (most + 1) * d == most * d + d;
  }

  /** The rounded running mean never leaves the span of what it averages, and
      its 16-bit cut never takes anything away. */
  lemma AveragedBetween(value: nat, samples: nat, candidate: nat)
    requires value < U16 && candidate < U16
    ensures Min(value, candidate) <= Averaged(value, samples, candidate) <= Max(value, candidate)
  {
    var least, most := Min(value, candidate), Max(value, candidate);
    ProductsOrdered(least, value, most, samples);
    var n := (samples + 1) / 2 + value * samples + candidate;
    assert least * (samples + 1) == least * samples + least;
    assert (most + 1) * (samples + 1) == most * samples + most + samples + 1;
    QuotientBetween(n, samples + 1, least, most);
  }

  lemma ProductsOrdered(a: nat, b: nat, c: nat, n: nat)
    requires a <= b <= c
    ensures a * n <= b * n <= c * n
  {
    assert (b - a) * n >= 0 && (c - b) * n >= 0;
  }

  // -------------------------------------------------------------- Whole planes

  /** One accepted frame's planes. */
  datatype Frame = Frame(
    ratio: seq<nat>,
    adjusted: seq<nat>,
    gaussian: seq<nat>,
    appAdjusted: seq<nat>,
    appGaussian: seq<nat>)

  datatype State = State(
    calibration: seq<nat>,
    auxiliary: seq<nat>,
    secondary: seq<nat>,
    application: seq<nat>,
    samples: nat,
    auxiliarySamples: nat,
    initialized: Flag,
    stable: nat)

  predicate Fits(f: Frame, n: nat) {
    |f.ratio| == n && |f.adjusted| == n && |f.gaussian| == n && |f.appAdjusted| == n && |f.appGaussian| == n
  }

  predicate Shaped(s: State, n: nat) {
    |s.calibration| == n && |s.auxiliary| == n && |s.secondary| == n && |s.application| == n
  }

  function Fill(n: nat, v: nat): (p: seq<nat>)
    ensures |p| == n && forall i | 0 <= i < n :: p[i] == v
  {
    seq(n, _ => v)
  }

  /** The sum of a plane in a 32-bit word. */
  function Total(p: seq<nat>): nat {
    if p == [] then 0 else (Total(p[..|p| - 1]) + p[|p| - 1]) % U32
  }

  function RoundedMean(sum: nat, n: nat): nat
    requires n > 0
  {
    (sum + n / 2) % U32 / n
  }

  function AuxiliaryMap(map0: seq<nat>, samples: nat, adjusted: seq<nat>, gaussian: seq<nat>): (p: seq<nat>)
    requires |adjusted| == |map0| && |gaussian| == |map0|
    ensures |p| == |map0| && forall i | 0 <= i < |p| :: p[i] == AuxiliaryPixel(map0[i], samples, adjusted[i], gaussian[i])
  {
    seq(|map0|, i requires 0 <= i < |map0| && |adjusted| == |map0| && |gaussian| == |map0| =>
      AuxiliaryPixel(map0[i], samples, adjusted[i], gaussian[i]))
  }

  function Scale(ratio: seq<nat>): nat
    requires |ratio| > 0
  {
    var m := RoundedMean(Total(ratio), |ratio|);
    var mean := if m == 0 then CALIBRATION_CENTRE else m;
    (CALIBRATION_CENTRE * ONE + mean / 2) / mean
  }

  function CalibrationMap(map0: seq<nat>, samples: nat, ratio: seq<nat>, scale: nat): (p: seq<nat>)
    requires |ratio| == |map0|
    ensures |p| == |map0| && forall i | 0 <= i < |p| :: p[i] == CalibrationPixel(map0[i], samples, ratio[i], scale)
  {
    seq(|map0|, i requires 0 <= i < |map0| && |ratio| == |map0| => CalibrationPixel(map0[i], samples, ratio[i], scale))
  }

  /** The calibration map relative to its own mean. */
  function ApplicationMap(calibration: seq<nat>, mean: nat): (p: seq<nat>)
    requires mean > 0
    ensures |p| == |calibration| && forall i | 0 <= i < |p| :: p[i] == (calibration[i] * ONE + mean / 2) / mean % U16
  {
    seq(|calibration|, i requires 0 <= i < |calibration| && mean > 0 => (calibration[i] * ONE + mean / 2) / mean % U16)
  }

  /** goodix_milan_preprocess_reset. */
  function Reset(n: nat): State {
    State(Fill(n, 0), Fill(n, ONE), Fill(n, ONE), Fill(n, ONE), 0, 0, Off, 0)
  }

  /** profile9_initialize_gain_state. */
  function Initialize(s: State, n: nat): State
    requires n > 0 && Shaped(s, n)
  {
    if s.samples == 0 then
      s.(calibration := Fill(n, 0), auxiliary := Fill(n, ONE), secondary := Fill(n, ONE), application := Fill(n, ONE),
         auxiliarySamples := 0, initialized := On)
    else if s.samples <= 3 then s.(application := Fill(n, ONE), initialized := On)
    else if s.initialized.On? then s
    else
      var mean := RoundedMean(Total(s.calibration), n);
      if mean == 0 then s.(samples := 0, initialized := On)
      else s.(application := ApplicationMap(s.calibration, mean), initialized := On)
  }

  /** profile9_calibration_admit: the counter of frames close to the reference
      wraps, and is compared as a signed word. */
  function NextStable(s: State, close: bool): nat {
    if s.auxiliarySamples != 0 && close then (s.stable + 1) % U32 else 0
  }

  /** profile9_update_calibration. */
  function UpdateCalibration(s: State, ratio: seq<nat>, n: nat): State
    requires n > 0 && Shaped(s, n) && |ratio| == n
  {
    var calibration := CalibrationMap(s.calibration, s.samples, ratio, Scale(ratio));
    var samples := Min(s.samples + 1, MAX_SAMPLES);
    var mean := RoundedMean(Total(calibration), n);
    s.(calibration := calibration, samples := samples,
       application := if samples > 3 && mean != 0 then ApplicationMap(calibration, mean) else s.application)
  }

  /** profile9_update_calibration_state, as far as the state goes. */
  function Update(s: State, f: Frame, close: bool, n: nat): State
    requires n > 0 && Shaped(s, n) && Fits(f, n)
  {
    var s1 := s.(stable := NextStable(s, close));
    if Signed(s1.stable) > 3 then s1
    else
      var s2 := s1.(
        auxiliary := AuxiliaryMap(s.auxiliary, s.auxiliarySamples, f.appAdjusted, f.appGaussian),
        secondary := AuxiliaryMap(s.secondary, s.auxiliarySamples, f.adjusted, f.gaussian),
        auxiliarySamples := if s.auxiliarySamples < MAX_AUXILIARY_SAMPLES then s.auxiliarySamples + 1 else s.auxiliarySamples);
      UpdateCalibration(s2, f.ratio, n)
  }

  /** The post-render update runs at a borrowed sample count and gives it back. */
  function Nested(s: State, f: Frame, close: bool, n: nat): State
    requires n > 0 && Shaped(s, n) && Fits(f, n)
  {
    Update(s.(samples := NESTED_SAMPLES), f, close, n).(samples := s.samples)
  }

  datatype Event =
    | Cleared
    | Prepared
    | Updated(frame: Frame, close: bool)
    | PostRendered(frame: Frame, close: bool)

  function Step(s: State, e: Event, n: nat): State
    requires n > 0 && Shaped(s, n)
  {
    match e
    case Cleared => Reset(n)
    case Prepared => Initialize(s, n)
    case Updated(f, close) => if Fits(f, n) then Update(s, f, close, n) else s
    case PostRendered(f, close) => if Fits(f, n) then Nested(s, f, close, n) else s
  }

  // -------------------------------------------------------------------- Bounds

  predicate Near(p: seq<nat>) {
    forall i | 0 <= i < |p| :: Distance(p[i], ONE) < AUXILIARY_BAND
  }

  predicate Calibrated(p: seq<nat>) {
    forall i | 0 <= i < |p| :: p[i] < CALIBRATION_CENTRE + CALIBRATION_BAND
  }

  predicate Bounded(s: State, n: nat) {
    && Shaped(s, n) && Near(s.auxiliary) && Near(s.secondary) && Calibrated(s.calibration)
    && s.auxiliarySamples <= MAX_AUXILIARY_SAMPLES && s.samples <= MAX_SAMPLES
  }

  lemma AuxiliaryStays(map0: seq<nat>, samples: nat, adjusted: seq<nat>, gaussian: seq<nat>)
    requires |adjusted| == |map0| && |gaussian| == |map0| && Near(map0)
    ensures Near(AuxiliaryMap(map0, samples, adjusted, gaussian))
  {
    forall i | 0 <= i < |map0| ensures Distance(AuxiliaryPixel(map0[i], samples, adjusted[i], gaussian[i]), ONE) < AUXILIARY_BAND {
      var candidate := AuxiliaryCandidate(adjusted[i], gaussian[i]);
      if Distance(candidate, ONE) < AUXILIARY_BAND { AveragedBetween(map0[i], samples, candidate); }
    }
  }

  /** An accepted update leaves a calibration pixel between its old value and the
      candidate; a rejected one leaves it alone. */
  lemma CalibrationBetween(value: nat, samples: nat, ratio: nat, scale: nat)
    requires value < CALIBRATION_CENTRE + CALIBRATION_BAND
    ensures var candidate := CalibrationCandidate(ratio, scale); var p := CalibrationPixel(value, samples, ratio, scale);
      && (CalibrationAccepts(candidate) ==>
            && CALIBRATION_CENTRE - CALIBRATION_BAND < candidate < CALIBRATION_CENTRE + CALIBRATION_BAND
            && Min(value, candidate) <= p <= Max(value, candidate))
      && (!CalibrationAccepts(candidate) ==> p == value)
      && p < CALIBRATION_CENTRE + CALIBRATION_BAND
  {
    hide CalibrationCandidate, Averaged;
    var candidate := CalibrationCandidate(ratio, scale);
    if CalibrationAccepts(candidate) {
      AcceptedCandidate(candidate);
      AveragedBetween(value, samples, candidate);
    }
  }

  /** An accepted candidate did not wrap into the band from above. */
  lemma AcceptedCandidate(candidate: nat)
    requires CalibrationAccepts(candidate) && candidate < U32
    ensures CALIBRATION_CENTRE - CALIBRATION_BAND < candidate < CALIBRATION_CENTRE + CALIBRATION_BAND
  {
  }

  lemma CalibrationStays(map0: seq<nat>, samples: nat, ratio: seq<nat>, scale: nat)
    requires |ratio| == |map0| && Calibrated(map0)
    ensures Calibrated(CalibrationMap(map0, samples, ratio, scale))
  {
    forall i | 0 <= i < |map0| ensures CalibrationPixel(map0[i], samples, ratio[i], scale) < CALIBRATION_CENTRE + CALIBRATION_BAND {
      CalibrationBetween(map0[i], samples, ratio[i], scale);
    }
  }

  lemma UpdateStays(s: State, f: Frame, close: bool, n: nat)
    requires n > 0 && Bounded(s, n) && Fits(f, n)
    ensures Bounded(Update(s, f, close, n), n)
  {
    hide Near, Calibrated, Scale, Total, RoundedMean;
    AuxiliaryStays(s.auxiliary, s.auxiliarySamples, f.appAdjusted, f.appGaussian);
    AuxiliaryStays(s.secondary, s.auxiliarySamples, f.adjusted, f.gaussian);
    CalibrationStays(s.calibration, s.samples, f.ratio, Scale(f.ratio));
  }

  lemma StepStays(s: State, e: Event, n: nat)
    requires n > 0 && Bounded(s, n)
    ensures Bounded(Step(s, e, n), n)
  {
    hide Update, Total, RoundedMean;
    match e
    case Cleared =>
    case Prepared =>
    case Updated(f, close) => if Fits(f, n) { UpdateStays(s, f, close, n); }
    case PostRendered(f, close) => if Fits(f, n) { UpdateStays(s.(samples := NESTED_SAMPLES), f, close, n); }
  }

  function Execute(s: State, events: seq<Event>, n: nat): (r: State)
    requires n > 0 && Bounded(s, n)
    ensures Bounded(r, n)
    decreases |events|
  {
    if events == [] then s
    else
      StepStays(s, events[0], n);
      Execute(Step(s, events[0], n), events[1..], n)
  }

  /** From reset, over every sequence of updates, nested ones included: both
      auxiliary maps stay within 327 of one, the counters within 30 and 400. */
  lemma MapsStayBounded(events: seq<Event>, n: nat)
    requires n > 0
    ensures Bounded(Reset(n), n)
    ensures var s := Execute(Reset(n), events, n);
      && (forall i | 0 <= i < n :: ONE - 327 <= s.auxiliary[i] <= ONE + 327 && ONE - 327 <= s.secondary[i] <= ONE + 327)
      && s.auxiliarySamples <= 30 && s.samples <= 400
  {
    hide Execute;
  }

  /** What the running mean divides, before any cut. */
  function Accumulated(value: nat, samples: nat, candidate: nat): nat {
    (samples + 1) / 2 + value * samples + candidate
  }

  /** Neither the 32-bit sum nor the 16-bit cut of a running mean loses anything. */
  predicate Exact(value: nat, samples: nat, candidate: nat) {
    Accumulated(value, samples, candidate) < U32 && Accumulated(value, samples, candidate) / (samples + 1) < U16
  }

  lemma ExactMean(value: nat, samples: nat, candidate: nat)
    requires value < U16 && candidate < U16 && samples <= MAX_SAMPLES
    ensures Exact(value, samples, candidate)
  {
    ProductsOrdered(0, value, U16 - 1, samples);
    assert (U16 - 1 + 1) * (samples + 1) == (U16 - 1) * samples + samples + U16;
    QuotientBetween(Accumulated(value, samples, candidate), samples + 1, 0, U16 - 1);
  }

  /** Over every sequence of updates, the next mean of any pixel of the two
      auxiliary maps and of the calibration map, at its own count or the borrowed
      one, is exact whatever candidate is accepted. */
  lemma CastsAreExact(events: seq<Event>, n: nat, i: nat, auxiliary: nat, calibration: nat)
    requires 0 < n && i < n && Bounded(Reset(n), n)
    requires Distance(auxiliary, ONE) < AUXILIARY_BAND && calibration < U32 && CalibrationAccepts(calibration)
    ensures var s := Execute(Reset(n), events, n);
      && Exact(s.auxiliary[i], s.auxiliarySamples, auxiliary) && Exact(s.secondary[i], s.auxiliarySamples, auxiliary)
      && Exact(s.calibration[i], s.samples, calibration) && Exact(s.calibration[i], NESTED_SAMPLES, calibration)
  {
    hide Execute, Exact;
    var s := Execute(Reset(n), events, n);
    ExactMean(s.auxiliary[i], s.auxiliarySamples, auxiliary);
    ExactMean(s.secondary[i], s.auxiliarySamples, auxiliary);
    ExactMean(s.calibration[i], s.samples, calibration);
    ExactMean(s.calibration[i], NESTED_SAMPLES, calibration);
  }

  // --------------------------------------------------------- As core.c runs it

  /** profile9_update_auxiliary_map, in place. */
  method UpdateAuxiliary(plane: array<nat>, samples: nat, adjusted: seq<nat>, gaussian: seq<nat>)
    requires |adjusted| == plane.Length && |gaussian| == plane.Length
    modifies plane
    ensures plane[..] == AuxiliaryMap(old(plane[..]), samples, adjusted, gaussian)
  {
    for i := 0 to plane.Length
      invariant forall k | 0 <= k < i :: plane[k] == AuxiliaryPixel(old(plane[k]), samples, adjusted[k], gaussian[k])
      invariant forall k | i <= k < plane.Length :: plane[k] == old(plane[k])
    {
      var candidate := ONE;
      if gaussian[i] != 0 {
        candidate := (adjusted[i] * ONE + gaussian[i] / 2) / gaussian[i] % U16;
      }
      var deviation: int := (candidate as int) - ONE;
      if deviation < 0 { deviation := -deviation; }
      if deviation < AUXILIARY_BAND {
        var divisor := samples + 1;
        plane[i] := (divisor / 2 + plane[i] * samples + candidate) / divisor % U16;
      }
    }
  }

  method SumPlane(plane: seq<nat>) returns (sum: nat)
    ensures sum == Total(plane)
  {
    sum := 0;
    for i := 0 to |plane|
      invariant sum == Total(plane[..i])
    {
      assert plane[..i + 1][..i] == plane[..i];
      sum := (sum + plane[i]) % U32;
    }
    assert plane[..|plane|] == plane;
  }

  method Rescale(target: array<nat>, calibration: array<nat>, mean: nat)
    requires target.Length == calibration.Length && target != calibration && mean > 0
    modifies target
    ensures target[..] == ApplicationMap(calibration[..], mean)
  {
    for i := 0 to target.Length
      invariant forall k | 0 <= k < i :: target[k] == (calibration[k] * ONE + mean / 2) / mean % U16
    {
      target[i] := (calibration[i] * ONE + mean / 2) / mean % U16;
    }
  }

  method RatioScale(ratio: seq<nat>) returns (scale: nat)
    requires |ratio| > 0
    ensures scale == Scale(ratio)
  {
    var sum := SumPlane(ratio);
    var mean := RoundedMean(sum, |ratio|);
    if mean == 0 { mean := CALIBRATION_CENTRE; }
    scale := (CALIBRATION_CENTRE * ONE + mean / 2) / mean;
  }

  method Set(plane: array<nat>, value: nat)
    modifies plane
    ensures plane[..] == Fill(plane.Length, value)
  {
    for i := 0 to plane.Length
      invariant forall k | 0 <= k < i :: plane[k] == value
    {
      plane[i] := value;
    }
  }

  /** The gain part of GoodixMilanPreprocessState. */
  class GainState {
    const n: nat
    const calibration: array<nat>
    const auxiliary: array<nat>
    const secondary: array<nat>
    const application: array<nat>
    var samples: nat
    var auxiliarySamples: nat
    var initialized: Flag
    var stable: nat

    ghost predicate Valid()
      reads this
    {
      && n > 0
      && calibration.Length == n && auxiliary.Length == n && secondary.Length == n && application.Length == n
      && calibration != auxiliary && calibration != secondary && calibration != application
      && auxiliary != secondary && auxiliary != application && secondary != application
    }

    ghost function View(): State
      reads this, calibration, auxiliary, secondary, application
    {
      State(calibration[..], auxiliary[..], secondary[..], application[..], samples, auxiliarySamples, initialized, stable)
    }

    constructor (n: nat)
      requires n > 0
      ensures Valid() && this.n == n && View() == Reset(n)
      ensures fresh(calibration) && fresh(auxiliary) && fresh(secondary) && fresh(application)
    {
      this.n := n;
      calibration := new nat[n](_ => 0);
      auxiliary := new nat[n](_ => ONE);
      secondary := new nat[n](_ => ONE);
      application := new nat[n](_ => ONE);
      samples, auxiliarySamples, initialized, stable := 0, 0, Off, 0;
    }

    /** profile9_initialize_gain_state. */
    method InitializeGains()
      requires Valid()
      modifies this, calibration, auxiliary, secondary, application
      ensures Valid() && View() == Initialize(old(View()), n)
    {
      hide Total, ApplicationMap, Fill, RoundedMean;
      if samples == 0 {
        Set(calibration, 0);
        Set(auxiliary, ONE);
        Set(secondary, ONE);
        Set(application, ONE);
        auxiliarySamples := 0;
        initialized := On;
      } else if samples <= 3 {
        Set(application, ONE);
        initialized := On;
      } else if initialized.Off? {
        InitializeApplication();
      }
    }

    /** Its first use of a learnt calibration. */
    method InitializeApplication()
      requires Valid() && samples > 3 && initialized.Off?
      modifies this`samples, this`initialized, application
      ensures View() == Initialize(old(View()), n)
    {
      hide Total, ApplicationMap, Fill;
      var sum := SumPlane(calibration[..]);
      var mean := (sum + n / 2) % U32 / n;
      if mean == 0 {
        samples := 0;
      } else {
        Rescale(application, calibration, mean);
      }
      initialized := On;
    }

    /** profile9_update_calibration. */
    method UpdateCalibrationMap(ratio: seq<nat>)
      requires Valid() && |ratio| == n
      modifies this`samples, calibration, application
      ensures Valid() && View() == UpdateCalibration(old(View()), ratio, n)
    {
      hide Scale, Total, CalibrationMap, ApplicationMap, RoundedMean;
      var scale := RatioScale(ratio);
      MoveCalibration(ratio, scale);
      var sum := SumPlane(calibration[..]);
      samples := if samples + 1 > MAX_SAMPLES then MAX_SAMPLES else samples + 1;
      var mean := RoundedMean(sum, n);
      if samples > 3 && mean != 0 { Rescale(application, calibration, mean); }
    }

    method MoveCalibration(ratio: seq<nat>, scale: nat)
      requires Valid() && |ratio| == n
      modifies calibration
      ensures Valid() && calibration[..] == CalibrationMap(old(calibration[..]), samples, ratio, scale)
    {
      for i := 0 to n
        invariant forall k | 0 <= k < i :: calibration[k] == CalibrationPixel(old(calibration[k]), samples, ratio[k], scale)
        invariant forall k | i <= k < n :: calibration[k] == old(calibration[k])
      {
        var candidate := (ratio[i] * scale + ONE / 2) / ONE % U32;
        var deviation: int := Signed(candidate) - CALIBRATION_CENTRE;
        if deviation < 0 { deviation := -deviation; }
        if deviation < CALIBRATION_BAND {
          var divisor := samples + 1;
          calibration[i] := (divisor / 2 + calibration[i] * samples + candidate) / divisor % U16;
        }
      }
    }

    /** profile9_update_calibration_state. */
    method UpdateGains(f: Frame, close: bool)
      requires Valid() && Fits(f, n)
      modifies this, calibration, auxiliary, secondary, application
      ensures Valid() && View() == Update(old(View()), f, close, n)
    {
      hide UpdateCalibration;
      stable := if auxiliarySamples != 0 && close then (stable + 1) % U32 else 0;
      if Signed(stable) <= 3 {
        UpdateAuxiliary(auxiliary, auxiliarySamples, f.appAdjusted, f.appGaussian);
        UpdateAuxiliary(secondary, auxiliarySamples, f.adjusted, f.gaussian);
        if auxiliarySamples < MAX_AUXILIARY_SAMPLES { auxiliarySamples := auxiliarySamples + 1; }
        UpdateCalibrationMap(f.ratio);
      }
    }

    /** The update inside milan_profile9_post_render. */
    method PostRender(f: Frame, close: bool)
      requires Valid() && Fits(f, n)
      modifies this, calibration, auxiliary, secondary, application
      ensures Valid() && View() == Nested(old(View()), f, close, n)
    {
      hide Update;
      var saved := samples;
      samples := NESTED_SAMPLES;
      UpdateGains(f, close);
      samples := saved;
    }
  }
}
