/**
 * One thermostat output channel: the PID parameters a user sets, their translation into
 * a biquad filter, the per-tick weighted mix of the 16 temperature inputs, and the
 * settings finalization that clamps the filter's output bounds to what the hardware can
 * drive.
 *
 * Floating-point values are real numbers, extended with the two infinities where the
 * source relies on them (`Ext`). The filter library (building a biquad from PID gains,
 * advancing a biquad, its hold filter and its default filter) is a parameter `Idsp`:
 * nothing is assumed of it beyond the shape of its results.
 */
module OutputChannel {
  import Dac
  import opened Wrappers

  /** A float that may be infinite. */
  datatype Ext = NegInf | Fin(r: real) | PosInf

  /** The sign bit of a float (for a non-zero value). */
  predicate Negative(x: Ext) {
    x == NegInf || (x.Fin? && x.r < 0.0)
  }

  predicate Le(a: Ext, b: Ext) {
    a == NegInf || b == PosInf || (a.Fin? && b.Fin? && a.r <= b.r)
  }

  function Neg(x: Ext): (n: Ext)
    ensures x.Fin? <==> n.Fin?
    ensures x.Fin? ==> n.r == -x.r
    ensures x == PosInf <==> n == NegInf
    ensures x == NegInf <==> n == PosInf
  {
    match x
    case NegInf => PosInf
    case Fin(r) => Fin(-r)
    case PosInf => NegInf
  }

  function Abs(x: Ext): (a: Ext)
    ensures !Negative(a)
    ensures x.Fin? <==> a.Fin?
    ensures x.Fin? ==> a.r == (if x.r < 0.0 then -x.r else x.r)
  {
    match x
    case NegInf => PosInf
    case Fin(r) => Fin(if r < 0.0 then -r else r)
    case PosInf => PosInf
  }

  /** `x.copysign(s)`: the magnitude of `x` with the sign of `s`. */
  function CopySign(x: Ext, s: Ext): (c: Ext)
    ensures Abs(c) == Abs(x)
    ensures x != Fin(0.0) ==> (Negative(c) <==> Negative(s))
  {
    if Negative(s) then Neg(Abs(x)) else Abs(x)
  }

  /** `if x.is_finite() { x } else { otherwise }`. */
  function FiniteOr(x: Ext, otherwise: Ext): (y: Ext)
    ensures x.Fin? ==> y == x
    ensures !x.Fin? ==> y == otherwise
  {
    if x.Fin? then x else otherwise
  }

  /** `x.clamp(lo, hi)`, which always yields a finite value in `[lo, hi]`. */
  function Clamp(x: Ext, lo: real, hi: real): (c: real)
    requires lo <= hi
    ensures lo <= c <= hi
    ensures x.Fin? && lo <= x.r <= hi ==> c == x.r
    ensures Le(x, Fin(lo)) ==> c == lo
    ensures Le(Fin(hi), x) ==> c == hi
  {
    match x
    case NegInf => lo
    case PosInf => hi
    case Fin(r) => if r < lo then lo else if r > hi then hi else r
  }

  /** The largest TEC current the PWM current limit allows, in amperes. */
  const MAX_CURRENT_LIMIT: real := 3.0
  /** The largest TEC voltage the PWM voltage limit allows, in volts. */
  const MAX_VOLTAGE_LIMIT: real := 4.3

  /** The safety ceiling on the filter's output: `min(DacCode::MAX_CURRENT, Pwm::MAX_CURRENT_LIMIT)`. */
  const RANGE: real := if Dac.MAX_CURRENT <= MAX_CURRENT_LIMIT then Dac.MAX_CURRENT else MAX_CURRENT_LIMIT

  /** The sample period of the loop: the ADC output data rate, 1007 Hz. */
  const PERIOD: real := 1.0 / 1007.0

  /** The user's PID parameters; the sign of `kp` is the sign of the whole loop. */
  datatype Pid = Pid(ki: Ext, kp: Ext, kd: Ext, li: Ext, ld: Ext, setpoint: Ext, min: Ext, max: Ext)

  const DEFAULT_PID: Pid := Pid(
    ki := Fin(0.0), kp := Fin(0.0), kd := Fin(0.0), li := PosInf, ld := PosInf,
    setpoint := Fin(25.0), min := NegInf, max := PosInf)

  /** What the PID builder of the filter library is handed: period, gains and gain limits. */
  datatype PidConfig = PidConfig(period: real, ki: Ext, kp: Ext, kd: Ext, li: Ext, ld: Ext)

  /** A biquad: its coefficients, its input offset and its output bounds. */
  datatype Biquad = Biquad(ba: seq<real>, inputOffset: Ext, min: Ext, max: Ext)

  /**
   * One biquad step: the filter, its state and the input give the new state and the
   * output; the state keeps its length.
   */
  type Step = f: (Biquad, seq<real>, real) -> (seq<real>, real) | forall b, s, x :: |f(b, s, x).0| == |s|
    witness (b: Biquad, s: seq<real>, x: real) => (s, 0.0)

  /** The filter library: PID build (which may fail), biquad update, the hold filter and the default filter. */
  datatype Idsp = Idsp(build: PidConfig -> Option<seq<real>>, update: Step, hold: Biquad, default: Biquad)

  /** The builder settings derived from a `Pid`: gains and limits take the sign of `kp`. */
  function Config(p: Pid): (c: PidConfig)
    ensures c.period == PERIOD && c.kp == p.kp
  {
    PidConfig(
      period := PERIOD,
      ki := CopySign(p.ki, p.kp),
      kp := p.kp,
      kd := CopySign(p.kd, p.kp),
      li := CopySign(FiniteOr(p.li, PosInf), p.kp),
      ld := CopySign(FiniteOr(p.ld, PosInf), p.kp))
  }

  /**
   * The integral and derivative gains and their limits keep their magnitudes (a
   * non-finite limit becomes an infinite one) and take the sign of `kp`.
   */
  lemma ConfigSigns(p: Pid)
    ensures var c := Config(p);
      Abs(c.ki) == Abs(p.ki) && Abs(c.kd) == Abs(p.kd)
    ensures var c := Config(p);
      (p.li.Fin? ==> Abs(c.li) == Abs(p.li)) && (!p.li.Fin? ==> Abs(c.li) == PosInf)
    ensures var c := Config(p);
      (p.ld.Fin? ==> Abs(c.ld) == Abs(p.ld)) && (!p.ld.Fin? ==> Abs(c.ld) == PosInf)
    ensures var c := Config(p);
      (p.ki != Fin(0.0) ==> (Negative(c.ki) <==> Negative(p.kp))) &&
      (p.kd != Fin(0.0) ==> (Negative(c.kd) <==> Negative(p.kp)))
    ensures var c := Config(p);
      (FiniteOr(p.li, PosInf) != Fin(0.0) ==> (Negative(c.li) <==> Negative(p.kp))) &&
      (FiniteOr(p.ld, PosInf) != Fin(0.0) ==> (Negative(c.ld) <==> Negative(p.kp)))
  {
  }

  /**
   * `Biquad::try_from(pid)`: the library builds the coefficients from `Config(p)`; the
   * filter's input offset is minus the setpoint and its bounds are the finite user bounds,
   * a non-finite one opening that side completely.
   */
  function TryFromPid(lib: Idsp, p: Pid): (r: Option<Biquad>)
    ensures r.Some? <==> lib.build(Config(p)).Some?
    ensures r.Some? ==> r.value.ba == lib.build(Config(p)).value
    ensures r.Some? ==> r.value.inputOffset == Neg(p.setpoint)
    ensures r.Some? ==> r.value.min != PosInf && r.value.max != NegInf
    ensures r.Some? && p.min.Fin? ==> r.value.min == p.min
    ensures r.Some? && p.max.Fin? ==> r.value.max == p.max
    ensures r.Some? && !p.min.Fin? ==> r.value.min == NegInf
    ensures r.Some? && !p.max.Fin? ==> r.value.max == PosInf
  {
    match lib.build(Config(p))
    case None => None
    case Some(ba) =>
      Some(Biquad(ba, Neg(p.setpoint), FiniteOr(p.min, NegInf), FiniteOr(p.max, PosInf)))
  }

  /** The default `Pid` asks for a positive loop with no gain and no limits. */
  lemma DefaultPidConfig(lib: Idsp)
    ensures Config(DEFAULT_PID) == PidConfig(PERIOD, Fin(0.0), Fin(0.0), Fin(0.0), PosInf, PosInf)
    ensures TryFromPid(lib, DEFAULT_PID).Some? ==>
      var b := TryFromPid(lib, DEFAULT_PID).value;
      b.inputOffset == Fin(-25.0) && b.min == NegInf && b.max == PosInf
  {
  }

  /** The safety ceiling is the DAC's full-scale current, which lies below the PWM limit. */
  lemma RangeIsDacFullScale()
    ensures RANGE == Dac.MAX_CURRENT && 0.0 < RANGE < MAX_CURRENT_LIMIT
  {
    Dac.MaxCurrentIsLargestCode();
  }

  /** The filter with both output bounds clamped into `[-RANGE, RANGE]`; everything else kept. */
  function ClampBounds(b: Biquad): (c: Biquad)
    ensures c.ba == b.ba && c.inputOffset == b.inputOffset
    ensures c.min.Fin? && -RANGE <= c.min.r <= RANGE
    ensures c.max.Fin? && -RANGE <= c.max.r <= RANGE
    ensures b.min.Fin? && -RANGE <= b.min.r <= RANGE ==> c.min == b.min
    ensures b.max.Fin? && -RANGE <= b.max.r <= RANGE ==> c.max == b.max
    ensures Le(b.min, Fin(-RANGE)) ==> c.min == Fin(-RANGE)
    ensures Le(Fin(RANGE), b.min) ==> c.min == Fin(RANGE)
    ensures Le(b.max, Fin(-RANGE)) ==> c.max == Fin(-RANGE)
    ensures Le(Fin(RANGE), b.max) ==> c.max == Fin(RANGE)
  {
    RangeIsDacFullScale();
    var b' := b.(max := Fin(Clamp(b.max, -RANGE, RANGE)));
    b'.(min := Fin(Clamp(b'.min, -RANGE, RANGE)))
  }

  /** Filters whose output bounds are within the safety ceiling. */
  predicate SafeBounds(b: Biquad) {
    b.min.Fin? && b.max.Fin? && -RANGE <= b.min.r <= RANGE && -RANGE <= b.max.r <= RANGE
  }

  /** Clamping twice is clamping once. */
  lemma ClampBoundsIdempotent(b: Biquad)
    ensures SafeBounds(ClampBounds(b))
    ensures ClampBounds(ClampBounds(b)) == ClampBounds(b)
  {
  }

  /** Every output a safe filter allows is a current the DAC can be set to. */
  lemma SafeBoundsConvert(b: Biquad)
    requires SafeBounds(b)
    ensures Dac.TryFrom(b.min.r).Ok? && Dac.TryFrom(b.max.r).Ok?
  {
    RangeIsDacFullScale();
    Dac.WithinMaxCurrentConverts(b.min.r);
    Dac.WithinMaxCurrentConverts(b.max.r);
  }

  /** `x + c` for a possibly infinite `x`. */
  function AddReal(x: Ext, c: real): (y: Ext)
    ensures x.Fin? <==> y.Fin?
    ensures x.Fin? ==> y.r == x.r + c
    ensures !x.Fin? ==> y == x
  {
    if x.Fin? then Fin(x.r + c) else x
  }

  /** The PWM headroom above the filter bounds: 5 % of the PWM current limit. */
  const HEADROOM: real := 0.05 * MAX_CURRENT_LIMIT

  /**
   * `current_limits`: the filter's bounds widened by the headroom, the upper one raised to
   * at least zero and the lower one lowered to at most zero.
   */
  function CurrentLimits(iir: Biquad): (lim: (Ext, Ext))
    ensures Le(Fin(0.0), lim.0) && Le(AddReal(iir.max, HEADROOM), lim.0)
    ensures lim.0 == Fin(0.0) || lim.0 == AddReal(iir.max, HEADROOM)
    ensures Le(lim.1, Fin(0.0)) && Le(lim.1, AddReal(iir.min, -HEADROOM))
    ensures lim.1 == Fin(0.0) || lim.1 == AddReal(iir.min, -HEADROOM)
  {
    var upper := AddReal(iir.max, HEADROOM);
    var lower := AddReal(iir.min, -HEADROOM);
    (if Le(upper, Fin(0.0)) then Fin(0.0) else upper,
     if Le(Fin(0.0), lower) then Fin(0.0) else lower)
  }

  /** With safe bounds, the reported limits are finite and within the ceiling plus headroom. */
  lemma SafeCurrentLimits(iir: Biquad)
    requires SafeBounds(iir)
    ensures CurrentLimits(iir).0.Fin? && 0.0 <= CurrentLimits(iir).0.r <= RANGE + HEADROOM
    ensures CurrentLimits(iir).1.Fin? && -(RANGE + HEADROOM) <= CurrentLimits(iir).1.r <= 0.0
  {
  }

  /** The channel's operating state. */
  datatype State = On | Hold | Off

  function AbsReal(x: real): real {
    if x < 0.0 then -x else x
  }

  // Steps of real arithmetic, each stated on plain variables so that the solver
  // never has to rewrite inside a product.

  lemma MulNonneg(a: real, b: real)
    requires a >= 0.0 && b >= 0.0
    ensures a * b >= 0.0
  {
  }

  lemma MulZero(s: real, c: real)
    requires s == 0.0
    ensures s * c == 0.0
  {
  }

  lemma MulPositive(a: real, d: real)
    requires d > 0.0
    ensures a * d > 0.0 <==> a > 0.0
    ensures a * d < 0.0 <==> a < 0.0
  {
  }

  lemma Reciprocal(x: real, d: real, q: real)
    requires d != 0.0 && q == x * (1.0 / d)
    ensures q * d == x
  {
  }

  lemma Distrib(s: real, a: real, b: real, c: real)
    requires s == a + b
    ensures s * c == a * c + b * c
  {
  }

  lemma DotStep(d: real, a: real, x: real, y: real, c: real)
    requires d == a + x * y
    ensures d * c == a * c + x * (y * c)
  {
  }

  lemma AbsScale(x: real, c: real)
    requires c >= 0.0
    ensures AbsReal(x * c) == AbsReal(x) * c
  {
    if x < 0.0 {
      MulNonneg(-x, c);
      assert (-x) * c == -(x * c);
    } else {
      MulNonneg(x, c);
    }
  }

  function Sum(u: seq<real>): real {
    if u == [] then 0.0 else Sum(u[..|u| - 1]) + u[|u| - 1]
  }

  /** Multiplying every term by `c` multiplies the sum by `c`. */
  lemma {:induction false} SumLinear(u: seq<real>, v: seq<real>, c: real)
    requires |u| == |v| && forall i :: 0 <= i < |u| ==> v[i] == u[i] * c
    ensures Sum(v) == Sum(u) * c
  {
    if u != [] {
      var n := |u| - 1;
      SumLinear(u[..n], v[..n], c);
      Distrib(Sum(u), Sum(u[..n]), u[n], c);
    } else {
      MulZero(Sum(u), c);
    }
  }

  lemma {:induction false} SumNonneg(u: seq<real>)
    requires forall i :: 0 <= i < |u| ==> u[i] >= 0.0
    ensures Sum(u) >= 0.0
  {
    if u != [] {
      SumNonneg(u[..|u| - 1]);
    }
  }

  /** Nonnegative terms sum to zero exactly when all of them are zero. */
  lemma {:induction false} SumZero(u: seq<real>)
    requires forall i :: 0 <= i < |u| ==> u[i] >= 0.0
    ensures Sum(u) == 0.0 <==> forall i :: 0 <= i < |u| ==> u[i] == 0.0
  {
    if u != [] {
      var n := |u| - 1;
      SumZero(u[..n]);
      SumNonneg(u[..n]);
      if Sum(u) == 0.0 {
        assert forall i :: 0 <= i < n ==> u[..n][i] == u[i];
      } else {
        assert forall i :: 0 <= i < n ==> u[..n][i] == u[i];
      }
    }
  }

  /** The absolute value of every weight. */
  function Magnitudes(w: seq<real>): (m: seq<real>)
    ensures |m| == |w| && forall i :: 0 <= i < |w| ==> m[i] == AbsReal(w[i])
  {
    seq(|w|, i requires 0 <= i < |w| => AbsReal(w[i]))
  }

  /** The sum of the absolute values of the weights, the divisor of the normalization; never negative. */
  function SumAbs(w: seq<real>): (s: real)
    ensures s >= 0.0
  {
    SumNonneg(Magnitudes(w));
    Sum(Magnitudes(w))
  }

  /** The divisor is zero exactly when every weight is zero. */
  lemma SumAbsZero(w: seq<real>)
    ensures SumAbs(w) == 0.0 <==> forall i :: 0 <= i < |w| ==> w[i] == 0.0
  {
    var m := Magnitudes(w);
    SumZero(m);
    assert (forall i :: 0 <= i < |w| ==> m[i] == 0.0) <==> (forall i :: 0 <= i < |w| ==> w[i] == 0.0);
  }

  /** Every weight multiplied by `c`. */
  function Scale(w: seq<real>, c: real): (v: seq<real>)
    ensures |v| == |w| && forall i :: 0 <= i < |w| ==> v[i] == w[i] * c
  {
    seq(|w|, i requires 0 <= i < |w| => w[i] * c)
  }

  lemma Cancel(x: real, d: real)
    requires d != 0.0 && d == x * d
    ensures x == 1.0
  {
  }

  /** Multiplying a weight divided by d by d gives the weight back. */
  lemma ScaleBack(w: seq<real>, d: real)
    requires d != 0.0
    ensures forall i :: 0 <= i < |w| ==> Scale(w, 1.0 / d)[i] * d == w[i]
  {
    forall i | 0 <= i < |w|
      ensures Scale(w, 1.0 / d)[i] * d == w[i]
    {
      Reciprocal(w[i], d, Scale(w, 1.0 / d)[i]);
    }
  }

  /** Magnitudes scale with a nonnegative factor. */
  lemma MagnitudesBack(v: seq<real>, w: seq<real>, d: real)
    requires d >= 0.0 && |v| == |w| && forall i :: 0 <= i < |w| ==> v[i] * d == w[i]
    ensures forall i :: 0 <= i < |w| ==> Magnitudes(w)[i] == Magnitudes(v)[i] * d
  {
    forall i | 0 <= i < |w|
      ensures Magnitudes(w)[i] == Magnitudes(v)[i] * d
    {
      AbsScale(v[i], d);
    }
  }

  /** Scaling every weight by the same nonnegative factor scales the sum of magnitudes by it. */
  lemma SumAbsBack(v: seq<real>, w: seq<real>, d: real)
    requires |v| == |w| && forall i :: 0 <= i < |w| ==> Magnitudes(w)[i] == Magnitudes(v)[i] * d
    ensures SumAbs(w) == SumAbs(v) * d
  {
    SumLinear(Magnitudes(v), Magnitudes(w), d);
  }

  /** The weights divided by the sum of their absolute values; all-zero weights stay as they are. */
  function Normalized(w: seq<real>): (v: seq<real>)
    ensures |v| == |w|
    ensures SumAbs(w) == 0.0 ==> v == w
  {
    var d := SumAbs(w);
    if d == 0.0 then w else Scale(w, 1.0 / d)
  }

  /** Unless the weights are all zero, the normalized weights' absolute values sum to one. */
  lemma NormalizedSumsToOne(w: seq<real>)
    requires SumAbs(w) != 0.0
    ensures SumAbs(Normalized(w)) == 1.0
  {
    var d := SumAbs(w);
    var v := Scale(w, 1.0 / d);
    ScaleBack(w, d);
    MagnitudesBack(v, w, d);
    SumAbsBack(v, w, d);
    Cancel(SumAbs(v), d);
  }

  /**
   * Unless the weights are all zero, every weight is divided by the same positive number,
   * the sum of their absolute values.
   */
  lemma NormalizedRescales(w: seq<real>)
    requires SumAbs(w) != 0.0
    ensures SumAbs(w) > 0.0
    ensures forall i :: 0 <= i < |w| ==> Normalized(w)[i] * SumAbs(w) == w[i]
  {
    ScaleBack(w, SumAbs(w));
  }

  /** Normalization divides by a positive number, so no weight changes sign. */
  lemma NormalizedKeepsSigns(w: seq<real>, i: int)
    requires 0 <= i < |w|
    ensures Normalized(w)[i] > 0.0 <==> w[i] > 0.0
    ensures Normalized(w)[i] < 0.0 <==> w[i] < 0.0
  {
    var d := SumAbs(w);
    if d != 0.0 {
      NormalizedRescales(w);
      MulPositive(Normalized(w)[i], d);
    }
  }

  /** Finalizing twice normalizes no further. */
  lemma NormalizedIdempotent(w: seq<real>)
    ensures Normalized(Normalized(w)) == Normalized(w)
  {
    var v := Normalized(w);
    if SumAbs(w) != 0.0 {
      NormalizedSumsToOne(w);
      assert Scale(v, 1.0 / 1.0) == v;
    }
  }

  /** The sum of the elementwise products. */
  function Dot(t: seq<real>, w: seq<real>): real
    requires |t| == |w|
  {
    if t == [] then 0.0 else Dot(t[..|t| - 1], w[..|w| - 1]) + t[|t| - 1] * w[|w| - 1]
  }

  /** All-zero weights, the default, mix any temperatures to zero. */
  lemma {:induction false} DotOfZeroWeights(t: seq<real>, w: seq<real>)
    requires |t| == |w| && forall i :: 0 <= i < |w| ==> w[i] == 0.0
    ensures Dot(t, w) == 0.0
  {
    if t != [] {
      var n := |t| - 1;
      DotOfZeroWeights(t[..n], w[..n]);
      MulZero(w[n], t[n]);
    }
  }

  /** Weights all multiplied by `c` give a mix multiplied by `c`. */
  lemma {:induction false} DotLinear(t: seq<real>, w: seq<real>, v: seq<real>, c: real)
    requires |t| == |w| == |v| && forall i :: 0 <= i < |w| ==> w[i] * c == v[i]
    ensures Dot(t, v) == Dot(t, w) * c
  {
    if t != [] {
      var n := |t| - 1;
      DotLinear(t[..n], w[..n], v[..n], c);
      DotStep(Dot(t, w), Dot(t[..n], w[..n]), t[n], w[n], c);
    } else {
      MulZero(Dot(t, w), c);
    }
  }

  /** A 4 by 4 matrix, as a sequence of rows. */
  predicate IsGrid(m: seq<seq<real>>) {
    |m| == 4 && forall i :: 0 <= i < 4 ==> |m[i]| == 4
  }

  /** `as_flattened`: the rows one after the other, so entry (i, j) lands at 4i + j. */
  function Flatten(m: seq<seq<real>>): (f: seq<real>)
    requires IsGrid(m)
    ensures |f| == 16 && forall i, j :: 0 <= i < 4 && 0 <= j < 4 ==> f[4 * i + j] == m[i][j]
  {
    m[0] + m[1] + m[2] + m[3]
  }

  class OutputChannel {
    var state: State
    /** The largest TEC voltage magnitude, in volts. */
    var voltageLimit: Ext
    var pid: Pid
    /** The filter in use, derived from `pid` when the settings are finalized. */
    var iir: Biquad
    /** The 4 by 4 input weights, flattened row after row. */
    const weights: array<real>

    predicate Valid()
      reads this
    {
      weights.Length == 16
    }

    /** Finalized settings: safe filter bounds and a voltage limit within the PWM's range. */
    predicate Finalized()
      reads this
    {
      SafeBounds(iir) && voltageLimit.Fin? && 0.0 <= voltageLimit.r <= MAX_VOLTAGE_LIMIT
    }

    /** The default channel: off, at the largest voltage limit, default PID, zero weights. */
    constructor Default(lib: Idsp)
      ensures Valid() && fresh(weights)
      ensures state == Off && voltageLimit == Fin(MAX_VOLTAGE_LIMIT)
      ensures pid == DEFAULT_PID && iir == lib.default
      ensures weights[..] == seq(16, _ => 0.0)
    {
      state := Off;
      voltageLimit := Fin(MAX_VOLTAGE_LIMIT);
      pid := DEFAULT_PID;
      iir := lib.default;
      weights := new real[16](_ => 0.0);
    }

    /**
     * One control tick: the weighted mix of the temperatures goes through the channel's
     * filter when it is on, and through the library's hold filter otherwise.
     */
    method Update(lib: Idsp, temperatures: seq<seq<real>>, iirState: array<real>) returns (y: real)
      requires Valid() && IsGrid(temperatures) && iirState.Length == 4 && iirState != weights
      modifies iirState
      ensures var x := Dot(Flatten(temperatures), weights[..]);
        state == On ==> (iirState[..], y) == lib.update(iir, old(iirState[..]), x)
      ensures var x := Dot(Flatten(temperatures), weights[..]);
        state != On ==> (iirState[..], y) == lib.update(lib.hold, old(iirState[..]), x)
    {
      var temperature := Dot(Flatten(temperatures), weights[..]);
      var filter := if state == On then iir else lib.hold;
      var next := lib.update(filter, iirState[..], temperature);
      y := next.1;
      forall k | 0 <= k < 4 {
        iirState[k] := next.0[k];
      }
      assert iirState[..] == next.0;
      assert weights[..] == old(weights[..]);
    }

    /**
     * Rebuilds the filter from `pid` (keeping the old one if the build fails), clamps its
     * output bounds to the safety ceiling, clamps the voltage limit to the PWM's range and
     * normalizes the weights.
     */
    method FinalizeSettings(lib: Idsp)
      requires Valid()
      modifies this, weights
      ensures Valid() && Finalized()
      ensures state == old(state) && pid == old(pid)
      ensures TryFromPid(lib, pid).Some? ==> iir == ClampBounds(TryFromPid(lib, pid).value)
      ensures TryFromPid(lib, pid).None? ==> iir == ClampBounds(old(iir))
      ensures voltageLimit == Fin(Clamp(old(voltageLimit), 0.0, MAX_VOLTAGE_LIMIT))
      ensures weights[..] == Normalized(old(weights[..]))
    {
      ghost var w0 := weights[..];
      var built := TryFromPid(lib, pid);
      if built.Some? {
        iir := built.value;
      }
      iir := ClampBounds(iir);
      voltageLimit := Fin(Clamp(voltageLimit, 0.0, MAX_VOLTAGE_LIMIT));
      assert weights[..] == w0;
      NormalizeWeights();
    }

    /** Divides every weight by the sum of their absolute values, unless that sum is zero. */
    method NormalizeWeights()
      requires Valid()
      modifies weights
      ensures weights[..] == Normalized(old(weights[..]))
    {
      ghost var w0 := weights[..];
      var divisor := SumAbs(weights[..]);
      if divisor != 0.0 {
        var n := 1.0 / divisor;
        for k := 0 to 16
          invariant forall i :: 0 <= i < k ==> weights[i] == w0[i] * n
          invariant forall i :: k <= i < 16 ==> weights[i] == w0[i]
        {
          weights[k] := weights[k] * n;
        }
        var v := Scale(w0, n);
        assert forall i :: 0 <= i < 16 ==> weights[..][i] == v[i];
        assert weights[..] == v;
      }
    }
  }
}
