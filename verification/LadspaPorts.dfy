/**
 The port settings of a LADSPA device: bounds and defaults from the range hints of
 LADSPA 1.1 ("Plugin Port Range Hints"), and the four vectors that hold them.
 Arithmetic is over the reals; exp and log are given by what they satisfy.
 */
module LadspaPorts {
  import opened Wrappers

  datatype Range = Range(hint: bv32, lower: real, upper: real)

  datatype Port = Port(input: bool, output: bool)

  /** What a descriptor says about its ports; the hints may be missing altogether. */
  datatype Contents = Contents(ports: seq<Port>, hints: Option<seq<Range>>)

  /** The functions of the C library in play, and the sample rate of the host. */
  datatype Host = Host(exp: real -> real, log: real -> real, rate: int)

  const MINIMUM: bv32 := 0x40
  const LOW: bv32 := 0x80
  const MIDDLE: bv32 := 0xC0
  const HIGH: bv32 := 0x100
  const MAXIMUM: bv32 := 0x140
  const ZERO: bv32 := 0x200

  predicate Below(r: Range) { r.hint & 0x1 != 0 }

  predicate Above(r: Range) { r.hint & 0x2 != 0 }

  predicate PerRate(r: Range) { r.hint & 0x8 != 0 }

  predicate Logarithmic(r: Range) { r.hint & 0x10 != 0 }

  predicate Integer(r: Range) { r.hint & 0x20 != 0 }

  function DefaultHint(r: Range): bv32 { r.hint & 0x3C0 }

  function Scaled(r: Range, x: real, h: Host): real { if PerRate(r) then x * h.rate as real else x }

  function MinOf(r: Range, h: Host): real { if Below(r) then Scaled(r, r.lower, h) else -1.0 }

  function MaxOf(r: Range, h: Host): real { if Above(r) then Scaled(r, r.upper, h) else 1.0 }

  /** How much of the lower and of the upper bound a default hint asks for. */
  function Shares(hint: bv32): (s: (real, real)) {
    if hint == LOW then (0.75, 0.25)
    else if hint == MIDDLE then (0.5, 0.5)
    else if hint == HIGH then (0.25, 0.75)
    else (0.0, 0.0)
  }

  function Blend(lower: real, upper: real, lp: real, up: real, logarithmic: bool, h: Host): real {
    if !logarithmic then lower * lp + upper * up
    else if lower == 0.0 || upper == 0.0 then 0.0
    else if lower > 0.0 && upper > 0.0 then h.exp(h.log(lower) * lp + h.log(upper) * up)
    else if lower < 0.0 && upper < 0.0 then -h.exp(h.log(-lower) * lp + h.log(-upper) * up)
    else lower * lp + upper * up
  }

  function Between(r: Range, h: Host): real {
    var (lp, up) := Shares(DefaultHint(r));
    Blend(r.lower, r.upper, lp, up, Logarithmic(r), h)
  }

  /** Before scaling and rounding. */
  function Unscaled(r: Range, h: Host): real {
    if DefaultHint(r) == MINIMUM && Below(r) then r.lower
    else if DefaultHint(r) == MAXIMUM && Above(r) then r.upper
    else if Below(r) && Above(r) then Between(r, h)
    else 0.0
  }

  function Unrounded(r: Range, h: Host): real { Scaled(r, Unscaled(r, h), h) }

  function DefaultOf(r: Range, h: Host): real {
    var hint := DefaultHint(r);
    if hint == 0 then 0.0
    else if hint == 0x240 then 1.0
    else if hint == 0x280 then 100.0
    else if hint == 0x2C0 then 440.0
    else if Integer(r) then Unrounded(r, h).Floor as real
    else Unrounded(r, h)
  }

  // ------------------------------------------------- what each hint asks for

  /** The default before rounding, by the bits of the hint, for a port bounded on both sides:
      `k` is the sample rate if the bounds are in multiples of it. */
  ghost predicate AsHinted(r: Range, h: Host, k: real, d: real) {
    var kind, low, high := r.hint & 0x3C0, r.lower, r.upper;
    && (kind == 0x40 ==> d == low * k)
    && (kind == 0x140 ==> d == high * k)
    && (r.hint & 0x10 == 0 || low < 0.0 < high || high < 0.0 < low ==>
          && (kind == 0x80 ==> d == (3.0 * low + high) / 4.0 * k)
          && (kind == 0xC0 ==> d == (low + high) / 2.0 * k)
          && (kind == 0x100 ==> d == (low + 3.0 * high) / 4.0 * k))
    && (r.hint & 0x10 != 0 && low > 0.0 && high > 0.0 ==>
          && (kind == 0x80 ==> d == h.exp((3.0 * h.log(low) + h.log(high)) / 4.0) * k)
          && (kind == 0xC0 ==> d == h.exp((h.log(low) + h.log(high)) / 2.0) * k)
          && (kind == 0x100 ==> d == h.exp((h.log(low) + 3.0 * h.log(high)) / 4.0) * k))
    && (r.hint & 0x10 != 0 && low < 0.0 && high < 0.0 ==>
          && (kind == 0x80 ==> d == -h.exp((3.0 * h.log(-low) + h.log(-high)) / 4.0) * k)
          && (kind == 0xC0 ==> d == -h.exp((h.log(-low) + h.log(-high)) / 2.0) * k)
          && (kind == 0x100 ==> d == -h.exp((h.log(-low) + 3.0 * h.log(-high)) / 4.0) * k))
    && (r.hint & 0x10 != 0 && (low == 0.0 || high == 0.0) && kind in {0x80, 0xC0, 0x100} ==> d == 0.0)
  }

  lemma MeansAre(x: real, y: real)
    ensures x * 0.75 + y * 0.25 == (3.0 * x + y) / 4.0
    ensures x * 0.5 + y * 0.5 == (x + y) / 2.0
    ensures x * 0.25 + y * 0.75 == (x + 3.0 * y) / 4.0
  {
  }

  lemma UnscaledAsHinted(r: Range, h: Host)
    requires r.hint & 0x1 != 0 && r.hint & 0x2 != 0
    ensures AsHinted(r, h, 1.0, Unscaled(r, h))
  {
    MeansAre(r.lower, r.upper);
    if r.lower > 0.0 && r.upper > 0.0 { MeansAre(h.log(r.lower), h.log(r.upper)); }
    if r.lower < 0.0 && r.upper < 0.0 { MeansAre(h.log(-r.lower), h.log(-r.upper)); }
  }

  lemma AsHintedScaled(r: Range, h: Host, k: real, d: real)
    requires AsHinted(r, h, 1.0, d)
    ensures AsHinted(r, h, k, d * k)
  {
  }

  /** No hint is zero, and three hints are constants, whatever the bounds. */
  lemma ConstantDefaults(r: Range, h: Host)
    ensures r.hint & 0x3C0 == 0 ==> DefaultOf(r, h) == 0.0
    ensures r.hint & 0x3C0 == 0x240 ==> DefaultOf(r, h) == 1.0
    ensures r.hint & 0x3C0 == 0x280 ==> DefaultOf(r, h) == 100.0
    ensures r.hint & 0x3C0 == 0x2C0 ==> DefaultOf(r, h) == 440.0
  {
  }

  lemma ScaleIs(r: Range, h: Host, k: real, x: real)
    requires k == if r.hint & 0x8 != 0 then h.rate as real else 1.0
    ensures Scaled(r, x, h) == x * k
  {
  }

  lemma BoundsAre(r: Range, h: Host, k: real)
    requires k == if r.hint & 0x8 != 0 then h.rate as real else 1.0
    ensures r.hint & 0x1 != 0 ==> MinOf(r, h) == r.lower * k
    ensures r.hint & 0x2 != 0 ==> MaxOf(r, h) == r.upper * k
    ensures r.hint & 0x1 == 0 ==> MinOf(r, h) == -1.0
    ensures r.hint & 0x2 == 0 ==> MaxOf(r, h) == 1.0
  {
    ScaleIs(r, h, k, r.lower);
    ScaleIs(r, h, k, r.upper);
  }

  lemma RoundedDown(r: Range, h: Host)
    requires r.hint & 0x3C0 in {0x40, 0x80, 0xC0, 0x100, 0x140}
    ensures DefaultOf(r, h) == if r.hint & 0x20 != 0 then Unrounded(r, h).Floor as real else Unrounded(r, h)
  {
  }

  lemma ScaledAsHinted(r: Range, h: Host, k: real, u: real, d: real)
    requires AsHinted(r, h, 1.0, u) && d == Scaled(r, u, h)
    requires k == if r.hint & 0x8 != 0 then h.rate as real else 1.0
    ensures AsHinted(r, h, k, d)
  {
    AsHintedScaled(r, h, k, u);
    ScaleIs(r, h, k, u);
  }

  lemma HintedFrom(r: Range, h: Host, k: real, d: real)
    requires r.hint & 0x1 != 0 && r.hint & 0x2 != 0 && r.hint & 0x3C0 in {0x40, 0x80, 0xC0, 0x100, 0x140}
    requires k == if r.hint & 0x8 != 0 then h.rate as real else 1.0
    requires d == Unrounded(r, h)
    ensures AsHinted(r, h, k, d) && DefaultOf(r, h) == if r.hint & 0x20 != 0 then d.Floor as real else d
  {
    UnscaledAsHinted(r, h);
    ScaledAsHinted(r, h, k, Unscaled(r, h), d);
    RoundedDown(r, h);
  }

  /** For a port bounded on both sides: what the hint asks of the bounds, in multiples of the
      sample rate if they are, rounded down if the port is an integer one. */
  lemma DefaultByHint(r: Range, h: Host, k: real) returns (d: real)
    requires r.hint & 0x1 != 0 && r.hint & 0x2 != 0 && r.hint & 0x3C0 in {0x40, 0x80, 0xC0, 0x100, 0x140}
    requires k == if r.hint & 0x8 != 0 then h.rate as real else 1.0
    ensures AsHinted(r, h, k, d) && DefaultOf(r, h) == if r.hint & 0x20 != 0 then d.Floor as real else d
  {
    d := Unrounded(r, h);
    HintedFrom(r, h, k, d);
  }

  // ------------------------------------------------------------ where they lie

  /** What is used of exp and log: each grows, and one undoes the other. */
  ghost predicate ExpLog(h: Host) {
    && (forall x: real, y: real :: x <= y ==> h.exp(x) <= h.exp(y))
    && (forall x: real, y: real :: 0.0 < x <= y ==> h.log(x) <= h.log(y))
    && (forall x: real :: 0.0 < x ==> h.exp(h.log(x)) == x)
    && h.exp(0.0) == 1.0
  }

  predicate Placed(r: Range) { DefaultHint(r) in {MINIMUM, LOW, MIDDLE, HIGH, MAXIMUM} }

  /** A weighted mean in the logarithm is one between the bounds. */
  lemma LogMean(h: Host, a: real, b: real, lp: real, up: real)
    requires ExpLog(h) && 0.0 < a <= b && 0.0 <= lp && 0.0 <= up && lp + up == 1.0
    ensures a <= h.exp(h.log(a) * lp + h.log(b) * up) <= b
  {
    var x, y := h.log(a), h.log(b);
    assert x <= y;
    Mean(x, y, lp, up);
    assert h.exp(x) <= h.exp(x * lp + y * up) <= h.exp(y);
  }

  lemma Mean(x: real, y: real, lp: real, up: real)
    requires x <= y && 0.0 <= lp && 0.0 <= up && lp + up == 1.0
    ensures x <= x * lp + y * up <= y
  {
    assert (y - x) * up >= 0.0 && (y - x) * lp >= 0.0;
    assert x * lp == x * (1.0 - up) == x - x * up;
    assert y * up == y * (1.0 - lp) == y - y * lp;
  }

  /** The same downwards: the mean of two negatives, taken of their sizes. */
  lemma LogMeanBelow(h: Host, a: real, b: real, lp: real, up: real)
    requires ExpLog(h) && a <= b < 0.0 && 0.0 <= lp && 0.0 <= up && lp + up == 1.0
    ensures a <= -h.exp(h.log(-a) * lp + h.log(-b) * up) <= b
  {
    LogMean(h, -b, -a, up, lp);
    assert h.log(-b) * up + h.log(-a) * lp == h.log(-a) * lp + h.log(-b) * up;
  }

  lemma BlendLinear(lower: real, upper: real, lp: real, up: real, logarithmic: bool, h: Host)
    requires lower <= upper && 0.0 <= lp && 0.0 <= up && lp + up == 1.0
    requires !logarithmic || lower <= 0.0 <= upper
    ensures lower <= Blend(lower, upper, lp, up, logarithmic, h) <= upper
  {
    Mean(lower, upper, lp, up);
  }

  lemma BlendBounds(lower: real, upper: real, lp: real, up: real, logarithmic: bool, h: Host)
    requires ExpLog(h) && lower <= upper && 0.0 <= lp && 0.0 <= up && lp + up == 1.0
    ensures lower <= Blend(lower, upper, lp, up, logarithmic, h) <= upper
  {
    if !logarithmic || lower <= 0.0 <= upper {
      BlendLinear(lower, upper, lp, up, logarithmic, h);
    } else if lower > 0.0 {
      LogMean(h, lower, upper, lp, up);
    } else {
      LogMeanBelow(h, lower, upper, lp, up);
    }
  }

  lemma ScaledOrder(r: Range, x: real, y: real, h: Host)
    requires x <= y && h.rate > 0
    ensures Scaled(r, x, h) <= Scaled(r, y, h)
  {
  }

  /** A port with both bounds and a minimum, low, middle, high or maximum hint: before any
      rounding its default is between its bounds. Linear and logarithmic, both bounds
      positive, both negative, of mixed sign or zero, and in multiples of the rate. */
  lemma DefaultBetweenBounds(r: Range, h: Host)
    requires ExpLog(h) && h.rate > 0 && Below(r) && Above(r) && r.lower <= r.upper && Placed(r)
    ensures MinOf(r, h) <= Unrounded(r, h) <= MaxOf(r, h)
    ensures !Integer(r) ==> MinOf(r, h) <= DefaultOf(r, h) <= MaxOf(r, h)
  {
    if DefaultHint(r) in {LOW, MIDDLE, HIGH} {
      var (lp, up) := Shares(DefaultHint(r));
      BlendBounds(r.lower, r.upper, lp, up, Logarithmic(r), h);
    }
    ScaledOrder(r, r.lower, Unscaled(r, h), h);
    ScaledOrder(r, Unscaled(r, h), r.upper, h);
  }

  predicate WholeIn(n: int, lo: real, hi: real) { lo <= n as real <= hi }

  /** An integer port rounds down, which keeps to the upper bound but can leave the lower. */
  lemma IntegerFloor(r: Range, h: Host)
    requires ExpLog(h) && h.rate > 0 && Below(r) && Above(r) && r.lower <= r.upper && Placed(r) && Integer(r)
    ensures DefaultOf(r, h) <= MaxOf(r, h)
    ensures MinOf(r, h) <= DefaultOf(r, h) <==> exists n: int :: WholeIn(n, MinOf(r, h), Unrounded(r, h))
  {
    DefaultBetweenBounds(r, h);
    var d := Unrounded(r, h).Floor;
    if n: int :| WholeIn(n, MinOf(r, h), Unrounded(r, h)) { assert n <= d; }
    if MinOf(r, h) <= d as real { assert WholeIn(d, MinOf(r, h), Unrounded(r, h)); }
  }

  predicate Mixed(r: Range) { !Logarithmic(r) || r.lower < 0.0 < r.upper }

  predicate OnZero(r: Range) { Logarithmic(r) && (r.lower == 0.0 || r.upper == 0.0) }

  /** The exact mean a low, middle or high hint asks for, from the bounds in force: arithmetic
      on a linear port or one of mixed sign, geometric on a logarithmic port of one sign. */
  function MeanOf(r: Range, h: Host): real {
    var (lp, up) := Shares(DefaultHint(r));
    if Mixed(r) then MinOf(r, h) * lp + MaxOf(r, h) * up
    else if r.lower > 0.0 then Scaled(r, h.exp(h.log(r.lower) * lp + h.log(r.upper) * up), h)
    else Scaled(r, -h.exp(h.log(-r.lower) * lp + h.log(-r.upper) * up), h)
  }

  lemma MeanIs(r: Range, h: Host)
    requires Below(r) && Above(r) && r.lower <= r.upper && DefaultHint(r) in {LOW, MIDDLE, HIGH} && !OnZero(r)
    ensures Unrounded(r, h) == MeanOf(r, h)
  {
    var (lp, up) := Shares(DefaultHint(r));
    if Mixed(r) && PerRate(r) { Spread(r.lower, r.upper, lp, up, h.rate as real); }
  }

  lemma Spread(a: real, b: real, lp: real, up: real, k: real)
    ensures (a * lp + b * up) * k == (a * k) * lp + (b * k) * up
  {
  }

  /** When the default of an integer port keeps to the lower bound, hint by hint: a minimum
      exactly if the bound is whole, a maximum if a whole number lies between the bounds, a low,
      middle or high one if a whole number lies between the lower bound and the mean it asks
      for, and on a logarithmic port with a bound at zero always. */
  lemma IntegerDefaultExact(r: Range, h: Host)
    requires ExpLog(h) && h.rate > 0 && Below(r) && Above(r) && r.lower <= r.upper && Placed(r) && Integer(r)
    ensures DefaultOf(r, h) <= MaxOf(r, h)
    ensures DefaultHint(r) == MINIMUM ==>
              (MinOf(r, h) <= DefaultOf(r, h) <==> MinOf(r, h).Floor as real == MinOf(r, h))
    ensures DefaultHint(r) == MAXIMUM ==>
              (MinOf(r, h) <= DefaultOf(r, h) <==> exists n: int :: WholeIn(n, MinOf(r, h), MaxOf(r, h)))
    ensures DefaultHint(r) in {LOW, MIDDLE, HIGH} && !OnZero(r) ==>
              (MinOf(r, h) <= DefaultOf(r, h) <==> exists n: int :: WholeIn(n, MinOf(r, h), MeanOf(r, h)))
    ensures DefaultHint(r) in {LOW, MIDDLE, HIGH} && OnZero(r) ==> MinOf(r, h) <= DefaultOf(r, h) == 0.0
  {
    IntegerFloor(r, h);
    if DefaultHint(r) in {LOW, MIDDLE, HIGH} {
      if OnZero(r) {
        ScaledOrder(r, r.lower, 0.0, h);
      } else {
        MeanIs(r, h);
      }
    }
  }

  /** So a minimum hint on an integer port is met exactly when the bound is whole, and the
      standard's own advice to set bounds a little wide, as in [-0.1, 3.1], breaks it. */
  lemma IntegerMinimumExact(r: Range, h: Host)
    requires Below(r) && DefaultHint(r) == MINIMUM && Integer(r)
    ensures MinOf(r, h) <= DefaultOf(r, h) <==> MinOf(r, h).Floor as real == MinOf(r, h)
    ensures var wide := Range(0x1 | 0x2 | 0x20 | 0x40, -0.1, 3.1); DefaultOf(wide, h) == -1.0 && MinOf(wide, h) == -0.1
  {
    var wide := Range(0x1 | 0x2 | 0x20 | 0x40, -0.1, 3.1);
    WideHint();
    assert Unrounded(wide, h) == -0.1;
  }

  lemma WideHint()
    ensures var h: bv32 := 0x1 | 0x2 | 0x20 | 0x40;
            h & 0x1 != 0 && h & 0x2 != 0 && h & 0x8 == 0 && h & 0x20 != 0 && h & 0x3C0 == 0x40
  {
  }

  /** The zero hint gives zero exactly when the port is not logarithmic between two bounds
      of one sign; there it gives one or minus one, times the rate if that is asked for. */
  lemma ZeroHintExact(r: Range, h: Host)
    requires ExpLog(h) && h.rate > 0 && DefaultHint(r) == ZERO && !Integer(r)
    ensures DefaultOf(r, h) == 0.0 <==>
            !(Below(r) && Above(r) && Logarithmic(r)
              && ((r.lower > 0.0 && r.upper > 0.0) || (r.lower < 0.0 && r.upper < 0.0)))
  {
    if Below(r) && Above(r) && Logarithmic(r) && r.lower > 0.0 && r.upper > 0.0 {
      assert h.log(r.lower) * 0.0 + h.log(r.upper) * 0.0 == 0.0;
      assert Between(r, h) == 1.0;
    } else if Below(r) && Above(r) && Logarithmic(r) && r.lower < 0.0 && r.upper < 0.0 {
      assert h.log(-r.lower) * 0.0 + h.log(-r.upper) * 0.0 == 0.0;
      assert Between(r, h) == -1.0;
    }
  }

  // ------------------------------------------------------- the four vectors

  datatype Settings = Settings(numInputs: nat, numOutputs: nat, portId: seq<nat>,
                               mins: seq<real>, maxs: seq<real>, clamps: seq<bool>, defaults: seq<real>)

  const NONE := Settings(0, 0, [], [], [], [], [])

  /** The ports below n that are inputs, or outputs, in order. */
  function Inputs(ports: seq<Port>, n: nat): (ids: seq<nat>)
    requires n <= |ports|
    ensures forall i :: 0 <= i < |ids| ==> ids[i] < n && ports[ids[i]].input
  {
    if n == 0 then [] else Inputs(ports, n - 1) + (if ports[n - 1].input then [n - 1] else [])
  }

  function Outputs(ports: seq<Port>, n: nat): (ids: seq<nat>)
    requires n <= |ports|
    ensures forall i :: 0 <= i < |ids| ==> ids[i] < n && ports[ids[i]].output
  {
    if n == 0 then [] else Outputs(ports, n - 1) + (if ports[n - 1].output then [n - 1] else [])
  }

  /** A port that is both counts as an input. */
  function OutputsOnly(ports: seq<Port>, n: nat): nat
    requires n <= |ports|
  {
    if n == 0 then 0 else OutputsOnly(ports, n - 1) + (if ports[n - 1].output && !ports[n - 1].input then 1 else 0)
  }

  function PortIds(c: Contents): seq<nat> { Inputs(c.ports, |c.ports|) + Outputs(c.ports, |c.ports|) }

  ghost predicate Ascending(ids: seq<nat>) { forall i, j :: 0 <= i < j < |ids| ==> ids[i] < ids[j] }

  lemma {:induction false} InputsExact(ports: seq<Port>, n: nat)
    requires n <= |ports|
    ensures Ascending(Inputs(ports, n))
    ensures forall p: nat :: p in Inputs(ports, n) <==> p < n && ports[p].input
  {
    if n > 0 { InputsExact(ports, n - 1); }
  }

  lemma {:induction false} OutputsExact(ports: seq<Port>, n: nat)
    requires n <= |ports|
    ensures Ascending(Outputs(ports, n))
    ensures forall p: nat :: p in Outputs(ports, n) <==> p < n && ports[p].output
  {
    if n > 0 { OutputsExact(ports, n - 1); }
  }

  /** The ports of a plugin are all its inputs and then all its outputs, each list ascending. */
  lemma PortIdsExact(c: Contents) returns (ins: nat)
    ensures ins <= |PortIds(c)| && Ascending(PortIds(c)[..ins]) && Ascending(PortIds(c)[ins..])
    ensures forall p: nat :: p in PortIds(c)[..ins] <==> p < |c.ports| && c.ports[p].input
    ensures forall p: nat :: p in PortIds(c)[ins..] <==> p < |c.ports| && c.ports[p].output
  {
    var a, b := Inputs(c.ports, |c.ports|), Outputs(c.ports, |c.ports|);
    InputsExact(c.ports, |c.ports|);
    OutputsExact(c.ports, |c.ports|);
    ins := |a|;
    assert PortIds(c)[..ins] == a && PortIds(c)[ins..] == b;
  }

  /** There is a range for every port, when there are any. */
  predicate Readable(c: Contents) { c.hints.Some? ==> |c.hints.value| == |c.ports| }

  predicate KnownPort(c: Contents, p: nat) { c.hints.Some? ==> p < |c.hints.value| }

  function MinFor(c: Contents, p: nat, h: Host): real
    requires KnownPort(c, p)
  {
    if c.hints.None? then -1.0 else MinOf(c.hints.value[p], h)
  }

  function MaxFor(c: Contents, p: nat, h: Host): real
    requires KnownPort(c, p)
  {
    if c.hints.None? then 1.0 else MaxOf(c.hints.value[p], h)
  }

  function DefaultFor(c: Contents, p: nat, h: Host): real
    requires KnownPort(c, p)
  {
    if c.hints.None? then 0.0 else DefaultOf(c.hints.value[p], h)
  }

  function SettingFor(c: Contents, p: nat, h: Host): (real, real, real)
    requires KnownPort(c, p)
  {
    (MinFor(c, p, h), MaxFor(c, p, h), DefaultFor(c, p, h))
  }

  /** ClearPlugin; a reset keeps the counts and the defaults. */
  function Cleared(s: Settings, resetting: bool): Settings {
    if resetting then Settings(s.numInputs, s.numOutputs, [], [], [], [], s.defaults) else NONE
  }

  /** SelectPlugin, once the descriptor is there; a reset does not count again. */
  function Selected(s: Settings, c: Contents, resetting: bool): Settings {
    var t := s.(portId := s.portId + PortIds(c));
    if resetting then t
    else t.(numInputs := s.numInputs + |Inputs(c.ports, |c.ports|)|,
           numOutputs := s.numOutputs + OutputsOnly(c.ports, |c.ports|))
  }

  predicate PortsKnown(s: Settings, c: Contents) { forall i :: 0 <= i < |s.portId| ==> KnownPort(c, s.portId[i]) }

  /** One port of ResetPortSettings. */
  function Pushed(s: Settings, c: Contents, h: Host, n: nat, resetting: bool): Settings
    requires n < |s.portId| && PortsKnown(s, c)
  {
    var p := s.portId[n];
    s.(mins := s.mins + [MinFor(c, p, h)], maxs := s.maxs + [MaxFor(c, p, h)], clamps := s.clamps + [true],
       defaults := if !resetting || n >= |s.defaults| then s.defaults + [DefaultFor(c, p, h)] else s.defaults)
  }

  function PushFrom(s: Settings, c: Contents, h: Host, n: nat, resetting: bool): Settings
    requires PortsKnown(s, c)
    decreases |s.portId| - n
  {
    if n >= s.numInputs || n >= |s.portId| then s else PushFrom(Pushed(s, c, h, n, resetting), c, h, n + 1, resetting)
  }

  function Trimmed(s: Settings, resetting: bool): Settings {
    if resetting && |s.defaults| > s.numInputs then s.(defaults := s.defaults[..s.numInputs]) else s
  }

  function WithSettings(s: Settings, c: Contents, h: Host, resetting: bool): Settings
    requires PortsKnown(s, c)
  {
    PushFrom(Trimmed(s, resetting), c, h, 0, resetting)
  }

  lemma SelectedKnown(s: Settings, c: Contents, resetting: bool)
    requires Readable(c) && s.portId == []
    ensures PortsKnown(Selected(s, c, resetting), c)
  {
  }

  /** UpdatePlugin when the descriptor is had, or is not. */
  function Updated(s: Settings, c: Contents, h: Host, resetting: bool): Settings
    requires Readable(c)
  {
    SelectedKnown(Cleared(s, resetting), c, resetting);
    WithSettings(Selected(Cleared(s, resetting), c, resetting), c, h, resetting)
  }

  /** How many ports the loop gets to. */
  function Reach(s: Settings): nat { if s.numInputs < |s.portId| then s.numInputs else |s.portId| }

  /** The loop leaves what was pushed before it, and ends with one entry for each port. */
  lemma {:induction false} PushFromShape(s: Settings, c: Contents, h: Host, n: nat, resetting: bool)
    requires PortsKnown(s, c) && |s.mins| == |s.maxs| == |s.clamps| == n && n <= Reach(s)
    ensures var r := PushFrom(s, c, h, n, resetting);
            && |r.mins| == |r.maxs| == |r.clamps| == Reach(s)
            && r.mins[..n] == s.mins && r.maxs[..n] == s.maxs
            && r.numInputs == s.numInputs && r.numOutputs == s.numOutputs && r.portId == s.portId
    decreases Reach(s) - n
  {
    if n < Reach(s) {
      var t := Pushed(s, c, h, n, resetting);
      PushFromShape(t, c, h, n + 1, resetting);
      var r := PushFrom(t, c, h, n + 1, resetting);
      assert r.mins[..n] == r.mins[..n + 1][..n] && r.maxs[..n] == r.maxs[..n + 1][..n];
    }
  }

  lemma {:induction false} PushFromAt(s: Settings, c: Contents, h: Host, n: nat, resetting: bool, k: nat)
    requires PortsKnown(s, c) && |s.mins| == |s.maxs| == |s.clamps| == n && n <= k < Reach(s)
    ensures var r := PushFrom(s, c, h, n, resetting);
            && |r.mins| == |r.maxs| == Reach(s)
            && r.mins[k] == MinFor(c, s.portId[k], h) && r.maxs[k] == MaxFor(c, s.portId[k], h)
    decreases k - n
  {
    var t := Pushed(s, c, h, n, resetting);
    PushFromShape(t, c, h, n + 1, resetting);
    if n < k {
      PushFromAt(t, c, h, n + 1, resetting, k);
    } else {
      var r := PushFrom(t, c, h, n + 1, resetting);
      assert r.mins[n] == r.mins[..n + 1][n] && r.maxs[n] == r.maxs[..n + 1][n];
    }
  }

  lemma PushFromBounds(s: Settings, c: Contents, h: Host, n: nat, resetting: bool)
    requires PortsKnown(s, c) && |s.mins| == |s.maxs| == |s.clamps| == n && n <= Reach(s)
    ensures var r := PushFrom(s, c, h, n, resetting);
            && |r.mins| == |r.maxs| == |r.clamps| == Reach(s)
            && (forall k :: n <= k < Reach(s) ==>
                 r.mins[k] == MinFor(c, s.portId[k], h) && r.maxs[k] == MaxFor(c, s.portId[k], h))
            && r.numInputs == s.numInputs && r.numOutputs == s.numOutputs && r.portId == s.portId
  {
    var r := PushFrom(s, c, h, n, resetting);
    PushFromShape(s, c, h, n, resetting);
    forall k | n <= k < Reach(s)
      ensures r.mins[k] == MinFor(c, s.portId[k], h) && r.maxs[k] == MaxFor(c, s.portId[k], h)
    {
      PushFromAt(s, c, h, n, resetting, k);
    }
  }

  lemma {:induction false} PushFromDefaults(s: Settings, c: Contents, h: Host, n: nat, resetting: bool)
    requires PortsKnown(s, c) && n <= Reach(s)
    requires if resetting then |s.defaults| >= n else |s.defaults| == n
    ensures var r, d := PushFrom(s, c, h, n, resetting), |s.defaults|;
            && |r.defaults| == (if d > Reach(s) then d else Reach(s)) && r.defaults[..d] == s.defaults
            && (forall k :: d <= k < Reach(s) ==> r.defaults[k] == DefaultFor(c, s.portId[k], h))
    decreases Reach(s) - n
  {
    if n < Reach(s) {
      var t := Pushed(s, c, h, n, resetting);
      PushFromDefaults(t, c, h, n + 1, resetting);
      var r := PushFrom(t, c, h, n + 1, resetting);
      assert r.defaults[..|s.defaults|] == r.defaults[..|t.defaults|][..|s.defaults|];
      if |t.defaults| > |s.defaults| { assert r.defaults[n] == r.defaults[..n + 1][n]; }
    }
  }

  /** The settings fit the ports: one of each kind for every input. */
  ghost predicate Agree(s: Settings) { |s.mins| == |s.maxs| == |s.clamps| == |s.defaults| == s.numInputs }

  /** A fresh update: all four vectors have one entry for each input, hints or no hints, and
      each entry is what the range of that input port says. */
  lemma FreshAgrees(s: Settings, c: Contents, h: Host)
    requires Readable(c)
    ensures var r, ids := Updated(s, c, h, false), Inputs(c.ports, |c.ports|);
            && Agree(r) && r.numInputs == |ids|
            && (forall k :: 0 <= k < |ids| ==>
                  KnownPort(c, ids[k]) && (r.mins[k], r.maxs[k], r.defaults[k]) == SettingFor(c, ids[k], h))
  {
    var t := Selected(Cleared(s, false), c, false);
    SelectedKnown(Cleared(s, false), c, false);
    PushFromBounds(t, c, h, 0, false);
    PushFromDefaults(t, c, h, 0, false);
    var r, ids := PushFrom(t, c, h, 0, false), Inputs(c.ports, |c.ports|);
    assert Updated(s, c, h, false) == r;
    assert Reach(t) == |ids|;
    forall k | 0 <= k < |ids|
      ensures KnownPort(c, ids[k]) && (r.mins[k], r.maxs[k], r.defaults[k]) == SettingFor(c, ids[k], h)
    {
      assert t.portId[k] == ids[k];
    }
  }

  /** ... so a default placed by its hint lies between the bounds stored beside it. */
  lemma FreshDefaultsInRange(s: Settings, c: Contents, h: Host, k: nat)
    requires ExpLog(h) && h.rate > 0 && Readable(c) && c.hints.Some? && k < |Inputs(c.ports, |c.ports|)|
    requires var r := c.hints.value[Inputs(c.ports, |c.ports|)[k]];
             Below(r) && Above(r) && r.lower <= r.upper && Placed(r) && !Integer(r)
    ensures var u := Updated(s, c, h, false);
            Agree(u) && k < u.numInputs && u.mins[k] <= u.defaults[k] <= u.maxs[k]
  {
    FreshAgrees(s, c, h);
    DefaultBetweenBounds(c.hints.value[Inputs(c.ports, |c.ports|)[k]], h);
  }

  /** A reset that finds its plugin again: the defaults in force stay, and the vectors agree
      exactly when the descriptor still has at least as many ports as there were inputs. */
  lemma ResetExact(s: Settings, c: Contents, h: Host)
    requires Readable(c) && Agree(s)
    ensures var r := Updated(s, c, h, true);
            && r.numInputs == s.numInputs && r.defaults == s.defaults
            && (Agree(r) <==> s.numInputs <= |PortIds(c)|)
  {
    var t := Selected(Cleared(s, true), c, true);
    SelectedKnown(Cleared(s, true), c, true);
    assert Trimmed(t, true) == t;
    PushFromBounds(t, c, h, 0, true);
    PushFromDefaults(t, c, h, 0, true);
    var r := Updated(s, c, h, true);
    assert r.defaults[..|s.defaults|] == r.defaults;
  }

  /** A reset that does not: the other three are emptied, the defaults are not, so they
      agree exactly when there were no inputs. */
  lemma FailedResetExact(s: Settings)
    requires Agree(s)
    ensures var r := Cleared(s, true);
            && r.defaults == s.defaults && |r.mins| == |r.maxs| == |r.clamps| == 0
            && (|r.defaults| == |r.mins| <==> s.numInputs == 0)
  {
  }
}
