/**
 The cascaded filter: what one section computes from its two history cells is a
 difference equation, a filter is the composition of its sections after the gain, and
 the coefficients are exactly those of the analogue prototype. Over the reals.
 */
module Biquad {
  datatype Coefs = Coefs(beta1: real, beta2: real, alpha1: real, alpha2: real)

  datatype Hist = Hist(h1: real, h2: real)

  const SILENT := Hist(0.0, 0.0)

  // ------------------------------------------------------------- one section

  /** What goes into the history: the input less the poles. */
  function Inner(c: Coefs, h: Hist, x: real): real { x - h.h1 * c.beta1 - h.h2 * c.beta2 }

  function Out(c: Coefs, h: Hist, x: real): real { Inner(c, h, x) + h.h1 * c.alpha1 + h.h2 * c.alpha2 }

  function Advance(c: Coefs, h: Hist, x: real): Hist { Hist(Inner(c, h, x), h.h1) }

  function After(c: Coefs, h: Hist, xs: seq<real>): Hist {
    if xs == [] then h else Advance(c, After(c, h, xs[..|xs| - 1]), xs[|xs| - 1])
  }

  /** A section fed a whole stream. */
  function Section(c: Coefs, h: Hist, xs: seq<real>): (ys: seq<real>)
    ensures |ys| == |xs|
  {
    if xs == [] then []
    else Section(c, h, xs[..|xs| - 1]) + [Out(c, After(c, h, xs[..|xs| - 1]), xs[|xs| - 1])]
  }

  lemma {:induction false} SectionAt(c: Coefs, h: Hist, xs: seq<real>, n: nat)
    requires n < |xs|
    ensures Section(c, h, xs)[n] == Out(c, After(c, h, xs[..n]), xs[n])
  {
    if n < |xs| - 1 {
      SectionAt(c, h, xs[..|xs| - 1], n);
      assert xs[..|xs| - 1][..n] == xs[..n];
    }
  }

  /** A sample of a stream; nothing before its start. */
  function At(xs: seq<real>, n: int): real { if 0 <= n < |xs| then xs[n] else 0.0 }

  /** What the history has taken in at time n; nothing before the start. */
  function InnerAt(c: Coefs, xs: seq<real>, n: int): real {
    if 0 <= n < |xs| then Inner(c, After(c, SILENT, xs[..n]), xs[n]) else 0.0
  }

  lemma HistoryIs(c: Coefs, xs: seq<real>, n: nat)
    requires n <= |xs|
    ensures After(c, SILENT, xs[..n]) == Hist(InnerAt(c, xs, n - 1), InnerAt(c, xs, n - 2))
  {
    if n > 0 {
      assert xs[..n][..n - 1] == xs[..n - 1];
      if n > 1 { assert xs[..n - 1][..n - 2] == xs[..n - 2]; }
    }
  }

  /** The history side of a section at one time, and its output side. */
  predicate Takes(c: Coefs, x: real, w0: real, w1: real, w2: real) { w0 == x - w1 * c.beta1 - w2 * c.beta2 }

  predicate Gives(c: Coefs, y: real, w0: real, w1: real, w2: real) { y == w0 + w1 * c.alpha1 + w2 * c.alpha2 }

  lemma HalvesInside(c: Coefs, h: Hist, x: real)
    ensures Takes(c, x, Inner(c, h, x), h.h1, h.h2) && Gives(c, Out(c, h, x), Inner(c, h, x), h.h1, h.h2)
  {
  }

  lemma HalvesBefore(c: Coefs)
    ensures Takes(c, 0.0, 0.0, 0.0, 0.0) && Gives(c, 0.0, 0.0, 0.0, 0.0)
  {
  }

  /** Both hold at any time, before the start included. */
  lemma SectionHalves(c: Coefs, xs: seq<real>, n: int)
    requires n < |xs|
    ensures Takes(c, At(xs, n), InnerAt(c, xs, n), InnerAt(c, xs, n - 1), InnerAt(c, xs, n - 2))
    ensures Gives(c, At(Section(c, SILENT, xs), n), InnerAt(c, xs, n), InnerAt(c, xs, n - 1), InnerAt(c, xs, n - 2))
  {
    if n >= 0 {
      HistoryIs(c, xs, n);
      SectionAt(c, SILENT, xs, n);
      HalvesInside(c, After(c, SILENT, xs[..n]), xs[n]);
    } else {
      HalvesBefore(c);
    }
  }

  /** One equation times a coefficient of the other side. */
  lemma TakesTimes(c: Coefs, k: real, x: real, w0: real, w1: real, w2: real)
    requires Takes(c, x, w0, w1, w2)
    ensures k * x == k * w0 + w1 * (k * c.beta1) + w2 * (k * c.beta2)
  {
    Spread(k, x, w0, w1, c.beta1, k * c.beta1, w2, c.beta2, k * c.beta2);
  }

  lemma GivesTimes(c: Coefs, k: real, y: real, w0: real, w1: real, w2: real)
    requires Gives(c, y, w0, w1, w2)
    ensures k * y == k * w0 + w1 * (c.alpha1 * k) + w2 * (c.alpha2 * k)
  {
    Spread(k, y, w0, w1, c.alpha1, c.alpha1 * k, w2, c.alpha2, c.alpha2 * k);
  }

  predicate Obeys(c: Coefs, x0: real, x1: real, x2: real, y0: real, y1: real, y2: real) {
    y0 + c.beta1 * y1 + c.beta2 * y2 == x0 + c.alpha1 * x1 + c.alpha2 * x2
  }

  lemma Eliminate(c: Coefs, w0: real, w1: real, w2: real, w3: real, w4: real, x0: real, x1: real, x2: real,
                  y0: real, y1: real, y2: real)
    requires Takes(c, x0, w0, w1, w2) && Takes(c, x1, w1, w2, w3) && Takes(c, x2, w2, w3, w4)
    requires Gives(c, y0, w0, w1, w2) && Gives(c, y1, w1, w2, w3) && Gives(c, y2, w2, w3, w4)
    ensures Obeys(c, x0, x1, x2, y0, y1, y2)
  {
    AllTaken(c, w0, w1, w2, w3, w4, x0, x1, x2);
    AllGiven(c, w0, w1, w2, w3, w4, y0, y1, y2);
  }

  /** Both sides of the equation, spelled out in what the history took in. */
  function Total(c: Coefs, w0: real, w1: real, w2: real, w3: real, w4: real): real {
    w0 + c.alpha1 * w1 + c.alpha2 * w2 + c.beta1 * w1 + c.beta2 * w2
    + w2 * (c.alpha1 * c.beta1) + w3 * (c.alpha1 * c.beta2) + w3 * (c.alpha2 * c.beta1) + w4 * (c.alpha2 * c.beta2)
  }

  lemma AllTaken(c: Coefs, w0: real, w1: real, w2: real, w3: real, w4: real, x0: real, x1: real, x2: real)
    requires Takes(c, x0, w0, w1, w2) && Takes(c, x1, w1, w2, w3) && Takes(c, x2, w2, w3, w4)
    ensures x0 + c.alpha1 * x1 + c.alpha2 * x2 == Total(c, w0, w1, w2, w3, w4)
  {
    TakesTimes(c, c.alpha1, x1, w1, w2, w3);
    TakesTimes(c, c.alpha2, x2, w2, w3, w4);
  }

  lemma AllGiven(c: Coefs, w0: real, w1: real, w2: real, w3: real, w4: real, y0: real, y1: real, y2: real)
    requires Gives(c, y0, w0, w1, w2) && Gives(c, y1, w1, w2, w3) && Gives(c, y2, w2, w3, w4)
    ensures y0 + c.beta1 * y1 + c.beta2 * y2 == Total(c, w0, w1, w2, w3, w4)
  {
    GivesTimes(c, c.beta1, y1, w1, w2, w3);
    GivesTimes(c, c.beta2, y2, w2, w3, w4);
  }

  lemma Spread(k: real, s: real, u: real, v: real, p: real, kp: real, w: real, q: real, kq: real)
    requires s == u + v * p + w * q && kp == k * p && kq == k * q
    ensures k * s == k * u + v * kp + w * kq
  {
    assert k * (v * p) == v * kp && k * (w * q) == w * kq;
    assert k * s == k * u + k * (v * p) + k * (w * q);
  }

  /** From silence, whatever the stream, a section obeys its difference equation:
      y[n] + beta1 y[n-1] + beta2 y[n-2] = x[n] + alpha1 x[n-1] + alpha2 x[n-2]. */
  lemma DifferenceEquation(c: Coefs, xs: seq<real>, n: nat)
    requires n < |xs|
    ensures var ys := Section(c, SILENT, xs);
            Obeys(c, At(xs, n), At(xs, n - 1), At(xs, n - 2), At(ys, n), At(ys, n - 1), At(ys, n - 2))
  {
    var ys := Section(c, SILENT, xs);
    SectionHalves(c, xs, n);
    SectionHalves(c, xs, n - 1);
    SectionHalves(c, xs, n - 2);
    Eliminate(c, InnerAt(c, xs, n), InnerAt(c, xs, n - 1), InnerAt(c, xs, n - 2), InnerAt(c, xs, n - 3),
      InnerAt(c, xs, n - 4),
              At(xs, n), At(xs, n - 1), At(xs, n - 2), At(ys, n), At(ys, n - 1), At(ys, n - 2));
  }

  // --------------------------------------------------------------- the cascade

  /** One sample through every section in turn. */
  function Cascade(cs: seq<Coefs>, hs: seq<Hist>, x: real): (r: (real, seq<Hist>))
    requires |hs| == |cs|
    ensures |r.1| == |cs|
  {
    if cs == [] then (x, [])
    else
      var (y, rest) := Cascade(cs[1..], hs[1..], Out(cs[0], hs[0], x));
      (y, [Advance(cs[0], hs[0], x)] + rest)
  }

  /** A stream through them sample by sample, as the filter runs. */
  function Ran(cs: seq<Coefs>, hs: seq<Hist>, xs: seq<real>): (r: (seq<real>, seq<Hist>))
    requires |hs| == |cs|
    ensures |r.0| == |xs| && |r.1| == |cs|
  {
    if xs == [] then ([], hs)
    else
      var (ys, before) := Ran(cs, hs, xs[..|xs| - 1]);
      var (y, now) := Cascade(cs, before, xs[|xs| - 1]);
      (ys + [y], now)
  }

  /** A stream through one section after the other. */
  function Composed(cs: seq<Coefs>, hs: seq<Hist>, xs: seq<real>): seq<real>
    requires |hs| == |cs|
  {
    if cs == [] then xs else Composed(cs[1..], hs[1..], Section(cs[0], hs[0], xs))
  }

  /** The histories when a stream has gone through one section after the other. */
  function ComposedAfter(cs: seq<Coefs>, hs: seq<Hist>, xs: seq<real>): (r: seq<Hist>)
    requires |hs| == |cs|
    ensures |r| == |cs|
  {
    if cs == [] then [] else [After(cs[0], hs[0], xs)] + ComposedAfter(cs[1..], hs[1..], Section(cs[0], hs[0], xs))
  }

  function Each(g: real -> real, xs: seq<real>): (ys: seq<real>)
    ensures |ys| == |xs|
  {
    if xs == [] then [] else Each(g, xs[..|xs| - 1]) + [g(xs[|xs| - 1])]
  }

  function Amp(gain: real, x: real): real { x * gain }

  function Times(gain: real): real -> real { (x: real) => Amp(gain, x) }

  function Amplified(gain: real, xs: seq<real>): seq<real> { Each(Times(gain), xs) }

  lemma {:induction false} ComposedEmpty(cs: seq<Coefs>, hs: seq<Hist>)
    requires |hs| == |cs|
    ensures Composed(cs, hs, []) == [] && ComposedAfter(cs, hs, []) == hs
    decreases |cs|
  {
    if cs != [] {
      ComposedEmpty(cs[1..], hs[1..]);
      assert hs == [hs[0]] + hs[1..];
    }
  }

  /** One more sample through the composition is one pass of the cascade. */
  lemma {:induction false} ComposedStep(cs: seq<Coefs>, hs: seq<Hist>, xs: seq<real>, x: real)
    requires |hs| == |cs|
    ensures var (y, now) := Cascade(cs, ComposedAfter(cs, hs, xs), x);
            Composed(cs, hs, xs + [x]) == Composed(cs, hs, xs) + [y] && ComposedAfter(cs, hs, xs + [x]) == now
    decreases |cs|
  {
    if cs != [] {
      var h := After(cs[0], hs[0], xs);
      assert (xs + [x])[..|xs|] == xs;
      assert Section(cs[0], hs[0], xs + [x]) == Section(cs[0], hs[0], xs) + [Out(cs[0], h, x)];
      ComposedStep(cs[1..], hs[1..], Section(cs[0], hs[0], xs), Out(cs[0], h, x));
      assert ComposedAfter(cs, hs, xs)[1..] == ComposedAfter(cs[1..], hs[1..], Section(cs[0], hs[0], xs));
    }
  }

  lemma {:induction false} RanIsComposition(cs: seq<Coefs>, hs: seq<Hist>, xs: seq<real>)
    requires |hs| == |cs|
    ensures Ran(cs, hs, xs).0 == Composed(cs, hs, xs) && Ran(cs, hs, xs).1 == ComposedAfter(cs, hs, xs)
    decreases |xs|
  {
    if xs == [] {
      ComposedEmpty(cs, hs);
    } else {
      var before := xs[..|xs| - 1];
      RanIsComposition(cs, hs, before);
      ComposedStep(cs, hs, before, xs[|xs| - 1]);
      assert xs == before + [xs[|xs| - 1]];
    }
  }

  lemma RanSnoc(cs: seq<Coefs>, hs: seq<Hist>, xs: seq<real>, x: real)
    requires |hs| == |cs|
    ensures var (ys, before) := Ran(cs, hs, xs);
            var (y, now) := Cascade(cs, before, x);
            Ran(cs, hs, xs + [x]).0 == ys + [y] && Ran(cs, hs, xs + [x]).1 == now
  {
    assert (xs + [x])[..|xs|] == xs;
  }

  lemma {:induction false} RanTwice(cs: seq<Coefs>, hs: seq<Hist>, xs: seq<real>, zs: seq<real>)
    requires |hs| == |cs|
    ensures var (ys, mid) := Ran(cs, hs, xs);
            var (vs, end) := Ran(cs, mid, zs);
            Ran(cs, hs, xs + zs).0 == ys + vs && Ran(cs, hs, xs + zs).1 == end
    decreases |zs|
  {
    if zs == [] {
      assert xs + zs == xs;
    } else {
      var n := |zs| - 1;
      RanTwice(cs, hs, xs, zs[..n]);
      RanSnoc(cs, hs, xs + zs[..n], zs[n]);
      RanSnoc(cs, Ran(cs, hs, xs).1, zs[..n], zs[n]);
      assert zs == zs[..n] + [zs[n]] && xs + zs == (xs + zs[..n]) + [zs[n]];
    }
  }

  /** The filter on a buffer: the gain, then every section on each sample. */
  function Filtered(gain: real, cs: seq<Coefs>, hs: seq<Hist>, xs: seq<real>): (r: (seq<real>, seq<Hist>))
    requires |hs| == |cs|
    ensures |r.0| == |xs| && |r.1| == |cs|
  {
    Ran(cs, hs, Amplified(gain, xs))
  }

  /** A filter of any length is the composition of its sections after the gain, and its
      histories are those the sections would have. */
  lemma FilterIsComposition(gain: real, cs: seq<Coefs>, hs: seq<Hist>, xs: seq<real>)
    requires |hs| == |cs|
    ensures Filtered(gain, cs, hs, xs).0 == Composed(cs, hs, Amplified(gain, xs))
    ensures Filtered(gain, cs, hs, xs).1 == ComposedAfter(cs, hs, Amplified(gain, xs))
  {
    RanIsComposition(cs, hs, Amplified(gain, xs));
  }

  lemma {:induction false} EachConcat(g: real -> real, xs: seq<real>, zs: seq<real>)
    ensures Each(g, xs + zs) == Each(g, xs) + Each(g, zs)
    decreases |zs|
  {
    if zs == [] {
      assert xs + zs == xs;
    } else {
      var n := |zs| - 1;
      EachConcat(g, xs, zs[..n]);
      assert (xs + zs)[..|xs| + n] == xs + zs[..n];
    }
  }

  /** It does not matter how the stream is cut into buffers. */
  lemma CutAnywhere(gain: real, cs: seq<Coefs>, hs: seq<Hist>, xs: seq<real>, zs: seq<real>)
    requires |hs| == |cs|
    ensures var (ys, mid) := Filtered(gain, cs, hs, xs);
            var (vs, end) := Filtered(gain, cs, mid, zs);
            Filtered(gain, cs, hs, xs + zs).0 == ys + vs && Filtered(gain, cs, hs, xs + zs).1 == end
  {
    EachConcat(Times(gain), xs, zs);
    RanTwice(cs, hs, Amplified(gain, xs), Amplified(gain, zs));
  }

  // -------------------------------------------------------------- linearity

  /** Two streams combined sample by sample. */
  function Zip(f: (real, real) -> real, xs: seq<real>, zs: seq<real>): (ms: seq<real>)
    requires |xs| == |zs|
    ensures |ms| == |xs|
    ensures forall i :: 0 <= i < |xs| ==> ms[i] == f(xs[i], zs[i])
  {
    if xs == [] then [] else Zip(f, xs[..|xs| - 1], zs[..|zs| - 1]) + [f(xs[|xs| - 1], zs[|zs| - 1])]
  }

  function ZipHist(f: (real, real) -> real, g: Hist, h: Hist): Hist { Hist(f(g.h1, h.h1), f(g.h2, h.h2)) }

  /** Combining before a section is combining after it. */
  ghost predicate Passes(f: (real, real) -> real, c: Coefs) {
    && (forall g, h, x, z :: Inner(c, ZipHist(f, g, h), f(x, z)) == f(Inner(c, g, x), Inner(c, h, z)))
    && (forall g, h, x, z :: Out(c, ZipHist(f, g, h), f(x, z)) == f(Out(c, g, x), Out(c, h, z)))
    && f(0.0, 0.0) == 0.0
  }

  lemma ZipSnoc(f: (real, real) -> real, xs: seq<real>, x: real, zs: seq<real>, z: real)
    requires |xs| == |zs|
    ensures Zip(f, xs + [x], zs + [z]) == Zip(f, xs, zs) + [f(x, z)]
  {
    assert (xs + [x])[..|xs|] == xs && (zs + [z])[..|zs|] == zs;
  }

  lemma ZipFront(f: (real, real) -> real, xs: seq<real>, zs: seq<real>)
    requires |xs| == |zs| && xs != []
    ensures var n := |xs| - 1; Zip(f, xs, zs)[..n] == Zip(f, xs[..n], zs[..n])
  {
  }

  lemma AdvancePasses(f: (real, real) -> real, c: Coefs, g: Hist, x: real, h: Hist, z: real)
    requires Passes(f, c)
    ensures Advance(c, ZipHist(f, g, h), f(x, z)) == ZipHist(f, Advance(c, g, x), Advance(c, h, z))
    ensures Out(c, ZipHist(f, g, h), f(x, z)) == f(Out(c, g, x), Out(c, h, z))
  {
  }

  lemma {:induction false} SectionPasses(f: (real, real) -> real, c: Coefs, xs: seq<real>, zs: seq<real>)
    requires |xs| == |zs| && Passes(f, c)
    ensures After(c, SILENT, Zip(f, xs, zs)) == ZipHist(f, After(c, SILENT, xs), After(c, SILENT, zs))
    ensures Section(c, SILENT, Zip(f, xs, zs)) == Zip(f, Section(c, SILENT, xs), Section(c, SILENT, zs))
    decreases |xs|
  {
    if xs != [] {
      var n := |xs| - 1;
      var g, h := After(c, SILENT, xs[..n]), After(c, SILENT, zs[..n]);
      SectionPasses(f, c, xs[..n], zs[..n]);
      ZipFront(f, xs, zs);
      AdvancePasses(f, c, g, xs[n], h, zs[n]);
      ZipSnoc(f, Section(c, SILENT, xs[..n]), Out(c, g, xs[n]), Section(c, SILENT, zs[..n]), Out(c, h, zs[n]));
    }
  }

  function Silent(n: nat): seq<Hist> { seq(n, _ => SILENT) }

  lemma {:induction false} ComposedPasses(f: (real, real) -> real, cs: seq<Coefs>, xs: seq<real>, zs: seq<real>)
    requires |xs| == |zs| && forall i :: 0 <= i < |cs| ==> Passes(f, cs[i])
    ensures |Composed(cs, Silent(|cs|), xs)| == |xs| && |Composed(cs, Silent(|cs|), zs)| == |zs|
    ensures Composed(cs, Silent(|cs|), Zip(f, xs, zs))
            == Zip(f, Composed(cs, Silent(|cs|), xs), Composed(cs, Silent(|cs|), zs))
    decreases |cs|
  {
    if cs != [] {
      assert Silent(|cs|)[1..] == Silent(|cs| - 1);
      SectionPasses(f, cs[0], xs, zs);
      ComposedPasses(f, cs[1..], Section(cs[0], SILENT, xs), Section(cs[0], SILENT, zs));
    }
  }

  lemma {:induction false} EachPasses(f: (real, real) -> real, g: real -> real, xs: seq<real>, zs: seq<real>)
    requires |xs| == |zs| && forall x, z :: f(g(x), g(z)) == g(f(x, z))
    ensures Each(g, Zip(f, xs, zs)) == Zip(f, Each(g, xs), Each(g, zs))
    decreases |xs|
  {
    if xs != [] {
      var n := |xs| - 1;
      EachPasses(f, g, xs[..n], zs[..n]);
      ZipFront(f, xs, zs);
      ZipSnoc(f, Each(g, xs[..n]), g(xs[n]), Each(g, zs[..n]), g(zs[n]));
    }
  }

  function Weighted(a: real, b: real): (real, real) -> real { (x: real, z: real) => a * x + b * z }

  lemma InnerWeighted(c: Coefs, a: real, g: Hist, x: real, b: real, h: Hist, z: real)
    ensures var f := Weighted(a, b); Inner(c, ZipHist(f, g, h), f(x, z)) == f(Inner(c, g, x), Inner(c, h, z))
  {
    var p, q := g.h1 * c.beta1, g.h2 * c.beta2;
    var r, s := h.h1 * c.beta1, h.h2 * c.beta2;
    assert (a * g.h1 + b * h.h1) * c.beta1 == a * p + b * r;
    assert (a * g.h2 + b * h.h2) * c.beta2 == a * q + b * s;
    assert a * (x - p - q) == a * x - a * p - a * q;
    assert b * (z - r - s) == b * z - b * r - b * s;
  }

  lemma OutWeighted(c: Coefs, a: real, g: Hist, x: real, b: real, h: Hist, z: real)
    ensures var f := Weighted(a, b); Out(c, ZipHist(f, g, h), f(x, z)) == f(Out(c, g, x), Out(c, h, z))
  {
    InnerWeighted(c, a, g, x, b, h, z);
    var i, j := Inner(c, g, x), Inner(c, h, z);
    var p, q := g.h1 * c.alpha1, g.h2 * c.alpha2;
    var r, s := h.h1 * c.alpha1, h.h2 * c.alpha2;
    assert (a * g.h1 + b * h.h1) * c.alpha1 == a * p + b * r;
    assert (a * g.h2 + b * h.h2) * c.alpha2 == a * q + b * s;
    assert a * (i + p + q) == a * i + a * p + a * q;
    assert b * (j + r + s) == b * j + b * r + b * s;
  }

  lemma WeightedPasses(a: real, b: real, c: Coefs)
    ensures Passes(Weighted(a, b), c)
  {
    var f := Weighted(a, b);
    forall g, h, x, z ensures Inner(c, ZipHist(f, g, h), f(x, z)) == f(Inner(c, g, x), Inner(c, h, z)) {
      InnerWeighted(c, a, g, x, b, h, z);
    }
    forall g, h, x, z ensures Out(c, ZipHist(f, g, h), f(x, z)) == f(Out(c, g, x), Out(c, h, z)) {
      OutWeighted(c, a, g, x, b, h, z);
    }
  }

  lemma FilterOutput(gain: real, cs: seq<Coefs>, xs: seq<real>)
    ensures Filtered(gain, cs, Silent(|cs|), xs).0 == Composed(cs, Silent(|cs|), Amplified(gain, xs))
  {
    FilterIsComposition(gain, cs, Silent(|cs|), xs);
  }

  lemma FilterPasses(f: (real, real) -> real, gain: real, cs: seq<Coefs>, xs: seq<real>, zs: seq<real>)
    requires |xs| == |zs| && forall i :: 0 <= i < |cs| ==> Passes(f, cs[i])
    requires forall x, z :: f(Times(gain)(x), Times(gain)(z)) == Times(gain)(f(x, z))
    ensures Filtered(gain, cs, Silent(|cs|), Zip(f, xs, zs)).0 ==
            Zip(f, Filtered(gain, cs, Silent(|cs|), xs).0, Filtered(gain, cs, Silent(|cs|), zs).0)
  {
    FilterOutput(gain, cs, xs);
    FilterOutput(gain, cs, zs);
    FilterOutput(gain, cs, Zip(f, xs, zs));
    EachPasses(f, Times(gain), xs, zs);
    ComposedPasses(f, cs, Amplified(gain, xs), Amplified(gain, zs));
  }

  /** With fixed coefficients and from silence a filter of any length is linear. */
  lemma FilterLinear(gain: real, cs: seq<Coefs>, a: real, xs: seq<real>, b: real, zs: seq<real>)
    requires |xs| == |zs|
    ensures Filtered(gain, cs, Silent(|cs|), Zip(Weighted(a, b), xs, zs)).0 ==
            Zip(Weighted(a, b), Filtered(gain, cs, Silent(|cs|), xs).0, Filtered(gain, cs, Silent(|cs|), zs).0)
  {
    forall i | 0 <= i < |cs| ensures Passes(Weighted(a, b), cs[i]) { WeightedPasses(a, b, cs[i]); }
    forall x, z ensures Weighted(a, b)(Times(gain)(x), Times(gain)(z)) == Times(gain)(Weighted(a, b)(x, z)) {
      GainPasses(a, b, gain, x, z);
    }
    FilterPasses(Weighted(a, b), gain, cs, xs, zs);
  }

  lemma GainPasses(a: real, b: real, gain: real, x: real, z: real)
    ensures Weighted(a, b)(Times(gain)(x), Times(gain)(z)) == Times(gain)(Weighted(a, b)(x, z))
  {
    assert a * (x * gain) == (a * x) * gain && b * (z * gain) == (b * z) * gain;
  }
}
