/**
 From an analogue prototype to the coefficients of a section: prewarping and the bilinear
 transform, exact over the reals.
 */
module Bilinear {
  import opened Biquad

  /** A second-order polynomial of the prototype. */
  datatype Poly = Poly(c0: real, c1: real, c2: real)

  function Analogue(p: Poly, s: real): real { p.c0 + p.c1 * s + p.c2 * (s * s) }

  /** ad and bd of the transform, and the two numbers beside each. */
  function Lead(p: Poly, fs: real): real { 4.0 * p.c2 * fs * fs + 2.0 * p.c1 * fs + p.c0 }

  function First(p: Poly, fs: real): real { 2.0 * p.c0 - 8.0 * p.c2 * fs * fs }

  function Second(p: Poly, fs: real): real { 4.0 * p.c2 * fs * fs - 2.0 * p.c1 * fs + p.c0 }

  function Transform(a: Poly, b: Poly, fs: real): Coefs
    requires Lead(a, fs) != 0.0 && Lead(b, fs) != 0.0
  {
    Coefs(First(b, fs) / Lead(b, fs), Second(b, fs) / Lead(b, fs), First(a, fs) / Lead(a, fs),
      Second(a, fs) / Lead(a, fs))
  }

  /** The overall gain so far, times this section's factor. */
  function Gain(k: real, a: Poly, b: Poly, fs: real): real
    requires Lead(b, fs) != 0.0
  {
    k * (Lead(a, fs) / Lead(b, fs))
  }

  /** One side of a section's transfer function at z. */
  function Digital(first: real, second: real, z: real): real
    requires z != 0.0
  {
    1.0 + first / z + second / (z * z)
  }

  // ------------------------------------------------------------- exactness

  lemma NonZeroIs(x: real, y: real, xy: real)
    requires x != 0.0 && y != 0.0 && xy == x * y
    ensures xy != 0.0
  {
  }

  lemma SquareOf(x: real) returns (xx: real)
    requires x != 0.0
    ensures xx == x * x && xx != 0.0
  {
    xx := x * x;
    NonZeroIs(x, x, xx);
  }

  /** The polynomial at s, times (z+1) squared, collected in powers of z. */
  lemma Collected(p: Poly, fs: real, z: real, s: real)
    requires s * (z + 1.0) == 2.0 * fs * (z - 1.0)
    ensures Analogue(p, s) * ((z + 1.0) * (z + 1.0)) == Lead(p, fs) * (z * z) + First(p, fs) * z + Second(p, fs)
  {
    var tt, zz, ff := (z + 1.0) * (z + 1.0), z * z, fs * fs;
    assert tt == zz + 2.0 * z + 1.0;
    assert Analogue(p, s) * tt == p.c0 * tt + p.c1 * (s * tt) + p.c2 * ((s * s) * tt);
    assert p.c0 * tt == p.c0 * zz + 2.0 * p.c0 * z + p.c0;
    assert p.c1 * (s * tt) == (2.0 * p.c1 * fs) * zz - 2.0 * p.c1 * fs;
    assert p.c2 * ((s * s) * tt) == (4.0 * p.c2 * fs * fs) * zz - (8.0 * p.c2 * fs * fs) * z + 4.0 * p.c2 * fs * fs;
  }

  lemma SideIs(p: Poly, fs: real, z: real, s: real, m: real, zz: real) returns (n: real, l: real, x: real)
    requires z != 0.0 && Lead(p, fs) != 0.0 && s * (z + 1.0) == 2.0 * fs * (z - 1.0)
    requires m == (z + 1.0) * (z + 1.0) && zz == z * z && zz != 0.0
    ensures n == Analogue(p, s) && l == Lead(p, fs) && x == Digital(First(p, fs) / l, Second(p, fs) / l, z)
    ensures n * m == (l * zz) * x
  {
    n, l := Analogue(p, s), Lead(p, fs);
    var f, g := First(p, fs) / l, Second(p, fs) / l;
    x := Digital(f, g, z);
    Collected(p, fs, z, s);
  }

  lemma RatioOfSides(n: real, d: real, m: real, p: real, q: real, x: real, y: real, zz: real)
    requires d != 0.0 && m != 0.0 && q != 0.0 && zz != 0.0
    requires n * m == (p * zz) * x && d * m == (q * zz) * y
    ensures y != 0.0 && n / d == (p / q) * (x / y)
  {
  }

  /** The point of the s-plane for z. */
  function Plane(fs: real, z: real): real
    requires z != -1.0
  {
    2.0 * fs * (z - 1.0) / (z + 1.0)
  }

  /** The transfer function of a section, with its gain factor. */
  function Transfer(k: real, c: Coefs, z: real): real
    requires z != 0.0 && Digital(c.beta1, c.beta2, z) != 0.0
  {
    k * (Digital(c.alpha1, c.alpha2, z) / Digital(c.beta1, c.beta2, z))
  }

  /** The bilinear coefficients are exact: at s = 2 fs (z-1)/(z+1) the ratio of the two
      prototype polynomials is this section's gain factor times its transfer function. */
  lemma BilinearExact(a: Poly, b: Poly, fs: real, z: real)
    requires z != 0.0 && z != -1.0 && Lead(a, fs) != 0.0 && Lead(b, fs) != 0.0 && Analogue(b, Plane(fs, z)) != 0.0
    ensures var c := Transform(a, b, fs);
            && Digital(c.beta1, c.beta2, z) != 0.0
            && Analogue(a, Plane(fs, z)) / Analogue(b, Plane(fs, z)) == Transfer(Gain(1.0, a, b, fs), c, z)
  {
    var s := Plane(fs, z);
    OnPlane(fs, z, s);
    var m := SquareOf(z + 1.0);
    var zz := SquareOf(z);
    var n, p, x := SideIs(a, fs, z, s, m, zz);
    var d, q, y := SideIs(b, fs, z, s, m, zz);
    RatioOfSides(n, d, m, p, q, x, y, zz);
  }

  lemma OnPlane(fs: real, z: real, s: real)
    requires z != -1.0 && s == Plane(fs, z)
    ensures s * (z + 1.0) == 2.0 * fs * (z - 1.0)
  {
  }

  /** prewarp, given the warped frequency. */
  function Prewarp(p: Poly, wp: real): Poly
    requires wp != 0.0
  {
    Poly(p.c0, p.c1 / wp, p.c2 / (wp * wp))
  }

  lemma PrewarpIs(p: Poly, wp: real, s: real)
    requires wp != 0.0
    ensures Analogue(Prewarp(p, wp), s) == Analogue(p, s / wp)
  {
    var v := s / wp;
    assert s == v * wp && s * s == (v * v) * (wp * wp);
    assert (p.c1 / wp) * s == ((p.c1 / wp) * wp) * v == p.c1 * v;
    assert (p.c2 / (wp * wp)) * (s * s) == ((p.c2 / (wp * wp)) * (wp * wp)) * (v * v) == p.c2 * (v * v);
  }

  /** szxform as a whole, with t the tangent of pi fc / fs: the section at z is the
      unwarped prototype at (z-1)/(t(z+1)), so the corner stays where it was asked for. */
  lemma SectionIsPrototype(a: Poly, b: Poly, fs: real, t: real, z: real)
    requires z != 0.0 && z != -1.0 && 2.0 * fs * t != 0.0
    requires var wp := 2.0 * fs * t; Lead(Prewarp(a, wp), fs) != 0.0 && Lead(Prewarp(b, wp), fs) != 0.0
    requires Analogue(b, ((z - 1.0) / (z + 1.0)) / t) != 0.0
    ensures var wp, v := 2.0 * fs * t, ((z - 1.0) / (z + 1.0)) / t;
            var aw, bw := Prewarp(a, wp), Prewarp(b, wp);
            var c := Transform(aw, bw, fs);
            && Digital(c.beta1, c.beta2, z) != 0.0
            && Analogue(a, v) / Analogue(b, v) == Transfer(Gain(1.0, aw, bw, fs), c, z)
  {
    var wp := 2.0 * fs * t;
    Warped(fs, t, z);
    PrewarpIs(a, wp, Plane(fs, z));
    PrewarpIs(b, wp, Plane(fs, z));
    BilinearExact(Prewarp(a, wp), Prewarp(b, wp), fs, z);
  }

  lemma Warped(fs: real, t: real, z: real)
    requires fs != 0.0 && t != 0.0 && z != -1.0 && 2.0 * fs * t != 0.0
    ensures Plane(fs, z) / (2.0 * fs * t) == ((z - 1.0) / (z + 1.0)) / t
  {
    var q := (z - 1.0) / (z + 1.0);
    assert 2.0 * fs * (z - 1.0) == (2.0 * fs * q) * (z + 1.0);
    assert 2.0 * fs * (z - 1.0) / (z + 1.0) == 2.0 * fs * q;
  }
}
