/**
 The filter as the program keeps it: one array of coefficients, gain first and four to a
 section, and one of histories, two cells to a section, rewritten at every sample.
 */
module IirFilter {
  import opened Biquad

  /** The sections laid out in a coefficient array, from the i-th on. */
  function SectionsFrom(coef: seq<real>, length: nat, i: nat): (cs: seq<Coefs>)
    requires |coef| == 4 * length + 1 && i <= length
    ensures |cs| == length - i
    decreases length - i
  {
    if i == length then []
    else [Coefs(coef[4 * i + 1], coef[4 * i + 2], coef[4 * i + 3], coef[4 * i + 4])] + SectionsFrom(coef, length, i + 1)
  }

  /** The histories laid out in an array, from the i-th on. */
  function HistsFrom(cells: seq<real>, length: nat, i: nat): (hs: seq<Hist>)
    requires |cells| == 2 * length && i <= length
    ensures |hs| == length - i
    decreases length - i
  {
    if i == length then [] else [Hist(cells[2 * i], cells[2 * i + 1])] + HistsFrom(cells, length, i + 1)
  }

  /** Only the cells from there on matter. */
  lemma {:induction false} HistsAgree(a: seq<real>, b: seq<real>, length: nat, i: nat)
    requires |a| == |b| == 2 * length && i <= length
    requires forall k :: 2 * i <= k < 2 * length ==> a[k] == b[k]
    ensures HistsFrom(a, length, i) == HistsFrom(b, length, i)
    decreases length - i
  {
    if i < length { HistsAgree(a, b, length, i + 1); }
  }

  lemma {:induction false} HistsSilent(cells: seq<real>, length: nat, i: nat)
    requires |cells| == 2 * length && i <= length && forall k :: 0 <= k < 2 * length ==> cells[k] == 0.0
    ensures HistsFrom(cells, length, i) == Silent(length - i)
    decreases length - i
  {
    if i < length {
      HistsSilent(cells, length, i + 1);
      assert Silent(length - i) == [SILENT] + Silent(length - i - 1);
    }
  }

  /** One section, on the arrays. */
  function FlatStep(coef: seq<real>, cells: seq<real>, length: nat, i: nat, x: real): (r: (real, seq<real>))
    requires |coef| == 4 * length + 1 && |cells| == 2 * length && i < length
    ensures |r.1| == 2 * length
  {
    var c := Coefs(coef[4 * i + 1], coef[4 * i + 2], coef[4 * i + 3], coef[4 * i + 4]);
    var h := Hist(cells[2 * i], cells[2 * i + 1]);
    (Out(c, h, x), cells[2 * i + 1 := cells[2 * i]][2 * i := Inner(c, h, x)])
  }

  function Flat(coef: seq<real>, cells: seq<real>, length: nat, i: nat, x: real): (r: (real, seq<real>))
    requires |coef| == 4 * length + 1 && |cells| == 2 * length && i <= length
    ensures |r.1| == 2 * length
    decreases length - i
  {
    if i == length then (x, cells)
    else
      var (y, next) := FlatStep(coef, cells, length, i, x);
      Flat(coef, next, length, i + 1, y)
  }

  lemma {:induction false} FlatLeaves(coef: seq<real>, cells: seq<real>, length: nat, i: nat, x: real, k: nat)
    requires |coef| == 4 * length + 1 && |cells| == 2 * length && i <= length && k < 2 * i
    ensures Flat(coef, cells, length, i, x).1[k] == cells[k]
    decreases length - i
  {
    if i < length {
      var (y, next) := FlatStep(coef, cells, length, i, x);
      FlatLeaves(coef, next, length, i + 1, y, k);
    }
  }

  lemma FlatStepIs(coef: seq<real>, cells: seq<real>, length: nat, i: nat, x: real)
    requires |coef| == 4 * length + 1 && |cells| == 2 * length && i < length
    ensures var (y, next) := FlatStep(coef, cells, length, i, x);
            var c, h := SectionsFrom(coef, length, i)[0], HistsFrom(cells, length, i)[0];
            && y == Out(c, h, x) && Hist(next[2 * i], next[2 * i + 1]) == Advance(c, h, x)
            && HistsFrom(next, length, i + 1) == HistsFrom(cells, length, i + 1)
  {
    HistsAgree(FlatStep(coef, cells, length, i, x).1, cells, length, i + 1);
  }

  /** The loop over the arrays is the cascade of the sections they hold. */
  lemma {:induction false} FlatIsCascade(coef: seq<real>, cells: seq<real>, length: nat, i: nat, x: real)
    requires |coef| == 4 * length + 1 && |cells| == 2 * length && i <= length
    ensures var (y, after), (v, hs) := Flat(coef, cells, length, i, x),
                                       Cascade(SectionsFrom(coef, length, i), HistsFrom(cells, length, i), x);
            y == v && HistsFrom(after, length, i) == hs
    decreases length - i
  {
    if i < length {
      var (y, next) := FlatStep(coef, cells, length, i, x);
      FlatStepIs(coef, cells, length, i, x);
      FlatIsCascade(coef, next, length, i + 1, y);
      FlatLeaves(coef, next, length, i + 1, y, 2 * i);
      FlatLeaves(coef, next, length, i + 1, y, 2 * i + 1);
      assert SectionsFrom(coef, length, i)[1..] == SectionsFrom(coef, length, i + 1);
      assert HistsFrom(cells, length, i)[1..] == HistsFrom(cells, length, i + 1);
    }
  }

  class Filter {
    const length: nat
    const coef: array<real>
    var history: array?<real>

    ghost predicate Valid()
      reads this
    {
      coef.Length == 4 * length + 1 && (history != null ==> history.Length == 2 * length && history != coef)
    }

    ghost function Sections(): (cs: seq<Coefs>)
      requires coef.Length == 4 * length + 1
      reads coef
      ensures |cs| == length
    {
      SectionsFrom(coef[..], length, 0)
    }

    /** No history yet is silence. */
    ghost function Hists(): (hs: seq<Hist>)
      requires Valid()
      reads this, history
      ensures |hs| == length
    {
      if history == null then Silent(length) else HistsFrom(history[..], length, 0)
    }

    constructor (length: nat, coef: array<real>)
      requires coef.Length == 4 * length + 1
      ensures Valid() && this.length == length && this.coef == coef && history == null && Hists() == Silent(length)
    {
      this.length, this.coef, this.history := length, coef, null;
    }

    /** The history array, allocated as zeros at the first call. */
    method TakeHistory() returns (cells: array<real>)
      requires Valid()
      modifies this`history
      ensures Valid() && history == cells && (old(history) == null ==> fresh(cells))
              && (old(history) != null ==> cells == old(history))
      ensures HistsFrom(cells[..], length, 0) == old(Hists())
    {
      if history == null {
        cells := new real[2 * length](_ => 0.0);
        HistsSilent(cells[..], length, 0);
        history := cells;
      } else {
        cells := history;
      }
    }

    /** iir_filter: one sample in, one out. */
    method Run(input: real) returns (output: real)
      requires Valid()
      modifies this`history, history
      ensures Valid() && history != null && (fresh(history) || history == old(history))
      ensures output == Cascade(Sections(), old(Hists()), Amp(coef[0], input)).0
      ensures Hists() == Cascade(Sections(), old(Hists()), Amp(coef[0], input)).1
    {
      ghost var hs := Hists();
      var cells := TakeHistory();
      var x := input * coef[0];
      assert x == Amp(coef[0], input);
      output := RunAll(cells, x, hs);
      assert Hists() == HistsFrom(cells[..], length, 0);
    }

    method RunAll(cells: array<real>, x: real, ghost hs: seq<Hist>) returns (output: real)
      requires Valid() && cells != coef && cells.Length == 2 * length && hs == HistsFrom(cells[..], length, 0)
      modifies cells
      ensures output == Cascade(Sections(), hs, x).0
      ensures HistsFrom(cells[..], length, 0) == Cascade(Sections(), hs, x).1
    {
      FlatIsCascade(coef[..], cells[..], length, 0, x);
      output := RunSections(cells, x);
    }

    /** The loop over the sections. */
    method RunSections(cells: array<real>, x: real) returns (output: real)
      requires Valid() && cells != coef && cells.Length == 2 * length
      modifies cells
      ensures output == Flat(coef[..], old(cells[..]), length, 0, x).0
      ensures cells[..] == Flat(coef[..], old(cells[..]), length, 0, x).1
    {
      output := x;
      var i := 0;
      while i < length
        invariant i <= length
        invariant Flat(coef[..], cells[..], length, i, output) == Flat(coef[..], old(cells[..]), length, 0, x)
      {
        output := RunSection(cells, i, output);
        i := i + 1;
      }
    }

    /** Its body. */
    method RunSection(cells: array<real>, i: nat, x: real) returns (output: real)
      requires Valid() && cells != coef && cells.Length == 2 * length && i < length
      modifies cells
      ensures output == FlatStep(coef[..], old(cells[..]), length, i, x).0
      ensures cells[..] == FlatStep(coef[..], old(cells[..]), length, i, x).1
    {
      ghost var c := Coefs(coef[4 * i + 1], coef[4 * i + 2], coef[4 * i + 3], coef[4 * i + 4]);
      var history1, history2 := cells[2 * i], cells[2 * i + 1];
      output := x - history1 * coef[4 * i + 1];
      var newHist := output - history2 * coef[4 * i + 2];    // poles
      output := newHist + history1 * coef[4 * i + 3];
      output := output + history2 * coef[4 * i + 4];         // zeros
      assert newHist == Inner(c, Hist(history1, history2), x) && output == Out(c, Hist(history1, history2), x);
      cells[2 * i + 1] := cells[2 * i];
      cells[2 * i] := newHist;
      assert cells[..] == old(cells[..])[2 * i + 1 := history1][2 * i := newHist];
    }
  }

  /** A buffer through the filter with its coefficients left alone. */
  method RunBuffer(f: Filter, xs: seq<real>) returns (ys: seq<real>)
    requires f.Valid()
    modifies f`history, f.history
    ensures f.Valid()
    ensures ys == Filtered(f.coef[0], f.Sections(), old(f.Hists()), xs).0
    ensures f.Hists() == Filtered(f.coef[0], f.Sections(), old(f.Hists()), xs).1
  {
    ys := [];
    var i := 0;
    ghost var g, cs, hs := f.coef[0], f.Sections(), f.Hists();
    ghost var now := hs;
    while i < |xs|
      invariant i <= |xs| && f.Valid() && (f.history == null || fresh(f.history) || f.history == old(f.history))
      invariant f.coef[0] == g && f.Sections() == cs && f.Hists() == now
      invariant ys == Filtered(g, cs, hs, xs[..i]).0 && now == Filtered(g, cs, hs, xs[..i]).1
    {
      var y;
      FilteredSnoc(g, cs, hs, xs, i);
      y, now := RunOne(f, xs[i], g, cs, now);
      ys := ys + [y];
      i := i + 1;
    }
    assert xs[..|xs|] == xs;
  }

  method RunOne(f: Filter, x: real, ghost g: real, ghost cs: seq<Coefs>, ghost hs: seq<Hist>)
    returns (y: real, ghost now: seq<Hist>)
    requires f.Valid() && f.coef[0] == g && f.Sections() == cs && f.Hists() == hs
    modifies f`history, f.history
    ensures f.Valid() && f.history != null && (fresh(f.history) || f.history == old(f.history))
    ensures f.coef[0] == g && f.Sections() == cs && f.Hists() == now
    ensures y == Cascade(cs, hs, Amp(g, x)).0 && now == Cascade(cs, hs, Amp(g, x)).1
  {
    y := f.Run(x);
    now := f.Hists();
  }

  lemma FilteredSnoc(gain: real, cs: seq<Coefs>, hs: seq<Hist>, xs: seq<real>, i: nat)
    requires |hs| == |cs| && i < |xs|
    ensures var (ys, before) := Filtered(gain, cs, hs, xs[..i]);
            var (y, now) := Cascade(cs, before, Amp(gain, xs[i]));
            Filtered(gain, cs, hs, xs[..i + 1]).0 == ys + [y] && Filtered(gain, cs, hs, xs[..i + 1]).1 == now
  {
    assert xs[..i + 1][..i] == xs[..i];
    assert Amplified(gain, xs[..i + 1]) == Amplified(gain, xs[..i]) + [Amp(gain, xs[i])];
    RanSnoc(cs, hs, Amplified(gain, xs[..i]), Amp(gain, xs[i]));
  }
}
