/**
 The delay: one ring, a read head that reads between cells and a write head, both moved
 by fractional steps and clamped. Over the reals.
 */
module Delay {
  import opened Wrappers

  datatype Settings = Settings(delay: real, mix: real, rate: nat)

  datatype Sample = Sample(signal: real, delayCv: real, headCv: real)

  datatype State = State(reading: real, writing: real, ring: seq<real>)

  function Reset(rate: nat): State { State(0.0, 0.0, Zeros(rate)) }

  function Scale(x: real, y: real): real { x * y }

  /** The delay in samples, clamped. */
  function Steps(s: Settings, cv: real): (d: int)
    requires s.rate > 0
    ensures 0 <= d < s.rate
  {
    var d := Trunc(Scale(s.delay + cv * 0.5, s.rate as real));
    var e := if d as real >= s.rate as real then s.rate - 1 else d;
    if e < 0 then 0 else e
  }

  function ClampHead(x: real, rate: nat): (h: real)
    requires rate > 0
    ensures 0.0 <= h < rate as real
  {
    var y := if x >= rate as real then rate as real - 1.0 else x;
    if y < 0.0 then 0.0 else y
  }

  /** The ring between two cells; at the last cell, that cell. */
  function Read(ring: seq<real>, at: real): real
    requires 0.0 <= at < |ring| as real
  {
    var i := at.Floor;
    if i == |ring| - 1 then ring[i]
    else
      var t := at - i as real;
      Scale(ring[i], 1.0 - t) + Scale(ring[i + 1], t)
  }

  /** The read head one sample on. */
  function NextReading(writing: real, d: int, cv: real): real {
    var r := writing + 1.0 + Scale(cv, d as real);
    var e := if r < 0.0 then d as real + r else r;
    if d > 0 then (if e >= d as real then e - d as real else e) else 0.0
  }

  function NextWriting(writing: real, d: int): real {
    var w := writing + 1.0;
    var e := if w < 0.0 then d as real + w else w;
    if d > 0 then (if e >= d as real then e - d as real else e) else 0.0
  }

  predicate Fits(s: Settings, t: State) { s.rate > 0 && |t.ring| == s.rate }

  /** One sample: read, then write, then move. Every cell used is inside the ring, whatever
      the control voltages. */
  function Step(s: Settings, t: State, x: Sample): (r: (State, real))
    requires Fits(s, t)
    ensures Fits(s, r.0)
  {
    var d := Steps(s, x.delayCv);
    var reading, writing := ClampHead(t.reading, s.rate), ClampHead(t.writing, s.rate);
    var y := Read(t.ring, reading) + Scale(s.mix, x.signal);
    (State(NextReading(writing, d, x.headCv), NextWriting(writing, d), t.ring[writing.Floor := x.signal]), y)
  }

  function After(s: Settings, t: State, xs: seq<Sample>): (r: State)
    requires Fits(s, t)
    ensures Fits(s, r)
  {
    if xs == [] then t else Step(s, After(s, t, xs[..|xs| - 1]), xs[|xs| - 1]).0
  }

  function Heard(s: Settings, t: State, xs: seq<Sample>, n: nat): real
    requires Fits(s, t) && n < |xs|
  {
    Step(s, After(s, t, xs[..n]), xs[n]).1
  }

  /** A buffer of the device. */
  function Output(s: Settings, t: State, xs: seq<Sample>): (out: seq<real>)
    requires Fits(s, t)
    ensures |out| == |xs|
  {
    if xs == [] then [] else Output(s, t, xs[..|xs| - 1]) + [Heard(s, t, xs, |xs| - 1)]
  }

  lemma OutputOne(s: Settings, t: State, xs: seq<Sample>, n: nat)
    requires Fits(s, t) && n < |xs|
    ensures var (now, y) := Step(s, After(s, t, xs[..n]), xs[n]);
            After(s, t, xs[..n + 1]) == now && Output(s, t, xs[..n + 1]) == Output(s, t, xs[..n]) + [y]
  {
    assert xs[..n + 1][..n] == xs[..n];
  }

  lemma {:induction false} OutputAt(s: Settings, t: State, xs: seq<Sample>, n: nat)
    requires Fits(s, t) && n < |xs|
    ensures Output(s, t, xs)[n] == Heard(s, t, xs, n)
    decreases |xs|
  {
    if n < |xs| - 1 {
      OutputAt(s, t, xs[..|xs| - 1], n);
      assert xs[..|xs| - 1][..n] == xs[..n];
    }
  }

  // ------------------------------------------------ with the control inputs at zero

  predicate Unmoved(xs: seq<Sample>) { forall i :: 0 <= i < |xs| ==> xs[i].delayCv == 0.0 && xs[i].headCv == 0.0 }

  /** The input at a time; silence before the start. */
  function Input(xs: seq<Sample>, n: int): real { if 0 <= n < |xs| then xs[n].signal else 0.0 }

  /** The number of cells the heads go round. */
  function Around(s: Settings): (d: nat)
    requires s.rate > 0
    ensures 0 < d <= s.rate
  {
    if Steps(s, 0.0) > 1 then Steps(s, 0.0) else 1
  }

  /** Both heads are on cell k, the k-th of a turn that began at base; the cells behind hold
      this turn's input, those ahead the turn's before. */
  ghost predicate Turning(t: State, xs: seq<Sample>, d: nat, n: nat, base: int, k: nat) {
    && t.reading == t.writing == k as real && base + k == n && k < d <= |t.ring|
    && (forall j :: 0 <= j < k ==> t.ring[j] == Input(xs, base + j))
    && (forall j :: k <= j < d ==> t.ring[j] == Input(xs, base - d + j))
  }

  lemma ReadCell(ring: seq<real>, k: nat)
    requires k < |ring|
    ensures Read(ring, k as real) == ring[k]
  {
    assert (k as real).Floor == k;
  }

  /** With no control voltage both heads step to the next cell of the turn. */
  lemma HeadsStep(s: Settings, k: nat)
    requires s.rate > 0 && k < Around(s)
    ensures var d, next := Steps(s, 0.0), if k + 1 == Around(s) then 0 else k + 1;
            NextReading(k as real, d, 0.0) == NextWriting(k as real, d) == next as real
  {
  }

  lemma TurnCells(ring: seq<real>, xs: seq<Sample>, d: nat, base: int, k: nat) returns (base': int, k': nat)
    requires k < d <= |ring| && 0 <= base + k < |xs|
    requires forall j :: 0 <= j < k ==> ring[j] == Input(xs, base + j)
    requires forall j :: k <= j < d ==> ring[j] == Input(xs, base - d + j)
    ensures var next := ring[k := xs[base + k].signal];
            && base' + k' == base + k + 1 && k' < d && k' == (if k + 1 == d then 0 else k + 1)
            && (forall j :: 0 <= j < k' ==> next[j] == Input(xs, base' + j))
            && (forall j :: k' <= j < d ==> next[j] == Input(xs, base' - d + j))
  {
    base', k' := if k + 1 == d then base + d else base, if k + 1 == d then 0 else k + 1;
  }

  lemma TurnStep(s: Settings, t: State, xs: seq<Sample>, n: nat, base: int, k: nat) returns (base': int, k': nat)
    requires Fits(s, t) && n < |xs| && xs[n].delayCv == 0.0 && xs[n].headCv == 0.0
    requires Turning(t, xs, Around(s), n, base, k)
    ensures var (t', y) := Step(s, t, xs[n]);
            && Turning(t', xs, Around(s), n + 1, base', k')
            && y == Input(xs, n - Around(s)) + Scale(s.mix, xs[n].signal)
  {
    ReadCell(t.ring, k);
    HeadsStep(s, k);
    base', k' := TurnCells(t.ring, xs, Around(s), base, k);
  }

  lemma TurnNext(s: Settings, xs: seq<Sample>, n: nat, base: int, k: nat) returns (base': int, k': nat)
    requires s.rate > 0 && n < |xs| && xs[n].delayCv == 0.0 && xs[n].headCv == 0.0
    requires Turning(After(s, Reset(s.rate), xs[..n]), xs, Around(s), n, base, k)
    ensures Turning(After(s, Reset(s.rate), xs[..n + 1]), xs, Around(s), n + 1, base', k')
    ensures Heard(s, Reset(s.rate), xs, n) == Input(xs, n - Around(s)) + Scale(s.mix, xs[n].signal)
  {
    OutputOne(s, Reset(s.rate), xs, n);
    base', k' := TurnStep(s, After(s, Reset(s.rate), xs[..n]), xs, n, base, k);
  }

  lemma {:induction false} TurnAt(s: Settings, xs: seq<Sample>, n: nat) returns (base: int, k: nat)
    requires s.rate > 0 && Unmoved(xs) && n <= |xs|
    ensures Turning(After(s, Reset(s.rate), xs[..n]), xs, Around(s), n, base, k)
  {
    if n == 0 {
      base, k := 0, 0;
    } else {
      base, k := TurnAt(s, xs, n - 1);
      base, k := TurnNext(s, xs, n - 1, base, k);
    }
  }

  /** The lag of a delay of so many samples: the samples it holds whole, one at least, and
      at most one less than the ring has cells. */
  predicate LagOf(p: int, samples: real, rate: nat) {
    && 1 <= p
    && (samples < 2.0 ==> p == 1)
    && (2.0 <= samples < rate as real ==> p as real <= samples < p as real + 1.0)
    && (samples >= rate as real ==> p == if rate > 1 then rate - 1 else 1)
  }

  lemma LagIs(s: Settings, p: int)
    requires s.rate > 0
    ensures LagOf(p, s.delay * s.rate as real, s.rate) <==> p == Around(s)
  {
    var samples := s.delay * s.rate as real;
    assert s.delay + 0.0 * 0.5 == s.delay;
    assert Scale(s.delay + 0.0 * 0.5, s.rate as real) == samples;
    WholeOf(samples, s.rate, p);
  }

  lemma WholeOf(samples: real, rate: nat, p: int)
    requires rate > 0
    ensures var d := Trunc(samples); var e := if d as real >= rate as real then rate - 1 else d;
            var f := if e < 0 then 0 else e;
            LagOf(p, samples, rate) <==> p == (if f > 1 then f else 1)
  {
  }

  lemma DelayAround(s: Settings, xs: seq<Sample>, p: int, n: nat)
    requires s.rate > 0 && Unmoved(xs) && n < |xs| && p == Around(s)
    ensures Heard(s, Reset(s.rate), xs, n) == Input(xs, n - p) + Scale(s.mix, xs[n].signal)
  {
    var base, k := TurnAt(s, xs, n);
    base, k := TurnNext(s, xs, n, base, k);
  }

  /** With no control voltages, from a reset, at every time: the input of so many samples
      ago, and the mix of the input of now. A delay of none counts as one. */
  lemma DelayEquation(s: Settings, xs: seq<Sample>, p: int, n: nat)
    requires s.rate > 0 && Unmoved(xs) && n < |xs| && LagOf(p, s.delay * s.rate as real, s.rate)
    ensures Heard(s, Reset(s.rate), xs, n) == (if n >= p then xs[n - p].signal else 0.0) + s.mix * xs[n].signal
  {
    LagIs(s, p);
    DelayAround(s, xs, p, n);
    assert Scale(s.mix, xs[n].signal) == s.mix * xs[n].signal;
  }

  /** Between two cells the ring is read on the line from one to the next. */
  lemma ReadBetween(ring: seq<real>, k: nat, t: real)
    requires k + 1 < |ring| && 0.0 <= t < 1.0
    ensures Read(ring, k as real + t) == ring[k] + t * (ring[k + 1] - ring[k])
  {
    assert (k as real + t).Floor == k;
  }

  /** A control voltage moves the read head by that part of the delay, round the ring. */
  lemma HeadMoves(writing: real, d: nat, cv: real)
    requires d > 0 && -(d as real) <= writing + 1.0 + cv * d as real < 2.0 * d as real
    ensures var r, x := NextReading(writing, d, cv), writing + 1.0 + cv * d as real;
            0.0 <= r < d as real && (r == x - d as real || r == x || r == x + d as real)
  {
    MovedRound(writing + 1.0 + cv * d as real, d as real);
    assert Scale(cv, d as real) == cv * d as real;
  }

  lemma MovedRound(x: real, d: real)
    requires d > 0.0 && -d <= x < 2.0 * d
    ensures var e := if x < 0.0 then d + x else x; var r := if e >= d then e - d else e;
            0.0 <= r < d && (r == x - d || r == x || r == x + d)
  {
  }

  // ---------------------------------------------------------------- the device

  class DelayPlugin {
    const rate: nat
    var delay: real
    var mix: real
    var readHeadPos: real
    var writeHeadPos: real
    const buffer: array<real>

    ghost predicate Valid() { buffer.Length == rate > 0 }

    ghost function View(): State
      reads this, buffer
    {
      State(readHeadPos, writeHeadPos, buffer[..])
    }

    ghost function Knobs(): Settings
      reads this
    {
      Settings(delay, mix, rate)
    }

    constructor (rate: nat)
      requires rate > 0
      ensures Valid() && View() == Reset(rate) && Knobs() == Settings(0.75, 0.4, rate) && fresh(buffer)
    {
      this.rate, delay, mix := rate, 0.75, 0.4;
      readHeadPos, writeHeadPos := 0.0, 0.0;
      buffer := new real[rate](_ => 0.0);
      new;
      assert buffer[..] == Zeros(rate);
    }

    method FindSteps(cv: real) returns (d: int)
      requires Valid()
      ensures d == Steps(Knobs(), cv)
    {
      d := Trunc((delay + cv * 0.5) * rate as real);
      if d as real >= rate as real {
        d := rate - 1;
      }
      if d < 0 {
        d := 0;
      }
    }

    method ClampHeads()
      requires Valid()
      modifies this`readHeadPos, this`writeHeadPos
      ensures readHeadPos == ClampHead(old(readHeadPos), rate) && writeHeadPos == ClampHead(old(writeHeadPos), rate)
    {
      if readHeadPos >= rate as real { readHeadPos := rate as real - 1.0; }
      if readHeadPos < 0.0 { readHeadPos := 0.0; }
      if writeHeadPos >= rate as real { writeHeadPos := rate as real - 1.0; }
      if writeHeadPos < 0.0 { writeHeadPos := 0.0; }
    }

    method MoveHeads(d: int, cv: real)
      modifies this`readHeadPos, this`writeHeadPos
      ensures readHeadPos == NextReading(old(writeHeadPos), d, cv) && writeHeadPos == NextWriting(old(writeHeadPos), d)
    {
      writeHeadPos := writeHeadPos + 1.0;
      readHeadPos := writeHeadPos + Scale(cv, d as real);
      if readHeadPos < 0.0 { readHeadPos := d as real + readHeadPos; }
      if writeHeadPos < 0.0 { writeHeadPos := d as real + writeHeadPos; }
      if d > 0 {
        if readHeadPos >= d as real { readHeadPos := readHeadPos - d as real; }
        if writeHeadPos >= d as real { writeHeadPos := writeHeadPos - d as real; }
      } else {
        readHeadPos := 0.0;
        writeHeadPos := 0.0;
      }
    }

    method Tick(x: Sample) returns (y: real)
      requires Valid()
      modifies this`readHeadPos, this`writeHeadPos, buffer
      ensures Knobs() == old(Knobs())
      ensures View() == Step(Knobs(), old(View()), x).0 && y == Step(Knobs(), old(View()), x).1
    {
      var d := FindSteps(x.delayCv);
      ClampHeads();
      y := Read(buffer[..], readHeadPos) + Scale(mix, x.signal);
      buffer[writeHeadPos.Floor] := x.signal;
      MoveHeads(d, x.headCv);
    }

    method Execute(xs: seq<Sample>) returns (out: seq<real>)
      requires Valid()
      modifies this`readHeadPos, this`writeHeadPos, buffer
      ensures Knobs() == old(Knobs())
      ensures View() == After(Knobs(), old(View()), xs) && out == Output(Knobs(), old(View()), xs)
    {
      out := [];
      ghost var s, t := Knobs(), View();
      ghost var now := t;
      var n := 0;
      while n < |xs|
        invariant n <= |xs| && Knobs() == s && View() == now
        invariant now == After(s, t, xs[..n]) && out == Output(s, t, xs[..n])
      {
        OutputOne(s, t, xs, n);
        var y := Tick(xs[n]);
        now := Step(s, now, xs[n]).0;
        out := out + [y];
        n := n + 1;
      }
      assert xs[..|xs|] == xs;
    }
  }
}
