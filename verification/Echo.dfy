/**
 The echo: two rings rewritten in place, a head that goes round them, and a swap at the
 start of every round when the echo bounces. Over the reals.
 */
module Echo {
  import opened Wrappers

  datatype Settings = Settings(delay: real, feedback: real, bounce: bool, rate: nat)

  /** One sample of the three inputs. */
  datatype Sample = Sample(signal: real, delayCv: real, feedbackCv: real)

  /** `front` is the ring written and heard on the left, `back` the other. */
  datatype State = State(head: int, front: seq<real>, back: seq<real>)

  function Reset(rate: nat): State { State(0, Zeros(rate), Zeros(rate)) }

  function Samples(seconds: real, rate: nat): real { seconds * rate as real }

  /** The delay in samples, clamped to the ring. */
  function Reach(s: Settings, cv: real): real {
    var d := Samples(s.delay + cv * 0.5, s.rate) - 1.0;
    var e := if d >= s.rate as real then s.rate as real - 1.0 else d;
    if e < 0.0 then 0.0 else e
  }

  function Wrapped(s: Settings, t: State, cv: real): int { if t.head as real > Reach(s, cv) then 0 else t.head }

  function Echoed(x: real, f: real): real { x * f }

  predicate Fits(s: Settings, t: State) { s.rate > 0 && |t.front| == |t.back| == s.rate && 0 <= t.head <= s.rate }

  /** Under any control voltages the head used is inside the rings. */
  lemma HeadInRange(s: Settings, t: State, cv: real)
    requires Fits(s, t)
    ensures 0 <= Wrapped(s, t, cv) < s.rate
  {
  }

  /** One sample: the new state, and what is heard left and right. */
  function Step(s: Settings, t: State, x: Sample): (r: (State, real, real))
    requires Fits(s, t)
    ensures Fits(s, r.0)
  {
    HeadInRange(s, t, x.delayCv);
    var h := Wrapped(s, t, x.delayCv);
    var swap := s.bounce && h == 0;
    var front, back := if swap then t.back else t.front, if swap then t.front else t.back;
    var y := x.signal + Echoed(front[h], s.feedback + x.feedbackCv);
    var newBack := if s.bounce then back else back[h := 0.0];
    (State(h + 1, front[h := y], newBack), y, newBack[h])
  }

  function After(s: Settings, t: State, xs: seq<Sample>): (r: State)
    requires Fits(s, t)
    ensures Fits(s, r)
  {
    if xs == [] then t else Step(s, After(s, t, xs[..|xs| - 1]), xs[|xs| - 1]).0
  }

  /** What is heard at time n of a stream. */
  function Heard(s: Settings, t: State, xs: seq<Sample>, n: nat): (r: (real, real))
    requires Fits(s, t) && n < |xs|
  {
    var (_, left, right) := Step(s, After(s, t, xs[..n]), xs[n]);
    (left, right)
  }

  // --------------------------------------------------- with the settings held

  /** Every sample has these control voltages. */
  predicate Held(xs: seq<Sample>, delayCv: real, feedbackCv: real) {
    forall i :: 0 <= i < |xs| ==> xs[i].delayCv == delayCv && xs[i].feedbackCv == feedbackCv
  }

  /** The recursion an echo of this lag should satisfy; nothing before the start. */
  function Echoes(xs: seq<Sample>, f: real, lag: nat, n: int): real
    requires lag > 0 && n < |xs|
    decreases n
  {
    if n < 0 then 0.0 else xs[n].signal + Echoed(Echoes(xs, f, lag, n - lag), f)
  }

  /** Length of a round: the head wraps when it has passed the delay. */
  function Round(s: Settings, cv: real): (p: nat)
    requires s.rate > 0
    ensures 0 < p <= s.rate
  {
    Reach(s, cv).Floor + 1
  }

  /** The front ring in mid-round: k cells of this round, the rest from the last time this
      ring was written. `base` is when the round began. */
  ghost predicate FrontIs(xs: seq<Sample>, f: real, lag: nat, p: nat, base: int, k: nat, front: seq<real>)
    requires lag >= p > 0 && base + k <= |xs|
  {
    && k <= p <= |front|
    && (forall j :: 0 <= j < k ==> front[j] == Echoes(xs, f, lag, base + j))
    && (forall j :: k <= j < p ==> front[j] == Echoes(xs, f, lag, base - lag + j))
  }

  /** The back ring of a bouncing echo: all of the round before. */
  ghost predicate BackIs(xs: seq<Sample>, f: real, p: nat, base: int, back: seq<real>)
    requires p > 0 && base <= |xs|
  {
    p <= |back| && forall j :: 0 <= j < p ==> back[j] == Echoes(xs, f, 2 * p, base - p + j)
  }

  /** Where a held echo stands before sample n, in the k-th sample of the round at base. */
  ghost predicate Plain(s: Settings, t: State, xs: seq<Sample>, f: real, p: nat, n: nat, base: int, k: nat)
    requires p > 0 && n <= |xs|
  {
    t.head == k && base + k == n && FrontIs(xs, f, p, p, base, k, t.front)
  }

  ghost predicate Bouncing(s: Settings, t: State, xs: seq<Sample>, f: real, p: nat, n: nat, base: int, k: nat)
    requires p > 0 && n <= |xs|
  {
    && t.head == k && base + k == n
    && FrontIs(xs, f, 2 * p, p, base, k, t.front) && BackIs(xs, f, p, base, t.back)
  }

  /** The next cell of a round, written. */
  lemma FrontWritten(xs: seq<Sample>, f: real, lag: nat, p: nat, base: int, k: nat, front: seq<real>)
    requires lag >= p > k && 0 <= base + k < |xs| && FrontIs(xs, f, lag, p, base, k, front)
    ensures var y := xs[base + k].signal + Echoed(front[k], f);
            y == Echoes(xs, f, lag, base + k) && FrontIs(xs, f, lag, p, base, k + 1, front[k := y])
  {
  }

  /** A finished round is the one before of the next. */
  lemma RoundEnds(xs: seq<Sample>, f: real, p: nat, base: int, front: seq<real>)
    requires p > 0 && base + p <= |xs| && FrontIs(xs, f, p, p, base, p, front)
    ensures FrontIs(xs, f, p, p, base + p, 0, front)
  {
  }

  lemma WrapsAtRound(s: Settings, t: State, cv: real)
    requires s.rate > 0
    ensures Wrapped(s, t, cv) == if t.head >= Round(s, cv) then 0 else t.head
  {
  }

  lemma PlainStep(s: Settings, t: State, xs: seq<Sample>, cv: real, f: real, n: nat, base: int, k: nat)
    returns (base': int, k': nat)
    requires Fits(s, t) && !s.bounce && n < |xs| && xs[n].delayCv == cv && f == s.feedback + xs[n].feedbackCv
    requires Plain(s, t, xs, f, Round(s, cv), n, base, k)
    ensures var (t', left, right) := Step(s, t, xs[n]);
            && Plain(s, t', xs, f, Round(s, cv), n + 1, base', k')
            && left == Echoes(xs, f, Round(s, cv), n) && right == 0.0
  {
    var p := Round(s, cv);
    WrapsAtRound(s, t, cv);
    if k == p {
      RoundEnds(xs, f, p, base, t.front);
      FrontWritten(xs, f, p, p, base + p, 0, t.front);
      base', k' := base + p, 1;
    } else {
      FrontWritten(xs, f, p, p, base, k, t.front);
      base', k' := base, k + 1;
    }
  }

  /** At the start of a round the rings change places. */
  lemma RoundTurns(xs: seq<Sample>, f: real, p: nat, base: int, front: seq<real>, back: seq<real>)
    requires p > 0 && 0 <= base && base + p <= |xs|
    requires FrontIs(xs, f, 2 * p, p, base, p, front) && BackIs(xs, f, p, base, back) && |front| == |back|
    ensures FrontIs(xs, f, 2 * p, p, base + p, 0, back) && BackIs(xs, f, p, base + p, front)
  {
  }

  /** Before the first sample both rings are silent, and changing them changes nothing. */
  lemma StartTurns(xs: seq<Sample>, f: real, p: nat, front: seq<real>, back: seq<real>)
    requires p > 0 && FrontIs(xs, f, 2 * p, p, 0, 0, front) && BackIs(xs, f, p, 0, back)
    ensures FrontIs(xs, f, 2 * p, p, 0, 0, back) && BackIs(xs, f, p, 0, front)
  {
  }

  lemma BouncingStep(s: Settings, t: State, xs: seq<Sample>, cv: real, f: real, n: nat, base: int, k: nat)
    returns (base': int, k': nat)
    requires Fits(s, t) && s.bounce && n < |xs| && xs[n].delayCv == cv && f == s.feedback + xs[n].feedbackCv
    requires base >= 0 && (k == 0 ==> base == 0)
    requires Bouncing(s, t, xs, f, Round(s, cv), n, base, k)
    ensures var p := Round(s, cv);
            var (t', left, right) := Step(s, t, xs[n]);
            && base' >= 0 && k' > 0 && Bouncing(s, t', xs, f, p, n + 1, base', k')
            && left == Echoes(xs, f, 2 * p, n) && right == Echoes(xs, f, 2 * p, n - p)
  {
    var p := Round(s, cv);
    WrapsAtRound(s, t, cv);
    base', k' := base, k + 1;
    if k == p {
      RoundTurns(xs, f, p, base, t.front, t.back);
      FrontWritten(xs, f, 2 * p, p, base + p, 0, t.back);
      base', k' := base + p, 1;
    } else if k == 0 {
      StartTurns(xs, f, p, t.front, t.back);
      FrontWritten(xs, f, 2 * p, p, 0, 0, t.back);
    } else {
      FrontWritten(xs, f, 2 * p, p, base, k, t.front);
    }
  }

  lemma AfterOne(s: Settings, t: State, xs: seq<Sample>, n: nat)
    requires Fits(s, t) && n < |xs|
    ensures After(s, t, xs[..n + 1]) == Step(s, After(s, t, xs[..n]), xs[n]).0
  {
    assert xs[..n + 1][..n] == xs[..n];
  }

  lemma SilentStart(s: Settings, xs: seq<Sample>, f: real, lag: nat, p: nat)
    requires 0 < p <= lag && p <= s.rate
    ensures FrontIs(xs, f, lag, p, 0, 0, Zeros(s.rate)) && BackIs(xs, f, p, 0, Zeros(s.rate))
  {
  }

  lemma PlainNext(s: Settings, xs: seq<Sample>, cv: real, f: real, n: nat, base: int, k: nat)
    returns (base': int, k': nat)
    requires s.rate > 0 && !s.bounce && n < |xs| && xs[n].delayCv == cv && f == s.feedback + xs[n].feedbackCv
    requires Plain(s, After(s, Reset(s.rate), xs[..n]), xs, f, Round(s, cv), n, base, k)
    ensures Plain(s, After(s, Reset(s.rate), xs[..n + 1]), xs, f, Round(s, cv), n + 1, base', k')
  {
    AfterOne(s, Reset(s.rate), xs, n);
    base', k' := PlainStep(s, After(s, Reset(s.rate), xs[..n]), xs, cv, f, n, base, k);
  }

  lemma PlainStart(s: Settings, xs: seq<Sample>, cv: real, f: real)
    requires s.rate > 0 && !s.bounce
    ensures Plain(s, After(s, Reset(s.rate), xs[..0]), xs, f, Round(s, cv), 0, 0, 0)
  {
    SilentStart(s, xs, f, Round(s, cv), Round(s, cv));
  }

  lemma {:induction false} PlainAt(s: Settings, xs: seq<Sample>, cv: real, fcv: real, n: nat)
    returns (base: int, k: nat)
    requires s.rate > 0 && !s.bounce && Held(xs, cv, fcv) && n <= |xs|
    ensures Plain(s, After(s, Reset(s.rate), xs[..n]), xs, s.feedback + fcv, Round(s, cv), n, base, k)
  {
    if n == 0 {
      base, k := 0, 0;
      PlainStart(s, xs, cv, s.feedback + fcv);
    } else {
      base, k := PlainAt(s, xs, cv, fcv, n - 1);
      base, k := PlainNext(s, xs, cv, s.feedback + fcv, n - 1, base, k);
    }
  }

  lemma BouncingNext(s: Settings, xs: seq<Sample>, cv: real, f: real, n: nat, base: int, k: nat)
    returns (base': int, k': nat)
    requires s.rate > 0 && s.bounce && n < |xs| && xs[n].delayCv == cv && f == s.feedback + xs[n].feedbackCv
    requires base >= 0 && (k == 0 ==> base == 0)
    requires Bouncing(s, After(s, Reset(s.rate), xs[..n]), xs, f, Round(s, cv), n, base, k)
    ensures base' >= 0 && k' > 0
            && Bouncing(s, After(s, Reset(s.rate), xs[..n + 1]), xs, f, Round(s, cv), n + 1, base', k')
  {
    AfterOne(s, Reset(s.rate), xs, n);
    base', k' := BouncingStep(s, After(s, Reset(s.rate), xs[..n]), xs, cv, f, n, base, k);
  }

  lemma BouncingStart(s: Settings, xs: seq<Sample>, cv: real, f: real)
    requires s.rate > 0 && s.bounce
    ensures Bouncing(s, After(s, Reset(s.rate), xs[..0]), xs, f, Round(s, cv), 0, 0, 0)
  {
    SilentStart(s, xs, f, 2 * Round(s, cv), Round(s, cv));
  }

  lemma {:induction false} BouncingAt(s: Settings, xs: seq<Sample>, cv: real, fcv: real, n: nat)
    returns (base: int, k: nat)
    requires s.rate > 0 && s.bounce && Held(xs, cv, fcv) && n <= |xs|
    ensures base >= 0 && (k == 0 ==> base == 0)
    ensures Bouncing(s, After(s, Reset(s.rate), xs[..n]), xs, s.feedback + fcv, Round(s, cv), n, base, k)
  {
    if n == 0 {
      base, k := 0, 0;
      BouncingStart(s, xs, cv, s.feedback + fcv);
    } else {
      base, k := BouncingAt(s, xs, cv, fcv, n - 1);
      var f := s.feedback + fcv;
      assert xs[n - 1].delayCv == cv && f == s.feedback + xs[n - 1].feedbackCv;
      base, k := BouncingNext(s, xs, cv, f, n - 1, base, k);
    }
  }

  /** What is heard on the left at time n, and silence before the start. */
  function Left(s: Settings, xs: seq<Sample>, n: int): real
    requires s.rate > 0 && n < |xs|
  {
    if n < 0 then 0.0 else Heard(s, Reset(s.rate), xs, n).0
  }

  function Right(s: Settings, xs: seq<Sample>, n: nat): real
    requires s.rate > 0 && n < |xs|
  {
    Heard(s, Reset(s.rate), xs, n).1
  }

  lemma HeardPlain(s: Settings, xs: seq<Sample>, cv: real, fcv: real, n: int)
    requires s.rate > 0 && !s.bounce && Held(xs, cv, fcv) && n < |xs|
    ensures Left(s, xs, n) == Echoes(xs, s.feedback + fcv, Round(s, cv), n)
    ensures n >= 0 ==> Right(s, xs, n) == 0.0
  {
    if n >= 0 {
      var base, k := PlainAt(s, xs, cv, fcv, n);
      base, k := PlainStep(s, After(s, Reset(s.rate), xs[..n]), xs, cv, s.feedback + fcv, n, base, k);
    }
  }

  lemma HeardBouncing(s: Settings, xs: seq<Sample>, cv: real, fcv: real, n: int)
    requires s.rate > 0 && s.bounce && Held(xs, cv, fcv) && n < |xs|
    ensures Left(s, xs, n) == Echoes(xs, s.feedback + fcv, 2 * Round(s, cv), n)
    ensures n >= 0 ==> Right(s, xs, n) == Echoes(xs, s.feedback + fcv, 2 * Round(s, cv), n - Round(s, cv))
  {
    if n >= 0 {
      var base, k := BouncingAt(s, xs, cv, fcv, n);
      base, k := BouncingStep(s, After(s, Reset(s.rate), xs[..n]), xs, cv, s.feedback + fcv, n, base, k);
    }
  }

  /** The round of an echo of so many samples: the samples it holds whole, one at least, and
      at most as many as the ring has cells. */
  predicate RoundOf(p: int, samples: real, rate: nat) {
    && 1 <= p <= rate
    && (samples < 1.0 ==> p == 1)
    && (1.0 <= samples <= rate as real ==> p as real <= samples < p as real + 1.0)
    && (samples > rate as real ==> p == rate)
  }

  lemma RoundIs(s: Settings, cv: real, p: int)
    requires s.rate > 0
    ensures RoundOf(p, (s.delay + cv * 0.5) * s.rate as real, s.rate) <==> p == Round(s, cv)
  {
    var samples := (s.delay + cv * 0.5) * s.rate as real;
    assert Samples(s.delay + cv * 0.5, s.rate) == samples;
    WholeOf(samples, s.rate, p);
  }

  lemma WholeOf(samples: real, rate: nat, p: int)
    requires rate > 0
    ensures var d := samples - 1.0; var e := if d >= rate as real then rate as real - 1.0 else d;
            RoundOf(p, samples, rate) <==> p == (if e < 0.0 then 0.0 else e).Floor + 1
  {
  }

  lemma FedBack(x: real, f: real)
    ensures Echoed(x, f) == x * f
  {
  }

  lemma PlainLeft(s: Settings, xs: seq<Sample>, cv: real, fcv: real, p: int, n: nat)
    requires s.rate > 0 && !s.bounce && Held(xs, cv, fcv) && n < |xs| && p == Round(s, cv)
    ensures Left(s, xs, n) == xs[n].signal + Echoed(Left(s, xs, n - p), s.feedback + fcv)
    ensures Right(s, xs, n) == 0.0
  {
    HeardPlain(s, xs, cv, fcv, n);
    HeardPlain(s, xs, cv, fcv, n - p);
  }

  /** A held echo without bounce, at every time: the left is the input and what the left was
      one round ago, fed back; the right is silent. */
  lemma EchoEquation(s: Settings, xs: seq<Sample>, cv: real, fcv: real, p: int, n: nat)
    requires s.rate > 0 && !s.bounce && Held(xs, cv, fcv) && n < |xs|
    requires RoundOf(p, (s.delay + cv * 0.5) * s.rate as real, s.rate)
    ensures Left(s, xs, n) == xs[n].signal + Left(s, xs, n - p) * (s.feedback + fcv)
    ensures Right(s, xs, n) == 0.0
  {
    RoundIs(s, cv, p);
    PlainLeft(s, xs, cv, fcv, p, n);
    FedBack(Left(s, xs, n - p), s.feedback + fcv);
  }

  lemma BounceLeft(s: Settings, xs: seq<Sample>, cv: real, fcv: real, p: int, n: nat)
    requires s.rate > 0 && s.bounce && Held(xs, cv, fcv) && n < |xs| && p == Round(s, cv)
    ensures Left(s, xs, n) == xs[n].signal + Echoed(Left(s, xs, n - 2 * p), s.feedback + fcv)
  {
    HeardBouncing(s, xs, cv, fcv, n);
    HeardBouncing(s, xs, cv, fcv, n - 2 * p);
  }

  /** A held echo that bounces: the left takes what it was two rounds ago, and the right
      gives what the left was one round ago. */
  lemma BounceEquation(s: Settings, xs: seq<Sample>, cv: real, fcv: real, p: int, n: nat)
    requires s.rate > 0 && s.bounce && Held(xs, cv, fcv) && n < |xs|
    requires RoundOf(p, (s.delay + cv * 0.5) * s.rate as real, s.rate)
    ensures Left(s, xs, n) == xs[n].signal + Left(s, xs, n - 2 * p) * (s.feedback + fcv)
    ensures Right(s, xs, n) == Left(s, xs, n - p)
  {
    RoundIs(s, cv, p);
    BounceLeft(s, xs, cv, fcv, p, n);
    FedBack(Left(s, xs, n - 2 * p), s.feedback + fcv);
    HeardBouncing(s, xs, cv, fcv, n);
    HeardBouncing(s, xs, cv, fcv, n - p);
  }

  // ---------------------------------------------------------- the device

  class EchoPlugin {
    const rate: nat
    var delay: real
    var feedback: real
    var bounce: bool
    var headPos: int
    var buf0: int
    var buf1: int
    const buffers: seq<array<real>>

    ghost predicate Valid()
      reads this
    {
      && |buffers| == 2 && buffers[0] != buffers[1] && buffers[0].Length == buffers[1].Length == rate
      && rate > 0 && 0 <= headPos <= rate && 0 <= buf0 < 2 && buf1 == 1 - buf0
    }

    ghost function View(): State
      requires Valid()
      reads this, buffers
    {
      State(headPos, buffers[buf0][..], buffers[buf1][..])
    }

    ghost function Knobs(): Settings
      reads this
    {
      Settings(delay, feedback, bounce, rate)
    }

    constructor (rate: nat)
      requires rate > 0
      ensures Valid() && View() == Reset(rate) && Knobs() == Settings(0.75, 0.4, false, rate) && fresh(buffers)
    {
      this.rate, delay, feedback, bounce := rate, 0.75, 0.4, false;
      headPos, buf0, buf1 := 0, 0, 1;
      var a := new real[rate](_ => 0.0);
      var b := new real[rate](_ => 0.0);
      buffers := [a, b];
      new;
      assert a[..] == Zeros(rate) && b[..] == Zeros(rate);
    }

    /** The delay in samples, clamped to the buffers. */
    method FindDelay(cv: real) returns (d: real)
      ensures d == Reach(Knobs(), cv)
    {
      d := Samples(delay + cv * 0.5, rate) - 1.0;
      if d >= rate as real {
        d := rate as real - 1.0;
      }
      if d < 0.0 {
        d := 0.0;
      }
    }

    /** Wrap the head, and turn the buffers round at the start of a bouncing round. */
    method Place(cv: real)
      requires Valid()
      modifies this`headPos, this`buf0, this`buf1
      ensures Valid() && headPos == Wrapped(Knobs(), old(View()), cv) && headPos < rate
      ensures if bounce && headPos == 0 then buf0 == old(buf1) && buf1 == old(buf0)
              else buf0 == old(buf0) && buf1 == old(buf1)
    {
      HeadInRange(Knobs(), View(), cv);
      var d := FindDelay(cv);
      if headPos as real > d {
        headPos := 0;
      }
      if bounce && headPos == 0 {
        var c := buf0;
        buf0 := buf1;
        buf1 := c;
      }
    }

    /** Write and hear the placed head. */
    method WriteAndHear(x: Sample) returns (left: real, right: real)
      requires Valid() && headPos < rate
      modifies buffers
      ensures Valid()
      ensures left == x.signal + Echoed(old(buffers[buf0][headPos]), feedback + x.feedbackCv)
      ensures buffers[buf0][..] == old(buffers[buf0][..])[headPos := left]
      ensures buffers[buf1][..] == if bounce then old(buffers[buf1][..]) else old(buffers[buf1][..])[headPos := 0.0]
      ensures right == buffers[buf1][headPos]
    {
      buffers[buf0][headPos] := x.signal + buffers[buf0][headPos] * (feedback + x.feedbackCv);
      if !bounce {
        buffers[buf1][headPos] := 0.0;
      }
      left, right := buffers[buf0][headPos], buffers[buf1][headPos];
    }

    method Tick(x: Sample) returns (left: real, right: real)
      requires Valid()
      modifies this`headPos, this`buf0, this`buf1, buffers
      ensures Valid() && Knobs() == old(Knobs())
      ensures View() == Step(Knobs(), old(View()), x).0
      ensures left == Step(Knobs(), old(View()), x).1 && right == Step(Knobs(), old(View()), x).2
    {
      ghost var s, t := Knobs(), View();
      Place(x.delayCv);
      ghost var front, back := buffers[buf0][..], buffers[buf1][..];
      assert (front, back) == if s.bounce && headPos == 0 then (t.back, t.front) else (t.front, t.back);
      left, right := WriteAndHear(x);
      assert left == x.signal + Echoed(front[headPos], s.feedback + x.feedbackCv);
      headPos := headPos + 1;
    }

    method Execute(xs: seq<Sample>) returns (out: seq<(real, real)>)
      requires Valid()
      modifies this`headPos, this`buf0, this`buf1, buffers
      ensures Valid() && Knobs() == old(Knobs())
      ensures View() == After(Knobs(), old(View()), xs) && out == Output(Knobs(), old(View()), xs)
    {
      out := [];
      ghost var s, t := Knobs(), View();
      ghost var now := t;
      var n := 0;
      while n < |xs|
        invariant n <= |xs| && Valid() && Knobs() == s && View() == now
        invariant now == After(s, t, xs[..n]) && out == Output(s, t, xs[..n])
      {
        OutputOne(s, t, xs, n);
        var left, right := Tick(xs[n]);
        now := Step(s, now, xs[n]).0;
        out := out + [(left, right)];
        n := n + 1;
      }
      assert xs[..|xs|] == xs;
    }
  }

  /** Both channels of a buffer, left first. */
  function Output(s: Settings, t: State, xs: seq<Sample>): (out: seq<(real, real)>)
    requires Fits(s, t)
    ensures |out| == |xs|
  {
    if xs == [] then [] else Output(s, t, xs[..|xs| - 1]) + [Heard(s, t, xs, |xs| - 1)]
  }

  lemma OutputOne(s: Settings, t: State, xs: seq<Sample>, n: nat)
    requires Fits(s, t) && n < |xs|
    ensures var (now, left, right) := Step(s, After(s, t, xs[..n]), xs[n]);
            && After(s, t, xs[..n + 1]) == now
            && Output(s, t, xs[..n + 1]) == Output(s, t, xs[..n]) + [(left, right)]
  {
    assert xs[..n + 1][..n] == xs[..n];
  }

  /** A buffer gives at each place what is heard at that time. */
  lemma {:induction false} OutputAt(s: Settings, t: State, xs: seq<Sample>, n: nat)
    requires Fits(s, t) && n < |xs|
    ensures Output(s, t, xs)[n] == Heard(s, t, xs, n)
    decreases |xs|
  {
    if n < |xs| - 1 {
      OutputAt(s, t, xs[..|xs| - 1], n);
      assert xs[..|xs| - 1][..n] == xs[..n];
    }
  }
}
