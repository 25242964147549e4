/**
 The ESD client as a value: two staging buffers filled and drained piecemeal by calls that
 never block, and a clock that paces the cycles. What any schedule of them conserves.
 */
module EsdStream {
  import opened Wrappers

  /** A byte, as its value. */
  type Bytes = seq<nat>

  // ------------------------------------------------------------- sample formats

  /** The two bytes of a 16-bit sample, low byte first. */
  function Low(s: int): nat { s % 256 }

  function HighByte(s: int): nat { (s / 256) % 256 }

  function Word(low: nat, high: nat): int { if high >= 128 then low + 256 * high - 65536 else low + 256 * high }

  predicate Short(s: int) { -32768 <= s < 32768 }

  lemma WordBack(s: int)
    requires Short(s)
    ensures Word(Low(s), HighByte(s)) == s && Low(s) < 256 && HighByte(s) < 256
  {
  }

  /** Write's conversion; a sample that is not a number, here None, is silence. */
  function Encode(v: Option<real>): (s: int)
    ensures Short(s)
  {
    var x := if v.Some? then v.value else 0.0;
    var y := if x < 1.0 then x else 1.0;
    Trunc((if y > -1.0 then y else -1.0) * 32767.0)
  }

  /** Silence for what is no number, the loudest sample at and past one either way, and
      otherwise 32767 times the value with its fraction dropped. */
  lemma EncodeExact(v: Option<real>)
    ensures v.None? ==> Encode(v) == 0
    ensures v.Some? && v.value >= 1.0 ==> Encode(v) == 32767
    ensures v.Some? && v.value <= -1.0 ==> Encode(v) == -32767
    ensures v.Some? && 0.0 <= v.value < 1.0 ==> Encode(v) as real <= 32767.0 * v.value < Encode(v) as real + 1.0
    ensures v.Some? && -1.0 < v.value <= 0.0 ==> Encode(v) as real - 1.0 < 32767.0 * v.value <= Encode(v) as real
  {
  }

  function Shorts(vs: seq<Option<real>>): (ss: seq<int>)
    ensures |ss| == |vs| && forall i :: 0 <= i < |vs| ==> Short(ss[i]) && ss[i] == Encode(vs[i])
  {
    if vs == [] then [] else Shorts(vs[..|vs| - 1]) + [Encode(vs[|vs| - 1])]
  }

  function BytesOf(ss: seq<int>): (b: Bytes)
    ensures |b| == 2 * |ss|
  {
    if ss == [] then [] else BytesOf(ss[..|ss| - 1]) + [Low(ss[|ss| - 1]), HighByte(ss[|ss| - 1])]
  }

  function EncodeAll(vs: seq<Option<real>>): (b: Bytes)
    ensures |b| == 2 * |vs|
  {
    BytesOf(Shorts(vs))
  }

  /** Read's conversion. */
  function DecodeAll(b: Bytes): seq<real> {
    if |b| < 2 then [] else DecodeAll(b[..|b| - 2]) + [Word(b[|b| - 2], b[|b| - 1]) as real / 32768.0]
  }

  lemma DecodeSnoc(b: Bytes, low: nat, high: nat)
    ensures DecodeAll(b + [low, high]) == DecodeAll(b) + [Word(low, high) as real / 32768.0]
  {
    assert (b + [low, high])[..|b + [low, high]| - 2] == b;
  }

  lemma SampleReads(b: Bytes, s: int)
    requires Short(s)
    ensures DecodeAll(b + [Low(s), HighByte(s)]) == DecodeAll(b) + [s as real / 32768.0]
  {
    DecodeSnoc(b, Low(s), HighByte(s));
    WordBack(s);
  }

  function Samples(ss: seq<int>): (xs: seq<real>)
    ensures |xs| == |ss| && forall i :: 0 <= i < |ss| ==> xs[i] == ss[i] as real / 32768.0
  {
    if ss == [] then [] else Samples(ss[..|ss| - 1]) + [ss[|ss| - 1] as real / 32768.0]
  }

  lemma {:induction false} BytesReadBack(ss: seq<int>)
    requires forall k :: 0 <= k < |ss| ==> Short(ss[k])
    ensures DecodeAll(BytesOf(ss)) == Samples(ss)
    decreases |ss|
  {
    if ss == [] {
      assert BytesOf(ss) == [] && Samples(ss) == [];
    } else {
      var front, last := ss[..|ss| - 1], ss[|ss| - 1];
      BytesReadBack(front);
      SampleReads(BytesOf(front), last);
      assert BytesOf(ss) == BytesOf(front) + [Low(last), HighByte(last)];
      assert Samples(ss) == Samples(front) + [last as real / 32768.0];
    }
  }

  /** The bytes of a staged period read back as the samples they were made from. */
  lemma PeriodReadsBack(vs: seq<Option<real>>, i: nat)
    requires i < |vs|
    ensures i < |DecodeAll(EncodeAll(vs))| && DecodeAll(EncodeAll(vs))[i] == Encode(vs[i]) as real / 32768.0
  {
    BytesReadBack(Shorts(vs));
  }

  // -------------------------------------------------------------- the client

  /** What no field of the program keeps: the bytes sent and those of every accepted Write,
      the bytes received and those handed out by Read, and when each cycle was granted. */
  datatype Log = Log(sent: Bytes, staged: Bytes, received: Bytes, consumed: Bytes, cycles: seq<real>)

  datatype Client = Client(hears: bool, plays: bool, size: nat, rate: nat,
                           input: Bytes, output: Bytes, inputBytes: nat, outputBytes: nat, outputOffset: nat,
                           next: real, frame: nat, log: Log)

  /** Attach, once both streams are open. */
  function Attached(size: nat, rate: nat, inChannels: nat, outChannels: nat, now: real): Client {
    Client(inChannels > 0, outChannels > 0, size, rate, Silence(2 * (size * inChannels)),
      Silence(2 * (size * outChannels)), 0, 0, 0,
           now, 0, Log([], [], [], [], []))
  }

  function Silence(n: nat): Bytes { seq(n, _ => 0) }

  predicate Accepted(size: nat, rate: nat, inChannels: nat, outChannels: nat) {
    0 < size <= 16384 && 8000 <= rate <= 192000 && inChannels <= 2 && outChannels <= 2
      && (inChannels > 0 || outChannels > 0)
  }

  /** What send, read and poll may answer. */
  datatype Sent = Took(n: nat) | SendAgain | SendBroken

  datatype Got = Got(bytes: Bytes) | ReadAgain | ReadBroken

  datatype Polled = Ready | PollError | Interrupted | HungUp

  predicate Fits(c: Client) {
    && c.size > 0 && c.rate > 0 && |c.input| % 2 == 0 && |c.output| % 2 == 0
    && c.inputBytes <= |c.input| && c.outputOffset <= c.outputBytes <= |c.output|
  }

  function Pending(c: Client): Bytes
    requires Fits(c)
  {
    c.output[c.outputOffset..c.outputBytes]
  }

  /** The system takes no more than it is offered and gives no more than there is room for. */
  predicate CanSend(c: Client, s: Sent)
    requires Fits(c)
  {
    s.Took? ==> s.n <= |Pending(c)|
  }

  predicate CanGet(c: Client, g: Got)
    requires Fits(c)
  {
    g.Got? ==> |g.bytes| <= |c.input| - c.inputBytes
  }

  function Drain(c: Client, s: Sent): (r: (Client, bool))
    requires Fits(c) && CanSend(c, s)
    ensures Fits(r.0)
  {
    if c.outputOffset == c.outputBytes then (c, true)
    else if s.Took? && s.n > 0 then
      (c.(outputOffset := c.outputOffset + s.n, log := c.log.(sent := c.log.sent + Pending(c)[..s.n])), true)
    else (c, s.SendAgain?)
  }

  function Fill(c: Client, g: Got): (r: (Client, bool))
    requires Fits(c) && CanGet(c, g)
    ensures Fits(r.0)
  {
    if !c.hears || c.inputBytes == |c.input| then (c, true)
    else if g.Got? && |g.bytes| > 0 then
      (c.(input := c.input[..c.inputBytes] + g.bytes + c.input[c.inputBytes + |g.bytes|..],
          inputBytes := c.inputBytes + |g.bytes|, log := c.log.(received := c.log.received + g.bytes)), true)
    else (c, g.ReadAgain?)
  }

  function Period(c: Client): (p: real)
    requires Fits(c)
    ensures p > 0.0
  {
    PeriodPositive(c.size as real, c.rate as real);
    c.size as real / c.rate as real
  }

  lemma PeriodPositive(x: real, y: real)
    requires x > 0.0 && y > 0.0
    ensures x / y > 0.0
  {
  }

  predicate Due(c: Client, now: real) {
    now >= c.next && c.outputOffset == c.outputBytes && c.inputBytes == |c.input|
  }

  function Granted(c: Client, now: real): (r: Client)
    requires Fits(c)
    ensures Fits(r)
  {
    c.(frame := c.frame + c.size, next := if c.next + Period(c) < now then now else c.next + Period(c),
       log := c.log.(cycles := c.log.cycles + [now]))
  }

  predicate CanWait(c: Client, s: Sent, g: Got)
    requires Fits(c)
  {
    CanSend(c, s) && CanGet(c, g)
  }

  /** WaitForCycle: 1 for a cycle, 0 for none yet, -1 for a broken client. */
  function Wait(c: Client, p: Polled, s: Sent, g: Got, now: real): (r: (Client, int))
    requires Fits(c) && CanWait(c, s, g)
    ensures Fits(r.0)
  {
    if !c.hears && !c.plays then (c, -1)
    else if p.Interrupted? then (c, 0)
    else if !p.Ready? then (c, -1)
    else
      var (c1, drained) := if c.plays then Drain(c, s) else (c, true);
      if !drained then (c1, -1)
      else
        var (c2, filled) := Fill(c1, g);
        if !filled then (c2, -1) else if Due(c2, now) then (Granted(c2, now), 1) else (c2, 0)
  }

  /** Read into a buffer of so many frames, if there is one. */
  function ReadPeriod(c: Client, given: bool, frames: nat): (r: (Client, Option<seq<real>>))
    requires Fits(c)
    ensures Fits(r.0)
  {
    if !given || frames != c.size || c.input == [] || c.inputBytes != |c.input| then (c, None)
    else (c.(inputBytes := 0, log := c.log.(consumed := c.log.consumed + c.input)), Some(DecodeAll(c.input)))
  }

  /** Write refuses before it touches anything. */
  predicate Refused(c: Client, vs: Option<seq<Option<real>>>, frames: nat) {
    vs.None? || frames != c.size || c.output == [] || c.outputOffset != c.outputBytes
  }

  function Staged(c: Client, vs: seq<Option<real>>): (r: Client)
    requires Fits(c) && 2 * |vs| == |c.output|
    ensures Fits(r)
  {
    c.(output := EncodeAll(vs), outputOffset := 0, outputBytes := |c.output|,
      log := c.log.(staged := c.log.staged + EncodeAll(vs)))
  }

  predicate CanWrite(c: Client, vs: Option<seq<Option<real>>>, frames: nat, s: Sent) {
    !Refused(c, vs, frames) ==> 2 * |vs.value| == |c.output| && (s.Took? ==> s.n <= |c.output|)
  }

  /** Once staged a period is never lost, even when the first send fails and Write says so. */
  function WritePeriod(c: Client, vs: Option<seq<Option<real>>>, frames: nat, s: Sent): (r: (Client, bool))
    requires Fits(c) && CanWrite(c, vs, frames, s)
    ensures Fits(r.0)
  {
    if Refused(c, vs, frames) then (c, false) else Drain(Staged(c, vs.value), s)
  }

  // ---------------------------------------------------- when a cycle is granted

  /** What this call can send, and what it can read. */
  function SentNow(c: Client, s: Sent): nat {
    if c.plays && c.outputOffset != c.outputBytes && s.Took? then s.n else 0
  }

  function GotNow(c: Client, g: Got): nat {
    if c.hears && c.inputBytes != |c.input| && g.Got? then |g.bytes| else 0
  }

  /** There was something to send and the stream would not have it, but not for now only. */
  predicate SendBreaks(c: Client, s: Sent) {
    c.plays && c.outputOffset != c.outputBytes && (s.SendBroken? || (s.Took? && s.n == 0))
  }

  /** There was room to read into and the stream has ended or failed. */
  predicate ReadBreaks(c: Client, g: Got) {
    c.hears && c.inputBytes != |c.input| && (g.ReadBroken? || (g.Got? && |g.bytes| == 0))
  }

  /** The client is attached and the poll is good, neither stream breaks, the time has come,
      and after this call nothing waits to be sent and the input is full. */
  predicate GrantsCycle(c: Client, p: Polled, s: Sent, g: Got, now: real) {
    && (c.hears || c.plays) && p.Ready? && !SendBreaks(c, s) && !ReadBreaks(c, g) && now >= c.next
    && c.outputOffset + SentNow(c, s) == c.outputBytes && c.inputBytes + GotNow(c, g) == |c.input|
  }

  /** The client is not attached, or the poll or a stream fails. */
  predicate GivesUp(c: Client, p: Polled, s: Sent, g: Got) {
    || (!c.hears && !c.plays) || p.PollError? || p.HungUp?
    || (p.Ready? && (SendBreaks(c, s) || ReadBreaks(c, g)))
  }

  lemma WaitAnswers(c: Client, p: Polled, s: Sent, g: Got, now: real)
    requires Fits(c) && CanWait(c, s, g)
    ensures Wait(c, p, s, g, now).1
            == if GivesUp(c, p, s, g) then -1 else if GrantsCycle(c, p, s, g, now) then 1 else 0
  {
  }

  lemma GiveUpOrGrant(c: Client, p: Polled, s: Sent, g: Got, now: real)
    ensures !(GivesUp(c, p, s, g) && GrantsCycle(c, p, s, g, now))
  {
  }

  lemma WaitMoves(c: Client, p: Polled, s: Sent, g: Got, now: real, r: Client, n: int)
    requires Fits(c) && CanWait(c, s, g) && (r, n) == Wait(c, p, s, g, now)
    ensures n >= 0 && p.Ready? ==> r.outputOffset == c.outputOffset + SentNow(c, s)
                                   && r.inputBytes == c.inputBytes + GotNow(c, g)
  {
  }

  /** The time of the next cycle after one granted now. */
  function Later(c: Client, now: real): real
    requires Fits(c)
  {
    var due := c.next + c.size as real / c.rate as real;
    if due >= now then due else now
  }

  lemma GrantIs(c: Client, now: real)
    requires Fits(c)
    ensures Granted(c, now)
            == c.(frame := c.frame + c.size, next := Later(c, now), log := c.log.(cycles := c.log.cycles + [now]))
  {
  }

  lemma WaitTimes(c: Client, p: Polled, s: Sent, g: Got, now: real, r: Client, n: int)
    requires Fits(c) && CanWait(c, s, g) && (r, n) == Wait(c, p, s, g, now)
    ensures r.frame == c.frame + (if n == 1 then c.size else 0)
    ensures r.next == (if n == 1 then Later(c, now) else c.next)
    ensures r.log.cycles == c.log.cycles + (if n == 1 then [now] else [])
  {
    var c1 := if c.plays then Drain(c, s).0 else c;
    var c2 := Fill(c1, g).0;
    GrantIs(c2, now);
  }

  /** WaitForCycle answers 1, -1 and 0 exactly when it should, and a granted cycle moves the
      time of the next to a period later, or to now if that has passed. */
  lemma WaitExact(c: Client, p: Polled, s: Sent, g: Got, now: real, r: Client, n: int)
    requires Fits(c) && CanWait(c, s, g) && (r, n) == Wait(c, p, s, g, now)
    ensures n == 1 <==> GrantsCycle(c, p, s, g, now)
    ensures n == -1 <==> GivesUp(c, p, s, g)
    ensures n in {-1, 0, 1}
    ensures r.frame == c.frame + (if n == 1 then c.size else 0)
    ensures r.next == (if n == 1 then Later(c, now) else c.next)
    ensures r.log.cycles == c.log.cycles + (if n == 1 then [now] else [])
    ensures n >= 0 && p.Ready? ==> r.outputOffset == c.outputOffset + SentNow(c, s)
                                   && r.inputBytes == c.inputBytes + GotNow(c, g)
  {
    WaitAnswers(c, p, s, g, now);
    GiveUpOrGrant(c, p, s, g, now);
    WaitMoves(c, p, s, g, now, r, n);
    WaitTimes(c, p, s, g, now, r, n);
  }

  /** Write says yes if and only if it is given a period of the right size, has an output with
      nothing left to send, and the first send does not break; and the period is staged even
      if that send does. */
  lemma WriteExact(c: Client, vs: Option<seq<Option<real>>>, frames: nat, s: Sent)
    requires Fits(c) && CanWrite(c, vs, frames, s)
    ensures var (r, ok) := WritePeriod(c, vs, frames, s);
            var takes := vs.Some? && frames == c.size && |c.output| > 0 && c.outputOffset == c.outputBytes;
            && (ok <==> takes && !s.SendBroken? && !(s.Took? && s.n == 0))
            && r.log.staged == c.log.staged + (if takes then EncodeAll(vs.value) else [])
            && (!takes ==> r == c)
  {
  }

  /** Read gives the whole period if and only if it is asked for one and the input is full. */
  lemma ReadExact(c: Client, given: bool, frames: nat)
    requires Fits(c)
    ensures var (r, got) := ReadPeriod(c, given, frames);
            && (got.Some? <==> given && frames == c.size && 0 < |c.input| == c.inputBytes)
            && (got.Some? ==> got.value == DecodeAll(c.input) && r.inputBytes == 0
                              && r.log.consumed == c.log.consumed + c.input)
            && (got.None? ==> r == c)
  {
  }

  /** A stream that the client has has room for something, and one it has not has none. */
  predicate Shaped(c: Client) { (c.hears <==> |c.input| > 0) && (c.plays <==> |c.output| > 0) }

  lemma ServedInTime(c: Client, heard: Bytes, now: real)
    requires Fits(c) && Shaped(c) && (c.hears || c.plays) && (c.plays || c.outputOffset == c.outputBytes)
    requires c.inputBytes == 0 && |heard| == |c.input| && now >= c.next
    ensures var s, g := Took(c.outputBytes - c.outputOffset), Got(heard);
            CanWait(c, s, g) && Wait(c, Ready, s, g, now).1 == 1
  {
    WaitAnswers(c, Ready, Took(c.outputBytes - c.outputOffset), Got(heard), now);
  }

  /** What Read and Write make of a client that was granted a cycle. */
  lemma CycleUsed(c: Client, vs: seq<Option<real>>, n: nat, c1: Client, c2: Client, ok: bool)
    requires Fits(c) && Shaped(c) && c.outputOffset == c.outputBytes && c.inputBytes == |c.input|
    requires 2 * |vs| == |c.output| && 0 < n && (c.plays ==> n <= |c.output|)
    requires c1 == ReadPeriod(c, true, c.size).0
    requires (c2, ok) == if c.plays then WritePeriod(c1, Some(vs), c.size, Took(n)) else (c1, true)
    ensures ok && Fits(c2) && Shaped(c2) && c2.inputBytes == 0 && |c2.input| == |c.input| && c2.next == c.next
    ensures c2.hears == c.hears && c2.plays == c.plays && (c.plays || c2.outputOffset == c2.outputBytes)
  {
    if c.plays { WriteExact(c1, Some(vs), c.size, Took(n)); }
  }

  /** An attached client whose server keeps up goes round: after a granted cycle it may read
      and write, and once the written period is sent, a new one received and the time come,
      the next cycle is granted. */
  lemma ServedClientGoesRound(c: Client, vs: seq<Option<real>>, n: nat, heard: Bytes, now: real,
                              c1: Client, c2: Client, ok: bool)
    requires Fits(c) && Shaped(c) && (c.hears || c.plays)
    requires c.outputOffset == c.outputBytes && c.inputBytes == |c.input|
    requires 2 * |vs| == |c.output| && 0 < n && (c.plays ==> n <= |c.output|)
    requires |heard| == |c.input| && now >= c.next
    requires c1 == ReadPeriod(c, true, c.size).0
    requires (c2, ok) == if c.plays then WritePeriod(c1, Some(vs), c.size, Took(n)) else (c1, true)
    ensures ok && Fits(c2)
    ensures var s, g := Took(c2.outputBytes - c2.outputOffset), Got(heard);
            CanWait(c2, s, g) && Wait(c2, Ready, s, g, now).1 == 1
  {
    CycleUsed(c, vs, n, c1, c2, ok);
    ServedInTime(c2, heard, now);
  }

  // ------------------------------------------------------------- conservation

  ghost predicate Conserved(c: Client)
    requires Fits(c)
  {
    && c.log.sent + Pending(c) == c.log.staged
    && c.log.consumed + c.input[..c.inputBytes] == c.log.received
  }

  lemma DrainConserves(c: Client, s: Sent)
    requires Fits(c) && CanSend(c, s) && Conserved(c)
    ensures Conserved(Drain(c, s).0)
  {
    var r := Drain(c, s).0;
    if c.outputOffset != c.outputBytes && s.Took? && s.n > 0 {
      assert Pending(c) == Pending(c)[..s.n] + Pending(r);
    }
  }

  lemma FillConserves(c: Client, g: Got)
    requires Fits(c) && CanGet(c, g) && Conserved(c)
    ensures Conserved(Fill(c, g).0)
  {
    var r := Fill(c, g).0;
    if c.hears && c.inputBytes < |c.input| && g.Got? && |g.bytes| > 0 {
      assert r.input[..r.inputBytes] == c.input[..c.inputBytes] + g.bytes;
    }
  }

  lemma WaitConserves(c: Client, p: Polled, s: Sent, g: Got, now: real)
    requires Fits(c) && CanWait(c, s, g) && Conserved(c)
    ensures Conserved(Wait(c, p, s, g, now).0)
  {
    var c1 := if c.plays then Drain(c, s).0 else c;
    if c.plays { DrainConserves(c, s); }
    FillConserves(c1, g);
  }

  lemma ReadConserves(c: Client, given: bool, frames: nat)
    requires Fits(c) && Conserved(c)
    ensures Conserved(ReadPeriod(c, given, frames).0)
  {
    var r := ReadPeriod(c, given, frames).0;
    assert c.inputBytes == |c.input| ==> c.input[..c.inputBytes] == c.input;
    assert r.inputBytes == 0 ==> r.input[..0] == [] && r.log.consumed + [] == r.log.consumed;
  }

  lemma WriteConserves(c: Client, vs: Option<seq<Option<real>>>, frames: nat, s: Sent)
    requires Fits(c) && CanWrite(c, vs, frames, s) && Conserved(c)
    ensures Conserved(WritePeriod(c, vs, frames, s).0)
  {
    if !Refused(c, vs, frames) {
      var t := Staged(c, vs.value);
      assert Pending(c) == [] && c.log.sent + [] == c.log.sent;
      assert Pending(t) == EncodeAll(vs.value);
      DrainConserves(t, s);
    }
  }

  // ---------------------------------------------------------------- pacing

  function Periods(n: int, p: real): real
    decreases n
  {
    if n <= 0 then 0.0 else Periods(n - 1, p) + p
  }

  function Product(x: real, p: real): real { x * p }

  lemma {:induction false} PeriodsIs(n: nat, p: real)
    ensures Periods(n, p) == Product(n as real, p)
  {
    if n == 0 {
      NoneYet(p);
    } else {
      PeriodsIs(n - 1, p);
      OneMore((n - 1) as real, n as real, p);
    }
  }

  lemma NoneYet(p: real)
    ensures Product(0.0, p) == 0.0
  {
  }

  lemma OneMore(x: real, y: real, p: real)
    requires y == x + 1.0
    ensures Product(x, p) + p == Product(y, p)
  {
  }

  predicate FrameRight(c: Client) { c.frame == |c.log.cycles| * c.size }

  /** The most cycles a window may hold. */
  predicate AtMost(m: int, w: real, period: real)
    requires period > 0.0
  {
    m as real <= w / period + 2.0
  }

  lemma AtMostFrom(m: int, w: real, period: real)
    requires period > 0.0 && Product((m - 2) as real, period) <= w
    ensures AtMost(m, w, period)
  {
    Ratio((m - 2) as real, w, period);
  }

  lemma Ratio(x: real, w: real, p: real)
    requires p > 0.0 && Product(x, p) <= w
    ensures x <= w / p
  {
    assert (w / p) * p == w;
  }

  /** Each later cycle kept its distance, and so will the next one. */
  ghost predicate Paced(c: Client)
    requires Fits(c)
  {
    var ts, m := c.log.cycles, |c.log.cycles|;
    && (forall i, j :: 0 <= i < j < m ==> ts[j] >= ts[i] + Periods(j - i - 1, Period(c)))
    && (forall i :: 0 <= i < m ==> c.next >= ts[i] + Periods(m - 1 - i, Period(c)))
    && FrameRight(c)
  }

  lemma GrantPaced(c: Client, now: real)
    requires Fits(c) && Paced(c) && now >= c.next
    ensures Paced(Granted(c, now))
  {
    var r, m, p := Granted(c, now), |c.log.cycles|, Period(c);
    assert Period(r) == p;
    forall i, j | 0 <= i < j < m + 1 ensures r.log.cycles[j] >= r.log.cycles[i] + Periods(j - i - 1, p) {}
    forall i | 0 <= i < m + 1 ensures r.next >= r.log.cycles[i] + Periods(m - i, p) {
      if i < m { assert Periods(m - i, p) == Periods(m - 1 - i, p) + p; }
    }
  }

  lemma WaitPaced(c: Client, p: Polled, s: Sent, g: Got, now: real)
    requires Fits(c) && CanWait(c, s, g) && Paced(c)
    ensures Paced(Wait(c, p, s, g, now).0)
  {
    var c1 := if c.plays then Drain(c, s).0 else c;
    var c2 := Fill(c1, g).0;
    SamePaced(c, c1);
    SamePaced(c, c2);
    if Due(c2, now) { GrantPaced(c2, now); }
  }

  lemma SamePaced(c: Client, d: Client)
    requires Fits(c) && Fits(d) && Paced(c)
    requires d.size == c.size && d.rate == c.rate && d.next == c.next && d.frame == c.frame
             && d.log.cycles == c.log.cycles
    ensures Paced(d)
  {
    assert Period(d) == Period(c);
  }

  // ------------------------------------------------------------- any schedule

  datatype Call =
    | WaitCall(poll: Polled, s: Sent, g: Got, now: real)
    | ReadCall(given: bool, frames: nat)
    | WriteCall(vs: Option<seq<Option<real>>>, frames: nat, s: Sent)
    | Detach

  predicate Possible(c: Client, call: Call)
    requires Fits(c)
  {
    match call
    case WaitCall(_, s, g, _) => CanWait(c, s, g)
    case ReadCall(_, _) => true
    case WriteCall(vs, frames, s) => CanWrite(c, vs, frames, s)
    case Detach => true
  }

  function Do(c: Client, call: Call): (r: Client)
    requires Fits(c) && Possible(c, call)
    ensures Fits(r)
  {
    match call
    case WaitCall(p, s, g, now) => Wait(c, p, s, g, now).0
    case ReadCall(given, frames) => ReadPeriod(c, given, frames).0
    case WriteCall(vs, frames, s) => WritePeriod(c, vs, frames, s).0
    case Detach => c.(hears := false, plays := false)
  }

  predicate CanRun(c: Client, calls: seq<Call>)
    requires Fits(c)
    decreases |calls|
  {
    calls == [] || (Possible(c, calls[0]) && CanRun(Do(c, calls[0]), calls[1..]))
  }

  function Run(c: Client, calls: seq<Call>): (r: Client)
    requires Fits(c) && CanRun(c, calls)
    ensures Fits(r)
    decreases |calls|
  {
    if calls == [] then c else Run(Do(c, calls[0]), calls[1..])
  }

  lemma DoKeeps(c: Client, call: Call)
    requires Fits(c) && Possible(c, call) && Conserved(c) && Paced(c)
    ensures Conserved(Do(c, call)) && Paced(Do(c, call))
  {
    match call
    case WaitCall(p, s, g, now) =>
      WaitConserves(c, p, s, g, now);
      WaitPaced(c, p, s, g, now);
    case ReadCall(given, frames) =>
      ReadConserves(c, given, frames);
      SamePaced(c, Do(c, call));
    case WriteCall(vs, frames, s) =>
      WriteConserves(c, vs, frames, s);
      SamePaced(c, Do(c, call));
    case Detach => SamePaced(c, Do(c, call));
  }

  lemma AttachedFits(size: nat, rate: nat, ins: nat, outs: nat, now: real)
    requires Accepted(size, rate, ins, outs)
    ensures Fits(Attached(size, rate, ins, outs, now))
  {
  }

  lemma NothingLogged(c: Client)
    requires Fits(c) && c.inputBytes == c.outputOffset == c.outputBytes == 0 && c.frame == 0
             && c.log == Log([], [], [], [], [])
    ensures Conserved(c) && Paced(c)
  {
    assert Pending(c) == [] && c.input[..0] == [];
  }

  lemma AttachedKeeps(size: nat, rate: nat, ins: nat, outs: nat, now: real)
    requires Accepted(size, rate, ins, outs)
    ensures var c := Attached(size, rate, ins, outs, now); Fits(c) && Conserved(c) && Paced(c)
  {
    AttachedFits(size, rate, ins, outs, now);
    NothingLogged(Attached(size, rate, ins, outs, now));
  }

  lemma {:induction false} RunKeeps(c: Client, calls: seq<Call>)
    requires Fits(c) && CanRun(c, calls) && Conserved(c) && Paced(c)
    ensures Conserved(Run(c, calls)) && Paced(Run(c, calls))
    decreases |calls|
  {
    if calls != [] {
      DoKeeps(c, calls[0]);
      RunKeeps(Do(c, calls[0]), calls[1..]);
    }
  }

  /** From attaching on, for every schedule of partial sends, partial reads and refusals:
      the bytes sent and those still pending are exactly the accepted periods in order, and
      the bytes handed out and those still staged are exactly the bytes received. */
  lemma EveryScheduleConserves(size: nat, rate: nat, ins: nat, outs: nat, now: real, calls: seq<Call>)
    requires Accepted(size, rate, ins, outs)
    requires CanRun(Attached(size, rate, ins, outs, now), calls)
    ensures Conserved(Run(Attached(size, rate, ins, outs, now), calls))
  {
    AttachedKeeps(size, rate, ins, outs, now);
    RunKeeps(Attached(size, rate, ins, outs, now), calls);
  }

  /** Read gives the next full period of what was received. */
  lemma ReadIsNextPeriod(c: Client, given: bool, frames: nat)
    requires Fits(c) && Conserved(c) && ReadPeriod(c, given, frames).1.Some?
    ensures var at := |c.log.consumed|;
            && at + |c.input| == |c.log.received|
            && ReadPeriod(c, given, frames).1 == Some(DecodeAll(c.log.received[at..at + |c.input|]))
  {
    var at := |c.log.consumed|;
    assert c.input[..c.inputBytes] == c.input;
    assert (c.log.consumed + c.input)[at..at + |c.input|] == c.input;
  }

  /** A cycle is granted exactly when it should be, and then the next Read and the next Write
      of a full period will not be refused. */
  lemma CyclePromises(c: Client, p: Polled, s: Sent, g: Got, now: real, vs: seq<Option<real>>)
    requires Fits(c) && CanWait(c, s, g)
    ensures var (r, n) := Wait(c, p, s, g, now);
            && (n == 1 <==> GrantsCycle(c, p, s, g, now))
            && (n == 1 ==>
                  && (r.input != [] ==> ReadPeriod(r, true, r.size).1.Some?)
                  && (r.output != [] ==> !Refused(r, Some(vs), r.size))
                  && (r.output != [] ==> !Refused(ReadPeriod(r, true, r.size).0, Some(vs), r.size)))
  {
    WaitAnswers(c, p, s, g, now);
    GiveUpOrGrant(c, p, s, g, now);
  }

  lemma FewInWindow(c: Client, i: nat, m: nat, w: real)
    requires Fits(c) && Paced(c) && m >= 2 && i + m <= |c.log.cycles|
    requires c.log.cycles[i + m - 1] - c.log.cycles[i] <= w
    ensures AtMost(m, w, Period(c))
  {
    PeriodsIs(m - 2, Period(c));
    assert c.log.cycles[i + m - 1] >= c.log.cycles[i] + Periods(m - 2, Period(c));
    AtMostFrom(m, w, Period(c));
  }

  lemma PacedApart(c: Client, i: nat, j: nat)
    requires Fits(c) && Paced(c) && i < j < |c.log.cycles|
    ensures c.log.cycles[j] >= c.log.cycles[i] + Product((j - i - 1) as real, Period(c))
  {
    PeriodsIs(j - i - 1, Period(c));
  }

  /** On every schedule: of any two cycles granted, the k-th after one at time t is not before
      t + (k - 1) periods. */
  lemma EveryCycleSpaced(size: nat, rate: nat, ins: nat, outs: nat, now: real, calls: seq<Call>, i: nat, j: nat)
    requires Accepted(size, rate, ins, outs) && CanRun(Attached(size, rate, ins, outs, now), calls)
    requires i < j < |Run(Attached(size, rate, ins, outs, now), calls).log.cycles|
    ensures var c := Run(Attached(size, rate, ins, outs, now), calls);
            c.log.cycles[j] >= c.log.cycles[i] + Product((j - i - 1) as real, Period(c))
  {
    AttachedKeeps(size, rate, ins, outs, now);
    RunKeeps(Attached(size, rate, ins, outs, now), calls);
    PacedApart(Run(Attached(size, rate, ins, outs, now), calls), i, j);
  }

  /** On every schedule the frame is the number of cycles times the buffer size. */
  lemma EveryFrameCounted(size: nat, rate: nat, ins: nat, outs: nat, now: real, calls: seq<Call>)
    requires Accepted(size, rate, ins, outs) && CanRun(Attached(size, rate, ins, outs, now), calls)
    ensures var c := Run(Attached(size, rate, ins, outs, now), calls);
            c.frame == |c.log.cycles| * c.size && c.size == size
  {
    AttachedKeeps(size, rate, ins, outs, now);
    RunKeeps(Attached(size, rate, ins, outs, now), calls);
    RunSize(Attached(size, rate, ins, outs, now), calls);
  }

  lemma {:induction false} RunSize(c: Client, calls: seq<Call>)
    requires Fits(c) && CanRun(c, calls)
    ensures Run(c, calls).size == c.size
    decreases |calls|
  {
    if calls != [] { RunSize(Do(c, calls[0]), calls[1..]); }
  }

  /** So any window of length w holds at most w over the period, plus two, cycles, even after
      a stall. */
  lemma WindowHoldsFew(size: nat, rate: nat, ins: nat, outs: nat, now: real, calls: seq<Call>, c: Client,
                       i: nat, m: nat, w: real)
    requires Accepted(size, rate, ins, outs)
    requires CanRun(Attached(size, rate, ins, outs, now), calls)
             && c == Run(Attached(size, rate, ins, outs, now), calls)
    requires m >= 2 && i + m <= |c.log.cycles| && c.log.cycles[i + m - 1] - c.log.cycles[i] <= w
    ensures AtMost(m, w, Period(c)) && FrameRight(c)
  {
    AttachedKeeps(size, rate, ins, outs, now);
    RunKeeps(Attached(size, rate, ins, outs, now), calls);
    FewInWindow(c, i, m, w);
  }
}
