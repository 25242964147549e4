/**
 ESDClient as the program keeps it: two byte arrays and the counters over them, changed in
 place. Each method is tied to the function of the same step in EsdStream.
 */
module EsdClient {
  import opened Wrappers
  import opened EsdStream

  class ESDClient {
    var hears: bool
    var plays: bool
    var size: nat
    var rate: nat
    var input: array<nat>
    var output: array<nat>
    var inputBytes: nat
    var outputBytes: nat
    var outputOffset: nat
    var next: real
    var frame: nat
    ghost var log: Log

    ghost function View(): Client
      reads this, input, output
    {
      Client(hears, plays, size, rate, input[..], output[..], inputBytes, outputBytes, outputOffset, next, frame, log)
    }

    ghost predicate Valid()
      reads this, input, output
    {
      input != output && Fits(View())
    }

    /** Attach, when the server has opened what was asked for. */
    constructor (size: nat, rate: nat, inChannels: nat, outChannels: nat, now: real)
      requires Accepted(size, rate, inChannels, outChannels)
      ensures Valid() && View() == Attached(size, rate, inChannels, outChannels, now) && fresh(input) && fresh(output)
    {
      hears, plays := inChannels > 0, outChannels > 0;
      this.size, this.rate := size, rate;
      input := new nat[2 * (size * inChannels)](_ => 0);
      output := new nat[2 * (size * outChannels)](_ => 0);
      inputBytes, outputBytes, outputOffset := 0, 0, 0;
      next, frame := now, 0;
      log := Log([], [], [], [], []);
      new;
      assert input[..] == Silence(2 * (size * inChannels)) && output[..] == Silence(2 * (size * outChannels));
      AttachedFits(size, rate, inChannels, outChannels, now);
    }

    method Detach()
      requires Valid()
      modifies this`hears, this`plays
      ensures View() == Do(old(View()), EsdStream.Detach)
    {
      hears, plays := false, false;
    }

    method DrainOutput(s: Sent) returns (ok: bool)
      requires Valid() && CanSend(View(), s)
      modifies this`outputOffset, this`log
      ensures Valid() && View() == Drain(old(View()), s).0 && ok == Drain(old(View()), s).1
    {
      if outputOffset == outputBytes {
        return true;
      }
      if s.Took? && s.n > 0 {
        log := log.(sent := log.sent + Pending(View())[..s.n]);
        outputOffset := outputOffset + s.n;
      }
      return (s.Took? && s.n > 0) || s.SendAgain?;
    }

    /** One read into what is left of the input buffer. */
    method FillInput(g: Got) returns (ok: bool)
      requires Valid() && CanGet(View(), g)
      modifies this`inputBytes, this`log, input
      ensures Valid() && View() == Fill(old(View()), g).0 && ok == Fill(old(View()), g).1
    {
      ok := true;
      if hears && inputBytes < input.Length {
        if g.Got? && |g.bytes| > 0 {
          ghost var was := input[..];
          forall k | 0 <= k < |g.bytes| {
            input[inputBytes + k] := g.bytes[k];
          }
          assert input[..] == was[..inputBytes] + g.bytes + was[inputBytes + |g.bytes|..];
          log := log.(received := log.received + g.bytes);
          inputBytes := inputBytes + |g.bytes|;
        } else {
          ok := g.ReadAgain?;
        }
      }
    }

    method WaitForCycle(p: Polled, s: Sent, g: Got, now: real) returns (result: int)
      requires Valid() && CanWait(View(), s, g)
      modifies this`outputOffset, this`inputBytes, this`log, this`next, this`frame, input
      ensures Valid() && View() == Wait(old(View()), p, s, g, now).0 && result == Wait(old(View()), p, s, g, now).1
      ensures result == (if GivesUp(old(View()), p, s, g) then -1
                         else if GrantsCycle(old(View()), p, s, g, now) then 1 else 0)
    {
      WaitAnswers(View(), p, s, g, now);
      if !hears && !plays {
        return -1;
      }
      if p.Interrupted? {
        return 0;
      }
      if !p.Ready? {
        return -1;
      }
      if plays {
        var drained := DrainOutput(s);
        if !drained {
          return -1;
        }
      }
      var filled := FillInput(g);
      if !filled {
        return -1;
      }
      if now < next || outputOffset != outputBytes || inputBytes != input.Length {
        return 0;
      }
      GrantCycle(now);
      return 1;
    }

    method GrantCycle(now: real)
      requires Valid()
      modifies this`next, this`frame, this`log
      ensures Valid() && View() == Granted(old(View()), now)
    {
      var period := size as real / rate as real;
      frame := frame + size;
      next := if next + period < now then now else next + period;
      log := log.(cycles := log.cycles + [now]);
    }

    method Read(given: bool, frames: nat) returns (samples: Option<seq<real>>)
      requires Valid()
      modifies this`inputBytes, this`log
      ensures Valid() && View() == ReadPeriod(old(View()), given, frames).0
      ensures samples == ReadPeriod(old(View()), given, frames).1
    {
      if !given || frames != size || input.Length == 0 || inputBytes != input.Length {
        return None;
      }
      var xs: seq<real> := [];
      var n := 0;
      while n < input.Length / 2
        invariant n <= input.Length / 2 && xs == DecodeAll(input[..2 * n])
      {
        assert input[..2 * (n + 1)][..2 * n] == input[..2 * n];
        xs := xs + [Word(input[2 * n], input[2 * n + 1]) as real / 32768.0];
        n := n + 1;
      }
      assert input[..2 * n] == input[..];
      log := log.(consumed := log.consumed + input[..]);
      inputBytes := 0;
      return Some(xs);
    }

    /** The conversion loop of Write. */
    method StageOutput(vs: seq<Option<real>>)
      requires 2 * |vs| == output.Length
      modifies output
      ensures output[..] == EncodeAll(vs)
    {
      var n := 0;
      while n < |vs|
        invariant n <= |vs| && output[..2 * n] == EncodeAll(vs[..n])
      {
        assert vs[..n + 1][..n] == vs[..n];
        var s := Encode(vs[n]);
        assert Shorts(vs[..n + 1])[..n] == Shorts(vs[..n]);
        output[2 * n] := Low(s);
        output[2 * n + 1] := HighByte(s);
        assert output[..2 * (n + 1)] == output[..2 * n] + [Low(s), HighByte(s)];
        n := n + 1;
      }
      assert vs[..n] == vs && output[..2 * n] == output[..];
    }

    method Write(vs: Option<seq<Option<real>>>, frames: nat, s: Sent) returns (ok: bool)
      requires Valid() && CanWrite(View(), vs, frames, s)
      modifies this`outputOffset, this`outputBytes, this`log, output
      ensures Valid() && View() == WritePeriod(old(View()), vs, frames, s).0
      ensures ok == WritePeriod(old(View()), vs, frames, s).1
    {
      if vs.None? || frames != size || output.Length == 0 || outputOffset != outputBytes {
        return false;
      }
      StageOutput(vs.value);
      outputOffset, outputBytes := 0, output.Length;
      log := log.(staged := log.staged + EncodeAll(vs.value));
      ok := DrainOutput(s);
    }
  }
}
