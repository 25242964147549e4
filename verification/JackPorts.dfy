/**
 The devices that change their ports while the patch plays and keep the wires that
 survive: JackPlugin, which sets both numbers, and MixerPlugin, which adds and removes
 one channel. Each grows or shrinks its plugin before or after the canvas is told.
 */
module JackPorts {
  import opened Wrappers
  import opened Wiring

  const MIN_PORTS := 2
  const MAX_PORTS := 64

  function Clamp(n: int): nat {
    if n < MIN_PORTS then MIN_PORTS else if n > MAX_PORTS then MAX_PORTS else n
  }

  /** `has` is the number asked for, or the nearest of 2 and 64. */
  predicate AsAsked(n: int, has: nat) {
    && (n < 2 ==> has == 2)
    && (2 <= n <= 64 ==> has == n)
    && (n > 64 ==> has == 64)
  }

  /** RemoveInput/AddInput and RemoveOutput/AddOutput, each run to the new count:
      survivors keep their place, new outputs get buffers from `next` on. */
  function Resize(g: Plug, inputs: nat, outputs: nat, next: nat): Plug {
    Plug(
      if inputs <= |g.sockets| then g.sockets[..inputs]
      else g.sockets + seq(inputs - |g.sockets|, _ => None),
      if outputs <= |g.buffers| then g.buffers[..outputs]
      else g.buffers + seq(outputs - |g.buffers|, i => next + i))
  }

  function Resized(t: Patch, id: int, ins: nat, outs: nat): Patch
    requires id in t.plugs
  {
    t.(plugs := t.plugs[id := Resize(t.plugs[id], ins, outs, t.nextBuffer)], nextBuffer := t.nextBuffer + outs)
  }

  /** The canvas is told first, the ports of the plugin change after. */
  function TellThenResize(s: Patch, id: int, ins: nat, outs: nat): Patch
    requires id in s.faces && id in s.plugs
  {
    var t := SetupPorts(s, id, ins, outs, true);
    if id in t.plugs then Resized(t, id, ins, outs) else t
  }

  /** The ports of the plugin change first. */
  function ResizeThenTell(s: Patch, id: int, ins: nat, outs: nat, preserve: bool): Patch
    requires id in s.faces && id in s.plugs
  {
    SetupPorts(Resized(s, id, ins, outs), id, ins, outs, preserve)
  }

  function SetNumberPorts(s: Patch, id: int, nInputs: int, nOutputs: int): Patch
    requires id in s.faces && id in s.plugs
  {
    TellThenResize(s, id, Clamp(nInputs), Clamp(nOutputs))
  }

  const FEWEST_CHANNELS := 2
  const MOST_CHANNELS := 16

  /** MixerPlugin::AddChannel. */
  function AddChannel(s: Patch, id: int): Patch
    requires id in s.faces && id in s.plugs
  {
    if |s.plugs[id].sockets| >= MOST_CHANNELS then s
    else ResizeThenTell(s, id, |s.plugs[id].sockets| + 1, |s.plugs[id].buffers|, true)
  }

  /** MixerPlugin::RemoveChannel. */
  function RemoveChannel(s: Patch, id: int): Patch
    requires id in s.faces && id in s.plugs
  {
    if |s.plugs[id].sockets| <= FEWEST_CHANNELS then s
    else TellThenResize(s, id, |s.plugs[id].sockets| - 1, |s.plugs[id].buffers|)
  }

  // -------------------------------------------------------------- what is kept

  lemma {:induction false} LoadWitness(ws: seq<Wire>, e: End) returns (i: nat)
    requires Load(ws, e) > 0
    ensures i < |ws| && Touches(ws[i], e)
  {
    if Touches(ws[0], e) { i := 0; } else { var j := LoadWitness(ws[1..], e); i := j + 1; }
  }

  lemma ResizeKeepsWire(t: Patch, r: Patch, id: int, w: Wire, ins: nat, outs: nat)
    requires WireOk(t, w) && id in t.plugs && !Doomed(Beyond(id, ins, outs), w)
    requires r == t.(plugs := t.plugs[id := Resize(t.plugs[id], ins, outs, t.nextBuffer)], nextBuffer := r.nextBuffer)
    ensures WireOk(r, w)
    ensures r.plugs[w.inId].sockets[w.inPort] == t.plugs[w.inId].sockets[w.inPort]
  {
  }

  lemma ResizeApart(t: Patch, id: int, ins: nat, outs: nat)
    requires id in t.plugs && BuffersApart(t.plugs, t.nextBuffer)
    ensures BuffersApart(t.plugs[id := Resize(t.plugs[id], ins, outs, t.nextBuffer)], t.nextBuffer + outs)
  {
  }

  lemma ResizeCore(t: Patch, id: int, ins: nat, outs: nat)
    requires Core(t) && id in t.plugs && Within(t.wires, id, ins, outs)
    ensures Core(Resized(t, id, ins, outs))
  {
    var r := Resized(t, id, ins, outs);
    forall i | 0 <= i < |r.wires| ensures WireOk(r, r.wires[i]) {
      assert WireOk(t, t.wires[i]);
      ResizeKeepsWire(t, r, id, t.wires[i], ins, outs);
    }
    forall k | k in r.plugs ensures PlugRight(r.wires, k, r.plugs[k]) {
      assert PlugRight(t.wires, k, t.plugs[k]);
    }
    ResizeApart(t, id, ins, outs);
  }

  /** t: the patch after SetupPorts, s: before it. */
  ghost predicate Relaid(s: Patch, t: Patch, id: int, ins: nat, outs: nat) {
    && SamePlugShape(s, t) && t.faces.Keys == s.faces.Keys && id in s.faces && id in s.plugs
    && t.faces[id].inputs == ins && t.faces[id].outputs == outs
    && (forall k :: k in s.faces && k != id ==>
          t.faces[k].inputs == s.faces[k].inputs && t.faces[k].outputs == s.faces[k].outputs)
  }

  lemma ResizeSynced(s: Patch, t: Patch, id: int, ins: nat, outs: nat)
    requires Synced(s) && Relaid(s, t, id, ins, outs)
    ensures Synced(Resized(t, id, ins, outs))
  {
  }

  lemma ResizeGood(s: Patch, t: Patch, id: int, ins: nat, outs: nat)
    requires Synced(s) && Relaid(s, t, id, ins, outs) && Core(t) && Within(t.wires, id, ins, outs)
    ensures Good(Resized(t, id, ins, outs))
  {
    ResizeSynced(s, t, id, ins, outs);
    ResizeCore(t, id, ins, outs);
  }

  lemma ResizeShape(s: Patch, t: Patch, id: int, ins: nat, outs: nat)
    requires Relaid(s, t, id, ins, outs)
    ensures var r := Resized(t, id, ins, outs);
            && r.wires == t.wires && r.plugs.Keys == s.plugs.Keys
            && |r.plugs[id].sockets| == ins && |r.plugs[id].buffers| == outs
            && (forall q :: 0 <= q < outs && q < |s.plugs[id].buffers| ==>
                 r.plugs[id].buffers[q] == s.plugs[id].buffers[q])
            && (forall k :: k in s.plugs && k != id ==> r.plugs[k].buffers == s.plugs[k].buffers)
  {
  }

  /** A plugin that grew first keeps everything as well, whether or not the canvas keeps
      its wires. */
  lemma GrowGood(s: Patch, id: int, ins: nat, outs: nat, preserve: bool, r: Patch)
    requires Good(s) && id in s.faces && id in s.plugs && r == ResizeThenTell(s, id, ins, outs, preserve)
    requires |s.plugs[id].sockets| <= ins && |s.plugs[id].buffers| <= outs
    ensures Good(r) && (preserve ==> r.wires == s.wires)
  {
    GrownCore(s, id, ins, outs);
    ToldGood(s, Resized(s, id, ins, outs), id, ins, outs, preserve, r);
    NothingDoomed(s.wires, Beyond(id, ins, outs));
  }

  lemma GrownCore(s: Patch, id: int, ins: nat, outs: nat)
    requires Core(s) && id in s.plugs && |s.plugs[id].sockets| <= ins && |s.plugs[id].buffers| <= outs
    ensures Core(Resized(s, id, ins, outs))
    ensures forall i :: 0 <= i < |s.wires| ==> !Doomed(Beyond(id, ins, outs), s.wires[i])
  {
    AllWithin(s, id, ins, outs);
    ResizeCore(s, id, ins, outs);
  }

  lemma ToldGood(s: Patch, u: Patch, id: int, ins: nat, outs: nat, preserve: bool, r: Patch)
    requires Synced(s) && id in s.faces && id in s.plugs && u == Resized(s, id, ins, outs) && Core(u)
    requires r == SetupPorts(u, id, ins, outs, preserve)
    ensures Good(r) && (preserve ==> r.wires == Keep(s.wires, Beyond(id, ins, outs)))
  {
    SetupPortsCore(u, id, ins, outs, preserve);
    GrownSynced(s, u, r, id, ins, outs);
  }

  lemma AllWithin(s: Patch, id: int, ins: nat, outs: nat)
    requires AllWiresOk(s) && id in s.plugs && |s.plugs[id].sockets| <= ins && |s.plugs[id].buffers| <= outs
    ensures Within(s.wires, id, ins, outs)
    ensures forall i :: 0 <= i < |s.wires| ==> !Doomed(Beyond(id, ins, outs), s.wires[i])
  {
    forall i | 0 <= i < |s.wires| ensures !Doomed(Beyond(id, ins, outs), s.wires[i]) { assert WireOk(s, s.wires[i]); }
  }

  lemma GrownSynced(s: Patch, u: Patch, r: Patch, id: int, ins: nat, outs: nat)
    requires Synced(s) && id in s.faces && id in s.plugs && u == Resized(s, id, ins, outs)
    requires SamePlugShape(u, r) && r.faces.Keys == u.faces.Keys
    requires r.faces[id].inputs == ins && r.faces[id].outputs == outs
    requires forall k :: k in u.faces && k != id ==>
               r.faces[k].inputs == u.faces[k].inputs && r.faces[k].outputs == u.faces[k].outputs
    ensures Synced(r)
  {
  }

  lemma {:induction false} NothingDoomed(ws: seq<Wire>, d: Doom)
    requires forall i :: 0 <= i < |ws| ==> !Doomed(d, ws[i])
    ensures Keep(ws, d) == ws
  {
    if ws != [] { NothingDoomed(ws[1..], d); }
  }

  lemma TellThenResizeIs(s: Patch, id: int, ins: nat, outs: nat) returns (t: Patch)
    requires Good(s) && id in s.faces && id in s.plugs
    ensures Relaid(s, t, id, ins, outs) && Core(t) && Within(t.wires, id, ins, outs)
    ensures t.wires == Keep(s.wires, Beyond(id, ins, outs))
    ensures TellThenResize(s, id, ins, outs) == Resized(t, id, ins, outs)
  {
    t := SetupPorts(s, id, ins, outs, true);
    SetupPortsCore(s, id, ins, outs, true);
  }

  lemma AddChannelIs(s: Patch, id: int)
    requires id in s.faces && id in s.plugs
    ensures var ins, outs := |s.plugs[id].sockets|, |s.plugs[id].buffers|;
            if ins >= MOST_CHANNELS then AddChannel(s, id) == s
            else AddChannel(s, id) == ResizeThenTell(s, id, ins + 1, outs, true)
  {
  }

  /** A mixer keeps a sound patch sound, and adding a channel keeps every wire. */
  lemma AddChannelGood(s: Patch, id: int, r: Patch)
    requires Good(s) && id in s.faces && id in s.plugs && |s.plugs[id].sockets| < MOST_CHANNELS
    requires r == AddChannel(s, id)
    ensures Good(r) && r.wires == s.wires
  {
    AddChannelIs(s, id);
    GrowGood(s, id, |s.plugs[id].sockets| + 1, |s.plugs[id].buffers|, true, r);
  }

  lemma RemoveChannelIs(s: Patch, id: int, ins: nat, outs: nat)
    requires id in s.faces && id in s.plugs
    requires ins + 1 == |s.plugs[id].sockets| > FEWEST_CHANNELS && outs == |s.plugs[id].buffers|
    ensures RemoveChannel(s, id) == TellThenResize(s, id, ins, outs)
  {
  }

  lemma TellThenResizeGood(s: Patch, id: int, ins: nat, outs: nat, r: Patch)
    requires Good(s) && id in s.faces && id in s.plugs && r == TellThenResize(s, id, ins, outs)
    ensures Good(r) && r.wires == Keep(s.wires, Beyond(id, ins, outs))
  {
    var t := TellThenResizeIs(s, id, ins, outs);
    ResizeGood(s, t, id, ins, outs);
  }

  /** ... and removing one drops the wires of that channel and no other. */
  lemma RemoveChannelGood(s: Patch, id: int, ins: nat, outs: nat, r: Patch)
    requires Good(s) && id in s.faces && id in s.plugs && r == RemoveChannel(s, id)
    requires ins + 1 == |s.plugs[id].sockets| > FEWEST_CHANNELS && outs == |s.plugs[id].buffers|
    ensures Good(r) && r.wires == Keep(s.wires, Beyond(id, ins, outs))
  {
    RemoveChannelIs(s, id, ins, outs);
    TellThenResizeGood(s, id, ins, outs, r);
  }

  lemma SetNumberPortsIs(s: Patch, id: int, nInputs: int, nOutputs: int) returns (t: Patch)
    requires Good(s) && id in s.faces && id in s.plugs
    ensures var ins, outs := Clamp(nInputs), Clamp(nOutputs);
            && Relaid(s, t, id, ins, outs) && Core(t) && Within(t.wires, id, ins, outs)
            && t.wires == Keep(s.wires, Beyond(id, ins, outs))
            && SetNumberPorts(s, id, nInputs, nOutputs) == Resized(t, id, ins, outs)
  {
    t := TellThenResizeIs(s, id, Clamp(nInputs), Clamp(nOutputs));
  }

  lemma SetNumberPortsGood(s: Patch, id: int, nInputs: int, nOutputs: int)
    requires Good(s) && id in s.faces && id in s.plugs
    ensures Good(SetNumberPorts(s, id, nInputs, nOutputs))
    ensures var r := SetNumberPorts(s, id, nInputs, nOutputs);
            id in r.plugs && AsAsked(nInputs, |r.plugs[id].sockets|) && AsAsked(nOutputs, |r.plugs[id].buffers|)
  {
    var t := SetNumberPortsIs(s, id, nInputs, nOutputs);
    ResizeGood(s, t, id, Clamp(nInputs), Clamp(nOutputs));
    ResizeShape(s, t, id, Clamp(nInputs), Clamp(nOutputs));
  }

  /** What an input reads, said from the wires: the buffer of the output its one
      wire names, and nothing when it has no wire. */
  lemma InputReadsItsWire(s: Patch, id: int, p: nat)
    requires Good(s) && id in s.plugs && p < |s.plugs[id].sockets|
    ensures s.plugs[id].sockets[p].Some? <==> exists i :: 0 <= i < |s.wires| && Touches(s.wires[i], In(id, p))
    ensures forall i :: 0 <= i < |s.wires| && Touches(s.wires[i], In(id, p)) ==>
              && s.wires[i].outId in s.plugs
              && 0 <= s.wires[i].outPort < |s.plugs[s.wires[i].outId].buffers|
              && s.plugs[id].sockets[p] == Some(s.plugs[s.wires[i].outId].buffers[s.wires[i].outPort])
  {
    assert PlugRight(s.wires, id, s.plugs[id]);
    forall i | 0 <= i < |s.wires| && Touches(s.wires[i], In(id, p)) ensures WireOk(s, s.wires[i]) {}
    if s.plugs[id].sockets[p].Some? { var i := LoadWitness(s.wires, In(id, p)); }
  }

  /** Where the plugins stand after a resize. */
  lemma SetNumberPortsShape(s: Patch, id: int, nInputs: int, nOutputs: int)
    requires Good(s) && id in s.faces && id in s.plugs
    ensures var r := SetNumberPorts(s, id, nInputs, nOutputs);
            var ins, outs := Clamp(nInputs), Clamp(nOutputs);
            && r.wires == Keep(s.wires, Beyond(id, ins, outs)) && r.plugs.Keys == s.plugs.Keys
            && |r.plugs[id].sockets| == ins && |r.plugs[id].buffers| == outs
            && (forall q :: 0 <= q < outs && q < |s.plugs[id].buffers| ==>
                 r.plugs[id].buffers[q] == s.plugs[id].buffers[q])
            && (forall k :: k in s.plugs && k != id ==> r.plugs[k].buffers == s.plugs[k].buffers)
  {
    var t := SetNumberPortsIs(s, id, nInputs, nOutputs);
    ResizeShape(s, t, id, Clamp(nInputs), Clamp(nOutputs));
  }

  lemma SurvivorWasThere(s: Patch, d: Doom, i: nat)
    requires AllWiresOk(s) && i < |Keep(s.wires, d)|
    ensures WireOk(s, Keep(s.wires, d)[i])
  {
    KeepSpares(s.wires, d, i);
    var j :| 0 <= j < |s.wires| && s.wires[j] == Keep(s.wires, d)[i];
  }

  /** Two states that agree on a wire's source buffer, both sound about the wire. */
  lemma SameBuffer(s: Patch, r: Patch, w: Wire, id: int)
    requires WireOk(s, w) && WireOk(r, w)
    requires id in s.plugs && id in r.plugs
    requires forall q :: 0 <= q < |r.plugs[id].buffers| && q < |s.plugs[id].buffers| ==>
               r.plugs[id].buffers[q] == s.plugs[id].buffers[q]
    requires forall k :: k in s.plugs && k in r.plugs && k != id ==> r.plugs[k].buffers == s.plugs[k].buffers
    ensures r.plugs[w.inId].sockets[w.inPort] == s.plugs[w.inId].sockets[w.inPort]
  {
  }

  /** After a resize the wire list is the old one filtered in order, and a surviving
      wire's input reads the very buffer it read before. */
  lemma SetNumberPortsKeepsSurvivors(s: Patch, id: int, nInputs: int, nOutputs: int)
    requires Good(s) && id in s.faces && id in s.plugs
    ensures var r := SetNumberPorts(s, id, nInputs, nOutputs);
            && id in r.plugs && AsAsked(nInputs, |r.plugs[id].sockets|) && AsAsked(nOutputs, |r.plugs[id].buffers|)
            && r.wires == Keep(s.wires, Beyond(id, |r.plugs[id].sockets|, |r.plugs[id].buffers|))
    ensures var r := SetNumberPorts(s, id, nInputs, nOutputs);
            forall i :: 0 <= i < |r.wires| ==>
              && WireOk(r, r.wires[i]) && WireOk(s, r.wires[i])
              && r.plugs[r.wires[i].inId].sockets[r.wires[i].inPort]
                 == s.plugs[r.wires[i].inId].sockets[r.wires[i].inPort]
  {
    var r := SetNumberPorts(s, id, nInputs, nOutputs);
    SetNumberPortsShape(s, id, nInputs, nOutputs);
    SetNumberPortsGood(s, id, nInputs, nOutputs);
    forall i | 0 <= i < |r.wires|
      ensures WireOk(r, r.wires[i]) && WireOk(s, r.wires[i])
      ensures r.plugs[r.wires[i].inId].sockets[r.wires[i].inPort] == s.plugs[r.wires[i].inId].sockets[r.wires[i].inPort]
    {
      SurvivorWasThere(s, Beyond(id, Clamp(nInputs), Clamp(nOutputs)), i);
      SameBuffer(s, r, r.wires[i], id);
    }
  }

  /** No input of any plugin is left reading a buffer the resize released. */
  lemma SetNumberPortsReleasesCleanly(s: Patch, id: int, nInputs: int, nOutputs: int, k: int, p: nat, q: nat)
    requires Good(s) && id in s.faces && id in s.plugs
    requires k in SetNumberPorts(s, id, nInputs, nOutputs).plugs
    requires p < |SetNumberPorts(s, id, nInputs, nOutputs).plugs[k].sockets|
    requires Clamp(nOutputs) <= q < |s.plugs[id].buffers|
    ensures SetNumberPorts(s, id, nInputs, nOutputs).plugs[k].sockets[p] != Some(s.plugs[id].buffers[q])
  {
    var r := SetNumberPorts(s, id, nInputs, nOutputs);
    SetNumberPortsGood(s, id, nInputs, nOutputs);
    InputReadsItsWire(r, k, p);
    if r.plugs[k].sockets[p].Some? {
      var i :| 0 <= i < |r.wires| && Touches(r.wires[i], In(k, p));
      ReleasedIsNotFed(s, id, nInputs, nOutputs, i, q);
    }
  }

  lemma ReleasedIsNotFed(s: Patch, id: int, nInputs: int, nOutputs: int, i: nat, q: nat)
    requires Good(s) && id in s.faces && id in s.plugs
    requires i < |SetNumberPorts(s, id, nInputs, nOutputs).wires|
    requires Clamp(nOutputs) <= q < |s.plugs[id].buffers|
    ensures var r := SetNumberPorts(s, id, nInputs, nOutputs); var w := r.wires[i];
            WireOk(r, w) && r.plugs[w.inId].sockets[w.inPort] != Some(s.plugs[id].buffers[q])
  {
    SetNumberPortsKeepsSurvivors(s, id, nInputs, nOutputs);
    SetNumberPortsShape(s, id, nInputs, nOutputs);
    var r := SetNumberPorts(s, id, nInputs, nOutputs);
    var w := r.wires[i];
    assert WireOk(r, w) && WireOk(s, w);
    assert w.outId == id ==> w.outPort < Clamp(nOutputs);
  }

}
