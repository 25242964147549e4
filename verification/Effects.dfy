/**
 What the canvas does to wires, numbers of ports and buffers read, each said from what was
 there before and not through the functions that do it.
 */
module Effects {
  import opened Wrappers
  import opened Wiring
  import opened JackPorts
  import opened Session
  import opened UserView

  // --------------------------------------------------------------- readings

  /** Outputs that outlast an event keep their buffers. */
  ghost predicate BuffersStay(s: Patch, r: Patch) {
    forall k :: k in s.plugs && k in r.plugs ==>
      forall q :: 0 <= q < |s.plugs[k].buffers| && q < |r.plugs[k].buffers| ==>
        r.plugs[k].buffers[q] == s.plugs[k].buffers[q]
  }

  lemma SameShapeBuffers(s: Patch, r: Patch)
    requires SamePlugShape(s, r)
    ensures BuffersStay(s, r)
  {
  }

  lemma ResizedBuffers(s: Patch, t: Patch, id: int, ins: nat, outs: nat)
    requires SamePlugShape(s, t) && id in t.plugs
    ensures BuffersStay(s, Resized(t, id, ins, outs))
  {
  }

  lemma PortOnBuffers(s: Patch, e: End)
    requires e.id in s.faces
    ensures SamePlugShape(s, PortOn(s, e))
  {
    var t := TakeOrCancel(s, e);
    ClearPendingShape(s);
    assert t.plugs == s.plugs;
    ConnectShape(t, t.pending);
  }

  lemma PressBuffers(s: Patch, e: End, b: Button)
    ensures SamePlugShape(s, Press(s, e, b))
  {
    DropAllShape(s, AtPort(e));
    if e.id in s.faces { PortOnBuffers(s, e); }
  }

  lemma SetupBuffers(s: Patch, id: int, ins: nat, outs: nat, preserve: bool)
    requires id in s.faces
    ensures SamePlugShape(s, SetupPorts(s, id, ins, outs, preserve))
  {
    SetupPortsIs(s, id, ins, outs, preserve);
    PruneKeeps(s, id, if preserve then ins else 0, if preserve then outs else 0);
  }

  lemma TellThenResizeBuffers(s: Patch, id: int, ins: nat, outs: nat)
    requires id in s.faces && id in s.plugs
    ensures BuffersStay(s, TellThenResize(s, id, ins, outs))
  {
    SetupBuffers(s, id, ins, outs, true);
    ResizedBuffers(s, SetupPorts(s, id, ins, outs, true), id, ins, outs);
  }

  lemma ResizeThenTellBuffers(s: Patch, id: int, ins: nat, outs: nat)
    requires id in s.faces && id in s.plugs
    ensures BuffersStay(s, ResizeThenTell(s, id, ins, outs, true))
  {
    var t := Resized(s, id, ins, outs);
    ResizedBuffers(s, s, id, ins, outs);
    SetupBuffers(t, id, ins, outs, true);
  }

  lemma AddChannelBuffers(s: Patch, id: int, ins: nat, outs: nat, r: Patch)
    requires id in s.faces && id in s.plugs && ins == |s.plugs[id].sockets| && outs == |s.plugs[id].buffers|
    requires r == AddChannel(s, id)
    ensures BuffersStay(s, r)
  {
    AddChannelIs(s, id);
    ResizeThenTellBuffers(s, id, ins + 1, outs);
  }

  lemma RemoveChannelBuffers(s: Patch, id: int, ins: nat, outs: nat, r: Patch)
    requires id in s.faces && id in s.plugs && ins + 1 == |s.plugs[id].sockets| > FEWEST_CHANNELS
    requires outs == |s.plugs[id].buffers| && r == RemoveChannel(s, id)
    ensures BuffersStay(s, r)
  {
    RemoveChannelIs(s, id, ins, outs);
    TellThenResizeBuffers(s, id, ins, outs);
  }

  lemma RemoveBuffers(s: Patch, id: int)
    ensures SamePlugShape(s, Remove(s, id))
  {
    PruneKeeps(s, id, 0, 0);
  }

  lemma StepBuffers(s: Patch, e: Event)
    requires IdsBelow(s) && !e.Relayout?
    ensures BuffersStay(s, Step(s, e))
  {
    match e
    case PressPort(end, button) => PressBuffers(s, end, button);
    case PressCanvas => ClearPendingShape(s);
    case NewDevice(_, _, _) =>
    case NewComment =>
    case Kill(_) =>
    case Sweep(id) => RemoveBuffers(s, id);
    case Reap(_) =>
    case ResizeJack(id, n, m) => if id in s.faces && id in s.plugs { TellThenResizeBuffers(s, id, Clamp(n), Clamp(m)); }
    case MoreChannels(id) =>
      if id in s.faces && id in s.plugs {
        AddChannelBuffers(s, id, |s.plugs[id].sockets|, |s.plugs[id].buffers|, Step(s, e));
      }
    case FewerChannels(id) =>
      if id in s.faces && id in s.plugs && |s.plugs[id].sockets| > FEWEST_CHANNELS {
        RemoveChannelBuffers(s, id, |s.plugs[id].sockets| - 1, |s.plugs[id].buffers|, Step(s, e));
      }
  }

  lemma RelayoutBuffers(s: Patch, id: int, ins: nat, outs: nat, k: int)
    requires id in s.faces && id in s.plugs && k in s.plugs && k != id
    ensures var r := SetupPorts(Replug(s, id, ins, outs), id, ins, outs, false);
            k in r.plugs && r.plugs[k].buffers == s.plugs[k].buffers
  {
    SetupBuffers(Replug(s, id, ins, outs), id, ins, outs, false);
  }

  lemma SameReading(s: Patch, r: Patch, w: Wire)
    requires WireOk(s, w) && WireOk(r, w)
    requires r.plugs[w.outId].buffers[w.outPort] == s.plugs[w.outId].buffers[w.outPort]
    ensures r.plugs[w.inId].sockets[w.inPort] == s.plugs[w.inId].sockets[w.inPort]
  {
  }

  lemma RelayoutWires(s: Patch, id: int, ins: nat, outs: nat)
    requires id in s.faces && id in s.plugs
    ensures Step(s, Relayout(id, ins, outs)).wires == Keep(s.wires, Beyond(id, 0, 0))
  {
    SetupPortsIs(Replug(s, id, ins, outs), id, ins, outs, false);
    PruneKeeps(Replug(s, id, ins, outs), id, 0, 0);
  }

  lemma RelayoutDetaches(s: Patch, id: int, ins: nat, outs: nat, ws: seq<Wire>, j: nat)
    requires id in s.faces && id in s.plugs
    requires ws == Step(s, Relayout(id, ins, outs)).wires && j < |ws| && WireOk(s, ws[j])
    ensures !AtDevice(ws[j], id)
  {
    RelayoutWires(s, id, ins, outs);
    KeepSpares(s.wires, Beyond(id, 0, 0), j);
  }

  /** Whatever happens on the canvas, the input of a wire that outlasts it reads the very
      buffer it read before. */
  lemma EveryEventKeepsReadings(s: Patch, e: Event, i: nat, j: nat)
    requires Good(s) && i < |s.wires| && j < |Step(s, e).wires| && s.wires[i] == Step(s, e).wires[j]
    ensures var r, w := Step(s, e), s.wires[i];
            && WireOk(s, w) && WireOk(r, w)
            && r.plugs[w.inId].sockets[w.inPort] == s.plugs[w.inId].sockets[w.inPort]
            && r.plugs[w.inId].sockets[w.inPort] == Some(s.plugs[w.outId].buffers[w.outPort])
  {
    var r, w := Step(s, e), s.wires[i];
    StepGood(s, e);
    assert WireOk(s, w) && WireOk(r, w);
    if e.Relayout? && e.id in s.faces && e.id in s.plugs {
      RelayoutDetaches(s, e.id, e.inputs, e.outputs, r.wires, j);
      RelayoutBuffers(s, e.id, e.inputs, e.outputs, w.outId);
    } else if !e.Relayout? {
      StepBuffers(s, e);
    }
    SameReading(s, r, w);
  }

  // ------------------------------------------------------------------ counts

  /** The count a port button shows. */
  function Shown(s: Patch, e: End): nat
    requires OnFace(s, e) && LampsRight(s.faces[e.id])
  {
    CountAt(s.faces[e.id], e)
  }

  function Less(a: nat, b: nat): nat { if a > b then a - b else 0 }

  lemma LampsAre(s: Patch, e: End)
    requires AllPortsRight(s) && OnFace(s, e)
    ensures LampsRight(s.faces[e.id])
  {
    assert PortsRight(s.wires, e.id, s.faces[e.id]);
  }

  lemma DimCounts(f: Face, id: int, a: End, e: End)
    requires LampsRight(f) && FaceHas(f, id, a) && e.id == id && FaceHas(f, id, e)
    ensures var g := DimAt(f, id, a);
            g == f.(ports := g.ports) && LampsRight(g) && CountAt(g, e) == Less(CountAt(f, e), if a == e then 1 else 0)
  {
  }

  /** A button has lost as many connections as its port lost wires, and never went below zero. */
  ghost predicate Lost(s: Patch, r: Patch, e: End) {
    && OnFace(s, e) && LampsRight(s.faces[e.id]) && OnFace(r, e) && LampsRight(r.faces[e.id])
    && Load(r.wires, e) <= Load(s.wires, e)
    && Shown(r, e) == Less(Shown(s, e), Load(s.wires, e) - Load(r.wires, e))
  }

  lemma LostBoth(a: Patch, b: Patch, c: Patch, e: End)
    requires Lost(a, b, e) && Lost(b, c, e)
    ensures Lost(a, c, e)
  {
  }

  lemma DisconnectFace(s: Patch, i: nat, e: End)
    requires i < |s.wires| && WireOk(s, s.wires[i]) && OnFace(s, e) && LampsRight(s.faces[e.id])
    ensures var r, w := Disconnect(s, i), s.wires[i];
            && e.id in r.faces
            && r.faces[e.id] == DimAt(DimAt(s.faces[e.id], e.id, OutEnd(w)), e.id, InEnd(w))
            && FaceHas(s.faces[e.id], e.id, OutEnd(w)) && FaceHas(s.faces[e.id], e.id, InEnd(w))
  {
    DimFaces(s, OutEnd(s.wires[i]), InEnd(s.wires[i]), e.id);
  }

  lemma DisconnectLost(s: Patch, i: nat, e: End, r: Patch)
    requires i < |s.wires| && WireOk(s, s.wires[i]) && OnFace(s, e) && LampsRight(s.faces[e.id])
    requires r == Disconnect(s, i)
    ensures Lost(s, r, e)
  {
    var w, f := s.wires[i], s.faces[e.id];
    LoadRemove(s.wires, i, e);
    DisconnectFace(s, i, e);
    DimCounts(f, e.id, OutEnd(w), e);
    DimCounts(DimAt(f, e.id, OutEnd(w)), e.id, InEnd(w), e);
  }

  lemma {:induction false} DropLost(s: Patch, d: Doom, e: End)
    requires AllWiresOk(s) && OneWirePerInput(s.wires) && OnFace(s, e) && LampsRight(s.faces[e.id])
    ensures Lost(s, DropAll(s, d), e)
    decreases |s.wires|
  {
    var i := FirstDoomed(s.wires, d);
    if i < |s.wires| {
      assert WireOk(s, s.wires[i]);
      DisconnectWires(s, i);
      DisconnectLoads(s, i);
      var t := Disconnect(s, i);
      DisconnectLost(s, i, e, t);
      DropLost(t, d, e);
      LostBoth(s, t, DropAll(t, d), e);
    }
  }

  // ------------------------------------------------- the right button on a port

  lemma NoneLeft(ws: seq<Wire>, rs: seq<Wire>, at: seq<nat>, e: End)
    requires Picked(ws, rs, at) && forall i: nat :: i < |ws| && Touches(ws[i], e) ==> i !in at
    ensures forall k :: 0 <= k < |rs| ==> !Touches(rs[k], e)
  {
    forall k | 0 <= k < |rs| ensures !Touches(rs[k], e) { assert at[k] in at; }
  }

  /** An input whose wires are as they were reads what it read. */
  lemma SameWiresSameReading(s: Patch, r: Patch, at: seq<nat>, id: int, p: nat)
    requires Good(s) && Good(r) && SamePlugShape(s, r) && id in s.plugs && p < |s.plugs[id].sockets|
    requires Picked(s.wires, r.wires, at)
    requires forall i: nat :: i < |s.wires| && Touches(s.wires[i], In(id, p)) ==> i in at
    ensures r.plugs[id].sockets[p] == s.plugs[id].sockets[p]
  {
    InputReadsItsWire(s, id, p);
    InputReadsItsWire(r, id, p);
    if i: nat :| i < |s.wires| && Touches(s.wires[i], In(id, p)) {
      var k :| 0 <= k < |at| && at[k] == i;
      assert Touches(r.wires[k], In(id, p));
    } else {
      NoneLeft(s.wires, r.wires, at, In(id, p));
    }
  }

  lemma CutWires(s: Patch, e: End, r: Patch) returns (at: seq<nat>)
    requires r == PortOff(s, e)
    ensures ViewOf(r) == ViewOf(s).(wires := r.wires, pending := NO_WIRE) && SamePlugShape(s, r)
    ensures Picked(s.wires, r.wires, at) && forall i: nat :: i in at <==> i < |s.wires| && !Touches(s.wires[i], e)
  {
    CutIs(s, e);
    DropAllShape(s, AtPort(e));
    at := FilterPicks(s.wires, (w: Wire) => !Touches(w, e));
  }

  /** The right button on a port of a live device, input or output: exactly the wires at that
      port go, the others keep their order, nothing is in hand, each button loses what it lost,
      and an input reads what it read unless a wire that went had fed it. */
  lemma RightPress(s: Patch, e: End, r: Patch) returns (at: seq<nat>)
    requires Good(s) && OnFace(s, e) && !s.faces[e.id].killed && r == Press(s, e, Right)
    ensures Good(r) && ViewOf(r) == ViewOf(s).(wires := r.wires, pending := NO_WIRE)
    ensures Picked(s.wires, r.wires, at) && forall i: nat :: i in at <==> i < |s.wires| && !Touches(s.wires[i], e)
    ensures Load(r.wires, e) == 0
    ensures forall id, p: nat :: id in s.plugs && p < |s.plugs[id].sockets| ==>
              && id in r.plugs && |r.plugs[id].sockets| == |s.plugs[id].sockets|
              && r.plugs[id].sockets[p]
                 == if exists i :: 0 <= i < |s.wires| && Touches(s.wires[i], e) && Touches(s.wires[i], In(id, p))
                    then None else s.plugs[id].sockets[p]
  {
    PressGood(s, e, Right);
    at := CutWires(s, e, r);
    NoneLeft(s.wires, r.wires, at, e);
    LoadSpared(r.wires, e);
    forall id, p: nat | id in s.plugs && p < |s.plugs[id].sockets|
      ensures r.plugs[id].sockets[p]
              == if exists i :: 0 <= i < |s.wires| && Touches(s.wires[i], e) && Touches(s.wires[i], In(id, p))
                 then None else s.plugs[id].sockets[p]
    {
      CutReading(s, e, r, at, id, p);
    }
  }

  lemma CutReading(s: Patch, e: End, r: Patch, at: seq<nat>, id: int, p: nat)
    requires Good(s) && Good(r) && SamePlugShape(s, r) && id in s.plugs && p < |s.plugs[id].sockets|
    requires Picked(s.wires, r.wires, at) && forall i: nat :: i in at <==> i < |s.wires| && !Touches(s.wires[i], e)
    ensures r.plugs[id].sockets[p]
            == if exists i :: 0 <= i < |s.wires| && Touches(s.wires[i], e) && Touches(s.wires[i], In(id, p))
               then None else s.plugs[id].sockets[p]
  {
    if i: nat :| i < |s.wires| && Touches(s.wires[i], e) && Touches(s.wires[i], In(id, p)) {
      InputReadsItsWire(r, id, p);
      SeparateInputs(s.wires);
      forall j: nat | j < |s.wires| && Touches(s.wires[j], In(id, p)) ensures j !in at {
        assert InEnd(s.wires[i]) == InEnd(s.wires[j]);
      }
      NoneLeft(s.wires, r.wires, at, In(id, p));
    } else {
      SameWiresSameReading(s, r, at, id, p);
    }
  }

  /** ... and each button of the canvas shows as many less as its port lost wires. */
  lemma RightPressCounts(s: Patch, e: End, r: Patch, x: End)
    requires Good(s) && OnFace(s, e) && !s.faces[e.id].killed && OnFace(s, x) && r == Press(s, e, Right)
    ensures Lost(s, r, x)
  {
    LampsAre(s, x);
    var t := DropAll(s, AtPort(e));
    DropLost(s, AtPort(e), x);
    assert r.faces == t.faces && r.wires == t.wires;
  }

  // --------------------------------------------------- the left button on a port

  lemma LightShown(s: Patch, a: End, b: End, x: End, r: Patch)
    requires OnFace(s, a) && OnFace(s, b) && a != b && OnFace(s, x) && LampsRight(s.faces[x.id])
    requires x.id in r.faces && r.faces[x.id] == LightAt(LightAt(s.faces[x.id], x.id, a), x.id, b)
    ensures OnFace(r, x) && LampsRight(r.faces[x.id])
    ensures Shown(r, x) == Shown(s, x) + (if x == a || x == b then 1 else 0)
  {
    LightCounts(s.faces[x.id], x.id, a, x);
    LightCounts(LightAt(s.faces[x.id], x.id, a), x.id, b, x);
  }

  /** A wire in hand wants an end of this kind, and the port is a free one of a live device. */
  ghost predicate Wants(s: Patch, e: End) {
    && OnFace(s, e) && !s.faces[e.id].killed && (e.In? ==> Load(s.wires, e) == 0)
    && (if e.Out? then s.pending.outId == -1 && s.pending.inId != -1
        else s.pending.inId == -1 && s.pending.outId != -1)
  }

  lemma LayIsSeen(s: Patch, e: End, r: Patch, w: Wire)
    requires Good(s) && Wants(s, e)
    requires w == Joined(s.pending, e, s.faces[e.id].terminal) && r == Press(s, e, Left)
    ensures ViewOf(r) == ViewOf(s).(wires := s.wires + [w], pending := NO_WIRE)
  {
    PressIs(s, e, Left);
    PortsSeen(s, e);
    WiredIsLoaded(s.wires, e);
    assert e.id != -1 by { assert IdsBelow(s); }
  }

  /** The left button on a port, with a wire in hand that wants one of this kind: the wire is
      laid last and its input reads its output. */
  lemma LeftPressLays(s: Patch, e: End, r: Patch, w: Wire)
    requires Good(s) && Wants(s, e)
    requires w == Joined(s.pending, e, s.faces[e.id].terminal) && r == Press(s, e, Left)
    ensures Good(r) && ViewOf(r) == ViewOf(s).(wires := s.wires + [w], pending := NO_WIRE)
    ensures WireOk(r, w) && SamePlugShape(s, r)
    ensures r.plugs[w.inId].sockets[w.inPort] == Some(s.plugs[w.outId].buffers[w.outPort])
  {
    PressGood(s, e, Left);
    LayIsSeen(s, e, r, w);
    PressBuffers(s, e, Left);
    assert r.wires[|s.wires|] == w;
    assert WireOk(r, w);
  }

  /** ... and both its buttons show one more, and no other. */
  lemma LeftPressShows(s: Patch, e: End, r: Patch, w: Wire, x: End)
    requires Good(s) && Wants(s, e) && OnFace(s, x)
    requires w == Joined(s.pending, e, s.faces[e.id].terminal) && r == Press(s, e, Left)
    ensures LampsRight(s.faces[x.id]) && OnFace(r, x) && LampsRight(r.faces[x.id])
    ensures Shown(r, x) == Shown(s, x) + (if x == OutEnd(w) || x == InEnd(w) then 1 else 0)
  {
    if e.In? { InputLit(s, e); WiredIsLoaded(s.wires, e); }
    LampsAre(s, x);
    var t := TakeEnd(s, e);
    LightFaces(t, OutEnd(w), InEnd(w), x.id);
    assert e.id != -1 by { assert IdsBelow(s); }
    assert r == Connect(t, w).(pending := NO_WIRE);
    LightShown(s, OutEnd(w), InEnd(w), x, r);
  }

  /** With one of this kind in hand already it is dropped, and its button shows one less. */
  lemma LeftPressDrops(s: Patch, e: End, r: Patch, x: End)
    requires Good(s) && OnFace(s, e) && !s.faces[e.id].killed && (e.In? ==> Load(s.wires, e) == 0)
    requires SameKind(s.pending, e) && r == Press(s, e, Left) && OnFace(s, x)
    ensures Good(r) && ViewOf(r) == ViewOf(s).(pending := NO_WIRE)
    ensures r.plugs == s.plugs
    ensures LampsRight(s.faces[x.id]) && OnFace(r, x) && LampsRight(r.faces[x.id])
    ensures var held := if e.Out? then OutEnd(s.pending) else InEnd(s.pending);
            Shown(r, x) == Less(Shown(s, x), if x == held then 1 else 0)
  {
    PressGood(s, e, Left);
    if e.In? { InputLit(s, e); WiredIsLoaded(s.wires, e); }
    PressIs(s, e, Left);
    PortsSeen(s, e);
    WiredIsLoaded(s.wires, e);
    LampsAre(s, x);
    var held := if e.Out? then OutEnd(s.pending) else InEnd(s.pending);
    assert r == ClearPending(s);
    CancelFaces(s, x.id);
    DimCounts(s.faces[x.id], x.id, held, x);
  }

  // -------------------------------------------------- numbers of JACK ports

  lemma NumberedIs(s: Patch, id: int, n: int, m: int, r: Patch, ins: nat, outs: nat)
    requires id in s.faces && id in s.plugs && r == SetNumberPorts(s, id, n, m)
    requires ins == Between(2, n, 64) && outs == Between(2, m, 64)
    ensures ViewOf(r) == UserView.Resize(ViewOf(s), id, ins, outs) && id in r.faces && id in r.plugs
    ensures r.faces[id].inputs == |r.plugs[id].sockets| == ins
    ensures r.faces[id].outputs == |r.plugs[id].buffers| == outs
  {
    ResizeJackIs(s, id, n, m);
    assert id in ViewOf(r).devices && id in ViewOf(r).plugins;
    assert ViewOf(r).devices[id] == LayoutOf(r.faces[id]);
    assert ViewOf(r).plugins[id] == SizeOf(r.plugs[id]);
  }

  lemma NumberedOthers(s: Patch, id: int, r: Patch, ins: nat, outs: nat)
    requires id in s.faces && id in s.plugs && ViewOf(r) == UserView.Resize(ViewOf(s), id, ins, outs)
    ensures r.faces.Keys == s.faces.Keys && r.plugs.Keys == s.plugs.Keys
    ensures forall k :: k in s.faces && k != id ==> LayoutOf(r.faces[k]) == LayoutOf(s.faces[k])
  {
    var u, v := ViewOf(s), ViewOf(r);
    assert r.faces.Keys == v.devices.Keys && r.plugs.Keys == v.plugins.Keys;
    assert s.faces.Keys == u.devices.Keys && s.plugs.Keys == u.plugins.Keys;
    forall k | k in s.faces && k != id ensures LayoutOf(r.faces[k]) == LayoutOf(s.faces[k]) {
      assert v.devices[k] == u.devices[k];
    }
  }

  lemma NumberedWires(s: Patch, id: int, r: Patch, ins: nat, outs: nat) returns (at: seq<nat>)
    requires id in s.faces && ViewOf(r) == UserView.Resize(ViewOf(s), id, ins, outs)
    ensures Picked(s.wires, r.wires, at)
    ensures forall i: nat :: i in at <==>
              i < |s.wires| && !(s.wires[i].inId == id && s.wires[i].inPort >= ins)
              && !(s.wires[i].outId == id && s.wires[i].outPort >= outs)
  {
    at := FilterPicks(s.wires, (w: Wire) => WithinSize(w, id, ins, outs));
  }

  /** Asked for any numbers of ports, a JACK device and its plugin have the number asked for
      or the nearest allowed, and a wire goes if and only if it is at this device at a port
      not below that number; no other device changes its ports. */
  lemma SetNumberPortsExact(s: Patch, id: int, n: int, m: int, r: Patch) returns (at: seq<nat>)
    requires id in s.faces && id in s.plugs && r == SetNumberPorts(s, id, n, m)
    ensures id in r.faces && id in r.plugs
    ensures r.faces[id].inputs == |r.plugs[id].sockets| && AsAsked(n, |r.plugs[id].sockets|)
    ensures r.faces[id].outputs == |r.plugs[id].buffers| && AsAsked(m, |r.plugs[id].buffers|)
    ensures Picked(s.wires, r.wires, at)
    ensures forall i: nat :: i in at <==>
              i < |s.wires| && !(s.wires[i].inId == id && s.wires[i].inPort >= |r.plugs[id].sockets|)
              && !(s.wires[i].outId == id && s.wires[i].outPort >= |r.plugs[id].buffers|)
    ensures r.faces.Keys == s.faces.Keys && r.plugs.Keys == s.plugs.Keys
    ensures forall k :: k in s.faces && k != id ==> LayoutOf(r.faces[k]) == LayoutOf(s.faces[k])
  {
    var ins, outs := Between(2, n, 64), Between(2, m, 64);
    NumberedIs(s, id, n, m, r, ins, outs);
    NumberedOthers(s, id, r, ins, outs);
    at := NumberedWires(s, id, r, ins, outs);
  }

  // ------------------------------------------------------ a device leaves

  lemma RunThree(s: Patch, a: Event, b: Event, c: Event)
    ensures Run(s, [a, b, c]) == Step(Step(Step(s, a), b), c)
  {
    assert [a, b, c][1..] == [b, c];
    RunTwo(Step(s, a), b, c);
  }

  lemma DoThree(v: View, a: Event, b: Event, c: Event)
    ensures DoAll(v, [a, b, c]) == Do(Do(Do(v, a), b), c)
  {
    assert [a, b, c][1..] == [b, c] && [b, c][1..] == [c] && [c][1..] == [];
    assert DoAll(Do(Do(v, a), b), [c]) == DoAll(Do(Do(Do(v, a), b), c), []);
    assert DoAll(Do(v, a), [b, c]) == DoAll(Do(Do(v, a), b), [c]);
  }

  lemma GoneIs(v: View, id: int)
    requires id in v.devices
    ensures DoAll(v, [Kill(id), Sweep(id), Reap(id)])
            == View(v.devices - {id}, v.plugins - {id}, Filter(v.wires, (w: Wire) => !AtDevice(w, id)),
                    LetGo(v.pending, id), v.nextId)
  {
    DoThree(v, Kill(id), Sweep(id), Reap(id));
    var a := Do(v, Kill(id));
    assert a.devices - {id} == v.devices - {id};
    assert id !in Do(a, Sweep(id)).devices;
    assert id !in v.plugins ==> v.plugins - {id} == v.plugins;
  }

  /** A device that is killed, swept from the canvas and reaped leaves no trace: its face and
      plugin are gone, so are exactly the wires that were at it, and the gesture if it was on
      it; no other device is touched. */
  lemma DeviceGone(s: Patch, id: int, r: Patch) returns (at: seq<nat>)
    requires Good(s) && id in s.faces && r == Run(s, [Kill(id), Sweep(id), Reap(id)])
    ensures Good(r) && r.faces.Keys == s.faces.Keys - {id} && r.plugs.Keys == s.plugs.Keys - {id}
    ensures Picked(s.wires, r.wires, at)
    ensures forall i: nat :: i in at <==> i < |s.wires| && s.wires[i].outId != id && s.wires[i].inId != id
    ensures r.pending == if s.pending.outId == id || s.pending.inId == id then NO_WIRE else s.pending
    ensures forall k :: k in r.faces ==> LayoutOf(r.faces[k]) == LayoutOf(s.faces[k])
  {
    RunGood(s, [Kill(id), Sweep(id), Reap(id)]);
    RunIsSeen(s, [Kill(id), Sweep(id), Reap(id)]);
    GoneIs(ViewOf(s), id);
    at := FilterPicks(s.wires, (w: Wire) => !AtDevice(w, id));
    var v := ViewOf(r);
    assert r.faces.Keys == v.devices.Keys && r.plugs.Keys == v.plugins.Keys;
    assert ViewOf(s).devices.Keys == s.faces.Keys && ViewOf(s).plugins.Keys == s.plugs.Keys;
    assert id != -1 by { assert IdsBelow(s); }
    forall k | k in r.faces ensures LayoutOf(r.faces[k]) == LayoutOf(s.faces[k]) {
      assert v.devices[k] == ViewOf(s).devices[k];
    }
  }
}
