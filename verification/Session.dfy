/**
 Whole editing sessions: every event that can reach the wiring, runs of events, and
 what holds in each state a session can be in.
 */
module Session {
  import opened Wrappers
  import opened Wiring
  import opened JackPorts

  datatype Event =
    | PressPort(end: End, button: Button)
    | PressCanvas
    | NewDevice(inputs: nat, outputs: nat, terminal: bool)
    | NewComment
    | Kill(id: int)
    | Sweep(id: int)
    | Reap(id: int)
    | Relayout(id: int, inputs: nat, outputs: nat)
    | ResizeJack(id: int, nInputs: int, nOutputs: int)
    | MoreChannels(id: int)
    | FewerChannels(id: int)

  function FreshPlug(inputs: nat, outputs: nat, next: nat): Plug {
    Plug(seq(inputs, _ => None), seq(outputs, i => next + i))
  }

  /** A plugin that rebuilt all its ports: nothing bound, new buffers throughout. */
  function Replug(s: Patch, id: int, inputs: nat, outputs: nat): Patch {
    s.(plugs := s.plugs[id := FreshPlug(inputs, outputs, s.nextBuffer)], nextBuffer := s.nextBuffer + outputs)
  }

  function AddFace(s: Patch, inputs: nat, outputs: nat, terminal: bool): Patch {
    var blank := Face(inputs, outputs, terminal, false, seq(inputs + outputs, _ => Port(0, false)));
    s.(faces := s.faces[s.nextId := blank], nextId := s.nextId + 1)
  }

  function Step(s: Patch, e: Event): Patch {
    match e
    case PressPort(end, button) => Press(s, end, button)
    case PressCanvas => ClearPending(s)
    case NewDevice(ins, outs, terminal) => AddFace(Replug(s, s.nextId, ins, outs), ins, outs, terminal)
    case NewComment => AddFace(s, 0, 0, false)
    case Kill(id) => if id in s.faces then s.(faces := s.faces[id := s.faces[id].(killed := true)]) else s
    case Sweep(id) => if id in s.faces && s.faces[id].killed then Remove(s, id) else s
    case Reap(id) => if id in s.plugs && id !in s.faces then s.(plugs := s.plugs - {id}) else s
    case Relayout(id, ins, outs) =>
      if id in s.faces && id in s.plugs then SetupPorts(Replug(s, id, ins, outs), id, ins, outs, false) else s
    case ResizeJack(id, n, m) =>
      if id in s.faces && id in s.plugs then SetNumberPorts(s, id, n, m) else s
    case MoreChannels(id) => if id in s.faces && id in s.plugs then AddChannel(s, id) else s
    case FewerChannels(id) => if id in s.faces && id in s.plugs then RemoveChannel(s, id) else s
  }

  function Run(s: Patch, es: seq<Event>): Patch
    decreases |es|
  {
    if es == [] then s else Run(Step(s, es[0]), es[1..])
  }

  // ------------------------------------------------------------- each event

  lemma ReplugApart(plugs: map<int, Plug>, next: nat, id: int, inputs: nat, outputs: nat)
    requires BuffersApart(plugs, next)
    ensures BuffersApart(plugs[id := FreshPlug(inputs, outputs, next)], next + outputs)
  {
  }

  /** Replacing a plugin no wire touches. */
  lemma ReplugCore(s: Patch, id: int, inputs: nat, outputs: nat)
    requires Core(s) && Within(s.wires, id, 0, 0) && 0 <= id < s.nextId
    ensures Core(Replug(s, id, inputs, outputs))
  {
    var r := Replug(s, id, inputs, outputs);
    forall i | 0 <= i < |r.wires| ensures WireOk(r, r.wires[i]) {
      assert WireOk(s, s.wires[i]) && !Doomed(Beyond(id, 0, 0), s.wires[i]);
    }
    ReplugApart(s.plugs, s.nextBuffer, id, inputs, outputs);
  }

  lemma UnbindReplug(s: Patch, w: Wire, id: int, inputs: nat, outputs: nat)
    requires id in s.plugs
    ensures Unbind(Replug(s, id, inputs, outputs), w) == Replug(Unbind(s, w), id, inputs, outputs)
  {
    if w.inId == id && 0 <= w.inPort < inputs {
      var blank := FreshPlug(inputs, outputs, s.nextBuffer);
      assert blank.sockets[w.inPort := None] == blank.sockets;
    }
    assert Unbind(Replug(s, id, inputs, outputs), w).plugs == Replug(Unbind(s, w), id, inputs, outputs).plugs;
  }

  lemma DimReplug(s: Patch, a: End, b: End, id: int, inputs: nat, outputs: nat)
    ensures Dim(Dim(Replug(s, id, inputs, outputs), a), b) == Replug(Dim(Dim(s, a), b), id, inputs, outputs)
  {
  }

  lemma DisconnectReplug(s: Patch, i: nat, id: int, inputs: nat, outputs: nat)
    requires i < |s.wires| && id in s.plugs
    ensures Disconnect(Replug(s, id, inputs, outputs), i) == Replug(Disconnect(s, i), id, inputs, outputs)
  {
    var w := s.wires[i];
    DimReplug(s, OutEnd(w), InEnd(w), id, inputs, outputs);
    UnbindReplug(Dim(Dim(s, OutEnd(w)), InEnd(w)), w, id, inputs, outputs);
  }

  lemma {:induction false} DropAllReplug(s: Patch, d: Doom, id: int, inputs: nat, outputs: nat)
    requires id in s.plugs
    ensures DropAll(Replug(s, id, inputs, outputs), d) == Replug(DropAll(s, d), id, inputs, outputs)
    decreases |s.wires|
  {
    var i := FirstDoomed(s.wires, d);
    if i < |s.wires| {
      DisconnectReplug(s, i, id, inputs, outputs);
      DropAllReplug(Disconnect(s, i), d, id, inputs, outputs);
    }
  }

  lemma PruneReplug(s: Patch, id: int, inputs: nat, outputs: nat)
    requires id in s.plugs
    ensures Prune(Replug(s, id, inputs, outputs), id, 0, 0) == Replug(Prune(s, id, 0, 0), id, inputs, outputs)
  {
    assert ClearPending(Replug(s, id, inputs, outputs)) == Replug(ClearPending(s), id, inputs, outputs);
    var t := if PendingOn(s, id) then ClearPending(s) else s;
    DropAllReplug(t, Beyond(id, 0, 0), id, inputs, outputs);
  }

  function BlankAt(t: Patch, id: int, inputs: nat, outputs: nat): Patch {
    if id in t.faces then t.(faces := t.faces[id := BlankFace(t.faces[id], inputs, outputs)]) else t
  }

  lemma SetupUnpreserved(s: Patch, id: int, inputs: nat, outputs: nat)
    requires id in s.faces
    ensures SetupPorts(s, id, inputs, outputs, false) == BlankAt(Prune(s, id, 0, 0), id, inputs, outputs)
  {
  }

  lemma BlankReplug(t: Patch, id: int, inputs: nat, outputs: nat)
    ensures BlankAt(Replug(t, id, inputs, outputs), id, inputs, outputs)
            == Replug(BlankAt(t, id, inputs, outputs), id, inputs, outputs)
  {
  }

  /** Telling the canvas after rebuilding the plugin ends where telling it before would. */
  lemma RelayoutIs(s: Patch, id: int, inputs: nat, outputs: nat)
    requires id in s.faces && id in s.plugs
    ensures SetupPorts(Replug(s, id, inputs, outputs), id, inputs, outputs, false)
            == Replug(SetupPorts(s, id, inputs, outputs, false), id, inputs, outputs)
  {
    SetupUnpreserved(Replug(s, id, inputs, outputs), id, inputs, outputs);
    SetupUnpreserved(s, id, inputs, outputs);
    PruneReplug(s, id, inputs, outputs);
    BlankReplug(Prune(s, id, 0, 0), id, inputs, outputs);
  }

  lemma RelaidSynced(s: Patch, t: Patch, id: int, inputs: nat, outputs: nat)
    requires Synced(s) && Relaid(s, t, id, inputs, outputs)
    ensures Synced(Replug(t, id, inputs, outputs))
  {
  }

  lemma RelaidGood(s: Patch, t: Patch, id: int, inputs: nat, outputs: nat)
    requires Good(s) && Relaid(s, t, id, inputs, outputs) && Core(t) && Within(t.wires, id, 0, 0)
    ensures Good(Replug(t, id, inputs, outputs))
  {
    RelaidSynced(s, t, id, inputs, outputs);
    ReplugCore(t, id, inputs, outputs);
  }

  lemma RelayoutGood(s: Patch, id: int, inputs: nat, outputs: nat)
    requires Good(s) && id in s.faces && id in s.plugs
    ensures Good(SetupPorts(Replug(s, id, inputs, outputs), id, inputs, outputs, false))
  {
    var t := SetupPorts(s, id, inputs, outputs, false);
    SetupPortsCore(s, id, inputs, outputs, false);
    RelayoutIs(s, id, inputs, outputs);
    forall i | 0 <= i < |t.wires| ensures !Doomed(Beyond(id, 0, 0), t.wires[i]) {
      KeepSpares(s.wires, Beyond(id, 0, 0), i);
    }
    RelaidGood(s, t, id, inputs, outputs);
  }

  /** A new id is on no wire and in no gesture. */
  lemma NewIdUnused(s: Patch)
    requires AllWiresOk(s) && IdsBelow(s) && PendingOk(s)
    ensures Within(s.wires, s.nextId, 0, 0) && !PendingOn(s, s.nextId)
  {
    forall i | 0 <= i < |s.wires| ensures !Doomed(Beyond(s.nextId, 0, 0), s.wires[i]) {
      assert WireOk(s, s.wires[i]);
    }
  }

  lemma AddFaceCore(s: Patch, inputs: nat, outputs: nat, terminal: bool)
    requires Core(s.(nextId := s.nextId + 1)) && s.nextId !in s.faces && Within(s.wires, s.nextId, 0, 0)
    ensures Core(AddFace(s, inputs, outputs, terminal))
  {
    var r := AddFace(s, inputs, outputs, terminal);
    var t := s.(nextId := s.nextId + 1);
    forall i | 0 <= i < |r.wires| ensures WireOk(r, r.wires[i]) { assert WireOk(t, t.wires[i]); }
    BlankRight(s.wires, s.nextId, r.faces[s.nextId], inputs, outputs);
    assert BlankFace(r.faces[s.nextId], inputs, outputs) == r.faces[s.nextId];
    assert AllPortsRight(r) by {
      forall k | k in r.faces ensures PortsRight(r.wires, k, r.faces[k]) {
        if k != s.nextId { assert PortsRight(t.wires, k, t.faces[k]); }
      }
    }
  }

  lemma RoomForOne(s: Patch)
    requires Core(s)
    ensures Core(s.(nextId := s.nextId + 1))
  {
    var t := s.(nextId := s.nextId + 1);
    forall i | 0 <= i < |t.wires| ensures WireOk(t, t.wires[i]) { assert WireOk(s, s.wires[i]); }
  }

  lemma NewDeviceSynced(s: Patch, inputs: nat, outputs: nat, terminal: bool)
    requires Synced(s)
    ensures Synced(AddFace(Replug(s, s.nextId, inputs, outputs), inputs, outputs, terminal))
  {
  }

  lemma NewDeviceCore(s: Patch, inputs: nat, outputs: nat, terminal: bool)
    requires Core(s) && Core(s.(nextId := s.nextId + 1)) && s.nextId !in s.faces
    ensures Core(AddFace(Replug(s, s.nextId, inputs, outputs), inputs, outputs, terminal))
  {
    NewIdUnused(s);
    ReplugCore(s.(nextId := s.nextId + 1), s.nextId, inputs, outputs);
    AddFaceCore(Replug(s, s.nextId, inputs, outputs), inputs, outputs, terminal);
  }

  lemma NewDeviceGood(s: Patch, inputs: nat, outputs: nat, terminal: bool)
    requires Good(s)
    ensures Good(AddFace(Replug(s, s.nextId, inputs, outputs), inputs, outputs, terminal))
  {
    RoomForOne(s);
    NewDeviceSynced(s, inputs, outputs, terminal);
    NewDeviceCore(s, inputs, outputs, terminal);
  }

  lemma NewCommentGood(s: Patch)
    requires Good(s)
    ensures Good(AddFace(s, 0, 0, false))
  {
    NewIdUnused(s);
    RoomForOne(s);
    AddFaceCore(s, 0, 0, false);
  }

  lemma KillGood(s: Patch, id: int)
    requires Good(s) && id in s.faces
    ensures Good(s.(faces := s.faces[id := s.faces[id].(killed := true)]))
  {
    var g := s.faces[id].(killed := true);
    var r := s.(faces := s.faces[id := g]);
    FacesBlind(s, r);
    KilledRight(s.wires, id, s.faces[id]);
    OneFacePorts(s, id, g);
    SameShapeSynced(s, r);
  }

  lemma KilledRight(ws: seq<Wire>, id: int, f: Face)
    requires PortsRight(ws, id, f)
    ensures PortsRight(ws, id, f.(killed := true))
  {
  }

  lemma ReapGood(s: Patch, id: int)
    requires Good(s) && id !in s.faces
    ensures Good(s.(plugs := s.plugs - {id}))
  {
    var r := s.(plugs := s.plugs - {id});
    forall i | 0 <= i < |r.wires| ensures WireOk(r, r.wires[i]) { assert WireOk(s, s.wires[i]); }
  }

  lemma StepGood(s: Patch, e: Event)
    requires Good(s)
    ensures Good(Step(s, e))
  {
    match e
    case PressPort(end, button) => PressGood(s, end, button);
    case PressCanvas => ClearPendingCore(s); SameShapeSynced(s, ClearPending(s));
    case NewDevice(ins, outs, terminal) => NewDeviceGood(s, ins, outs, terminal);
    case NewComment => NewCommentGood(s);
    case Kill(id) => if id in s.faces { KillGood(s, id); }
    case Sweep(id) => RemoveGood(s, id);
    case Reap(id) => if id !in s.faces { ReapGood(s, id); }
    case Relayout(id, ins, outs) => if id in s.faces && id in s.plugs { RelayoutGood(s, id, ins, outs); }
    case ResizeJack(id, n, m) => if id in s.faces && id in s.plugs { SetNumberPortsGood(s, id, n, m); }
    case MoreChannels(id) =>
      if id in s.faces && id in s.plugs && |s.plugs[id].sockets| < MOST_CHANNELS { AddChannelGood(s, id, Step(s, e)); }
    case FewerChannels(id) =>
      if id in s.faces && id in s.plugs && |s.plugs[id].sockets| > FEWEST_CHANNELS {
        RemoveChannelGood(s, id, |s.plugs[id].sockets| - 1, |s.plugs[id].buffers|, Step(s, e));
      }
  }

  lemma {:induction false} RunGood(s: Patch, es: seq<Event>)
    requires Good(s)
    ensures Good(Run(s, es))
    decreases |es|
  {
    if es != [] {
      StepGood(s, es[0]);
      RunGood(Step(s, es[0]), es[1..]);
    }
  }

  // -------------------------------------------------------- what that means

  /** Every session, from an empty canvas: live ends, one wire per input, each input
      bound to what its wire names and otherwise to nothing, exact input counts,
      bounded output counts, and lights that agree with the counts. */
  lemma EverySession(es: seq<Event>)
    ensures var s := Run(EMPTY, es);
      && (forall i :: 0 <= i < |s.wires| ==> OnFace(s, OutEnd(s.wires[i])) && OnFace(s, InEnd(s.wires[i])))
      && (forall i, j :: 0 <= i < j < |s.wires| ==> InEnd(s.wires[i]) != InEnd(s.wires[j]))
      && AllPortsRight(s) && Synced(s)
    ensures var s := Run(EMPTY, es);
      forall id, p :: id in s.plugs && 0 <= p < |s.plugs[id].sockets| ==>
        && (s.plugs[id].sockets[p].Some? <==> exists i :: 0 <= i < |s.wires| && Touches(s.wires[i], In(id, p)))
        && (forall i :: 0 <= i < |s.wires| && Touches(s.wires[i], In(id, p)) ==>
              && s.wires[i].outId in s.plugs
              && 0 <= s.wires[i].outPort < |s.plugs[s.wires[i].outId].buffers|
              && s.plugs[id].sockets[p] == Some(s.plugs[s.wires[i].outId].buffers[s.wires[i].outPort]))
  {
    var s := Run(EMPTY, es);
    RunGood(EMPTY, es);
    forall i | 0 <= i < |s.wires| ensures OnFace(s, OutEnd(s.wires[i])) && OnFace(s, InEnd(s.wires[i])) {
      assert WireOk(s, s.wires[i]);
    }
    SeparateInputs(s.wires);
    forall id, p | id in s.plugs && 0 <= p < |s.plugs[id].sockets|
      ensures s.plugs[id].sockets[p].Some? <==> exists i :: 0 <= i < |s.wires| && Touches(s.wires[i], In(id, p))
      ensures forall i :: 0 <= i < |s.wires| && Touches(s.wires[i], In(id, p)) ==>
        && s.wires[i].outId in s.plugs
        && 0 <= s.wires[i].outPort < |s.plugs[s.wires[i].outId].buffers|
        && s.plugs[id].sockets[p] == Some(s.plugs[s.wires[i].outId].buffers[s.wires[i].outPort])
    {
      InputReadsItsWire(s, id, p);
    }
  }

  lemma SeparateInputs(ws: seq<Wire>)
    requires OneWirePerInput(ws)
    ensures forall i, j :: 0 <= i < j < |ws| ==> InEnd(ws[i]) != InEnd(ws[j])
  {
    forall i, j | 0 <= i < j < |ws| ensures InEnd(ws[i]) != InEnd(ws[j]) {
      if InEnd(ws[i]) == InEnd(ws[j]) { LoadTwo(ws, i, j, InEnd(ws[i])); }
    }
  }

  // --------------------------------------------------- gestures undo and commute

  lemma {:induction false} FirstDoomedLast(ws: seq<Wire>, w: Wire, e: End)
    requires Load(ws, e) == 0 && Touches(w, e)
    ensures FirstDoomed(ws + [w], AtPort(e)) == |ws| && FirstDoomed(ws, AtPort(e)) == |ws|
    decreases |ws|
  {
    if ws != [] {
      assert (ws + [w])[1..] == ws[1..] + [w];
      FirstDoomedLast(ws[1..], w, e);
    }
  }

  lemma DimLights(f: Face, id: int, a: End, b: End)
    requires LampsRight(f) && FaceHas(f, id, a) && FaceHas(f, id, b) && a.Out? && b.In?
    ensures DimAt(DimAt(LightAt(LightAt(f, id, a), id, b), id, a), id, b) == f
  {
  }

  lemma CutLastFaces(s: Patch, w: Wire)
    requires AllPortsRight(s) && Fits(s, w)
    ensures Dim(Dim(Connect(s, w), OutEnd(w)), InEnd(w)).faces == s.faces
  {
    var c := Connect(s, w);
    var r := Dim(Dim(c, OutEnd(w)), InEnd(w));
    forall id | id in s.faces ensures r.faces[id] == s.faces[id] {
      LightFaces(s, OutEnd(w), InEnd(w), id);
      DimFaces(c, OutEnd(w), InEnd(w), id);
      assert PortsRight(s.wires, id, s.faces[id]);
      DimLights(s.faces[id], id, OutEnd(w), InEnd(w));
    }
    assert r.faces.Keys == s.faces.Keys;
  }

  lemma CutLastPlugs(s: Patch, w: Wire)
    requires AllPlugsRight(s) && Fits(s, w) && Load(s.wires, InEnd(w)) == 0
    ensures Unbind(Bind(s, w), w).plugs == s.plugs
  {
    assert PlugRight(s.wires, w.inId, s.plugs[w.inId]);
    var sockets := s.plugs[w.inId].sockets;
    assert sockets[w.inPort] == None;
    assert Unbind(Bind(s, w), w).plugs[w.inId].sockets == sockets;
  }

  lemma FacesAndPlugsApart(s: Patch, w: Wire)
    ensures Connect(s, w).plugs == Bind(s, w).plugs && Connect(s, w).wires == s.wires + [w]
    ensures Connect(s, w) == s.(faces := Connect(s, w).faces, plugs := Connect(s, w).plugs, wires := s.wires + [w])
  {
  }

  lemma UnbindPlugs(a: Patch, b: Patch, w: Wire)
    requires a.plugs == b.plugs
    ensures Unbind(a, w) == a.(plugs := Unbind(b, w).plugs)
  {
  }

  lemma CutLast(s: Patch, w: Wire)
    requires AllPortsRight(s) && AllPlugsRight(s) && Fits(s, w) && Load(s.wires, InEnd(w)) == 0
    ensures Connect(s, w).wires == s.wires + [w]
    ensures Disconnect(Connect(s, w), |s.wires|) == s
  {
    var c := Connect(s, w);
    FacesAndPlugsApart(s, w);
    CutLastFaces(s, w);
    CutLastPlugs(s, w);
    var d := Dim(Dim(c, OutEnd(w)), InEnd(w));
    UnbindPlugs(d, Bind(s, w), w);
    assert RemoveAt(c.wires, |s.wires|) == s.wires;
  }

  /** Drawing a wire and right-clicking its input gives back the very patch. */
  lemma ConnectThenCut(s: Patch, w: Wire)
    requires Good(s) && s.pending == NO_WIRE && Fits(s, w) && Load(s.wires, InEnd(w)) == 0
    ensures PortOff(Connect(s, w), InEnd(w)) == s
  {
    CutLast(s, w);
    FirstDoomedLast(s.wires, w, InEnd(w));
    assert DropAll(s, AtPort(InEnd(w))) == s;
  }

  lemma FirstEnd(s: Patch, e: End)
    requires s.pending == NO_WIRE && OnFace(s, e) && !s.faces[e.id].killed && (e.In? ==> !IsLit(s, e)) && e.id != -1
    ensures Press(s, e, Left) == TakeEnd(s, e)
  {
  }

  lemma SecondEnd(t: Patch, e: End, w: Wire)
    requires OnFace(t, e) && !t.faces[e.id].killed && (e.In? ==> !IsLit(t, e))
    requires if e.Out? then t.pending.outId == -1 && t.pending.inId != -1
             else t.pending.inId == -1 && t.pending.outId != -1
    requires TakeEnd(t, e) == t.(pending := w) && w.outId != -1 && w.inId != -1
    ensures Press(t, e, Left) == Connect(t.(pending := w), w).(pending := NO_WIRE)
  {
  }

  lemma ConnectForgets(s: Patch, w: Wire)
    requires s.pending == NO_WIRE
    ensures Connect(s.(pending := w), w).(pending := NO_WIRE) == Connect(s, w)
  {
  }

  /** A wire can be drawn from either end. */
  lemma EitherEndFirst(s: Patch, o: End, i: End)
    requires s.pending == NO_WIRE && o.Out? && i.In? && OnFace(s, o) && OnFace(s, i) && !IsLit(s, i)
    requires !s.faces[o.id].killed && !s.faces[i.id].killed && o.id != -1 && i.id != -1
    ensures Press(Press(s, o, Left), i, Left) == Press(Press(s, i, Left), o, Left)
    ensures Press(Press(s, o, Left), i, Left) ==
            Connect(s, Wire(o.id, o.port, s.faces[o.id].terminal, i.id, i.port, s.faces[i.id].terminal))
  {
    var w := Wire(o.id, o.port, s.faces[o.id].terminal, i.id, i.port, s.faces[i.id].terminal);
    FirstEnd(s, o);
    FirstEnd(s, i);
    SecondEnd(TakeEnd(s, o), i, w);
    SecondEnd(TakeEnd(s, i), o, w);
    ConnectForgets(s, w);
  }

  // --------------------------------------------- two promises, and when they hold

  ghost predicate AllExact(s: Patch) {
    forall id :: id in s.faces ==> ExactOutputs(s.wires, id, s.faces[id])
  }

  function CancelFace(f: Face, id: int, pending: Wire): Face {
    var g := if pending.outId != -1 then DimAt(f, id, OutEnd(pending)) else f;
    if pending.inId != -1 then DimAt(g, id, InEnd(pending)) else g
  }

  lemma CancelFaces(s: Patch, id: int)
    requires id in s.faces
    ensures id in ClearPending(s).faces && ClearPending(s).faces[id] == CancelFace(s.faces[id], id, s.pending)
  {
  }

  lemma CancelFaceExact(ws: seq<Wire>, id: int, f: Face, pending: Wire)
    requires ExactOutputs(ws, id, f)
    requires pending.outId != -1 ==> FaceHas(f, id, OutEnd(pending))
    requires pending.inId != -1 ==> FaceHas(f, id, InEnd(pending))
    ensures ExactOutputs(ws, id, CancelFace(f, id, pending)) <==>
            (pending.outId == -1 || pending.outId != id || Load(ws, OutEnd(pending)) == 0)
  {
    var g := CancelFace(f, id, pending);
    if pending.outId == id && pending.outId != -1 {
      assert g.ports[f.inputs + pending.outPort] == Darken(f.ports[f.inputs + pending.outPort]);
    }
  }

  /** Cancelling a gesture that started at an output takes one off a count nobody
      raised. Output counts stay equal to the wires exactly when that output has none. */
  lemma CancelKeepsOutputsExact(s: Patch)
    requires PendingOk(s) && AllExact(s)
    ensures AllExact(ClearPending(s)) <==> (s.pending.outId == -1 || Load(s.wires, OutEnd(s.pending)) == 0)
  {
    var r := ClearPending(s);
    forall id | id in s.faces
      ensures ExactOutputs(s.wires, id, r.faces[id]) <==>
              (s.pending.outId == -1 || s.pending.outId != id || Load(s.wires, OutEnd(s.pending)) == 0)
    {
      CancelFaces(s, id);
      CancelFaceExact(s.wires, id, s.faces[id], s.pending);
    }
  }

  /** Fl_Canvas::Clear, as ClearUp uses it: everything goes but the half-drawn wire. */
  function ClearCanvas(s: Patch): Patch {
    Patch(map[], map[], [], s.pending, 0, s.nextBuffer)
  }

  /** Clearing the canvas is safe exactly when no gesture is under way. */
  lemma ClearCanvasGood(s: Patch)
    requires Good(s)
    ensures Good(ClearCanvas(s)) <==> s.pending.outId == -1 && s.pending.inId == -1
  {
    var r := ClearCanvas(s);
    if s.pending.outId != -1 { assert !OnFace(r, OutEnd(r.pending)); }
    if s.pending.inId != -1 { assert !OnFace(r, InEnd(r.pending)); }
  }

  /** Both failures are reachable: cancelling a second wire drawn from a wired output
      leaves that output dark though its wire is there, and clearing mid-gesture
      leaves a wire in hand whose device is gone. */
  lemma SpoiltByTheseSessions()
    ensures var s := Run(EMPTY, [NewDevice(0, 1, false), NewDevice(1, 0, false),
                                 PressPort(Out(0, 0), Left), PressPort(In(1, 0), Left),
                                 PressPort(Out(0, 0), Left), PressCanvas]);
            && s.wires == [Wire(0, 0, false, 1, 0, false)]
            && 0 in s.faces && s.faces[0].ports == [Port(0, false)]
    ensures !Good(ClearCanvas(Run(EMPTY, [NewDevice(0, 1, false), PressPort(Out(0, 0), Left)])))
  {
    var s1 := Step(EMPTY, NewDevice(0, 1, false));
    var s2 := Step(s1, NewDevice(1, 0, false));
    var s3 := Step(s2, PressPort(Out(0, 0), Left));
    var s4 := Step(s3, PressPort(In(1, 0), Left));
    var s5 := Step(s4, PressPort(Out(0, 0), Left));
    var s6 := Step(s5, PressCanvas);
    var w := Wire(0, 0, false, 1, 0, false);
    assert s2.faces[0].ports == [Port(0, false)] && s2.faces[1].ports == [Port(0, false)];
    assert s3.pending == Wire(0, 0, false, -1, -1, false);
    assert s4.wires == [w] && s4.faces[0].ports == [Port(1, true)];
    assert s6.wires == [w] && s6.faces[0].ports == [Port(0, false)];
    RunSix(EMPTY, NewDevice(0, 1, false), NewDevice(1, 0, false), PressPort(Out(0, 0), Left),
           PressPort(In(1, 0), Left), PressPort(Out(0, 0), Left), PressCanvas);
    var t := Step(s1, PressPort(Out(0, 0), Left));
    RunTwo(EMPTY, NewDevice(0, 1, false), PressPort(Out(0, 0), Left));
    assert t.pending.outId == 0;
    assert !OnFace(ClearCanvas(t), OutEnd(t.pending));
  }

  lemma RunTwo(s: Patch, a: Event, b: Event)
    ensures Run(s, [a, b]) == Step(Step(s, a), b)
  {
    assert [a, b][1..] == [b] && [b][1..] == [];
    assert Run(Step(s, a), [b]) == Run(Step(Step(s, a), b), []);
  }

  lemma RunSix(s: Patch, a: Event, b: Event, c: Event, d: Event, e: Event, f: Event)
    ensures Run(s, [a, b, c, d, e, f]) == Step(Step(Step(Step(Step(Step(s, a), b), c), d), e), f)
  {
    assert [a, b, c, d, e, f][1..] == [b, c, d, e, f] && [b, c, d, e, f][1..] == [c, d, e, f];
    assert [c, d, e, f][1..] == [d, e, f] && [d, e, f][1..] == [e, f];
    RunTwo(Step(Step(Step(Step(s, a), b), c), d), e, f);
    assert Run(Step(Step(s, a), b), [c, d, e, f]) == Run(Step(Step(Step(s, a), b), c), [d, e, f]);
    assert Run(Step(Step(Step(s, a), b), c), [d, e, f]) == Run(Step(Step(Step(Step(s, a), b), c), d), [e, f]);
  }
}
