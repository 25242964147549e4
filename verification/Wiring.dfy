/**
 The canvas wiring as a value: device faces with their port buttons, plugins with
 their bound inputs, the wire vector and the wire being drawn. Every operation of
 the canvas is a function on this state, and `Good` is what they all keep.
 */
module Wiring {
  import opened Wrappers

  /** One canvas wire. `NO_WIRE` is what CanvasWire::Clear leaves. */
  datatype Wire = Wire(outId: int, outPort: int, outTerminal: bool,
                       inId: int, inPort: int, inTerminal: bool)

  const NO_WIRE := Wire(-1, -1, false, -1, -1, false)

  /** One end of a wire: a device and a port of it. */
  datatype End = In(id: int, port: int) | Out(id: int, port: int)

  /** A port button: how many connections it believes it has, and its light. */
  datatype Port = Port(count: nat, lit: bool)

  /** A device as drawn: inputs first in `ports`, then outputs. */
  datatype Face = Face(inputs: nat, outputs: nat, terminal: bool, killed: bool, ports: seq<Port>)

  /** A plugin: what each input reads from, and the buffer behind each output.
      A buffer is a handle handed out once and never reused. */
  datatype Plug = Plug(sockets: seq<Option<nat>>, buffers: seq<nat>)

  datatype Patch = Patch(faces: map<int, Face>, plugs: map<int, Plug>,
                         wires: seq<Wire>, pending: Wire, nextId: nat, nextBuffer: nat)

  const EMPTY := Patch(map[], map[], [], NO_WIRE, 0, 0)

  // ---------------------------------------------------------------- wire lists

  predicate Touches(w: Wire, e: End) {
    match e
    case In(id, p) => w.inId == id && w.inPort == p
    case Out(id, p) => w.outId == id && w.outPort == p
  }

  function InEnd(w: Wire): End { In(w.inId, w.inPort) }

  function OutEnd(w: Wire): End { Out(w.outId, w.outPort) }

  /** How many wires meet at an end. */
  function Load(ws: seq<Wire>, e: End): nat {
    if ws == [] then 0
    else (if Touches(ws[0], e) then 1 else 0) + Load(ws[1..], e)
  }

  /** The ways an operation picks the wires it drops. */
  datatype Doom = AtPort(end: End) | Beyond(id: int, inputs: int, outputs: int)

  predicate Doomed(d: Doom, w: Wire) {
    match d
    case AtPort(e) => Touches(w, e)
    case Beyond(id, ins, outs) =>
      (w.outId == id && w.outPort >= outs) || (w.inId == id && w.inPort >= ins)
  }

  /** The wires a drop leaves, in their order. */
  function Keep(ws: seq<Wire>, d: Doom): seq<Wire> {
    if ws == [] then []
    else (if Doomed(d, ws[0]) then [] else [ws[0]]) + Keep(ws[1..], d)
  }

  /** Index of the first doomed wire, or the length. */
  function FirstDoomed(ws: seq<Wire>, d: Doom): (i: nat)
    ensures i <= |ws|
    ensures i < |ws| ==> Doomed(d, ws[i])
    ensures forall j :: 0 <= j < i ==> !Doomed(d, ws[j])
  {
    if ws == [] || Doomed(d, ws[0]) then 0 else 1 + FirstDoomed(ws[1..], d)
  }

  // ------------------------------------------------------------ port buttons

  function Slot(f: Face, e: End): int {
    if e.In? then e.port else f.inputs + e.port
  }

  function Brighten(p: Port): Port { Port(p.count + 1, true) }

  /** Fl_PortButton::Remove floors at zero; the light goes out at zero and is
      otherwise left alone. */
  function Darken(p: Port): Port {
    var c := if p.count > 0 then p.count - 1 else 0;
    Port(c, if c == 0 then false else p.lit)
  }

  function LightSlot(f: Face, n: int): Face {
    if 0 <= n < |f.ports| then f.(ports := f.ports[n := Brighten(f.ports[n])]) else f
  }

  function DimSlot(f: Face, n: int): Face {
    if 0 <= n < |f.ports| then f.(ports := f.ports[n := Darken(f.ports[n])]) else f
  }

  function Light(s: Patch, e: End): Patch {
    if e.id in s.faces then
      s.(faces := s.faces[e.id := LightSlot(s.faces[e.id], Slot(s.faces[e.id], e))])
    else s
  }

  function Dim(s: Patch, e: End): Patch {
    if e.id in s.faces then
      s.(faces := s.faces[e.id := DimSlot(s.faces[e.id], Slot(s.faces[e.id], e))])
    else s
  }

  // ------------------------------------------------------------- plugin binds

  /** cb_Connection: the input reads the buffer of the output, if both exist. */
  function Bind(s: Patch, w: Wire): Patch {
    if w.outId in s.plugs && w.inId in s.plugs &&
       0 <= w.outPort < |s.plugs[w.outId].buffers| &&
       0 <= w.inPort < |s.plugs[w.inId].sockets| then
      var buffer := s.plugs[w.outId].buffers[w.outPort];
      var plug := s.plugs[w.inId];
      s.(plugs := s.plugs[w.inId := plug.(sockets := plug.sockets[w.inPort := Some(buffer)])])
    else s
  }

  /** cb_Unconnect: the input reads nothing. */
  function Unbind(s: Patch, w: Wire): Patch {
    if w.inId in s.plugs && 0 <= w.inPort < |s.plugs[w.inId].sockets| then
      var plug := s.plugs[w.inId];
      s.(plugs := s.plugs[w.inId := plug.(sockets := plug.sockets[w.inPort := None])])
    else s
  }

  // --------------------------------------------------------------- operations

  function Connect(s: Patch, w: Wire): Patch {
    Light(Light(Bind(s.(wires := s.wires + [w]), w), OutEnd(w)), InEnd(w))
  }

  function Disconnect(s: Patch, i: nat): (r: Patch)
    requires i < |s.wires|
    ensures r.wires == RemoveAt(s.wires, i) && r.pending == s.pending
    ensures r.faces.Keys == s.faces.Keys && r.plugs.Keys == s.plugs.Keys
    ensures r.nextId == s.nextId && r.nextBuffer == s.nextBuffer
  {
    var w := s.wires[i];
    Unbind(Dim(Dim(s, OutEnd(w)), InEnd(w)), w).(wires := RemoveAt(s.wires, i))
  }

  /** The erase-and-restart loop: drop the first doomed wire until none is left. */
  function DropAll(s: Patch, d: Doom): Patch
    decreases |s.wires|
  {
    var i := FirstDoomed(s.wires, d);
    if i == |s.wires| then s else DropAll(Disconnect(s, i), d)
  }

  /** ClearIncompleteWire: both ports of the half-drawn wire are decremented. */
  function ClearPending(s: Patch): Patch {
    var a := if s.pending.outId != -1 then Dim(s, OutEnd(s.pending)) else s;
    var b := if s.pending.inId != -1 then Dim(a, InEnd(s.pending)) else a;
    b.(pending := NO_WIRE)
  }

  /** The two ways a pressed port button reaches the canvas. */
  datatype Button = Left | Right

  predicate OnFace(s: Patch, e: End) {
    e.id in s.faces && 0 <= e.port < (if e.In? then s.faces[e.id].inputs else s.faces[e.id].outputs)
  }

  predicate IsLit(s: Patch, e: End)
    requires e.id in s.faces
  {
    var n := Slot(s.faces[e.id], e);
    0 <= n < |s.faces[e.id].ports| && s.faces[e.id].ports[n].lit
  }

  /** The gesture remembers this end of the wire. */
  function TakeEnd(s: Patch, e: End): Patch
    requires e.id in s.faces
  {
    var t := s.faces[e.id].terminal;
    match e
    case Out(id, p) => s.(pending := s.pending.(outPort := p, outId := id, outTerminal := t))
    case In(id, p) => s.(pending := s.pending.(inPort := p, inId := id, inTerminal := t))
  }

  /** A second end of the same kind cancels the gesture. */
  function TakeOrCancel(s: Patch, e: End): Patch
    requires e.id in s.faces
  {
    if (if e.Out? then s.pending.outId != -1 else s.pending.inId != -1) then ClearPending(s) else TakeEnd(s, e)
  }

  predicate BothEnds(w: Wire) { w.inId != -1 && w.outId != -1 }

  function PortOn(s: Patch, e: End): Patch
    requires e.id in s.faces
  {
    if BothEnds(s.pending) then s
    else
      var t := TakeOrCancel(s, e);
      if BothEnds(t.pending) then Connect(t, t.pending).(pending := NO_WIRE) else t
  }

  function PortOff(s: Patch, e: End): Patch {
    DropAll(s, AtPort(e)).(pending := NO_WIRE)
  }

  /** A press on a port button, with the guards of Fl_PortButton::handle and
      cb_Port_i: a lit input ignores the left button, a killed device everything. */
  function Press(s: Patch, e: End, b: Button): Patch {
    if !OnFace(s, e) || s.faces[e.id].killed then s
    else if b.Right? then PortOff(s, e)
    else if e.In? && IsLit(s, e) then s
    else PortOn(s, e)
  }

  predicate PendingOn(s: Patch, id: int) {
    (s.pending.inId != -1 || s.pending.outId != -1) &&
    (id == s.pending.outId || id == s.pending.inId)
  }

  function Prune(s: Patch, id: int, inputs: int, outputs: int): Patch {
    DropAll(if PendingOn(s, id) then ClearPending(s) else s, Beyond(id, inputs, outputs))
  }

  /** RemoveDevice: the face goes; the plugin stays for the audio thread to reap. */
  function Remove(s: Patch, id: int): Patch {
    var t := Prune(s, id, 0, 0);
    t.(faces := t.faces - {id})
  }

  function BlankFace(f: Face, inputs: nat, outputs: nat): Face {
    f.(inputs := inputs, outputs := outputs, ports := seq(inputs + outputs, _ => Port(0, false)))
  }

  /** RestorePortConnections: recount the wires at one rebuilt device. */
  function Recount(s: Patch, ws: seq<Wire>, id: int): Patch
    decreases |ws|
  {
    if ws == [] then s
    else
      var a := if ws[0].inId == id then Light(s, InEnd(ws[0])) else s;
      var b := if ws[0].outId == id then Light(a, OutEnd(ws[0])) else a;
      Recount(b, ws[1..], id)
  }

  function SetupPorts(s: Patch, id: int, inputs: nat, outputs: nat, preserve: bool): Patch
    requires id in s.faces
  {
    var t := if preserve then Prune(s, id, inputs, outputs) else Prune(s, id, 0, 0);
    if id !in t.faces then t
    else
      var u := t.(faces := t.faces[id := BlankFace(t.faces[id], inputs, outputs)]);
      if preserve then Recount(u, u.wires, id) else u
  }

  // ------------------------------------------------------------ the invariant

  ghost predicate WireOk(s: Patch, w: Wire) {
    && OnFace(s, OutEnd(w)) && OnFace(s, InEnd(w))
    && w.outId in s.plugs && w.outPort < |s.plugs[w.outId].buffers|
    && w.inId in s.plugs && w.inPort < |s.plugs[w.inId].sockets|
    && s.plugs[w.inId].sockets[w.inPort] == Some(s.plugs[w.outId].buffers[w.outPort])
  }

  /** Input counts are exact, output counts never exceed the wires, and a port is
      lit exactly when its count is positive. */
  ghost predicate PortsRight(ws: seq<Wire>, id: int, f: Face) {
    && |f.ports| == f.inputs + f.outputs
    && (forall p :: 0 <= p < f.inputs ==> f.ports[p].count == Load(ws, In(id, p)))
    && (forall q :: 0 <= q < f.outputs ==> f.ports[f.inputs + q].count <= Load(ws, Out(id, q)))
    && (forall n :: 0 <= n < |f.ports| ==> (f.ports[n].lit <==> f.ports[n].count > 0))
  }

  ghost predicate PlugRight(ws: seq<Wire>, id: int, g: Plug) {
    forall p :: 0 <= p < |g.sockets| && g.sockets[p].Some? ==> Load(ws, In(id, p)) > 0
  }

  ghost predicate PendingOk(s: Patch) {
    && (s.pending.outId == -1 || OnFace(s, OutEnd(s.pending)))
    && (s.pending.inId == -1 || (OnFace(s, InEnd(s.pending)) && Load(s.wires, InEnd(s.pending)) == 0))
    && (s.pending.outId == -1 || s.pending.inId == -1)
  }

  /** No buffer handle is shared by two outputs, nor still to be handed out. */
  ghost predicate BuffersApart(plugs: map<int, Plug>, next: nat) {
    && (forall a, i :: a in plugs && 0 <= i < |plugs[a].buffers| ==> plugs[a].buffers[i] < next)
    && (forall a, i, b, j ::
          (a in plugs && b in plugs && 0 <= i < |plugs[a].buffers| && 0 <= j < |plugs[b].buffers| &&
           plugs[a].buffers[i] == plugs[b].buffers[j]) ==> a == b && i == j)
  }

  ghost predicate AllWiresOk(s: Patch) {
    forall i :: 0 <= i < |s.wires| ==> WireOk(s, s.wires[i])
  }

  ghost predicate OneWirePerInput(ws: seq<Wire>) {
    forall id, p :: Load(ws, In(id, p)) <= 1
  }

  ghost predicate AllPortsRight(s: Patch) {
    forall id :: id in s.faces ==> PortsRight(s.wires, id, s.faces[id])
  }

  ghost predicate AllPlugsRight(s: Patch) {
    forall id :: id in s.plugs ==> PlugRight(s.wires, id, s.plugs[id])
  }

  ghost predicate IdsBelow(s: Patch) {
    && (forall id :: id in s.faces ==> 0 <= id < s.nextId)
    && (forall id :: id in s.plugs ==> 0 <= id < s.nextId)
  }

  ghost predicate Core(s: Patch) {
    && AllWiresOk(s)
    && OneWirePerInput(s.wires)
    && AllPortsRight(s)
    && AllPlugsRight(s)
    && IdsBelow(s)
    && PendingOk(s)
    && BuffersApart(s.plugs, s.nextBuffer)
  }

  /** Face and plugin agree on the number of ports. */
  ghost predicate Synced(s: Patch) {
    forall id :: id in s.faces ==>
      && (s.faces[id].inputs + s.faces[id].outputs > 0 ==> id in s.plugs)
      && (id in s.plugs ==> |s.plugs[id].sockets| == s.faces[id].inputs &&
                            |s.plugs[id].buffers| == s.faces[id].outputs)
  }

  ghost predicate Good(s: Patch) { Core(s) && Synced(s) }

  // ------------------------------------------------------- facts about lists

  lemma {:induction false} LoadConcat(a: seq<Wire>, b: seq<Wire>, e: End)
    ensures Load(a + b, e) == Load(a, e) + Load(b, e)
  {
    if a == [] {
      assert a + b == b;
    } else {
      assert (a + b)[1..] == a[1..] + b;
      LoadConcat(a[1..], b, e);
    }
  }

  lemma LoadAppend(ws: seq<Wire>, w: Wire, e: End)
    ensures Load(ws + [w], e) == Load(ws, e) + (if Touches(w, e) then 1 else 0)
  {
    LoadConcat(ws, [w], e);
    assert [w][1..] == [];
  }

  lemma LoadRemove(ws: seq<Wire>, i: nat, e: End)
    requires i < |ws|
    ensures Load(ws, e) == Load(RemoveAt(ws, i), e) + (if Touches(ws[i], e) then 1 else 0)
  {
    LoadConcat(ws[..i], ws[i..], e);
    LoadConcat(ws[..i], ws[i + 1..], e);
    assert ws == ws[..i] + ws[i..];
    assert ws[i..][1..] == ws[i + 1..];
  }

  lemma LoadTwo(ws: seq<Wire>, i: nat, j: nat, e: End)
    requires i < j < |ws| && Touches(ws[i], e) && Touches(ws[j], e)
    ensures Load(ws, e) >= 2
  {
    LoadRemove(ws, j, e);
    LoadRemove(RemoveAt(ws, j), i, e);
  }

  lemma LoadZero(ws: seq<Wire>, i: nat, e: End)
    requires i < |ws| && Touches(ws[i], e)
    ensures Load(ws, e) > 0
  {
    LoadRemove(ws, i, e);
  }

  lemma KeepHead(w: Wire, ws: seq<Wire>, d: Doom)
    ensures Keep([w] + ws, d) == (if Doomed(d, w) then [] else [w]) + Keep(ws, d)
  {
    assert ([w] + ws)[1..] == ws;
  }

  lemma RemoveAtTail(ws: seq<Wire>, i: nat)
    requires i + 1 < |ws|
    ensures RemoveAt(ws, i + 1) == [ws[0]] + RemoveAt(ws[1..], i)
  {
  }

  lemma {:induction false} KeepSkips(ws: seq<Wire>, d: Doom)
    ensures var i := FirstDoomed(ws, d);
            if i == |ws| then Keep(ws, d) == ws else Keep(ws, d) == Keep(RemoveAt(ws, i), d)
  {
    if ws != [] && Doomed(d, ws[0]) {
      assert RemoveAt(ws, 0) == ws[1..];
    } else if ws != [] {
      KeepSkips(ws[1..], d);
      var i := FirstDoomed(ws[1..], d);
      if i < |ws[1..]| {
        RemoveAtTail(ws, i);
        KeepHead(ws[0], RemoveAt(ws[1..], i), d);
      }
    }
  }

  // --------------------------------------------- what one disconnection keeps

  ghost predicate FaceHas(f: Face, id: int, e: End) {
    e.id == id ==> 0 <= e.port < (if e.In? then f.inputs else f.outputs)
  }

  function DimAt(f: Face, id: int, e: End): Face {
    if e.id == id then DimSlot(f, Slot(f, e)) else f
  }

  function LightAt(f: Face, id: int, e: End): Face {
    if e.id == id then LightSlot(f, Slot(f, e)) else f
  }

  lemma DimInput(ws: seq<Wire>, i: nat, id: int, f: Face, p: nat)
    requires i < |ws| && PortsRight(ws, id, f) && p < f.inputs
    requires FaceHas(f, id, OutEnd(ws[i])) && FaceHas(f, id, InEnd(ws[i]))
    ensures var g := DimAt(DimAt(f, id, OutEnd(ws[i])), id, InEnd(ws[i]));
            |g.ports| == |f.ports| && g.ports[p].count == Load(RemoveAt(ws, i), In(id, p))
  {
    LoadRemove(ws, i, In(id, p));
  }

  lemma DimOutput(ws: seq<Wire>, i: nat, id: int, f: Face, q: nat)
    requires i < |ws| && PortsRight(ws, id, f) && q < f.outputs
    requires FaceHas(f, id, OutEnd(ws[i])) && FaceHas(f, id, InEnd(ws[i]))
    ensures var g := DimAt(DimAt(f, id, OutEnd(ws[i])), id, InEnd(ws[i]));
            |g.ports| == |f.ports| && g.ports[f.inputs + q].count <= Load(RemoveAt(ws, i), Out(id, q))
  {
    LoadRemove(ws, i, Out(id, q));
  }

  lemma DimRight(ws: seq<Wire>, i: nat, id: int, f: Face)
    requires i < |ws| && PortsRight(ws, id, f)
    requires FaceHas(f, id, OutEnd(ws[i])) && FaceHas(f, id, InEnd(ws[i]))
    ensures PortsRight(RemoveAt(ws, i), id, DimAt(DimAt(f, id, OutEnd(ws[i])), id, InEnd(ws[i])))
  {
    var g := DimAt(DimAt(f, id, OutEnd(ws[i])), id, InEnd(ws[i]));
    forall p | 0 <= p < f.inputs
      ensures g.ports[p].count == Load(RemoveAt(ws, i), In(id, p))
    {
      DimInput(ws, i, id, f, p);
    }
    forall q | 0 <= q < f.outputs
      ensures g.ports[f.inputs + q].count <= Load(RemoveAt(ws, i), Out(id, q))
    {
      DimOutput(ws, i, id, f, q);
    }
  }

  lemma DimFaces(s: Patch, a: End, b: End, id: int)
    requires id in s.faces
    ensures Dim(Dim(s, a), b).faces[id] == DimAt(DimAt(s.faces[id], id, a), id, b)
  {
  }

  /** Same ports everywhere, whatever the counts. */
  ghost predicate SameShape(s: Patch, r: Patch) {
    && r.faces.Keys == s.faces.Keys
    && (forall id :: id in s.faces ==>
          r.faces[id].inputs == s.faces[id].inputs && r.faces[id].outputs == s.faces[id].outputs)
  }

  ghost predicate SamePlugShape(s: Patch, r: Patch) {
    && r.plugs.Keys == s.plugs.Keys
    && (forall id :: id in s.plugs ==>
          r.plugs[id].buffers == s.plugs[id].buffers && |r.plugs[id].sockets| == |s.plugs[id].sockets|)
  }

  lemma DisconnectShape(s: Patch, i: nat)
    requires i < |s.wires|
    ensures SameShape(s, Disconnect(s, i)) && SamePlugShape(s, Disconnect(s, i))
  {
  }

  lemma DisconnectWire(s: Patch, i: nat, j: nat)
    requires i < |s.wires| && j < |s.wires| && i != j
    requires WireOk(s, s.wires[i]) && WireOk(s, s.wires[j]) && OneWirePerInput(s.wires)
    ensures WireOk(Disconnect(s, i), s.wires[j])
  {
    DisconnectShape(s, i);
    if InEnd(s.wires[j]) == InEnd(s.wires[i]) {
      LoadTwo(s.wires, if i < j then i else j, if i < j then j else i, InEnd(s.wires[i]));
    }
  }

  lemma DisconnectWires(s: Patch, i: nat)
    requires i < |s.wires| && AllWiresOk(s) && OneWirePerInput(s.wires)
    ensures AllWiresOk(Disconnect(s, i))
  {
    var r := Disconnect(s, i);
    forall k | 0 <= k < |r.wires| ensures WireOk(r, r.wires[k]) {
      var j := if k < i then k else k + 1;
      assert r.wires[k] == s.wires[j];
      DisconnectWire(s, i, j);
    }
  }

  lemma DisconnectPlug(s: Patch, i: nat, id: int)
    requires i < |s.wires| && WireOk(s, s.wires[i])
    requires id in s.plugs && PlugRight(s.wires, id, s.plugs[id])
    ensures PlugRight(RemoveAt(s.wires, i), id, Disconnect(s, i).plugs[id])
  {
    var g := Disconnect(s, i).plugs[id];
    forall p | 0 <= p < |g.sockets| && g.sockets[p].Some?
      ensures Load(RemoveAt(s.wires, i), In(id, p)) > 0
    {
      LoadRemove(s.wires, i, In(id, p));
    }
  }

  lemma DisconnectPending(s: Patch, i: nat)
    requires i < |s.wires| && PendingOk(s)
    ensures PendingOk(Disconnect(s, i))
  {
    DisconnectShape(s, i);
    LoadRemove(s.wires, i, InEnd(s.pending));
  }

  lemma DisconnectFaces(s: Patch, i: nat)
    requires i < |s.wires| && WireOk(s, s.wires[i]) && AllPortsRight(s)
    ensures AllPortsRight(Disconnect(s, i))
  {
    var r, w := Disconnect(s, i), s.wires[i];
    forall id | id in r.faces ensures PortsRight(r.wires, id, r.faces[id]) {
      DimFaces(s, OutEnd(w), InEnd(w), id);
      DimRight(s.wires, i, id, s.faces[id]);
    }
  }

  lemma DisconnectPlugs(s: Patch, i: nat)
    requires i < |s.wires| && WireOk(s, s.wires[i]) && AllPlugsRight(s)
    ensures AllPlugsRight(Disconnect(s, i))
  {
    var r := Disconnect(s, i);
    forall id | id in r.plugs ensures PlugRight(r.wires, id, r.plugs[id]) { DisconnectPlug(s, i, id); }
  }

  lemma DisconnectLoads(s: Patch, i: nat)
    requires i < |s.wires| && OneWirePerInput(s.wires)
    ensures OneWirePerInput(Disconnect(s, i).wires)
  {
    forall id, p ensures Load(RemoveAt(s.wires, i), In(id, p)) <= 1 { LoadRemove(s.wires, i, In(id, p)); }
  }

  lemma SameBuffersApart(s: Patch, r: Patch)
    requires SamePlugShape(s, r) && BuffersApart(s.plugs, s.nextBuffer) && r.nextBuffer == s.nextBuffer
    ensures BuffersApart(r.plugs, r.nextBuffer)
  {
  }

  lemma SameShapeSynced(s: Patch, r: Patch)
    requires SameShape(s, r) && SamePlugShape(s, r) && Synced(s)
    ensures Synced(r)
  {
  }

  lemma DisconnectCore(s: Patch, i: nat)
    requires Core(s) && i < |s.wires|
    ensures Core(Disconnect(s, i))
  {
    var r := Disconnect(s, i);
    DisconnectShape(s, i);
    DisconnectWires(s, i);
    DisconnectLoads(s, i);
    DisconnectFaces(s, i);
    DisconnectPlugs(s, i);
    DisconnectPending(s, i);
    SameBuffersApart(s, r);
  }

  lemma {:induction false} DropAllShape(s: Patch, d: Doom)
    ensures SameShape(s, DropAll(s, d)) && SamePlugShape(s, DropAll(s, d))
    decreases |s.wires|
  {
    var i := FirstDoomed(s.wires, d);
    if i < |s.wires| {
      DisconnectShape(s, i);
      DropAllShape(Disconnect(s, i), d);
    }
  }

  lemma {:induction false} DropAllCore(s: Patch, d: Doom)
    requires Core(s)
    ensures Core(DropAll(s, d))
    decreases |s.wires|
  {
    var i := FirstDoomed(s.wires, d);
    if i < |s.wires| {
      DisconnectCore(s, i);
      DropAllCore(Disconnect(s, i), d);
    }
  }

  /** The restart loop ends with exactly the filtered list, and changes nothing else of note. */
  lemma {:induction false} DropAllFilters(s: Patch, d: Doom)
    ensures var r := DropAll(s, d);
            && r.wires == Keep(s.wires, d)
            && r.pending == s.pending && r.nextId == s.nextId && r.nextBuffer == s.nextBuffer
            && r.faces.Keys == s.faces.Keys && r.plugs.Keys == s.plugs.Keys
    decreases |s.wires|
  {
    var i := FirstDoomed(s.wires, d);
    KeepSkips(s.wires, d);
    if i < |s.wires| {
      DropAllFilters(Disconnect(s, i), d);
    }
  }

  // ------------------------------------------------ what one connection keeps

  lemma LightInput(ws: seq<Wire>, w: Wire, id: int, f: Face, p: nat)
    requires PortsRight(ws, id, f) && p < f.inputs && FaceHas(f, id, OutEnd(w)) && FaceHas(f, id, InEnd(w))
    ensures var g := LightAt(LightAt(f, id, OutEnd(w)), id, InEnd(w));
            |g.ports| == |f.ports| && g.ports[p].count == Load(ws + [w], In(id, p))
  {
    LoadAppend(ws, w, In(id, p));
  }

  lemma LightOutput(ws: seq<Wire>, w: Wire, id: int, f: Face, q: nat)
    requires PortsRight(ws, id, f) && q < f.outputs && FaceHas(f, id, OutEnd(w)) && FaceHas(f, id, InEnd(w))
    ensures var g := LightAt(LightAt(f, id, OutEnd(w)), id, InEnd(w));
            |g.ports| == |f.ports| && g.ports[f.inputs + q].count <= Load(ws + [w], Out(id, q))
  {
    LoadAppend(ws, w, Out(id, q));
  }

  lemma LightLamps(f: Face, id: int, a: End)
    requires LampsRight(f) && FaceHas(f, id, a)
    ensures var g := LightAt(f, id, a); LampsRight(g) && g == f.(ports := g.ports)
  {
  }

  lemma LightRight(ws: seq<Wire>, w: Wire, id: int, f: Face)
    requires PortsRight(ws, id, f)
    requires FaceHas(f, id, OutEnd(w)) && FaceHas(f, id, InEnd(w))
    ensures PortsRight(ws + [w], id, LightAt(LightAt(f, id, OutEnd(w)), id, InEnd(w)))
  {
    var g := LightAt(LightAt(f, id, OutEnd(w)), id, InEnd(w));
    LightLamps(f, id, OutEnd(w));
    LightLamps(LightAt(f, id, OutEnd(w)), id, InEnd(w));
    forall p | 0 <= p < f.inputs ensures g.ports[p].count == Load(ws + [w], In(id, p)) {
      LightInput(ws, w, id, f, p);
    }
    forall q | 0 <= q < f.outputs ensures g.ports[f.inputs + q].count <= Load(ws + [w], Out(id, q)) {
      LightOutput(ws, w, id, f, q);
    }
  }

  lemma LightFaces(s: Patch, a: End, b: End, id: int)
    requires id in s.faces
    ensures Light(Light(s, a), b).faces[id] == LightAt(LightAt(s.faces[id], id, a), id, b)
  {
  }

  /** A wire both of whose ends exist, on the canvas and behind it. */
  ghost predicate Fits(s: Patch, w: Wire) {
    && OnFace(s, OutEnd(w)) && OnFace(s, InEnd(w))
    && w.outId in s.plugs && w.outPort < |s.plugs[w.outId].buffers|
    && w.inId in s.plugs && w.inPort < |s.plugs[w.inId].sockets|
  }

  lemma ConnectShape(s: Patch, w: Wire)
    ensures SameShape(s, Connect(s, w)) && SamePlugShape(s, Connect(s, w))
    ensures Connect(s, w).wires == s.wires + [w] && Connect(s, w).pending == s.pending
  {
  }

  lemma ConnectWire(s: Patch, w: Wire, j: nat)
    requires j < |s.wires| && WireOk(s, s.wires[j]) && Fits(s, w) && Load(s.wires, InEnd(w)) == 0
    ensures WireOk(Connect(s, w), s.wires[j])
  {
    ConnectShape(s, w);
    if InEnd(s.wires[j]) == InEnd(w) {
      LoadZero(s.wires, j, InEnd(w));
    }
  }

  lemma ConnectWires(s: Patch, w: Wire)
    requires AllWiresOk(s) && Fits(s, w) && Load(s.wires, InEnd(w)) == 0
    ensures AllWiresOk(Connect(s, w))
  {
    var r := Connect(s, w);
    ConnectShape(s, w);
    forall k | 0 <= k < |r.wires| ensures WireOk(r, r.wires[k]) {
      if k < |s.wires| { ConnectWire(s, w, k); }
    }
  }

  lemma ConnectFaces(s: Patch, w: Wire)
    requires AllPortsRight(s) && Fits(s, w)
    ensures AllPortsRight(Connect(s, w))
  {
    var r := Connect(s, w);
    forall id | id in r.faces ensures PortsRight(r.wires, id, r.faces[id]) {
      LightFaces(s, OutEnd(w), InEnd(w), id);
      LightRight(s.wires, w, id, s.faces[id]);
    }
  }

  lemma ConnectPlugs(s: Patch, w: Wire)
    requires AllPlugsRight(s)
    ensures AllPlugsRight(Connect(s, w))
  {
    var r := Connect(s, w);
    forall id | id in r.plugs ensures PlugRight(r.wires, id, r.plugs[id]) {
      forall p | 0 <= p < |r.plugs[id].sockets| && r.plugs[id].sockets[p].Some?
        ensures Load(r.wires, In(id, p)) > 0
      {
        LoadAppend(s.wires, w, In(id, p));
        assert PlugRight(s.wires, id, s.plugs[id]);
      }
    }
  }

  lemma ConnectLoads(s: Patch, w: Wire)
    requires OneWirePerInput(s.wires) && Load(s.wires, InEnd(w)) == 0
    ensures OneWirePerInput(s.wires + [w])
  {
    forall id, p ensures Load(s.wires + [w], In(id, p)) <= 1 { LoadAppend(s.wires, w, In(id, p)); }
  }

  /** Connecting to a free input keeps everything but, perhaps, the half-drawn
      wire: that must not wait at the same input. */
  lemma ConnectCore(s: Patch, w: Wire)
    requires Core(s) && Fits(s, w) && Load(s.wires, InEnd(w)) == 0
    ensures Core(Connect(s, w).(pending := NO_WIRE))
    ensures s.pending.inId == -1 || InEnd(s.pending) != InEnd(w) ==> Core(Connect(s, w))
  {
    var r := Connect(s, w);
    ConnectShape(s, w);
    ConnectWires(s, w);
    ConnectFaces(s, w);
    ConnectPlugs(s, w);
    ConnectLoads(s, w);
    SameBuffersApart(s, r);
    LoadAppend(s.wires, w, InEnd(s.pending));
    PendingDropped(r);
    if s.pending.inId == -1 || InEnd(s.pending) != InEnd(w) {
      assert PendingOk(r);
    }
  }

  lemma ConnectGood(s: Patch, w: Wire)
    requires Good(s) && Fits(s, w) && Load(s.wires, InEnd(w)) == 0
    requires s.pending.inId == -1 || InEnd(s.pending) != InEnd(w)
    ensures Good(Connect(s, w))
  {
    ConnectCore(s, w);
    ConnectShape(s, w);
    SameShapeSynced(s, Connect(s, w));
  }

  /** Everything in Core but PendingOk is blind to the half-drawn wire. */
  lemma PendingDropped(s: Patch)
    requires AllWiresOk(s) && OneWirePerInput(s.wires) && AllPortsRight(s) && AllPlugsRight(s)
    requires IdsBelow(s) && BuffersApart(s.plugs, s.nextBuffer)
    ensures Core(s.(pending := NO_WIRE))
  {
    PendingBlind(s, NO_WIRE);
  }

  lemma PendingBlind(s: Patch, w: Wire)
    requires AllWiresOk(s) && AllPortsRight(s) && AllPlugsRight(s) && IdsBelow(s)
    ensures var r := s.(pending := w);
            AllWiresOk(r) && AllPortsRight(r) && AllPlugsRight(r) && IdsBelow(r)
  {
    var r := s.(pending := w);
    forall i | 0 <= i < |r.wires| ensures WireOk(r, r.wires[i]) { assert WireOk(s, s.wires[i]); }
  }

  // ------------------------------------------------------ the canvas gestures

  /** Dimming a port that carries no exact count keeps the bounds. */
  lemma DimLoose(ws: seq<Wire>, id: int, f: Face, e: End)
    requires PortsRight(ws, id, f) && FaceHas(f, id, e)
    requires e.In? ==> Load(ws, e) == 0
    ensures PortsRight(ws, id, DimAt(f, id, e))
  {
    if e.id != id {
      assert DimAt(f, id, e) == f;
    } else if e.In? {
      DimLooseInput(ws, id, f, e.port);
      assert DimAt(f, id, e) == f;
    } else {
      DimLooseOutput(ws, id, f, e.port);
      assert DimAt(f, id, e) == DimSlot(f, f.inputs + e.port);
    }
  }

  lemma DimLooseInput(ws: seq<Wire>, id: int, f: Face, p: nat)
    requires PortsRight(ws, id, f) && p < f.inputs && Load(ws, In(id, p)) == 0
    ensures DimSlot(f, p) == f
  {
    assert f.ports[p].count == 0;
    assert f.ports[p := Darken(f.ports[p])] == f.ports;
  }

  lemma DimLooseOutput(ws: seq<Wire>, id: int, f: Face, q: nat)
    requires PortsRight(ws, id, f) && q < f.outputs
    ensures PortsRight(ws, id, DimSlot(f, f.inputs + q))
  {
    assert f.ports[f.inputs + q].count <= Load(ws, Out(id, q));
  }

  lemma DimPorts(s: Patch, e: End)
    requires AllPortsRight(s) && OnFace(s, e) && (e.In? ==> Load(s.wires, e) == 0)
    ensures AllPortsRight(Dim(s, e)) && SameShape(s, Dim(s, e))
  {
    var r := Dim(s, e);
    forall id | id in r.faces ensures PortsRight(r.wires, id, r.faces[id]) {
      DimLoose(s.wires, id, s.faces[id], e);
    }
  }

  /** Wires, plugs and the half-drawn wire only look at the shape of the faces. */
  lemma FacesBlind(s: Patch, r: Patch)
    requires AllWiresOk(s) && AllPlugsRight(s) && IdsBelow(s) && PendingOk(s)
    requires r == s.(faces := r.faces) && SameShape(s, r)
    ensures AllWiresOk(r) && AllPlugsRight(r) && IdsBelow(r) && PendingOk(r)
  {
    forall i | 0 <= i < |r.wires| ensures WireOk(r, r.wires[i]) { assert WireOk(s, s.wires[i]); }
  }

  lemma DimKeeps(s: Patch, e: End)
    requires Core(s) && OnFace(s, e) && (e.In? ==> Load(s.wires, e) == 0)
    ensures Core(Dim(s, e)) && SameShape(s, Dim(s, e))
  {
    DimPorts(s, e);
    FacesBlind(s, Dim(s, e));
  }

  lemma ClearPendingCore(s: Patch)
    requires Core(s)
    ensures Core(ClearPending(s)) && SameShape(s, ClearPending(s))
    ensures ClearPending(s) == s.(faces := ClearPending(s).faces, pending := NO_WIRE)
  {
    var a := if s.pending.outId != -1 then Dim(s, OutEnd(s.pending)) else s;
    if s.pending.outId != -1 { DimKeeps(s, OutEnd(s.pending)); }
    if s.pending.inId != -1 { DimKeeps(a, InEnd(s.pending)); }
    PendingDropped(if s.pending.inId != -1 then Dim(a, InEnd(s.pending)) else a);
  }

  lemma TakeEndCore(s: Patch, e: End)
    requires Good(s) && OnFace(s, e) && (e.In? ==> !IsLit(s, e))
    requires s.pending.inId == -1 || s.pending.outId == -1
    requires if e.Out? then s.pending.outId == -1 else s.pending.inId == -1
    ensures var t := TakeEnd(s, e);
            if t.pending.inId != -1 && t.pending.outId != -1
            then Fits(t, t.pending) && Load(t.wires, InEnd(t.pending)) == 0 && Good(t.(pending := NO_WIRE))
            else Good(t)
  {
    var t := TakeEnd(s, e);
    assert PortsRight(s.wires, e.id, s.faces[e.id]);
    PendingBlind(s, t.pending);
    PendingDropped(s);
  }

  lemma PortOnGood(s: Patch, e: End)
    requires Good(s) && OnFace(s, e) && (e.In? ==> !IsLit(s, e))
    ensures Good(PortOn(s, e))
  {
    if (if e.Out? then s.pending.outId != -1 else s.pending.inId != -1) {
      ClearPendingCore(s);
      SameShapeSynced(s, ClearPending(s));
    } else {
      TakeEndCore(s, e);
      var t := TakeEnd(s, e);
      if t.pending.inId != -1 && t.pending.outId != -1 {
        ConnectGood(t.(pending := NO_WIRE), t.pending);
        assert Connect(t.(pending := NO_WIRE), t.pending) == PortOn(s, e);
      }
    }
  }

  /** A port turned off: the patch stays sound, exactly the wires at the port go, and nothing is
      in hand. */
  lemma PortOffGood(s: Patch, e: End)
    requires Good(s)
    ensures Good(PortOff(s, e)) && PortOff(s, e).pending == NO_WIRE
    ensures forall w :: w in PortOff(s, e).wires <==> w in s.wires && !Touches(w, e)
  {
    DropAllFilters(s, AtPort(e));
    forall w ensures w in Keep(s.wires, AtPort(e)) <==> w in s.wires && !Touches(w, e) {
      KeptExactly(s.wires, AtPort(e), w);
    }
    DropAllCore(s, AtPort(e));
    DropAllShape(s, AtPort(e));
    SameShapeSynced(s, DropAll(s, AtPort(e)));
    PendingDropped(DropAll(s, AtPort(e)));
  }

  lemma PressGood(s: Patch, e: End, b: Button)
    requires Good(s)
    ensures Good(Press(s, e, b))
  {
    if OnFace(s, e) && !s.faces[e.id].killed {
      if b.Right? { PortOffGood(s, e); } else if !(e.In? && IsLit(s, e)) { PortOnGood(s, e); }
    }
  }

  // -------------------------------------------------- removal and re-layout

  lemma {:induction false} KeepSpares(ws: seq<Wire>, d: Doom, i: nat)
    requires i < |Keep(ws, d)|
    ensures !Doomed(d, Keep(ws, d)[i]) && Keep(ws, d)[i] in ws
  {
    if Doomed(d, ws[0]) {
      KeepSpares(ws[1..], d, i);
    } else if i > 0 {
      assert Keep(ws, d)[i] == Keep(ws[1..], d)[i - 1];
      KeepSpares(ws[1..], d, i - 1);
    }
  }

  lemma {:induction false} KeptExactly(ws: seq<Wire>, d: Doom, w: Wire)
    ensures w in Keep(ws, d) <==> w in ws && !Doomed(d, w)
  {
    if ws != [] {
      KeptExactly(ws[1..], d, w);
      assert w in ws <==> w == ws[0] || w in ws[1..];
    }
  }

  lemma {:induction false} LoadSpared(ws: seq<Wire>, e: End)
    requires forall i :: 0 <= i < |ws| ==> !Touches(ws[i], e)
    ensures Load(ws, e) == 0
  {
    if ws != [] {
      assert !Touches(ws[0], e);
      LoadSpared(ws[1..], e);
    }
  }

  /** No wire at the device reaches past the given layout. */
  ghost predicate Within(ws: seq<Wire>, id: int, inputs: int, outputs: int) {
    forall i :: 0 <= i < |ws| ==> !Doomed(Beyond(id, inputs, outputs), ws[i])
  }

  lemma ClearPendingShape(s: Patch)
    ensures SameShape(s, ClearPending(s)) && ClearPending(s).plugs == s.plugs && ClearPending(s).wires == s.wires
  {
  }

  /** What a prune does to anything at all. */
  lemma PruneKeeps(s: Patch, id: int, inputs: int, outputs: int)
    ensures var r := Prune(s, id, inputs, outputs);
            && SameShape(s, r) && SamePlugShape(s, r)
            && r.wires == Keep(s.wires, Beyond(id, inputs, outputs))
            && r.pending == (if PendingOn(s, id) then NO_WIRE else s.pending)
            && r.nextId == s.nextId && r.nextBuffer == s.nextBuffer
  {
    var t := if PendingOn(s, id) then ClearPending(s) else s;
    ClearPendingShape(s);
    DropAllShape(t, Beyond(id, inputs, outputs));
    DropAllFilters(t, Beyond(id, inputs, outputs));
  }

  /** ... and to a state whose faces and plugins need not agree on their ports. */
  lemma PruneCore(s: Patch, id: int, inputs: int, outputs: int)
    requires Core(s)
    ensures var r := Prune(s, id, inputs, outputs);
            Core(r) && Within(r.wires, id, inputs, outputs) && !PendingOn(r, id)
  {
    var d := Beyond(id, inputs, outputs);
    ClearPendingCore(s);
    DropAllCore(if PendingOn(s, id) then ClearPending(s) else s, d);
    PruneKeeps(s, id, inputs, outputs);
    forall i | 0 <= i < |Keep(s.wires, d)| ensures !Doomed(d, Keep(s.wires, d)[i]) {
      KeepSpares(s.wires, d, i);
    }
  }

  lemma PruneEffect(s: Patch, id: int, inputs: int, outputs: int)
    requires Good(s)
    ensures var r := Prune(s, id, inputs, outputs);
            && Good(r) && SameShape(s, r) && SamePlugShape(s, r)
            && r.wires == Keep(s.wires, Beyond(id, inputs, outputs))
            && Within(r.wires, id, inputs, outputs) && !PendingOn(r, id)
            && r.nextId == s.nextId && r.nextBuffer == s.nextBuffer
  {
    PruneKeeps(s, id, inputs, outputs);
    PruneCore(s, id, inputs, outputs);
    SameShapeSynced(s, Prune(s, id, inputs, outputs));
  }

  lemma NoLoadAt(ws: seq<Wire>, id: int, e: End)
    requires Within(ws, id, 0, 0) && e.id == id && 0 <= e.port
    ensures Load(ws, e) == 0
  {
    forall i | 0 <= i < |ws| ensures !Touches(ws[i], e) { assert !Doomed(Beyond(id, 0, 0), ws[i]); }
    LoadSpared(ws, e);
  }

  /** Replacing one face matters to nobody else once no wire or gesture leans on it. */
  lemma FaceReplaced(s: Patch, r: Patch, id: int)
    requires Core(s) && r == s.(faces := r.faces) && !PendingOn(s, id)
    requires forall k :: k != id ==> (k in s.faces <==> k in r.faces)
    requires forall k :: k != id && k in s.faces ==> r.faces[k] == s.faces[k]
    requires id in r.faces ==> id in s.faces && Within(s.wires, id, r.faces[id].inputs, r.faces[id].outputs)
    requires id !in r.faces ==> Within(s.wires, id, 0, 0)
    ensures AllWiresOk(r) && IdsBelow(r) && PendingOk(r)
  {
    forall i | 0 <= i < |r.wires| ensures WireOk(r, r.wires[i]) {
      assert WireOk(s, s.wires[i]);
      if id in r.faces { assert !Doomed(Beyond(id, r.faces[id].inputs, r.faces[id].outputs), s.wires[i]); }
      else { assert !Doomed(Beyond(id, 0, 0), s.wires[i]); }
    }
  }

  lemma RemoveGood(s: Patch, id: int)
    requires Good(s)
    ensures Good(Remove(s, id))
  {
    PruneEffect(s, id, 0, 0);
    FaceReplaced(Prune(s, id, 0, 0), Remove(s, id), id);
  }

  /** What the recount does to the one face it touches. */
  function RecountFace(f: Face, ws: seq<Wire>, id: int): Face
    decreases |ws|
  {
    if ws == [] then f
    else RecountFace(LightAt(LightAt(f, id, InEnd(ws[0])), id, OutEnd(ws[0])), ws[1..], id)
  }

  lemma {:induction false} RecountIsLocal(s: Patch, ws: seq<Wire>, id: int)
    requires id in s.faces
    ensures Recount(s, ws, id) == s.(faces := s.faces[id := RecountFace(s.faces[id], ws, id)])
    decreases |ws|
  {
    if ws == [] {
      assert s.faces == s.faces[id := s.faces[id]];
    } else {
      var f := LightAt(LightAt(s.faces[id], id, InEnd(ws[0])), id, OutEnd(ws[0]));
      var b := s.(faces := s.faces[id := f]);
      var c := if ws[0].inId == id then Light(s, InEnd(ws[0])) else s;
      var d := if ws[0].outId == id then Light(c, OutEnd(ws[0])) else c;
      assert d.faces == b.faces;
      RecountIsLocal(b, ws[1..], id);
    }
  }

  ghost predicate LampsRight(f: Face) {
    && |f.ports| == f.inputs + f.outputs
    && (forall n :: 0 <= n < |f.ports| ==> (f.ports[n].lit <==> f.ports[n].count > 0))
  }

  function CountAt(f: Face, e: End): nat
    requires |f.ports| == f.inputs + f.outputs && 0 <= e.port < (if e.In? then f.inputs else f.outputs)
  {
    f.ports[Slot(f, e)].count
  }

  lemma LightCounts(f: Face, id: int, a: End, e: End)
    requires LampsRight(f) && e.id == id && 0 <= e.port < (if e.In? then f.inputs else f.outputs) && FaceHas(f, id, a)
    ensures var g := LightAt(f, id, a);
            && g == f.(ports := g.ports) && LampsRight(g)
            && CountAt(g, e) == CountAt(f, e) + (if a == e then 1 else 0)
  {
  }

  lemma {:induction false} RecountAdds(f: Face, ws: seq<Wire>, id: int, e: End)
    requires LampsRight(f) && e.id == id && 0 <= e.port < (if e.In? then f.inputs else f.outputs)
    requires forall i :: 0 <= i < |ws| ==> FaceHas(f, id, InEnd(ws[i])) && FaceHas(f, id, OutEnd(ws[i]))
    ensures var g := RecountFace(f, ws, id);
            && g == f.(ports := g.ports) && LampsRight(g)
            && CountAt(g, e) == CountAt(f, e) + Load(ws, e)
    decreases |ws|
  {
    if ws != [] {
      assert FaceHas(f, id, InEnd(ws[0])) && FaceHas(f, id, OutEnd(ws[0]));
      LightCounts(f, id, InEnd(ws[0]), e);
      var g := LightAt(f, id, InEnd(ws[0]));
      LightCounts(g, id, OutEnd(ws[0]), e);
      RecountAdds(LightAt(g, id, OutEnd(ws[0])), ws[1..], id, e);
    }
  }

  lemma {:induction false} RecountKeepsLamps(f: Face, ws: seq<Wire>, id: int)
    requires LampsRight(f)
    ensures var g := RecountFace(f, ws, id); g == f.(ports := g.ports) && LampsRight(g)
    decreases |ws|
  {
    if ws != [] {
      RecountKeepsLamps(LightAt(LightAt(f, id, InEnd(ws[0])), id, OutEnd(ws[0])), ws[1..], id);
    }
  }

  /** Recounting from blank gives every port its exact number of wires. */
  lemma RecountRight(ws: seq<Wire>, id: int, f: Face, inputs: nat, outputs: nat)
    requires forall i :: 0 <= i < |ws| ==>
               FaceHas(BlankFace(f, inputs, outputs), id, InEnd(ws[i])) &&
               FaceHas(BlankFace(f, inputs, outputs), id, OutEnd(ws[i]))
    ensures var g := RecountFace(BlankFace(f, inputs, outputs), ws, id);
            && g == f.(inputs := inputs, outputs := outputs, ports := g.ports)
            && PortsRight(ws, id, g) && ExactOutputs(ws, id, g)
  {
    var blank := BlankFace(f, inputs, outputs);
    var g := RecountFace(blank, ws, id);
    RecountKeepsLamps(blank, ws, id);
    forall p | 0 <= p < inputs ensures g.ports[p].count == Load(ws, In(id, p)) {
      RecountAdds(blank, ws, id, In(id, p));
    }
    forall q | 0 <= q < outputs ensures g.ports[inputs + q].count == Load(ws, Out(id, q)) {
      RecountAdds(blank, ws, id, Out(id, q));
    }
  }

  /** The stronger claim about outputs that a cancelled gesture can spoil. */
  ghost predicate ExactOutputs(ws: seq<Wire>, id: int, f: Face) {
    && |f.ports| == f.inputs + f.outputs
    && (forall q :: 0 <= q < f.outputs ==> f.ports[f.inputs + q].count == Load(ws, Out(id, q)))
  }

  lemma BlankRight(ws: seq<Wire>, id: int, f: Face, inputs: nat, outputs: nat)
    requires Within(ws, id, 0, 0)
    ensures PortsRight(ws, id, BlankFace(f, inputs, outputs)) && ExactOutputs(ws, id, BlankFace(f, inputs, outputs))
  {
    forall p | 0 <= p < inputs ensures Load(ws, In(id, p)) == 0 { NoLoadAt(ws, id, In(id, p)); }
    forall q | 0 <= q < outputs ensures Load(ws, Out(id, q)) == 0 { NoLoadAt(ws, id, Out(id, q)); }
  }

  /** The face SetupPorts leaves at the device. */
  function NewFace(t: Patch, id: int, inputs: nat, outputs: nat, preserve: bool): Face
    requires id in t.faces
  {
    var blank := BlankFace(t.faces[id], inputs, outputs);
    if preserve then RecountFace(blank, t.wires, id) else blank
  }

  lemma NewFaceRight(t: Patch, id: int, inputs: nat, outputs: nat, preserve: bool)
    requires id in t.faces && AllWiresOk(t)
    requires if preserve then Within(t.wires, id, inputs, outputs) else Within(t.wires, id, 0, 0)
    ensures var g := NewFace(t, id, inputs, outputs, preserve);
            && g == t.faces[id].(inputs := inputs, outputs := outputs, ports := g.ports)
            && PortsRight(t.wires, id, g) && ExactOutputs(t.wires, id, g)
  {
    if preserve {
      var blank := BlankFace(t.faces[id], inputs, outputs);
      forall i | 0 <= i < |t.wires|
        ensures FaceHas(blank, id, InEnd(t.wires[i])) && FaceHas(blank, id, OutEnd(t.wires[i]))
      {
        assert WireOk(t, t.wires[i]) && !Doomed(Beyond(id, inputs, outputs), t.wires[i]);
      }
      RecountRight(t.wires, id, t.faces[id], inputs, outputs);
    } else {
      BlankRight(t.wires, id, t.faces[id], inputs, outputs);
    }
  }

  lemma RecountBlank(t: Patch, id: int, inputs: nat, outputs: nat)
    requires id in t.faces
    ensures var u := t.(faces := t.faces[id := BlankFace(t.faces[id], inputs, outputs)]);
            Recount(u, t.wires, id)
              == t.(faces := t.faces[id := RecountFace(BlankFace(t.faces[id], inputs, outputs), t.wires, id)])
  {
    var u := t.(faces := t.faces[id := BlankFace(t.faces[id], inputs, outputs)]);
    RecountIsLocal(u, t.wires, id);
    var g := RecountFace(BlankFace(t.faces[id], inputs, outputs), t.wires, id);
    assert u.faces[id := g] == t.faces[id := g];
  }

  lemma SetupPortsIs(s: Patch, id: int, inputs: nat, outputs: nat, preserve: bool)
    requires id in s.faces
    ensures var t := Prune(s, id, if preserve then inputs else 0, if preserve then outputs else 0);
            && id in t.faces
            && SetupPorts(s, id, inputs, outputs, preserve)
               == t.(faces := t.faces[id := NewFace(t, id, inputs, outputs, preserve)])
  {
    var ins, outs := if preserve then inputs else 0, if preserve then outputs else 0;
    PruneKeeps(s, id, ins, outs);
    RecountBlank(Prune(s, id, ins, outs), id, inputs, outputs);
  }

  lemma OneFacePorts(t: Patch, id: int, g: Face)
    requires AllPortsRight(t) && PortsRight(t.wires, id, g)
    ensures AllPortsRight(t.(faces := t.faces[id := g]))
  {
  }

  /** Putting a right face in place of a device's old one. */
  lemma RefacedCore(t: Patch, id: int, g: Face)
    requires Core(t) && !PendingOn(t, id) && id in t.faces
    requires PortsRight(t.wires, id, g) && Within(t.wires, id, g.inputs, g.outputs)
    ensures Core(t.(faces := t.faces[id := g]))
  {
    FaceReplaced(t, t.(faces := t.faces[id := g]), id);
    OneFacePorts(t, id, g);
  }

  lemma RefacedShape(s: Patch, t: Patch, id: int, g: Face)
    requires SameShape(s, t) && id in t.faces
    ensures forall k :: k in s.faces && k != id ==>
      && k in t.faces[id := g]
      && t.faces[id := g][k].inputs == s.faces[k].inputs && t.faces[id := g][k].outputs == s.faces[k].outputs
  {
  }

  /** A rebuilt face is right again, with the peers untouched; its own output counts
      are then not only bounded but exact. */
  lemma SetupPortsCore(s: Patch, id: int, inputs: nat, outputs: nat, preserve: bool)
    requires Core(s) && id in s.faces
    ensures var r := SetupPorts(s, id, inputs, outputs, preserve);
            && Core(r) && SamePlugShape(s, r) && r.faces.Keys == s.faces.Keys
            && r.nextId == s.nextId && r.nextBuffer == s.nextBuffer
            && r.wires == Keep(s.wires, if preserve then Beyond(id, inputs, outputs) else Beyond(id, 0, 0))
            && Within(r.wires, id, inputs, outputs) && ExactOutputs(r.wires, id, r.faces[id])
            && r.faces[id].inputs == inputs && r.faces[id].outputs == outputs
            && (forall k :: k in s.faces && k != id ==>
                  r.faces[k].inputs == s.faces[k].inputs && r.faces[k].outputs == s.faces[k].outputs)
  {
    var ins, outs := if preserve then inputs else 0, if preserve then outputs else 0;
    var t := Prune(s, id, ins, outs);
    PruneKeeps(s, id, ins, outs);
    PruneCore(s, id, ins, outs);
    SetupPortsIs(s, id, inputs, outputs, preserve);
    NewFaceRight(t, id, inputs, outputs, preserve);
    WithinMore(t.wires, id, ins, outs, inputs, outputs);
    RefacedCore(t, id, NewFace(t, id, inputs, outputs, preserve));
    RefacedShape(s, t, id, NewFace(t, id, inputs, outputs, preserve));
  }

  lemma WithinMore(ws: seq<Wire>, id: int, a: int, b: int, inputs: int, outputs: int)
    requires Within(ws, id, a, b) && a <= inputs && b <= outputs
    ensures Within(ws, id, inputs, outputs)
  {
    forall i | 0 <= i < |ws| ensures !Doomed(Beyond(id, inputs, outputs), ws[i]) {
      assert !Doomed(Beyond(id, a, b), ws[i]);
    }
  }
}
