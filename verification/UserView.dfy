/**
 The canvas as its user sees it: devices with numbers of ports, a list of wires and the
 wire in hand. No counts, lights, bindings or restart loops; every event is said in a line,
 and a session on the canvas is the same session here.
 */
module UserView {
  import opened Wrappers
  import opened Wiring
  import opened JackPorts
  import opened Session

  datatype Layout = Layout(inputs: nat, outputs: nat, terminal: bool, killed: bool)

  /** Of a plugin, how many inputs and outputs it has. */
  datatype Size = Size(inputs: nat, outputs: nat)

  datatype View = View(devices: map<int, Layout>, plugins: map<int, Size>, wires: seq<Wire>, pending: Wire, nextId: nat)

  const BARE := View(map[], map[], [], NO_WIRE, 0)

  function LayoutOf(f: Face): Layout { Layout(f.inputs, f.outputs, f.terminal, f.killed) }

  function Layouts(faces: map<int, Face>): map<int, Layout> { map id | id in faces :: LayoutOf(faces[id]) }

  function SizeOf(g: Plug): Size { Size(|g.sockets|, |g.buffers|) }

  function Sizes(plugs: map<int, Plug>): map<int, Size> { map id | id in plugs :: SizeOf(plugs[id]) }

  function ViewOf(s: Patch): View { View(Layouts(s.faces), Sizes(s.plugs), s.wires, s.pending, s.nextId) }

  // --------------------------------------------------------- what the user does

  function Filter(ws: seq<Wire>, keep: Wire -> bool): seq<Wire> {
    if ws == [] then [] else (if keep(ws[0]) then [ws[0]] else []) + Filter(ws[1..], keep)
  }

  /** `rs` is what `ws` has at the places `at`, in order. */
  ghost predicate Picked(ws: seq<Wire>, rs: seq<Wire>, at: seq<nat>) {
    && |rs| == |at|
    && (forall k :: 0 <= k < |at| ==> at[k] < |ws| && rs[k] == ws[at[k]])
    && (forall j, k :: 0 <= j < k < |at| ==> at[j] < at[k])
  }

  predicate AtDevice(w: Wire, id: int) { w.outId == id || w.inId == id }

  predicate HasPort(v: View, e: End) {
    e.id in v.devices && 0 <= e.port < (if e.In? then v.devices[e.id].inputs else v.devices[e.id].outputs)
  }

  predicate Wired(ws: seq<Wire>, e: End) { exists i :: 0 <= i < |ws| && Touches(ws[i], e) }

  /** The wire in hand holds an end of this kind already. */
  predicate SameKind(w: Wire, e: End) { if e.Out? then w.outId != -1 else w.inId != -1 }

  function Joined(w: Wire, e: End, terminal: bool): Wire {
    if e.Out? then Wire(e.id, e.port, terminal, w.inId, w.inPort, w.inTerminal)
    else Wire(w.outId, w.outPort, w.outTerminal, e.id, e.port, terminal)
  }

  function Clicked(v: View, e: End): View
    requires e.id in v.devices
  {
    if e.In? && Wired(v.wires, e) then v
    else if SameKind(v.pending, e) then v.(pending := NO_WIRE)
    else
      var w := Joined(v.pending, e, v.devices[e.id].terminal);
      if w.outId != -1 && w.inId != -1 then v.(wires := v.wires + [w], pending := NO_WIRE) else v.(pending := w)
  }

  function Cut(v: View, e: End): View {
    v.(wires := Filter(v.wires, (w: Wire) => !Touches(w, e)), pending := NO_WIRE)
  }

  /** The wire in hand, unless it hangs at this device. */
  function LetGo(w: Wire, id: int): Wire {
    if (w.inId != -1 || w.outId != -1) && (w.inId == id || w.outId == id) then NO_WIRE else w
  }

  function Sized(v: View, id: int, ins: nat, outs: nat): View
    requires id in v.devices
  {
    v.(devices := v.devices[id := v.devices[id].(inputs := ins, outputs := outs)],
       plugins := v.plugins[id := Size(ins, outs)])
  }

  predicate WithinSize(w: Wire, id: int, ins: nat, outs: nat) {
    (w.outId == id ==> w.outPort < outs) && (w.inId == id ==> w.inPort < ins)
  }

  /** A device and its plugin take a new number of ports; wires past them go. */
  function Resize(v: View, id: int, ins: nat, outs: nat): View
    requires id in v.devices
  {
    Sized(v, id, ins, outs).(wires := Filter(v.wires, (w: Wire) => WithinSize(w, id, ins, outs)),
                             pending := LetGo(v.pending, id))
  }

  function Detached(v: View, id: int): View {
    v.(wires := Filter(v.wires, (w: Wire) => !AtDevice(w, id)), pending := LetGo(v.pending, id))
  }

  function Added(v: View, ins: nat, outs: nat, terminal: bool): View {
    v.(devices := v.devices[v.nextId := Layout(ins, outs, terminal, false)], nextId := v.nextId + 1)
  }

  function Between(lo: nat, n: int, hi: nat): nat {
    if n < lo then lo else if n > hi then hi else n
  }

  function Do(v: View, e: Event): View {
    match e
    case PressPort(end, button) =>
      if !HasPort(v, end) || v.devices[end.id].killed then v
      else if button.Right? then Cut(v, end)
      else Clicked(v, end)
    case PressCanvas => v.(pending := NO_WIRE)
    case NewDevice(ins, outs, terminal) =>
      Added(v.(plugins := v.plugins[v.nextId := Size(ins, outs)]), ins, outs, terminal)
    case NewComment => Added(v, 0, 0, false)
    case Kill(id) =>
      if id in v.devices then v.(devices := v.devices[id := v.devices[id].(killed := true)]) else v
    case Sweep(id) =>
      if id in v.devices && v.devices[id].killed then Detached(v, id).(devices := v.devices - {id}) else v
    case Reap(id) =>
      if id in v.plugins && id !in v.devices then v.(plugins := v.plugins - {id}) else v
    case Relayout(id, ins, outs) =>
      if id in v.devices && id in v.plugins then Sized(Detached(v, id), id, ins, outs) else v
    case ResizeJack(id, n, m) =>
      if id in v.devices && id in v.plugins then Resize(v, id, Between(2, n, 64), Between(2, m, 64)) else v
    case MoreChannels(id) =>
      if id in v.devices && id in v.plugins && v.plugins[id].inputs < 16
      then Resize(v, id, v.plugins[id].inputs + 1, v.plugins[id].outputs) else v
    case FewerChannels(id) =>
      if id in v.devices && id in v.plugins && v.plugins[id].inputs > 2
      then Resize(v, id, v.plugins[id].inputs - 1, v.plugins[id].outputs) else v
  }

  function DoAll(v: View, es: seq<Event>): View
    decreases |es|
  {
    if es == [] then v else DoAll(Do(v, es[0]), es[1..])
  }

  // ------------------------------------------------------------ lists and loads

  function Places(ws: seq<Wire>, keep: Wire -> bool, from: nat): seq<nat> {
    if ws == [] then [] else (if keep(ws[0]) then [from] else []) + Places(ws[1..], keep, from + 1)
  }

  lemma {:induction false} PlaceHolds(ws: seq<Wire>, keep: Wire -> bool, from: nat, k: nat) returns (i: nat)
    requires k < |Places(ws, keep, from)|
    ensures i < |ws| && keep(ws[i]) && Places(ws, keep, from)[k] == from + i
    ensures k < |Filter(ws, keep)| && Filter(ws, keep)[k] == ws[i]
    decreases |ws|
  {
    if keep(ws[0]) && k == 0 {
      i := 0;
    } else {
      var j := if keep(ws[0]) then k - 1 else k;
      i := PlaceHolds(ws[1..], keep, from + 1, j);
      assert ws[1..][i] == ws[i + 1];
      i := i + 1;
    }
  }

  lemma {:induction false} PlacesCount(ws: seq<Wire>, keep: Wire -> bool, from: nat)
    ensures |Filter(ws, keep)| == |Places(ws, keep, from)|
    decreases |ws|
  {
    if ws != [] { PlacesCount(ws[1..], keep, from + 1); }
  }

  lemma {:induction false} PlacesRise(ws: seq<Wire>, keep: Wire -> bool, from: nat)
    ensures forall j, k :: 0 <= j < k < |Places(ws, keep, from)| ==>
              Places(ws, keep, from)[j] < Places(ws, keep, from)[k]
    decreases |ws|
  {
    if ws != [] {
      PlacesRise(ws[1..], keep, from + 1);
      var here, more := if keep(ws[0]) then [from] else [], Places(ws[1..], keep, from + 1);
      forall j, k | 0 <= j < k < |here + more| ensures (here + more)[j] < (here + more)[k] {
        assert (here + more)[k] == more[k - |here|];
        if j < |here| { var i := PlaceHolds(ws[1..], keep, from + 1, k - |here|); }
      }
    }
  }

  lemma {:induction false} PlacesMissNone(ws: seq<Wire>, keep: Wire -> bool, from: nat, i: nat)
    requires i < |ws| && keep(ws[i])
    ensures from + i in Places(ws, keep, from)
    decreases |ws|
  {
    if i > 0 { PlacesMissNone(ws[1..], keep, from + 1, i - 1); }
  }

  /** A filter leaves exactly the places that pass, in order. */
  lemma FilterPicks(ws: seq<Wire>, keep: Wire -> bool) returns (at: seq<nat>)
    ensures Picked(ws, Filter(ws, keep), at)
    ensures forall i: nat :: i in at <==> i < |ws| && keep(ws[i])
  {
    at := Places(ws, keep, 0);
    PlacesCount(ws, keep, 0);
    PlacesRise(ws, keep, 0);
    forall k | 0 <= k < |at|
      ensures at[k] < |ws| && keep(ws[at[k]]) && Filter(ws, keep)[k] == ws[at[k]]
    {
      var i := PlaceHolds(ws, keep, 0, k);
    }
    forall i: nat | i < |ws| && keep(ws[i]) ensures i in at { PlacesMissNone(ws, keep, 0, i); }
  }

  lemma {:induction false} KeepIsFilter(ws: seq<Wire>, d: Doom, keep: Wire -> bool)
    requires forall i :: 0 <= i < |ws| ==> (keep(ws[i]) <==> !Doomed(d, ws[i]))
    ensures Keep(ws, d) == Filter(ws, keep)
  {
    if ws != [] {
      assert keep(ws[0]) <==> !Doomed(d, ws[0]);
      KeepIsFilter(ws[1..], d, keep);
    }
  }

  lemma {:induction false} FilterAll(ws: seq<Wire>, keep: Wire -> bool)
    requires forall i :: 0 <= i < |ws| ==> keep(ws[i])
    ensures Filter(ws, keep) == ws
  {
    if ws != [] { FilterAll(ws[1..], keep); }
  }

  lemma WiredIsLoaded(ws: seq<Wire>, e: End)
    ensures Wired(ws, e) <==> Load(ws, e) > 0
  {
    if Load(ws, e) > 0 { var i := LoadWitness(ws, e); }
    if Wired(ws, e) {
      var i :| 0 <= i < |ws| && Touches(ws[i], e);
      LoadZero(ws, i, e);
    }
  }

  // --------------------------------------------------------- what is not seen

  lemma LampsHidden(s: Patch, e: End)
    ensures Layouts(Dim(s, e).faces) == Layouts(s.faces) && Layouts(Light(s, e).faces) == Layouts(s.faces)
  {
  }

  lemma BindsHidden(s: Patch, w: Wire)
    ensures Sizes(Bind(s, w).plugs) == Sizes(s.plugs) && Sizes(Unbind(s, w).plugs) == Sizes(s.plugs)
  {
  }

  lemma DisconnectHidden(s: Patch, i: nat)
    requires i < |s.wires|
    ensures ViewOf(Disconnect(s, i)) == ViewOf(s).(wires := RemoveAt(s.wires, i))
  {
    var w := s.wires[i];
    var a := Dim(s, OutEnd(w));
    LampsHidden(s, OutEnd(w));
    LampsHidden(a, InEnd(w));
    BindsHidden(Dim(a, InEnd(w)), w);
  }

  lemma {:induction false} DropAllHidden(s: Patch, d: Doom)
    ensures ViewOf(DropAll(s, d)) == ViewOf(s).(wires := Keep(s.wires, d))
    decreases |s.wires|
  {
    var i := FirstDoomed(s.wires, d);
    KeepSkips(s.wires, d);
    if i < |s.wires| {
      DisconnectHidden(s, i);
      DropAllHidden(Disconnect(s, i), d);
    }
  }

  lemma ClearPendingHidden(s: Patch)
    ensures ViewOf(ClearPending(s)) == ViewOf(s).(pending := NO_WIRE)
  {
    var a := if s.pending.outId != -1 then Dim(s, OutEnd(s.pending)) else s;
    LampsHidden(s, OutEnd(s.pending));
    LampsHidden(a, InEnd(s.pending));
  }

  lemma ConnectHidden(s: Patch, w: Wire)
    ensures ViewOf(Connect(s, w)) == ViewOf(s).(wires := s.wires + [w])
  {
    var a := Bind(s.(wires := s.wires + [w]), w);
    BindsHidden(s.(wires := s.wires + [w]), w);
    LampsHidden(a, OutEnd(w));
    LampsHidden(Light(a, OutEnd(w)), InEnd(w));
  }

  lemma PruneHidden(s: Patch, id: int, ins: int, outs: int)
    ensures ViewOf(Prune(s, id, ins, outs))
            == ViewOf(s).(wires := Keep(s.wires, Beyond(id, ins, outs)), pending := LetGo(s.pending, id))
  {
    ClearPendingHidden(s);
    DropAllHidden(if PendingOn(s, id) then ClearPending(s) else s, Beyond(id, ins, outs));
  }

  // ------------------------------------------------------- each event is as said

  lemma InputLit(s: Patch, e: End)
    requires AllPortsRight(s) && OnFace(s, e) && e.In?
    ensures IsLit(s, e) <==> Wired(s.wires, e)
  {
    WiredIsLoaded(s.wires, e);
    assert PortsRight(s.wires, e.id, s.faces[e.id]);
  }

  lemma PortsSeen(s: Patch, e: End)
    ensures HasPort(ViewOf(s), e) <==> OnFace(s, e)
    ensures OnFace(s, e) ==> ViewOf(s).devices[e.id] == LayoutOf(s.faces[e.id])
  {
  }

  lemma CutIs(s: Patch, e: End)
    ensures ViewOf(PortOff(s, e)) == Cut(ViewOf(s), e)
  {
    DropAllHidden(s, AtPort(e));
    KeepIsFilter(s.wires, AtPort(e), (w: Wire) => !Touches(w, e));
  }

  lemma TakeOrCancelIs(s: Patch, e: End)
    requires e.id in s.faces
    ensures ViewOf(TakeOrCancel(s, e))
            == ViewOf(s).(pending := if SameKind(s.pending, e) then NO_WIRE
                                     else Joined(s.pending, e, s.faces[e.id].terminal))
  {
    ClearPendingHidden(s);
  }

  lemma ClickedIs(s: Patch, e: End)
    requires OnFace(s, e) && (s.pending.outId == -1 || s.pending.inId == -1) && (e.In? ==> !Wired(s.wires, e))
    ensures ViewOf(PortOn(s, e)) == Clicked(ViewOf(s), e)
  {
    PortsSeen(s, e);
    TakeOrCancelIs(s, e);
    var t := TakeOrCancel(s, e);
    ConnectHidden(t, t.pending);
  }

  lemma PressIs(s: Patch, e: End, b: Button)
    requires Good(s)
    ensures ViewOf(Press(s, e, b)) == Do(ViewOf(s), PressPort(e, b))
  {
    PortsSeen(s, e);
    if OnFace(s, e) && !s.faces[e.id].killed {
      if b.Right? {
        CutIs(s, e);
      } else {
        if e.In? { InputLit(s, e); }
        if !(e.In? && IsLit(s, e)) { ClickedIs(s, e); }
      }
    }
  }

  lemma PortsOfWires(s: Patch, i: nat)
    requires AllWiresOk(s) && i < |s.wires|
    ensures s.wires[i].outPort >= 0 && s.wires[i].inPort >= 0
  {
    assert WireOk(s, s.wires[i]);
  }

  lemma DetachedIs(s: Patch, id: int)
    requires AllWiresOk(s)
    ensures ViewOf(Prune(s, id, 0, 0)) == Detached(ViewOf(s), id)
  {
    PruneHidden(s, id, 0, 0);
    var keep := (w: Wire) => !AtDevice(w, id);
    forall i | 0 <= i < |s.wires| ensures keep(s.wires[i]) <==> !Doomed(Beyond(id, 0, 0), s.wires[i]) {
      PortsOfWires(s, i);
    }
    KeepIsFilter(s.wires, Beyond(id, 0, 0), keep);
  }

  lemma RemoveIs(s: Patch, id: int)
    requires AllWiresOk(s)
    ensures ViewOf(Remove(s, id)) == Detached(ViewOf(s), id).(devices := ViewOf(s).devices - {id})
  {
    DetachedIs(s, id);
    assert Layouts(Prune(s, id, 0, 0).faces - {id}) == Layouts(Prune(s, id, 0, 0).faces) - {id};
  }

  lemma NewFaceLayout(t: Patch, id: int, ins: nat, outs: nat, preserve: bool)
    requires id in t.faces
    ensures LayoutOf(NewFace(t, id, ins, outs, preserve)) == LayoutOf(t.faces[id]).(inputs := ins, outputs := outs)
  {
    var blank := BlankFace(t.faces[id], ins, outs);
    assert LampsRight(blank);
    RecountKeepsLamps(blank, t.wires, id);
  }

  lemma LayoutPut(faces: map<int, Face>, id: int, g: Face)
    ensures Layouts(faces[id := g]) == Layouts(faces)[id := LayoutOf(g)]
  {
  }

  lemma SetupIs(s: Patch, id: int, ins: nat, outs: nat, preserve: bool)
    requires id in s.faces
    ensures var t := ViewOf(Prune(s, id, if preserve then ins else 0, if preserve then outs else 0));
            && id in t.devices
            && ViewOf(SetupPorts(s, id, ins, outs, preserve))
               == t.(devices := t.devices[id := LayoutOf(s.faces[id]).(inputs := ins, outputs := outs)])
  {
    var i, o := if preserve then ins else 0, if preserve then outs else 0;
    var t := Prune(s, id, i, o);
    SetupPortsIs(s, id, ins, outs, preserve);
    PruneHidden(s, id, i, o);
    assert LayoutOf(t.faces[id]) == Layouts(t.faces)[id] == Layouts(s.faces)[id];
    NewFaceLayout(t, id, ins, outs, preserve);
    LayoutPut(t.faces, id, NewFace(t, id, ins, outs, preserve));
  }

  lemma SizePut(plugs: map<int, Plug>, id: int, g: Plug)
    ensures Sizes(plugs[id := g]) == Sizes(plugs)[id := SizeOf(g)]
  {
  }

  lemma ResizedIs(s: Patch, id: int, ins: nat, outs: nat)
    requires id in s.plugs
    ensures ViewOf(Resized(s, id, ins, outs)) == ViewOf(s).(plugins := Sizes(s.plugs)[id := Size(ins, outs)])
  {
    var g := JackPorts.Resize(s.plugs[id], ins, outs, s.nextBuffer);
    SizePut(s.plugs, id, g);
    assert SizeOf(g) == Size(ins, outs);
  }

  lemma WithinIs(ws: seq<Wire>, id: int, ins: nat, outs: nat)
    ensures Keep(ws, Beyond(id, ins, outs)) == Filter(ws, (w: Wire) => WithinSize(w, id, ins, outs))
  {
    KeepIsFilter(ws, Beyond(id, ins, outs), (w: Wire) => WithinSize(w, id, ins, outs));
  }

  lemma TellThenResizeView(s: Patch, id: int, ins: nat, outs: nat)
    requires id in s.faces && id in s.plugs
    ensures ViewOf(TellThenResize(s, id, ins, outs)) == Resize(ViewOf(s), id, ins, outs)
  {
    var t := SetupPorts(s, id, ins, outs, true);
    SetupIs(s, id, ins, outs, true);
    PruneHidden(s, id, ins, outs);
    WithinIs(s.wires, id, ins, outs);
    assert t.plugs.Keys == Sizes(t.plugs).Keys == Sizes(s.plugs).Keys == s.plugs.Keys;
    ResizedIs(t, id, ins, outs);
  }

  lemma ResizeThenTellView(s: Patch, id: int, ins: nat, outs: nat)
    requires id in s.faces && id in s.plugs
    ensures ViewOf(ResizeThenTell(s, id, ins, outs, true)) == Resize(ViewOf(s), id, ins, outs)
  {
    var t := Resized(s, id, ins, outs);
    ResizedIs(s, id, ins, outs);
    SetupIs(t, id, ins, outs, true);
    PruneHidden(t, id, ins, outs);
    WithinIs(t.wires, id, ins, outs);
  }

  lemma ReplugIs(s: Patch, id: int, ins: nat, outs: nat)
    ensures ViewOf(Replug(s, id, ins, outs)) == ViewOf(s).(plugins := Sizes(s.plugs)[id := Size(ins, outs)])
  {
    SizePut(s.plugs, id, FreshPlug(ins, outs, s.nextBuffer));
  }

  lemma RelayoutView(s: Patch, id: int, ins: nat, outs: nat)
    requires AllWiresOk(s) && id in s.faces && id in s.plugs
    ensures ViewOf(SetupPorts(Replug(s, id, ins, outs), id, ins, outs, false))
            == Sized(Detached(ViewOf(s), id), id, ins, outs)
  {
    var t := Replug(s, id, ins, outs);
    ReplugIs(s, id, ins, outs);
    SetupIs(t, id, ins, outs, false);
    PruneHidden(t, id, 0, 0);
    PruneHidden(s, id, 0, 0);
    DetachedIs(s, id);
  }

  lemma AddFaceIs(s: Patch, ins: nat, outs: nat, terminal: bool)
    ensures ViewOf(AddFace(s, ins, outs, terminal)) == Added(ViewOf(s), ins, outs, terminal)
  {
    LayoutPut(s.faces, s.nextId, Face(ins, outs, terminal, false, seq(ins + outs, _ => Port(0, false))));
  }

  lemma KillIs(s: Patch, id: int)
    requires id in s.faces
    ensures ViewOf(Step(s, Kill(id))) == Do(ViewOf(s), Kill(id))
  {
    LayoutPut(s.faces, id, s.faces[id].(killed := true));
  }

  lemma ReapIs(s: Patch, id: int)
    ensures ViewOf(Step(s, Reap(id))) == Do(ViewOf(s), Reap(id))
  {
    assert Sizes(s.plugs - {id}) == Sizes(s.plugs) - {id};
  }

  lemma AdditionsAre(s: Patch, e: Event)
    requires e.NewDevice? || e.NewComment?
    ensures ViewOf(Step(s, e)) == Do(ViewOf(s), e)
  {
    if e.NewDevice? {
      ReplugIs(s, s.nextId, e.inputs, e.outputs);
      AddFaceIs(Replug(s, s.nextId, e.inputs, e.outputs), e.inputs, e.outputs, e.terminal);
    } else {
      AddFaceIs(s, 0, 0, false);
    }
  }

  lemma SweepIs(s: Patch, id: int)
    requires AllWiresOk(s)
    ensures ViewOf(Step(s, Sweep(id))) == Do(ViewOf(s), Sweep(id))
  {
    if id in s.faces && s.faces[id].killed { RemoveIs(s, id); }
  }

  lemma RelayoutSeen(s: Patch, id: int, ins: nat, outs: nat)
    requires AllWiresOk(s)
    ensures ViewOf(Step(s, Relayout(id, ins, outs))) == Do(ViewOf(s), Relayout(id, ins, outs))
  {
    if id in s.faces && id in s.plugs { RelayoutView(s, id, ins, outs); }
  }

  lemma ResizeJackIs(s: Patch, id: int, n: int, m: int)
    ensures ViewOf(Step(s, ResizeJack(id, n, m))) == Do(ViewOf(s), ResizeJack(id, n, m))
  {
    if id in s.faces && id in s.plugs { TellThenResizeView(s, id, Between(2, n, 64), Between(2, m, 64)); }
  }

  lemma MoreChannelsIs(s: Patch, id: int)
    ensures ViewOf(Step(s, MoreChannels(id))) == Do(ViewOf(s), MoreChannels(id))
  {
    if id in s.faces && id in s.plugs && |s.plugs[id].sockets| < 16 {
      ResizeThenTellView(s, id, |s.plugs[id].sockets| + 1, |s.plugs[id].buffers|);
    }
  }

  lemma FewerChannelsIs(s: Patch, id: int)
    ensures ViewOf(Step(s, FewerChannels(id))) == Do(ViewOf(s), FewerChannels(id))
  {
    if id in s.faces && id in s.plugs && |s.plugs[id].sockets| > 2 {
      TellThenResizeView(s, id, |s.plugs[id].sockets| - 1, |s.plugs[id].buffers|);
    }
  }

  /** What an event does to what the user sees is what the event is said to do. */
  lemma StepIsSeen(s: Patch, e: Event)
    requires Good(s)
    ensures ViewOf(Step(s, e)) == Do(ViewOf(s), e)
  {
    match e
    case PressPort(end, button) => PressIs(s, end, button);
    case PressCanvas => ClearPendingHidden(s);
    case NewDevice(_, _, _) => AdditionsAre(s, e);
    case NewComment => AdditionsAre(s, e);
    case Kill(id) => if id in s.faces { KillIs(s, id); }
    case Sweep(id) => SweepIs(s, id);
    case Reap(id) => ReapIs(s, id);
    case Relayout(id, ins, outs) => RelayoutSeen(s, id, ins, outs);
    case ResizeJack(id, n, m) => ResizeJackIs(s, id, n, m);
    case MoreChannels(id) => MoreChannelsIs(s, id);
    case FewerChannels(id) => FewerChannelsIs(s, id);
  }

  lemma {:induction false} RunIsSeen(s: Patch, es: seq<Event>)
    requires Good(s)
    ensures ViewOf(Run(s, es)) == DoAll(ViewOf(s), es)
    decreases |es|
  {
    if es != [] {
      StepIsSeen(s, es[0]);
      StepGood(s, es[0]);
      RunIsSeen(Step(s, es[0]), es[1..]);
    }
  }

  /** Every session on the canvas, with its three views of the graph and its restart loops,
      shows what the session on paper shows. */
  lemma EverySessionIsSeen(es: seq<Event>)
    ensures ViewOf(Run(EMPTY, es)) == DoAll(BARE, es)
  {
    RunIsSeen(EMPTY, es);
  }
}
