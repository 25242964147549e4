/**
 When the count of an output is the number of its wires. Input counts always are; an output
 count is taken down once too often by one kind of event, and this is which.
 */
module OutputCounts {
  import opened Wrappers
  import opened Wiring
  import opened JackPorts
  import opened Session

  ghost predicate ExactAt(s: Patch, k: int) { k in s.faces && ExactOutputs(s.wires, k, s.faces[k]) }

  // ------------------------------------------------------- wires come and go

  lemma DimExact(ws: seq<Wire>, i: nat, id: int, f: Face)
    requires i < |ws| && ExactOutputs(ws, id, f)
    requires FaceHas(f, id, OutEnd(ws[i])) && FaceHas(f, id, InEnd(ws[i]))
    ensures ExactOutputs(RemoveAt(ws, i), id, DimAt(DimAt(f, id, OutEnd(ws[i])), id, InEnd(ws[i])))
  {
    var g := DimAt(DimAt(f, id, OutEnd(ws[i])), id, InEnd(ws[i]));
    forall q | 0 <= q < f.outputs ensures g.ports[f.inputs + q].count == Load(RemoveAt(ws, i), Out(id, q)) {
      LoadRemove(ws, i, Out(id, q));
    }
  }

  lemma DisconnectExact(s: Patch, i: nat, k: int)
    requires i < |s.wires| && WireOk(s, s.wires[i]) && ExactAt(s, k)
    ensures ExactAt(Disconnect(s, i), k)
  {
    var w := s.wires[i];
    DimFaces(s, OutEnd(w), InEnd(w), k);
    DimExact(s.wires, i, k, s.faces[k]);
  }

  lemma {:induction false} DropAllExact(s: Patch, d: Doom, k: int)
    requires Core(s) && ExactAt(s, k)
    ensures ExactAt(DropAll(s, d), k)
    decreases |s.wires|
  {
    var i := FirstDoomed(s.wires, d);
    if i < |s.wires| {
      assert WireOk(s, s.wires[i]);
      DisconnectCore(s, i);
      DisconnectExact(s, i, k);
      DropAllExact(Disconnect(s, i), d, k);
    }
  }

  lemma LightExact(ws: seq<Wire>, w: Wire, id: int, f: Face)
    requires ExactOutputs(ws, id, f) && FaceHas(f, id, OutEnd(w)) && FaceHas(f, id, InEnd(w))
    ensures ExactOutputs(ws + [w], id, LightAt(LightAt(f, id, OutEnd(w)), id, InEnd(w)))
  {
    var g := LightAt(LightAt(f, id, OutEnd(w)), id, InEnd(w));
    forall q | 0 <= q < f.outputs ensures g.ports[f.inputs + q].count == Load(ws + [w], Out(id, q)) {
      LoadAppend(ws, w, Out(id, q));
    }
  }

  lemma ConnectExact(s: Patch, w: Wire)
    requires AllExact(s) && Fits(s, w)
    ensures AllExact(Connect(s, w))
  {
    ConnectShape(s, w);
    forall k | k in s.faces ensures ExactAt(Connect(s, w), k) {
      LightFaces(s, OutEnd(w), InEnd(w), k);
      LightExact(s.wires, w, k, s.faces[k]);
    }
  }

  // ------------------------------------------------- devices come and change

  /** A gesture dropped with its device is no one else's loss. */
  lemma PruneExact(s: Patch, id: int, ins: int, outs: int, k: int)
    requires Core(s) && id in s.faces && k != id && ExactAt(s, k)
    ensures ExactAt(Prune(s, id, ins, outs), k)
  {
    CancelFaces(s, k);
    ClearPendingCore(s);
    DropAllExact(if PendingOn(s, id) then ClearPending(s) else s, Beyond(id, ins, outs), k);
  }

  lemma SetupExact(s: Patch, id: int, ins: nat, outs: nat, preserve: bool)
    requires Core(s) && AllExact(s) && id in s.faces
    ensures AllExact(SetupPorts(s, id, ins, outs, preserve))
  {
    var r := SetupPorts(s, id, ins, outs, preserve);
    var i, o := if preserve then ins else 0, if preserve then outs else 0;
    SetupPortsCore(s, id, ins, outs, preserve);
    SetupPortsIs(s, id, ins, outs, preserve);
    forall k | k in r.faces ensures ExactAt(r, k) {
      if k != id { PruneExact(s, id, i, o, k); }
    }
  }

  lemma RemoveExact(s: Patch, id: int)
    requires Core(s) && AllExact(s) && id in s.faces
    ensures AllExact(Remove(s, id))
  {
    PruneKeeps(s, id, 0, 0);
    forall k | k in Remove(s, id).faces ensures ExactAt(Remove(s, id), k) { PruneExact(s, id, 0, 0, k); }
  }

  lemma AddFaceExact(s: Patch, t: Patch, ins: nat, outs: nat, terminal: bool)
    requires Good(s) && AllExact(s) && t.faces == s.faces && t.wires == s.wires && t.nextId == s.nextId
    ensures AllExact(AddFace(t, ins, outs, terminal))
  {
    NewIdUnused(s);
    forall q | 0 <= q < outs
      ensures Load(s.wires, Out(s.nextId, q)) == 0
    {
      NoLoadAt(s.wires, s.nextId, Out(s.nextId, q));
    }
  }

  /** The faces and the wires of one patch in another. */
  lemma SameExact(s: Patch, r: Patch)
    requires AllExact(s) && r.faces == s.faces && r.wires == s.wires
    ensures AllExact(r)
  {
  }

  // ------------------------------------------------------------------ presses

  /** A gesture that started at a wired output is cancelled: by a click on the canvas, or by
      the left button on an output of a device that is not going away. */
  predicate Spoils(s: Patch, e: Event) {
    && (e.PressCanvas?
        || (e.PressPort? && e.button.Left? && e.end.Out? && OnFace(s, e.end) && !s.faces[e.end.id].killed))
    && s.pending.outId != -1 && Load(s.wires, OutEnd(s.pending)) > 0
  }

  lemma PortOnExact(s: Patch, e: End)
    requires Good(s) && AllExact(s) && OnFace(s, e) && (e.In? ==> !IsLit(s, e))
    ensures AllExact(PortOn(s, e))
            <==> !(e.Out? && s.pending.outId != -1 && Load(s.wires, OutEnd(s.pending)) > 0)
  {
    if if e.Out? then s.pending.outId != -1 else s.pending.inId != -1 {
      CancelKeepsOutputsExact(s);
      assert PortOn(s, e) == ClearPending(s);
    } else {
      TakeEndCore(s, e);
      var t := TakeEnd(s, e);
      SameExact(s, t);
      if BothEnds(t.pending) {
        ConnectExact(t, t.pending);
        SameExact(Connect(t, t.pending), PortOn(s, e));
      } else {
        assert PortOn(s, e) == t;
      }
    }
  }

  lemma PressExact(s: Patch, e: End, b: Button)
    requires Good(s) && AllExact(s)
    ensures AllExact(Press(s, e, b)) <==> !Spoils(s, PressPort(e, b))
  {
    if OnFace(s, e) && !s.faces[e.id].killed {
      if b.Right? {
        DropAllShape(s, AtPort(e));
        forall k | k in s.faces ensures ExactAt(DropAll(s, AtPort(e)), k) { DropAllExact(s, AtPort(e), k); }
        SameExact(DropAll(s, AtPort(e)), Press(s, e, b));
      } else if !(e.In? && IsLit(s, e)) {
        PortOnExact(s, e);
      }
    }
  }

  // ------------------------------------------------------------------- events

  lemma ResizeJackExact(s: Patch, id: int, ins: nat, outs: nat)
    requires Good(s) && AllExact(s) && id in s.faces && id in s.plugs
    ensures AllExact(TellThenResize(s, id, ins, outs))
  {
    SetupExact(s, id, ins, outs, true);
    SameExact(SetupPorts(s, id, ins, outs, true), TellThenResize(s, id, ins, outs));
  }

  lemma AddChannelExact(s: Patch, id: int)
    requires Good(s) && AllExact(s) && id in s.faces && id in s.plugs
    ensures AllExact(AddChannel(s, id))
  {
    var ins, outs := |s.plugs[id].sockets| + 1, |s.plugs[id].buffers|;
    var u := Resized(s, id, ins, outs);
    AddChannelIs(s, id);
    GrownCore(s, id, ins, outs);
    SameExact(s, u);
    SetupExact(u, id, ins, outs, true);
  }

  lemma RemoveChannelExact(s: Patch, id: int, ins: nat, outs: nat)
    requires Good(s) && AllExact(s) && id in s.faces && id in s.plugs
    requires ins + 1 == |s.plugs[id].sockets| && outs == |s.plugs[id].buffers| && ins >= FEWEST_CHANNELS
    ensures AllExact(RemoveChannel(s, id))
  {
    RemoveChannelIs(s, id, ins, outs);
    ResizeJackExact(s, id, ins, outs);
  }

  lemma RelayoutExact(s: Patch, id: int, ins: nat, outs: nat)
    requires Good(s) && AllExact(s) && id in s.faces && id in s.plugs
    ensures AllExact(SetupPorts(Replug(s, id, ins, outs), id, ins, outs, false))
  {
    RelayoutIs(s, id, ins, outs);
    SetupExact(s, id, ins, outs, false);
    SameExact(SetupPorts(s, id, ins, outs, false), Replug(SetupPorts(s, id, ins, outs, false), id, ins, outs));
  }

  /** With every count exact, an event leaves them so if and only if it does not cancel a
      gesture that started at a wired output. */
  lemma StepExact(s: Patch, e: Event)
    requires Good(s) && AllExact(s)
    ensures AllExact(Step(s, e)) <==> !Spoils(s, e)
  {
    match e
    case PressPort(end, button) => PressExact(s, end, button);
    case PressCanvas => CancelKeepsOutputsExact(s);
    case NewDevice(ins, outs, terminal) => AddFaceExact(s, Replug(s, s.nextId, ins, outs), ins, outs, terminal);
    case NewComment => AddFaceExact(s, s, 0, 0, false);
    case Kill(id) =>
    case Sweep(id) => if id in s.faces { RemoveExact(s, id); }
    case Reap(id) =>
    case Relayout(id, ins, outs) => if id in s.faces && id in s.plugs { RelayoutExact(s, id, ins, outs); }
    case ResizeJack(id, n, m) => if id in s.faces && id in s.plugs { ResizeJackExact(s, id, Clamp(n), Clamp(m)); }
    case MoreChannels(id) => if id in s.faces && id in s.plugs { AddChannelExact(s, id); }
    case FewerChannels(id) =>
      if id in s.faces && id in s.plugs && |s.plugs[id].sockets| > FEWEST_CHANNELS {
        RemoveChannelExact(s, id, |s.plugs[id].sockets| - 1, |s.plugs[id].buffers|);
      }
  }

  // --------------------------------------------------------------------- runs

  /** In every state of a run every output count is the number of its wires. */
  ghost predicate ExactAlong(s: Patch, es: seq<Event>)
    decreases |es|
  {
    AllExact(s) && (es == [] || ExactAlong(Step(s, es[0]), es[1..]))
  }

  predicate Unspoilt(s: Patch, es: seq<Event>)
    decreases |es|
  {
    es == [] || (!Spoils(s, es[0]) && Unspoilt(Step(s, es[0]), es[1..]))
  }

  lemma {:induction false} RunExact(s: Patch, es: seq<Event>)
    requires Good(s) && AllExact(s)
    ensures ExactAlong(s, es) <==> Unspoilt(s, es)
    decreases |es|
  {
    if es != [] {
      StepExact(s, es[0]);
      StepGood(s, es[0]);
      if AllExact(Step(s, es[0])) { RunExact(Step(s, es[0]), es[1..]); }
    }
  }

  /** Of every session: all its output counts are exact throughout if and only if it never
      cancels a gesture that started at a wired output. */
  lemma EverySessionExact(es: seq<Event>)
    ensures ExactAlong(EMPTY, es) <==> Unspoilt(EMPTY, es)
  {
    RunExact(EMPTY, es);
  }
}
