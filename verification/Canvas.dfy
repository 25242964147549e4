/**
 The wiring as the program keeps it: device widgets, plugins and a canvas, all updated
 in place. Each method is tied to the function of the same step in Wiring.
 */
module Canvas {
  import opened Wrappers
  import opened Wiring
  import JackPorts
  import Session

  /** Fl_DeviceGUI: the port buttons of one device. */
  class DeviceGUI {
    var inputs: nat
    var outputs: nat
    var killed: bool
    var ports: seq<Port>
    const terminal: bool

    ghost function View(): Face
      reads this
    {
      Face(inputs, outputs, terminal, killed, ports)
    }

    constructor (inputs: nat, outputs: nat, terminal: bool)
      ensures View() == Face(inputs, outputs, terminal, false, seq(inputs + outputs, _ => Port(0, false)))
    {
      this.inputs, this.outputs, this.terminal, this.killed := inputs, outputs, terminal, false;
      this.ports := seq(inputs + outputs, _ => Port(0, false));
    }

    method AddConnection(n: int) returns (ok: bool)
      requires 0 <= n
      modifies this
      ensures ok == (n < |old(ports)|)
      ensures View() == LightSlot(old(View()), n)
    {
      if n < |ports| {
        ports := ports[n := Port(ports[n].count + 1, true)];
        return true;
      }
      return false;
    }

    method RemoveConnection(n: int)
      requires 0 <= n < |ports|
      modifies this
      ensures View() == DimSlot(old(View()), n)
    {
      var count := if ports[n].count > 0 then ports[n].count - 1 else 0;
      var lit := ports[n].lit;
      if count == 0 {
        lit := false;
      }
      ports := ports[n := Port(count, lit)];
    }
  }

  /** SpiralPlugin: what its inputs read and the buffers of its outputs. */
  class Plugin {
    var sockets: seq<Option<nat>>
    var buffers: seq<nat>

    ghost function View(): Plug
      reads this
    {
      Plug(sockets, buffers)
    }

    constructor (inputs: nat, outputs: nat, next: nat)
      ensures View() == Plug(seq(inputs, _ => None), seq(outputs, i => next + i))
    {
      sockets := seq(inputs, _ => None);
      buffers := seq(outputs, i => next + i);
    }

    method GetOutput(n: int) returns (buffer: Option<nat>)
      ensures buffer == if 0 <= n < |buffers| then Some(buffers[n]) else None
    {
      buffer := if 0 <= n < |buffers| then Some(buffers[n]) else None;
    }

    /** A negative port is a huge unsigned one, so it is refused as well. */
    method SetInput(n: int, buffer: Option<nat>) returns (ok: bool)
      modifies this
      ensures ok == (0 <= n < |old(sockets)|)
      ensures View() == if ok then old(View()).(sockets := old(sockets)[n := buffer]) else old(View())
    {
      ok := 0 <= n < |sockets|;
      if ok {
        sockets := sockets[n := buffer];
      }
    }

    /** The four loops of SetNumberPorts over RemoveInput, RemoveOutput, AddInput, AddOutput. */
    method Resize(inputs: nat, outputs: nat, next: nat)
      modifies this
      ensures View() == JackPorts.Resize(old(View()), inputs, outputs, next)
    {
      while inputs < |sockets|
        invariant sockets == old(sockets)[..|sockets|] && |sockets| <= |old(sockets)| && buffers == old(buffers)
        invariant |sockets| == |old(sockets)| || inputs <= |sockets|
      {
        sockets := sockets[..|sockets| - 1];
      }
      while outputs < |buffers|
        invariant buffers == old(buffers)[..|buffers|] && |buffers| <= |old(buffers)|
        invariant |buffers| == |old(buffers)| || outputs <= |buffers|
        invariant sockets == (if inputs <= |old(sockets)| then old(sockets)[..inputs] else old(sockets))
      {
        buffers := buffers[..|buffers| - 1];
      }
      ghost var s0, b0 := sockets, buffers;
      while |sockets| < inputs
        invariant |s0| <= |sockets| && sockets == s0 + seq(|sockets| - |s0|, _ => None)
        invariant |sockets| == |s0| || |sockets| <= inputs
        invariant buffers == b0
        decreases inputs - |sockets|
      {
        sockets := sockets + [None];
      }
      var added := 0;
      while |buffers| < outputs
        invariant |b0| + added == |buffers| && buffers == b0 + seq(added, i => next + i)
        invariant added == 0 || |buffers| <= outputs
        invariant |s0| <= |sockets| && sockets == s0 + seq(|sockets| - |s0|, _ => None)
        invariant |sockets| == if |s0| < inputs then inputs else |s0|
        decreases outputs - |buffers|
      {
        buffers := buffers + [next + added];
        added := added + 1;
      }
    }
  }

  /** Fl_Canvas with the device table of SynthModular. */
  class Host {
    var guis: map<int, DeviceGUI>
    var plugins: map<int, Plugin>
    var wires: seq<Wire>
    var pending: Wire
    var nextId: nat
    var nextBuffer: nat

    /** No two devices share a widget, no two a plugin. */
    ghost predicate Valid()
      reads this`guis, this`plugins
    {
      && (forall a, b :: a in guis && b in guis && a != b ==> guis[a] != guis[b])
      && (forall a, b :: a in plugins && b in plugins && a != b ==> plugins[a] != plugins[b])
    }

    ghost function Faces(): map<int, Face>
      reads this`guis, guis.Values
    {
      map id | id in guis :: guis[id].View()
    }

    ghost function Plugs(): map<int, Plug>
      reads this`plugins, plugins.Values
    {
      map id | id in plugins :: plugins[id].View()
    }

    ghost function View(): Patch
      reads this, guis.Values, plugins.Values
    {
      Patch(Faces(), Plugs(), wires, pending, nextId, nextBuffer)
    }

    constructor ()
      ensures Valid() && View() == EMPTY
    {
      guis, plugins, wires, pending, nextId, nextBuffer := map[], map[], [], NO_WIRE, 0, 0;
    }

    // ------------------------------------------------------------ one port

    /** The port of an end among the buttons: inputs first. */
    method SlotOf(e: End) returns (n: int)
      requires e.id in guis
      ensures n == Slot(guis[e.id].View(), e)
    {
      n := if e.In? then e.port else guis[e.id].inputs + e.port;
    }

    method LightPort(e: End) returns (ok: bool)
      requires Valid() && e.id in guis && 0 <= e.port
      modifies guis.Values
      ensures unchanged(this)
      ensures View() == Light(old(View()), e)
      ensures ok == (Slot(old(View()).faces[e.id], e) < |old(View()).faces[e.id].ports|)
    {
      var n := SlotOf(e);
      ok := guis[e.id].AddConnection(n);
      assert forall id :: id in guis && id != e.id ==> guis[id].View() == old(guis[id].View());
      assert Faces() == Light(old(View()), e).faces;
    }

    method DimPort(e: End)
      requires Valid() && e.id in guis
      requires 0 <= Slot(View().faces[e.id], e) < |View().faces[e.id].ports|
      modifies guis.Values
      ensures unchanged(this)
      ensures View() == Dim(old(View()), e)
    {
      var n := SlotOf(e);
      guis[e.id].RemoveConnection(n);
      assert forall id :: id in guis && id != e.id ==> guis[id].View() == old(guis[id].View());
      assert Faces() == Dim(old(View()), e).faces;
    }

    method Connection(w: Wire)
      requires Valid()
      modifies plugins.Values
      ensures unchanged(this)
      ensures View() == Bind(old(View()), w)
    {
      if w.outId in plugins && w.inId in plugins {
        var buffer := plugins[w.outId].GetOutput(w.outPort);
        if buffer.Some? {
          var ok := plugins[w.inId].SetInput(w.inPort, buffer);
        }
      }
      assert forall id :: id in plugins && id != w.inId ==> plugins[id].View() == old(plugins[id].View());
      assert Plugs() == Bind(old(View()), w).plugs;
    }

    method Unconnect(w: Wire)
      requires Valid()
      modifies plugins.Values
      ensures unchanged(this)
      ensures View() == Unbind(old(View()), w)
    {
      if w.inId in plugins {
        var ok := plugins[w.inId].SetInput(w.inPort, None);
      }
      assert forall id :: id in plugins && id != w.inId ==> plugins[id].View() == old(plugins[id].View());
      assert Plugs() == Unbind(old(View()), w).plugs;
    }

    // ------------------------------------------------ the canvas' own fields

    method SetPending(w: Wire)
      modifies this`pending
      ensures View() == old(View()).(pending := w)
    {
      pending := w;
    }

    method SetWires(ws: seq<Wire>)
      modifies this`wires
      ensures View() == old(View()).(wires := ws)
    {
      wires := ws;
    }

    // ----------------------------------------------------- whole operations

    /** Turn off both ports, tell the engine, erase the wire. A missing end must not
        crash the delete. */
    method RemoveWire(i: nat)
      requires Valid() && i < |wires| && EndsThere(View(), wires[i])
      modifies this`wires, guis.Values, plugins.Values
      ensures guis == old(guis) && plugins == old(plugins)
      ensures View() == Disconnect(old(View()), i)
    {
      var w := wires[i];
      ghost var s := View();
      if w.outId in guis {
        DimPort(OutEnd(w));
      }
      ghost var s1 := View();
      DimStillThere(s, w);
      if w.inId in guis {
        DimPort(InEnd(w));
      }
      ghost var s2 := View();
      Unconnect(w);
      ghost var s3 := View();
      SetWires(wires[..i] + wires[i + 1..]);
      DisconnectIs(s, i, s1, s2, s3);
    }

    /** The inner scan of the restart loops: up to the first wire to drop. */
    method ScanWires(d: Doom) returns (i: nat)
      ensures i == FirstDoomed(wires, d)
    {
      i := 0;
      while i < |wires| && !Doomed(d, wires[i])
        invariant i <= |wires|
        invariant forall j :: 0 <= j < i ==> !Doomed(d, wires[j])
      {
        i := i + 1;
      }
      FirstDoomedIs(wires, d, i);
    }

    /** One scan: erase the first doomed wire, if there is one. */
    method DropNext(d: Doom, ghost v: Patch) returns (removed: bool)
      requires Valid() && v == View()
      requires FirstDoomed(v.wires, d) < |v.wires| ==> EndsThere(v, v.wires[FirstDoomed(v.wires, d)])
      modifies this`wires, guis.Values, plugins.Values
      ensures guis == old(guis) && plugins == old(plugins)
      ensures removed == (FirstDoomed(v.wires, d) < |v.wires|)
      ensures View() == if removed then Disconnect(v, FirstDoomed(v.wires, d)) else v
    {
      var i := ScanWires(d);
      removed := i < |wires|;
      if removed {
        RemoveWire(i);
      }
    }

    /** Both erase-and-restart loops of the canvas. */
    method DropWires(d: Doom)
      requires Valid() && Drawn(View())
      modifies this`wires, guis.Values, plugins.Values
      ensures guis == old(guis) && plugins == old(plugins) && Drawn(View())
      ensures View() == DropAll(old(View()), d)
    {
      ghost var v := View();
      var again := true;
      while again
        invariant guis == old(guis) && plugins == old(plugins)
        invariant v == View() && Drawn(v) && DropAll(v, d) == DropAll(old(View()), d)
        invariant !again ==> DropAll(v, d) == v
        decreases |v.wires|, again
      {
        DropAllStep(v, d, FirstDoomed(v.wires, d));
        again := DropNext(d, v);
        v := View();
      }
    }

    method ClearIncompleteWire()
      requires Valid() && Drawn(View())
      modifies this`pending, guis.Values
      ensures guis == old(guis) && Drawn(View()) && View() == ClearPending(old(View()))
    {
      ghost var s := View();
      PendingThere(s);
      if pending.outId != -1 {
        DimPort(OutEnd(pending));
      }
      ghost var s1 := View();
      if pending.inId != -1 {
        DimPort(InEnd(pending));
      }
      ghost var s2 := View();
      SetPending(NO_WIRE);
      ClearPendingIs(s, s1, s2);
      ClearPendingDrawn(s);
    }

    method Complete(w: Wire)
      requires Valid() && w.outId in guis && w.inId in guis && 0 <= w.outPort && 0 <= w.inPort
      modifies this`wires, guis.Values, plugins.Values
      ensures guis == old(guis) && plugins == old(plugins)
      ensures View() == Connect(old(View()), w)
    {
      ghost var s := View();
      SetWires(wires + [w]);
      ghost var s1 := View();
      Connection(w);
      ghost var s2 := View();
      var lit := LightPort(OutEnd(w));
      ghost var s3 := View();
      lit := LightPort(InEnd(w));
      ConnectIs(s, w, s1, s2, s3, View());
    }

    method RememberEnd(e: End)
      requires Valid() && Drawn(View()) && OnFace(View(), e)
      modifies this`pending, guis.Values
      ensures guis == old(guis) && plugins == old(plugins) && Drawn(View())
      ensures View() == TakeOrCancel(old(View()), e)
    {
      if e.Out? {
        // no output to output connection
        if pending.outId == -1 {
          SetPending(pending.(outPort := e.port, outId := e.id, outTerminal := guis[e.id].terminal));
        } else {
          ClearIncompleteWire();
        }
      } else {
        // no input to input connection
        if pending.inId == -1 {
          SetPending(pending.(inPort := e.port, inId := e.id, inTerminal := guis[e.id].terminal));
        } else {
          ClearIncompleteWire();
        }
      }
    }

    /** A port was clicked on. */
    method TurnOn(e: End)
      requires Valid() && Drawn(View()) && OnFace(View(), e)
      modifies this`wires, this`pending, guis.Values, plugins.Values
      ensures guis == old(guis) && plugins == old(plugins)
      ensures View() == PortOn(old(View()), e)
    {
      if pending.inId == -1 || pending.outId == -1 {
        RememberEnd(e);
        ghost var t := View();
        PendingThere(t);
        if pending.inId != -1 && pending.outId != -1 {
          Complete(pending);
          SetPending(NO_WIRE);
        }
      }
    }

    /** A port was right-clicked: every wire at it goes. */
    method TurnOff(e: End)
      requires Valid() && Drawn(View())
      modifies this`wires, this`pending, guis.Values, plugins.Values
      ensures guis == old(guis) && plugins == old(plugins)
      ensures View() == PortOff(old(View()), e)
    {
      DropWires(AtPort(e));
      SetPending(NO_WIRE);
    }

    /** A press on a port button, behind the guards of Fl_PortButton::handle and cb_Port_i. */
    method PressButton(e: End, b: Button)
      requires Valid() && Drawn(View())
      modifies this`wires, this`pending, guis.Values, plugins.Values
      ensures guis == old(guis) && plugins == old(plugins)
      ensures View() == Press(old(View()), e, b)
    {
      var there := e.id in guis && 0 <= e.port < (if e.In? then guis[e.id].inputs else guis[e.id].outputs);
      if !there || guis[e.id].killed {
        return;
      }
      if b.Right? {
        TurnOff(e);
      } else {
        var n := SlotOf(e);
        SlotThere(View(), e);
        if !(e.In? && guis[e.id].ports[n].lit) {
          TurnOn(e);
        }
      }
    }

    method PruneConnections(id: int, inputs: int, outputs: int)
      requires Valid() && Drawn(View())
      modifies this`wires, this`pending, guis.Values, plugins.Values
      ensures guis == old(guis) && plugins == old(plugins) && Drawn(View())
      ensures View() == Prune(old(View()), id, inputs, outputs)
    {
      if (pending.inId != -1 || pending.outId != -1) && (id == pending.outId || id == pending.inId) {
        ClearIncompleteWire();
      }
      DropWires(Beyond(id, inputs, outputs));
    }

    method RestorePortConnections(id: int)
      requires Valid() && id in guis
      requires forall i :: 0 <= i < |wires| ==>
                 (wires[i].inId == id ==> 0 <= wires[i].inPort) && (wires[i].outId == id ==> 0 <= wires[i].outPort)
      modifies guis.Values
      ensures View() == Recount(old(View()), wires, id)
    {
      var i := 0;
      assert wires[0..] == wires;
      while i < |wires|
        invariant i <= |wires|
        invariant Recount(View(), wires[i..], id) == Recount(old(View()), wires, id)
      {
        assert wires[i..][0] == wires[i] && wires[i..][1..] == wires[i + 1..];
        var ok: bool;
        if wires[i].inId == id {
          ok := LightPort(InEnd(wires[i]));
        }
        if wires[i].outId == id {
          ok := LightPort(OutEnd(wires[i]));
        }
        i := i + 1;
      }
    }

    /** Delete the port buttons of a device and build blank ones. */
    method RebuildButtons(id: int, inputs: nat, outputs: nat)
      requires Valid() && id in guis
      modifies guis.Values
      ensures var s := old(View());
              View() == s.(faces := s.faces[id := BlankFace(s.faces[id], inputs, outputs)])
    {
      ghost var s := View();
      var gui := guis[id];
      gui.inputs, gui.outputs := inputs, outputs;
      gui.ports := seq(inputs + outputs, _ => Port(0, false));
      assert forall k :: k in guis && k != id ==> guis[k].View() == old(guis[k].View());
      assert Faces() == s.faces[id := BlankFace(s.faces[id], inputs, outputs)];
    }

    /** SetupPorts: disconnect what goes, rebuild the buttons, recount what stays. */
    method RebuildPorts(id: int, inputs: nat, outputs: nat, preserve: bool)
      requires Valid() && Drawn(View()) && id in guis
      modifies this`wires, this`pending, guis.Values, plugins.Values
      ensures guis == old(guis) && plugins == old(plugins)
      ensures View() == SetupPorts(old(View()), id, inputs, outputs, preserve)
    {
      if preserve {
        PruneConnections(id, inputs, outputs);
      } else {
        PruneConnections(id, 0, 0);
      }
      WiresDrawn(View());
      RebuildButtons(id, inputs, outputs);
      if preserve {
        RestorePortConnections(id);
      }
    }

    method DropGui(id: int)
      requires Valid()
      modifies this`guis
      ensures Valid() && plugins == old(plugins)
      ensures View() == old(View()).(faces := old(View()).faces - {id})
    {
      ghost var s := View();
      guis := guis - {id};
      assert Faces() == s.faces - {id};
    }

    method RemoveDevice(id: int)
      requires Valid() && Drawn(View())
      modifies this`guis, this`wires, this`pending, guis.Values, plugins.Values
      ensures Valid() && View() == Remove(old(View()), id)
    {
      PruneConnections(id, 0, 0);
      DropGui(id);
    }

    method AddPlugin(inputs: nat, outputs: nat)
      requires Valid()
      modifies this`plugins, this`nextBuffer
      ensures Valid() && View() == Session.Replug(old(View()), nextId, inputs, outputs)
    {
      ghost var s := View();
      var plugin := new Plugin(inputs, outputs, nextBuffer);
      plugins := plugins[nextId := plugin];
      nextBuffer := nextBuffer + outputs;
      assert Plugs() == s.plugs[nextId := plugin.View()];
    }

    method AddGui(inputs: nat, outputs: nat, terminal: bool)
      requires Valid()
      modifies this`guis, this`nextId
      ensures Valid() && View() == Session.AddFace(old(View()), inputs, outputs, terminal)
    {
      ghost var s := View();
      var gui := new DeviceGUI(inputs, outputs, terminal);
      guis := guis[nextId := gui];
      nextId := nextId + 1;
      assert Faces() == s.faces[s.nextId := gui.View()];
    }

    method AddDevice(inputs: nat, outputs: nat, terminal: bool)
      requires Valid()
      modifies this
      ensures Valid() && View() == Session.Step(old(View()), Session.NewDevice(inputs, outputs, terminal))
    {
      AddPlugin(inputs, outputs);
      AddGui(inputs, outputs, terminal);
    }

    method ResizePlugin(id: int, inputs: nat, outputs: nat)
      requires Valid() && id in plugins
      modifies this`nextBuffer, plugins.Values
      ensures View() == JackPorts.Resized(old(View()), id, inputs, outputs)
    {
      ghost var s := View();
      plugins[id].Resize(inputs, outputs, nextBuffer);
      nextBuffer := nextBuffer + outputs;
      assert forall k :: k in plugins && k != id ==> plugins[k].View() == old(plugins[k].View());
      assert Plugs() == s.plugs[id := JackPorts.Resize(s.plugs[id], inputs, outputs, s.nextBuffer)];
    }

    /** JackPlugin::SetNumberPorts: the host is told while the old inputs and outputs
        still exist, then they are removed or added one by one. */
    method SetNumberPorts(id: int, nInputs: int, nOutputs: int)
      requires Valid() && Drawn(View()) && id in guis && id in plugins
      modifies this`wires, this`pending, this`nextBuffer, guis.Values, plugins.Values
      ensures guis == old(guis) && plugins == old(plugins)
      ensures View() == JackPorts.SetNumberPorts(old(View()), id, nInputs, nOutputs)
    {
      var ins := JackPorts.Clamp(nInputs);
      var outs := JackPorts.Clamp(nOutputs);
      ghost var s := View();
      RebuildPorts(id, ins, outs, true);
      ghost var t := View();
      ResizePlugin(id, ins, outs);
      ResizedIs(s, id, nInputs, nOutputs, t, View());
    }
  }

  // ---------------------------------------------------- facts the methods use

  /** What the canvas code takes for granted: every device has all its buttons, and
      every wire, and each end of the half-drawn one, is at a port that exists. */
  ghost predicate Drawn(s: Patch) {
    && (forall id :: id in s.faces ==> |s.faces[id].ports| == s.faces[id].inputs + s.faces[id].outputs)
    && (forall i :: 0 <= i < |s.wires| ==> OnFace(s, OutEnd(s.wires[i])) && OnFace(s, InEnd(s.wires[i])))
    && (s.pending.outId == -1 || OnFace(s, OutEnd(s.pending)))
    && (s.pending.inId == -1 || OnFace(s, InEnd(s.pending)))
  }

  lemma GoodIsDrawn(s: Patch)
    requires Good(s)
    ensures Drawn(s)
  {
    forall id | id in s.faces ensures |s.faces[id].ports| == s.faces[id].inputs + s.faces[id].outputs {
      assert PortsRight(s.wires, id, s.faces[id]);
    }
    forall i | 0 <= i < |s.wires| ensures OnFace(s, OutEnd(s.wires[i])) && OnFace(s, InEnd(s.wires[i])) {
      assert WireOk(s, s.wires[i]);
    }
  }

  /** So the methods of the canvas can be called in every state a session reaches. */
  lemma SessionsAreDrawn(es: seq<Session.Event>)
    ensures Drawn(Session.Run(EMPTY, es))
  {
    Session.RunGood(EMPTY, es);
    GoodIsDrawn(Session.Run(EMPTY, es));
  }

  ghost predicate EndThere(s: Patch, e: End) {
    e.id in s.faces ==> 0 <= Slot(s.faces[e.id], e) < |s.faces[e.id].ports|
  }

  ghost predicate EndsThere(s: Patch, w: Wire) {
    EndThere(s, OutEnd(w)) && EndThere(s, InEnd(w))
  }

  lemma SlotThere(s: Patch, e: End)
    requires Drawn(s) && OnFace(s, e)
    ensures 0 <= Slot(s.faces[e.id], e) < |s.faces[e.id].ports|
  {
  }

  lemma PendingThere(s: Patch)
    requires Drawn(s)
    ensures s.pending.outId != -1 ==> OnFace(s, OutEnd(s.pending)) && EndThere(s, OutEnd(s.pending))
    ensures s.pending.inId != -1 ==> OnFace(s, InEnd(s.pending)) && EndThere(s, InEnd(s.pending))
    ensures s.pending.inId != -1 && s.pending.outId != -1 ==> EndThere(Dim(s, OutEnd(s.pending)), InEnd(s.pending))
  {
  }

  lemma ClearPendingIs(s: Patch, s1: Patch, s2: Patch)
    requires s1 == if s.pending.outId != -1 then Dim(s, OutEnd(s.pending)) else s
    requires s2 == if s.pending.inId != -1 then Dim(s1, InEnd(s.pending)) else s1
    ensures s2.(pending := NO_WIRE) == ClearPending(s)
  {
  }

  lemma DimStillThere(s: Patch, w: Wire)
    requires EndsThere(s, w)
    ensures EndThere(Dim(s, OutEnd(w)), InEnd(w))
  {
  }

  lemma DisconnectIs(s: Patch, i: nat, s1: Patch, s2: Patch, s3: Patch)
    requires i < |s.wires| && s1 == Dim(s, OutEnd(s.wires[i])) && s2 == Dim(s1, InEnd(s.wires[i]))
    requires s3 == Unbind(s2, s.wires[i])
    ensures Disconnect(s, i) == s3.(wires := RemoveAt(s.wires, i))
  {
  }

  lemma ConnectIs(s: Patch, w: Wire, s1: Patch, s2: Patch, s3: Patch, s4: Patch)
    requires s1 == s.(wires := s.wires + [w]) && s2 == Bind(s1, w)
    requires s3 == Light(s2, OutEnd(w)) && s4 == Light(s3, InEnd(w))
    ensures s4 == Connect(s, w)
  {
  }

  lemma ResizedIs(s: Patch, id: int, nInputs: int, nOutputs: int, t: Patch, r: Patch)
    requires id in s.faces && id in s.plugs && id in t.plugs
    requires t == SetupPorts(s, id, JackPorts.Clamp(nInputs), JackPorts.Clamp(nOutputs), true)
    requires r == JackPorts.Resized(t, id, JackPorts.Clamp(nInputs), JackPorts.Clamp(nOutputs))
    ensures r == JackPorts.SetNumberPorts(s, id, nInputs, nOutputs)
  {
  }

  lemma WiresDrawn(s: Patch)
    requires Drawn(s)
    ensures forall i :: 0 <= i < |s.wires| ==> 0 <= s.wires[i].outPort && 0 <= s.wires[i].inPort
  {
  }

  lemma ClearPendingDrawn(s: Patch)
    requires Drawn(s)
    ensures Drawn(ClearPending(s))
  {
    var r := ClearPending(s);
    forall i | 0 <= i < |r.wires| ensures OnFace(r, OutEnd(r.wires[i])) && OnFace(r, InEnd(r.wires[i])) {
      assert OnFace(s, OutEnd(s.wires[i])) && OnFace(s, InEnd(s.wires[i]));
    }
  }

  lemma DisconnectDrawn(s: Patch, i: nat)
    requires Drawn(s) && i < |s.wires|
    ensures Drawn(Disconnect(s, i))
  {
    var r := Disconnect(s, i);
    DisconnectShape(s, i);
    forall k | 0 <= k < |r.wires| ensures OnFace(r, OutEnd(r.wires[k])) && OnFace(r, InEnd(r.wires[k])) {
      var j := if k < i then k else k + 1;
      assert r.wires[k] == s.wires[j];
      assert OnFace(s, OutEnd(s.wires[j])) && OnFace(s, InEnd(s.wires[j]));
    }
  }

  lemma FirstDoomedIs(ws: seq<Wire>, d: Doom, i: nat)
    requires i <= |ws| && (forall j :: 0 <= j < i ==> !Doomed(d, ws[j]))
    requires i < |ws| ==> Doomed(d, ws[i])
    ensures FirstDoomed(ws, d) == i
  {
  }

  /** One turn of the restart loop. */
  lemma DropAllStep(s: Patch, d: Doom, i: nat)
    requires Drawn(s) && i == FirstDoomed(s.wires, d)
    ensures if i == |s.wires| then DropAll(s, d) == s
            else DropAll(s, d) == DropAll(Disconnect(s, i), d) && EndsThere(s, s.wires[i]) && Drawn(Disconnect(s, i))
  {
    if i < |s.wires| {
      DisconnectDrawn(s, i);
      assert OnFace(s, OutEnd(s.wires[i])) && OnFace(s, InEnd(s.wires[i]));
    }
  }
}
