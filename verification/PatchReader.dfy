/**
 The two readers of a saved wire list, as they run: over a stream, growing the
 stand-ins first and laying the wires second.
 */
module PatchReader {
  import opened Wrappers
  import opened Wiring
  import opened Canvas
  import opened PatchWires
  import JackPorts

  /** A text stream: what is left of it and its fail bit. */
  class Stream {
    var rest: Tokens
    var fail: bool

    ghost function View(): Cursor
      reads this
    {
      Cursor(rest, fail)
    }

    method Int(was: int) returns (v: int)
      modifies this
      ensures (View(), v) == GetInt(old(View()), was)
    {
      if fail || rest.End? {
        fail, v := true, was;
      } else {
        v, rest := rest.head, rest.tail;
      }
    }

    method Bool(was: bool) returns (v: bool)
      modifies this
      ensures (View(), v) == GetBool(old(View()), was)
    {
      if fail || rest.End? {
        fail, v := true, was;
      } else {
        v, fail, rest := rest.head != 0, rest.head != 0 && rest.head != 1, rest.tail;
      }
    }

    /** clear() and seekg() to a place told before. */
    method ClearAndSeek(mark: Tokens)
      modifies this
      ensures View() == Cursor(mark, false)
    {
      rest, fail := mark, false;
    }

    method Wire(eight: bool) returns (w: Wire)
      modifies this
      ensures (View(), w) == ReadWire(old(View()), eight)
    {
      var outId := Int(-1);
      var dummy := Int(0);
      var outPort := Int(-1);
      var outTerminal, inTerminal := false, false;
      if eight {
        outTerminal := Bool(false);
      }
      var inId := Int(-1);
      dummy := Int(0);
      var inPort := Int(-1);
      if eight {
        inTerminal := Bool(false);
      }
      w := Wiring.Wire(outId, outPort, outTerminal, inId, inPort, inTerminal);
    }

    method Ends(eight: bool) returns (w: Wire)
      modifies this
      ensures (View(), w) == ReadEnds(old(View()), eight)
    {
      var outId := Int(0);
      var dummy := Int(0);
      var outPort := Int(0);
      if eight {
        dummy := Int(0);
      }
      var inId := Int(0);
      dummy := Int(0);
      var inPort := Int(0);
      if eight {
        dummy := Int(0);
      }
      w := Wiring.Wire(outId, outPort, false, inId, inPort, false);
    }

    method Head(paste: bool) returns (eight: bool, count: int)
      modifies this
      ensures var h := ReadHead(old(View()), paste); eight == h.eight && count == h.count && View() == h.at
    {
      count := Int(0);
      eight := paste || count == -1;
      if eight && !paste {
        var version := Int(0);
        count := Int(count);
      }
    }
  }

  // ------------------------------------------------------- laying the wires

  lemma ConnectInLoadOrder(s: Patch, w: Wire, s1: Patch, s2: Patch, s3: Patch, s4: Patch)
    requires s1 == Light(s, OutEnd(w)) && s2 == Light(s1, InEnd(w)) && s3 == s2.(wires := s2.wires + [w])
             && s4 == Bind(s3, w)
    ensures s4 == Connect(s, w)
  {
    BindFaces(s, w);
  }

  lemma BindFaces(s: Patch, w: Wire)
    ensures Bind(s, w) == s.(plugs := Bind(s, w).plugs)
  {
  }

  lemma LightKeepsSlots(s: Patch, a: End, e: End)
    requires Drawn(s) && OnFace(s, e)
    ensures OnFace(Light(s, a), e) && e.id in s.faces && e.id in Light(s, a).faces
    ensures Slot(s.faces[e.id], e) < |s.faces[e.id].ports|
    ensures Slot(Light(s, a).faces[e.id], e) < |Light(s, a).faces[e.id].ports|
  {
  }

  lemma LoadWireDrawn(s: Patch, w: Wire)
    requires Drawn(s)
    ensures Drawn(LoadWire(s, w))
  {
    if PortsExist(s, w) {
      var r := Connect(s, w);
      ConnectShape(s, w);
      forall i | 0 <= i < |r.wires| ensures OnFace(r, OutEnd(r.wires[i])) && OnFace(r, InEnd(r.wires[i])) {
        if i < |s.wires| { assert OnFace(s, OutEnd(s.wires[i])) && OnFace(s, InEnd(s.wires[i])); }
      }
    }
  }

  method LayWire(host: Host, w: Wire)
    requires host.Valid() && Drawn(host.View())
    modifies host`wires, host.guis.Values, host.plugins.Values
    ensures host.guis == old(host.guis) && host.plugins == old(host.plugins)
    ensures host.View() == LoadWire(old(host.View()), w)
  {
    ghost var s := host.View();
    if w.outId in host.guis && w.inId in host.guis &&
       0 <= w.outPort < host.guis[w.outId].outputs && 0 <= w.inPort < host.guis[w.inId].inputs
    {
      LightKeepsSlots(s, OutEnd(w), OutEnd(w));
      LightKeepsSlots(s, OutEnd(w), InEnd(w));
      var lit := host.LightPort(OutEnd(w));
      ghost var s1 := host.View();
      if lit {
        lit := host.LightPort(InEnd(w));
      }
      ghost var s2 := host.View();
      if lit {
        host.SetWires(host.wires + [w]);
        ghost var s3 := host.View();
        host.Connection(w);
        ConnectInLoadOrder(s, w, s1, s2, s3, host.View());
      }
    }
  }

  lemma ReadWiresStep(c: Cursor, eight: bool, n: nat)
    requires n > 0
    ensures var (c1, w) := ReadWire(c, eight);
            ReadWires(c, eight, n).1 == [w] + ReadWires(c1, eight, n - 1).1
  {
  }

  lemma RenameStep(w: Wire, ws: seq<Wire>, remap: bool, ids: map<int, int>)
    ensures RenameBoth([w] + ws, remap, ids) == [Renamed(w, remap, ids)] + RenameBoth(ws, remap, ids)
  {
    assert ([w] + ws)[1..] == ws;
  }

  lemma LoadStep(s: Patch, w: Wire, ws: seq<Wire>)
    ensures LoadAll(s, [w] + ws) == LoadAll(LoadWire(s, w), ws)
  {
    assert ([w] + ws)[1..] == ws;
  }

  /** What is still to come when n records are left in the stream. */
  ghost function Ahead(s: Patch, c: Cursor, eight: bool, n: nat, remap: bool, ids: map<int, int>): Patch {
    LoadAll(s, RenameBoth(ReadWires(c, eight, n).1, remap, ids))
  }

  lemma AheadStep(s: Patch, c: Cursor, eight: bool, n: nat, remap: bool, ids: map<int, int>, c1: Cursor, w: Wire)
    requires n > 0 && ReadWire(c, eight) == (c1, w)
    ensures Ahead(s, c, eight, n, remap, ids)
            == Ahead(LoadWire(s, Renamed(w, remap, ids)), c1, eight, n - 1, remap, ids)
  {
    ReadWiresStep(c, eight, n);
    RenameStep(w, ReadWires(c1, eight, n - 1).1, remap, ids);
    LoadStep(s, Renamed(w, remap, ids), RenameBoth(ReadWires(c1, eight, n - 1).1, remap, ids));
  }

  /** Read one wire, rename its ends if this is a paste or a merge, and lay it. */
  method LayNext(host: Host, s: Stream, eight: bool, remap: bool, ids: map<int, int>, ghost v: Patch, ghost n: nat)
    returns (ghost r: Patch)
    requires host.Valid() && v == host.View() && Drawn(v) && n > 0
    modifies host`wires, host.guis.Values, host.plugins.Values, s
    ensures host.guis == old(host.guis) && host.plugins == old(host.plugins)
    ensures r == host.View() && Drawn(r)
    ensures Ahead(r, s.View(), eight, n - 1, remap, ids) == Ahead(v, old(s.View()), eight, n, remap, ids)
  {
    ghost var c := s.View();
    var w := s.Wire(eight);
    AheadStep(v, c, eight, n, remap, ids, s.View(), w);
    if remap && w.inId in ids && w.outId in ids {
      w := w.(inId := ids[w.inId], outId := ids[w.outId]);
    }
    LayWire(host, w);
    LoadWireDrawn(v, w);
    r := LoadWire(v, w);
  }

  method StreamWiresIn(host: Host, s: Stream, merge: bool, paste: bool, ids: map<int, int>)
    requires host.Valid() && Drawn(host.View())
    modifies host`wires, host.guis.Values, host.plugins.Values, s
    ensures host.guis == old(host.guis) && host.plugins == old(host.plugins)
    ensures host.View() == PatchWires.StreamWiresIn(old(host.View()), old(s.View()), merge, paste, ids)
  {
    ghost var v := host.View();
    var remap := paste || merge;
    var eight, count := s.Head(paste);
    ghost var all := Ahead(v, s.View(), eight, Count(count), remap, ids);
    var n := 0;
    while n < count
      invariant 0 <= n <= Count(count)
      invariant host.guis == old(host.guis) && host.plugins == old(host.plugins)
      invariant v == host.View() && Drawn(v)
      invariant Ahead(v, s.View(), eight, Count(count) - n, remap, ids) == all
    {
      v := LayNext(host, s, eight, remap, ids, v, Count(count) - n);
      n := n + 1;
    }
  }

  // ------------------------------------------------------ growing the stand-ins

  lemma DropAllDrawn(s: Patch, d: Doom)
    requires Drawn(s)
    ensures Drawn(DropAll(s, d))
    decreases |s.wires|
  {
    var i := FirstDoomed(s.wires, d);
    if i < |s.wires| {
      DisconnectDrawn(s, i);
      DropAllDrawn(Disconnect(s, i), d);
    }
  }

  /** A pruned device can be given any blank face. */
  lemma BlankDrawn(t: Patch, id: int, inputs: nat, outputs: nat)
    requires Drawn(t) && Within(t.wires, id, 0, 0) && !PendingOn(t, id) && id in t.faces
    ensures Drawn(BlankIn(t, id, inputs, outputs))
  {
    var r := BlankIn(t, id, inputs, outputs);
    forall i | 0 <= i < |r.wires| ensures OnFace(r, OutEnd(r.wires[i])) && OnFace(r, InEnd(r.wires[i])) {
      assert OnFace(t, OutEnd(t.wires[i])) && OnFace(t, InEnd(t.wires[i]));
      assert !Doomed(Beyond(id, 0, 0), t.wires[i]);
    }
  }

  lemma PruneDrawn(s: Patch, id: int)
    requires Drawn(s)
    ensures var t := Prune(s, id, 0, 0);
            Drawn(t) && Within(t.wires, id, 0, 0) && !PendingOn(t, id) && t.faces.Keys == s.faces.Keys
  {
    var d := Beyond(id, 0, 0);
    var t := if PendingOn(s, id) then ClearPending(s) else s;
    ClearPendingDrawn(s);
    ClearPendingShape(s);
    DropAllDrawn(t, d);
    DropAllFilters(t, d);
    forall i | 0 <= i < |Keep(s.wires, d)| ensures !Doomed(d, Keep(s.wires, d)[i]) { KeepSpares(s.wires, d, i); }
  }

  lemma SetupDrawn(s: Patch, id: int, inputs: nat, outputs: nat)
    requires Drawn(s) && id in s.faces
    ensures Drawn(SetupPorts(s, id, inputs, outputs, false))
  {
    PruneDrawn(s, id);
    SetupPortsIs(s, id, inputs, outputs, false);
    BlankDrawn(Prune(s, id, 0, 0), id, inputs, outputs);
  }

  lemma ResizedDrawn(s: Patch, id: int, inputs: nat, outputs: nat)
    requires Drawn(s) && id in s.plugs
    ensures Drawn(JackPorts.Resized(s, id, inputs, outputs))
  {
    var r := JackPorts.Resized(s, id, inputs, outputs);
    forall i | 0 <= i < |r.wires| ensures OnFace(r, OutEnd(r.wires[i])) && OnFace(r, InEnd(r.wires[i])) {
      assert OnFace(s, OutEnd(s.wires[i])) && OnFace(s, InEnd(s.wires[i]));
    }
  }

  method AskedPorts(asked: int, have: nat) returns (n: nat)
    ensures n == Asked(asked, have)
  {
    var m := asked;
    if m < have {
      m := have;
    }
    if m > MOST_PORTS {
      m := MOST_PORTS;
    }
    n := m;
  }

  lemma EnsurePortsIs(s: Patch, id: int, inputs: int, outputs: int)
    requires id in s.faces && id in s.plugs && Drawn(s)
    ensures Drawn(PatchWires.EnsurePorts(s, id, inputs, outputs))
    ensures var ins, outs := |s.plugs[id].sockets|, |s.plugs[id].buffers|;
            PatchWires.EnsurePorts(s, id, inputs, outputs) ==
            if Asked(inputs, ins) == ins && Asked(outputs, outs) == outs then s
            else SetupPorts(JackPorts.Resized(s, id, GrownTo(inputs, ins), GrownTo(outputs, outs)), id,
                            GrownTo(inputs, ins), GrownTo(outputs, outs), false)
  {
    var ins, outs := GrownTo(inputs, |s.plugs[id].sockets|), GrownTo(outputs, |s.plugs[id].buffers|);
    ResizedDrawn(s, id, ins, outs);
    SetupDrawn(JackPorts.Resized(s, id, ins, outs), id, ins, outs);
  }

  /** Tell the host of a plugin that has just grown; connections are not kept. */
  method Regrow(host: Host, id: int, inputs: nat, outputs: nat, ghost v: Patch)
    requires host.Valid() && v == host.View() && Drawn(v) && id in host.guis && id in host.plugins
    modifies host`wires, host`pending, host`nextBuffer, host.guis.Values, host.plugins.Values
    ensures host.guis == old(host.guis) && host.plugins == old(host.plugins)
    ensures host.View() == SetupPorts(JackPorts.Resized(v, id, inputs, outputs), id, inputs, outputs, false)
  {
    ResizedDrawn(v, id, inputs, outputs);
    host.ResizePlugin(id, inputs, outputs);
    host.RebuildPorts(id, inputs, outputs, false);
  }

  method EnsurePorts(host: Host, id: int, inputs: int, outputs: int, ghost v: Patch) returns (ghost r: Patch)
    requires host.Valid() && v == host.View() && Drawn(v) && id in host.guis && id in host.plugins
    modifies host`wires, host`pending, host`nextBuffer, host.guis.Values, host.plugins.Values
    ensures host.guis == old(host.guis) && host.plugins == old(host.plugins)
    ensures r == host.View() && r == PatchWires.EnsurePorts(v, id, inputs, outputs) && Drawn(r)
  {
    EnsurePortsIs(v, id, inputs, outputs);
    r := PatchWires.EnsurePorts(v, id, inputs, outputs);
    var haveIns, haveOuts := |host.plugins[id].sockets|, |host.plugins[id].buffers|;
    var ins := AskedPorts(inputs, haveIns);
    var outs := AskedPorts(outputs, haveOuts);
    if ins != haveIns || outs != haveOuts {
      Regrow(host, id, Most(haveIns, ins), Most(haveOuts, outs), v);
    }
  }

  method NoteUnavailablePort(host: Host, missing: set<int>, e: End, ghost v: Patch) returns (ghost r: Patch)
    requires host.Valid() && v == host.View() && Drawn(v)
    modifies host`wires, host`pending, host`nextBuffer, host.guis.Values, host.plugins.Values
    ensures host.guis == old(host.guis) && host.plugins == old(host.plugins)
    ensures r == host.View() && r == NotePort(v, missing, e) && Drawn(r)
  {
    r := v;
    if 0 <= e.port && e.id in host.plugins && e.id in host.guis && e.id in missing {
      var ins, outs := |host.plugins[e.id].sockets|, |host.plugins[e.id].buffers|;
      if e.In? {
        if e.port + 1 > ins {
          ins := e.port + 1;
        }
      } else if e.port + 1 > outs {
        outs := e.port + 1;
      }
      assert ins == WantInputs(v.plugs[e.id], e) && outs == WantOutputs(v.plugs[e.id], e);
      r := EnsurePorts(host, e.id, ins, outs, v);
    }
  }

  ghost function Asking(s: Patch, missing: set<int>, c: Cursor, eight: bool, n: nat, remap: bool,
                        ids: map<int, int>): Patch {
    NoteAll(s, missing, RenameEach(ReadAllEnds(c, eight, n), remap, ids))
  }

  function Renamed1(w: Wire, remap: bool, ids: map<int, int>): Wire {
    if remap then w.(outId := RemapId(ids, w.outId), inId := RemapId(ids, w.inId)) else w
  }

  lemma AskingStep(s: Patch, missing: set<int>, c: Cursor, eight: bool, n: nat, remap: bool, ids: map<int, int>,
                   c1: Cursor, w: Wire)
    requires n > 0 && ReadEnds(c, eight) == (c1, w)
    ensures Asking(s, missing, c, eight, n, remap, ids) ==
            if c1.fail then s
            else Asking(NoteWire(s, missing, Renamed1(w, remap, ids)), missing, c1, eight, n - 1, remap, ids)
  {
    if c1.fail {
      assert ReadAllEnds(c, eight, n) == [];
    } else {
      var rest := ReadAllEnds(c1, eight, n - 1);
      assert ReadAllEnds(c, eight, n) == [w] + rest;
      EachStep(w, rest, remap, ids);
      NoteStep(s, missing, Renamed1(w, remap, ids), RenameEach(rest, remap, ids));
    }
  }

  lemma EachStep(w: Wire, ws: seq<Wire>, remap: bool, ids: map<int, int>)
    ensures RenameEach([w] + ws, remap, ids) == [Renamed1(w, remap, ids)] + RenameEach(ws, remap, ids)
  {
    assert ([w] + ws)[1..] == ws;
  }

  lemma NoteStep(s: Patch, missing: set<int>, w: Wire, ws: seq<Wire>)
    ensures NoteAll(s, missing, [w] + ws) == NoteAll(NoteWire(s, missing, w), missing, ws)
  {
    assert ([w] + ws)[1..] == ws;
  }

  lemma NothingLeft(s: Patch, missing: set<int>, c: Cursor, eight: bool, remap: bool, ids: map<int, int>)
    ensures Asking(s, missing, c, eight, 0, remap, ids) == s
  {
  }

  /** Look at one record; false when it could not be read. */
  method NoteNext(host: Host, s: Stream, missing: set<int>, eight: bool, remap: bool, ids: map<int, int>,
                  ghost v: Patch, ghost n: nat)
    returns (more: bool, ghost r: Patch)
    requires host.Valid() && v == host.View() && Drawn(v) && n > 0
    modifies host`wires, host`pending, host`nextBuffer, host.guis.Values, host.plugins.Values, s
    ensures host.guis == old(host.guis) && host.plugins == old(host.plugins)
    ensures r == host.View() && Drawn(r)
    ensures Asking(v, missing, old(s.View()), eight, n, remap, ids) ==
            if more then Asking(r, missing, s.View(), eight, n - 1, remap, ids) else r
  {
    ghost var c := s.View();
    var w := s.Ends(eight);
    AskingStep(v, missing, c, eight, n, remap, ids, s.View(), w);
    r := v;
    more := !s.fail;
    if more {
      if remap {
        w := w.(outId := if w.outId in ids then ids[w.outId] else w.outId,
                inId := if w.inId in ids then ids[w.inId] else w.inId);
      }
      r := NoteUnavailablePort(host, missing, OutEnd(w), r);
      r := NoteUnavailablePort(host, missing, InEnd(w), r);
    }
  }

  method NoteEach(host: Host, s: Stream, missing: set<int>, eight: bool, num: int, remap: bool, ids: map<int, int>,
                  ghost v0: Patch)
    requires host.Valid() && v0 == host.View() && Drawn(v0)
    modifies host`wires, host`pending, host`nextBuffer, host.guis.Values, host.plugins.Values, s
    ensures host.guis == old(host.guis) && host.plugins == old(host.plugins)
    ensures host.View() == Asking(v0, missing, old(s.View()), eight, Count(num), remap, ids)
  {
    ghost var v := v0;
    var n, more := 0, true;
    while more && n < num
      invariant 0 <= n <= Count(num)
      invariant host.guis == old(host.guis) && host.plugins == old(host.plugins)
      invariant v == host.View() && Drawn(v)
      invariant (if more then Asking(v, missing, s.View(), eight, Count(num) - n, remap, ids) else v)
                == Asking(v0, missing, old(s.View()), eight, Count(num), remap, ids)
    {
      more, v := NoteNext(host, s, missing, eight, remap, ids, v, Count(num) - n);
      n := n + 1;
    }
    NothingLeft(v, missing, s.View(), eight, remap, ids);
  }

  /** The first pass. Whatever the stream holds, it stands where it stood. */
  method GrowUnavailablePorts(host: Host, s: Stream, missing: set<int>, merge: bool, paste: bool, ids: map<int, int>)
    requires host.Valid() && Drawn(host.View())
    modifies host`wires, host`pending, host`nextBuffer, host.guis.Values, host.plugins.Values, s
    ensures host.guis == old(host.guis) && host.plugins == old(host.plugins)
    ensures host.View() == PatchWires.GrowUnavailablePorts(old(host.View()), missing, old(s.View()), merge, paste, ids)
    ensures s.View() == old(s.View())
  {
    if s.fail {
      return;
    }
    var mark := s.rest;
    if s.rest.Next? {
      ghost var v := host.View();
      var eight, num := s.Head(paste);
      NoteEach(host, s, missing, eight, num, paste || merge, ids, v);
    }
    s.ClearAndSeek(mark);
  }
}
