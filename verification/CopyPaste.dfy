/**
 Copy and paste of a selection: which wires are copied, which ids the copies get, and
 what the canvas holds afterwards.
 */
module CopyPaste {
  import opened Wrappers
  import opened Wiring
  import opened PatchWires
  import CopyText
  import Decimals
  import Session
  import JackPorts

  /** Both ends are selected. */
  predicate Within2(sel: seq<int>, w: Wire) { w.inId in sel && w.outId in sel }

  /** The wires of the induced subgraph, in order. */
  function Inside(ws: seq<Wire>, sel: seq<int>): seq<Wire> {
    if ws == [] then [] else (if Within2(sel, ws[0]) then [ws[0]] else []) + Inside(ws[1..], sel)
  }

  lemma InsideStep(done: seq<Wire>, ws: seq<Wire>, sel: seq<int>, i: nat)
    requires i < |ws|
    ensures done + Inside(ws[i..], sel)
            == (if Within2(sel, ws[i]) then done + [ws[i]] else done) + Inside(ws[i + 1..], sel)
  {
    assert ws[i..][0] == ws[i] && ws[i..][1..] == ws[i + 1..];
  }

  /** StreamSelectionWiresOut: the text it appends to the copy file. */
  method StreamSelectionWiresOut(wires: seq<Wire>, sel: seq<int>) returns (text: string)
    ensures text == CopyText.CopyBytes(Inside(wires, sel))
  {
    ghost var done: seq<Wire>;
    var total: nat;
    text, total, done := StreamRecords(wires, sel);
    if total >= 1 {
      text := CopyText.Overwrite(text, 0, Decimals.Dec(total) + "\n");
    }
  }

  /** The placeholder and the records of the wires inside the selection. */
  method StreamRecords(wires: seq<Wire>, sel: seq<int>) returns (text: string, total: nat, ghost done: seq<Wire>)
    ensures done == Inside(wires, sel) && total == |done| && text == "-1\n" + CopyText.Lines(done)
  {
    text, total, done := "-1\n", 0, [];
    var i := 0;
    while i < |wires|
      invariant 0 <= i <= |wires| && total == |done|
      invariant text == "-1\n" + CopyText.Lines(done)
      invariant done + Inside(wires[i..], sel) == Inside(wires, sel)
    {
      var w := wires[i];
      InsideStep(done, wires, sel, i);
      if w.inId in sel && w.outId in sel {
        text := Appended(text, done, w);
        done := done + [w];
        total := total + 1;
      }
      i := i + 1;
    }
  }

  function Appended(text: string, ghost done: seq<Wire>, w: Wire): (r: string)
    requires text == "-1\n" + CopyText.Lines(done)
    ensures r == "-1\n" + CopyText.Lines(done + [w])
  {
    LinesAppend(done, w);
    Onto("-1\n", CopyText.Lines(done), CopyText.Line(w, ""));
    text + CopyText.Line(w, "")
  }

  lemma {:induction false} LinesAppend(ws: seq<Wire>, w: Wire)
    ensures CopyText.Lines(ws + [w]) == CopyText.Lines(ws) + CopyText.Line(w, "")
    decreases |ws|
  {
    if ws == [] {
      assert [w][1..] == [];
    } else {
      assert (ws + [w])[1..] == ws[1..] + [w];
      LinesAppend(ws[1..], w);
      LineThen(ws[0], CopyText.Lines(ws[1..]), CopyText.Line(w, ""));
    }
  }

  lemma FieldThen(i: int, c: char, a: string, b: string)
    ensures CopyText.Field(i, c, a) + b == CopyText.Field(i, c, a + b)
  {
  }

  lemma LineThen(w: Wire, a: string, b: string)
    ensures CopyText.Line(w, a) + b == CopyText.Line(w, a + b)
  {
    FieldThen(Digit(w.inTerminal), '\n', a, b);
    var r1 := CopyText.Field(Digit(w.inTerminal), '\n', a);
    FieldThen(w.inPort, ' ', r1, b);
    var r2 := CopyText.Field(w.inPort, ' ', r1);
    FieldThen(0, ' ', r2, b);
    var r3 := CopyText.Field(0, ' ', r2);
    FieldThen(w.inId, ' ', r3, b);
    var r4 := CopyText.Field(w.inId, ' ', r3);
    FieldThen(Digit(w.outTerminal), ' ', r4, b);
    var r5 := CopyText.Field(Digit(w.outTerminal), ' ', r4);
    FieldThen(w.outPort, ' ', r5, b);
    var r6 := CopyText.Field(w.outPort, ' ', r5);
    FieldThen(0, ' ', r6, b);
    FieldThen(w.outId, ' ', CopyText.Field(0, ' ', r6), b);
  }

  // --------------------------------------------------------- pasting the devices

  datatype Pasted = Pasted(patch: Patch, ids: map<int, int>, missing: set<int>)

  /** One device of the copy file: a comment, a stand-in with no ports yet, or the
      device with the ports it had. It takes the next id. */
  function PasteOne(p: Pasted, from: Patch, missing: set<int>, id: int): Pasted
    requires id in from.faces
  {
    var s, f, fresh' := p.patch, from.faces[id], p.patch.nextId;
    if id !in from.plugs then
      Pasted(Session.Step(s, Session.NewComment), p.ids[id := fresh'], p.missing)
    else if id in missing then
      Pasted(Session.Step(s, Session.NewDevice(0, 0, false)), p.ids[id := fresh'], p.missing + {fresh'})
    else
      Pasted(Session.Step(s, Session.NewDevice(f.inputs, f.outputs, f.terminal)), p.ids[id := fresh'], p.missing)
  }

  /** The device loop of StreamPatchIn on the copied selection. */
  function PasteDevices(p: Pasted, from: Patch, missing: set<int>, sel: seq<int>): Pasted
    decreases |sel|
  {
    if sel == [] then p
    else PasteDevices(if sel[0] in from.faces then PasteOne(p, from, missing, sel[0]) else p, from, missing, sel[1..])
  }

  /** A copied device and its copy. */
  ghost predicate Copies(p: Pasted, from: Patch, missing: set<int>, id: int) {
    && id in p.ids && id in from.faces && p.ids[id] in p.patch.faces
    && (id in from.plugs ==> p.ids[id] in p.patch.plugs)
    && (id in from.plugs && id in missing ==> p.ids[id] in p.missing)
    && (id in from.plugs && id !in missing ==>
          && p.ids[id] !in p.missing
          && p.patch.faces[p.ids[id]].inputs == from.faces[id].inputs
          && p.patch.faces[p.ids[id]].outputs == from.faces[id].outputs)
  }

  /** New ids lie between what was and what is next, and no two devices share one. The
      stand-ins are those that were there and new ones. */
  ghost predicate Pasting(base: Patch, p: Pasted, from: Patch, missing: set<int>) {
    && p.patch.wires == base.wires && p.patch.pending == base.pending && base.nextId <= p.patch.nextId
    && (forall id :: id in p.ids ==> base.nextId <= p.ids[id] < p.patch.nextId && Copies(p, from, missing, id))
    && (forall a, b :: a in p.ids && b in p.ids && a != b ==> p.ids[a] != p.ids[b])
    && (forall id :: id in p.missing ==> id in base.plugs || base.nextId <= id < p.patch.nextId)
  }

  function EventFor(from: Patch, missing: set<int>, id: int): Session.Event
    requires id in from.faces
  {
    if id !in from.plugs then Session.NewComment
    else if id in missing then Session.NewDevice(0, 0, false)
    else Session.NewDevice(from.faces[id].inputs, from.faces[id].outputs, from.faces[id].terminal)
  }

  lemma OldCopiesStay(p: Pasted, q: Pasted, from: Patch, missing: set<int>, id: int, k: int)
    requires Copies(p, from, missing, k) && p.ids[k] < p.patch.nextId && k != id
    requires q.ids == p.ids[id := p.patch.nextId]
    requires q.missing == p.missing || q.missing == p.missing + {p.patch.nextId}
    requires p.ids[k] in p.patch.faces ==>
               p.ids[k] in q.patch.faces && q.patch.faces[p.ids[k]] == p.patch.faces[p.ids[k]]
    requires p.ids[k] in p.patch.plugs ==> p.ids[k] in q.patch.plugs
    ensures Copies(q, from, missing, k)
  {
  }

  lemma PasteOneKeeps(base: Patch, p: Pasted, from: Patch, missing: set<int>, id: int)
    requires Good(p.patch) && Pasting(base, p, from, missing) && id in from.faces && IdsBelow(base)
    ensures var q := PasteOne(p, from, missing, id);
            Good(q.patch) && Pasting(base, q, from, missing) && id in q.ids && p.ids.Keys <= q.ids.Keys
  {
    var q, e := PasteOne(p, from, missing, id), EventFor(from, missing, id);
    assert q.patch == Session.Step(p.patch, e);
    Session.StepGood(p.patch, e);
    PastingStep(base, p, q, from, missing, id);
  }

  lemma PastingStep(base: Patch, p: Pasted, q: Pasted, from: Patch, missing: set<int>, id: int)
    requires Pasting(base, p, from, missing) && id in from.faces && q == PasteOne(p, from, missing, id)
    requires IdsBelow(p.patch) && IdsBelow(base)
    ensures Pasting(base, q, from, missing)
  {
    forall k | k in q.ids ensures base.nextId <= q.ids[k] < q.patch.nextId && Copies(q, from, missing, k) {
      if k != id { OldCopiesStay(p, q, from, missing, id, k); }
    }
  }

  lemma {:induction false} PasteDevicesKeeps(base: Patch, p: Pasted, from: Patch, missing: set<int>, sel: seq<int>)
    requires Good(p.patch) && Pasting(base, p, from, missing) && IdsBelow(base)
    ensures var q := PasteDevices(p, from, missing, sel);
            && Good(q.patch) && Pasting(base, q, from, missing) && p.ids.Keys <= q.ids.Keys
            && (forall id :: id in sel && id in from.faces ==> id in q.ids)
    decreases |sel|
  {
    if sel != [] {
      if sel[0] in from.faces { PasteOneKeeps(base, p, from, missing, sel[0]); }
      var next := if sel[0] in from.faces then PasteOne(p, from, missing, sel[0]) else p;
      PasteDevicesKeeps(base, next, from, missing, sel[1..]);
      forall id | id in sel && id in from.faces ensures id in PasteDevices(p, from, missing, sel).ids {
        assert id == sel[0] || id in sel[1..];
      }
    }
  }

  // -------------------------------------------------------- pasting the wires

  lemma {:induction false} InsideAt(ws: seq<Wire>, sel: seq<int>, i: nat)
    requires i < |Inside(ws, sel)|
    ensures Inside(ws, sel)[i] in ws && Within2(sel, Inside(ws, sel)[i])
  {
    if Within2(sel, ws[0]) {
      if i > 0 {
        assert Inside(ws, sel)[i] == Inside(ws[1..], sel)[i - 1];
        InsideAt(ws[1..], sel, i - 1);
      }
    } else {
      InsideAt(ws[1..], sel, i);
    }
  }

  /** Inputs of the copied wires are as separate as those of the patch. */
  lemma {:induction false} InsideSeparate(ws: seq<Wire>, sel: seq<int>)
    requires forall i, j :: 0 <= i < j < |ws| ==> InEnd(ws[i]) != InEnd(ws[j])
    ensures forall i, j :: 0 <= i < j < |Inside(ws, sel)| ==> InEnd(Inside(ws, sel)[i]) != InEnd(Inside(ws, sel)[j])
  {
    if ws != [] {
      InsideSeparate(ws[1..], sel);
      var rest := Inside(ws[1..], sel);
      forall k | 0 <= k < |rest| ensures InEnd(rest[k]) != InEnd(ws[0]) {
        InsideAt(ws[1..], sel, k);
        var j :| 0 <= j < |ws[1..]| && ws[1..][j] == rest[k];
        assert InEnd(ws[0]) != InEnd(ws[j + 1]);
      }
    }
  }

  /** Nothing of the base is at an id it has not given out. */
  lemma OldWiresApart(base: Patch, ids: set<int>)
    requires AllWiresOk(base) && IdsBelow(base) && forall id :: id in ids ==> base.nextId <= id
    ensures KeepApart(base.wires, ids) == base.wires
    ensures forall id, q :: base.nextId <= id ==> Load(base.wires, In(id, q)) == 0
  {
    forall i | 0 <= i < |base.wires| ensures !AtAny(base.wires[i], ids) { assert WireOk(base, base.wires[i]); }
    ApartFromNone(base.wires, ids);
    forall id, q | base.nextId <= id ensures Load(base.wires, In(id, q)) == 0 {
      forall i | 0 <= i < |base.wires|
        ensures !Touches(base.wires[i], In(id, q))
      {
        assert WireOk(base, base.wires[i]);
      }
      LoadSpared(base.wires, In(id, q));
    }
  }

  lemma CopiedAt(base: Patch, p: Pasted, from: Patch, missing: set<int>, sel: seq<int>, i: nat)
    requires AllWiresOk(from) && Pasting(base, p, from, missing) && i < |Inside(from.wires, sel)|
    requires forall id :: id in sel && id in from.faces ==> id in p.ids
    requires forall id :: id in from.faces && id in missing ==>
               from.faces[id].inputs <= MOST_PORTS && from.faces[id].outputs <= MOST_PORTS
    ensures var w := Inside(from.wires, sel)[i]; var v := Renamed(w, true, p.ids);
            && BothKnown(p.ids, w) && base.nextId <= v.inId && base.nextId <= v.outId
            && Ready(p.patch, p.missing, OutEnd(v)) && Ready(p.patch, p.missing, InEnd(v))
  {
    InsideAt(from.wires, sel, i);
    var w := Inside(from.wires, sel)[i];
    var j :| 0 <= j < |from.wires| && from.wires[j] == w;
    assert WireOk(from, from.wires[j]);
  }

  /** Every copied wire ends at two copies, each with the port it needs. */
  lemma CopiesReady(base: Patch, p: Pasted, from: Patch, missing: set<int>, sel: seq<int>)
    requires AllWiresOk(from) && Pasting(base, p, from, missing)
    requires forall id :: id in sel && id in from.faces ==> id in p.ids
    requires forall id :: id in from.faces && id in missing ==>
               from.faces[id].inputs <= MOST_PORTS && from.faces[id].outputs <= MOST_PORTS
    ensures var ws := Inside(from.wires, sel); var vs := RenameBoth(ws, true, p.ids);
            && (forall i :: 0 <= i < |ws| ==> BothKnown(p.ids, ws[i]) && base.nextId <= vs[i].inId)
            && AllReady(p.patch, p.missing, Ends(vs))
            && (forall i :: 0 <= i < |Ends(vs)| ==> base.nextId <= Ends(vs)[i].id)
  {
    var ws := Inside(from.wires, sel);
    var vs := RenameBoth(ws, true, p.ids);
    forall i | 0 <= i < |ws|
      ensures && BothKnown(p.ids, ws[i]) && base.nextId <= vs[i].inId && base.nextId <= vs[i].outId
              && Ready(p.patch, p.missing, OutEnd(vs[i])) && Ready(p.patch, p.missing, InEnd(vs[i]))
    {
      CopiedAt(base, p, from, missing, sel, i);
    }
    EndsFrom(vs);
  }

  lemma {:induction false} EndsFrom(ws: seq<Wire>)
    ensures |Ends(ws)| == 2 * |ws|
    ensures forall k :: 0 <= k < |Ends(ws)| ==>
              Ends(ws)[k] == if k % 2 == 0 then OutEnd(ws[k / 2]) else InEnd(ws[k / 2])
  {
    if ws == [] {
      assert Ends(ws) == [];
    } else {
      forall k | 0 <= k < 2 * |ws|
        ensures |Ends(ws)| == 2 * |ws| && Ends(ws)[k] == if k % 2 == 0 then OutEnd(ws[k / 2]) else InEnd(ws[k / 2])
      {
        EndsAt(ws, k / 2);
      }
      EndsAt(ws, 0);
    }
  }

  /** Everything about the pasted list that the two passes need. */
  lemma CopiedListReady(base: Patch, p: Pasted, from: Patch, missing: set<int>, sel: seq<int>)
    requires AllWiresOk(from) && OneWirePerInput(from.wires)
    requires AllWiresOk(base) && IdsBelow(base) && Pasting(base, p, from, missing)
    requires forall id :: id in sel && id in from.faces ==> id in p.ids
    requires forall id :: id in from.faces && id in missing ==>
               from.faces[id].inputs <= MOST_PORTS && from.faces[id].outputs <= MOST_PORTS
    ensures var ws := Inside(from.wires, sel); var vs := RenameBoth(ws, true, p.ids);
            && (forall i :: 0 <= i < |ws| ==> BothKnown(p.ids, ws[i]))
            && AllReady(p.patch, p.missing, Ends(vs)) && InputsFree(p.patch.wires, vs)
            && (PendingOk(base) ==> Aside(base.pending, vs))
            && KeepApart(base.wires, OutgrownIds(p.patch, p.missing, Ends(vs))) == base.wires
  {
    var vs := RenameBoth(Inside(from.wires, sel), true, p.ids);
    CopiesReady(base, p, from, missing, sel);
    OldWiresApart(base, OutgrownIds(p.patch, p.missing, Ends(vs)));
    Session.SeparateInputs(from.wires);
    InsideSeparate(from.wires, sel);
  }

  lemma AsReadEight(ws: seq<Wire>)
    ensures AsRead(ws, true) == ws
  {
    assert forall i :: 0 <= i < |ws| ==> AsRead(ws, true)[i] == ws[i];
  }

  /** Paste, from the copy file: devices, ports of stand-ins, then wires. `standIns` are the
      missing plugins already on the canvas, which the first pass sees as well. */
  function Paste(base: Patch, standIns: set<int>, from: Patch, missing: set<int>, sel: seq<int>, file: Tokens): Pasted {
    var p := PasteDevices(Pasted(base, map[], standIns), from, missing, sel);
    var c := Cursor(file, false);
    var t := GrowUnavailablePorts(p.patch, p.missing, c, false, true, p.ids);
    p.(patch := StreamWiresIn(t, c, false, true, p.ids))
  }

  lemma PasteDevicesStart(base: Patch, standIns: set<int>, from: Patch, missing: set<int>, sel: seq<int>)
    returns (p: Pasted)
    requires Good(base) && standIns <= base.plugs.Keys
    ensures p == PasteDevices(Pasted(base, map[], standIns), from, missing, sel)
    ensures Good(p.patch) && Pasting(base, p, from, missing)
    ensures forall id :: id in sel && id in from.faces ==> id in p.ids
  {
    p := PasteDevices(Pasted(base, map[], standIns), from, missing, sel);
    PasteDevicesKeeps(base, Pasted(base, map[], standIns), from, missing, sel);
  }

  /** Copying fewer than a hundred internal wires and pasting them, now or later and
      into any sound patch with any stand-ins, appends exactly the image of the induced
      subgraph under an injective renaming onto ids that were not in use. Every wire that was
      there stays where it was, the patch stays sound, and the next id is above every id in
      use. */
  lemma CopyThenPaste(base: Patch, standIns: set<int>, from: Patch, missing: set<int>, sel: seq<int>)
    requires Good(base) && Good(from) && standIns <= base.plugs.Keys
    requires forall id :: id in from.faces && id in missing ==>
               from.faces[id].inputs <= MOST_PORTS && from.faces[id].outputs <= MOST_PORTS
    requires |Inside(from.wires, sel)| < 100
    ensures var ws := Inside(from.wires, sel);
            var r := Paste(base, standIns, from, missing, sel,
              CopyText.Numbers(CopyText.Words(CopyText.CopyBytes(ws))));
            && r.patch.wires == base.wires + RenameBoth(ws, true, r.ids)
            && (forall i :: 0 <= i < |ws| ==> BothKnown(r.ids, ws[i]))
            && (forall a, b :: a in r.ids && b in r.ids && a != b ==> r.ids[a] != r.ids[b])
            && (forall id :: id in r.ids ==> r.ids[id] !in base.faces && r.ids[id] !in base.plugs)
            && Good(r.patch) && IdsBelow(r.patch)
  {
    var ws := Inside(from.wires, sel);
    var p := PasteDevicesStart(base, standIns, from, missing, sel);
    CopiedListReady(base, p, from, missing, sel);
    CopyText.CopyReadsBack(ws);
    AsReadEight(ws);
    WiresPasted(p, ws);
  }

  lemma WiresPasted(p: Pasted, ws: seq<Wire>)
    requires Good(p.patch)
    requires forall i :: 0 <= i < |ws| ==> BothKnown(p.ids, ws[i])
    requires var vs := RenameBoth(ws, true, p.ids);
             && Aside(p.patch.pending, vs) && AsRead(ws, true) == ws
             && AllReady(p.patch, p.missing, Ends(vs)) && InputsFree(p.patch.wires, vs)
             && KeepApart(p.patch.wires, OutgrownIds(p.patch, p.missing, Ends(vs))) == p.patch.wires
    ensures var c := Cursor(Copied(ws, PatchWires.End), false);
            var grown := GrowUnavailablePorts(p.patch, p.missing, c, false, true, p.ids);
            var r := StreamWiresIn(grown, c, false, true, p.ids);
            Good(r) && r.wires == p.patch.wires + RenameBoth(ws, true, p.ids)
  {
    var vs := RenameBoth(ws, true, p.ids);
    var t := NoteAll(p.patch, p.missing, vs);
    BothReadersAgree(p.patch, p.missing, Clipboard, ws, PatchWires.End, false, p.ids);
    BothReadersAgree(t, p.missing, Clipboard, ws, PatchWires.End, false, p.ids);
    assert Laid(Clipboard, ws, true, p.ids) == vs;
    NoteAllBlind(p.patch, p.missing, AskedFor(ws, true, p.ids), vs);
    NoteAllEnlarges(p.patch, p.missing, vs);
    NoteAllGood(p.patch, p.missing, vs);
    LoadAllRestores(t, vs);
    LoadAllGood(t, vs);
  }
}
