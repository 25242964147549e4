/**
 What a copy takes, what a load skips and what a paste leaves on the canvas, each said place
 by place and device by device.
 */
module Pasting {
  import opened Wrappers
  import opened Wiring
  import opened PatchWires
  import opened CopyPaste
  import opened StandIns
  import opened UserView
  import CopyText
  import Session

  // ------------------------------------------------------- which wires are taken

  lemma {:induction false} InsideIsFilter(ws: seq<Wire>, sel: seq<int>)
    ensures Inside(ws, sel) == Filter(ws, (w: Wire) => w.inId in sel && w.outId in sel)
  {
    if ws != [] { InsideIsFilter(ws[1..], sel); }
  }

  /** Exactly the wires with both ends selected are copied, in their order. */
  lemma InsideExact(ws: seq<Wire>, sel: seq<int>) returns (at: seq<nat>)
    ensures Picked(ws, Inside(ws, sel), at)
    ensures forall i: nat :: i in at <==> i < |ws| && ws[i].outId in sel && ws[i].inId in sel
  {
    InsideIsFilter(ws, sel);
    at := FilterPicks(ws, (w: Wire) => w.inId in sel && w.outId in sel);
  }

  lemma PortsExistAlike(s: Patch, r: Patch, w: Wire)
    requires SameShape(s, r)
    ensures PortsExist(s, w) <==> PortsExist(r, w)
  {
  }

  lemma {:induction false} LoadAllFilters(s: Patch, ws: seq<Wire>, keep: Wire -> bool)
    requires forall w :: keep(w) <==> PortsExist(s, w)
    ensures LoadAll(s, ws).wires == s.wires + Filter(ws, keep)
    decreases |ws|
  {
    if ws != [] {
      var t := LoadWire(s, ws[0]);
      ConnectShape(s, ws[0]);
      assert SameShape(s, t);
      forall w ensures keep(w) <==> PortsExist(t, w) { PortsExistAlike(s, t, w); }
      LoadAllFilters(t, ws[1..], keep);
      var here, more := if keep(ws[0]) then [ws[0]] else [], Filter(ws[1..], keep);
      assert t.wires == s.wires + here;
      Onto(s.wires, here, more);
    }
  }

  /** The second pass lays exactly the wires both of whose ports are on the canvas, after those
      that were there and in the order of the list. */
  lemma LoadAllExact(s: Patch, ws: seq<Wire>) returns (laid: seq<Wire>, at: seq<nat>)
    ensures LoadAll(s, ws).wires == s.wires + laid && Picked(ws, laid, at)
    ensures forall i: nat :: i in at <==>
              i < |ws| && ws[i].outId in s.faces && 0 <= ws[i].outPort < s.faces[ws[i].outId].outputs
              && ws[i].inId in s.faces && 0 <= ws[i].inPort < s.faces[ws[i].inId].inputs
  {
    var keep := (w: Wire) => PortsExist(s, w);
    LoadAllFilters(s, ws, keep);
    laid := Filter(ws, keep);
    at := FilterPicks(ws, keep);
  }

  // --------------------------------------------------------- which devices are made

  /** What the copy of a device starts as: a stand-in and a comment have no ports yet. */
  function LayoutFor(from: Patch, missing: set<int>, id: int): Layout
    requires id in from.faces
  {
    if id in from.plugs && id !in missing
    then Layout(from.faces[id].inputs, from.faces[id].outputs, from.faces[id].terminal, false)
    else Layout(0, 0, false, false)
  }

  /** Each copy is of a selected device, has a plugin if that has, and is a stand-in if its
      plugin is missing. */
  ghost predicate CopiesOf(p: Pasted, from: Patch, missing: set<int>, all: seq<int>) {
    forall id :: id in p.ids ==>
      && id in all && id in from.faces && p.ids[id] in p.patch.faces && p.ids[id] < p.patch.nextId
      && LayoutOf(p.patch.faces[p.ids[id]]) == LayoutFor(from, missing, id)
      && (p.ids[id] in p.patch.plugs <==> id in from.plugs)
      && (p.ids[id] in p.missing <==> id in from.plugs && id in missing)
  }

  ghost predicate Below(p: Pasted) {
    && (forall k :: k in p.patch.faces || k in p.patch.plugs ==> k < p.patch.nextId)
    && (forall k :: k in p.missing ==> k < p.patch.nextId)
  }

  lemma PasteOneCopies(p: Pasted, from: Patch, missing: set<int>, all: seq<int>, id: int)
    requires Below(p) && CopiesOf(p, from, missing, all) && id in from.faces && id in all
    ensures var q := PasteOne(p, from, missing, id); Below(q) && CopiesOf(q, from, missing, all)
    ensures forall k :: k in p.patch.faces ==>
              k in PasteOne(p, from, missing, id).patch.faces
              && PasteOne(p, from, missing, id).patch.faces[k] == p.patch.faces[k]
  {
  }

  lemma {:induction false} PasteDevicesCopies(p: Pasted, from: Patch, missing: set<int>, all: seq<int>, sel: seq<int>)
    requires Below(p) && CopiesOf(p, from, missing, all) && forall id :: id in sel ==> id in all
    ensures var q := PasteDevices(p, from, missing, sel);
            && Below(q) && CopiesOf(q, from, missing, all)
            && (forall k :: k in p.patch.faces ==> k in q.patch.faces && q.patch.faces[k] == p.patch.faces[k])
    decreases |sel|
  {
    if sel != [] {
      var next := if sel[0] in from.faces then PasteOne(p, from, missing, sel[0]) else p;
      if sel[0] in from.faces { PasteOneCopies(p, from, missing, all, sel[0]); }
      PasteDevicesCopies(next, from, missing, all, sel[1..]);
    }
  }

  /** Pasting devices makes of each selected device a copy with its ports, or a stand-in or a
      comment with none, makes no other, and changes no device that was there. */
  lemma PasteDevicesExact(base: Patch, standIns: set<int>, from: Patch, missing: set<int>, sel: seq<int>)
    requires Good(base) && standIns <= base.plugs.Keys
    ensures var q := PasteDevices(Pasted(base, map[], standIns), from, missing, sel);
            && CopiesOf(q, from, missing, sel)
            && (forall id :: id in q.ids <==> id in sel && id in from.faces)
            && (forall k :: k in base.faces ==> k in q.patch.faces && q.patch.faces[k] == base.faces[k])
  {
    var p := PasteDevicesStart(base, standIns, from, missing, sel);
    PasteDevicesCopies(Pasted(base, map[], standIns), from, missing, sel, sel);
  }

  // ------------------------------------------------------------ the whole paste

  /** What a paste adds to the canvas has the shape the first pass leaves. */
  lemma PastedShape(p: Pasted, ws: seq<Wire>, vs: seq<Wire>, t: Patch)
    requires Synced(p.patch) && vs == RenameBoth(ws, true, p.ids) && t == NoteAll(p.patch, p.missing, vs)
    requires forall i :: 0 <= i < |ws| ==> BothKnown(p.ids, ws[i])
    requires AsRead(ws, true) == ws && AllReady(p.patch, p.missing, Ends(vs))
    ensures var c := Cursor(Copied(ws, PatchWires.End), false);
            var grown := GrowUnavailablePorts(p.patch, p.missing, c, false, true, p.ids);
            SameShape(t, StreamWiresIn(grown, c, false, true, p.ids))
  {
    BothReadersAgree(p.patch, p.missing, Clipboard, ws, PatchWires.End, false, p.ids);
    BothReadersAgree(t, p.missing, Clipboard, ws, PatchWires.End, false, p.ids);
    assert Laid(Clipboard, ws, true, p.ids) == vs;
    NoteAllBlind(p.patch, p.missing, AskedFor(ws, true, p.ids), vs);
    NoteAllEnlarges(p.patch, p.missing, vs);
    LoadAllRestores(t, vs);
  }

  /** The first pass makes room at new stand-ins only. */
  lemma OthersKeepRoom(s: Patch, missing: set<int>, vs: seq<Wire>, low: int, k: int, input: bool)
    requires Synced(s) && k in s.faces && (k < low || k !in missing)
    requires forall i :: 0 <= i < |vs| ==> low <= vs[i].inId && low <= vs[i].outId
    ensures var t := NoteAll(s, missing, vs); k in t.faces && Room(t, k, input) == Room(s, k, input)
  {
    NoteAllExact(s, missing, vs, k, input);
  }

  lemma KeepsRoom(p: Pasted, vs: seq<Wire>, low: int, r: Patch, k: int)
    requires Synced(p.patch) && k in p.patch.faces && (k < low || k !in p.missing)
    requires forall i :: 0 <= i < |vs| ==> low <= vs[i].inId && low <= vs[i].outId
    requires SameShape(NoteAll(p.patch, p.missing, vs), r)
    ensures k in r.faces && r.faces[k].inputs == p.patch.faces[k].inputs
    ensures r.faces[k].outputs == p.patch.faces[k].outputs
  {
    OthersKeepRoom(p.patch, p.missing, vs, low, k, true);
    OthersKeepRoom(p.patch, p.missing, vs, low, k, false);
    assert Room(r, k, true) == Room(NoteAll(p.patch, p.missing, vs), k, true);
  }

  /** The rooms of the copies and of the others, when the wires are laid. */
  lemma RoomsKept(base: Patch, p: Pasted, from: Patch, missing: set<int>, sel: seq<int>, vs: seq<Wire>, r: Patch)
    requires Synced(p.patch) && IdsBelow(base) && CopiesOf(p, from, missing, sel)
    requires forall k :: k in base.faces ==> k in p.patch.faces && p.patch.faces[k] == base.faces[k]
    requires forall i :: 0 <= i < |vs| ==> base.nextId <= vs[i].inId && base.nextId <= vs[i].outId
    requires SameShape(NoteAll(p.patch, p.missing, vs), r)
    ensures forall id :: id in p.ids && id in from.plugs && id !in missing ==>
              && p.ids[id] in r.faces && r.faces[p.ids[id]].inputs == from.faces[id].inputs
              && r.faces[p.ids[id]].outputs == from.faces[id].outputs
    ensures forall k :: k in base.faces ==>
              && k in r.faces && r.faces[k].inputs == base.faces[k].inputs
              && r.faces[k].outputs == base.faces[k].outputs
  {
    forall id | id in p.ids && id in from.plugs && id !in missing
      ensures && p.ids[id] in r.faces && r.faces[p.ids[id]].inputs == from.faces[id].inputs
              && r.faces[p.ids[id]].outputs == from.faces[id].outputs
    {
      assert LayoutOf(p.patch.faces[p.ids[id]]) == LayoutFor(from, missing, id);
      KeepsRoom(p, vs, base.nextId, r, p.ids[id]);
    }
    forall k | k in base.faces
      ensures && k in r.faces && r.faces[k].inputs == base.faces[k].inputs
              && r.faces[k].outputs == base.faces[k].outputs
    {
      KeepsRoom(p, vs, base.nextId, r, k);
    }
  }

  /** Where the copies end up. */
  lemma PasteRooms(base: Patch, standIns: set<int>, from: Patch, missing: set<int>, sel: seq<int>, r: Pasted)
    requires Good(base) && Good(from) && standIns <= base.plugs.Keys
    requires forall id :: id in from.faces && id in missing ==>
               from.faces[id].inputs <= MOST_PORTS && from.faces[id].outputs <= MOST_PORTS
    requires |Inside(from.wires, sel)| < 100
    requires r == Paste(base, standIns, from, missing, sel,
                        CopyText.Numbers(CopyText.Words(CopyText.CopyBytes(Inside(from.wires, sel)))))
    ensures forall id :: id in r.ids <==> id in sel && id in from.faces
    ensures forall id :: id in r.ids && id in from.plugs && id !in missing ==>
              && r.ids[id] in r.patch.faces && r.patch.faces[r.ids[id]].inputs == from.faces[id].inputs
              && r.patch.faces[r.ids[id]].outputs == from.faces[id].outputs
    ensures forall k :: k in base.faces ==>
              && k in r.patch.faces && r.patch.faces[k].inputs == base.faces[k].inputs
              && r.patch.faces[k].outputs == base.faces[k].outputs
  {
    var ws := Inside(from.wires, sel);
    var p := PasteDevicesStart(base, standIns, from, missing, sel);
    var vs := RenameBoth(ws, true, p.ids);
    PasteDevicesExact(base, standIns, from, missing, sel);
    CopiedListReady(base, p, from, missing, sel);
    CopiesReady(base, p, from, missing, sel);
    CopyText.CopyReadsBack(ws);
    AsReadEight(ws);
    var t := NoteAll(p.patch, p.missing, vs);
    PastedShape(p, ws, vs, t);
    forall i | 0 <= i < |vs| ensures base.nextId <= vs[i].inId && base.nextId <= vs[i].outId {
      assert BothKnown(p.ids, ws[i]);
    }
    RoomsKept(base, p, from, missing, sel, vs, r.patch);
  }

  /** The k-th copied wire. */
  lemma CopiedWire(base: seq<Wire>, ws: seq<Wire>, ids: map<int, int>, all: seq<Wire>, k: nat)
    requires k < |ws| && BothKnown(ids, ws[k]) && all == base + RenameBoth(ws, true, ids)
    ensures |all| == |base| + |ws|
    ensures var w := ws[k];
            all[|base| + k] == Wire(ids[w.outId], w.outPort, w.outTerminal, ids[w.inId], w.inPort, w.inTerminal)
  {
    assert all[|base| + k] == RenameBoth(ws, true, ids)[k];
  }

  lemma CopiedWires(base: seq<Wire>, ws: seq<Wire>, from: seq<Wire>, at: seq<nat>, ids: map<int, int>, all: seq<Wire>)
    requires Picked(from, ws, at) && all == base + RenameBoth(ws, true, ids)
    requires forall i :: 0 <= i < |ws| ==> BothKnown(ids, ws[i])
    ensures |all| == |base| + |at| && all[..|base|] == base
    ensures forall k :: 0 <= k < |at| ==> IsCopy(base, from, at, ids, all, k)
  {
    forall k | 0 <= k < |at| ensures IsCopy(base, from, at, ids, all, k) { CopiedWire(base, ws, ids, all, k); }
  }

  /** After the wires of the base, the k-th is the wire of the source at the k-th place,
      between the copies of its ends. */
  ghost predicate IsCopy(base: seq<Wire>, from: seq<Wire>, at: seq<nat>, ids: map<int, int>, all: seq<Wire>, k: nat) {
    && k < |at| && at[k] < |from| && |base| + k < |all|
    && var w := from[at[k]];
       && w.outId in ids && w.inId in ids
       && all[|base| + k] == Wire(ids[w.outId], w.outPort, w.outTerminal, ids[w.inId], w.inPort, w.inTerminal)
  }

  /** Copy and paste, wire by wire: the wires that were there, and then for each wire of the
      source with both ends selected, in order, the same wire between the copies of its ends.
      Every copy has an id of its own that was not in use. */
  lemma PasteWires(base: Patch, standIns: set<int>, from: Patch, missing: set<int>, sel: seq<int>, r: Pasted)
    returns (at: seq<nat>)
    requires Good(base) && Good(from) && standIns <= base.plugs.Keys
    requires forall id :: id in from.faces && id in missing ==>
               from.faces[id].inputs <= MOST_PORTS && from.faces[id].outputs <= MOST_PORTS
    requires |Inside(from.wires, sel)| < 100
    requires r == Paste(base, standIns, from, missing, sel,
                        CopyText.Numbers(CopyText.Words(CopyText.CopyBytes(Inside(from.wires, sel)))))
    ensures forall i: nat :: i in at <==> i < |from.wires| && from.wires[i].outId in sel && from.wires[i].inId in sel
    ensures forall j, k :: 0 <= j < k < |at| ==> at[j] < at[k]
    ensures |r.patch.wires| == |base.wires| + |at| && r.patch.wires[..|base.wires|] == base.wires
    ensures forall k :: 0 <= k < |at| ==> IsCopy(base.wires, from.wires, at, r.ids, r.patch.wires, k)
    ensures forall a, b :: a in r.ids && b in r.ids && a != b ==> r.ids[a] != r.ids[b]
    ensures forall id :: id in r.ids ==> r.ids[id] !in base.faces && r.ids[id] !in base.plugs
    ensures Good(r.patch)
  {
    var ws := Inside(from.wires, sel);
    CopyThenPaste(base, standIns, from, missing, sel);
    at := InsideExact(from.wires, sel);
    CopiedWires(base.wires, ws, from.wires, at, r.ids, r.patch.wires);
  }
}
