/**
 The wires of a saved patch: what is written, the two readers of it, and stand-ins
 for missing plugins that grow whatever ports the wires ask for.
 */
module PatchWires {
  import opened Wrappers
  import opened Wiring
  import JackPorts

  // ------------------------------------------------------------ token streams

  /** The rest of a text stream as the numbers in it; a word that is no number acts
      as the end. Where a stream stands is which rest it has. */
  datatype Tokens = End | Next(head: int, tail: Tokens)

  datatype Cursor = Cursor(rest: Tokens, fail: bool)

  /** Extraction of an int: past the end the fail bit is set and the variable keeps
      the value it had. */
  function GetInt(c: Cursor, was: int): (Cursor, int) {
    if !c.fail && c.rest.Next? then (Cursor(c.rest.tail, false), c.rest.head) else (c.(fail := true), was)
  }

  /** Extraction of a bool: a number other than 0 and 1 reads as true and fails. */
  function GetBool(c: Cursor, was: bool): (Cursor, bool) {
    if !c.fail && c.rest.Next? then (Cursor(c.rest.tail, c.rest.head != 0 && c.rest.head != 1), c.rest.head != 0)
    else (c.(fail := true), was)
  }

  function Digit(b: bool): int { if b then 1 else 0 }

  /** A wire record before the rest: eight fields, or six in files older than the flags. */
  function Record(w: Wire, eight: bool, rest: Tokens): Tokens {
    if eight then
      Next(w.outId, Next(0, Next(w.outPort, Next(Digit(w.outTerminal),
        Next(w.inId, Next(0, Next(w.inPort, Next(Digit(w.inTerminal), rest))))))))
    else
      Next(w.outId, Next(0, Next(w.outPort, Next(w.inId, Next(0, Next(w.inPort, rest))))))
  }

  function Records(ws: seq<Wire>, eight: bool, rest: Tokens): Tokens {
    if ws == [] then rest else Record(ws[0], eight, Records(ws[1..], eight, rest))
  }

  /** Describe(Fl_Canvas): version 0 behind a -1. */
  function Saved(ws: seq<Wire>, rest: Tokens): Tokens { Next(-1, Next(0, Next(|ws|, Records(ws, true, rest)))) }

  /** The format before there was a version. */
  function SavedLegacy(ws: seq<Wire>, rest: Tokens): Tokens { Next(|ws|, Records(ws, false, rest)) }

  /** What the copy writer leaves: no version, and still the -1 when nothing was copied. */
  function Copied(ws: seq<Wire>, rest: Tokens): Tokens {
    Next(if ws == [] then -1 else |ws|, Records(ws, true, rest))
  }

  // -------------------------------------------------------- reading a record

  /** Reader two takes the fields into a cleared wire. */
  function ReadWire(c: Cursor, eight: bool): (Cursor, Wire) {
    var (c1, outId) := GetInt(c, -1);
    var (c2, _) := GetInt(c1, 0);
    var (c3, outPort) := GetInt(c2, -1);
    var (c4, outTerminal) := if eight then GetBool(c3, false) else (c3, false);
    var (c5, inId) := GetInt(c4, -1);
    var (c6, _) := GetInt(c5, 0);
    var (c7, inPort) := GetInt(c6, -1);
    var (c8, inTerminal) := if eight then GetBool(c7, false) else (c7, false);
    (c8, Wire(outId, outPort, outTerminal, inId, inPort, inTerminal))
  }

  /** Reader one only wants the ends; the flags are plain numbers to it. */
  function ReadEnds(c: Cursor, eight: bool): (Cursor, Wire) {
    var (c1, outId) := GetInt(c, 0);
    var (c2, _) := GetInt(c1, 0);
    var (c3, outPort) := GetInt(c2, 0);
    var (c4, _) := if eight then GetInt(c3, 0) else (c3, 0);
    var (c5, inId) := GetInt(c4, 0);
    var (c6, _) := GetInt(c5, 0);
    var (c7, inPort) := GetInt(c6, 0);
    var (c8, _) := if eight then GetInt(c7, 0) else (c7, 0);
    (c8, Wire(outId, outPort, false, inId, inPort, false))
  }

  // -------------------------------------------------- id maps of paste, merge

  /** RemapLoadedId: one id at a time. */
  function RemapId(ids: map<int, int>, id: int): int { if id in ids then ids[id] else id }

  /** What the first reader makes of the ends. */
  function RenameEach(ws: seq<Wire>, remap: bool, ids: map<int, int>): seq<Wire> {
    if ws == [] then []
    else
      [if remap then ws[0].(outId := RemapId(ids, ws[0].outId), inId := RemapId(ids, ws[0].inId)) else ws[0]]
      + RenameEach(ws[1..], remap, ids)
  }

  predicate BothKnown(ids: map<int, int>, w: Wire) { w.inId in ids && w.outId in ids }

  /** The second reader renames both ends or neither. */
  function Renamed(w: Wire, remap: bool, ids: map<int, int>): Wire {
    if remap && BothKnown(ids, w) then w.(outId := ids[w.outId], inId := ids[w.inId]) else w
  }

  function RenameBoth(ws: seq<Wire>, remap: bool, ids: map<int, int>): (r: seq<Wire>)
    ensures |r| == |ws|
    ensures forall i :: 0 <= i < |ws| ==> r[i] == Renamed(ws[i], remap, ids)
  {
    if ws == [] then [] else [Renamed(ws[0], remap, ids)] + RenameBoth(ws[1..], remap, ids)
  }

  // ----------------------------------------------------- growing the stand-ins

  const MOST_PORTS := 4096

  function Asked(asked: int, have: nat): nat {
    var n := if asked < have then have else asked;
    if n > MOST_PORTS then MOST_PORTS else n
  }

  function Most(a: nat, b: nat): nat { if a < b then b else a }

  /** UnavailablePlugin::EnsurePorts: add what is missing, then tell the host, which
      does not keep connections for this plugin. */
  function EnsurePorts(s: Patch, id: int, inputs: int, outputs: int): Patch
    requires id in s.faces && id in s.plugs
  {
    var ins, outs := |s.plugs[id].sockets|, |s.plugs[id].buffers|;
    var newIns, newOuts := Most(ins, Asked(inputs, ins)), Most(outs, Asked(outputs, outs));
    if Asked(inputs, ins) == ins && Asked(outputs, outs) == outs then s
    else JackPorts.ResizeThenTell(s, id, newIns, newOuts, false)
  }

  /** The counts a wire end asks of a stand-in that has this plug. */
  function WantInputs(g: Plug, e: End): int {
    if e.In? && e.port + 1 > |g.sockets| then e.port + 1 else |g.sockets|
  }

  function WantOutputs(g: Plug, e: End): int {
    if e.Out? && e.port + 1 > |g.buffers| then e.port + 1 else |g.buffers|
  }

  predicate Noted(s: Patch, missing: set<int>, e: End) {
    0 <= e.port && e.id in s.plugs && e.id in s.faces && e.id in missing
  }

  /** NoteUnavailablePort. */
  function NotePort(s: Patch, missing: set<int>, e: End): Patch {
    if Noted(s, missing, e) then EnsurePorts(s, e.id, WantInputs(s.plugs[e.id], e), WantOutputs(s.plugs[e.id], e))
    else s
  }

  function NoteWire(s: Patch, missing: set<int>, w: Wire): Patch {
    NotePort(NotePort(s, missing, OutEnd(w)), missing, InEnd(w))
  }

  function NoteAll(s: Patch, missing: set<int>, ws: seq<Wire>): Patch
    decreases |ws|
  {
    if ws == [] then s else NoteAll(NoteWire(s, missing, ws[0]), missing, ws[1..])
  }

  // --------------------------------------------------------- loading the wires

  predicate PortsExist(s: Patch, w: Wire) {
    OnFace(s, OutEnd(w)) && OnFace(s, InEnd(w))
  }

  /** A missing end, or a port the stand-in does not have, drops only this wire. */
  function LoadWire(s: Patch, w: Wire): Patch {
    if PortsExist(s, w) then Connect(s, w) else s
  }

  function LoadAll(s: Patch, ws: seq<Wire>): Patch
    decreases |ws|
  {
    if ws == [] then s else LoadAll(LoadWire(s, ws[0]), ws[1..])
  }

  // ------------------------------------------------------- the whole of a read

  /** Reader two takes n records, whatever the stream still holds. */
  function ReadWires(c: Cursor, eight: bool, n: nat): (Cursor, seq<Wire>)
    decreases n
  {
    if n == 0 then (c, [])
    else
      var (c1, w) := ReadWire(c, eight);
      var (c2, ws) := ReadWires(c1, eight, n - 1);
      (c2, [w] + ws)
  }

  /** Reader one stops at the first record that cannot be read. */
  function ReadAllEnds(c: Cursor, eight: bool, n: nat): seq<Wire>
    decreases n
  {
    if n == 0 then []
    else
      var (c1, w) := ReadEnds(c, eight);
      if c1.fail then [] else [w] + ReadAllEnds(c1, eight, n - 1)
  }

  datatype Head = Head(eight: bool, count: int, at: Cursor)

  /** What both readers work out from the head of the list: field count, number of
      records, and where they start. A -1 announces a version, except on paste. */
  function ReadHead(c: Cursor, paste: bool): Head {
    var (c1, first) := GetInt(c, 0);
    if paste || first != -1 then Head(paste, first, c1)
    else
      var (c2, _) := GetInt(c1, 0);
      var (c3, count) := GetInt(c2, first);
      Head(true, count, c3)
  }

  function Count(n: int): nat { if n < 0 then 0 else n }

  /** StreamWiresIn. */
  function StreamWiresIn(s: Patch, c: Cursor, merge: bool, paste: bool, ids: map<int, int>): Patch {
    var h := ReadHead(c, paste);
    LoadAll(s, RenameBoth(ReadWires(h.at, h.eight, Count(h.count)).1, paste || merge, ids))
  }

  /** GrowUnavailablePorts, on a stream that can tell its place. */
  function GrowUnavailablePorts(s: Patch, missing: set<int>, c: Cursor, merge: bool, paste: bool,
                                ids: map<int, int>): Patch {
    if c.fail || c.rest.End? then s
    else
      var h := ReadHead(c, paste);
      NoteAll(s, missing, RenameEach(ReadAllEnds(h.at, h.eight, Count(h.count)), paste || merge, ids))
  }

  // ------------------------------------------- both readers see the same wires

  function Plain(w: Wire): Wire { w.(outTerminal := false, inTerminal := false) }

  /** Old records carry no flags, so they read back cleared. */
  function AsRead(ws: seq<Wire>, eight: bool): (r: seq<Wire>)
    ensures |r| == |ws|
    ensures forall i :: 0 <= i < |ws| ==> r[i] == if eight then ws[i] else Plain(ws[i])
  {
    if ws == [] then [] else [if eight then ws[0] else Plain(ws[0])] + AsRead(ws[1..], eight)
  }

  function EndsOnly(ws: seq<Wire>): (r: seq<Wire>)
    ensures |r| == |ws|
    ensures forall i :: 0 <= i < |ws| ==> r[i] == Plain(ws[i])
  {
    if ws == [] then [] else [Plain(ws[0])] + EndsOnly(ws[1..])
  }

  lemma RecordReads(w: Wire, eight: bool, rest: Tokens)
    ensures ReadWire(Cursor(Record(w, eight, rest), false), eight)
            == (Cursor(rest, false), if eight then w else Plain(w))
    ensures ReadEnds(Cursor(Record(w, eight, rest), false), eight) == (Cursor(rest, false), Plain(w))
  {
  }

  /** Written records read back, one after the other, by either reader. */
  lemma {:induction false} RecordsRead(ws: seq<Wire>, eight: bool, rest: Tokens)
    ensures ReadWires(Cursor(Records(ws, eight, rest), false), eight, |ws|) == (Cursor(rest, false), AsRead(ws, eight))
    ensures ReadAllEnds(Cursor(Records(ws, eight, rest), false), eight, |ws|) == EndsOnly(ws)
    decreases |ws|
  {
    if ws != [] {
      RecordReads(ws[0], eight, Records(ws[1..], eight, rest));
      RecordsRead(ws[1..], eight, rest);
    }
  }

  datatype Format = Versioned | Legacy | Clipboard

  function File(f: Format, ws: seq<Wire>, rest: Tokens): Tokens {
    match f
    case Versioned => Saved(ws, rest)
    case Legacy => SavedLegacy(ws, rest)
    case Clipboard => Copied(ws, rest)
  }

  /** The wires a file lays on the canvas: flags as its format keeps them, ends renamed
      on paste and merge. */
  function Laid(f: Format, ws: seq<Wire>, remap: bool, ids: map<int, int>): seq<Wire> {
    RenameBoth(AsRead(ws, !f.Legacy?), remap, ids)
  }

  lemma HeadReads(f: Format, ws: seq<Wire>, rest: Tokens)
    ensures var h := ReadHead(Cursor(File(f, ws, rest), false), f.Clipboard?);
            && h.eight == !f.Legacy? && Count(h.count) == |ws|
            && h.at == Cursor(Records(ws, !f.Legacy?, rest), false)
  {
  }

  lemma {:induction false} NoteAllBlind(s: Patch, missing: set<int>, ws: seq<Wire>, vs: seq<Wire>)
    requires Ends(ws) == Ends(vs)
    ensures NoteAll(s, missing, ws) == NoteAll(s, missing, vs)
    decreases |ws|
  {
    NoteAllIs(s, missing, ws);
    NoteAllIs(s, missing, vs);
  }

  /** The ends of a list, each output before its input. */
  function Ends(ws: seq<Wire>): seq<End> {
    if ws == [] then [] else [OutEnd(ws[0]), InEnd(ws[0])] + Ends(ws[1..])
  }

  function NotePorts(s: Patch, missing: set<int>, es: seq<End>): Patch
    decreases |es|
  {
    if es == [] then s else NotePorts(NotePort(s, missing, es[0]), missing, es[1..])
  }

  /** Only the ends of a list matter to the first pass. */
  lemma {:induction false} NoteAllIs(s: Patch, missing: set<int>, ws: seq<Wire>)
    ensures NoteAll(s, missing, ws) == NotePorts(s, missing, Ends(ws))
    decreases |ws|
  {
    if ws != [] {
      var es, rest := Ends(ws), Ends(ws[1..]);
      NoteAllIs(NoteWire(s, missing, ws[0]), missing, ws[1..]);
      assert es[1..] == [InEnd(ws[0])] + rest && es[1..][1..] == rest;
    }
  }

  lemma {:induction false} EndsSame(ws: seq<Wire>, vs: seq<Wire>)
    requires |ws| == |vs|
    ensures Ends(ws) == Ends(vs)
            <==> forall i :: 0 <= i < |ws| ==> OutEnd(ws[i]) == OutEnd(vs[i]) && InEnd(ws[i]) == InEnd(vs[i])
  {
    if ws != [] {
      EndsSame(ws[1..], vs[1..]);
      EndsSplit(ws);
      EndsSplit(vs);
      assert forall i :: 0 < i < |ws| ==> ws[i] == ws[1..][i - 1] && vs[i] == vs[1..][i - 1];
    }
  }

  lemma EndsSplit(ws: seq<Wire>)
    requires ws != []
    ensures Ends(ws)[0] == OutEnd(ws[0]) && Ends(ws)[1] == InEnd(ws[0]) && Ends(ws)[2..] == Ends(ws[1..])
    ensures Ends(ws) == [OutEnd(ws[0]), InEnd(ws[0])] + Ends(ws[1..])
  {
  }

  lemma {:induction false} RenameEachAt(ws: seq<Wire>, remap: bool, ids: map<int, int>, i: nat)
    requires i < |ws|
    ensures |RenameEach(ws, remap, ids)| == |ws|
    ensures RenameEach(ws, remap, ids)[i] ==
            if remap then ws[i].(outId := RemapId(ids, ws[i].outId), inId := RemapId(ids, ws[i].inId)) else ws[i]
    decreases |ws|
  {
    if |ws| > 1 { RenameEachAt(ws[1..], remap, ids, if i > 0 then i - 1 else 0); }
  }

  /** The wires the first reader asks the ports of: it renames one end at a time. */
  function AskedFor(ws: seq<Wire>, remap: bool, ids: map<int, int>): seq<Wire> {
    RenameEach(EndsOnly(ws), remap, ids)
  }

  /** Renaming both ends or neither is renaming each: both ends are in the map, or those that
      are keep their id. */
  predicate RenamedAlike(ids: map<int, int>, w: Wire) {
    BothKnown(ids, w) || (RemapId(ids, w.outId) == w.outId && RemapId(ids, w.inId) == w.inId)
  }

  lemma RenamedAt(f: Format, ws: seq<Wire>, remap: bool, ids: map<int, int>, i: nat)
    requires i < |ws|
    ensures |AskedFor(ws, remap, ids)| == |Laid(f, ws, remap, ids)| == |ws|
    ensures var a, b := AskedFor(ws, remap, ids)[i], Laid(f, ws, remap, ids)[i];
            OutEnd(a) == OutEnd(b) && InEnd(a) == InEnd(b) <==> !remap || RenamedAlike(ids, ws[i])
  {
    RenameEachAt(EndsOnly(ws), remap, ids, i);
  }

  /** The two independent readers of one list, in every format: the second lays exactly the
      file's wires, the first asks for the ports of the same wires with each end renamed by
      itself. They speak of the same ends if and only if every wire has both its ends in the
      id map or none that the map would change. The first is a function of the stream, so it
      leaves the stream where it was. */
  lemma BothReadersAgree(s: Patch, missing: set<int>, f: Format, ws: seq<Wire>, rest: Tokens, merge: bool,
                         ids: map<int, int>)
    ensures var c, remap := Cursor(File(f, ws, rest), false), merge || f.Clipboard?;
            && StreamWiresIn(s, c, merge, f.Clipboard?, ids) == LoadAll(s, Laid(f, ws, remap, ids))
            && GrowUnavailablePorts(s, missing, c, merge, f.Clipboard?, ids)
               == NoteAll(s, missing, AskedFor(ws, remap, ids))
            && (Ends(AskedFor(ws, remap, ids)) == Ends(Laid(f, ws, remap, ids))
                <==> forall i :: 0 <= i < |ws| ==> !remap || RenamedAlike(ids, ws[i]))
  {
    HeadReads(f, ws, rest);
    RecordsRead(ws, !f.Legacy?, rest);
    EndsAlike(f, ws, merge || f.Clipboard?, ids);
  }

  lemma EndsAlike(f: Format, ws: seq<Wire>, remap: bool, ids: map<int, int>)
    ensures Ends(AskedFor(ws, remap, ids)) == Ends(Laid(f, ws, remap, ids))
            <==> forall i :: 0 <= i < |ws| ==> !remap || RenamedAlike(ids, ws[i])
  {
    var asked, laid := AskedFor(ws, remap, ids), Laid(f, ws, remap, ids);
    if ws == [] {
      assert asked == laid == [];
    } else {
      RenamedAt(f, ws, remap, ids, 0);
      forall i | 0 <= i < |ws|
        ensures OutEnd(asked[i]) == OutEnd(laid[i]) && InEnd(asked[i]) == InEnd(laid[i])
                <==> !remap || RenamedAlike(ids, ws[i])
      {
        RenamedAt(f, ws, remap, ids, i);
      }
      EndsSame(asked, laid);
    }
  }

  // --------------------------------------------------- what a stand-in becomes

  function BlankIn(t: Patch, id: int, inputs: nat, outputs: nat): Patch
    requires id in t.faces
  {
    t.(faces := t.faces[id := BlankFace(t.faces[id], inputs, outputs)])
  }

  function GrownTo(asked: int, have: nat): nat { Most(have, Asked(asked, have)) }

  /** Everyone but this device keeps its shape; this one has the counts asked for,
      up to the limit, and never fewer than before. */
  ghost predicate Grown(s: Patch, r: Patch, id: int, inputs: nat, outputs: nat) {
    && r.faces.Keys == s.faces.Keys && r.plugs.Keys == s.plugs.Keys
    && id in r.faces && r.faces[id].inputs == inputs && r.faces[id].outputs == outputs
    && (forall k :: k in s.faces && k != id ==>
          r.faces[k].inputs == s.faces[k].inputs && r.faces[k].outputs == s.faces[k].outputs)
    && Synced(r)
  }

  /** Telling the canvas of a plugin that grew drops the wires of that device and no other. */
  lemma GrownShape(s: Patch, id: int, ins: nat, outs: nat)
    requires id in s.faces && id in s.plugs && Synced(s)
    ensures var r := JackPorts.ResizeThenTell(s, id, ins, outs, false);
            && Grown(s, r, id, ins, outs) && r.wires == Keep(s.wires, Beyond(id, 0, 0))
            && r.pending in {s.pending, NO_WIRE}
  {
    var u := JackPorts.Resized(s, id, ins, outs);
    var t := Prune(u, id, 0, 0);
    PruneKeeps(u, id, 0, 0);
    SetupPortsIs(u, id, ins, outs, false);
    RefacedShape(u, t, id, BlankFace(t.faces[id], ins, outs));
    JackPorts.GrownSynced(s, u, JackPorts.ResizeThenTell(s, id, ins, outs, false), id, ins, outs);
  }

  /** A stand-in asked for no more than it has is left alone. */
  predicate Enough(s: Patch, id: int, inputs: int, outputs: int)
    requires id in s.plugs
  {
    Asked(inputs, |s.plugs[id].sockets|) == |s.plugs[id].sockets|
      && Asked(outputs, |s.plugs[id].buffers|) == |s.plugs[id].buffers|
  }

  lemma EnsurePortsGrows(s: Patch, id: int, inputs: int, outputs: int)
    requires id in s.faces && id in s.plugs && Synced(s)
    ensures var r := EnsurePorts(s, id, inputs, outputs);
            && Grown(s, r, id, GrownTo(inputs, s.faces[id].inputs), GrownTo(outputs, s.faces[id].outputs))
            && r.wires == (if Enough(s, id, inputs, outputs) then s.wires else Keep(s.wires, Beyond(id, 0, 0)))
            && r.pending in {s.pending, NO_WIRE}
  {
    var ins, outs := |s.plugs[id].sockets|, |s.plugs[id].buffers|;
    assert ins == s.faces[id].inputs && outs == s.faces[id].outputs;
    GrownShape(s, id, GrownTo(inputs, ins), GrownTo(outputs, outs));
  }

  lemma EnsurePortsGood(s: Patch, id: int, inputs: int, outputs: int)
    requires Good(s) && id in s.faces && id in s.plugs
    ensures Good(EnsurePorts(s, id, inputs, outputs))
  {
    var ins, outs := |s.plugs[id].sockets|, |s.plugs[id].buffers|;
    if !Enough(s, id, inputs, outputs) {
      JackPorts.GrowGood(s, id, GrownTo(inputs, ins), GrownTo(outputs, outs), false,
        EnsurePorts(s, id, inputs, outputs));
    }
  }

  // ------------------------------------------------------- the whole list

  /** A stand-in that an end makes grow: it lacks the port and is not at the limit. One past
      the limit would be rebuilt at any end. */
  predicate Outgrown(s: Patch, missing: set<int>, e: End) {
    Noted(s, missing, e) &&
    (|s.plugs[e.id].sockets| > MOST_PORTS || |s.plugs[e.id].buffers| > MOST_PORTS ||
     (var have := if e.In? then |s.plugs[e.id].sockets| else |s.plugs[e.id].buffers|;
      have <= e.port && have < MOST_PORTS))
  }

  /** The stand-ins that a list makes grow. */
  function OutgrownIds(s: Patch, missing: set<int>, es: seq<End>): set<int> {
    set i | 0 <= i < |es| && Outgrown(s, missing, es[i]) :: es[i].id
  }

  predicate AtAny(w: Wire, ids: set<int>) {
    (w.outId in ids && w.outPort >= 0) || (w.inId in ids && w.inPort >= 0)
  }

  /** The wires at none of some devices, in their order. */
  function KeepApart(ws: seq<Wire>, ids: set<int>): seq<Wire> {
    if ws == [] then [] else (if AtAny(ws[0], ids) then [] else [ws[0]]) + KeepApart(ws[1..], ids)
  }

  lemma {:induction false} ApartFromNone(ws: seq<Wire>, ids: set<int>)
    requires forall i :: 0 <= i < |ws| ==> !AtAny(ws[i], ids)
    ensures KeepApart(ws, ids) == ws
  {
    if ws != [] { ApartFromNone(ws[1..], ids); }
  }

  lemma {:induction false} ApartFromOne(ws: seq<Wire>, id: int)
    ensures KeepApart(ws, {id}) == Keep(ws, Beyond(id, 0, 0))
  {
    if ws != [] { ApartFromOne(ws[1..], id); }
  }

  lemma {:induction false} ApartTwice(ws: seq<Wire>, a: set<int>, b: set<int>)
    ensures KeepApart(KeepApart(ws, a), b) == KeepApart(ws, a + b)
  {
    if ws != [] {
      var more := KeepApart(ws[1..], a);
      ApartTwice(ws[1..], a, b);
      assert AtAny(ws[0], a + b) <==> AtAny(ws[0], a) || AtAny(ws[0], b);
      if !AtAny(ws[0], a) {
        assert KeepApart(ws, a) == [ws[0]] + more && ([ws[0]] + more)[1..] == more;
        assert KeepApart([ws[0]] + more, b) == (if AtAny(ws[0], b) then [] else [ws[0]]) + KeepApart(more, b);
      } else {
        assert KeepApart(ws, a) == more;
      }
    }
  }

  /** Stand-ins may have gained ports; nothing else changed its shape. */
  ghost predicate Enlarged(s: Patch, r: Patch, missing: set<int>) {
    && r.faces.Keys == s.faces.Keys && r.plugs.Keys == s.plugs.Keys && Synced(r)
    && (forall k :: k in s.faces ==>
          && s.faces[k].inputs <= r.faces[k].inputs && s.faces[k].outputs <= r.faces[k].outputs
          && (k !in missing ==> s.faces[k].inputs == r.faces[k].inputs && s.faces[k].outputs == r.faces[k].outputs))
  }

  /** An end a saved wire may have: a port of a real device, or one below the limit
      at a stand-in. */
  ghost predicate Ready(s: Patch, missing: set<int>, e: End) {
    && e.id in s.faces && e.id in s.plugs
    && (if e.id in missing then 0 <= e.port < MOST_PORTS else OnFace(s, e))
  }

  lemma OutgrownIsAsked(s: Patch, missing: set<int>, e: End)
    requires Noted(s, missing, e)
    ensures Outgrown(s, missing, e) <==> !Enough(s, e.id, WantInputs(s.plugs[e.id], e), WantOutputs(s.plugs[e.id], e))
  {
  }

  /** One end: its port is there, and if the stand-in had to grow its wires are gone. */
  lemma NotePortEnlarges(s: Patch, missing: set<int>, e: End)
    requires Synced(s)
    ensures var r := NotePort(s, missing, e);
            && Enlarged(s, r, missing) && (Ready(s, missing, e) ==> OnFace(r, e))
            && r.wires == KeepApart(s.wires, OutgrownIds(s, missing, [e]))
            && r.pending in {s.pending, NO_WIRE}
  {
    if Noted(s, missing, e) {
      EnsurePortsGrows(s, e.id, WantInputs(s.plugs[e.id], e), WantOutputs(s.plugs[e.id], e));
      OutgrownIsAsked(s, missing, e);
    }
    if Outgrown(s, missing, e) {
      assert [e][0] == e;
      assert OutgrownIds(s, missing, [e]) == {e.id};
      ApartFromOne(s.wires, e.id);
    } else {
      assert OutgrownIds(s, missing, [e]) == {};
      ApartFromNone(s.wires, {});
    }
  }

  ghost predicate AllReady(s: Patch, missing: set<int>, es: seq<End>) {
    forall i :: 0 <= i < |es| ==> Ready(s, missing, es[i])
  }

  /** Growing at one end leaves a later end wanting to grow the same devices, the one just
      grown aside. */
  lemma OutgrownStays(s: Patch, missing: set<int>, e: End, d: End)
    requires Synced(s)
    ensures var r := NotePort(s, missing, e);
            && (Outgrown(r, missing, d) ==> Outgrown(s, missing, d))
            && (Outgrown(s, missing, d) ==> Outgrown(r, missing, d) || (Outgrown(s, missing, e) && d.id == e.id))
  {
    if Noted(s, missing, e) {
      EnsurePortsGrows(s, e.id, WantInputs(s.plugs[e.id], e), WantOutputs(s.plugs[e.id], e));
      OutgrownIsAsked(s, missing, e);
    }
    NotePortEnlarges(s, missing, e);
    if Noted(s, missing, d) { SizesAre(s, NotePort(s, missing, e), d.id); }
  }

  lemma SizesAre(s: Patch, r: Patch, id: int)
    requires Synced(s) && Synced(r) && id in s.faces && id in s.plugs && id in r.faces && id in r.plugs
    ensures |s.plugs[id].sockets| == s.faces[id].inputs && |s.plugs[id].buffers| == s.faces[id].outputs
    ensures |r.plugs[id].sockets| == r.faces[id].inputs && |r.plugs[id].buffers| == r.faces[id].outputs
  {
  }

  lemma OutgrownIdsStep(s: Patch, missing: set<int>, es: seq<End>)
    requires Synced(s) && es != []
    ensures OutgrownIds(s, missing, es)
            == OutgrownIds(s, missing, [es[0]]) + OutgrownIds(NotePort(s, missing, es[0]), missing, es[1..])
  {
    var r := NotePort(s, missing, es[0]);
    var all, one := OutgrownIds(s, missing, es), OutgrownIds(s, missing, [es[0]]);
    var more := OutgrownIds(r, missing, es[1..]);
    forall i | 0 <= i < |es| && Outgrown(s, missing, es[i]) ensures es[i].id in one + more {
      OutgrownStays(s, missing, es[0], es[i]);
      if i > 0 { assert es[i] == es[1..][i - 1]; }
      assert [es[0]][0] == es[0];
    }
    forall i | 0 <= i < |es[1..]| && Outgrown(r, missing, es[1..][i]) ensures es[1..][i].id in all {
      OutgrownStays(s, missing, es[0], es[i + 1]);
    }
    assert one <= all;
  }

  lemma StillReady(s: Patch, r: Patch, missing: set<int>, e: End)
    requires Enlarged(s, r, missing)
    ensures Ready(s, missing, e) ==> Ready(r, missing, e)
    ensures OnFace(s, e) ==> OnFace(r, e)
  {
  }

  /** After the first pass every end that could be had is there. The wires that were on the
      canvas are still there in their order, but for those at a stand-in the list outgrew. */
  lemma {:induction false} NotePortsEnlarge(s: Patch, missing: set<int>, es: seq<End>)
    requires Synced(s)
    ensures var r := NotePorts(s, missing, es);
            && Enlarged(s, r, missing)
            && (forall i :: 0 <= i < |es| && Ready(s, missing, es[i]) ==> OnFace(r, es[i]))
            && r.wires == KeepApart(s.wires, OutgrownIds(s, missing, es))
            && r.pending in {s.pending, NO_WIRE}
    decreases |es|
  {
    if es == [] {
      assert OutgrownIds(s, missing, es) == {};
      ApartFromNone(s.wires, {});
    } else {
      var t, r := NotePort(s, missing, es[0]), NotePorts(s, missing, es);
      NotePortEnlarges(s, missing, es[0]);
      NotePortsEnlarge(t, missing, es[1..]);
      OutgrownIdsStep(s, missing, es);
      ApartTwice(s.wires, OutgrownIds(s, missing, [es[0]]), OutgrownIds(t, missing, es[1..]));
      forall i | 0 <= i < |es| && Ready(s, missing, es[i]) ensures OnFace(r, es[i]) {
        StillReady(s, t, missing, es[i]);
        StillReady(t, r, missing, es[i]);
        if i > 0 { assert es[i] == es[1..][i - 1]; }
      }
    }
  }

  lemma {:induction false} EndsAt(ws: seq<Wire>, i: nat)
    requires i < |ws|
    ensures |Ends(ws)| == 2 * |ws| && Ends(ws)[2 * i] == OutEnd(ws[i]) && Ends(ws)[2 * i + 1] == InEnd(ws[i])
  {
    EndsSplit(ws);
    if |ws| == 1 {
      assert ws[1..] == [];
    } else if i > 0 {
      EndsAt(ws[1..], i - 1);
    } else {
      EndsAt(ws[1..], 0);
    }
  }

  lemma NoteAllEnlarges(s: Patch, missing: set<int>, ws: seq<Wire>)
    requires Synced(s)
    ensures var r := NoteAll(s, missing, ws);
            && Enlarged(s, r, missing)
            && (AllReady(s, missing, Ends(ws)) ==> forall i :: 0 <= i < |ws| ==> PortsExist(r, ws[i]))
            && r.wires == KeepApart(s.wires, OutgrownIds(s, missing, Ends(ws)))
            && r.pending in {s.pending, NO_WIRE}
  {
    NoteAllIs(s, missing, ws);
    NotePortsEnlarge(s, missing, Ends(ws));
    if AllReady(s, missing, Ends(ws)) {
      forall i | 0 <= i < |ws| ensures PortsExist(NoteAll(s, missing, ws), ws[i]) {
        EndsAt(ws, i);
        assert Ready(s, missing, Ends(ws)[2 * i]) && Ready(s, missing, Ends(ws)[2 * i + 1]);
      }
    }
  }

  lemma LoadWireLays(s: Patch, ws: seq<Wire>)
    requires ws != [] && forall i :: 0 <= i < |ws| ==> PortsExist(s, ws[i])
    ensures var t := LoadWire(s, ws[0]);
            && t == Connect(s, ws[0]) && t.wires == s.wires + [ws[0]] && SameShape(s, t) && t.pending == s.pending
            && (forall i :: 0 <= i < |ws[1..]| ==> PortsExist(t, ws[1..][i]))
  {
    var t := LoadWire(s, ws[0]);
    assert PortsExist(s, ws[0]);
    ConnectShape(s, ws[0]);
    forall i | 0 <= i < |ws[1..]| ensures PortsExist(t, ws[1..][i]) { assert PortsExist(s, ws[i + 1]); }
  }

  /** The second pass then skips nothing and keeps the order. */
  lemma {:induction false} LoadAllRestores(s: Patch, ws: seq<Wire>)
    requires forall i :: 0 <= i < |ws| ==> PortsExist(s, ws[i])
    ensures LoadAll(s, ws).wires == s.wires + ws && SameShape(s, LoadAll(s, ws))
    decreases |ws|
  {
    if ws != [] {
      var t, r := LoadWire(s, ws[0]), LoadAll(s, ws);
      LoadWireLays(s, ws);
      LoadAllRestores(t, ws[1..]);
      ShapeThrough(s, t, r);
      OneByOne(s.wires, ws);
    } else {
      assert s.wires + ws == s.wires;
    }
  }

  lemma ShapeThrough(s: Patch, t: Patch, r: Patch)
    requires SameShape(s, t) && SameShape(t, r)
    ensures SameShape(s, r)
  {
  }

  lemma OneByOne(have: seq<Wire>, ws: seq<Wire>)
    requires ws != []
    ensures have + ws == (have + [ws[0]]) + ws[1..]
  {
  }

  /** A saved list read into its devices, by both readers in turn, in any format and with any
      stand-ins on the canvas: every wire of the list comes back in order and none is skipped.
      Of the wires that were there, exactly those at a stand-in the list outgrew are gone. */
  lemma ReadersRestoreEveryWire(s: Patch, missing: set<int>, f: Format, ws: seq<Wire>, rest: Tokens, merge: bool,
                                ids: map<int, int>)
    requires Synced(s)
    requires forall i :: 0 <= i < |ws| && (merge || f.Clipboard?) ==> RenamedAlike(ids, ws[i])
    requires AllReady(s, missing, Ends(Laid(f, ws, merge || f.Clipboard?, ids)))
    ensures var c, laid := Cursor(File(f, ws, rest), false), Laid(f, ws, merge || f.Clipboard?, ids);
            var t := GrowUnavailablePorts(s, missing, c, merge, f.Clipboard?, ids);
            StreamWiresIn(t, c, merge, f.Clipboard?, ids).wires
            == KeepApart(s.wires, OutgrownIds(s, missing, Ends(laid))) + laid
  {
    var remap := merge || f.Clipboard?;
    var laid := Laid(f, ws, remap, ids);
    var t := NoteAll(s, missing, laid);
    BothReadersAgree(s, missing, f, ws, rest, merge, ids);
    BothReadersAgree(t, missing, f, ws, rest, merge, ids);
    NoteAllBlind(s, missing, AskedFor(ws, remap, ids), laid);
    NoteAllEnlarges(s, missing, laid);
    LoadAllRestores(t, laid);
  }

  // ------------------------------------------------ a sound patch stays sound

  lemma NotePortGood(s: Patch, missing: set<int>, e: End)
    requires Good(s)
    ensures Good(NotePort(s, missing, e))
  {
    if Noted(s, missing, e) {
      EnsurePortsGood(s, e.id, WantInputs(s.plugs[e.id], e), WantOutputs(s.plugs[e.id], e));
    }
  }

  lemma {:induction false} NoteAllGood(s: Patch, missing: set<int>, ws: seq<Wire>)
    requires Good(s)
    ensures Good(NoteAll(s, missing, ws))
    decreases |ws|
  {
    if ws != [] {
      NotePortGood(s, missing, OutEnd(ws[0]));
      NotePortGood(NotePort(s, missing, OutEnd(ws[0])), missing, InEnd(ws[0]));
      NoteAllGood(NoteWire(s, missing, ws[0]), missing, ws[1..]);
    }
  }

  /** Every input of the list is free, and the list asks for each only once. */
  ghost predicate InputsFree(have: seq<Wire>, ws: seq<Wire>) {
    && (forall i :: 0 <= i < |ws| ==> Load(have, InEnd(ws[i])) == 0)
    && (forall i, j :: 0 <= i < j < |ws| ==> InEnd(ws[i]) != InEnd(ws[j]))
  }

  lemma FreeAfterOne(have: seq<Wire>, ws: seq<Wire>)
    requires ws != [] && InputsFree(have, ws)
    ensures InputsFree(have + [ws[0]], ws[1..])
  {
    forall i | 0 <= i < |ws[1..]| ensures Load(have + [ws[0]], InEnd(ws[1..][i])) == 0 {
      LoadAppend(have, ws[0], InEnd(ws[i + 1]));
      assert InEnd(ws[0]) != InEnd(ws[i + 1]);
    }
  }

  lemma PortsFit(s: Patch, w: Wire)
    requires Synced(s) && PortsExist(s, w)
    ensures Fits(s, w)
  {
  }

  /** The half-drawn wire waits at none of the inputs of the list. */
  ghost predicate Aside(pending: Wire, ws: seq<Wire>) {
    pending.inId == -1 || forall i :: 0 <= i < |ws| ==> InEnd(ws[i]) != InEnd(pending)
  }

  lemma LoadOneGood(s: Patch, ws: seq<Wire>)
    requires ws != [] && Good(s) && Aside(s.pending, ws) && InputsFree(s.wires, ws) && PortsExist(s, ws[0])
    ensures Good(Connect(s, ws[0]))
  {
    PortsFit(s, ws[0]);
    ConnectGood(s, ws[0]);
  }

  lemma AsideRest(pending: Wire, ws: seq<Wire>)
    requires ws != [] && Aside(pending, ws)
    ensures Aside(pending, ws[1..])
  {
  }

  lemma {:induction false} LoadFreeGood(s: Patch, ws: seq<Wire>)
    requires Good(s) && Aside(s.pending, ws) && InputsFree(s.wires, ws)
    requires forall i :: 0 <= i < |ws| ==> PortsExist(s, ws[i])
    ensures Good(LoadAll(s, ws))
    decreases |ws|
  {
    if ws != [] {
      LoadWireLays(s, ws);
      LoadOneGood(s, ws);
      FreeAfterOne(s.wires, ws);
      AsideRest(s.pending, ws);
      LoadFreeGood(LoadWire(s, ws[0]), ws[1..]);
    }
  }

  /** Two wires at one input, or one at an input that has one already. */
  lemma CrowdedInput(have: seq<Wire>, ws: seq<Wire>)
    requires !InputsFree(have, ws)
    ensures !OneWirePerInput(have + ws)
  {
    if i :| 0 <= i < |ws| && Load(have, InEnd(ws[i])) != 0 {
      LoadConcat(have, ws, InEnd(ws[i]));
      LoadZero(ws, i, InEnd(ws[i]));
      assert Load(have + ws, In(ws[i].inId, ws[i].inPort)) >= 2;
    } else {
      var i, j :| 0 <= i < j < |ws| && InEnd(ws[i]) == InEnd(ws[j]);
      LoadConcat(have, ws, InEnd(ws[i]));
      LoadTwo(ws, i, j, InEnd(ws[i]));
      assert Load(have + ws, In(ws[i].inId, ws[i].inPort)) >= 2;
    }
  }

  /** Loading checks no input for being free: a list with all its ports leaves a sound patch
      if and only if every input it names is free and named once. */
  lemma LoadAllGood(s: Patch, ws: seq<Wire>)
    requires Good(s) && Aside(s.pending, ws) && forall i :: 0 <= i < |ws| ==> PortsExist(s, ws[i])
    ensures Good(LoadAll(s, ws)) <==> InputsFree(s.wires, ws)
  {
    if InputsFree(s.wires, ws) {
      LoadFreeGood(s, ws);
    } else {
      LoadAllRestores(s, ws);
      CrowdedInput(s.wires, ws);
    }
  }
}
