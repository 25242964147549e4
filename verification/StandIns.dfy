/**
 How many ports a stand-in for a missing plugin ends up with, from the ports it had and the
 ends a saved list names at it.
 */
module StandIns {
  import opened Wrappers
  import opened Wiring
  import opened PatchWires

  /** The inputs, or the outputs, of a device. */
  function Room(s: Patch, id: int, input: bool): nat
    requires id in s.faces
  {
    if input then s.faces[id].inputs else s.faces[id].outputs
  }

  /** The larger of what is there and what is asked for, of which 4096 is the most. */
  function Widened(have: nat, asked: int): nat {
    if asked <= have then have else if have >= 4096 then have else if asked <= 4096 then asked else 4096
  }

  lemma WidenedIs(have: nat, asked: int)
    ensures GrownTo(asked, have) == Widened(have, asked)
  {
  }

  lemma EnsurePortsExact(s: Patch, id: int, inputs: int, outputs: int, k: int, input: bool)
    requires id in s.faces && id in s.plugs && Synced(s) && k in s.faces
    ensures var r := EnsurePorts(s, id, inputs, outputs);
            && k in r.faces
            && Room(r, k, input)
               == if k == id then Widened(Room(s, k, input), if input then inputs else outputs) else Room(s, k, input)
  {
    EnsurePortsGrows(s, id, inputs, outputs);
    WidenedIs(s.faces[id].inputs, inputs);
    WidenedIs(s.faces[id].outputs, outputs);
  }

  /** The end is a port of this kind at this stand-in. */
  predicate Names(s: Patch, missing: set<int>, e: End, k: int, input: bool) {
    e.id == k && e.In? == input && 0 <= e.port && k in missing && k in s.faces && k in s.plugs
  }

  lemma NotePortExact(s: Patch, missing: set<int>, e: End, k: int, input: bool)
    requires Synced(s) && k in s.faces
    ensures var r := NotePort(s, missing, e);
            && Synced(r) && r.faces.Keys == s.faces.Keys && r.plugs.Keys == s.plugs.Keys
            && Room(r, k, input)
               == if Names(s, missing, e, k, input) then Widened(Room(s, k, input), e.port + 1) else Room(s, k, input)
  {
    NotePortEnlarges(s, missing, e);
    if Noted(s, missing, e) {
      var g := s.plugs[e.id];
      EnsurePortsExact(s, e.id, WantInputs(g, e), WantOutputs(g, e), k, input);
    }
  }

  /** As many as before, and as many as the highest named port needs, and no more. */
  ghost predicate AsNamed(s: Patch, missing: set<int>, es: seq<End>, k: int, input: bool, have: nat, room: nat) {
    && have <= room
    && (forall i :: 0 <= i < |es| && Names(s, missing, es[i], k, input) ==> Widened(have, es[i].port + 1) <= room)
    && (room == have
        || exists i :: 0 <= i < |es| && Names(s, missing, es[i], k, input) && room == Widened(have, es[i].port + 1))
  }

  lemma AsNamedStep(s: Patch, t: Patch, missing: set<int>, es: seq<End>, k: int, input: bool, have: nat, mid: nat,
                    room: nat)
    requires es != [] && t.faces.Keys == s.faces.Keys && t.plugs.Keys == s.plugs.Keys
    requires mid == if Names(s, missing, es[0], k, input) then Widened(have, es[0].port + 1) else have
    requires AsNamed(t, missing, es[1..], k, input, mid, room)
    ensures AsNamed(s, missing, es, k, input, have, room)
  {
    forall i | 0 <= i < |es| && Names(s, missing, es[i], k, input) ensures Widened(have, es[i].port + 1) <= room {
      if i > 0 { assert Names(t, missing, es[1..][i - 1], k, input); }
    }
    if room != mid {
      var i :| 0 <= i < |es[1..]| && Names(t, missing, es[1..][i], k, input)
               && room == Widened(mid, es[1..][i].port + 1);
      assert Names(s, missing, es[i + 1], k, input);
    } else if room != have {
      assert Names(s, missing, es[0], k, input);
    }
  }

  lemma {:induction false} NotePortsExact(s: Patch, missing: set<int>, es: seq<End>, k: int, input: bool)
    requires Synced(s) && k in s.faces
    ensures var r := NotePorts(s, missing, es);
            && k in r.faces && AsNamed(s, missing, es, k, input, Room(s, k, input), Room(r, k, input))
    decreases |es|
  {
    if es != [] {
      var t := NotePort(s, missing, es[0]);
      NotePortExact(s, missing, es[0], k, input);
      NotePortsExact(t, missing, es[1..], k, input);
      AsNamedStep(s, t, missing, es, k, input, Room(s, k, input), Room(t, k, input),
        Room(NotePorts(s, missing, es), k, input));
    }
  }

  function EndOf(w: Wire, input: bool): End { if input then InEnd(w) else OutEnd(w) }

  lemma {:induction false} EndWire(ws: seq<Wire>, i: nat) returns (j: nat)
    requires i < |Ends(ws)|
    ensures j < |ws| && (Ends(ws)[i] == OutEnd(ws[j]) || Ends(ws)[i] == InEnd(ws[j]))
  {
    if i < 2 {
      j := 0;
    } else {
      j := EndWire(ws[1..], i - 2);
      j := j + 1;
    }
  }

  ghost predicate AsListed(s: Patch, missing: set<int>, ws: seq<Wire>, k: int, input: bool, have: nat, room: nat) {
    && have <= room
    && (forall i :: 0 <= i < |ws| && Names(s, missing, EndOf(ws[i], input), k, input) ==>
          Widened(have, EndOf(ws[i], input).port + 1) <= room)
    && (room == have
        || exists i :: 0 <= i < |ws| && Names(s, missing, EndOf(ws[i], input), k, input)
                       && room == Widened(have, EndOf(ws[i], input).port + 1))
  }

  lemma AsNamedListed(s: Patch, missing: set<int>, ws: seq<Wire>, es: seq<End>, k: int, input: bool, have: nat,
                      room: nat)
    requires es == Ends(ws) && AsNamed(s, missing, es, k, input, have, room)
    ensures AsListed(s, missing, ws, k, input, have, room)
  {
    forall i | 0 <= i < |ws| && Names(s, missing, EndOf(ws[i], input), k, input)
      ensures Widened(have, EndOf(ws[i], input).port + 1) <= room
    {
      EndsAt(ws, i);
      assert Names(s, missing, es[if input then 2 * i + 1 else 2 * i], k, input);
    }
    if room != have {
      var i :| 0 <= i < |es| && Names(s, missing, es[i], k, input) && room == Widened(have, es[i].port + 1);
      var j := EndWire(ws, i);
      assert Names(s, missing, EndOf(ws[j], input), k, input);
    }
  }

  /** After the first pass over any list every device has exactly the inputs and the outputs it
      had, or if it is a stand-in as many as the highest port the list names at it needs, up to
      4096. */
  lemma NoteAllExact(s: Patch, missing: set<int>, ws: seq<Wire>, k: int, input: bool)
    requires Synced(s) && k in s.faces
    ensures var r := NoteAll(s, missing, ws);
            k in r.faces && AsListed(s, missing, ws, k, input, Room(s, k, input), Room(r, k, input))
  {
    var r := NoteAll(s, missing, ws);
    NoteAllIs(s, missing, ws);
    NotePortsExact(s, missing, Ends(ws), k, input);
    AsNamedListed(s, missing, ws, Ends(ws), k, input, Room(s, k, input), Room(r, k, input));
  }
}
