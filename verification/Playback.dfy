/**
 What a track plays and what an edit does to it, said note by note: which sounding notes a
 reading collects, in which order, and where an edit is heard.
 */
module Playback {
  import opened Wrappers
  import opened Scores

  /** A note as a sequence plays it: the sequence and the id of the note in its pattern. */
  datatype Spot = Spot(sequence: int, note: int)

  function NoteOf(s: Score, x: Spot): Option<Note> {
    if x.sequence in s.sequences && s.sequences[x.sequence].pattern in s.patterns
       && x.note in s.patterns[s.sequences[x.sequence].pattern]
    then Some(s.patterns[s.sequences[x.sequence].pattern][x.note]) else None
  }

  /** The note is on this channel and its time has come and not passed. */
  predicate SoundsAt(s: Score, x: Spot, t: real, channel: int) {
    && NoteOf(s, x).Some?
    && var q, n := s.sequences[x.sequence], NoteOf(s, x).value;
       q.channel == channel && q.start + n.time < t < q.start + n.time + n.length
  }

  predicate Before(a: Spot, b: Spot) {
    a.sequence < b.sequence || (a.sequence == b.sequence && a.note < b.note)
  }

  ghost predicate Rising(spots: seq<Spot>) { forall i, j :: 0 <= i < j < |spots| ==> Before(spots[i], spots[j]) }

  // ------------------------------------------------------ what a reading collects

  predicate InTime(n: Note, start: real, t: real) { start + n.time < t < start + n.time + n.length }

  function PatternSpots(p: Pattern, id: int, start: real, t: real): seq<Spot>
    decreases p.Keys
  {
    if p.Keys == {} then []
    else (if InTime(p[First(p)], start, t) then [Spot(id, First(p))] else []) + PatternSpots(Rest(p), id, start, t)
  }

  lemma {:induction false} PatternSpotsAre(p: Pattern, id: int, start: real, t: real)
    ensures var spots, notes := PatternSpots(p, id, start, t), Heard(InOrder(p), start, t);
            && |spots| == |notes|
            && (forall i :: 0 <= i < |spots| ==>
                  && spots[i].sequence == id && spots[i].note in p && InTime(p[spots[i].note], start, t)
                  && notes[i] == p[spots[i].note])
    decreases p.Keys
  {
    if p.Keys != {} {
      PatternSpotsAre(Rest(p), id, start, t);
      var here: seq<Spot> := if InTime(p[First(p)], start, t) then [Spot(id, First(p))] else [];
      var more := PatternSpots(Rest(p), id, start, t);
      var notes := Heard(InOrder(Rest(p)), start, t);
      assert InOrder(p)[1..] == InOrder(Rest(p));
      forall i | 0 <= i < |here + more|
        ensures var x := (here + more)[i];
                && x.sequence == id && x.note in p && InTime(p[x.note], start, t)
                && Heard(InOrder(p), start, t)[i] == p[x.note]
      {
        if i >= |here| { assert (here + more)[i] == more[i - |here|]; }
      }
    }
  }

  lemma {:induction false} PatternSpotsRise(p: Pattern, id: int, start: real, t: real)
    ensures Rising(PatternSpots(p, id, start, t))
    decreases p.Keys
  {
    if p.Keys != {} {
      PatternSpotsRise(Rest(p), id, start, t);
      PatternSpotsAre(Rest(p), id, start, t);
    }
  }

  lemma {:induction false} PatternSpotsMissNone(p: Pattern, id: int, start: real, t: real, k: int)
    requires k in p && InTime(p[k], start, t)
    ensures Spot(id, k) in PatternSpots(p, id, start, t)
    decreases p.Keys
  {
    if k != First(p) { PatternSpotsMissNone(Rest(p), id, start, t, k); }
  }

  function PartSpots(s: Score, id: int, q: Sequence, t: real, channel: int): seq<Spot> {
    if q.channel == channel && q.pattern in s.patterns then PatternSpots(s.patterns[q.pattern], id, q.start, t) else []
  }

  function TrackSpots(s: Score, qs: map<int, Sequence>, t: real, channel: int): seq<Spot>
    decreases qs.Keys
  {
    if qs.Keys == {} then []
    else PartSpots(s, First(qs), qs[First(qs)], t, channel) + TrackSpots(s, Rest(qs), t, channel)
  }

  ghost predicate Within(s: Score, qs: map<int, Sequence>) {
    forall id :: id in qs ==> id in s.sequences && s.sequences[id] == qs[id]
  }

  lemma PartSpotsAre(s: Score, id: int, t: real, channel: int, i: nat)
    requires id in s.sequences && i < |PartSpots(s, id, s.sequences[id], t, channel)|
    ensures var spots, notes := PartSpots(s, id, s.sequences[id], t, channel), Part(s, s.sequences[id], t, channel);
            && i < |notes| && spots[i].sequence == id && SoundsAt(s, spots[i], t, channel)
            && notes[i] == NoteOf(s, spots[i]).value
  {
    var q := s.sequences[id];
    PatternSpotsAre(s.patterns[q.pattern], id, q.start, t);
  }

  lemma PartSpotsCount(s: Score, id: int, q: Sequence, t: real, channel: int)
    ensures |PartSpots(s, id, q, t, channel)| == |Part(s, q, t, channel)|
  {
    if q.pattern in s.patterns { PatternSpotsAre(s.patterns[q.pattern], id, q.start, t); }
  }

  lemma {:induction false} TrackSpotsCount(s: Score, qs: map<int, Sequence>, t: real, channel: int)
    ensures |TrackSpots(s, qs, t, channel)| == |Parts(s, qs, t, channel)|
    decreases qs.Keys
  {
    if qs.Keys != {} {
      PartSpotsCount(s, First(qs), qs[First(qs)], t, channel);
      TrackSpotsCount(s, Rest(qs), t, channel);
    }
  }

  lemma {:induction false} TrackSpotsAre(s: Score, qs: map<int, Sequence>, t: real, channel: int, i: nat)
    requires Within(s, qs) && i < |TrackSpots(s, qs, t, channel)|
    ensures var spots, notes := TrackSpots(s, qs, t, channel), Parts(s, qs, t, channel);
            && i < |notes| && spots[i].sequence in qs && SoundsAt(s, spots[i], t, channel)
            && notes[i] == NoteOf(s, spots[i]).value
    decreases qs.Keys
  {
    var id := First(qs);
    var here := PartSpots(s, id, qs[id], t, channel);
    PartSpotsCount(s, id, qs[id], t, channel);
    if i < |here| {
      PartSpotsAre(s, id, t, channel, i);
    } else {
      TrackSpotsAre(s, Rest(qs), t, channel, i - |here|);
    }
  }

  lemma RisingConcat(a: seq<Spot>, b: seq<Spot>)
    requires Rising(a) && Rising(b) && forall i, j :: 0 <= i < |a| && 0 <= j < |b| ==> Before(a[i], b[j])
    ensures Rising(a + b)
  {
  }

  lemma {:induction false} TrackSpotsRise(s: Score, qs: map<int, Sequence>, t: real, channel: int)
    requires Within(s, qs)
    ensures Rising(TrackSpots(s, qs, t, channel))
    decreases qs.Keys
  {
    if qs.Keys != {} {
      var id := First(qs);
      var here, more := PartSpots(s, id, qs[id], t, channel), TrackSpots(s, Rest(qs), t, channel);
      TrackSpotsRise(s, Rest(qs), t, channel);
      if here != [] { PatternSpotsRise(s.patterns[qs[id].pattern], id, qs[id].start, t); }
      assert Rising(here) && Rising(more);
      forall i, j | 0 <= i < |here| && 0 <= j < |more| ensures Before(here[i], more[j]) {
        PartSpotsAre(s, id, t, channel, i);
        TrackSpotsAre(s, Rest(qs), t, channel, j);
      }
      RisingConcat(here, more);
      assert TrackSpots(s, qs, t, channel) == here + more;
    }
  }

  lemma {:induction false} TrackSpotsMissNone(s: Score, qs: map<int, Sequence>, t: real, channel: int, x: Spot)
    requires Within(s, qs) && x.sequence in qs && SoundsAt(s, x, t, channel)
    ensures x in TrackSpots(s, qs, t, channel)
    decreases qs.Keys
  {
    var id := First(qs);
    if x.sequence == id {
      PatternSpotsMissNone(s.patterns[qs[id].pattern], id, qs[id].start, t, x.note);
    } else {
      TrackSpotsMissNone(s, Rest(qs), t, channel, x);
    }
  }

  /** A reading collects every note that sounds, once each, by sequence and then by note id,
      and no other. */
  lemma ReadTrackExact(s: Score, t: real, channel: int) returns (spots: seq<Spot>)
    ensures |spots| == |ReadTrack(s, t, channel)|
    ensures forall i :: 0 <= i < |spots| ==> NoteOf(s, spots[i]) == Some(ReadTrack(s, t, channel)[i])
    ensures Rising(spots)
    ensures forall x :: x in spots <==> SoundsAt(s, x, t, channel)
  {
    spots := TrackSpots(s, s.sequences, t, channel);
    TrackSpotsCount(s, s.sequences, t, channel);
    TrackSpotsRise(s, s.sequences, t, channel);
    forall i | 0 <= i < |spots|
      ensures SoundsAt(s, spots[i], t, channel) && NoteOf(s, spots[i]) == Some(ReadTrack(s, t, channel)[i])
    {
      TrackSpotsAre(s, s.sequences, t, channel, i);
    }
    forall x | SoundsAt(s, x, t, channel) ensures x in spots { TrackSpotsMissNone(s, s.sequences, t, channel, x); }
  }

  // --------------------------------------------------------- where edits are heard

  /** Two sequences play one pattern. */
  predicate Shares(s: Score, a: int, b: int) {
    a in s.sequences && b in s.sequences && s.sequences[a].pattern == s.sequences[b].pattern
  }

  /** An edit of a note is heard at that note in every sequence that plays the pattern, and
      nowhere else. A new note must have a new id. */
  lemma NoteEditsHeard(s: Score, id: int, k: int, note: Note, x: Spot)
    requires Sound(s) && id in s.sequences
    ensures var here := Shares(s, x.sequence, id) && x.note == k;
            && NoteOf(AddNote(s, id, k, note), x) == (if here && NoteOf(s, x).None? then Some(note) else NoteOf(s, x))
            && NoteOf(RemoveNote(s, id, k), x) == (if here then None else NoteOf(s, x))
            && (NoteOf(s, Spot(id, k)).Some? ==>
                  NoteOf(ChangeNote(s, id, k, note), x) == (if here then Some(note) else NoteOf(s, x)))
    ensures AddNote(s, id, k, note).sequences == RemoveNote(s, id, k).sequences == s.sequences
  {
  }

  /** A sequence that is removed is heard no more, and the others as before. */
  lemma RemovedUnheard(s: Score, id: int, x: Spot, t: real, channel: int)
    ensures SoundsAt(RemoveSequence(s, id), x, t, channel) <==> x.sequence != id && SoundsAt(s, x, t, channel)
  {
  }

  /** A new sequence starts at zero on channel zero and has no notes. */
  lemma AddedIsEmpty(s: Score, id: int, x: Spot)
    requires Sound(s) && id !in s.sequences
    ensures var r := AddSequence(s, id);
            && id in r.sequences && r.sequences[id].start == 0.0 && r.sequences[id].channel == 0
            && r.sequences[id].length == 10.0 && r.sequences[id].name == "noname"
            && !(exists q :: q != id && Shares(r, q, id))
            && NoteOf(r, x) == (if x.sequence == id then None else NoteOf(s, x))
  {
  }

  /** What an edit that is not about notes leaves alone: every other sequence, its settings
      and its notes. */
  lemma OthersUntouched(s: Score, e: Edit, x: Spot)
    requires Sound(s) && Targets(s, e) && !e.PutNote? && !e.DropNote? && !e.EditNote?
    requires x.sequence in s.sequences && x.sequence != (if e.Clone? || e.Copy? then e.n else e.id)
    ensures var r := Apply(s, e);
            && x.sequence in r.sequences && r.sequences[x.sequence] == s.sequences[x.sequence]
            && NoteOf(r, x) == NoteOf(s, x)
  {
    match e
    case Copy(id, n) => if id in s.sequences { CopyLeaves(s, id, n, x); } else { CopyNew(s, n, x); }
    case Instance(id) => CopyPatternPlays(s, s.sequences[id].pattern);
    case _ =>
  }

  lemma CopyLeaves(s: Score, id: int, n: int, x: Spot)
    requires Sound(s) && id in s.sequences && x.sequence in s.sequences && x.sequence != n
    ensures var r := CopySequence(s, id, n);
            && x.sequence in r.sequences && r.sequences[x.sequence] == s.sequences[x.sequence]
            && NoteOf(r, x) == NoteOf(s, x)
  {
    var t := CopySettings(AddSequence(s, n), id, n);
    CopyPatternPlays(t, t.sequences[id].pattern);
  }

  lemma CopyNew(s: Score, n: int, x: Spot)
    requires Sound(s) && n !in s.sequences && x.sequence in s.sequences
    ensures var r := CopySequence(s, n, n);
            && x.sequence in r.sequences && r.sequences[x.sequence] == s.sequences[x.sequence]
            && NoteOf(r, x) == NoteOf(s, x)
  {
    var t := CopySettings(AddSequence(s, n), n, n);
    CopyPatternPlays(t, t.sequences[n].pattern);
  }

  /** A clone or a copy has the settings of its model, and a clone its very pattern. */
  lemma CopiesSettings(s: Score, id: int, n: int)
    requires Sound(s) && id in s.sequences
    ensures var c := CloneSequence(s, id, n); n in c.sequences && c.sequences[n] == s.sequences[id]
    ensures var c := CopySequence(s, id, n);
            n in c.sequences && c.sequences[n] == s.sequences[id].(pattern := c.sequences[n].pattern)
  {
  }
}
