/**
 The sequencer's data: notes in patterns, patterns played by sequences, and the track
 that holds both. Values only; Sequencer ties the program's Track to them.
 */
module Scores {
  datatype Note = Note(time: real, length: real, midi: int, vol: real)

  type Pattern = map<int, Note>

  datatype Sequence = Sequence(start: real, pattern: int, colour: int, ypos: int, length: real, channel: int,
                               name: string)

  datatype Score = Score(patterns: map<int, Pattern>, sequences: map<int, Sequence>, next: int)

  const BLANK := Score(map[], map[], 0)

  // -------------------------------------------------- iteration order of a map

  lemma SomeOrEmpty(s: set<int>)
    ensures s == {} || exists a :: a in s
  {
    if forall a :: a !in s { assert s == {}; }
  }

  lemma {:induction false} LeastExists(s: set<int>)
    requires s != {}
    ensures exists x :: x in s && forall y :: y in s ==> x <= y
    decreases |s|
  {
    SomeOrEmpty(s);
    var a :| a in s;
    if s - {a} == {} {
      assert forall y :: y in s ==> y == a || y in s - {a};
    } else {
      LeastExists(s - {a});
      var b :| b in s - {a} && forall y :: y in s - {a} ==> b <= y;
      LeastOfTwo(s, a, b);
    }
  }

  lemma LeastOfTwo(s: set<int>, a: int, b: int)
    requires a in s && b in s - {a} && forall y :: y in s - {a} ==> b <= y
    ensures exists x :: x in s && forall y :: y in s ==> x <= y
  {
    var m := if a <= b then a else b;
    assert m in s && forall y :: y in s ==> y == a || y in s - {a};
  }

  function Least(s: set<int>): (x: int)
    requires s != {}
    ensures x in s && forall y :: y in s ==> x <= y
  {
    LeastExists(s);
    var x :| x in s && forall y :: y in s ==> x <= y;
    x
  }

  function First<T>(m: map<int, T>): (k: int)
    requires m.Keys != {}
    ensures k in m && forall y :: y in m ==> k <= y
  {
    Least(m.Keys)
  }

  function Rest<T>(m: map<int, T>): (r: map<int, T>)
    requires m.Keys != {}
    ensures r.Keys < m.Keys
  {
    m - {First(m)}
  }

  /** What a std::map holds, in the order it is visited: by ascending key. */
  function InOrder<T>(m: map<int, T>): seq<T>
    decreases m.Keys
  {
    if m.Keys == {} then [] else [m[First(m)]] + InOrder(Rest(m))
  }

  /** Stored under `lo`, `lo` + 1 and so on. */
  function Numbered<T>(s: seq<T>, lo: int): (m: map<int, T>)
    ensures forall k :: k in m <==> lo <= k < lo + |s|
  {
    if s == [] then map[] else Numbered(s[1..], lo + 1)[lo := s[0]]
  }

  /** Renumbering keeps what is visited and the order of it. */
  lemma {:induction false} NumberedInOrder<T>(s: seq<T>, lo: int)
    ensures InOrder(Numbered(s, lo)) == s
    decreases |s|
  {
    var m := Numbered(s, lo);
    if s == [] {
      assert m.Keys == {};
    } else {
      assert lo in m;
      assert First(m) == lo;
      assert Rest(m) == Numbered(s[1..], lo + 1);
      NumberedInOrder(s[1..], lo + 1);
    }
  }

  // -------------------------------------------------------------- the edits

  function WithPattern(ps: map<int, Pattern>, id: int): map<int, Pattern> {
    if id in ps then ps else ps[id := map[]]
  }

  function AddSequence(s: Score, id: int): Score {
    if id in s.sequences then s
    else Score(WithPattern(s.patterns, s.next), s.sequences[id := Sequence(0.0, s.next, 0, 1, 10.0, 0, "noname")],
      s.next + 1)
  }

  /** A sequence as good as another: the same pattern, too. */
  function CloneSequence(s: Score, id: int, n: int): Score
    requires id in s.sequences || id == n
  {
    var t := AddSequence(s, n);
    t.(sequences := t.sequences[n := t.sequences[id]])
  }

  /** The next pattern becomes a copy of this one, with its notes renumbered. */
  function CopyPattern(s: Score, from: int): map<int, Pattern>
    requires from in s.patterns
  {
    var ps := WithPattern(s.patterns, s.next);
    ps[s.next := ps[s.next] + Numbered(InOrder(ps[from]), 0)]
  }

  ghost predicate Playable(s: Score, id: int) { id in s.sequences && s.sequences[id].pattern in s.patterns }

  function InstanceSequence(s: Score, id: int): Score
    requires id in s.sequences && s.sequences[id].pattern in s.patterns
  {
    Score(CopyPattern(s, s.sequences[id].pattern), s.sequences[id := s.sequences[id].(pattern := s.next)], s.next + 1)
  }

  /** The settings of one sequence in another, which keeps its pattern. */
  function CopySettings(s: Score, id: int, n: int): Score
    requires id in s.sequences && n in s.sequences
  {
    s.(sequences := s.sequences[n := s.sequences[id].(pattern := s.sequences[n].pattern)])
  }

  function CopySequence(s: Score, id: int, n: int): Score
    requires id in s.sequences || id == n
    requires id in s.sequences ==> s.sequences[id].pattern in s.patterns
  {
    var t := CopySettings(AddSequence(s, n), id, n);
    Score(CopyPattern(t, t.sequences[id].pattern), t.sequences[n := t.sequences[n].(pattern := t.next)], t.next + 1)
  }

  function RemoveSequence(s: Score, id: int): Score { s.(sequences := s.sequences - {id}) }

  function SetPattern(s: Score, id: int, p: Pattern): Score
    requires id in s.sequences
  {
    s.(patterns := s.patterns[s.sequences[id].pattern := p])
  }

  function AddNote(s: Score, id: int, k: int, note: Note): Score
    requires id in s.sequences && s.sequences[id].pattern in s.patterns
  {
    var p := s.patterns[s.sequences[id].pattern];
    if k in p then s else SetPattern(s, id, p[k := note])
  }

  function RemoveNote(s: Score, id: int, k: int): Score
    requires id in s.sequences && s.sequences[id].pattern in s.patterns
  {
    SetPattern(s, id, s.patterns[s.sequences[id].pattern] - {k})
  }

  function ChangeNote(s: Score, id: int, k: int, note: Note): Score
    requires id in s.sequences && s.sequences[id].pattern in s.patterns
    requires k in s.patterns[s.sequences[id].pattern]
  {
    SetPattern(s, id, s.patterns[s.sequences[id].pattern][k := note])
  }

  // -------------------------------------------------------------- any run

  /** The pattern ids are 0 up to the next one, and every sequence's pattern is there. */
  ghost predicate Sound(s: Score) {
    && 0 <= s.next
    && (forall p :: p in s.patterns <==> 0 <= p < s.next)
    && (forall id :: id in s.sequences ==> s.sequences[id].pattern in s.patterns)
  }

  datatype Edit =
    | Add(id: int) | Clone(id: int, n: int) | Copy(id: int, n: int) | Instance(id: int) | Remove(id: int)
    | Settings(id: int, colour: int, name: string, length: real, ypos: int, channel: int, start: real)
    | PutNote(id: int, k: int, note: Note) | DropNote(id: int, k: int) | EditNote(id: int, k: int, note: Note)

  /** What an edit is about exists; the program dereferences it unchecked. */
  ghost predicate Targets(s: Score, e: Edit) {
    match e
    case Add(_) => true
    case Clone(id, n) => id in s.sequences || id == n
    case Copy(id, n) => id in s.sequences || id == n
    case Instance(id) => id in s.sequences
    case Remove(_) => true
    case Settings(id, _, _, _, _, _, _) => id in s.sequences
    case PutNote(id, _, _) => id in s.sequences
    case DropNote(id, _) => id in s.sequences
    case EditNote(id, k, _) => Playable(s, id) && k in s.patterns[s.sequences[id].pattern]
  }

  ghost function Apply(s: Score, e: Edit): Score
    requires Sound(s) && Targets(s, e)
  {
    match e
    case Add(id) => AddSequence(s, id)
    case Clone(id, n) => CloneSequence(s, id, n)
    case Copy(id, n) => CopySequence(s, id, n)
    case Instance(id) => InstanceSequence(s, id)
    case Remove(id) => RemoveSequence(s, id)
    case Settings(id, c, n, l, y, ch, st) =>
      s.(sequences := s.sequences[id := Sequence(st, s.sequences[id].pattern, c, y, l, ch, n)])
    case PutNote(id, k, note) => AddNote(s, id, k, note)
    case DropNote(id, k) => RemoveNote(s, id, k)
    case EditNote(id, k, note) => ChangeNote(s, id, k, note)
  }

  lemma ApplySound(s: Score, e: Edit)
    requires Sound(s) && Targets(s, e)
    ensures Sound(Apply(s, e))
  {
    match e
    case Copy(id, n) => CopySound(s, id, n);
    case _ =>
  }

  lemma CopySound(s: Score, id: int, n: int)
    requires Sound(s) && (id in s.sequences || id == n)
    ensures Sound(CopySequence(s, id, n))
  {
    var t := AddSequence(s, n);
    assert Sound(t) && id in t.sequences && n in t.sequences;
    assert Sound(CopySettings(t, id, n));
  }

  /** Every edit of a run finds what it is about. */
  ghost predicate CanRun(s: Score, edits: seq<Edit>)
    requires Sound(s)
    decreases |edits|
  {
    edits == [] || (Targets(s, edits[0]) && (ApplySound(s, edits[0]); CanRun(Apply(s, edits[0]), edits[1..])))
  }

  ghost function Run(s: Score, edits: seq<Edit>): Score
    requires Sound(s) && CanRun(s, edits)
    decreases |edits|
  {
    if edits == [] then s else ApplySound(s, edits[0]); Run(Apply(s, edits[0]), edits[1..])
  }

  /** After any run of edits the pattern ids are exactly 0 up to the next one and every
      sequence has its pattern. */
  lemma {:induction false} EveryRunSound(s: Score, edits: seq<Edit>)
    requires Sound(s) && CanRun(s, edits)
    ensures Sound(Run(s, edits))
    decreases |edits|
  {
    if edits != [] {
      ApplySound(s, edits[0]);
      EveryRunSound(Apply(s, edits[0]), edits[1..]);
    }
  }

  // ------------------------------------------------------------- playback

  /** The condition under which a note sounds. */
  predicate Sounds(note: Note, start: real, t: real) {
    note.time + start < t && note.time + note.length + start > t
  }

  function Heard(notes: seq<Note>, start: real, t: real): seq<Note> {
    if notes == [] then []
    else (if Sounds(notes[0], start, t) then [notes[0]] else []) + Heard(notes[1..], start, t)
  }

  /** What one sequence adds to a reading of its channel. */
  function Part(s: Score, q: Sequence, t: real, channel: int): seq<Note> {
    if q.channel == channel && q.pattern in s.patterns then Heard(InOrder(s.patterns[q.pattern]), q.start, t) else []
  }

  function Parts(s: Score, qs: map<int, Sequence>, t: real, channel: int): seq<Note>
    decreases qs.Keys
  {
    if qs.Keys == {} then [] else Part(s, qs[First(qs)], t, channel) + Parts(s, Rest(qs), t, channel)
  }

  function ReadTrack(s: Score, t: real, channel: int): seq<Note> { Parts(s, s.sequences, t, channel) }

  function PartsOf(s: Score, qs: seq<Sequence>, t: real, channel: int): seq<Note> {
    if qs == [] then [] else Part(s, qs[0], t, channel) + PartsOf(s, qs[1..], t, channel)
  }

  lemma {:induction false} PartsInOrder(s: Score, qs: map<int, Sequence>, t: real, channel: int)
    ensures Parts(s, qs, t, channel) == PartsOf(s, InOrder(qs), t, channel)
    decreases qs.Keys
  {
    if qs.Keys != {} { PartsInOrder(s, Rest(qs), t, channel); }
  }

  /** Two scores that play alike sequence by sequence. */
  lemma {:induction false} PartsAlike(s: Score, qs: map<int, Sequence>, r: Score, vs: map<int, Sequence>, t: real,
                                      channel: int)
    requires qs.Keys == vs.Keys && forall k :: k in qs ==> Part(s, qs[k], t, channel) == Part(r, vs[k], t, channel)
    ensures Parts(s, qs, t, channel) == Parts(r, vs, t, channel)
    decreases qs.Keys
  {
    if qs.Keys != {} {
      assert First(qs) == First(vs);
      assert Rest(qs).Keys == Rest(vs).Keys;
      PartsAlike(s, Rest(qs), r, Rest(vs), t, channel);
    }
  }

  /** What a sequence plays, without its place in time or its channel. */
  function Notes(s: Score, id: int): seq<Note>
    requires id in s.sequences && s.sequences[id].pattern in s.patterns
  {
    InOrder(s.patterns[s.sequences[id].pattern])
  }

  lemma CopyPatternPlays(s: Score, from: int)
    requires from in s.patterns && s.next !in s.patterns
    ensures var ps := CopyPattern(s, from);
            && ps.Keys == s.patterns.Keys + {s.next} && InOrder(ps[s.next]) == InOrder(s.patterns[from])
            && (forall p :: p in s.patterns ==> ps[p] == s.patterns[p])
  {
    var notes := InOrder(s.patterns[from]);
    NumberedInOrder(notes, 0);
    assert map[] + Numbered(notes, 0) == Numbered(notes, 0);
  }

  lemma InstanceKeepsPart(s: Score, id: int, k: int, t: real, channel: int)
    requires Sound(s) && id in s.sequences && k in s.sequences
    ensures Part(InstanceSequence(s, id), InstanceSequence(s, id).sequences[k], t, channel)
            == Part(s, s.sequences[k], t, channel)
  {
    CopyPatternPlays(s, s.sequences[id].pattern);
  }

  /** Giving a sequence its own pattern is inaudible at every time on every channel. */
  lemma InstanceInaudible(s: Score, id: int, t: real, channel: int)
    requires Sound(s) && id in s.sequences
    ensures ReadTrack(InstanceSequence(s, id), t, channel) == ReadTrack(s, t, channel)
  {
    var r := InstanceSequence(s, id);
    forall k | k in s.sequences ensures Part(s, s.sequences[k], t, channel) == Part(r, r.sequences[k], t, channel) {
      InstanceKeepsPart(s, id, k, t, channel);
    }
    assert s.sequences.Keys == r.sequences.Keys;
    PartsAlike(s, s.sequences, r, r.sequences, t, channel);
  }

  lemma CopyIs(s: Score, id: int, n: int)
    requires Sound(s) && id in s.sequences && n != id
    ensures var c := CopySequence(s, id, n);
            && Sound(c) && id in c.sequences && n in c.sequences
            && c.sequences[n].pattern != c.sequences[id].pattern
            && c.patterns[c.sequences[id].pattern] == s.patterns[s.sequences[id].pattern]
            && Notes(c, n) == Notes(s, id)
  {
    CopySound(s, id, n);
    var t := CopySettings(AddSequence(s, n), id, n);
    assert t.next !in t.patterns && t.sequences[id].pattern == s.sequences[id].pattern;
    CopyPatternPlays(t, t.sequences[id].pattern);
  }

  /** A clone follows every later edit of the notes of either; a copy plays the same at
      first and then follows neither. */
  lemma CloneSharesCopyDoesNot(s: Score, id: int, n: int, k: int, note: Note)
    requires Sound(s) && id in s.sequences && n != id
    ensures var c := CloneSequence(s, id, n);
            && Sound(c) && Notes(c, n) == Notes(s, id)
            && Notes(AddNote(c, id, k, note), n) == Notes(AddNote(c, id, k, note), id)
            && Notes(AddNote(c, n, k, note), n) == Notes(AddNote(c, n, k, note), id)
    ensures var c := CopySequence(s, id, n);
            && Sound(c) && Notes(c, n) == Notes(s, id)
            && Notes(AddNote(c, id, k, note), n) == Notes(s, id)
            && Notes(AddNote(c, n, k, note), id) == Notes(s, id)
  {
    CopyIs(s, id, n);
  }
}
