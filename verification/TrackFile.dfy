/**
 The track as a file: what its writer prints and what its reader makes of it. Patterns,
 notes and sequences are renumbered from zero; what is heard is not changed by that, and
 the file reads back exactly when the names let it.
 */
module TrackFile {
  import Decimals
  import opened Scores

  datatype Tok = Int(i: int) | Dec(r: real) | Word(w: string) | Raw(c: string)

  datatype Toks = End | Next(head: Tok, tail: Toks)

  /** A stream to read from: what is left, and whether an extraction has failed. */
  datatype Cur = Cur(at: Toks, failed: bool)

  // ------------------------------------------------------------------ writing

  function NoteToks(n: Note, rest: Toks): Toks {
    Next(Int(1), Next(Word("note"), Next(Dec(n.time), Next(Dec(n.length), Next(Int(n.midi), Next(Dec(n.vol), rest))))))
  }

  function NotesToks(p: Pattern, rest: Toks): Toks
    decreases p.Keys
  {
    if p.Keys == {} then rest else NoteToks(p[First(p)], NotesToks(Rest(p), rest))
  }

  function PatternToks(p: Pattern, rest: Toks): Toks {
    Next(Int(1), Next(Word("pattern"), Next(Int(|p|), NotesToks(p, rest))))
  }

  function PatternsToks(ps: map<int, Pattern>, rest: Toks): Toks
    decreases ps.Keys
  {
    if ps.Keys == {} then rest else PatternToks(ps[First(ps)], PatternsToks(Rest(ps), rest))
  }

  function SequenceToks(q: Sequence, rest: Toks): Toks {
    Next(Int(1), Next(Word("sequence"), Next(Dec(q.start), Next(Int(q.pattern), Next(Int(q.colour),
      Next(Int(q.ypos), Next(Dec(q.length), Next(Int(q.channel), Next(Int(|q.name|), Next(Raw(q.name), rest))))))))))
  }

  function SequencesToks(qs: map<int, Sequence>, rest: Toks): Toks
    decreases qs.Keys
  {
    if qs.Keys == {} then rest else SequenceToks(qs[First(qs)], SequencesToks(Rest(qs), rest))
  }

  function TrackToks(s: Score): Toks {
    Next(Int(1), Next(Word("track"), Next(Int(|s.patterns|), PatternsToks(s.patterns,
      Next(Int(|s.sequences|), SequencesToks(s.sequences, Next(Int(s.next), End)))))))
  }

  // ------------------------------------------------------------------ reading

  predicate HasInt(c: Cur) { !c.failed && c.at.Next? && c.at.head.Int? }

  predicate HasDec(c: Cur) { !c.failed && c.at.Next? && (c.at.head.Dec? || c.at.head.Int?) }

  /** A variable after an extraction into it: as it was, if that failed. */
  function IntOr(c: Cur, old': int): int { if HasInt(c) then c.at.head.i else old' }

  function DecOr(c: Cur, old': real): real {
    if HasDec(c) then (if c.at.head.Dec? then c.at.head.r else c.at.head.i as real) else old'
  }

  function AfterInt(c: Cur): Cur { if HasInt(c) then Cur(c.at.tail, false) else Cur(c.at, true) }

  function AfterDec(c: Cur): Cur { if HasDec(c) then Cur(c.at.tail, false) else Cur(c.at, true) }

  function AfterWord(c: Cur): Cur {
    if !c.failed && c.at.Next? && !c.at.head.Raw? then Cur(c.at.tail, false) else Cur(c.at, true)
  }

  function ReadNote(c: Cur, junk: Note): (r: (Note, Cur)) {
    var c2 := AfterWord(AfterInt(c));
    var c3 := AfterDec(c2);
    var c4 := AfterDec(c3);
    var c5 := AfterInt(c4);
    (Note(DecOr(c2, junk.time), DecOr(c3, junk.length), IntOr(c4, junk.midi), DecOr(c5, junk.vol)), AfterDec(c5))
  }

  /** The default arguments of the Note constructor are not in play: a failed note is
      whatever the constructor left, here given. */
  function ReadNotes(c: Cur, n: int, junk: Note): (r: (seq<Note>, Cur))
    decreases n
  {
    if n <= 0 then ([], c)
    else
      var (note, c1) := ReadNote(c, junk);
      var (notes, c2) := ReadNotes(c1, n - 1, junk);
      ([note] + notes, c2)
  }

  function ReadPattern(c: Cur, junk: Note): (r: (Pattern, Cur)) {
    var c2 := AfterWord(AfterInt(c));
    var (notes, c3) := ReadNotes(AfterInt(c2), IntOr(c2, 0), junk);
    (Numbered(notes, 0), c3)
  }

  function ReadPatterns(c: Cur, n: int, junk: Note): (r: (seq<Pattern>, Cur))
    decreases n
  {
    if n <= 0 then ([], c)
    else
      var (p, c1) := ReadPattern(c, junk);
      var (ps, c2) := ReadPatterns(c1, n - 1, junk);
      ([p] + ps, c2)
  }

  /** istream::get stops at a newline or after so many characters. */
  function LineLength(s: string, n: int): (k: nat)
    ensures k <= |s|
  {
    if n <= 0 || s == "" || s[0] == '\n' then 0 else 1 + LineLength(s[1..], n - 1)
  }

  /** Nothing for an extraction to stop at. */
  predicate Blank(s: string) { forall i :: 0 <= i < |s| ==> Decimals.Space(s[i]) }

  /** ... and fails if that gives it nothing at all. What it leaves of a name is passed over
      by the next extraction if it is blank, and else stands in its way. */
  function ReadName(c: Cur, size: int, junk: string): (r: (string, Cur)) {
    if c.failed || !c.at.Next? || !c.at.head.Raw? then (junk, Cur(c.at, true))
    else
      var text := c.at.head.c;
      var k := LineLength(text, size);
      (text[..k], Cur(if Blank(text[k..]) then c.at.tail else Next(Raw(text[k..]), c.at.tail), k == 0))
  }

  /** One sequence. The constructor sets start and pattern; the other fields start out
      indeterminate, as `junk`. */
  function ReadSequence(c: Cur, junk: Sequence): (r: (Sequence, Cur)) {
    var c2 := AfterWord(AfterInt(c));
    var c3 := AfterDec(c2);
    var c4 := AfterInt(c3);
    var c5 := AfterInt(c4);
    var c6 := AfterInt(c5);
    var c7 := AfterDec(c6);
    var c8 := AfterInt(c7);
    var (name, c9) := ReadName(AfterInt(c8), IntOr(c8, 0), junk.name);
    (Sequence(DecOr(c2, 0.0), IntOr(c3, 0), IntOr(c4, junk.colour), IntOr(c5, junk.ypos),
              DecOr(c6, junk.length), IntOr(c7, junk.channel), name), c9)
  }

  function ReadSequences(c: Cur, n: int, i: int, junk: int -> Sequence): (r: (seq<Sequence>, Cur))
    decreases n
  {
    if n <= 0 then ([], c)
    else
      var (q, c1) := ReadSequence(c, junk(i));
      var (qs, c2) := ReadSequences(c1, n - 1, i + 1, junk);
      ([q] + qs, c2)
  }

  /** operator>> into a track: read over what is there. */
  function Loaded(s: Score, file: Toks, junk: int -> Sequence, junkNote: Note): Score {
    var c := AfterWord(AfterInt(Cur(file, false)));
    var (ps, c1) := ReadPatterns(AfterInt(c), IntOr(c, 0), junkNote);
    var (qs, c2) := ReadSequences(AfterInt(c1), IntOr(c1, 0), 0, junk);
    var patterns := s.patterns + Numbered(ps, 0);
    Score(patterns, s.sequences + Numbered(qs, 0), |patterns|)
  }

  // ---------------------------------------------------------- what comes back

  lemma NoteReads(n: Note, rest: Toks, junk: Note)
    ensures ReadNote(Cur(NoteToks(n, rest), false), junk) == (n, Cur(rest, false))
  {
  }

  lemma {:induction false} NotesRead(p: Pattern, rest: Toks, junk: Note)
    ensures ReadNotes(Cur(NotesToks(p, rest), false), |p|, junk) == (InOrder(p), Cur(rest, false))
    decreases p.Keys
  {
    if p.Keys != {} {
      NoteReads(p[First(p)], NotesToks(Rest(p), rest), junk);
      NotesRead(Rest(p), rest, junk);
      RestIsOneLess(p);
    }
  }

  lemma RestIsOneLess<T>(m: map<int, T>)
    requires m.Keys != {}
    ensures |Rest(m)| == |m| - 1
  {
    assert Rest(m).Keys == m.Keys - {First(m)};
    assert |m.Keys| == |m| && |Rest(m).Keys| == |Rest(m)|;
  }

  lemma PatternReads(p: Pattern, rest: Toks, junk: Note)
    ensures ReadPattern(Cur(PatternToks(p, rest), false), junk) == (Numbered(InOrder(p), 0), Cur(rest, false))
  {
    NotesRead(p, rest, junk);
  }

  /** The patterns in the order they are visited, each renumbered. */
  function PatternsBack(ps: map<int, Pattern>): seq<Pattern>
    decreases ps.Keys
  {
    if ps.Keys == {} then [] else [Numbered(InOrder(ps[First(ps)]), 0)] + PatternsBack(Rest(ps))
  }

  lemma {:induction false} PatternsRead(ps: map<int, Pattern>, rest: Toks, junk: Note)
    ensures ReadPatterns(Cur(PatternsToks(ps, rest), false), |ps|, junk) == (PatternsBack(ps), Cur(rest, false))
    decreases ps.Keys
  {
    if ps.Keys != {} {
      var c := Cur(PatternsToks(ps, rest), false);
      PatternReads(ps[First(ps)], PatternsToks(Rest(ps), rest), junk);
      PatternsRead(Rest(ps), rest, junk);
      RestIsOneLess(ps);
      assert ReadPatterns(c, |ps|, junk).0 == [ReadPattern(c, junk).0] + PatternsBack(Rest(ps));
    }
  }

  predicate OneLine(s: string) { '\n' !in s }

  /** A name up to its first newline. */
  function Line(s: string): string { s[..LineLength(s, |s|)] }

  /** The reader gets past a name: it does not begin with a newline, is not empty, and nothing
      but blanks come after its first newline. */
  predicate Carries(name: string) { Line(name) != "" && Blank(name[|Line(name)|..]) }

  /** No extraction will succeed any more. */
  predicate Stopped(c: Cur) { c.failed || (c.at.Next? && c.at.head.Raw?) }

  lemma {:induction false} LineLengthIs(s: string)
    ensures LineLength(s, |s|) == |s| <==> OneLine(s)
  {
    if s != "" { LineLengthIs(s[1..]); }
  }

  lemma SequenceReads(q: Sequence, rest: Toks, junk: Sequence)
    ensures var (r, c) := ReadSequence(Cur(SequenceToks(q, rest), false), junk);
            r == q.(name := Line(q.name)) && (if Carries(q.name) then c == Cur(rest, false) else Stopped(c))
  {
  }

  /** Sequences read after the stop: what the constructor set, and what was in memory. */
  function Junked(junk: int -> Sequence, i: int, n: nat): seq<Sequence>
    decreases n
  {
    if n == 0 then [] else [junk(i).(start := 0.0, pattern := 0)] + Junked(junk, i + 1, n - 1)
  }

  lemma {:induction false} StoppedReads(c: Cur, n: nat, i: int, junk: int -> Sequence)
    requires Stopped(c)
    ensures ReadSequences(c, n, i, junk).0 == Junked(junk, i, n)
    decreases n
  {
    if n > 0 {
      var (q, c1) := ReadSequence(c, junk(i));
      assert q == junk(i).(start := 0.0, pattern := 0) && c1.failed;
      StoppedReads(c1, n - 1, i + 1, junk);
    }
  }

  /** What saved sequences are read as, whatever their names. */
  function Got(qs: seq<Sequence>, i: int, junk: int -> Sequence): seq<Sequence> {
    if qs == [] then []
    else
      [qs[0].(name := Line(qs[0].name))] +
      (if Carries(qs[0].name) then Got(qs[1..], i + 1, junk) else Junked(junk, i + 1, |qs| - 1))
  }

  lemma {:induction false} InOrderSize<T>(m: map<int, T>)
    ensures |InOrder(m)| == |m|
    decreases m.Keys
  {
    if m.Keys != {} {
      InOrderSize(Rest(m));
      RestIsOneLess(m);
    } else {
      assert |m.Keys| == |m|;
    }
  }

  lemma {:induction false} SequencesRead(qs: map<int, Sequence>, rest: Toks, i: int, junk: int -> Sequence)
    ensures ReadSequences(Cur(SequencesToks(qs, rest), false), |qs|, i, junk).0 == Got(InOrder(qs), i, junk)
    decreases qs.Keys
  {
    InOrderSize(qs);
    if qs.Keys != {} {
      var q, more := qs[First(qs)], InOrder(Rest(qs));
      var c := Cur(SequencesToks(qs, rest), false);
      var (r, c1) := ReadSequence(c, junk(i));
      SequenceReads(q, SequencesToks(Rest(qs), rest), junk(i));
      RestIsOneLess(qs);
      assert InOrder(qs) == [q] + more && ([q] + more)[1..] == more;
      assert ReadSequences(c, |qs|, i, junk).0 == [r] + ReadSequences(c1, |Rest(qs)|, i + 1, junk).0;
      if Carries(q.name) {
        SequencesRead(Rest(qs), rest, i + 1, junk);
      } else {
        InOrderSize(Rest(qs));
        StoppedReads(c1, |Rest(qs)|, i + 1, junk);
      }
    }
  }

  /** Every name but the last is a non-empty line, and the last a line. */
  predicate NamesReadBack(qs: seq<Sequence>) {
    qs == [] || (OneLine(qs[0].name) && (|qs| == 1 || (qs[0].name != "" && NamesReadBack(qs[1..]))))
  }

  lemma {:induction false} GotBack(qs: seq<Sequence>, i: int, junk: int -> Sequence)
    requires NamesReadBack(qs)
    ensures Got(qs, i, junk) == qs
  {
    if qs != [] {
      LineLengthIs(qs[0].name);
      assert Line(qs[0].name) == qs[0].name;
      if |qs| == 1 {
        assert qs == [qs[0]] && qs[1..] == [];
      } else {
        assert qs == [qs[0]] + qs[1..];
        GotBack(qs[1..], i + 1, junk);
      }
    }
  }

  /** Indeterminate fields that are wrong: a colour no sequence in turn has. */
  function Off(qs: seq<Sequence>, i: int): Sequence {
    Sequence(0.0, 0, if 0 <= i < |qs| then qs[i].colour + 1 else 0, 0, 0.0, 0, "")
  }

  lemma {:induction false} GotWrong(qs: seq<Sequence>, i: int, junk: int -> Sequence)
    requires !NamesReadBack(qs) && forall k :: 0 <= k < |qs| ==> junk(i + k).colour != qs[k].colour
    ensures Got(qs, i, junk) != qs
  {
    var got, rest := Got(qs, i, junk), qs[1..];
    LineLengthIs(qs[0].name);
    if OneLine(qs[0].name) {
      if qs[0].name == "" {
        assert junk(i + 1).colour != qs[1].colour;
        assert got[1] == Junked(junk, i + 1, |qs| - 1)[0];
      } else {
        forall k | 0 <= k < |rest| ensures junk(i + 1 + k).colour != rest[k].colour { assert rest[k] == qs[k + 1]; }
        GotWrong(rest, i + 1, junk);
        assert got[1..] == Got(rest, i + 1, junk);
      }
    } else {
      assert got[0].name != qs[0].name;
    }
  }

  // ------------------------------------------------------ the track, again

  /** The track a file should give back: everything under new numbers. */
  function Renumbered(s: Score): Score {
    Score(Numbered(PatternsBack(s.patterns), 0), Numbered(InOrder(s.sequences), 0), |s.patterns|)
  }

  lemma {:induction false} PatternsBackSize(ps: map<int, Pattern>, lo: int)
    ensures |Numbered(PatternsBack(ps), lo)| == |ps| == |PatternsBack(ps)|
    decreases ps.Keys
  {
    if ps.Keys != {} {
      PatternsBackSize(Rest(ps), lo + 1);
      RestIsOneLess(ps);
      var m := Numbered(PatternsBack(Rest(ps)), lo + 1);
      assert PatternsBack(ps)[1..] == PatternsBack(Rest(ps));
      assert m[lo := PatternsBack(ps)[0]].Keys == m.Keys + {lo};
      assert |m.Keys| == |m|;
      assert |m[lo := PatternsBack(ps)[0]].Keys| == |m[lo := PatternsBack(ps)[0]]|;
    } else {
      assert |ps.Keys| == |ps|;
    }
  }

  lemma NumberedApart<T>(a: seq<T>, b: seq<T>)
    requires Numbered(a, 0) == Numbered(b, 0)
    ensures a == b
  {
    NumberedInOrder(a, 0);
    NumberedInOrder(b, 0);
  }

  lemma OverNothing<T>(m: map<int, T>)
    ensures map[] + m == m
  {
  }

  lemma HeadReads(n: int, rest: Toks)
    ensures var c := AfterWord(AfterInt(Cur(Next(Int(1), Next(Word("track"), Next(Int(n), rest))), false)));
            IntOr(c, 0) == n && AfterInt(c) == Cur(rest, false)
  {
  }

  lemma FileReads(s: Score, junk: int -> Sequence, junkNote: Note)
    ensures Loaded(BLANK, TrackToks(s), junk, junkNote) ==
            Score(Numbered(PatternsBack(s.patterns), 0), Numbered(Got(InOrder(s.sequences), 0, junk), 0), |s.patterns|)
  {
    var tail := Next(Int(|s.sequences|), SequencesToks(s.sequences, Next(Int(s.next), End)));
    HeadReads(|s.patterns|, PatternsToks(s.patterns, tail));
    PatternsRead(s.patterns, tail, junkNote);
    OverNothing(Numbered(PatternsBack(s.patterns), 0));
    OverNothing(Numbered(Got(InOrder(s.sequences), 0, junk), 0));
    PatternsBackSize(s.patterns, 0);
    SequencesRead(s.sequences, Next(Int(s.next), End), 0, junk);
  }

  lemma ReloadIs(s: Score, junk: int -> Sequence, junkNote: Note)
    ensures Loaded(BLANK, TrackToks(s), junk, junkNote) == Renumbered(s)
            <==> Got(InOrder(s.sequences), 0, junk) == InOrder(s.sequences)
  {
    FileReads(s, junk, junkNote);
    if Numbered(Got(InOrder(s.sequences), 0, junk), 0) == Numbered(InOrder(s.sequences), 0) {
      NumberedApart(Got(InOrder(s.sequences), 0, junk), InOrder(s.sequences));
    }
  }

  lemma ReloadsRight(s: Score, junk: int -> Sequence, junkNote: Note)
    requires NamesReadBack(InOrder(s.sequences))
    ensures Loaded(BLANK, TrackToks(s), junk, junkNote) == Renumbered(s)
  {
    ReloadIs(s, junk, junkNote);
    GotBack(InOrder(s.sequences), 0, junk);
  }

  lemma OffIsOff(qs: seq<Sequence>) returns (junk: int -> Sequence)
    ensures forall k :: 0 <= k < |qs| ==> junk(0 + k).colour != qs[k].colour
  {
    junk := (i: int) => Off(qs, i);
  }

  lemma ReloadsWrong(s: Score, junkNote: Note) returns (junk: int -> Sequence)
    requires !NamesReadBack(InOrder(s.sequences))
    ensures Loaded(BLANK, TrackToks(s), junk, junkNote) != Renumbered(s)
  {
    junk := OffIsOff(InOrder(s.sequences));
    GotWrong(InOrder(s.sequences), 0, junk);
    ReloadIs(s, junk, junkNote);
  }

  /** A saved track comes back, whatever uninitialised fields hold, exactly when every
      name is a line and only the last may be empty. */
  lemma ReloadExact(s: Score, junkNote: Note)
    ensures (forall junk: int -> Sequence :: Loaded(BLANK, TrackToks(s), junk, junkNote) == Renumbered(s))
            <==> NamesReadBack(InOrder(s.sequences))
  {
    if NamesReadBack(InOrder(s.sequences)) {
      forall junk: int -> Sequence ensures Loaded(BLANK, TrackToks(s), junk, junkNote) == Renumbered(s) {
        ReloadsRight(s, junk, junkNote);
      }
    } else {
      var off := ReloadsWrong(s, junkNote);
    }
  }

  // ----------------------------------------------------- and how it plays

  lemma {:induction false} PatternsBackAt(ps: map<int, Pattern>, lo: int, n: int, p: int)
    requires forall k :: k in ps <==> lo <= k < n
    requires p in ps
    ensures p in Numbered(PatternsBack(ps), lo) && Numbered(PatternsBack(ps), lo)[p] == Numbered(InOrder(ps[p]), 0)
    decreases ps.Keys
  {
    assert lo in ps;
    assert First(ps) == lo;
    assert PatternsBack(ps)[1..] == PatternsBack(Rest(ps));
    if p > lo { PatternsBackAt(Rest(ps), lo + 1, n, p); }
  }

  lemma PatternsBackKeys(ps: map<int, Pattern>, n: int)
    requires 0 <= n && forall k :: k in ps <==> 0 <= k < n
    ensures Numbered(PatternsBack(ps), 0).Keys == ps.Keys && |ps| == n
  {
    PatternsBackSize(ps, 0);
    KeysCounted(ps, 0, n);
  }

  lemma {:induction false} PartsOfAlike(s: Score, r: Score, qs: seq<Sequence>, t: real, channel: int)
    requires forall i :: 0 <= i < |qs| ==> Part(s, qs[i], t, channel) == Part(r, qs[i], t, channel)
    ensures PartsOf(s, qs, t, channel) == PartsOf(r, qs, t, channel)
  {
    if qs != [] { PartsOfAlike(s, r, qs[1..], t, channel); }
  }

  lemma PartBack(s: Score, q: Sequence, t: real, channel: int)
    requires Sound(s)
    ensures Part(s, q, t, channel) == Part(Renumbered(s), q, t, channel)
  {
    PatternsBackKeys(s.patterns, s.next);
    if q.pattern in s.patterns {
      PatternsBackAt(s.patterns, 0, s.next, q.pattern);
      NumberedInOrder(InOrder(s.patterns[q.pattern]), 0);
    }
  }

  /** Every id may change on load, but at every time, on every channel, the same notes
      sound in the same order. Sequences keep the pattern number in the file, so this
      rests on the pattern ids having no gap. */
  lemma RenumberingInaudible(s: Score, t: real, channel: int)
    requires Sound(s)
    ensures ReadTrack(Renumbered(s), t, channel) == ReadTrack(s, t, channel)
  {
    var r := Renumbered(s);
    var qs := InOrder(s.sequences);
    PartsInOrder(s, s.sequences, t, channel);
    PartsInOrder(r, r.sequences, t, channel);
    NumberedInOrder(qs, 0);
    forall i | 0 <= i < |qs| ensures Part(s, qs[i], t, channel) == Part(r, qs[i], t, channel) {
      PartBack(s, qs[i], t, channel);
    }
    PartsOfAlike(s, r, qs, t, channel);
  }

  // ------------------------------------------- exactly when a load is inaudible

  /** The sequences after the first name the reader does not get past. */
  function Lost(qs: seq<Sequence>): (r: seq<Sequence>)
    ensures |r| <= |qs|
  {
    if qs == [] then [] else if Carries(qs[0].name) then Lost(qs[1..]) else qs[1..]
  }

  /** No note of the pattern lasts, so none ever sounds. */
  predicate Mute(p: Pattern) { forall k :: k in p ==> p[k].length <= 0.0 }

  predicate AllMute(s: Score, qs: seq<Sequence>) {
    forall i :: 0 <= i < |qs| && qs[i].pattern in s.patterns ==> Mute(s.patterns[qs[i].pattern])
  }

  /** Either nothing is lost, or what is lost and what plays instead of it never sound. */
  predicate LossInaudible(s: Score, qs: seq<Sequence>) {
    Lost(qs) == [] || (AllMute(s, Lost(qs)) && (0 in s.patterns ==> Mute(s.patterns[0])))
  }

  lemma {:induction false} HeardNothing(notes: seq<Note>, start: real, t: real)
    requires forall i :: 0 <= i < |notes| ==> notes[i].length <= 0.0
    ensures Heard(notes, start, t) == []
  {
    if notes != [] { HeardNothing(notes[1..], start, t); }
  }

  lemma MuteHeard(p: Pattern, start: real, t: real)
    requires Mute(p)
    ensures Heard(InOrder(p), start, t) == []
  {
    forall i | 0 <= i < |InOrder(p)| ensures InOrder(p)[i].length <= 0.0 { var k := InOrderFrom(p, i); }
    HeardNothing(InOrder(p), start, t);
  }

  lemma {:induction false} AllMuteHeard(s: Score, qs: seq<Sequence>, t: real, channel: int)
    requires AllMute(s, qs)
    ensures PartsOf(s, qs, t, channel) == []
  {
    if qs != [] {
      if qs[0].pattern in s.patterns { MuteHeard(s.patterns[qs[0].pattern], qs[0].start, t); }
      AllMuteHeard(s, qs[1..], t, channel);
    }
  }

  /** What plays instead of the lost sequences: pattern 0 at time zero, on any channels. */
  lemma {:induction false} JunkedPart(s: Score, junk: int -> Sequence, i: int, n: nat, t: real, channel: int)
    requires n > 0
    ensures var q := junk(i).(start := 0.0, pattern := 0);
            PartsOf(s, Junked(junk, i, n), t, channel) ==
            Part(s, q, t, channel) + PartsOf(s, Junked(junk, i + 1, n - 1), t, channel)
  {
    assert Junked(junk, i, n)[1..] == Junked(junk, i + 1, n - 1);
  }

  lemma {:induction false} JunkedMute(s: Score, junk: int -> Sequence, i: int, n: nat)
    requires 0 in s.patterns ==> Mute(s.patterns[0])
    ensures AllMute(s, Junked(junk, i, n))
    decreases n
  {
    if n > 0 { JunkedMute(s, junk, i + 1, n - 1); }
  }

  lemma {:induction false} JunkedElsewhere(s: Score, junk: int -> Sequence, i: int, n: nat, t: real, channel: int)
    requires forall k :: junk(k).channel != channel
    ensures PartsOf(s, Junked(junk, i, n), t, channel) == []
    decreases n
  {
    if n > 0 {
      JunkedPart(s, junk, i, n, t, channel);
      JunkedElsewhere(s, junk, i + 1, n - 1, t, channel);
    }
  }

  lemma PartsOfCons(s: Score, q: Sequence, qs: seq<Sequence>, t: real, channel: int)
    ensures PartsOf(s, [q] + qs, t, channel) == Part(s, q, t, channel) + PartsOf(s, qs, t, channel)
  {
    assert ([q] + qs)[1..] == qs;
  }

  /** With the loss inaudible, what is read plays what was written. */
  lemma {:induction false} GotPlays(s: Score, qs: seq<Sequence>, i: int, junk: int -> Sequence, t: real, channel: int)
    requires LossInaudible(s, qs)
    ensures PartsOf(s, Got(qs, i, junk), t, channel) == PartsOf(s, qs, t, channel)
  {
    if qs != [] {
      var q := qs[0].(name := Line(qs[0].name));
      assert Part(s, q, t, channel) == Part(s, qs[0], t, channel);
      if Carries(qs[0].name) {
        PartsOfCons(s, q, Got(qs[1..], i + 1, junk), t, channel);
        GotPlays(s, qs[1..], i + 1, junk, t, channel);
      } else {
        PartsOfCons(s, q, Junked(junk, i + 1, |qs| - 1), t, channel);
        if qs[1..] != [] {
          AllMuteHeard(s, qs[1..], t, channel);
          JunkedMute(s, junk, i + 1, |qs| - 1);
          AllMuteHeard(s, Junked(junk, i + 1, |qs| - 1), t, channel);
        }
      }
    }
  }

  /** In any case the two readings differ by the lost part against its replacement. */
  lemma {:induction false} GotCounts(s: Score, qs: seq<Sequence>, i: int, junk: int -> Sequence, t: real, channel: int)
    ensures var n := |Lost(qs)|;
            |PartsOf(s, Got(qs, i, junk), t, channel)| + |PartsOf(s, Lost(qs), t, channel)|
            == |PartsOf(s, qs, t, channel)| + |PartsOf(s, Junked(junk, i + |qs| - n, n), t, channel)|
  {
    if qs != [] {
      var q := qs[0].(name := Line(qs[0].name));
      assert Part(s, q, t, channel) == Part(s, qs[0], t, channel);
      if Carries(qs[0].name) {
        PartsOfCons(s, q, Got(qs[1..], i + 1, junk), t, channel);
        GotCounts(s, qs[1..], i + 1, junk, t, channel);
      } else {
        PartsOfCons(s, q, Junked(junk, i + 1, |qs| - 1), t, channel);
      }
    }
  }

  lemma {:induction false} HeardSomething(notes: seq<Note>, i: nat, start: real, t: real)
    requires i < |notes| && Sounds(notes[i], start, t)
    ensures Heard(notes, start, t) != []
  {
    if i > 0 { HeardSomething(notes[1..], i - 1, start, t); }
  }

  lemma {:induction false} InOrderHas<T>(m: map<int, T>, k: int) returns (i: int)
    requires k in m
    ensures 0 <= i < |InOrder(m)| && InOrder(m)[i] == m[k]
    decreases m.Keys
  {
    if k == First(m) { i := 0; } else { i := InOrderHas(Rest(m), k); i := i + 1; }
  }

  /** A note that lasts is heard in its middle. */
  lemma NotMuteHeard(p: Pattern, start: real) returns (t: real)
    requires !Mute(p)
    ensures Heard(InOrder(p), start, t) != []
  {
    var k :| k in p && p[k].length > 0.0;
    t := p[k].time + start + p[k].length / 2.0;
    var i := InOrderHas(p, k);
    HeardSomething(InOrder(p), i, start, t);
  }

  lemma {:induction false} PartsOfHave(s: Score, qs: seq<Sequence>, i: nat, t: real, channel: int)
    requires i < |qs| && Part(s, qs[i], t, channel) != []
    ensures PartsOf(s, qs, t, channel) != []
  {
    if i > 0 { PartsOfHave(s, qs[1..], i - 1, t, channel); }
  }

  /** A lost sequence that sounded is missed when nothing takes its place on its channel. */
  lemma LostMissed(s: Score, qs: seq<Sequence>, i: nat) returns (junk: int -> Sequence, t: real, channel: int)
    requires i < |Lost(qs)| && Lost(qs)[i].pattern in s.patterns && !Mute(s.patterns[Lost(qs)[i].pattern])
    ensures PartsOf(s, Got(qs, 0, junk), t, channel) != PartsOf(s, qs, t, channel)
  {
    var lost := Lost(qs);
    t := NotMuteHeard(s.patterns[lost[i].pattern], lost[i].start);
    channel := lost[i].channel;
    PartsOfHave(s, lost, i, t, channel);
    var elsewhere := Sequence(0.0, 0, 0, 0, 0.0, channel + 1, "");
    junk := (k: int) => elsewhere;
    JunkedElsewhere(s, junk, |qs| - |lost|, |lost|, t, channel);
    GotCounts(s, qs, 0, junk, t, channel);
  }

  /** Pattern 0, if it sounds, is heard where a silent sequence was. */
  lemma JunkNoticed(s: Score, qs: seq<Sequence>) returns (junk: int -> Sequence, t: real)
    requires Lost(qs) != [] && AllMute(s, Lost(qs)) && 0 in s.patterns && !Mute(s.patterns[0])
    ensures PartsOf(s, Got(qs, 0, junk), t, 0) != PartsOf(s, qs, t, 0)
  {
    var lost := Lost(qs);
    t := NotMuteHeard(s.patterns[0], 0.0);
    AllMuteHeard(s, lost, t, 0);
    var here := Sequence(0.0, 0, 0, 0, 0.0, 0, "");
    junk := (k: int) => here;
    JunkedPart(s, junk, |qs| - |lost|, |lost|, t, 0);
    GotCounts(s, qs, 0, junk, t, 0);
  }

  /** If the loss is audible, some content of the indeterminate fields lets it be heard. */
  lemma LossHeard(s: Score, qs: seq<Sequence>) returns (junk: int -> Sequence, t: real, channel: int)
    requires !LossInaudible(s, qs)
    ensures PartsOf(s, Got(qs, 0, junk), t, channel) != PartsOf(s, qs, t, channel)
  {
    if !AllMute(s, Lost(qs)) {
      var i :| 0 <= i < |Lost(qs)| && Lost(qs)[i].pattern in s.patterns && !Mute(s.patterns[Lost(qs)[i].pattern]);
      junk, t, channel := LostMissed(s, qs, i);
    } else {
      channel := 0;
      junk, t := JunkNoticed(s, qs);
    }
  }

  /** What a loaded track plays, said with the patterns of the saved one. */
  lemma LoadedPlays(s: Score, junk: int -> Sequence, junkNote: Note, t: real, channel: int)
    requires Sound(s)
    ensures ReadTrack(Loaded(BLANK, TrackToks(s), junk, junkNote), t, channel)
            == PartsOf(s, Got(InOrder(s.sequences), 0, junk), t, channel)
    ensures ReadTrack(s, t, channel) == PartsOf(s, InOrder(s.sequences), t, channel)
  {
    var got := Got(InOrder(s.sequences), 0, junk);
    var r := Loaded(BLANK, TrackToks(s), junk, junkNote);
    FileReads(s, junk, junkNote);
    PartsInOrder(s, s.sequences, t, channel);
    PartsInOrder(r, r.sequences, t, channel);
    NumberedInOrder(got, 0);
    forall i | 0 <= i < |got| ensures Part(s, got[i], t, channel) == Part(r, got[i], t, channel) {
      PartBack(s, got[i], t, channel);
    }
    PartsOfAlike(s, r, got, t, channel);
  }

  /** Saving and loading is inaudible, at all times, on all channels and whatever the
      indeterminate fields hold, exactly when the reader gets past every name but the last,
      or else neither the sequences after the first it does not get past nor pattern 0 have
      a note that lasts. */
  lemma InaudibleExact(s: Score, junkNote: Note)
    requires Sound(s)
    ensures (forall junk: int -> Sequence, t: real, channel: int ::
               ReadTrack(Loaded(BLANK, TrackToks(s), junk, junkNote), t, channel) == ReadTrack(s, t, channel))
            <==> LossInaudible(s, InOrder(s.sequences))
  {
    var qs := InOrder(s.sequences);
    if LossInaudible(s, qs) {
      forall junk: int -> Sequence, t: real, channel: int
        ensures ReadTrack(Loaded(BLANK, TrackToks(s), junk, junkNote), t, channel) == ReadTrack(s, t, channel)
      {
        LoadedPlays(s, junk, junkNote, t, channel);
        GotPlays(s, qs, 0, junk, t, channel);
      }
    } else {
      var junk, t, channel := LossHeard(s, qs);
      LoadedPlays(s, junk, junkNote, t, channel);
    }
  }

  /** ... and so after any run of edits on a new track. */
  lemma SaveThenLoadInaudible(edits: seq<Edit>, junkNote: Note)
    requires CanRun(BLANK, edits)
    ensures var s := Run(BLANK, edits);
            (forall junk: int -> Sequence, t: real, channel: int ::
               ReadTrack(Loaded(BLANK, TrackToks(s), junk, junkNote), t, channel) == ReadTrack(s, t, channel))
            <==> LossInaudible(s, InOrder(s.sequences))
  {
    EveryRunSound(BLANK, edits);
    InaudibleExact(Run(BLANK, edits), junkNote);
  }

  lemma PatternAfterLoad(s: Score, i: int)
    requires 0 <= i < |InOrder(s.sequences)|
    requires forall id :: id in s.sequences ==> s.sequences[id].pattern in s.patterns
    ensures Numbered(InOrder(s.sequences), 0)[i].pattern in s.patterns
  {
    NumberedAt(InOrder(s.sequences), 0, i);
    var k := InOrderFrom(s.sequences, i);
  }

  /** What a load leaves can be edited and saved again. */
  lemma RenumberedSound(s: Score)
    requires Sound(s)
    ensures Sound(Renumbered(s)) && Renumbered(s).next == s.next
  {
    var r := Renumbered(s);
    PatternsBackKeys(s.patterns, s.next);
    assert r.patterns.Keys == s.patterns.Keys && r.next == s.next;
    forall i | i in r.sequences ensures r.sequences[i].pattern in r.patterns {
      PatternAfterLoad(s, i);
    }
  }

  lemma {:induction false} NumberedAt<T>(a: seq<T>, lo: int, i: int)
    requires lo <= i < lo + |a|
    ensures Numbered(a, lo)[i] == a[i - lo]
  {
    if i > lo { NumberedAt(a[1..], lo + 1, i); }
  }

  lemma {:induction false} InOrderFrom<T>(m: map<int, T>, i: int) returns (k: int)
    requires 0 <= i < |InOrder(m)|
    ensures k in m && m[k] == InOrder(m)[i]
    decreases m.Keys
  {
    if i == 0 { k := First(m); } else { k := InOrderFrom(Rest(m), i - 1); }
  }

  lemma {:induction false} KeysCounted<T>(m: map<int, T>, lo: int, n: int)
    requires lo <= n && forall p :: p in m <==> lo <= p < n
    ensures |m| == n - lo
    decreases m.Keys
  {
    if lo < n {
      assert lo in m;
      assert First(m) == lo;
      KeysCounted(Rest(m), lo + 1, n);
      RestIsOneLess(m);
    } else {
      SomeOrEmpty(m.Keys);
      assert |m| == |m.Keys|;
    }
  }

  // --------------------------------------------------- when a name is empty

  const NOTE := Note(1.0, 2.0, 60, 1.0)

  /** Two sequences; the first has no name, the second plays one note. */
  const NAMELESS := Score(Numbered([map[], Numbered([NOTE], 0)], 0),
                          Numbered([Sequence(0.0, 0, 0, 1, 10.0, 0, ""), Sequence(0.0, 1, 0, 1, 10.0, 0, "b")], 0), 2)

  /** Then what is heard can change: the second sequence is lost from its channel. */
  lemma NamelessIsLost(junkNote: Note) returns (junk: int -> Sequence)
    ensures Sound(NAMELESS)
    ensures ReadTrack(NAMELESS, 2.0, 0) == [NOTE]
    ensures ReadTrack(Loaded(BLANK, TrackToks(NAMELESS), junk, junkNote), 2.0, 0) == []
  {
    var q0, q1 := Sequence(0.0, 0, 0, 1, 10.0, 0, ""), Sequence(0.0, 1, 0, 1, 10.0, 0, "b");
    var lost := Sequence(0.0, 0, 0, 0, 0.0, 1, "");
    junk := (i: int) => lost;
    NamelessHeard(q0, q1);
    FileReads(NAMELESS, junk, junkNote);
    NumberedInOrder([q0, q1], 0);
    NamelessGot(q0, q1, lost, junk);
    LostUnheard(Loaded(BLANK, TrackToks(NAMELESS), junk, junkNote), q0, lost);
  }

  lemma TwoParts(s: Score, a: Sequence, b: Sequence, t: real, channel: int)
    requires s.sequences == Numbered([a, b], 0)
    ensures ReadTrack(s, t, channel) == Part(s, a, t, channel) + Part(s, b, t, channel)
  {
    PartsInOrder(s, s.sequences, t, channel);
    NumberedInOrder([a, b], 0);
    assert [a, b][1..] == [b] && [b][1..] == [];
    assert PartsOf(s, [b], t, channel) == Part(s, b, t, channel) + PartsOf(s, [], t, channel);
  }

  lemma NamelessHeard(q0: Sequence, q1: Sequence)
    requires NAMELESS.sequences == Numbered([q0, q1], 0)
    requires q0 == Sequence(0.0, 0, 0, 1, 10.0, 0, "") && q1 == Sequence(0.0, 1, 0, 1, 10.0, 0, "b")
    ensures Sound(NAMELESS) && ReadTrack(NAMELESS, 2.0, 0) == [NOTE]
  {
    var ps: seq<Pattern> := [map[], Numbered([NOTE], 0)];
    NumberedAt(ps, 0, 0);
    NumberedAt(ps, 0, 1);
    NumberedAt([q0, q1], 0, 0);
    NumberedAt([q0, q1], 0, 1);
    TwoParts(NAMELESS, q0, q1, 2.0, 0);
    NumberedInOrder([NOTE], 0);
    assert InOrder<Note>(map[]) == [];
    assert [NOTE][1..] == [];
  }

  lemma NamelessGot(q0: Sequence, q1: Sequence, lost: Sequence, junk: int -> Sequence)
    requires q0.name == "" && lost.start == 0.0 && lost.pattern == 0 && forall i :: junk(i) == lost
    ensures Got([q0, q1], 0, junk) == [q0, lost]
  {
    assert Junked(junk, 1, 1) == [lost] + Junked(junk, 2, 0);
  }

  lemma LostUnheard(s: Score, q0: Sequence, lost: Sequence)
    requires s.sequences == Numbered([q0, lost], 0) && s.patterns == Numbered(PatternsBack(NAMELESS.patterns), 0)
    requires q0.pattern == 0 && q0.channel == 0 && lost.channel == 1
    ensures ReadTrack(s, 2.0, 0) == []
  {
    TwoParts(s, q0, lost, 2.0, 0);
    var ps: seq<Pattern> := [map[], Numbered([NOTE], 0)];
    NumberedAt(ps, 0, 0);
    PatternsBackAt(NAMELESS.patterns, 0, 2, 0);
    assert InOrder<Note>(map[]) == [];
    assert InOrder(Numbered<Note>([], 0)) == [];
  }
}
