/**
 Track as the program keeps it: two maps and a counter, changed in place. Each method is
 tied to the edit, reading or file of the same name.
 */
module Sequencer {
  import opened Scores
  import opened TrackFile
  import opened Wrappers

  /** Pattern::Copy into an empty pattern: the notes in order, under new ids. */
  method CopyNotes(from: Pattern, into: Pattern) returns (p: Pattern)
    ensures p == into + Numbered(InOrder(from), 0)
  {
    p := into;
    var left, c := from, 0;
    ghost var done: seq<Note> := [];
    NothingAround(InOrder(from));
    while left.Keys != {}
      invariant c == |done| && done + InOrder(left) == InOrder(from)
      invariant p == into + Numbered(done, 0)
      decreases left.Keys
    {
      var note := left[First(left)];
      VisitOne(done, left);
      AddOne(into, done, note);
      p := p[c := note];
      done := done + [note];
      left, c := Rest(left), c + 1;
    }
    NothingAround(done);
  }

  lemma VisitOne<T>(done: seq<T>, left: map<int, T>)
    requires left.Keys != {}
    ensures done + InOrder(left) == (done + [left[First(left)]]) + InOrder(Rest(left))
  {
  }

  lemma NothingAround<T>(a: seq<T>)
    ensures [] + a == a && a + [] == a
  {
  }

  lemma {:induction false} NumberedSnoc<T>(s: seq<T>, lo: int, x: T)
    ensures Numbered(s + [x], lo) == Numbered(s, lo)[lo + |s| := x]
  {
    if s == [] {
      assert [x][1..] == [];
    } else {
      assert (s + [x])[1..] == s[1..] + [x];
      NumberedSnoc(s[1..], lo + 1, x);
    }
  }

  lemma AddOne<T>(m: map<int, T>, s: seq<T>, x: T)
    ensures m + Numbered(s + [x], 0) == (m + Numbered(s, 0))[|s| := x]
  {
    NumberedSnoc(s, 0, x);
  }

  // ------------------------------------------------------- output and input

  /** What a written list followed by the rest of a file reads as. */
  function Put(out: seq<Tok>, rest: Toks): Toks {
    if out == [] then rest else Next(out[0], Put(out[1..], rest))
  }

  lemma {:induction false} PutAll(out: seq<Tok>, more: seq<Tok>, rest: Toks)
    ensures Put(out + more, rest) == Put(out, Put(more, rest))
  {
    if out == [] {
      assert out + more == more;
    } else {
      assert (out + more)[1..] == out[1..] + more;
      PutAll(out[1..], more, rest);
    }
  }

  function NoteText(n: Note): seq<Tok> { [Int(1), Word("note"), Dec(n.time), Dec(n.length), Int(n.midi), Dec(n.vol)] }

  function SequenceText(q: Sequence): seq<Tok> {
    [Int(1), Word("sequence"), Dec(q.start), Int(q.pattern), Int(q.colour)]
    + [Int(q.ypos), Dec(q.length), Int(q.channel), Int(|q.name|), Raw(q.name)]
  }

  lemma Put3(a: Tok, b: Tok, c: Tok, rest: Toks)
    ensures Put([a, b, c], rest) == Next(a, Next(b, Next(c, rest)))
  {
    assert [a, b, c][1..] == [b, c] && [b, c][1..] == [c] && [c][1..] == [];
    assert Put([c], rest) == Next(c, Put([], rest));
  }

  lemma Put5(a: Tok, b: Tok, c: Tok, d: Tok, e: Tok, rest: Toks)
    ensures Put([a, b, c, d, e], rest) == Next(a, Next(b, Next(c, Next(d, Next(e, rest)))))
  {
    assert [a, b, c, d, e][1..] == [b, c, d, e] && [b, c, d, e][1..] == [c, d, e];
    Put3(c, d, e, rest);
  }

  lemma NotePut(n: Note, rest: Toks)
    ensures Put(NoteText(n), rest) == NoteToks(n, rest)
  {
    assert NoteText(n) == [Int(1), Word("note"), Dec(n.time)] + [Dec(n.length), Int(n.midi), Dec(n.vol)];
    PutAll([Int(1), Word("note"), Dec(n.time)], [Dec(n.length), Int(n.midi), Dec(n.vol)], rest);
    Put3(Dec(n.length), Int(n.midi), Dec(n.vol), rest);
    Put3(Int(1), Word("note"), Dec(n.time), Put([Dec(n.length), Int(n.midi), Dec(n.vol)], rest));
  }

  lemma SequencePut(q: Sequence, rest: Toks)
    ensures Put(SequenceText(q), rest) == SequenceToks(q, rest)
  {
    var a := [Int(1), Word("sequence"), Dec(q.start), Int(q.pattern), Int(q.colour)];
    var b := [Int(q.ypos), Dec(q.length), Int(q.channel), Int(|q.name|), Raw(q.name)];
    PutAll(a, b, rest);
    Put5(Int(q.ypos), Dec(q.length), Int(q.channel), Int(|q.name|), Raw(q.name), rest);
    Put5(Int(1), Word("sequence"), Dec(q.start), Int(q.pattern), Int(q.colour), Put(b, rest));
  }

  /** operator<< of a pattern, given what the file holds after it. */
  method StreamPattern(out0: seq<Tok>, p: Pattern, ghost rest: Toks) returns (out: seq<Tok>)
    ensures Put(out, rest) == Put(out0, PatternToks(p, rest))
  {
    ghost var notes := NotesToks(p, rest);
    Put3(Int(1), Word("pattern"), Int(|p|), notes);
    PutAll(out0, [Int(1), Word("pattern"), Int(|p|)], notes);
    out := out0 + [Int(1), Word("pattern"), Int(|p|)];
    var left := p;
    while left.Keys != {}
      invariant Put(out, NotesToks(left, rest)) == Put(out0, PatternToks(p, rest))
      decreases left.Keys
    {
      var note := left[First(left)];
      NotePut(note, NotesToks(Rest(left), rest));
      PutAll(out, NoteText(note), NotesToks(Rest(left), rest));
      out := out + NoteText(note);
      left := Rest(left);
    }
  }

  method StreamPatterns(out0: seq<Tok>, ps: map<int, Pattern>, ghost rest: Toks) returns (out: seq<Tok>)
    ensures Put(out, rest) == Put(out0, PatternsToks(ps, rest))
  {
    out := out0;
    var left := ps;
    while left.Keys != {}
      invariant Put(out, PatternsToks(left, rest)) == Put(out0, PatternsToks(ps, rest))
      decreases left.Keys
    {
      out := StreamPattern(out, left[First(left)], PatternsToks(Rest(left), rest));
      left := Rest(left);
    }
  }

  method StreamSequences(out0: seq<Tok>, qs: map<int, Sequence>, ghost rest: Toks) returns (out: seq<Tok>)
    ensures Put(out, rest) == Put(out0, SequencesToks(qs, rest))
  {
    out := out0;
    var left := qs;
    while left.Keys != {}
      invariant Put(out, SequencesToks(left, rest)) == Put(out0, SequencesToks(qs, rest))
      decreases left.Keys
    {
      var q := left[First(left)];
      SequencePut(q, SequencesToks(Rest(left), rest));
      PutAll(out, SequenceText(q), SequencesToks(Rest(left), rest));
      out := out + SequenceText(q);
      left := Rest(left);
    }
  }

  /** operator>> of a pattern: its notes get the ids 0, 1, 2 ... */
  method ReadPatternIn(c0: Cur, junk: Note) returns (p: Pattern, c: Cur)
    ensures (p, c) == ReadPattern(c0, junk)
  {
    c := AfterWord(AfterInt(c0));
    var num := IntOr(c, 0);
    c := AfterInt(c);
    p := map[];
    ghost var all, done := ReadNotes(c, num, junk), [];
    NothingAround(all.0);
    var n := 0;
    while n < num
      invariant n == |done| && (n <= num || n == 0) && p == Numbered(done, 0)
      invariant var more := ReadNotes(c, num - n, junk); done + more.0 == all.0 && more.1 == all.1
    {
      var read := ReadNote(c, junk);
      Regroup(done, read.0, ReadNotes(c, num - n, junk).0);
      NumberedSnoc(done, 0, read.0);
      p := p[n := read.0];
      done, c, n := done + [read.0], read.1, n + 1;
    }
    NothingAround(done);
  }

  lemma Regroup<T>(a: seq<T>, x: T, more: seq<T>)
    requires more != [] && more[0] == x
    ensures a + more == (a + [x]) + more[1..]
  {
  }

  // -------------------------------------------------------------- the track

  class Track {
    var patterns: map<int, Pattern>
    var sequences: map<int, Sequence>
    var nextPatternId: int

    ghost function View(): Score
      reads this
    {
      Score(patterns, sequences, nextPatternId)
    }

    constructor ()
      ensures View() == BLANK
    {
      patterns, sequences, nextPatternId := map[], map[], 0;
    }

    method AddPattern(id: int)
      modifies this`patterns
      ensures patterns == WithPattern(old(patterns), id)
    {
      if id in patterns {
        return;
      }
      patterns := patterns[id := map[]];
    }

    method AddSequence(id: int)
      modifies this
      ensures View() == Scores.AddSequence(old(View()), id)
    {
      if id in sequences {
        return;
      }
      AddPattern(nextPatternId);
      var q := Sequence(0.0, nextPatternId, 0, 1, 10.0, 0, "noname");
      nextPatternId := nextPatternId + 1;
      sequences := sequences[id := q];
    }

    /** Duplicate the sequence, with a reference to the same pattern. */
    method CloneSequence(id: int, n: int)
      requires id in sequences || id == n
      modifies this
      ensures View() == Scores.CloneSequence(old(View()), id, n)
    {
      AddSequence(n);
      var from := sequences[id];
      sequences := sequences[n := sequences[n].(colour := from.colour, name := from.name, length := from.length,
                                                ypos := from.ypos, pattern := from.pattern, start := from.start,
                                                channel := from.channel)];
    }

    /** A new pattern, under the next id, that copies this one. */
    method NewCopy(from: int) returns (id: int)
      requires from in patterns
      modifies this`patterns, this`nextPatternId
      ensures id == old(nextPatternId) && nextPatternId == id + 1
      ensures patterns == CopyPattern(old(View()), from)
    {
      id := nextPatternId;
      AddPattern(id);
      var p := CopyNotes(patterns[from], patterns[id]);
      patterns := patterns[id := p];
      nextPatternId := nextPatternId + 1;
    }

    /** Duplicate the sequence, and its pattern with it. */
    method CopySequence(id: int, n: int)
      requires id in sequences || id == n
      requires id in sequences ==> sequences[id].pattern in patterns
      modifies this
      ensures View() == Scores.CopySequence(old(View()), id, n)
    {
      AddSequence(n);
      var from := sequences[id];
      sequences := sequences[n := sequences[n].(colour := from.colour, name := from.name, length := from.length,
                                                ypos := from.ypos, start := from.start, channel := from.channel)];
      var copy := NewCopy(sequences[id].pattern);
      sequences := sequences[n := sequences[n].(pattern := copy)];
    }

    method InstanceSequence(id: int)
      requires id in sequences && sequences[id].pattern in patterns
      modifies this
      ensures View() == Scores.InstanceSequence(old(View()), id)
    {
      var copy := NewCopy(sequences[id].pattern);
      sequences := sequences[id := sequences[id].(pattern := copy)];
    }

    method RemoveSequence(id: int)
      modifies this`sequences
      ensures View() == Scores.RemoveSequence(old(View()), id)
    {
      if id !in sequences {
        assert sequences - {id} == sequences;
        return;
      }
      sequences := sequences - {id};
    }

    method AddNote(k: int, id: int, note: Note)
      requires id in sequences && sequences[id].pattern in patterns
      modifies this`patterns
      ensures View() == Scores.AddNote(old(View()), id, k, note)
    {
      var at := sequences[id].pattern;
      if k in patterns[at] {
        return;
      }
      patterns := patterns[at := patterns[at][k := note]];
    }

    method RemoveNote(k: int, id: int)
      requires id in sequences && sequences[id].pattern in patterns
      modifies this`patterns
      ensures View() == Scores.RemoveNote(old(View()), id, k)
    {
      var at := sequences[id].pattern;
      if k !in patterns[at] {
        assert patterns[at] - {k} == patterns[at];
        assert patterns[at := patterns[at]] == patterns;
        return;
      }
      patterns := patterns[at := patterns[at] - {k}];
    }

    method ChangeNote(k: int, id: int, note: Note)
      requires id in sequences && sequences[id].pattern in patterns
      requires k in patterns[sequences[id].pattern]
      modifies this`patterns
      ensures View() == Scores.ChangeNote(old(View()), id, k, note)
    {
      var at := sequences[id].pattern;
      patterns := patterns[at := patterns[at][k := note]];
    }

    /** The notes of one pattern that sound now, after those found so far. */
    method HearPattern(p: Pattern, start: real, t: real, found: seq<Note>) returns (notes: seq<Note>)
      ensures notes == found + Heard(InOrder(p), start, t)
    {
      notes := found;
      var left := p;
      while left.Keys != {}
        invariant notes + Heard(InOrder(left), start, t) == found + Heard(InOrder(p), start, t)
        decreases left.Keys
      {
        var n := left[First(left)];
        HearOne(notes, n, InOrder(Rest(left)), start, t);
        if n.time + start < t && n.time + n.length + start > t {
          notes := notes + [n];
        }
        left := Rest(left);
      }
    }

    /** What one sequence adds, after what was found so far. */
    method HearSequence(q: Sequence, t: real, channel: int, found: seq<Note>) returns (notes: seq<Note>)
      requires q.pattern in patterns
      ensures notes == found + Part(View(), q, t, channel)
    {
      notes := found;
      if q.channel == channel {
        notes := HearPattern(patterns[q.pattern], q.start, t, notes);
      }
    }

    /** Every note that sounds at a time on a channel. */
    method ReadTrack(t: real, channel: int) returns (notes: seq<Note>)
      requires forall id :: id in sequences ==> sequences[id].pattern in patterns
      ensures notes == Scores.ReadTrack(View(), t, channel)
    {
      notes := [];
      var left := sequences;
      while left.Keys != {}
        invariant left.Keys <= sequences.Keys && forall id :: id in left ==> left[id] == sequences[id]
        invariant notes + Parts(View(), left, t, channel) == Scores.ReadTrack(View(), t, channel)
        decreases left.Keys
      {
        var q := left[First(left)];
        assert q.pattern in patterns;
        PlayOne(View(), notes, left, t, channel);
        notes := HearSequence(q, t, channel, notes);
        left := Rest(left);
      }
    }

    method StreamOut() returns (out: seq<Tok>)
      ensures Put(out, End) == TrackToks(View())
    {
      ghost var last := Next(Int(nextPatternId), End);
      ghost var middle := Next(Int(|sequences|), SequencesToks(sequences, last));
      Put3(Int(1), Word("track"), Int(|patterns|), PatternsToks(patterns, middle));
      out := StreamPatterns([Int(1), Word("track"), Int(|patterns|)], patterns, middle);
      PutOne(out, Int(|sequences|), SequencesToks(sequences, last));
      out := StreamSequences(out + [Int(|sequences|)], sequences, last);
      PutOne(out, Int(nextPatternId), End);
      out := out + [Int(nextPatternId)];
    }

    /** The pattern loop of operator>>. */
    method PatternsIn(c0: Cur, num: int, junk: Note) returns (c: Cur)
      modifies this`patterns
      ensures var r := ReadPatterns(c0, num, junk);
              patterns == old(patterns) + Numbered(r.0, 0) && c == r.1
    {
      c := c0;
      ghost var all, done := ReadPatterns(c, num, junk), [];
      NothingAround(all.0);
      var id := 0;
      while id < num
        invariant id == |done| && (id <= num || id == 0) && patterns == old(patterns) + Numbered(done, 0)
        invariant var more := ReadPatterns(c, num - id, junk); done + more.0 == all.0 && more.1 == all.1
      {
        var p;
        Regroup(done, ReadPattern(c, junk).0, ReadPatterns(c, num - id, junk).0);
        p, c := ReadPatternIn(c, junk);
        AddOne(old(patterns), done, p);
        patterns := patterns[id := p];
        done, id := done + [p], id + 1;
      }
      NothingAround(done);
    }

    /** The sequence loop of operator>>; `junk` is what the uninitialised fields hold. */
    method SequencesIn(c0: Cur, num: int, junk: int -> Sequence) returns (c: Cur)
      modifies this`sequences
      ensures var r := ReadSequences(c0, num, 0, junk);
              sequences == old(sequences) + Numbered(r.0, 0) && c == r.1
    {
      c := c0;
      ghost var all, done := ReadSequences(c, num, 0, junk), [];
      NothingAround(all.0);
      var id := 0;
      while id < num
        invariant id == |done| && (id <= num || id == 0) && sequences == old(sequences) + Numbered(done, 0)
        invariant var more := ReadSequences(c, num - id, id, junk); done + more.0 == all.0 && more.1 == all.1
      {
        var read := ReadSequence(c, junk(id));
        Regroup(done, read.0, ReadSequences(c, num - id, id, junk).0);
        AddOne(old(sequences), done, read.0);
        sequences := sequences[id := read.0];
        done, c, id := done + [read.0], read.1, id + 1;
      }
      NothingAround(done);
    }

    method StreamIn(file: Toks, junk: int -> Sequence, junkNote: Note)
      modifies this
      ensures View() == Loaded(old(View()), file, junk, junkNote)
    {
      var c := AfterWord(AfterInt(Cur(file, false)));
      var num := IntOr(c, 0);
      c := PatternsIn(AfterInt(c), num, junkNote);
      num := IntOr(c, 0);
      c := SequencesIn(AfterInt(c), num, junk);
      nextPatternId := IntOr(c, nextPatternId);
      nextPatternId := |patterns|;
    }
  }

  lemma HearOne(found: seq<Note>, n: Note, more: seq<Note>, start: real, t: real)
    ensures found + Heard([n] + more, start, t) ==
            (if Sounds(n, start, t) then found + [n] else found) + Heard(more, start, t)
  {
    assert ([n] + more)[1..] == more;
  }

  lemma PlayOne(s: Score, found: seq<Note>, left: map<int, Sequence>, t: real, channel: int)
    requires left.Keys != {}
    ensures found + Parts(s, left, t, channel) ==
            (found + Part(s, left[First(left)], t, channel)) + Parts(s, Rest(left), t, channel)
  {
    Onto(found, Part(s, left[First(left)], t, channel), Parts(s, Rest(left), t, channel));
  }

  lemma PutOne(out: seq<Tok>, x: Tok, rest: Toks)
    ensures Put(out + [x], rest) == Put(out, Next(x, rest))
  {
    PutAll(out, [x], rest);
    assert [x][1..] == [];
    assert Put([x], rest) == Next(x, Put([], rest));
  }
}
