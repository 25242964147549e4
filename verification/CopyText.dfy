/**
 The copied wires as text: the writer puts a placeholder count first and goes back to
 overwrite it. When that text reads back as what was written, and when it cannot.
 */
module CopyText {
  import opened Wrappers
  import opened Decimals
  import opened Wiring
  import opened PatchWires

  // ------------------------------------------------------------- words of text

  /** Length of the word a text starts with. */
  function WordLength(b: string): (n: nat)
    ensures n <= |b| && (forall i :: 0 <= i < n ==> !Space(b[i]))
    ensures n < |b| ==> Space(b[n])
  {
    if b == "" || Space(b[0]) then 0 else 1 + WordLength(b[1..])
  }

  /** What repeated extraction takes from a text. */
  function Words(b: string): seq<string>
    decreases |b|
  {
    if b == "" then []
    else if Space(b[0]) then Words(b[1..])
    else [b[..WordLength(b)]] + Words(b[WordLength(b)..])
  }

  /** How many characters of a text are in words. */
  function Ink(b: string): nat {
    if b == "" then 0 else (if Space(b[0]) then 0 else 1) + Ink(b[1..])
  }

  function InkOf(ws: seq<string>): nat {
    if ws == [] then 0 else |ws[0]| + InkOf(ws[1..])
  }

  lemma {:induction false} InkSplit(b: string, n: nat)
    requires n <= |b|
    ensures Ink(b) == Ink(b[..n]) + Ink(b[n..])
  {
    if n > 0 {
      InkSplit(b[1..], n - 1);
      assert b[..n][1..] == b[1..][..n - 1] && b[n..] == b[1..][n - 1..];
    } else {
      assert b[0..] == b;
    }
  }

  lemma {:induction false} InkSolid(w: string)
    requires forall i :: 0 <= i < |w| ==> !Space(w[i])
    ensures Ink(w) == |w|
  {
    if w != "" { assert !Space(w[0]); InkSolid(w[1..]); }
  }

  /** No ink is lost or made up by taking words. */
  lemma {:induction false} WordsKeepInk(b: string)
    ensures InkOf(Words(b)) == Ink(b)
    decreases |b|
  {
    if b == "" {
    } else if Space(b[0]) {
      WordsKeepInk(b[1..]);
    } else {
      var n := WordLength(b);
      InkSplit(b, n);
      InkSolid(b[..n]);
      WordsKeepInk(b[n..]);
      assert Words(b)[1..] == Words(b[n..]);
    }
  }

  lemma {:induction false} WordLengthIs(w: string, c: char, rest: string)
    requires forall i :: 0 <= i < |w| ==> !Space(w[i])
    requires Space(c)
    ensures WordLength(w + [c] + rest) == |w|
    decreases |w|
  {
    if w != "" {
      assert (w + [c] + rest)[1..] == w[1..] + [c] + rest;
      assert !Space(w[0]);
      WordLengthIs(w[1..], c, rest);
    }
  }

  /** A word and a space in front. */
  lemma WordFirst(w: string, c: char, rest: string)
    requires Solid(w) && Space(c)
    ensures Words(w + [c] + rest) == [w] + Words(rest)
  {
    var b := w + [c] + rest;
    WordLengthIs(w, c, rest);
    assert b[0] == w[0] && b[..|w|] == w && b[|w|..] == [c] + rest;
    assert ([c] + rest)[1..] == rest;
  }

  // ------------------------------------------------------------ numbers as text

  /** The words as the numbers they are, up to the first that is none. */
  function Numbers(ws: seq<string>): Tokens {
    if ws == [] || Number(ws[0]).None? then PatchWires.End else Next(Number(ws[0]).value, Numbers(ws[1..]))
  }

  // -------------------------------------------------------- the copied records

  /** A number and the character after it. */
  function Field(i: int, c: char, rest: string): string { Text(i) + [c] + rest }

  /** One record of the copy writer, in front of the rest. */
  function Line(w: Wire, rest: string): string {
    Field(w.outId, ' ', Field(0, ' ', Field(w.outPort, ' ', Field(Digit(w.outTerminal), ' ',
      Field(w.inId, ' ', Field(0, ' ', Field(w.inPort, ' ', Field(Digit(w.inTerminal), '\n', rest))))))))
  }

  function Lines(ws: seq<Wire>): string {
    if ws == [] then "" else Line(ws[0], Lines(ws[1..]))
  }

  lemma FieldReads(i: int, c: char, rest: string)
    requires Space(c)
    ensures Words(Field(i, c, rest)) == [Text(i)] + Words(rest)
    ensures Numbers(Words(Field(i, c, rest))) == Next(i, Numbers(Words(rest)))
  {
    WordFirst(Text(i), c, rest);
    NumberOfText(i);
    assert ([Text(i)] + Words(rest))[1..] == Words(rest);
  }

  lemma LineReads(w: Wire, rest: string)
    ensures Numbers(Words(Line(w, rest))) == Record(w, true, Numbers(Words(rest)))
  {
    var r1 := Field(Digit(w.inTerminal), '\n', rest);
    var r2 := Field(w.inPort, ' ', r1);
    var r3 := Field(0, ' ', r2);
    var r4 := Field(w.inId, ' ', r3);
    var r5 := Field(Digit(w.outTerminal), ' ', r4);
    var r6 := Field(w.outPort, ' ', r5);
    var r7 := Field(0, ' ', r6);
    FieldReads(Digit(w.inTerminal), '\n', rest);
    FieldReads(w.inPort, ' ', r1);
    FieldReads(0, ' ', r2);
    FieldReads(w.inId, ' ', r3);
    FieldReads(Digit(w.outTerminal), ' ', r4);
    FieldReads(w.outPort, ' ', r5);
    FieldReads(0, ' ', r6);
    FieldReads(w.outId, ' ', r7);
  }

  lemma {:induction false} LinesRead(ws: seq<Wire>)
    ensures Numbers(Words(Lines(ws))) == Records(ws, true, PatchWires.End)
  {
    if ws != [] {
      LinesRead(ws[1..]);
      LineReads(ws[0], Lines(ws[1..]));
    }
  }

  // ----------------------------------------------------------- the back-patch

  /** Writing at a place of a file puts the text over what is there. */
  function Overwrite(b: string, at: nat, text: string): string
    requires at <= |b|
  {
    b[..at] + text + if at + |text| <= |b| then b[at + |text|..] else ""
  }

  /** StreamSelectionWiresOut, from where the file stood: a placeholder, the records,
      and if there were any, the count written over the start. */
  function CopyBytes(ws: seq<Wire>): string {
    var b := "-1\n" + Lines(ws);
    if ws == [] then b else Overwrite(b, 0, Dec(|ws|) + "\n")
  }

  lemma PatchedOne(n: nat, recs: string)
    requires n < 10
    ensures Words(Overwrite("-1\n" + recs, 0, Dec(n) + "\n")) == [Dec(n)] + Words(recs)
  {
    var d := Dec(n);
    WordFirst(d, '\n', "\n" + recs);
    assert ("\n" + recs)[1..] == recs;
    assert "-1\n" + recs == "-1" + ("\n" + recs);
    PutOver("-1", "\n" + recs, d + "\n");
  }

  lemma PutOver(old': string, rest: string, text: string)
    requires |old'| == |text|
    ensures Overwrite(old' + rest, 0, text) == text + rest
  {
    assert (old' + rest)[|text|..] == rest;
  }

  lemma PatchedTwo(n: nat, recs: string)
    requires 10 <= n < 100
    ensures Words(Overwrite("-1\n" + recs, 0, Dec(n) + "\n")) == [Dec(n)] + Words(recs)
  {
    WordFirst(Dec(n), '\n', recs);
    PutOver("-1\n", recs, Dec(n) + "\n");
  }

  lemma {:induction false} InkTail(b: string, n: nat)
    requires 0 < n <= |b| && !Space(b[0])
    ensures Ink(b[n..]) < Ink(b)
  {
    InkSplit(b, n);
    assert b[..n][0] == b[0];
  }

  lemma WordsDiffer(a: string, b: string)
    requires Ink(a) != Ink(b)
    ensures Words(a) != Words(b)
  {
    WordsKeepInk(a);
    WordsKeepInk(b);
  }

  lemma TailsDiffer(d: string, a: seq<string>, b: seq<string>)
    requires a != b
    ensures [d] + a != [d] + b
  {
    assert ([d] + a)[1..] == a && ([d] + b)[1..] == b;
  }

  /** A count too long for the placeholder runs into the first record. */
  lemma LongCountOver(d: string, recs: string)
    requires 2 < |d| <= |recs|
    ensures Overwrite("-1\n" + recs, 0, d + "\n") == d + ['\n'] + recs[|d| - 2..]
  {
    var b := "-1\n" + recs;
    assert b[|d| + 1..] == recs[|d| - 2..];
  }

  lemma PatchedLong(n: nat, recs: string)
    requires n >= 100 && |recs| >= |Dec(n)| && !Space(recs[0])
    ensures Words(Overwrite("-1\n" + recs, 0, Dec(n) + "\n")) != [Dec(n)] + Words(recs)
  {
    var d := Dec(n);
    var tail := recs[|d| - 2..];
    LongCountOver(d, recs);
    WordFirst(d, '\n', tail);
    InkTail(recs, |d| - 2);
    WordsDiffer(tail, recs);
    TailsDiffer(d, Words(tail), Words(recs));
  }

  lemma {:induction false} LinesLong(ws: seq<Wire>)
    ensures |Lines(ws)| >= 16 * |ws|
    ensures ws != [] ==> !Space(Lines(ws)[0])
  {
    if ws != [] {
      LinesLong(ws[1..]);
      assert Lines(ws)[0] == Text(ws[0].outId)[0];
    }
  }

  lemma {:induction false} DecShort(n: nat)
    ensures |Dec(n)| <= n + 1
  {
    if n >= 10 { DecShort(n / 10); }
  }

  /** The count written over the placeholder leaves every record as it was written
      exactly when there are fewer than a hundred of them. */
  lemma BackPatchSound(ws: seq<Wire>)
    requires ws != []
    ensures Words(CopyBytes(ws)) == [Dec(|ws|)] + Words(Lines(ws)) <==> |ws| < 100
  {
    if |ws| < 100 {
      if |ws| < 10 { PatchedOne(|ws|, Lines(ws)); } else { PatchedTwo(|ws|, Lines(ws)); }
    } else {
      LinesLong(ws);
      DecShort(|ws|);
      PatchedLong(|ws|, Lines(ws));
    }
  }

  /** Below that, the file reads as the numbers of the clipboard format. */
  lemma CopyReadsBack(ws: seq<Wire>)
    requires |ws| < 100
    ensures Numbers(Words(CopyBytes(ws))) == Copied(ws, PatchWires.End)
  {
    LinesRead(ws);
    if ws == [] {
      FieldReads(-1, '\n', "");
      assert Text(-1) == "-1";
      assert CopyBytes(ws) == Field(-1, '\n', "");
    } else {
      BackPatchSound(ws);
      NumberOfText(|ws|);
      assert ([Dec(|ws|)] + Words(Lines(ws)))[1..] == Words(Lines(ws));
    }
  }
}
