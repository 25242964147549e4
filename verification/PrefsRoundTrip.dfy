/**
 Saving and loading the preferences: what comes back, for every setting.
 */
module PrefsRoundTrip {
  import opened Wrappers
  import opened Decimals
  import opened Prefs

  // --------------------------------------------------------- reading one word

  lemma {:induction false} WordReads(w: string, c: char, rest: Chars)
    requires (forall i :: 0 <= i < |w| ==> !Space(w[i])) && Space(c)
    ensures WordOf(Put(w, Next(c, rest))) == w && PastWord(Put(w, Next(c, rest))) == Next(c, rest)
  {
    if w != "" {
      assert !Space(w[0]);
      WordReads(w[1..], c, rest);
    }
  }

  predicate AllSpace(s: string) { forall i :: 0 <= i < |s| ==> Space(s[i]) }

  lemma {:induction false} SpacesSkip(s: string, b: Chars)
    requires AllSpace(s) && b.Next? && !Space(b.c)
    ensures SkipSpaces(Put(s, b)) == b
  {
    if s != "" {
      assert Space(s[0]);
      SpacesSkip(s[1..], b);
    }
  }

  lemma {:induction false} SpacesAre(n: int)
    ensures AllSpace(Spaces(n))
    decreases n
  {
    if n > 0 { SpacesAre(n - 1); }
  }

  /** A word, some space before it and one after it. */
  lemma ExtractReads(space: string, w: string, c: char, rest: Chars)
    requires AllSpace(space) && Solid(w) && Space(c)
    ensures Extract(Fresh(Put(space, Put(w, Next(c, rest))))) == (Some(w), Fresh(Next(c, rest)))
  {
    WordReads(w, c, rest);
    assert Put(w, Next(c, rest)).Next? && !Space(Put(w, Next(c, rest)).c);
    SpacesSkip(space, Put(w, Next(c, rest)));
  }

  /** The same from a space left over by the word before. */
  lemma ExtractAfter(d: char, space: string, w: string, c: char, rest: Chars)
    requires Space(d) && AllSpace(space) && Solid(w) && Space(c)
    ensures Extract(Fresh(Next(d, Put(space, Put(w, Next(c, rest)))))) == (Some(w), Fresh(Next(c, rest)))
  {
    ExtractReads(space, w, c, rest);
    assert SkipSpaces(Next(d, Put(space, Put(w, Next(c, rest))))) == SkipSpaces(Put(space, Put(w, Next(c, rest))));
  }

  lemma PutNothing(b: Chars)
    ensures Put("", b) == b
  {
  }

  lemma PutOne(c: char, b: Chars)
    ensures Put([c], b) == Next(c, b)
  {
    assert [c][1..] == "";
  }

  /** Name and equals sign of a printed line: what is left is a space and the value. */
  lemma LineStarts(name: string, value: string, rest: Chars)
    requires Solid(name) && |name| < 18
    ensures var (w, s1) := Extract(Fresh(PrintLine(name, value, rest)));
            w == Some(name) && Skip(s1) == Fresh(Next(' ', Put(value, Next('\n', rest))))
  {
    var after := Next(' ', Put(value, Next('\n', rest)));
    var k := 18 - |name|;
    assert Spaces(k) == [' '] + Spaces(k - 1) && Spaces(k)[1..] == Spaces(k - 1) && Spaces(k)[0] == ' ';
    var gap := Put(Spaces(k - 1), Next('=', after));
    assert Put(Spaces(k), Next('=', after)) == Next(' ', gap);
    PutNothing(Put(name, Next(' ', gap)));
    ExtractReads("", name, ' ', gap);
    SpacesAre(k - 1);
    PutOne('=', after);
    ExtractAfter(' ', Spaces(k - 1), "=", ' ', Put(value, Next('\n', rest)));
  }

  // ------------------------------------------------------- reading one value

  /** A setting the file can hold: a word for the settings read as words, and for the two
      read as lines anything without a line break. */
  predicate Storable(kind: Kind, k: Key, p: Settings) {
    match kind
    case Whole => true
    case Token => Solid(TextOf(p, k))
    case Line => '\n' !in TextOf(p, k)
    case Trimmed => '\n' !in TextOf(p, k)
  }

  /** What it comes back as. */
  function Back(kind: Kind, k: Key, p: Settings): Value {
    if kind.Whole? then Num(NumOf(p, k)) else Str(Kept(kind, TextOf(p, k)))
  }

  lemma TextIsSolid(n: int)
    ensures Solid(Text(n)) && forall i :: 0 <= i < |Text(n)| ==> !Space(Text(n)[i])
  {
  }

  lemma {:induction false} LineReads(s: string, rest: Chars)
    requires '\n' !in s
    ensures UpTo(Put(s, Next('\n', rest)), '\n') == s && At(Put(s, Next('\n', rest)), '\n') == Next('\n', rest)
  {
    if s != "" {
      assert s[0] in s && forall i :: 0 <= i < |s[1..]| ==> s[1..][i] == s[i + 1];
      LineReads(s[1..], rest);
    }
  }

  lemma WordValue(w: string, rest: Chars)
    requires Solid(w)
    ensures Extract(Fresh(Next(' ', Put(w, Next('\n', rest))))) == (Some(w), Fresh(Next('\n', rest)))
  {
    PutNothing(Put(w, Next('\n', rest)));
    ExtractAfter(' ', "", w, '\n', rest);
  }

  lemma LineValue(s: string, rest: Chars, old': string)
    requires '\n' !in s
    ensures LineThenBack(Fresh(Next(' ', Put(s, Next('\n', rest)))), old') == ([' '] + s, Fresh(Next('\n', rest)))
  {
    var t := [' '] + s;
    assert t[1..] == s && Put(t, Next('\n', rest)) == Next(' ', Put(s, Next('\n', rest)));
    assert '\n' !in t;
    LineReads(t, rest);
  }

  lemma KeptIgnoresGap(kind: Kind, s: string)
    requires kind.Line? || kind.Trimmed?
    ensures Kept(kind, [' '] + s) == Kept(kind, s)
  {
    assert ([' '] + s)[1..] == s;
  }

  lemma ValueReads(kind: Kind, k: Key, p: Settings, q: Settings, rest: Chars)
    requires Storable(kind, k, p)
    ensures ReadValue(kind, k, Fresh(Next(' ', Put(Printed(Entry(k.name, kind), k, p), Next('\n', rest)))), q)
            == (Prefs.Set(q, k, Back(kind, k, p)), Fresh(Next('\n', rest)))
  {
    match kind
    case Whole =>
      TextIsSolid(NumOf(p, k));
      NumberOfText(NumOf(p, k));
      WordValue(Text(NumOf(p, k)), rest);
    case Token => WordValue(TextOf(p, k), rest);
    case Line =>
      LineValue(TextOf(p, k), rest, TextOf(q, k));
      KeptIgnoresGap(kind, TextOf(p, k));
    case Trimmed =>
      LineValue(TextOf(p, k), rest, TextOf(q, k));
      KeptIgnoresGap(kind, TextOf(p, k));
  }

  /** A printed line read as an entry of its section. */
  lemma EntryReads(section: string, e: Entry, p: Settings, q: Settings, rest: Chars)
    requires KindIn(EntriesOf(section), e.name) == Some(e.kind) && Solid(e.name) && |e.name| < 18
    requires Storable(e.kind, Key(section, e.name), p)
    ensures var k := Key(section, e.name);
            ReadEntry(Parser(Fresh(PrintLine(e.name, Printed(e, k, p), rest)), section, q))
            == Parser(Fresh(rest), section, Prefs.Set(q, k, Back(e.kind, k, p)))
  {
    var k := Key(section, e.name);
    LineStarts(e.name, Printed(e, k, p), rest);
    ValueReads(e.kind, k, p, q, rest);
  }

  // ------------------------------------------------------ reading whole sections

  /** A name the parser can tell from a header and from a spacer. */
  predicate Named(name: string) { Solid(name) && |name| < 18 && name[0] != '[' }

  predicate Tabled(section: string, es: seq<Entry>) {
    forall i :: 0 <= i < |es| ==> Named(es[i].name) && KindIn(EntriesOf(section), es[i].name) == Some(es[i].kind)
  }

  predicate AllStorable(section: string, es: seq<Entry>, p: Settings) {
    forall i :: 0 <= i < |es| ==> Storable(es[i].kind, Key(section, es[i].name), p)
  }

  /** The settings after the entries of a section have been read. */
  function Stored(section: string, es: seq<Entry>, p: Settings, q: Settings): Settings {
    if es == [] then q
    else
      var k := Key(section, es[0].name);
      Stored(section, es[1..], p, Prefs.Set(q, k, Back(es[0].kind, k, p)))
  }

  lemma TurnOfEntry(section: string, e: Entry, p: Settings, q: Settings, rest: Chars)
    requires Named(e.name) && KindIn(EntriesOf(section), e.name) == Some(e.kind)
             && Storable(e.kind, Key(section, e.name), p)
    ensures var k := Key(section, e.name);
            Turn(Parser(Fresh(PrintLine(e.name, Printed(e, k, p), rest)), section, q))
            == Parser(Fresh(rest), section, Prefs.Set(q, k, Back(e.kind, k, p)))
  {
    EntryReads(section, e, p, q, rest);
    var b := PrintLine(e.name, Printed(e, Key(section, e.name), p), rest);
    assert b.Next? && b.c == e.name[0] && !Space(b.c);
  }

  lemma {:induction false} EntriesRead(section: string, es: seq<Entry>, p: Settings, q: Settings, rest: Chars)
    requires Tabled(section, es) && AllStorable(section, es, p)
    ensures Loop(Parser(Fresh(PrintEntries(section, es, p, rest)), section, q))
            == Loop(Parser(Fresh(rest), section, Stored(section, es, p, q)))
  {
    if es != [] {
      var k := Key(section, es[0].name);
      TurnOfEntry(section, es[0], p, q, PrintEntries(section, es[1..], p, rest));
      EntriesRead(section, es[1..], p, Prefs.Set(q, k, Back(es[0].kind, k, p)), rest);
    }
  }

  lemma {:induction false} NameReads(s: string, rest: Chars)
    requires ']' !in s
    ensures UpTo(Put(s, Next(']', rest)), ']') == s && At(Put(s, Next(']', rest)), ']') == Next(']', rest)
  {
    if s != "" {
      assert s[0] in s && forall i :: 0 <= i < |s[1..]| ==> s[1..][i] == s[i + 1];
      NameReads(s[1..], rest);
    }
  }

  lemma TurnOfHeader(was: string, section: string, q: Settings, rest: Chars)
    requires ']' !in section && section != PLUGINS
    ensures Turn(Parser(Fresh(Next('[', Put(section, Next(']', Next('\n', rest))))), was, q))
            == Parser(Fresh(rest), section, q)
  {
    NameReads(section, Next('\n', rest));
  }

  lemma SectionReads(was: string, section: string, p: Settings, q: Settings, rest: Chars)
    requires ']' !in section && section != PLUGINS
    requires Tabled(section, EntriesOf(section)) && AllStorable(section, EntriesOf(section), p)
    ensures Loop(Parser(Fresh(PrintSection(section, p, rest)), was, q))
            == Loop(Parser(Fresh(rest), section, Stored(section, EntriesOf(section), p, q)))
  {
    var es := EntriesOf(section);
    TurnOfHeader(was, section, q, PrintEntries(section, es, p, Next('\n', rest)));
    EntriesRead(section, es, p, q, Next('\n', rest));
    var m := Parser(Fresh(Next('\n', rest)), section, Stored(section, es, p, q));
    assert Turn(m) == Parser(Fresh(rest), section, m.p);
  }

  // ----------------------------------------------------------- the plugin list

  predicate Listable(ws: seq<string>) { forall i :: 0 <= i < |ws| ==> Solid(ws[i]) && ws[i] != "end" }

  lemma SpaceBefore(d: char, b: Chars)
    requires Space(d)
    ensures Extract(Fresh(Next(d, b))) == Extract(Fresh(b))
  {
  }

  lemma {:induction false} SpacesBefore(space: string, b: Chars)
    requires AllSpace(space)
    ensures Extract(Fresh(Put(space, b))) == Extract(Fresh(b))
  {
    if space != "" {
      assert Space(space[0]);
      SpaceBefore(space[0], Put(space[1..], b));
      SpacesBefore(space[1..], b);
    }
  }

  function Added(q: Settings, ws: seq<string>): Settings { if UsesList(q) then q.(plugins := q.plugins + ws) else q }

  lemma EndIsWord()
    ensures Solid("end")
  {
    assert "end" == ['e', 'n', 'd'];
  }

  lemma AddedStep(q: Settings, w: string, ws: seq<string>)
    ensures Added(Added(q, [w]), ws) == Added(q, [w] + ws)
    ensures Added(q, []) == q
  {
    assert q.plugins + ([w] + ws) == (q.plugins + [w]) + ws && q.plugins + [] == q.plugins;
  }

  lemma {:induction false} PluginsRead(ws: seq<string>, space: string, st: string, q: Settings)
    requires Listable(ws) && AllSpace(space) && st != "end"
    ensures ReadPlugins(Fresh(Put(space, PrintPlugins(ws))), st, q) == (Added(q, ws), Fresh(Next('\n', End)))
    decreases |ws|
  {
    var w := if ws == [] then "end" else ws[0];
    var after := if ws == [] then End else PrintPlugins(ws[1..]);
    EndIsWord();
    SpacesBefore(space, PrintPlugins(ws));
    PutNothing(PrintPlugins(ws));
    ExtractReads("", w, '\n', after);
    if ws == [] {
      AddedStep(q, w, []);
      assert ReadPlugins(Fresh(Next('\n', End)), "end", q) == (q, Fresh(Next('\n', End)));
    } else {
      PutOne('\n', after);
      PluginsRead(ws[1..], "\n", w, Added(q, [w]));
      AddedStep(q, w, ws[1..]);
      assert [w] + ws[1..] == ws;
    }
  }

  /** Names written out in the program. */
  lemma PluginNames()
    ensures Named("PluginPath") && Named("PluginList") && ']' !in PLUGINS
  {
    assert "PluginPath" == ['P', 'l', 'u', 'g', 'i', 'n', 'P', 'a', 't', 'h'];
    assert "PluginList" == ['P', 'l', 'u', 'g', 'i', 'n', 'L', 'i', 's', 't'];
  }

  function WithPlugins(p: Settings, q: Settings): Settings {
    Added(q.(path := p.path, plugins := []), p.plugins)
  }

  lemma PluginSectionReads(p: Settings, q: Settings)
    requires Solid(p.path) && Listable(p.plugins)
    ensures ReadPluginSection(
              Parser(Fresh(PrintLine("PluginPath", p.path, PrintLine("PluginList", "", PrintPlugins(p.plugins)))),
                     PLUGINS, q))
            == Parser(Fresh(End), PLUGINS, WithPlugins(p, q))
  {
    var list := PrintLine("PluginList", "", PrintPlugins(p.plugins));
    PluginNames();
    LineStarts("PluginPath", p.path, list);
    WordValue(p.path, list);
    SpaceBefore('\n', list);
    LineStarts("PluginList", "", PrintPlugins(p.plugins));
    var gap := " \n";
    assert gap[0] == ' ' && gap[1..] == ['\n'] && AllSpace(gap);
    PutOne('\n', PrintPlugins(p.plugins));
    assert Put(gap, PrintPlugins(p.plugins)) == Next(' ', Next('\n', PrintPlugins(p.plugins)));
    PluginsRead(p.plugins, gap, "", q.(path := p.path, plugins := []));
  }

  lemma TurnOfPlugins(was: string, p: Settings, q: Settings)
    requires Solid(p.path) && Listable(p.plugins)
    ensures Turn(Parser(Fresh(PrintPluginSection(p)), was, q)) == Parser(Fresh(End), PLUGINS, WithPlugins(p, q))
  {
    PluginNames();
    NameReads(PLUGINS, Next('\n',
      PrintLine("PluginPath", p.path, PrintLine("PluginList", "", PrintPlugins(p.plugins)))));
    PluginSectionReads(p, q);
  }

  /** At the end of the file the loop ends and alters nothing. */
  lemma LoopAtEnd(section: string, q: Settings)
    ensures Loop(Parser(Fresh(End), section, q)).p == q
  {
    var m := Turn(Parser(Fresh(End), section, q));
    assert m.p == q && m.s.fail;
    assert Loop(m) == m;
  }

  predicate AllSaved(p: Settings) {
    && AllStorable(AUDIO, AUDIO_ENTRIES, p) && AllStorable(MAIN, MAIN_ENTRIES, p)
    && AllStorable(DEVICE, DEVICE_ENTRIES, p)
    && Solid(p.locale) && Solid(p.path) && Listable(p.plugins)
  }

  function AllStored(p: Settings, q: Settings): Settings {
    WithPlugins(p, Stored(DEVICE, DEVICE_ENTRIES, p, Stored(MAIN, MAIN_ENTRIES, p, Stored(AUDIO, AUDIO_ENTRIES, p, q))))
  }

  lemma SectionsRead(p: Settings, q: Settings)
    requires AllSaved(p) && TablesRight()
    ensures Loop(Parser(
              Fresh(PrintSection(AUDIO, p, PrintSection(MAIN, p, PrintSection(DEVICE, p, PrintPluginSection(p))))),
              "", q)).p
            == AllStored(p, q)
  {
    var q1 := Stored(AUDIO, AUDIO_ENTRIES, p, q);
    var q2 := Stored(MAIN, MAIN_ENTRIES, p, q1);
    var q3 := Stored(DEVICE, DEVICE_ENTRIES, p, q2);
    SectionReads("", AUDIO, p, q, PrintSection(MAIN, p, PrintSection(DEVICE, p, PrintPluginSection(p))));
    SectionReads(AUDIO, MAIN, p, q1, PrintSection(DEVICE, p, PrintPluginSection(p)));
    SectionReads(MAIN, DEVICE, p, q2, PrintPluginSection(p));
    TurnOfPlugins(DEVICE, p, q3);
    LoopAtEnd(PLUGINS, WithPlugins(p, q3));
  }

  // ------------------------------------------------------------ the tables

  ghost predicate Distinct(es: seq<Entry>) { forall i, j :: 0 <= i < j < |es| ==> es[i].name != es[j].name }

  lemma {:induction false} KindAt(es: seq<Entry>, i: nat)
    requires i < |es| && Distinct(es)
    ensures KindIn(es, es[i].name) == Some(es[i].kind)
  {
    if i > 0 {
      assert es[0].name != es[i].name;
      forall a, b | 0 <= a < b < |es[1..]|
        ensures es[1..][a].name != es[1..][b].name
      {
        assert es[a + 1].name != es[b + 1].name;
      }
      KindAt(es[1..], i - 1);
    }
  }

  /** Where a name stands in its table, told by its length and a letter of it. */
  function AudioIndex(s: string): int
    requires s != ""
  {
    if |s| == 10 then (if s[0] == 'B' then 0 else 3)
    else if |s| == 12 then 1
    else if |s| == 13 then (if s[0] == 'F' then 2 else 10)
    else if |s| == 8 then 4
    else if |s| == 17 then 5
    else if |s| == 11 then (if s[0] == 'A' then 6 else 9)
    else if |s| == 6 then 7
    else if |s| == 4 then 8
    else 11
  }

  function MainIndex(s: string): int
    requires s != ""
  {
    if |s| == 13 then (if s[0] == 'T' then 0 else 4) else if s[0] == 'B' then 1 else if s[0] == 'C' then 2 else 3
  }

  function DeviceIndex(s: string): int
    requires s != ""
  {
    if |s| < 10 then 0
    else if |s| == 13 then (if s[5] == 'B' then 1 else 2)
    else if s[5] == 'S' then 3
    else if s[5] == 'I' then 4
    else 5
  }

  lemma AudioNamesA(i: nat)
    requires 0 <= i < 4
    ensures Named(AUDIO_ENTRIES[i].name) && AudioIndex(AUDIO_ENTRIES[i].name) == i
  {
    if i == 0 {
      assert AUDIO_ENTRIES[i].name == "BufferSize";
    } else if i == 1 {
      assert AUDIO_ENTRIES[i].name == "FragmentSize";
    } else if i == 2 {
      assert AUDIO_ENTRIES[i].name == "FragmentCount";
    } else {
      assert AUDIO_ENTRIES[i].name == "Samplerate";
    }
  }

  lemma AudioNamesB(i: nat)
    requires 4 <= i < 8
    ensures Named(AUDIO_ENTRIES[i].name) && AudioIndex(AUDIO_ENTRIES[i].name) == i
  {
    if i == 4 {
      assert AUDIO_ENTRIES[i].name == "WantMidi";
    } else if i == 5 {
      assert AUDIO_ENTRIES[i].name == "FilterGranularity";
    } else if i == 6 {
      assert AUDIO_ENTRIES[i].name == "AudioClient";
    } else {
      assert AUDIO_ENTRIES[i].name == "Output";
    }
  }

  lemma AudioNamesC(i: nat)
    requires 8 <= i < 12
    ensures Named(AUDIO_ENTRIES[i].name) && AudioIndex(AUDIO_ENTRIES[i].name) == i
  {
    if i == 8 {
      assert AUDIO_ENTRIES[i].name == "Midi";
    } else if i == 9 {
      assert AUDIO_ENTRIES[i].name == "MidiBackend";
    } else if i == 10 {
      assert AUDIO_ENTRIES[i].name == "UsePluginList";
    } else {
      assert AUDIO_ENTRIES[i].name == "Polyphony";
    }
  }

  lemma MainNames(i: nat)
    requires 0 <= i < 5
    ensures Named(MAIN_ENTRIES[i].name) && MainIndex(MAIN_ENTRIES[i].name) == i
  {
    if i == 0 {
      assert MAIN_ENTRIES[i].name == "ToolBoxColour";
    } else if i == 1 {
      assert MAIN_ENTRIES[i].name == "ButtonColour";
    } else if i == 2 {
      assert MAIN_ENTRIES[i].name == "CanvasColour";
    } else if i == 3 {
      assert MAIN_ENTRIES[i].name == "DeviceColour";
    } else {
      assert MAIN_ENTRIES[i].name == "DeviceBoxType";
    }
  }

  lemma DeviceNames(i: nat)
    requires 0 <= i < 6
    ensures Named(DEVICE_ENTRIES[i].name) && DeviceIndex(DEVICE_ENTRIES[i].name) == i
  {
    if i == 0 {
      assert DEVICE_ENTRIES[i].name == "GUIColour";
    } else if i == 1 {
      assert DEVICE_ENTRIES[i].name == "ScopeBGColour";
    } else if i == 2 {
      assert DEVICE_ENTRIES[i].name == "ScopeFGColour";
    } else if i == 3 {
      assert DEVICE_ENTRIES[i].name == "ScopeSelColour";
    } else if i == 4 {
      assert DEVICE_ENTRIES[i].name == "ScopeIndColour";
    } else {
      assert DEVICE_ENTRIES[i].name == "ScopeMrkColour";
    }
  }

  lemma AudioTabled()
    ensures Distinct(AUDIO_ENTRIES) && forall i :: 0 <= i < |AUDIO_ENTRIES| ==> Named(AUDIO_ENTRIES[i].name)
  {
    forall i | 0 <= i < |AUDIO_ENTRIES| ensures Named(AUDIO_ENTRIES[i].name) && AudioIndex(AUDIO_ENTRIES[i].name) == i {
      if i < 4 { AudioNamesA(i); } else if i < 8 { AudioNamesB(i); } else { AudioNamesC(i); }
    }
  }

  lemma MainTabled()
    ensures Distinct(MAIN_ENTRIES) && forall i :: 0 <= i < |MAIN_ENTRIES| ==> Named(MAIN_ENTRIES[i].name)
  {
    forall i | 0 <= i < |MAIN_ENTRIES|
      ensures Named(MAIN_ENTRIES[i].name) && MainIndex(MAIN_ENTRIES[i].name) == i
    {
      MainNames(i);
    }
  }

  lemma DeviceTabled()
    ensures Distinct(DEVICE_ENTRIES) && forall i :: 0 <= i < |DEVICE_ENTRIES| ==> Named(DEVICE_ENTRIES[i].name)
  {
    forall i | 0 <= i < |DEVICE_ENTRIES|
      ensures Named(DEVICE_ENTRIES[i].name) && DeviceIndex(DEVICE_ENTRIES[i].name) == i
    {
      DeviceNames(i);
    }
  }

  lemma TabledFrom(section: string, es: seq<Entry>)
    requires EntriesOf(section) == es && Distinct(es) && forall i :: 0 <= i < |es| ==> Named(es[i].name)
    ensures Tabled(section, es)
  {
    forall i | 0 <= i < |es| ensures KindIn(EntriesOf(section), es[i].name) == Some(es[i].kind) { KindAt(es, i); }
  }

  /** The section names are told apart, too. */
  lemma SectionNames()
    ensures EntriesOf(AUDIO) == AUDIO_ENTRIES && EntriesOf(MAIN) == MAIN_ENTRIES && EntriesOf(DEVICE) == DEVICE_ENTRIES
    ensures AUDIO != PLUGINS && MAIN != PLUGINS && DEVICE != PLUGINS && AUDIO != MAIN && AUDIO != DEVICE
            && MAIN != DEVICE
    ensures ']' !in AUDIO && ']' !in MAIN && ']' !in DEVICE
  {
    assert AUDIO[0] == 'A' && MAIN[0] == 'M' && DEVICE[0] == 'D' && PLUGINS[0] == 'P';
  }

  /** The section tables are as the parser needs them. */
  ghost predicate TablesRight() {
    && EntriesOf(AUDIO) == AUDIO_ENTRIES && EntriesOf(MAIN) == MAIN_ENTRIES && EntriesOf(DEVICE) == DEVICE_ENTRIES
    && Tabled(AUDIO, AUDIO_ENTRIES) && Tabled(MAIN, MAIN_ENTRIES) && Tabled(DEVICE, DEVICE_ENTRIES)
    && AUDIO != PLUGINS && MAIN != PLUGINS && DEVICE != PLUGINS
    && ']' !in AUDIO && ']' !in MAIN && ']' !in DEVICE
  }

  lemma TablesAreRight()
    ensures TablesRight()
  {
    SectionNames();
    AudioTabled();
    TabledFrom(AUDIO, AUDIO_ENTRIES);
    MainTabled();
    TabledFrom(MAIN, MAIN_ENTRIES);
    DeviceTabled();
    TabledFrom(DEVICE, DEVICE_ENTRIES);
  }

  // ---------------------------------------------------- what has been stored

  lemma {:induction false} StoredLeaves(section: string, es: seq<Entry>, p: Settings, q: Settings, k: Key)
    requires forall i :: 0 <= i < |es| ==> Key(section, es[i].name) != k
    ensures var r := Stored(section, es, p, q);
            && (k in r.values <==> k in q.values) && (k in q.values ==> r.values[k] == q.values[k])
    ensures var r := Stored(section, es, p, q); r.(values := q.values) == q
  {
    if es != [] {
      var l := Key(section, es[0].name);
      assert Key(section, es[0].name) != k;
      StoredLeaves(section, es[1..], p, Prefs.Set(q, l, Back(es[0].kind, l, p)), k);
    }
  }

  ghost predicate Has(section: string, e: Entry, p: Settings, r: Settings) {
    var k := Key(section, e.name); k in r.values && r.values[k] == Back(e.kind, k, p)
  }

  lemma {:induction false} StoredHas(section: string, es: seq<Entry>, p: Settings, q: Settings, i: nat)
    requires i < |es| && Distinct(es)
    ensures Has(section, es[i], p, Stored(section, es, p, q))
  {
    var k := Key(section, es[0].name);
    var next := Prefs.Set(q, k, Back(es[0].kind, k, p));
    if i == 0 {
      forall j | 0 <= j < |es[1..]| ensures Key(section, es[1..][j].name) != k { assert es[0].name != es[j + 1].name; }
      StoredLeaves(section, es[1..], p, next, k);
    } else {
      forall a, b | 0 <= a < b < |es[1..]|
        ensures es[1..][a].name != es[1..][b].name
      {
        assert es[a + 1].name != es[b + 1].name;
      }
      StoredHas(section, es[1..], p, next, i - 1);
    }
  }

  /** Another section leaves it. */
  lemma StillHas(section: string, e: Entry, other: string, es: seq<Entry>, p: Settings, q: Settings)
    requires section != other && Has(section, e, p, q)
    ensures Has(section, e, p, Stored(other, es, p, q))
  {
    StoredLeaves(other, es, p, q, Key(section, e.name));
  }

  /** The settings of one table are all there. */
  ghost predicate Restored(section: string, es: seq<Entry>, p: Settings, r: Settings) {
    forall i :: 0 <= i < |es| ==> Has(section, es[i], p, r)
  }

  lemma StoredRestores(section: string, es: seq<Entry>, p: Settings, q: Settings)
    requires Distinct(es)
    ensures Restored(section, es, p, Stored(section, es, p, q))
  {
    forall i | 0 <= i < |es|
      ensures Has(section, es[i], p, Stored(section, es, p, q))
    {
      StoredHas(section, es, p, q, i);
    }
  }

  lemma StillRestored(section: string, es: seq<Entry>, other: string, os: seq<Entry>, p: Settings, q: Settings)
    requires section != other && Restored(section, es, p, q)
    ensures Restored(section, es, p, Stored(other, os, p, q))
  {
    forall i | 0 <= i < |es|
      ensures Has(section, es[i], p, Stored(other, os, p, q))
    {
      StillHas(section, es[i], other, os, p, q);
    }
  }

  ghost predicate AllRestored(p: Settings, r: Settings) {
    Restored(AUDIO, AUDIO_ENTRIES, p, r) && Restored(MAIN, MAIN_ENTRIES, p, r) && Restored(DEVICE, DEVICE_ENTRIES, p, r)
  }

  function ThreeStored(p: Settings, q: Settings): Settings {
    Stored(DEVICE, DEVICE_ENTRIES, p, Stored(MAIN, MAIN_ENTRIES, p, Stored(AUDIO, AUDIO_ENTRIES, p, q)))
  }

  lemma ThreeRestore(p: Settings, q: Settings)
    ensures AllRestored(p, ThreeStored(p, q))
  {
    var q1 := Stored(AUDIO, AUDIO_ENTRIES, p, q);
    var q2 := Stored(MAIN, MAIN_ENTRIES, p, q1);
    SectionNames();
    AudioTabled();
    MainTabled();
    DeviceTabled();
    StoredRestores(AUDIO, AUDIO_ENTRIES, p, q);
    StillRestored(AUDIO, AUDIO_ENTRIES, MAIN, MAIN_ENTRIES, p, q1);
    StillRestored(AUDIO, AUDIO_ENTRIES, DEVICE, DEVICE_ENTRIES, p, q2);
    StoredRestores(MAIN, MAIN_ENTRIES, p, q1);
    StillRestored(MAIN, MAIN_ENTRIES, DEVICE, DEVICE_ENTRIES, p, q2);
    StoredRestores(DEVICE, DEVICE_ENTRIES, p, q2);
  }

  lemma SameList(p: Settings, r: Settings)
    requires Restored(AUDIO, AUDIO_ENTRIES, p, r)
    ensures UsesList(r) <==> UsesList(p)
  {
    assert AUDIO_ENTRIES[10] == Entry("UsePluginList", Whole);
    assert Has(AUDIO, AUDIO_ENTRIES[10], p, r);
  }

  lemma {:induction false} StoredOnlyValues(section: string, es: seq<Entry>, p: Settings, q: Settings)
    ensures Stored(section, es, p, q).(values := q.values) == q
  {
    if es != [] {
      var k := Key(section, es[0].name);
      StoredOnlyValues(section, es[1..], p, Prefs.Set(q, k, Back(es[0].kind, k, p)));
    }
  }

  /** Everything after the two lines at the top. */
  lemma StoredIs(p: Settings, q: Settings)
    requires AllSaved(p)
    ensures var r := AllStored(p, q);
            && AllRestored(p, r) && r.plugins == (if UsesList(p) then p.plugins else [])
            && r.version == q.version && r.locale == q.locale
  {
    var t := ThreeStored(p, q);
    ThreeRestore(p, q);
    SameList(p, t);
    StoredOnlyValues(AUDIO, AUDIO_ENTRIES, p, q);
    StoredOnlyValues(MAIN, MAIN_ENTRIES, p, Stored(AUDIO, AUDIO_ENTRIES, p, q));
    StoredOnlyValues(DEVICE, DEVICE_ENTRIES, p, Stored(MAIN, MAIN_ENTRIES, p, Stored(AUDIO, AUDIO_ENTRIES, p, q)));
    assert UsesList(t.(path := p.path, plugins := [])) <==> UsesList(t);
    assert [] + p.plugins == p.plugins;
    assert AllStored(p, q).values == t.values;
    SameValuesRestore(p, t, AllStored(p, q));
  }

  lemma SameValuesRestore(p: Settings, t: Settings, r: Settings)
    requires AllRestored(p, t) && r.values == t.values
    ensures AllRestored(p, r)
  {
    forall i | 0 <= i < |AUDIO_ENTRIES|
      ensures Has(AUDIO, AUDIO_ENTRIES[i], p, r)
    {
      assert Has(AUDIO, AUDIO_ENTRIES[i], p, t);
    }
    forall i | 0 <= i < |MAIN_ENTRIES|
      ensures Has(MAIN, MAIN_ENTRIES[i], p, r)
    {
      assert Has(MAIN, MAIN_ENTRIES[i], p, t);
    }
    forall i | 0 <= i < |DEVICE_ENTRIES|
      ensures Has(DEVICE, DEVICE_ENTRIES[i], p, r)
    {
      assert Has(DEVICE, DEVICE_ENTRIES[i], p, t);
    }
  }

  // -------------------------------------------------------- the top of the file

  lemma TopWords()
    ensures Solid("SpiralSound") && Solid("resource") && Solid("file") && Named("Version") && Named("Locale")
  {
  }

  /** The three words and the name and sign of the version line. */
  lemma TitleReads(version: string, rest: Chars)
    ensures var b := Put("SpiralSound", Next(' ', Put("resource", Next(' ', Put("file", Next('\n', Next('\n',
                       PrintLine("Version", version, rest))))))));
            Skip(Skip(Skip(Skip(Skip(Fresh(b)))))) == Fresh(Next(' ', Put(version, Next('\n', rest))))
  {
    var line := PrintLine("Version", version, rest);
    var b3 := Put("file", Next('\n', Next('\n', line)));
    var b2 := Put("resource", Next(' ', b3));
    TopWords();
    PutNothing(Put("SpiralSound", Next(' ', b2)));
    ExtractReads("", "SpiralSound", ' ', b2);
    PutNothing(b2);
    ExtractAfter(' ', "", "resource", ' ', b3);
    PutNothing(b3);
    ExtractAfter(' ', "", "file", '\n', Next('\n', line));
    SpaceBefore('\n', Next('\n', line));
    SpaceBefore('\n', line);
    LineStarts("Version", version, rest);
  }

  /** The stream after the two lines at the top, and what they set. */
  lemma TopReads(p: Settings, q: Settings, location: string, body: Chars)
    requires Solid(p.locale)
    requires Print(p) == Put("SpiralSound", Next(' ', Put("resource", Next(' ', Put("file", Next('\n', Next('\n',
                           PrintLine("Version", Text(p.version), PrintLine("Locale", p.locale, Next('\n', body))))))))))
    ensures var r := q.(version := p.version, locale := p.locale); var s := Fresh(Next('\n', Next('\n', body)));
            Load(Print(p), q, location)
            == Located(if p.version == 2 then Some(Loop(Parser(Fresh(body), "", r)).p) else LoadOld(s, r), location)
  {
    var locale := PrintLine("Locale", p.locale, Next('\n', body));
    TitleReads(Text(p.version), locale);
    TextIsSolid(p.version);
    NumberOfText(p.version);
    WordValue(Text(p.version), locale);
    TopWords();
    SpaceBefore('\n', locale);
    LineStarts("Locale", p.locale, Next('\n', body));
    WordValue(p.locale, Next('\n', body));
  }

  function Body(p: Settings): Chars {
    PrintSection(AUDIO, p, PrintSection(MAIN, p, PrintSection(DEVICE, p, PrintPluginSection(p))))
  }

  // --------------------------------------------------------------- the theorem

  /** Saving and loading, over whatever was there before: every setting of every section
      comes back, numbers and words as they were, Output and MidiBackend trimmed; the plugin
      list comes back if it is in use and is empty if not; the path is the one compiled in. */
  lemma SaveThenLoad(p: Settings, q: Settings, location: string)
    requires AllSaved(p) && p.version == 2
    ensures Load(Print(p), q, location).Some?
    ensures var r := Load(Print(p), q, location).value;
            && AllRestored(p, r) && r.plugins == (if UsesList(p) then p.plugins else [])
            && r.version == 2 && r.locale == p.locale && r.path == location
  {
    var q1 := q.(version := p.version, locale := p.locale);
    TopReads(p, q, location, Body(p));
    TablesAreRight();
    SectionsRead(p, q1);
    StoredIs(p, q1);
    SameValuesRestore(p, AllStored(p, q1), AllStored(p, q1).(path := location));
  }

  // ------------------------------------------------------ exactly which texts

  lemma {:induction false} TrimLeftIs(s: string)
    ensures |TrimLeft(s)| <= |s| && (TrimLeft(s) == s <==> s == "" || !Lead(s[0]))
    ensures TrimLeft(s) != "" ==> TrimLeft(s)[|TrimLeft(s)| - 1] == s[|s| - 1]
  {
    if s != "" && Lead(s[0]) { TrimLeftIs(s[1..]); }
  }

  lemma {:induction false} TrimRightIs(s: string)
    ensures |TrimRight(s)| <= |s| && (TrimRight(s) == s <==> s == "" || !Trail(s[|s| - 1]))
  {
    if s != "" && Trail(s[|s| - 1]) { TrimRightIs(s[..|s| - 1]); }
  }

  /** Output comes back as it was exactly when it starts with no blank and ends in no
      carriage return, MidiBackend exactly when it starts and ends with no blank; both may
      be empty and may have blanks inside. */
  lemma KeptExact(s: string)
    ensures Kept(Line, s) == s <==> s == "" || (!Lead(s[0]) && s[|s| - 1] != '\r')
    ensures Kept(Trimmed, s) == s <==> s == "" || (!Lead(s[0]) && !Trail(s[|s| - 1]))
  {
    TrimLeftIs(s);
    TrimRightIs(TrimLeft(s));
    if s != "" && Lead(s[0]) {
      assert |TrimLeft(s)| < |s| by { TrimLeftIs(s[1..]); }
      assert |CutReturn(TrimLeft(s))| <= |TrimLeft(s)|;
    }
  }

  /** A text without what its reader trims: nothing of a word, a leading blank and a closing
      carriage return of Output, any blank at either end of MidiBackend. */
  predicate Untrimmed(kind: Kind, s: string) {
    s == "" || match kind
    case Whole => true
    case Token => true
    case Line => !Lead(s[0]) && s[|s| - 1] != '\r'
    case Trimmed => !Lead(s[0]) && !Trail(s[|s| - 1])
  }

  predicate SameSetting(e: Entry, k: Key, p: Settings, r: Settings) {
    if e.kind.Whole? then NumOf(r, k) == NumOf(p, k) else TextOf(r, k) == TextOf(p, k)
  }

  lemma HasExact(section: string, e: Entry, p: Settings, r: Settings)
    requires Has(section, e, p, r)
    ensures SameSetting(e, Key(section, e.name), p, r)
            <==> Untrimmed(e.kind, TextOf(p, Key(section, e.name))) || e.kind.Whole?
  {
    KeptExact(TextOf(p, Key(section, e.name)));
  }

  lemma OneRestored(section: string, i: nat, p: Settings, r: Settings)
    requires AllRestored(p, r) && i < |EntriesOf(section)|
    ensures Has(section, EntriesOf(section)[i], p, r)
  {
  }

  /** Of every setting of every section, saved and loaded over anything: it comes back as it
      was if and only if it has nothing its reader trims. */
  lemma EverySettingExact(p: Settings, q: Settings, location: string, section: string, i: nat, r: Settings)
    requires AllSaved(p) && p.version == 2 && i < |EntriesOf(section)| && Load(Print(p), q, location) == Some(r)
    ensures var e := EntriesOf(section)[i]; var k := Key(section, e.name);
            SameSetting(e, k, p, r) <==> e.kind.Whole? || Untrimmed(e.kind, TextOf(p, k))
  {
    SaveThenLoad(p, q, location);
    OneRestored(section, i, p, r);
    HasExact(section, EntriesOf(section)[i], p, r);
  }

  // ------------------------------------------------- a version left from an old file

  const BUFFER := Key(AUDIO, "BufferSize")

  const IN_USE := Key(AUDIO, "UsePluginList")

  /** Reading from a failed stream leaves every number where it was. */
  lemma FailedReadKeeps(kind: Kind, k: Key, s: Stream, p: Settings, n: Key)
    requires s.fail && (k == n ==> kind.Whole?)
    ensures var (q, t) := ReadValue(kind, k, s, p); t == s && NumOf(q, n) == NumOf(p, n)
  {
  }

  lemma {:induction false} FailedFixedKeeps(es: seq<(Key, Kind)>, s: Stream, p: Settings, n: Key)
    requires s.fail && forall i :: 0 <= i < |es| && es[i].0 == n ==> es[i].1.Whole?
    ensures var (q, t) := ReadFixed(es, s, p); t == s && NumOf(q, n) == NumOf(p, n)
  {
    if es != [] {
      FailedReadKeeps(es[0].1, es[0].0, s, p, n);
      FailedFixedKeeps(es[1..], s, ReadValue(es[0].1, es[0].0, s, p).0, n);
    }
  }

  lemma {:induction false} FixedAt(section: string, es: seq<Entry>, i: nat)
    requires i < |es|
    ensures |Fixed(section, es)| == |es|
    ensures Fixed(section, es)[i].0 == Key(section, es[i].name)
    ensures es[i].kind.Whole? ==> Fixed(section, es)[i].1.Whole?
  {
    if |es| > 1 {
      FixedAt(section, es[1..], if i > 0 then i - 1 else 0);
    }
  }

  lemma {:induction false} PutConcat(a: string, b: string, rest: Chars)
    ensures Put(a + b, rest) == Put(a, Put(b, rest))
  {
    if a == "" {
      assert a + b == b;
    } else {
      assert (a + b)[1..] == a[1..] + b;
      PutConcat(a[1..], b, rest);
    }
  }

  lemma HeaderWords()
    ensures Solid("[AUDIO") && Solid("SETTINGS]") && ['['] + AUDIO + [']'] == "[AUDIO" + " " + "SETTINGS]"
    ensures Named("BufferSize") && Number("BufferSize").None?
  {
    assert "BufferSize"[0] == 'B';
  }

  /** The first section header is two words, and the first name no number. */
  lemma HeaderAsWords(rest: Chars)
    ensures Skip(Skip(Fresh(Next('\n', Next('\n', Next('[', Put(AUDIO, Next(']', Next('\n', rest)))))))))
            == Fresh(Next('\n', rest))
  {
    var tail := Next('\n', rest);
    var second := Put("SETTINGS]", tail);
    HeaderWords();
    PutOne(']', tail);
    PutOne('[', Put(AUDIO, Put([']'], tail)));
    PutConcat(['['], AUDIO, Put([']'], tail));
    PutConcat(['['] + AUDIO, [']'], tail);
    PutOne(' ', second);
    PutConcat("[AUDIO", " ", second);
    PutConcat("[AUDIO" + " ", "SETTINGS]", tail);
    var b := Put("[AUDIO", Next(' ', second));
    assert Next('[', Put(AUDIO, Next(']', tail))) == b;
    SpaceBefore('\n', Next('\n', b));
    SpaceBefore('\n', b);
    PutNothing(b);
    ExtractReads("", "[AUDIO", ' ', second);
    PutNothing(second);
    ExtractAfter(' ', "", "SETTINGS]", '\n', rest);
  }

  /** A file is always written in sections but read in sections only if it says version 2.
      So with any other version, such as one kept from an old file, the next load finds no
      number where the buffer size should be. It leaves that at zero, and returns exactly
      when no plugin list was in use before: the loop over the list never meets the end. */
  lemma OldVersionLosesBuffer(p: Settings, q: Settings, location: string)
    requires p.version != 2 && Solid(p.locale)
    ensures var r := Load(Print(p), q, location);
            && (r.Some? <==> !UsesList(q))
            && (r.Some? ==> NumOf(r.value, BUFFER) == 0)
  {
    var r := q.(version := p.version, locale := p.locale);
    var s := Fresh(Next('\n', Next('\n', Body(p))));
    TopReads(p, q, location, Body(p));
    SectionNames();
    var rest := PrintEntries(AUDIO, AUDIO_ENTRIES, p,
      Next('\n', PrintSection(MAIN, p, PrintSection(DEVICE, p, PrintPluginSection(p)))));
    HeaderAsWords(rest);
    FirstNameIsNoNumber(p, rest, r);
    OldLoadFails(s, r);
  }

  lemma FirstNameIsNoNumber(p: Settings, rest: Chars, r: Settings)
    requires rest == PrintEntries(AUDIO, AUDIO_ENTRIES, p,
             Next('\n', PrintSection(MAIN, p, PrintSection(DEVICE, p, PrintPluginSection(p)))))
    ensures var (q, t) := ReadValue(Whole, BUFFER, Fresh(Next('\n', rest)), r);
            Stalled(t) && q == Prefs.Set(r, BUFFER, Num(0))
  {
    HeaderWords();
    SpaceBefore('\n', rest);
    assert AUDIO_ENTRIES[0].name == "BufferSize";
    LineStarts("BufferSize", Printed(AUDIO_ENTRIES[0], Key(AUDIO, AUDIO_ENTRIES[0].name), p),
               PrintEntries(AUDIO, AUDIO_ENTRIES[1..], p,
                 Next('\n', PrintSection(MAIN, p, PrintSection(DEVICE, p, PrintPluginSection(p))))));
  }

  lemma FirstOldEntry()
    ensures Fixed(AUDIO, OLD_AUDIO) != [] && Fixed(AUDIO, OLD_AUDIO)[0] == (BUFFER, Whole)
    ensures BUFFER != IN_USE
  {
    assert OLD_AUDIO[0] == AUDIO_ENTRIES[0] == Entry("BufferSize", Whole);
    assert |BUFFER.name| != |IN_USE.name|;
  }

  /** Once stalled, the rest of an old file changes neither number. */
  lemma OldLoadFails(s: Stream, p: Settings)
    requires ReadValue(Whole, BUFFER, Skip(Skip(s)), p).0 == Prefs.Set(p, BUFFER, Num(0))
    requires Stalled(ReadValue(Whole, BUFFER, Skip(Skip(s)), p).1)
    ensures LoadOld(s, p).Some? <==> !UsesList(p)
    ensures LoadOld(s, p).Some? ==> NumOf(LoadOld(s, p).value, BUFFER) == 0
  {
    FirstOldEntry();
    var (q, t) := ReadValue(Whole, BUFFER, Skip(Skip(s)), p);
    StalledOldKeeps(s, p, q, t, BUFFER);
    StalledOldKeeps(s, p, q, t, IN_USE);
    assert NumOf(q, IN_USE) == NumOf(p, IN_USE);
  }

  lemma StalledOldKeeps(s: Stream, p: Settings, q: Settings, t: Stream, n: Key)
    requires n == BUFFER || n == IN_USE
    requires ReadValue(Whole, BUFFER, Skip(Skip(s)), p) == (q, t) && Stalled(t)
    ensures ReadOld(s, p).1 == t && NumOf(ReadOld(s, p).0, n) == NumOf(q, n)
  {
    FirstOldEntry();
    OldAudioWhole(n);
    FailedFixedKeeps(Fixed(AUDIO, OLD_AUDIO)[1..], t, q, n);
    OldColoursKeep(s, p, ReadFixed(Fixed(AUDIO, OLD_AUDIO), s, p).0, t, n);
  }

  /** The colours after the audio settings. */
  lemma OldColoursKeep(s: Stream, p: Settings, p1: Settings, t: Stream, n: Key)
    requires ReadFixed(Fixed(AUDIO, OLD_AUDIO), s, p) == (p1, t) && Stalled(t)
    ensures ReadOld(s, p).1 == t && NumOf(ReadOld(s, p).0, n) == NumOf(p1, n)
  {
    var ds, ms := Fixed(DEVICE, DEVICE_ENTRIES), Fixed(MAIN, MAIN_ENTRIES);
    ColoursWhole();
    FailedFixedKeeps(ds, t, p1, n);
    var p2 := if p1.version > 0 then ReadFixed(ds, t, p1).0 else p1;
    FailedFixedKeeps(ms, t, p2, n);
  }

  /** Every colour is a number. */
  lemma ColoursWhole()
    ensures forall i :: 0 <= i < |Fixed(DEVICE, DEVICE_ENTRIES)| ==> Fixed(DEVICE, DEVICE_ENTRIES)[i].1.Whole?
    ensures forall i :: 0 <= i < |Fixed(MAIN, MAIN_ENTRIES)| ==> Fixed(MAIN, MAIN_ENTRIES)[i].1.Whole?
  {
    AllWhole(DEVICE, DEVICE_ENTRIES);
    AllWhole(MAIN, MAIN_ENTRIES);
  }

  lemma AllWhole(section: string, es: seq<Entry>)
    requires forall i :: 0 <= i < |es| ==> es[i].kind.Whole?
    ensures forall i :: 0 <= i < |Fixed(section, es)| ==> Fixed(section, es)[i].1.Whole?
  {
    if es != [] {
      FixedAt(section, es, 0);
      forall i | 0 <= i < |es| ensures Fixed(section, es)[i].1.Whole? { FixedAt(section, es, i); }
    }
  }

  /** Both numbers are read as numbers from an old file, too. */
  lemma OldAudioWhole(n: Key)
    requires n == BUFFER || n == IN_USE
    ensures forall i :: 0 <= i < |Fixed(AUDIO, OLD_AUDIO)| && Fixed(AUDIO, OLD_AUDIO)[i].0 == n ==>
              Fixed(AUDIO, OLD_AUDIO)[i].1.Whole?
  {
    var es := OLD_AUDIO;
    FixedAt(AUDIO, es, 0);
    forall i | 0 <= i < |es| && Fixed(AUDIO, es)[i].0 == n ensures Fixed(AUDIO, es)[i].1.Whole? {
      FixedAt(AUDIO, es, i);
      WholeByName(es[i], OldIsOneOf(i), n);
    }
  }

  /** Where the entries of an old file stand among those of today. */
  function OldIsOneOf(i: nat): (j: nat)
    requires i < |OLD_AUDIO|
    ensures j < |AUDIO_ENTRIES| && OLD_AUDIO[i] == AUDIO_ENTRIES[j]
  {
    if i < 6 then i else if i < 8 then i + 1 else i + 2
  }

  lemma WholeByName(e: Entry, j: nat, n: Key)
    requires j < |AUDIO_ENTRIES| && e == AUDIO_ENTRIES[j] && Key(AUDIO, e.name) == n
    requires n == BUFFER || n == IN_USE
    ensures e.kind.Whole?
  {
    AudioTabled();
    KindAt(AUDIO_ENTRIES, j);
    KindAt(AUDIO_ENTRIES, if n == BUFFER then 0 else 10);
  }
}
