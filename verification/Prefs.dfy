/**
 The preferences file: an ini printer and the parser that reads it back character by
 character. What every saved setting comes back as, and that the parse always ends.
 */
module Prefs {
  import opened Wrappers
  import opened Decimals

  // ------------------------------------------------------------- a text stream

  datatype Chars = End | Next(c: char, rest: Chars)

  function Len(b: Chars): nat { if b.End? then 0 else 1 + Len(b.rest) }

  function Put(s: string, rest: Chars): Chars { if s == "" then rest else Next(s[0], Put(s[1..], rest)) }

  function SkipSpaces(b: Chars): (r: Chars)
    ensures Len(r) <= Len(b) && (r.Next? ==> !Space(r.c))
  {
    if b.Next? && Space(b.c) then SkipSpaces(b.rest) else b
  }

  function WordOf(b: Chars): string { if b.Next? && !Space(b.c) then [b.c] + WordOf(b.rest) else "" }

  function PastWord(b: Chars): (r: Chars)
    ensures Len(r) <= Len(b) && (b.Next? && !Space(b.c) ==> Len(r) < Len(b))
  {
    if b.Next? && !Space(b.c) then PastWord(b.rest) else b
  }

  /** Up to a delimiter, and what follows it. */
  function UpTo(b: Chars, d: char): string { if b.Next? && b.c != d then [b.c] + UpTo(b.rest, d) else "" }

  function At(b: Chars, d: char): (r: Chars)
    ensures Len(r) <= Len(b) && (r.Next? ==> r.c == d)
  {
    if b.Next? && b.c != d then At(b.rest, d) else b
  }

  /** A stream: what is left, and the two flags. */
  datatype Stream = Stream(at: Chars, eof: bool, fail: bool)

  predicate Good(s: Stream) { !s.eof && !s.fail }

  function Fresh(b: Chars): Stream { Stream(b, false, false) }

  /** Failed, but not at its end: nothing more can be read, and no end is ever met. */
  predicate Stalled(s: Stream) { s.fail && !s.eof }

  /** operator>> of a string. */
  function Extract(s: Stream): (r: (Option<string>, Stream))
    ensures Len(r.1.at) <= Len(s.at) && (r.0.Some? ==> Len(r.1.at) < Len(s.at)) && (r.0.None? ==> r.1.fail)
    ensures !Stalled(s) ==> !Stalled(r.1)
  {
    if !Good(s) then (None, s.(fail := true))
    else
      var b := SkipSpaces(s.at);
      if b.End? then (None, Stream(End, true, true))
      else (Some(WordOf(b)), Stream(PastWord(b), PastWord(b).End?, false))
  }

  function Skip(s: Stream): (r: Stream)
    ensures Len(r.at) <= Len(s.at) && (!Stalled(s) ==> !Stalled(r))
  {
    Extract(s).1
  }

  /** The variable after an extraction into it. */
  function WordOr(s: Stream, old': string): string { if Extract(s).0.Some? then Extract(s).0.value else old' }

  /** operator>> of a number: unread, it leaves the variable; unreadable, it leaves zero. */
  function NumberOr(s: Stream, old': int): (r: (int, Stream))
    ensures Len(r.1.at) <= Len(s.at)
  {
    var (w, t) := Extract(s);
    if w.None? then (old', t)
    else if Number(w.value).None? then (0, t.(fail := true))
    else (Number(w.value).value, t)
  }

  function DropOne(b: Chars): (r: Chars)
    ensures Len(r) <= Len(b)
  {
    if b.Next? then b.rest else b
  }

  /** seekg one character on. */
  function Seek(s: Stream): (r: Stream)
    ensures Len(r.at) <= Len(s.at)
  {
    if s.fail then Stream(s.at, false, true) else Stream(DropOne(s.at), false, false)
  }

  function Peeked(s: Stream): (r: Stream)
    ensures r.at == s.at && r.fail == s.fail
  {
    if Good(s) && s.at.End? then s.(eof := true) else s
  }

  /** std::getline, and putting the newline back for the outer parser. */
  function LineThenBack(s: Stream, old': string): (r: (string, Stream))
    ensures Len(r.1.at) <= Len(s.at)
  {
    if !Good(s) then (old', s.(fail := true))
    else
      var line, b := UpTo(s.at, '\n'), At(s.at, '\n');
      if b.Next? then (line, Fresh(b)) else (line, Stream(End, true, line == ""))
  }

  // -------------------------------------------------------------- the settings

  datatype Kind = Whole | Token | Line | Trimmed

  datatype Value = Num(n: int) | Str(s: string)

  datatype Entry = Entry(name: string, kind: Kind)

  const AUDIO := "AUDIO SETTINGS"
  const MAIN := "MAIN COLOURS"
  const DEVICE := "DEVICE COLOURS"
  const PLUGINS := "PLUGINS"

  const AUDIO_ENTRIES := [
    Entry("BufferSize", Whole), Entry("FragmentSize", Whole), Entry("FragmentCount", Whole), Entry("Samplerate", Whole),
    Entry("WantMidi", Whole), Entry("FilterGranularity", Whole), Entry("AudioClient", Token), Entry("Output", Line),
    Entry("Midi", Token), Entry("MidiBackend", Trimmed), Entry("UsePluginList", Whole), Entry("Polyphony", Whole)]

  const MAIN_ENTRIES := [
    Entry("ToolBoxColour", Whole), Entry("ButtonColour", Whole), Entry("CanvasColour", Whole),
    Entry("DeviceColour", Whole),
    Entry("DeviceBoxType", Whole)]

  const DEVICE_ENTRIES := [
    Entry("GUIColour", Whole), Entry("ScopeBGColour", Whole), Entry("ScopeFGColour", Whole),
    Entry("ScopeSelColour", Whole),
    Entry("ScopeIndColour", Whole), Entry("ScopeMrkColour", Whole)]

  function EntriesOf(section: string): seq<Entry> {
    if section == AUDIO then AUDIO_ENTRIES
    else if section == MAIN then MAIN_ENTRIES
    else if section == DEVICE then DEVICE_ENTRIES
    else []
  }

  /** The chain of comparisons of a section reader. */
  function KindIn(es: seq<Entry>, name: string): Option<Kind> {
    if es == [] then None else if es[0].name == name then Some(es[0].kind) else KindIn(es[1..], name)
  }

  datatype Key = Key(section: string, name: string)

  datatype Settings = Settings(values: map<Key, Value>, plugins: seq<string>, version: int, locale: string,
                               path: string)

  function NumOf(p: Settings, k: Key): int { if k in p.values && p.values[k].Num? then p.values[k].n else 0 }

  function TextOf(p: Settings, k: Key): string { if k in p.values && p.values[k].Str? then p.values[k].s else "" }

  function Set(p: Settings, k: Key, v: Value): Settings { p.(values := p.values[k := v]) }

  predicate UsesList(p: Settings) { NumOf(p, Key(AUDIO, "UsePluginList")) != 0 }

  // ------------------------------------------------------------------- trimming

  predicate Lead(c: char) { c == ' ' || c == '\t' }

  predicate Trail(c: char) { c == ' ' || c == '\t' || c == '\r' }

  function TrimLeft(s: string): string { if s != "" && Lead(s[0]) then TrimLeft(s[1..]) else s }

  function TrimRight(s: string): string { if s != "" && Trail(s[|s| - 1]) then TrimRight(s[..|s| - 1]) else s }

  function CutReturn(s: string): string { if s != "" && s[|s| - 1] == '\r' then s[..|s| - 1] else s }

  /** What a saved text comes back as. */
  function Kept(k: Kind, s: string): string {
    if k.Line? then CutReturn(TrimLeft(s)) else if k.Trimmed? then TrimRight(TrimLeft(s)) else s
  }

  // ------------------------------------------------------------------- the parser

  datatype Parser = Parser(s: Stream, section: string, p: Settings)

  /** One value, by the kind of its entry. */
  function ReadValue(kind: Kind, k: Key, s: Stream, p: Settings): (r: (Settings, Stream))
    ensures Len(r.1.at) <= Len(s.at)
  {
    match kind
    case Whole => var (n, t) := NumberOr(s, NumOf(p, k)); (Set(p, k, Num(n)), t)
    case Token => (Set(p, k, Str(WordOr(s, TextOf(p, k)))), Skip(s))
    case Line => var (l, t) := LineThenBack(s, TextOf(p, k)); (Set(p, k, Str(Kept(kind, l))), t)
    case Trimmed => var (l, t) := LineThenBack(s, TextOf(p, k)); (Set(p, k, Str(Kept(kind, l))), t)
  }

  /** Anything but a header or a spacer: name, equals sign, value, end of line. */
  function ReadEntry(m: Parser): (r: Parser)
    ensures Len(r.s.at) <= Len(m.s.at) && (!r.s.fail ==> Len(r.s.at) < Len(m.s.at))
  {
    var (name, s1) := Extract(m.s);
    var s2 := Skip(s1);
    var k := if name.Some? then KindIn(EntriesOf(m.section), name.value) else None;
    if k.None? then m.(s := Seek(Skip(s2)))
    else
      var (p, s3) := ReadValue(k.value, Key(m.section, name.value), s2, m.p);
      Parser(Seek(s3), m.section, p)
  }

  /** The loop over the plugin list; `st` is the last word read. It ends only because a
      stream that has not stalled fails at its end. */
  function ReadPlugins(s: Stream, st: string, p: Settings): (r: (Settings, Stream))
    requires !Stalled(s)
    ensures Len(r.1.at) <= Len(s.at) && r.0.values == p.values
    decreases Len(s.at)
  {
    if st == "end" || s.eof then (p, s)
    else
      var word := WordOr(s, st);
      var q := if word != "end" && UsesList(p) then p.(plugins := p.plugins + [word]) else p;
      if Extract(s).0.Some? then ReadPlugins(Skip(s), word, q) else (q, Skip(s))
  }

  function ReadPluginSection(m: Parser): (r: Parser)
    requires !Stalled(m.s)
    ensures Len(r.s.at) <= Len(m.s.at) && r.p.values == m.p.values
  {
    var s1 := Skip(Skip(m.s));
    var s2 := Skip(Skip(Skip(s1)));
    var (p, s3) := ReadPlugins(s2, "", m.p.(path := WordOr(s1, m.p.path), plugins := []));
    Parser(Seek(s3), m.section, p)
  }

  /** A header, from its bracket on. */
  function ReadHeader(m: Parser): (r: Parser)
    requires m.s.at.Next?
    ensures Len(r.s.at) < Len(m.s.at)
  {
    var b := m.s.at.rest;
    var section, e := UpTo(b, ']'), At(b, ']');
    var t := if e.Next? then Fresh(e.rest) else Stream(End, true, section == "");
    var n := Parser(Seek(t), section, m.p);
    if section == PLUGINS then ReadPluginSection(n) else n
  }

  /** One turn of the parse loop. */
  function Turn(m: Parser): (r: Parser)
    requires Good(m.s)
    ensures Len(r.s.at) < Len(m.s.at) || (Len(r.s.at) == Len(m.s.at) && r.s.fail)
  {
    var s := Peeked(m.s);
    if s.at.Next? && s.at.c == '[' then ReadHeader(m)
    else if s.at.Next? && s.at.c == '\n' then m.(s := Seek(s))
    else ReadEntry(m.(s := s))
  }

  /** The parse loop, until the stream has ended or failed. It always does. */
  function Loop(m: Parser): (r: Parser)
    ensures !Good(r.s)
    decreases Len(m.s.at), if Good(m.s) then 1 else 0
  {
    if !Good(m.s) then m else Loop(Turn(m))
  }

  // ------------------------------------------------------- the format before sections

  /** Files of other versions: two words to skip before each value, in a fixed order. */
  function ReadFixed(es: seq<(Key, Kind)>, s: Stream, p: Settings): (r: (Settings, Stream)) {
    if es == [] then (p, s)
    else
      var (q, t) := ReadValue(es[0].1, es[0].0, Skip(Skip(s)), p);
      ReadFixed(es[1..], t, q)
  }

  function Fixed(section: string, es: seq<Entry>): seq<(Key, Kind)> {
    if es == [] then []
    else [(Key(section, es[0].name), if es[0].kind.Line? then Token else es[0].kind)] + Fixed(section, es[1..])
  }

  /** AudioClient and MidiBackend came later. */
  const OLD_AUDIO := AUDIO_ENTRIES[..6] + AUDIO_ENTRIES[7..9] + AUDIO_ENTRIES[10..]

  /** Up to the plugin list. */
  function ReadOld(s: Stream, p: Settings): (Settings, Stream) {
    var (p1, s1) := ReadFixed(Fixed(AUDIO, OLD_AUDIO), s, p);
    var (p2, s2) := if p1.version > 0 then ReadFixed(Fixed(DEVICE, DEVICE_ENTRIES), s1, p1) else (p1, s1);
    var (p3, s3) := ReadFixed(Fixed(MAIN, MAIN_ENTRIES), Skip(Skip(s2)), p2);
    (p3.(plugins := []), Skip(Skip(Skip(Skip(Skip(s3))))))
  }

  /** The list is read only if it is in use, and then the loop waits for the end of the
      stream: on a stalled one it waits for ever. None is a load that never returns. */
  function LoadOld(s: Stream, p: Settings): Option<Settings> {
    var (q, t) := ReadOld(s, p);
    if !UsesList(q) then Some(q) else if Stalled(t) then None else Some(ReadPlugins(t, "", q).0)
  }

  /** The three words of the title, and the version and the locale after their names. */
  function ReadTitle(b: Chars, p: Settings): (Settings, Stream) {
    var s1 := Skip(Skip(Skip(Skip(Skip(Fresh(b))))));
    var (version, s2) := NumberOr(s1, p.version);
    var s3 := Skip(Skip(s2));
    (p.(version := version, locale := WordOr(s3, p.locale)), Skip(s3))
  }

  /** Everything after the locale, in the format of the version read. */
  function ReadBody(s: Stream, p: Settings): Option<Settings> {
    if p.version == 2 then Some(Loop(Parser(Seek(Seek(s)), "", p)).p) else LoadOld(s, p)
  }

  function Located(p: Option<Settings>, location: string): Option<Settings> {
    if p.Some? then Some(p.value.(path := location)) else None
  }

  /** StreamInPrefs. The path read is replaced by the one compiled in. */
  function Load(b: Chars, p: Settings, location: string): Option<Settings> {
    var (q, s) := ReadTitle(b, p);
    Located(ReadBody(s, q), location)
  }

  // ------------------------------------------------------------------ the printer

  function Spaces(n: int): string
    decreases n
  {
    if n <= 0 then "" else [' '] + Spaces(n - 1)
  }

  function Printed(e: Entry, k: Key, p: Settings): string { if e.kind.Whole? then Text(NumOf(p, k)) else TextOf(p, k) }

  /** A name padded to eighteen columns, an equals sign, and a value. */
  function PrintLine(name: string, value: string, rest: Chars): Chars {
    Put(name, Put(Spaces(18 - |name|), Next('=', Next(' ', Put(value, Next('\n', rest))))))
  }

  function PrintEntries(section: string, es: seq<Entry>, p: Settings, rest: Chars): Chars {
    if es == [] then rest
    else PrintLine(es[0].name, Printed(es[0], Key(section, es[0].name), p), PrintEntries(section, es[1..], p, rest))
  }

  /** A section and the spacer after it. */
  function PrintSection(section: string, p: Settings, rest: Chars): Chars {
    Next('[', Put(section, Next(']', Next('\n', PrintEntries(section, EntriesOf(section), p, Next('\n', rest))))))
  }

  function PrintPlugins(ws: seq<string>): Chars {
    if ws == [] then Put("end", Next('\n', End)) else Put(ws[0], Next('\n', PrintPlugins(ws[1..])))
  }

  function PrintPluginSection(p: Settings): Chars {
    Next('[', Put(PLUGINS, Next(']', Next('\n',
      PrintLine("PluginPath", p.path, PrintLine("PluginList", "", PrintPlugins(p.plugins)))))))
  }

  /** StreamOutPrefs. */
  function Print(p: Settings): Chars {
    Put("SpiralSound", Next(' ', Put("resource", Next(' ', Put("file", Next('\n', Next('\n',
      PrintLine("Version", Text(p.version), PrintLine("Locale", p.locale, Next('\n',
        PrintSection(AUDIO, p, PrintSection(MAIN, p, PrintSection(DEVICE, p, PrintPluginSection(p))))))))))))))
  }
}
