/**
 SpiralInfo as the program keeps it: static settings assigned one by one while a stream
 cursor moves, and a writer that appends. Each loop is tied to the function of the same
 step in Prefs.
 */
module SpiralInfo {
  import opened Wrappers
  import opened Decimals
  import opened Prefs
  import PrefsRoundTrip

  class Info {
    var values: map<Key, Value>
    var plugins: seq<string>
    var version: int
    var locale: string
    var path: string

    ghost function View(): Settings
      reads this
    {
      Settings(values, plugins, version, locale, path)
    }

    constructor (location: string)
      ensures View() == Settings(map[], [], 2, "EN", location)
    {
      values, plugins, version, locale, path := map[], [], 2, "EN", location;
    }

    function Number(k: Key): int
      reads this
    {
      if k in values && values[k].Num? then values[k].n else 0
    }

    function Str(k: Key): string
      reads this
    {
      if k in values && values[k].Str? then values[k].s else ""
    }

    // -------------------------------------------------------------- reading

    /** One value into its setting. */
    method TakeValue(kind: Kind, k: Key, s: Stream) returns (t: Stream)
      modifies this`values
      ensures (View(), t) == ReadValue(kind, k, s, old(View()))
    {
      match kind {
        case Whole =>
          var read := NumberOr(s, Number(k));
          values := values[k := Num(read.0)];
          t := read.1;
        case Token =>
          values := values[k := Value.Str(WordOr(s, Str(k)))];
          t := Skip(s);
        case Line =>
          var read := LineThenBack(s, Str(k));
          values := values[k := Value.Str(CutReturn(TrimLeft(read.0)))];
          t := read.1;
        case Trimmed =>
          var read := LineThenBack(s, Str(k));
          values := values[k := Value.Str(TrimRight(TrimLeft(read.0)))];
          t := read.1;
      }
    }

    /** A line of a section: the chain of comparisons finds the setting. */
    method TakeEntry(s0: Stream, section: string) returns (s: Stream)
      modifies this`values
      ensures Parser(s, section, View()) == ReadEntry(Parser(s0, section, old(View())))
    {
      var name := Extract(s0).0;
      s := Skip(Skip(s0));
      assert Extract(s0).1 == Skip(s0);
      var es := EntriesOf(section);
      var found: Option<Kind> := None;
      if name.Some? {
        var i := 0;
        while i < |es| && found.None?
          invariant i <= |es|
          invariant KindIn(es, name.value) == if found.Some? then found else KindIn(es[i..], name.value)
        {
          assert es[i..][0] == es[i] && es[i..][1..] == es[i + 1..];
          if es[i].name == name.value {
            found := Some(es[i].kind);
          }
          i := i + 1;
        }
      }
      if found.Some? {
        s := TakeValue(found.value, Key(section, name.value), s);
      } else {
        s := Skip(s);
      }
      s := Seek(s);
    }

    /** The list of plugins, up to its end line. */
    method TakePlugins(s0: Stream) returns (s: Stream)
      requires !Stalled(s0)
      modifies this`plugins
      ensures (View(), s) == ReadPlugins(s0, "", old(View()))
    {
      s := s0;
      var st := "";
      var use := Number(Key(AUDIO, "UsePluginList")) != 0;
      while st != "end" && !s.eof
        invariant !Stalled(s) && use == UsesList(View())
        invariant ReadPlugins(s, st, View()) == ReadPlugins(s0, "", old(View()))
        decreases Len(s.at), if Good(s) then 1 else 0
      {
        var word := WordOr(s, st);
        if word != "end" && use {
          plugins := plugins + [word];
        }
        st, s := word, Skip(s);
      }
    }

    method TakePluginSection(s0: Stream) returns (s: Stream)
      requires !Stalled(s0)
      modifies this`plugins, this`path
      ensures Parser(s, PLUGINS, View()) == ReadPluginSection(Parser(s0, PLUGINS, old(View())))
    {
      s := Skip(Skip(s0));
      path := WordOr(s, path);
      s := Skip(Skip(Skip(s)));
      plugins := [];
      s := TakePlugins(s);
      s := Seek(s);
    }

    method TakeHeader(s0: Stream) returns (s: Stream, section: string)
      requires s0.at.Next?
      modifies this`plugins, this`path
      ensures Parser(s, section, View()) == ReadHeader(Parser(s0, "", old(View())))
    {
      var b := s0.at.rest;
      section := UpTo(b, ']');
      var e := At(b, ']');
      s := Seek(if e.Next? then Fresh(e.rest) else Stream(End, true, section == ""));
      if section == PLUGINS {
        s := TakePluginSection(s);
      }
    }

    /** The parse loop. */
    method TakeSections(s0: Stream)
      modifies this`values, this`plugins, this`path
      ensures View() == Loop(Parser(s0, "", old(View()))).p
    {
      var s, section := s0, "";
      while Good(s)
        invariant Loop(Parser(s, section, View())) == Loop(Parser(s0, "", old(View())))
        decreases Len(s.at), if Good(s) then 1 else 0
      {
        ghost var m := Parser(s, section, View());
        var p := Peeked(s);
        if p.at.Next? && p.at.c == '[' {
          HeaderBlind(m);
          s, section := TakeHeader(s);
        } else if p.at.Next? && p.at.c == '\n' {
          s := Seek(p);
        } else {
          s := TakeEntry(p, section);
        }
        assert Parser(s, section, View()) == Turn(m);
      }
    }

    method TakeFixed(es: seq<(Key, Kind)>, s0: Stream) returns (s: Stream)
      modifies this`values
      ensures (View(), s) == ReadFixed(es, s0, old(View()))
    {
      s := s0;
      var i := 0;
      while i < |es|
        invariant i <= |es| && ReadFixed(es[i..], s, View()) == ReadFixed(es, s0, old(View()))
      {
        assert es[i..][0] == es[i] && es[i..][1..] == es[i + 1..];
        s := TakeValue(es[i].1, es[i].0, Skip(Skip(s)));
        i := i + 1;
      }
    }

    /** Files from before there were sections, up to the plugin list. */
    method TakeOldSettings(s0: Stream) returns (s: Stream)
      modifies this`values, this`plugins
      ensures View() == ReadOld(s0, old(View())).0
      ensures s == ReadOld(s0, old(View())).1
    {
      s := TakeFixed(Fixed(AUDIO, OLD_AUDIO), s0);
      if version > 0 {
        s := TakeFixed(Fixed(DEVICE, DEVICE_ENTRIES), s);
      }
      s := TakeFixed(Fixed(MAIN, MAIN_ENTRIES), Skip(Skip(s)));
      s := Skip(Skip(Skip(Skip(Skip(s)))));
      plugins := [];
    }

    /** False where the loop over the list would wait for ever. */
    method TakeOld(s0: Stream) returns (ends: bool)
      modifies this`values, this`plugins
      ensures LoadOld(s0, old(View())) == if ends then Some(View()) else None
    {
      var s := TakeOldSettings(s0);
      ends := true;
      if Number(Key(AUDIO, "UsePluginList")) != 0 {
        ends := !Stalled(s);
        if ends {
          s := TakePlugins(s);
        }
      }
    }

    method TakeTitle(b: Chars) returns (s: Stream)
      modifies this`version, this`locale
      ensures View() == ReadTitle(b, old(View())).0
      ensures s == ReadTitle(b, old(View())).1
    {
      s := Skip(Skip(Skip(Skip(Skip(Fresh(b))))));
      var read := NumberOr(s, version);
      version := read.0;
      s := Skip(Skip(read.1));
      locale := WordOr(s, locale);
      s := Skip(s);
    }

    method TakeBody(s: Stream) returns (ends: bool)
      modifies this`values, this`plugins, this`path
      ensures ReadBody(s, old(View())) == if ends then Some(View()) else None
    {
      ends := true;
      if version == 2 {
        TakeSections(Seek(Seek(s)));
      } else {
        ends := TakeOld(s);
      }
    }

    /** False where the load would never return. */
    method StreamInPrefs(b: Chars, location: string) returns (ends: bool)
      modifies this
      ensures Load(b, old(View()), location) == if ends then Some(View()) else None
    {
      var s := TakeTitle(b);
      ends := TakeBody(s);
      if ends {
        path := location;
      }
    }

    // --------------------------------------------------------------- writing

    method PutLine(out0: string, name: string, value: string, ghost rest: Chars) returns (out: string)
      ensures Put(out, rest) == Put(out0, PrintLine(name, value, rest))
    {
      var tail := [' '] + value + ['\n'];
      PrefsRoundTrip.PutConcat([' '] + value, ['\n'], rest);
      PrefsRoundTrip.PutConcat([' '], value, Put(['\n'], rest));
      PrefsRoundTrip.PutOne('\n', rest);
      PrefsRoundTrip.PutOne(' ', Put(value, Next('\n', rest)));
      PrefsRoundTrip.PutOne('=', Put(tail, rest));
      var gap := Spaces(18 - |name|);
      PrefsRoundTrip.PutConcat(gap + ['='], tail, rest);
      PrefsRoundTrip.PutConcat(gap, ['='], Put(tail, rest));
      PrefsRoundTrip.PutConcat(out0, name, Put(gap + ['='] + tail, rest));
      PrefsRoundTrip.PutConcat(out0 + name, gap + ['='] + tail, rest);
      out := (out0 + name) + (gap + ['='] + tail);
    }

    method PutEntries(out0: string, section: string, es: seq<Entry>, ghost rest: Chars) returns (out: string)
      ensures Put(out, rest) == Put(out0, PrintEntries(section, es, View(), rest))
    {
      out := out0;
      var i := 0;
      while i < |es|
        invariant i <= |es|
        invariant Put(out, PrintEntries(section, es[i..], View(), rest))
                  == Put(out0, PrintEntries(section, es, View(), rest))
      {
        var k := Key(section, es[i].name);
        assert es[i..][0] == es[i] && es[i..][1..] == es[i + 1..];
        out := PutLine(out, es[i].name, if es[i].kind.Whole? then Text(Number(k)) else Str(k),
                       PrintEntries(section, es[i + 1..], View(), rest));
        i := i + 1;
      }
    }

    method PutChar(out0: string, c: char, ghost rest: Chars) returns (out: string)
      ensures Put(out, rest) == Put(out0, Next(c, rest))
    {
      PrefsRoundTrip.PutOne(c, rest);
      PrefsRoundTrip.PutConcat(out0, [c], rest);
      out := out0 + [c];
    }

    method PutWord(out0: string, w: string, c: char, ghost rest: Chars) returns (out: string)
      ensures Put(out, rest) == Put(out0, Put(w, Next(c, rest)))
    {
      PrefsRoundTrip.PutConcat(out0, w, Next(c, rest));
      out := PutChar(out0 + w, c, rest);
    }

    method PutHeader(out0: string, section: string, ghost rest: Chars) returns (out: string)
      ensures Put(out, rest) == Put(out0, Next('[', Put(section, Next(']', Next('\n', rest)))))
    {
      out := PutChar(out0, '[', Put(section, Next(']', Next('\n', rest))));
      out := PutWord(out, section, ']', Next('\n', rest));
      out := PutChar(out, '\n', rest);
    }

    method PutSection(out0: string, section: string, ghost rest: Chars) returns (out: string)
      ensures Put(out, rest) == Put(out0, PrintSection(section, View(), rest))
    {
      var es := EntriesOf(section);
      out := PutHeader(out0, section, PrintEntries(section, es, View(), Next('\n', rest)));
      out := PutEntries(out, section, es, Next('\n', rest));
      out := PutChar(out, '\n', rest);
    }

    method PutPlugins(out0: string) returns (out: string)
      ensures Put(out, End) == Put(out0, PrintPlugins(plugins))
    {
      out := out0;
      var i := 0;
      while i < |plugins|
        invariant i <= |plugins| && Put(out, PrintPlugins(plugins[i..])) == Put(out0, PrintPlugins(plugins))
      {
        assert plugins[i..][0] == plugins[i] && plugins[i..][1..] == plugins[i + 1..];
        out := PutWord(out, plugins[i], '\n', PrintPlugins(plugins[i + 1..]));
        i := i + 1;
      }
      out := PutWord(out, "end", '\n', End);
    }

    method StreamOutPrefs() returns (out: string)
      ensures Put(out, End) == Print(View())
    {
      ghost var p := View();
      ghost var d := PrintSection(DEVICE, p, PrintPluginSection(p));
      ghost var m := PrintSection(MAIN, p, d);
      ghost var a := PrintSection(AUDIO, p, m);
      out := PutTitle(a);
      out := PutSection(out, AUDIO, m);
      out := PutSection(out, MAIN, d);
      out := PutSection(out, DEVICE, PrintPluginSection(p));
      ghost var l := PrintLine("PluginList", "", PrintPlugins(plugins));
      out := PutHeader(out, PLUGINS, PrintLine("PluginPath", path, l));
      out := PutLine(out, "PluginPath", path, l);
      out := PutLine(out, "PluginList", "", PrintPlugins(plugins));
      out := PutPlugins(out);
    }

    /** Everything above the first section. */
    method PutTitle(ghost body: Chars) returns (out: string)
      ensures Put(out, body) == Put("SpiralSound", Next(' ', Put("resource", Next(' ', Put("file", Next('\n', Next('\n',
                PrintLine("Version", Text(version), PrintLine("Locale", locale, Next('\n', body))))))))))
    {
      ghost var line := PrintLine("Locale", locale, Next('\n', body));
      ghost var top := Next('\n', PrintLine("Version", Text(version), line));
      out := PutWord("", "SpiralSound", ' ', Put("resource", Next(' ', Put("file", Next('\n', top)))));
      out := PutWord(out, "resource", ' ', Put("file", Next('\n', top)));
      out := PutWord(out, "file", '\n', top);
      out := PutChar(out, '\n', PrintLine("Version", Text(version), line));
      out := PutLine(out, "Version", Text(version), line);
      out := PutLine(out, "Locale", locale, Next('\n', body));
      out := PutChar(out, '\n', body);
    }
  }

  /** A header does not depend on the section before it. */
  lemma HeaderBlind(m: Parser)
    requires m.s.at.Next?
    ensures ReadHeader(m) == ReadHeader(Parser(m.s, "", m.p))
  {
  }
}
