/**
 LADSPAInfo as the program keeps it: its vectors and lookups changed in place. Each
 method is tied to the function of the same step in LadspaIndex and LadspaHolders.
 */
module LadspaInfo {
  import opened Wrappers
  import opened LadspaIndex
  import opened LadspaHolders

  /** A descriptor of a library, by its name and id. */
  datatype Named = Named(name: string, id: int)

  /** The first descriptor of this name, or the number of descriptors. */
  function FirstNamed(ds: seq<Named>, name: string): (i: nat)
    ensures i <= |ds| && (i < |ds| ==> ds[i].name == name)
    ensures forall k :: 0 <= k < i ==> ds[k].name != name
  {
    if ds == [] || ds[0].name == name then 0 else 1 + FirstNamed(ds[1..], name)
  }

  class Info {
    var paths: seq<string>
    var libraries: seq<Library>
    var plugins: seq<Entry>
    var idLookup: map<int, nat>
    var byName: map<string, nat>
    var mostInputs: nat
    var openings: nat   // addresses dlopen has handed out

    ghost function View(): Index
      reads this
    {
      Index(paths, libraries, plugins, idLookup, byName, mostInputs, openings)
    }

    constructor ()
      ensures View() == EMPTY
    {
      paths, libraries, plugins, idLookup, byName, mostInputs, openings := [], [], [], map[], map[], 0, 0;
    }

    // ----------------------------------------------------------------- scanning

    method FindPath(path: string) returns (i: nat)
      ensures i == PathAt(paths, path)
    {
      i := 0;
      while i < |paths| && paths[i] != path
        invariant i <= |paths| && PathAt(paths, path) == i + PathAt(paths[i..], path)
      {
        assert paths[i..][0] == paths[i] && paths[i..][1..] == paths[i + 1..];
        i := i + 1;
      }
    }

    method AddPlugin(f: File, n: nat, added: bool)
      requires n < |f.offers| && Takes(View(), f, n)
      requires added ==> |libraries| > 0
      modifies this
      ensures View() == TakeOffer(old(View()), f, n, added)
    {
      var at := FindPath(f.path);
      if at == |paths| {
        paths := paths + [f.path];
      }
      if !added {
        libraries := libraries + [Library(at, f.basename, 0, None)];
        byName := byName[f.basename := |libraries| - 1];
      }
      plugins := plugins + [Entry(|libraries| - 1, n, f.offers[n].id, None)];
      if f.offers[n].inputs > mostInputs {
        mostInputs := f.offers[n].inputs;
      }
      idLookup := idLookup[f.offers[n].id := |plugins| - 1];
    }

    /** ExaminePluginLibrary: every descriptor of one file. */
    method ExaminePluginLibrary(f: File)
      modifies this
      ensures View() == ScanFile(old(View()), f)
    {
      if !f.usable {
        return;
      }
      var added, n := false, 0;
      while n < |f.offers|
        invariant n <= |f.offers| && (added ==> |libraries| > 0)
        invariant TakeOffers(View(), f, n, added) == ScanFile(old(View()), f)
      {
        if f.offers[n].id !in idLookup && f.offers[n].sound {
          AddPlugin(f, n, added);
          added := true;
        }
        n := n + 1;
      }
    }

    // -------------------------------------------------------------- descriptors

    /** The handle of a library, opened if need be, or nothing. `opens` is what dlopen
        answers, `sym` says which libraries have the descriptor symbol. */
    method GetDescriptorFunctionForLibrary(l: nat, sym: Symbols, opens: bool) returns (ok: bool)
      modifies this`libraries, this`openings
      ensures (View(), ok) == OpenLibrary(old(View()), l, sym, opens)
    {
      if l >= |libraries| {
        return false;
      }
      if libraries[l].handle.None? {
        if !opens {
          return false;
        }
        libraries := libraries[l := libraries[l].(handle := Some(openings))];
        openings := openings + 1;
      }
      if !sym(l) {
        libraries := libraries[l := libraries[l].(handle := None)];
        return false;
      }
      return true;
    }

    /** Fill the cache of one plugin. */
    method FetchDescriptor(p: nat, sym: Symbols, a: Answers)
      requires p < |plugins| && plugins[p].descriptor.None?
      modifies this
      ensures View() == Fetch(old(View()), p, sym, a)
    {
      var l := plugins[p].library;
      var ok := GetDescriptorFunctionForLibrary(l, sym, a.opens);
      if ok && a.present {
        var d := if l < |libraries| && libraries[l].handle.Some?
                 then Some(Descriptor(plugins[p].id, l, libraries[l].handle.value)) else None;
        plugins := plugins[p := plugins[p].(descriptor := d)];
      }
    }

    method GetDescriptorByID(id: int, sym: Symbols, a: Answers) returns (d: Option<Descriptor>)
      requires Indexed(View())
      modifies this
      ensures (View(), d) == GetDescriptor(old(View()), id, sym, a)
    {
      if id !in idLookup {
        return None;
      }
      var p := idLookup[id];
      if plugins[p].descriptor.None? {
        FetchDescriptor(p, sym, a);
      }
      d := plugins[p].descriptor;
      if d.Some? {
        var l := plugins[p].library;
        if l < |libraries| {
          libraries := libraries[l := libraries[l].(refCount := libraries[l].refCount + 1)];
        }
      }
    }

    method DiscardDescriptorByID(id: int)
      requires Indexed(View())
      modifies this`libraries, this`plugins
      ensures View() == Discard(old(View()), id)
    {
      if id !in idLookup {
        return;
      }
      var p := idLookup[id];
      var l := plugins[p].library;
      plugins := plugins[p := plugins[p].(descriptor := None)];
      if libraries[l].refCount > 0 {
        libraries := libraries[l := libraries[l].(refCount := libraries[l].refCount - 1)];
        if libraries[l].refCount == 0 && libraries[l].handle.Some? {
          libraries := libraries[l := libraries[l].(handle := None)];
        }
      }
    }

    /** GetIDFromFilenameAndLabel; `holds` is what each library holds. */
    method GetIDFromFilenameAndLabel(filename: string, name: string, holds: nat -> seq<Named>, sym: Symbols,
                                     opens: bool)
      returns (id: int)
      requires NamesRight(View())
      modifies this`libraries, this`openings
      ensures var x := old(View());
              if filename !in x.byName then id == 0 && View() == x
              else
                var l := x.byName[filename];
                var ds := holds(l);
                var k := FirstNamed(ds, name);
                && x.libraries[l].basename == filename && View() == LookInside(x, l, sym, opens, k < |ds|)
                && id == (if k < |ds| && OpenLibrary(x, l, sym, opens).1 then ds[k].id else 0)
    {
      if filename !in byName {
        return 0;
      }
      id := GetIDFromLabel(byName[filename], name, holds(byName[filename]), sym, opens);
    }

    /** ... once the library is known. */
    method GetIDFromLabel(l: nat, name: string, ds: seq<Named>, sym: Symbols, opens: bool) returns (id: int)
      requires l < |libraries|
      modifies this`libraries, this`openings
      ensures var k := FirstNamed(ds, name);
              && View() == LookInside(old(View()), l, sym, opens, k < |ds|)
              && id == (if k < |ds| && OpenLibrary(old(View()), l, sym, opens).1 then ds[k].id else 0)
    {
      var loaded := libraries[l].handle.None?;
      var ok := GetDescriptorFunctionForLibrary(l, sym, opens);
      if !ok {
        return 0;
      }
      var i := 0;
      while i < |ds| && ds[i].name != name
        invariant i <= |ds| && forall k :: 0 <= k < i ==> ds[k].name != name
      {
        i := i + 1;
      }
      if i < |ds| {
        if loaded && libraries[l].handle.Some? {
          libraries := libraries[l := libraries[l].(handle := None)];
        }
        return ds[i].id;
      }
      return 0;
    }
  }
}
