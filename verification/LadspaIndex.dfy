/**
 The index of LADSPA libraries: what a scan leaves in it, and how devices take and give
 back descriptors. Pure values; LadspaInfo ties the program's object to them.
 */
module LadspaIndex {
  import opened Wrappers

  /** A descriptor in memory: the plugin it describes, and the opening of the library it
      points into. It is gone once that opening is closed. */
  datatype Descriptor = Descriptor(id: int, library: nat, opening: nat)

  /** `handle` is the opening a library is held by, if it is open. */
  datatype Library = Library(path: nat, basename: string, refCount: nat, handle: Option<nat>)

  datatype Entry = Entry(library: nat, index: nat, id: int, descriptor: Option<Descriptor>)

  /** `byName` finds a library by its file name, `mostInputs` is the largest number of input
      ports met, and `openings` counts what dlopen has handed out. */
  datatype Index = Index(paths: seq<string>, libraries: seq<Library>, plugins: seq<Entry>, idLookup: map<int, nat>,
                         byName: map<string, nat>, mostInputs: nat, openings: nat)

  const EMPTY := Index([], [], [], map[], map[], 0, 0)

  // ------------------------------------------------------------------- scanning

  /** A descriptor a library file offers, whether CheckPlugin accepts it, and its inputs. */
  datatype Offer = Offer(id: int, sound: bool, inputs: nat)

  /** A file met by the scan; without `usable` it does not open or lacks the symbol. */
  datatype File = File(path: string, basename: string, usable: bool, offers: seq<Offer>)

  function PathAt(paths: seq<string>, path: string): (i: nat)
    ensures i <= |paths| && (i < |paths| ==> paths[i] == path)
    ensures i == |paths| ==> path !in paths
  {
    if paths == [] then 0 else if paths[0] == path then 0 else 1 + PathAt(paths[1..], path)
  }

  function WithPath(paths: seq<string>, path: string): seq<string> { if path in paths then paths else paths + [path] }

  /** One descriptor of a file: kept if it is the first sound one with its id. */
  function TakeOffer(x: Index, f: File, n: nat, added: bool): Index
    requires n < |f.offers|
  {
    var offer := f.offers[n];
    if offer.id in x.idLookup || !offer.sound then x
    else
      var library := Library(PathAt(x.paths, f.path), f.basename, 0, None);
      var libraries := if added then x.libraries else x.libraries + [library];
      var entry := Entry(if |libraries| == 0 then 0 else |libraries| - 1, n, offer.id, None);
      Index(WithPath(x.paths, f.path), libraries, x.plugins + [entry], x.idLookup[offer.id := |x.plugins|],
            if added then x.byName else x.byName[f.basename := |x.libraries|],
            if offer.inputs > x.mostInputs then offer.inputs else x.mostInputs, x.openings)
  }

  predicate Takes(x: Index, f: File, n: nat)
    requires n < |f.offers|
  {
    f.offers[n].id !in x.idLookup && f.offers[n].sound
  }

  function TakeOffers(x: Index, f: File, n: nat, added: bool): Index
    requires n <= |f.offers|
    decreases |f.offers| - n
  {
    if n == |f.offers| then x else TakeOffers(TakeOffer(x, f, n, added), f, n + 1, added || Takes(x, f, n))
  }

  function ScanFile(x: Index, f: File): Index { if f.usable then TakeOffers(x, f, 0, false) else x }

  function Scan(x: Index, files: seq<File>): Index
    decreases |files|
  {
    if files == [] then x else Scan(ScanFile(x, files[0]), files[1..])
  }

  /** Nothing is open and no descriptor is held. */
  ghost predicate AtRest(x: Index) {
    && (forall l :: 0 <= l < |x.libraries| ==> x.libraries[l].refCount == 0 && x.libraries[l].handle.None?)
    && (forall p :: 0 <= p < |x.plugins| ==> x.plugins[p].descriptor.None?)
  }

  /** The lookup and the plugin list are inverse to each other. */
  ghost predicate Inverse(x: Index) {
    && (forall id :: id in x.idLookup ==> x.idLookup[id] < |x.plugins| && x.plugins[x.idLookup[id]].id == id)
    && (forall p :: 0 <= p < |x.plugins| ==> x.plugins[p].id in x.idLookup && x.idLookup[x.plugins[p].id] == p)
  }

  /** Every library and path index is in range. */
  ghost predicate InRange(x: Index) {
    && (forall p :: 0 <= p < |x.plugins| ==> x.plugins[p].library < |x.libraries|)
    && (forall l :: 0 <= l < |x.libraries| ==> x.libraries[l].path < |x.paths|)
  }

  ghost predicate Indexed(x: Index) { Inverse(x) && InRange(x) }

  /** What the index says about where a plugin is. */
  predicate FoundAt(x: Index, id: int, path: string, basename: string, n: nat) {
    && id in x.idLookup && x.idLookup[id] < |x.plugins|
    && var e := x.plugins[x.idLookup[id]];
    && e.index == n && e.library < |x.libraries| && x.libraries[e.library].path < |x.paths|
    && x.libraries[e.library].basename == basename && x.paths[x.libraries[e.library].path] == path
  }

  /** The last library is this file's. */
  predicate LibraryOf(x: Index, f: File) {
    && |x.libraries| > 0 && x.libraries[|x.libraries| - 1].path < |x.paths|
    && x.libraries[|x.libraries| - 1].basename == f.basename
    && x.paths[x.libraries[|x.libraries| - 1].path] == f.path
  }

  lemma TakeOfferInverse(x: Index, f: File, n: nat, added: bool)
    requires Inverse(x) && n < |f.offers|
    ensures Inverse(TakeOffer(x, f, n, added))
  {
  }

  lemma TakeOfferInRange(x: Index, f: File, n: nat, added: bool)
    requires InRange(x) && n < |f.offers| && (added ==> LibraryOf(x, f))
    ensures var r := TakeOffer(x, f, n, added);
            InRange(r) && (added || Takes(x, f, n) ==> LibraryOf(r, f))
  {
  }

  lemma TakeOfferKeeps(x: Index, f: File, n: nat, added: bool)
    requires Indexed(x) && n < |f.offers| && (added ==> LibraryOf(x, f))
    ensures var r := TakeOffer(x, f, n, added);
            && Indexed(r) && (AtRest(x) ==> AtRest(r))
            && (added || Takes(x, f, n) ==> LibraryOf(r, f))
  {
    TakeOfferInverse(x, f, n, added);
    TakeOfferInRange(x, f, n, added);
  }

  lemma TakeOfferFinds(x: Index, f: File, n: nat, added: bool, id: int)
    requires Indexed(x) && n < |f.offers| && (added ==> LibraryOf(x, f))
    ensures var r := TakeOffer(x, f, n, added);
            && (id in r.idLookup <==> id in x.idLookup || (f.offers[n].sound && f.offers[n].id == id))
            && (id !in x.idLookup && f.offers[n].sound && f.offers[n].id == id ==>
                 FoundAt(r, id, f.path, f.basename, n))
            && (forall path, base, k :: FoundAt(x, id, path, base, k) ==> FoundAt(r, id, path, base, k))
  {
  }

  /** Index of the first sound offer of an id, or the number of offers. */
  function FirstSound(offers: seq<Offer>, id: int): (n: nat)
    ensures n <= |offers| && (n < |offers| ==> offers[n].sound && offers[n].id == id)
    ensures forall k :: 0 <= k < n ==> !(offers[k].sound && offers[k].id == id)
  {
    if offers == [] || (offers[0].sound && offers[0].id == id) then 0 else 1 + FirstSound(offers[1..], id)
  }

  predicate Offers(f: File, id: int) { f.usable && FirstSound(f.offers, id) < |f.offers| }

  lemma {:induction false} TakeOffersKeep(x: Index, f: File, n: nat, added: bool)
    requires Indexed(x) && n <= |f.offers| && (added ==> LibraryOf(x, f))
    ensures Indexed(TakeOffers(x, f, n, added)) && (AtRest(x) ==> AtRest(TakeOffers(x, f, n, added)))
    decreases |f.offers| - n
  {
    if n < |f.offers| {
      TakeOfferKeeps(x, f, n, added);
      TakeOffersKeep(TakeOffer(x, f, n, added), f, n + 1, added || Takes(x, f, n));
    }
  }

  lemma {:induction false} TakeOffersStay(x: Index, f: File, n: nat, added: bool, id: int, path: string,
                                          base: string, k: nat)
    requires Indexed(x) && n <= |f.offers| && (added ==> LibraryOf(x, f))
    ensures var r := TakeOffers(x, f, n, added);
            && (FoundAt(x, id, path, base, k) ==> FoundAt(r, id, path, base, k))
            && (id in x.idLookup ==> id in r.idLookup)
    decreases |f.offers| - n
  {
    if n < |f.offers| {
      TakeOfferKeeps(x, f, n, added);
      TakeOfferFinds(x, f, n, added, id);
      TakeOffersStay(TakeOffer(x, f, n, added), f, n + 1, added || Takes(x, f, n), id, path, base, k);
    }
  }

  /** The offers of one file from the n-th on: a new id is found at its first sound offer. */
  lemma {:induction false} TakeOffersFind(x: Index, f: File, n: nat, added: bool, id: int)
    requires Indexed(x) && n <= |f.offers| && (added ==> LibraryOf(x, f))
    requires id !in x.idLookup && n <= FirstSound(f.offers, id)
    ensures var r, first := TakeOffers(x, f, n, added), FirstSound(f.offers, id);
            if first < |f.offers| then FoundAt(r, id, f.path, f.basename, first) else id !in r.idLookup
    decreases |f.offers| - n
  {
    if n < |f.offers| {
      var t := TakeOffer(x, f, n, added);
      TakeOfferKeeps(x, f, n, added);
      TakeOfferFinds(x, f, n, added, id);
      if n == FirstSound(f.offers, id) {
        TakeOffersStay(t, f, n + 1, added || Takes(x, f, n), id, f.path, f.basename, n);
      } else {
        TakeOffersFind(t, f, n + 1, added || Takes(x, f, n), id);
      }
    }
  }

  /** The file and offer an id should come from: the first sound one in scan order. */
  function FirstFile(files: seq<File>, id: int): (i: nat)
    ensures i <= |files| && (i < |files| ==> Offers(files[i], id))
    ensures forall k :: 0 <= k < i ==> !Offers(files[k], id)
  {
    if files == [] || Offers(files[0], id) then 0 else 1 + FirstFile(files[1..], id)
  }

  lemma ScanFileFinds(x: Index, f: File, id: int, path: string, base: string, k: nat)
    requires Indexed(x)
    ensures var r := ScanFile(x, f);
            && Indexed(r) && (AtRest(x) ==> AtRest(r))
            && (FoundAt(x, id, path, base, k) ==> FoundAt(r, id, path, base, k))
            && (id in x.idLookup ==> id in r.idLookup)
            && (id !in x.idLookup ==>
                  if Offers(f, id) then FoundAt(r, id, f.path, f.basename, FirstSound(f.offers, id))
                  else id !in r.idLookup)
  {
    if f.usable {
      TakeOffersKeep(x, f, 0, false);
      TakeOffersStay(x, f, 0, false, id, path, base, k);
      if id !in x.idLookup { TakeOffersFind(x, f, 0, false, id); }
    }
  }

  lemma {:induction false} ScanFinds(x: Index, files: seq<File>, id: int, path: string, base: string, k: nat)
    requires Indexed(x)
    ensures var r, i := Scan(x, files), FirstFile(files, id);
            && Indexed(r) && (AtRest(x) ==> AtRest(r))
            && (FoundAt(x, id, path, base, k) ==> FoundAt(r, id, path, base, k))
            && (id !in x.idLookup ==>
                  if i < |files| then FoundAt(r, id, files[i].path, files[i].basename, FirstSound(files[i].offers, id))
                  else id !in r.idLookup)
    decreases |files|
  {
    if files != [] {
      var f, t := files[0], ScanFile(x, files[0]);
      ScanFileFinds(x, f, id, path, base, k);
      ScanFinds(t, files[1..], id, path, base, k);
      if id !in x.idLookup && Offers(f, id) {
        ScanFinds(t, files[1..], id, f.path, f.basename, FirstSound(f.offers, id));
      }
    }
  }

  /** After a scan of any files in any order: the lookup and the plugin list are inverse to
      each other, every library and path index is in range, nothing is open, and an id is
      known exactly when some file soundly offers it, at the first place that does. */
  lemma ScanIsFirstInstance(files: seq<File>, id: int)
    ensures var r, i := Scan(EMPTY, files), FirstFile(files, id);
            && Indexed(r) && AtRest(r)
            && (id in r.idLookup <==> i < |files|)
            && (i < |files| ==> FoundAt(r, id, files[i].path, files[i].basename, FirstSound(files[i].offers, id)))
  {
    ScanFinds(EMPTY, files, id, "", "", 0);
  }

  // ------------------------------------------------------------- file names

  /** A file name leads to the last library that has it, and every library has one. */
  ghost predicate NamesRight(x: Index) {
    && (forall b :: b in x.byName ==> x.byName[b] < |x.libraries| && x.libraries[x.byName[b]].basename == b)
    && (forall l :: 0 <= l < |x.libraries| ==>
          x.libraries[l].basename in x.byName && l <= x.byName[x.libraries[l].basename])
  }

  lemma {:induction false} TakeOffersName(x: Index, f: File, n: nat, added: bool)
    requires NamesRight(x) && n <= |f.offers|
    ensures NamesRight(TakeOffers(x, f, n, added)) && x.mostInputs <= TakeOffers(x, f, n, added).mostInputs
    decreases |f.offers| - n
  {
    if n < |f.offers| { TakeOffersName(TakeOffer(x, f, n, added), f, n + 1, added || Takes(x, f, n)); }
  }

  /** After any scan. */
  lemma {:induction false} ScanNames(x: Index, files: seq<File>)
    requires NamesRight(x)
    ensures NamesRight(Scan(x, files)) && x.mostInputs <= Scan(x, files).mostInputs
    decreases |files|
  {
    if files != [] {
      if files[0].usable { TakeOffersName(x, files[0], 0, false); }
      ScanNames(ScanFile(x, files[0]), files[1..]);
    }
  }

  // --------------------------------------------------- what one file adds

  /** Where the offers are that a file gets kept, from the n-th on. */
  function Places(x: Index, f: File, n: nat, added: bool): seq<nat>
    requires n <= |f.offers|
    decreases |f.offers| - n
  {
    if n == |f.offers| then []
    else (if Takes(x, f, n) then [n] else []) + Places(TakeOffer(x, f, n, added), f, n + 1, added || Takes(x, f, n))
  }

  ghost predicate Rising(at: seq<nat>) { forall j, k :: 0 <= j < k < |at| ==> at[j] < at[k] }

  /** A sound offer whose id is new, to the index and among the offers from the n-th on. */
  predicate IsNew(x: Index, f: File, n: nat, i: nat) {
    && n <= i < |f.offers| && f.offers[i].sound && f.offers[i].id !in x.idLookup
    && forall j :: n <= j < i ==> !(f.offers[j].sound && f.offers[j].id == f.offers[i].id)
  }

  lemma {:induction false} PlacesWhich(x: Index, f: File, n: nat, added: bool, i: nat)
    requires n <= |f.offers|
    ensures i in Places(x, f, n, added) <==> IsNew(x, f, n, i)
    decreases |f.offers| - n
  {
    if n < |f.offers| {
      var t, more := TakeOffer(x, f, n, added), added || Takes(x, f, n);
      PlacesWhich(t, f, n + 1, more, i);
      assert IsNew(x, f, n, i) <==> (i == n && Takes(x, f, n)) || IsNew(t, f, n + 1, i);
    }
  }

  lemma {:induction false} PlacesRise(x: Index, f: File, n: nat, added: bool)
    requires n <= |f.offers|
    ensures Rising(Places(x, f, n, added))
    decreases |f.offers| - n
  {
    if n < |f.offers| {
      var t, more := TakeOffer(x, f, n, added), added || Takes(x, f, n);
      PlacesRise(t, f, n + 1, more);
      var rest := Places(t, f, n + 1, more);
      forall k | 0 <= k < |rest| ensures n < rest[k] { PlacesWhich(t, f, n + 1, more, rest[k]); }
    }
  }

  /** Each place makes one plugin, all of them of one library. */
  lemma {:induction false} PlacesAdd(x: Index, f: File, n: nat, added: bool, home: nat)
    requires n <= |f.offers| && home + (if added then 1 else 0) == |x.libraries|
    ensures var r, at := TakeOffers(x, f, n, added), Places(x, f, n, added);
            && |r.plugins| == |x.plugins| + |at| && r.plugins[..|x.plugins|] == x.plugins
            && (forall k :: 0 <= k < |at| ==>
                  && at[k] < |f.offers|
                  && r.plugins[|x.plugins| + k] == Entry(home, at[k], f.offers[at[k]].id, None))
            && r.libraries == (if added || at == [] then x.libraries
                               else x.libraries + [Library(PathAt(x.paths, f.path), f.basename, 0, None)])
    decreases |f.offers| - n
  {
    if n < |f.offers| {
      var t, more := TakeOffer(x, f, n, added), added || Takes(x, f, n);
      PlacesAdd(t, f, n + 1, more, home);
      var r, rest := TakeOffers(x, f, n, added), Places(t, f, n + 1, more);
      if Takes(x, f, n) {
        assert r.plugins[..|t.plugins|] == t.plugins == x.plugins + [Entry(home, n, f.offers[n].id, None)];
        assert r.plugins[..|x.plugins|] == r.plugins[..|t.plugins|][..|x.plugins|] == x.plugins;
        assert r.plugins[|x.plugins|] == r.plugins[..|t.plugins|][|x.plugins|];
      }
    }
  }

  /** The larger of what it was and the inputs of any offer kept. */
  ghost predicate MostOf(f: File, at: seq<nat>, was: nat, most: nat) {
    && was <= most && (forall i :: i in at ==> i < |f.offers| && f.offers[i].inputs <= most)
    && (most == was || exists i :: i in at && i < |f.offers| && f.offers[i].inputs == most)
  }

  lemma {:induction false} PlacesMost(x: Index, f: File, n: nat, added: bool)
    requires n <= |f.offers|
    ensures MostOf(f, Places(x, f, n, added), x.mostInputs, TakeOffers(x, f, n, added).mostInputs)
    decreases |f.offers| - n
  {
    if n < |f.offers| {
      var t, more := TakeOffer(x, f, n, added), added || Takes(x, f, n);
      PlacesMost(t, f, n + 1, more);
      var rest, at, most := Places(t, f, n + 1, more), Places(x, f, n, added), TakeOffers(t, f, n + 1, more).mostInputs;
      if most != t.mostInputs {
        var i :| i in rest && i < |f.offers| && f.offers[i].inputs == most;
        assert i in at;
      } else if most != x.mostInputs {
        assert n in at && f.offers[n].inputs == most;
      }
    }
  }

  /** A file of the scan adds one plugin for each sound offer whose id is new, in order, and
      one library that they all share, or none; the largest input count takes them in. */
  lemma ScanFileAdds(x: Index, f: File, r: Index) returns (at: seq<nat>)
    requires r == ScanFile(x, f)
    ensures Rising(at) && forall i: nat :: i in at <==> f.usable && IsNew(x, f, 0, i)
    ensures |r.plugins| == |x.plugins| + |at| && r.plugins[..|x.plugins|] == x.plugins
    ensures forall k :: 0 <= k < |at| ==>
              && at[k] < |f.offers|
              && r.plugins[|x.plugins| + k] == Entry(|x.libraries|, at[k], f.offers[at[k]].id, None)
    ensures r.libraries == if at == [] then x.libraries
                           else x.libraries + [Library(PathAt(x.paths, f.path), f.basename, 0, None)]
    ensures MostOf(f, at, x.mostInputs, r.mostInputs)
  {
    if f.usable {
      at := Places(x, f, 0, false);
      PlacesRise(x, f, 0, false);
      PlacesAdd(x, f, 0, false, |x.libraries|);
      PlacesMost(x, f, 0, false);
      forall i: nat ensures i in at <==> IsNew(x, f, 0, i) { PlacesWhich(x, f, 0, false, i); }
    } else {
      at := [];
    }
  }
}
