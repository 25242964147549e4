/**
 How LADSPA devices hold descriptors: the reference counts of the index, the handles it
 keeps open and the descriptors it caches, over any run of any number of devices.
 */
module LadspaHolders {
  import opened Wrappers
  import opened LadspaIndex

  /** Which libraries have the descriptor symbol: a property of the files. */
  type Symbols = nat -> bool

  /** What the system and the plugin answer to one attempt: the library opens, the
      descriptor is there, the host is known, an instance can be made and is complete. */
  datatype Answers = Answers(opens: bool, present: bool, hosted: bool, instantiates: bool)

  function SetLibrary(x: Index, l: nat, lib: Library): Index
    requires l < |x.libraries|
  {
    x.(libraries := x.libraries[l := lib])
  }

  function SetDescriptor(x: Index, p: nat, d: Option<Descriptor>): Index
    requires p < |x.plugins|
  {
    x.(plugins := x.plugins[p := x.plugins[p].(descriptor := d)])
  }

  /** GetDescriptorFunctionForLibrary: the library is open afterwards, or it failed. A
      library without the symbol is closed again at once. */
  function OpenLibrary(x: Index, l: nat, sym: Symbols, opens: bool): (r: (Index, bool))
  {
    if l >= |x.libraries| then (x, false)
    else
      var lib := x.libraries[l];
      if lib.handle.None? && !opens then (x, false)
      else
        var y := if lib.handle.Some? then x
                 else SetLibrary(x, l, lib.(handle := Some(x.openings))).(openings := x.openings + 1);
        if sym(l) then (y, true) else (SetLibrary(y, l, lib.(handle := None)), false)
  }

  function FreshDescriptor(x: Index, p: nat): Option<Descriptor>
    requires p < |x.plugins|
  {
    var l := x.plugins[p].library;
    if l < |x.libraries| && x.libraries[l].handle.Some?
    then Some(Descriptor(x.plugins[p].id, l, x.libraries[l].handle.value)) else None
  }

  /** The cached descriptor of a plugin, fetched if there is none. */
  function Fetch(x: Index, p: nat, sym: Symbols, a: Answers): (r: Index)
    requires p < |x.plugins|
  {
    if x.plugins[p].descriptor.Some? then x
    else
      var (y, ok) := OpenLibrary(x, x.plugins[p].library, sym, a.opens);
      if ok && a.present then SetDescriptor(y, p, FreshDescriptor(y, p)) else y
  }

  function CountUp(x: Index, l: nat): Index {
    if l < |x.libraries| then SetLibrary(x, l, x.libraries[l].(refCount := x.libraries[l].refCount + 1)) else x
  }

  function GetDescriptor(x: Index, id: int, sym: Symbols, a: Answers): (r: (Index, Option<Descriptor>))
    requires Inverse(x)
  {
    if id !in x.idLookup then (x, None)
    else
      var p := x.idLookup[id];
      var y := Fetch(x, p, sym, a);
      if y.plugins[p].descriptor.None? then (y, None)
      else (CountUp(y, y.plugins[p].library), y.plugins[p].descriptor)
  }

  /** One holder fewer; the last one out closes the library. */
  function CountDown(x: Index, l: nat): Index {
    if l < |x.libraries| && x.libraries[l].refCount > 0 then
      var n := x.libraries[l].refCount - 1;
      SetLibrary(x, l, x.libraries[l].(refCount := n, handle := if n == 0 then None else x.libraries[l].handle))
    else x
  }

  function Discard(x: Index, id: int): Index
    requires Inverse(x)
  {
    if id !in x.idLookup then x
    else
      var p := x.idLookup[id];
      CountDown(SetDescriptor(x, p, None), x.plugins[p].library)
  }

  /** GetIDFromFilenameAndLabel: the library is looked into, and closed again if it was
      opened for this and the label was found in it. */
  function LookInside(x: Index, l: nat, sym: Symbols, opens: bool, found: bool): Index {
    if l >= |x.libraries| then x
    else
      var (y, ok) := OpenLibrary(x, l, sym, opens);
      if ok && found && x.libraries[l].handle.None? then SetLibrary(y, l, y.libraries[l].(handle := None)) else y
  }

  // ------------------------------------------------------------- the devices

  datatype Device = Device(id: int, held: Option<Descriptor>)

  datatype Rack = Rack(index: Index, devices: seq<Device>)

  /** ClearPlugin, as far as the index is concerned. */
  function Clear(r: Rack, i: nat): Rack
    requires Inverse(r.index) && i < |r.devices|
  {
    var d := r.devices[i];
    Rack(if d.held.Some? then Discard(r.index, d.id) else r.index, r.devices[i := Device(0, None)])
  }

  /** SelectPlugin, as far as the index is concerned: a descriptor that cannot be used is
      given back at once. */
  function Chosen(x: Index, id: int, sym: Symbols, a: Answers): (r: (Index, Option<Descriptor>))
    requires Indexed(x)
  {
    if id == 0 || !a.hosted then (x, None)
    else
      var (y, d) := GetDescriptor(x, id, sym, a);
      GetKeepsIndexed(x, id, sym, a);
      if d.Some? && !a.instantiates then (Discard(y, id), None) else (y, d)
  }

  /** SelectPlugin and what its callers make of the id: it is remembered even when the
      plugin cannot be had. */
  function Select(r: Rack, i: nat, id: int, sym: Symbols, a: Answers): Rack
    requires Indexed(r.index) && i < |r.devices|
  {
    var (x, d) := Chosen(r.index, id, sym, a);
    Rack(x, r.devices[i := Device(id, d)])
  }

  /** UpdatePlugin, and Apply of a patch that names the id. */
  function Choose(r: Rack, i: nat, id: int, sym: Symbols, a: Answers): Rack
    requires Indexed(r.index) && i < |r.devices|
  {
    ClearKeepsIndexed(r, i);
    Select(Clear(r, i), i, id, sym, a)
  }

  /** Apply of an old patch, which names a library and a label. */
  function ChooseByLabel(r: Rack, i: nat, l: nat, opens: bool, id: int, sym: Symbols, a: Answers): Rack
    requires Indexed(r.index) && i < |r.devices|
  {
    ClearKeepsIndexed(r, i);
    var t := Clear(r, i);
    LookKeepsIndexed(t.index, l, sym, opens, id != 0);
    Select(t.(index := LookInside(t.index, l, sym, opens, id != 0)), i, id, sym, a)
  }

  function DestroyAt(r: Rack, i: nat): Rack
    requires Indexed(r.index) && i < |r.devices|
  {
    var t := Clear(r, i);
    t.(devices := RemoveAt(t.devices, i))
  }

  /** New devices; a plugin chosen from the menu or by a patch that names its id; the same
      plugin again; one named by its label, where id 0 is not found; the end of a device. */
  datatype Event =
    | Create
    | Update(i: nat, id: int, a: Answers)
    | Reset(i: nat, a: Answers)
    | LoadByLabel(i: nat, l: nat, opens: bool, id: int, a: Answers)
    | Destroy(i: nat)

  function Step(r: Rack, sym: Symbols, e: Event): Rack
    requires Indexed(r.index)
  {
    match e
    case Create => r.(devices := r.devices + [Device(0, None)])
    case Update(i, id, a) => if i < |r.devices| then Choose(r, i, id, sym, a) else r
    case Reset(i, a) => if i < |r.devices| then Choose(r, i, r.devices[i].id, sym, a) else r
    case LoadByLabel(i, l, opens, id, a) => if i < |r.devices| then ChooseByLabel(r, i, l, opens, id, sym, a) else r
    case Destroy(i) => if i < |r.devices| then DestroyAt(r, i) else r
  }

  // ---------------------------------------------------------- the invariant

  predicate HoldsFrom(d: Device, l: nat) { d.held.Some? && d.held.value.library == l }

  function Holders(ds: seq<Device>, l: nat): nat {
    if ds == [] then 0 else (if HoldsFrom(ds[0], l) then 1 else 0) + Holders(ds[1..], l)
  }

  /** A descriptor of this plugin in a library that is still open. */
  predicate Alive(x: Index, d: Descriptor) {
    && d.id in x.idLookup && x.idLookup[d.id] < |x.plugins| && x.plugins[x.idLookup[d.id]].library == d.library
    && d.library < |x.libraries| && x.libraries[d.library].handle == Some(d.opening)
  }

  /** Counts are the holders; a counted library is open, an open one has the symbol. */
  ghost predicate Counted(r: Rack, sym: Symbols) {
    forall l :: 0 <= l < |r.index.libraries| ==>
      && r.index.libraries[l].refCount == Holders(r.devices, l)
      && (r.index.libraries[l].refCount > 0 ==> r.index.libraries[l].handle.Some?)
      && (r.index.libraries[l].handle.Some? ==> sym(l))
  }

  ghost predicate HeldAlive(r: Rack) {
    forall i :: 0 <= i < |r.devices| && r.devices[i].held.Some? ==>
      Alive(r.index, r.devices[i].held.value) && r.devices[i].held.value.id == r.devices[i].id
  }

  /** A cached descriptor is alive, and someone holds from its library. */
  ghost predicate CachedAlive(r: Rack) {
    forall p :: 0 <= p < |r.index.plugins| && r.index.plugins[p].descriptor.Some? ==>
      && Alive(r.index, r.index.plugins[p].descriptor.value)
      && r.index.plugins[p].descriptor.value.id == r.index.plugins[p].id
      && exists i :: 0 <= i < |r.devices| && r.devices[i].held.Some? && r.devices[i].id == r.index.plugins[p].id
  }

  ghost predicate Kept(r: Rack, sym: Symbols) {
    Indexed(r.index) && Counted(r, sym) && HeldAlive(r) && CachedAlive(r)
  }

  // -------------------------------------------------- the index keeps its shape

  /** Same libraries and plugins; only handles, counts and descriptors differ. */
  ghost predicate SameShape(x: Index, y: Index) {
    && y.idLookup == x.idLookup && y.paths == x.paths && |y.plugins| == |x.plugins| && |y.libraries| == |x.libraries|
    && (forall p :: 0 <= p < |x.plugins| ==>
         y.plugins[p].id == x.plugins[p].id && y.plugins[p].library == x.plugins[p].library)
    && (forall l :: 0 <= l < |x.libraries| ==> y.libraries[l].path == x.libraries[l].path)
  }

  lemma SameShapeIndexed(x: Index, y: Index)
    requires Indexed(x) && SameShape(x, y)
    ensures Indexed(y)
  {
  }

  lemma OpenShape(x: Index, l: nat, sym: Symbols, opens: bool)
    ensures var (y, ok) := OpenLibrary(x, l, sym, opens);
            && SameShape(x, y) && y.plugins == x.plugins
            && (ok ==> l < |x.libraries| && sym(l) && y.libraries[l].handle.Some?)
            && (forall k :: 0 <= k < |x.libraries| ==> y.libraries[k].refCount == x.libraries[k].refCount)
            && (forall k :: 0 <= k < |x.libraries| && (x.libraries[k].handle.Some? ==> sym(k)) ==>
                  && (x.libraries[k].handle.Some? ==> y.libraries[k].handle == x.libraries[k].handle)
                  && (y.libraries[k].handle.Some? ==> sym(k)))
  {
  }

  lemma FetchShape(x: Index, p: nat, sym: Symbols, a: Answers)
    requires p < |x.plugins|
    ensures SameShape(x, Fetch(x, p, sym, a))
  {
    OpenShape(x, x.plugins[p].library, sym, a.opens);
  }

  lemma GetKeepsIndexed(x: Index, id: int, sym: Symbols, a: Answers)
    requires Indexed(x)
    ensures SameShape(x, GetDescriptor(x, id, sym, a).0) && Indexed(GetDescriptor(x, id, sym, a).0)
  {
    if id in x.idLookup { FetchShape(x, x.idLookup[id], sym, a); }
    SameShapeIndexed(x, GetDescriptor(x, id, sym, a).0);
  }

  lemma LookShape(x: Index, l: nat, sym: Symbols, opens: bool, found: bool)
    ensures var y := LookInside(x, l, sym, opens, found);
            && SameShape(x, y) && y.plugins == x.plugins
            && (forall k :: 0 <= k < |x.libraries| ==> y.libraries[k].refCount == x.libraries[k].refCount)
            && (forall k :: 0 <= k < |x.libraries| && (x.libraries[k].handle.Some? ==> sym(k)) ==>
                  && (x.libraries[k].handle.Some? ==> y.libraries[k].handle == x.libraries[k].handle)
                  && (y.libraries[k].handle.Some? ==> sym(k)))
  {
    OpenShape(x, l, sym, opens);
  }

  lemma LookKeepsIndexed(x: Index, l: nat, sym: Symbols, opens: bool, found: bool)
    requires Indexed(x)
    ensures Indexed(LookInside(x, l, sym, opens, found))
  {
    LookShape(x, l, sym, opens, found);
    SameShapeIndexed(x, LookInside(x, l, sym, opens, found));
  }

  lemma ClearKeepsIndexed(r: Rack, i: nat)
    requires Indexed(r.index) && i < |r.devices|
    ensures SameShape(r.index, Clear(r, i).index) && Indexed(Clear(r, i).index)
  {
    SameShapeIndexed(r.index, Clear(r, i).index);
  }

  // ------------------------------------------------------ counting holders

  lemma {:induction false} HoldersConcat(a: seq<Device>, b: seq<Device>, l: nat)
    ensures Holders(a + b, l) == Holders(a, l) + Holders(b, l)
  {
    if a == [] {
      assert a + b == b;
    } else {
      assert (a + b)[1..] == a[1..] + b;
      HoldersConcat(a[1..], b, l);
    }
  }

  lemma HoldersAt(ds: seq<Device>, i: nat, l: nat)
    requires i < |ds|
    ensures Holders(ds, l) == Holders(RemoveAt(ds, i), l) + (if HoldsFrom(ds[i], l) then 1 else 0)
  {
    HoldersConcat(ds[..i], ds[i..], l);
    HoldersConcat(ds[..i], ds[i + 1..], l);
    assert ds == ds[..i] + ds[i..] && ds[i..][1..] == ds[i + 1..];
  }

  lemma HoldersUpdate(ds: seq<Device>, i: nat, d: Device, l: nat)
    requires i < |ds|
    ensures Holders(ds[i := d], l) + (if HoldsFrom(ds[i], l) then 1 else 0)
            == Holders(ds, l) + (if HoldsFrom(d, l) then 1 else 0)
  {
    HoldersAt(ds, i, l);
    HoldersAt(ds[i := d], i, l);
    assert RemoveAt(ds[i := d], i) == RemoveAt(ds, i);
  }

  lemma HolderCounts(ds: seq<Device>, i: nat, l: nat)
    requires i < |ds| && HoldsFrom(ds[i], l)
    ensures Holders(ds, l) > 0
  {
    HoldersAt(ds, i, l);
  }

  // ------------------------------------------------- what each step keeps

  /** Opening libraries that were closed touches nothing anyone holds. */
  ghost predicate OnlyOpens(x: Index, y: Index, sym: Symbols) {
    && SameShape(x, y) && y.plugins == x.plugins
    && (forall k :: 0 <= k < |x.libraries| ==>
          && y.libraries[k].refCount == x.libraries[k].refCount
          && (x.libraries[k].handle.Some? ==> y.libraries[k].handle == x.libraries[k].handle)
          && (y.libraries[k].handle.Some? ==> sym(k)))
  }

  lemma OnlyOpensKeeps(r: Rack, y: Index, sym: Symbols)
    requires Kept(r, sym) && OnlyOpens(r.index, y, sym)
    ensures Kept(r.(index := y), sym)
  {
    SameShapeIndexed(r.index, y);
    var s := r.(index := y);
    forall l | 0 <= l < |y.libraries|
      ensures y.libraries[l].refCount == Holders(s.devices, l)
      ensures y.libraries[l].refCount > 0 ==> y.libraries[l].handle.Some?
      ensures y.libraries[l].handle.Some? ==> sym(l)
    {
    }
    assert CachedAlive(s);
  }

  /** A device with nothing takes a live descriptor. */
  function Taken(r: Rack, i: nat, id: int, d: Descriptor): Rack
    requires id in r.index.idLookup && r.index.idLookup[id] < |r.index.plugins| && i < |r.devices|
  {
    var p := r.index.idLookup[id];
    Rack(CountUp(SetDescriptor(r.index, p, Some(d)), d.library), r.devices[i := Device(id, Some(d))])
  }

  lemma TakenCounted(r: Rack, i: nat, id: int, d: Descriptor, sym: Symbols)
    requires Counted(r, sym) && i < |r.devices| && r.devices[i].held.None?
    requires id in r.index.idLookup && Alive(r.index, d) && d.id == id
    ensures Counted(Taken(r, i, id, d), sym)
  {
    var s := Taken(r, i, id, d);
    forall l | 0 <= l < |s.index.libraries|
      ensures s.index.libraries[l].refCount == Holders(s.devices, l)
    {
      HoldersUpdate(r.devices, i, Device(id, Some(d)), l);
    }
  }

  lemma TakenKeeps(r: Rack, i: nat, id: int, d: Descriptor, sym: Symbols)
    requires Kept(r, sym) && i < |r.devices| && r.devices[i].held.None?
    requires id in r.index.idLookup && Alive(r.index, d) && d.id == id
    ensures Kept(Taken(r, i, id, d), sym)
  {
    var s := Taken(r, i, id, d);
    TakenCounted(r, i, id, d, sym);
    SameShapeIndexed(r.index, s.index);
    assert HeldAlive(s);
    assert s.devices[i].held.Some? && s.devices[i].id == id;
    forall p | 0 <= p < |s.index.plugins| && s.index.plugins[p].descriptor.Some?
      ensures exists k :: 0 <= k < |s.devices| && s.devices[k].held.Some? && s.devices[k].id == s.index.plugins[p].id
    {
      if p != r.index.idLookup[id] {
        var k :| 0 <= k < |r.devices| && r.devices[k].held.Some? && r.devices[k].id == r.index.plugins[p].id;
        assert s.devices[k] == r.devices[k];
      }
    }
  }

  /** What GetDescriptorByID does, seen from a rack: libraries may open, and if there is a
      descriptor it is a live one of that plugin and is taken. */
  lemma GetIs(r: Rack, i: nat, id: int, sym: Symbols, a: Answers) returns (y: Index)
    requires Kept(r, sym) && i < |r.devices|
    ensures OnlyOpens(r.index, y, sym)
    ensures var (x, d) := GetDescriptor(r.index, id, sym, a);
            if d.None? then x == y
            else && id in y.idLookup && Alive(y, d.value) && d.value.id == id
                 && Taken(r.(index := y), i, id, d.value) == Rack(x, r.devices[i := Device(id, d)])
  {
    y := r.index;
    if id in r.index.idLookup {
      var p := r.index.idLookup[id];
      if r.index.plugins[p].descriptor.None? {
        y := OpenLibrary(r.index, r.index.plugins[p].library, sym, a.opens).0;
        OpenShape(r.index, r.index.plugins[p].library, sym, a.opens);
      } else {
        assert SetDescriptor(y, p, y.plugins[p].descriptor) == y;
      }
    }
  }

  lemma GetKeeps(r: Rack, i: nat, id: int, sym: Symbols, a: Answers)
    requires Kept(r, sym) && i < |r.devices| && r.devices[i].held.None?
    ensures var (x, d) := GetDescriptor(r.index, id, sym, a);
            Kept(if d.None? then r.(index := x) else Rack(x, r.devices[i := Device(id, d)]), sym)
  {
    var y := GetIs(r, i, id, sym, a);
    var (x, d) := GetDescriptor(r.index, id, sym, a);
    OnlyOpensKeeps(r, y, sym);
    if d.Some? { TakenKeeps(r.(index := y), i, id, d.value, sym); }
  }

  // ----------------------------------------------------------- giving back

  lemma ClearCounted(r: Rack, i: nat, sym: Symbols)
    requires Indexed(r.index) && Counted(r, sym) && HeldAlive(r) && i < |r.devices| && r.devices[i].held.Some?
    ensures Counted(Clear(r, i), sym)
  {
    var s := Clear(r, i);
    HolderCounts(r.devices, i, r.devices[i].held.value.library);
    forall l | 0 <= l < |s.index.libraries|
      ensures s.index.libraries[l].refCount == Holders(s.devices, l)
      ensures s.index.libraries[l].refCount > 0 ==> s.index.libraries[l].handle.Some?
      ensures s.index.libraries[l].handle.Some? ==> sym(l)
    {
      HoldersUpdate(r.devices, i, Device(0, None), l);
    }
  }

  /** A handle stays as it was unless its last holder just left. */
  lemma ClearHandles(r: Rack, i: nat, l: nat)
    requires Indexed(r.index) && HeldAlive(r) && i < |r.devices| && r.devices[i].held.Some?
    requires l < |r.index.libraries|
    ensures var s := Clear(r, i);
            && |s.index.libraries| == |r.index.libraries|
            && (s.index.libraries[l].refCount > 0 ==> s.index.libraries[l].handle == r.index.libraries[l].handle)
            && (l != r.devices[i].held.value.library ==> s.index.libraries[l] == r.index.libraries[l])
  {
  }

  lemma ClearHeldAlive(r: Rack, i: nat, sym: Symbols)
    requires Kept(r, sym) && i < |r.devices| && r.devices[i].held.Some? && Counted(Clear(r, i), sym)
    ensures HeldAlive(Clear(r, i))
  {
    var s := Clear(r, i);
    ClearKeepsIndexed(r, i);
    forall k | 0 <= k < |s.devices| && s.devices[k].held.Some?
      ensures Alive(s.index, s.devices[k].held.value) && s.devices[k].held.value.id == s.devices[k].id
    {
      assert s.devices[k] == r.devices[k] && Alive(r.index, r.devices[k].held.value);
      var l := s.devices[k].held.value.library;
      HolderCounts(s.devices, k, l);
      ClearHandles(r, i, l);
    }
  }

  lemma ClearCachedAlive(r: Rack, i: nat, sym: Symbols, p: nat)
    requires Kept(r, sym) && i < |r.devices| && r.devices[i].held.Some? && Counted(Clear(r, i), sym)
    requires p < |Clear(r, i).index.plugins| && Clear(r, i).index.plugins[p].descriptor.Some?
    ensures var s := Clear(r, i);
            && Alive(s.index, s.index.plugins[p].descriptor.value)
            && s.index.plugins[p].descriptor.value.id == s.index.plugins[p].id
            && exists k :: 0 <= k < |s.devices| && s.devices[k].held.Some? && s.devices[k].id == s.index.plugins[p].id
  {
    var s := Clear(r, i);
    ClearKeepsIndexed(r, i);
    assert p != r.index.idLookup[r.devices[i].id] && s.index.plugins[p] == r.index.plugins[p];
    var k :| 0 <= k < |r.devices| && r.devices[k].held.Some? && r.devices[k].id == r.index.plugins[p].id;
    assert k != i && s.devices[k] == r.devices[k];
    var l := r.index.plugins[p].library;
    assert Alive(r.index, r.devices[k].held.value) && Alive(r.index, r.index.plugins[p].descriptor.value);
    HolderCounts(s.devices, k, l);
    ClearHandles(r, i, l);
  }

  lemma ClearKeeps(r: Rack, i: nat, sym: Symbols)
    requires Kept(r, sym) && i < |r.devices|
    ensures Kept(Clear(r, i), sym)
  {
    ClearKeepsIndexed(r, i);
    if r.devices[i].held.Some? {
      ClearCounted(r, i, sym);
      ClearHeldAlive(r, i, sym);
      forall p | 0 <= p < |Clear(r, i).index.plugins| && Clear(r, i).index.plugins[p].descriptor.Some? {
        ClearCachedAlive(r, i, sym, p);
      }
    } else {
      RenamedKeeps(r, i, 0, sym);
    }
  }

  /** The id of a device that holds nothing is of no account. */
  lemma RenamedKeeps(r: Rack, i: nat, id: int, sym: Symbols)
    requires Kept(r, sym) && i < |r.devices| && r.devices[i].held.None?
    ensures Kept(r.(devices := r.devices[i := Device(id, None)]), sym)
  {
    var s := r.(devices := r.devices[i := Device(id, None)]);
    forall l | 0 <= l < |s.index.libraries| ensures Holders(s.devices, l) == Holders(r.devices, l) {
      HoldersUpdate(r.devices, i, Device(id, None), l);
    }
    forall p | 0 <= p < |s.index.plugins| && s.index.plugins[p].descriptor.Some?
      ensures exists k :: 0 <= k < |s.devices| && s.devices[k].held.Some? && s.devices[k].id == s.index.plugins[p].id
    {
      var k :| 0 <= k < |r.devices| && r.devices[k].held.Some? && r.devices[k].id == r.index.plugins[p].id;
      assert s.devices[k] == r.devices[k];
    }
  }

  // ------------------------------------------------------------- any run

  /** A failed instantiation is taking the descriptor and giving it back. */
  lemma FailedInstance(r: Rack, i: nat, id: int, sym: Symbols, a: Answers)
    requires Indexed(r.index) && i < |r.devices| && GetDescriptor(r.index, id, sym, a).1.Some?
    ensures var (x, d) := GetDescriptor(r.index, id, sym, a);
            && Indexed(x)
            && Clear(Rack(x, r.devices[i := Device(id, d)]), i) == Rack(Discard(x, id), r.devices[i := Device(0, None)])
  {
    GetKeepsIndexed(r.index, id, sym, a);
    var (x, d) := GetDescriptor(r.index, id, sym, a);
    assert r.devices[i := Device(id, d)][i := Device(0, None)] == r.devices[i := Device(0, None)];
  }

  lemma SelectKeeps(r: Rack, i: nat, id: int, sym: Symbols, a: Answers)
    requires Kept(r, sym) && i < |r.devices| && r.devices[i].held.None?
    ensures Kept(Select(r, i, id, sym, a), sym)
    ensures Select(r, i, id, sym, a).devices[i].held.Some? <==> CanBeHad(r.index, id, sym, a)
  {
    SelectOutcome(r, i, id, sym, a, Select(r, i, id, sym, a));
    if id == 0 || !a.hosted {
      RenamedKeeps(r, i, id, sym);
    } else {
      GetKeeps(r, i, id, sym, a);
      GetKeepsIndexed(r.index, id, sym, a);
      var (x, d) := GetDescriptor(r.index, id, sym, a);
      if d.None? {
        RenamedKeeps(r.(index := x), i, id, sym);
      } else if !a.instantiates {
        FailedInstance(r, i, id, sym, a);
        var t := Rack(x, r.devices[i := Device(id, d)]);
        ClearKeeps(t, i, sym);
        RenamedKeeps(Clear(t, i), i, id, sym);
        assert r.devices[i := Device(0, None)][i := Device(id, None)] == r.devices[i := Device(id, None)];
      }
    }
  }

  lemma LookKeeps(r: Rack, l: nat, sym: Symbols, opens: bool, found: bool)
    requires Kept(r, sym)
    ensures Kept(r.(index := LookInside(r.index, l, sym, opens, found)), sym)
  {
    LookShape(r.index, l, sym, opens, found);
    OnlyOpensKeeps(r, LookInside(r.index, l, sym, opens, found), sym);
  }

  lemma CreateKeeps(r: Rack, sym: Symbols)
    requires Kept(r, sym)
    ensures Kept(r.(devices := r.devices + [Device(0, None)]), sym)
  {
    var s := r.(devices := r.devices + [Device(0, None)]);
    forall l | 0 <= l < |s.index.libraries| ensures Holders(s.devices, l) == Holders(r.devices, l) {
      HoldersConcat(r.devices, [Device(0, None)], l);
      assert [Device(0, None)][1..] == [];
    }
    forall p | 0 <= p < |s.index.plugins| && s.index.plugins[p].descriptor.Some?
      ensures exists k :: 0 <= k < |s.devices| && s.devices[k].held.Some? && s.devices[k].id == s.index.plugins[p].id
    {
      var k :| 0 <= k < |r.devices| && r.devices[k].held.Some? && r.devices[k].id == r.index.plugins[p].id;
      assert s.devices[k] == r.devices[k];
    }
  }

  lemma RemoveKeeps(r: Rack, i: nat, sym: Symbols)
    requires Kept(r, sym) && i < |r.devices| && r.devices[i].held.None?
    ensures Kept(r.(devices := RemoveAt(r.devices, i)), sym)
  {
    var s := r.(devices := RemoveAt(r.devices, i));
    forall l | 0 <= l < |s.index.libraries| ensures Holders(s.devices, l) == Holders(r.devices, l) {
      HoldersAt(r.devices, i, l);
    }
    forall k | 0 <= k < |s.devices| ensures s.devices[k] == r.devices[if k < i then k else k + 1] {}
    forall p | 0 <= p < |s.index.plugins| && s.index.plugins[p].descriptor.Some?
      ensures exists k :: 0 <= k < |s.devices| && s.devices[k].held.Some? && s.devices[k].id == s.index.plugins[p].id
    {
      var k :| 0 <= k < |r.devices| && r.devices[k].held.Some? && r.devices[k].id == r.index.plugins[p].id;
      assert s.devices[if k < i then k else k - 1] == r.devices[k];
    }
  }

  lemma StepKeeps(r: Rack, sym: Symbols, e: Event)
    requires Kept(r, sym)
    ensures Kept(Step(r, sym, e), sym)
  {
    match e
    case Create => CreateKeeps(r, sym);
    case Update(i, id, a) =>
      if i < |r.devices| { ClearKeeps(r, i, sym); SelectKeeps(Clear(r, i), i, id, sym, a); }
    case Reset(i, a) =>
      if i < |r.devices| { ClearKeeps(r, i, sym); SelectKeeps(Clear(r, i), i, r.devices[i].id, sym, a); }
    case LoadByLabel(i, l, opens, id, a) =>
      if i < |r.devices| {
        var t := Clear(r, i);
        ClearKeeps(r, i, sym);
        LookKeeps(t, l, sym, opens, id != 0);
        SelectKeeps(t.(index := LookInside(t.index, l, sym, opens, id != 0)), i, id, sym, a);
      }
    case Destroy(i) =>
      if i < |r.devices| { ClearKeeps(r, i, sym); RemoveKeeps(Clear(r, i), i, sym); }
  }

  lemma StepIndexed(r: Rack, sym: Symbols, e: Event)
    requires Indexed(r.index)
    ensures Indexed(Step(r, sym, e).index)
  {
    match e
    case Create =>
    case Update(i, id, a) =>
      if i < |r.devices| { ClearKeepsIndexed(r, i); SelectIndexed(Clear(r, i), i, id, sym, a); }
    case Reset(i, a) =>
      if i < |r.devices| { ClearKeepsIndexed(r, i); SelectIndexed(Clear(r, i), i, r.devices[i].id, sym, a); }
    case LoadByLabel(i, l, opens, id, a) =>
      if i < |r.devices| {
        var t := Clear(r, i);
        ClearKeepsIndexed(r, i);
        LookKeepsIndexed(t.index, l, sym, opens, id != 0);
        SelectIndexed(t.(index := LookInside(t.index, l, sym, opens, id != 0)), i, id, sym, a);
      }
    case Destroy(i) =>
      if i < |r.devices| { ClearKeepsIndexed(r, i); }
  }

  lemma SelectIndexed(r: Rack, i: nat, id: int, sym: Symbols, a: Answers)
    requires Indexed(r.index) && i < |r.devices|
    ensures Indexed(Select(r, i, id, sym, a).index)
  {
    GetKeepsIndexed(r.index, id, sym, a);
    var (x, d) := GetDescriptor(r.index, id, sym, a);
    SameShapeIndexed(x, Discard(x, id));
  }

  function Run(r: Rack, sym: Symbols, events: seq<Event>): Rack
    requires Indexed(r.index)
    decreases |events|
  {
    if events == [] then r
    else
      StepIndexed(r, sym, events[0]);
      Run(Step(r, sym, events[0]), sym, events[1..])
  }

  lemma {:induction false} RunKeeps(r: Rack, sym: Symbols, events: seq<Event>)
    requires Kept(r, sym)
    ensures Kept(Run(r, sym, events), sym)
    decreases |events|
  {
    if events != [] {
      StepKeeps(r, sym, events[0]);
      RunKeeps(Step(r, sym, events[0]), sym, events[1..]);
    }
  }

  /** From a fresh scan, after any run of any number of devices: the count of a library is
      the number of devices holding from it, a counted library is open, every descriptor
      held or cached points into the opening its library is held by now, and a plugin's
      descriptor is cached only while some device holds that plugin. */
  lemma EveryRun(files: seq<File>, sym: Symbols, events: seq<Event>)
    ensures Indexed(Scan(EMPTY, files))
    ensures Kept(Run(Rack(Scan(EMPTY, files), []), sym, events), sym)
  {
    ScanIsFirstInstance(files, 0);
    RunKeeps(Rack(Scan(EMPTY, files), []), sym, events);
  }

  // ------------------------------------------ when a plugin is had, and what it costs

  /** A plugin can be had: it is named and indexed, the host is known, an instance can be
      made, and its descriptor is cached or can be fetched from its library. */
  predicate CanBeHad(x: Index, id: int, sym: Symbols, a: Answers) {
    id != 0 && a.hosted && a.instantiates && InReach(x, id, sym, a)
  }

  /** The descriptor of the id is cached, or its library is open or opens, has the symbol and
      holds the descriptor. */
  predicate InReach(x: Index, id: int, sym: Symbols, a: Answers) {
    && id in x.idLookup && x.idLookup[id] < |x.plugins|
    && var g := x.plugins[x.idLookup[id]];
       || g.descriptor.Some?
       || (g.library < |x.libraries| && (x.libraries[g.library].handle.Some? || a.opens) && sym(g.library) && a.present)
  }

  predicate HomeOf(x: Index, id: int, l: nat) {
    id in x.idLookup && x.idLookup[id] < |x.plugins| && x.plugins[x.idLookup[id]].library == l
  }

  /** The library is open after the id was tried: always if the plugin is had; if only an
      instance was wanting, just when others hold from it; and one that opened but does not
      hold the descriptor is not closed again. */
  predicate OpenAfter(x: Index, id: int, l: nat, sym: Symbols, a: Answers)
    requires l < |x.libraries|
  {
    if id == 0 || !a.hosted || !HomeOf(x, id, l) then x.libraries[l].handle.Some?
    else if CanBeHad(x, id, sym, a) then true
    else if InReach(x, id, sym, a) then x.libraries[l].refCount > 0
    else x.libraries[l].handle.Some? || (a.opens && sym(l))
  }

  /** `x` before and `y` after the id was tried, `held` what the device has of it. */
  ghost predicate Outcome(x: Index, y: Index, id: int, sym: Symbols, a: Answers, held: Option<Descriptor>) {
    && (held.Some? <==> CanBeHad(x, id, sym, a))
    && |y.libraries| == |x.libraries|
    && (forall l :: 0 <= l < |x.libraries| ==>
          && y.libraries[l].refCount == x.libraries[l].refCount + (if held.Some? && HomeOf(x, id, l) then 1 else 0)
          && (y.libraries[l].handle.Some? <==> OpenAfter(x, id, l, sym, a)))
  }

  lemma FetchExact(x: Index, id: int, sym: Symbols, a: Answers)
    requires Indexed(x) && id in x.idLookup
    requires forall l :: 0 <= l < |x.libraries| && x.libraries[l].handle.Some? ==> sym(l)
    ensures var p := x.idLookup[id]; var y := Fetch(x, p, sym, a);
            && |y.plugins| == |x.plugins| && |y.libraries| == |x.libraries|
            && y.plugins[p].library == x.plugins[p].library
            && (y.plugins[p].descriptor.Some? <==> InReach(x, id, sym, a))
            && (forall l :: 0 <= l < |x.libraries| ==>
                  && y.libraries[l].refCount == x.libraries[l].refCount
                  && (y.libraries[l].handle.Some? <==>
                        x.libraries[l].handle.Some?
                        || (HomeOf(x, id, l) && x.plugins[p].descriptor.None? && a.opens && sym(l))))
  {
  }

  /** What GetDescriptorByID finds and counts. */
  lemma GetExact(x: Index, id: int, sym: Symbols, a: Answers, y: Index, d: Option<Descriptor>)
    requires Indexed(x) && (y, d) == GetDescriptor(x, id, sym, a)
    requires forall l :: 0 <= l < |x.libraries| && x.libraries[l].handle.Some? ==> sym(l)
    ensures d.Some? <==> InReach(x, id, sym, a)
    ensures |y.libraries| == |x.libraries|
    ensures forall l :: 0 <= l < |x.libraries| ==>
              && y.libraries[l].refCount == x.libraries[l].refCount + (if d.Some? && HomeOf(x, id, l) then 1 else 0)
              && (y.libraries[l].handle.Some? <==>
                    x.libraries[l].handle.Some?
                    || (HomeOf(x, id, l) && x.plugins[x.idLookup[id]].descriptor.None? && a.opens && sym(l)))
  {
    if id in x.idLookup { FetchExact(x, id, sym, a); }
  }

  /** A library whose plugin is cached is open. */
  lemma CachedIsOpen(r: Rack, sym: Symbols, id: int, l: nat)
    requires Kept(r, sym) && HomeOf(r.index, id, l) && r.index.plugins[r.index.idLookup[id]].descriptor.Some?
    ensures l < |r.index.libraries| && r.index.libraries[l].handle.Some?
  {
    assert Alive(r.index, r.index.plugins[r.index.idLookup[id]].descriptor.value);
  }

  lemma DiscardExact(x: Index, id: int, l: nat)
    requires Indexed(x) && l < |x.libraries| && (HomeOf(x, id, l) ==> x.libraries[l].refCount > 0)
    ensures var y := Discard(x, id);
            && |y.libraries| == |x.libraries|
            && y.libraries[l].refCount == x.libraries[l].refCount - (if HomeOf(x, id, l) then 1 else 0)
            && (y.libraries[l].handle.Some? <==>
                  x.libraries[l].handle.Some? && !(HomeOf(x, id, l) && x.libraries[l].refCount == 1))
  {
  }

  /** Trying an id succeeds exactly when it can be had. */
  lemma ChosenHad(x: Index, id: int, sym: Symbols, a: Answers)
    requires Indexed(x)
    ensures Chosen(x, id, sym, a).1.Some? <==> CanBeHad(x, id, sym, a)
  {
  }

  lemma SelectOutcome(r: Rack, i: nat, id: int, sym: Symbols, a: Answers, s: Rack)
    requires Kept(r, sym) && i < |r.devices| && r.devices[i].held.None? && s == Select(r, i, id, sym, a)
    ensures s.devices == r.devices[i := Device(id, s.devices[i].held)]
    ensures Outcome(r.index, s.index, id, sym, a, s.devices[i].held)
  {
    var x := r.index;
    if id != 0 && a.hosted {
      var (y, d) := GetDescriptor(x, id, sym, a);
      GetKeepsIndexed(x, id, sym, a);
      GetExact(x, id, sym, a, y, d);
      forall l | 0 <= l < |x.libraries|
        ensures s.index.libraries[l].refCount
                == x.libraries[l].refCount + (if s.devices[i].held.Some? && HomeOf(x, id, l) then 1 else 0)
        ensures s.index.libraries[l].handle.Some? <==> OpenAfter(x, id, l, sym, a)
      {
        if d.Some? && !a.instantiates { DiscardExact(y, id, l); }
        if HomeOf(x, id, l) && x.plugins[x.idLookup[id]].descriptor.Some? { CachedIsOpen(r, sym, id, l); }
      }
    }
  }

  /** What ClearPlugin gives up: one hold on the library of what was held, which closes if it
      was the last, and the cached descriptor, which others may be holding too. */
  lemma ClearExact(r: Rack, i: nat, sym: Symbols, s: Rack)
    requires Kept(r, sym) && i < |r.devices| && s == Clear(r, i)
    ensures s.devices == r.devices[i := Device(0, None)] && Kept(s, sym)
    ensures |s.index.libraries| == |r.index.libraries| && |s.index.plugins| == |r.index.plugins|
    ensures forall l :: 0 <= l < |r.index.libraries| ==>
              var x, y := r.index.libraries[l], s.index.libraries[l];
              && y.refCount == x.refCount - (if HoldsFrom(r.devices[i], l) then 1 else 0)
              && (y.handle.Some? <==> x.handle.Some? && !(HoldsFrom(r.devices[i], l) && x.refCount == 1))
    ensures forall p :: 0 <= p < |r.index.plugins| ==>
              s.index.plugins[p].descriptor
              == if r.devices[i].held.Some? && r.index.plugins[p].id == r.devices[i].id then None
                 else r.index.plugins[p].descriptor
  {
    ClearKeeps(r, i, sym);
    if r.devices[i].held.Some? {
      assert Alive(r.index, r.devices[i].held.value);
      forall l | 0 <= l < |r.index.libraries| && HoldsFrom(r.devices[i], l)
        ensures r.index.libraries[l].refCount > 0
      {
        HolderCounts(r.devices, i, l);
      }
    }
  }

  /** Choosing a plugin for a device gives it a live descriptor of that plugin if and only if
      it can be had, after the device gave up what it held; nothing else is held or counted. */
  lemma UpdateExact(r: Rack, sym: Symbols, i: nat, id: int, a: Answers, s: Rack)
    requires Kept(r, sym) && i < |r.devices| && s == Step(r, sym, Update(i, id, a))
    ensures Kept(s, sym) && s.devices == r.devices[i := Device(id, s.devices[i].held)]
    ensures Outcome(Clear(r, i).index, s.index, id, sym, a, s.devices[i].held)
    ensures s.devices[i].held.Some? ==> s.devices[i].held.value.id == id && Alive(s.index, s.devices[i].held.value)
  {
    ClearKeeps(r, i, sym);
    StepKeeps(r, sym, Update(i, id, a));
    SelectOutcome(Clear(r, i), i, id, sym, a, s);
    assert r.devices[i := Device(0, None)][i := s.devices[i]] == r.devices[i := s.devices[i]];
  }

  /** A reset is choosing the same plugin again. */
  lemma ResetExact(r: Rack, sym: Symbols, i: nat, a: Answers)
    requires Kept(r, sym) && i < |r.devices|
    ensures Step(r, sym, Reset(i, a)) == Step(r, sym, Update(i, r.devices[i].id, a))
  {
  }

  /** Looking a label up in a library opens it if it was closed, and closes it again only if
      the label was found. */
  lemma LookExact(x: Index, l: nat, sym: Symbols, opens: bool, found: bool, k: nat)
    requires k < |x.libraries| && (x.libraries[k].handle.Some? ==> sym(k))
    ensures var y := LookInside(x, l, sym, opens, found);
            && |y.libraries| == |x.libraries| && y.libraries[k].refCount == x.libraries[k].refCount
            && (y.libraries[k].handle.Some? <==>
                  x.libraries[k].handle.Some? || (k == l && opens && sym(l) && !found))
  {
  }

  lemma LoadByLabelExact(r: Rack, sym: Symbols, i: nat, l: nat, opens: bool, id: int, a: Answers, s: Rack)
    requires Kept(r, sym) && i < |r.devices| && s == Step(r, sym, LoadByLabel(i, l, opens, id, a))
    ensures Kept(s, sym) && s.devices == r.devices[i := Device(id, s.devices[i].held)]
    ensures Outcome(LookInside(Clear(r, i).index, l, sym, opens, id != 0), s.index, id, sym, a, s.devices[i].held)
  {
    var t := Clear(r, i);
    ClearKeeps(r, i, sym);
    StepKeeps(r, sym, LoadByLabel(i, l, opens, id, a));
    LookKeeps(t, l, sym, opens, id != 0);
    var u := t.(index := LookInside(t.index, l, sym, opens, id != 0));
    SelectOutcome(u, i, id, sym, a, s);
    assert r.devices[i := Device(0, None)][i := s.devices[i]] == r.devices[i := s.devices[i]];
  }

  /** So a plugin a scan found in a library that opens and has it is held by the device that
      chooses it, the first to do so, with a count of one. */
  lemma FirstHolder(files: seq<File>, sym: Symbols, id: int, s: Rack)
    requires Indexed(Scan(EMPTY, files)) && id != 0 && id in Scan(EMPTY, files).idLookup
    requires var x := Scan(EMPTY, files); sym(x.plugins[x.idLookup[id]].library)
    requires s == Run(Rack(Scan(EMPTY, files), []), sym, [Create, Update(0, id, Answers(true, true, true, true))])
    ensures |s.devices| == 1 && s.devices[0].held.Some? && s.devices[0].held.value.id == id
    ensures var l := s.devices[0].held.value.library;
            && l < |s.index.libraries| && s.index.libraries[l].refCount == 1 && s.index.libraries[l].handle.Some?
  {
    var r0 := Rack(Scan(EMPTY, files), []);
    var a := Answers(true, true, true, true);
    EveryRun(files, sym, []);
    StepKeeps(r0, sym, Create);
    var r1 := Step(r0, sym, Create);
    var es := [Create, Update(0, id, a)];
    assert es[1..] == [Update(0, id, a)] && es[1..][1..] == [];
    assert s == Run(r1, sym, es[1..]);
    assert s == Step(r1, sym, Update(0, id, a));
    UpdateExact(r1, sym, 0, id, a, s);
    var d := s.devices[0].held.value;
    assert Holders(s.devices, d.library) == 1 by {
      HoldersConcat([], s.devices, d.library);
      HoldersAt(s.devices, 0, d.library);
      assert RemoveAt(s.devices, 0) == [];
    }
  }
}
