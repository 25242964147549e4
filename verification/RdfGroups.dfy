/**
 The groups of LADSPA plugins: a walk of the RDF subclass graph, cycles and diamonds
 included, and the group that takes every plugin the graph does not mention.
 */
module RdfGroups {
  import opened Wrappers
  import opened GroupGaps

  /** The subclasses of a URI in order; a URI with none is not in the map. */
  type Graph = map<string, seq<string>>

  datatype Group = Group(uri: string, parents: seq<nat>, children: seq<nat>, plugins: seq<nat>)

  function Subs(g: Graph, uri: string): seq<string> { if uri in g then g[uri] else [] }

  // --------------------------------------------------------------- reachability

  ghost predicate IsPath(g: Graph, p: seq<string>) {
    |p| > 0 && forall i :: 0 <= i < |p| - 1 ==> p[i + 1] in Subs(g, p[i])
  }

  ghost predicate Joins(g: Graph, p: seq<string>, a: string, b: string) {
    IsPath(g, p) && p[0] == a && p[|p| - 1] == b
  }

  ghost predicate Reaches(g: Graph, a: string, b: string) { exists p :: Joins(g, p, a, b) }

  lemma ReachesSelf(g: Graph, a: string)
    ensures Reaches(g, a, a)
  {
    assert Joins(g, [a], a, a);
  }

  lemma ReachesOn(g: Graph, a: string, s: string, b: string)
    requires s in Subs(g, a) && Reaches(g, s, b)
    ensures Reaches(g, a, b)
  {
    var p :| Joins(g, p, s, b);
    assert Joins(g, [a] + p, a, b);
  }

  /** A set that holds the start and every subclass of its members holds all it reaches. */
  lemma {:induction false} ClosedHolds(g: Graph, s: set<string>, p: seq<string>)
    requires IsPath(g, p) && p[0] in s
    requires forall a, b :: a in s && b in Subs(g, a) ==> b in s
    ensures p[|p| - 1] in s
    decreases |p|
  {
    if |p| > 1 {
      assert p[1] in Subs(g, p[0]);
      forall i | 0 <= i < |p[1..]| - 1
        ensures p[1..][i + 1] in Subs(g, p[1..][i])
      {
        assert p[i + 2] in Subs(g, p[i + 1]);
      }
      ClosedHolds(g, s, p[1..]);
    }
  }

  // ------------------------------------------------------------ what the walk keeps

  /** The list and the lookup are inverse: no URI is listed twice. */
  ghost predicate Inverse(ns: seq<Group>, lookup: map<string, nat>) {
    && (forall u :: u in lookup ==> lookup[u] < |ns| && ns[lookup[u]].uri == u)
    && (forall i :: 0 <= i < |ns| ==> ns[i].uri in lookup && lookup[ns[i].uri] == i)
  }

  /** Parents are the transpose of children, with multiplicity. */
  ghost predicate Transposed(ns: seq<Group>) {
    forall i, j :: 0 <= i < |ns| && 0 <= j < |ns| ==> Count(ns[i].parents, j) == Count(ns[j].children, i)
  }

  /** The indices of these URIs in order, if all are listed; the root, at 0, is nobody's
      child. */
  function Kids(lookup: map<string, nat>, subs: seq<string>): Option<seq<nat>> {
    if subs == [] then Some([])
    else
      var rest, s := Kids(lookup, subs[..|subs| - 1]), subs[|subs| - 1];
      if rest.None? || s !in lookup then None
      else Some(rest.value + KidOf(lookup[s]))
  }

  function KidOf(i: nat): seq<nat> { if i > 0 then [i] else [] }

  lemma {:induction false} KidsListed(lookup: map<string, nat>, subs: seq<string>, s: string)
    requires Kids(lookup, subs).Some? && s in subs
    ensures s in lookup
  {
    if s != subs[|subs| - 1] { KidsListed(lookup, subs[..|subs| - 1], s); }
  }

  ghost predicate Extends(l0: map<string, nat>, l1: map<string, nat>) {
    forall u :: u in l0 ==> u in l1 && l1[u] == l0[u]
  }

  lemma {:induction false} KidsStay(l0: map<string, nat>, l1: map<string, nat>, subs: seq<string>)
    requires Extends(l0, l1) && Kids(l0, subs).Some?
    ensures Kids(l1, subs) == Kids(l0, subs)
    decreases |subs|
  {
    if subs != [] { KidsStay(l0, l1, subs[..|subs| - 1]); }
  }

  /** All subclasses of a group are listed, and its children are they, in order. */
  ghost predicate Complete(n: Group, lookup: map<string, nat>, g: Graph) {
    Kids(lookup, Subs(g, n.uri)) == Some(n.children)
  }

  ghost predicate CompleteFrom(ns: seq<Group>, lookup: map<string, nat>, g: Graph, from: nat) {
    forall i :: from <= i < |ns| ==> Complete(ns[i], lookup, g)
  }

  /** Old groups keep all but this: one of them gains these children, and any may gain
      parents. */
  ghost predicate Kept(n0: seq<Group>, n1: seq<Group>, parent: nat, more: seq<nat>) {
    && |n0| <= |n1|
    && (forall i :: 0 <= i < |n0| ==>
          && n1[i].uri == n0[i].uri && n1[i].plugins == n0[i].plugins
          && n1[i].children == n0[i].children + (if i == parent then more else []))
  }

  ghost predicate AllReached(ns: seq<Group>, g: Graph, from: nat, uri: string) {
    forall i :: from <= i < |ns| ==> Reaches(g, uri, ns[i].uri)
  }

  ghost predicate AllInstances(ns: seq<Group>, instances: string -> seq<nat>, from: nat) {
    forall i :: from <= i < |ns| ==> ns[i].plugins == instances(ns[i].uri)
  }

  datatype View = View(groups: seq<Group>, lookup: map<string, nat>)

  /** From one state to a later one: `here` gained these children, and every group new
      since is complete, reached from this URI and holds its instances. */
  ghost predicate Swept(v0: View, v1: View, g: Graph, instances: string -> seq<nat>, uri: string, here: nat,
                        more: seq<nat>) {
    && Extends(v0.lookup, v1.lookup)
    && Kept(v0.groups, v1.groups, here, more)
    && CompleteFrom(v1.groups, v1.lookup, g, |v0.groups|)
    && AllReached(v1.groups, g, |v0.groups|, uri)
    && AllInstances(v1.groups, instances, |v0.groups|)
  }

  /** What a descent to a URI does: it is listed, and its parent has it as a child. */
  ghost predicate Descended(v0: View, v1: View, g: Graph, instances: string -> seq<nat>, uri: string, parent: nat) {
    && uri in v1.lookup && (uri !in v0.lookup ==> v1.lookup[uri] == |v0.groups|)
    && Swept(v0, v1, g, instances, uri, parent, KidOf(v1.lookup[uri]))
  }

  lemma CompleteStays(n0: Group, n1: Group, l0: map<string, nat>, l1: map<string, nat>, g: Graph)
    requires Complete(n0, l0, g) && Extends(l0, l1) && n1.uri == n0.uri && n1.children == n0.children
    ensures Complete(n1, l1, g)
  {
    KidsStay(l0, l1, Subs(g, n0.uri));
  }

  lemma KidsSnoc(lookup: map<string, nat>, subs: seq<string>, s: string)
    requires s in lookup && Kids(lookup, subs).Some?
    ensures Kids(lookup, subs + [s]) == Some(Kids(lookup, subs).value + KidOf(lookup[s]))
  {
    assert (subs + [s])[..|subs|] == subs;
  }

  lemma KeptTwice(n0: seq<Group>, n1: seq<Group>, n2: seq<Group>, here: nat, a: seq<nat>, b: seq<nat>)
    requires Kept(n0, n1, here, a) && Kept(n1, n2, here, b)
    ensures Kept(n0, n2, here, a + b)
  {
    forall i | 0 <= i < |n0|
      ensures n2[i].uri == n0[i].uri && n2[i].plugins == n0[i].plugins
      ensures n2[i].children == n0[i].children + (if i == here then a + b else [])
    {
      assert n2[i].children == n1[i].children + (if i == here then b else []);
    }
  }

  /** One more subclass descended to. */
  lemma SweepStep(v0: View, v1: View, v2: View, g: Graph, instances: string -> seq<nat>, uri: string, here: nat,
                  done: seq<string>, sub: string, kids: seq<nat>)
    requires sub in Subs(g, uri) && here < |v0.groups|
    requires Kids(v1.lookup, done) == Some(kids)
    requires Swept(v0, v1, g, instances, uri, here, kids)
    requires Descended(v1, v2, g, instances, sub, here)
    ensures Kids(v2.lookup, done + [sub]) == Some(kids + KidOf(v2.lookup[sub]))
    ensures Swept(v0, v2, g, instances, uri, here, kids + KidOf(v2.lookup[sub]))
  {
    KidsStay(v1.lookup, v2.lookup, done);
    KidsSnoc(v2.lookup, done, sub);
    KeptTwice(v0.groups, v1.groups, v2.groups, here, kids, KidOf(v2.lookup[sub]));
    forall k | |v0.groups| <= k < |v2.groups|
      ensures Complete(v2.groups[k], v2.lookup, g)
      ensures Reaches(g, uri, v2.groups[k].uri)
      ensures v2.groups[k].plugins == instances(v2.groups[k].uri)
    {
      if k < |v1.groups| {
        CompleteStays(v1.groups[k], v2.groups[k], v1.lookup, v2.lookup, g);
      } else {
        ReachesOn(g, uri, sub, v2.groups[k].uri);
      }
    }
  }

  /** A URI listed, linked to its parent, and swept. */
  lemma NewDescended(v0: View, v1: View, v2: View, g: Graph, instances: string -> seq<nat>, uri: string,
                     parent: nat, kids: seq<nat>)
    requires uri !in v0.lookup && v1.lookup == v0.lookup[uri := |v0.groups|]
    requires var grown := v0.groups + [Group(uri, [], [], instances(uri))];
             v1.groups == if |v0.groups| > 0 && parent < |grown| then Link(grown, |v0.groups|, parent) else grown
    requires parent < |v0.groups| || v0.groups == []
    requires Swept(v1, v2, g, instances, uri, |v0.groups|, kids) && Kids(v2.lookup, Subs(g, uri)) == Some(kids)
    ensures Descended(v0, v2, g, instances, uri, parent)
  {
    var here := |v0.groups|;
    assert v1.groups[here].uri == uri && v1.groups[here].children == [] && v1.groups[here].plugins == instances(uri);
    assert v2.groups[here].children == [] + kids && [] + kids == kids;
    assert Complete(v2.groups[here], v2.lookup, g);
    ReachesSelf(g, uri);
    assert Kept(v0.groups, v1.groups, parent, KidOf(here));
    KeptOver(v0.groups, v1.groups, v2.groups, parent, here, KidOf(here), kids);
  }

  lemma KeptOver(n0: seq<Group>, n1: seq<Group>, n2: seq<Group>, parent: nat, here: nat, a: seq<nat>, b: seq<nat>)
    requires Kept(n0, n1, parent, a) && Kept(n1, n2, here, b) && here >= |n0|
    ensures Kept(n0, n2, parent, a)
  {
    forall i | 0 <= i < |n0|
      ensures n2[i].uri == n0[i].uri && n2[i].plugins == n0[i].plugins
      ensures n2[i].children == n0[i].children + (if i == parent then a else [])
    {
      assert n2[i].children == n1[i].children + [];
    }
  }

  lemma LinkDescended(v0: View, g: Graph, instances: string -> seq<nat>, uri: string, parent: nat, ns: seq<Group>)
    requires uri in v0.lookup && v0.lookup[uri] < |v0.groups| && parent < |v0.groups|
    requires ns == if v0.lookup[uri] > 0 then Link(v0.groups, v0.lookup[uri], parent) else v0.groups
    ensures Descended(v0, View(ns, v0.lookup), g, instances, uri, parent)
  {
  }

  /** A link between two groups, as both branches of the walk push it. */
  function Link(ns: seq<Group>, child: nat, parent: nat): seq<Group>
    requires child < |ns| && parent < |ns|
  {
    var up := ns[child := ns[child].(parents := ns[child].parents + [parent])];
    up[parent := up[parent].(children := up[parent].children + [child])]
  }

  lemma LinkTransposed(ns: seq<Group>, child: nat, parent: nat)
    requires Transposed(ns) && child < |ns| && parent < |ns|
    ensures Transposed(Link(ns, child, parent))
  {
    var r := Link(ns, child, parent);
    forall i, j | 0 <= i < |r| && 0 <= j < |r| ensures Count(r[i].parents, j) == Count(r[j].children, i) {
      CountSnoc(ns[child].parents, parent, j);
      CountSnoc(ns[parent].children, child, i);
    }
  }

  lemma NewTransposed(ns: seq<Group>, n: Group)
    requires Transposed(ns) && n.parents == [] && n.children == []
    requires forall i :: 0 <= i < |ns| ==> Count(ns[i].parents, |ns|) == 0 && Count(ns[i].children, |ns|) == 0
    ensures Transposed(ns + [n])
  {
    var r, k := ns + [n], |ns|;
    forall i, j | 0 <= i < |r| && 0 <= j < |r| ensures Count(r[i].parents, j) == Count(r[j].children, i) {
      if i < k && j < k {
        assert r[i] == ns[i] && r[j] == ns[j];
      } else {
        assert Count(r[i].parents, j) == 0 by {
          if i < k { assert r[i] == ns[i] && j == k; } else { assert r[i] == n; }
        }
        assert Count(r[j].children, i) == 0 by {
          if j < k { assert r[j] == ns[j] && i == k; } else { assert r[j] == n; }
        }
      }
    }
  }

  /** Links only name groups that are there. */
  ghost predicate LinksInRange(ns: seq<Group>) {
    forall i :: 0 <= i < |ns| ==>
      (forall x :: x in ns[i].parents ==> x < |ns|) && (forall x :: x in ns[i].children ==> x < |ns|)
  }

  // -------------------------------------------------------------------- the walk

  class Groups {
    var groups: seq<Group>
    var lookup: map<string, nat>

    constructor ()
      ensures groups == [] && lookup == map[]
    {
      groups, lookup := [], map[];
    }

    ghost function Now(): View
      reads this
    {
      View(groups, lookup)
    }

    ghost predicate Sound()
      reads this
    {
      Inverse(groups, lookup) && Transposed(groups) && LinksInRange(groups)
    }

    method AddLink(child: nat, parent: nat)
      requires Sound() && child < |groups|
      modifies this`groups
      ensures Sound()
      ensures groups == if child > 0 && parent < |old(groups)| then Link(old(groups), child, parent) else old(groups)
    {
      if child > 0 && parent < |groups| {
        LinkTransposed(groups, child, parent);
        LinkKeeps(groups, lookup, child, parent);
        groups := groups[child := groups[child].(parents := groups[child].parents + [parent])];
        groups := groups[parent := groups[parent].(children := groups[parent].children + [child])];
      }
    }

    method AddGroup(uri: string, plugins: seq<nat>) returns (i: nat)
      requires Sound() && uri !in lookup
      modifies this
      ensures Sound() && i == |old(groups)|
      ensures groups == old(groups) + [Group(uri, [], [], plugins)] && lookup == old(lookup)[uri := i]
    {
      i := |groups|;
      var n := Group(uri, [], [], plugins);
      forall k | 0 <= k < |groups| ensures Count(groups[k].parents, i) == 0 && Count(groups[k].children, i) == 0 {
        CountNone(groups[k].parents, i);
        CountNone(groups[k].children, i);
      }
      NewTransposed(groups, n);
      groups := groups + [n];
      lookup := lookup[uri := i];
    }

    /** MetadataRDFDescend. `universe` is any finite set closed under subclasses; what of
        it is not yet listed shrinks with every descent. */
    method Descend(g: Graph, instances: string -> seq<nat>, uri: string, parent: nat, ghost universe: set<string>)
      requires Sound() && uri in universe && (parent < |groups| || groups == [])
      requires Closed(g, universe)
      modifies this
      ensures Sound() && Descended(old(Now()), Now(), g, instances, uri, parent)
      decreases universe - lookup.Keys, 1
    {
      ghost var v0 := Now();
      if uri !in lookup {
        var here := AddGroup(uri, instances(uri));
        AddLink(here, parent);
        ghost var v1 := Now();
        ghost var kids := DescendAll(g, instances, uri, here, universe);
        NewDescended(v0, v1, Now(), g, instances, uri, parent, kids);
      } else {
        var here := lookup[uri];
        AddLink(here, parent);
        LinkDescended(v0, g, instances, uri, parent, groups);
      }
    }

    /** Its loop over the subclasses of a URI just listed. */
    method DescendAll(g: Graph, instances: string -> seq<nat>, uri: string, here: nat, ghost universe: set<string>)
      returns (ghost kids: seq<nat>)
      requires Sound() && uri in universe && here < |groups|
      requires Closed(g, universe)
      modifies this
      ensures Sound() && Swept(old(Now()), Now(), g, instances, uri, here, kids)
      ensures Kids(lookup, Subs(g, uri)) == Some(kids)
      decreases universe - lookup.Keys, 3
    {
      var subs := if uri in g then g[uri] else [];
      var i := 0;
      ghost var v0 := Now();
      ghost var done: seq<string>;
      done, kids := [], [];
      while i < |subs|
        invariant i <= |subs| && Sound() && Extends(v0.lookup, lookup)
        invariant Swept(v0, Now(), g, instances, uri, here, kids)
        invariant Kids(lookup, done) == Some(kids)
        invariant done == subs[..i]
      {
        StillSmaller(universe, v0.lookup, lookup);
        SubInside(g, universe, uri, i);
        kids := DescendOne(g, instances, uri, subs[i], here, done, kids, v0, universe);
        PrefixGrows(subs, i);
        done := done + [subs[i]];
        i := i + 1;
      }
      PrefixIsAll(subs);
    }

    /** The whole walk, from nothing. */
    method Explore(g: Graph, instances: string -> seq<nat>, root: string)
      requires groups == [] && lookup == map[]
      modifies this
      ensures Explored(Now(), g, root) && AllInstances(groups, instances, 0) && Sound()
    {
      EveryMention(g, root);
      Descend(g, instances, root, 0, Mentioned(g, root));
      WalkIsExact(Now(), g, instances, root);
    }

    /** The tail of RescanPlugins: group 0 takes the plugins no group mentions. */
    method FillGaps(size: nat)
      requires |groups| > 0
      modifies this`groups
      ensures groups == FilledGroups(old(groups), size)
    {
      var all := [];
      var i := 0;
      while i < |groups|
        invariant i <= |groups| && all == Mentions(groups, i)
      {
        all := groups[i].plugins + all;
        i := i + 1;
      }
      var gained := Gaps(all, size);
      groups := groups[0 := groups[0].(plugins := groups[0].plugins + gained)];
    }

    method DescendOne(g: Graph, instances: string -> seq<nat>, ghost uri: string, sub: string, here: nat,
                      ghost done: seq<string>, ghost kids: seq<nat>, ghost v0: View, ghost universe: set<string>)
      returns (ghost more: seq<nat>)
      requires Sound() && sub in universe && Closed(g, universe)
      requires here < |v0.groups| && Swept(v0, Now(), g, instances, uri, here, kids)
      requires Kids(lookup, done) == Some(kids)
      requires sub in Subs(g, uri)
      modifies this
      ensures Sound() && Swept(v0, Now(), g, instances, uri, here, more)
      ensures Kids(lookup, done + [sub]) == Some(more)
      decreases universe - lookup.Keys, 2
    {
      ghost var v1 := Now();
      Descend(g, instances, sub, here, universe);
      SweepStep(v0, v1, Now(), g, instances, uri, here, done, sub, kids);
      more := kids + KidOf(lookup[sub]);
    }
  }

  lemma PrefixGrows(s: seq<string>, i: nat)
    requires i < |s|
    ensures s[..i] + [s[i]] == s[..i + 1]
  {
  }

  lemma PrefixIsAll(s: seq<string>)
    ensures s[..|s|] == s
  {
  }

  lemma SubInside(g: Graph, universe: set<string>, uri: string, i: nat)
    requires Closed(g, universe) && uri in universe && i < |Subs(g, uri)|
    ensures Subs(g, uri)[i] in universe
  {
  }

  ghost predicate Closed(g: Graph, universe: set<string>) {
    forall a, b :: a in universe && b in Subs(g, a) ==> b in universe
  }

  lemma StillSmaller(universe: set<string>, l0: map<string, nat>, l1: map<string, nat>)
    requires Extends(l0, l1)
    ensures universe - l1.Keys <= universe - l0.Keys
  {
  }

  lemma LinkKeeps(ns: seq<Group>, lookup: map<string, nat>, child: nat, parent: nat)
    requires Inverse(ns, lookup) && LinksInRange(ns) && child < |ns| && parent < |ns|
    ensures Inverse(Link(ns, child, parent), lookup) && LinksInRange(Link(ns, child, parent))
  {
  }

  // ---------------------------------------------------------- the walk is exact

  /** A group for each URI the root reaches and no other, the root first, each with its
      subclasses in order as its children. */
  ghost predicate Explored(v: View, g: Graph, root: string) {
    && (forall u :: u in v.lookup <==> Reaches(g, root, u))
    && root in v.lookup && v.lookup[root] == 0
    && (forall i :: 0 <= i < |v.groups| ==> Kids(v.lookup, Subs(g, v.groups[i].uri)) == Some(v.groups[i].children))
  }

  ghost function Mentioned(g: Graph, root: string): set<string> {
    {root} + set a, i | a in g && 0 <= i < |g[a]| :: g[a][i]
  }

  lemma EveryMention(g: Graph, root: string)
    ensures Closed(g, Mentioned(g, root))
  {
    forall a, b | a in Mentioned(g, root) && b in Subs(g, a) ensures b in Mentioned(g, root) {
      var i :| 0 <= i < |g[a]| && g[a][i] == b;
    }
  }

  lemma WalkIsExact(v: View, g: Graph, instances: string -> seq<nat>, root: string)
    requires Inverse(v.groups, v.lookup) && Descended(View([], map[]), v, g, instances, root, 0)
    requires v.lookup[root] == 0
    ensures Explored(v, g, root)
  {
    forall u ensures u in v.lookup <==> Reaches(g, root, u) {
      if u in v.lookup {
        assert Reaches(g, root, v.groups[v.lookup[u]].uri);
      }
      if Reaches(g, root, u) {
        var p :| Joins(g, p, root, u);
        forall a, b | a in v.lookup && b in Subs(g, a) ensures b in v.lookup {
          assert Complete(v.groups[v.lookup[a]], v.lookup, g);
          KidsListed(v.lookup, Subs(g, a), b);
        }
        ClosedHolds(g, v.lookup.Keys, p);
      }
    }
    forall i | 0 <= i < |v.groups| ensures Kids(v.lookup, Subs(g, v.groups[i].uri)) == Some(v.groups[i].children) {
      assert Complete(v.groups[i], v.lookup, g);
    }
  }

  // ----------------------------------------------------------------- the gaps

  /** The plugins of the first so many groups. */
  function Mentions(ns: seq<Group>, n: nat): seq<nat>
    requires n <= |ns|
  {
    if n == 0 then [] else ns[n - 1].plugins + Mentions(ns, n - 1)
  }

  function FilledGroups(ns: seq<Group>, size: nat): seq<Group>
    requires |ns| > 0
  {
    ns[0 := ns[0].(plugins := ns[0].plugins + Unmentioned(Mentions(ns, |ns|), size))]
  }

  ghost predicate Somewhere(ns: seq<Group>, n: nat, x: nat)
    requires n <= |ns|
  {
    exists i :: 0 <= i < n && x in ns[i].plugins
  }

  lemma {:induction false} MentionedSomewhere(ns: seq<Group>, n: nat, x: nat)
    requires n <= |ns|
    ensures x in Mentions(ns, n) <==> Somewhere(ns, n, x)
  {
    if n > 0 { MentionedSomewhere(ns, n - 1, x); }
  }

  /** After the fill every plugin is in some group. Group 0 gained each plugin that was in
      none exactly once, in ascending order, and nothing else; no other group changed. */
  lemma FillIsExact(ns: seq<Group>, size: nat, x: nat)
    requires |ns| > 0
    ensures var filled := FilledGroups(ns, size);
            && |filled| == |ns| && (forall i :: 0 < i < |ns| ==> filled[i] == ns[i])
            && (x < size ==> Somewhere(filled, |filled|, x))
    ensures exists gained ::
              && FilledGroups(ns, size)[0].plugins == ns[0].plugins + gained
              && Count(gained, x) == (if x < size && !Somewhere(ns, |ns|, x) then 1 else 0)
              && (forall i, j :: 0 <= i < j < |gained| ==> gained[i] < gained[j])
  {
    var gained, filled := Unmentioned(Mentions(ns, |ns|), size), FilledGroups(ns, size);
    UnmentionedIs(Mentions(ns, |ns|), size, x);
    UnmentionedAscends(Mentions(ns, |ns|), size);
    MentionedSomewhere(ns, |ns|, x);
    assert filled[0].plugins == ns[0].plugins + gained;
    if x < size {
      if x in Mentions(ns, |ns|) {
        var i :| 0 <= i < |ns| && x in ns[i].plugins;
        assert x in filled[i].plugins;
      } else {
        assert x in filled[0].plugins;
      }
    }
  }
}
