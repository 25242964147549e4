/**
 Which numbers below a bound a list leaves out, as the plugin scan computes them: sort the
 list, drop repetitions, and walk it beside a counter.
 */
module GroupGaps {
  function Count(s: seq<nat>, x: nat): nat {
    if s == [] then 0 else (if s[0] == x then 1 else 0) + Count(s[1..], x)
  }

  lemma {:induction false} CountConcat(a: seq<nat>, b: seq<nat>, x: nat)
    ensures Count(a + b, x) == Count(a, x) + Count(b, x)
  {
    if a == [] {
      assert a + b == b;
    } else {
      assert (a + b)[1..] == a[1..] + b;
      CountConcat(a[1..], b, x);
    }
  }

  lemma CountSnoc(a: seq<nat>, y: nat, x: nat)
    ensures Count(a + [y], x) == Count(a, x) + (if x == y then 1 else 0)
  {
    CountConcat(a, [y], x);
    assert [y][1..] == [];
  }

  lemma {:induction false} CountNone(s: seq<nat>, x: nat)
    requires x !in s
    ensures Count(s, x) == 0
  {
    if s != [] { CountNone(s[1..], x); }
  }

  ghost predicate Ascends(s: seq<nat>) { forall i, j :: 0 <= i < j < |s| ==> s[i] < s[j] }

  function Insert(s: seq<nat>, x: nat): (r: seq<nat>)
    ensures forall y :: y in r <==> y in s || y == x
  {
    if s == [] || x < s[0] then [x] + s
    else if x == s[0] then s
    else [s[0]] + Insert(s[1..], x)
  }

  lemma {:induction false} InsertAscends(s: seq<nat>, x: nat)
    requires Ascends(s)
    ensures Ascends(Insert(s, x))
  {
    if s != [] && x > s[0] {
      InsertAscends(s[1..], x);
      var more := Insert(s[1..], x);
      forall j | 0 <= j < |more| ensures s[0] < more[j] {
        assert more[j] in more;
        if more[j] != x {
          var k :| 0 <= k < |s[1..]| && s[1..][k] == more[j];
          assert s[0] < s[k + 1];
        }
      }
    }
  }

  /** list::sort and list::unique. */
  function SortUnique(s: seq<nat>): (r: seq<nat>)
    ensures forall y :: y in r <==> y in s
  {
    if s == [] then [] else Insert(SortUnique(s[1..]), s[0])
  }

  lemma {:induction false} SortUniqueAscends(s: seq<nat>)
    ensures Ascends(SortUnique(s))
  {
    if s != [] {
      SortUniqueAscends(s[1..]);
      InsertAscends(SortUnique(s[1..]), s[0]);
    }
  }

  /** The numbers below this one that are not in the list, ascending. */
  function Unmentioned(ms: seq<nat>, n: nat): seq<nat> {
    if n == 0 then [] else Unmentioned(ms, n - 1) + (if n - 1 in ms then [] else [n - 1])
  }

  lemma {:induction false} UnmentionedIs(ms: seq<nat>, n: nat, x: nat)
    ensures x in Unmentioned(ms, n) <==> x < n && x !in ms
    ensures Count(Unmentioned(ms, n), x) == if x < n && x !in ms then 1 else 0
  {
    if n > 0 {
      var less := Unmentioned(ms, n - 1);
      UnmentionedIs(ms, n - 1, x);
      if n - 1 in ms {
        assert less + [] == less;
      } else {
        CountSnoc(less, n - 1, x);
      }
    }
  }

  lemma {:induction false} UnmentionedAscends(ms: seq<nat>, n: nat)
    ensures Ascends(Unmentioned(ms, n)) && forall i :: 0 <= i < |Unmentioned(ms, n)| ==> Unmentioned(ms, n)[i] < n
  {
    if n > 0 {
      var less := Unmentioned(ms, n - 1);
      UnmentionedAscends(ms, n - 1);
      if n - 1 in ms {
        assert less + [] == less;
      } else {
        assert Unmentioned(ms, n) == less + [n - 1];
      }
    }
  }

  /** Everything before the k-th is behind us and the rest is ahead, up to the size. */
  ghost predicate Passed(sorted: seq<nat>, k: nat, next: nat, size: nat) {
    && (forall j :: 0 <= j < k && j < |sorted| ==> sorted[j] < next || next >= size)
    && (forall j :: k <= j < |sorted| ==> sorted[j] >= next || next >= size)
  }

  lemma NotMentioned(ms: seq<nat>, sorted: seq<nat>, k: nat, next: nat, size: nat)
    requires Ascends(sorted) && forall y :: y in ms ==> y in sorted
    requires k <= |sorted| && Passed(sorted, k, next, size) && next < size
    requires k < |sorted| ==> next < sorted[k]
    ensures next !in ms && Unmentioned(ms, next + 1) == Unmentioned(ms, next) + [next]
  {
    forall j | 0 <= j < |sorted| ensures sorted[j] != next {
      if k < j { assert sorted[k] < sorted[j]; }
    }
  }

  lemma WasMentioned(ms: seq<nat>, next: nat)
    requires next in ms
    ensures Unmentioned(ms, next + 1) == Unmentioned(ms, next)
  {
    assert Unmentioned(ms, next) + [] == Unmentioned(ms, next);
  }

  function Below(next: nat, size: nat): nat { if next < size then next else size }

  /** The two loops of the fill. */
  method Gaps(ms: seq<nat>, size: nat) returns (gained: seq<nat>)
    ensures gained == Unmentioned(ms, size)
  {
    var sorted := SortUnique(ms);
    SortUniqueAscends(ms);
    gained := [];
    var next, k := 0, 0;
    while k < |sorted|
      invariant k <= |sorted| && Passed(sorted, k, next, size)
      invariant gained == Unmentioned(ms, Below(next, size))
    {
      while next < sorted[k] && next < size
        invariant Passed(sorted, k, next, size)
        invariant gained == Unmentioned(ms, Below(next, size))
      {
        NotMentioned(ms, sorted, k, next, size);
        gained := gained + [next];
        next := next + 1;
      }
      if next == sorted[k] {
        assert sorted[k] in sorted;
        WasMentioned(ms, next);
        next := next + 1;
      }
      k := k + 1;
    }
    while next < size
      invariant Passed(sorted, k, next, size)
      invariant gained == Unmentioned(ms, Below(next, size))
    {
      NotMentioned(ms, sorted, k, next, size);
      gained := gained + [next];
      next := next + 1;
    }
  }
}
