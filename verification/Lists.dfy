/** Sequences as JavaScript uses them here: a `Set` filled in order, `filter`,
    `slice(0, n)`, and the laws every merge in this project rests on. */
module Lists {

  datatype Option<+T> = None | Some(value: T)

  predicate Distinct<T(==)>(s: seq<T>) {
    forall i, j :: 0 <= i < j < |s| ==> s[i] != s[j]
  }

  /** First appearances, in order: what `[...new Set(s)]` yields. */
  function Dedup<T(==)>(s: seq<T>): (r: seq<T>)
    ensures Distinct(r)
    ensures forall x :: x in r ==> x in s
    ensures forall x :: x in s ==> x in r
    ensures |r| <= |s|
  {
    if s == [] then []
    else
      var rest := Dedup(s[..|s| - 1]);
      var last := s[|s| - 1];
      assert s == s[..|s| - 1] + [last];
      if last in rest then rest else rest + [last]
  }

  function Take<T>(s: seq<T>, n: nat): (r: seq<T>)
    ensures r <= s && |r| <= n
  {
    if |s| <= n then s else s[..n]
  }

  function Keep<T>(s: seq<T>, p: T -> bool): (r: seq<T>)
    ensures forall x :: x in r ==> x in s && p(x)
    ensures forall x :: x in s && p(x) ==> x in r
    ensures |r| <= |s|
  {
    if s == [] then []
    else
      assert s == [s[0]] + s[1..];
      if p(s[0]) then [s[0]] + Keep(s[1..], p) else Keep(s[1..], p)
  }

  /** `map` and `filter` in one: what `f` makes of each element, where it makes
      anything. */
  function FilterMap<A, B>(s: seq<A>, f: A -> Option<B>): (r: seq<B>)
    ensures |r| <= |s|
  {
    if s == [] then []
    else
      var rest, last := FilterMap(s[..|s| - 1], f), f(s[|s| - 1]);
      if last.Some? then rest + [last.value] else rest
  }

  lemma FilterMapSnoc<A, B>(s: seq<A>, x: A, f: A -> Option<B>)
    ensures FilterMap(s + [x], f) == if f(x).Some? then FilterMap(s, f) + [f(x).value] else FilterMap(s, f)
  {
    assert (s + [x])[..|s|] == s;
  }

  lemma {:induction false} FilterMapHas<A, B>(s: seq<A>, f: A -> Option<B>, x: A)
    requires x in s && f(x).Some?
    ensures f(x).value in FilterMap(s, f)
  {
    var init, last := s[..|s| - 1], s[|s| - 1];
    assert s == init + [last];
    if x in init {
      FilterMapHas(init, f, x);
    }
  }

  lemma {:induction false} FilterMapFrom<A, B>(s: seq<A>, f: A -> Option<B>, i: nat) returns (x: A)
    requires i < |FilterMap(s, f)|
    ensures x in s && f(x) == Some(FilterMap(s, f)[i])
  {
    var init, last := s[..|s| - 1], s[|s| - 1];
    assert s == init + [last];
    if i < |FilterMap(init, f)| {
      x := FilterMapFrom(init, f, i);
    } else {
      x := last;
    }
  }

  /** Element by element: what `f`, then `g`, make of something in `s`. */
  lemma MappedListed<A, B, C>(s: seq<A>, f: A -> Option<B>, g: B -> C, t: seq<C>, z: C)
    requires |t| == |FilterMap(s, f)| && forall i :: 0 <= i < |t| ==> t[i] == g(FilterMap(s, f)[i])
    ensures z in t <==> exists x :: x in s && f(x).Some? && z == g(f(x).value)
  {
    var kept := FilterMap(s, f);
    if z in t {
      var i :| 0 <= i < |t| && t[i] == z;
      var x := FilterMapFrom(s, f, i);
    }
    if x :| x in s && f(x).Some? && z == g(f(x).value) {
      FilterMapHas(s, f, x);
      var i :| 0 <= i < |kept| && kept[i] == f(x).value;
      assert t[i] == z;
    }
  }

  lemma {:induction false} FilterMapAppend<A, B>(a: seq<A>, b: seq<A>, f: A -> Option<B>)
    ensures FilterMap(a + b, f) == FilterMap(a, f) + FilterMap(b, f)
  {
    if b == [] {
      assert a + b == a;
    } else {
      var init, last := b[..|b| - 1], b[|b| - 1];
      assert a + b == (a + init) + [last];
      FilterMapAppend(a, init, f);
      FilterMapSnoc(a + init, last, f);
    }
  }

  lemma {:induction false} FilterMapAll<A, B>(s: seq<A>, f: A -> Option<B>, t: seq<B>)
    requires |t| == |s| && forall i :: 0 <= i < |s| ==> f(s[i]) == Some(t[i])
    ensures FilterMap(s, f) == t
  {
    if s != [] {
      FilterMapAll(s[..|s| - 1], f, t[..|s| - 1]);
      assert t == t[..|s| - 1] + [t[|s| - 1]];
    }
  }

  lemma {:induction false} FilterMapEmpty<A, B>(s: seq<A>, f: A -> Option<B>)
    ensures FilterMap(s, f) == [] <==> forall i :: 0 <= i < |s| ==> f(s[i]).None?
  {
    if s != [] {
      var init := s[..|s| - 1];
      FilterMapEmpty(init, f);
      assert forall i :: 0 <= i < |init| ==> init[i] == s[i];
    }
  }

  lemma FilterMapEmptyVia<A, B, C>(s: seq<A>, f: A -> Option<B>, t: seq<C>, p: C -> bool)
    requires |t| == |s| && forall i :: 0 <= i < |s| ==> (f(s[i]).None? <==> p(t[i]))
    ensures FilterMap(s, f) == [] <==> forall i :: 0 <= i < |t| ==> p(t[i])
  {
    FilterMapEmpty(s, f);
  }

  lemma {:induction false} FilterMapKeeps<A, B>(s: seq<A>, f: A -> Option<B>, p: B -> bool)
    requires forall i :: 0 <= i < |s| ==> f(s[i]).Some? ==> p(f(s[i]).value)
    ensures forall j :: 0 <= j < |FilterMap(s, f)| ==> p(FilterMap(s, f)[j])
  {
    if s != [] {
      FilterMapKeeps(s[..|s| - 1], f, p);
    }
  }

  /** Where `f` makes nothing of it unless it would be kept anyway, filtering
      after the fact is the same. */
  lemma {:induction false} FilterMapKeep<A, B>(s: seq<A>, f: A -> Option<B>, t: seq<B>, p: B -> bool)
    requires |t| == |s| && forall i :: 0 <= i < |s| ==> f(s[i]) == if p(t[i]) then Some(t[i]) else None
    ensures FilterMap(s, f) == Keep(t, p)
  {
    if s != [] {
      var init, last := t[..|s| - 1], t[|s| - 1];
      FilterMapKeep(s[..|s| - 1], f, init, p);
      assert t == init + [last];
      KeepLast(init, last, p);
    }
  }

  lemma {:induction false} FilterMapOfPrefix<A, B>(s: seq<A>, f: A -> Option<B>, n: nat)
    requires n <= |s|
    ensures FilterMap(s[..n], f) <= FilterMap(s, f)
    decreases |s| - n
  {
    if n < |s| {
      assert s[..n + 1][..n] == s[..n];
      FilterMapOfPrefix(s, f, n + 1);
    } else {
      assert s[..n] == s;
    }
  }

  /** Push what is readable, skip the rest, stop when there are enough. */
  method CollectUpTo<A, B>(s: seq<A>, f: A -> Option<B>, max: nat) returns (out: seq<B>)
    requires max > 0
    ensures out == Take(FilterMap(s, f), max)
  {
    out := [];
    for n := 0 to |s|
      invariant out == FilterMap(s[..n], f) && |out| < max
    {
      assert s[..n + 1][..n] == s[..n];
      var made := f(s[n]);
      if made.None? { continue; }
      out := out + [made.value];
      if |out| >= max {
        FilterMapOfPrefix(s, f, n + 1);
        return;
      }
    }
    assert s[..|s|] == s;
  }

  /** The same without a limit. */
  method Collect<A, B>(s: seq<A>, f: A -> Option<B>) returns (out: seq<B>)
    ensures out == FilterMap(s, f)
  {
    out := [];
    for n := 0 to |s|
      invariant out == FilterMap(s[..n], f)
    {
      assert s[..n + 1][..n] == s[..n];
      var made := f(s[n]);
      if made.Some? { out := out + [made.value]; }
    }
    assert s[..|s|] == s;
  }

  lemma FilterMapOne<A, B>(x: A, f: A -> Option<B>)
    ensures FilterMap([x], f) == if f(x).Some? then [f(x).value] else []
  {
    assert [x][..0] == [];
    assert FilterMap([x][..0], f) == [];
  }

  /** All or nothing: one element `f` refuses refuses the list. */
  function MapAll<A, B>(s: seq<A>, f: A -> Option<B>): (r: Option<seq<B>>)
    ensures r.Some? ==> |r.value| == |s|
  {
    if s == [] then Some([])
    else
      var rest, last := MapAll(s[..|s| - 1], f), f(s[|s| - 1]);
      if rest.None? || last.None? then None else Some(rest.value + [last.value])
  }

  lemma MapAllOne<A, B>(x: A, f: A -> Option<B>)
    ensures MapAll([x], f) == if f(x).Some? then Some([f(x).value]) else None
  {
    assert [x][..0] == [];
    assert MapAll([x][..0], f) == Some([]);
    if f(x).Some? { assert [] + [f(x).value] == [f(x).value]; }
  }

  lemma {:induction false} MapAllMeans<A, B>(s: seq<A>, f: A -> Option<B>, t: seq<B>)
    ensures MapAll(s, f) == Some(t) <==> |t| == |s| && forall i :: 0 <= i < |s| ==> f(s[i]) == Some(t[i])
  {
    if s != [] && t != [] {
      var n := |s| - 1;
      MapAllMeans(s[..n], f, t[..|t| - 1]);
      assert t == t[..|t| - 1] + [t[|t| - 1]];
    }
  }

  lemma {:induction false} MapAllEach<A, B>(s: seq<A>, f: A -> Option<B>)
    ensures MapAll(s, f).Some? ==> forall i :: 0 <= i < |s| ==> f(s[i]) == Some(MapAll(s, f).value[i])
  {
    if s != [] {
      MapAllEach(s[..|s| - 1], f);
    }
  }

  lemma {:induction false} DedupSnoc<T>(s: seq<T>, x: T)
    ensures Dedup(s + [x]) == if x in s then Dedup(s) else Dedup(s) + [x]
  {
    assert (s + [x])[..|s|] == s;
  }

  lemma {:induction false} DedupOfDistinct<T>(s: seq<T>)
    requires Distinct(s)
    ensures Dedup(s) == s
  {
    if s != [] {
      var init, last := s[..|s| - 1], s[|s| - 1];
      assert s == init + [last];
      DedupOfDistinct(init);
    }
  }

  lemma {:induction false} DedupLeft<T>(a: seq<T>, b: seq<T>)
    ensures Dedup(Dedup(a) + b) == Dedup(a + b)
  {
    if b == [] {
      assert a + b == a && Dedup(a) + b == Dedup(a);
      DedupOfDistinct(Dedup(a));
    } else {
      var init, last := b[..|b| - 1], b[|b| - 1];
      DedupLeft(a, init);
      DedupLeftSnoc(a, init, last);
      assert b == init + [last];
    }
  }

  lemma {:induction false} DedupLeftSnoc<T>(a: seq<T>, b: seq<T>, x: T)
    requires Dedup(Dedup(a) + b) == Dedup(a + b)
    ensures Dedup(Dedup(a) + (b + [x])) == Dedup(a + (b + [x]))
  {
    RegroupSnoc(a, b, x);
    RegroupSnoc(Dedup(a), b, x);
    DedupSnoc(a + b, x);
    DedupSnoc(Dedup(a) + b, x);
  }

  lemma {:induction false} DedupRight<T>(a: seq<T>, b: seq<T>)
    ensures Dedup(a + Dedup(b)) == Dedup(a + b)
  {
    if b != [] {
      var init, last := b[..|b| - 1], b[|b| - 1];
      assert b == init + [last];
      DedupRight(a, init);
      DedupRightSnoc(a, init, last);
    }
  }

  lemma {:induction false} DedupRightSnoc<T>(a: seq<T>, b: seq<T>, x: T)
    requires Dedup(a + Dedup(b)) == Dedup(a + b)
    ensures Dedup(a + Dedup(b + [x])) == Dedup(a + (b + [x]))
  {
    DedupSnoc(b, x);
    RegroupSnoc(a, b, x);
    DedupSnoc(a + b, x);
    if x !in b {
      RegroupSnoc(a, Dedup(b), x);
      DedupSnoc(a + Dedup(b), x);
    }
  }

  lemma RegroupSnoc<T>(a: seq<T>, b: seq<T>, x: T)
    ensures a + (b + [x]) == (a + b) + [x]
  {
  }

  lemma Regroup<T>(a: seq<T>, b: seq<T>, c: seq<T>)
    ensures (a + b) + c == a + (b + c)
  {
  }

  lemma {:induction false} DedupPrefix<T>(a: seq<T>, b: seq<T>)
    ensures Dedup(a) <= Dedup(a + b)
  {
    if b == [] {
      assert a + b == a;
    } else {
      var init, last := b[..|b| - 1], b[|b| - 1];
      DedupPrefix(a, init);
      assert a + b == (a + init) + [last];
      DedupSnoc(a + init, last);
    }
  }

  lemma {:induction false} KeepAppend<T>(a: seq<T>, b: seq<T>, p: T -> bool)
    ensures Keep(a + b, p) == Keep(a, p) + Keep(b, p)
  {
    if a == [] {
      assert a + b == b;
    } else {
      var rest := Keep(a[1..], p) + Keep(b, p);
      assert (a + b)[0] == a[0] && (a + b)[1..] == a[1..] + b;
      KeepAppend(a[1..], b, p);
      if p(a[0]) {
        assert [a[0]] + rest == ([a[0]] + Keep(a[1..], p)) + Keep(b, p);
      }
    }
  }

  lemma KeepLast<T>(s: seq<T>, x: T, p: T -> bool)
    ensures Keep(s + [x], p) == if p(x) then Keep(s, p) + [x] else Keep(s, p)
  {
    KeepAppend(s, [x], p);
    assert [x][1..] == [];
    assert Keep([x][1..], p) == [];
  }

  lemma {:induction false} KeepAll<T>(s: seq<T>, p: T -> bool)
    requires forall i :: 0 <= i < |s| ==> p(s[i])
    ensures Keep(s, p) == s
  {
    if s != [] {
      assert s == [s[0]] + s[1..];
      KeepAll(s[1..], p);
    }
  }

  lemma {:induction false} KeepSame<T>(s: seq<T>, p: T -> bool, q: T -> bool)
    requires forall x :: x in s ==> (p(x) <==> q(x))
    ensures Keep(s, p) == Keep(s, q)
  {
    if s != [] {
      assert s == [s[0]] + s[1..];
      KeepSame(s[1..], p, q);
    }
  }

  lemma {:induction false} KeepNone<T>(s: seq<T>, p: T -> bool)
    requires forall i :: 0 <= i < |s| ==> !p(s[i])
    ensures Keep(s, p) == []
  {
    if s != [] {
      assert s == [s[0]] + s[1..];
      KeepNone(s[1..], p);
    }
  }

  function Sum<T>(s: seq<T>, weight: T -> nat): nat {
    if s == [] then 0 else weight(s[0]) + Sum(s[1..], weight)
  }

  lemma {:induction false} SumAppend<T>(a: seq<T>, b: seq<T>, weight: T -> nat)
    ensures Sum(a + b, weight) == Sum(a, weight) + Sum(b, weight)
  {
    if a == [] {
      assert a + b == b;
    } else {
      assert (a + b)[0] == a[0] && (a + b)[1..] == a[1..] + b;
      SumAppend(a[1..], b, weight);
    }
  }

  lemma SumWithout<T>(s: seq<T>, k: nat, weight: T -> nat)
    requires k < |s|
    ensures Sum(s, weight) == weight(s[k]) + Sum(s[..k] + s[k + 1..], weight)
  {
    assert s == s[..k] + s[k..];
    SumAppend(s[..k], s[k..], weight);
    SumAppend(s[..k], s[k + 1..], weight);
    assert s[k..][1..] == s[k + 1..];
  }

  /** Among elements named once each, fewer weigh no more, in any order. */
  lemma {:induction false} SumOfFewer<T>(a: seq<T>, b: seq<T>, weight: T -> nat)
    requires Distinct(a) && forall x :: x in a ==> x in b
    ensures Sum(a, weight) <= Sum(b, weight) && |a| <= |b|
  {
    if a != [] {
      assert a[0] in b;
      var k :| 0 <= k < |b| && b[k] == a[0];
      var others := b[..k] + b[k + 1..];
      forall x | x in a[1..] ensures x in others {
        assert x in b && x != b[k];
        var j :| 0 <= j < |b| && b[j] == x;
        assert others[if j < k then j else j - 1] == x;
      }
      SumOfFewer(a[1..], others, weight);
      SumWithout(b, k, weight);
    }
  }

  function Elements<T(==)>(s: seq<T>): set<T> {
    set x | x in s
  }

  lemma {:induction false} DistinctCounts<T>(s: seq<T>, x: T)
    requires Distinct(s)
    ensures multiset(s)[x] == if x in s then 1 else 0
  {
    if s != [] {
      var init, last := s[..|s| - 1], s[|s| - 1];
      assert s == init + [last];
      DistinctCounts(init, x);
    }
  }

  lemma {:induction false} KeepDistinct<T>(s: seq<T>, p: T -> bool)
    requires Distinct(s)
    ensures Distinct(Keep(s, p))
  {
    if s != [] {
      KeepDistinct(s[1..], p);
      assert s[0] !in s[1..];
    }
  }

  /** A list without repeats is no longer than any set that holds it. */
  lemma {:induction false} DistinctFits<T>(s: seq<T>, bound: set<T>)
    requires Distinct(s)
    requires forall x :: x in s ==> x in bound
    ensures |s| <= |bound|
  {
    if s != [] {
      var init, last := s[..|s| - 1], s[|s| - 1];
      forall x | x in init ensures x in bound - {last} {
        var i :| 0 <= i < |init| && init[i] == x;
        assert s[i] != s[|s| - 1];
      }
      DistinctFits(init, bound - {last});
    }
  }
}
