/** `Array.prototype.sort` over a total preorder: stable, as the language has
    promised since ES2019, and what two sorted lists have in common. */
module Sorting {
  import opened Lists

  ghost predicate TotalPreorder<T(!new)>(leq: (T, T) -> bool) {
    && (forall a, b :: leq(a, b) || leq(b, a))
    && (forall a, b, c :: leq(a, b) && leq(b, c) ==> leq(a, c))
  }

  ghost predicate Antisymmetric<T(!new)>(leq: (T, T) -> bool) {
    forall a, b :: leq(a, b) && leq(b, a) ==> a == b
  }

  predicate SortedBy<T>(s: seq<T>, leq: (T, T) -> bool) {
    forall i, j :: 0 <= i < j < |s| ==> leq(s[i], s[j])
  }

  function Insert<T>(s: seq<T>, x: T, leq: (T, T) -> bool): seq<T> {
    if s == [] then [x]
    else if leq(s[|s| - 1], x) then s + [x]
    else Insert(s[..|s| - 1], x, leq) + [s[|s| - 1]]
  }

  function Sort<T>(s: seq<T>, leq: (T, T) -> bool): seq<T> {
    if s == [] then [] else Insert(Sort(s[..|s| - 1], leq), s[|s| - 1], leq)
  }

  lemma {:induction false} InsertPermutes<T>(s: seq<T>, x: T, leq: (T, T) -> bool)
    ensures multiset(Insert(s, x, leq)) == multiset(s) + multiset{x}
  {
    if s != [] {
      InsertPermutes(s[..|s| - 1], x, leq);
      assert s == s[..|s| - 1] + [s[|s| - 1]];
    }
  }

  lemma {:induction false} SortPermutes<T>(s: seq<T>, leq: (T, T) -> bool)
    ensures multiset(Sort(s, leq)) == multiset(s)
    ensures |Sort(s, leq)| == |s|
  {
    if s != [] {
      SortPermutes(s[..|s| - 1], leq);
      InsertPermutes(Sort(s[..|s| - 1], leq), s[|s| - 1], leq);
      assert s == s[..|s| - 1] + [s[|s| - 1]];
      assert |multiset(Sort(s, leq))| == |multiset(s)|;
    }
  }

  lemma SameElements<T>(a: seq<T>, b: seq<T>)
    requires multiset(a) == multiset(b)
    ensures |a| == |b|
    ensures forall x :: x in a <==> x in b
  {
    assert |multiset(a)| == |multiset(b)|;
    forall x ensures x in a <==> x in b {
      assert x in multiset(a) <==> x in multiset(b);
    }
  }

  lemma {:induction false} InsertKeepsSorted<T(!new)>(s: seq<T>, x: T, leq: (T, T) -> bool)
    requires TotalPreorder(leq) && SortedBy(s, leq)
    ensures SortedBy(Insert(s, x, leq), leq)
  {
    if s != [] {
      var init, last := s[..|s| - 1], s[|s| - 1];
      if leq(last, x) {
        forall i | 0 <= i < |s| ensures leq(s[i], x) {
          assert leq(s[i], last);
        }
      } else {
        InsertKeepsSorted(init, x, leq);
        InsertPermutes(init, x, leq);
        var r := Insert(init, x, leq);
        assert multiset(r) == multiset(init + [x]);
        SameElements(r, init + [x]);
        forall i | 0 <= i < |r| ensures leq(r[i], last) {
          assert r[i] in init + [x];
        }
      }
    }
  }

  lemma {:induction false} SortSorts<T(!new)>(s: seq<T>, leq: (T, T) -> bool)
    requires TotalPreorder(leq)
    ensures SortedBy(Sort(s, leq), leq)
  {
    if s != [] {
      SortSorts(s[..|s| - 1], leq);
      InsertKeepsSorted(Sort(s[..|s| - 1], leq), s[|s| - 1], leq);
    }
  }

  lemma {:induction false} KeepCounts<T>(s: seq<T>, p: T -> bool, x: T)
    ensures multiset(Keep(s, p))[x] == if p(x) then multiset(s)[x] else 0
  {
    if s != [] {
      assert s == [s[0]] + s[1..];
      KeepCounts(s[1..], p, x);
    }
  }

  lemma SameBelow<T(!new)>(a: seq<T>, b: seq<T>, p: T -> bool)
    requires multiset(a) == multiset(b)
    ensures |Keep(a, p)| == |Keep(b, p)|
  {
    forall x ensures multiset(Keep(a, p))[x] == multiset(Keep(b, p))[x] {
      KeepCounts(a, p, x);
      KeepCounts(b, p, x);
    }
    assert multiset(Keep(a, p)) == multiset(Keep(b, p));
    SameElements(Keep(a, p), Keep(b, p));
  }

  lemma {:induction false} Dropped<T>(s: seq<T>, p: T -> bool) returns (j: nat)
    requires |Keep(s, p)| < |s|
    ensures j < |s| && !p(s[j])
  {
    if p(s[0]) {
      j := Dropped(s[1..], p);
      j := j + 1;
    } else {
      j := 0;
    }
  }

  lemma EarlyDrop<T>(s: seq<T>, p: T -> bool, i: nat) returns (j: nat)
    requires |Keep(s, p)| <= i < |s|
    ensures j <= i && !p(s[j])
  {
    var low, high := s[..i + 1], s[i + 1..];
    assert s == low + high;
    KeepAppend(low, high, p);
    j := Dropped(low, p);
  }

  lemma NoneBelowFrom<T(!new)>(a: seq<T>, leq: (T, T) -> bool, i: nat)
    requires TotalPreorder(leq) && SortedBy(a, leq) && i < |a|
    ensures |Keep(a, x => !leq(a[i], x))| <= i
  {
    var p := x => !leq(a[i], x);
    var low, high := a[..i], a[i..];
    assert a == low + high;
    KeepAppend(low, high, p);
    forall k | 0 <= k < |high| ensures !p(high[k]) {
      assert high[k] == a[i + k];
      assert leq(a[i], a[i]);
    }
    KeepNone(high, p);
    assert Keep(a, p) == Keep(low, p);
  }

  /** Two sorted arrangements of the same things agree, position by position,
      up to what the order itself cannot tell apart: of the first i + 1 of `b`
      one is no lower than a[i], since only i of them all are lower. */
  lemma SortedRunsAgree<T(!new)>(a: seq<T>, b: seq<T>, leq: (T, T) -> bool, i: nat)
    requires TotalPreorder(leq) && SortedBy(a, leq) && SortedBy(b, leq)
    requires multiset(a) == multiset(b) && i < |a|
    ensures |a| == |b| && leq(a[i], b[i])
  {
    SameElements(a, b);
    var p := x => !leq(a[i], x);
    SameBelow(a, b, p);
    NoneBelowFrom(a, leq, i);
    var j := EarlyDrop(b, p, i);
    assert j < i ==> leq(b[j], b[i]);
  }

  /** Where equivalent things are equal, there is only one sorted arrangement. */
  lemma SortedIsUnique<T(!new)>(a: seq<T>, b: seq<T>, leq: (T, T) -> bool)
    requires TotalPreorder(leq) && Antisymmetric(leq) && SortedBy(a, leq) && SortedBy(b, leq)
    requires multiset(a) == multiset(b)
    ensures a == b
  {
    SameElements(a, b);
    forall i | 0 <= i < |a| ensures a[i] == b[i] {
      SortedRunsAgree(a, b, leq, i);
      SortedRunsAgree(b, a, leq, i);
    }
  }

  ghost predicate Alike<T(!new)>(leq: (T, T) -> bool, p: T -> bool) {
    forall a, b :: p(a) && p(b) ==> leq(a, b)
  }

  lemma {:induction false} InsertIsStable<T(!new)>(s: seq<T>, x: T, leq: (T, T) -> bool, p: T -> bool)
    requires Alike(leq, p)
    ensures Keep(Insert(s, x, leq), p) == if p(x) then Keep(s, p) + [x] else Keep(s, p)
    decreases |s|, 1
  {
    if s == [] || leq(s[|s| - 1], x) {
      KeepLast(s, x, p);
      assert s == [] ==> s + [x] == [x];
    } else {
      assert s == s[..|s| - 1] + [s[|s| - 1]];
      InsertBeforeLast(s[..|s| - 1], s[|s| - 1], x, leq, p);
    }
  }

  lemma {:induction false} InsertBeforeLast<T(!new)>(init: seq<T>, last: T, x: T, leq: (T, T) -> bool, p: T -> bool)
    requires Alike(leq, p) && !leq(last, x)
    ensures var s := init + [last];
            Keep(Insert(init, x, leq) + [last], p) == if p(x) then Keep(s, p) + [x] else Keep(s, p)
    decreases |init|, 2
  {
    InsertIsStable(init, x, leq, p);
    KeepLast(Insert(init, x, leq), last, p);
    KeepLast(init, last, p);
    assert !p(last) || !p(x);
  }

  lemma SortLast<T>(init: seq<T>, last: T, leq: (T, T) -> bool)
    ensures Sort(init + [last], leq) == Insert(Sort(init, leq), last, leq)
  {
    assert (init + [last])[..|init|] == init;
  }

  /** Things the order cannot tell apart stay in the order they came. */
  lemma {:induction false} SortIsStable<T(!new)>(s: seq<T>, leq: (T, T) -> bool, p: T -> bool)
    requires Alike(leq, p)
    ensures Keep(Sort(s, leq), p) == Keep(s, p)
  {
    if s != [] {
      var init, last := s[..|s| - 1], s[|s| - 1];
      SortIsStable(init, leq, p);
      assert s == init + [last];
      SortLast(init, last, leq);
      InsertIsStable(Sort(init, leq), last, leq, p);
      KeepLast(init, last, p);
    }
  }

  // ── Strings ─────────────────────────────────────────────────────────────

  /** The default order of strings, character by character. */
  predicate StringLeq(a: string, b: string) {
    a == "" || (b != "" && (a[0] < b[0] || (a[0] == b[0] && StringLeq(a[1..], b[1..]))))
  }

  lemma {:induction false} StringLeqTotal(a: string, b: string)
    ensures StringLeq(a, b) || StringLeq(b, a)
  {
    if a != "" && b != "" && a[0] == b[0] {
      StringLeqTotal(a[1..], b[1..]);
    }
  }

  lemma {:induction false} StringLeqTransitive(a: string, b: string, c: string)
    requires StringLeq(a, b) && StringLeq(b, c)
    ensures StringLeq(a, c)
  {
    if a != "" && a[0] == b[0] && b[0] == c[0] {
      StringLeqTransitive(a[1..], b[1..], c[1..]);
    }
  }

  lemma {:induction false} StringLeqAntisymmetric(a: string, b: string)
    requires StringLeq(a, b) && StringLeq(b, a)
    ensures a == b
  {
    if a != "" {
      StringLeqAntisymmetric(a[1..], b[1..]);
      assert a == [a[0]] + a[1..] && b == [b[0]] + b[1..];
    }
  }

  lemma StringsAreOrdered()
    ensures TotalPreorder(StringLeq) && Antisymmetric(StringLeq)
  {
    forall a, b ensures StringLeq(a, b) || StringLeq(b, a) { StringLeqTotal(a, b); }
    forall a, b, c | StringLeq(a, b) && StringLeq(b, c) ensures StringLeq(a, c) { StringLeqTransitive(a, b, c); }
    forall a, b | StringLeq(a, b) && StringLeq(b, a) ensures a == b { StringLeqAntisymmetric(a, b); }
  }
}
