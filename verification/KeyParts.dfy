/** Store keys as colon-separated parts, and the store's glob patterns over them. */
module KeyParts {
  import opened Lists
  import T = Text

  function Parts(key: string): seq<string> {
    T.Split(key, ':')
  }

  function Spell(parts: seq<string>): string {
    T.Join(parts, ":")
  }

  predicate ColonFree(parts: seq<string>) {
    forall i :: 0 <= i < |parts| ==> ':' !in parts[i]
  }

  lemma SpellCons(head: string, rest: seq<string>)
    requires rest != []
    ensures Spell([head] + rest) == head + ":" + Spell(rest)
  {
    assert ([head] + rest)[1..] == rest;
  }

  lemma {:induction false} PartsOfSpell(parts: seq<string>)
    requires parts != [] && ColonFree(parts)
    ensures Parts(Spell(parts)) == parts
  {
    if |parts| == 1 {
      T.SplitWhole(parts[0], ':');
    } else {
      PartsOfSpell(parts[1..]);
      T.SplitAt(parts[0], Spell(parts[1..]), ':');
      assert parts[0] + [':'] + Spell(parts[1..]) == Spell(parts);
      assert parts == [parts[0]] + parts[1..];
    }
  }

  lemma {:induction false} SpellOfParts(key: string)
    ensures Spell(Parts(key)) == key
    decreases |key|
  {
    var i := T.IndexOf(key, ':');
    if i < |key| {
      SpellOfParts(key[i + 1..]);
      assert Parts(key) == [key[..i]] + Parts(key[i + 1..]);
      SpellCons(key[..i], Parts(key[i + 1..]));
      assert key == key[..i] + ":" + key[i + 1..];
    } else {
      assert key[..i] == key;
    }
  }

  /** A key is one spelling exactly when these are its parts. */
  lemma SpellsIff(key: string, parts: seq<string>)
    requires parts != [] && ColonFree(parts)
    ensures key == Spell(parts) <==> Parts(key) == parts
  {
    PartsOfSpell(parts);
    SpellOfParts(key);
  }

  lemma PartsCons(head: string, rest: string)
    requires ':' !in head
    ensures Parts(head + ":" + rest) == [head] + Parts(rest)
  {
    T.SplitAt(head, rest, ':');
    assert head + ":" + rest == head + [':'] + rest;
  }

  lemma Regroup(a: string, b: string, c: string)
    ensures a + ":" + b + ":" + c == a + ":" + (b + ":" + c)
  {
  }

  lemma {:induction false} PartsConcat(a: string, b: string)
    ensures Parts(a + ":" + b) == Parts(a) + Parts(b)
    decreases |a|
  {
    var i := T.IndexOf(a, ':');
    if i < |a| {
      var head, tail := a[..i], a[i + 1..];
      assert a == head + ":" + tail;
      PartsConcat(tail, b);
      PartsCons(head, tail);
      PartsCons(head, tail + ":" + b);
      Regroup(head, tail, b);
    } else {
      T.SplitWhole(a, ':');
      PartsCons(a, b);
    }
  }

  lemma {:induction false} SpellConcat(a: seq<string>, b: seq<string>)
    requires a != [] && b != []
    ensures Spell(a + b) == Spell(a) + ":" + Spell(b)
  {
    if |a| == 1 {
      assert a == [a[0]];
      SpellCons(a[0], b);
    } else {
      var head, tail := a[0], a[1..];
      assert a == [head] + tail;
      SpellConcat(tail, b);
      SpellCons(head, tail);
      SpellCons(head, tail + b);
      assert a + b == [head] + (tail + b);
      assert head + ":" + (Spell(tail) + ":" + Spell(b)) == head + ":" + Spell(tail) + ":" + Spell(b);
    }
  }

  // ── Patterns ────────────────────────────────────────────────────────────

  /** The store's `MATCH`: `*` stands for any text, `?` for any one character.
      Classes and escapes are not part of this model. */
  predicate GlobMatches(p: string, s: string)
    decreases |p| + |s|
  {
    if p == "" then s == ""
    else if p[0] == '*' then GlobMatches(p[1..], s) || (s != "" && GlobMatches(p, s[1..]))
    else s != "" && (p[0] == '?' || p[0] == s[0]) && GlobMatches(p[1..], s[1..])
  }

  predicate Plain(s: string) {
    forall i :: 0 <= i < |s| ==> s[i] != '*' && s[i] != '?' && s[i] != '[' && s[i] != ']' && s[i] != '\\'
  }

  lemma {:induction false} LiteralHead(h: string, p: string, s: string)
    requires Plain(h)
    ensures GlobMatches(h + p, s) <==> h <= s && GlobMatches(p, s[|h|..])
  {
    if h == "" {
      assert h + p == p && s[0..] == s;
    } else {
      assert (h + p)[1..] == h[1..] + p;
      if s != "" {
        LiteralHead(h[1..], p, s[1..]);
        assert h[1..] <= s[1..] ==> s[1..][|h| - 1..] == s[|h|..];
        assert h == [h[0]] + h[1..];
        assert h <= s <==> h[0] == s[0] && h[1..] <= s[1..] by {
          assert s == [s[0]] + s[1..];
        }
      }
    }
  }

  lemma {:induction false} StarEnd(s: string)
    ensures GlobMatches("*", s)
  {
    assert "*"[1..] == "";
    if s != "" { StarEnd(s[1..]); }
  }

  lemma {:induction false} StarThen(tail: string, s: string)
    requires Plain(tail)
    ensures GlobMatches("*" + tail, s) <==> |s| >= |tail| && s[|s| - |tail|..] == tail
    decreases |s|
  {
    assert ("*" + tail)[1..] == tail;
    assert tail + "" == tail;
    LiteralHead(tail, "", s);
    if s != "" {
      StarThen(tail, s[1..]);
      if |s| > |tail| {
        assert s[1..][|s| - 1 - |tail|..] == s[|s| - |tail|..];
      } else if |s| == |tail| {
        assert s[|s| - |tail|..] == s;
      }
    }
  }

  /** `head:*` takes the keys that go on past these parts, and no others. */
  lemma HeadPattern(head: seq<string>, key: string)
    requires head != [] && ColonFree(head) && Plain(Spell(head))
    ensures GlobMatches(Spell(head) + ":*", key) <==> |Parts(key)| > |head| && Parts(key)[..|head|] == head
  {
    var h := Spell(head) + ":";
    assert Spell(head) + ":*" == h + "*";
    LiteralHead(h, "*", key);
    if h <= key {
      var rest := key[|h|..];
      StarEnd(rest);
      assert key == Spell(head) + ":" + rest;
      PartsConcat(Spell(head), rest);
      PartsOfSpell(head);
    }
    var parts := Parts(key);
    if |parts| > |head| && parts[..|head|] == head {
      SpellOfParts(key);
      assert parts == head + parts[|head|..];
      SpellConcat(head, parts[|head|..]);
      assert h <= key;
    }
  }

  lemma FitsMiddle(h: string, t: string, key: string)
    requires Plain(h) && Plain(t)
    ensures GlobMatches(h + ("*" + t), key) ==> exists mid: string :: key == h + (mid + t)
  {
    LiteralHead(h, "*" + t, key);
    if h <= key {
      var rest := key[|h|..];
      StarThen(t, rest);
      if |rest| >= |t| && rest[|rest| - |t|..] == t {
        var mid := rest[..|rest| - |t|];
        assert rest == mid + t;
        assert key == h + (mid + t);
      }
    }
  }

  lemma MiddleFits(h: string, mid: string, t: string)
    requires Plain(h) && Plain(t)
    ensures GlobMatches(h + ("*" + t), h + (mid + t))
  {
    var key, rest := h + (mid + t), mid + t;
    LiteralHead(h, "*" + t, key);
    assert key[|h|..] == rest;
    assert rest[|rest| - |t|..] == t;
    StarThen(t, rest);
  }

  lemma Fits(head: string, tail: string, key: string)
    requires Plain(head) && Plain(tail)
    ensures GlobMatches(head + ":*:" + tail, key) <==>
            exists mid: string :: key == head + ":" + (mid + ":" + tail)
  {
    var h, t := head + ":", ":" + tail;
    assert head + ":*:" + tail == h + ("*" + t);
    if GlobMatches(h + ("*" + t), key) {
      FitsMiddle(h, t, key);
      var mid: string :| key == h + (mid + t);
      assert h + (mid + t) == head + ":" + (mid + ":" + tail);
    }
    if mid: string :| key == head + ":" + (mid + ":" + tail) {
      assert h + (mid + t) == head + ":" + (mid + ":" + tail);
      MiddleFits(h, mid, t);
    }
  }

  predicate EndsWithParts(parts: seq<string>, head: string, tail: seq<string>) {
    |parts| > 1 + |tail| && parts[0] == head && parts[|parts| - |tail|..] == tail
  }

  lemma MiddleParts(head: string, mid: string, tail: seq<string>)
    requires ':' !in head && tail != [] && ColonFree(tail)
    ensures EndsWithParts(Parts(head + ":" + (mid + ":" + Spell(tail))), head, tail)
  {
    PartsCons(head, mid + ":" + Spell(tail));
    PartsConcat(mid, Spell(tail));
    PartsOfSpell(tail);
    JoinedEnds(head, Parts(mid), tail);
  }

  lemma JoinedEnds(head: string, middle: seq<string>, tail: seq<string>)
    requires middle != []
    ensures EndsWithParts([head] + (middle + tail), head, tail)
  {
  }

  /** `head:*:tail` takes the keys with these parts at either end and at least
      one between. */
  lemma EndsPattern(head: string, tail: seq<string>, key: string)
    requires ':' !in head && Plain(head) && tail != [] && ColonFree(tail) && Plain(Spell(tail))
    ensures GlobMatches(head + ":*:" + Spell(tail), key) <==>
            && |Parts(key)| > 1 + |tail|
            && Parts(key)[0] == head
            && Parts(key)[|Parts(key)| - |tail|..] == tail
  {
    Fits(head, Spell(tail), key);
    if mid: string :| key == head + ":" + (mid + ":" + Spell(tail)) {
      MiddleParts(head, mid, tail);
    }
    if EndsWithParts(Parts(key), head, tail) {
      MiddleExists(head, tail, key);
    }
  }

  lemma MiddleExists(head: string, tail: seq<string>, key: string)
    requires tail != [] && |Parts(key)| > 1 + |tail|
    requires Parts(key)[0] == head && Parts(key)[|Parts(key)| - |tail|..] == tail
    ensures exists mid: string :: key == head + ":" + (mid + ":" + Spell(tail))
  {
    var parts := Parts(key);
    var mid := parts[1..|parts| - |tail|];
    SpellOfParts(key);
    assert parts == [head] + (mid + tail);
    SpellCons(head, mid + tail);
    SpellConcat(mid, tail);
  }
}
