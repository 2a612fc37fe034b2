/** `trim`, `join` and `split(",")` as the forms use them. */
module Text {
  import opened Lists

  /** ECMAScript white space and line terminators. */
  predicate IsSpace(c: char) {
    || c == ' '
    || '\t' <= c <= '\r'
    || c == '\U{A0}' || c == '\U{1680}'
    || '\U{2000}' <= c <= '\U{200A}'
    || c == '\U{2028}' || c == '\U{2029}' || c == '\U{202F}' || c == '\U{205F}'
    || c == '\U{3000}' || c == '\U{FEFF}'
  }

  function TrimStart(s: string): (r: string)
    ensures r != "" ==> !IsSpace(r[0])
    ensures |r| <= |s| && (',' !in s ==> ',' !in r)
  {
    if s != "" && IsSpace(s[0]) then TrimStart(s[1..]) else s
  }

  function TrimEnd(s: string): (r: string)
    ensures r <= s
    ensures r != "" ==> !IsSpace(r[|r| - 1])
  {
    if s != "" && IsSpace(s[|s| - 1]) then TrimEnd(s[..|s| - 1]) else s
  }

  predicate Trimmed(s: string) {
    s != "" ==> !IsSpace(s[0]) && !IsSpace(s[|s| - 1])
  }

  function Trim(s: string): (r: string)
    ensures Trimmed(r)
    ensures |r| <= |s|
    ensures Trimmed(s) ==> r == s
    ensures ',' !in s ==> ',' !in r
  {
    TrimEnd(TrimStart(s))
  }

  lemma TrimSpace(s: string)
    ensures Trim(" " + s) == Trim(s)
  {
    assert (" " + s)[1..] == s;
    assert IsSpace(' ');
  }

  predicate Blank(s: string) {
    forall i :: 0 <= i < |s| ==> IsSpace(s[i])
  }

  lemma {:induction false} TrimStartBlank(s: string)
    ensures TrimStart(s) == "" <==> Blank(s)
  {
    if s != "" {
      var rest := s[1..];
      TrimStartBlank(rest);
      assert forall i :: 0 <= i < |rest| ==> rest[i] == s[i + 1];
      if IsSpace(s[0]) && Blank(rest) {
        forall i | 0 <= i < |s| ensures IsSpace(s[i]) {
          assert i > 0 ==> s[i] == rest[i - 1];
        }
      }
    }
  }

  /** What is left of a trimmed text keeps its first character. */
  lemma {:induction false} TrimEndKeeps(s: string)
    requires s != "" && !IsSpace(s[0])
    ensures TrimEnd(s) != ""
  {
    if IsSpace(s[|s| - 1]) {
      TrimEndKeeps(s[..|s| - 1]);
    }
  }

  lemma TrimIsBlank(s: string)
    ensures Trim(s) == "" <==> Blank(s)
  {
    TrimStartBlank(s);
    if TrimStart(s) != "" {
      TrimEndKeeps(TrimStart(s));
    }
  }

  lemma {:induction false} TrimStartDrops(lead: string, s: string)
    requires Blank(lead)
    ensures TrimStart(lead + s) == TrimStart(s)
  {
    if lead == "" {
      assert lead + s == s;
    } else {
      assert (lead + s)[0] == lead[0] && (lead + s)[1..] == lead[1..] + s;
      TrimStartDrops(lead[1..], s);
    }
  }

  lemma {:induction false} TrimEndDrops(s: string, tail: string)
    requires Blank(tail)
    ensures TrimEnd(s + tail) == TrimEnd(s)
  {
    if tail == "" {
      assert s + tail == s;
    } else {
      var n := |tail| - 1;
      assert (s + tail)[..|s + tail| - 1] == s + tail[..n];
      TrimEndDrops(s, tail[..n]);
    }
  }

  /** White space around a text is all that trimming takes off. */
  lemma TrimAround(lead: string, body: string, tail: string)
    requires Blank(lead) && Blank(tail) && body != "" && Trimmed(body)
    ensures Trim(lead + (body + tail)) == body
  {
    TrimStartDrops(lead, body + tail);
    assert (body + tail)[0] == body[0];
    TrimEndDrops(body, tail);
  }

  lemma PutInFront(c: char, a: string, b: string)
    ensures ([c] + a) + b == [c] + (a + b)
  {
  }

  lemma PutBehind(c: char, a: string, b: string)
    ensures a + (b + [c]) == (a + b) + [c]
  {
  }

  lemma {:induction false} TrimStartSplits(s: string) returns (lead: string)
    ensures Blank(lead) && s == lead + TrimStart(s)
  {
    if s != "" && IsSpace(s[0]) {
      var first, more := s[0], s[1..];
      var rest := TrimStartSplits(more);
      lead := [first] + rest;
      PutInFront(first, rest, TrimStart(more));
      assert s == [first] + more;
    } else {
      lead := "";
    }
  }

  lemma {:induction false} TrimEndSplits(s: string) returns (tail: string)
    ensures Blank(tail) && s == TrimEnd(s) + tail
  {
    if s != "" && IsSpace(s[|s| - 1]) {
      var init, last := s[..|s| - 1], s[|s| - 1];
      var rest := TrimEndSplits(init);
      tail := rest + [last];
      PutBehind(last, TrimEnd(init), rest);
      assert s == init + [last];
    } else {
      tail := "";
    }
  }

  lemma TrimSplits(s: string) returns (lead: string, tail: string)
    ensures Blank(lead) && Blank(tail) && s == lead + (Trim(s) + tail)
  {
    lead := TrimStartSplits(s);
    tail := TrimEndSplits(TrimStart(s));
  }

  function Join(parts: seq<string>, sep: string): string {
    if parts == [] then ""
    else if |parts| == 1 then parts[0]
    else parts[0] + sep + Join(parts[1..], sep)
  }

  function IndexOf(s: string, c: char): (i: nat)
    ensures i <= |s| && c !in s[..i]
    ensures i < |s| ==> s[i] == c
    ensures c !in s ==> i == |s|
  {
    if s == "" || s[0] == c then 0
    else
      assert s == [s[0]] + s[1..];
      var i := 1 + IndexOf(s[1..], c);
      assert s[..i] == [s[0]] + s[1..][..i - 1];
      i
  }

  function Split(s: string, c: char): (parts: seq<string>)
    ensures parts != []
    ensures forall i :: 0 <= i < |parts| ==> c !in parts[i]
    decreases |s|
  {
    var i := IndexOf(s, c);
    if i == |s| then
      assert s[..i] == s;
      [s]
    else [s[..i]] + Split(s[i + 1..], c)
  }

  lemma SplitAt(a: string, b: string, c: char)
    requires c !in a
    ensures Split(a + [c] + b, c) == [a] + Split(b, c)
  {
    var s := a + [c] + b;
    IndexAt(a, b, c);
    assert s[..|a|] == a && s[|a| + 1..] == b;
  }

  lemma {:induction false} IndexAt(a: string, b: string, c: char)
    requires c !in a
    ensures IndexOf(a + [c] + b, c) == |a|
  {
    if a != "" {
      assert (a + [c] + b)[1..] == a[1..] + [c] + b;
      IndexAt(a[1..], b, c);
    }
  }

  predicate ListItem(p: string) {
    p != "" && Trimmed(p) && ',' !in p
  }

  predicate ListItems(items: seq<string>) {
    forall i :: 0 <= i < |items| ==> ListItem(items[i])
  }

  predicate CommaFree(parts: seq<string>) {
    forall i :: 0 <= i < |parts| ==> ',' !in parts[i]
  }

  function TrimmedParts(parts: seq<string>): (r: seq<string>)
    ensures CommaFree(parts) ==> ListItems(r)
  {
    if parts == [] then []
    else
      var p, rest := Trim(parts[0]), TrimmedParts(parts[1..]);
      assert CommaFree(parts) ==> CommaFree(parts[1..]) && ',' !in p;
      if p == "" then rest else [p] + rest
  }

  /** `text.split(",").map(trim).filter(Boolean)`. */
  function ParseList(s: string): (r: seq<string>)
    ensures ListItems(r)
  {
    TrimmedParts(Split(s, ','))
  }

  // ── What parses to nothing ──────────────────────────────────────────────

  /** Commas and white space only. */
  predicate NamesNothing(s: string) {
    forall i :: 0 <= i < |s| ==> s[i] == ',' || IsSpace(s[i])
  }

  lemma NamesNothingTogether(a: string, b: string)
    ensures NamesNothing(a + b) <==> NamesNothing(a) && NamesNothing(b)
  {
    var s := a + b;
    assert forall i :: 0 <= i < |a| ==> s[i] == a[i];
    assert forall i :: 0 <= i < |b| ==> s[|a| + i] == b[i];
  }

  lemma CommaFreeNamesNothing(s: string)
    requires ',' !in s
    ensures NamesNothing(s) <==> Blank(s)
  {
  }

  lemma PartsAfter(head: string, parts: seq<string>)
    requires ',' !in head
    ensures TrimmedParts([head] + parts) == [] <==> NamesNothing(head) && TrimmedParts(parts) == []
  {
    assert ([head] + parts)[1..] == parts;
    TrimIsBlank(head);
    CommaFreeNamesNothing(head);
  }

  lemma LastPart(s: string)
    requires ',' !in s
    ensures ParseList(s) == [] <==> NamesNothing(s)
  {
    SplitWhole(s, ',');
    PartsAfter(s, []);
    assert [s] + [] == [s];
  }

  lemma FirstPart(head: string, tail: string)
    requires ',' !in head
    ensures ParseList(head + [','] + tail) == [] <==> NamesNothing(head) && ParseList(tail) == []
  {
    SplitAt(head, tail, ',');
    PartsAfter(head, Split(tail, ','));
  }

  lemma NamesNothingAround(head: string, tail: string)
    ensures NamesNothing(head + [','] + tail) <==> NamesNothing(head) && NamesNothing(tail)
  {
    NamesNothingTogether(head + [','], tail);
    NamesNothingTogether(head, [',']);
  }

  lemma Cut(s: string, c: char) returns (head: string, tail: string)
    requires c in s
    ensures c !in head && |tail| < |s| && s == head + [c] + tail
  {
    var k := IndexOf(s, c);
    head, tail := s[..k], s[k + 1..];
  }

  lemma {:induction false} ParsesToNothing(s: string)
    ensures ParseList(s) == [] <==> NamesNothing(s)
    decreases |s|
  {
    if ',' in s {
      var head, tail := Cut(s, ',');
      ParsesToNothing(tail);
      FirstPart(head, tail);
      NamesNothingAround(head, tail);
    } else {
      LastPart(s);
    }
  }

  lemma {:induction false} JoinNamesNothing(parts: seq<string>)
    ensures NamesNothing(Join(parts, ", ")) <==> forall i :: 0 <= i < |parts| ==> NamesNothing(parts[i])
  {
    if |parts| > 1 {
      var rest := parts[1..];
      JoinNamesNothing(rest);
      NamesNothingTogether(parts[0] + ", ", Join(rest, ", "));
      NamesNothingTogether(parts[0], ", ");
      assert forall i :: 0 <= i < |rest| ==> rest[i] == parts[i + 1];
      if NamesNothing(parts[0]) && NamesNothing(Join(rest, ", ")) {
        forall i | 0 <= i < |parts| ensures NamesNothing(parts[i]) {
          assert i > 0 ==> parts[i] == rest[i - 1];
        }
      }
    }
  }

  lemma SplitWhole(s: string, c: char)
    requires c !in s
    ensures Split(s, c) == [s]
  {
    assert s[..|s|] == s;
  }

  lemma SplitLeadingSpace(s: string)
    ensures Split(" " + s, ',') == [" " + Split(s, ',')[0]] + Split(s, ',')[1..]
  {
    var t, i := " " + s, IndexOf(s, ',');
    assert t[1..] == s;
    assert IndexOf(t, ',') == 1 + i;
    assert t[..i + 1] == " " + s[..i];
    if i < |s| {
      assert t[i + 2..] == s[i + 1..];
    } else {
      assert s[..i] == s;
    }
  }

  lemma LeadingSpaceIsTrimmed(s: string)
    ensures ParseList(" " + s) == ParseList(s)
  {
    var parts := Split(s, ',');
    SplitLeadingSpace(s);
    TrimSpace(parts[0]);
    assert ([" " + parts[0]] + parts[1..])[1..] == parts[1..];
  }

  /** The printed list reads back as itself. */
  lemma {:induction false} ParseListOfJoin(items: seq<string>)
    requires ListItems(items)
    ensures ParseList(Join(items, ", ")) == items
  {
    if items == [] {
      SplitWhole("", ',');
    } else if |items| == 1 {
      OneReadsBack(items[0]);
      assert items == [items[0]];
    } else {
      var head, tail := items[0], items[1..];
      assert items == [head] + tail && ListItem(head) && ListItems(tail);
      ParseListOfJoin(tail);
      JoinCons(head, tail);
      ConsReadsBack(head, Join(tail, ", "));
    }
  }

  lemma JoinCons(head: string, tail: seq<string>)
    requires tail != []
    ensures Join([head] + tail, ", ") == head + [','] + (" " + Join(tail, ", "))
  {
    var items := [head] + tail;
    assert items[1..] == tail && items[0] == head;
    assert head + ", " + Join(tail, ", ") == head + [','] + (" " + Join(tail, ", "));
  }

  lemma OneReadsBack(item: string)
    requires ListItem(item)
    ensures ParseList(item) == [item]
  {
    SplitWhole(item, ',');
    var parts := [item];
    assert parts[1..] == [] && TrimmedParts(parts[1..]) == [];
    assert TrimmedParts(parts) == [Trim(item)] + TrimmedParts(parts[1..]);
  }

  lemma ConsReadsBack(item: string, rest: string)
    requires ListItem(item)
    ensures ParseList(item + [','] + (" " + rest)) == [item] + ParseList(rest)
  {
    SplitAt(item, " " + rest, ',');
    var parts := Split(" " + rest, ',');
    assert ([item] + parts)[1..] == parts;
    LeadingSpaceIsTrimmed(rest);
  }

  // ── What any list reads as ──────────────────────────────────────────────

  /** The white space and line terminators of ECMA-262, by code point. */
  lemma SpaceIsListed(c: char)
    ensures IsSpace(c) <==>
            c as int in {9, 10, 11, 12, 13, 32, 160, 5760, 8192, 8193, 8194, 8195, 8196, 8197, 8198, 8199, 8200, 8201,
                         8202, 8232, 8233, 8239, 8287, 12288, 65279}
  {
  }

  /** Between commas a text is one item, without the white space around it, or
      none. */
  lemma OneItem(s: string)
    requires ',' !in s
    ensures ParseList(s) == if Blank(s) then [] else [Trim(s)]
  {
    SplitWhole(s, ',');
    TrimIsBlank(s);
    assert TrimmedParts([s][1..]) == [];
  }

  lemma {:induction false} TrimmedPartsTogether(a: seq<string>, b: seq<string>)
    ensures TrimmedParts(a + b) == TrimmedParts(a) + TrimmedParts(b)
  {
    if a == [] {
      assert a + b == b;
    } else {
      assert (a + b)[1..] == a[1..] + b;
      TrimmedPartsTogether(a[1..], b);
    }
  }

  lemma Regroup(head: string, tail: string, b: string)
    ensures (head + [','] + tail) + [','] + b == head + [','] + (tail + [','] + b)
  {
  }

  lemma SplitsFirst(head: string, tail: string, rest: string, a: string, b: string)
    requires ',' !in head && a == head + [','] + tail && rest == tail + [','] + b
    requires Split(rest, ',') == Split(tail, ',') + Split(b, ',')
    ensures Split(a + [','] + b, ',') == Split(a, ',') + Split(b, ',')
  {
    Regroup(head, tail, b);
    assert a + [','] + b == head + [','] + rest;
    SplitAt(head, tail, ',');
    SplitAt(head, rest, ',');
    Associates([head], Split(tail, ','), Split(b, ','));
  }

  lemma Associates(a: seq<string>, b: seq<string>, c: seq<string>)
    ensures a + (b + c) == (a + b) + c
  {
  }

  lemma {:induction false} SplitTogether(a: string, b: string)
    ensures Split(a + [','] + b, ',') == Split(a, ',') + Split(b, ',')
    decreases |a|
  {
    if ',' in a {
      var head, tail := Cut(a, ',');
      SplitTogether(tail, b);
      SplitsFirst(head, tail, tail + [','] + b, a, b);
    } else {
      SplitWhole(a, ',');
      SplitAt(a, b, ',');
    }
  }

  /** A comma joins what is before it and what is after it. */
  lemma ItemsTogether(a: string, b: string)
    ensures ParseList(a + [','] + b) == ParseList(a) + ParseList(b)
  {
    SplitTogether(a, b);
    TrimmedPartsTogether(Split(a, ','), Split(b, ','));
  }
}
