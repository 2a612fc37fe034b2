/** What a saved fallback change did (lib/fallback-rows.ts, and `diffFallbacks`
    in lib/audit-history.ts). */
module FallbackDiff {
  import opened Lists
  import opened Json
  import T = Text

  const MAX_FALLBACKS := 3

  datatype FallbackRow = FallbackRow(provider: string, model: string)
  datatype Line =
    | Added(key: string)
    | Removed(key: string)
    | OrderChanged(now: seq<string>)
    | Order(was: seq<string>, now: seq<string>)

  // ── Reading the column ──────────────────────────────────────────────────

  function FallbackOf(v: Value): Option<FallbackRow> {
    if !HasText(v, "provider") || T.Trim(v.fields["provider"].s) == "" then None
    else if !HasText(v, "model") || T.Trim(v.fields["model"].s) == "" then None
    else Some(FallbackRow(T.Trim(v.fields["provider"].s), T.Trim(v.fields["model"].s)))
  }

  function Fallbacks(candidates: seq<Value>): seq<FallbackRow> {
    FilterMap(candidates, FallbackOf)
  }

  /** The first three readable entries: never more than the gateway honours. */
  method ToFallbackRows(value: Value) returns (rows: seq<FallbackRow>)
    ensures rows == Take(Fallbacks(ItemsOf(Some(value))), MAX_FALLBACKS)
  {
    rows := CollectUpTo(ItemsOf(Some(value)), FallbackOf, MAX_FALLBACKS);
  }

  /** The part of a text between the white space around it. */
  ghost predicate Within(text: string, part: string) {
    && T.Trimmed(part)
    && exists lead: string, tail: string :: T.Blank(lead) && T.Blank(tail) && text == lead + (part + tail)
  }

  lemma TrimIsWithin(text: string, part: string)
    requires part != ""
    ensures Within(text, part) <==> T.Trim(text) == part
  {
    var lead, tail := T.TrimSplits(text);
    if Within(text, part) {
      var before: string, after: string :| T.Blank(before) && T.Blank(after) && text == before + (part + after);
      T.TrimAround(before, part, after);
    }
  }

  /** One stored entry is read exactly when it is a record with a provider and a
      model, neither blank; each is taken from its own field. */
  lemma FallbackMeans(v: Value, row: FallbackRow)
    ensures FallbackOf(v) == Some(row) <==>
            && HasText(v, "provider") && Within(v.fields["provider"].s, row.provider) && row.provider != ""
            && HasText(v, "model") && Within(v.fields["model"].s, row.model) && row.model != ""
  {
    if HasText(v, "provider") && row.provider != "" { TrimIsWithin(v.fields["provider"].s, row.provider); }
    if HasText(v, "model") && row.model != "" { TrimIsWithin(v.fields["model"].s, row.model); }
  }

  function RowJson(row: FallbackRow): Value {
    Record(map["provider" := Text(row.provider), "model" := Text(row.model)])
  }

  predicate Spelled(row: FallbackRow) {
    row.provider != "" && T.Trimmed(row.provider) && row.model != "" && T.Trimmed(row.model)
  }

  /** A stored list reads back as itself. */
  function RowsJson(rows: seq<FallbackRow>): seq<Value> {
    seq(|rows|, i requires 0 <= i < |rows| => RowJson(rows[i]))
  }

  lemma StoredFallbacksReadBack(rows: seq<FallbackRow>)
    requires forall i :: 0 <= i < |rows| ==> Spelled(rows[i])
    ensures Fallbacks(RowsJson(rows)) == rows
  {
    FilterMapAll(RowsJson(rows), FallbackOf, rows);
  }

  // ── Comparing ───────────────────────────────────────────────────────────

  function Key(row: FallbackRow): string {
    row.provider + "/" + row.model
  }

  function Keys(rows: seq<FallbackRow>): seq<string> {
    seq(|rows|, i requires 0 <= i < |rows| => Key(rows[i]))
  }

  function Members(keys: seq<string>, other: seq<string>, line: string -> Line): seq<Line> {
    if keys == [] then []
    else
      var rest, last := Members(keys[..|keys| - 1], other, line), keys[|keys| - 1];
      if last !in other then rest + [line(last)] else rest
  }

  function Diff(from: seq<FallbackRow>, to: seq<FallbackRow>): seq<Line> {
    var was, now := Keys(from), Keys(to);
    var lines := Members(now, was, k => Added(k)) + Members(was, now, k => Removed(k));
    if T.Join(was, "|") == T.Join(now, "|") then lines
    else if lines == [] then [OrderChanged(now)]
    else lines + [Order(was, now)]
  }

  method DiffFallbacks(from: seq<FallbackRow>, to: seq<FallbackRow>) returns (lines: seq<Line>)
    ensures lines == Diff(from, to)
  {
    lines := [];
    var before, after := Keys(from), Keys(to);
    for i := 0 to |after|
      invariant lines == Members(after[..i], before, k => Added(k))
    {
      assert after[..i + 1][..i] == after[..i];
      if after[i] !in before { lines := lines + [Added(after[i])]; }
    }
    assert after[..|after|] == after;
    ghost var added := lines;
    for i := 0 to |before|
      invariant lines == added + Members(before[..i], after, k => Removed(k))
    {
      assert before[..i + 1][..i] == before[..i];
      if before[i] !in after { lines := lines + [Removed(before[i])]; }
    }
    assert before[..|before|] == before;
    if T.Join(before, "|") != T.Join(after, "|") {
      if lines == [] {
        lines := lines + [OrderChanged(after)];
      } else {
        lines := lines + [Order(before, after)];
      }
    }
  }

  // ── What it can tell apart ──────────────────────────────────────────────

  predicate PlainKeys(rows: seq<FallbackRow>) {
    forall i :: 0 <= i < |rows| ==> '/' !in rows[i].provider && '|' !in Key(rows[i])
  }

  lemma KeyIsInjective(a: FallbackRow, b: FallbackRow)
    requires '/' !in a.provider && '/' !in b.provider
    ensures Key(a) == Key(b) <==> a == b
  {
    T.IndexAt(a.provider, a.model, '/');
    T.IndexAt(b.provider, b.model, '/');
    if Key(a) == Key(b) {
      assert a.provider == Key(a)[..|a.provider|] && a.model == Key(a)[|a.provider| + 1..];
      assert b.provider == Key(b)[..|b.provider|] && b.model == Key(b)[|b.provider| + 1..];
    }
  }

  predicate Separable(parts: seq<string>) {
    forall i :: 0 <= i < |parts| ==> parts[i] != "" && '|' !in parts[i]
  }

  lemma {:induction false} JoinIsInjective(a: seq<string>, b: seq<string>)
    requires Separable(a) && Separable(b)
    ensures T.Join(a, "|") == T.Join(b, "|") <==> a == b
    decreases |a|
  {
    if a != [] && b != [] && T.Join(a, "|") == T.Join(b, "|") {
      HeadOfJoin(a);
      HeadOfJoin(b);
      JoinIsInjective(a[1..], b[1..]);
      assert a == [a[0]] + a[1..] && b == [b[0]] + b[1..];
    }
  }

  /** The first part ends at the first bar, or is everything. */
  lemma HeadOfJoin(parts: seq<string>)
    requires parts != [] && Separable(parts)
    ensures var text := T.Join(parts, "|"); var i := T.IndexOf(text, '|');
            && i <= |text| && text[..i] == parts[0]
            && (i == |text| <==> |parts| == 1)
            && (i < |text| ==> T.Join(parts[1..], "|") == text[i + 1..])
  {
    var text := T.Join(parts, "|");
    if |parts| > 1 {
      var rest := T.Join(parts[1..], "|");
      T.IndexAt(parts[0], rest, '|');
      assert text == parts[0] + ['|'] + rest;
    }
  }

  lemma {:induction false} MembersEmpty(keys: seq<string>, other: seq<string>, line: string -> Line)
    ensures Members(keys, other, line) == [] <==> forall k :: k in keys ==> k in other
  {
    if keys != [] {
      assert keys == keys[..|keys| - 1] + [keys[|keys| - 1]];
      MembersEmpty(keys[..|keys| - 1], other, line);
    }
  }

  lemma KeysDecideRows(from: seq<FallbackRow>, to: seq<FallbackRow>)
    requires PlainKeys(from) && PlainKeys(to)
    ensures Keys(from) == Keys(to) <==> from == to
  {
    if Keys(from) == Keys(to) {
      assert |Keys(from)| == |Keys(to)|;
      forall i | 0 <= i < |from| ensures from[i] == to[i] {
        assert Keys(from)[i] == Keys(to)[i];
        KeyIsInjective(from[i], to[i]);
      }
    }
  }

  /** For slash-free providers and bar-free keys, silence means the same list,
      in the same order. */
  lemma SilentIffEqual(from: seq<FallbackRow>, to: seq<FallbackRow>)
    requires PlainKeys(from) && PlainKeys(to)
    ensures Diff(from, to) == [] <==> from == to
  {
    KeysDecideRows(from, to);
    JoinIsInjective(Keys(from), Keys(to));
    MembersEmpty(Keys(to), Keys(from), k => Added(k));
    MembersEmpty(Keys(from), Keys(to), k => Removed(k));
  }

  /** And any change at all ends in the new list in full, so the reader is told
      what is tried now, in order; alone when only the order moved. */
  lemma ChangeShowsTheNewList(from: seq<FallbackRow>, to: seq<FallbackRow>)
    requires PlainKeys(from) && PlainKeys(to) && from != to
    ensures var lines := Diff(from, to);
            && lines != []
            && (var last := lines[|lines| - 1]; (last.OrderChanged? || last.Order?) && last.now == Keys(to))
            && (lines == [OrderChanged(Keys(to))] <==> forall k :: k in Keys(from) <==> k in Keys(to))
  {
    KeysDecideRows(from, to);
    JoinIsInjective(Keys(from), Keys(to));
    MembersEmpty(Keys(to), Keys(from), k => Added(k));
    MembersEmpty(Keys(from), Keys(to), k => Removed(k));
  }

  // ── Without the premises ────────────────────────────────────────────────

  /** Whatever the keys, each member line names a key that one list has and the
      other lacks. */
  lemma {:induction false} MembersAreDifferences(keys: seq<string>, other: seq<string>, line: string -> Line, i: nat)
    requires i < |Members(keys, other, line)|
    ensures exists k :: k in keys && k !in other && Members(keys, other, line)[i] == line(k)
  {
    var init, last := keys[..|keys| - 1], keys[|keys| - 1];
    assert keys == init + [last];
    if i < |Members(init, other, line)| {
      MembersAreDifferences(init, other, line, i);
    } else {
      assert last in keys;
    }
  }

  lemma {:induction false} MembersListed(keys: seq<string>, other: seq<string>, line: string -> Line, l: Line)
    ensures l in Members(keys, other, line) <==> exists k :: k in keys && k !in other && l == line(k)
  {
    if keys != [] {
      var init, last := keys[..|keys| - 1], keys[|keys| - 1];
      assert keys == init + [last];
      MembersListed(init, other, line, l);
    }
  }

  ghost predicate Spells(rows: seq<FallbackRow>, key: string) {
    exists row :: row in rows && row.provider + "/" + row.model == key
  }

  lemma KeysAreSpelled(rows: seq<FallbackRow>, key: string)
    ensures key in Keys(rows) <==> Spells(rows, key)
  {
    if key in Keys(rows) {
      var i :| 0 <= i < |rows| && Keys(rows)[i] == key;
      assert rows[i] in rows;
    }
    if Spells(rows, key) {
      var row :| row in rows && row.provider + "/" + row.model == key;
      var i :| 0 <= i < |rows| && rows[i] == row;
      assert Keys(rows)[i] == key;
    }
  }

  /** A fallback is said to be added exactly when the new list has it and the old
      one has not, and removed the other way round. */
  lemma AddedMeans(from: seq<FallbackRow>, to: seq<FallbackRow>, key: string)
    ensures Added(key) in Diff(from, to) <==> Spells(to, key) && !Spells(from, key)
    ensures Removed(key) in Diff(from, to) <==> Spells(from, key) && !Spells(to, key)
  {
    var was, now := Keys(from), Keys(to);
    KeysAreSpelled(from, key);
    KeysAreSpelled(to, key);
    forall line | line == Added(key) || line == Removed(key)
      ensures line in Diff(from, to) <==> line in Members(now, was, k => Added(k)) || line in Members(was, now, k => Removed(k))
    {
    }
    MembersListed(now, was, k => Added(k), Added(key));
    MembersListed(was, now, k => Removed(k), Removed(key));
    MembersListed(was, now, k => Removed(k), Added(key));
    MembersListed(now, was, k => Added(k), Removed(key));
  }

  predicate SlashFree(rows: seq<FallbackRow>) {
    forall i :: 0 <= i < |rows| ==> '/' !in rows[i].provider
  }

  lemma KeyOfRow(rows: seq<FallbackRow>, other: seq<FallbackRow>, row: FallbackRow)
    requires SlashFree(rows) && SlashFree(other) && row in rows
    ensures Key(row) in Keys(rows)
    ensures Key(row) in Keys(other) <==> row in other
  {
    var i :| 0 <= i < |rows| && rows[i] == row;
    assert Keys(rows)[i] == Key(row);
    if Key(row) in Keys(other) {
      var j :| 0 <= j < |other| && Keys(other)[j] == Key(row);
      KeyIsInjective(other[j], row);
    }
    if row in other {
      var j :| 0 <= j < |other| && other[j] == row;
      assert Keys(other)[j] == Key(row);
    }
  }

  lemma MembersAreRows(from: seq<FallbackRow>, to: seq<FallbackRow>)
    requires SlashFree(from) && SlashFree(to)
    ensures (forall k :: k in Keys(from) ==> k in Keys(to)) <==> forall row :: row in from ==> row in to
  {
    forall row | row in from ensures Key(row) in Keys(from) && (Key(row) in Keys(to) <==> row in to) {
      KeyOfRow(from, to, row);
    }
    forall k | k in Keys(from) ensures exists row :: row in from && Key(row) == k {
      var i :| 0 <= i < |from| && Keys(from)[i] == k;
      assert from[i] in from;
    }
  }

  /** With slash-free providers alone: silent exactly when the two lists name the
      same fallbacks and their keys joined by bars are one text. */
  lemma SilentIffSameText(from: seq<FallbackRow>, to: seq<FallbackRow>)
    requires SlashFree(from) && SlashFree(to)
    ensures Diff(from, to) == [] <==>
            && (forall row :: row in from <==> row in to)
            && T.Join(Keys(from), "|") == T.Join(Keys(to), "|")
  {
    MembersAreRows(from, to);
    MembersAreRows(to, from);
    MembersEmpty(Keys(to), Keys(from), k => Added(k));
    MembersEmpty(Keys(from), Keys(to), k => Removed(k));
  }

  // ── When swapping two keys is silent ────────────────────────────────────

  function Repeated(word: string, n: nat): string {
    if n == 0 then "" else word + Repeated(word, n - 1)
  }

  lemma {:induction false} RepeatedAdds(word: string, m: nat, n: nat)
    ensures Repeated(word, m) + Repeated(word, n) == Repeated(word, m + n)
  {
    if m > 0 {
      RepeatedAdds(word, m - 1, n);
      Regroup(word, Repeated(word, m - 1), Repeated(word, n));
    }
  }

  lemma CommonFront(a: string, b: string) returns (c: string)
    requires a + b == b + a && |a| <= |b|
    ensures b == a + c && a + c == c + a
  {
    c := b[|a|..];
    assert (a + b)[..|a|] == a && (b + a)[..|a|] == b[..|a|];
    assert b == a + c;
    assert (a + b)[|a|..] == b && (b + a)[|a|..] == c + a;
  }

  /** Two texts that read the same either way round are repetitions of one. */
  lemma {:induction false} CommutingTexts(a: string, b: string) returns (word: string, m: nat, n: nat)
    requires a + b == b + a
    ensures a == Repeated(word, m) && b == Repeated(word, n)
    decreases |a| + |b|
  {
    if a == "" {
      word, m, n := b, 0, 1;
      assert Repeated(word, 1) == word + Repeated(word, 0);
    } else if b == "" {
      word, m, n := a, 1, 0;
      assert Repeated(word, 1) == word + Repeated(word, 0);
    } else if |a| <= |b| {
      var c := CommonFront(a, b);
      var k: nat;
      word, m, k := CommutingTexts(a, c);
      n := m + k;
      RepeatedAdds(word, m, k);
    } else {
      var c := CommonFront(b, a);
      var k: nat;
      word, k, n := CommutingTexts(c, b);
      m := n + k;
      RepeatedAdds(word, n, k);
    }
  }

  ghost predicate RepeatsOneWord(a: string, b: string) {
    exists word: string, m: nat, n: nat :: a == Repeated(word, m) && b == Repeated(word, n)
  }

  lemma CommuteIff(a: string, b: string)
    ensures a + b == b + a <==> RepeatsOneWord(a, b)
  {
    if a + b == b + a {
      var word, m, n := CommutingTexts(a, b);
    }
    if RepeatsOneWord(a, b) {
      var word: string, m: nat, n: nat :| a == Repeated(word, m) && b == Repeated(word, n);
      RepeatedAdds(word, m, n);
      RepeatedAdds(word, n, m);
    }
  }

  lemma JoinTwo(a: string, b: string)
    ensures T.Join([a, b], "|") == a + "|" + b
  {
    assert [a, b][1..] == [b];
  }

  lemma BarEnds(a: string, b: string)
    ensures a + "|" + b == b + "|" + a <==> (a + "|") + (b + "|") == (b + "|") + (a + "|")
  {
    var x, y := a + "|" + b, b + "|" + a;
    assert (a + "|") + (b + "|") == x + "|" && (b + "|") + (a + "|") == y + "|";
    assert (x + "|")[..|x|] == x && (y + "|")[..|y|] == y;
  }

  /** Whatever the two fallbacks, swapping them is silent exactly when their keys,
      each with its bar, are repetitions of one text. */
  lemma SwapIsSilentIff(a: FallbackRow, b: FallbackRow)
    ensures Diff([a, b], [b, a]) == [] <==> RepeatsOneWord(Key(a) + "|", Key(b) + "|")
  {
    var was, now := Keys([a, b]), Keys([b, a]);
    assert was == [Key(a), Key(b)] && now == [Key(b), Key(a)];
    JoinTwo(Key(a), Key(b));
    JoinTwo(Key(b), Key(a));
    BarEnds(Key(a), Key(b));
    CommuteIff(Key(a) + "|", Key(b) + "|");
    MembersEmpty(now, was, k => Added(k));
    MembersEmpty(was, now, k => Removed(k));
  }

  /** A bar in a model name hides a reorder: the joined texts are the same. */
  lemma BarHidesAReorder()
    ensures var short, long := FallbackRow("p", "a"), FallbackRow("p", "a|p/a");
            short != long && Diff([short, long], [long, short]) == []
  {
    var short, long := FallbackRow("p", "a"), FallbackRow("p", "a|p/a");
    var was, now := [Key(short), Key(long)], [Key(long), Key(short)];
    assert Keys([short, long]) == was && Keys([long, short]) == now;
    assert Key(short) == "p/a" && Key(long) == "p/a|p/a";
    JoinTwo(Key(short), Key(long));
    JoinTwo(Key(long), Key(short));
    assert Key(short) + "|" + Key(long) == Key(long) + "|" + Key(short);
    MembersEmpty(now, was, k => Added(k));
    MembersEmpty(was, now, k => Removed(k));
  }

  /** A slash in a provider hides a different provider. */
  lemma SlashHidesAProvider()
    ensures Diff([FallbackRow("a/b", "c")], [FallbackRow("a", "b/c")]) == []
  {
    var was, now := FallbackRow("a/b", "c"), FallbackRow("a", "b/c");
    assert Key(was) == "a/b/c" == Key(now);
    assert Keys([was]) == Keys([now]);
    MembersEmpty(Keys([was]), Keys([now]), k => Added(k));
    MembersEmpty(Keys([was]), Keys([now]), k => Removed(k));
  }
}
