/** What a saved scope change did (lib/audit-history.ts): the two documents
    compared by what they authorize, and the lines read as a patch. */
module ScopeDiff {
  import opened Lists
  import opened Json
  import opened Scope
  import opened ScopeUnion
  import opened Sorting
  import opened Stringify

  datatype Line =
    | Added(provider: string, models: seq<string>)
    | Changed(provider: string, was: seq<string>, now: seq<string>)
    | Removed(provider: string, was: seq<string>)
    | Rewritten

  // ── Reading a document (lib/scope-rows.ts) ──────────────────────────────

  function ScopeRowOf(v: Value): Option<ScopeEntry> {
    if !HasText(v, "provider") || v.fields["provider"].s == "" then None
    else Some(ScopeEntry(v.fields["provider"].s, Keep(Strings(ItemsOf(Field(v, "models"))), m => m != "")))
  }

  function ScopeRows(candidates: seq<Value>): seq<ScopeEntry> {
    FilterMap(candidates, ScopeRowOf)
  }

  predicate WellNamed(rows: seq<ScopeEntry>) {
    forall i :: 0 <= i < |rows| ==> rows[i].provider != "" && "" !in rows[i].models
  }

  /** Malformed entries are dropped, never thrown on, and what is left names
      something. */
  method ToScopeRows(value: Value) returns (rows: seq<ScopeEntry>)
    ensures rows == ScopeRows(ItemsOf(Some(value)))
    ensures WellNamed(rows)
  {
    rows := [];
    var candidates := ItemsOf(Some(value));
    for i := 0 to |candidates|
      invariant rows == ScopeRows(candidates[..i]) && WellNamed(rows)
    {
      assert candidates[..i + 1][..i] == candidates[..i];
      var row := ScopeRowOf(candidates[i]);
      if row.None? { continue; }
      rows := rows + [row.value];
    }
    assert candidates[..|candidates|] == candidates;
  }

  /** An entry is read exactly when it is a record with a provider, as it is written;
      it names exactly the texts of its list of models, the empty one apart. */
  lemma ScopeRowMeans(v: Value, row: ScopeEntry, m: string)
    ensures ScopeRowOf(v).Some? <==>
            v.Record? && "provider" in v.fields && v.fields["provider"].Text? && v.fields["provider"].s != ""
    ensures ScopeRowOf(v) == Some(row) ==>
              && row.provider == v.fields["provider"].s
              && (m in row.models <==>
                    m != "" && "models" in v.fields && v.fields["models"].List? && Text(m) in v.fields["models"].items)
  {
    if ScopeRowOf(v) == Some(row) {
      var items := ItemsOf(Field(v, "models"));
      StringsAreTexts(items, m);
    }
  }

  // ── Comparing ───────────────────────────────────────────────────────────

  function Patterns(rows: seq<ScopeEntry>, provider: string): (r: seq<string>)
    ensures Distinct(r)
  {
    Dedup(PatternsFor(rows, provider))
  }

  predicate SameAuthorization(was: seq<string>, now: seq<string>) {
    |was| == |now| && StringifyStrings(Sort(was, StringLeq)) == StringifyStrings(Sort(now, StringLeq))
  }

  function PatternsAt(rows: seq<ScopeEntry>, provider: string): Option<seq<string>> {
    if provider in Providers(rows) then Some(Patterns(rows, provider)) else None
  }

  function Compared(provider: string, was: Option<seq<string>>, now: Option<seq<string>>): Option<Line> {
    if now.Some? then
      if was.None? then Some(Added(provider, now.value))
      else if !SameAuthorization(was.value, now.value) then Some(Changed(provider, was.value, now.value))
      else None
    else if was.Some? then Some(Removed(provider, was.value))
    else None
  }

  function LineAbout(from: seq<ScopeEntry>, to: seq<ScopeEntry>, provider: string): Option<Line> {
    Compared(provider, PatternsAt(from, provider), PatternsAt(to, provider))
  }

  function About(from: seq<ScopeEntry>, to: seq<ScopeEntry>): string -> Option<Line> {
    provider => LineAbout(from, to, provider)
  }

  function LinesFor(from: seq<ScopeEntry>, to: seq<ScopeEntry>, order: seq<string>): seq<Line> {
    FilterMap(order, About(from, to))
  }

  /** The second document's providers in its own order, then those only the
      first one named. */
  function Mentioned(from: seq<ScopeEntry>, to: seq<ScopeEntry>): seq<string> {
    Dedup(Providers(to)) + Gone(from, to)
  }

  function NotIn(rows: seq<ScopeEntry>): string -> bool {
    provider => provider !in Providers(rows)
  }

  function Gone(from: seq<ScopeEntry>, to: seq<ScopeEntry>): seq<string> {
    Keep(Dedup(Providers(from)), NotIn(to))
  }

  function Diff(from: seq<ScopeEntry>, to: seq<ScopeEntry>): seq<Line> {
    var lines := LinesFor(from, to, Mentioned(from, to));
    if lines == [] && StringifyRows(from) != StringifyRows(to) then [Rewritten] else lines
  }

  // ── The loops ───────────────────────────────────────────────────────────

  ghost predicate Unioned(rows: seq<ScopeEntry>, order: seq<string>, union: map<string, seq<string>>) {
    && order == Dedup(Providers(rows))
    && (forall p :: p in union <==> p in order)
    && Valued(rows, union)
  }

  ghost predicate Valued(rows: seq<ScopeEntry>, union: map<string, seq<string>>) {
    forall p :: p in union ==> union[p] == Patterns(rows, p)
  }

  method PushPatterns(patterns: seq<string>, models: seq<string>, ghost before: seq<string>) returns (r: seq<string>)
    requires patterns == Dedup(before)
    ensures r == Dedup(before + models)
  {
    r := patterns;
    assert before + models[..0] == before;
    for k := 0 to |models|
      invariant r == Dedup(before + models[..k])
    {
      PushStep(before, models, k);
      if models[k] !in r { r := r + [models[k]]; }
    }
    assert models[..|models|] == models;
  }

  lemma PushStep(before: seq<string>, models: seq<string>, k: nat)
    requires k < |models|
    ensures var r := Dedup(before + models[..k]);
            Dedup(before + models[..k + 1]) == if models[k] in r then r else r + [models[k]]
  {
    assert before + models[..k + 1] == before + models[..k] + [models[k]];
    DedupSnoc(before + models[..k], models[k]);
  }

  lemma PatternsStep(rows: seq<ScopeEntry>, row: ScopeEntry, q: string)
    ensures Patterns(rows + [row], q) ==
            if q == row.provider then Dedup(PatternsFor(rows, q) + row.models) else Patterns(rows, q)
  {
    AddRow(rows, row);
  }

  lemma OrderStep(rows: seq<ScopeEntry>, row: ScopeEntry)
    ensures Dedup(Providers(rows + [row])) ==
            if row.provider in Dedup(Providers(rows)) then Dedup(Providers(rows))
            else Dedup(Providers(rows)) + [row.provider]
  {
    AddRow(rows, row);
  }

  lemma ValuedStep(rows: seq<ScopeEntry>, row: ScopeEntry, union: map<string, seq<string>>)
    requires Valued(rows, union)
    ensures Valued(rows + [row], union[row.provider := Dedup(PatternsFor(rows, row.provider) + row.models)])
  {
    var next := union[row.provider := Dedup(PatternsFor(rows, row.provider) + row.models)];
    forall q | q in next ensures next[q] == Patterns(rows + [row], q) {
      PatternsStep(rows, row, q);
    }
  }

  lemma UnionedStep(rows: seq<ScopeEntry>, row: ScopeEntry, order: seq<string>, union: map<string, seq<string>>)
    requires Unioned(rows, order, union)
    ensures Unioned(rows + [row], if row.provider in union then order else order + [row.provider],
                    union[row.provider := Dedup(PatternsFor(rows, row.provider) + row.models)])
  {
    OrderStep(rows, row);
    ValuedStep(rows, row, union);
    var before, order' := Dedup(Providers(rows)), if row.provider in union then order else order + [row.provider];
    assert row.provider in union <==> row.provider in before;
    assert order' == Dedup(Providers(rows + [row]));
    assert forall p :: p in order' <==> p in order || p == row.provider;
  }

  lemma UnionSoFar(rows: seq<ScopeEntry>, provider: string, order: seq<string>, union: map<string, seq<string>>)
    requires Unioned(rows, order, union)
    ensures Dedup(PatternsFor(rows, provider)) == if provider in union then union[provider] else []
  {
    if provider !in union {
      assert provider !in order;
      UnknownProvider(rows, provider);
    }
  }

  method AddPatterns(order: seq<string>, union: map<string, seq<string>>, row: ScopeEntry, ghost seen: seq<ScopeEntry>)
    returns (order': seq<string>, union': map<string, seq<string>>)
    requires Unioned(seen, order, union)
    ensures Unioned(seen + [row], order', union')
  {
    UnionSoFar(seen, row.provider, order, union);
    UnionedStep(seen, row, order, union);
    var patterns := if row.provider in union then union[row.provider] else [];
    patterns := PushPatterns(patterns, row.models, PatternsFor(seen, row.provider));
    order' := if row.provider in union then order else order + [row.provider];
    union' := union[row.provider := patterns];
  }

  method UnionByProvider(rows: seq<ScopeEntry>) returns (order: seq<string>, union: map<string, seq<string>>)
    ensures Unioned(rows, order, union)
  {
    order, union := [], map[];
    for i := 0 to |rows|
      invariant Unioned(rows[..i], order, union)
    {
      assert rows[..i + 1] == rows[..i] + [rows[i]];
      order, union := AddPatterns(order, union, rows[i], rows[..i]);
    }
    assert rows[..|rows|] == rows;
  }

  /** The line for a provider the second document names. */
  function LineFrom(provider: string, before: map<string, seq<string>>, after: map<string, seq<string>>): Option<Line>
    requires provider in after
  {
    if provider !in before then Some(Added(provider, after[provider]))
    else if !SameAuthorization(before[provider], after[provider]) then
      Some(Changed(provider, before[provider], after[provider]))
    else None
  }

  /** Added and changed, in the second document's order. */
  method ChangedLines(ghost about: string -> Option<Line>, order: seq<string>,
                      before: map<string, seq<string>>, after: map<string, seq<string>>) returns (lines: seq<Line>)
    requires forall p :: p in order ==> p in after && about(p) == LineFrom(p, before, after)
    ensures lines == FilterMap(order, about)
  {
    lines := [];
    for i := 0 to |order|
      invariant lines == FilterMap(order[..i], about)
    {
      var provider := order[i];
      assert order[..i + 1] == order[..i] + [provider];
      FilterMapSnoc(order[..i], provider, about);
      if provider !in before {
        lines := lines + [Added(provider, after[provider])];
        continue;
      }
      if !SameAuthorization(before[provider], after[provider]) {
        lines := lines + [Changed(provider, before[provider], after[provider])];
      }
    }
    assert order[..|order|] == order;
  }

  function Missing(after: map<string, seq<string>>): string -> bool {
    provider => provider !in after
  }

  lemma MissingStep(order: seq<string>, p: string, after: map<string, seq<string>>, about: string -> Option<Line>)
    ensures var lines := FilterMap(Keep(order, Missing(after)), about);
            FilterMap(Keep(order + [p], Missing(after)), about) ==
            if p in after || about(p).None? then lines else lines + [about(p).value]
  {
    KeepLast(order, p, Missing(after));
    FilterMapSnoc(Keep(order, Missing(after)), p, about);
  }

  /** And those the second document no longer names, in the first one's order. */
  method RemovedLines(ghost about: string -> Option<Line>, order: seq<string>,
                      before: map<string, seq<string>>, after: map<string, seq<string>>) returns (lines: seq<Line>)
    requires forall p :: p in order ==> p in before && (p !in after ==> about(p) == Some(Removed(p, before[p])))
    ensures lines == FilterMap(Keep(order, Missing(after)), about)
  {
    lines := [];
    for i := 0 to |order|
      invariant lines == FilterMap(Keep(order[..i], Missing(after)), about)
    {
      var provider := order[i];
      assert order[..i + 1] == order[..i] + [provider];
      MissingStep(order[..i], provider, after, about);
      if provider !in after {
        lines := lines + [Removed(provider, before[provider])];
      }
    }
    assert order[..|order|] == order;
  }

  lemma AboutIsLineFrom(from: seq<ScopeEntry>, to: seq<ScopeEntry>, wasOrder: seq<string>, before: map<string, seq<string>>,
                        order: seq<string>, after: map<string, seq<string>>, p: string)
    requires Unioned(from, wasOrder, before) && Unioned(to, order, after)
    ensures p in order ==> p in after && LineAbout(from, to, p) == LineFrom(p, before, after)
    ensures p in wasOrder ==> p in before && (p !in after ==> LineAbout(from, to, p) == Some(Removed(p, before[p])))
    ensures p !in after <==> p !in Providers(to)
  {
  }

  lemma AboutIsLines(from: seq<ScopeEntry>, to: seq<ScopeEntry>, wasOrder: seq<string>, before: map<string, seq<string>>,
                     order: seq<string>, after: map<string, seq<string>>)
    requires Unioned(from, wasOrder, before) && Unioned(to, order, after)
    ensures var about := About(from, to);
            && (forall p :: p in order ==> p in after && about(p) == LineFrom(p, before, after))
            && (forall p :: p in wasOrder ==> p in before && (p !in after ==> about(p) == Some(Removed(p, before[p]))))
            && (forall p :: p !in after <==> p !in Providers(to))
  {
    forall p
      ensures p in order ==> p in after && About(from, to)(p) == LineFrom(p, before, after)
      ensures p in wasOrder ==> p in before && (p !in after ==> About(from, to)(p) == Some(Removed(p, before[p])))
      ensures p !in after <==> p !in Providers(to)
    {
      AboutIsLineFrom(from, to, wasOrder, before, order, after, p);
    }
  }

  lemma LinesJoin(from: seq<ScopeEntry>, to: seq<ScopeEntry>, after: map<string, seq<string>>)
    requires forall p :: p !in after <==> p !in Providers(to)
    ensures var about := About(from, to);
            FilterMap(Dedup(Providers(to)), about) + FilterMap(Keep(Dedup(Providers(from)), Missing(after)), about)
            == LinesFor(from, to, Mentioned(from, to))
  {
    KeepSame(Dedup(Providers(from)), Missing(after), NotIn(to));
    FilterMapAppend(Dedup(Providers(to)), Gone(from, to), About(from, to));
  }

  method DiffScopes(from: seq<ScopeEntry>, to: seq<ScopeEntry>) returns (lines: seq<Line>)
    ensures lines == Diff(from, to)
  {
    var wasOrder, before := UnionByProvider(from);
    var order, after := UnionByProvider(to);
    AboutIsLines(from, to, wasOrder, before, order, after);
    var changed := ChangedLines(About(from, to), order, before, after);
    var removed := RemovedLines(About(from, to), wasOrder, before, after);
    LinesJoin(from, to, after);
    lines := changed + removed;
    if lines == [] && StringifyRows(from) != StringifyRows(to) {
      lines := [Rewritten];
    }
  }

  // ── What it compares ────────────────────────────────────────────────────

  /** A document as authorization: each provider's set of patterns. */
  function Meaning(rows: seq<ScopeEntry>): map<string, set<string>> {
    map p | p in Providers(rows) :: Elements(PatternsFor(rows, p))
  }

  /** On lists without repeats, comparing the sorted lists as text decides set
      equality. */
  lemma SortedTextDecidesSets(was: seq<string>, now: seq<string>)
    requires Distinct(was) && Distinct(now)
    ensures SameAuthorization(was, now) <==> Elements(was) == Elements(now)
  {
    SortPermutes(was, StringLeq);
    SortPermutes(now, StringLeq);
    if SameAuthorization(was, now) {
      StringifyStringsIsInjective(Sort(was, StringLeq), Sort(now, StringLeq));
      SameElements(was, now);
    }
    if Elements(was) == Elements(now) {
      forall x ensures multiset(was)[x] == multiset(now)[x] {
        DistinctCounts(was, x);
        DistinctCounts(now, x);
        assert x in was <==> x in Elements(was);
        assert x in now <==> x in Elements(now);
      }
      assert multiset(was) == multiset(now);
      SameElements(was, now);
      StringsAreOrdered();
      SortSorts(was, StringLeq);
      SortSorts(now, StringLeq);
      SortedIsUnique(Sort(was, StringLeq), Sort(now, StringLeq), StringLeq);
    }
  }

  predicate AgreeAt(a: map<string, set<string>>, b: map<string, set<string>>, p: string) {
    (p in a <==> p in b) && (p in a && p in b ==> a[p] == b[p])
  }

  lemma LineAboutIsDifference(from: seq<ScopeEntry>, to: seq<ScopeEntry>, p: string)
    ensures LineAbout(from, to, p).None? <==> AgreeAt(Meaning(from), Meaning(to), p)
  {
    var was, now := Patterns(from, p), Patterns(to, p);
    SortedTextDecidesSets(was, now);
    assert Elements(was) == Elements(PatternsFor(from, p));
    assert Elements(now) == Elements(PatternsFor(to, p));
  }

  // ── The patch ───────────────────────────────────────────────────────────

  function Applied(m: map<string, set<string>>, line: Line): map<string, set<string>> {
    match line
    case Added(p, models) => m[p := Elements(models)]
    case Changed(p, _, now) => m[p := Elements(now)]
    case Removed(p, _) => m - {p}
    case Rewritten => m
  }

  function Patched(m: map<string, set<string>>, lines: seq<Line>): map<string, set<string>> {
    if lines == [] then m else Applied(Patched(m, lines[..|lines| - 1]), lines[|lines| - 1])
  }

  function Reversed(line: Line): Line {
    match line
    case Added(p, models) => Removed(p, models)
    case Changed(p, was, now) => Changed(p, now, was)
    case Removed(p, was) => Added(p, was)
    case Rewritten => Rewritten
  }

  function AllReversed(lines: seq<Line>): seq<Line> {
    seq(|lines|, i requires 0 <= i < |lines| => Reversed(lines[i]))
  }

  /** A line sets its own provider to what the second document says, and no
      other. */
  lemma LineSets(m: map<string, set<string>>, from: seq<ScopeEntry>, to: seq<ScopeEntry>, q: string, p: string)
    requires LineAbout(from, to, q).Some?
    ensures p == q ==> AgreeAt(Applied(m, LineAbout(from, to, q).value), Meaning(to), p)
    ensures p != q ==> AgreeAt(Applied(m, LineAbout(from, to, q).value), m, p)
  {
    assert Elements(Patterns(to, q)) == Elements(PatternsFor(to, q));
  }

  lemma PatchedByOneMore(m: map<string, set<string>>, lines: seq<Line>, line: Line)
    ensures Patched(m, lines + [line]) == Applied(Patched(m, lines), line)
  {
    assert (lines + [line])[..|lines|] == lines;
  }

  lemma {:induction false} PatchedAt(from: seq<ScopeEntry>, to: seq<ScopeEntry>, order: seq<string>, p: string)
    requires Distinct(order)
    ensures AgreeAt(Patched(Meaning(from), LinesFor(from, to, order)), if p in order then Meaning(to) else Meaning(from), p)
  {
    if order != [] {
      var init, last := order[..|order| - 1], order[|order| - 1];
      var line, rest := LineAbout(from, to, last), LinesFor(from, to, init);
      assert order == init + [last];
      PatchedAt(from, to, init, p);
      FilterMapSnoc(init, last, About(from, to));
      if line.Some? {
        PatchedByOneMore(Meaning(from), rest, line.value);
        LineSets(Patched(Meaning(from), rest), from, to, last, p);
      } else {
        LineAboutIsDifference(from, to, last);
      }
    }
  }

  lemma MentionsAll(from: seq<ScopeEntry>, to: seq<ScopeEntry>)
    ensures Distinct(Mentioned(from, to))
    ensures forall p :: p in Mentioned(from, to) <==> p in Providers(from) || p in Providers(to)
  {
    KeepDistinct(Dedup(Providers(from)), NotIn(to));
    DistinctConcat(Dedup(Providers(to)), Gone(from, to));
  }

  lemma DistinctConcat(a: seq<string>, b: seq<string>)
    requires Distinct(a) && Distinct(b) && forall x :: x in a ==> x !in b
    ensures Distinct(a + b)
  {
    var s := a + b;
    forall i, j | 0 <= i < j < |s| ensures s[i] != s[j] {
      if i < |a| && j >= |a| {
        assert s[i] in a && s[j] == b[j - |a|];
        assert s[j] in b;
      } else if i >= |a| {
        assert s[i] == b[i - |a|] && s[j] == b[j - |a|];
      }
    }
  }

  lemma {:induction false} LinesAreAboutProviders(from: seq<ScopeEntry>, to: seq<ScopeEntry>, order: seq<string>, i: nat)
    requires i < |LinesFor(from, to, order)|
    ensures !LinesFor(from, to, order)[i].Rewritten?
    ensures var line := LinesFor(from, to, order)[i]; line.provider in order && LineAbout(from, to, line.provider) == Some(line)
  {
    var init := order[..|order| - 1];
    assert order == init + [order[|order| - 1]];
    if i < |LinesFor(from, to, init)| {
      LinesAreAboutProviders(from, to, init, i);
    }
  }

  /** Applied to what the first document authorized, the lines give what the
      second one does. */
  lemma DiffIsAPatch(from: seq<ScopeEntry>, to: seq<ScopeEntry>)
    ensures Patched(Meaning(from), Diff(from, to)) == Meaning(to)
  {
    var order := Mentioned(from, to);
    MentionsAll(from, to);
    var lines := LinesFor(from, to, order);
    forall p ensures AgreeAt(Patched(Meaning(from), lines), Meaning(to), p) {
      PatchedAt(from, to, order, p);
    }
    RewrittenChangesNothing(Meaning(from));
    SameMaps(Patched(Meaning(from), lines), Meaning(to));
  }

  lemma SameMaps(a: map<string, set<string>>, b: map<string, set<string>>)
    requires forall p :: AgreeAt(a, b, p)
    ensures a == b
  {
    forall p ensures (p in a <==> p in b) && (p in a ==> a[p] == b[p]) {
      assert AgreeAt(a, b, p);
    }
  }

  lemma ReversedLine(from: seq<ScopeEntry>, to: seq<ScopeEntry>, p: string)
    ensures LineAbout(to, from, p) ==
            if LineAbout(from, to, p).Some? then Some(Reversed(LineAbout(from, to, p).value)) else None
  {
    SortedTextDecidesSets(Patterns(from, p), Patterns(to, p));
    SortedTextDecidesSets(Patterns(to, p), Patterns(from, p));
  }

  lemma {:induction false} ReversedLines(from: seq<ScopeEntry>, to: seq<ScopeEntry>, order: seq<string>)
    ensures AllReversed(LinesFor(from, to, order)) == LinesFor(to, from, order)
  {
    if order != [] {
      ReversedLines(from, to, order[..|order| - 1]);
      ReversedLine(from, to, order[|order| - 1]);
    }
  }

  /** The record keeps the past value too: read backwards, the same lines give
      the first document's authorization from the second's. */
  lemma DiffUndoes(from: seq<ScopeEntry>, to: seq<ScopeEntry>)
    ensures Patched(Meaning(to), AllReversed(Diff(from, to))) == Meaning(from)
  {
    var order := Mentioned(from, to);
    var lines := LinesFor(from, to, order);
    MentionsAll(from, to);
    ReversedLines(from, to, order);
    forall p ensures AgreeAt(Patched(Meaning(to), AllReversed(lines)), Meaning(from), p) {
      PatchedAt(to, from, order, p);
    }
    SameMaps(Patched(Meaning(to), AllReversed(lines)), Meaning(from));
    if lines == [] {
      RewrittenChangesNothing(Meaning(to));
    }
  }

  lemma RewrittenChangesNothing(m: map<string, set<string>>)
    ensures AllReversed([]) == [] && Patched(m, []) == m
    ensures AllReversed([Rewritten]) == [Rewritten] && Patched(m, [Rewritten]) == m
  {
    assert [Rewritten][..0] == [];
    assert Patched(m, [Rewritten]) == Applied(Patched(m, []), Rewritten);
  }

  lemma NoLinesIffSameMeaning(from: seq<ScopeEntry>, to: seq<ScopeEntry>)
    ensures LinesFor(from, to, Mentioned(from, to)) == [] <==> Meaning(from) == Meaning(to)
  {
    var order := Mentioned(from, to);
    MentionsAll(from, to);
    if LinesFor(from, to, order) == [] {
      forall p ensures AgreeAt(Meaning(from), Meaning(to), p) {
        PatchedAt(from, to, order, p);
      }
      SameMaps(Meaning(from), Meaning(to));
    }
    if Meaning(from) == Meaning(to) {
      forall p ensures LineAbout(from, to, p).None? {
        LineAboutIsDifference(from, to, p);
      }
      FilterMapEmpty(order, About(from, to));
    }
  }

  /** "No effective change" is said of identical documents and of no others. */
  lemma EmptyIffIdentical(from: seq<ScopeEntry>, to: seq<ScopeEntry>)
    ensures Diff(from, to) == [] <==> from == to
  {
    NoLinesIffSameMeaning(from, to);
    if Diff(from, to) == [] {
      StringifyIsInjective(from, to);
    }
  }

  /** "Written differently" is said exactly when the documents differ and
      authorize the same. */
  lemma RewrittenIffSameAuthorization(from: seq<ScopeEntry>, to: seq<ScopeEntry>)
    ensures Diff(from, to) == [Rewritten] <==> from != to && Meaning(from) == Meaning(to)
  {
    NoLinesIffSameMeaning(from, to);
    var lines := LinesFor(from, to, Mentioned(from, to));
    if lines != [] {
      LinesAreAboutProviders(from, to, Mentioned(from, to), 0);
    }
    if from != to && StringifyRows(from) == StringifyRows(to) {
      StringifyIsInjective(from, to);
    }
  }

  predicate TellsOf(lines: seq<Line>, p: string) {
    exists i :: 0 <= i < |lines| && !lines[i].Rewritten? && lines[i].provider == p
  }

  lemma LinesTellOf(from: seq<ScopeEntry>, to: seq<ScopeEntry>, order: seq<string>, p: string)
    requires p in order || LineAbout(from, to, p).None?
    ensures TellsOf(LinesFor(from, to, order), p) <==> LineAbout(from, to, p).Some?
  {
    var lines := LinesFor(from, to, order);
    if i :| 0 <= i < |lines| && !lines[i].Rewritten? && lines[i].provider == p {
      LinesAreAboutProviders(from, to, order, i);
    }
    if LineAbout(from, to, p).Some? {
      var i := LineIsThere(from, to, order, p);
    }
  }

  lemma UnmentionedHasNoLine(from: seq<ScopeEntry>, to: seq<ScopeEntry>, p: string)
    ensures p in Mentioned(from, to) || LineAbout(from, to, p).None?
  {
    MentionsAll(from, to);
  }

  /** A line for a provider is there exactly when its patterns changed. */
  lemma LineIffProviderChanged(from: seq<ScopeEntry>, to: seq<ScopeEntry>, p: string)
    ensures TellsOf(Diff(from, to), p) <==> !AgreeAt(Meaning(from), Meaning(to), p)
  {
    UnmentionedHasNoLine(from, to, p);
    LinesTellOf(from, to, Mentioned(from, to), p);
    LineAboutIsDifference(from, to, p);
  }

  lemma {:induction false} LineIsThere(from: seq<ScopeEntry>, to: seq<ScopeEntry>, order: seq<string>, p: string)
    returns (i: nat)
    requires p in order && LineAbout(from, to, p).Some?
    ensures i < |LinesFor(from, to, order)| && LinesFor(from, to, order)[i] == LineAbout(from, to, p).value
  {
    var init, last := order[..|order| - 1], order[|order| - 1];
    assert order == init + [last];
    if last == p {
      i := |LinesFor(from, to, init)|;
    } else {
      i := LineIsThere(from, to, init, p);
    }
  }

  // ── What enforcement sees ───────────────────────────────────────────────

  lemma {:induction false} PatternComesFromARow(rows: seq<ScopeEntry>, provider: string, pattern: string)
    ensures pattern in PatternsFor(rows, provider) <==>
            exists i :: 0 <= i < |rows| && rows[i].provider == provider && pattern in rows[i].models
  {
    if rows != [] {
      var init, last := rows[..|rows| - 1], rows[|rows| - 1];
      PatternComesFromARow(init, provider, pattern);
      if pattern in PatternsFor(init, provider) {
        var i :| 0 <= i < |init| && init[i].provider == provider && pattern in init[i].models;
        assert rows[i] == init[i];
      }
      if last.provider == provider && pattern in last.models {
        assert rows[|rows| - 1] == last;
      }
      if i :| 0 <= i < |rows| && rows[i].provider == provider && pattern in rows[i].models {
        if i < |init| { assert init[i] == rows[i]; }
      }
    }
  }

  lemma AllowsBySomePattern(rows: seq<ScopeEntry>, provider: string, model: string)
    requires WellNamed(rows)
    ensures Allows(rows, provider, model) <==>
            |model| <= MAX_MODEL_LEN && exists x :: x in PatternsFor(rows, provider) && ModelMatches(x, model)
  {
    AllowsIsSomeRow(rows, provider, model);
    if SomeRowGrants(rows, provider, model) {
      var i :| 0 <= i < |rows| && rows[i].provider == provider && RowGrants(rows[i].models, model);
      PatternComesFromARow(rows, provider, FirstMatch(rows[i].models, model).value);
    }
    if x :| x in PatternsFor(rows, provider) && ModelMatches(x, model) {
      PatternComesFromARow(rows, provider, x);
      var i :| 0 <= i < |rows| && rows[i].provider == provider && x in rows[i].models;
      assert RowGrants(rows[i].models, model);
    }
  }

  /** So a change the record calls no change in authorization leaves every call
      answered as before. */
  lemma SameMeaningSameAnswers(from: seq<ScopeEntry>, to: seq<ScopeEntry>, provider: string, model: string)
    requires WellNamed(from) && WellNamed(to)
    requires Diff(from, to) == [] || Diff(from, to) == [Rewritten]
    ensures Allows(from, provider, model) <==> Allows(to, provider, model)
  {
    EmptyIffIdentical(from, to);
    RewrittenIffSameAuthorization(from, to);
    AllowsBySomePattern(from, provider, model);
    AllowsBySomePattern(to, provider, model);
    var was, now := PatternsFor(from, provider), PatternsFor(to, provider);
    assert Elements(was) == Elements(now) by {
      if provider in Providers(from) {
        assert Meaning(from)[provider] == Meaning(to)[provider];
      } else {
        assert provider !in Meaning(to);
        UnknownProvider(from, provider);
        UnknownProvider(to, provider);
      }
    }
    assert forall x :: x in was <==> x in Elements(was);
    assert forall x :: x in now <==> x in Elements(now);
  }
}
