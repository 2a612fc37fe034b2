/** The merge every mint runs (lib/break-glass.ts, `unionScopes`): the agent's
    own capability and whatever a live grant adds, one row per provider. */
module ScopeUnion {
  import opened Lists
  import opened Json
  import opened Scope
  import Glob

  /** One stored entry, coerced rather than trusted: not an object, or no
      provider, and it is dropped; no list of models, and it names none. */
  function EntryOf(v: Value): Option<ScopeEntry> {
    if !HasText(v, "provider") then None
    else Some(ScopeEntry(v.fields["provider"].s, Strings(ItemsOf(Field(v, "models")))))
  }

  function Readable(document: seq<Value>): seq<ScopeEntry> {
    FilterMap(document, EntryOf)
  }

  function Providers(rows: seq<ScopeEntry>): seq<string> {
    seq(|rows|, i requires 0 <= i < |rows| => rows[i].provider)
  }

  /** Every pattern any row gives this provider, in document order. */
  function PatternsFor(rows: seq<ScopeEntry>, provider: string): seq<string> {
    if rows == [] then []
    else
      var rest, last := PatternsFor(rows[..|rows| - 1], provider), rows[|rows| - 1];
      if last.provider == provider then rest + last.models else rest
  }

  function Merged(rows: seq<ScopeEntry>, providers: seq<string>): seq<ScopeEntry> {
    seq(|providers|, i requires 0 <= i < |providers| =>
      ScopeEntry(providers[i], Dedup(PatternsFor(rows, providers[i]))))
  }

  /** One row per provider in order of first appearance, no pattern twice. */
  function Union(rows: seq<ScopeEntry>): seq<ScopeEntry> {
    Merged(rows, Dedup(Providers(rows)))
  }

  function EntryJson(row: ScopeEntry): Value {
    Record(map["provider" := Text(row.provider), "models" := List(Texts(row.models))])
  }

  function DocumentJson(rows: seq<ScopeEntry>): seq<Value> {
    seq(|rows|, i requires 0 <= i < |rows| => EntryJson(rows[i]))
  }

  // ── The loop ────────────────────────────────────────────────────────────

  datatype Row = Row(models: seq<string>, seen: set<string>)

  ghost predicate Tracks(row: Row, models: seq<string>) {
    && row.models == Dedup(models)
    && (forall x :: x in row.seen <==> x in row.models)
  }

  /** A JavaScript Map iterates in insertion order, so the order is kept beside
      the rows. */
  ghost predicate Built(order: seq<string>, byProvider: map<string, Row>, rows: seq<ScopeEntry>) {
    && order == Dedup(Providers(rows))
    && (forall p :: p in byProvider <==> p in order)
    && AllTracked(byProvider, rows)
  }

  ghost predicate AllTracked(byProvider: map<string, Row>, rows: seq<ScopeEntry>) {
    forall p :: p in byProvider ==> Tracks(byProvider[p], PatternsFor(rows, p))
  }

  method UnionScopes(base: seq<Value>, granted: seq<Value>) returns (rows: seq<ScopeEntry>)
    ensures rows == Union(Readable(base) + Readable(granted))
  {
    var all := base + granted;
    var order: seq<string>, byProvider: map<string, Row> := [], map[];
    for n := 0 to |all|
      invariant Built(order, byProvider, Readable(all[..n]))
    {
      assert all[..n + 1] == all[..n] + [all[n]];
      FilterMapSnoc(all[..n], all[n], EntryOf);
      if !HasText(all[n], "provider") { continue; }
      order, byProvider := AddEntry(order, byProvider, all[n].fields["provider"].s,
                                    ItemsOf(Field(all[n], "models")), Readable(all[..n]));
    }
    assert all[..|all|] == all;
    FilterMapAppend(base, granted, EntryOf);
    BuiltIsUnion(order, byProvider, Readable(all));
    rows := RowsInOrder(order, byProvider);
  }

  function RowsInOrder(order: seq<string>, byProvider: map<string, Row>): seq<ScopeEntry>
    requires forall p :: p in order ==> p in byProvider
  {
    seq(|order|, i requires 0 <= i < |order| && order[i] in byProvider =>
      ScopeEntry(order[i], byProvider[order[i]].models))
  }

  lemma BuiltIsUnion(order: seq<string>, byProvider: map<string, Row>, rows: seq<ScopeEntry>)
    requires Built(order, byProvider, rows)
    ensures RowsInOrder(order, byProvider) == Union(rows)
  {
    forall i | 0 <= i < |order| ensures byProvider[order[i]].models == Dedup(PatternsFor(rows, order[i])) {
      assert order[i] in order && Tracks(byProvider[order[i]], PatternsFor(rows, order[i]));
    }
  }

  method AddEntry(order: seq<string>, byProvider: map<string, Row>, provider: string, models: seq<Value>,
                  ghost done: seq<ScopeEntry>)
    returns (order': seq<string>, byProvider': map<string, Row>)
    requires Built(order, byProvider, done)
    ensures Built(order', byProvider', done + [ScopeEntry(provider, Strings(models))])
  {
    var row := if provider in byProvider then byProvider[provider] else Row([], {});
    TrackedSoFar(order, byProvider, done, provider);
    row := PushModels(row, models, PatternsFor(done, provider));
    BuiltStep(order, byProvider, done, ScopeEntry(provider, Strings(models)), row);
    order' := if provider in byProvider then order else order + [provider];
    byProvider' := byProvider[provider := row];
  }

  lemma TrackedSoFar(order: seq<string>, byProvider: map<string, Row>, done: seq<ScopeEntry>, provider: string)
    requires Built(order, byProvider, done)
    ensures Tracks(if provider in byProvider then byProvider[provider] else Row([], {}), PatternsFor(done, provider))
  {
    if provider !in byProvider {
      assert provider !in order;
      UnknownProvider(done, provider);
    }
  }

  lemma TrackedStep(byProvider: map<string, Row>, done: seq<ScopeEntry>, entry: ScopeEntry, row: Row)
    requires AllTracked(byProvider, done) && Tracks(row, PatternsFor(done, entry.provider) + entry.models)
    ensures AllTracked(byProvider[entry.provider := row], done + [entry])
  {
    var next := byProvider[entry.provider := row];
    forall p | p in next ensures Tracks(next[p], PatternsFor(done + [entry], p)) {
      PatternsSnoc(done, entry, p);
    }
  }

  lemma BuiltStep(order: seq<string>, byProvider: map<string, Row>, done: seq<ScopeEntry>, entry: ScopeEntry, row: Row)
    requires Built(order, byProvider, done) && Tracks(row, PatternsFor(done, entry.provider) + entry.models)
    ensures Built(if entry.provider in byProvider then order else order + [entry.provider],
                  byProvider[entry.provider := row], done + [entry])
  {
    AddRow(done, entry);
    TrackedStep(byProvider, done, entry, row);
  }

  /** The inner loop: each string once, in order, everything else skipped. */
  method PushModels(row: Row, models: seq<Value>, ghost before: seq<string>) returns (r: Row)
    requires Tracks(row, before)
    ensures Tracks(r, before + Strings(models))
  {
    r := row;
    PushStart(before, models);
    for k := 0 to |models|
      invariant Tracks(r, Pushed(before, models, k))
    {
      PushStep(before, models, k);
      if !models[k].Text? { continue; }
      var model := models[k].s;
      TrackOne(r, Pushed(before, models, k), model);
      if model !in r.seen {
        r := Row(r.models + [model], r.seen + {model});
      }
    }
    assert models[..|models|] == models;
  }

  ghost function Pushed(before: seq<string>, models: seq<Value>, k: nat): seq<string>
    requires k <= |models|
  {
    before + Strings(models[..k])
  }

  lemma PushStart(before: seq<string>, models: seq<Value>)
    ensures Pushed(before, models, 0) == before
  {
  }

  lemma PushStep(before: seq<string>, models: seq<Value>, k: nat)
    requires k < |models|
    ensures Pushed(before, models, k + 1) ==
            if models[k].Text? then Pushed(before, models, k) + [models[k].s] else Pushed(before, models, k)
  {
    assert models[..k + 1] == models[..k] + [models[k]];
    StringsSnoc(models[..k], models[k]);
  }

  lemma TrackOne(row: Row, models: seq<string>, model: string)
    requires Tracks(row, models)
    ensures Tracks(if model in row.seen then row else Row(row.models + [model], row.seen + {model}), models + [model])
  {
    DedupSnoc(models, model);
    assert model in row.seen <==> model in models;
  }

  /** What one more row does to the providers and to each one's patterns. */
  lemma AddRow(rows: seq<ScopeEntry>, row: ScopeEntry)
    ensures Dedup(Providers(rows + [row])) ==
            if row.provider in Dedup(Providers(rows)) then Dedup(Providers(rows))
            else Dedup(Providers(rows)) + [row.provider]
    ensures forall p :: p != row.provider ==> PatternsFor(rows + [row], p) == PatternsFor(rows, p)
    ensures PatternsFor(rows + [row], row.provider) == PatternsFor(rows, row.provider) + row.models
  {
    assert (rows + [row])[..|rows|] == rows;
    assert Providers(rows + [row]) == Providers(rows) + [row.provider];
    DedupSnoc(Providers(rows), row.provider);
  }

  lemma {:induction false} UnknownProvider(rows: seq<ScopeEntry>, provider: string)
    requires provider !in Providers(rows)
    ensures PatternsFor(rows, provider) == []
  {
    if rows != [] {
      var init, last := rows[..|rows| - 1], rows[|rows| - 1];
      assert last.provider == Providers(rows)[|rows| - 1];
      assert Providers(init) == Providers(rows)[..|init|];
      UnknownProvider(init, provider);
    }
  }

  // ── What stored values name ─────────────────────────────────────────────

  /** A stored record that gives this provider this pattern. */
  predicate Gives(v: Value, provider: string, pattern: string) {
    && v.Record?
    && "provider" in v.fields && v.fields["provider"] == Text(provider)
    && "models" in v.fields && v.fields["models"].List? && Text(pattern) in v.fields["models"].items
  }

  lemma {:induction false} StringsAreTexts(items: seq<Value>, s: string)
    ensures s in Strings(items) <==> Text(s) in items
  {
    if items != [] {
      var init, last := items[..|items| - 1], items[|items| - 1];
      assert items == init + [last];
      StringsAreTexts(init, s);
    }
  }

  lemma EntryGives(v: Value, provider: string, pattern: string)
    ensures Gives(v, provider, pattern) <==>
            EntryOf(v).Some? && EntryOf(v).value.provider == provider && pattern in EntryOf(v).value.models
  {
    StringsAreTexts(ItemsOf(Field(v, "models")), pattern);
  }

  lemma PatternsForAppendOne(rows: seq<ScopeEntry>, row: ScopeEntry, provider: string, pattern: string)
    ensures pattern in PatternsFor(rows + [row], provider) <==>
            pattern in PatternsFor(rows, provider) || (row.provider == provider && pattern in row.models)
  {
    assert (rows + [row])[..|rows|] == rows;
  }

  lemma {:induction false} PatternsAreGiven(document: seq<Value>, provider: string, pattern: string)
    ensures pattern in PatternsFor(Readable(document), provider) <==>
            exists i :: 0 <= i < |document| && Gives(document[i], provider, pattern)
  {
    if document != [] {
      var init, last := document[..|document| - 1], document[|document| - 1];
      PatternsAreGiven(init, provider, pattern);
      EntryGives(last, provider, pattern);
      if EntryOf(last).Some? {
        PatternsForAppendOne(Readable(init), EntryOf(last).value, provider, pattern);
      }
      if i :| 0 <= i < |document| && Gives(document[i], provider, pattern) {
        assert i < |init| ==> init[i] == document[i];
      }
      if i :| 0 <= i < |init| && Gives(init[i], provider, pattern) {
        assert document[i] == init[i];
      }
    }
  }

  /** What the merge of two stored documents names: exactly what some record in
      either gives, whatever else the column holds. */
  lemma UnionNamesWhatIsStored(base: seq<Value>, granted: seq<Value>, provider: string, pattern: string)
    ensures (exists i :: 0 <= i < |Union(Readable(base) + Readable(granted))|
                         && Union(Readable(base) + Readable(granted))[i].provider == provider
                         && pattern in Union(Readable(base) + Readable(granted))[i].models)
            <==> exists v :: v in base + granted && Gives(v, provider, pattern)
  {
    var document, rows := base + granted, Readable(base) + Readable(granted);
    FilterMapAppend(base, granted, EntryOf);
    PatternsAreGiven(document, provider, pattern);
    if i :| 0 <= i < |document| && Gives(document[i], provider, pattern) {
      assert document[i] in document;
    }
    InUnion(rows, provider, pattern);
  }

  lemma InUnion(rows: seq<ScopeEntry>, provider: string, pattern: string)
    ensures (exists i :: 0 <= i < |Union(rows)| && Union(rows)[i].provider == provider && pattern in Union(rows)[i].models)
            <==> pattern in PatternsFor(rows, provider)
  {
    var ps := Dedup(Providers(rows));
    if pattern in PatternsFor(rows, provider) {
      if provider !in Providers(rows) {
        UnknownProvider(rows, provider);
      }
      var i :| 0 <= i < |ps| && ps[i] == provider;
      assert Union(rows)[i].provider == provider;
    }
  }

  lemma EntryReadsBack(row: ScopeEntry)
    ensures EntryOf(EntryJson(row)) == Some(row)
  {
    var json := EntryJson(row);
    assert json.fields["provider"].s == row.provider && json.fields["models"].items == Texts(row.models);
    StringsOfTexts(row.models);
  }

  /** A stored document reads as itself, row for row. */
  lemma DocumentReadsBack(rows: seq<ScopeEntry>)
    ensures Readable(DocumentJson(rows)) == rows
  {
    forall i | 0 <= i < |rows| ensures EntryOf(DocumentJson(rows)[i]) == Some(rows[i]) {
      EntryReadsBack(rows[i]);
    }
    FilterMapAll(DocumentJson(rows), EntryOf, rows);
  }

  // ── Shape ───────────────────────────────────────────────────────────────

  /** One row per provider, and no model named twice in a row. */
  lemma UnionIsNormal(rows: seq<ScopeEntry>)
    ensures Distinct(Providers(Union(rows)))
    ensures Providers(Union(rows)) == Dedup(Providers(rows))
    ensures forall i :: 0 <= i < |Union(rows)| ==> Distinct(Union(rows)[i].models)
  {
    assert Providers(Union(rows)) == Dedup(Providers(rows));
  }

  /** The agent's own capability reads first: the normalised base is a row-wise
      prefix of every union over it. */
  lemma BaseReadsFirst(base: seq<ScopeEntry>, granted: seq<ScopeEntry>)
    ensures |Union(base)| <= |Union(base + granted)|
    ensures forall i :: 0 <= i < |Union(base)| ==>
              && Union(base + granted)[i].provider == Union(base)[i].provider
              && Union(base)[i].models <= Union(base + granted)[i].models
  {
    var few, many := Dedup(Providers(base)), Dedup(Providers(base + granted));
    ProvidersAppend(base, granted);
    DedupPrefix(Providers(base), Providers(granted));
    forall i | 0 <= i < |few|
      ensures many[i] == few[i] && Dedup(PatternsFor(base, few[i])) <= Dedup(PatternsFor(base + granted, few[i]))
    {
      PatternsReadFirst(base, granted, few[i]);
    }
  }

  lemma PatternsReadFirst(base: seq<ScopeEntry>, granted: seq<ScopeEntry>, p: string)
    ensures Dedup(PatternsFor(base, p)) <= Dedup(PatternsFor(base + granted, p))
  {
    PatternsAppend(base, granted, p);
    DedupPrefix(PatternsFor(base, p), PatternsFor(granted, p));
  }

  lemma {:induction false} PatternsAppend(a: seq<ScopeEntry>, b: seq<ScopeEntry>, provider: string)
    ensures PatternsFor(a + b, provider) == PatternsFor(a, provider) + PatternsFor(b, provider)
  {
    if b == [] {
      assert a + b == a;
    } else {
      var init, last := b[..|b| - 1], b[|b| - 1];
      assert (a + b)[..|a + b| - 1] == a + init;
      PatternsAppend(a, init, provider);
    }
  }

  // ── Laws of the merge, as sequences ─────────────────────────────────────

  lemma {:induction false} PatternsOfMerged(rows: seq<ScopeEntry>, providers: seq<string>, p: string)
    requires Distinct(providers)
    ensures PatternsFor(Merged(rows, providers), p) ==
            if p in providers then Dedup(PatternsFor(rows, p)) else []
  {
    if providers != [] {
      var init, last := providers[..|providers| - 1], providers[|providers| - 1];
      assert providers == init + [last];
      assert Merged(rows, providers)[..|init|] == Merged(rows, init);
      PatternsOfMerged(rows, init, p);
    }
  }

  lemma PatternsOfUnion(rows: seq<ScopeEntry>, p: string)
    ensures PatternsFor(Union(rows), p) == Dedup(PatternsFor(rows, p))
  {
    PatternsOfMerged(rows, Dedup(Providers(rows)), p);
    if p !in Providers(rows) { UnknownProvider(rows, p); }
  }

  lemma SameUnion(a: seq<ScopeEntry>, b: seq<ScopeEntry>)
    requires Dedup(Providers(a)) == Dedup(Providers(b))
    requires forall p :: p in Dedup(Providers(b)) ==> Dedup(PatternsFor(a, p)) == Dedup(PatternsFor(b, p))
    ensures Union(a) == Union(b)
  {
    var ps := Dedup(Providers(b));
    forall i | 0 <= i < |ps| ensures Union(a)[i] == Union(b)[i] {
      assert ps[i] in ps;
    }
  }

  lemma AbsorbedLeft(a: seq<ScopeEntry>, b: seq<ScopeEntry>, p: string)
    ensures Dedup(PatternsFor(Union(a) + b, p)) == Dedup(PatternsFor(a + b, p))
  {
    PatternsAppend(Union(a), b, p);
    PatternsAppend(a, b, p);
    PatternsOfUnion(a, p);
    DedupLeft(PatternsFor(a, p), PatternsFor(b, p));
  }

  lemma AbsorbedRight(a: seq<ScopeEntry>, b: seq<ScopeEntry>, p: string)
    ensures Dedup(PatternsFor(a + Union(b), p)) == Dedup(PatternsFor(a + b, p))
  {
    PatternsAppend(a, Union(b), p);
    PatternsAppend(a, b, p);
    PatternsOfUnion(b, p);
    DedupRight(PatternsFor(a, p), PatternsFor(b, p));
  }

  lemma ProvidersAppend(a: seq<ScopeEntry>, b: seq<ScopeEntry>)
    ensures Providers(a + b) == Providers(a) + Providers(b)
  {
  }

  /** Merging early or late makes no difference, to a row or a character. */
  lemma UnionAbsorbsLeft(a: seq<ScopeEntry>, b: seq<ScopeEntry>)
    ensures Union(Union(a) + b) == Union(a + b)
  {
    UnionIsNormal(a);
    ProvidersAppend(Union(a), b);
    ProvidersAppend(a, b);
    DedupLeft(Providers(a), Providers(b));
    forall p ensures Dedup(PatternsFor(Union(a) + b, p)) == Dedup(PatternsFor(a + b, p)) {
      AbsorbedLeft(a, b, p);
    }
    SameUnion(Union(a) + b, a + b);
  }

  lemma UnionAbsorbsRight(a: seq<ScopeEntry>, b: seq<ScopeEntry>)
    ensures Union(a + Union(b)) == Union(a + b)
  {
    UnionIsNormal(b);
    ProvidersAppend(a, Union(b));
    ProvidersAppend(a, b);
    DedupRight(Providers(a), Providers(b));
    forall p ensures Dedup(PatternsFor(a + Union(b), p)) == Dedup(PatternsFor(a + b, p)) {
      AbsorbedRight(a, b, p);
    }
    SameUnion(a + Union(b), a + b);
  }

  lemma UnionAssociative(a: seq<ScopeEntry>, b: seq<ScopeEntry>, c: seq<ScopeEntry>)
    ensures Union(Union(a + b) + c) == Union(a + Union(b + c))
  {
    UnionAbsorbsLeft(a + b, c);
    UnionAbsorbsRight(a, b + c);
    Regroup(a, b, c);
  }

  /** Normalising twice changes nothing. */
  lemma UnionIdempotent(a: seq<ScopeEntry>)
    ensures Union(Union(a)) == Union(a)
  {
    UnionAbsorbsLeft(a, []);
    assert Union(a) + [] == Union(a) && a + [] == a;
  }

  lemma ElevationAddsNothing(a: seq<ScopeEntry>, b: seq<ScopeEntry>, p: string)
    ensures Dedup(PatternsFor((a + b) + b, p)) == Dedup(PatternsFor(a + b, p))
  {
    PatternsAppend(a + b, b, p);
    PatternsAppend(a, b, p);
    DedupAddsNothing(PatternsFor(a + b, p), PatternsFor(b, p));
  }

  /** Neither does taking the same elevation again. */
  lemma SameElevationTwice(a: seq<ScopeEntry>, b: seq<ScopeEntry>)
    ensures Union(Union(a + b) + b) == Union(a + b)
  {
    UnionAbsorbsLeft(a + b, b);
    ProvidersAppend(a + b, b);
    ProvidersAppend(a, b);
    DedupAddsNothing(Providers(a + b), Providers(b));
    forall p ensures Dedup(PatternsFor((a + b) + b, p)) == Dedup(PatternsFor(a + b, p)) {
      ElevationAddsNothing(a, b, p);
    }
    SameUnion((a + b) + b, a + b);
  }

  lemma {:induction false} DedupAddsNothing<T>(a: seq<T>, b: seq<T>)
    requires forall x :: x in b ==> x in a
    ensures Dedup(a + b) == Dedup(a)
  {
    if b == [] {
      assert a + b == a;
    } else {
      var init, last := b[..|b| - 1], b[|b| - 1];
      assert last in b;
      DedupAddsNothing(a, init);
      assert a + b == (a + init) + [last];
      DedupSnoc(a + init, last);
    }
  }

  /** A stored document that is already one row per provider is unchanged. */
  lemma UnionOfNormal(rows: seq<ScopeEntry>)
    requires Distinct(Providers(rows))
    requires forall i :: 0 <= i < |rows| ==> Distinct(rows[i].models)
    ensures Union(rows) == rows
  {
    DedupOfDistinct(Providers(rows));
    forall i | 0 <= i < |rows| ensures Union(rows)[i] == rows[i] {
      PatternsOfOnlyRow(rows, i);
      DedupOfDistinct(rows[i].models);
    }
  }

  lemma {:induction false} PatternsOfOnlyRow(rows: seq<ScopeEntry>, i: nat)
    requires i < |rows| && Distinct(Providers(rows))
    ensures PatternsFor(rows, rows[i].provider) == rows[i].models
  {
    var init, last := rows[..|rows| - 1], rows[|rows| - 1];
    assert Providers(init) == Providers(rows)[..|init|];
    if i < |init| {
      PatternsOfOnlyRow(init, i);
      assert Providers(rows)[i] != Providers(rows)[|init|];
    } else {
      forall j | 0 <= j < |init| ensures Providers(init)[j] != last.provider {
        assert Providers(rows)[j] != Providers(rows)[|init|];
      }
      UnknownProvider(init, last.provider);
    }
  }

  lemma PatternsSnoc(rows: seq<ScopeEntry>, row: ScopeEntry, p: string)
    ensures PatternsFor(rows + [row], p) ==
            if row.provider == p then PatternsFor(rows, p) + row.models else PatternsFor(rows, p)
  {
    assert (rows + [row])[..|rows|] == rows;
  }

  lemma {:induction false} PatternsOfKept(rows: seq<ScopeEntry>, kept: ScopeEntry -> bool, p: string)
    requires forall row: ScopeEntry :: !kept(row) ==> row.models == []
    ensures PatternsFor(Keep(rows, kept), p) == PatternsFor(rows, p)
  {
    if rows == [] {
      assert Keep(rows, kept) == rows;
    } else {
      var init, last := rows[..|rows| - 1], rows[|rows| - 1];
      assert rows == init + [last];
      PatternsOfKept(init, kept, p);
      PatternsSnoc(init, last, p);
      KeepLast(init, last, kept);
      PatternsSnoc(Keep(init, kept), last, p);
    }
  }

  /** Dropping rows without patterns before the merge can lose rows of the union
      and permute them, but each one left is a row of the whole union. */
  lemma UnionOfKept(base: seq<ScopeEntry>, rows: seq<ScopeEntry>, kept: ScopeEntry -> bool)
    requires forall row: ScopeEntry :: !kept(row) ==> row.models == []
    ensures forall row :: row in Union(base + Keep(rows, kept)) ==> row in Union(base + rows)
    ensures Distinct(Union(base + Keep(rows, kept)))
  {
    var fewer, more := base + Keep(rows, kept), base + rows;
    forall i | 0 <= i < |Union(fewer)| ensures Union(fewer)[i] in Union(more) {
      var p := Dedup(Providers(fewer))[i];
      PatternsAppend(base, Keep(rows, kept), p);
      PatternsAppend(base, rows, p);
      PatternsOfKept(rows, kept, p);
      ProviderStays(base, rows, kept, p);
      var j :| 0 <= j < |Dedup(Providers(more))| && Dedup(Providers(more))[j] == p;
      assert Union(more)[j] == Union(fewer)[i];
    }
    UnionIsNormal(fewer);
    forall i, j | 0 <= i < j < |Union(fewer)| ensures Union(fewer)[i] != Union(fewer)[j] {
      assert Providers(Union(fewer))[i] != Providers(Union(fewer))[j];
    }
  }

  lemma ProviderStays(base: seq<ScopeEntry>, rows: seq<ScopeEntry>, kept: ScopeEntry -> bool, p: string)
    requires p in Providers(base + Keep(rows, kept))
    ensures p in Providers(base + rows)
  {
    var fewer, more := base + Keep(rows, kept), base + rows;
    var i :| 0 <= i < |fewer| && Providers(fewer)[i] == p;
    assert fewer[i] in more;
    var j :| 0 <= j < |more| && more[j] == fewer[i];
    assert Providers(more)[j] == p;
  }

  // ── Meaning ─────────────────────────────────────────────────────────────

  lemma {:induction false} RowsSpeakTogether(rows: seq<ScopeEntry>, provider: string, model: string)
    ensures FirstMatch(PatternsFor(rows, provider), model) == FirstSpoken(rows, provider, model)
  {
    if rows != [] {
      var init, last := rows[..|rows| - 1], rows[|rows| - 1];
      RowsSpeakTogether(init, provider, model);
      FirstMatchAppend(PatternsFor(init, provider), last.models, model);
    }
  }

  /** The first match of the first of the provider's rows that has one. */
  function FirstSpoken(rows: seq<ScopeEntry>, provider: string, model: string): Option<string> {
    if rows == [] then None
    else
      var early, last := FirstSpoken(rows[..|rows| - 1], provider, model), rows[|rows| - 1];
      if early.Some? then early
      else if last.provider == provider then FirstMatch(last.models, model)
      else None
  }

  /** With one row per provider, that row's first match decides. */
  lemma OnlyRowDecides(rows: seq<ScopeEntry>, provider: string, model: string)
    requires Distinct(Providers(rows))
    ensures Allows(rows, provider, model) <==>
            |model| <= MAX_MODEL_LEN && RowGrants(PatternsFor(rows, provider), model)
  {
    AllowsIsSomeRow(rows, provider, model);
    if provider in Providers(rows) {
      var i :| 0 <= i < |rows| && Providers(rows)[i] == provider;
      PatternsOfOnlyRow(rows, i);
      forall j | 0 <= j < |rows| && rows[j].provider == provider ensures j == i {
        assert Providers(rows)[j] == Providers(rows)[i];
      }
    } else {
      UnknownProvider(rows, provider);
      forall j | 0 <= j < |rows| ensures rows[j].provider != provider {
        assert Providers(rows)[j] in Providers(rows);
      }
    }
  }

  lemma UnionAllowsByFirstSpoken(rows: seq<ScopeEntry>, provider: string, model: string)
    ensures Allows(Union(rows), provider, model) <==>
            (&& |model| <= MAX_MODEL_LEN
             && FirstSpoken(rows, provider, model).Some?
             && FirstSpoken(rows, provider, model).value != "")
  {
    UnionIsNormal(rows);
    OnlyRowDecides(Union(rows), provider, model);
    PatternsOfUnion(rows, provider);
    FirstMatchOfDedup(PatternsFor(rows, provider), model);
    RowsSpeakTogether(rows, provider, model);
  }

  /** Row i is the provider's first with a match. */
  ghost predicate SpeaksFirst(rows: seq<ScopeEntry>, i: int, provider: string, model: string) {
    && 0 <= i < |rows| && rows[i].provider == provider && FirstMatch(rows[i].models, model).Some?
    && forall j :: 0 <= j < i && rows[j].provider == provider ==> FirstMatch(rows[j].models, model).None?
  }

  lemma {:induction false} SpokenComesFromARow(rows: seq<ScopeEntry>, provider: string, model: string) returns (i: nat)
    requires FirstSpoken(rows, provider, model).Some?
    ensures SpeaksFirst(rows, i, provider, model)
    ensures FirstMatch(rows[i].models, model) == FirstSpoken(rows, provider, model)
  {
    var init := rows[..|rows| - 1];
    if FirstSpoken(init, provider, model).Some? {
      i := SpokenComesFromARow(init, provider, model);
      assert forall j :: 0 <= j < i ==> rows[j] == init[j];
    } else {
      i := |rows| - 1;
      forall j | 0 <= j < i && rows[j].provider == provider ensures FirstMatch(rows[j].models, model).None? {
        assert init[j] == rows[j];
        if FirstMatch(init[j].models, model).Some? {
          SomeRowSpeaks(init, j, provider, model);
        }
      }
    }
  }

  lemma {:induction false} SomeRowSpeaks(rows: seq<ScopeEntry>, i: nat, provider: string, model: string)
    requires i < |rows| && rows[i].provider == provider && FirstMatch(rows[i].models, model).Some?
    ensures FirstSpoken(rows, provider, model).Some?
  {
    if i < |rows| - 1 {
      assert rows[..|rows| - 1][i] == rows[i];
      SomeRowSpeaks(rows[..|rows| - 1], i, provider, model);
    }
  }

  /** The merge never widens: whatever the union allows, one of the two
      documents it was made of already allowed. */
  lemma UnionNeverWidens(base: seq<ScopeEntry>, granted: seq<ScopeEntry>, provider: string, model: string)
    requires Allows(Union(base + granted), provider, model)
    ensures Allows(base, provider, model) || Allows(granted, provider, model)
  {
    UnionAllowsByFirstSpoken(base + granted, provider, model);
    var first := SpokenComesFromARow(base + granted, provider, model);
    AllowsIsSomeRow(base + granted, provider, model);
    AllowsAppend(base, granted, provider, model);
  }

  // ── The one document family the merge narrows ───────────────────────────

  /** Up to four stars and nothing else: what matches the empty model id, beside
      the empty pattern itself. */
  predicate AllStars(pattern: string) {
    0 < |pattern| <= MAX_WILDCARDS && forall k :: 0 <= k < |pattern| ==> pattern[k] == '*'
  }

  lemma {:induction false} StarsMatchNothing(p: string)
    ensures Glob.Matches(p, "") <==> forall k :: 0 <= k < |p| ==> p[k] == '*'
    ensures Glob.Matches(p, "") ==> Glob.Stars(p) == |p|
  {
    if p != "" {
      var rest := p[1..];
      StarsMatchNothing(rest);
      assert forall k :: 0 <= k < |rest| ==> rest[k] == p[k + 1];
      if p[0] == '*' && Glob.Matches(rest, "") {
        forall k | 0 <= k < |p| ensures p[k] == '*' {
          assert k > 0 ==> rest[k - 1] == p[k];
        }
      }
    }
  }

  lemma MatchesTheEmptyId(pattern: string)
    ensures ModelMatches(pattern, "") <==> pattern == "" || AllStars(pattern)
  {
    StarsMatchNothing(pattern);
    if AllStars(pattern) {
      assert pattern[0] == '*' && '*' in pattern;
    }
  }

  /** In a row, the empty pattern before any of stars alone, or the reverse. */
  ghost predicate EmptyLeads(models: seq<string>) {
    exists k :: 0 <= k < |models| && models[k] == "" && forall j :: 0 <= j < k ==> !AllStars(models[j])
  }

  ghost predicate StarsLead(models: seq<string>) {
    exists k :: 0 <= k < |models| && AllStars(models[k]) && forall j :: 0 <= j < k ==> models[j] != ""
  }

  lemma WhoLeads(models: seq<string>)
    ensures EmptyLeads(models) <==> FirstMatch(models, "") == Some("")
    ensures StarsLead(models) <==> RowGrants(models, "")
  {
    forall k | 0 <= k < |models| ensures ModelMatches(models[k], "") <==> models[k] == "" || AllStars(models[k]) {
      MatchesTheEmptyId(models[k]);
    }
    if FirstMatch(models, "").Some? {
      var at := FirstMatchIsAt(models, "");
      assert ModelMatches(models[at], "");
      if EmptyLeads(models) {
        var k :| 0 <= k < |models| && models[k] == "" && forall j :: 0 <= j < k ==> !AllStars(models[j]);
        assert at <= k;
      }
      if StarsLead(models) {
        var k :| 0 <= k < |models| && AllStars(models[k]) && forall j :: 0 <= j < k ==> models[j] != "";
        assert at <= k;
      }
    }
  }

  /** Two of the provider's rows: in the first the empty pattern leads, in the
      second stars do, and stars lead in none before them. */
  ghost predicate ShadowedByEmptyPattern(rows: seq<ScopeEntry>, provider: string) {
    exists i, k :: ShadowedAt(rows, i, k, provider)
  }

  ghost predicate ShadowedAt(rows: seq<ScopeEntry>, i: int, k: int, provider: string) {
    && 0 <= i < k < |rows| && rows[i].provider == rows[k].provider == provider
    && EmptyLeads(rows[i].models) && StarsLead(rows[k].models)
    && forall j :: 0 <= j < i && rows[j].provider == provider ==> !StarsLead(rows[j].models)
  }

  lemma ShadowSilences(rows: seq<ScopeEntry>, i: int, k: int, provider: string)
    requires ShadowedAt(rows, i, k, provider)
    ensures FirstSpoken(rows, provider, "") == Some("") && Allows(rows, provider, "")
  {
    WhoLeads(rows[i].models);
    SomeRowSpeaks(rows, i, provider, "");
    var first := SpokenComesFromARow(rows, provider, "");
    WhoLeads(rows[first].models);
    WhoLeads(rows[k].models);
    AllowsIsSomeRow(rows, provider, "");
  }

  lemma SilencedIsShadowed(rows: seq<ScopeEntry>, provider: string)
    requires FirstSpoken(rows, provider, "") == Some("") && Allows(rows, provider, "")
    ensures ShadowedByEmptyPattern(rows, provider)
  {
    AllowsIsSomeRow(rows, provider, "");
    var i := SpokenComesFromARow(rows, provider, "");
    var k :| 0 <= k < |rows| && rows[k].provider == provider && RowGrants(rows[k].models, "");
    WhoLeads(rows[i].models);
    WhoLeads(rows[k].models);
    forall j | 0 <= j < i && rows[j].provider == provider ensures !StarsLead(rows[j].models) {
      WhoLeads(rows[j].models);
    }
    assert ShadowedAt(rows, i, k, provider);
  }

  lemma ShadowMeans(rows: seq<ScopeEntry>, provider: string)
    ensures ShadowedByEmptyPattern(rows, provider) <==>
            FirstSpoken(rows, provider, "") == Some("") && Allows(rows, provider, "")
  {
    if ShadowedByEmptyPattern(rows, provider) {
      var i, k :| ShadowedAt(rows, i, k, provider);
      ShadowSilences(rows, i, k, provider);
    } else if FirstSpoken(rows, provider, "") == Some("") && Allows(rows, provider, "") {
      SilencedIsShadowed(rows, provider);
    }
  }

  /** One row per provider cannot change what the visa permits, except that for
      the empty model id a row led by the empty pattern silences only itself,
      and once merged it silences the rows after it as well. */
  lemma UnionMeaning(base: seq<ScopeEntry>, granted: seq<ScopeEntry>, provider: string, model: string)
    ensures (Allows(Union(base + granted), provider, model) <==>
             (Allows(base, provider, model) || Allows(granted, provider, model))) <==>
            !(model == "" && ShadowedByEmptyPattern(base + granted, provider))
  {
    var rows := base + granted;
    AllowsAppend(base, granted, provider, model);
    ShadowMeans(rows, provider);
    UnionAllowsByFirstSpoken(rows, provider, model);
    AllowsIsSomeRow(rows, provider, model);
    if Allows(Union(rows), provider, model) {
      UnionNeverWidens(base, granted, provider, model);
    }
    if SomeRowGrants(rows, provider, model) {
      var i :| 0 <= i < |rows| && rows[i].provider == provider && RowGrants(rows[i].models, model);
      SomeRowSpeaks(rows, i, provider, model);
      var first := SpokenComesFromARow(rows, provider, model);
    }
  }

  /** It needs an empty pattern in the stored column, which validation refuses. */
  lemma NoEmptyPatternNoShadow(rows: seq<ScopeEntry>, provider: string)
    requires forall i :: 0 <= i < |rows| ==> "" !in rows[i].models
    ensures !ShadowedByEmptyPattern(rows, provider)
  {
  }

  /** The narrowing is real: two rows that allow the empty id, merged into one
      that does not. */
  lemma EmptyPatternNarrows()
    ensures var base, granted := [ScopeEntry("openai", [""])], [ScopeEntry("openai", ["*"])];
            && Allows(granted, "openai", "")
            && !Allows(Union(base + granted), "openai", "")
  {
    var base, granted := [ScopeEntry("openai", [""])], [ScopeEntry("openai", ["*"])];
    var rows := base + granted;
    assert base[0].models[0] == "" && granted[0].models[0] == "*" && AllStars("*");
    assert EmptyLeads(base[0].models) && StarsLead(granted[0].models);
    assert rows[0] == base[0] && rows[1] == granted[0];
    assert ShadowedAt(rows, 0, 1, "openai");
    WhoLeads(granted[0].models);
    AllowsIsSomeRow(granted, "openai", "");
    assert granted[0].provider == "openai" && RowGrants(granted[0].models, "");
    UnionMeaning(base, granted, "openai", "");
  }
}
