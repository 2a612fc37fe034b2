/** Break-glass documents (lib/break-glass.ts, lib/validate.ts): what is stored,
    what is read back, how big the merged claim may be, which grant is live. */
module BreakGlass {
  import opened Lists
  import opened Json
  import opened Providers
  import opened Scope
  import opened ScopeUnion
  import T = Text
  import Glob
  import Stringify

  const MAX_SCOPES := 20
  const MAX_MODELS := 50
  const MAX_PATTERN := 200
  const MAX_SCOPE_CLAIM_BYTES := 4 * 1024
  const MAX_UNION_MODELS := MAX_SCOPES * MAX_MODELS

  // ── parseGrantScopes ────────────────────────────────────────────────────

  predicate GrantModelFits(m: string) {
    0 < |m| <= MAX_PATTERN
  }

  function GrantModels(items: seq<Value>): seq<string> {
    Take(Keep(Strings(items), GrantModelFits), MAX_MODELS)
  }

  /** One stored entry of a grant, or nothing: entries fail one by one. */
  function GrantedEntry(v: Value): Option<ScopeEntry> {
    var provider := if HasText(v, "provider") then T.Trim(v.fields["provider"].s) else "";
    var listed := Field(v, "models");
    if provider == "" || |provider| > MAX_PATTERN || listed.None? || !listed.value.List? then None
    else if GrantModels(listed.value.items) == [] then None
    else Some(ScopeEntry(provider, GrantModels(listed.value.items)))
  }

  function GrantScopes(v: Value): seq<ScopeEntry> {
    if v.List? then Take(FilterMap(v.items, GrantedEntry), MAX_SCOPES) else []
  }

  method ParseGrantScopes(value: Value) returns (out: seq<ScopeEntry>)
    ensures out == GrantScopes(value)
  {
    if !value.List? { return []; }
    out := CollectUpTo(value.items, GrantedEntry, MAX_SCOPES);
  }

  /** A string a grant may name: 1 to 200 characters. */
  predicate Nameable(m: string) {
    1 <= |m| <= 200
  }

  /** One stored entry is read exactly when it is a record with a provider, once
      trimmed, of 1 to 200 characters and a list naming a model. */
  lemma GrantedEntryMeans(v: Value, row: ScopeEntry)
    ensures GrantedEntry(v) == Some(row) <==>
            && v.Record?
            && "provider" in v.fields && v.fields["provider"].Text? && T.Trim(v.fields["provider"].s) == row.provider
            && 1 <= |row.provider| <= 200
            && "models" in v.fields && v.fields["models"].List?
            && row.models != [] && row.models == GrantModels(v.fields["models"].items)
  {
  }

  /** Of a list, every string of 1 to 200 characters, in order, and the first fifty
      of them if there are more. */
  lemma GrantModelsMean(items: seq<Value>, m: string)
    ensures var fit := Keep(Strings(items), Nameable);
            && GrantModels(items) == (if |fit| <= 50 then fit else fit[..50])
            && (m in fit <==> Text(m) in items && 1 <= |m| <= 200)
  {
    StringsAreTexts(items, m);
    KeepSame(Strings(items), GrantModelFits, Nameable);
  }

  /** A grant is the first twenty entries that can be read, and nothing if it is no
      list. */
  lemma GrantScopesMean(v: Value)
    ensures var read := if v.List? then FilterMap(v.items, GrantedEntry) else [];
            GrantScopes(v) == if |read| <= 20 then read else read[..20]
  {
  }

  /** What a parsed grant may hold, whatever the column held. */
  predicate GrantEntryFits(row: ScopeEntry) {
    ValidatedRow(row) && row.models != []
  }

  predicate GrantFits(rows: seq<ScopeEntry>) {
    forall i :: 0 <= i < |rows| ==> GrantEntryFits(rows[i])
  }

  lemma GrantModelsFit(items: seq<Value>)
    ensures |GrantModels(items)| <= MAX_MODELS
    ensures forall k :: 0 <= k < |GrantModels(items)| ==> GrantModelFits(GrantModels(items)[k])
  {
    var kept := Keep(Strings(items), GrantModelFits);
    forall k | 0 <= k < |GrantModels(items)| ensures GrantModelFits(GrantModels(items)[k]) {
      assert kept[k] in kept;
    }
  }

  lemma {:induction false} GrantedEntryFits(v: Value)
    ensures GrantedEntry(v).Some? ==> GrantEntryFits(GrantedEntry(v).value)
  {
    if GrantedEntry(v).Some? {
      GrantModelsFit(Field(v, "models").value.items);
    }
  }

  lemma {:induction false} ParsedGrantIsBounded(v: Value)
    ensures |GrantScopes(v)| <= 20 && GrantFits(GrantScopes(v))
  {
    if v.List? {
      forall i | 0 <= i < |v.items| && GrantedEntry(v.items[i]).Some?
        ensures GrantEntryFits(GrantedEntry(v.items[i]).value)
      {
        GrantedEntryFits(v.items[i]);
      }
      FilterMapKeeps(v.items, GrantedEntry, GrantEntryFits);
    }
  }

  lemma ModelsReadBack(models: seq<string>)
    requires |models| <= MAX_MODELS && forall k :: 0 <= k < |models| ==> GrantModelFits(models[k])
    ensures GrantModels(Texts(models)) == models
  {
    StringsOfTexts(models);
    KeepAll(models, GrantModelFits);
  }

  lemma {:induction false} FittingEntryReadsBack(row: ScopeEntry)
    requires ValidatedRow(row)
    ensures GrantedEntry(EntryJson(row)) == if NamesAModel(row) then Some(row) else None
  {
    var json := EntryJson(row);
    assert json.fields["provider"].s == row.provider && json.fields["models"].items == Texts(row.models);
    ModelsReadBack(row.models);
    assert T.Trim(row.provider) == row.provider;
  }

  predicate NamesAModel(row: ScopeEntry) {
    row.models != []
  }

  /** Reading a validated grant back keeps exactly its rows that name a model. */
  lemma {:induction false} ValidatedRowsReadBack(rows: seq<ScopeEntry>)
    requires Validated(rows)
    ensures FilterMap(DocumentJson(rows), GrantedEntry) == Keep(rows, NamesAModel)
  {
    forall i | 0 <= i < |rows|
      ensures GrantedEntry(DocumentJson(rows)[i]) == if NamesAModel(rows[i]) then Some(rows[i]) else None
    {
      FittingEntryReadsBack(rows[i]);
    }
    FilterMapKeep(DocumentJson(rows), GrantedEntry, rows, NamesAModel);
  }

  /** Storing what was parsed and parsing it again changes nothing. */
  lemma ParseGrantIdempotent(v: Value)
    ensures GrantScopes(List(DocumentJson(GrantScopes(v)))) == GrantScopes(v)
  {
    ParsedGrantIsBounded(v);
    FittingRowsReadBack(GrantScopes(v));
  }

  lemma FittingRowsReadBack(rows: seq<ScopeEntry>)
    requires GrantFits(rows) && |rows| <= MAX_SCOPES
    ensures GrantScopes(List(DocumentJson(rows))) == rows
  {
    ValidatedRowsReadBack(rows);
    KeepAll(rows, NamesAModel);
  }

  // ── scopeUnionExceedsBounds ─────────────────────────────────────────────

  datatype BoundFailure =
    | TooManyProviders(actual: int)
    | TooManyModelsFor(provider: string, actual: int)
    | TooManyModelsInTotal(actual: int)
    | TooManyBytes(actual: int)

  function TotalModels(rows: seq<ScopeEntry>): nat {
    if rows == [] then 0 else TotalModels(rows[..|rows| - 1]) + |rows[|rows| - 1].models|
  }

  function ClaimBytes(rows: seq<ScopeEntry>): nat {
    Stringify.Utf8Length(Stringify.StringifyRows(rows))
  }

  predicate RowsFit(rows: seq<ScopeEntry>) {
    forall i :: 0 <= i < |rows| ==> |rows[i].models| <= MAX_MODELS
  }

  predicate WithinBounds(rows: seq<ScopeEntry>) {
    && |rows| <= MAX_SCOPES
    && RowsFit(rows)
    && TotalModels(rows) <= MAX_UNION_MODELS
    && ClaimBytes(rows) <= MAX_SCOPE_CLAIM_BYTES
  }

  /** Twenty providers, fifty models each, four kilobytes; the total follows. */
  lemma BoundsAre(rows: seq<ScopeEntry>)
    ensures WithinBounds(rows) <==>
            && |rows| <= 20 && (forall i :: 0 <= i < |rows| ==> |rows[i].models| <= 50)
            && Stringify.Utf8Length(Stringify.StringifyRows(rows)) <= 4096
  {
    if RowsFit(rows) {
      RowsBoundTheTotal(rows);
    }
  }

  /** Every axis is inside its limit exactly when nothing is reported; what is
      reported is really broken; and the total is never what is reported,
      because the first two axes already bound it by their product. */
  method ScopeUnionExceedsBounds(union: seq<ScopeEntry>) returns (failure: Option<BoundFailure>)
    ensures failure.None? <==> WithinBounds(union)
    ensures failure.Some? ==>
              match failure.value
              case TooManyProviders(n) => n == |union| && n > MAX_SCOPES
              case TooManyModelsFor(p, n) =>
                && n > MAX_MODELS
                && exists i :: 0 <= i < |union| && union[i].provider == p && |union[i].models| == n && RowsFit(union[..i])
              case TooManyModelsInTotal(_) => false
              case TooManyBytes(n) => n == ClaimBytes(union) && n > MAX_SCOPE_CLAIM_BYTES && RowsFit(union)
  {
    if |union| > MAX_SCOPES { return Some(TooManyProviders(|union|)); }
    var total := 0;
    for i := 0 to |union|
      invariant total == TotalModels(union[..i]) && RowsFit(union[..i])
    {
      assert union[..i + 1][..i] == union[..i];
      if |union[i].models| > MAX_MODELS {
        return Some(TooManyModelsFor(union[i].provider, |union[i].models|));
      }
      total := total + |union[i].models|;
    }
    assert union[..|union|] == union;
    RowsBoundTheTotal(union);
    if total > MAX_UNION_MODELS { return Some(TooManyModelsInTotal(total)); }
    var bytes := ClaimBytes(union);
    if bytes > MAX_SCOPE_CLAIM_BYTES { return Some(TooManyBytes(bytes)); }
    failure := None;
  }

  lemma {:induction false} RowsBoundTheTotal(rows: seq<ScopeEntry>)
    requires RowsFit(rows)
    ensures TotalModels(rows) <= |rows| * MAX_MODELS
  {
    if rows != [] {
      RowsBoundTheTotal(rows[..|rows| - 1]);
    }
  }

  function ModelCount(row: ScopeEntry): nat {
    |row.models|
  }

  lemma {:induction false} TotalModelsIsSum(rows: seq<ScopeEntry>)
    ensures TotalModels(rows) == Sum(rows, ModelCount)
  {
    if rows != [] {
      var init, last := rows[..|rows| - 1], rows[|rows| - 1];
      assert rows == init + [last];
      TotalModelsIsSum(init);
      SumAppend(init, [last], ModelCount);
      assert [last][1..] == [] && Sum([last][1..], ModelCount) == 0;
    }
  }

  lemma FewerRowsTakeFewerBytes(rows: seq<ScopeEntry>, all: seq<ScopeEntry>)
    requires Distinct(rows) && forall row :: row in rows ==> row in all
    ensures ClaimBytes(rows) <= ClaimBytes(all)
  {
    SumOfFewer(rows, all, Stringify.RowSize);
    Stringify.DocumentSize(rows);
    Stringify.DocumentSize(all);
    if all != [] {
      Stringify.RowTakesSomething(all[0]);
    }
  }

  /** The bound does not mind the order, and fewer rows fit wherever more did. */
  lemma FewerRowsFit(rows: seq<ScopeEntry>, all: seq<ScopeEntry>)
    requires Distinct(rows) && forall row :: row in rows ==> row in all
    requires WithinBounds(all)
    ensures WithinBounds(rows)
  {
    SumOfFewer(rows, all, ModelCount);
    TotalModelsIsSum(rows);
    TotalModelsIsSum(all);
    FewerRowsTakeFewerBytes(rows, all);
    forall i | 0 <= i < |rows| ensures |rows[i].models| <= MAX_MODELS {
      assert rows[i] in all;
    }
  }

  // ── validateScopes, the door a grant comes in by ────────────────────────

  predicate IsScopeProvider(p: string) {
    p in PROVIDERS || p == DEMO
  }

  lemma ProviderLength(p: string)
    requires IsScopeProvider(p)
    ensures 0 < |p| <= 10
  {
    if p in PROVIDERS {
      var i :| 0 <= i < |PROVIDERS| && PROVIDERS[i] == p;
    }
  }

  function ValidPattern(v: Value): Option<string> {
    var pattern := T.Trim(TextOr(v, ""));
    if pattern == "" || !PatternIsBounded(pattern) then None else Some(pattern)
  }

  function ValidEntry(v: Value): Option<ScopeEntry> {
    var named, listed := Field(v, "provider"), Field(v, "models");
    var provider := if named.Some? then T.Trim(TextOr(named.value, "")) else "";
    if !IsScopeProvider(provider) || listed.None? || !listed.value.List? || |listed.value.items| > MAX_MODELS then None
    else
      var models := MapAll(listed.value.items, ValidPattern);
      if models.None? then None else Some(ScopeEntry(provider, models.value))
  }

  /** The normalised document, or a refusal of the whole of it. */
  function ValidateScopes(raw: Value): Option<seq<ScopeEntry>> {
    if !raw.List? || |raw.items| > MAX_SCOPES then None else MapAll(raw.items, ValidEntry)
  }

  /** A pattern as submitted, and as it is kept: trimmed, not empty, up to 200
      characters and four stars. */
  predicate SubmitsPattern(v: Value, pattern: string) {
    v.Text? && T.Trim(v.s) == pattern && pattern != "" && |pattern| <= 200 && Glob.Stars(pattern) <= 4
  }

  ghost predicate Submits(v: Value, row: ScopeEntry) {
    && v.Record?
    && "provider" in v.fields && v.fields["provider"].Text? && T.Trim(v.fields["provider"].s) == row.provider
    && (row.provider == "demo" || exists p :: Name(p) == row.provider)
    && "models" in v.fields && v.fields["models"].List?
    && (var items := v.fields["models"].items;
        && |items| <= 50 && |row.models| == |items|
        && forall k :: 0 <= k < |items| ==> SubmitsPattern(items[k], row.models[k]))
  }

  lemma ValidPatternMeans(v: Value, pattern: string)
    ensures ValidPattern(v) == Some(pattern) <==> SubmitsPattern(v, pattern)
  {
    assert T.Trim("") == "";
  }

  lemma ValidEntryMeans(v: Value, row: ScopeEntry)
    ensures ValidEntry(v) == Some(row) <==> Submits(v, row)
  {
    var named, listed := Field(v, "provider"), Field(v, "models");
    NoProviderIsBlank();
    ProvidersAreNamed(row.provider);
    if listed.Some? && listed.value.List? {
      var items := listed.value.items;
      forall k | 0 <= k < |items| && k < |row.models|
        ensures ValidPattern(items[k]) == Some(row.models[k]) <==> SubmitsPattern(items[k], row.models[k])
      {
        ValidPatternMeans(items[k], row.models[k]);
      }
      MapAllMeans(items, ValidPattern, row.models);
    }
  }

  lemma NoProviderIsBlank()
    ensures !IsScopeProvider(T.Trim(""))
  {
    assert T.Trim("") == "";
    if IsScopeProvider("") { ProviderLength(""); }
  }

  /** A document is accepted, as these rows, exactly when it is a list of up to
      twenty records that submit them, one each and in order; one bad entry refuses
      them all. */
  lemma ValidatedMeans(raw: Value, rows: seq<ScopeEntry>)
    ensures ValidateScopes(raw) == Some(rows) <==>
            && raw.List? && |raw.items| <= 20 && |rows| == |raw.items|
            && forall i :: 0 <= i < |rows| ==> Submits(raw.items[i], rows[i])
  {
    if raw.List? {
      forall i | 0 <= i < |raw.items| && i < |rows|
        ensures ValidEntry(raw.items[i]) == Some(rows[i]) <==> Submits(raw.items[i], rows[i])
      {
        ValidEntryMeans(raw.items[i], rows[i]);
      }
      MapAllMeans(raw.items, ValidEntry, rows);
    }
  }

  predicate Validated(rows: seq<ScopeEntry>) {
    forall i :: 0 <= i < |rows| ==> ValidatedRow(rows[i])
  }

  lemma ValidPatternsFit(items: seq<Value>)
    ensures var r := MapAll(items, ValidPattern);
            r.Some? ==> forall k :: 0 <= k < |items| ==> GrantModelFits(r.value[k])
  {
    MapAllEach(items, ValidPattern);
    forall k | 0 <= k < |items| && ValidPattern(items[k]).Some? ensures GrantModelFits(ValidPattern(items[k]).value) {
    }
  }

  predicate ValidatedRow(row: ScopeEntry) {
    && T.Trimmed(row.provider) && 0 < |row.provider| <= MAX_PATTERN
    && |row.models| <= MAX_MODELS
    && forall k :: 0 <= k < |row.models| ==> GrantModelFits(row.models[k])
  }

  lemma {:induction false} ValidEntryIsValidated(v: Value)
    ensures ValidEntry(v).Some? ==> ValidatedRow(ValidEntry(v).value)
  {
    if ValidEntry(v).Some? {
      ValidPatternsFit(Field(v, "models").value.items);
      ProviderLength(ValidEntry(v).value.provider);
    }
  }

  lemma {:induction false} ValidEntriesAreValidated(items: seq<Value>)
    ensures MapAll(items, ValidEntry).Some? ==> Validated(MapAll(items, ValidEntry).value)
  {
    MapAllEach(items, ValidEntry);
    forall i | 0 <= i < |items| && ValidEntry(items[i]).Some? ensures ValidatedRow(ValidEntry(items[i]).value) {
      ValidEntryIsValidated(items[i]);
    }
  }

  // ── readLiveGrant ───────────────────────────────────────────────────────

  /** A row of `break_glass_grants`; times in milliseconds. */
  datatype GrantRow = GrantRow(
    user: string, agent: string, scopes: Value, reason: string,
    expiresAt: int, createdAt: int, revokedAt: Option<int>)

  datatype LiveGrant = LiveGrant(scopes: seq<ScopeEntry>, reason: string, expiresAt: int, createdAt: int)

  predicate IsLive(row: GrantRow, user: string, agent: string, now: int) {
    row.user == user && row.agent == agent && row.revokedAt.None? && row.expiresAt > now
  }

  /** Unrevoked, unexpired, latest expiry first, one row. */
  function LatestLive(table: seq<GrantRow>, user: string, agent: string, now: int): (r: Option<GrantRow>)
    ensures r.Some? ==> r.value in table && IsLive(r.value, user, agent, now)
    ensures r.Some? ==> forall g :: g in table && IsLive(g, user, agent, now) ==> g.expiresAt <= r.value.expiresAt
    ensures r.None? ==> forall g :: g in table ==> !IsLive(g, user, agent, now)
  {
    if table == [] then None
    else
      var rest, last := LatestLive(table[..|table| - 1], user, agent, now), table[|table| - 1];
      assert table == table[..|table| - 1] + [last];
      if IsLive(last, user, agent, now) && (rest.None? || rest.value.expiresAt < last.expiresAt) then Some(last) else rest
  }

  /** The live grant, or nothing; an unanswered query is nothing. */
  function ReadLiveGrant(table: seq<GrantRow>, user: string, agent: string, now: int, answered: bool): Option<LiveGrant> {
    var row := LatestLive(table, user, agent, now);
    if !answered || row.None? then None
    else
      var scopes := GrantScopes(row.value.scopes);
      if scopes == [] then None
      else Some(LiveGrant(scopes, row.value.reason, row.value.expiresAt, row.value.createdAt))
  }
}
