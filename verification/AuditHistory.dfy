/** What changed about an agent, and from what (lib/audit-history.ts): audit rows
    read back without ever claiming a past value the record does not hold. */
module AuditHistory {
  import opened Lists
  import opened Json
  import opened Scope
  import ScopeUnion
  import ScopeDiff
  import FallbackDiff
  import JsonText
  import Stringify
  import AuditTrail
  import T = Text

  /** `JSON.parse`, with None for its throw, and `JSON.stringify`. */
  datatype Codec = Codec(parse: string -> Option<Value>, show: Value -> string)

  datatype Gap = Absent | Unreadable | Omitted(chars: Option<Value>)
  datatype Side = Readable(value: Value) | Missing(why: Gap)
  datatype Pair = Both(from: Value, to: Value) | Gapped(why: Gap)
  datatype SnapshotState = InRecord | NotRecorded | Damaged

  type Metadata = map<string, Value>

  function Lookup(metadata: Metadata, key: string): Option<Value> {
    if key in metadata then Some(metadata[key]) else None
  }

  function TextAt(metadata: Metadata, key: string): string {
    if key in metadata then TextOr(metadata[key], "") else ""
  }

  // ── Sides ───────────────────────────────────────────────────────────────

  /** The writer's marker for a value it declined, with the size if it has one. */
  function OmittedChars(v: Value): Option<Option<Value>> {
    if !HasText(v, "omitted") || v.fields["omitted"].s != "too_large" then None
    else
      var chars := Field(v, "chars");
      Some(if chars.Some? && (chars.value.Number? || chars.value.Fraction?) then chars else None)
  }

  function ParseSide(v: Option<Value>, codec: Codec): Side {
    if v.None? || v.value.Null? || v.value == Text("") then Missing(Absent)
    else if OmittedChars(v.value).Some? then Missing(Omitted(OmittedChars(v.value).value))
    else if !v.value.Text? then Missing(Unreadable)
    else
      match codec.parse(v.value.s)
      case Some(Null) => Readable(Null)
      case Some(List(items)) => Readable(List(items))
      case _ => Missing(Unreadable)
  }

  /** A declined value says more than a damaged one, and either says more than a
      value that was never there. */
  function PairOf(from: Side, to: Side): Pair {
    if from.Readable? && to.Readable? then Both(from.value, to.value)
    else if from.Missing? && from.why.Omitted? then Gapped(from.why)
    else if to.Missing? && to.why.Omitted? then Gapped(to.why)
    else if from.Missing? && from.why.Unreadable? then Gapped(Unreadable)
    else if to.Missing? && to.why.Unreadable? then Gapped(Unreadable)
    else Gapped(Absent)
  }

  function GapSnapshot(why: Gap): SnapshotState {
    if why.Absent? then NotRecorded else Damaged
  }

  /** A policy is an object; the writer's marker is a plain object too, and is
      refused here as no string. */
  function ParsePolicySide(v: Option<Value>, codec: Codec): Side {
    if v.None? || v.value.Null? || v.value == Text("") then Missing(Absent)
    else if !v.value.Text? then Missing(Unreadable)
    else
      match codec.parse(v.value.s)
      case Some(Null) => Readable(Null)
      case Some(Record(fields)) => Readable(Record(fields))
      case _ => Missing(Unreadable)
  }

  /** Lifecycle values: bare strings as the dashboard once wrote them, or JSON. */
  function ParseScalarSide(metadata: Metadata, key: string, codec: Codec): Side {
    if key !in metadata then Missing(Absent)
    else
      match metadata[key]
      case Null => Readable(Null)
      case Text(raw) =>
        (match codec.parse(raw)
         case None => Readable(Text(raw))
         case Some(Null) => Readable(Null)
         case Some(Text(s)) => Readable(Text(s))
         case _ => Missing(Unreadable))
      case _ => Missing(Unreadable)
  }

  const BUDGET_FIELDS: seq<string> :=
    ["budget_tokens", "budget_cents", "budget_period", "budget_period_cents", "pause_percent", "pause_action",
     "pause_switch_provider", "pause_switch_model"]

  predicate IsBudgetField(field: string) {
    field in BUDGET_FIELDS
  }

  predicate BudgetEntryReadable(field: string, entry: Value) {
    if entry.Null? then true
    else if field == "pause_action" then entry == Text("pause") || entry == Text("switch")
    else if field == "budget_period" then entry == Text("day") || entry == Text("month")
    else if field == "pause_switch_provider" || field == "pause_switch_model" then entry.Text?
    else entry.Number? && entry.n >= 0
  }

  predicate BudgetReadable(snapshot: map<string, Value>, fields: seq<string>) {
    forall i :: 0 <= i < |fields| ==> fields[i] in snapshot && BudgetEntryReadable(fields[i], snapshot[fields[i]])
  }

  function ParseBudgetSide(v: Option<Value>, fields: seq<string>, codec: Codec): Side {
    if v.Some? && OmittedChars(v.value).Some? then Missing(Omitted(OmittedChars(v.value).value))
    else
      var side := ParsePolicySide(v, codec);
      if side.Missing? then side
      else if !side.value.Record? || !BudgetReadable(side.value.fields, fields) then Missing(Unreadable)
      else side
  }

  // ── Summaries ───────────────────────────────────────────────────────────

  datatype PolicyLine =
    | CountChanged(key: string, was: nat, now: nat)
    | CapChanged(wasCap: Option<Value>, nowCap: Option<Value>)
    | RulesRewritten

  datatype BudgetLine = BudgetLine(field: string, was: Value, now: Value)
  datatype Window = NoWindow | Grace(seconds: Value) | Until(at: string)

  datatype Detail =
    | ScopeDetail(scopeLines: seq<ScopeDiff.Line>)
    | FallbackDetail(fallbackLines: seq<FallbackDiff.Line>)
    | PolicyDetail(policyLines: seq<PolicyLine>)
    | BudgetDetail(budgetLines: seq<BudgetLine>)
    | ExpiryDetail(was: Value, now: Value)
    | KeyDetail(was: Value, now: Value, planned: bool, window: Window)
    | GrantDetail(rows: seq<ScopeEntry>, until: string, reason: string)
    | Note(about: string)

  datatype Headline =
    | Unresolved(field: string, why: Gap)
    | Unchanged(field: string)
    | Cleared(field: string)
    | Modified(field: string)
    | ExpiryAdded
    | ExpiryRemoved
    | KeyRotated
    | ShadowOn
    | NameChanged
    | NotShown(field: string)
    | Enforced(promoted: bool, gap: Option<Gap>)
    | Ended(wasLive: bool)
    | Taken(gap: Option<Gap>)
    | Event(action: string, on: bool)

  datatype Summary = Summary(headline: Headline, detail: Option<Detail>, recorded: bool, snapshot: SnapshotState)

  function Shown(headline: Headline, detail: Option<Detail>): Summary {
    Summary(headline, detail, true, InRecord)
  }

  function Hidden(headline: Headline, detail: Option<Detail>, why: Gap): Summary {
    Summary(headline, detail, false, GapSnapshot(why))
  }

  function SummariseExpiry(sides: Pair): Summary {
    match sides
    case Gapped(why) => Hidden(Unresolved("expires_at", why), None, why)
    case Both(from, to) =>
      if from == to then Shown(Unchanged("expires_at"), None)
      else Shown(if from.Null? then ExpiryAdded else if to.Null? then ExpiryRemoved else Modified("expires_at"),
                 Some(ExpiryDetail(from, to)))
  }

  predicate NotNegative(v: Value) {
    (v.Number? && v.n >= 0) || (v.Fraction? && v.text != "" && v.text[0] != '-')
  }

  function WindowOf(metadata: Metadata): Window {
    var grace, until := Lookup(metadata, "grace_seconds"), Lookup(metadata, "previous_valid_until");
    if grace.Some? && NotNegative(grace.value) then Grace(grace.value)
    else if until.Some? && until.value.Text? then Until(until.value.s)
    else NoWindow
  }

  function SummariseRotation(sides: Pair, metadata: Metadata): Summary {
    match sides
    case Gapped(why) => Hidden(Unresolved("passport_pubkey", why), None, why)
    case Both(from, to) =>
      Shown(KeyRotated, Some(KeyDetail(from, to, Lookup(metadata, "planned") == Some(Bool(true)), WindowOf(metadata))))
  }

  function SizeAt(v: Value, key: string): nat {
    |ItemsOf(Field(v, key))|
  }

  function CapOf(v: Value): Option<Value> {
    var raw := Field(v, "max_requests_per_hour");
    if raw.Some? && (raw.value.Number? || raw.value.Fraction?) then raw else None
  }

  function CountLine(before: Value, after: Value, key: string): seq<PolicyLine> {
    if SizeAt(before, key) != SizeAt(after, key) then [CountChanged(key, SizeAt(before, key), SizeAt(after, key))]
    else []
  }

  function DescribePolicyChange(before: Value, after: Value, codec: Codec): seq<PolicyLine> {
    var lines := CountLine(before, after, "deny") + CountLine(before, after, "windows")
      + (if CapOf(before) != CapOf(after) then [CapChanged(CapOf(before), CapOf(after))] else []);
    if lines == [] && codec.show(before) != codec.show(after) then [RulesRewritten] else lines
  }

  function BudgetLines(fields: seq<string>, before: Value, after: Value): seq<BudgetLine> {
    if fields == [] then []
    else
      var rest, last := BudgetLines(fields[..|fields| - 1], before, after), fields[|fields| - 1];
      var was, now := Field(before, last), Field(after, last);
      if was.Some? && now.Some? && was != now then rest + [BudgetLine(last, was.value, now.value)] else rest
  }

  function SummariseBudget(fields: seq<string>, sides: Pair): Summary {
    match sides
    case Gapped(why) => Hidden(Unresolved("budget", why), None, why)
    case Both(from, to) =>
      var lines := BudgetLines(fields, from, to);
      Shown(if lines == [] then Unchanged("budget") else Modified("budget"), Some(BudgetDetail(lines)))
  }

  function TrimAll(parts: seq<string>): seq<string> {
    seq(|parts|, i requires 0 <= i < |parts| => T.Trim(parts[i]))
  }

  function FieldNames(fields: string): seq<string> {
    TrimAll(T.Split(fields, ','))
  }

  predicate AllBudget(names: seq<string>) {
    forall i :: 0 <= i < |names| ==> IsBudgetField(names[i])
  }

  predicate IsRotation(fields: string, metadata: Metadata) {
    fields == "passport_pubkey" && Lookup(metadata, "rotated") == Some(Bool(true))
  }

  function ScopeRowsOf(v: Value): seq<ScopeEntry> {
    ScopeDiff.ScopeRows(ItemsOf(Some(v)))
  }

  function FallbackRowsOf(v: Value): seq<FallbackDiff.FallbackRow> {
    Take(FallbackDiff.Fallbacks(ItemsOf(Some(v))), FallbackDiff.MAX_FALLBACKS)
  }

  function SummariseScopes(sides: Pair): Summary {
    match sides
    case Gapped(why) => Hidden(Unresolved("allowed_scopes", why), None, why)
    case Both(from, to) =>
      var lines := ScopeDiff.Diff(ScopeRowsOf(from), ScopeRowsOf(to));
      Shown(if ScopeRowsOf(to) == [] then Cleared("allowed_scopes")
            else if lines == [] then Unchanged("allowed_scopes")
            else Modified("allowed_scopes"),
            Some(ScopeDetail(lines)))
  }

  function SummariseFallbacks(sides: Pair): Summary {
    match sides
    case Gapped(why) => Hidden(Unresolved("fallbacks", why), None, why)
    case Both(from, to) =>
      var lines := FallbackDiff.Diff(FallbackRowsOf(from), FallbackRowsOf(to));
      Shown(if FallbackRowsOf(to) == [] then Cleared("fallbacks")
            else if lines == [] then Unchanged("fallbacks")
            else Modified("fallbacks"),
            Some(FallbackDetail(lines)))
  }

  function SummariseShadow(drafts: Pair, codec: Codec): Summary {
    match drafts
    case Gapped(why) => Hidden(Unresolved("policy_shadow", why), None, why)
    case Both(from, to) =>
      if to.Null? then Shown(Cleared("policy_shadow"), None)
      else Shown(if from.Null? then ShadowOn else Modified("policy_shadow"),
                 Some(PolicyDetail(DescribePolicyChange(from, to, codec))))
  }

  function SummarisePolicy(policies: Pair, promoted: bool, codec: Codec): Summary {
    match policies
    case Gapped(why) => Hidden(Enforced(promoted, Some(why)), None, why)
    case Both(from, to) =>
      if to.Null? then Shown(Cleared("policy"), None)
      else Shown(Enforced(promoted, None), Some(PolicyDetail(DescribePolicyChange(from, to, codec))))
  }

  /** Which reader a row's `fields` selects, in the order they are tried. */
  datatype Reader =
    | BudgetReader(names: seq<string>)
    | ExpiryReader
    | RotationReader
    | ScopeReader
    | FallbackReader
    | ShadowReader
    | PolicyReader
    | NoReader(headline: Headline)

  function ReaderOf(fields: string, metadata: Metadata): Reader {
    if AllBudget(FieldNames(fields)) then BudgetReader(FieldNames(fields)) else NamedReader(fields, metadata)
  }

  function NamedReader(fields: string, metadata: Metadata): Reader {
    if fields == "expires_at" then ExpiryReader
    else if IsRotation(fields, metadata) then RotationReader
    else if fields == "allowed_scopes" then ScopeReader
    else if fields == "fallbacks" then FallbackReader
    else if fields == "policy_shadow" then ShadowReader
    else if fields == "policy" then PolicyReader
    else if "budget" <= fields then NoReader(Unresolved("budget", Absent))
    else if fields == "name" then NoReader(NameChanged)
    else NoReader(NotShown(fields))
  }

  function ReadSide(reader: Reader, metadata: Metadata, key: string, codec: Codec): Side {
    match reader
    case BudgetReader(names) => ParseBudgetSide(Lookup(metadata, key), names, codec)
    case ExpiryReader => ParseScalarSide(metadata, key, codec)
    case RotationReader => ParseScalarSide(metadata, key, codec)
    case ScopeReader => ParseSide(Lookup(metadata, key), codec)
    case FallbackReader => ParseSide(Lookup(metadata, key), codec)
    case ShadowReader => ParsePolicySide(Lookup(metadata, key), codec)
    case PolicyReader => ParsePolicySide(Lookup(metadata, key), codec)
    case NoReader(_) => Missing(Absent)
  }

  function Summarise(reader: Reader, from: Side, to: Side, metadata: Metadata, codec: Codec): Summary {
    var sides := PairOf(from, to);
    match reader
    case BudgetReader(names) => SummariseBudget(names, sides)
    case ExpiryReader => SummariseExpiry(sides)
    case RotationReader => SummariseRotation(sides, metadata)
    case ScopeReader => SummariseScopes(sides)
    case FallbackReader => SummariseFallbacks(sides)
    case ShadowReader => SummariseShadow(sides, codec)
    case PolicyReader => SummarisePolicy(sides, Lookup(metadata, "promoted") == Some(Bool(true)), codec)
    case NoReader(headline) => Hidden(headline, None, Absent)
  }

  function SummariseWith(reader: Reader, metadata: Metadata, codec: Codec): Summary {
    Summarise(reader, ReadSide(reader, metadata, "from", codec), ReadSide(reader, metadata, "to", codec), metadata, codec)
  }

  function SummariseUpdate(fields: string, metadata: Metadata, codec: Codec): Summary {
    SummariseWith(ReaderOf(fields, metadata), metadata, codec)
  }

  /** An elevation has no previous value; it has what it granted. */
  function SummariseBreakGlass(metadata: Metadata, codec: Codec): Summary {
    if Lookup(metadata, "ended") == Some(Bool(true)) then
      if Lookup(metadata, "revoked") == Some(Number(0)) then Shown(Ended(false), None)
      else Shown(Ended(true), Some(Note("break_glass.ended")))
    else
      var granted := ParseSide(Lookup(metadata, "scopes"), codec);
      var rows := if granted.Readable? then ScopeRowsOf(granted.value) else [];
      var until, reason := T.Trim(TextAt(metadata, "expires_at")), T.Trim(TextAt(metadata, "reason"));
      var detail := GrantDetail(rows, until, reason);
      if granted.Readable? then Shown(Taken(None), Some(detail))
      else Hidden(Taken(Some(granted.why)), if until == "" && reason == "" then None else Some(detail), granted.why)
  }

  datatype Change = Change(id: string, at: Option<string>, action: string, viaApi: bool, summary: Summary)

  predicate IsEventAction(action: string) {
    || action == "agent.suspend" || action == "agent.session_stop" || action == "agent.delegation_revoke"
    || action == "agent.revoke" || action == "agent.create" || action == "agent.spending_limit_removed"
    || action == "agent.direct_key.create" || action == "agent.direct_key.revoke"
  }

  predicate IsAgentAction(action: string) {
    IsEventAction(action) || action == "agent.update" || action == "agent.break_glass"
  }

  /** Suspended or resumed, stopped or resumed, every delegation or one, direct or
      not. */
  function FlagOf(action: string, metadata: Metadata): bool {
    if action == "agent.suspend" then Lookup(metadata, "suspended") == Some(Bool(true))
    else if action == "agent.session_stop" then Lookup(metadata, "stopped") == Some(Bool(true))
    else if action == "agent.delegation_revoke" then Lookup(metadata, "all") == Some(Bool(true))
    else action == "agent.create" && Lookup(metadata, "auth_method") == Some(Text("direct_key"))
  }

  function SummariseEvent(action: string, metadata: Metadata): Summary {
    var note :=
      || action == "agent.delegation_revoke" || action == "agent.session_stop"
      || (action == "agent.spending_limit_removed" && TextAt(metadata, "statement") != "");
    Shown(Event(action, FlagOf(action, metadata)), if note then Some(Note(action)) else None)
  }

  function SummariseAction(action: string, metadata: Metadata, codec: Codec): Summary {
    if IsEventAction(action) then SummariseEvent(action, metadata)
    else if action == "agent.break_glass" then SummariseBreakGlass(metadata, codec)
    else SummariseUpdate(TextAt(metadata, "fields"), metadata, codec)
  }

  function MetadataOf(raw: map<string, Value>): Metadata {
    if "metadata" in raw && raw["metadata"].Record? then raw["metadata"].fields else map[]
  }

  function SummariseChange(raw: Value, codec: Codec): Option<Change> {
    if !raw.Record? || !IsAgentAction(TextAt(raw.fields, "action")) then None
    else
      var action, metadata, at := TextAt(raw.fields, "action"), MetadataOf(raw.fields), TextAt(raw.fields, "created_at");
      Some(Change(TextAt(raw.fields, "id"), if at == "" then None else Some(at), action,
                  Lookup(metadata, "via") == Some(Text("api")), SummariseAction(action, metadata, codec)))
  }

  function History(rows: seq<Value>, codec: Codec): seq<Change> {
    FilterMap(rows, row => SummariseChange(row, codec))
  }

  method ToCapabilityHistory(rows: Value, codec: Codec) returns (history: seq<Change>)
    ensures history == History(ItemsOf(Some(rows)), codec)
  {
    if !rows.List? { return []; }
    history := Collect(rows.items, row => SummariseChange(row, codec));
  }

  // ── What a reader may rely on ───────────────────────────────────────────

  /** Over every audit row, the flag and the state never disagree, and no row
      about an agent is dropped. */
  lemma RecordedIffSnapshot(raw: Value, codec: Codec)
    ensures SummariseChange(raw, codec).Some? <==> raw.Record? && IsAgentAction(TextAt(raw.fields, "action"))
    ensures SummariseChange(raw, codec).Some? ==>
              var s := SummariseChange(raw, codec).value.summary; s.recorded <==> s.snapshot.InRecord?
  {
    if raw.Record? {
      var metadata := MetadataOf(raw.fields);
      ElevationAgrees(metadata, codec);
      UpdateAgrees(TextAt(metadata, "fields"), metadata, codec);
    }
  }

  /** An elevation shows what it granted exactly when that was stored and reads
      back; the end of one is always in the record. */
  lemma ElevationShowsItsGrant(metadata: Metadata, codec: Codec)
    ensures var s := SummariseBreakGlass(metadata, codec);
            var ended := Lookup(metadata, "ended") == Some(Bool(true));
            var granted := ParseSide(Lookup(metadata, "scopes"), codec);
            && (s.recorded <==> ended || granted.Readable?)
            && (!ended && granted.Readable? ==>
                  s.detail.Some? && s.detail.value.GrantDetail? && s.detail.value.rows == ScopeRowsOf(granted.value))
            && (!ended && granted.Missing? ==>
                  s.snapshot == GapSnapshot(granted.why) && (s.detail.Some? ==> s.detail.value.rows == []))
  {
  }

  lemma ElevationAgrees(metadata: Metadata, codec: Codec)
    ensures var s := SummariseBreakGlass(metadata, codec); s.recorded <==> s.snapshot.InRecord?
  {
    ElevationShowsItsGrant(metadata, codec);
  }

  lemma UpdateAgrees(fields: string, metadata: Metadata, codec: Codec)
    ensures var s := SummariseUpdate(fields, metadata, codec); s.recorded <==> s.snapshot.InRecord?
  {
    var reader := ReaderOf(fields, metadata);
    SummaryAgrees(reader, ReadSide(reader, metadata, "from", codec), ReadSide(reader, metadata, "to", codec),
                  metadata, codec);
  }

  predicate IsDamaged(side: Side) {
    side.Missing? && !side.why.Absent?
  }

  lemma PairSorts(from: Side, to: Side)
    ensures PairOf(from, to).Both? <==> from.Readable? && to.Readable?
    ensures PairOf(from, to).Gapped? ==> (!PairOf(from, to).why.Absent? <==> IsDamaged(from) || IsDamaged(to))
  {
  }

  lemma SummaryAgrees(reader: Reader, from: Side, to: Side, metadata: Metadata, codec: Codec)
    ensures var s := Summarise(reader, from, to, metadata, codec);
            && (s.recorded <==> s.snapshot.InRecord?)
            && (s.recorded <==> !reader.NoReader? && from.Readable? && to.Readable?)
            && (s.detail.Some? ==> s.recorded)
            && (!reader.NoReader? && PairOf(from, to).Gapped? ==> s.snapshot == GapSnapshot(PairOf(from, to).why))
            && (reader.NoReader? ==> s.snapshot.NotRecorded?)
  {
  }

  /** A diff is offered only when both sides were read; a side that is stored
      but cannot be read is damage whichever side it is, and only a row with no
      damage on either may say a value was never recorded. */
  lemma DiffNeedsBothSides(reader: Reader, metadata: Metadata, codec: Codec)
    requires !reader.NoReader?
    ensures var from, to := ReadSide(reader, metadata, "from", codec), ReadSide(reader, metadata, "to", codec);
            var s := SummariseWith(reader, metadata, codec);
            && (s.recorded <==> from.Readable? && to.Readable?)
            && (s.detail.Some? ==> from.Readable? && to.Readable?)
            && (s.snapshot.Damaged? <==> IsDamaged(from) || IsDamaged(to))
            && (s.snapshot.NotRecorded? <==>
                  !IsDamaged(from) && !IsDamaged(to) && (from.Missing? || to.Missing?))
  {
    var from, to := ReadSide(reader, metadata, "from", codec), ReadSide(reader, metadata, "to", codec);
    PairSorts(from, to);
    SummaryAgrees(reader, from, to, metadata, codec);
  }

  /** A field with no reader shows nothing and claims no damage, whatever it
      holds. */
  lemma NoReaderNoClaim(reader: Reader, metadata: Metadata, codec: Codec)
    requires reader.NoReader?
    ensures var s := SummariseWith(reader, metadata, codec); !s.recorded && s.detail.None? && s.snapshot.NotRecorded?
  {
    SummaryAgrees(reader, ReadSide(reader, metadata, "from", codec), ReadSide(reader, metadata, "to", codec),
                  metadata, codec);
  }

  /** Two rows alike but for which side was lost are in the same state. */
  lemma StateIgnoresTheSide(reader: Reader, metadata: Metadata, other: Metadata, codec: Codec)
    requires !reader.NoReader?
    requires Lookup(other, "from") == Lookup(metadata, "to") && Lookup(other, "to") == Lookup(metadata, "from")
    ensures SummariseWith(reader, other, codec).snapshot == SummariseWith(reader, metadata, codec).snapshot
  {
    SideDependsOnItsValue(reader, metadata, "from", other, "to", codec);
    SideDependsOnItsValue(reader, metadata, "to", other, "from", codec);
    DiffNeedsBothSides(reader, metadata, codec);
    DiffNeedsBothSides(reader, other, codec);
    SummaryAgrees(reader, ReadSide(reader, metadata, "from", codec), ReadSide(reader, metadata, "to", codec),
                  metadata, codec);
    SummaryAgrees(reader, ReadSide(reader, other, "from", codec), ReadSide(reader, other, "to", codec), other, codec);
  }

  lemma SideDependsOnItsValue(reader: Reader, a: Metadata, i: string, b: Metadata, j: string, codec: Codec)
    requires Lookup(a, i) == Lookup(b, j)
    ensures ReadSide(reader, a, i, codec) == ReadSide(reader, b, j, codec)
  {
  }

  predicate SameFallbacks(from: Value, to: Value) {
    FallbackDiff.PlainKeys(FallbackRowsOf(from)) && FallbackDiff.PlainKeys(FallbackRowsOf(to)) ==>
      FallbackRowsOf(from) == FallbackRowsOf(to)
  }

  predicate SameFields(names: seq<string>, from: Value, to: Value) {
    forall i :: 0 <= i < |names| ==> Field(from, names[i]) == Field(to, names[i])
  }

  /** No field without a reader is ever said to be unchanged. */
  predicate Selectable(reader: Reader) {
    reader.NoReader? ==> !reader.headline.Unchanged?
  }

  lemma ReadersAreSelectable(fields: string, metadata: Metadata)
    ensures Selectable(ReaderOf(fields, metadata))
  {
  }

  predicate SameAs(reader: Reader, from: Value, to: Value) {
    match reader
    case BudgetReader(names) => SameFields(names, from, to)
    case ExpiryReader => from == to
    case ScopeReader => ScopeRowsOf(from) == ScopeRowsOf(to)
    case FallbackReader => SameFallbacks(from, to)
    case _ => false
  }

  lemma UnchangedOfReader(reader: Reader, metadata: Metadata, codec: Codec)
    requires Selectable(reader) && SummariseWith(reader, metadata, codec).headline.Unchanged?
    ensures var from, to := ReadSide(reader, metadata, "from", codec), ReadSide(reader, metadata, "to", codec);
            from.Readable? && to.Readable? && SameAs(reader, from.value, to.value)
  {
    if reader.BudgetReader? {
      BudgetSidesHold(reader.names, Lookup(metadata, "from"), codec);
      BudgetSidesHold(reader.names, Lookup(metadata, "to"), codec);
    }
    UnchangedSides(reader, ReadSide(reader, metadata, "from", codec), ReadSide(reader, metadata, "to", codec),
                   metadata, codec);
  }

  /** "No effective change" is said of an update only over two values that were
      both read and are the same, whatever fields it names. */
  lemma UnchangedMeansEqual(fields: string, metadata: Metadata, codec: Codec)
    requires SummariseUpdate(fields, metadata, codec).headline.Unchanged?
    ensures var reader := ReaderOf(fields, metadata);
            var from, to := ReadSide(reader, metadata, "from", codec), ReadSide(reader, metadata, "to", codec);
            from.Readable? && to.Readable? && SameAs(reader, from.value, to.value)
  {
    ReadersAreSelectable(fields, metadata);
    UnchangedOfReader(ReaderOf(fields, metadata), metadata, codec);
  }

  predicate HasFields(names: seq<string>, v: Value) {
    forall i :: 0 <= i < |names| ==> Field(v, names[i]).Some?
  }

  lemma BudgetSidesHold(names: seq<string>, v: Option<Value>, codec: Codec)
    ensures var side := ParseBudgetSide(v, names, codec); side.Readable? ==> HasFields(names, side.value)
  {
  }

  lemma UnchangedSides(reader: Reader, from: Side, to: Side, metadata: Metadata, codec: Codec)
    requires Summarise(reader, from, to, metadata, codec).headline.Unchanged?
    requires reader.NoReader? ==> !reader.headline.Unchanged?
    requires reader.BudgetReader? && from.Readable? && to.Readable? ==>
               HasFields(reader.names, from.value) && HasFields(reader.names, to.value)
    ensures from.Readable? && to.Readable?
    ensures match reader
            case BudgetReader(names) => SameFields(names, from.value, to.value)
            case ExpiryReader => from.value == to.value
            case ScopeReader => ScopeRowsOf(from.value) == ScopeRowsOf(to.value)
            case FallbackReader => SameFallbacks(from.value, to.value)
            case _ => false
  {
    match reader
    case BudgetReader(names) => NoBudgetLines(names, from.value, to.value);
    case ScopeReader => ScopeDiff.EmptyIffIdentical(ScopeRowsOf(from.value), ScopeRowsOf(to.value));
    case FallbackReader =>
      if FallbackDiff.PlainKeys(FallbackRowsOf(from.value)) && FallbackDiff.PlainKeys(FallbackRowsOf(to.value)) {
        FallbackDiff.SilentIffEqual(FallbackRowsOf(from.value), FallbackRowsOf(to.value));
      }
    case _ =>
  }

  lemma {:induction false} NoBudgetLines(names: seq<string>, from: Value, to: Value)
    requires HasFields(names, from) && HasFields(names, to)
    ensures BudgetLines(names, from, to) == [] <==> SameFields(names, from, to)
  {
    if names != [] {
      var init := names[..|names| - 1];
      assert forall i :: 0 <= i < |init| ==> init[i] == names[i];
      NoBudgetLines(init, from, to);
    }
  }

  // ── Written, then read ──────────────────────────────────────────────────

  /** `JSON.parse` undoes `JSON.stringify` on scope documents. */
  ghost predicate ParsesDocuments(codec: Codec) {
    forall rows: seq<ScopeEntry> :: codec.parse(Stringify.StringifyRows(rows)) == Some(List(ScopeUnion.DocumentJson(rows)))
  }

  /** And there is such a parser: that of RFC 8259. */
  lemma SomeCodecParsesDocuments(codec: Codec)
    ensures ParsesDocuments(codec.(parse := JsonText.Parse))
  {
    forall rows: seq<ScopeEntry>
      ensures JsonText.Parse(Stringify.StringifyRows(rows)) == Some(List(ScopeUnion.DocumentJson(rows)))
    {
      Stringify.ParsesBack(rows);
    }
  }

  function StoredScopes(rows: seq<ScopeEntry>): Value {
    AuditTrail.SanitizeAuditValue(Text(Stringify.StringifyRows(rows)))
  }

  function ScopeMetadata(from: seq<ScopeEntry>, to: seq<ScopeEntry>): Metadata {
    map["fields" := Text("allowed_scopes"), "from" := StoredScopes(from), "to" := StoredScopes(to)]
  }

  predicate FitsTheRecord(rows: seq<ScopeEntry>) {
    |Stringify.StringifyRows(rows)| <= 32768
  }

  lemma NamedRowsReadBack(rows: seq<ScopeEntry>)
    requires ScopeDiff.WellNamed(rows)
    ensures ScopeDiff.ScopeRows(ScopeUnion.DocumentJson(rows)) == rows
  {
    forall i | 0 <= i < |rows| ensures ScopeDiff.ScopeRowOf(ScopeUnion.DocumentJson(rows)[i]) == Some(rows[i]) {
      NamedRowReadsBack(rows[i]);
    }
    FilterMapAll(ScopeUnion.DocumentJson(rows), ScopeDiff.ScopeRowOf, rows);
  }

  lemma NamedRowReadsBack(row: ScopeEntry)
    requires row.provider != "" && "" !in row.models
    ensures ScopeDiff.ScopeRowOf(ScopeUnion.EntryJson(row)) == Some(row)
  {
    var json := ScopeUnion.EntryJson(row);
    assert json.fields["provider"].s == row.provider && json.fields["models"].items == Texts(row.models);
    StringsOfTexts(row.models);
    KeepAll(row.models, m => m != "");
  }

  lemma BlankedIsNamed(rows: seq<ScopeEntry>)
    requires ScopeDiff.WellNamed(rows)
    ensures ScopeDiff.WellNamed(AuditTrail.Blanked(rows))
  {
    var blanked := AuditTrail.Blanked(rows);
    forall i | 0 <= i < |blanked| ensures blanked[i].provider != "" && "" !in blanked[i].models {
      assert |blanked[i].provider| == |rows[i].provider|;
      forall k | 0 <= k < |blanked[i].models| ensures blanked[i].models[k] != "" {
        assert rows[i].models[k] in rows[i].models;
        assert |blanked[i].models[k]| == |rows[i].models[k]|;
      }
    }
  }

  lemma StoredSideReadsBack(rows: seq<ScopeEntry>, codec: Codec)
    requires ParsesDocuments(codec) && ScopeDiff.WellNamed(rows) && FitsTheRecord(rows)
    ensures ParseSide(Some(StoredScopes(rows)), codec) ==
            Readable(List(ScopeUnion.DocumentJson(AuditTrail.Blanked(rows))))
    ensures ScopeRowsOf(List(ScopeUnion.DocumentJson(AuditTrail.Blanked(rows)))) == AuditTrail.Blanked(rows)
  {
    BlankedIsNamed(rows);
    NamedRowsReadBack(AuditTrail.Blanked(rows));
    StoredText(rows);
    ParsesList(Stringify.StringifyRows(AuditTrail.Blanked(rows)), ScopeUnion.DocumentJson(AuditTrail.Blanked(rows)), codec);
  }

  lemma StoredText(rows: seq<ScopeEntry>)
    requires FitsTheRecord(rows)
    ensures StoredScopes(rows) == Text(Stringify.StringifyRows(AuditTrail.Blanked(rows)))
    ensures Stringify.StringifyRows(AuditTrail.Blanked(rows)) != ""
  {
    AuditTrail.CleanDocument(rows);
    assert Stringify.StringifyRows(AuditTrail.Blanked(rows))[0] == '[';
  }

  lemma ParsesList(text: string, items: seq<Value>, codec: Codec)
    requires text != "" && codec.parse(text) == Some(List(items))
    ensures ParseSide(Some(Text(text)), codec) == Readable(List(items))
  {
  }

  const SCOPES := "allowed_scopes"

  lemma OneName(fields: string)
    requires fields != "" && ',' !in fields && !T.IsSpace(fields[0]) && !T.IsSpace(fields[|fields| - 1])
    ensures FieldNames(fields) == [fields]
  {
    T.SplitWhole(fields, ',');
    assert T.Trim(fields) == fields;
  }

  lemma ScopesIsOneName()
    ensures |SCOPES| == 14 && FieldNames(SCOPES) == [SCOPES]
  {
    var letters := ['a', 'l', 'l', 'o', 'w', 'e', 'd', '_', 's', 'c', 'o', 'p', 'e', 's'];
    assert SCOPES == letters && ',' !in letters;
    OneName(SCOPES);
  }

  lemma NoBudgetFieldIsThisLong(field: string)
    requires |field| == 14
    ensures !IsBudgetField(field)
  {
    assert forall i :: 0 <= i < |BUDGET_FIELDS| ==> |BUDGET_FIELDS[i]| != 14;
  }

  lemma OneNameNoBudget(fields: string)
    requires |fields| == 14 && FieldNames(fields) == [fields]
    ensures !AllBudget(FieldNames(fields))
  {
    NoBudgetFieldIsThisLong(fields);
    assert FieldNames(fields)[0] == fields;
  }

  lemma ReaderByName(fields: string, metadata: Metadata)
    requires fields == SCOPES && |fields| == 14
    ensures NamedReader(fields, metadata) == ScopeReader
  {
  }

  lemma ScopeRowsHaveAReader(fields: string, metadata: Metadata)
    requires fields == SCOPES
    ensures ReaderOf(fields, metadata) == ScopeReader
  {
    ScopesIsOneName();
    OneNameNoBudget(fields);
    ReaderByName(fields, metadata);
  }

  lemma SidesOfScopeMetadata(from: seq<ScopeEntry>, to: seq<ScopeEntry>)
    ensures Lookup(ScopeMetadata(from, to), "from") == Some(StoredScopes(from))
    ensures Lookup(ScopeMetadata(from, to), "to") == Some(StoredScopes(to))
  {
  }

  lemma ScopeUpdate(fields: string, metadata: Metadata, codec: Codec, from: Option<Value>, to: Option<Value>)
    requires ReaderOf(fields, metadata) == ScopeReader
    requires Lookup(metadata, "from") == from && Lookup(metadata, "to") == to
    ensures SummariseUpdate(fields, metadata, codec) ==
            SummariseScopes(PairOf(ParseSide(from, codec), ParseSide(to, codec)))
  {
  }

  lemma StoredChange(fields: string, from: seq<ScopeEntry>, to: seq<ScopeEntry>, codec: Codec)
    requires fields == SCOPES
    ensures SummariseUpdate(fields, ScopeMetadata(from, to), codec) ==
            SummariseScopes(PairOf(ParseSide(Some(StoredScopes(from)), codec), ParseSide(Some(StoredScopes(to)), codec)))
  {
    var metadata := ScopeMetadata(from, to);
    ScopeRowsHaveAReader(fields, metadata);
    SidesOfScopeMetadata(from, to);
    ScopeUpdate(fields, metadata, codec, Some(StoredScopes(from)), Some(StoredScopes(to)));
  }

  /** A scope change saved and read back shows the very lines of the change,
      with every DEL a blank: for documents without one, the change itself. */
  lemma SavedChangeReadsBack(from: seq<ScopeEntry>, to: seq<ScopeEntry>, codec: Codec)
    requires ParsesDocuments(codec)
    requires ScopeDiff.WellNamed(from) && ScopeDiff.WellNamed(to) && FitsTheRecord(from) && FitsTheRecord(to)
    ensures var s := SummariseUpdate(SCOPES, ScopeMetadata(from, to), codec);
            && s.recorded
            && s.detail == Some(ScopeDetail(ScopeDiff.Diff(AuditTrail.Blanked(from), AuditTrail.Blanked(to))))
            && (AuditTrail.DelFree(from) && AuditTrail.DelFree(to) ==>
                  s.detail == Some(ScopeDetail(ScopeDiff.Diff(from, to))))
  {
    StoredSideReadsBack(from, codec);
    StoredSideReadsBack(to, codec);
    AuditTrail.BlankedIffDel(from);
    AuditTrail.BlankedIffDel(to);
    StoredChange(SCOPES, from, to, codec);
  }

  lemma DeclinedSide(rows: seq<ScopeEntry>, codec: Codec)
    requires ParsesDocuments(codec)
    ensures !FitsTheRecord(rows) ==>
              ParseSide(Some(StoredScopes(rows)), codec) == Missing(Omitted(Some(Number(|Stringify.StringifyRows(rows)|))))
    ensures FitsTheRecord(rows) ==> ParseSide(Some(StoredScopes(rows)), codec).Readable?
  {
    AuditTrail.CleanDocument(rows);
    if !FitsTheRecord(rows) {
      var marker := StoredScopes(rows);
      assert marker.fields["omitted"].s == "too_large";
    } else {
      assert Stringify.StringifyRows(AuditTrail.Blanked(rows))[0] == '[';
    }
  }

  /** Too large on either side, and the row says so, with the size, instead of
      showing part. */
  lemma DeclinedChangeSaysSo(from: seq<ScopeEntry>, to: seq<ScopeEntry>, codec: Codec)
    requires ParsesDocuments(codec) && (!FitsTheRecord(from) || !FitsTheRecord(to))
    ensures var declined := if !FitsTheRecord(from) then from else to;
            SummariseUpdate(SCOPES, ScopeMetadata(from, to), codec) ==
            Summary(Unresolved("allowed_scopes", Omitted(Some(Number(|Stringify.StringifyRows(declined)|)))),
                    None, false, Damaged)
  {
    DeclinedSide(from, codec);
    DeclinedSide(to, codec);
    StoredChange(SCOPES, from, to, codec);
    DeclinedPair(ParseSide(Some(StoredScopes(from)), codec), ParseSide(Some(StoredScopes(to)), codec));
  }

  lemma DeclinedPair(from: Side, to: Side)
    requires IsDeclined(from) || (from.Readable? && IsDeclined(to))
    ensures var why := if from.Missing? then from.why else to.why;
            SummariseScopes(PairOf(from, to)) == Summary(Unresolved("allowed_scopes", why), None, false, Damaged)
  {
  }

  predicate IsDeclined(side: Side) {
    side.Missing? && side.why.Omitted?
  }

  /** A pattern saved with a blank in place of its DEL reads as no change at all. */
  lemma DelHidesAChange(from: seq<ScopeEntry>, codec: Codec)
    requires ParsesDocuments(codec) && ScopeDiff.WellNamed(from) && FitsTheRecord(from)
    requires !AuditTrail.DelFree(from)
    ensures var to := AuditTrail.Blanked(from);
            && from != to
            && (FitsTheRecord(to) ==>
                  SummariseUpdate(SCOPES, ScopeMetadata(from, to), codec).headline == Unchanged("allowed_scopes"))
  {
    var to := AuditTrail.Blanked(from);
    AuditTrail.BlankedIffDel(from);
    BlankedIsNamed(from);
    if FitsTheRecord(to) {
      BlankedTwice(from);
      StoredSideReadsBack(from, codec);
      StoredSideReadsBack(to, codec);
      StoredChange(SCOPES, from, to, codec);
      ScopeDiff.EmptyIffIdentical(to, to);
      assert |to| == |from| && from != [];
    }
  }

  lemma BlankedTwice(rows: seq<ScopeEntry>)
    ensures AuditTrail.Blanked(AuditTrail.Blanked(rows)) == AuditTrail.Blanked(rows)
  {
    var blanked := AuditTrail.Blanked(rows);
    forall i | 0 <= i < |rows| ensures AuditTrail.Blanked(blanked)[i] == blanked[i] {
      assert AuditTrail.Blank(blanked[i].provider) == blanked[i].provider;
      forall k | 0 <= k < |blanked[i].models|
        ensures AuditTrail.Blank(blanked[i].models[k]) == blanked[i].models[k]
      {
      }
      assert AuditTrail.BlankAll(blanked[i].models) == blanked[i].models;
    }
  }
}
