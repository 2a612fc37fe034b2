/** What a change to an agent is said to have been, law by law, from what the
    audit row holds: which value came first, and what became of it
    (lib/audit-history.ts). */
module AuditReadings {
  import opened Lists
  import opened Json
  import opened AuditHistory
  import ScopeDiff
  import FallbackDiff
  import T = Text

  // ── What is stored ──────────────────────────────────────────────────────

  /** A lifecycle value: null, or a string, bare or as JSON. */
  predicate HoldsScalar(metadata: Metadata, key: string, codec: Codec, v: Value) {
    && key in metadata
    && match metadata[key]
       case Null => v == Null
       case Text(raw) => if codec.parse(raw).None? then v == Text(raw) else codec.parse(raw) == Some(v) && (v.Null? || v.Text?)
       case _ => false
  }

  /** A document as JSON text: null or of this shape. */
  predicate HoldsList(metadata: Metadata, key: string, codec: Codec, v: Value) {
    && key in metadata && metadata[key].Text? && metadata[key].s != ""
    && codec.parse(metadata[key].s) == Some(v) && (v.Null? || v.List?)
  }

  predicate HoldsRecord(metadata: Metadata, key: string, codec: Codec, v: Value) {
    && key in metadata && metadata[key].Text? && metadata[key].s != ""
    && codec.parse(metadata[key].s) == Some(v) && (v.Null? || v.Record?)
  }

  predicate BudgetEntryHeld(name: string, v: Value) {
    || v.Null?
    || (name == "pause_action" && v in {Text("pause"), Text("switch")})
    || (name == "budget_period" && v in {Text("day"), Text("month")})
    || ((name == "pause_switch_provider" || name == "pause_switch_model") && v.Text?)
    || (name !in {"pause_action", "budget_period", "pause_switch_provider", "pause_switch_model"} && v.Number? && v.n >= 0)
  }

  predicate HoldsBudget(metadata: Metadata, key: string, codec: Codec, names: seq<string>, v: Value) {
    && HoldsRecord(metadata, key, codec, v) && v.Record?
    && forall i :: 0 <= i < |names| ==> names[i] in v.fields && BudgetEntryHeld(names[i], v.fields[names[i]])
  }

  lemma ScalarRead(metadata: Metadata, key: string, codec: Codec, v: Value)
    ensures ParseScalarSide(metadata, key, codec) == Readable(v) <==> HoldsScalar(metadata, key, codec, v)
  {
  }

  lemma ListRead(metadata: Metadata, key: string, codec: Codec, v: Value)
    ensures ParseSide(Lookup(metadata, key), codec) == Readable(v) <==> HoldsList(metadata, key, codec, v)
  {
  }

  lemma RecordRead(metadata: Metadata, key: string, codec: Codec, v: Value)
    ensures ParsePolicySide(Lookup(metadata, key), codec) == Readable(v) <==> HoldsRecord(metadata, key, codec, v)
  {
  }

  lemma BudgetRead(metadata: Metadata, key: string, codec: Codec, names: seq<string>, v: Value)
    ensures ParseBudgetSide(Lookup(metadata, key), names, codec) == Readable(v) <==>
            HoldsBudget(metadata, key, codec, names, v)
  {
    RecordRead(metadata, key, codec, v);
  }

  /** Nothing stored, null or an empty string. */
  predicate NeverRecorded(metadata: Metadata, key: string) {
    key in metadata ==> metadata[key].Null? || metadata[key] == Text("")
  }

  /** The writer's marker for a value it declined, and the size it gives, if it is a
      number. */
  predicate DeclinedWith(metadata: Metadata, key: string, size: Option<Value>) {
    && key in metadata && metadata[key].Record?
    && (var marker := metadata[key].fields;
        && "omitted" in marker && marker["omitted"] == Text("too_large")
        && if "chars" in marker && (marker["chars"].Number? || marker["chars"].Fraction?) then size == Some(marker["chars"])
           else size == None)
  }

  /** A side that is not read is either not there, or declined, or else damaged. */
  lemma ListMissing(metadata: Metadata, key: string, codec: Codec, size: Option<Value>)
    ensures var side := ParseSide(Lookup(metadata, key), codec);
            && (side == Missing(Absent) <==> NeverRecorded(metadata, key))
            && (side == Missing(Omitted(size)) <==> DeclinedWith(metadata, key, size))
  {
  }

  lemma BudgetMissing(metadata: Metadata, key: string, codec: Codec, names: seq<string>, size: Option<Value>)
    ensures var side := ParseBudgetSide(Lookup(metadata, key), names, codec);
            && (side == Missing(Absent) <==> NeverRecorded(metadata, key))
            && (side == Missing(Omitted(size)) <==> DeclinedWith(metadata, key, size))
  {
  }

  lemma RecordMissing(metadata: Metadata, key: string, codec: Codec)
    ensures var side := ParsePolicySide(Lookup(metadata, key), codec);
            && (side == Missing(Absent) <==> NeverRecorded(metadata, key))
            && !SideDeclined(side)
  {
  }

  lemma ScalarMissing(metadata: Metadata, key: string, codec: Codec)
    ensures var side := ParseScalarSide(metadata, key, codec);
            && (side == Missing(Absent) <==> key !in metadata)
            && !SideDeclined(side)
  {
  }

  predicate SideDeclined(side: Side) {
    side.Missing? && side.why.Omitted?
  }

  // ── Which fields are read how ───────────────────────────────────────────

  lemma PlainName(fields: string)
    requires fields != "" && ',' !in fields && !T.IsSpace(fields[0]) && !T.IsSpace(fields[|fields| - 1])
    requires !IsBudgetField(fields)
    ensures !AllBudget(FieldNames(fields))
  {
    OneName(fields);
    assert FieldNames(fields)[0] == fields;
  }

  predicate IsPlainName(fields: string) {
    fields in {"expires_at", "passport_pubkey", "fallbacks", "policy_shadow", "policy"}
  }

  lemma PlainNamesAreLetters(fields: string)
    requires IsPlainName(fields)
    ensures fields != "" && forall i :: 0 <= i < |fields| ==> fields[i] != ',' && !T.IsSpace(fields[i])
  {
  }

  lemma PlainNamesAreNoBudget(fields: string)
    requires IsPlainName(fields)
    ensures !IsBudgetField(fields)
  {
    assert fields[0] != 'b' && (fields[0] == 'p' ==> fields[1] != 'a' || fields[2] != 'u');
    assert forall i :: 0 <= i < |BUDGET_FIELDS| ==> BUDGET_FIELDS[i][0] == 'b' || BUDGET_FIELDS[i][..3] == "pau";
  }

  lemma PlainNamesAreOne(fields: string)
    requires IsPlainName(fields)
    ensures !AllBudget(FieldNames(fields))
  {
    PlainNamesAreLetters(fields);
    PlainNamesAreNoBudget(fields);
    PlainName(fields);
  }

  // Each name selects its reader.

  lemma ExpiryByName(fields: string, metadata: Metadata)
    requires fields == "expires_at" && |fields| == 10
    ensures NamedReader(fields, metadata) == ExpiryReader
  {
  }

  lemma ExpirySelected(fields: string, metadata: Metadata)
    requires fields == "expires_at"
    ensures ReaderOf(fields, metadata) == ExpiryReader
  {
    PlainNamesAreOne(fields);
    ExpiryByName(fields, metadata);
  }

  lemma RotationByName(fields: string, metadata: Metadata)
    requires fields == "passport_pubkey" && "rotated" in metadata && metadata["rotated"] == Bool(true) && |fields| == 15
    ensures NamedReader(fields, metadata) == RotationReader
  {
  }

  lemma RotationSelected(fields: string, metadata: Metadata)
    requires fields == "passport_pubkey" && "rotated" in metadata && metadata["rotated"] == Bool(true)
    ensures ReaderOf(fields, metadata) == RotationReader
  {
    PlainNamesAreOne(fields);
    RotationByName(fields, metadata);
  }

  lemma FallbacksByName(fields: string, metadata: Metadata)
    requires fields == "fallbacks" && |fields| == 9
    ensures NamedReader(fields, metadata) == FallbackReader
  {
  }

  lemma FallbacksSelected(fields: string, metadata: Metadata)
    requires fields == "fallbacks"
    ensures ReaderOf(fields, metadata) == FallbackReader
  {
    PlainNamesAreOne(fields);
    FallbacksByName(fields, metadata);
  }

  lemma ShadowByName(fields: string, metadata: Metadata)
    requires fields == "policy_shadow" && |fields| == 13
    ensures NamedReader(fields, metadata) == ShadowReader
  {
  }

  lemma ShadowSelected(fields: string, metadata: Metadata)
    requires fields == "policy_shadow"
    ensures ReaderOf(fields, metadata) == ShadowReader
  {
    PlainNamesAreOne(fields);
    ShadowByName(fields, metadata);
  }

  lemma PolicyByName(fields: string, metadata: Metadata)
    requires fields == "policy" && |fields| == 6
    ensures NamedReader(fields, metadata) == PolicyReader
  {
  }

  lemma PolicySelected(fields: string, metadata: Metadata)
    requires fields == "policy"
    ensures ReaderOf(fields, metadata) == PolicyReader
  {
    PlainNamesAreOne(fields);
    PolicyByName(fields, metadata);
  }

  lemma {:induction false} NamesOfJoin(names: seq<string>)
    requires names != [] && T.ListItems(names)
    ensures FieldNames(T.Join(names, ",")) == names
  {
    if |names| == 1 {
      OneName(names[0]);
      assert names == [names[0]];
    } else {
      var head, tail := names[0], names[1..];
      assert T.ListItem(head) && T.ListItems(tail);
      NamesOfJoin(tail);
      assert T.Join(names, ",") == head + [','] + T.Join(tail, ",");
      T.SplitAt(head, T.Join(tail, ","), ',');
      TrimAllCons(head, T.Split(T.Join(tail, ","), ','));
      assert names == [head] + tail;
    }
  }

  lemma TrimAllCons(head: string, rest: seq<string>)
    requires T.Trimmed(head)
    ensures TrimAll([head] + rest) == [head] + TrimAll(rest)
  {
    var parts := [head] + rest;
    assert forall i :: 0 <= i < |rest| ==> parts[i + 1] == rest[i];
    assert T.Trim(parts[0]) == head;
  }

  /** A list of budget fields selects the budget reader of those fields. */
  lemma BudgetReaders(names: seq<string>, metadata: Metadata)
    requires names != [] && T.ListItems(names) && forall i :: 0 <= i < |names| ==> IsBudgetField(names[i])
    ensures ReaderOf(T.Join(names, ","), metadata) == BudgetReader(names)
  {
    NamesOfJoin(names);
  }

  // ── Which value came first ──────────────────────────────────────────────

  /** Recorded as read. */
  predicate Says(s: Summary, headline: Headline, detail: Option<Detail>) {
    s == Summary(headline, detail, true, InRecord)
  }

  lemma ReadOn(reader: Reader, metadata: Metadata, codec: Codec, was: Value, now: Value)
    requires ReadSide(reader, metadata, "from", codec) == Readable(was)
    requires ReadSide(reader, metadata, "to", codec) == Readable(now)
    ensures SummariseWith(reader, metadata, codec) == Summarise(reader, Readable(was), Readable(now), metadata, codec)
    ensures PairOf(Readable(was), Readable(now)) == Both(was, now)
  {
  }

  /** An expiry that changed is shown from what it was to what it is; it is added
      exactly where there was none and removed exactly where none is left. */
  lemma ExpirySays(fields: string, metadata: Metadata, codec: Codec, was: Value, now: Value)
    requires fields == "expires_at"
    requires HoldsScalar(metadata, "from", codec, was) && HoldsScalar(metadata, "to", codec, now)
    ensures var s := SummariseUpdate(fields, metadata, codec);
            && (was == now ==> Says(s, Unchanged("expires_at"), None))
            && (was != now ==> Says(s, s.headline, Some(ExpiryDetail(was, now))))
            && (s.headline == ExpiryAdded <==> was == Null && now != Null)
            && (s.headline == ExpiryRemoved <==> was != Null && now == Null)
            && (s.headline == Modified("expires_at") <==> was != Null && now != Null && was != now)
  {
    ExpirySelected(fields, metadata);
    ScalarRead(metadata, "from", codec, was);
    ScalarRead(metadata, "to", codec, now);
    ReadOn(ExpiryReader, metadata, codec, was, now);
  }

  predicate CountsFrom(v: Value) {
    (v.Number? && v.n >= 0) || (v.Fraction? && v.text != "" && v.text[0] != '-')
  }

  /** A rotated key is shown from the old to the new, planned only if the row says
      so, with its grace period if that is a number of seconds and else the time
      the old key lasts. */
  lemma RotationSays(fields: string, metadata: Metadata, codec: Codec, was: Value, now: Value)
    requires fields == "passport_pubkey" && "rotated" in metadata && metadata["rotated"] == Bool(true)
    requires HoldsScalar(metadata, "from", codec, was) && HoldsScalar(metadata, "to", codec, now)
    ensures var s := SummariseUpdate(fields, metadata, codec);
            && s.detail.Some? && s.detail.value.KeyDetail?
            && (var d := s.detail.value;
                && Says(s, KeyRotated, Some(d))
                && d.was == was && d.now == now
                && (d.planned <==> "planned" in metadata && metadata["planned"] == Bool(true))
                && (var timed := "grace_seconds" in metadata && CountsFrom(metadata["grace_seconds"]);
                    var dated := "previous_valid_until" in metadata && metadata["previous_valid_until"].Text?;
                    && (timed ==> d.window == Grace(metadata["grace_seconds"]))
                    && (!timed && dated ==> d.window == Until(metadata["previous_valid_until"].s))
                    && (!timed && !dated ==> d.window == NoWindow)))
  {
    RotationSelected(fields, metadata);
    ScalarRead(metadata, "from", codec, was);
    ScalarRead(metadata, "to", codec, now);
    ReadOn(RotationReader, metadata, codec, was, now);
  }

  // ── Which value is missing ──────────────────────────────────────────────

  predicate SideHas(side: Side, why: Gap) {
    side.Missing? && side.why == why
  }

  /** Of two sides not both read, what is said is the most specific: a declined
      value, the past one first, then a damaged one, and nothing recorded only
      when neither is either. */
  lemma GapIsTheMostSpecific(from: Side, to: Side)
    requires from.Missing? || to.Missing?
    ensures var said := PairOf(from, to);
            && said.Gapped?
            && (SideDeclined(from) ==> SideHas(from, said.why))
            && (!SideDeclined(from) && SideDeclined(to) ==> SideHas(to, said.why))
            && (said.why == Unreadable <==>
                  && !SideDeclined(from) && !SideDeclined(to)
                  && (SideHas(from, Unreadable) || SideHas(to, Unreadable)))
  {
  }

  /** The reader of a field other than the policy in use. */
  predicate Reads(reader: Reader, field: string) {
    match reader
    case BudgetReader(_) => field == "budget"
    case ExpiryReader => field == "expires_at"
    case RotationReader => field == "passport_pubkey"
    case ScopeReader => field == "allowed_scopes"
    case FallbackReader => field == "fallbacks"
    case ShadowReader => field == "policy_shadow"
    case PolicyReader => false
    case NoReader(_) => false
  }

  /** A change with a side missing shows no value, names its own field and says
      which way the value is missing. */
  lemma MissingSays(reader: Reader, field: string, metadata: Metadata, codec: Codec)
    requires Reads(reader, field)
    ensures var from, to := ReadSide(reader, metadata, "from", codec), ReadSide(reader, metadata, "to", codec);
            var said := PairOf(from, to);
            from.Missing? || to.Missing? ==>
              && said.Gapped?
              && SummariseWith(reader, metadata, codec) ==
                   Summary(Unresolved(field, said.why), None, false, if said.why.Absent? then NotRecorded else Damaged)
  {
  }

  /** Of the policy in use it is still said whether it was promoted. */
  lemma MissingPolicySays(metadata: Metadata, codec: Codec)
    ensures var from, to := ReadSide(PolicyReader, metadata, "from", codec), ReadSide(PolicyReader, metadata, "to", codec);
            var said := PairOf(from, to);
            from.Missing? || to.Missing? ==>
              && said.Gapped?
              && SummariseWith(PolicyReader, metadata, codec) ==
                   Summary(Enforced("promoted" in metadata && metadata["promoted"] == Bool(true), Some(said.why)),
                           None, false, if said.why.Absent? then NotRecorded else Damaged)
  {
  }

  /** A field no reader knows is named, a budget's as one whose past was never
      recorded. */
  lemma UnreadSays(fields: string, metadata: Metadata, codec: Codec)
    requires NamedReader(fields, metadata).NoReader? && !AllBudget(FieldNames(fields))
    ensures var s := SummariseUpdate(fields, metadata, codec);
            && s == Summary(s.headline, None, false, NotRecorded)
            && ("budget" <= fields ==> s.headline == Unresolved("budget", Absent))
            && (fields == "name" ==> s.headline == NameChanged)
            && (fields != "name" && !("budget" <= fields) ==> s.headline == NotShown(fields))
  {
  }

  // ── Budgets ─────────────────────────────────────────────────────────────

  lemma BudgetLinesLast(init: seq<string>, last: string, was: Value, now: Value)
    requires Field(was, last).Some? && Field(now, last).Some?
    ensures BudgetLines(init + [last], was, now) ==
            BudgetLines(init, was, now)
            + (if Field(was, last) != Field(now, last) then [BudgetLine(last, Field(was, last).value, Field(now, last).value)] else [])
  {
    assert (init + [last])[..|init|] == init;
  }

  predicate LineOf(field: string, was: Value, now: Value, line: BudgetLine) {
    line.field == field && Field(was, field) == Some(line.was) && Field(now, field) == Some(line.now) && line.was != line.now
  }

  lemma {:induction false} BudgetLinesSay(names: seq<string>, was: Value, now: Value, line: BudgetLine)
    requires forall name :: name in names ==> Field(was, name).Some? && Field(now, name).Some?
    ensures line in BudgetLines(names, was, now) <==> line.field in names && LineOf(line.field, was, now, line)
  {
    if names != [] {
      var init, last := names[..|names| - 1], names[|names| - 1];
      assert names == init + [last];
      BudgetLinesSay(init, was, now, line);
      BudgetLinesLast(init, last, was, now);
    }
  }

  lemma BudgetFieldsHeld(metadata: Metadata, key: string, codec: Codec, names: seq<string>, v: Value)
    requires HoldsBudget(metadata, key, codec, names, v)
    ensures forall name :: name in names ==> name in v.fields && Field(v, name) == Some(v.fields[name])
  {
    forall name | name in names ensures name in v.fields {
      var i :| 0 <= i < |names| && names[i] == name;
    }
  }

  /** A budget field has a line exactly when its value changed, from the old value
      to the new. */
  lemma BudgetSays(names: seq<string>, metadata: Metadata, codec: Codec, was: Value, now: Value, line: BudgetLine)
    requires HoldsBudget(metadata, "from", codec, names, was) && HoldsBudget(metadata, "to", codec, names, now)
    ensures var s := SummariseWith(BudgetReader(names), metadata, codec);
            && s.detail.Some? && s.detail.value.BudgetDetail?
            && (var lines := s.detail.value.budgetLines;
                && Says(s, if lines == [] then Unchanged("budget") else Modified("budget"), s.detail)
                && (line in lines <==>
                      && line.field in names && line.was == was.fields[line.field] && line.now == now.fields[line.field]
                      && line.was != line.now))
  {
    BudgetRead(metadata, "from", codec, names, was);
    BudgetRead(metadata, "to", codec, names, now);
    ReadOn(BudgetReader(names), metadata, codec, was, now);
    BudgetFieldsHeld(metadata, "from", codec, names, was);
    BudgetFieldsHeld(metadata, "to", codec, names, now);
    BudgetLinesSay(names, was, now, line);
  }

  // ── Policies ────────────────────────────────────────────────────────────

  /** How many entries a document lists under a key. */
  predicate Names(v: Value, key: string, n: nat) {
    if v.Record? && key in v.fields && v.fields[key].List? then n == |v.fields[key].items| else n == 0
  }

  /** Its hourly cap, if it has one. */
  predicate Caps(v: Value, cap: Option<Value>) {
    if v.Record? && "max_requests_per_hour" in v.fields
       && (v.fields["max_requests_per_hour"].Number? || v.fields["max_requests_per_hour"].Fraction?)
    then cap == Some(v.fields["max_requests_per_hour"]) else cap == None
  }

  lemma SizesAndCaps(v: Value, key: string, n: nat, cap: Option<Value>)
    ensures Names(v, key, n) <==> n == SizeAt(v, key)
    ensures Caps(v, cap) <==> cap == CapOf(v)
  {
  }

  lemma CountLineSays(was: Value, now: Value, name: string, line: PolicyLine)
    ensures line in CountLine(was, now, name) <==>
            && line.CountChanged? && line.key == name && line.was != line.now
            && line.was == SizeAt(was, name) && line.now == SizeAt(now, name)
  {
  }

  lemma PolicyLineSays(was: Value, now: Value, codec: Codec, line: PolicyLine)
    requires !line.RulesRewritten?
    ensures line in DescribePolicyChange(was, now, codec) <==>
            || line in CountLine(was, now, "deny") || line in CountLine(was, now, "windows")
            || (CapOf(was) != CapOf(now) && line == CapChanged(CapOf(was), CapOf(now)))
  {
    var counts := CountLine(was, now, "deny") + CountLine(was, now, "windows");
    assert line in counts <==> line in CountLine(was, now, "deny") || line in CountLine(was, now, "windows");
  }

  /** Counts are shown from the old to the new, exactly those that changed. */
  lemma PolicyCountsSay(was: Value, now: Value, codec: Codec, key: string, m: nat, n: nat)
    ensures CountChanged(key, m, n) in DescribePolicyChange(was, now, codec) <==>
            (key == "deny" || key == "windows") && m != n && Names(was, key, m) && Names(now, key, n)
  {
    var line := CountChanged(key, m, n);
    PolicyLineSays(was, now, codec, line);
    CountLineSays(was, now, "deny", line);
    CountLineSays(was, now, "windows", line);
    SizesAndCaps(was, key, m, None);
    SizesAndCaps(now, key, n, None);
  }

  /** The hourly cap likewise. */
  lemma PolicyCapSays(was: Value, now: Value, codec: Codec, before: Option<Value>, after: Option<Value>)
    ensures CapChanged(before, after) in DescribePolicyChange(was, now, codec) <==>
            before != after && Caps(was, before) && Caps(now, after)
  {
    var line := CapChanged(before, after);
    PolicyLineSays(was, now, codec, line);
    CountLineSays(was, now, "deny", line);
    CountLineSays(was, now, "windows", line);
    SizesAndCaps(was, "", 0, before);
    SizesAndCaps(now, "", 0, after);
  }

  /** "Rewritten" is said alone, and exactly of documents with the same counts and
      cap that print differently. */
  lemma RewrittenSays(was: Value, now: Value, codec: Codec)
    ensures var lines := DescribePolicyChange(was, now, codec);
            var same := SizeAt(was, "deny") == SizeAt(now, "deny") && SizeAt(was, "windows") == SizeAt(now, "windows")
                        && CapOf(was) == CapOf(now);
            && (RulesRewritten in lines <==> same && codec.show(was) != codec.show(now))
            && (RulesRewritten in lines ==> lines == [RulesRewritten])
            && (lines == [] <==> same && codec.show(was) == codec.show(now))
  {
    CountLineSays(was, now, "deny", RulesRewritten);
    CountLineSays(was, now, "windows", RulesRewritten);
    var counts := CountLine(was, now, "deny") + CountLine(was, now, "windows");
    assert RulesRewritten !in counts;
  }

  /** A saved policy is described from the old to the new, unless it was cleared,
      and promoted only if the row says so. */
  lemma PolicySays(fields: string, metadata: Metadata, codec: Codec, was: Value, now: Value)
    requires fields == "policy"
    requires HoldsRecord(metadata, "from", codec, was) && HoldsRecord(metadata, "to", codec, now)
    ensures var promoted := "promoted" in metadata && metadata["promoted"] == Bool(true);
            var s := SummariseUpdate(fields, metadata, codec);
            if now == Null then Says(s, Cleared("policy"), None)
            else Says(s, Enforced(promoted, None), Some(PolicyDetail(DescribePolicyChange(was, now, codec))))
  {
    PolicySelected(fields, metadata);
    RecordRead(metadata, "from", codec, was);
    RecordRead(metadata, "to", codec, now);
    ReadOn(PolicyReader, metadata, codec, was, now);
  }

  /** And a draft: shadow mode is on where there was none before. */
  lemma ShadowSays(fields: string, metadata: Metadata, codec: Codec, was: Value, now: Value)
    requires fields == "policy_shadow"
    requires HoldsRecord(metadata, "from", codec, was) && HoldsRecord(metadata, "to", codec, now)
    ensures var s := SummariseUpdate(fields, metadata, codec);
            if now == Null then Says(s, Cleared("policy_shadow"), None)
            else Says(s, if was == Null then ShadowOn else Modified("policy_shadow"),
                      Some(PolicyDetail(DescribePolicyChange(was, now, codec))))
  {
    ShadowSelected(fields, metadata);
    RecordRead(metadata, "from", codec, was);
    RecordRead(metadata, "to", codec, now);
    ReadOn(ShadowReader, metadata, codec, was, now);
  }

  // ── Lists ───────────────────────────────────────────────────────────────

  /** Fallbacks are compared from the old list to the new, three rows of each, and
      said to be cleared exactly when none is left. */
  lemma FallbacksSay(fields: string, metadata: Metadata, codec: Codec, was: Value, now: Value)
    requires fields == "fallbacks"
    requires HoldsList(metadata, "from", codec, was) && HoldsList(metadata, "to", codec, now)
    ensures var before, after := FallbackRowsOf(was), FallbackRowsOf(now);
            var lines, s := FallbackDiff.Diff(before, after), SummariseUpdate(fields, metadata, codec);
            && Says(s, s.headline, Some(FallbackDetail(lines)))
            && (s.headline == Cleared("fallbacks") <==> after == [])
            && (s.headline == Unchanged("fallbacks") <==> after != [] && lines == [])
            && (s.headline == Modified("fallbacks") <==> after != [] && lines != [])
  {
    FallbacksSelected(fields, metadata);
    ListRead(metadata, "from", codec, was);
    ListRead(metadata, "to", codec, now);
    ReadOn(FallbackReader, metadata, codec, was, now);
  }

  /** What is compared is the first three readable rows. */
  lemma FallbackRowsMean(v: Value)
    ensures var read := if v.List? then FallbackDiff.Fallbacks(v.items) else [];
            FallbackRowsOf(v) == if |read| <= 3 then read else read[..3]
  {
  }

  /** A change of fallbacks, stored, is told as that change. */
  lemma SavedFallbacksSay(fields: string, metadata: Metadata, codec: Codec,
                          was: seq<FallbackDiff.FallbackRow>, now: seq<FallbackDiff.FallbackRow>)
    requires fields == "fallbacks" && |was| <= 3 && |now| <= 3
    requires forall row :: row in was || row in now ==> FallbackDiff.Spelled(row)
    requires HoldsList(metadata, "from", codec, List(FallbackDiff.RowsJson(was)))
    requires HoldsList(metadata, "to", codec, List(FallbackDiff.RowsJson(now)))
    ensures SummariseUpdate(fields, metadata, codec).detail == Some(FallbackDetail(FallbackDiff.Diff(was, now)))
  {
    FallbackDiff.StoredFallbacksReadBack(was);
    FallbackDiff.StoredFallbacksReadBack(now);
    FallbackRowsMean(List(FallbackDiff.RowsJson(was)));
    FallbackRowsMean(List(FallbackDiff.RowsJson(now)));
    FallbacksSay(fields, metadata, codec, List(FallbackDiff.RowsJson(was)), List(FallbackDiff.RowsJson(now)));
  }

  lemma ScopesTold(was: Value, now: Value)
    ensures var before, after := ScopeRowsOf(was), ScopeRowsOf(now);
            var lines, s := ScopeDiff.Diff(before, after), SummariseScopes(Both(was, now));
            && Says(s, s.headline, Some(ScopeDetail(lines)))
            && (s.headline == Cleared("allowed_scopes") <==> after == [])
            && (s.headline == Unchanged("allowed_scopes") <==> after != [] && lines == [])
            && (s.headline == Modified("allowed_scopes") <==> after != [] && lines != [])
  {
  }

  lemma ScopesReadOn(fields: string, metadata: Metadata, codec: Codec, was: Value, now: Value)
    requires fields == SCOPES
    requires HoldsList(metadata, "from", codec, was) && HoldsList(metadata, "to", codec, now)
    ensures SummariseUpdate(fields, metadata, codec) == SummariseScopes(Both(was, now))
  {
    ScopeRowsHaveAReader(fields, metadata);
    ScopesReadBy(metadata, codec, was, now);
  }

  lemma ScopesReadBy(metadata: Metadata, codec: Codec, was: Value, now: Value)
    requires HoldsList(metadata, "from", codec, was) && HoldsList(metadata, "to", codec, now)
    ensures SummariseWith(ScopeReader, metadata, codec) == SummariseScopes(Both(was, now))
  {
    ListRead(metadata, "from", codec, was);
    ListRead(metadata, "to", codec, now);
    ReadOn(ScopeReader, metadata, codec, was, now);
  }

  /** Scopes likewise. */
  lemma ScopesSay(fields: string, metadata: Metadata, codec: Codec, was: Value, now: Value)
    requires fields == SCOPES
    requires HoldsList(metadata, "from", codec, was) && HoldsList(metadata, "to", codec, now)
    ensures var before, after := ScopeRowsOf(was), ScopeRowsOf(now);
            var lines, s := ScopeDiff.Diff(before, after), SummariseUpdate(fields, metadata, codec);
            && Says(s, s.headline, Some(ScopeDetail(lines)))
            && (s.headline == Cleared("allowed_scopes") <==> after == [])
            && (s.headline == Unchanged("allowed_scopes") <==> after != [] && lines == [])
            && (s.headline == Modified("allowed_scopes") <==> after != [] && lines != [])
  {
    ScopesReadOn(fields, metadata, codec, was, now);
    ScopesTold(was, now);
  }

  // ── Rows that change no field ───────────────────────────────────────────

  predicate HoldsText(fields: map<string, Value>, key: string, s: string) {
    key in fields && fields[key] == Text(s)
  }

  predicate Holds(fields: map<string, Value>, key: string, v: Value) {
    key in fields && fields[key] == v
  }

  /** A row is told under its own id, time, action and origin. */
  lemma RowIsToldOfItself(fields: map<string, Value>, codec: Codec, metadata: Metadata, s: string)
    requires SummariseChange(Record(fields), codec).Some? && Holds(fields, "metadata", Record(metadata)) && s != ""
    ensures var told := SummariseChange(Record(fields), codec).value;
            && HoldsText(fields, "action", told.action)
            && (told.id == s <==> HoldsText(fields, "id", s))
            && (told.at == Some(s) <==> HoldsText(fields, "created_at", s))
            && (told.viaApi <==> HoldsText(metadata, "via", "api"))
            && told.summary == SummariseAction(told.action, metadata, codec)
  {
  }

  /** What tells a change from its opposite. */
  predicate Switch(action: string, key: string, on: Value) {
    || (action == "agent.suspend" && key == "suspended" && on == Bool(true))
    || (action == "agent.session_stop" && key == "stopped" && on == Bool(true))
    || (action == "agent.delegation_revoke" && key == "all" && on == Bool(true))
    || (action == "agent.create" && key == "auth_method" && on == Text("direct_key"))
  }

  lemma FlagSays(action: string, metadata: Metadata, key: string, on: Value)
    requires Switch(action, key, on)
    ensures FlagOf(action, metadata) <==> Holds(metadata, key, on)
  {
  }

  /** Suspended or resumed, stopped or resumed, every delegation or one, direct or
      not: whichever the row holds. */
  lemma EventSays(action: string, metadata: Metadata, codec: Codec, key: string, on: Value)
    requires Switch(action, key, on)
    ensures var s := SummariseAction(action, metadata, codec);
            Says(s, Event(action, Holds(metadata, key, on)), s.detail)
  {
    FlagSays(action, metadata, key, on);
  }

  /** The actions that are about an agent. */
  lemma AgentActionsAre(action: string)
    ensures IsAgentAction(action) <==>
            action in {"agent.create", "agent.direct_key.create", "agent.direct_key.revoke", "agent.revoke",
                       "agent.suspend", "agent.delegation_revoke", "agent.spending_limit_removed",
                       "agent.session_stop", "agent.update", "agent.break_glass"}
  {
  }

  /** The events that come with a line of their own. */
  lemma NoteSays(action: string, metadata: Metadata, codec: Codec, statement: string)
    requires IsEventAction(action) && HoldsText(metadata, "statement", statement)
    ensures SummariseAction(action, metadata, codec).detail ==
            if action in {"agent.delegation_revoke", "agent.session_stop"} then Some(Note(action))
            else if action in {"agent.spending_limit_removed"} && statement != "" then Some(Note(action))
            else None
  {
  }

  /** The other two kinds of row about an agent. */
  lemma OtherActionsSay(action: string, metadata: Metadata, codec: Codec)
    ensures action == "agent.break_glass" ==> SummariseAction(action, metadata, codec) == SummariseBreakGlass(metadata, codec)
    ensures action == "agent.update" ==>
              SummariseAction(action, metadata, codec) == SummariseUpdate(TextAt(metadata, "fields"), metadata, codec)
  {
  }

  /** An elevation is told with the scopes, the expiry and the reason of its row. */
  lemma TakenSays(metadata: Metadata, codec: Codec, scopes: Value, until: string, reason: string)
    requires !Holds(metadata, "ended", Bool(true)) && HoldsList(metadata, "scopes", codec, scopes)
    requires HoldsText(metadata, "expires_at", until) && HoldsText(metadata, "reason", reason)
    ensures Says(SummariseBreakGlass(metadata, codec), Taken(None),
                 Some(GrantDetail(ScopeRowsOf(scopes), T.Trim(until), T.Trim(reason))))
  {
    ListRead(metadata, "scopes", codec, scopes);
    TakenOf(metadata, codec, scopes);
    assert TextAt(metadata, "expires_at") == until && TextAt(metadata, "reason") == reason;
  }

  lemma TakenOf(metadata: Metadata, codec: Codec, scopes: Value)
    requires Lookup(metadata, "ended") != Some(Bool(true)) && ParseSide(Lookup(metadata, "scopes"), codec) == Readable(scopes)
    ensures SummariseBreakGlass(metadata, codec) ==
            Shown(Taken(None), Some(GrantDetail(ScopeRowsOf(scopes), T.Trim(TextAt(metadata, "expires_at")),
                                                T.Trim(TextAt(metadata, "reason")))))
  {
  }

  /** One whose scopes cannot be read is told without them, with whatever expiry and
      reason its row has. */
  lemma UngrantedSays(metadata: Metadata, codec: Codec, until: string, reason: string)
    requires !Holds(metadata, "ended", Bool(true)) && ParseSide(Lookup(metadata, "scopes"), codec).Missing?
    requires HoldsText(metadata, "expires_at", until) && HoldsText(metadata, "reason", reason)
    ensures var why := ParseSide(Lookup(metadata, "scopes"), codec).why;
            SummariseBreakGlass(metadata, codec) ==
            Summary(Taken(Some(why)),
                    if T.Blank(until) && T.Blank(reason) then None
                    else Some(GrantDetail([], T.Trim(until), T.Trim(reason))),
                    false, if why.Absent? then NotRecorded else Damaged)
  {
    T.TrimIsBlank(until);
    T.TrimIsBlank(reason);
    assert TextAt(metadata, "expires_at") == until && TextAt(metadata, "reason") == reason;
  }

  /** Its end says that one was ended unless the row counts none. */
  lemma EndSays(metadata: Metadata, codec: Codec)
    requires Holds(metadata, "ended", Bool(true))
    ensures var live := !Holds(metadata, "revoked", Number(0));
            var s := SummariseBreakGlass(metadata, codec);
            Says(s, Ended(live), if live then Some(Note("break_glass.ended")) else None)
  {
  }
}
