/** The policy form (components/PolicyShadowPanel.tsx): a stored policy printed
    into text fields and read back out of them. */
module PolicyForm {
  import opened Lists
  import opened Json
  import opened Amounts
  import T = Text

  const MAX_SAFE := 0x1F_FFFF_FFFF_FFFF
  /** POLICY_LIMITS.subagentSessionCapCents: $100,000. */
  const MAX_CENTS := 10_000_000

  /** A policy document: nine keys, each there or not. */
  datatype Policy = Policy(
    deny: Option<Value>, windows: Option<Value>, maxRequestsPerHour: Option<Value>, maxOutputTokens: Option<Value>,
    subagentModels: Option<Value>, subagentSessionCapCents: Option<Value>, sessionAlertCents: Option<Value>,
    secretGuard: Option<Value>, injectionGuard: Option<Value>)

  const NO_KEYS := Policy(None, None, None, None, None, None, None, None, None)

  datatype RuleDraft = RuleDraft(provider: string, models: string)
  datatype WindowDraft = WindowDraft(days: seq<string>, start: string, end: string)
  datatype Draft = Draft(
    deny: seq<RuleDraft>, windows: seq<WindowDraft>, cap: string, ceiling: string,
    subagentRules: seq<RuleDraft>, subagentNone: bool, subagentCap: string, sessionAlert: string,
    secretGuard: string, injectionGuard: string)

  // ── Numbers as text ─────────────────────────────────────────────────────

  /** `Number(text)` where the result is a safe integer, and `String(n)`. */
  datatype Numerals = Numerals(read: string -> Option<int>, show: int -> string)

  ghost predicate Faithful(numerals: Numerals) {
    && (forall n :: -MAX_SAFE <= n <= MAX_SAFE ==>
          numerals.show(n) != "" && T.Trimmed(numerals.show(n)) && numerals.read(numerals.show(n)) == Some(n))
    && (forall s :: numerals.read(s).Some? ==> -MAX_SAFE <= numerals.read(s).value <= MAX_SAFE)
  }

  /** The plain spelling: a sign if it is negative, and digits. */
  function Spelled(n: int): string {
    if n < 0 then "-" + Decimal(-n) else Decimal(n)
  }

  function Safe(n: int): Option<int> {
    if -MAX_SAFE <= n <= MAX_SAFE then Some(n) else None
  }

  function ReadSpelled(s: string): Option<int> {
    if s != "" && AllDigits(s) then Safe(Amount(s))
    else if |s| > 1 && s[0] == '-' && AllDigits(s[1..]) then Safe(0 - Amount(s[1..]))
    else None
  }

  lemma SpelledReadsBack(n: int)
    requires -MAX_SAFE <= n <= MAX_SAFE
    ensures Spelled(n) != "" && T.Trimmed(Spelled(n)) && ReadSpelled(Spelled(n)) == Some(n)
  {
    var digits := Decimal(if n < 0 then -n else n);
    AmountOfDecimal(if n < 0 then -n else n);
    if n < 0 {
      var s := "-" + digits;
      assert s[1..] == digits && s[0] == '-' && s[|s| - 1] == digits[|digits| - 1];
    }
  }

  /** Numerals that read back what they show do exist. */
  lemma SpelledIsFaithful()
    ensures Faithful(Numerals(ReadSpelled, Spelled))
  {
    var numerals := Numerals(ReadSpelled, Spelled);
    forall n | -MAX_SAFE <= n <= MAX_SAFE
      ensures numerals.show(n) != "" && T.Trimmed(numerals.show(n)) && numerals.read(numerals.show(n)) == Some(n)
    {
      SpelledReadsBack(n);
    }
  }

  function Money(text: string, least: nat): Option<int> {
    var cents := Cents(StripDollar(T.Trim(text)));
    if cents.Some? && least <= cents.value <= MAX_CENTS then Some(cents.value) else None
  }

  // ── Documents ───────────────────────────────────────────────────────────

  datatype Rule = Rule(provider: string, models: seq<string>)
  datatype Window = Window(days: seq<string>, start: string, end: string)

  /** A policy whose parts have the shapes the document gives them. */
  datatype Doc = Doc(
    deny: Option<seq<Rule>>, windows: Option<seq<Window>>, cap: Option<int>, ceiling: Option<int>,
    subagents: Option<seq<Rule>>, subagentCap: Option<int>, sessionAlert: Option<int>,
    secretGuard: Option<string>, injectionGuard: Option<string>)

  const BLANK := Doc(None, None, None, None, None, None, None, None, None)

  function RuleJson(rule: Rule): Value {
    Record(map["provider" := Text(rule.provider), "models" := List(Texts(rule.models))])
  }

  function WindowJson(w: Window): Value {
    Record(map["days" := List(Texts(w.days)), "start" := Text(w.start), "end" := Text(w.end), "tz" := Text("UTC")])
  }

  function RulesJson(rules: seq<Rule>): Value {
    List(seq(|rules|, i requires 0 <= i < |rules| => RuleJson(rules[i])))
  }

  function WindowsJson(windows: seq<Window>): Value {
    List(seq(|windows|, i requires 0 <= i < |windows| => WindowJson(windows[i])))
  }

  function GuardJson(mode: string): Value {
    Record(map["mode" := Text(mode)])
  }

  function Counted(n: Option<int>): Option<Value> {
    if n.Some? then Some(Number(n.value)) else None
  }

  function Ruled(rules: Option<seq<Rule>>): Option<Value> {
    if rules.Some? then Some(RulesJson(rules.value)) else None
  }

  function Windowed(windows: Option<seq<Window>>): Option<Value> {
    if windows.Some? then Some(WindowsJson(windows.value)) else None
  }

  function Guarded(mode: Option<string>): Option<Value> {
    if mode.Some? then Some(GuardJson(mode.value)) else None
  }

  function Document(doc: Doc): Policy {
    Policy(Ruled(doc.deny), Windowed(doc.windows), Counted(doc.cap), Counted(doc.ceiling), Ruled(doc.subagents),
           Counted(doc.subagentCap), Counted(doc.sessionAlert), Guarded(doc.secretGuard), Guarded(doc.injectionGuard))
  }

  // ── The form from a document ────────────────────────────────────────────

  function TextField(v: Value, name: string): string {
    var field := Field(v, name);
    if field.Some? then TextOr(field.value, "") else ""
  }

  function DraftRule(v: Value): Option<RuleDraft> {
    if !v.Record? then None
    else Some(RuleDraft(TextField(v, "provider"), T.Join(Strings(ItemsOf(Field(v, "models"))), ", ")))
  }

  function DraftRules(items: seq<Value>): seq<RuleDraft> {
    FilterMap(items, DraftRule)
  }

  function DraftWindow(v: Value): Option<WindowDraft> {
    if !v.Record? then None
    else Some(WindowDraft(Strings(ItemsOf(Field(v, "days"))), TextField(v, "start"), TextField(v, "end")))
  }

  function DraftWindows(items: seq<Value>): seq<WindowDraft> {
    FilterMap(items, DraftWindow)
  }

  function ShowNumber(v: Option<Value>, numerals: Numerals): string {
    if v.None? then ""
    else match v.value
      case Number(n) => numerals.show(n)
      case Fraction(text) => text
      case _ => ""
  }

  function ShowMoney(v: Option<Value>, least: nat): string {
    if v.Some? && v.value.Number? && v.value.n >= least then Dollars(v.value.n) else ""
  }

  function ShowMode(v: Option<Value>, one: string, other: string): string {
    var mode := if v.Some? then TextField(v.value, "mode") else "";
    if mode == one || mode == other then mode else ""
  }

  /** Unreadable pieces become empty rather than throwing. */
  function ToDraft(source: Policy, numerals: Numerals): Draft {
    Draft(
      DraftRules(ItemsOf(source.deny)),
      DraftWindows(ItemsOf(source.windows)),
      ShowNumber(source.maxRequestsPerHour, numerals),
      ShowNumber(source.maxOutputTokens, numerals),
      DraftRules(ItemsOf(source.subagentModels)),
      source.subagentModels == Some(List([])),
      ShowMoney(source.subagentSessionCapCents, 0),
      ShowMoney(source.sessionAlertCents, 1),
      ShowMode(source.secretGuard, "block", "redact"),
      ShowMode(source.injectionGuard, "monitor", "hold"))
  }

  /** A live policy the gateway cannot read is not copied. */
  function InitialDraft(shadow: Option<Policy>, live: Option<Policy>, liveReadable: bool, numerals: Numerals): Draft {
    if shadow.Some? then ToDraft(shadow.value, numerals)
    else if liveReadable && live.Some? then ToDraft(live.value, numerals)
    else ToDraft(NO_KEYS, numerals)
  }

  // ── The document from a form ────────────────────────────────────────────

  function ReadRule(row: RuleDraft): Option<Rule> {
    var rule := Rule(T.Trim(row.provider), T.ParseList(row.models));
    if rule.provider != "" && rule.models != [] then Some(rule) else None
  }

  function ReadRules(rows: seq<RuleDraft>): seq<Rule> {
    FilterMap(rows, ReadRule)
  }

  function ReadWindow(row: WindowDraft): Option<Window> {
    if row.days != [] && row.start != "" && row.end != "" then Some(Window(row.days, row.start, row.end)) else None
  }

  function ReadWindows(rows: seq<WindowDraft>): seq<Window> {
    FilterMap(rows, ReadWindow)
  }

  function Listed<X>(items: seq<X>): Option<seq<X>> {
    if items == [] then None else Some(items)
  }

  function ReadNumber(text: string, numerals: Numerals): Option<int> {
    var trimmed := T.Trim(text);
    if trimmed != "" && numerals.read(trimmed).Some? && numerals.read(trimmed).value > 0 then numerals.read(trimmed) else None
  }

  function ReadMode(mode: string): Option<string> {
    if mode == "" then None else Some(mode)
  }

  /** A cleared list can only mean "not restricted", never `[]`. */
  function ReadSubagents(d: Draft): Option<seq<Rule>> {
    if d.subagentNone then Some([]) else Listed(ReadRules(d.subagentRules))
  }

  function ReadDraft(d: Draft, numerals: Numerals): Doc {
    Doc(
      Listed(ReadRules(d.deny)),
      Listed(ReadWindows(d.windows)),
      ReadNumber(d.cap, numerals),
      ReadNumber(d.ceiling, numerals),
      ReadSubagents(d),
      Money(d.subagentCap, 0),
      Money(d.sessionAlert, 1),
      ReadMode(d.secretGuard),
      ReadMode(d.injectionGuard))
  }

  function Stored(d: Draft, numerals: Numerals): Option<Policy> {
    var doc := ReadDraft(d, numerals);
    if doc == BLANK then None else Some(Document(doc))
  }

  // Each key is written only when the form had something for it.

  method PutLists(d: Draft, start: Policy) returns (policy: Policy)
    requires start == NO_KEYS
    ensures policy == start.(deny := Ruled(Listed(ReadRules(d.deny))),
                             windows := Windowed(Listed(ReadWindows(d.windows))),
                             subagentModels := Ruled(ReadSubagents(d)))
  {
    policy := start;
    var deny := ReadRules(d.deny);
    if deny != [] { policy := policy.(deny := Some(RulesJson(deny))); }
    var windows := ReadWindows(d.windows);
    if windows != [] { policy := policy.(windows := Some(WindowsJson(windows))); }
    if d.subagentNone {
      policy := policy.(subagentModels := Some(RulesJson([])));
    } else {
      var subagent := ReadRules(d.subagentRules);
      if subagent != [] { policy := policy.(subagentModels := Some(RulesJson(subagent))); }
    }
  }

  method PutNumbers(d: Draft, start: Policy, numerals: Numerals) returns (policy: Policy)
    requires start.maxRequestsPerHour.None? && start.maxOutputTokens.None?
    requires start.subagentSessionCapCents.None? && start.sessionAlertCents.None?
    ensures policy == start.(maxRequestsPerHour := Counted(ReadNumber(d.cap, numerals)),
                             maxOutputTokens := Counted(ReadNumber(d.ceiling, numerals)),
                             subagentSessionCapCents := Counted(Money(d.subagentCap, 0)),
                             sessionAlertCents := Counted(Money(d.sessionAlert, 1)))
  {
    policy := start;
    var cap := ReadNumber(d.cap, numerals);
    if cap.Some? { policy := policy.(maxRequestsPerHour := Some(Number(cap.value))); }
    var ceiling := ReadNumber(d.ceiling, numerals);
    if ceiling.Some? { policy := policy.(maxOutputTokens := Some(Number(ceiling.value))); }
    var capCents := Money(d.subagentCap, 0);
    if capCents.Some? { policy := policy.(subagentSessionCapCents := Some(Number(capCents.value))); }
    var alertCents := Money(d.sessionAlert, 1);
    if alertCents.Some? { policy := policy.(sessionAlertCents := Some(Number(alertCents.value))); }
  }

  method PutGuards(d: Draft, start: Policy) returns (policy: Policy)
    requires start.secretGuard.None? && start.injectionGuard.None?
    ensures policy == start.(secretGuard := Guarded(ReadMode(d.secretGuard)),
                             injectionGuard := Guarded(ReadMode(d.injectionGuard)))
  {
    policy := start;
    if d.secretGuard != "" { policy := policy.(secretGuard := Some(GuardJson(d.secretGuard))); }
    if d.injectionGuard != "" { policy := policy.(injectionGuard := Some(GuardJson(d.injectionGuard))); }
  }

  /** An empty draft is `null`, never an empty document. */
  method ToPolicy(d: Draft, numerals: Numerals) returns (stored: Option<Policy>)
    ensures stored == Stored(d, numerals)
  {
    var policy := PutLists(d, NO_KEYS);
    policy := PutNumbers(d, policy, numerals);
    policy := PutGuards(d, policy);
    stored := if policy == NO_KEYS then None else Some(policy);
  }

  // ── The form's vocabulary ───────────────────────────────────────────────

  predicate RuleInForm(rule: Rule) {
    rule.provider != "" && T.Trimmed(rule.provider) && rule.models != [] && T.ListItems(rule.models)
  }

  predicate RulesInForm(rules: seq<Rule>) {
    forall i :: 0 <= i < |rules| ==> RuleInForm(rules[i])
  }

  predicate WindowsInForm(windows: seq<Window>) {
    forall i :: 0 <= i < |windows| ==> WindowInForm(windows[i])
  }

  predicate CentsInForm(cents: Option<int>, least: nat) {
    cents.Some? ==> least <= cents.value <= MAX_CENTS
  }

  predicate CountInForm(n: Option<int>) {
    n.Some? ==> n.value > 0
  }

  predicate ModeInForm(mode: Option<string>, one: string, other: string) {
    mode.Some? ==> mode.value == one || mode.value == other
  }

  /** Nothing listed but empty, trimmed comma-free patterns in every rule, whole
      positive numbers, cents within the limit, and a known guard mode. */
  predicate InForm(doc: Doc) {
    && (doc.deny.Some? ==> doc.deny.value != [] && RulesInForm(doc.deny.value))
    && (doc.windows.Some? ==> doc.windows.value != [] && WindowsInForm(doc.windows.value))
    && CountInForm(doc.cap) && CountInForm(doc.ceiling)
    && (doc.subagents.Some? ==> RulesInForm(doc.subagents.value))
    && CentsInForm(doc.subagentCap, 0) && CentsInForm(doc.sessionAlert, 1)
    && ModeInForm(doc.secretGuard, "block", "redact") && ModeInForm(doc.injectionGuard, "monitor", "hold")
  }

  /** JSON numbers the document holds as such. */
  predicate SafeNumbers(doc: Doc) {
    && (doc.cap.Some? ==> -MAX_SAFE <= doc.cap.value <= MAX_SAFE)
    && (doc.ceiling.Some? ==> -MAX_SAFE <= doc.ceiling.value <= MAX_SAFE)
  }

  function DraftsOf(rules: seq<Rule>): seq<RuleDraft> {
    seq(|rules|, i requires 0 <= i < |rules| => DraftOf(rules[i]))
  }

  function DraftOf(rule: Rule): RuleDraft {
    RuleDraft(rule.provider, T.Join(rule.models, ", "))
  }

  lemma {:induction false} DraftRulesOfJson(rules: seq<Rule>)
    ensures DraftRules(RulesJson(rules).items) == DraftsOf(rules)
  {
    forall i | 0 <= i < |rules| ensures DraftRule(RulesJson(rules).items[i]) == Some(DraftsOf(rules)[i]) {
      StringsOfTexts(rules[i].models);
      assert RuleJson(rules[i]).fields["models"].items == Texts(rules[i].models);
    }
    FilterMapAll(RulesJson(rules).items, DraftRule, DraftsOf(rules));
  }

  lemma {:induction false} ReadRulesInForm(rows: seq<RuleDraft>)
    ensures RulesInForm(ReadRules(rows))
  {
    forall i | 0 <= i < |rows| && ReadRule(rows[i]).Some? ensures RuleInForm(ReadRule(rows[i]).value) {
    }
    FilterMapKeeps(rows, ReadRule, RuleInForm);
  }

  lemma {:induction false} RulesReadBack(rules: seq<Rule>)
    requires RulesInForm(rules)
    ensures ReadRules(DraftsOf(rules)) == rules
  {
    forall i | 0 <= i < |rules| ensures ReadRule(DraftsOf(rules)[i]) == Some(rules[i]) {
      T.ParseListOfJoin(rules[i].models);
    }
    FilterMapAll(DraftsOf(rules), ReadRule, rules);
  }

  /** A rule list survives the form exactly when each rule is one it can spell. */
  lemma {:induction false} RulesSurviveIff(rules: seq<Rule>)
    ensures ReadRules(DraftRules(RulesJson(rules).items)) == rules <==> RulesInForm(rules)
  {
    DraftRulesOfJson(rules);
    ReadRulesInForm(DraftsOf(rules));
    if RulesInForm(rules) {
      RulesReadBack(rules);
    }
  }

  function WindowDrafts(windows: seq<Window>): seq<WindowDraft> {
    seq(|windows|, i requires 0 <= i < |windows| => WindowDraft(windows[i].days, windows[i].start, windows[i].end))
  }

  lemma {:induction false} WindowsDrafted(windows: seq<Window>)
    ensures DraftWindows(WindowsJson(windows).items) == WindowDrafts(windows)
  {
    forall i | 0 <= i < |windows| ensures DraftWindow(WindowsJson(windows).items[i]) == Some(WindowDrafts(windows)[i]) {
      StringsOfTexts(windows[i].days);
      assert WindowJson(windows[i]).fields["days"].items == Texts(windows[i].days);
    }
    FilterMapAll(WindowsJson(windows).items, DraftWindow, WindowDrafts(windows));
  }

  predicate WindowInForm(w: Window) {
    w.days != [] && w.start != "" && w.end != ""
  }

  lemma {:induction false} ReadWindowsInForm(rows: seq<WindowDraft>)
    ensures WindowsInForm(ReadWindows(rows))
  {
    FilterMapKeeps(rows, ReadWindow, WindowInForm);
  }

  lemma {:induction false} WindowsReadBack(windows: seq<Window>)
    requires WindowsInForm(windows)
    ensures ReadWindows(WindowDrafts(windows)) == windows
  {
    FilterMapAll(WindowDrafts(windows), ReadWindow, windows);
  }

  lemma {:induction false} WindowsSurviveIff(windows: seq<Window>)
    ensures ReadWindows(DraftWindows(WindowsJson(windows).items)) == windows <==> WindowsInForm(windows)
  {
    WindowsDrafted(windows);
    ReadWindowsInForm(WindowDrafts(windows));
    if WindowsInForm(windows) {
      WindowsReadBack(windows);
    }
  }

  lemma ShownNumberReadsBack(n: int, numerals: Numerals)
    requires Faithful(numerals) && -MAX_SAFE <= n <= MAX_SAFE
    ensures ReadNumber(numerals.show(n), numerals) == if n > 0 then Some(n) else None
  {
    var text := numerals.show(n);
    assert text != "" && T.Trimmed(text) && numerals.read(text) == Some(n);
    assert T.Trim(text) == text;
  }

  lemma {:induction false} NumberSurvivesIff(n: Option<int>, numerals: Numerals)
    requires Faithful(numerals) && (n.Some? ==> -MAX_SAFE <= n.value <= MAX_SAFE)
    ensures ReadNumber(ShowNumber(Counted(n), numerals), numerals) == n <==> CountInForm(n)
  {
    if n.Some? {
      ShownNumberReadsBack(n.value, numerals);
    } else {
      NothingIsNoNumber("", numerals);
    }
  }

  lemma NothingIsNoNumber(text: string, numerals: Numerals)
    requires text == ""
    ensures ReadNumber(text, numerals) == None
  {
    assert |T.Trim(text)| <= 0;
  }

  lemma {:induction false} BlankIsNoMoney(least: nat)
    ensures Money("", least) == None
  {
    assert StripDollar(T.Trim("")) == "";
  }

  lemma {:induction false} MoneyOfDollars(cents: nat, least: nat)
    ensures Money(Dollars(cents), least) == if least <= cents <= MAX_CENTS then Some(cents) else None
  {
    CentsOfDollars(cents);
  }

  lemma {:induction false} ShownMoneyReadsBack(cents: nat, least: nat)
    requires cents >= least
    ensures Money(ShowMoney(Some(Number(cents)), least), least) == if cents <= MAX_CENTS then Some(cents) else None
  {
    MoneyOfDollars(cents, least);
  }

  lemma {:induction false} MoneySurvivesIff(cents: Option<int>, least: nat)
    ensures Money(ShowMoney(Counted(cents), least), least) == cents <==> CentsInForm(cents, least)
  {
    if cents.Some? && cents.value >= least {
      ShownMoneyReadsBack(cents.value, least);
    } else {
      BlankIsNoMoney(least);
    }
  }

  lemma {:induction false} ModeSurvivesIff(mode: Option<string>, one: string, other: string)
    requires one != "" && other != ""
    ensures ReadMode(ShowMode(Guarded(mode), one, other)) == mode
            <==> (mode.Some? ==> mode.value == one || mode.value == other)
  {
  }

  // ── What a typed amount is stored as ────────────────────────────────────

  predicate StoresCap(stored: Option<Policy>, cents: nat) {
    stored.Some? && stored.value.subagentSessionCapCents == Some(Number(cents))
  }

  predicate StoresAlert(stored: Option<Policy>, cents: nat) {
    stored.Some? && stored.value.sessionAlertCents == Some(Number(cents))
  }

  /** A cap is stored exactly when what was typed is an amount within the limit, an
      alert when it is at least a cent as well, and as that many cents. */
  lemma TypedAmountsAreStored(d: Draft, numerals: Numerals, cents: nat)
    ensures StoresCap(Stored(d, numerals), cents) <==> Typed(d.subagentCap, cents) && cents <= 10_000_000
    ensures StoresAlert(Stored(d, numerals), cents) <==> Typed(d.sessionAlert, cents) && 1 <= cents <= 10_000_000
  {
    TypedMeans(d.subagentCap, cents);
    TypedMeans(d.sessionAlert, cents);
  }

  // ── What else is typed ──────────────────────────────────────────────────

  function PolicyOr(stored: Option<Policy>): Policy {
    if stored.Some? then stored.value else NO_KEYS
  }

  predicate Among(list: Option<Value>, v: Value) {
    list.Some? && list.value.List? && v in list.value.items
  }

  /** A row that names a provider and a model, as the record it is stored as. */
  predicate TellsRule(row: RuleDraft, v: Value) {
    && T.Trim(row.provider) != "" && T.ParseList(row.models) != []
    && v == Record(map["provider" := Text(T.Trim(row.provider)), "models" := List(Texts(T.ParseList(row.models)))])
  }

  /** A window with a day, a start and an end. Every stored one is in UTC. */
  predicate TellsWindow(row: WindowDraft, v: Value) {
    && row.days != [] && row.start != "" && row.end != ""
    && v == Record(map["days" := List(Texts(row.days)), "start" := Text(row.start), "end" := Text(row.end),
                       "tz" := Text("UTC")])
  }

  lemma RuleTold(row: RuleDraft, v: Value)
    ensures TellsRule(row, v) <==> ReadRule(row).Some? && v == RuleJson(ReadRule(row).value)
  {
  }

  lemma WindowTold(row: WindowDraft, v: Value)
    ensures TellsWindow(row, v) <==> ReadWindow(row).Some? && v == WindowJson(ReadWindow(row).value)
  {
  }

  lemma RulesListed(rows: seq<RuleDraft>, v: Value)
    ensures v in RulesJson(ReadRules(rows)).items <==> exists row :: row in rows && TellsRule(row, v)
  {
    forall row | row in rows ensures TellsRule(row, v) <==> ReadRule(row).Some? && v == RuleJson(ReadRule(row).value) {
      RuleTold(row, v);
    }
    MappedListed(rows, ReadRule, RuleJson, RulesJson(ReadRules(rows)).items, v);
  }

  lemma WindowsListed(rows: seq<WindowDraft>, v: Value)
    ensures v in WindowsJson(ReadWindows(rows)).items <==> exists row :: row in rows && TellsWindow(row, v)
  {
    forall row | row in rows ensures TellsWindow(row, v) <==> ReadWindow(row).Some? && v == WindowJson(ReadWindow(row).value) {
      WindowTold(row, v);
    }
    MappedListed(rows, ReadWindow, WindowJson, WindowsJson(ReadWindows(rows)).items, v);
  }

  lemma StoredIsDocument(d: Draft, numerals: Numerals)
    ensures PolicyOr(Stored(d, numerals)) == Document(ReadDraft(d, numerals))
  {
    assert Document(BLANK) == NO_KEYS;
  }

  lemma ListedRules(rules: seq<Rule>, v: Value)
    ensures Among(Ruled(Listed(rules)), v) <==> v in RulesJson(rules).items
    ensures Ruled(Listed(rules)) != Some(List([]))
  {
    assert |RulesJson(rules).items| == |rules|;
  }

  lemma ListedWindows(windows: seq<Window>, v: Value)
    ensures Among(Windowed(Listed(windows)), v) <==> v in WindowsJson(windows).items
    ensures Windowed(Listed(windows)) != Some(List([]))
  {
    assert |WindowsJson(windows).items| == |windows|;
  }

  /** What is stored of the rows typed: each that names a provider and a model, as
      read, and nothing else; a list with nothing in it is not stored. */
  lemma TypedRowsAreStored(d: Draft, numerals: Numerals, v: Value)
    ensures var p := PolicyOr(Stored(d, numerals));
            && (Among(p.deny, v) <==> exists row :: row in d.deny && TellsRule(row, v))
            && (Among(p.windows, v) <==> exists row :: row in d.windows && TellsWindow(row, v))
            && p.deny != Some(List([])) && p.windows != Some(List([]))
  {
    StoredIsDocument(d, numerals);
    RulesListed(d.deny, v);
    ListedRules(ReadRules(d.deny), v);
    WindowsListed(d.windows, v);
    ListedWindows(ReadWindows(d.windows), v);
  }

  /** And of the sub-agent rules, unless no model at all was chosen, which alone is
      stored as an empty list. */
  lemma TypedSubagentsAreStored(d: Draft, numerals: Numerals, v: Value)
    ensures var p := PolicyOr(Stored(d, numerals));
            && (Among(p.subagentModels, v) <==> !d.subagentNone && exists row :: row in d.subagentRules && TellsRule(row, v))
            && (p.subagentModels == Some(List([])) <==> d.subagentNone)
  {
    StoredIsDocument(d, numerals);
    RulesListed(d.subagentRules, v);
    ListedRules(ReadRules(d.subagentRules), v);
    assert RulesJson([]) == List([]);
  }

  lemma ReadNumberMeans(text: string, numerals: Numerals, n: int)
    ensures ReadNumber(text, numerals) == Some(n) <==> n > 0 && !T.Blank(text) && numerals.read(T.Trim(text)) == Some(n)
  {
    T.TrimIsBlank(text);
  }

  /** A count is stored exactly when what was typed is read as a positive whole
      number. */
  lemma TypedCountsAreStored(d: Draft, numerals: Numerals, n: int)
    ensures var p := PolicyOr(Stored(d, numerals));
            && (p.maxRequestsPerHour == Some(Number(n)) <==>
                  n > 0 && !T.Blank(d.cap) && numerals.read(T.Trim(d.cap)) == Some(n))
            && (p.maxOutputTokens == Some(Number(n)) <==>
                  n > 0 && !T.Blank(d.ceiling) && numerals.read(T.Trim(d.ceiling)) == Some(n))
  {
    StoredIsDocument(d, numerals);
    ReadNumberMeans(d.cap, numerals, n);
    ReadNumberMeans(d.ceiling, numerals, n);
  }

  lemma GuardMeans(mode: string, chosen: string)
    ensures Guarded(ReadMode(chosen)) == Some(Record(map["mode" := Text(mode)])) <==> mode != "" && chosen == mode
  {
    if chosen != "" {
      assert Guarded(ReadMode(chosen)).value.fields["mode"] == Text(chosen);
    }
  }

  /** A guard is stored exactly when a mode was chosen. */
  lemma ChosenGuardsAreStored(d: Draft, numerals: Numerals, mode: string)
    ensures var p := PolicyOr(Stored(d, numerals));
            && (p.secretGuard == Some(Record(map["mode" := Text(mode)])) <==> mode != "" && d.secretGuard == mode)
            && (p.injectionGuard == Some(Record(map["mode" := Text(mode)])) <==> mode != "" && d.injectionGuard == mode)
  {
    StoredIsDocument(d, numerals);
    GuardMeans(mode, d.secretGuard);
    GuardMeans(mode, d.injectionGuard);
  }

  // ── What the form shows ─────────────────────────────────────────────────

  predicate TextUnder(v: Value, name: string, s: string)
    requires v.Record?
  {
    if name in v.fields && v.fields[name].Text? then s == v.fields[name].s else s == ""
  }

  predicate TextsUnder(v: Value, name: string, texts: seq<string>)
    requires v.Record?
  {
    if name in v.fields && v.fields[name].List? then texts == Strings(v.fields[name].items) else texts == []
  }

  /** A stored rule as a row: what is no text reads as nothing. */
  ghost predicate ShowsRule(v: Value, row: RuleDraft) {
    && v.Record? && TextUnder(v, "provider", row.provider)
    && exists models :: TextsUnder(v, "models", models) && row.models == T.Join(models, ", ")
  }

  ghost predicate ShowsWindow(v: Value, row: WindowDraft) {
    && v.Record? && TextsUnder(v, "days", row.days)
    && TextUnder(v, "start", row.start) && TextUnder(v, "end", row.end)
  }

  lemma RuleShown(v: Value, row: RuleDraft)
    ensures DraftRule(v) == Some(row) <==> ShowsRule(v, row)
  {
    if v.Record? {
      assert TextsUnder(v, "models", Strings(ItemsOf(Field(v, "models"))));
    }
  }

  lemma WindowShown(v: Value, row: WindowDraft)
    ensures DraftWindow(v) == Some(row) <==> ShowsWindow(v, row)
  {
  }

  lemma RowsShown(items: seq<Value>, row: RuleDraft)
    ensures row in DraftRules(items) <==> exists v :: v in items && ShowsRule(v, row)
  {
    if row in DraftRules(items) {
      var i :| 0 <= i < |DraftRules(items)| && DraftRules(items)[i] == row;
      var v := FilterMapFrom(items, DraftRule, i);
      RuleShown(v, row);
    }
    if v :| v in items && ShowsRule(v, row) {
      RuleShown(v, row);
      FilterMapHas(items, DraftRule, v);
    }
  }

  lemma WindowsShown(items: seq<Value>, row: WindowDraft)
    ensures row in DraftWindows(items) <==> exists v :: v in items && ShowsWindow(v, row)
  {
    if row in DraftWindows(items) {
      var i :| 0 <= i < |DraftWindows(items)| && DraftWindows(items)[i] == row;
      var v := FilterMapFrom(items, DraftWindow, i);
      WindowShown(v, row);
    }
    if v :| v in items && ShowsWindow(v, row) {
      WindowShown(v, row);
      FilterMapHas(items, DraftWindow, v);
    }
  }

  /** Of any stored policy, well shaped or not, the form has a row for every record
      of its lists and for nothing else, each part from its own key. */
  lemma FormShowsRows(p: Policy, numerals: Numerals, row: RuleDraft, window: WindowDraft)
    ensures var d := ToDraft(p, numerals);
            && (row in d.deny <==> exists v :: Among(p.deny, v) && ShowsRule(v, row))
            && (window in d.windows <==> exists v :: Among(p.windows, v) && ShowsWindow(v, window))
            && (row in d.subagentRules <==> exists v :: Among(p.subagentModels, v) && ShowsRule(v, row))
            && (d.subagentNone <==> p.subagentModels == Some(List([])))
  {
    forall v ensures (Among(p.deny, v) <==> v in ItemsOf(p.deny)) && (Among(p.windows, v) <==> v in ItemsOf(p.windows))
                     && (Among(p.subagentModels, v) <==> v in ItemsOf(p.subagentModels)) {
    }
    RowsShown(ItemsOf(p.deny), row);
    WindowsShown(ItemsOf(p.windows), window);
    RowsShown(ItemsOf(p.subagentModels), row);
  }

  lemma MoneyShown(n: nat, least: nat)
    ensures n >= least ==> Typed(ShowMoney(Some(Number(n)), least), n)
    ensures n < least ==> ShowMoney(Some(Number(n)), least) == ""
  {
    CentsOfDollars(n);
    TypedMeans(Dollars(n), n);
  }

  lemma ModeShown(mode: string, one: string, other: string)
    ensures ShowMode(Some(Record(map["mode" := Text(mode)])), one, other) == if mode in {one, other} then mode else ""
  {
    var guard := Record(map["mode" := Text(mode)]);
    assert TextField(guard, "mode") == mode;
  }

  /** Amounts are shown in dollars that read as the cents stored, an alert only from
      a cent on; counts as their numerals. */
  lemma FormShowsAmounts(p: Policy, numerals: Numerals, n: nat)
    ensures var d := ToDraft(p, numerals);
            && (p.subagentSessionCapCents == Some(Number(n)) ==> Typed(d.subagentCap, n))
            && (p.sessionAlertCents == Some(Number(n)) ==> if n == 0 then d.sessionAlert == "" else Typed(d.sessionAlert, n))
            && (p.maxRequestsPerHour == Some(Number(n)) ==> d.cap == numerals.show(n))
            && (p.maxOutputTokens == Some(Number(n)) ==> d.ceiling == numerals.show(n))
  {
    MoneyShown(n, 0);
    MoneyShown(n, 1);
  }

  /** A mode is shown only if the form offers it. */
  lemma FormShowsModes(p: Policy, numerals: Numerals, mode: string)
    ensures var d, guard := ToDraft(p, numerals), Some(Record(map["mode" := Text(mode)]));
            && (p.secretGuard == guard ==> d.secretGuard == if mode in {"block", "redact"} then mode else "")
            && (p.injectionGuard == guard ==> d.injectionGuard == if mode in {"monitor", "hold"} then mode else "")
  {
    ModeShown(mode, "block", "redact");
    ModeShown(mode, "monitor", "hold");
  }

  // ── The round trips ─────────────────────────────────────────────────────

  lemma {:induction false} RuleListSurvivesIff(rules: Option<seq<Rule>>)
    ensures Listed(ReadRules(DraftRules(ItemsOf(Ruled(rules))))) == rules
            <==> (rules.Some? ==> rules.value != [] && RulesInForm(rules.value))
  {
    if rules.Some? { RulesSurviveIff(rules.value); }
  }

  lemma {:induction false} WindowListSurvivesIff(windows: Option<seq<Window>>)
    ensures Listed(ReadWindows(DraftWindows(ItemsOf(Windowed(windows)))))
            == windows
            <==> (windows.Some? ==> windows.value != [] && WindowsInForm(windows.value))
  {
    if windows.Some? { WindowsSurviveIff(windows.value); }
  }

  lemma {:induction false} NoModelReadsBack(rules: Option<seq<Rule>>)
    ensures Ruled(rules) == Some(List([])) <==> rules == Some([])
  {
    if rules.Some? { assert |RulesJson(rules.value).items| == |rules.value|; }
  }

  /** "No model at all" is stored as the empty list, and nothing else is. */
  lemma {:induction false} NoModelIffChosen(d: Draft)
    ensures ReadSubagents(d) == Some([]) <==> d.subagentNone
  {
  }

  lemma {:induction false} SurvivesFieldByField(again: Doc, doc: Doc)
    requires again.deny == doc.deny <==> (doc.deny.Some? ==> doc.deny.value != [] && RulesInForm(doc.deny.value))
    requires again.windows == doc.windows
             <==> (doc.windows.Some? ==> doc.windows.value != [] && WindowsInForm(doc.windows.value))
    requires again.cap == doc.cap <==> CountInForm(doc.cap)
    requires again.ceiling == doc.ceiling <==> CountInForm(doc.ceiling)
    requires again.subagents == doc.subagents <==> (doc.subagents.Some? ==> RulesInForm(doc.subagents.value))
    requires again.subagentCap == doc.subagentCap <==> CentsInForm(doc.subagentCap, 0)
    requires again.sessionAlert == doc.sessionAlert <==> CentsInForm(doc.sessionAlert, 1)
    requires again.secretGuard == doc.secretGuard <==> ModeInForm(doc.secretGuard, "block", "redact")
    requires again.injectionGuard == doc.injectionGuard <==> ModeInForm(doc.injectionGuard, "monitor", "hold")
    ensures again == doc <==> InForm(doc)
  {
  }

  /** Opening a policy in the form and saving it untouched stores the same
      policy exactly when the form can spell it. */
  lemma {:induction false} DocumentSurvivesIff(doc: Doc, numerals: Numerals)
    requires SafeNumbers(doc) && Faithful(numerals)
    ensures ReadDraft(ToDraft(Document(doc), numerals), numerals) == doc <==> InForm(doc)
  {
    NumberSurvivesIff(doc.cap, numerals);
    NumberSurvivesIff(doc.ceiling, numerals);
    MoneySurvivesIff(doc.subagentCap, 0);
    MoneySurvivesIff(doc.sessionAlert, 1);
    RuleListSurvivesIff(doc.deny);
    WindowListSurvivesIff(doc.windows);
    RuleListSurvivesIff(doc.subagents);
    NoModelReadsBack(doc.subagents);
    NoModelIffChosen(ToDraft(Document(doc), numerals));
    ModeSurvivesIff(doc.secretGuard, "block", "redact");
    ModeSurvivesIff(doc.injectionGuard, "monitor", "hold");
    SurvivesFieldByField(ReadDraft(ToDraft(Document(doc), numerals), numerals), doc);
  }

  predicate KnownModes(d: Draft) {
    && (d.secretGuard == "" || d.secretGuard == "block" || d.secretGuard == "redact")
    && (d.injectionGuard == "" || d.injectionGuard == "monitor" || d.injectionGuard == "hold")
  }

  lemma {:induction false} ReadDraftIsInForm(d: Draft, numerals: Numerals)
    requires Faithful(numerals) && KnownModes(d)
    ensures InForm(ReadDraft(d, numerals)) && SafeNumbers(ReadDraft(d, numerals))
  {
    ReadRulesInForm(d.deny);
    ReadRulesInForm(d.subagentRules);
    ReadWindowsInForm(d.windows);
  }

  /** Whatever was typed, what was stored is stored again unchanged: saving,
      reopening and saving changes nothing. */
  lemma {:induction false} SavingTwiceChangesNothing(d: Draft, numerals: Numerals)
    requires Faithful(numerals) && KnownModes(d)
    ensures ReadDraft(ToDraft(Document(ReadDraft(d, numerals)), numerals), numerals) == ReadDraft(d, numerals)
  {
    ReadDraftIsInForm(d, numerals);
    DocumentSurvivesIff(ReadDraft(d, numerals), numerals);
  }

  /** What opening and saving stores in place of a policy. */
  function Resaved(p: Policy, numerals: Numerals): Option<Policy> {
    Stored(ToDraft(p, numerals), numerals)
  }

  method OpenAndSave(p: Policy, numerals: Numerals) returns (stored: Option<Policy>)
    ensures stored == Resaved(p, numerals)
  {
    stored := ToPolicy(ToDraft(p, numerals), numerals);
  }

  /** Of every stored policy, whatever shape its parts have: it survives exactly
      when it is a document, not a blank one, that the form can spell. */
  lemma {:induction false} PolicySurvivesIff(p: Policy, numerals: Numerals)
    requires Faithful(numerals)
    ensures Resaved(p, numerals) == Some(p) <==>
            exists doc :: doc != BLANK && InForm(doc) && SafeNumbers(doc) && p == Document(doc)
  {
    var again := ReadDraft(ToDraft(p, numerals), numerals);
    assert KnownModes(ToDraft(p, numerals));
    ReadDraftIsInForm(ToDraft(p, numerals), numerals);
    if doc :| doc != BLANK && InForm(doc) && SafeNumbers(doc) && p == Document(doc) {
      DocumentSurvivesIff(doc, numerals);
    }
  }

  /** A first draft starts from the live policy, so promoting it drops nothing
      of it that the form can spell. */
  method SaveFirstDraft(doc: Doc, numerals: Numerals) returns (stored: Option<Policy>)
    requires Faithful(numerals) && SafeNumbers(doc) && InForm(doc)
    ensures stored == if doc == BLANK then None else Some(Document(doc))
  {
    var d := InitialDraft(None, Some(Document(doc)), true, numerals);
    assert d == ToDraft(Document(doc), numerals);
    DocumentSurvivesIff(doc, numerals);
    stored := ToPolicy(d, numerals);
  }

  /** A draft on file is what is opened, whatever the live policy is: saving it
      untouched stores that draft. */
  method SaveDraftOnFile(draft: Doc, live: Option<Policy>, liveReadable: bool, numerals: Numerals)
    returns (stored: Option<Policy>)
    requires Faithful(numerals) && SafeNumbers(draft) && InForm(draft)
    ensures stored == if draft == BLANK then None else Some(Document(draft))
  {
    var d := InitialDraft(Some(Document(draft)), live, liveReadable, numerals);
    DocumentSurvivesIff(draft, numerals);
    stored := ToPolicy(d, numerals);
  }

  /** Over a live policy the gateway cannot read it starts blank, so saving it
      untouched stores nothing. */
  method SaveUncopiedDraft(live: Option<Policy>, numerals: Numerals) returns (stored: Option<Policy>)
    requires Faithful(numerals)
    ensures stored == None
  {
    var d := InitialDraft(None, live, false, numerals);
    assert Document(BLANK) == NO_KEYS;
    DocumentSurvivesIff(BLANK, numerals);
    stored := ToPolicy(d, numerals);
  }

  /** A rule the form shows but cannot read back: its provider is white space, or
      each of its models is white space and commas, if it has any. */
  predicate Unspeakable(rule: Rule) {
    T.Blank(rule.provider) || forall i :: 0 <= i < |rule.models| ==> T.NamesNothing(rule.models[i])
  }

  lemma UnspeakableIsLost(rule: Rule)
    ensures ReadRule(DraftOf(rule)).None? <==> Unspeakable(rule)
  {
    T.TrimIsBlank(rule.provider);
    T.ParsesToNothing(T.Join(rule.models, ", "));
    T.JoinNamesNothing(rule.models);
  }

  lemma {:induction false} RulesLostIff(rules: seq<Rule>)
    ensures ReadRules(DraftsOf(rules)) == [] <==> forall i :: 0 <= i < |rules| ==> Unspeakable(rules[i])
  {
    var drafts := DraftsOf(rules);
    forall i | 0 <= i < |rules| ensures ReadRule(drafts[i]).None? <==> Unspeakable(rules[i]) {
      assert drafts[i] == DraftOf(rules[i]);
      UnspeakableIsLost(rules[i]);
    }
    FilterMapEmptyVia(drafts, ReadRule, rules, Unspeakable);
  }

  lemma {:induction false} SubagentsLostIff(d: Draft, rules: seq<Rule>)
    requires d.subagentNone <==> rules == []
    requires d.subagentRules == DraftsOf(rules)
    ensures ReadSubagents(d).None? <==> rules != [] && forall i :: 0 <= i < |rules| ==> Unspeakable(rules[i])
  {
    RulesLostIff(rules);
  }

  /** What the form cannot spell it drops. A sub-agent list whose every rule
      names no model, or no provider, allows sub-agents nothing; opened and
      saved untouched it is gone, and sub-agents are not restricted at all.
      Exactly these lists are lost whole. */
  lemma {:induction false} SubagentLimitLostIff(doc: Doc, numerals: Numerals)
    requires doc.subagents.Some?
    ensures ReadDraft(ToDraft(Document(doc), numerals), numerals).subagents.None? <==>
            doc.subagents.value != [] && forall i :: 0 <= i < |doc.subagents.value| ==> Unspeakable(doc.subagents.value[i])
  {
    NoModelReadsBack(doc.subagents);
    DraftRulesOfJson(doc.subagents.value);
    SubagentsLostIff(ToDraft(Document(doc), numerals), doc.subagents.value);
  }
}
