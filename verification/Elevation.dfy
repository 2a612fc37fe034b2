/** Elevations over time: taking one, ending it, the sweep, the clock, and the
    visas minted meanwhile, each carrying a snapshot of the scope it was minted
    with (lib/fleet.ts, lib/reconcile.ts, app/api/auth/challenge/route.ts). */
module Elevation {
  import opened Lists
  import opened Json
  import opened Scope
  import opened ScopeUnion
  import opened BreakGlass
  import T = Text

  const MIN_TTL_S := 60
  const MAX_TTL_S := 60 * 60
  const REASON_MAX := 500
  const MAX_VISA_TTL_S := 900

  datatype Agent = Agent(user: string, active: bool, allowed: Value)

  /** Times in milliseconds, except the visa's expiry claim, in whole seconds. */
  datatype Visa = Visa(
    agent: string, user: string, mintedAt: nat, expiresAtS: nat,
    stored: seq<Value>, scope: seq<ScopeEntry>)

  datatype State = State(
    now: nat, visaTtlS: nat, agents: map<string, Agent>, grants: seq<GrantRow>, visas: seq<Visa>)

  datatype Request = Request(user: string, agent: string, scopes: Value, reason: string, ttlS: int)

  datatype Step =
    | Take(ask: Request)
    | End(user: string, agent: string)
    | Sweep
    | Wait(ms: nat)
    | Mint(agent: string, answered: bool)
    | Rescope(agent: string, allowed: Value)
    | SetActive(agent: string, active: bool)

  function Stored(a: Agent): seq<Value> {
    if a.allowed.List? then a.allowed.items else []
  }

  // ── Taking an elevation ─────────────────────────────────────────────────

  datatype Verdict = InvalidRequest | NotFound | NotActive | GrantExists | Granted(row: GrantRow)

  /** The one-unrevoked-row-per-agent index, which cannot see expiry. */
  predicate SlotTaken(grants: seq<GrantRow>, agent: string) {
    exists i :: 0 <= i < |grants| && grants[i].agent == agent && grants[i].revokedAt.None?
  }

  /** Everything the door checks before it writes the row. */
  function Asked(now: nat, agents: map<string, Agent>, ask: Request): Verdict {
    var valid := ValidateScopes(ask.scopes);
    if valid.None? || valid.value == [] then InvalidRequest
    else if !(1 <= |T.Trim(ask.reason)| <= REASON_MAX) then InvalidRequest
    else if !(MIN_TTL_S <= ask.ttlS <= MAX_TTL_S) then InvalidRequest
    else if ask.agent !in agents || agents[ask.agent].user != ask.user then NotFound
    else if !agents[ask.agent].active then NotActive
    else if !WithinBounds(Union(Readable(Stored(agents[ask.agent])) + valid.value)) then InvalidRequest
    else Granted(GrantRow(ask.user, ask.agent, List(DocumentJson(valid.value)), T.Trim(ask.reason),
                          now + ask.ttlS * 1000, now, None))
  }

  /** What the index then says to the row. */
  function Answer(grants: seq<GrantRow>, asked: Verdict): Verdict {
    if asked.Granted? && SlotTaken(grants, asked.row.agent) then GrantExists else asked
  }

  function TakeVerdict(st: State, ask: Request): Verdict {
    Answer(st.grants, Asked(st.now, st.agents, ask))
  }

  // ── Steps ───────────────────────────────────────────────────────────────

  function Ended(g: GrantRow, user: string, agent: string, now: nat): GrantRow {
    if g.user == user && g.agent == agent && g.revokedAt.None? then g.(revokedAt := Some(now)) else g
  }

  function Swept(g: GrantRow, now: nat): GrantRow {
    if g.revokedAt.None? && g.expiresAt < now then g.(revokedAt := Some(now)) else g
  }

  function EndRows(grants: seq<GrantRow>, user: string, agent: string, now: nat): seq<GrantRow> {
    seq(|grants|, i requires 0 <= i < |grants| => Ended(grants[i], user, agent, now))
  }

  function SweepRows(grants: seq<GrantRow>, now: nat): seq<GrantRow> {
    seq(|grants|, i requires 0 <= i < |grants| => Swept(grants[i], now))
  }

  function Inserted(grants: seq<GrantRow>, verdict: Verdict): seq<GrantRow> {
    if verdict.Granted? then grants + [verdict.row] else grants
  }

  function Elevated(st: State, agent: string, answered: bool): seq<ScopeEntry>
    requires agent in st.agents
  {
    var live := ReadLiveGrant(st.grants, st.agents[agent].user, agent, st.now, answered);
    if live.Some? then live.value.scopes else []
  }

  function MintedVisa(st: State, agent: string, answered: bool): Visa
    requires agent in st.agents
  {
    var a := st.agents[agent];
    Visa(agent, a.user, st.now, st.now / 1000 + st.visaTtlS, Stored(a),
         Union(Readable(Stored(a)) + Elevated(st, agent, answered)))
  }

  function Next(st: State, step: Step): State {
    match step
    case Take(ask) => st.(grants := Inserted(st.grants, TakeVerdict(st, ask)))
    case End(user, agent) => st.(grants := EndRows(st.grants, user, agent, st.now))
    case Sweep => st.(grants := SweepRows(st.grants, st.now))
    case Wait(ms) => st.(now := st.now + ms)
    case Mint(agent, answered) =>
      if agent in st.agents && st.agents[agent].active
      then st.(visas := st.visas + [MintedVisa(st, agent, answered)])
      else st
    case Rescope(agent, allowed) =>
      if agent in st.agents then st.(agents := st.agents[agent := st.agents[agent].(allowed := allowed)]) else st
    case SetActive(agent, active) =>
      if agent in st.agents then st.(agents := st.agents[agent := st.agents[agent].(active := active)]) else st
  }

  function Run(st: State, steps: seq<Step>): State
    decreases |steps|
  {
    if steps == [] then st else Run(Next(st, steps[0]), steps[1..])
  }

  /** The proxy gates on the snapshot in the token and never re-reads the table. */
  predicate Authorised(st: State, v: Visa, provider: string, model: string) {
    st.now / 1000 < v.expiresAtS && Allows(v.scope, provider, model)
  }

  // ── What every run keeps ────────────────────────────────────────────────

  ghost predicate WasLiveAt(g: GrantRow, agent: string, user: string, t: nat) {
    && g.agent == agent && g.user == user
    && g.createdAt <= t < g.expiresAt
    && (g.revokedAt.Some? ==> t <= g.revokedAt.value)
  }

  ghost predicate ElevatedBy(grants: seq<GrantRow>, i: int, v: Visa) {
    && 0 <= i < |grants|
    && WasLiveAt(grants[i], v.agent, v.user, v.mintedAt)
    && v.scope == Union(Readable(v.stored) + GrantScopes(grants[i].scopes))
  }

  /** Every visa is the stored scope of its minting, or that and a grant which
      was live at that moment. */
  ghost predicate Accounted(grants: seq<GrantRow>, v: Visa) {
    v.scope == Union(Readable(v.stored)) || exists i :: ElevatedBy(grants, i, v)
  }

  ghost predicate RowInOrder(g: GrantRow, now: nat) {
    && 0 <= g.createdAt <= now
    && g.createdAt < g.expiresAt <= g.createdAt + MAX_TTL_S * 1000
    && (g.revokedAt.Some? ==> g.createdAt <= g.revokedAt.value <= now)
  }

  ghost predicate OneOpenPerAgent(grants: seq<GrantRow>) {
    forall i, j :: 0 <= i < j < |grants| && grants[i].agent == grants[j].agent ==>
      grants[i].revokedAt.Some? || grants[j].revokedAt.Some?
  }

  ghost predicate GrantsInOrder(grants: seq<GrantRow>, now: nat) {
    OneOpenPerAgent(grants) && forall i :: 0 <= i < |grants| ==> RowInOrder(grants[i], now)
  }

  ghost predicate VisaInOrder(st: State, v: Visa) {
    v.mintedAt <= st.now && v.expiresAtS == v.mintedAt / 1000 + st.visaTtlS && Accounted(st.grants, v)
  }

  ghost predicate Inv(st: State) {
    && st.visaTtlS <= MAX_VISA_TTL_S
    && GrantsInOrder(st.grants, st.now)
    && forall k :: 0 <= k < |st.visas| ==> VisaInOrder(st, st.visas[k])
  }

  ghost predicate Initial(st: State) {
    st.visaTtlS <= MAX_VISA_TTL_S && st.grants == [] && st.visas == []
  }

  /** Rows are only added, and only ever closed, at the current time. */
  ghost predicate Extends(before: seq<GrantRow>, after: seq<GrantRow>, now: nat) {
    && |before| <= |after|
    && forall i :: 0 <= i < |before| ==>
         after[i] == before[i] || (before[i].revokedAt.None? && after[i] == before[i].(revokedAt := Some(now)))
  }

  lemma AccountedStays(before: seq<GrantRow>, after: seq<GrantRow>, now: nat, v: Visa)
    requires Extends(before, after, now) && v.mintedAt <= now && Accounted(before, v)
    ensures Accounted(after, v)
  {
    if v.scope != Union(Readable(v.stored)) {
      var i :| ElevatedBy(before, i, v);
      assert ElevatedBy(after, i, v);
    }
  }

  lemma MintIsAccounted(st: State, agent: string, answered: bool)
    requires Inv(st) && agent in st.agents
    ensures VisaInOrder(st, MintedVisa(st, agent, answered))
  {
    var v, user := MintedVisa(st, agent, answered), st.agents[agent].user;
    var live := ReadLiveGrant(st.grants, user, agent, st.now, answered);
    if live.None? {
      assert Readable(v.stored) + [] == Readable(v.stored);
    } else {
      var row := LatestLive(st.grants, user, agent, st.now).value;
      var i :| 0 <= i < |st.grants| && st.grants[i] == row;
      assert RowInOrder(st.grants[i], st.now);
      assert ElevatedBy(st.grants, i, v);
    }
  }

  lemma GrantsOnlyExtend(st: State, step: Step)
    ensures Extends(st.grants, Next(st, step).grants, st.now)
  {
  }

  lemma NewRowIsInOrder(st: State, ask: Request)
    requires TakeVerdict(st, ask).Granted?
    ensures RowInOrder(TakeVerdict(st, ask).row, st.now) && !SlotTaken(st.grants, TakeVerdict(st, ask).row.agent)
  {
  }

  lemma ExtendedStaysInOrder(before: seq<GrantRow>, after: seq<GrantRow>, now: nat, later: nat)
    requires GrantsInOrder(before, now) && Extends(before, after, now) && now <= later
    requires |after| <= |before| + 1
    requires |after| > |before| ==> RowInOrder(after[|before|], later) && !SlotTaken(before, after[|before|].agent)
    ensures GrantsInOrder(after, later)
  {
    forall i | 0 <= i < |before| ensures RowInOrder(after[i], later) {
      assert RowInOrder(before[i], now);
    }
  }

  lemma GrantsStayInOrder(st: State, step: Step)
    requires GrantsInOrder(st.grants, st.now)
    ensures GrantsInOrder(Next(st, step).grants, Next(st, step).now)
    ensures Extends(st.grants, Next(st, step).grants, st.now)
  {
    GrantsOnlyExtend(st, step);
    if step.Take? && TakeVerdict(st, step.ask).Granted? {
      NewRowIsInOrder(st, step.ask);
    }
    ExtendedStaysInOrder(st.grants, Next(st, step).grants, st.now, Next(st, step).now);
  }

  lemma StepKeepsInv(st: State, step: Step)
    requires Inv(st)
    ensures Inv(Next(st, step))
  {
    GrantsStayInOrder(st, step);
    var after := Next(st, step);
    forall k | 0 <= k < |after.visas| ensures VisaInOrder(after, after.visas[k]) {
      if k < |st.visas| {
        assert VisaInOrder(st, st.visas[k]);
        AccountedStays(st.grants, after.grants, st.now, st.visas[k]);
      } else {
        MintIsAccounted(st, step.agent, step.answered);
      }
    }
  }

  lemma {:induction false} RunKeepsInv(st: State, steps: seq<Step>)
    requires Inv(st)
    ensures Inv(Run(st, steps)) && Run(st, steps).visaTtlS == st.visaTtlS
    decreases |steps|
  {
    if steps != [] {
      StepKeepsInv(st, steps[0]);
      RunKeepsInv(Next(st, steps[0]), steps[1..]);
    }
  }

  // ── Elevated reach is bounded ───────────────────────────────────────────

  /** The grant that explains a call the stored scope did not allow. */
  ghost predicate Explains(g: GrantRow, st: State, v: Visa, provider: string, model: string) {
    && WasLiveAt(g, v.agent, v.user, v.mintedAt)
    && Allows(GrantScopes(g.scopes), provider, model)
    && st.now < v.mintedAt + st.visaTtlS * 1000
    && st.now < g.expiresAt + st.visaTtlS * 1000
    && (g.revokedAt.Some? ==> st.now < g.revokedAt.value + st.visaTtlS * 1000)
    && st.now < g.createdAt + 4500 * 1000
  }

  /** In every run: a call the agent's own scope did not allow at minting is
      carried by a visa younger than one visa lifetime, minted while a grant of
      this agent and this tenant covering the call was unrevoked and unexpired.
      So elevated reach ends one visa lifetime after the grant's end, expiry or
      revocation alike, and never outlasts an hour and a quarter. */
  lemma ElevatedCallsAreExplained(start: State, steps: seq<Step>, k: nat, provider: string, model: string)
    requires Initial(start)
    requires k < |Run(start, steps).visas|
    requires var st := Run(start, steps);
             && Authorised(st, st.visas[k], provider, model)
             && !Allows(Readable(st.visas[k].stored), provider, model)
    ensures var st := Run(start, steps);
            exists g :: g in st.grants && Explains(g, st, st.visas[k], provider, model)
  {
    RunKeepsInv(start, steps);
    var st := Run(start, steps);
    var v := st.visas[k];
    assert VisaInOrder(st, v);
    if v.scope == Union(Readable(v.stored)) {
      assert Readable(v.stored) + [] == Readable(v.stored);
      UnionNeverWidens(Readable(v.stored), [], provider, model);
      assert false;
    } else {
      var i :| ElevatedBy(st.grants, i, v);
      var g := st.grants[i];
      UnionNeverWidens(Readable(v.stored), GrantScopes(g.scopes), provider, model);
      assert RowInOrder(g, st.now);
      assert st.now / 1000 < v.mintedAt / 1000 + st.visaTtlS;
      assert g in st.grants && Explains(g, st, v, provider, model);
    }
  }

  // ── Ending one ──────────────────────────────────────────────────────────

  predicate Of(g: GrantRow, user: string, agent: string) {
    g.user == user && g.agent == agent
  }

  ghost predicate NothingOpen(grants: seq<GrantRow>, user: string, agent: string) {
    forall i :: 0 <= i < |grants| && Of(grants[i], user, agent) ==> grants[i].revokedAt.Some?
  }

  /** Ending closes, now, every open row of this agent and this tenant; a row
      already closed keeps its time, and no other row changes. */
  lemma EndCloses(st: State, user: string, agent: string)
    ensures var grants := Next(st, End(user, agent)).grants;
            && |grants| == |st.grants|
            && forall i :: 0 <= i < |grants| ==>
                 if Of(st.grants[i], user, agent) && st.grants[i].revokedAt.None?
                 then grants[i] == st.grants[i].(revokedAt := Some(st.now))
                 else grants[i] == st.grants[i]
    ensures Next(st, End(user, agent)) == st.(grants := Next(st, End(user, agent)).grants)
  {
  }

  lemma NothingOpenReadsNothing(grants: seq<GrantRow>, user: string, agent: string, t: int, answered: bool)
    requires NothingOpen(grants, user, agent)
    ensures ReadLiveGrant(grants, user, agent, t, answered) == None
  {
    forall g | g in grants ensures !IsLive(g, user, agent, t) {
      var i :| 0 <= i < |grants| && grants[i] == g;
      assert Of(grants[i], user, agent) ==> grants[i].revokedAt.Some?;
    }
  }

  /** Rows of other agents or tenants decide the other reads, and they stay. */
  lemma {:induction false} OthersReadTheSame(a: seq<GrantRow>, b: seq<GrantRow>, user: string, agent: string, t: int)
    requires |a| == |b| && forall i :: 0 <= i < |a| ==> (Of(a[i], user, agent) || Of(b[i], user, agent) ==> a[i] == b[i])
    ensures LatestLive(a, user, agent, t) == LatestLive(b, user, agent, t)
  {
    if a != [] {
      OthersReadTheSame(a[..|a| - 1], b[..|b| - 1], user, agent, t);
    }
  }

  /** After it the agent has no live grant of this tenant's, then or later; every
      other read is what it was; and the slot is free unless another tenant's row
      holds it. */
  lemma EndEnds(st: State, user: string, agent: string, otherUser: string, otherAgent: string, t: int, answered: bool)
    ensures var grants := Next(st, End(user, agent)).grants;
            && NothingOpen(grants, user, agent)
            && ReadLiveGrant(grants, user, agent, t, answered) == None
            && ((otherUser, otherAgent) != (user, agent) ==>
                  ReadLiveGrant(grants, otherUser, otherAgent, t, answered)
                  == ReadLiveGrant(st.grants, otherUser, otherAgent, t, answered))
            && (SlotTaken(grants, agent) <==>
                  exists i :: 0 <= i < |st.grants| && st.grants[i].agent == agent && st.grants[i].user != user
                              && st.grants[i].revokedAt.None?)
  {
    EndCloses(st, user, agent);
    var grants := Next(st, End(user, agent)).grants;
    NothingOpenReadsNothing(grants, user, agent, t, answered);
    if (otherUser, otherAgent) != (user, agent) {
      OthersReadTheSame(st.grants, grants, otherUser, otherAgent, t);
    }
    if i :| 0 <= i < |st.grants| && st.grants[i].agent == agent && st.grants[i].user != user && st.grants[i].revokedAt.None? {
      assert grants[i] == st.grants[i];
    }
    if SlotTaken(grants, agent) {
      var i :| 0 <= i < |grants| && grants[i].agent == agent && grants[i].revokedAt.None?;
      assert st.grants[i].user != user;
    }
  }

  /** No attempt to elevate this agent of this tenant's succeeds. */
  predicate NoneTaken(st: State, steps: seq<Step>, user: string, agent: string)
    decreases |steps|
  {
    steps == [] ||
    (&& (steps[0].Take? && steps[0].ask.user == user && steps[0].ask.agent == agent ==>
           !TakeVerdict(st, steps[0].ask).Granted?)
     && NoneTaken(Next(st, steps[0]), steps[1..], user, agent))
  }

  lemma StepKeepsEnded(st: State, step: Step, user: string, agent: string)
    requires NothingOpen(st.grants, user, agent)
    requires step.Take? && step.ask.user == user && step.ask.agent == agent ==> !TakeVerdict(st, step.ask).Granted?
    ensures NothingOpen(Next(st, step).grants, user, agent)
  {
    GrantsOnlyExtend(st, step);
    var before, after := st.grants, Next(st, step).grants;
    forall i | 0 <= i < |after| && Of(after[i], user, agent) ensures after[i].revokedAt.Some? {
      if i < |before| {
        assert Of(before[i], user, agent);
      }
    }
  }

  /** A visa whose scope is the stored one, merged, allows nothing more. */
  predicate PlainVisa(v: Visa) {
    v.scope == Union(Readable(v.stored))
  }

  lemma EndedMintsPlain(st: State, user: string, agent: string, answered: bool)
    requires NothingOpen(st.grants, user, agent) && agent in st.agents && st.agents[agent].user == user
    ensures PlainVisa(MintedVisa(st, agent, answered))
  {
    NothingOpenReadsNothing(st.grants, user, agent, st.now, answered);
    assert Readable(Stored(st.agents[agent])) + [] == Readable(Stored(st.agents[agent]));
  }

  lemma {:induction false} EndedUntilTaken(st: State, steps: seq<Step>, user: string, agent: string, k: nat)
    requires NothingOpen(st.grants, user, agent) && NoneTaken(st, steps, user, agent)
    requires agent in st.agents && st.agents[agent].user == user
    requires |st.visas| <= k < |Run(st, steps).visas| && Run(st, steps).visas[k].agent == agent
    ensures PlainVisa(Run(st, steps).visas[k])
    decreases |steps|
  {
    var next := Next(st, steps[0]);
    StepKeepsEnded(st, steps[0], user, agent);
    if k < |next.visas| {
      EndedMintsPlain(st, user, agent, steps[0].answered);
      VisasStay(next, steps[1..], k);
    } else {
      EndedUntilTaken(next, steps[1..], user, agent, k);
    }
  }

  lemma {:induction false} VisasStay(st: State, steps: seq<Step>, k: nat)
    requires k < |st.visas|
    ensures k < |Run(st, steps).visas| && Run(st, steps).visas[k] == st.visas[k]
    decreases |steps|
  {
    if steps != [] {
      VisasStay(Next(st, steps[0]), steps[1..], k);
    }
  }

  /** Once an elevation is ended, and until the next is taken, no visa minted for
      the agent allows a call its stored scope did not. */
  lemma EndedElevationMintsNothing(st: State, user: string, agent: string, steps: seq<Step>, k: nat,
                                   provider: string, model: string)
    requires agent in st.agents && st.agents[agent].user == user
    requires var ended := Next(st, End(user, agent));
             && NoneTaken(ended, steps, user, agent)
             && |st.visas| <= k < |Run(ended, steps).visas| && Run(ended, steps).visas[k].agent == agent
             && Allows(Run(ended, steps).visas[k].scope, provider, model)
    ensures Allows(Readable(Run(Next(st, End(user, agent)), steps).visas[k].stored), provider, model)
  {
    var ended := Next(st, End(user, agent));
    EndEnds(st, user, agent, user, agent, st.now, true);
    EndedUntilTaken(ended, steps, user, agent, k);
    var v := Run(ended, steps).visas[k];
    assert Readable(v.stored) + [] == Readable(v.stored);
    UnionNeverWidens(Readable(v.stored), [], provider, model);
  }

  /** Without a live grant, a visa minted over a stored document allows what the
      document does, but for the one shadowed case. */
  lemma StoredScopeIsMinted(st: State, agent: string, answered: bool, rows: seq<ScopeEntry>, provider: string, model: string)
    requires agent in st.agents && st.agents[agent].allowed == List(DocumentJson(rows))
    requires ReadLiveGrant(st.grants, st.agents[agent].user, agent, st.now, answered).None?
    ensures (Allows(MintedVisa(st, agent, answered).scope, provider, model) <==> Allows(rows, provider, model)) <==>
            !(model == "" && ShadowedByEmptyPattern(rows, provider))
  {
    DocumentReadsBack(rows);
    assert rows + [] == rows;
    UnionMeaning(rows, [], provider, model);
    assert !Allows([], provider, model);
  }

  // ── Minting ─────────────────────────────────────────────────────────────

  /** A mint adds one visa, of now, for an agent that is active, and otherwise does
      nothing. */
  lemma MintAdds(st: State, agent: string, answered: bool)
    ensures var next := Next(st, Mint(agent, answered));
            if agent in st.agents && st.agents[agent].active then
              && |next.visas| == |st.visas| + 1 && next == st.(visas := next.visas)
              && (forall k :: 0 <= k < |st.visas| ==> next.visas[k] == st.visas[k])
              && (var v := next.visas[|st.visas|];
                  && v.agent == agent && v.user == st.agents[agent].user
                  && v.mintedAt == st.now && v.expiresAtS == st.now / 1000 + st.visaTtlS
                  && (st.agents[agent].allowed.List? ==> v.stored == st.agents[agent].allowed.items))
            else next == st
  {
  }

  predicate Suspended(st: State, agent: string) {
    agent in st.agents ==> !st.agents[agent].active
  }

  predicate NoReactivation(steps: seq<Step>, agent: string) {
    forall i :: 0 <= i < |steps| ==> steps[i] != SetActive(agent, true)
  }

  lemma {:induction false} SuspendedUntilReactivated(st: State, steps: seq<Step>, agent: string, k: nat)
    requires Suspended(st, agent) && NoReactivation(steps, agent)
    requires |st.visas| <= k < |Run(st, steps).visas|
    ensures Run(st, steps).visas[k].agent != agent
    decreases |steps|
  {
    var next := Next(st, steps[0]);
    assert steps[0] != SetActive(agent, true);
    assert Suspended(next, agent);
    if k < |next.visas| {
      VisasStay(next, steps[1..], k);
    } else {
      SuspendedUntilReactivated(next, steps[1..], agent, k);
    }
  }

  /** From its suspension until it is reactivated no visa is minted for an agent,
      and the next mint after that adds one. */
  lemma SuspensionStopsMinting(st: State, agent: string, steps: seq<Step>, k: nat, answered: bool)
    requires agent in st.agents
    ensures var suspended := Next(st, SetActive(agent, false));
            NoReactivation(steps, agent) && |st.visas| <= k < |Run(suspended, steps).visas| ==>
              Run(suspended, steps).visas[k].agent != agent
    ensures var minted := Next(Next(st, SetActive(agent, true)), Mint(agent, answered));
            |minted.visas| == |st.visas| + 1 && minted.visas[|st.visas|].agent == agent
  {
    var suspended := Next(st, SetActive(agent, false));
    if NoReactivation(steps, agent) && |st.visas| <= k < |Run(suspended, steps).visas| {
      SuspendedUntilReactivated(suspended, steps, agent, k);
    }
    MintAdds(Next(st, SetActive(agent, true)), agent, answered);
  }

  predicate NoRescope(steps: seq<Step>, agent: string) {
    forall i :: 0 <= i < |steps| ==> !(steps[i].Rescope? && steps[i].agent == agent)
  }

  lemma {:induction false} StoredUntilRescoped(st: State, steps: seq<Step>, agent: string, items: seq<Value>, k: nat)
    requires agent in st.agents && st.agents[agent].allowed == List(items) && NoRescope(steps, agent)
    requires |st.visas| <= k < |Run(st, steps).visas| && Run(st, steps).visas[k].agent == agent
    ensures Run(st, steps).visas[k].stored == items
    decreases |steps|
  {
    var next := Next(st, steps[0]);
    assert !(steps[0].Rescope? && steps[0].agent == agent);
    if k < |next.visas| {
      VisasStay(next, steps[1..], k);
    } else {
      StoredUntilRescoped(next, steps[1..], agent, items, k);
    }
  }

  /** From a change of its scope until the next, every visa minted for an agent is
      minted over that scope. */
  lemma RescopeIsMinted(st: State, agent: string, items: seq<Value>, steps: seq<Step>, k: nat)
    requires agent in st.agents && NoRescope(steps, agent)
    requires var rescoped := Next(st, Rescope(agent, List(items)));
             |st.visas| <= k < |Run(rescoped, steps).visas| && Run(rescoped, steps).visas[k].agent == agent
    ensures Run(Next(st, Rescope(agent, List(items))), steps).visas[k].stored == items
  {
    StoredUntilRescoped(Next(st, Rescope(agent, List(items))), steps, agent, items, k);
  }

  // ── While one is live ───────────────────────────────────────────────────

  ghost predicate OpenAt(grants: seq<GrantRow>, i: nat, row: GrantRow) {
    i < |grants| && grants[i] == row && row.revokedAt.None?
  }

  /** Of one agent there is no other. */
  lemma OpenRowIsRead(st: State, i: nat, row: GrantRow)
    requires Inv(st) && OpenAt(st.grants, i, row)
    ensures LatestLive(st.grants, row.user, row.agent, st.now) == if st.now < row.expiresAt then Some(row) else None
  {
    var live := LatestLive(st.grants, row.user, row.agent, st.now);
    if live.Some? {
      var j :| 0 <= j < |st.grants| && st.grants[j] == live.value;
      assert j == i;
    }
    assert st.grants[i] in st.grants;
  }

  /** An open elevation that names a model is read up to its expiry and no longer. */
  lemma LapsesOnTime(st: State, i: nat, row: GrantRow, ms: nat)
    requires Inv(st) && OpenAt(st.grants, i, row) && GrantScopes(row.scopes) != []
    ensures var later := Next(st, Wait(ms));
            ReadLiveGrant(later.grants, row.user, row.agent, later.now, true) ==
            if st.now + ms < row.expiresAt then
              Some(LiveGrant(GrantScopes(row.scopes), row.reason, row.expiresAt, row.createdAt))
            else None
  {
    StepKeepsInv(st, Wait(ms));
    OpenRowIsRead(Next(st, Wait(ms)), i, row);
  }

  predicate NoEnd(steps: seq<Step>, user: string, agent: string) {
    forall i :: 0 <= i < |steps| ==> steps[i] != End(user, agent)
  }

  lemma {:induction false} TimeOnlyPasses(st: State, steps: seq<Step>)
    ensures st.now <= Run(st, steps).now
    decreases |steps|
  {
    if steps != [] {
      TimeOnlyPasses(Next(st, steps[0]), steps[1..]);
    }
  }

  lemma {:induction false} OpenUntilEnded(st: State, steps: seq<Step>, i: nat, row: GrantRow)
    requires OpenAt(st.grants, i, row) && NoEnd(steps, row.user, row.agent) && Run(st, steps).now <= row.expiresAt
    ensures OpenAt(Run(st, steps).grants, i, row)
    decreases |steps|
  {
    if steps != [] {
      assert steps[0] != End(row.user, row.agent);
      TimeOnlyPasses(Next(st, steps[0]), steps[1..]);
      OpenUntilEnded(Next(st, steps[0]), steps[1..], i, row);
    }
  }

  lemma OpenRowIsMinted(st: State, i: nat, row: GrantRow)
    requires Inv(st) && OpenAt(st.grants, i, row) && st.now < row.expiresAt
    requires row.agent in st.agents && st.agents[row.agent].user == row.user
    ensures MintedVisa(st, row.agent, true).scope == Union(Readable(Stored(st.agents[row.agent])) + GrantScopes(row.scopes))
  {
    OpenRowIsRead(st, i, row);
  }

  lemma TakenRowIsMinted(st: State, ask: Request, steps: seq<Step>)
    requires Inv(st) && TakeVerdict(st, ask).Granted? && NoEnd(steps, ask.user, ask.agent)
    requires var at := Run(Next(st, Take(ask)), steps);
             && at.now < TakeVerdict(st, ask).row.expiresAt
             && ask.agent in at.agents && at.agents[ask.agent].user == ask.user
    ensures var at := Run(Next(st, Take(ask)), steps);
            MintedVisa(at, ask.agent, true).scope ==
            Union(Readable(Stored(at.agents[ask.agent])) + GrantScopes(TakeVerdict(st, ask).row.scopes))
  {
    var taken, row := Next(st, Take(ask)), TakeVerdict(st, ask).row;
    StepKeepsInv(st, Take(ask));
    RunKeepsInv(taken, steps);
    assert OpenAt(taken.grants, |st.grants|, row);
    OpenUntilEnded(taken, steps, |st.grants|, row);
    OpenRowIsMinted(Run(taken, steps), |st.grants|, row);
  }

  /** Whatever else goes on, until it is ended or expires an accepted elevation is
      in every visa minted for the agent: its rows that name a model, merged onto
      the scope stored at that moment. */
  lemma ElevationReachesTheVisa(st: State, ask: Request, steps: seq<Step>)
    requires Inv(st) && TakeVerdict(st, ask).Granted? && NoEnd(steps, ask.user, ask.agent)
    requires var at := Run(Next(st, Take(ask)), steps);
             && at.now < st.now + 1000 * ask.ttlS
             && ask.agent in at.agents && at.agents[ask.agent].active && at.agents[ask.agent].user == ask.user
    ensures var at := Run(Next(st, Take(ask)), steps);
            var minted := Next(at, Mint(ask.agent, true));
            && |minted.visas| == |at.visas| + 1
            && minted.visas[|at.visas|].scope ==
                 Union(Readable(Stored(at.agents[ask.agent])) + Keep(ValidateScopes(ask.scopes).value, NamesAModel))
  {
    TakenRowReadsBack(st, ask);
    TakenRowIsMinted(st, ask, steps);
    VisaIsAdded(Run(Next(st, Take(ask)), steps), ask.agent);
  }

  lemma VisaIsAdded(st: State, agent: string)
    requires agent in st.agents && st.agents[agent].active
    ensures Next(st, Mint(agent, true)).visas == st.visas + [MintedVisa(st, agent, true)]
  {
  }

  lemma TakenRowReadsBack(st: State, ask: Request)
    requires TakeVerdict(st, ask).Granted?
    ensures TakeVerdict(st, ask).row.expiresAt == st.now + 1000 * ask.ttlS
    ensures GrantScopes(TakeVerdict(st, ask).row.scopes) == Keep(ValidateScopes(ask.scopes).value, NamesAModel)
  {
    StoredGrantReadsBack(ask.scopes);
  }

  // ── Sweeping and taking ─────────────────────────────────────────────────

  /** A sweep closes, now, exactly the open rows that have lapsed. */
  lemma SweepCloses(st: State)
    ensures var grants := Next(st, Sweep).grants;
            && |grants| == |st.grants|
            && forall i :: 0 <= i < |grants| ==>
                 if st.grants[i].revokedAt.None? && st.grants[i].expiresAt < st.now
                 then grants[i] == st.grants[i].(revokedAt := Some(st.now))
                 else grants[i] == st.grants[i]
  {
  }

  /** So after one a slot is held only by a row that has not lapsed. */
  lemma SweepFreesTheSlot(st: State, agent: string)
    ensures SlotTaken(Next(st, Sweep).grants, agent) <==>
            exists i :: 0 <= i < |st.grants| && st.grants[i].agent == agent && st.grants[i].revokedAt.None?
                        && st.grants[i].expiresAt >= st.now
  {
    SweepCloses(st);
    var grants := Next(st, Sweep).grants;
    if i :| 0 <= i < |st.grants| && st.grants[i].agent == agent && st.grants[i].revokedAt.None? && st.grants[i].expiresAt >= st.now {
      assert grants[i] == st.grants[i];
    }
    if SlotTaken(grants, agent) {
      var i :| 0 <= i < |grants| && grants[i].agent == agent && grants[i].revokedAt.None?;
      assert st.grants[i].expiresAt >= st.now;
    }
  }

  /** What the request itself must be. */
  predicate WellAsked(scopes: Option<seq<ScopeEntry>>, reason: string, ttlS: int) {
    scopes.Some? && scopes.value != [] && 1 <= |reason| <= 500 && 60 <= ttlS <= 3600
  }

  predicate TheirAgent(agents: map<string, Agent>, ask: Request) {
    ask.agent in agents && agents[ask.agent].user == ask.user
  }

  /** What of it would be minted beside the agent's own scope. */
  predicate FitsTheAgent(a: Agent, scopes: seq<ScopeEntry>) {
    WithinBounds(Union(Readable(Stored(a)) + scopes))
  }

  /** The row a request becomes: open from now for as long as was asked. */
  function RowOf(now: nat, ask: Request, scopes: seq<ScopeEntry>): GrantRow {
    GrantRow(ask.user, ask.agent, List(DocumentJson(scopes)), T.Trim(ask.reason), now + 1000 * ask.ttlS, now, None)
  }

  /** Each answer of the door, and when: a request is judged before the agent is
      looked up, the agent before the claim is measured. */
  lemma AskedMeans(now: nat, agents: map<string, Agent>, ask: Request)
    ensures var scopes := ValidateScopes(ask.scopes);
            var asked, well := Asked(now, agents, ask), WellAsked(scopes, T.Trim(ask.reason), ask.ttlS);
            && (asked.NotFound? <==> well && !TheirAgent(agents, ask))
            && (asked.NotActive? <==> well && TheirAgent(agents, ask) && !agents[ask.agent].active)
            && (asked.Granted? <==>
                  && well && TheirAgent(agents, ask) && agents[ask.agent].active
                  && FitsTheAgent(agents[ask.agent], scopes.value))
            && !asked.GrantExists?
            && (asked.Granted? ==> asked.row == RowOf(now, ask, scopes.value))
  {
  }

  /** An elevation is refused for the slot exactly when it would be taken but for
      an open row of the agent; when it is taken, one row is added and nothing else
      changes, and when it is not, nothing does. */
  lemma TakingMeans(st: State, ask: Request)
    ensures var asked, verdict := Asked(st.now, st.agents, ask), TakeVerdict(st, ask);
            var taken := exists i :: 0 <= i < |st.grants| && st.grants[i].agent == ask.agent && st.grants[i].revokedAt.None?;
            && verdict == (if asked.Granted? && taken then GrantExists else asked)
            && Next(st, Take(ask)) ==
               if verdict.Granted? then st.(grants := st.grants + [RowOf(st.now, ask, ValidateScopes(ask.scopes).value)])
               else st
  {
    AskedMeans(st.now, st.agents, ask);
  }

  // ── The sweep is housekeeping ───────────────────────────────────────────

  /** The second table is the first with some lapsed rows closed. */
  ghost predicate LapsedRowsClosed(a: seq<GrantRow>, b: seq<GrantRow>, now: nat) {
    && |a| == |b|
    && forall i :: 0 <= i < |a| ==>
         || a[i] == b[i]
         || (a[i].expiresAt < now && b[i].revokedAt.Some? && b[i].(revokedAt := a[i].revokedAt) == a[i])
  }

  lemma {:induction false} SameLiveRow(a: seq<GrantRow>, b: seq<GrantRow>, now: nat, user: string, agent: string, t: int)
    requires LapsedRowsClosed(a, b, now) && t >= now
    ensures LatestLive(a, user, agent, t) == LatestLive(b, user, agent, t)
  {
    if a != [] {
      SameLiveRow(a[..|a| - 1], b[..|b| - 1], now, user, agent, t);
    }
  }

  /** Closing lapsed rows at any moment leaves the answer of every read, then
      and later, as it was: the sweep cannot extend an elevation or end one. */
  lemma SweepIsInvisible(grants: seq<GrantRow>, now: nat, user: string, agent: string, t: int, answered: bool)
    requires t >= now
    ensures ReadLiveGrant(SweepRows(grants, now), user, agent, t, answered) == ReadLiveGrant(grants, user, agent, t, answered)
  {
    assert LapsedRowsClosed(grants, SweepRows(grants, now), now);
    SameLiveRow(grants, SweepRows(grants, now), now, user, agent, t);
  }

  ghost predicate SameButLapsed(a: State, b: State) {
    && a.now == b.now && a.visaTtlS == b.visaTtlS && a.agents == b.agents && a.visas == b.visas
    && LapsedRowsClosed(a.grants, b.grants, a.now)
  }

  ghost predicate SameAnswer(a: State, b: State, step: Step) {
    step.Take? ==> (TakeVerdict(a, step.ask).Granted? <==> TakeVerdict(b, step.ask).Granted?)
  }

  ghost predicate SameAnswers(a: State, b: State, steps: seq<Step>)
    decreases |steps|
  {
    steps == [] || (SameAnswer(a, b, steps[0]) && SameAnswers(Next(a, steps[0]), Next(b, steps[0]), steps[1..]))
  }

  lemma InsertedStaysSame(a: seq<GrantRow>, b: seq<GrantRow>, now: nat, asked: Verdict)
    requires LapsedRowsClosed(a, b, now)
    requires Answer(a, asked).Granted? <==> Answer(b, asked).Granted?
    ensures LapsedRowsClosed(Inserted(a, Answer(a, asked)), Inserted(b, Answer(b, asked)), now)
  {
  }

  lemma ClosedStaysSame(a: seq<GrantRow>, b: seq<GrantRow>, now: nat, user: string, agent: string)
    requires LapsedRowsClosed(a, b, now)
    ensures LapsedRowsClosed(EndRows(a, user, agent, now), EndRows(b, user, agent, now), now)
    ensures LapsedRowsClosed(SweepRows(a, now), SweepRows(b, now), now)
  {
  }

  lemma MintedTheSame(a: State, b: State, agent: string, answered: bool)
    requires SameButLapsed(a, b) && agent in a.agents
    ensures MintedVisa(a, agent, answered) == MintedVisa(b, agent, answered)
  {
    SameLiveRow(a.grants, b.grants, a.now, a.agents[agent].user, agent, a.now);
  }

  lemma StepKeepsSame(a: State, b: State, step: Step)
    requires SameButLapsed(a, b) && SameAnswer(a, b, step)
    ensures SameButLapsed(Next(a, step), Next(b, step))
  {
    match step
    case Take(ask) => InsertedStaysSame(a.grants, b.grants, a.now, Asked(a.now, a.agents, ask));
    case Mint(agent, answered) => if agent in a.agents { MintedTheSame(a, b, agent, answered); }
    case End(user, agent) => ClosedStaysSame(a.grants, b.grants, a.now, user, agent);
    case Sweep => ClosedStaysSame(a.grants, b.grants, a.now, "", "");
    case _ =>
  }

  lemma {:induction false} RunsStaySame(a: State, b: State, steps: seq<Step>)
    requires SameButLapsed(a, b) && SameAnswers(a, b, steps)
    ensures SameButLapsed(Run(a, steps), Run(b, steps))
    decreases |steps|
  {
    if steps != [] {
      StepKeepsSame(a, b, steps[0]);
      RunsStaySame(Next(a, steps[0]), Next(b, steps[0]), steps[1..]);
    }
  }

  /** Insert a sweep anywhere in any run. As long as it changes no answer to a
      later attempt to take an elevation, every visa minted afterwards and every
      read at every later time is the same. */
  lemma SweepChangesNoVisa(st: State, steps: seq<Step>, user: string, agent: string, t: nat, answered: bool)
    requires SameAnswers(st, Next(st, Sweep), steps)
    requires t >= Run(st, steps).now
    ensures Run(Next(st, Sweep), steps).visas == Run(st, steps).visas
    ensures ReadLiveGrant(Run(Next(st, Sweep), steps).grants, user, agent, t, answered) ==
            ReadLiveGrant(Run(st, steps).grants, user, agent, t, answered)
  {
    assert SameButLapsed(st, Next(st, Sweep));
    RunsStaySame(st, Next(st, Sweep), steps);
    var a, b := Run(st, steps), Run(Next(st, Sweep), steps);
    SameLiveRow(a.grants, b.grants, a.now, user, agent, t);
  }

  /** And the only answer it can change is a refusal for a slot held by a lapsed
      row: a late sweep blocks the next elevation, nothing else. */
  lemma LateSweepOnlyBlocks(a: State, b: State, ask: Request)
    requires SameButLapsed(a, b)
    requires TakeVerdict(a, ask) != TakeVerdict(b, ask)
    ensures TakeVerdict(a, ask).GrantExists? && TakeVerdict(b, ask).Granted?
    ensures exists g :: g in a.grants && g.agent == ask.agent && g.revokedAt.None? && g.expiresAt < a.now
  {
    AnswersDiffer(a.grants, b.grants, a.now, Asked(a.now, a.agents, ask));
  }

  lemma AnswersDiffer(a: seq<GrantRow>, b: seq<GrantRow>, now: nat, asked: Verdict)
    requires LapsedRowsClosed(a, b, now) && Answer(a, asked) != Answer(b, asked)
    ensures asked.Granted? && Answer(a, asked).GrantExists? && Answer(b, asked).Granted?
    ensures exists g :: g in a && g.agent == asked.row.agent && g.revokedAt.None? && g.expiresAt < now
  {
    var agent := asked.row.agent;
    forall i | 0 <= i < |b| && b[i].revokedAt.None? ensures a[i] == b[i] {
    }
    var i :| 0 <= i < |a| && a[i].agent == agent && a[i].revokedAt.None?;
    assert a[i] in a;
  }

  // ── Taking one that grants nothing ──────────────────────────────────────

  /** With the slot free, the row just written is the one a read finds. */
  lemma NewRowIsTheLiveOne(grants: seq<GrantRow>, row: GrantRow, now: int)
    requires !SlotTaken(grants, row.agent) && row.revokedAt.None? && row.expiresAt > now
    ensures LatestLive(grants + [row], row.user, row.agent, now) == Some(row)
  {
    var table := grants + [row];
    assert table[..|table| - 1] == grants;
    forall g | g in grants ensures !IsLive(g, row.user, row.agent, now) {
      var i :| 0 <= i < |grants| && grants[i] == g;
    }
  }

  lemma StoredGrantReadsBack(scopes: Value)
    requires ValidateScopes(scopes).Some?
    ensures var rows := ValidateScopes(scopes).value;
            && GrantScopes(List(DocumentJson(rows))) == Keep(rows, NamesAModel)
            && |rows| <= MAX_SCOPES
  {
    ValidEntriesAreValidated(scopes.items);
    ValidatedRowsReadBack(ValidateScopes(scopes).value);
  }

  /** An accepted elevation is read back as live exactly when some row of the
      validated document names a model. A row with an empty list passes
      validation and takes the slot, and reading it back drops it. */
  lemma AcceptedGrantIsLiveIffItNamesAModel(st: State, ask: Request)
    requires TakeVerdict(st, ask).Granted?
    ensures ReadLiveGrant(Next(st, Take(ask)).grants, ask.user, ask.agent, st.now, true).Some? <==>
            exists row :: row in ValidateScopes(ask.scopes).value && NamesAModel(row)
  {
    var rows := ValidateScopes(ask.scopes).value;
    NewRowIsTheLiveOne(st.grants, TakeVerdict(st, ask).row, st.now);
    StoredGrantReadsBack(ask.scopes);
    var kept := Keep(rows, NamesAModel);
    if kept != [] {
      assert kept[0] in kept;
    }
  }

  /** Such a document exists for every provider: name it, and no model at all. */
  lemma EmptyListIsAccepted(provider: string)
    requires IsScopeProvider(provider) && T.Trimmed(provider)
    ensures var doc := List([Record(map["provider" := Text(provider), "models" := List([])])]);
            ValidateScopes(doc) == Some([ScopeEntry(provider, [])]) && GrantScopes(doc) == []
  {
    var entry := Record(map["provider" := Text(provider), "models" := List([])]);
    EmptyEntry(provider, entry);
    MapAllOne(entry, ValidEntry);
    FilterMapOne(entry, GrantedEntry);
  }

  lemma EmptyEntry(provider: string, entry: Value)
    requires IsScopeProvider(provider) && T.Trimmed(provider)
    requires entry == Record(map["provider" := Text(provider), "models" := List([])])
    ensures ValidEntry(entry) == Some(ScopeEntry(provider, [])) && GrantedEntry(entry) == None
  {
    assert Field(entry, "models") == Some(List([]));
    assert Strings([]) == [];
  }

  lemma KeptClaimFits(base: seq<ScopeEntry>, rows: seq<ScopeEntry>)
    requires WithinBounds(Union(base + rows))
    ensures WithinBounds(Union(base + Keep(rows, NamesAModel)))
  {
    UnionOfKept(base, rows, NamesAModel);
    FewerRowsFit(Union(base + Keep(rows, NamesAModel)), Union(base + rows));
  }

  /** What an accepted request elevates to: its rows that name a model. */
  lemma ElevatedByTheNewRow(st: State, ask: Request)
    requires TakeVerdict(st, ask).Granted?
    ensures Elevated(Next(st, Take(ask)), ask.agent, true) == Keep(ValidateScopes(ask.scopes).value, NamesAModel)
  {
    var rows := ValidateScopes(ask.scopes).value;
    NewRowIsTheLiveOne(st.grants, TakeVerdict(st, ask).row, st.now);
    StoredGrantReadsBack(ask.scopes);
    assert |Keep(rows, NamesAModel)| <= |rows|;
  }

  /** The claim measured at the door is not always the claim that is minted, for
      reading a grant back drops its empty rows; but what is minted fits as well,
      for every request the door accepts. */
  lemma MintedClaimFits(st: State, ask: Request)
    requires TakeVerdict(st, ask).Granted?
    ensures WithinBounds(MintedVisa(Next(st, Take(ask)), ask.agent, true).scope)
  {
    ElevatedByTheNewRow(st, ask);
    KeptClaimFits(Readable(Stored(st.agents[ask.agent])), ValidateScopes(ask.scopes).value);
  }
}
