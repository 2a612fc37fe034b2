/** Deleting an account's runtime state (lib/account-lifecycle.ts,
    `purgeAccountRuntimeState`): exact keys and glob patterns against a shared
    key space. */
module RuntimePurge {
  import opened Lists
  import opened KeyParts
  import opened Providers

  datatype Account = Account(user: string, agents: seq<string>, controlKeys: seq<string>)

  // ── What the purge names ────────────────────────────────────────────────

  function UserKeys(user: string): set<string> {
    {Spell(["owner", user]), Spell(["provkeys", user])}
  }

  function UserPatterns(user: string): seq<string> {
    [Spell(["keyimport", user]) + ":*", "cloud-beta" + ":*:" + Spell(["workspace", user])]
  }

  function CounterKeys(agent: string): set<string> {
    {Spell(["reserved", agent]), Spell(["spent", agent]), Spell(["reserved_cost", agent]),
     Spell(["spent_cost", agent]), Spell(["pbase", agent])}
  }

  function CacheKeys(user: string, agent: string): set<string> {
    {Spell(["policy2", user, agent]), Spell(["fallbacks", user, agent]), Spell(["suspended", agent]),
     Spell(["lastseen", agent])}
  }

  function LimitKeys(user: string, agent: string): set<string> {
    {Spell(["ratelimit", "proxy", agent]), Spell(["ratelimit", "policy-hour", user, agent])}
  }

  function ProviderKeys(agent: string): set<string> {
    set p | p in PROVIDERS :: Spell(["key", agent, p])
  }

  function AgentKeys(user: string, agent: string): set<string> {
    CounterKeys(agent) + CacheKeys(user, agent) + LimitKeys(user, agent) + ProviderKeys(agent)
  }

  function AgentPatterns(agent: string): seq<string> {
    [Spell(["reserve", agent]) + ":*", Spell(["reserve_cost", agent]) + ":*"]
  }

  function ControlKey(id: string): string {
    Spell(["ratelimit", "control", id])
  }

  function ControlPattern(id: string): string {
    Spell(["idem", id]) + ":*"
  }

  predicate AnyMatches(patterns: seq<string>, key: string) {
    exists i :: 0 <= i < |patterns| && GlobMatches(patterns[i], key)
  }

  function AllAgentKeys(user: string, agents: seq<string>): set<string> {
    if agents == [] then {}
    else AllAgentKeys(user, agents[..|agents| - 1]) + AgentKeys(user, agents[|agents| - 1])
  }

  function AllAgentPatterns(agents: seq<string>): seq<string> {
    if agents == [] then []
    else AllAgentPatterns(agents[..|agents| - 1]) + AgentPatterns(agents[|agents| - 1])
  }

  function AllControlKeys(ids: seq<string>): set<string> {
    if ids == [] then {} else AllControlKeys(ids[..|ids| - 1]) + {ControlKey(ids[|ids| - 1])}
  }

  function AllControlPatterns(ids: seq<string>): seq<string> {
    if ids == [] then [] else AllControlPatterns(ids[..|ids| - 1]) + [ControlPattern(ids[|ids| - 1])]
  }

  predicate Purged(a: Account, key: string) {
    || key in UserKeys(a.user) + AllAgentKeys(a.user, a.agents) + AllControlKeys(a.controlKeys)
    || AnyMatches(UserPatterns(a.user) + AllAgentPatterns(a.agents) + AllControlPatterns(a.controlKeys), key)
  }

  // ── The purge ───────────────────────────────────────────────────────────

  class RuntimeStore {
    var keys: set<string>
    var denylist: set<string>

    constructor (keys: set<string>, denylist: set<string>)
      ensures this.keys == keys && this.denylist == denylist
    {
      this.keys, this.denylist := keys, denylist;
    }

    function ScanKeys(pattern: string): set<string>
      reads this
    {
      set k | k in keys && GlobMatches(pattern, k)
    }

    /** One scan per pattern, then one delete of everything found. */
    method Delete(named: set<string>, patterns: seq<string>)
      modifies this`keys
      ensures keys == set k | k in old(keys) && k !in named && !AnyMatches(patterns, k)
    {
      var exact := named;
      for i := 0 to |patterns|
        invariant keys == old(keys)
        invariant forall k :: k in keys ==> (k in exact <==> k in named || AnyMatches(patterns[..i], k))
      {
        exact := exact + ScanKeys(patterns[i]);
        forall k ensures AnyMatches(patterns[..i + 1], k) <==> AnyMatches(patterns[..i], k) || GlobMatches(patterns[i], k) {
          MatchesJoin(patterns[..i], [patterns[i]], k);
          assert patterns[..i + 1] == patterns[..i] + [patterns[i]];
          MatchesOne(patterns[i], k);
        }
      }
      assert patterns[..|patterns|] == patterns;
      keys := keys - exact;
    }

    method Purge(a: Account)
      modifies this
      ensures keys == set k | k in old(keys) && !Purged(a, k)
      ensures denylist == old(denylist) - (set x | x in a.agents)
    {
      var agentKeys, agentPatterns := CollectAgents(a.user, a.agents);
      var controlKeys, controlPatterns := CollectControlKeys(a.controlKeys);
      Delete(UserKeys(a.user) + agentKeys + controlKeys, UserPatterns(a.user) + agentPatterns + controlPatterns);
      Undeny(a.agents);
    }

    method Undeny(agents: seq<string>)
      modifies this`denylist
      ensures denylist == old(denylist) - (set x | x in agents)
    {
      for i := 0 to |agents|
        invariant denylist == old(denylist) - (set x | x in agents[..i])
      {
        assert agents[..i + 1] == agents[..i] + [agents[i]];
        denylist := denylist - {agents[i]};
      }
      assert agents[..|agents|] == agents;
    }
  }

  method CollectAgents(user: string, agents: seq<string>) returns (exact: set<string>, patterns: seq<string>)
    ensures exact == AllAgentKeys(user, agents) && patterns == AllAgentPatterns(agents)
  {
    exact, patterns := {}, [];
    for i := 0 to |agents|
      invariant exact == AllAgentKeys(user, agents[..i]) && patterns == AllAgentPatterns(agents[..i])
    {
      assert agents[..i + 1][..i] == agents[..i];
      exact := exact + AgentKeys(user, agents[i]);
      patterns := patterns + AgentPatterns(agents[i]);
    }
    assert agents[..|agents|] == agents;
  }

  method CollectControlKeys(ids: seq<string>) returns (exact: set<string>, patterns: seq<string>)
    ensures exact == AllControlKeys(ids) && patterns == AllControlPatterns(ids)
  {
    exact, patterns := {}, [];
    for i := 0 to |ids|
      invariant exact == AllControlKeys(ids[..i]) && patterns == AllControlPatterns(ids[..i])
    {
      assert ids[..i + 1][..i] == ids[..i];
      exact := exact + {ControlKey(ids[i])};
      patterns := patterns + [ControlPattern(ids[i])];
    }
    assert ids[..|ids|] == ids;
  }

  lemma MatchesJoin(p: seq<string>, q: seq<string>, k: string)
    ensures AnyMatches(p + q, k) <==> AnyMatches(p, k) || AnyMatches(q, k)
  {
    if i :| 0 <= i < |p| && GlobMatches(p[i], k) {
      assert (p + q)[i] == p[i];
    }
    if i :| 0 <= i < |q| && GlobMatches(q[i], k) {
      assert (p + q)[|p| + i] == q[i];
    }
  }

  lemma MatchesOne(p: string, k: string)
    ensures AnyMatches([p], k) <==> GlobMatches(p, k)
  {
    if GlobMatches(p, k) { assert GlobMatches([p][0], k); }
  }

  // ── Whose a key is ──────────────────────────────────────────────────────

  /** The families, by the parts of their keys. */
  predicate UserOwns(user: string, parts: seq<string>) {
    || parts == ["owner", user] || parts == ["provkeys", user]
    || (|parts| > 2 && parts[..2] == ["keyimport", user])
    || (|parts| > 3 && parts[0] == "cloud-beta" && parts[|parts| - 2..] == ["workspace", user])
  }

  predicate AgentOwns(user: string, agent: string, parts: seq<string>) {
    || parts == ["reserved", agent] || parts == ["spent", agent] || parts == ["reserved_cost", agent]
    || parts == ["spent_cost", agent] || parts == ["pbase", agent]
    || parts == ["policy2", user, agent] || parts == ["fallbacks", user, agent]
    || parts == ["suspended", agent] || parts == ["lastseen", agent]
    || parts == ["ratelimit", "proxy", agent] || parts == ["ratelimit", "policy-hour", user, agent]
    || (|parts| == 3 && parts[0] == "key" && parts[1] == agent && parts[2] in PROVIDERS)
    || (|parts| > 2 && (parts[..2] == ["reserve", agent] || parts[..2] == ["reserve_cost", agent]))
  }

  predicate ControlKeyOwns(id: string, parts: seq<string>) {
    parts == ["ratelimit", "control", id] || (|parts| > 2 && parts[..2] == ["idem", id])
  }

  predicate SomeAgentOwns(user: string, agents: seq<string>, parts: seq<string>) {
    agents != [] &&
    (SomeAgentOwns(user, agents[..|agents| - 1], parts) || AgentOwns(user, agents[|agents| - 1], parts))
  }

  predicate SomeControlKeyOwns(ids: seq<string>, parts: seq<string>) {
    ids != [] && (SomeControlKeyOwns(ids[..|ids| - 1], parts) || ControlKeyOwns(ids[|ids| - 1], parts))
  }

  predicate Owns(a: Account, parts: seq<string>) {
    || UserOwns(a.user, parts)
    || SomeAgentOwns(a.user, a.agents, parts)
    || SomeControlKeyOwns(a.controlKeys, parts)
  }

  predicate PlainId(id: string) {
    ':' !in id && Plain(id)
  }

  predicate PlainIds(a: Account) {
    && PlainId(a.user)
    && (forall x :: x in a.agents ==> PlainId(x))
    && (forall x :: x in a.controlKeys ==> PlainId(x))
  }

  lemma SpellsPair(first: string, second: string, key: string)
    requires ':' !in first && ':' !in second
    ensures key == Spell([first, second]) <==> Parts(key) == [first, second]
  {
    SpellsIff(key, [first, second]);
  }

  lemma SpellsTriple(first: string, second: string, third: string, key: string)
    requires ':' !in first && ':' !in second && ':' !in third
    ensures key == Spell([first, second, third]) <==> Parts(key) == [first, second, third]
  {
    SpellsIff(key, [first, second, third]);
  }

  lemma PairPattern(first: string, id: string, key: string)
    requires ':' !in first && Plain(first) && PlainId(id)
    ensures GlobMatches(Spell([first, id]) + ":*", key) <==> |Parts(key)| > 2 && Parts(key)[..2] == [first, id]
  {
    SpellCons(first, [id]);
    assert [first] + [id] == [first, id];
    HeadPattern([first, id], key);
  }

  lemma UserScansAreTheUsers(user: string, key: string)
    requires PlainId(user)
    ensures AnyMatches(UserPatterns(user), key) <==>
            var parts := Parts(key);
            || (|parts| > 2 && parts[..2] == ["keyimport", user])
            || (|parts| > 3 && parts[0] == "cloud-beta" && parts[|parts| - 2..] == ["workspace", user])
  {
    var keyImports, workspaces := Spell(["keyimport", user]) + ":*", "cloud-beta" + ":*:" + Spell(["workspace", user]);
    PairPattern("keyimport", user, key);
    SpellCons("workspace", [user]);
    assert ["workspace"] + [user] == ["workspace", user];
    EndsPattern("cloud-beta", ["workspace", user], key);
    MatchesJoin([keyImports], [workspaces], key);
    MatchesOne(keyImports, key);
    MatchesOne(workspaces, key);
    assert [keyImports] + [workspaces] == UserPatterns(user);
  }

  lemma UserKeysAreTheUsers(user: string, key: string)
    requires PlainId(user)
    ensures key in UserKeys(user) || AnyMatches(UserPatterns(user), key) <==> UserOwns(user, Parts(key))
  {
    SpellsPair("owner", user, key);
    SpellsPair("provkeys", user, key);
    UserScansAreTheUsers(user, key);
  }

  lemma CountersAreTheAgents(agent: string, key: string)
    requires PlainId(agent)
    ensures key in CounterKeys(agent) <==>
            var parts := Parts(key);
            || parts == ["reserved", agent] || parts == ["spent", agent] || parts == ["reserved_cost", agent]
            || parts == ["spent_cost", agent] || parts == ["pbase", agent]
  {
    SpellsPair("reserved", agent, key);
    SpellsPair("spent", agent, key);
    SpellsPair("reserved_cost", agent, key);
    SpellsPair("spent_cost", agent, key);
    SpellsPair("pbase", agent, key);
  }

  lemma CachesAreTheAgents(user: string, agent: string, key: string)
    requires PlainId(user) && PlainId(agent)
    ensures key in CacheKeys(user, agent) <==>
            var parts := Parts(key);
            || parts == ["policy2", user, agent] || parts == ["fallbacks", user, agent]
            || parts == ["suspended", agent] || parts == ["lastseen", agent]
  {
    SpellsTriple("policy2", user, agent, key);
    SpellsTriple("fallbacks", user, agent, key);
    SpellsPair("suspended", agent, key);
    SpellsPair("lastseen", agent, key);
  }

  lemma LimitsAreTheAgents(user: string, agent: string, key: string)
    requires PlainId(user) && PlainId(agent)
    ensures key in LimitKeys(user, agent) <==>
            Parts(key) == ["ratelimit", "proxy", agent] || Parts(key) == ["ratelimit", "policy-hour", user, agent]
  {
    SpellsTriple("ratelimit", "proxy", agent, key);
    SpellsIff(key, ["ratelimit", "policy-hour", user, agent]);
  }

  lemma ProvidersAreColonFree(p: string)
    requires p in PROVIDERS
    ensures ':' !in p
  {
    var i :| 0 <= i < |PROVIDERS| && PROVIDERS[i] == p;
  }

  lemma ProviderKeysAreTheAgents(agent: string, key: string)
    requires PlainId(agent)
    ensures key in ProviderKeys(agent) <==>
            var parts := Parts(key); |parts| == 3 && parts[0] == "key" && parts[1] == agent && parts[2] in PROVIDERS
  {
    var parts := Parts(key);
    if p :| p in PROVIDERS && key == Spell(["key", agent, p]) {
      ProvidersAreColonFree(p);
      SpellsTriple("key", agent, p, key);
    }
    if |parts| == 3 && parts[0] == "key" && parts[1] == agent && parts[2] in PROVIDERS {
      ProvidersAreColonFree(parts[2]);
      SpellsTriple("key", agent, parts[2], key);
      assert parts == ["key", agent, parts[2]];
    }
  }

  lemma ReservesAreTheAgents(agent: string, key: string)
    requires PlainId(agent)
    ensures AnyMatches(AgentPatterns(agent), key) <==>
            var parts := Parts(key);
            |parts| > 2 && (parts[..2] == ["reserve", agent] || parts[..2] == ["reserve_cost", agent])
  {
    PairPattern("reserve", agent, key);
    PairPattern("reserve_cost", agent, key);
    var tokens, costs := Spell(["reserve", agent]) + ":*", Spell(["reserve_cost", agent]) + ":*";
    MatchesJoin([tokens], [costs], key);
    MatchesOne(tokens, key);
    MatchesOne(costs, key);
    assert [tokens] + [costs] == AgentPatterns(agent);
  }

  lemma AgentKeysAreTheAgents(user: string, agent: string, key: string)
    requires PlainId(user) && PlainId(agent)
    ensures key in AgentKeys(user, agent) || AnyMatches(AgentPatterns(agent), key) <==> AgentOwns(user, agent, Parts(key))
  {
    CountersAreTheAgents(agent, key);
    CachesAreTheAgents(user, agent, key);
    LimitsAreTheAgents(user, agent, key);
    ProviderKeysAreTheAgents(agent, key);
    ReservesAreTheAgents(agent, key);
  }

  lemma ControlKeysAreTheirs(id: string, key: string)
    requires PlainId(id)
    ensures key == ControlKey(id) || GlobMatches(ControlPattern(id), key) <==> ControlKeyOwns(id, Parts(key))
  {
    SpellsTriple("ratelimit", "control", id, key);
    PairPattern("idem", id, key);
  }

  lemma {:induction false} AllAgentKeysAreTheirs(user: string, agents: seq<string>, key: string)
    requires PlainId(user) && forall x :: x in agents ==> PlainId(x)
    ensures key in AllAgentKeys(user, agents) || AnyMatches(AllAgentPatterns(agents), key) <==>
            SomeAgentOwns(user, agents, Parts(key))
  {
    if agents != [] {
      var init, last := agents[..|agents| - 1], agents[|agents| - 1];
      AllAgentKeysAreTheirs(user, init, key);
      AgentKeysAreTheAgents(user, last, key);
      MatchesJoin(AllAgentPatterns(init), AgentPatterns(last), key);
    }
  }

  lemma {:induction false} AllControlKeysAreTheirs(ids: seq<string>, key: string)
    requires forall x :: x in ids ==> PlainId(x)
    ensures key in AllControlKeys(ids) || AnyMatches(AllControlPatterns(ids), key) <==>
            SomeControlKeyOwns(ids, Parts(key))
  {
    if ids != [] {
      var init, last := ids[..|ids| - 1], ids[|ids| - 1];
      AllControlKeysAreTheirs(init, key);
      ControlKeysAreTheirs(last, key);
      MatchesJoin(AllControlPatterns(init), [ControlPattern(last)], key);
      MatchesOne(ControlPattern(last), key);
    }
  }

  /** For ids free of colons and of the characters a pattern gives a meaning to,
      what is deleted is what the account owns: every key of the listed families,
      whatever follows, and no other key in the store. */
  lemma PurgedIffOwned(a: Account, key: string)
    requires PlainIds(a)
    ensures Purged(a, key) <==> Owns(a, Parts(key))
  {
    var users, agents, controls := UserPatterns(a.user), AllAgentPatterns(a.agents), AllControlPatterns(a.controlKeys);
    UserKeysAreTheUsers(a.user, key);
    AllAgentKeysAreTheirs(a.user, a.agents, key);
    AllControlKeysAreTheirs(a.controlKeys, key);
    MatchesJoin(users, agents, key);
    MatchesJoin(users + agents, controls, key);
  }

  // ── Two accounts ────────────────────────────────────────────────────────

  datatype Holder = NoOne | User(id: string) | Agent(id: string) | Control(id: string)

  /** The one id a key is held under, read off its parts. */
  function HolderOf(parts: seq<string>): Holder {
    if |parts| < 2 then NoOne
    else
      var family, last := parts[0], parts[|parts| - 1];
      if family == "owner" || family == "provkeys" || family == "keyimport" then User(parts[1])
      else if family == "cloud-beta" then User(last)
      else if family == "policy2" || family == "fallbacks" then Agent(last)
      else if family == "idem" then Control(parts[1])
      else if family == "ratelimit" then (if parts[1] == "control" then Control(last) else Agent(last))
      else Agent(parts[1])
  }

  lemma UserHolds(user: string, parts: seq<string>)
    requires UserOwns(user, parts)
    ensures HolderOf(parts) == User(user)
  {
    if |parts| > 2 && parts[..2] == ["keyimport", user] {
      assert parts[0] == parts[..2][0] && parts[1] == parts[..2][1];
    }
    if |parts| > 3 && parts[0] == "cloud-beta" && parts[|parts| - 2..] == ["workspace", user] {
      assert parts[|parts| - 1] == parts[|parts| - 2..][1];
    }
  }

  lemma AgentHolds(user: string, agent: string, parts: seq<string>)
    requires AgentOwns(user, agent, parts)
    ensures HolderOf(parts) == Agent(agent)
  {
    if |parts| > 2 && (parts[..2] == ["reserve", agent] || parts[..2] == ["reserve_cost", agent]) {
      assert parts[0] == parts[..2][0] && parts[1] == parts[..2][1];
    }
  }

  lemma ControlKeyHolds(id: string, parts: seq<string>)
    requires ControlKeyOwns(id, parts)
    ensures HolderOf(parts) == Control(id)
  {
    if |parts| > 2 && parts[..2] == ["idem", id] {
      assert parts[0] == parts[..2][0] && parts[1] == parts[..2][1];
    }
  }

  predicate Holds(a: Account, holder: Holder) {
    match holder
    case NoOne => false
    case User(id) => id == a.user
    case Agent(id) => id in a.agents
    case Control(id) => id in a.controlKeys
  }

  lemma {:induction false} SomeAgentHolds(user: string, agents: seq<string>, parts: seq<string>)
    requires SomeAgentOwns(user, agents, parts)
    ensures HolderOf(parts).Agent? && HolderOf(parts).id in agents
  {
    var init, last := agents[..|agents| - 1], agents[|agents| - 1];
    if SomeAgentOwns(user, init, parts) {
      SomeAgentHolds(user, init, parts);
    } else {
      AgentHolds(user, last, parts);
    }
  }

  lemma {:induction false} SomeControlKeyHolds(ids: seq<string>, parts: seq<string>)
    requires SomeControlKeyOwns(ids, parts)
    ensures HolderOf(parts).Control? && HolderOf(parts).id in ids
  {
    var init, last := ids[..|ids| - 1], ids[|ids| - 1];
    if SomeControlKeyOwns(init, parts) {
      SomeControlKeyHolds(init, parts);
    } else {
      ControlKeyHolds(last, parts);
    }
  }

  lemma OwnerHolds(a: Account, parts: seq<string>)
    requires Owns(a, parts)
    ensures Holds(a, HolderOf(parts))
  {
    if UserOwns(a.user, parts) {
      UserHolds(a.user, parts);
    } else if SomeAgentOwns(a.user, a.agents, parts) {
      SomeAgentHolds(a.user, a.agents, parts);
    } else {
      SomeControlKeyHolds(a.controlKeys, parts);
    }
  }

  /** No key is taken from an account that shares no id with the one deleted. */
  lemma OtherAccountsKeepTheirKeys(a: Account, b: Account, key: string)
    requires PlainIds(a) && PlainIds(b) && a.user != b.user
    requires (forall x :: x in a.agents ==> x !in b.agents) && (forall x :: x in a.controlKeys ==> x !in b.controlKeys)
    requires Purged(a, key)
    ensures !Purged(b, key)
  {
    PurgedIffOwned(a, key);
    PurgedIffOwned(b, key);
    OwnerHolds(a, Parts(key));
    if Owns(b, Parts(key)) {
      OwnerHolds(b, Parts(key));
    }
  }

  // ── What is left ────────────────────────────────────────────────────────

  /** The key families of the store (lib/state/redis.ts). */
  datatype Family =
    | Nonce | Alert | Reserved | Spent | ReservedCost | SpentCost | ProviderKey | Credential | Endpoint | Policy
    | Fallbacks | Suspended | SessionStop | SessionSpend | Owner | ProviderList | PolicyFence | CredentialFence
    | OwnerFence | FallbacksFence | ProviderListFence | LastSeen | SecretExposed | Import

  function Head(f: Family): string {
    match f
    case Nonce => "nonce"
    case Alert => "alert"
    case Reserved => "reserved"
    case Spent => "spent"
    case ReservedCost => "reserved_cost"
    case SpentCost => "spent_cost"
    case ProviderKey => "key"
    case Credential => "cred"
    case Endpoint => "endpoint"
    case Policy => "policy4"
    case Fallbacks => "fallbacks"
    case Suspended => "suspended"
    case SessionStop => "session_stop"
    case SessionSpend => "ssp"
    case Owner => "owner"
    case ProviderList => "provkeys"
    case PolicyFence => "polgen"
    case CredentialFence => "credgen"
    case OwnerFence => "ownergen"
    case FallbacksFence => "fbgen"
    case ProviderListFence => "pkgen"
    case LastSeen => "lastseen"
    case SecretExposed => "passport_secret_exposed"
    case Import => "keyimport"
  }

  /** `detail` is whatever else a key of the family names: a provider, a session,
      a kind of alert, the id of an import. */
  function KeyOf(f: Family, user: string, agent: string, detail: string): seq<string> {
    match f
    case Nonce => [Head(f), detail]
    case Alert => [Head(f), user, detail, agent]
    case ProviderKey | Credential | Endpoint | SessionStop | SessionSpend | CredentialFence => [Head(f), agent, detail]
    case Policy | Fallbacks | PolicyFence | FallbacksFence => [Head(f), user, agent]
    case Owner | ProviderList | OwnerFence | ProviderListFence => [Head(f), user]
    case Import => [Head(f), user, detail]
    case Reserved | Spent | ReservedCost | SpentCost | Suspended | LastSeen | SecretExposed => [Head(f), agent]
  }

  /** The key itself. */
  function Spelled(f: Family, user: string, agent: string, detail: string): string {
    match f
    case Nonce => "nonce:" + detail
    case Alert => "alert:" + user + ":" + detail + ":" + agent
    case Reserved => "reserved:" + agent
    case Spent => "spent:" + agent
    case ReservedCost => "reserved_cost:" + agent
    case SpentCost => "spent_cost:" + agent
    case ProviderKey => "key:" + agent + ":" + detail
    case Credential => "cred:" + agent + ":" + detail
    case Endpoint => "endpoint:" + agent + ":" + detail
    case Policy => "policy4:" + user + ":" + agent
    case Fallbacks => "fallbacks:" + user + ":" + agent
    case Suspended => "suspended:" + agent
    case SessionStop => "session_stop:" + agent + ":" + detail
    case SessionSpend => "ssp:" + agent + ":" + detail
    case Owner => "owner:" + user
    case ProviderList => "provkeys:" + user
    case PolicyFence => "polgen:" + user + ":" + agent
    case CredentialFence => "credgen:" + agent + ":" + detail
    case OwnerFence => "ownergen:" + user
    case FallbacksFence => "fbgen:" + user + ":" + agent
    case ProviderListFence => "pkgen:" + user
    case LastSeen => "lastseen:" + agent
    case SecretExposed => "passport_secret_exposed:" + agent
    case Import => "keyimport:" + user + ":" + detail
  }

  lemma SpellTwo(start: string, head: string, a: string)
    requires start == head + ":"
    ensures Spell([head, a]) == start + a
  {
    SpellCons(head, [a]);
    assert Spell([a]) == a;
    assert [head] + [a] == [head, a];
  }

  lemma SpellThree(start: string, head: string, a: string, b: string)
    requires start == head + ":"
    ensures Spell([head, a, b]) == start + a + ":" + b
  {
    SpellCons(head, [a, b]);
    SpellTwo(a + ":", a, b);
    assert [head] + [a, b] == [head, a, b];
    assert head + ":" + (a + ":" + b) == head + ":" + a + ":" + b;
  }

  lemma SpellFour(start: string, head: string, a: string, b: string, c: string)
    requires start == head + ":"
    ensures Spell([head, a, b, c]) == start + a + ":" + b + ":" + c
  {
    SpellCons(head, [a, b, c]);
    SpellThree(a + ":", a, b, c);
    assert [head] + [a, b, c] == [head, a, b, c];
    assert head + ":" + (a + ":" + b + ":" + c) == head + ":" + a + ":" + b + ":" + c;
  }

  /** The parts above are the parts of that text. */
  lemma KeyIsSpelled(f: Family, user: string, agent: string, detail: string)
    ensures Spell(KeyOf(f, user, agent, detail)) == Spelled(f, user, agent, detail)
  {
    var head := Head(f);
    match f
    case Nonce => SpellTwo("nonce:", head, detail);
    case Alert => SpellFour("alert:", head, user, detail, agent);
    case Reserved => SpellTwo("reserved:", head, agent);
    case Spent => SpellTwo("spent:", head, agent);
    case ReservedCost => SpellTwo("reserved_cost:", head, agent);
    case SpentCost => SpellTwo("spent_cost:", head, agent);
    case ProviderKey => SpellThree("key:", head, agent, detail);
    case Credential => SpellThree("cred:", head, agent, detail);
    case Endpoint => SpellThree("endpoint:", head, agent, detail);
    case Policy => SpellThree("policy4:", head, user, agent);
    case Fallbacks => SpellThree("fallbacks:", head, user, agent);
    case Suspended => SpellTwo("suspended:", head, agent);
    case SessionStop => SpellThree("session_stop:", head, agent, detail);
    case SessionSpend => SpellThree("ssp:", head, agent, detail);
    case Owner => SpellTwo("owner:", head, user);
    case ProviderList => SpellTwo("provkeys:", head, user);
    case PolicyFence => SpellThree("polgen:", head, user, agent);
    case CredentialFence => SpellThree("credgen:", head, agent, detail);
    case OwnerFence => SpellTwo("ownergen:", head, user);
    case FallbacksFence => SpellThree("fbgen:", head, user, agent);
    case ProviderListFence => SpellTwo("pkgen:", head, user);
    case LastSeen => SpellTwo("lastseen:", head, agent);
    case SecretExposed => SpellTwo("passport_secret_exposed:", head, agent);
    case Import => SpellThree("keyimport:", head, user, detail);
  }

  predicate Cleaned(f: Family) {
    f in {Reserved, Spent, ReservedCost, SpentCost, ProviderKey, Fallbacks, Suspended, Owner, ProviderList, LastSeen, Import}
  }

  /** The first parts of the keys some account owns. */
  predicate IsOwnedHead(head: string) {
    || head == "owner" || head == "provkeys" || head == "keyimport" || head == "cloud-beta"
    || head == "reserved" || head == "spent" || head == "reserved_cost" || head == "spent_cost" || head == "pbase"
    || head == "policy2" || head == "fallbacks" || head == "suspended" || head == "lastseen"
    || head == "ratelimit" || head == "key" || head == "reserve" || head == "reserve_cost" || head == "idem"
  }

  lemma OwnedHeads(user: string, agent: string, id: string, parts: seq<string>)
    requires UserOwns(user, parts) || AgentOwns(user, agent, parts) || ControlKeyOwns(id, parts)
    ensures parts != [] && IsOwnedHead(parts[0])
  {
    if |parts| > 2 {
      assert parts[..2][0] == parts[0];
    }
  }

  lemma {:induction false} SomeAgentsHead(user: string, agents: seq<string>, parts: seq<string>)
    requires SomeAgentOwns(user, agents, parts)
    ensures parts != [] && IsOwnedHead(parts[0])
  {
    if SomeAgentOwns(user, agents[..|agents| - 1], parts) {
      SomeAgentsHead(user, agents[..|agents| - 1], parts);
    } else {
      OwnedHeads(user, agents[|agents| - 1], "", parts);
    }
  }

  lemma {:induction false} SomeControlKeysHead(ids: seq<string>, parts: seq<string>)
    requires SomeControlKeyOwns(ids, parts)
    ensures parts != [] && IsOwnedHead(parts[0])
  {
    if SomeControlKeyOwns(ids[..|ids| - 1], parts) {
      SomeControlKeysHead(ids[..|ids| - 1], parts);
    } else {
      OwnedHeads("", "", ids[|ids| - 1], parts);
    }
  }

  lemma OwnsByHead(a: Account, parts: seq<string>)
    requires Owns(a, parts)
    ensures parts != [] && IsOwnedHead(parts[0])
  {
    if UserOwns(a.user, parts) {
      OwnedHeads(a.user, "", "", parts);
    } else if SomeAgentOwns(a.user, a.agents, parts) {
      SomeAgentsHead(a.user, a.agents, parts);
    } else {
      SomeControlKeysHead(a.controlKeys, parts);
    }
  }

  lemma CleanedByHead(f: Family, head: string)
    requires head == Head(f)
    ensures IsOwnedHead(head) <==> Cleaned(f)
  {
    assert |head| > 2;
  }

  lemma {:induction false} AgentOfSome(user: string, agents: seq<string>, agent: string, parts: seq<string>)
    requires agent in agents && AgentOwns(user, agent, parts)
    ensures SomeAgentOwns(user, agents, parts)
  {
    var init, last := agents[..|agents| - 1], agents[|agents| - 1];
    assert agents == init + [last];
    if agent in init {
      AgentOfSome(user, init, agent, parts);
    }
  }

  lemma PlainKey(f: Family, user: string, agent: string, detail: string)
    requires ':' !in user && ':' !in agent && ':' !in detail
    ensures Parts(Spell(KeyOf(f, user, agent, detail))) == KeyOf(f, user, agent, detail)
  {
    PartsOfSpell(KeyOf(f, user, agent, detail));
  }

  lemma KeyOfAgent(user: string, agent: string, id: string, parts: seq<string>)
    requires parts != [] && parts[0] == "key"
    requires UserOwns(user, parts) || AgentOwns(user, agent, parts) || ControlKeyOwns(id, parts)
    ensures |parts| == 3 && parts[2] in PROVIDERS
  {
    if |parts| > 2 {
      assert parts[..2][0] == parts[0];
    }
  }

  lemma {:induction false} KeyOfSomeAgent(user: string, agents: seq<string>, parts: seq<string>)
    requires parts != [] && parts[0] == "key" && SomeAgentOwns(user, agents, parts)
    ensures |parts| == 3 && parts[2] in PROVIDERS
  {
    if SomeAgentOwns(user, agents[..|agents| - 1], parts) {
      KeyOfSomeAgent(user, agents[..|agents| - 1], parts);
    } else {
      KeyOfAgent(user, agents[|agents| - 1], "", parts);
    }
  }

  lemma {:induction false} NoControlKeyIsNamedKey(ids: seq<string>, parts: seq<string>)
    requires parts != [] && parts[0] == "key"
    ensures !SomeControlKeyOwns(ids, parts)
  {
    if ids != [] {
      NoControlKeyIsNamedKey(ids[..|ids| - 1], parts);
      if |parts| > 2 {
        assert parts[..2][0] == parts[0];
      }
    }
  }

  lemma OwnedKeyNamesAProvider(a: Account, parts: seq<string>)
    requires parts != [] && parts[0] == "key" && Owns(a, parts)
    ensures |parts| == 3 && parts[2] in PROVIDERS
  {
    NoControlKeyIsNamedKey(a.controlKeys, parts);
    if UserOwns(a.user, parts) {
      KeyOfAgent(a.user, "", "", parts);
    } else {
      KeyOfSomeAgent(a.user, a.agents, parts);
    }
  }

  /** The families no purge touches, of this account's ids or any others. */
  lemma UnlistedFamiliesSurvive(a: Account, f: Family, user: string, agent: string, detail: string)
    requires PlainIds(a) && ':' !in user && ':' !in agent && ':' !in detail && !Cleaned(f)
    ensures !Purged(a, Spell(KeyOf(f, user, agent, detail)))
  {
    var parts := KeyOf(f, user, agent, detail);
    PlainKey(f, user, agent, detail);
    PurgedIffOwned(a, Spell(parts));
    StartsWithHead(f, user, agent, detail);
    CleanedByHead(f, Head(f));
    NoOwnedHead(a, parts);
  }

  lemma StartsWithHead(f: Family, user: string, agent: string, detail: string)
    ensures var parts := KeyOf(f, user, agent, detail); parts != [] && parts[0] == Head(f)
  {
  }

  lemma NoOwnedHead(a: Account, parts: seq<string>)
    requires parts != [] && !IsOwnedHead(parts[0])
    ensures !Owns(a, parts)
  {
    if Owns(a, parts) {
      OwnsByHead(a, parts);
    }
  }

  lemma ListedFamiliesAreOwned(user: string, agent: string, f: Family, detail: string)
    requires Cleaned(f) && (f.ProviderKey? ==> detail in PROVIDERS)
    ensures var parts := KeyOf(f, user, agent, detail); UserOwns(user, parts) || AgentOwns(user, agent, parts)
  {
    var parts := KeyOf(f, user, agent, detail);
    if f.Import? {
      assert parts[..2] == ["keyimport", user];
    }
  }

  lemma ListedKeyIsPurged(a: Account, agent: string, name: string)
    requires PlainIds(a) && agent in a.agents && name in PROVIDERS && ':' !in name
    ensures Purged(a, Spell(["key", agent, name]))
  {
    SchemaPurgedIff(a, ProviderKey, agent, name);
    assert KeyOf(ProviderKey, a.user, agent, name) == ["key", agent, name];
  }

  /** No provider's key is forgotten. */
  lemma EveryProvidersKeyIsPurged(a: Account, agent: string, provider: Provider)
    requires PlainIds(a) && agent in a.agents
    ensures Purged(a, Spell(["key", agent, Name(provider)]))
  {
    var name := Name(provider);
    assert name in PROVIDERS && ':' !in name by {
      ProvidersAreNamed(name);
      ProvidersAreColonFree(name);
    }
    ListedKeyIsPurged(a, agent, name);
  }

  /** Of the store's own schema the purge deletes eleven families of an account's
      keys, a provider's key only for a provider it lists. The other thirteen stay,
      the sealed credentials, their endpoints and the policy cache in use among
      them. */
  lemma SchemaPurgedIff(a: Account, f: Family, agent: string, detail: string)
    requires PlainIds(a) && agent in a.agents && ':' !in detail
    ensures Purged(a, Spell(KeyOf(f, a.user, agent, detail))) <==>
            Cleaned(f) && (f.ProviderKey? ==> detail in PROVIDERS)
  {
    var parts := KeyOf(f, a.user, agent, detail);
    if !Cleaned(f) {
      UnlistedFamiliesSurvive(a, f, a.user, agent, detail);
    } else {
      PlainKey(f, a.user, agent, detail);
      PurgedIffOwned(a, Spell(parts));
      if f.ProviderKey? && detail !in PROVIDERS {
        if Owns(a, parts) { OwnedKeyNamesAProvider(a, parts); }
      } else {
        ListedFamiliesAreOwned(a.user, agent, f, detail);
        if AgentOwns(a.user, agent, parts) { AgentOfSome(a.user, a.agents, agent, parts); }
      }
    }
  }
}
