/** Ranking a provider's model listing (lib/agent-connect.ts): what the picker
    suggests, what it lists besides, and the one model it fills in. */
module ModelRanking {
  import opened Lists
  import opened Scope
  import opened Sorting
  import T = Text

  const SUGGESTION_LIMIT := 24

  datatype Tier = General | Snapshot | Legacy | Specialist

  /** How an id's shape is read. Both are heuristics over names, so nothing here
      depends on which they are. */
  datatype Shapes = Shapes(tierOf: (string, set<string>) -> Tier, versionOf: string -> Option<nat>)

  datatype Ranked = Ranked(general: seq<string>, snapshot: seq<string>, legacy: seq<string>, specialist: seq<string>)
  datatype Split = Split(suggested: seq<string>, other: seq<string>)

  /** An id without a version sorts after every id with one. */
  function Rank(shapes: Shapes, id: string): int {
    var v := shapes.versionOf(id);
    if v.Some? then v.value else -1
  }

  function NewerFirst(shapes: Shapes): (string, string) -> bool {
    (a, b) => Rank(shapes, a) >= Rank(shapes, b)
  }

  function InTier(shapes: Shapes, listed: set<string>, tier: Tier): string -> bool {
    id => shapes.tierOf(id, listed) == tier
  }

  function OfTier(shapes: Shapes, ids: seq<string>, listed: set<string>, tier: Tier): seq<string> {
    Keep(ids, InTier(shapes, listed, tier))
  }

  function GeneralModels(shapes: Shapes, discovered: seq<string>): Ranked {
    var unique, listed := Dedup(discovered), Elements(discovered);
    Ranked(Sort(OfTier(shapes, unique, listed, General), NewerFirst(shapes)),
           OfTier(shapes, unique, listed, Snapshot),
           OfTier(shapes, unique, listed, Legacy),
           OfTier(shapes, unique, listed, Specialist))
  }

  lemma TierStep(shapes: Shapes, ids: seq<string>, id: string, listed: set<string>)
    ensures forall tier :: OfTier(shapes, ids + [id], listed, tier) ==
              if shapes.tierOf(id, listed) == tier then OfTier(shapes, ids, listed, tier) + [id]
              else OfTier(shapes, ids, listed, tier)
  {
    forall tier
      ensures OfTier(shapes, ids + [id], listed, tier) ==
              if shapes.tierOf(id, listed) == tier then OfTier(shapes, ids, listed, tier) + [id]
              else OfTier(shapes, ids, listed, tier)
    {
      KeepLast(ids, id, InTier(shapes, listed, tier));
    }
  }

  method SortTiers(shapes: Shapes, discovered: seq<string>) returns (r: Ranked)
    ensures r == GeneralModels(shapes, discovered)
  {
    var unique, listed := Dedup(discovered), Elements(discovered);
    var general: seq<string>, snapshot: seq<string> := [], [];
    var legacy: seq<string>, specialist: seq<string> := [], [];
    for i := 0 to |unique|
      invariant general == OfTier(shapes, unique[..i], listed, General)
      invariant snapshot == OfTier(shapes, unique[..i], listed, Snapshot)
      invariant legacy == OfTier(shapes, unique[..i], listed, Legacy)
      invariant specialist == OfTier(shapes, unique[..i], listed, Specialist)
    {
      var id := unique[i];
      assert unique[..i + 1] == unique[..i] + [id];
      TierStep(shapes, unique[..i], id, listed);
      match shapes.tierOf(id, listed) {
        case General => general := general + [id];
        case Snapshot => snapshot := snapshot + [id];
        case Legacy => legacy := legacy + [id];
        case Specialist => specialist := specialist + [id];
      }
    }
    assert unique[..|unique|] == unique;
    r := Ranked(Sort(general, NewerFirst(shapes)), snapshot, legacy, specialist);
  }

  function RankDiscoveredModels(shapes: Shapes, discovered: seq<string>): Split {
    var r := GeneralModels(shapes, discovered);
    var n := if |r.general| < SUGGESTION_LIMIT then |r.general| else SUGGESTION_LIMIT;
    Split(r.general[..n], r.general[n..] + r.snapshot + r.legacy + r.specialist)
  }

  // ── A partition, in order ───────────────────────────────────────────────

  lemma NewerFirstOrders(shapes: Shapes)
    ensures TotalPreorder(NewerFirst(shapes))
  {
  }

  lemma TiersCount(shapes: Shapes, ids: seq<string>, listed: set<string>, x: string)
    ensures multiset(OfTier(shapes, ids, listed, General))[x] + multiset(OfTier(shapes, ids, listed, Snapshot))[x]
            + multiset(OfTier(shapes, ids, listed, Legacy))[x] + multiset(OfTier(shapes, ids, listed, Specialist))[x]
            == multiset(ids)[x]
  {
    KeepCounts(ids, InTier(shapes, listed, General), x);
    KeepCounts(ids, InTier(shapes, listed, Snapshot), x);
    KeepCounts(ids, InTier(shapes, listed, Legacy), x);
    KeepCounts(ids, InTier(shapes, listed, Specialist), x);
    forall tier ensures InTier(shapes, listed, tier)(x) <==> shapes.tierOf(x, listed) == tier {
    }
    match shapes.tierOf(x, listed)
    case General => case Snapshot => case Legacy => case Specialist =>
  }

  lemma SplitCounts(r: Ranked, split: Split)
    requires split.suggested <= r.general
    requires split.other == r.general[|split.suggested|..] + r.snapshot + r.legacy + r.specialist
    ensures multiset(split.suggested) + multiset(split.other)
            == multiset(r.general) + multiset(r.snapshot) + multiset(r.legacy) + multiset(r.specialist)
  {
    assert r.general == split.suggested + r.general[|split.suggested|..];
  }

  /** Every discovered id lands in exactly one of the two lists, once. */
  lemma RankingIsAPartition(shapes: Shapes, discovered: seq<string>)
    ensures var r := RankDiscoveredModels(shapes, discovered);
            multiset(r.suggested) + multiset(r.other) == multiset(Dedup(discovered))
  {
    var r := RankDiscoveredModels(shapes, discovered);
    var unique, listed := Dedup(discovered), Elements(discovered);
    SortPermutes(OfTier(shapes, unique, listed, General), NewerFirst(shapes));
    SplitCounts(GeneralModels(shapes, discovered), r);
    forall x ensures (multiset(r.suggested) + multiset(r.other))[x] == multiset(unique)[x] {
      TiersCount(shapes, unique, listed, x);
    }
  }

  lemma SplitSpells(general: seq<string>, n: nat, snapshot: seq<string>, legacy: seq<string>, specialist: seq<string>)
    requires n <= |general|
    ensures general[..n] + (general[n..] + snapshot + legacy + specialist) == general + snapshot + legacy + specialist
  {
    assert general == general[..n] + general[n..];
  }

  /** Twenty-four are suggested, or all the general ids there are; and the two lists
      one after the other are the general ids, then the snapshots, the legacy ids and
      the specialists, these three in the provider's own order. */
  lemma SuggestedThenOther(shapes: Shapes, discovered: seq<string>)
    ensures var r := RankDiscoveredModels(shapes, discovered);
            var general := GeneralModels(shapes, discovered).general;
            var unique, listed := Dedup(discovered), Elements(discovered);
            && |r.suggested| == (if |general| <= 24 then |general| else 24)
            && r.suggested + r.other ==
                 general + Keep(unique, (id: string) => shapes.tierOf(id, listed) == Snapshot)
                 + Keep(unique, (id: string) => shapes.tierOf(id, listed) == Legacy)
                 + Keep(unique, (id: string) => shapes.tierOf(id, listed) == Specialist)
  {
    var r, tiers := RankDiscoveredModels(shapes, discovered), GeneralModels(shapes, discovered);
    var unique, listed := Dedup(discovered), Elements(discovered);
    SplitSpells(tiers.general, |r.suggested|, tiers.snapshot, tiers.legacy, tiers.specialist);
    forall tier
      ensures OfTier(shapes, unique, listed, tier) == Keep(unique, (id: string) => shapes.tierOf(id, listed) == tier)
    {
      KeepSame(unique, InTier(shapes, listed, tier), (id: string) => shapes.tierOf(id, listed) == tier);
    }
  }

  lemma SortedPrefixLeads(ids: seq<string>, shapes: Shapes, i: nat, x: string)
    requires SortedBy(ids, NewerFirst(shapes)) && i < |ids| && x in ids
    requires forall j :: 0 <= j < i ==> ids[j] != x
    ensures Rank(shapes, ids[i]) >= Rank(shapes, x)
  {
    var j :| 0 <= j < |ids| && ids[j] == x;
    if j > i {
      assert NewerFirst(shapes)(ids[i], ids[j]);
    }
  }

  /** An id of unknown version is no newer than any, and of two known ones the higher
      is newer. */
  predicate NoNewer(shapes: Shapes, a: string, b: string) {
    match shapes.versionOf(a)
    case None => true
    case Some(m) => (match shapes.versionOf(b) case None => false case Some(n) => m <= n)
  }

  lemma RankIsVersion(shapes: Shapes, a: string, b: string)
    ensures Rank(shapes, b) >= Rank(shapes, a) <==> NoNewer(shapes, a, b)
    ensures Rank(shapes, a) == Rank(shapes, b) <==> shapes.versionOf(a) == shapes.versionOf(b)
  {
  }

  /** The suggestions are the newest general ids, at most 24 of them, and what is
      left out of them is no newer than anything in them. */
  lemma SuggestionsAreTheNewest(shapes: Shapes, discovered: seq<string>, i: nat, x: string)
    requires var r := RankDiscoveredModels(shapes, discovered);
             && i < |r.suggested| && x in Dedup(discovered)
             && shapes.tierOf(x, Elements(discovered)) == General && x !in r.suggested[..i]
    ensures var r := RankDiscoveredModels(shapes, discovered);
            && |r.suggested| <= 24
            && shapes.tierOf(r.suggested[i], Elements(discovered)) == General
            && NoNewer(shapes, x, r.suggested[i])
  {
    var r, general := RankDiscoveredModels(shapes, discovered), GeneralModels(shapes, discovered).general;
    GeneralIsSorted(shapes, discovered);
    var earlier := r.suggested[..i];
    assert forall j :: 0 <= j < i ==> general[j] == earlier[j];
    assert general[i] in general;
    SortedPrefixLeads(general, shapes, i, x);
    RankIsVersion(shapes, x, r.suggested[i]);
  }

  lemma GeneralIsSorted(shapes: Shapes, discovered: seq<string>)
    ensures var general := GeneralModels(shapes, discovered).general;
            && SortedBy(general, NewerFirst(shapes))
            && forall x :: x in general <==> x in Dedup(discovered) && shapes.tierOf(x, Elements(discovered)) == General
  {
    var unsorted := OfTier(shapes, Dedup(discovered), Elements(discovered), General);
    NewerFirstOrders(shapes);
    SortSorts(unsorted, NewerFirst(shapes));
    SortPermutes(unsorted, NewerFirst(shapes));
    SameElements(GeneralModels(shapes, discovered).general, unsorted);
  }

  /** Among ids of one version the provider's own order stands. */
  lemma EqualVersionsKeepListingOrder(shapes: Shapes, discovered: seq<string>, version: Option<nat>)
    ensures var same := (id: string) => shapes.versionOf(id) == version;
            Keep(GeneralModels(shapes, discovered).general, same) ==
            Keep(Keep(Dedup(discovered), (id: string) => shapes.tierOf(id, Elements(discovered)) == General), same)
  {
    var same := (id: string) => shapes.versionOf(id) == version;
    var rank: int := if version.Some? then version.value else -1;
    var ranked := (id: string) => Rank(shapes, id) == rank;
    var general := GeneralModels(shapes, discovered).general;
    var listed := OfTier(shapes, Dedup(discovered), Elements(discovered), General);
    SortIsStable(listed, NewerFirst(shapes), ranked);
    KeepSame(general, same, ranked);
    KeepSame(listed, same, ranked);
    KeepSame(Dedup(discovered), InTier(shapes, Elements(discovered), General),
             (id: string) => shapes.tierOf(id, Elements(discovered)) == General);
  }

  // ── The model to call ───────────────────────────────────────────────────

  predicate Alphanumeric(c: char) {
    'A' <= c <= 'Z' || 'a' <= c <= 'z' || '0' <= c <= '9'
  }

  predicate ModelChar(c: char) {
    Alphanumeric(c) || c == '.' || c == '_' || c == ':' || c == '/' || c == '-'
  }

  /** What a client can send: no wildcard, nothing to quote. */
  predicate ClientModelIsUsable(value: string) {
    var model := T.Trim(value);
    0 < |model| <= 200 && Alphanumeric(model[0]) && forall i :: 0 < i < |model| ==> ModelChar(model[i])
  }

  /** By ASCII codes: up to 200 letters, digits and `.` `_` `:` `/` `-`, the first a
      letter or a digit. */
  lemma UsableMeans(value: string, codes: seq<int>)
    requires var model := T.Trim(value); |codes| == |model| && forall i :: 0 <= i < |model| ==> codes[i] == model[i] as int
    ensures ClientModelIsUsable(value) <==>
            && 1 <= |codes| <= 200
            && (48 <= codes[0] <= 57 || 65 <= codes[0] <= 90 || 97 <= codes[0] <= 122)
            && forall i :: 0 <= i < |codes| ==>
                 48 <= codes[i] <= 57 || 65 <= codes[i] <= 90 || 97 <= codes[i] <= 122 || codes[i] in {45, 46, 47, 58, 95}
  {
  }

  function FirstFit(ids: seq<string>, fits: string -> bool): Option<string> {
    if ids == [] then None else if fits(ids[0]) then Some(ids[0]) else FirstFit(ids[1..], fits)
  }

  function PreferredClientModel(shapes: Shapes, provider: string, fallback: string, pattern: string,
                                discovered: seq<string>): string
  {
    if fallback in discovered then fallback
    else
      var scopes := if pattern != "" then [ScopeEntry(provider, [pattern])] else [];
      var matched := FirstFit(GeneralModels(shapes, discovered).general,
                              m => ClientModelIsUsable(m) && Allows(scopes, provider, m));
      if matched.Some? then matched.value else fallback
  }

  lemma {:induction false} FirstFitIsFirst(ids: seq<string>, fits: string -> bool)
    ensures FirstFit(ids, fits).None? <==> forall k :: 0 <= k < |ids| ==> !fits(ids[k])
    ensures FirstFit(ids, fits).Some? ==>
              exists k :: 0 <= k < |ids| && FirstFit(ids, fits).value == ids[k] && fits(ids[k])
                          && forall j :: 0 <= j < k ==> !fits(ids[j])
  {
    if ids != [] && !fits(ids[0]) {
      var rest := ids[1..];
      FirstFitIsFirst(rest, fits);
      if FirstFit(rest, fits).Some? {
        var k :| 0 <= k < |rest| && FirstFit(rest, fits).value == rest[k] && fits(rest[k])
          && forall j :: 0 <= j < k ==> !fits(rest[j]);
        assert ids[k + 1] == rest[k];
        forall j | 0 <= j < k + 1 ensures !fits(ids[j]) {
          assert j > 0 ==> ids[j] == rest[j - 1];
        }
      } else {
        forall k | 0 <= k < |ids| ensures !fits(ids[k]) {
          assert k > 0 ==> ids[k] == rest[k - 1];
        }
      }
    }
  }

  /** A concrete id that the default pattern authorizes. */
  predicate Fits(provider: string, pattern: string, id: string) {
    ClientModelIsUsable(id) && pattern != "" && Allows([ScopeEntry(provider, [pattern])], provider, id)
  }

  /** It is our own default if the key reports it; else the first of the general
      ids, newest first, that fits; and our default again only when none does. */
  lemma PreferredModelIsTheFirstFit(shapes: Shapes, provider: string, fallback: string, pattern: string,
                                    discovered: seq<string>)
    ensures var m := PreferredClientModel(shapes, provider, fallback, pattern, discovered);
            var general := GeneralModels(shapes, discovered).general;
            && (fallback in discovered ==> m == fallback)
            && (fallback !in discovered ==>
                  || (m == fallback && forall k :: 0 <= k < |general| ==> !Fits(provider, pattern, general[k]))
                  || exists k :: 0 <= k < |general| && m == general[k] && Fits(provider, pattern, m)
                                 && forall j :: 0 <= j < k ==> !Fits(provider, pattern, general[j]))
  {
    var scopes := if pattern != "" then [ScopeEntry(provider, [pattern])] else [];
    var fits := (m: string) => ClientModelIsUsable(m) && Allows(scopes, provider, m);
    var general := GeneralModels(shapes, discovered).general;
    forall id ensures fits(id) <==> Fits(provider, pattern, id) {
    }
    FirstFitIsFirst(general, fits);
  }

  /** Whatever the second kind of answer is, it is on the key and looks general. */
  lemma PreferredModelIsCovered(shapes: Shapes, provider: string, fallback: string, pattern: string,
                                discovered: seq<string>)
    ensures var m := PreferredClientModel(shapes, provider, fallback, pattern, discovered);
            || m == fallback
            || (&& fallback !in discovered && m in discovered && Fits(provider, pattern, m)
                && shapes.tierOf(m, Elements(discovered)) == General)
  {
    PreferredModelIsTheFirstFit(shapes, provider, fallback, pattern, discovered);
    GeneralIsSorted(shapes, discovered);
  }
}
