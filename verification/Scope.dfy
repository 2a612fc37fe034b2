/** What a scope document allows (lib/scope.ts): the question every proxied call
    is answered by. */
module Scope {
  import opened Lists
  import Glob

  const MAX_MODEL_LEN := 200
  const MAX_WILDCARDS := 4

  datatype ScopeEntry = ScopeEntry(provider: string, models: seq<string>)
  datatype RuleMatch = RuleMatch(provider: string, pattern: string)

  predicate PatternIsBounded(pattern: string) {
    |pattern| <= MAX_MODEL_LEN && Glob.Stars(pattern) <= MAX_WILDCARDS
  }

  predicate ModelMatches(pattern: string, model: string) {
    if |model| > MAX_MODEL_LEN then false
    else if pattern == "*" then true
    else if !PatternIsBounded(pattern) then false
    else if '*' !in pattern then pattern == model
    else Glob.Matches(pattern, model)
  }

  /** The matcher this one replaced, without the pattern bound. */
  ghost predicate LegacyMatches(pattern: string, model: string) {
    && |model| <= MAX_MODEL_LEN
    && (|| pattern == "*"
        || (if '*' !in pattern then pattern == model else Glob.Denotes(pattern, model)))
  }

  /** The rewrite widens nothing, and narrows only what the bound refuses. */
  lemma RewriteKeepsMeaning(pattern: string, model: string)
    ensures ModelMatches(pattern, model) <==> PatternIsBounded(pattern) && LegacyMatches(pattern, model)
  {
    Glob.MatchesIsRegularExpression(pattern, model);
    assert Glob.Stars("*") == 1 + Glob.Stars("*"[1..]);
  }

  /** A model id of up to 200 characters matches a lone star, an equal pattern
      without stars, or a bounded pattern whose stars some text of one line fills. */
  lemma MatchingMeans(pattern: string, model: string)
    ensures ModelMatches(pattern, model) <==>
            && |model| <= 200 && |pattern| <= 200 && Glob.Stars(pattern) <= 4
            && (if '*' in pattern then pattern == "*" || Glob.Denotes(pattern, model) else pattern == model)
  {
    RewriteKeepsMeaning(pattern, model);
    assert Glob.Stars("*") == 1 + Glob.Stars("*"[1..]);
  }

  method ModelMatchesByScan(pattern: string, model: string) returns (matched: bool)
    ensures matched <==> ModelMatches(pattern, model)
  {
    if |model| > MAX_MODEL_LEN { return false; }
    if pattern == "*" { return true; }
    if !PatternIsBounded(pattern) { return false; }
    if '*' !in pattern { return pattern == model; }
    var steps: nat;
    matched, steps := Glob.GlobMatchWork(pattern, model);
  }

  /** `models.find(...)`. */
  function FirstMatch(models: seq<string>, model: string): (r: Option<string>)
    ensures r.Some? ==> r.value in models && ModelMatches(r.value, model)
    ensures r.None? <==> forall x :: x in models ==> !ModelMatches(x, model)
  {
    if models == [] then None
    else
      assert models == [models[0]] + models[1..];
      if ModelMatches(models[0], model) then Some(models[0]) else FirstMatch(models[1..], model)
  }

  /** A row speaks only when its first matching pattern is a non-empty string:
      the matcher tests the found pattern for truth, not for presence. */
  predicate RowGrants(models: seq<string>, model: string) {
    FirstMatch(models, model).Some? && FirstMatch(models, model).value != ""
  }

  /** The rule that permits the call: the first row for the provider that speaks. */
  function Rule(scopes: seq<ScopeEntry>, provider: string, model: string): Option<RuleMatch> {
    if scopes == [] || |model| > MAX_MODEL_LEN then None
    else if scopes[0].provider == provider && RowGrants(scopes[0].models, model) then
      Some(RuleMatch(provider, FirstMatch(scopes[0].models, model).value))
    else Rule(scopes[1..], provider, model)
  }

  predicate Allows(scopes: seq<ScopeEntry>, provider: string, model: string) {
    Rule(scopes, provider, model).Some?
  }

  method ScopeRuleMatch(scopes: seq<ScopeEntry>, provider: string, model: string) returns (r: Option<RuleMatch>)
    ensures r == Rule(scopes, provider, model)
  {
    if |model| > MAX_MODEL_LEN { return None; }
    for i := 0 to |scopes|
      invariant Rule(scopes, provider, model) == Rule(scopes[i..], provider, model)
    {
      assert scopes[i..][1..] == scopes[i + 1..];
      if scopes[i].provider != provider { continue; }
      var pattern := FirstMatch(scopes[i].models, model);
      if pattern.Some? && pattern.value != "" {
        return Some(RuleMatch(scopes[i].provider, pattern.value));
      }
    }
    r := None;
  }

  /** Pattern k is the row's first to match. */
  ghost predicate MatchesFirst(models: seq<string>, k: int, model: string) {
    && 0 <= k < |models| && ModelMatches(models[k], model)
    && forall j :: 0 <= j < k ==> !ModelMatches(models[j], model)
  }

  /** Row i of the provider is the first that speaks, and it speaks by pattern k. */
  ghost predicate SpeaksBy(scopes: seq<ScopeEntry>, i: int, k: int, provider: string, model: string) {
    && 0 <= i < |scopes| && scopes[i].provider == provider
    && MatchesFirst(scopes[i].models, k, model) && scopes[i].models[k] != ""
    && forall h :: 0 <= h < i && scopes[h].provider == provider ==> Silent(scopes[h].models, model)
  }

  /** No pattern of the row matches, or the first that does is the empty one. */
  ghost predicate Silent(models: seq<string>, model: string) {
    || (forall k :: 0 <= k < |models| ==> !ModelMatches(models[k], model))
    || (exists k :: MatchesFirst(models, k, model) && models[k] == "")
  }

  lemma {:induction false} FirstMatchIsAt(models: seq<string>, model: string) returns (k: nat)
    requires FirstMatch(models, model).Some?
    ensures MatchesFirst(models, k, model) && FirstMatch(models, model) == Some(models[k])
  {
    if ModelMatches(models[0], model) {
      k := 0;
    } else {
      var at := FirstMatchIsAt(models[1..], model);
      k := at + 1;
      forall j | 0 <= j < k ensures !ModelMatches(models[j], model) {
        assert j > 0 ==> models[j] == models[1..][j - 1];
      }
    }
  }

  lemma FirstMatchUnique(models: seq<string>, k: int, model: string)
    requires MatchesFirst(models, k, model)
    ensures FirstMatch(models, model) == Some(models[k])
  {
    assert models[k] in models;
    var at := FirstMatchIsAt(models, model);
  }

  lemma SilentIsNoGrant(models: seq<string>, model: string)
    ensures Silent(models, model) <==> !RowGrants(models, model)
  {
    if FirstMatch(models, model).Some? {
      var k := FirstMatchIsAt(models, model);
      assert ModelMatches(models[k], model);
      if j :| MatchesFirst(models, j, model) && models[j] == "" {
        FirstMatchUnique(models, j, model);
      }
    } else {
      forall k | 0 <= k < |models| ensures !ModelMatches(models[k], model) {
        assert models[k] in models;
      }
    }
  }

  /** The rule reported names the provider and the pattern that decided: the first
      match of the provider's first row to speak. */
  lemma {:induction false} RuleIsTheFirstToSpeak(scopes: seq<ScopeEntry>, provider: string, model: string)
      returns (i: int, k: int)
    requires Rule(scopes, provider, model).Some?
    ensures SpeaksBy(scopes, i, k, provider, model)
    ensures Rule(scopes, provider, model) == Some(RuleMatch(provider, scopes[i].models[k]))
    ensures |model| <= 200
  {
    if scopes[0].provider == provider && RowGrants(scopes[0].models, model) {
      i := 0;
      k := FirstMatchIsAt(scopes[0].models, model);
    } else {
      var h: int;
      h, k := RuleIsTheFirstToSpeak(scopes[1..], provider, model);
      i := h + 1;
      SilentIsNoGrant(scopes[0].models, model);
      forall g | 0 <= g < i && scopes[g].provider == provider ensures Silent(scopes[g].models, model) {
        assert g > 0 ==> scopes[g] == scopes[1..][g - 1];
      }
    }
  }

  ghost predicate SomeRowGrants(scopes: seq<ScopeEntry>, provider: string, model: string) {
    exists i :: 0 <= i < |scopes| && scopes[i].provider == provider && RowGrants(scopes[i].models, model)
  }

  lemma {:induction false} AllowsIsSomeRow(scopes: seq<ScopeEntry>, provider: string, model: string)
    ensures Allows(scopes, provider, model) <==>
            |model| <= 200 && SomeRowGrants(scopes, provider, model)
  {
    if scopes != [] && |model| <= MAX_MODEL_LEN {
      var tail := scopes[1..];
      AllowsIsSomeRow(tail, provider, model);
      if SomeRowGrants(tail, provider, model) {
        var i :| 0 <= i < |tail| && tail[i].provider == provider && RowGrants(tail[i].models, model);
        assert scopes[i + 1] == tail[i];
      }
      if SomeRowGrants(scopes, provider, model) && !(scopes[0].provider == provider && RowGrants(scopes[0].models, model)) {
        var i :| 0 <= i < |scopes| && scopes[i].provider == provider && RowGrants(scopes[i].models, model);
        assert tail[i - 1] == scopes[i];
      }
    }
  }

  lemma AllowsAppend(a: seq<ScopeEntry>, b: seq<ScopeEntry>, provider: string, model: string)
    ensures Allows(a + b, provider, model) <==> Allows(a, provider, model) || Allows(b, provider, model)
  {
    AllowsIsSomeRow(a, provider, model);
    AllowsIsSomeRow(b, provider, model);
    AllowsIsSomeRow(a + b, provider, model);
    if SomeRowGrants(a, provider, model) {
      var i :| 0 <= i < |a| && a[i].provider == provider && RowGrants(a[i].models, model);
      assert (a + b)[i] == a[i];
    }
    if SomeRowGrants(b, provider, model) {
      var i :| 0 <= i < |b| && b[i].provider == provider && RowGrants(b[i].models, model);
      assert (a + b)[|a| + i] == b[i];
    }
  }

  lemma {:induction false} FirstMatchAppend(a: seq<string>, b: seq<string>, model: string)
    ensures FirstMatch(a + b, model) == if FirstMatch(a, model).Some? then FirstMatch(a, model) else FirstMatch(b, model)
  {
    if a == [] {
      assert a + b == b;
    } else {
      assert (a + b)[1..] == a[1..] + b;
      FirstMatchAppend(a[1..], b, model);
    }
  }

  /** Dropping repeats never changes which pattern answers. */
  lemma {:induction false} FirstMatchOfDedup(models: seq<string>, model: string)
    ensures FirstMatch(Dedup(models), model) == FirstMatch(models, model)
  {
    if models != [] {
      var init, last := models[..|models| - 1], models[|models| - 1];
      assert models == init + [last];
      FirstMatchOfDedup(init, model);
      DedupSnoc(init, last);
      FirstMatchAppend(init, [last], model);
      FirstMatchAppend(Dedup(init), [last], model);
    }
  }
}
