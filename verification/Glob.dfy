/** The model-pattern matcher (lib/scope.ts): a two-pointer scan with one
    backtrack point, against the anchored regular expression it replaced. */
module Glob {
  /** Characters `.` does not cross, so the wildcard must not either. */
  const LINE_TERMINATORS: set<char> := {'\n', '\r', '\U{2028}', '\U{2029}'}

  predicate CrossesLine(c: char) {
    c in LINE_TERMINATORS
  }

  /** The line terminators of ECMA-262, by code point. */
  lemma LineTerminatorsAre(c: char)
    ensures CrossesLine(c) <==> c as int in {10, 13, 8232, 8233}
  {
  }

  /** One way to spend a `*`: nothing, or one more character of the same line. */
  predicate Matches(p: string, s: string)
    decreases |p| + |s|
  {
    if p == "" then s == ""
    else if p[0] == '*' then
      || Matches(p[1..], s)
      || (s != "" && !CrossesLine(s[0]) && Matches(p, s[1..]))
    else
      s != "" && s[0] == p[0] && Matches(p[1..], s[1..])
  }

  function Stars(p: string): (n: nat)
    ensures n <= |p|
  {
    if p == "" then 0 else (if p[0] == '*' then 1 else 0) + Stars(p[1..])
  }

  predicate SingleLine(s: string) {
    forall i :: 0 <= i < |s| ==> !CrossesLine(s[i])
  }

  /** The pattern with its k-th star replaced by the k-th filling. */
  ghost function Expand(p: string, fillings: seq<string>): string
    requires |fillings| == Stars(p)
  {
    if p == "" then ""
    else if p[0] == '*' then fillings[0] + Expand(p[1..], fillings[1..])
    else [p[0]] + Expand(p[1..], fillings)
  }

  /** What the anchored regular expression says: some filling of every `.*` by
      text of one line spells the model out, every other character literal. */
  ghost predicate Denotes(p: string, s: string) {
    exists fillings: seq<string> ::
      && |fillings| == Stars(p)
      && (forall k :: 0 <= k < |fillings| ==> SingleLine(fillings[k]))
      && Expand(p, fillings) == s
  }

  lemma {:induction false} MatchesHasFilling(p: string, s: string) returns (fillings: seq<string>)
    requires Matches(p, s)
    ensures |fillings| == Stars(p)
    ensures forall k :: 0 <= k < |fillings| ==> SingleLine(fillings[k])
    ensures Expand(p, fillings) == s
    decreases |p| + |s|
  {
    if p == "" {
      fillings := [];
    } else if p[0] != '*' {
      fillings := MatchesHasFilling(p[1..], s[1..]);
    } else if Matches(p[1..], s) {
      var rest := MatchesHasFilling(p[1..], s);
      fillings := [""] + rest;
      assert fillings[1..] == rest;
    } else {
      var rest := MatchesHasFilling(p, s[1..]);
      fillings := [[s[0]] + rest[0]] + rest[1..];
      assert fillings[1..] == rest[1..];
      assert s == [s[0]] + s[1..];
    }
  }

  lemma {:induction false} FillingMatches(p: string, fillings: seq<string>)
    requires |fillings| == Stars(p)
    requires forall k :: 0 <= k < |fillings| ==> SingleLine(fillings[k])
    ensures Matches(p, Expand(p, fillings))
  {
    if p == "" {
    } else if p[0] == '*' {
      FillingMatches(p[1..], fillings[1..]);
      StarAbsorbs(p, fillings[0], Expand(p[1..], fillings[1..]));
    } else {
      FillingMatches(p[1..], fillings);
      assert Expand(p, fillings)[1..] == Expand(p[1..], fillings);
    }
  }

  /** The matcher's relation is exactly the regular expression's. */
  lemma MatchesIsRegularExpression(p: string, s: string)
    ensures Matches(p, s) <==> Denotes(p, s)
  {
    if Matches(p, s) {
      var fillings := MatchesHasFilling(p, s);
      assert Expand(p, fillings) == s;
    }
    if Denotes(p, s) {
      var fillings: seq<string> :|
        && |fillings| == Stars(p)
        && (forall k :: 0 <= k < |fillings| ==> SingleLine(fillings[k]))
        && Expand(p, fillings) == s;
      FillingMatches(p, fillings);
    }
  }

  /** A leading star takes any text of one line in front of what it matches. */
  lemma {:induction false} StarAbsorbs(p: string, line: string, s: string)
    requires p != "" && p[0] == '*'
    requires SingleLine(line)
    requires Matches(p, s) || Matches(p[1..], s)
    ensures Matches(p, line + s)
  {
    if line == "" {
      assert line + s == s;
    } else {
      StarAbsorbs(p, line[1..], s);
      assert (line + s)[1..] == line[1..] + s;
    }
  }

  predicate Literal(p: string) {
    '*' !in p
  }

  /** A literal stretch matches only itself. */
  lemma {:induction false} LiteralPrefix(lit: string, rest: string, s: string)
    requires Literal(lit)
    ensures Matches(lit + rest, s) <==> lit <= s && Matches(rest, s[|lit|..])
  {
    if lit == "" {
      assert lit + rest == rest && s[0..] == s;
    } else {
      assert (lit + rest)[1..] == lit[1..] + rest;
      if s != "" {
        LiteralPrefix(lit[1..], rest, s[1..]);
        if lit <= s {
          assert lit[1..] <= s[1..] && s[1..][|lit| - 1..] == s[|lit|..];
        }
        if s[0] == lit[0] && lit[1..] <= s[1..] {
          assert lit == [lit[0]] + lit[1..] && s == [s[0]] + s[1..];
        }
      }
    }
  }

  /** How a star is spent: on some single line, then the rest of the pattern. */
  lemma {:induction false} StarSplits(p: string, s: string) returns (d: nat)
    requires p != "" && p[0] == '*' && Matches(p, s)
    ensures d <= |s| && SingleLine(s[..d]) && Matches(p[1..], s[d..])
    decreases |s|
  {
    if Matches(p[1..], s) {
      d := 0;
      assert s[0..] == s;
    } else {
      var e := StarSplits(p, s[1..]);
      d := e + 1;
      assert s[d..] == s[1..][e..];
      assert forall i :: 0 < i < d ==> s[..d][i] == s[1..][..e][i - 1];
    }
  }

  /** If a literal occurs at 0 and again at d, and the d characters in front
      of the second occurrence stay on one line, then so do the d characters
      after the first: a terminator in the literal would recur every d
      characters back to the front. */
  lemma {:induction false} ShiftStaysOnLine(s: string, len: nat, d: nat, i: nat)
    requires d >= 1 && d + len <= |s|
    requires s[..len] == s[d..d + len]
    requires SingleLine(s[..d])
    requires i < d + len
    ensures !CrossesLine(s[i])
    decreases i
  {
    if i < d {
      assert s[i] == s[..d][i];
    } else {
      assert s[i] == s[d..d + len][i - d] == s[..len][i - d] == s[i - d];
      ShiftStaysOnLine(s, len, d, i - d);
    }
  }

  /** Why one backtrack point is enough. When the scan meets a second star after
      matching `lit` as early as it could, giving the first star more text
      cannot help: whatever that would reach, the second star reaches too. */
  lemma LaterStarSubsumes(lit: string, rest: string, s: string)
    requires Literal(lit) && lit <= s
    requires rest != "" && rest[0] == '*'
    requires s != "" && !CrossesLine(s[0]) && Matches("*" + lit + rest, s[1..])
    ensures Matches(rest, s[|lit|..])
  {
    var d := FirstStarReaches(lit, rest, s);
    SecondStarGap(lit, s, d);
    StarAbsorbs(rest, s[|lit|..d + |lit|], s[d + |lit|..]);
  }

  lemma SecondStarGap(lit: string, s: string, d: nat)
    requires lit <= s && d >= 1 && d + |lit| <= |s|
    requires s[d..d + |lit|] == lit && SingleLine(s[..d])
    ensures SingleLine(s[|lit|..d + |lit|])
    ensures s[|lit|..] == s[|lit|..d + |lit|] + s[d + |lit|..]
  {
    var gap := s[|lit|..d + |lit|];
    forall i | 0 <= i < |gap| ensures !CrossesLine(gap[i]) {
      ShiftStaysOnLine(s, |lit|, d, |lit| + i);
    }
  }

  /** Where the literal lands when the first star takes at least one character. */
  lemma FirstStarReaches(lit: string, rest: string, s: string) returns (d: nat)
    requires Literal(lit)
    requires s != "" && !CrossesLine(s[0]) && Matches("*" + lit + rest, s[1..])
    ensures d >= 1 && d + |lit| <= |s| && SingleLine(s[..d])
    ensures s[d..d + |lit|] == lit && Matches(rest, s[d + |lit|..])
  {
    var p := "*" + lit + rest;
    assert p[1..] == lit + rest;
    var e := StarSplits(p, s[1..]);
    d := e + 1;
    assert s[1..][e..] == s[d..];
    LiteralPrefix(lit, rest, s[d..]);
    assert s[d..][|lit|..] == s[d + |lit|..];
    assert s[d..][..|lit|] == s[d..d + |lit|];
    assert forall i :: 0 < i < d ==> s[..d][i] == s[1..][..e][i - 1];
  }

  /** Nothing shorter than its literal characters is ever matched. */
  lemma {:induction false} MatchIsLongEnough(p: string, s: string)
    requires Matches(p, s)
    ensures |p| - Stars(p) <= |s|
    decreases |p| + |s|
  {
    if p == "" {
    } else if p[0] != '*' {
      MatchIsLongEnough(p[1..], s[1..]);
    } else if Matches(p[1..], s) {
      MatchIsLongEnough(p[1..], s);
    } else {
      MatchIsLongEnough(p, s[1..]);
    }
  }

  lemma {:induction false} StarsOfAppend(a: string, b: string)
    ensures Stars(a + b) == Stars(a) + Stars(b)
  {
    if a == "" {
      assert a + b == b;
    } else {
      assert (a + b)[1..] == a[1..] + b;
      StarsOfAppend(a[1..], b);
    }
  }

  lemma {:induction false} NoStarsMeansLiteral(p: string)
    ensures Stars(p) == 0 <==> Literal(p)
  {
    if p != "" {
      NoStarsMeansLiteral(p[1..]);
      assert p == [p[0]] + p[1..];
    }
  }

  /** A star followed by a literal longer than `s` cannot match it. */
  lemma StarNeedsItsLiteral(lit: string, rest: string, s: string)
    requires Literal(lit) && |s| < |lit|
    ensures !Matches("*" + lit + rest, s)
  {
    NoStarsMeansLiteral(lit);
    StarsOfAppend("*" + lit, rest);
    StarsOfAppend("*", lit);
    assert Stars("*") == 1 + Stars("*"[1..]);
    if Matches("*" + lit + rest, s) {
      MatchIsLongEnough("*" + lit + rest, s);
      assert false;
    }
  }

  /** What the second chance at the last star is worth. */
  ghost predicate ByBacktracking(pattern: string, model: string, starP: int, starM: nat)
    requires -1 <= starP < |pattern| && starM <= |model|
  {
    && starP >= 0
    && starM < |model|
    && !CrossesLine(model[starM])
    && Matches(pattern[starP..], model[starM + 1..])
  }

  /** The last star sits at `starP`, and the literal after it has matched the
      text from `starM` up to the scan. */
  ghost predicate Aligned(pattern: string, model: string, p: nat, m: nat, starP: int, starM: nat) {
    && p <= |pattern| && starM <= m <= |model| && -1 <= starP < |pattern|
    && (starP >= 0 ==>
          && starP < p
          && pattern[starP] == '*'
          && p - starP - 1 == m - starM
          && (forall j :: starP < j < p ==> pattern[j] == model[j - starP - 1 + starM])
          && Literal(pattern[starP + 1..p]))
  }

  lemma AlignedText(pattern: string, model: string, p: nat, m: nat, starP: int, starM: nat)
    requires Aligned(pattern, model, p, m, starP, starM)
    ensures starP >= 0 ==> pattern[starP + 1..p] == model[starM..m]
  {
  }

  /** Everything still open: this alignment, or a longer last star. */
  ghost predicate Open(pattern: string, model: string, p: nat, m: nat, starP: int, starM: nat)
    requires Aligned(pattern, model, p, m, starP, starM)
  {
    Matches(pattern[p..], model[m..]) || ByBacktracking(pattern, model, starP, starM)
  }

  /** Meeting a new star forgets the old one for good. */
  lemma AtStar(pattern: string, model: string, p: nat, m: nat, starP: int, starM: nat)
    requires Aligned(pattern, model, p, m, starP, starM)
    requires p < |pattern| && pattern[p] == '*'
    ensures Aligned(pattern, model, p + 1, m, p, m)
    ensures Open(pattern, model, p, m, starP, starM) <==> Open(pattern, model, p + 1, m, p, m)
  {
    assert pattern[p..][1..] == pattern[p + 1..];
    if m < |model| {
      assert model[m..][0] == model[m] && model[m..][1..] == model[m + 1..];
    }
    AlignedText(pattern, model, p, m, starP, starM);
    if ByBacktracking(pattern, model, starP, starM) {
      var lit, s := pattern[starP + 1..p], model[starM..];
      assert pattern[starP..] == "*" + lit + pattern[p..];
      assert s[1..] == model[starM + 1..] && s[0] == model[starM];
      assert s[..|lit|] == model[starM..m];
      LaterStarSubsumes(lit, pattern[p..], s);
      assert s[|lit|..] == model[m..];
    }
  }

  /** A literal that agrees keeps the alignment open. */
  lemma AtLiteral(pattern: string, model: string, p: nat, m: nat, starP: int, starM: nat)
    requires Aligned(pattern, model, p, m, starP, starM)
    requires p < |pattern| && m < |model| && pattern[p] != '*' && pattern[p] == model[m]
    ensures Aligned(pattern, model, p + 1, m + 1, starP, starM)
    ensures Open(pattern, model, p, m, starP, starM) <==> Open(pattern, model, p + 1, m + 1, starP, starM)
  {
    assert pattern[p..][1..] == pattern[p + 1..];
    assert model[m..][1..] == model[m + 1..];
    if starP >= 0 {
      assert pattern[starP + 1..p + 1] == pattern[starP + 1..p] + [pattern[p]];
      assert model[starM..m + 1] == model[starM..m] + [model[m]];
    }
  }

  /** One that disagrees closes it. */
  lemma AtMismatch(pattern: string, model: string, p: nat, m: nat)
    requires p <= |pattern| && m < |model|
    requires p < |pattern| ==> pattern[p] != '*' && pattern[p] != model[m]
    ensures !Matches(pattern[p..], model[m..])
  {
  }

  /** The retry gives the last star exactly one more character. */
  lemma AtBacktrack(pattern: string, model: string, p: nat, m: nat, starP: int, starM: nat)
    requires Aligned(pattern, model, p, m, starP, starM)
    requires !Matches(pattern[p..], model[m..])
    requires starP >= 0 && starM < |model| && !CrossesLine(model[starM])
    ensures Aligned(pattern, model, starP + 1, starM + 1, starP, starM + 1)
    ensures Open(pattern, model, p, m, starP, starM) <==>
            Open(pattern, model, starP + 1, starM + 1, starP, starM + 1)
  {
    assert pattern[starP..][1..] == pattern[starP + 1..];
    if starM + 1 < |model| {
      assert model[starM + 1..][0] == model[starM + 1];
      assert model[starM + 1..][1..] == model[starM + 2..];
    }
  }

  /** Running out of model leaves the last star nothing to give. */
  lemma AtEndOfModel(pattern: string, model: string, p: nat, starP: int, starM: nat)
    requires Aligned(pattern, model, p, |model|, starP, starM)
    ensures Open(pattern, model, p, |model|, starP, starM) <==> Matches(pattern[p..], "")
  {
    assert model[|model|..] == "";
    if starP >= 0 && starM < |model| {
      var lit := pattern[starP + 1..p];
      assert pattern[starP..] == "*" + lit + pattern[p..];
      StarNeedsItsLiteral(lit, pattern[p..], model[starM + 1..]);
    }
  }

  ghost function Times(a: nat, k: nat): nat {
    if a == 0 then 0 else Times(a - 1, k) + k
  }

  lemma {:induction false} Grow(a: nat, b: nat, k: nat)
    requires a <= b
    ensures Times(a, k) <= Times(b, k)
    ensures a < b ==> Times(a, k) + k <= Times(b, k)
  {
    if a < b {
      Grow(a, b - 1, k);
    }
  }

  lemma {:induction false} TimesIsProduct(a: nat, k: nat)
    ensures Times(a, k) == a * k
  {
    if a > 0 {
      TimesIsProduct(a - 1, k);
      assert a * k == (a - 1) * k + k;
    }
  }

  /** Where the scan stands: what is still open decides the match, and the work
      so far is paid for by the text each star has taken. */
  ghost predicate Scanned(pattern: string, model: string, p: nat, m: nat, starP: int, starM: nat, steps: nat) {
    && Aligned(pattern, model, p, m, starP, starM)
    && (Matches(pattern, model) <==> Open(pattern, model, p, m, starP, starM))
    && steps <= Times(starM, |pattern| + 1) + p
  }

  lemma ScannedNothing(pattern: string, model: string)
    ensures Scanned(pattern, model, 0, 0, -1, 0, 0)
  {
    assert pattern[0..] == pattern && model[0..] == model;
  }

  lemma ScanStar(pattern: string, model: string, p: nat, m: nat, starP: int, starM: nat, steps: nat)
    requires Scanned(pattern, model, p, m, starP, starM, steps)
    requires p < |pattern| && pattern[p] == '*'
    ensures Scanned(pattern, model, p + 1, m, p, m, steps + 1)
  {
    AtStar(pattern, model, p, m, starP, starM);
    Grow(starM, m, |pattern| + 1);
  }

  lemma ScanLiteral(pattern: string, model: string, p: nat, m: nat, starP: int, starM: nat, steps: nat)
    requires Scanned(pattern, model, p, m, starP, starM, steps)
    requires p < |pattern| && m < |model| && pattern[p] != '*' && pattern[p] == model[m]
    ensures Scanned(pattern, model, p + 1, m + 1, starP, starM, steps + 1)
  {
    AtLiteral(pattern, model, p, m, starP, starM);
  }

  lemma ScanBack(pattern: string, model: string, p: nat, m: nat, starP: int, starM: nat, steps: nat)
    requires Scanned(pattern, model, p, m, starP, starM, steps)
    requires m < |model| && (p < |pattern| ==> pattern[p] != '*' && pattern[p] != model[m])
    requires starP >= 0 && !CrossesLine(model[starM])
    ensures Scanned(pattern, model, starP + 1, starM + 1, starP, starM + 1, steps + 1)
  {
    AtMismatch(pattern, model, p, m);
    AtBacktrack(pattern, model, p, m, starP, starM);
    Grow(starM, starM + 1, |pattern| + 1);
  }

  lemma ScanDead(pattern: string, model: string, p: nat, m: nat, starP: int, starM: nat, steps: nat)
    requires Scanned(pattern, model, p, m, starP, starM, steps)
    requires m < |model| && (p < |pattern| ==> pattern[p] != '*' && pattern[p] != model[m])
    requires starP < 0 || CrossesLine(model[starM])
    ensures !Matches(pattern, model) && steps + 1 <= Times(|model| + 1, |pattern| + 1)
  {
    AtMismatch(pattern, model, p, m);
    Grow(starM, |model| + 1, |pattern| + 1);
  }

  lemma ScanEnd(pattern: string, model: string, p: nat, starP: int, starM: nat, steps: nat)
    requires Scanned(pattern, model, p, |model|, starP, starM, steps)
    ensures Matches(pattern, model) <==> Matches(pattern[p..], "")
    ensures p <= |pattern| && steps + (|pattern| - p) <= Times(|model| + 1, |pattern| + 1)
  {
    AtEndOfModel(pattern, model, p, starP, starM);
    Grow(starM, |model| + 1, |pattern| + 1);
  }

  /** The scan decides the regular expression, and its work has a ceiling with
      no exponent in it. */
  method GlobMatchWork(pattern: string, model: string) returns (matched: bool, steps: nat)
    ensures matched <==> Matches(pattern, model)
    ensures steps <= (|model| + 1) * (|pattern| + 1)
  {
    matched, steps := Scan(pattern, model);
    TimesIsProduct(|model| + 1, |pattern| + 1);
  }

  method Scan(pattern: string, model: string) returns (matched: bool, steps: nat)
    ensures matched <==> Matches(pattern, model)
    ensures steps <= Times(|model| + 1, |pattern| + 1)
  {
    var p: nat, m: nat, starP: int, starM: nat := 0, 0, -1, 0;
    steps := 0;
    ScannedNothing(pattern, model);
    while m < |model|
      invariant p <= |pattern| && starM <= m <= |model| && -1 <= starP < |pattern|
      invariant Scanned(pattern, model, p, m, starP, starM, steps)
      decreases |model| - starM, |pattern| - p
    {
      var dead: bool;
      p, m, starP, starM, dead := ScanOne(pattern, model, p, m, starP, starM, steps);
      steps := steps + 1;
      if dead { return false, steps; }
    }
    matched, steps := FinishScan(pattern, model, p, starP, starM, steps);
  }

  /** Out of text: only trailing stars can still match. */
  method FinishScan(pattern: string, model: string, p: nat, ghost starP: int, ghost starM: nat, before: nat)
    returns (matched: bool, steps: nat)
    requires Scanned(pattern, model, p, |model|, starP, starM, before)
    ensures matched <==> Matches(pattern, model)
    ensures steps <= Times(|model| + 1, |pattern| + 1)
  {
    ScanEnd(pattern, model, p, starP, starM, before);
    var q := SkipStars(pattern, p);
    matched, steps := q == |pattern|, before + (q - p);
  }

  /** One turn of the loop: take a star, agree on a character, or go back. */
  method ScanOne(pattern: string, model: string, p0: nat, m0: nat, starP0: int, starM0: nat, ghost steps: nat)
    returns (p: nat, m: nat, starP: int, starM: nat, dead: bool)
    requires p0 <= |pattern| && starM0 <= m0 < |model| && -1 <= starP0 < |pattern|
    requires Scanned(pattern, model, p0, m0, starP0, starM0, steps)
    ensures p <= |pattern| && starM <= m <= |model| && -1 <= starP < |pattern|
    ensures !dead ==> Scanned(pattern, model, p, m, starP, starM, steps + 1)
    ensures !dead ==> starM0 < starM || (starM0 == starM && p0 < p)
    ensures dead ==> !Matches(pattern, model) && steps + 1 <= Times(|model| + 1, |pattern| + 1)
  {
    if p0 < |pattern| && pattern[p0] == '*' {
      ScanStar(pattern, model, p0, m0, starP0, starM0, steps);
      return p0 + 1, m0, p0, m0, false;
    }
    p, m, starP, starM, dead := Agree(pattern, model, p0, m0, starP0, starM0, steps);
  }

  method Agree(pattern: string, model: string, p0: nat, m0: nat, starP0: int, starM0: nat, ghost steps: nat)
    returns (p: nat, m: nat, starP: int, starM: nat, dead: bool)
    requires p0 <= |pattern| && starM0 <= m0 < |model| && -1 <= starP0 < |pattern|
    requires Scanned(pattern, model, p0, m0, starP0, starM0, steps)
    requires p0 < |pattern| ==> pattern[p0] != '*'
    ensures p <= |pattern| && starM <= m <= |model| && -1 <= starP < |pattern|
    ensures !dead ==> Scanned(pattern, model, p, m, starP, starM, steps + 1)
    ensures !dead ==> starM0 < starM || (starM0 == starM && p0 < p)
    ensures dead ==> !Matches(pattern, model) && steps + 1 <= Times(|model| + 1, |pattern| + 1)
  {
    if p0 < |pattern| && pattern[p0] == model[m0] {
      ScanLiteral(pattern, model, p0, m0, starP0, starM0, steps);
      return p0 + 1, m0 + 1, starP0, starM0, false;
    }
    p, m, starP, starM, dead := GoBack(pattern, model, p0, m0, starP0, starM0, steps);
  }

  method GoBack(pattern: string, model: string, p0: nat, m0: nat, starP0: int, starM0: nat, ghost steps: nat)
    returns (p: nat, m: nat, starP: int, starM: nat, dead: bool)
    requires p0 <= |pattern| && starM0 <= m0 < |model| && -1 <= starP0 < |pattern|
    requires Scanned(pattern, model, p0, m0, starP0, starM0, steps)
    requires p0 < |pattern| ==> pattern[p0] != '*' && pattern[p0] != model[m0]
    ensures p <= |pattern| && starM <= m <= |model| && -1 <= starP < |pattern|
    ensures !dead ==> Scanned(pattern, model, p, m, starP, starM, steps + 1) && starM0 < starM
    ensures dead ==> !Matches(pattern, model) && steps + 1 <= Times(|model| + 1, |pattern| + 1)
  {
    if starP0 >= 0 && !CrossesLine(model[starM0]) {
      ScanBack(pattern, model, p0, m0, starP0, starM0, steps);
      return starP0 + 1, starM0 + 1, starP0, starM0 + 1, false;
    }
    ScanDead(pattern, model, p0, m0, starP0, starM0, steps);
    return p0, m0, starP0, starM0, true;
  }

  /** Trailing stars match nothing and cost one step each. */
  method SkipStars(pattern: string, start: nat) returns (p: nat)
    requires start <= |pattern|
    ensures start <= p <= |pattern|
    ensures Matches(pattern[start..], "") <==> p == |pattern|
  {
    p := start;
    while p < |pattern| && pattern[p] == '*'
      invariant start <= p <= |pattern|
      invariant Matches(pattern[start..], "") <==> Matches(pattern[p..], "")
    {
      assert pattern[p..][1..] == pattern[p + 1..];
      p := p + 1;
    }
  }
}
