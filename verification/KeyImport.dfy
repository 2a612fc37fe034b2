/** The key import's scope step (components/KeyImportOnramp.tsx): a grant kept as
    comma-separated text, widened and narrowed by clicking what is on screen. */
module KeyImport {
  import opened Lists
  import opened ModelRanking
  import T = Text

  const OTHER_LIMIT := 24

  /** What the ranking offered for this key. */
  datatype Offer = Offer(suggested: seq<string>, other: seq<string>)

  datatype Click = Add(model: string) | Remove(model: string)

  function Selected(models: string): seq<string> {
    T.ParseList(models)
  }

  function Unselected(ids: seq<string>, models: string): seq<string> {
    Keep(ids, m => m !in Selected(models))
  }

  /** The chips: every suggestion not chosen yet, and the first of the others. */
  function Suggestions(offer: Offer, models: string): seq<string> {
    Unselected(offer.suggested, models)
  }

  function OtherShown(offer: Offer, models: string): seq<string> {
    Take(Unselected(offer.other, models), OTHER_LIMIT)
  }

  /** Every suggestion not chosen yet is on screen, and of the others not chosen the
      first twenty-four. */
  lemma ChipsAre(offer: Offer, models: string, m: string)
    ensures m in Suggestions(offer, models) <==> m in offer.suggested && m !in T.ParseList(models)
    ensures var left := Keep(offer.other, (id: string) => id !in T.ParseList(models));
            OtherShown(offer, models) == if |left| <= 24 then left else left[..24]
  {
    KeepSame(offer.other, (id: string) => id !in Selected(models), (id: string) => id !in T.ParseList(models));
  }

  predicate OnScreen(offer: Offer, models: string, click: Click) {
    match click
    case Add(m) => m in Suggestions(offer, models) || m in OtherShown(offer, models)
    case Remove(m) => m in Selected(models)
  }

  function Clicked(models: string, click: Click): string {
    match click
    case Add(m) => if m in Selected(models) then models else T.Join(Selected(models) + [m], ", ")
    case Remove(m) => T.Join(Keep(Selected(models), x => x != m), ", ")
  }

  class ScopeStep {
    var models: string

    constructor (concrete: string)
      ensures models == concrete
    {
      models := concrete;
    }

    method AddModel(modelToAdd: string)
      modifies this
      ensures models == Clicked(old(models), Add(modelToAdd))
    {
      if modelToAdd in Selected(models) { return; }
      models := T.Join(Selected(models) + [modelToAdd], ", ");
    }

    method RemoveModel(modelToRemove: string)
      modifies this
      ensures models == Clicked(old(models), Remove(modelToRemove))
    {
      models := T.Join(Keep(Selected(models), x => x != modelToRemove), ", ");
    }
  }

  predicate CanClick(offer: Offer, models: string, clicks: seq<Click>)
    decreases |clicks|
  {
    clicks == [] || (OnScreen(offer, models, clicks[0]) && CanClick(offer, Clicked(models, clicks[0]), clicks[1..]))
  }

  function AllClicked(models: string, clicks: seq<Click>): string
    decreases |clicks|
  {
    if clicks == [] then models else AllClicked(Clicked(models, clicks[0]), clicks[1..])
  }

  // ── The grant as a set ──────────────────────────────────────────────────

  /** Everything a run of clicks can put in the grant. */
  function Reachable(offer: Offer, prefilled: string): set<string> {
    {prefilled} + Elements(offer.suggested) + Elements(offer.other)
  }

  /** Ids as a listing gives them: trimmed, not empty, without a comma. */
  predicate Clean(offer: Offer, prefilled: string) {
    T.ListItem(prefilled) && T.ListItems(offer.suggested) && T.ListItems(offer.other)
  }

  lemma ItemOf(items: seq<string>, m: string)
    requires T.ListItems(items) && m in items
    ensures T.ListItem(m)
  {
    var i :| 0 <= i < |items| && items[i] == m;
  }

  lemma ClickChoosesAnItem(offer: Offer, prefilled: string, models: string, m: string)
    requires Clean(offer, prefilled) && OnScreen(offer, models, Add(m))
    ensures T.ListItem(m) && m in Reachable(offer, prefilled) && m !in Selected(models)
  {
    if m in Suggestions(offer, models) {
      ItemOf(offer.suggested, m);
    } else {
      assert m in Unselected(offer.other, models);
      ItemOf(offer.other, m);
    }
  }

  /** The text is only a spelling: adding and removing read back as just that. */
  lemma {:induction false} AddReadsBack(models: string, m: string)
    requires T.ListItem(m) && m !in Selected(models)
    ensures Selected(Clicked(models, Add(m))) == Selected(models) + [m]
  {
    T.ParseListOfJoin(Selected(models) + [m]);
  }

  lemma {:induction false} RemoveReadsBack(models: string, m: string)
    ensures Selected(Clicked(models, Remove(m))) == Keep(Selected(models), x => x != m)
  {
    var kept := Keep(Selected(models), x => x != m);
    forall i | 0 <= i < |kept| ensures T.ListItem(kept[i]) {
      assert kept[i] in Selected(models);
    }
    T.ParseListOfJoin(kept);
  }

  predicate Within(models: string, bound: set<string>) {
    Distinct(Selected(models)) && forall x :: x in Selected(models) ==> x in bound
  }

  lemma ClickStaysWithin(offer: Offer, prefilled: string, models: string, click: Click)
    requires Clean(offer, prefilled) && OnScreen(offer, models, click)
    requires Within(models, Reachable(offer, prefilled))
    ensures Within(Clicked(models, click), Reachable(offer, prefilled))
  {
    match click
    case Add(m) =>
      ClickChoosesAnItem(offer, prefilled, models, m);
      AddReadsBack(models, m);
      DistinctSnoc(Selected(models), m);
    case Remove(m) =>
      RemoveReadsBack(models, m);
      KeepDistinct(Selected(models), x => x != m);
  }

  lemma DistinctSnoc(s: seq<string>, x: string)
    requires Distinct(s) && x !in s
    ensures Distinct(s + [x])
  {
  }

  lemma {:induction false} ClicksStayWithin(offer: Offer, prefilled: string, models: string, clicks: seq<Click>)
    requires Clean(offer, prefilled) && CanClick(offer, models, clicks)
    requires Within(models, Reachable(offer, prefilled))
    ensures Within(AllClicked(models, clicks), Reachable(offer, prefilled))
    decreases |clicks|
  {
    if clicks != [] {
      ClickStaysWithin(offer, prefilled, models, clicks[0]);
      ClicksStayWithin(offer, prefilled, Clicked(models, clicks[0]), clicks[1..]);
    }
  }

  lemma PrefilledReadsBack(prefilled: string)
    requires T.ListItem(prefilled)
    ensures Selected(prefilled) == [prefilled]
  {
    T.ParseListOfJoin([prefilled]);
    assert T.Join([prefilled], ", ") == prefilled;
  }

  lemma {:induction false} ElementsFit(s: seq<string>)
    ensures |Elements(s)| <= |s|
  {
    if s == [] {
      assert Elements(s) == {};
    } else {
      ElementsFit(s[..|s| - 1]);
      assert s == s[..|s| - 1] + [s[|s| - 1]];
      assert Elements(s) == Elements(s[..|s| - 1]) + {s[|s| - 1]};
    }
  }

  lemma ReachableFits(offer: Offer, prefilled: string)
    ensures |Reachable(offer, prefilled)| <= 1 + |offer.suggested| + |offer.other|
  {
    ElementsFit(offer.suggested);
    ElementsFit(offer.other);
    var pre := {prefilled};
    assert |pre + Elements(offer.suggested)| <= 1 + |Elements(offer.suggested)|;
  }

  /** However it is clicked together, the grant repeats nothing and holds at most
      the pre-filled model and one of each id listed. */
  lemma GrantIsBounded(offer: Offer, prefilled: string, clicks: seq<Click>)
    requires Clean(offer, prefilled) && CanClick(offer, prefilled, clicks)
    ensures var grant := Selected(AllClicked(prefilled, clicks));
            && Distinct(grant)
            && |grant| <= |Reachable(offer, prefilled)| <= 1 + |offer.suggested| + |offer.other|
  {
    PrefilledReadsBack(prefilled);
    ClicksStayWithin(offer, prefilled, prefilled, clicks);
    DistinctFits(Selected(AllClicked(prefilled, clicks)), Reachable(offer, prefilled));
    ReachableFits(offer, prefilled);
  }

  // ── How far clicking reaches ────────────────────────────────────────────

  lemma SubsetFits(a: set<string>, b: set<string>)
    requires a <= b
    ensures |a| <= |b|
  {
    assert b == a + (b - a);
  }

  lemma SomethingLeft(offer: Offer, prefilled: string, models: string) returns (m: string)
    requires Within(models, Reachable(offer, prefilled)) && |Selected(models)| < |Reachable(offer, prefilled)|
    requires prefilled in Selected(models)
    ensures OnScreen(offer, models, Add(m))
  {
    var chosen := Selected(models);
    ElementsFit(chosen);
    var all := Reachable(offer, prefilled);
    if all <= Elements(chosen) {
      SubsetFits(all, Elements(chosen));
    }
    m :| m in all && m !in Elements(chosen);
    if m !in Suggestions(offer, models) {
      var rest := Unselected(offer.other, models);
      assert m in rest;
      m := rest[0];
      assert OtherShown(offer, models)[0] == m;
    }
  }

  lemma {:induction false} ClicksReach(offer: Offer, prefilled: string, models: string, size: nat) returns (clicks: seq<Click>)
    requires Clean(offer, prefilled) && Within(models, Reachable(offer, prefilled)) && prefilled in Selected(models)
    requires |Selected(models)| <= size <= |Reachable(offer, prefilled)|
    ensures CanClick(offer, models, clicks) && |Selected(AllClicked(models, clicks))| == size
    decreases size - |Selected(models)|
  {
    if |Selected(models)| == size {
      clicks := [];
    } else {
      var m := SomethingLeft(offer, prefilled, models);
      ClickChoosesAnItem(offer, prefilled, models, m);
      ClickStaysWithin(offer, prefilled, models, Add(m));
      AddReadsBack(models, m);
      var rest := ClicksReach(offer, prefilled, Clicked(models, Add(m)), size);
      clicks := [Add(m)] + rest;
      assert clicks[1..] == rest;
    }
  }

  ghost predicate CanOverflow(offer: Offer, prefilled: string) {
    exists clicks :: CanClick(offer, prefilled, clicks) && |Selected(AllClicked(prefilled, clicks))| > 50
  }

  /** "No amount of clicking what is on screen can reach that error": true exactly
      when the whole listing fits. Each added id lets the next one onto the screen,
      so the 24 shown at a time bound nothing. */
  lemma OverflowIffListingIsTooLong(offer: Offer, prefilled: string)
    requires Clean(offer, prefilled)
    ensures CanOverflow(offer, prefilled) <==> |Reachable(offer, prefilled)| > 50
  {
    if clicks :| CanClick(offer, prefilled, clicks) && |Selected(AllClicked(prefilled, clicks))| > 50 {
      GrantIsBounded(offer, prefilled, clicks);
    }
    if |Reachable(offer, prefilled)| > 50 {
      PrefilledReadsBack(prefilled);
      var clicks := ClicksReach(offer, prefilled, prefilled, 51);
      assert CanClick(offer, prefilled, clicks);
    }
  }

  // ── From the listing itself ─────────────────────────────────────────────

  function OfferOf(shapes: Shapes, discovered: seq<string>): Offer {
    var split := RankDiscoveredModels(shapes, discovered);
    Offer(split.suggested, split.other)
  }

  /** Ranking a listing neither loses an id nor makes one up. */
  lemma OfferIsTheListing(shapes: Shapes, discovered: seq<string>, x: string)
    ensures var offer := OfferOf(shapes, discovered);
            x in offer.suggested || x in offer.other <==> x in discovered
  {
    var offer := OfferOf(shapes, discovered);
    RankingIsAPartition(shapes, discovered);
    assert x in Dedup(discovered) <==> x in multiset(offer.suggested) + multiset(offer.other);
  }

  lemma ReachableIsTheListing(shapes: Shapes, discovered: seq<string>, prefilled: string)
    ensures Reachable(OfferOf(shapes, discovered), prefilled) == {prefilled} + Elements(discovered)
  {
    forall x ensures x in Reachable(OfferOf(shapes, discovered), prefilled) <==> x in {prefilled} + Elements(discovered) {
      OfferIsTheListing(shapes, discovered, x);
    }
  }

  lemma OfferIsClean(shapes: Shapes, discovered: seq<string>, prefilled: string)
    requires T.ListItem(prefilled) && T.ListItems(discovered)
    ensures Clean(OfferOf(shapes, discovered), prefilled)
  {
    var offer := OfferOf(shapes, discovered);
    forall i | 0 <= i < |offer.suggested| ensures T.ListItem(offer.suggested[i]) {
      OfferIsTheListing(shapes, discovered, offer.suggested[i]);
      ItemOf(discovered, offer.suggested[i]);
    }
    forall i | 0 <= i < |offer.other| ensures T.ListItem(offer.other[i]) {
      OfferIsTheListing(shapes, discovered, offer.other[i]);
      ItemOf(discovered, offer.other[i]);
    }
  }

  /** For any listing, however its ids are ranked, clicking can put more models in
      the grant than it may carry exactly when the listing and the pre-filled model
      together name more. */
  lemma ListingOverflowsIff(shapes: Shapes, discovered: seq<string>, prefilled: string)
    requires T.ListItem(prefilled) && T.ListItems(discovered)
    ensures CanOverflow(OfferOf(shapes, discovered), prefilled) <==> |{prefilled} + Elements(discovered)| > 50
  {
    OfferIsClean(shapes, discovered, prefilled);
    OverflowIffListingIsTooLong(OfferOf(shapes, discovered), prefilled);
    ReachableIsTheListing(shapes, discovered, prefilled);
  }

  /** So with no more ids than are on screen at once, 24 and 24, it never does. */
  lemma ShortListingsNeverOverflow(shapes: Shapes, discovered: seq<string>, prefilled: string)
    requires T.ListItem(prefilled) && T.ListItems(discovered)
    requires |OfferOf(shapes, discovered).other| <= 24
    ensures !CanOverflow(OfferOf(shapes, discovered), prefilled)
  {
    OfferIsClean(shapes, discovered, prefilled);
    OverflowIffListingIsTooLong(OfferOf(shapes, discovered), prefilled);
    ReachableFits(OfferOf(shapes, discovered), prefilled);
  }
}
