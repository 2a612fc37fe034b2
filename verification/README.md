# PassControl: proofs about elevation, stop controls, receipts and records

A Dafny model of the parts of PassControl where several steps have to agree: what
an agent may call, how an operator stops it, what a page tells the operator, and
what the record says afterwards. Check everything with
`dafny verify dfyconfig.toml`.

- **Reach.** `Glob` and `Scope` decide one call. `ScopeUnion` merges an agent's own
  scope with an elevation, `BreakGlass` stores, reads back and bounds an elevation,
  and `Elevation` runs them over time: taking, ending, sweeping and minting against
  a clock, with visas that carry a snapshot. `Stringify` is the serialized claim, `JsonText` reads it back.
- **Stops.** `StopServer` is the register behind a stop; `KillSwitch`,
  `ServiceStop` and `AgentSuspend` are the three controls over it, each a class with
  the component's fields whose methods are tied to a step function, and that
  function is then run against replies that may be late, lost, or never sent.
- **Pages that fill while they are read.** `ReceiptVerifier` is the receipt page
  with every update taking effect at once, `ReceiptScreen` the page as React runs
  it, with updates queued until a render. `DeparturesBoard` pages through a table
  that grows at the other end; `DeparturesScreen` is its component as React runs
  it, pause and resume included, and `DeparturesRefinement` ties the two.
- **The record.** `AuditTrail` is what the writer stores, `AuditHistory` what the
  reader says about it, and `AuditReadings` the laws that tie each thing said to what
  is stored; `ScopeDiff` and `FallbackDiff` are the two document diffs.
- **Forms, listings, stores.** `PolicyForm` (with `Amounts` and `Text`),
  `ModelRanking` and `KeyImport`, `ApiKeys`, `AccountExport`, and `RuntimePurge`
  over `KeyParts`. `Providers` lists who a credential can be for.

`Lists`, `Sorting`, `Json` and `Text` hold the JavaScript operations everything is
written in. Code that updates in place is a class or a method with a loop, proved
equal to a function; the results are about the functions.

## Model

| member | source | states |
|---|---|---|
| Glob.GlobMatchWork | lib/scope.ts:79-109 | the two-pointer scan with one backtrack point accepts exactly the matching texts, and takes at most (model + 1) x (pattern + 1) steps |
| Glob.MatchesIsRegularExpression | lib/scope.ts:27-37 | matching is the anchored regular expression with `.*` for each star: some filling of the stars, none crossing a line terminator, spells the text |
| Glob.LineTerminatorsAre | lib/scope.ts:27-37 | the four characters no star crosses, by code point |
| Scope.RewriteKeepsMeaning | lib/scope.ts:137-146 | the matcher accepts exactly what the expression it replaced accepts, for patterns within the bound, and nothing outside it |
| Scope.ModelMatchesByScan | lib/scope.ts:137-146 | the branches and the scan decide exactly the matcher above |
| Scope.ScopeRuleMatch | lib/scope.ts:154-171 | the rule found is the provider's first row whose first matching pattern is not empty |
| Scope.RuleIsTheFirstToSpeak | lib/scope.ts:154-166 | by positions: a rule is reported with a pattern of a row of the provider that matches the model, not empty, the first in its row to match, and no earlier row of that provider has anything to say; none is reported exactly when no row has |
| Scope.MatchingMeans | lib/scope.ts:137-146 | a pattern matches exactly when both texts are at most 200 characters, it has at most 4 stars, and it is a lone star, or is the model id, or has stars that some text of one line fills |
| Scope.AllowsIsSomeRow | lib/scope.ts:169-171 | a call is allowed exactly when some row of its provider speaks for it, and the model id is short enough |
| ScopeUnion.UnionScopes | lib/break-glass.ts:116-136 | the map-filling loop over any stored values returns the merge of the readable entries of both documents |
| ScopeUnion.UnionNamesWhatIsStored | lib/break-glass.ts:116-136 | on the raw values: the result names a pattern for a provider exactly when a record of either document holds that provider as text and that pattern as text in its list of models |
| ScopeUnion.DocumentReadsBack | lib/break-glass.ts:123-132 | a stored document reads as the rows it was stored from |
| ScopeUnion.UnionIsNormal | lib/break-glass.ts:80-136 | one row per provider in order of first appearance, no pattern twice |
| ScopeUnion.BaseReadsFirst | lib/break-glass.ts:98-99 | the normalised base is a row-wise prefix of every union over it |
| ScopeUnion.UnionNeverWidens | lib/break-glass.ts:94-96 | whatever the union allows, one of the two documents allowed |
| ScopeUnion.UnionMeaning | lib/break-glass.ts:88-96 | the union allows exactly what either document allows, except for the empty model id where an earlier row led by the empty pattern shadows a later one led by stars; both halves |
| ScopeUnion.ShadowMeans | lib/scope.ts:160-164 | that exception, read off the positions of the patterns, is the case where the first match is the empty pattern and another row still allows the call |
| ScopeUnion.UnionAssociative | lib/break-glass.ts:80-136 | merging in either grouping gives the same rows in the same order |
| ScopeUnion.UnionIdempotent | app/api/auth/challenge/route.ts:305-311 | merging a merged document changes nothing |
| ScopeUnion.UnionOfNormal | app/api/auth/challenge/route.ts:305-311 | a document with one row per provider and no pattern twice is minted as it is |
| ScopeUnion.SameElevationTwice | lib/break-glass.ts:80-86 | taking the same elevation again changes nothing |
| BreakGlass.ParseGrantScopes | lib/break-glass.ts:62-78 | reading a stored grant keeps its readable entries in order, up to the limit, whatever the column holds |
| BreakGlass.GrantedEntryMeans | lib/break-glass.ts:62-78 | an entry is read exactly when it is a record with a provider of 1 to 200 characters once trimmed and a list naming a model |
| BreakGlass.GrantModelsMean | lib/break-glass.ts:67-73 | of that list, every string of 1 to 200 characters in order, the first fifty if there are more |
| BreakGlass.GrantScopesMean | lib/break-glass.ts:62-78 | the first twenty entries that can be read, and none of a value that is no list |
| BreakGlass.ParsedGrantIsBounded | lib/break-glass.ts:62-78 | what is read has at most 20 rows of 1 to 50 patterns of 1 to 200 characters |
| BreakGlass.ParseGrantIdempotent | lib/break-glass.ts:62-78 | storing what was read and reading it again changes nothing |
| BreakGlass.ValidatedRowsReadBack | lib/validate.ts:82-113 | a document that passed validation reads back as exactly its rows that name a model |
| BreakGlass.ValidatedMeans | lib/validate.ts:82-113 | a document is accepted exactly when it is a list of at most 20 records, each with a known provider once trimmed and at most 50 texts that are bounded patterns; and what is accepted is what was submitted, entry by entry and pattern by pattern |
| BreakGlass.ScopeUnionExceedsBounds | lib/break-glass.ts:190-218 | nothing is reported exactly when all four bounds hold, the first broken axis is what is reported, and the total never is |
| BreakGlass.BoundsAre | lib/break-glass.ts:190-218 | the bounds as numbers: 20 rows, 50 patterns in each, 4096 bytes serialized, the bound on the total following from the first two |
| BreakGlass.FewerRowsFit | lib/break-glass.ts:190-218 | the bound does not mind the order of distinct rows, and any of them fit wherever all did, the serialized bytes included |
| Elevation.ElevatedCallsAreExplained | lib/break-glass.ts:233-265 | in every run, a call the stored scope did not allow rides on a visa minted while a grant of that agent and tenant covering the call was unrevoked and unexpired; such reach ends one visa lifetime after the grant does, revoked or expired, and within an hour and a quarter of its taking |
| Elevation.RunKeepsInv | lib/fleet.ts:912-1031 | every run keeps one unrevoked row per agent, every row within its lifetime bounds, every visa accounted for |
| Elevation.AskedMeans | lib/fleet.ts:912-1006 | each answer of the door and exactly when it is given, and the row an accepted request becomes |
| Elevation.TakingMeans | lib/fleet.ts:1006-1031 | a request is refused for the slot exactly when it would be taken but for an open row of the agent; taken, it adds one row and changes nothing else |
| Elevation.ElevationReachesTheVisa | app/api/auth/challenge/route.ts:319-322 | whatever else goes on, until it is ended or expires an accepted elevation is in every visa minted for the agent, merged onto the scope stored at that moment |
| Elevation.LapsesOnTime | lib/break-glass.ts:233-262 | an open elevation is read, with its own scopes, reason and times, up to its expiry and no longer |
| Elevation.EndCloses | lib/fleet.ts:1040-1053 | ending closes at that moment every open row of the agent and the tenant; closed rows keep their time and no other row changes |
| Elevation.EndEnds | lib/fleet.ts:1033-1053 | after it every read of that agent and tenant, at any time, finds nothing; every other read is what it was; the slot is free unless another tenant's row holds it |
| Elevation.EndedElevationMintsNothing | lib/fleet.ts:1033-1053 | in every run, from the end of an elevation until the next is taken, no visa minted allows a call the stored scope did not |
| Elevation.StoredScopeIsMinted | app/api/auth/challenge/route.ts:319-322 | with no live grant, a visa minted over a stored document allows what its rows allow, but for the shadowed empty model id |
| Elevation.RescopeIsMinted | app/api/auth/challenge/route.ts:320-322 | in every run, from a change of an agent's scope until the next, its visas are minted over that scope |
| Elevation.SuspensionStopsMinting | app/api/auth/challenge/route.ts:238-278 | in every run no visa is minted for an agent from its suspension until it is reactivated, and then the next mint adds one |
| Elevation.SweepIsInvisible | lib/reconcile.ts:256-274 | a sweep at any moment leaves every read of the live grant, then and later, as it was |
| Elevation.SweepCloses | lib/reconcile.ts:256-274 | a sweep closes exactly the open rows that have lapsed, at that moment |
| Elevation.SweepFreesTheSlot | lib/reconcile.ts:264-267 | after it a slot is held only by an open row that has not lapsed |
| Elevation.SweepChangesNoVisa | lib/reconcile.ts:256-274 | a sweep inserted anywhere in a run changes no visa minted afterwards, as long as it changes no answer to a later elevation |
| Elevation.LateSweepOnlyBlocks | lib/reconcile.ts:264-267 | the only answer it can change is a refusal because a lapsed row still holds the slot |
| Elevation.AcceptedGrantIsLiveIffItNamesAModel | lib/fleet.ts:918-935 | an accepted elevation is live on the next read exactly when some row of it names a model |
| Elevation.MintedClaimFits | lib/fleet.ts:976-1004 | after every accepted elevation, the claim minted with it is within every bound, though it need not be the claim that was measured |
| KillSwitch.KillSwitchBar.FinishApply | components/GlobalKillSwitchBar.tsx:107-118 | from the reply to a change, or its loss, on: the bar becomes what the step function of the runs below says |
| KillSwitch.KillSwitchBar.FinishRefresh | components/GlobalKillSwitchBar.tsx:120-131 | the same for a re-read, whose loss only keeps a doubt alive |
| KillSwitch.ClaimsAreTrue | components/GlobalKillSwitchBar.tsx:20-34 | in every run, ARMED and DISARMED are what the gateway enforces |
| KillSwitch.LostChangeIsNotForgotten | components/GlobalKillSwitchBar.tsx:107-131 | after a lost change and until a reply gets through, no earlier claim is on screen and every request carries that change's intent |
| KillSwitch.ReadBackEndsDoubt | components/GlobalKillSwitchBar.tsx:120-131 | one read-back that gets through restores a true claim, whichever way the change went |
| KillSwitch.AnsweredChange | components/GlobalKillSwitchBar.tsx:90-105 | an answered change is in doubt exactly when what was read back is not what was asked for, and what was read back is what is claimed |
| KillSwitch.LostReread | components/GlobalKillSwitchBar.tsx:120-131 | a re-read that is lost takes down the claim if something was in doubt and changes nothing otherwise |
| KillSwitch.BusyOffersNothing | components/GlobalKillSwitchBar.tsx:136-200 | while a request is out every button is off |
| KillSwitch.BusyNamesTheRequest | components/GlobalKillSwitchBar.tsx:107-122 | while a request is out the bar names it |
| KillSwitch.WarnsOfTheLastChange | components/GlobalKillSwitchBar.tsx:87-98 | from a reply that says whether a change was saved until the next such reply, the warning is up exactly if it was not, and names that change |
| KillSwitch.OneClickTurnsIt | components/GlobalKillSwitchBar.tsx:133-205 | at rest the switch can be turned exactly off what is claimed, on when nothing is known, and again the way a change went that is in doubt or unsaved; one such click, applied and read back, ends in that claim with nothing in doubt |
| KillSwitch.OneClickReadsIt | components/GlobalKillSwitchBar.tsx:120-131 | exactly a switch that is unread or in doubt can be read again, and one read-back settles what is shown |
| ServiceStop.ServiceStopControl.FinishApply | components/ServiceStopControl.tsx:69-79 | from the reply on, the control becomes what the step function of the runs below says |
| ServiceStop.ClaimsAreTrue | components/ServiceStopControl.tsx:21-35 | in every run, STOPPED and RUNNING are what is enforced |
| ServiceStop.LostChangeIsNotForgotten | components/ServiceStopControl.tsx:69-90 | after a lost change, until a reply gets through, no claim is shown and only reads about that change are sent |
| ServiceStop.DoubtEndsIffChangeLanded | components/ServiceStopControl.tsx:58-90 | some sequence of clicks and replies leads out of NOT CONFIRMED exactly when the doubtful change is in force |
| ServiceStop.StrandedIsReachable | components/ServiceStopControl.tsx:58-79 | from a fresh page, a stop that is answered but not applied gets there, for good |
| ServiceStop.AnsweredChange | components/ServiceStopControl.tsx:58-67 | an answered change is in doubt exactly when what was read back is not what was asked for |
| ServiceStop.BusyOffersNothing | components/ServiceStopControl.tsx:118-178 | while a request is out every button is off |
| ServiceStop.BusyNamesTheRequest | components/ServiceStopControl.tsx:69-90 | while a request is out the control names it |
| ServiceStop.WarnsOfTheLastChange | components/ServiceStopControl.tsx:54-67 | the same of one service: refreshes, refusals and lost replies leave the last change's warning standing |
| ServiceStop.OneClickTurnsIt | components/ServiceStopControl.tsx:69-79 | which ways a service at rest can be turned, and that one click, applied and read back, ends in that claim |
| ServiceStop.OneClickReadsIt | components/ServiceStopControl.tsx:81-90 | exactly a stop that is unread or in doubt can be read again, about the change in doubt |
| ServiceStop.RefusalSaysSo | components/ServiceStopControl.tsx:58-62 | a refusal changes nothing but the error shown |
| AgentSuspend.AgentSuspendControl.Render | components/AgentSuspendControl.tsx:139-154 | a newer prop discards the observation made against the older one before it is used, and revocation outranks both |
| AgentSuspend.AgentSuspendControl.AcceptResult | components/AgentSuspendControl.tsx:156-161 | a read database value becomes the observation, a lost or unread one leaves it |
| AgentSuspend.OnlyReadsMoveTheStatus | components/AgentSuspendControl.tsx:152-166 | only a database value that was read, or a newer prop, moves the status acted on |
| AgentSuspend.NewerPropIsActedOn | components/AgentSuspendControl.tsx:139-154 | a newer prop is what is acted on, whatever was observed before; the same prop again changes nothing |
| AgentSuspend.AnsweredClick | components/AgentSuspendControl.tsx:156-166 | an answered click: the outcome holds what was read of either layer, and a retry is offered unless both were read and both are as asked |
| AgentSuspend.StopHoldsIffNothingOpposite | components/AgentSuspendControl.tsx:163-178 | from a Suspend click, however replies are lost, retried or re-checked, the stop can be undone without another main click exactly when something about reactivating was still in flight |
| AgentSuspend.EveryRequestCarriesTheIntent | components/AgentSuspendControl.tsx:198-201 | with nothing opposite in flight, every later request carries the click's intent |
| AgentSuspend.OppositeIsReachable | components/AgentSuspendControl.tsx:173-178 | any suspended agent's page at rest reaches such a click: reactivate, be confirmed, regain focus |
| AgentSuspend.InTurnTheStatusIsTheServers | components/AgentSuspendControl.tsx:163-172 | when exchanges take turns, and whatever is lost or left unread, a page at rest and not in doubt acts on the server's status |
| AgentSuspend.StaleReadMovesTheStatusBack | components/AgentSuspendControl.tsx:168-178 | out of turn, an older read that arrives last leaves a suspended agent shown as active with nothing lost and nothing in doubt |
| ReceiptVerifier.PassMeansPassed | components/ReceiptVerifier.tsx:158-264 | in every interleaving of verifier, presenter, newer runs and edits, a row shows a pass only for a gate that passed in the latest run |
| ReceiptVerifier.SupersededWritesNothing | components/ReceiptVerifier.tsx:158-160 | a superseded run writes no row and no outcome and does not stop the page |
| ReceiptVerifier.RowsAhead | lib/verify/receipt-view.ts:979-987 | past the last check shown the next row is up and the rest wait, or none is reached after a failure |
| ReceiptVerifier.RefusedRows | components/ReceiptVerifier.tsx:175-186 | a refusal before anything is sent draws the gates before it as passed in no time, its own as failed and the rest as not reached |
| ReceiptVerifier.BusyIffUnfinished | components/ReceiptVerifier.tsx:158-264 | in every run the page is busy exactly while its latest run is unfinished, so never over an outcome |
| ReceiptVerifier.GenuineMeansEightPasses | components/ReceiptVerifier.tsx:243-262 | genuine means eight passed checks in the latest run, and eight passing rows exactly when no edit came after the first was shown |
| ReceiptVerifier.UneditedPageIsConsistent | components/ReceiptVerifier.tsx:158-264 | with no edit in the run, the outcome is genuine exactly when all eight rows pass, and the total adds up unless the verifier broke down |
| ReceiptVerifier.TotalIsAddableIff | components/ReceiptVerifier.tsx:245-250 | in every run the total is the sum of the rows on the page exactly when the rows an edit wiped took no time and a breakdown left none to add |
| ReceiptVerifier.LateEditMisleads | components/ReceiptVerifier.tsx:151-156 | an edit that catches a genuine receipt partly shown is followed by "genuine" about the submitted text, over rows that do not all pass and, if the wiped ones took time, do not add up |
| ReceiptVerifier.LateEditIsReachable | components/ReceiptVerifier.tsx:151-156 | every genuine receipt can be caught so from a page just opened |
| ReceiptVerifier.VerdictIsAboutTheInput | components/ReceiptVerifier.tsx:158-264 | with no edit since the submit, the verdict is about the text in the box |
| ReceiptVerifier.PresenterTerminates | components/ReceiptVerifier.tsx:202-228 | once the verifier has settled the presenter always has a next move until it is done, and each brings it nearer |
| ReceiptVerifier.Drain | components/ReceiptVerifier.tsx:201-228 | the presenter's loop over a settled verifier shows every check, in order, at its own row |
| ReceiptScreen.ReceiptPage.OnInput | components/ReceiptVerifier.tsx:151-156 | an edit queues a reset of the page and leaves the latest run the latest: the screen's step for an edit |
| ReceiptScreen.ReceiptPage.ShowNext | components/ReceiptVerifier.tsx:208-226 | one turn of the loop is the screen's step: the updater is queued with the position it had before it moved |
| ReceiptScreen.DeferringAgrees | components/ReceiptVerifier.tsx:209-216 | however renders interleave with events, applying what is queued gives the page on which every update took effect at once |
| ReceiptScreen.ScreenPassMeansPassed | components/ReceiptVerifier.tsx:209-216 | a pass on the screen passed in the latest run unless the rows are already queued to be replaced, and in some run even then |
| ReceiptScreen.StalePassBeforeRender | components/ReceiptVerifier.tsx:158-163 | that exception is reached: a refused receipt's passes are still drawn when the next run is the latest |
| ReceiptScreen.LateReadAgreesIffNothingQueued | lib/verify/receipt-view.ts:979-987 | were the position read when the updater runs, a render would come out right exactly when no check was waiting to be drawn |
| DeparturesBoard.BoardIsThePrefix | components/DeparturesBoard.tsx:138-153 | through inserts, loads and calls delivered to its rows the board is a prefix of the newest-first table, with no gap or repeat: its first forty rows before a load, and after one it offers older rows exactly when there are some |
| DeparturesBoard.LoadIsWholeIffCursorIsLast | components/DeparturesBoard.tsx:212-240 | a load leaves it so exactly when the row it asked past is still the last one on the board |
| DeparturesBoard.LoadBringsAPage | components/DeparturesBoard.tsx:226-234 | such a load brings the next forty rows, or what is left of them, and offers more exactly when more is left |
| DeparturesBoard.NewerOrders | components/DeparturesBoard.tsx:223-225 | newest first is a strict order, time first and then the id, that any two rows of different ids are in |
| DeparturesBoard.LaterLoadsAreUndisturbed | components/DeparturesBoard.tsx:149-153 | after the first load nothing can disturb one |
| DeparturesBoard.MergeKeepsOrderIff | lib/departures.ts:484-491 | prepending keeps the order exactly for a row newer than the board, or already on it |
| DeparturesScreen.DeparturesView.SetState | components/DeparturesBoard.tsx:97-103 | a setter computes its update at the call if nothing marks the component, drops one that changes nothing, and queues any other |
| DeparturesScreen.DeparturesView.Insert | components/DeparturesBoard.tsx:139-153 | a call heard of while the ref says paused joins the queue, any other is merged by an updater |
| DeparturesScreen.DeparturesView.Resume | components/DeparturesBoard.tsx:196-210 | the updater that reads the queue is set, and only then is the queue emptied |
| DeparturesScreen.DeparturesView.LoadOlder | components/DeparturesBoard.tsx:212-215 | the load asks past the last row as drawn |
| DeparturesScreen.DeparturesView.FinishLoad | components/DeparturesBoard.tsx:228-239 | the cap is lifted at once, the page appended by an updater |
| DeparturesScreen.DeparturesView.RenderPending | components/DeparturesBoard.tsx:128-130 | a render runs what is queued, in order, with the refs as they are then, and its effect follows |
| DeparturesScreen.CountIsTheQueue | components/DeparturesBoard.tsx:139-153 | in every run each render draws the number of calls that wait, and a spinner exactly while a load is out |
| DeparturesScreen.RunKeepsSound | components/DeparturesBoard.tsx:139-153 | in every run the queue is the newest calls heard of, and everything on the board or on its way there is older |
| DeparturesScreen.ResumeAtOnce | components/DeparturesBoard.tsx:196-210 | with nothing marking the component, a resume merges the queue onto the board as drawn |
| DeparturesScreen.ResumeTooLate | components/DeparturesBoard.tsx:197-207 | otherwise the board is what it would have been without the resume, and the queue is gone |
| DeparturesScreen.ResumesOfEveryRun | components/DeparturesBoard.tsx:196-210 | in every run from an opened page, a resume keeps the queued calls exactly when there were none or nothing marked the component, and keeps none if the board never renders but for its own updates |
| DeparturesScreen.PauseLosesACall | components/DeparturesBoard.tsx:196-210 | from any opened page, pausing for one call and resuming loses it |
| DeparturesScreen.PageRenderKeepsIt | components/DeparturesBoard.tsx:196-210 | a render of the page around the board in between, and the call is kept |
| DeparturesScreen.ResumeKeepsOrderIff | components/DeparturesBoard.tsx:196-206 | calls that are kept come back in order exactly when there was at most one |
| DeparturesScreen.TwoComeBackReversed | components/DeparturesBoard.tsx:196-206 | two of them, from any opened page, do not |
| DeparturesRefinement.ScreenIsThePrefix | components/DeparturesBoard.tsx:138-153 | on the screen too, however late its updates run: in every run that loses nothing to a pause and loads past the board's own last row, each render draws the newest calls heard of, without gap or repeat, and after a load offers older ones exactly when there are some |
| DeparturesRefinement.RenderIsDelivers | components/DeparturesBoard.tsx:148-152 | a render delivers to the board of `DeparturesBoard` exactly the calls that were queued, oldest first |
| DeparturesRefinement.ScreenLoadIsWholeIff | components/DeparturesBoard.tsx:212-240 | what is drawn after a load is whole exactly when the row asked past is still the board's last, whatever is queued |
| DeparturesRefinement.OneArrivalLeavesAGap | components/DeparturesBoard.tsx:212-240 | one call drawn while the first load is in flight always leaves a gap |
| DeparturesRefinement.QueuedArrivalLeavesNoGap | components/DeparturesBoard.tsx:148-152 | one still queued when the load finishes leaves none, for the cap is read when it is merged |
| DeparturesRefinement.GapIsReachable | components/DeparturesBoard.tsx:212-240 | any page opened on a full table gets to the gap |
| AuditTrail.StoredAsWrittenIffNoDel | lib/audit.ts:184-198 | a snapshot within the limit is stored as written exactly when no name in it holds a DEL |
| AuditHistory.ToCapabilityHistory | lib/audit-history.ts:850-858 | the rows about agents, summarised, in order |
| AuditHistory.RecordedIffSnapshot | lib/audit-history.ts:737-847 | over every audit row, recorded is said exactly when the snapshot is, and no row about an agent is dropped |
| AuditHistory.DiffNeedsBothSides | lib/audit-history.ts:538-654 | a two-sided detail only when both sides were read; damage on either side is said as damage, and "never recorded" only where there is none |
| AuditHistory.NoReaderNoClaim | lib/audit-history.ts:538-654 | a field the reader does not know shows no detail and claims no damage |
| AuditHistory.StateIgnoresTheSide | lib/audit-history.ts:141-163 | which side was lost does not change what is said |
| AuditReadings.GapIsTheMostSpecific | lib/audit-history.ts:155-163 | of two sides not both read, a declined value is what is said, the past one first, then a damaged one, and nothing recorded only when neither is either |
| AuditReadings.ListMissing | lib/audit-history.ts:114-139 | a stored side is absent exactly when it is missing, null or empty, declined exactly when it is the writer's marker, with its size |
| AuditReadings.BudgetMissing | lib/audit-history.ts:490-508 | the same of a budget |
| AuditReadings.RecordMissing | lib/audit-history.ts:243-253 | a policy is absent likewise and never declined |
| AuditReadings.ScalarMissing | lib/audit-history.ts:261-274 | a lifecycle value is absent only when it has no key |
| AuditReadings.MissingSays | lib/audit-history.ts:212-219 | a change with a side missing shows no value, names its own field and says which way the value is missing |
| AuditReadings.MissingPolicySays | lib/audit-history.ts:538-654 | of the policy in use it is still said whether it was promoted |
| AuditReadings.UnreadSays | lib/audit-history.ts:538-654 | a field no reader knows is named, a budget's as one whose past was never recorded |
| AuditHistory.UnchangedMeansEqual | lib/audit-history.ts:538-654 | "no effective change" is said of an update only over two values that were read and are the same, whatever fields it names |
| AuditReadings.ExpirySays | lib/audit-history.ts:310-333 | from the stored row: a changed expiry is shown from the value under "from" to the one under "to"; added exactly where null became a date, removed exactly where a date became null |
| AuditReadings.RotationSays | lib/audit-history.ts:335-354 | the same for a rotated key, with its window and whether it was planned |
| AuditReadings.BudgetSays | lib/audit-history.ts:522-536 | a budget field has a line exactly when its value changed, from the old value to the new |
| AuditReadings.BudgetReaders | lib/audit-history.ts:538-545 | every list of budget fields is read as those fields |
| AuditReadings.PolicyCountsSay | lib/audit-history.ts:364-396 | rule and window counts are shown from the old to the new, exactly those that changed |
| AuditReadings.PolicyCapSays | lib/audit-history.ts:364-396 | the hourly cap likewise |
| AuditReadings.RewrittenSays | lib/audit-history.ts:364-396 | "rewritten" is said alone, and exactly of policies with equal counts and cap that print differently |
| AuditReadings.PolicySays | lib/audit-history.ts:538-654 | a saved policy is described from the old to the new unless it was cleared, and promoted only if the row says so |
| AuditReadings.ShadowSays | lib/audit-history.ts:538-654 | a draft likewise; shadow mode is on exactly where there was none before |
| AuditReadings.FallbacksSay | lib/audit-history.ts:538-654 | fallbacks are compared from the old list to the new, and cleared exactly when none is left |
| AuditReadings.SavedFallbacksSay | lib/audit-history.ts:458-477 | a change of fallbacks, stored, is told as the diff of the lists that were saved |
| AuditReadings.ScopesSay | lib/audit-history.ts:538-654 | scopes are compared from the old document to the new, and cleared exactly when none is left |
| AuditReadings.RowIsToldOfItself | lib/audit-history.ts:737-748 | a row is told under its own id, time, action and origin |
| AuditReadings.EventSays | lib/audit-history.ts:750-825 | suspended or resumed, stopped or resumed, every delegation or one, direct or not: whichever the row holds |
| AuditReadings.NoteSays | lib/audit-history.ts:796-825 | which events come with a line of their own |
| AuditReadings.AgentActionsAre | lib/audit-history.ts:61-79 | the actions that are about an agent |
| AuditReadings.OtherActionsSay | lib/audit-history.ts:830-847 | elevations and updates go to their own readers |
| AuditReadings.TakenSays | lib/audit-history.ts:697-733 | an elevation is told with the scopes, expiry and reason of its row |
| AuditReadings.UngrantedSays | lib/audit-history.ts:709-726 | one whose scopes cannot be read is told without them, with whatever expiry and reason its row has |
| AuditReadings.EndSays | lib/audit-history.ts:674-695 | its end says that one was ended unless the row counts none |
| AuditHistory.SavedChangeReadsBack | lib/audit-history.ts:124-139 | a scope change written, stored and read back shows the lines of that change, with a blank for each DEL |
| AuditHistory.DeclinedChangeSaysSo | lib/audit-history.ts:101-117 | too large on either side, and the row says so with the size |
| AuditHistory.DelHidesAChange | lib/audit.ts:184-198 | replacing a DEL by a blank is recorded as no change at all |
| AuditHistory.SomeCodecParsesDocuments | lib/audit-history.ts:119-139 | the JSON parser of `JsonText` undoes the printer on every scope document |
| Stringify.ParsesBack | lib/break-glass.ts:212-212 | a printed scope document, read by the grammar and the escapes of RFC 8259, is the document |
| Stringify.StringifyIsInjective | lib/audit-history.ts:446-455 | comparing the printed documents compares the documents |
| Stringify.Utf8Takes | lib/break-glass.ts:212-212 | the bytes a character takes in UTF-8, by code point |
| Stringify.DocumentSize | lib/break-glass.ts:212-215 | the serialized size of a claim is the sum of its rows' sizes, whatever their order |
| ScopeDiff.ToScopeRows | lib/scope-rows.ts:16-29 | any stored value reads as its named rows, without empty patterns |
| ScopeDiff.ScopeRowMeans | lib/scope-rows.ts:19-26 | an entry is read exactly when it is a record with a provider, and names exactly the non-empty texts of its list |
| ScopeDiff.DiffScopes | lib/audit-history.ts:414-456 | the two unions and two loops give the lines of the diff |
| ScopeDiff.DiffIsAPatch | lib/audit-history.ts:427-456 | applied to what the first document authorizes, the lines give what the second does |
| ScopeDiff.DiffUndoes | lib/audit-history.ts:427-456 | read backwards, the same lines give the first document's authorization |
| ScopeDiff.EmptyIffIdentical | lib/audit-history.ts:446-456 | "no effective change" exactly for identical documents |
| ScopeDiff.RewrittenIffSameAuthorization | lib/audit-history.ts:446-456 | "written differently" exactly when the documents differ and authorize the same |
| ScopeDiff.LineIffProviderChanged | lib/audit-history.ts:427-445 | a provider has a line exactly when its set of patterns changed |
| ScopeDiff.SortedTextDecidesSets | lib/audit-history.ts:403-412 | on lists without repeats, comparing sorted lists as text decides set equality |
| ScopeDiff.SameMeaningSameAnswers | lib/audit-history.ts:403-412 | two documents the diff calls unchanged or rewritten allow the same calls |
| FallbackDiff.ToFallbackRows | lib/fallback-rows.ts:24-38 | any stored value reads as its first three readable entries |
| FallbackDiff.FallbackMeans | lib/fallback-rows.ts:28-33 | an entry is read exactly when it is a record with a provider and a model, neither blank, each taken from its own field without the white space around it |
| FallbackDiff.StoredFallbacksReadBack | lib/fallback-rows.ts:24-38 | a stored list reads back as itself |
| FallbackDiff.DiffFallbacks | lib/audit-history.ts:458-477 | the two loops and the joined texts give the lines of the diff |
| FallbackDiff.MembersAreDifferences | lib/audit-history.ts:460-466 | each added or removed line names a key one list has and the other lacks |
| FallbackDiff.AddedMeans | lib/audit-history.ts:460-466 | a key is said to be added exactly when the new list spells it and the old one does not, removed the other way round |
| FallbackDiff.SilentIffEqual | lib/audit-history.ts:458-477 | silence means the same list in the same order, for slash-free providers and bar-free keys |
| FallbackDiff.ChangeShowsTheNewList | lib/audit-history.ts:458-477 | any change ends in the new list in full, alone exactly when only the order moved |
| FallbackDiff.SilentIffSameText | lib/audit-history.ts:458-477 | for slash-free providers alone: silence exactly when both name the same fallbacks and their keys joined by bars are one text |
| FallbackDiff.SwapIsSilentIff | lib/audit-history.ts:467-476 | swapping any two fallbacks is silent exactly when their keys, each with its bar, are repetitions of one text |
| FallbackDiff.BarHidesAReorder | lib/audit-history.ts:467-476 | with a bar in a model name a reorder compares equal |
| FallbackDiff.SlashHidesAProvider | lib/audit-history.ts:398-399 | with a slash in a provider a different provider compares equal |
| Text.ParseListOfJoin | components/PolicyShadowPanel.tsx:150-158 | a printed list of trimmed comma-free items reads back as itself |
| Text.ParsesToNothing | components/PolicyShadowPanel.tsx:153-158 | a text reads as no items exactly when it is commas and white space |
| Text.OneItem | components/PolicyShadowPanel.tsx:153-156 | between commas a text is one item, without the white space around it, or none if it is blank |
| Text.ItemsTogether | components/PolicyShadowPanel.tsx:153-156 | a comma joins the items before it and the items after it, with or without a blank beside it: with the last row, what any typed list reads as |
| Text.SpaceIsListed | components/PolicyShadowPanel.tsx:155-155 | the white space that is trimmed, code point by code point |
| Amounts.CentsOfDollars | components/PolicyShadowPanel.tsx:117-121 | every amount shown as dollars and typed back is the same number of cents |
| Amounts.CentsMeans | components/PolicyShadowPanel.tsx:193-200 | a text is an amount exactly when it is digits, or digits, a point and one or two digits; it is read as 100 cents a dollar, 10 for a first decimal and 1 for a second |
| Amounts.AmountByPlace | components/PolicyShadowPanel.tsx:195-197 | digits are read by place, ten times for each digit after |
| Amounts.TypedMeans | components/PolicyShadowPanel.tsx:193-206 | the same of what is typed, with one leading dollar sign and any white space around it |
| PolicyForm.ToPolicy | components/PolicyShadowPanel.tsx:147-216 | the field-by-field writer stores what the form reads as, and nothing for a blank one |
| PolicyForm.TypedAmountsAreStored | components/PolicyShadowPanel.tsx:193-210 | so the cap and the alert that are stored are the amounts typed, in cents, within their limits, and nothing else is |
| PolicyForm.TypedRowsAreStored | components/PolicyShadowPanel.tsx:150-163 | of the deny rules and windows typed, exactly those that are complete are stored, as records with these keys, every window in UTC |
| PolicyForm.TypedSubagentsAreStored | components/PolicyShadowPanel.tsx:176-191 | of the sub-agent rules likewise, and an empty list exactly for the choice of no model at all |
| PolicyForm.TypedCountsAreStored | components/PolicyShadowPanel.tsx:165-174 | a count is stored exactly when what was typed is read as a positive whole number |
| PolicyForm.ChosenGuardsAreStored | components/PolicyShadowPanel.tsx:211-213 | a guard is stored exactly when a mode was chosen |
| PolicyForm.FormShowsRows | components/PolicyShadowPanel.tsx:81-108 | of any stored policy, well shaped or not, the form has a row for every record of its lists and for nothing else, each part from its own key |
| PolicyForm.FormShowsAmounts | components/PolicyShadowPanel.tsx:95-121 | amounts are shown in dollars that read as the cents stored, counts as their numerals |
| PolicyForm.FormShowsModes | components/PolicyShadowPanel.tsx:109-115 | a guard's mode is shown only if the form offers it |
| PolicyForm.DocumentSurvivesIff | components/PolicyShadowPanel.tsx:81-216 | a document opened and read back from the form is the same document exactly when the form can spell it |
| PolicyForm.PolicySurvivesIff | components/PolicyShadowPanel.tsx:81-216 | of every stored policy, whatever shape its parts have: it survives exactly when it is a document, not a blank one, that the form can spell |
| PolicyForm.OpenAndSave | components/PolicyShadowPanel.tsx:81-216 | what opening and saving stores in place of any policy |
| PolicyForm.SavingTwiceChangesNothing | components/PolicyShadowPanel.tsx:81-216 | whatever was typed, saving, reopening and saving stores the same policy |
| PolicyForm.SaveFirstDraft | components/PolicyShadowPanel.tsx:125-136 | a first draft over a readable live policy, saved untouched, stores that policy |
| PolicyForm.SaveDraftOnFile | components/PolicyShadowPanel.tsx:130-136 | a draft on file is what is opened, whatever the live policy, and saved untouched it is stored again |
| PolicyForm.SaveUncopiedDraft | components/PolicyShadowPanel.tsx:130-136 | over a live policy the gateway cannot read the form starts blank, and saving it untouched stores nothing |
| PolicyForm.SubagentLimitLostIff | components/PolicyShadowPanel.tsx:103-108 | a stored sub-agent list is gone after opening and saving exactly when it is not empty and each rule has a blank provider or only models of commas and white space |
| PolicyForm.SpelledIsFaithful | components/PolicyShadowPanel.tsx:166-174 | numerals that read back what they show exist: a sign and decimal digits |
| ModelRanking.SortTiers | lib/agent-connect.ts:103-116 | the loop and the stable sort give the four tiers |
| ModelRanking.RankingIsAPartition | lib/agent-connect.ts:118-147 | every discovered id lands in exactly one of the two lists, once |
| ModelRanking.SuggestedThenOther | lib/agent-connect.ts:133-147 | 24 are suggested, or all the general ids if fewer; the two lists one after the other are the general ids, the snapshots, the legacy ids and the specialists |
| ModelRanking.SuggestionsAreTheNewest | lib/agent-connect.ts:133-147 | the suggestions are at most 24 general ids, and no general id left out is newer than any of them |
| ModelRanking.EqualVersionsKeepListingOrder | lib/agent-connect.ts:113-114 | ids of one version keep the provider's order |
| ModelRanking.UsableMeans | lib/agent-connect.ts:17-20 | a model a client can send, code by code |
| ModelRanking.PreferredModelIsTheFirstFit | lib/agent-connect.ts:166-178 | the model filled in is the documented default if the key reports it, else the first general id that is concrete and that the default pattern authorizes, and the default again only when none is |
| ModelRanking.PreferredModelIsCovered | lib/agent-connect.ts:149-164 | a model that is not the default is on the key and looks general |
| KeyImport.ChipsAre | components/KeyImportOnramp.tsx:96-113 | every suggestion not chosen yet is on screen, and of the other ids not chosen the first twenty-four |
| KeyImport.GrantIsBounded | components/KeyImportOnramp.tsx:96-113 | however it is clicked together, the grant repeats nothing and holds at most the pre-filled model and each id listed |
| KeyImport.OverflowIffListingIsTooLong | lib/agent-connect.ts:35-37 | clicking what is on screen can pass the 50-pattern limit exactly when the ids offered and the pre-filled model are more than 50 |
| KeyImport.ListingOverflowsIff | lib/agent-connect.ts:35-40 | the same from the listing itself, however its ids are ranked |
| KeyImport.ShortListingsNeverOverflow | lib/agent-connect.ts:35-37 | with no more ids than are on screen at once it cannot |
| ApiKeys.BytesToBase64url | lib/apikeys.ts:16-21 | encoding, swapping the alphabet and stripping the padding is base64url without padding |
| ApiKeys.DecodeOfEncode | lib/apikeys.ts:16-21 | a decoder undoes the encoding for every byte sequence |
| ApiKeys.EncodedLength | lib/apikeys.ts:48-50 | four characters for three bytes, rounded up |
| ApiKeys.GenerateApiKey | lib/apikeys.ts:41-53 | every token is the prefix and 43 characters, has the checked format, and decodes to the random bytes |
| ApiKeys.FormatMeans | lib/apikeys.ts:48-53 | a token passes the format check exactly when it is the prefix and 20 to 80 characters of the alphabet, by code |
| ApiKeys.PrefixShowsSixBytes | lib/apikeys.ts:14-14 | two display prefixes agree exactly when the first six random bytes do |
| AccountExport.ReadAllRows | lib/account-lifecycle.ts:81-108 | the pages are handed over whole and with one column list exactly when every page can be read, and refused otherwise |
| AccountExport.LoadFindings | lib/account-lifecycle.ts:146-172 | nothing before the table exists, every page under the newest column list the database knows, or no export |
| AccountExport.TotalOrderExports | lib/account-lifecycle.ts:117-135 | read by time and id, every row comes out once and in order, for any number of rows |
| AccountExport.TimeOrderExports | lib/account-lifecycle.ts:81-108 | read by time alone, as many rows come out as there are, in time order and at the table's own times |
| AccountExport.ExportIsWholeIffNoStraddle | lib/account-lifecycle.ts:94-100 | and they are sure to be the table's rows exactly when no two rows of one instant lie across a page boundary, at every thousandth row |
| RuntimePurge.RuntimeStore.Purge | lib/account-lifecycle.ts:265-304 | the store and the deny list afterwards, key by key |
| RuntimePurge.PurgedIffOwned | lib/account-lifecycle.ts:265-304 | for ids free of colons and glob characters, a key is deleted exactly when it belongs to a listed family of this account |
| RuntimePurge.OtherAccountsKeepTheirKeys | lib/account-lifecycle.ts:265-304 | no key is taken from an account sharing no id with the one deleted |
| RuntimePurge.KeyIsSpelled | lib/state/redis.ts:27-101 | every family of the schema by the text of its keys |
| RuntimePurge.SchemaPurgedIff | lib/state/redis.ts:26-101 | of the store's whole schema, eleven families of an account's keys are deleted, a provider's key only for a listed provider; the other thirteen are not |
| RuntimePurge.EveryProvidersKeyIsPurged | lib/account-lifecycle.ts:287-287 | of every provider there is, the agent's key is deleted |
| Providers.ProvidersAreNamed | lib/providers.ts:2-2 | the list of providers names each of them and nothing else |
| RuntimePurge.UnlistedFamiliesSurvive | lib/state/redis.ts:41-64 | no account's purge deletes a key of those thirteen, the sealed credentials, their endpoints and the policy cache in use among them |
| KeyParts.HeadPattern | lib/account-lifecycle.ts:272-290 | a pattern ending in a star takes exactly the keys with those parts first and at least one more |
| KeyParts.EndsPattern | lib/account-lifecycle.ts:272-272 | a pattern with a star in the middle takes exactly the keys with those parts at either end and at least one between |

## Findings

Where a promise in the code or its comments turned out not to hold, the model keeps
the code and a lemma says exactly when the promise does hold.

- **A service stop can strand its control.** When a change did not take effect, a
  read-back that succeeds still disagrees with it, and only another refresh is
  offered (`ServiceStop.DoubtEndsIffChangeLanded`; three events from a fresh page,
  `ServiceStop.StrandedIsReachable`). The kill switch bar does not have this
  (`KillSwitch.ReadBackEndsDoubt`).
- **A stop can be undone by a retry.** The focus re-check does not mark the control
  busy. One about an earlier reactivation that is lost after a Suspend click puts
  "Retry" for reactivation on screen (`AgentSuspend.StopHoldsIffNothingOpposite`,
  `AgentSuspend.OppositeIsReachable`); one that merely arrives late shows the agent as
  active again (`AgentSuspend.StaleReadMovesTheStatusBack`).
- **Resuming loses what was queued.** The updater reads the queue's ref, which the
  handler empties right after; React runs an updater at the call only when no
  earlier update still marks the component, and the pause itself was one. Unless the
  page around the board happened to render since, every queued call is lost
  (`DeparturesScreen.ResumesOfEveryRun`, `DeparturesScreen.PauseLosesACall`); if it
  did, two or more come back oldest first (`DeparturesScreen.ResumeKeepsOrderIff`).
- **One call drawn during the first load leaves a gap on the board**
  (`DeparturesRefinement.OneArrivalLeavesAGap`,
  `DeparturesRefinement.GapIsReachable`).
- **A late edit separates the verdict from its rows**
  (`ReceiptVerifier.LateEditMisleads`, `ReceiptVerifier.LateEditIsReachable`), and
  "a reader can sum the rows" then fails too (`ReceiptVerifier.TotalIsAddableIff`).
- **Tables exported by time alone can repeat one row and lose another** when two
  rows of one instant straddle a page (`AccountExport.ExportIsWholeIffNoStraddle`).
- **Deleting an account leaves its sealed credentials and cached policies** to
  expire by themselves, with eleven other families of keys: the purge names the
  policy cache of an earlier version and never the credentials
  (`RuntimePurge.SchemaPurgedIff`, `RuntimePurge.UnlistedFamiliesSurvive`).
- **An elevation that names no model is accepted**, takes the agent's one slot, and
  elevates nothing (`Elevation.AcceptedGrantIsLiveIffItNamesAModel`,
  `Elevation.EmptyListIsAccepted`).
- **The merge can narrow**: for the empty model id, and only there
  (`ScopeUnion.UnionMeaning`, `ScopeUnion.EmptyPatternNarrows`). Validation keeps the
  empty pattern out (`ScopeUnion.NoEmptyPatternNoShadow`).
- **Opening and saving a policy can lift a sub-agent restriction** whose rules the
  form cannot spell (`PolicyForm.SubagentLimitLostIff`).
- **The picker's bound does not hold**: chips slide onto the screen as others are
  chosen, so a listing of more than 50 ids can overfill the grant
  (`KeyImport.ListingOverflowsIff`).
- **Stripping controls is not a no-op on snapshots**: JSON does not escape DEL, so a
  change from DEL to a blank is recorded as none (`AuditTrail.StoredAsWrittenIffNoDel`,
  `AuditHistory.DelHidesAChange`).
- **The fallback diff compares joined keys**, so a bar hides a reorder and a slash
  another provider (`FallbackDiff.SwapIsSilentIff`, `FallbackDiff.BarHidesAReorder`,
  `FallbackDiff.SlashHidesAProvider`).

## Left out

- FallbackDiff.SilentIffEqual: proved for slash-free providers and bar-free keys; without the bar premise `FallbackDiff.SilentIffSameText` is exact in terms of the joined text, which outside it stands for several lists.
- DeparturesBoard.BoardIsThePrefix: takes inserts as newer than everything before and heard of in order, which is the table's clock and the realtime channel, and no load disturbed as `DeparturesBoard.LoadIsWholeIffCursorIsLast` says.
- DeparturesScreen.ResumesOfEveryRun: a click is drawn, and the effect of that render run, before the page hears anything else, as React flushes clicks; updates of one component are not split by priority; a render the board owes to a context it reads, which leaves its own mark, is not among the renders that clear marks.
- DeparturesRefinement.ScreenIsThePrefix: asks that no call is heard of while the board is paused, since resuming may then lose it, and that each load ends on the row it asked past; both exceptions have their exact conditions above.
- RuntimePurge.PurgedIffOwned: the store's glob syntax is modelled for stars only; character classes, `?` and escapes are excluded from ids.
- ReceiptVerifier.PassMeansPassed: `verifyReceipt` enters by its contract (checks in gate order, stopping at the first failure, `ok` exactly after eight passes, a throw only before an answer); a run may start while another is going, as its stale checks allow for, although the button is disabled then.
- ReceiptScreen.LateReadAgreesIffNothingQueued: is about updaters that wait for a render; one React works out at the call would read the position in time, and for the updaters the page has the two come to the same.
- AuditHistory.SavedChangeReadsBack: `JSON.parse` is a parameter that undoes `JSON.stringify` on scope documents; dates, durations and English sentences are left out, lines and headlines are datatypes.
- ModelRanking.SuggestionsAreTheNewest: the tier and version expressions are parameters, so the results hold whichever shapes they recognise.
- PolicyForm.DocumentSurvivesIff: `Number` and `String` on whole numbers are parameters with a faithful pair shown to exist; cents and dollars are exact decimals, not floating point; numbers outside the safe integers are not taken as stored counts.
- Stringify.DocumentSize: characters are Unicode scalar values, so lengths and sort order are not counted in UTF-16 code units and lone surrogates do not occur.
- KillSwitch.ClaimsAreTrue: one operator; the platform-wide switch shown beside the tenant's is not modelled.
- AgentSuspend.InTurnTheStatusIsTheServers: nobody else changes the agent, and a refetched page carries the server's status.
- Visa signing, key import cryptography, SHA-256 and random numbers; a token's random bytes are an input.
- The database, Redis and the network, which are tables, key sets, registers and lost replies here; React beyond its queue of updates and its renders.
- Endpoint allowlists, policy evaluation, budgets, billing and the Merkle statements, which share no state with what is modelled.
- Markup, styling, copy, announcements to screen readers and the confirmation dialogs.
