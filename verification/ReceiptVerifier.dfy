/** The receipt page (components/ReceiptVerifier.tsx, lib/verify/receipt-view.ts):
    a verifier filling a queue, a presenter draining it at its own pace, newer
    runs superseding older ones and edits at any moment, with every update of the
    page taking effect as it is made. ReceiptScreen defers them. */
module ReceiptVerifier {
  import opened Lists

  const STEPS := 8

  datatype RowState = Waiting | Active | Pass | Fail | NotReached
  datatype Row = Row(state: RowState, ms: Option<nat>)
  datatype Check = Check(ok: bool, ms: nat)

  function Initial(): (rows: seq<Row>)
    ensures |rows| == STEPS
  {
    seq(8, i => Row(if i == 0 then Active else Waiting, None))
  }

  function RowsFailingAt(at: nat): (rows: seq<Row>)
    ensures |rows| == STEPS
  {
    seq(8, i => if i < at then Row(Pass, Some(0)) else if i == at then Row(Fail, Some(0)) else Row(NotReached, None))
  }

  function ApplyStep(rows: seq<Row>, index: nat, step: Check): (r: seq<Row>)
    ensures |r| == |rows|
  {
    seq(|rows|, i requires 0 <= i < |rows| =>
      if i == index then Row(if step.ok then Pass else Fail, Some(step.ms))
      else if !step.ok && i > index then Row(NotReached, None)
      else if step.ok && i == index + 1 then Row(Active, None)
      else rows[i])
  }

  // ── Runs ────────────────────────────────────────────────────────────────

  datatype Stage = Draining | AwaitingResult | Finished | Superseded

  /** How `verifyReceipt` answers: `ok`, not `ok`, or by throwing. */
  datatype Verdict = Verified | Refuted | Broke

  /** One invocation of `run`. A local refusal settles at once; otherwise the
      verifier emits its checks into `queue` and answers, and the presenter has
      shown the first `shown` of them. `wiped` is how many had been shown at the
      last edit. */
  datatype Attempt =
    | Refused(at: nat)
    | Presented(text: string, queue: seq<Check>, verdict: Option<Verdict>, shown: nat, wiped: nat, stage: Stage)

  datatype Outcome = Genuine(text: string, totalMs: nat) | NotVerified(totalMs: nat)

  datatype Page = Page(input: string, rows: seq<Row>, outcome: Option<Outcome>, running: bool, runs: seq<Attempt>)

  datatype Event =
    | Start(text: string, refusedAt: Option<nat>)
    | Edit(text: string)
    | Emit(r: nat, check: Check)
    | Settle(r: nat, verdict: Verdict)
    | Present(r: nat)
    | Drained(r: nat)
    | Finish(r: nat)

  predicate AllPassed(queue: seq<Check>) {
    forall i :: 0 <= i < |queue| ==> queue[i].ok
  }

  function TotalMs(queue: seq<Check>): nat {
    if queue == [] then 0 else TotalMs(queue[..|queue| - 1]) + queue[|queue| - 1].ms
  }

  predicate Stale(runs: seq<Attempt>, r: nat) {
    r + 1 != |runs|
  }

  predicate Running(runs: seq<Attempt>, r: nat) {
    r < |runs| && runs[r].Presented?
  }

  /** The verifier's contract: it stops at its first failed check, answers `ok`
      exactly for eight passed ones, and can only throw before either. */
  predicate Answers(queue: seq<Check>, verdict: Verdict) {
    match verdict
    case Verified => |queue| == STEPS && AllPassed(queue)
    case Refuted => !AllPassed(queue)
    case Broke => |queue| < STEPS && AllPassed(queue)
  }

  predicate Enabled(runs: seq<Attempt>, e: Event) {
    match e
    case Start(_, refusedAt) => refusedAt.Some? ==> refusedAt.value < 4
    case Edit(_) => true
    case Emit(r, _) =>
      Running(runs, r) && runs[r].verdict.None? && |runs[r].queue| < STEPS && AllPassed(runs[r].queue)
    case Settle(r, verdict) => Running(runs, r) && runs[r].verdict.None? && Answers(runs[r].queue, verdict)
    case Present(r) => Running(runs, r) && runs[r].stage.Draining? && runs[r].shown < |runs[r].queue|
    case Drained(r) =>
      && Running(runs, r) && runs[r].stage.Draining?
      && runs[r].shown >= |runs[r].queue| && runs[r].verdict.Some?
    case Finish(r) => Running(runs, r) && runs[r].stage.AwaitingResult? && runs[r].verdict.Some?
  }

  function Wiped(run: Attempt): Attempt {
    if run.Presented? then run.(wiped := run.shown) else run
  }

  function Advanced(run: Attempt): Attempt
    requires run.Presented? && run.shown < |run.queue|
  {
    var done := !run.queue[run.shown].ok || run.shown + 1 == STEPS;
    run.(shown := run.shown + 1, stage := if done then AwaitingResult else Draining)
  }

  /** What an event does to the runs: refs and locals, never deferred. */
  function RunsAfter(runs: seq<Attempt>, e: Event): seq<Attempt>
    requires Enabled(runs, e)
  {
    match e
    case Start(text, refusedAt) =>
      runs + [if refusedAt.Some? then Refused(refusedAt.value) else Presented(text, [], None, 0, 0, Draining)]
    case Edit(_) => seq(|runs|, i requires 0 <= i < |runs| => Wiped(runs[i]))
    case Emit(r, check) => runs[r := runs[r].(queue := runs[r].queue + [check])]
    case Settle(r, verdict) => runs[r := runs[r].(verdict := Some(verdict))]
    case Present(r) => runs[r := if Stale(runs, r) then runs[r].(stage := Superseded) else Advanced(runs[r])]
    case Drained(r) => runs[r := runs[r].(stage := AwaitingResult)]
    case Finish(r) => runs[r := runs[r].(stage := if Stale(runs, r) then Superseded else Finished)]
  }

  function OutcomeOf(run: Attempt): Outcome
    requires run.Presented? && run.verdict.Some?
  {
    if run.verdict.value.Verified? then Genuine(run.text, TotalMs(run.queue)) else NotVerified(TotalMs(run.queue))
  }

  function FailedAt(run: Attempt): nat
    requires run.Presented?
  {
    if run.shown < STEPS then run.shown else STEPS - 1
  }

  function Next(p: Page, e: Event): Page
    requires Enabled(p.runs, e)
  {
    var q := p.(runs := RunsAfter(p.runs, e));
    match e
    case Start(text, refusedAt) =>
      if refusedAt.Some? then
        q.(rows := RowsFailingAt(refusedAt.value), outcome := Some(NotVerified(0)), running := false)
      else q.(rows := Initial(), outcome := None, running := true)
    case Edit(text) => q.(input := text, rows := Initial(), outcome := None)
    case Present(r) =>
      if Stale(p.runs, r) then q else q.(rows := ApplyStep(p.rows, p.runs[r].shown, p.runs[r].queue[p.runs[r].shown]))
    case Finish(r) =>
      if Stale(p.runs, r) then q
      else
        q.(rows := if p.runs[r].verdict.value.Broke? then RowsFailingAt(FailedAt(p.runs[r])) else p.rows,
           outcome := Some(OutcomeOf(p.runs[r])), running := false)
    case _ => q
  }

  predicate CanRun(p: Page, events: seq<Event>)
    decreases |events|
  {
    events == [] || (Enabled(p.runs, events[0]) && CanRun(Next(p, events[0]), events[1..]))
  }

  function Run(p: Page, events: seq<Event>): Page
    requires CanRun(p, events)
    decreases |events|
  {
    if events == [] then p else Run(Next(p, events[0]), events[1..])
  }

  function Opened(input: string): Page {
    Page(input, Initial(), None, false, [])
  }

  // ── What the rows are ───────────────────────────────────────────────────

  /** The shown checks applied in order, from the last wipe on. */
  function Shown(queue: seq<Check>, wiped: nat, shown: nat): (rows: seq<Row>)
    requires wiped <= shown <= |queue|
    ensures |rows| == STEPS
  {
    if shown == wiped then Initial() else ApplyStep(Shown(queue, wiped, shown - 1), shown - 1, queue[shown - 1])
  }

  lemma {:induction false} ShownRow(queue: seq<Check>, wiped: nat, shown: nat, i: nat)
    requires wiped <= shown <= |queue| <= STEPS && i < STEPS
    requires shown > 0 ==> AllPassed(queue[..shown - 1])
    ensures wiped <= i < shown ==>
              Shown(queue, wiped, shown)[i] == Row(if queue[i].ok then Pass else Fail, Some(queue[i].ms))
    ensures i < wiped ==> Shown(queue, wiped, shown)[i] == Initial()[i]
    ensures i >= shown ==> Shown(queue, wiped, shown)[i].state !in {Pass, Fail} && Shown(queue, wiped, shown)[i].ms == None
  {
    if shown > wiped {
      if shown > 1 {
        var longer, shorter := queue[..shown - 1], queue[..shown - 2];
        assert forall k :: 0 <= k < |shorter| ==> shorter[k] == longer[k];
      }
      ShownRow(queue, wiped, shown - 1, i);
    }
  }

  /** Row by row, once a check has been shown since the last wipe: the next one is
      up, or nothing more is reached. */
  lemma RowsAhead(queue: seq<Check>, wiped: nat, shown: nat, i: nat)
    requires wiped < shown <= |queue| <= STEPS && AllPassed(queue[..shown - 1]) && shown <= i < STEPS
    ensures Shown(queue, wiped, shown)[i] ==
            if !queue[shown - 1].ok then Row(NotReached, None) else if i == shown then Row(Active, None) else Row(Waiting, None)
  {
    UntouchedAhead(queue, wiped, shown - 1, i);
  }

  lemma {:induction false} UntouchedAhead(queue: seq<Check>, wiped: nat, shown: nat, i: nat)
    requires wiped <= shown <= |queue| && AllPassed(queue[..shown]) && shown < i < STEPS
    ensures Shown(queue, wiped, shown)[i] == Row(Waiting, None)
  {
    if shown > wiped {
      var longer, shorter := queue[..shown], queue[..shown - 1];
      assert longer[shown - 1] == queue[shown - 1];
      assert forall k :: 0 <= k < |shorter| ==> shorter[k] == longer[k];
      UntouchedAhead(queue, wiped, shown - 1, i);
    }
  }

  /** A refusal before anything is sent draws the gates before it as passed in no
      time, its own as failed, the rest as not reached. */
  lemma RefusedRows(p: Page, text: string, at: nat, i: nat)
    requires at < 4 && i < 8
    ensures Next(p, Start(text, Some(at))).rows[i] ==
            if i < at then Row(Pass, Some(0)) else if i == at then Row(Fail, Some(0)) else Row(NotReached, None)
    ensures Next(p, Start(text, None)).rows[i] == Row(if i == 0 then Active else Waiting, None)
    ensures |Next(p, Start(text, Some(at))).rows| == 8 && |Next(p, Start(text, None)).rows| == 8
  {
  }

  /** What a run has recorded hangs together. */
  predicate Traced(run: Attempt)
    requires run.Presented?
  {
    && run.wiped <= run.shown <= |run.queue| <= STEPS
    && (|run.queue| > 0 ==> AllPassed(run.queue[..|run.queue| - 1]))
    && (run.verdict.Some? ==> Answers(run.queue, run.verdict.value))
    && (run.stage in {AwaitingResult, Finished} ==>
          run.shown == |run.queue| && (run.verdict.Some? || !AllPassed(run.queue) || |run.queue| == STEPS))
    && (run.stage.Finished? ==> run.verdict.Some?)
  }

  predicate Broken(run: Attempt) {
    run.Presented? && run.stage.Finished? && run.verdict == Some(Broke)
  }

  predicate AllTraced(runs: seq<Attempt>) {
    forall r :: 0 <= r < |runs| ==> runs[r].Presented? ==> Traced(runs[r])
  }

  /** What the page shows is the latest run's, and nothing else's. */
  predicate Inv(p: Page) {
    && AllTraced(p.runs)
    && (p.runs == [] ==> p.rows == Initial() && p.outcome.None?)
    && (p.runs != [] ==> LatestOnScreen(p, p.runs[|p.runs| - 1]))
  }

  predicate LatestOnScreen(p: Page, run: Attempt)
    requires run.Presented? ==> Traced(run)
  {
    if run.Refused? then
      && run.at < STEPS
      && (p.outcome.Some? ==> p.outcome.value == NotVerified(0))
      && (p.rows == RowsFailingAt(run.at) || (p.outcome.None? && p.rows == Initial()))
    else
      && !run.stage.Superseded?
      && (p.outcome.Some? ==> run.stage.Finished? && p.outcome.value == OutcomeOf(run))
      && (p.rows == Shown(run.queue, run.wiped, run.shown) || (Broken(run) && p.rows == RowsFailingAt(run.shown)))
      && (p.outcome.Some? && Broken(run) ==> p.rows == RowsFailingAt(run.shown))
  }

  /** The check just shown was the last one made, if it failed. */
  lemma AdvanceKeepsTrace(run: Attempt)
    requires run.Presented? && Traced(run) && run.stage.Draining? && run.shown < |run.queue|
    ensures Traced(Advanced(run))
  {
    var before := run.queue[..|run.queue| - 1];
    if run.shown < |before| {
      assert before[run.shown] == run.queue[run.shown];
    }
  }

  lemma OthersStayTraced(runs: seq<Attempt>, r: nat, run: Attempt)
    requires r < |runs| && AllTraced(runs) && (run.Presented? ==> Traced(run))
    ensures AllTraced(runs[r := run])
  {
  }

  lemma PresentedOnScreen(p: Page, r: nat)
    requires Inv(p) && Enabled(p.runs, Present(r)) && !Stale(p.runs, r)
    requires Traced(Advanced(p.runs[r]))
    ensures LatestOnScreen(Next(p, Present(r)), Advanced(p.runs[r]))
  {
    var run := p.runs[r];
    assert LatestOnScreen(p, run);
    assert p.rows == Shown(run.queue, run.wiped, run.shown);
  }

  lemma PresentKeepsInv(p: Page, r: nat)
    requires Inv(p) && Enabled(p.runs, Present(r))
    ensures Inv(Next(p, Present(r)))
  {
    var run, q := p.runs[r], Next(p, Present(r));
    if Stale(p.runs, r) {
      OthersStayTraced(p.runs, r, run.(stage := Superseded));
      assert q.runs[|q.runs| - 1] == p.runs[|p.runs| - 1];
    } else {
      AdvanceKeepsTrace(run);
      OthersStayTraced(p.runs, r, Advanced(run));
      PresentedOnScreen(p, r);
    }
  }

  lemma EmitKeepsInv(p: Page, r: nat, check: Check)
    requires Inv(p) && Enabled(p.runs, Emit(r, check))
    ensures Inv(Next(p, Emit(r, check)))
  {
    var run := p.runs[r];
    var queue := run.queue + [check];
    assert queue[..|queue| - 1] == run.queue;
    ShownOfPrefix(run.queue, check, run.wiped, run.shown);
  }

  lemma {:induction false} ShownOfPrefix(queue: seq<Check>, check: Check, wiped: nat, shown: nat)
    requires wiped <= shown <= |queue|
    ensures Shown(queue + [check], wiped, shown) == Shown(queue, wiped, shown)
  {
    if shown > wiped {
      ShownOfPrefix(queue, check, wiped, shown - 1);
    }
  }

  lemma EditKeepsInv(p: Page, text: string)
    requires Inv(p)
    ensures Inv(Next(p, Edit(text)))
  {
    var q := Next(p, Edit(text));
    assert AllTraced(q.runs);
    if p.runs != [] {
      assert q.runs[|q.runs| - 1] == Wiped(p.runs[|p.runs| - 1]);
    }
  }

  lemma FinishKeepsInv(p: Page, r: nat)
    requires Inv(p) && Enabled(p.runs, Finish(r))
    ensures Inv(Next(p, Finish(r)))
  {
    var run, q := p.runs[r], Next(p, Finish(r));
    OthersStayTraced(p.runs, r, q.runs[r]);
    if Stale(p.runs, r) {
      assert q.runs[|q.runs| - 1] == p.runs[|p.runs| - 1];
    } else {
      FinishedOnScreen(p, r);
    }
  }

  lemma FinishedOnScreen(p: Page, r: nat)
    requires Inv(p) && Enabled(p.runs, Finish(r)) && !Stale(p.runs, r)
    ensures LatestOnScreen(Next(p, Finish(r)), p.runs[r].(stage := Finished))
  {
    var run := p.runs[r];
    assert LatestOnScreen(p, run);
    if run.verdict.value.Broke? {
      assert FailedAt(run) == run.shown;
    } else {
      assert p.rows == Shown(run.queue, run.wiped, run.shown);
    }
  }

  lemma SettleKeepsInv(p: Page, r: nat, verdict: Verdict)
    requires Inv(p) && Enabled(p.runs, Settle(r, verdict))
    ensures Inv(Next(p, Settle(r, verdict)))
  {
    var q := Next(p, Settle(r, verdict));
    assert AllTraced(q.runs);
    if Stale(p.runs, r) {
      assert q.runs[|q.runs| - 1] == p.runs[|p.runs| - 1];
    } else {
      assert p.outcome.None?;
      assert LatestOnScreen(q, q.runs[r]);
    }
  }

  lemma DrainedKeepsInv(p: Page, r: nat)
    requires Inv(p) && Enabled(p.runs, Drained(r))
    ensures Inv(Next(p, Drained(r)))
  {
    var q := Next(p, Drained(r));
    assert AllTraced(q.runs);
    if Stale(p.runs, r) {
      assert q.runs[|q.runs| - 1] == p.runs[|p.runs| - 1];
    } else {
      assert p.outcome.None?;
      assert LatestOnScreen(q, q.runs[r]);
    }
  }

  lemma StepKeepsInv(p: Page, e: Event)
    requires Inv(p) && Enabled(p.runs, e)
    ensures Inv(Next(p, e))
  {
    match e
    case Start(text, refusedAt) => assert AllTraced(Next(p, e).runs);
    case Edit(text) => EditKeepsInv(p, text);
    case Present(r) => PresentKeepsInv(p, r);
    case Emit(r, check) => EmitKeepsInv(p, r, check);
    case Finish(r) => FinishKeepsInv(p, r);
    case Settle(r, verdict) => SettleKeepsInv(p, r, verdict);
    case Drained(r) => DrainedKeepsInv(p, r);
  }

  lemma {:induction false} RunKeepsInv(p: Page, events: seq<Event>)
    requires Inv(p) && CanRun(p, events)
    ensures Inv(Run(p, events))
    decreases |events|
  {
    if events != [] {
      StepKeepsInv(p, events[0]);
      RunKeepsInv(Next(p, events[0]), events[1..]);
    }
  }

  lemma {:induction false} RunConcat(p: Page, a: seq<Event>, b: seq<Event>)
    requires CanRun(p, a) && CanRun(Run(p, a), b)
    ensures CanRun(p, a + b) && Run(p, a + b) == Run(Run(p, a), b)
    decreases |a|
  {
    if a == [] {
      assert a + b == b;
    } else {
      assert (a + b)[1..] == a[1..] + b;
      RunConcat(Next(p, a[0]), a[1..], b);
    }
  }

  // ── What a reader may conclude ──────────────────────────────────────────

  /** Gate i passed in this run: the verifier said so, or the local check, which
      only refuses at a later gate, did. */
  predicate PassedAt(run: Attempt, i: nat) {
    match run
    case Refused(at) => i < at
    case Presented(_, queue, _, _, _, _) => i < |queue| && queue[i].ok
  }

  lemma PassOnPage(p: Page, i: nat)
    requires Inv(p) && i < STEPS && |p.rows| == STEPS && p.rows[i].state == Pass
    ensures p.runs != [] && PassedAt(p.runs[|p.runs| - 1], i)
  {
    if p.runs != [] {
      var run := p.runs[|p.runs| - 1];
      if run.Presented? && p.rows == Shown(run.queue, run.wiped, run.shown) {
        ShownPrefixPassed(run);
        ShownRow(run.queue, run.wiped, run.shown, i);
      }
    }
  }

  /** In every interleaving of verifier, presenter, newer runs and edits, a row
      shows a pass only for a check that passed in the latest run. */
  lemma PassMeansPassed(input: string, events: seq<Event>, i: nat)
    requires CanRun(Opened(input), events) && i < STEPS
    requires var p := Run(Opened(input), events); |p.rows| == STEPS && p.rows[i].state == Pass
    ensures var p := Run(Opened(input), events);
            p.runs != [] && PassedAt(p.runs[|p.runs| - 1], i)
  {
    RunKeepsInv(Opened(input), events);
    PassOnPage(Run(Opened(input), events), i);
  }

  lemma ShownPrefixPassed(run: Attempt)
    requires run.Presented? && Traced(run)
    ensures run.shown > 0 ==> AllPassed(run.queue[..run.shown - 1])
  {
    if run.shown > 0 {
      var all, shown := run.queue[..|run.queue| - 1], run.queue[..run.shown - 1];
      forall k | 0 <= k < |shown| ensures shown[k].ok {
        assert shown[k] == all[k];
      }
    }
  }

  /** A superseded run writes no row, no outcome, and does not stop the page. */
  lemma SupersededWritesNothing(p: Page, e: Event)
    requires Enabled(p.runs, e) && !e.Start? && !e.Edit? && Stale(p.runs, e.r)
    ensures var q := Next(p, e);
            q.rows == p.rows && q.outcome == p.outcome && q.running == p.running && q.input == p.input
  {
  }

  predicate EveryRowPasses(rows: seq<Row>) {
    |rows| == STEPS && forall i :: 0 <= i < STEPS ==> rows[i].state == Pass
  }

  function RowsMs(rows: seq<Row>): nat {
    if rows == [] then 0
    else RowsMs(rows[..|rows| - 1]) + (var last := rows[|rows| - 1]; if last.ms.Some? then last.ms.value else 0)
  }

  lemma GenuineRows(p: Page)
    requires Inv(p) && p.outcome.Some? && p.outcome.value.Genuine?
    ensures p.runs != [] && p.runs[|p.runs| - 1].Presented?
    ensures var run := p.runs[|p.runs| - 1];
            && |run.queue| == STEPS && AllPassed(run.queue)
            && (EveryRowPasses(p.rows) <==> run.wiped == 0)
  {
    var run := p.runs[|p.runs| - 1];
    ShownPrefixPassed(run);
    forall i | 0 <= i < STEPS
      ensures p.rows[i].state == if i < run.wiped then Initial()[i].state else Pass
    {
      ShownRow(run.queue, run.wiped, run.shown, i);
    }
    assert run.wiped > 0 ==> p.rows[0].state == Active;
  }

  /** When the page says genuine, all eight checks passed; all eight rows say so
      exactly when no edit came after the first row was shown. */
  lemma GenuineMeansEightPasses(input: string, events: seq<Event>)
    requires CanRun(Opened(input), events)
    requires var p := Run(Opened(input), events); p.outcome.Some? && p.outcome.value.Genuine?
    ensures var p := Run(Opened(input), events);
            && p.runs != [] && p.runs[|p.runs| - 1].Presented?
            && (var run := p.runs[|p.runs| - 1];
                && |run.queue| == STEPS && AllPassed(run.queue)
                && (EveryRowPasses(p.rows) <==> run.wiped == 0))
  {
    RunKeepsInv(Opened(input), events);
    GenuineRows(Run(Opened(input), events));
  }

  function PlayOut(r: nat, left: nat): seq<Event> {
    if left == 0 then [Finish(r)] else [Present(r)] + PlayOut(r, left - 1)
  }

  /** The latest run, verified genuine and not yet shown in full. */
  predicate Unshown(p: Page, r: nat) {
    && Inv(p) && Running(p.runs, r) && !Stale(p.runs, r)
    && p.runs[r].verdict == Some(Verified)
    && p.runs[r].stage == if p.runs[r].shown < STEPS then Draining else AwaitingResult
  }

  lemma PresentStaysUnshown(p: Page, r: nat)
    requires Unshown(p, r) && p.runs[r].shown < STEPS
    ensures Enabled(p.runs, Present(r))
    ensures var q := Next(p, Present(r));
            && Unshown(q, r) && q.input == p.input && |q.runs| == |p.runs|
            && q.runs[r] == Advanced(p.runs[r])
  {
    StepKeepsInv(p, Present(r));
  }

  lemma UnshownEnds(p: Page, r: nat)
    requires Unshown(p, r) && p.runs[r].shown == STEPS
    ensures Enabled(p.runs, Finish(r))
    ensures var q := Next(p, Finish(r));
            && Inv(q) && q.input == p.input && |q.runs| == |p.runs|
            && q.outcome == Some(Genuine(p.runs[r].text, TotalMs(p.runs[r].queue)))
            && q.runs[r] == p.runs[r].(stage := Finished)
  {
    StepKeepsInv(p, Finish(r));
  }

  /** The page ends genuine, the run otherwise as it was. */
  predicate PlayedOut(p: Page, q: Page, r: nat)
    requires Running(p.runs, r)
  {
    && Inv(q) && q.input == p.input && |q.runs| == |p.runs|
    && q.outcome == Some(Genuine(p.runs[r].text, TotalMs(p.runs[r].queue)))
    && q.runs[r].Presented? && q.runs[r].wiped == p.runs[r].wiped && q.runs[r].queue == p.runs[r].queue
    && q.runs[r].verdict == Some(Verified)
  }

  lemma PlayedFromNext(p: Page, q: Page, r: nat)
    requires Unshown(p, r) && p.runs[r].shown < STEPS
    requires Running(Next(p, Present(r)).runs, r) && PlayedOut(Next(p, Present(r)), q, r)
    ensures PlayedOut(p, q, r)
  {
    PresentStaysUnshown(p, r);
  }

  lemma {:induction false} PlaysOut(p: Page, r: nat)
    requires Unshown(p, r)
    ensures CanRun(p, PlayOut(r, STEPS - p.runs[r].shown))
    ensures PlayedOut(p, Run(p, PlayOut(r, STEPS - p.runs[r].shown)), r)
    decreases STEPS - p.runs[r].shown
  {
    var left := STEPS - p.runs[r].shown;
    if left > 0 {
      var next := Next(p, Present(r));
      PresentStaysUnshown(p, r);
      PlaysOut(next, r);
      assert PlayOut(r, left)[1..] == PlayOut(r, left - 1);
      PlayedFromNext(p, Run(next, PlayOut(r, left - 1)), r);
    } else {
      UnshownEnds(p, r);
      OneStep(p, Finish(r));
    }
  }

  function EditThenRest(r: nat, text: string, shown: nat): seq<Event>
    requires shown <= STEPS
  {
    [Edit(text)] + PlayOut(r, STEPS - shown)
  }

  /** An edit resets the rows but not the run: after any edit that catches a
      genuine receipt partly shown, the page goes on to say genuine, of the text
      that was submitted, over rows that do not all pass and, if the wiped ones
      took any time, do not add up. */
  lemma LateEditMisleads(p: Page, r: nat, text: string)
    requires Unshown(p, r) && p.runs[r].shown > 0
    ensures var events := EditThenRest(r, text, p.runs[r].shown);
            && CanRun(p, events)
            && (var q := Run(p, events);
                && q.input == text
                && q.outcome == Some(Genuine(p.runs[r].text, TotalMs(p.runs[r].queue)))
                && !EveryRowPasses(q.rows)
                && (TotalMs(p.runs[r].queue[..p.runs[r].shown]) > 0 ==> q.outcome.value.totalMs != RowsMs(q.rows)))
  {
    var edited := Next(p, Edit(text));
    EditKeepsInv(p, text);
    assert edited.runs[r] == Wiped(p.runs[r]);
    PlaysOut(edited, r);
    var rest := PlayOut(r, STEPS - p.runs[r].shown);
    assert EditThenRest(r, text, p.runs[r].shown)[1..] == rest;
    MisleadingRows(Run(edited, rest), r);
  }

  lemma MisleadingRows(p: Page, r: nat)
    requires Inv(p) && Running(p.runs, r) && !Stale(p.runs, r) && p.runs[r].wiped > 0
    requires p.outcome.Some? && p.outcome.value.Genuine?
    ensures !EveryRowPasses(p.rows)
    ensures TotalMs(p.runs[r].queue[..p.runs[r].wiped]) > 0 ==> p.outcome.value.totalMs != RowsMs(p.rows)
  {
    GenuineRows(p);
    TotalOnPage(p);
  }

  function Emits(r: nat, checks: seq<Check>): seq<Event> {
    if checks == [] then [] else [Emit(r, checks[0])] + Emits(r, checks[1..])
  }

  lemma {:induction false} EmitsRun(p: Page, text: string, done: seq<Check>, rest: seq<Check>)
    requires p.runs == [Presented(text, done, None, 0, 0, Draining)]
    requires AllPassed(done) && AllPassed(rest) && |done| + |rest| <= STEPS
    ensures CanRun(p, Emits(0, rest))
    ensures Run(p, Emits(0, rest)) == p.(runs := [Presented(text, done + rest, None, 0, 0, Draining)])
    decreases |rest|
  {
    if rest == [] {
      assert done + rest == done;
    } else {
      var more := done + [rest[0]];
      var next := p.(runs := [Presented(text, more, None, 0, 0, Draining)]);
      assert rest[0].ok;
      assert Next(p, Emit(0, rest[0])) == next;
      EmitsRun(next, text, more, rest[1..]);
      assert more + rest[1..] == done + rest;
      assert Emits(0, rest)[1..] == Emits(0, rest[1..]);
    }
  }

  /** The events before the edit: a submit, eight passing checks, the answer, and
      one check shown. */
  function FirstRowShown(text: string, checks: seq<Check>): seq<Event> {
    [Start(text, None)] + Emits(0, checks) + [Settle(0, Verified), Present(0)]
  }

  /** And every genuine receipt can be caught so, from a page just opened. */
  lemma LateEditIsReachable(input: string, text: string, checks: seq<Check>)
    requires |checks| == STEPS && AllPassed(checks)
    ensures CanRun(Opened(input), FirstRowShown(text, checks))
    ensures var p := Run(Opened(input), FirstRowShown(text, checks));
            Unshown(p, 0) && p.runs[0].shown == 1 && p.runs[0].queue == checks
  {
    var start := [Start(text, None)];
    var begun := Next(Opened(input), start[0]);
    assert begun.runs == [Presented(text, [], None, 0, 0, Draining)];
    OneStep(Opened(input), start[0]);
    EmitsRun(begun, text, [], checks);
    assert [] + checks == checks;
    var checked := begun.(runs := [Presented(text, checks, None, 0, 0, Draining)]);
    RunConcat(Opened(input), start, Emits(0, checks));
    TwoSteps(checked, Settle(0, Verified), Present(0));
    RunConcat(Opened(input), start + Emits(0, checks), [Settle(0, Verified), Present(0)]);
    RunKeepsInv(Opened(input), FirstRowShown(text, checks));
  }

  lemma OneStep(p: Page, e: Event)
    requires Enabled(p.runs, e)
    ensures CanRun(p, [e]) && Run(p, [e]) == Next(p, e)
  {
    var rest := [e][1..];
    assert rest == [];
    assert CanRun(Next(p, e), rest) && Run(Next(p, e), rest) == Next(p, e);
  }

  lemma TwoSteps(p: Page, a: Event, b: Event)
    requires Enabled(p.runs, a) && Enabled(Next(p, a).runs, b)
    ensures CanRun(p, [a, b]) && Run(p, [a, b]) == Next(Next(p, a), b)
  {
    OneStep(p, a);
    OneStep(Next(p, a), b);
    assert [a, b] == [a] + [b];
    RunConcat(p, [a], [b]);
  }

  lemma FailingRowsDoNotAllPass(at: nat)
    ensures at < STEPS ==> !EveryRowPasses(RowsFailingAt(at))
    ensures !EveryRowPasses(Initial())
  {
    assert Initial()[0].state == Active;
    if at < STEPS {
      assert RowsFailingAt(at)[at].state == Fail;
    }
  }

  lemma PassingRowIsACheck(run: Attempt, i: nat)
    requires run.Presented? && Traced(run) && EveryRowPasses(Shown(run.queue, run.wiped, run.shown)) && i < STEPS
    ensures i < run.shown && run.queue[i].ok
  {
    ShownPrefixPassed(run);
    ShownRow(run.queue, run.wiped, run.shown, i);
    assert Shown(run.queue, run.wiped, run.shown)[i].state == Pass;
  }

  lemma PassingRowsAreChecks(run: Attempt)
    requires run.Presented? && Traced(run) && EveryRowPasses(Shown(run.queue, run.wiped, run.shown))
    ensures |run.queue| == STEPS && AllPassed(run.queue)
  {
    PassingRowIsACheck(run, STEPS - 1);
    forall i | 0 <= i < STEPS ensures run.queue[i].ok {
      PassingRowIsACheck(run, i);
    }
  }

  /** And with no such edit, eight passing rows on a settled page mean genuine. */
  lemma EightPassesMeanGenuine(input: string, events: seq<Event>)
    requires CanRun(Opened(input), events)
    requires var p := Run(Opened(input), events); p.outcome.Some? && EveryRowPasses(p.rows)
    ensures Run(Opened(input), events).outcome.value.Genuine?
  {
    RunKeepsInv(Opened(input), events);
    SettledPassesAreGenuine(Run(Opened(input), events));
  }

  lemma SettledPassesAreGenuine(p: Page)
    requires Inv(p) && p.outcome.Some? && EveryRowPasses(p.rows)
    ensures p.outcome.value.Genuine?
  {
    var run := p.runs[|p.runs| - 1];
    FailingRowsDoNotAllPass(if run.Refused? then run.at else run.shown);
    if run.Presented? && p.rows == Shown(run.queue, run.wiped, run.shown) {
      PassingRowsAreChecks(run);
    }
  }

  /** Whether the shown total is what a reader gets by adding up the rows: the
      rows an edit wiped must have taken no time, and a breakdown, which blanks
      the rows' times, must have left nothing to add. */
  predicate Addable(run: Attempt)
    requires run.Presented? ==> run.wiped <= |run.queue|
  {
    match run
    case Refused(_) => true
    case Presented(_, queue, _, _, wiped, _) => TotalMs(if Broken(run) then queue else queue[..wiped]) == 0
  }

  lemma TotalOnPage(p: Page)
    requires Inv(p) && p.outcome.Some?
    ensures p.runs != []
    ensures p.outcome.value.totalMs == RowsMs(p.rows) <==> Addable(p.runs[|p.runs| - 1])
  {
    var run := p.runs[|p.runs| - 1];
    if run.Refused? {
      FailingRowsTakeNoTime(run.at, STEPS);
    } else if Broken(run) {
      FailingRowsTakeNoTime(run.shown, STEPS);
    } else {
      ShownTakes(run);
    }
  }

  /** The total shown is the sum of the rows exactly in these runs. */
  lemma TotalIsAddableIff(input: string, events: seq<Event>)
    requires CanRun(Opened(input), events) && Run(Opened(input), events).outcome.Some?
    ensures var p := Run(Opened(input), events);
            && AllTraced(p.runs) && p.runs != []
            && (p.outcome.value.totalMs == RowsMs(p.rows) <==> Addable(p.runs[|p.runs| - 1]))
  {
    RunKeepsInv(Opened(input), events);
    TotalOnPage(Run(Opened(input), events));
  }

  lemma {:induction false} FailingRowsTakeNoTime(at: nat, n: nat)
    requires n <= STEPS
    ensures RowsMs(RowsFailingAt(at)[..n]) == 0
    ensures n == STEPS ==> RowsMs(RowsFailingAt(at)) == 0
  {
    var rows := RowsFailingAt(at);
    if n > 0 {
      FailingRowsTakeNoTime(at, n - 1);
      assert rows[..n][..n - 1] == rows[..n - 1];
    }
    assert rows[..STEPS] == rows;
  }

  lemma ShownTakes(run: Attempt)
    requires run.Presented? && Traced(run) && run.shown == |run.queue|
    ensures RowsMs(Shown(run.queue, run.wiped, run.shown)) + TotalMs(run.queue[..run.wiped]) == TotalMs(run.queue)
  {
    var rows, queue := Shown(run.queue, run.wiped, run.shown), run.queue;
    ShownPrefixPassed(run);
    forall i | 0 <= i < STEPS
      ensures rows[i].ms == if run.wiped <= i < |queue| then Some(queue[i].ms) else None
    {
      ShownRow(queue, run.wiped, run.shown, i);
    }
    SumFrom(rows, queue, run.wiped, STEPS);
    assert rows[..STEPS] == rows && queue[..|queue|] == queue;
  }

  function Least(a: nat, b: nat): nat {
    if a < b then a else b
  }

  lemma {:induction false} SumFrom(rows: seq<Row>, queue: seq<Check>, wiped: nat, n: nat)
    requires n <= |rows| && wiped <= |queue|
    requires forall i :: 0 <= i < |rows| ==> rows[i].ms == if wiped <= i < |queue| then Some(queue[i].ms) else None
    ensures RowsMs(rows[..n]) + TotalMs(queue[..Least(n, wiped)]) == TotalMs(queue[..Least(n, |queue|)])
  {
    if n > 0 {
      SumFrom(rows, queue, wiped, n - 1);
      assert rows[..n][..n - 1] == rows[..n - 1];
      if n <= |queue| {
        assert queue[..n][..n - 1] == queue[..n - 1];
      }
    }
  }

  // ── Busy ────────────────────────────────────────────────────────────────

  /** The latest run is one that was not refused, and it has not finished. */
  predicate Unfinished(runs: seq<Attempt>) {
    runs != [] && (var run := runs[|runs| - 1]; run.Presented? && !run.stage.Finished?)
  }

  lemma StepKeepsBusy(p: Page, e: Event)
    requires Inv(p) && Enabled(p.runs, e) && (p.running <==> Unfinished(p.runs))
    ensures var q := Next(p, e); q.running <==> Unfinished(q.runs)
  {
    if e.Edit? && p.runs != [] {
      assert Next(p, e).runs[|p.runs| - 1] == Wiped(p.runs[|p.runs| - 1]);
    }
  }

  /** In every run the page is busy exactly while its latest run is unfinished, so
      never over an outcome, whatever older runs are still about. */
  lemma BusyIffUnfinished(input: string, events: seq<Event>)
    requires CanRun(Opened(input), events)
    ensures var q := Run(Opened(input), events);
            && (q.running <==> Unfinished(q.runs))
            && (q.outcome.Some? ==> !q.running)
  {
    BusyUntilFinished(Opened(input), events);
  }

  lemma {:induction false} BusyUntilFinished(p: Page, events: seq<Event>)
    requires Inv(p) && (p.running <==> Unfinished(p.runs)) && CanRun(p, events)
    ensures var q := Run(p, events);
            && (q.running <==> Unfinished(q.runs))
            && (q.outcome.Some? ==> !q.running)
    decreases |events|
  {
    if events == [] {
      assert p.outcome.Some? ==> p.runs != [];
    } else {
      StepKeepsInv(p, events[0]);
      StepKeepsBusy(p, events[0]);
      BusyUntilFinished(Next(p, events[0]), events[1..]);
    }
  }

  // ── Without edits ───────────────────────────────────────────────────────

  predicate NoEdit(events: seq<Event>) {
    forall i :: 0 <= i < |events| ==> !events[i].Edit?
  }

  predicate Unwiped(runs: seq<Attempt>) {
    forall r :: 0 <= r < |runs| ==> runs[r].Presented? ==> runs[r].wiped == 0
  }

  lemma {:induction false} NoEditNoWipe(p: Page, events: seq<Event>)
    requires CanRun(p, events) && NoEdit(events) && Unwiped(p.runs)
    ensures Unwiped(Run(p, events).runs)
    decreases |events|
  {
    if events != [] {
      assert !events[0].Edit?;
      NoEditNoWipe(Next(p, events[0]), events[1..]);
    }
  }

  /** With no edit in the run, the outcome is genuine exactly when all eight rows
      pass, and the total adds up unless the verifier broke down. */
  lemma UneditedPageIsConsistent(input: string, events: seq<Event>)
    requires CanRun(Opened(input), events) && NoEdit(events) && Run(Opened(input), events).outcome.Some?
    ensures var p := Run(Opened(input), events);
            && (p.outcome.value.Genuine? <==> EveryRowPasses(p.rows))
            && p.runs != []
            && (!Broken(p.runs[|p.runs| - 1]) ==> p.outcome.value.totalMs == RowsMs(p.rows))
  {
    var p := Run(Opened(input), events);
    RunKeepsInv(Opened(input), events);
    NoEditNoWipe(Opened(input), events);
    TotalOnPage(p);
    if p.outcome.value.Genuine? {
      GenuineRows(p);
    }
    if EveryRowPasses(p.rows) {
      EightPassesMeanGenuine(input, events);
    }
  }

  predicate Submitted(p: Page) {
    p.runs != [] && p.runs[|p.runs| - 1].Presented? && p.runs[|p.runs| - 1].text == p.input
  }

  predicate OnlySubmits(p: Page, events: seq<Event>)
    requires CanRun(p, events)
    decreases |events|
  {
    events == [] ||
    ((events[0].Start? ==> events[0].text == p.input && events[0].refusedAt.None?)
     && OnlySubmits(Next(p, events[0]), events[1..]))
  }

  lemma {:induction false} StaysSubmitted(p: Page, events: seq<Event>)
    requires Submitted(p) && CanRun(p, events) && NoEdit(events) && OnlySubmits(p, events)
    ensures Submitted(Run(p, events))
    decreases |events|
  {
    if events != [] {
      assert !events[0].Edit?;
      StaysSubmitted(Next(p, events[0]), events[1..]);
    }
  }

  /** With no edit since the submit, the verdict is about the text in the box. */
  lemma VerdictIsAboutTheInput(input: string, before: seq<Event>, after: seq<Event>)
    requires CanRun(Opened(input), before) && Submitted(Run(Opened(input), before))
    requires CanRun(Run(Opened(input), before), after) && NoEdit(after) && OnlySubmits(Run(Opened(input), before), after)
    requires var p := Run(Run(Opened(input), before), after); p.outcome.Some? && p.outcome.value.Genuine?
    ensures var p := Run(Run(Opened(input), before), after); p.outcome.value.text == p.input
  {
    RunKeepsInv(Opened(input), before);
    RunKeepsInv(Run(Opened(input), before), after);
    StaysSubmitted(Run(Opened(input), before), after);
  }

  // ── Termination ─────────────────────────────────────────────────────────

  function Rank(run: Attempt): nat
    requires run.Presented? && run.shown <= |run.queue|
  {
    match run.stage
    case Draining => |run.queue| - run.shown + 2
    case AwaitingResult => 1
    case _ => 0
  }

  /** Once the verifier has settled, the presenter always has a next move until
      it is done, and every move brings it nearer. */
  lemma PresenterTerminates(p: Page, r: nat)
    requires Inv(p) && Running(p.runs, r) && p.runs[r].verdict.Some?
    ensures Rank(p.runs[r]) > 0 ==> Enabled(p.runs, Present(r)) || Enabled(p.runs, Drained(r)) || Enabled(p.runs, Finish(r))
    ensures Enabled(p.runs, Present(r)) ==> Rank(Next(p, Present(r)).runs[r]) < Rank(p.runs[r])
    ensures Enabled(p.runs, Drained(r)) ==> Rank(Next(p, Drained(r)).runs[r]) < Rank(p.runs[r])
    ensures Enabled(p.runs, Finish(r)) ==> Rank(Next(p, Finish(r)).runs[r]) < Rank(p.runs[r])
  {
  }

  /** The loop itself, over a settled verifier and undisturbed. */
  method Drain(queue: seq<Check>) returns (rows: seq<Row>, shown: nat)
    requires |queue| <= STEPS && (|queue| > 0 ==> AllPassed(queue[..|queue| - 1]))
    ensures shown == |queue| && rows == Shown(queue, 0, shown)
  {
    rows, shown := Initial(), 0;
    while shown < STEPS
      invariant shown <= |queue| && rows == Shown(queue, 0, shown)
    {
      if shown >= |queue| { break; }
      ghost var before := queue[..|queue| - 1];
      assert shown < |before| ==> before[shown] == queue[shown];
      var step, at := queue[shown], shown;
      rows := ApplyStep(rows, at, step);
      shown := shown + 1;
      if !step.ok { break; }
    }
  }
}
