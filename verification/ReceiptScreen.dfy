/** The receipt page as React runs it: a state setter only queues an update, and
    a later render applies what is queued, in order. */
module ReceiptScreen {
  import opened Lists
  import opened ReceiptVerifier

  /** What a render draws. */
  datatype Seen = Seen(input: string, rows: seq<Row>, outcome: Option<Outcome>, running: bool)

  /** What a setter is handed. `Apply` is the updater `prev => applyStep(prev, at,
      step)`, with `at` bound when it was made. */
  datatype Update =
    | Type(text: string)
    | Replace(rows: seq<Row>)
    | Apply(at: nat, step: Check)
    | Tell(outcome: Option<Outcome>)
    | Busy(running: bool)

  function Applied(seen: Seen, u: Update): Seen {
    match u
    case Type(text) => seen.(input := text)
    case Replace(rows) => seen.(rows := rows)
    case Apply(at, step) => seen.(rows := ApplyStep(seen.rows, at, step))
    case Tell(outcome) => seen.(outcome := outcome)
    case Busy(running) => seen.(running := running)
  }

  function AppliedAll(seen: Seen, pending: seq<Update>): Seen {
    if pending == [] then seen else Applied(AppliedAll(seen, pending[..|pending| - 1]), pending[|pending| - 1])
  }

  /** The setters each event calls, in order. */
  function UpdatesOf(runs: seq<Attempt>, e: Event): seq<Update>
    requires Enabled(runs, e)
  {
    match e
    case Start(_, None) => [Tell(None), Replace(Initial()), Busy(true)]
    case Start(_, Some(at)) =>
      [Tell(None), Replace(Initial()), Busy(true)] + [Replace(RowsFailingAt(at)), Tell(Some(NotVerified(0))), Busy(false)]
    case Edit(text) => [Type(text), Tell(None), Replace(Initial())]
    case Present(r) => if Stale(runs, r) then [] else [Apply(runs[r].shown, runs[r].queue[runs[r].shown])]
    case Finish(r) =>
      if Stale(runs, r) then []
      else if runs[r].verdict.value.Broke? then
        [Replace(RowsFailingAt(FailedAt(runs[r]))), Tell(Some(OutcomeOf(runs[r]))), Busy(false)]
      else [Tell(Some(OutcomeOf(runs[r]))), Busy(false)]
    case _ => []
  }

  datatype Screen = Screen(seen: Seen, pending: seq<Update>, runs: seq<Attempt>)

  datatype ScreenEvent = Do(e: Event) | Render

  function Step(s: Screen, e: ScreenEvent): Screen
    requires e.Do? ==> Enabled(s.runs, e.e)
  {
    match e
    case Do(event) => Screen(s.seen, s.pending + UpdatesOf(s.runs, event), RunsAfter(s.runs, event))
    case Render => Screen(AppliedAll(s.seen, s.pending), [], s.runs)
  }

  predicate CanPlay(s: Screen, events: seq<ScreenEvent>)
    decreases |events|
  {
    events == [] || ((events[0].Do? ==> Enabled(s.runs, events[0].e)) && CanPlay(Step(s, events[0]), events[1..]))
  }

  function Play(s: Screen, events: seq<ScreenEvent>): Screen
    requires CanPlay(s, events)
    decreases |events|
  {
    if events == [] then s else Play(Step(s, events[0]), events[1..])
  }

  function SeenOf(p: Page): Seen {
    Seen(p.input, p.rows, p.outcome, p.running)
  }

  /** The page this screen will be once everything queued has been applied. */
  function Flushed(s: Screen): Page {
    var seen := AppliedAll(s.seen, s.pending);
    Page(seen.input, seen.rows, seen.outcome, seen.running, s.runs)
  }

  function Mounted(input: string): Screen {
    Screen(SeenOf(Opened(input)), [], [])
  }

  // ── The component ───────────────────────────────────────────────────────

  class ReceiptPage {
    var seen: Seen
    var pending: seq<Update>
    var runs: seq<Attempt>

    ghost function View(): Screen
      reads this
    {
      Screen(seen, pending, runs)
    }

    constructor (text: string)
      ensures View() == Mounted(text)
    {
      seen, pending, runs := Seen(text, Initial(), None, false), [], [];
    }

    method SetState(u: Update)
      modifies this`pending
      ensures pending == old(pending) + [u]
    {
      pending := pending + [u];
    }

    /** Only the page is reset; the latest run stays the latest. */
    method OnInput(value: string)
      modifies this
      ensures View() == Step(old(View()), Do(Edit(value)))
    {
      SetState(Type(value));
      SetState(Tell(None));
      SetState(Replace(Initial()));
      runs := seq(|runs|, i requires 0 <= i < |runs| reads this => Wiped(runs[i]));
      assert pending == old(pending) + [Type(value), Tell(None), Replace(Initial())];
    }

    /** Up to the first await: a receipt the page can refuse itself is refused here. */
    method BeginRun(text: string, refusedAt: Option<nat>)
      requires Enabled(runs, Start(text, refusedAt))
      modifies this
      ensures View() == Step(old(View()), Do(Start(text, refusedAt)))
    {
      SetState(Tell(None));
      SetState(Replace(Initial()));
      SetState(Busy(true));
      assert pending == old(pending) + [Tell(None), Replace(Initial()), Busy(true)];
      if refusedAt.Some? {
        SetState(Replace(RowsFailingAt(refusedAt.value)));
        SetState(Tell(Some(NotVerified(0))));
        SetState(Busy(false));
        runs := runs + [Refused(refusedAt.value)];
        return;
      }
      runs := runs + [Presented(text, [], None, 0, 0, Draining)];
    }

    /** One turn of the presenter's loop that has a check to show: `at` is read
        before `shown` moves on. */
    method ShowNext(r: nat)
      requires Enabled(runs, Present(r))
      modifies this
      ensures View() == Step(old(View()), Do(Present(r)))
    {
      var run := runs[r];
      var at, step := run.shown, run.queue[run.shown];
      if r + 1 != |runs| {
        runs := runs[r := run.(stage := Superseded)];
        return;
      }
      SetState(Apply(at, step));
      run := run.(shown := at + 1);
      if !step.ok || run.shown == STEPS {
        run := run.(stage := AwaitingResult);
      }
      runs := runs[r := run];
    }

    /** From the last await: the verifier's answer, or its breakdown. */
    method Complete(r: nat)
      requires Enabled(runs, Finish(r))
      modifies this
      ensures View() == Step(old(View()), Do(Finish(r)))
    {
      var run := runs[r];
      if r + 1 != |runs| {
        runs := runs[r := run.(stage := Superseded)];
        return;
      }
      var total := SumMs(run.queue);
      if run.verdict.value.Broke? {
        SetState(Replace(RowsFailingAt(if run.shown < STEPS then run.shown else STEPS - 1)));
      }
      SetState(Tell(Some(if run.verdict.value.Verified? then Genuine(run.text, total) else NotVerified(total))));
      SetState(Busy(false));
      runs := runs[r := run.(stage := Finished)];
    }

    static method SumMs(queue: seq<Check>) returns (total: nat)
      ensures total == TotalMs(queue)
    {
      total := 0;
      for i := 0 to |queue|
        invariant total == TotalMs(queue[..i])
      {
        assert queue[..i + 1][..i] == queue[..i];
        total := total + queue[i].ms;
      }
      assert queue[..|queue|] == queue;
    }

    method RenderPending()
      modifies this
      ensures View() == Step(old(View()), Render)
    {
      for i := 0 to |pending|
        invariant pending == old(pending) && runs == old(runs)
        invariant seen == AppliedAll(old(seen), pending[..i])
      {
        assert pending[..i + 1][..i] == pending[..i];
        seen := Applied(seen, pending[i]);
      }
      assert pending[..|pending|] == pending;
      pending := [];
    }
  }

  // ── Deferring changes nothing in the end ────────────────────────────────

  lemma {:induction false} AppliedInTwo(seen: Seen, a: seq<Update>, b: seq<Update>)
    ensures AppliedAll(seen, a + b) == AppliedAll(AppliedAll(seen, a), b)
  {
    if b == [] {
      assert a + b == a;
    } else {
      assert (a + b)[..|a + b| - 1] == a + b[..|b| - 1];
      AppliedInTwo(seen, a, b[..|b| - 1]);
    }
  }

  lemma OneApplied(seen: Seen, u: Update)
    ensures AppliedAll(seen, [u]) == Applied(seen, u)
  {
    assert [u][..0] == [];
  }

  lemma TwoApplied(seen: Seen, u: Update, v: Update)
    ensures AppliedAll(seen, [u, v]) == Applied(Applied(seen, u), v)
  {
    assert [u, v][..1] == [u];
    OneApplied(seen, u);
  }

  lemma ThreeApplied(seen: Seen, u: Update, v: Update, w: Update)
    ensures AppliedAll(seen, [u, v, w]) == Applied(Applied(Applied(seen, u), v), w)
  {
    assert [u, v, w][..2] == [u, v];
    TwoApplied(seen, u, v);
  }

  lemma StartUpdates(p: Page, text: string, refusedAt: Option<nat>)
    requires Enabled(p.runs, Start(text, refusedAt))
    ensures AppliedAll(SeenOf(p), UpdatesOf(p.runs, Start(text, refusedAt))) == SeenOf(Next(p, Start(text, refusedAt)))
  {
    var seen := SeenOf(p);
    ThreeApplied(seen, Tell(None), Replace(Initial()), Busy(true));
    if refusedAt.Some? {
      var begun := AppliedAll(seen, [Tell(None), Replace(Initial()), Busy(true)]);
      AppliedInTwo(seen, [Tell(None), Replace(Initial()), Busy(true)],
                   [Replace(RowsFailingAt(refusedAt.value)), Tell(Some(NotVerified(0))), Busy(false)]);
      ThreeApplied(begun, Replace(RowsFailingAt(refusedAt.value)), Tell(Some(NotVerified(0))), Busy(false));
    }
  }

  lemma FinishUpdates(p: Page, r: nat)
    requires Enabled(p.runs, Finish(r))
    ensures AppliedAll(SeenOf(p), UpdatesOf(p.runs, Finish(r))) == SeenOf(Next(p, Finish(r)))
  {
    if !Stale(p.runs, r) {
      var run := p.runs[r];
      ThreeApplied(SeenOf(p), Replace(RowsFailingAt(FailedAt(run))), Tell(Some(OutcomeOf(run))), Busy(false));
      TwoApplied(SeenOf(p), Tell(Some(OutcomeOf(run))), Busy(false));
    }
  }

  lemma UpdatesAreTheStep(p: Page, e: Event)
    requires Enabled(p.runs, e)
    ensures AppliedAll(SeenOf(p), UpdatesOf(p.runs, e)) == SeenOf(Next(p, e))
    ensures RunsAfter(p.runs, e) == Next(p, e).runs
  {
    match e
    case Start(text, refusedAt) => StartUpdates(p, text, refusedAt);
    case Edit(text) => ThreeApplied(SeenOf(p), Type(text), Tell(None), Replace(Initial()));
    case Present(r) =>
      if !Stale(p.runs, r) {
        OneApplied(SeenOf(p), Apply(p.runs[r].shown, p.runs[r].queue[p.runs[r].shown]));
      }
    case Finish(r) => FinishUpdates(p, r);
    case _ =>
  }

  function Deeds(events: seq<ScreenEvent>): seq<Event> {
    if events == [] then []
    else if events[0].Do? then [events[0].e] + Deeds(events[1..])
    else Deeds(events[1..])
  }

  lemma StepFlushes(s: Screen, e: ScreenEvent)
    requires e.Do? ==> Enabled(s.runs, e.e)
    ensures Flushed(Step(s, e)) == if e.Do? then Next(Flushed(s), e.e) else Flushed(s)
  {
    match e
    case Do(event) =>
      AppliedInTwo(s.seen, s.pending, UpdatesOf(s.runs, event));
      UpdatesAreTheStep(Flushed(s), event);
    case Render =>
  }

  /** Whenever React renders, and however much it leaves queued between renders,
      the page comes to what it would be had each update been applied as it was
      made. */
  lemma {:induction false} DeferringAgrees(s: Screen, events: seq<ScreenEvent>)
    requires CanPlay(s, events)
    ensures CanRun(Flushed(s), Deeds(events))
    ensures Flushed(Play(s, events)) == Run(Flushed(s), Deeds(events))
    decreases |events|
  {
    if events != [] {
      StepFlushes(s, events[0]);
      DeferringAgrees(Step(s, events[0]), events[1..]);
      if events[0].Do? {
        assert Deeds(events)[1..] == Deeds(events[1..]);
      }
    }
  }

  // ── What the screen itself may show ─────────────────────────────────────

  /** Runs only grow: a later list has every earlier run, with what it recorded. */
  predicate Grown(a: seq<Attempt>, b: seq<Attempt>) {
    |a| <= |b| && forall r :: 0 <= r < |a| ==> GrownRun(a[r], b[r])
  }

  predicate GrownRun(a: Attempt, b: Attempt) {
    match a
    case Refused(_) => b == a
    case Presented(_, _, _, _, _, _) => b.Presented? && a.queue <= b.queue
  }

  lemma RunsGrow(runs: seq<Attempt>, e: Event)
    requires Enabled(runs, e)
    ensures Grown(runs, RunsAfter(runs, e))
  {
  }

  lemma GrownOn(a: seq<Attempt>, b: seq<Attempt>, c: seq<Attempt>)
    requires Grown(a, b) && Grown(b, c)
    ensures Grown(a, c)
  {
    forall r | 0 <= r < |a| ensures GrownRun(a[r], c[r]) {
      assert GrownRun(a[r], b[r]) && GrownRun(b[r], c[r]);
    }
  }

  /** The rows on screen are about to be thrown away. */
  predicate Doomed(s: Screen) {
    exists i :: 0 <= i < |s.pending| && s.pending[i].Replace?
  }

  /** The screen is what the page was at the last render. */
  ghost predicate DrawnFrom(s: Screen, p: Page) {
    && Inv(p) && SeenOf(p) == s.seen && Grown(p.runs, s.runs)
    && (!Doomed(s) ==> |p.runs| == |s.runs|)
  }

  lemma MoreIsStillDoomed(pending: seq<Update>, more: seq<Update>, s: Screen, t: Screen)
    requires s.pending == pending && t.pending == pending + more
    ensures Doomed(s) ==> Doomed(t)
    ensures (exists i :: 0 <= i < |more| && more[i].Replace?) ==> Doomed(t)
  {
    if i :| 0 <= i < |pending| && pending[i].Replace? {
      assert t.pending[i] == pending[i];
    }
    if i :| 0 <= i < |more| && more[i].Replace? {
      assert t.pending[|pending| + i] == more[i];
    }
  }

  lemma DoKeepsDrawn(s: Screen, e: Event, p: Page)
    requires Enabled(s.runs, e) && DrawnFrom(s, p)
    ensures DrawnFrom(Step(s, Do(e)), p)
  {
    var t, more := Step(s, Do(e)), UpdatesOf(s.runs, e);
    RunsGrow(s.runs, e);
    GrownOn(p.runs, s.runs, t.runs);
    MoreIsStillDoomed(s.pending, more, s, t);
    if e.Start? {
      assert more[1].Replace?;
    }
  }

  lemma {:induction false} ScreenIsDrawn(s: Screen, p: Page, events: seq<ScreenEvent>) returns (q: Page)
    requires CanPlay(s, events) && DrawnFrom(s, p) && Inv(Flushed(s))
    ensures DrawnFrom(Play(s, events), q)
    decreases |events|
  {
    if events == [] {
      q := p;
    } else {
      var t := Step(s, events[0]);
      StepFlushes(s, events[0]);
      if events[0].Do? {
        StepKeepsInv(Flushed(s), events[0].e);
        DoKeepsDrawn(s, events[0].e, p);
        q := ScreenIsDrawn(t, p, events[1..]);
      } else {
        SelfGrown(s.runs);
        q := ScreenIsDrawn(t, Flushed(s), events[1..]);
      }
    }
  }

  lemma SelfGrown(runs: seq<Attempt>)
    ensures Grown(runs, runs)
  {
  }

  lemma PassedStays(a: Attempt, b: Attempt, i: nat)
    requires GrownRun(a, b) && PassedAt(a, i)
    ensures PassedAt(b, i)
  {
    if a.Presented? { assert a.queue[i] == b.queue[i]; }
  }

  /** A pass on the screen, however late the renders, is a check that passed: in
      the latest run, unless the rows on screen are already queued to be replaced,
      and in some run even then. */
  lemma ScreenPassMeansPassed(input: string, events: seq<ScreenEvent>, i: nat) returns (r: nat)
    requires CanPlay(Mounted(input), events) && i < STEPS
    requires var s := Play(Mounted(input), events); |s.seen.rows| == STEPS && s.seen.rows[i].state == Pass
    ensures var s := Play(Mounted(input), events);
            && r < |s.runs| && PassedAt(s.runs[r], i)
            && (!Doomed(s) ==> r == |s.runs| - 1)
  {
    var s := Play(Mounted(input), events);
    assert Flushed(Mounted(input)) == Opened(input);
    SelfGrown([]);
    var p := ScreenIsDrawn(Mounted(input), Opened(input), events);
    PassOnPage(p, i);
    r := |p.runs| - 1;
    assert GrownRun(p.runs[r], s.runs[r]);
    PassedStays(p.runs[r], s.runs[r], i);
  }

  lemma PlayOne(s: Screen, e: ScreenEvent, rest: seq<ScreenEvent>)
    requires e.Do? ==> Enabled(s.runs, e.e)
    requires CanPlay(Step(s, e), rest)
    ensures CanPlay(s, [e] + rest) && Play(s, [e] + rest) == Play(Step(s, e), rest)
  {
    assert ([e] + rest)[1..] == rest;
  }

  /** The exception is real: the gates a refused receipt passed are still on the
      screen when the next run, which has checked nothing, is the latest. */
  lemma StalePassBeforeRender(input: string, text: string, at: nat, again: string)
    requires 0 < at < 4
    ensures var events := [Do(Start(text, Some(at)))] + ([Render] + ([Do(Start(again, None))] + []));
            && CanPlay(Mounted(input), events)
            && (var s := Play(Mounted(input), events);
                && |s.seen.rows| == STEPS && s.seen.rows[0].state == Pass
                && |s.runs| == 2 && !PassedAt(s.runs[1], 0))
  {
    var s0 := Mounted(input);
    var s1 := Step(s0, Do(Start(text, Some(at))));
    var s2 := Step(s1, Render);
    var s3 := Step(s2, Do(Start(again, None)));
    StepFlushes(s0, Do(Start(text, Some(at))));
    assert s2.seen.rows == RowsFailingAt(at);
    assert CanPlay(s3, []) && Play(s3, []) == s3;
    PlayOne(s2, Do(Start(again, None)), []);
    PlayOne(s1, Render, [Do(Start(again, None))] + []);
    PlayOne(s0, Do(Start(text, Some(at))), [Render] + ([Do(Start(again, None))] + []));
  }

  // ── The updater that reads `shown` when it runs ─────────────────────────

  /** The rows if every queued updater used the presenter's position at render
      time instead of its own. */
  function LateRows(rows: seq<Row>, steps: seq<Check>, position: nat): seq<Row> {
    if steps == [] then rows else ApplyStep(LateRows(rows, steps[..|steps| - 1], position), position, steps[|steps| - 1])
  }

  lemma {:induction false} LateRowStaysOpen(rows: seq<Row>, steps: seq<Check>, position: nat, i: nat)
    requires i < |rows| && i != position && rows[i].state != Pass && rows[i].state != Fail
    ensures |LateRows(rows, steps, position)| == |rows|
    ensures var row := LateRows(rows, steps, position)[i]; row.state != Pass && row.state != Fail
  {
    if steps != [] {
      LateRowStaysOpen(rows, steps[..|steps| - 1], position, i);
    }
  }

  /** A presenter `shown` checks in, with those from `drawn` on still queued: with
      the late read the render comes out right exactly when none was. */
  lemma LateReadMisplaces(run: Attempt, drawn: nat)
    requires run.Presented? && Traced(run) && run.wiped <= drawn <= run.shown
    ensures LateRows(Shown(run.queue, run.wiped, drawn), run.queue[drawn..run.shown], run.shown)
            == Shown(run.queue, run.wiped, run.shown)
            <==> drawn == run.shown
  {
    var before := Shown(run.queue, run.wiped, drawn);
    if drawn < run.shown {
      ShownPrefixPassed(run);
      PrefixPassed(run.queue, drawn, run.shown);
      ShownRow(run.queue, run.wiped, drawn, drawn);
      ShownRow(run.queue, run.wiped, run.shown, drawn);
      LateRowStaysOpen(before, run.queue[drawn..run.shown], run.shown, drawn);
    } else {
      assert run.queue[drawn..run.shown] == [];
    }
  }

  lemma PrefixPassed(queue: seq<Check>, shorter: nat, longer: nat)
    requires shorter < longer <= |queue| && AllPassed(queue[..longer - 1])
    ensures shorter > 0 ==> AllPassed(queue[..shorter - 1])
  {
    if shorter > 0 {
      var a, b := queue[..longer - 1], queue[..shorter - 1];
      assert forall k :: 0 <= k < |b| ==> b[k] == a[k];
    }
  }

  function LateApplied(seen: Seen, pending: seq<Update>, position: nat): Seen {
    if pending == [] then seen
    else
      var early, u := LateApplied(seen, pending[..|pending| - 1], position), pending[|pending| - 1];
      if u.Apply? then early.(rows := ApplyStep(early.rows, position, u.step)) else Applied(early, u)
  }

  /** The latest run's position; what an older run queued is behind a `Replace`. */
  function Position(runs: seq<Attempt>): nat {
    if runs != [] && runs[|runs| - 1].Presented? then runs[|runs| - 1].shown else 0
  }

  /** The rows the last queued `Replace` puts there, else those on screen. */
  function Base(seen: Seen, pending: seq<Update>): seq<Row> {
    if pending == [] then seen.rows
    else
      var u := pending[|pending| - 1];
      if u.Replace? then u.rows else Base(seen, pending[..|pending| - 1])
  }

  /** The checks queued since. */
  function Queued(pending: seq<Update>): seq<Check> {
    if pending == [] then []
    else
      var early, u := Queued(pending[..|pending| - 1]), pending[|pending| - 1];
      if u.Replace? then [] else if u.Apply? then early + [u.step] else early
  }

  lemma {:induction false} LateIsLateRows(seen: Seen, pending: seq<Update>, position: nat)
    ensures LateApplied(seen, pending, position).rows == LateRows(Base(seen, pending), Queued(pending), position)
  {
    if pending != [] {
      var init, u := pending[..|pending| - 1], pending[|pending| - 1];
      LateIsLateRows(seen, init, position);
      if u.Apply? {
        assert (Queued(init) + [u.step])[..|Queued(init)|] == Queued(init);
      }
    }
  }

  lemma {:induction false} NothingQueued(seen: Seen, pending: seq<Update>)
    requires Queued(pending) == []
    ensures AppliedAll(seen, pending).rows == Base(seen, pending)
  {
    if pending != [] && !pending[|pending| - 1].Replace? {
      NothingQueued(seen, pending[..|pending| - 1]);
    }
  }

  lemma QueuedSnoc(seen: Seen, pending: seq<Update>, u: Update)
    ensures Base(seen, pending + [u]) == if u.Replace? then u.rows else Base(seen, pending)
    ensures Queued(pending + [u]) ==
            if u.Replace? then [] else if u.Apply? then Queued(pending) + [u.step] else Queued(pending)
  {
    assert (pending + [u])[..|pending|] == pending;
  }

  /** What is queued is this run's last checks shown, on top of the ones before. */
  ghost predicate QueuedBySo(run: Attempt, drawn: nat, base: seq<Row>, queued: seq<Check>, rows: seq<Row>) {
    && run.Presented? && run.wiped <= drawn <= run.shown <= |run.queue|
    && base == Shown(run.queue, run.wiped, drawn)
    && queued == run.queue[drawn..run.shown]
    && rows == Shown(run.queue, run.wiped, run.shown)
  }

  lemma QueuedOneMore(run: Attempt, drawn: nat, base: seq<Row>, queued: seq<Check>, rows: seq<Row>)
    requires QueuedBySo(run, drawn, base, queued, rows) && run.shown < |run.queue|
    ensures var check := run.queue[run.shown];
            QueuedBySo(Advanced(run), drawn, base, queued + [check], ApplyStep(rows, run.shown, check))
  {
    assert run.queue[drawn..run.shown + 1] == run.queue[drawn..run.shown] + [run.queue[run.shown]];
  }

  lemma QueuedAfterEmit(run: Attempt, drawn: nat, base: seq<Row>, queued: seq<Check>, rows: seq<Row>, check: Check)
    requires QueuedBySo(run, drawn, base, queued, rows)
    ensures QueuedBySo(run.(queue := run.queue + [check]), drawn, base, queued, rows)
  {
    ShownOfPrefix(run.queue, check, run.wiped, drawn);
    ShownOfPrefix(run.queue, check, run.wiped, run.shown);
    assert (run.queue + [check])[drawn..run.shown] == run.queue[drawn..run.shown];
  }

  ghost predicate QueuedFrom(s: Screen, drawn: nat) {
    && s.runs != []
    && QueuedBySo(s.runs[|s.runs| - 1], drawn, Base(s.seen, s.pending), Queued(s.pending),
                  AppliedAll(s.seen, s.pending).rows)
  }

  ghost predicate InStep(s: Screen) {
    Queued(s.pending) == [] || exists drawn: nat :: QueuedFrom(s, drawn)
  }

  lemma DrawnSoFar(s: Screen, r: nat) returns (drawn: nat)
    requires Inv(Flushed(s)) && InStep(s) && Enabled(s.runs, Present(r)) && !Stale(s.runs, r)
    ensures QueuedFrom(s, drawn)
  {
    var run := s.runs[r];
    assert LatestOnScreen(Flushed(s), run);
    if Queued(s.pending) == [] {
      NothingQueued(s.seen, s.pending);
      drawn := run.shown;
      assert run.queue[drawn..run.shown] == [];
    } else {
      drawn :| QueuedFrom(s, drawn);
    }
  }

  lemma OneMoreApplied(seen: Seen, pending: seq<Update>, at: nat, check: Check)
    ensures AppliedAll(seen, pending + [Apply(at, check)]).rows == ApplyStep(AppliedAll(seen, pending).rows, at, check)
  {
    assert (pending + [Apply(at, check)])[..|pending|] == pending;
  }

  lemma PresentKeepsInStep(s: Screen, r: nat)
    requires Inv(Flushed(s)) && InStep(s) && Enabled(s.runs, Present(r)) && !Stale(s.runs, r)
    ensures InStep(Step(s, Do(Present(r))))
  {
    var drawn := DrawnSoFar(s, r);
    var run := s.runs[r];
    var u := Apply(run.shown, run.queue[run.shown]);
    QueuedOneMore(run, drawn, Base(s.seen, s.pending), Queued(s.pending), AppliedAll(s.seen, s.pending).rows);
    QueuedSnoc(s.seen, s.pending, u);
    OneMoreApplied(s.seen, s.pending, run.shown, u.step);
    assert QueuedFrom(Step(s, Do(Present(r))), drawn);
  }

  lemma EmitKeepsInStep(s: Screen, r: nat, check: Check)
    requires InStep(s) && Enabled(s.runs, Emit(r, check))
    ensures InStep(Step(s, Do(Emit(r, check))))
  {
    var t := Step(s, Do(Emit(r, check)));
    assert t.pending == s.pending;
    if Queued(s.pending) != [] {
      var drawn: nat :| QueuedFrom(s, drawn);
      QueuedAfterEmit(s.runs[|s.runs| - 1], drawn, Base(s.seen, s.pending), Queued(s.pending),
                      AppliedAll(s.seen, s.pending).rows, check);
      assert QueuedFrom(t, drawn);
    }
  }

  /** Events that neither show a check nor reset the rows. */
  predicate LeavesRows(runs: seq<Attempt>, e: Event)
    requires Enabled(runs, e)
  {
    match e
    case Settle(_, _) => true
    case Drained(_) => true
    case Present(r) => Stale(runs, r)
    case Finish(r) => Stale(runs, r) || !runs[r].verdict.value.Broke?
    case _ => false
  }

  lemma LatestUnmoved(runs: seq<Attempt>, e: Event)
    requires Enabled(runs, e) && LeavesRows(runs, e) && runs[|runs| - 1].Presented?
    ensures var a, b := runs[|runs| - 1], RunsAfter(runs, e)[|runs| - 1];
            && |RunsAfter(runs, e)| == |runs|
            && b.Presented? && b.queue == a.queue && b.wiped == a.wiped && b.shown == a.shown
  {
  }

  lemma {:induction false} RowsLeft(seen: Seen, pending: seq<Update>, more: seq<Update>)
    requires forall i :: 0 <= i < |more| ==> more[i].Tell? || more[i].Busy?
    ensures Queued(pending + more) == Queued(pending) && Base(seen, pending + more) == Base(seen, pending)
    ensures AppliedAll(seen, pending + more).rows == AppliedAll(seen, pending).rows
  {
    if more == [] {
      assert pending + more == pending;
    } else {
      var init, u := more[..|more| - 1], more[|more| - 1];
      assert forall i :: 0 <= i < |init| ==> init[i] == more[i];
      RowsLeft(seen, pending, init);
      QueuedSnoc(seen, pending + init, u);
      assert pending + more == (pending + init) + [u];
      assert ((pending + init) + [u])[..|pending + init|] == pending + init;
    }
  }

  lemma QuietKeepsInStep(s: Screen, e: Event)
    requires InStep(s) && Enabled(s.runs, e) && LeavesRows(s.runs, e)
    ensures InStep(Step(s, Do(e)))
  {
    var t := Step(s, Do(e));
    RowsLeft(s.seen, s.pending, UpdatesOf(s.runs, e));
    if Queued(s.pending) != [] {
      var drawn: nat :| QueuedFrom(s, drawn);
      LatestUnmoved(s.runs, e);
      assert QueuedFrom(t, drawn);
    }
  }

  /** After a `Replace`, and nothing shown since, nothing is queued. */
  lemma {:induction false} ReplacedLeavesNothing(pending: seq<Update>, more: seq<Update>, at: nat)
    requires at < |more| && more[at].Replace?
    requires forall i :: 0 <= i < |more| ==> !more[i].Apply?
    ensures Queued(pending + more) == []
  {
    var init, u := more[..|more| - 1], more[|more| - 1];
    assert (pending + more)[..|pending + more| - 1] == pending + init;
    if !u.Replace? {
      assert forall i :: 0 <= i < |init| ==> init[i] == more[i];
      ReplacedLeavesNothing(pending, init, at);
    }
  }

  lemma StepKeepsInStep(s: Screen, e: ScreenEvent)
    requires Inv(Flushed(s)) && InStep(s) && (e.Do? ==> Enabled(s.runs, e.e))
    ensures InStep(Step(s, e))
  {
    if e.Render? {
      assert Queued([]) == [];
    } else if e.e.Emit? {
      EmitKeepsInStep(s, e.e.r, e.e.check);
    } else if e.e.Start? {
      ReplacedLeavesNothing(s.pending, UpdatesOf(s.runs, e.e), 1);
    } else if e.e.Edit? {
      ReplacedLeavesNothing(s.pending, UpdatesOf(s.runs, e.e), 2);
    } else if LeavesRows(s.runs, e.e) {
      QuietKeepsInStep(s, e.e);
    } else if e.e.Present? {
      PresentKeepsInStep(s, e.e.r);
    } else {
      ReplacedLeavesNothing(s.pending, UpdatesOf(s.runs, e.e), 0);
    }
  }

  lemma {:induction false} PlayKeepsInStep(s: Screen, events: seq<ScreenEvent>)
    requires CanPlay(s, events) && Inv(Flushed(s)) && InStep(s)
    ensures Inv(Flushed(Play(s, events))) && InStep(Play(s, events))
    decreases |events|
  {
    if events != [] {
      StepKeepsInStep(s, events[0]);
      StepFlushes(s, events[0]);
      if events[0].Do? {
        StepKeepsInv(Flushed(s), events[0].e);
      }
      PlayKeepsInStep(Step(s, events[0]), events[1..]);
    }
  }

  /** On any screen reached, a render whose updaters read the position late draws
      the rows it should exactly when no check was waiting to be drawn. */
  lemma LateReadAgreesIffNothingQueued(input: string, events: seq<ScreenEvent>)
    requires CanPlay(Mounted(input), events)
    ensures var s := Play(Mounted(input), events);
            LateApplied(s.seen, s.pending, Position(s.runs)).rows == Step(s, Render).seen.rows
            <==> Queued(s.pending) == []
  {
    assert Flushed(Mounted(input)) == Opened(input);
    PlayKeepsInStep(Mounted(input), events);
    LateReadAgrees(Play(Mounted(input), events));
  }

  lemma LateReadAgrees(s: Screen)
    requires Inv(Flushed(s)) && InStep(s)
    ensures LateApplied(s.seen, s.pending, Position(s.runs)).rows == AppliedAll(s.seen, s.pending).rows
            <==> Queued(s.pending) == []
  {
    LateIsLateRows(s.seen, s.pending, Position(s.runs));
    if Queued(s.pending) == [] {
      NothingQueued(s.seen, s.pending);
    } else {
      var drawn: nat :| QueuedFrom(s, drawn);
      assert Traced(Flushed(s).runs[|s.runs| - 1]);
      LateReadMisplaces(s.runs[|s.runs| - 1], drawn);
    }
  }
}
