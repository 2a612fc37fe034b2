/** Suspending one agent (components/AgentSuspendControl.tsx): the button, its
    outcome line, and the re-check when the window regains focus, which does
    not wait for anything and may overlap everything. */
module AgentSuspend {
  import opened Lists

  datatype Status = Active | Suspended | Revoked
  datatype Intent = Suspend | Reactivate

  /** `Observed` holds both layers as read afterwards, each possibly unreadable. */
  datatype Result =
    | NoResult
    | Pending(intent: Intent)
    | Observed(intent: Intent, database: Option<Status>, flag: Option<bool>)
    | LostReply(intent: Intent)

  datatype Panel = Panel(status: Status, observed: Option<Status>, result: Result)

  function IntentFor(status: Status): Intent {
    if status == Suspended then Reactivate else Suspend
  }

  predicate Confirmed(intent: Intent, database: Option<Status>, flag: Option<bool>) {
    match intent
    case Suspend => database == Some(Suspended) && flag == Some(true)
    case Reactivate => database == Some(Active) && flag == Some(false)
  }

  /** The newest observation outranks the server prop; revocation outranks both. */
  function Effective(p: Panel): Status {
    if p.status == Revoked || p.observed.None? then p.status else p.observed.value
  }

  function Accepted(p: Panel, next: Result): Panel {
    p.(result := next,
       observed := if next.Observed? && next.database.Some? then next.database else p.observed)
  }

  /** A prop that differs from the one observed against drops the observation. */
  function Refetched(p: Panel, status: Status): Panel {
    if status == p.status then p else p.(status := status, observed := None)
  }

  class AgentSuspendControl {
    var status: Status
    var observedStatus: Option<Status>
    var observedAgainst: Status
    var result: Result

    ghost function View(): Panel
      reads this
    {
      Panel(status, observedStatus, result)
    }

    /** Between renders the observation is one made against the current prop. */
    ghost predicate Rendered()
      reads this
    {
      observedAgainst == status
    }

    constructor (status: Status)
      ensures Rendered() && View() == Panel(status, None, NoResult)
    {
      this.status, observedStatus, observedAgainst, result := status, None, status, NoResult;
    }

    /** A render: a stale observation is discarded before it is used. */
    method Render(status: Status) returns (effective: Status)
      requires Rendered()
      modifies this
      ensures Rendered() && View() == Refetched(old(View()), status)
      ensures effective == Effective(View())
    {
      var stale := observedAgainst != status;
      this.status := status;
      if stale {
        observedAgainst, observedStatus := status, None;
      }
      effective := if status == Revoked || stale || observedStatus.None? then status else observedStatus.value;
    }

    /** Up to the `await` of a change: the outcome line names the intent sent. */
    method BeginRun(next: Intent)
      requires Rendered()
      modifies this
      ensures Rendered() && View() == old(View()).(result := Pending(next))
    {
      result := Pending(next);
    }

    method AcceptResult(next: Result)
      requires Rendered()
      modifies this
      ensures Rendered() && View() == Accepted(old(View()), next)
    {
      if next.Observed? && next.database.Some? {
        observedStatus := next.database;
      }
      result := next;
    }
  }

  // ── Runs ────────────────────────────────────────────────────────────────

  /** Changes and reads in flight, in any number. A served one has its reply on
      the way; either kind may be lost at any time. */
  datatype Exchange =
    | Sent(change: bool, intent: Intent)
    | Served(change: bool, intent: Intent, database: Option<Status>, flag: Option<bool>)

  datatype System = System(panel: Panel, database: Status, flag: bool, wire: seq<Exchange>)

  /** How far a change gets before it fails: no layer, the first, or both. */
  datatype Reach = Nothing | FirstLayer | BothLayers

  datatype Event =
    | MainClick
    | Retry
    | Recheck
    | Serve(i: nat, reach: Reach, databaseRead: bool, flagRead: bool)
    | Deliver(i: nat)
    | Lose(i: nat)
    | Refetch(status: Status)

  /** Block first when suspending, persist first when reactivating. */
  function Changed(s: System, intent: Intent, reach: Reach): System {
    if s.database == Revoked || reach == Nothing then s
    else match intent
      case Suspend => s.(flag := true, database := if reach == BothLayers then Suspended else s.database)
      case Reactivate => s.(database := Active, flag := if reach == BothLayers then false else s.flag)
  }

  predicate OutcomeOffersRetry(r: Result) {
    r.LostReply? || (r.Observed? && !Confirmed(r.intent, r.database, r.flag))
  }

  predicate Enabled(s: System, e: Event) {
    match e
    case MainClick => Effective(s.panel) != Revoked && !s.panel.result.Pending?
    case Retry => Effective(s.panel) != Revoked && OutcomeOffersRetry(s.panel.result)
    case Recheck => !s.panel.result.NoResult? && !s.panel.result.Pending?
    case Serve(i, _, _, _) => i < |s.wire| && s.wire[i].Sent?
    case Deliver(i) => i < |s.wire| && s.wire[i].Served?
    case Lose(i) => i < |s.wire|
    case Refetch(_) => true
  }

  function Asking(s: System, intent: Intent): System {
    s.(panel := s.panel.(result := Pending(intent)), wire := s.wire + [Sent(true, intent)])
  }

  function Without(wire: seq<Exchange>, i: nat): seq<Exchange>
    requires i < |wire|
  {
    wire[..i] + wire[i + 1..]
  }

  function Next(s: System, e: Event): System
    requires Enabled(s, e)
  {
    match e
    case MainClick => Asking(s, IntentFor(Effective(s.panel)))
    case Retry => Asking(s, s.panel.result.intent)
    case Recheck => s.(wire := s.wire + [Sent(false, s.panel.result.intent)])
    case Serve(i, reach, databaseRead, flagRead) =>
      var x := s.wire[i];
      var t := if x.change then Changed(s, x.intent, reach) else s;
      t.(wire := s.wire[i := Served(x.change, x.intent,
                                    if databaseRead then Some(t.database) else None,
                                    if flagRead then Some(t.flag) else None)])
    case Deliver(i) =>
      var x := s.wire[i];
      s.(panel := Accepted(s.panel, Observed(x.intent, x.database, x.flag)), wire := Without(s.wire, i))
    case Lose(i) =>
      s.(panel := Accepted(s.panel, LostReply(s.wire[i].intent)), wire := Without(s.wire, i))
    case Refetch(status) => s.(panel := Refetched(s.panel, status))
  }

  predicate CanRun(s: System, events: seq<Event>)
    decreases |events|
  {
    events == [] || (Enabled(s, events[0]) && CanRun(Next(s, events[0]), events[1..]))
  }

  function Run(s: System, events: seq<Event>): System
    requires CanRun(s, events)
    decreases |events|
  {
    if events == [] then s else Run(Next(s, events[0]), events[1..])
  }

  predicate NoMainClick(events: seq<Event>) {
    forall i :: 0 <= i < |events| ==> !events[i].MainClick?
  }

  // ── A lost reply undoes nothing ─────────────────────────────────────────

  /** Only a database value that was read, or a newer prop, moves the status
      the control acts on; sending, failing and losing never do. */
  lemma OnlyReadsMoveTheStatus(s: System, e: Event)
    requires Enabled(s, e) && Effective(Next(s, e).panel) != Effective(s.panel)
    ensures e.Refetch? || (e.Deliver? && s.wire[e.i].database == Some(Effective(Next(s, e).panel)))
  {
  }

  /** A newer prop is what is acted on, whatever was observed before; the same prop
      again changes nothing. */
  lemma NewerPropIsActedOn(s: System, status: Status)
    ensures var t := Next(s, Refetch(status));
            && t == s.(panel := t.panel) && t.panel.result == s.panel.result
            && (status == s.panel.status ==> t == s)
            && (status != s.panel.status ==>
                  t.panel.status == status && t.panel.observed.None? && Effective(t.panel) == status)
  {
  }

  /** What the database then says, if the click's change reached it. */
  function Target(intent: Intent): Status {
    if intent.Suspend? then Suspended else Active
  }

  /** A click that is answered: the outcome holds what was read of either layer, the
      status acted on is the database's if that was read, and a retry is offered
      unless both were read and both are as asked. */
  lemma AnsweredClick(s: System, reach: Reach, databaseRead: bool, flagRead: bool)
    requires s.wire == [] && Enabled(s, MainClick) && s.panel.status != Revoked
    ensures var events := [MainClick, Serve(0, reach, databaseRead, flagRead), Deliver(0)];
            var intent := if Effective(s.panel) == Suspended then Reactivate else Suspend;
            && CanRun(s, events)
            && (var t := Run(s, events);
                && t.panel.result == Observed(intent, if databaseRead then Some(t.database) else None,
                                              if flagRead then Some(t.flag) else None)
                && Effective(t.panel) == (if databaseRead then t.database else Effective(s.panel))
                && (OutcomeOffersRetry(t.panel.result) <==>
                      !(databaseRead && flagRead && t.database == Target(intent) && (t.flag <==> intent == Suspend)))
                && (s.database != Revoked && reach == BothLayers ==>
                      t.database == Target(intent) && (t.flag <==> intent == Suspend)))
  {
    var asked := Next(s, MainClick);
    var served := Next(asked, Serve(0, reach, databaseRead, flagRead));
    OneEvent(served, Deliver(0));
    Then(asked, Serve(0, reach, databaseRead, flagRead), [Deliver(0)]);
    Then(s, MainClick, [Serve(0, reach, databaseRead, flagRead)] + [Deliver(0)]);
    assert [MainClick, Serve(0, reach, databaseRead, flagRead), Deliver(0)] ==
           [MainClick] + ([Serve(0, reach, databaseRead, flagRead)] + [Deliver(0)]);
  }

  // ── One intent ──────────────────────────────────────────────────────────

  predicate AllCarry(s: System, intent: Intent) {
    && (s.panel.result.NoResult? || s.panel.result.intent == intent)
    && forall i :: 0 <= i < |s.wire| ==> s.wire[i].intent == intent
  }

  /** Suspension, once reached, is not undone. */
  predicate KeepsStop(before: System, after: System) {
    && (before.database == Suspended ==> after.database == Suspended)
    && (before.flag ==> after.flag)
  }

  lemma StepCarries(s: System, e: Event)
    requires AllCarry(s, Suspend) && Enabled(s, e) && !e.MainClick?
    ensures AllCarry(Next(s, e), Suspend) && KeepsStop(s, Next(s, e))
  {
  }

  lemma {:induction false} RunCarries(s: System, events: seq<Event>)
    requires AllCarry(s, Suspend) && CanRun(s, events) && NoMainClick(events)
    ensures AllCarry(Run(s, events), Suspend) && KeepsStop(s, Run(s, events))
    decreases |events|
  {
    if events != [] {
      assert !events[0].MainClick?;
      StepCarries(s, events[0]);
      RunCarries(Next(s, events[0]), events[1..]);
    }
  }

  /** At the click, nothing about the opposite intent is still on the way. */
  predicate NothingOpposite(s: System) {
    forall i :: 0 <= i < |s.wire| ==> s.wire[i].intent == Suspend
  }

  predicate CanSuspend(s: System) {
    Enabled(s, MainClick) && IntentFor(Effective(s.panel)) == Suspend
  }

  /** A continuation of the click, with no other main click, in which an agent
      that was suspended is made active again. */
  ghost predicate Undone(s: System, before: seq<Event>, after: seq<Event>)
    requires CanSuspend(s)
  {
    var clicked := Next(s, MainClick);
    && NoMainClick(before) && NoMainClick(after)
    && CanRun(clicked, before)
    && CanRun(Run(clicked, before), after)
    && Run(clicked, before).database == Suspended
    && Run(Run(clicked, before), after).database == Active
  }

  /** A focus re-check about an earlier reactivation, lost after the click, puts
      "Retry reactivate" on screen; pressing it reactivates. */
  lemma OldExchangeReactivates(s: System, i: nat)
    requires CanSuspend(s) && s.database != Revoked
    requires i < |s.wire| && s.wire[i].intent == Reactivate
    ensures exists before, after :: Undone(s, before, after)
  {
    var n := |s.wire|;
    var clicked := Next(s, MainClick);
    var stop := Serve(n, BothLayers, true, true);
    var stopped := Next(clicked, stop);
    var lost := Next(stopped, Lose(i));
    var retried := Next(lost, Retry);
    var m := |retried.wire| - 1;
    var resume := Serve(m, BothLayers, true, true);
    var before, after := [stop], [Lose(i), Retry, resume];
    OneEvent(clicked, stop);
    OneEvent(retried, resume);
    assert after[1..] == [Retry, resume] && after[1..][1..] == [resume];
    assert CanRun(lost, after[1..]) && Run(lost, after[1..]) == Run(retried, [resume]);
    assert CanRun(stopped, after) && Run(stopped, after) == Run(lost, after[1..]);
    assert Undone(s, before, after);
  }

  lemma OneEvent(s: System, e: Event)
    requires Enabled(s, e)
    ensures CanRun(s, [e]) && Run(s, [e]) == Next(s, e)
  {
    var events := [e];
    assert events[1..] == [];
    assert CanRun(Next(s, e), []);
  }

  /** From a Suspend click, whatever is lost, retried, refreshed or re-checked
      without another main click, the stop can be undone exactly when, at the
      click, something about reactivating was still in flight. */
  lemma StopHoldsIffNothingOpposite(s: System)
    requires CanSuspend(s) && s.database != Revoked
    ensures (exists before, after :: Undone(s, before, after)) <==> !NothingOpposite(s)
  {
    if NothingOpposite(s) {
      forall before, after ensures !Undone(s, before, after) {
        if Undone(s, before, after) {
          var clicked := Next(s, MainClick);
          RunCarries(clicked, before);
          RunCarries(Run(clicked, before), after);
          assert false;
        }
      }
    } else {
      var i :| 0 <= i < |s.wire| && s.wire[i].intent != Suspend;
      OldExchangeReactivates(s, i);
    }
  }

  /** With nothing opposite in flight, every request sent from then on carries
      the click's own intent. */
  lemma EveryRequestCarriesTheIntent(s: System, events: seq<Event>)
    requires CanSuspend(s) && NothingOpposite(s)
    requires CanRun(Next(s, MainClick), events) && NoMainClick(events)
    ensures var t := Run(Next(s, MainClick), events);
            forall i :: 0 <= i < |t.wire| ==> t.wire[i].intent == Suspend
  {
    RunCarries(Next(s, MainClick), events);
  }

  lemma Then(s: System, e: Event, rest: seq<Event>)
    requires Enabled(s, e) && CanRun(Next(s, e), rest)
    ensures CanRun(s, [e] + rest) && Run(s, [e] + rest) == Run(Next(s, e), rest)
  {
    assert ([e] + rest)[1..] == rest;
  }

  /** Such a click is reached from any suspended agent's page at rest: reactivate,
      let that be confirmed, and let the window regain focus. */
  lemma OppositeIsReachable(s: System)
    requires s.wire == [] && !s.panel.result.Pending? && s.panel.status != Revoked
    requires Effective(s.panel) == Suspended && s.database != Revoked
    ensures var events := [MainClick, Serve(0, BothLayers, true, true), Deliver(0), Recheck];
            && CanRun(s, events)
            && (var t := Run(s, events);
                CanSuspend(t) && !NothingOpposite(t) && t.database != Revoked
                && exists before, after :: Undone(t, before, after))
  {
    var asked := Next(s, MainClick);
    var served := Next(asked, Serve(0, BothLayers, true, true));
    var told := Next(served, Deliver(0));
    var t := Next(told, Recheck);
    assert asked.wire == [Sent(true, Reactivate)] && served.wire == [Served(true, Reactivate, Some(Active), Some(false))];
    assert t.wire == [Sent(false, Reactivate)];
    OneEvent(told, Recheck);
    Then(served, Deliver(0), [Recheck]);
    Then(asked, Serve(0, BothLayers, true, true), [Deliver(0)] + [Recheck]);
    Then(s, MainClick, [Serve(0, BothLayers, true, true)] + ([Deliver(0)] + [Recheck]));
    assert [MainClick, Serve(0, BothLayers, true, true), Deliver(0), Recheck] ==
           [MainClick] + ([Serve(0, BothLayers, true, true)] + ([Deliver(0)] + [Recheck]));
    assert t.wire[0].intent != Suspend;
    StopHoldsIffNothingOpposite(t);
  }

  // ── What the control acts on, and what is so ────────────────────────────

  /** One exchange at a time, and a page only refetched between them. */
  predicate InTurn(s: System, e: Event) {
    match e
    case MainClick | Retry | Recheck => s.wire == []
    case Refetch(status) => s.wire == [] && status == s.database
    case _ => true
  }

  predicate AllInTurn(s: System, events: seq<Event>)
    requires CanRun(s, events)
    decreases |events|
  {
    events == [] || (InTurn(s, events[0]) && AllInTurn(Next(s, events[0]), events[1..]))
  }

  /** Nothing said yet, or a database value on the outcome line. */
  predicate NotInDoubt(p: Panel) {
    p.result.NoResult? || (p.result.Observed? && p.result.database.Some?)
  }

  predicate Agrees(s: System) {
    && |s.wire| <= 1
    && (s.panel.status == Revoked ==> s.database == Revoked)
    && (s.wire != [] && s.wire[0].Served? && s.wire[0].database.Some? ==> s.wire[0].database.value == s.database)
    && (s.wire == [] && NotInDoubt(s.panel) ==> Effective(s.panel) == s.database)
  }

  lemma {:induction false} TurnsAgree(s: System, events: seq<Event>)
    requires Agrees(s) && CanRun(s, events) && AllInTurn(s, events)
    ensures Agrees(Run(s, events))
    decreases |events|
  {
    if events != [] {
      TurnAgrees(s, events[0]);
      TurnsAgree(Next(s, events[0]), events[1..]);
    }
  }

  lemma TurnAgrees(s: System, e: Event)
    requires Agrees(s) && Enabled(s, e) && InTurn(s, e)
    ensures Agrees(Next(s, e))
  {
  }

  /** With exchanges that take turns, whatever is lost or left unread: once
      nothing is in flight and the outcome line is not in doubt, the status the
      control acts on is the server's. */
  lemma InTurnTheStatusIsTheServers(s: System, events: seq<Event>)
    requires s.wire == [] && s.panel.result.NoResult? && s.panel.observed.None? && s.panel.status == s.database
    requires CanRun(s, events) && AllInTurn(s, events)
    requires var t := Run(s, events); t.wire == [] && NotInDoubt(t.panel)
    ensures Effective(Run(s, events).panel) == Run(s, events).database
  {
    TurnsAgree(s, events);
  }

  /** The race: a re-check reads the database, the agent is suspended and seen to
      be, and then the older read arrives. */
  function StaleRead(): seq<Event> {
    [Recheck] + ([Serve(0, Nothing, true, true)] + ([MainClick] + ([Serve(1, BothLayers, true, true)]
    + ([Deliver(1)] + [Deliver(0)]))))
  }

  /** Out of turn it can fail with nothing lost and nothing left in doubt: the
      agent is suspended, and the control offers to suspend it. */
  lemma StaleReadMovesTheStatusBack(s: System)
    requires s.wire == [] && s.database == Active && s.panel.status != Revoked && Effective(s.panel) == Active
    requires s.panel.result.Observed?
    ensures CanRun(s, StaleRead())
    ensures var t := Run(s, StaleRead());
            && t.wire == [] && NotInDoubt(t.panel)
            && t.database == Suspended && Effective(t.panel) == Active && CanSuspend(t)
  {
    var intent := s.panel.result.intent;
    var s1 := Next(s, Recheck);
    var s2 := Next(s1, Serve(0, Nothing, true, true));
    var s3 := Next(s2, MainClick);
    var s4 := Next(s3, Serve(1, BothLayers, true, true));
    var s5 := Next(s4, Deliver(1));
    assert s1.wire == [Sent(false, intent)];
    assert s2.wire == [Served(false, intent, Some(Active), Some(s.flag))];
    assert s3.wire == s2.wire + [Sent(true, Suspend)];
    assert s4.wire == s2.wire + [Served(true, Suspend, Some(Suspended), Some(true))];
    assert s5.wire == s2.wire;
    OneEvent(s5, Deliver(0));
    Then(s4, Deliver(1), [Deliver(0)]);
    Then(s3, Serve(1, BothLayers, true, true), [Deliver(1)] + [Deliver(0)]);
    var rest := [Serve(1, BothLayers, true, true)] + ([Deliver(1)] + [Deliver(0)]);
    Then(s2, MainClick, rest);
    Then(s1, Serve(0, Nothing, true, true), [MainClick] + rest);
    Then(s, Recheck, [Serve(0, Nothing, true, true)] + ([MainClick] + rest));
  }
}
