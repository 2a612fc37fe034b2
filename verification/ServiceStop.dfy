/** One service's stop (components/ServiceStopControl.tsx): the same register,
    a different way of recording doubt. */
module ServiceStop {
  import opened Lists
  import opened StopServer

  datatype Busy = Idle | Applying(next: bool) | Refreshing
  datatype Phase = Running | Stopped | Stopping | Resuming | Checking | Unknown | Unconfirmed

  datatype Control = Control(stopped: Option<bool>, unconfirmed: Option<bool>, notDurable: Option<bool>, failed: bool, busy: Busy)

  /** A served request answers with an observation, or refuses before touching
      anything (an unknown service, no session). */
  datatype Answer = Refused | Observed(reply: Reply)

  function PhaseOf(c: Control): Phase {
    if c.busy.Applying? then (if c.busy.next then Stopping else Resuming)
    else if c.busy.Refreshing? then Checking
    else if c.unconfirmed.Some? then Unconfirmed
    else if c.stopped.None? then Unknown
    else if c.stopped.value then Stopped
    else Running
  }

  function Settled(c: Control, answer: Answer): Control {
    match answer
    case Refused => c.(failed := true)
    case Observed(reply) =>
      c.(failed := false,
         stopped := reply.tenant,
         notDurable := if reply.durable.None? then c.notDurable
                       else if reply.durable.value then None
                       else Some(reply.requested),
         unconfirmed := if reply.confirmed then None else Some(reply.requested))
  }

  function LostReply(c: Control, ask: Ask): Control {
    if ask.Set? then c.(unconfirmed := Some(ask.next)) else c
  }

  function Begun(c: Control, ask: Ask): Control {
    c.(busy := if ask.Set? then Applying(ask.next) else Refreshing)
  }

  function Finished(c: Control, ask: Ask, answer: Option<Answer>): Control {
    (if answer.Some? then Settled(c, answer.value) else LostReply(c, ask)).(busy := Idle)
  }

  /** What a refresh asks about: the doubtful change, else what is shown. */
  function AboutWhat(c: Control): bool {
    if c.unconfirmed.Some? then c.unconfirmed.value else c.stopped == Some(true)
  }

  predicate Offers(c: Control, ask: Ask) {
    var phase := PhaseOf(c);
    match ask
    case Set(next) =>
      || (phase == Stopped && !next)
      || (phase in {Running, Unknown} && next)
      || (c.busy.Idle? && c.unconfirmed.None? && c.notDurable == Some(next))
    case Observe(requested) =>
      phase in {Unknown, Unconfirmed} && requested == AboutWhat(c)
  }

  class ServiceStopControl {
    var stopped: Option<bool>
    var unconfirmed: Option<bool>
    var notDurable: Option<bool>
    var failed: bool
    var busy: Busy

    ghost function View(): Control
      reads this
    {
      Control(stopped, unconfirmed, notDurable, failed, busy)
    }

    constructor (initialStopped: Option<bool>)
      ensures View() == Control(initialStopped, None, None, false, Idle)
    {
      stopped, unconfirmed, notDurable, failed, busy := initialStopped, None, None, false, Idle;
    }

    method Settle(answer: Answer)
      modifies this
      ensures View() == Settled(old(View()), answer)
    {
      if answer.Refused? {
        failed := true;
        return;
      }
      var result := answer.reply;
      failed := false;
      stopped := result.tenant;
      if result.durable.Some? {
        notDurable := if result.durable.value then None else Some(result.requested);
      }
      unconfirmed := if result.confirmed then None else Some(result.requested);
    }

    method BeginApply(next: bool)
      modifies this
      ensures View() == Begun(old(View()), Set(next))
    {
      busy := Applying(next);
    }

    method FinishApply(next: bool, answer: Option<Answer>)
      modifies this
      ensures View() == Finished(old(View()), Set(next), answer)
    {
      match answer {
        case Some(result) => Settle(result);
        case None => unconfirmed := Some(next);
      }
      busy := Idle;
    }

    method BeginRefresh() returns (requested: bool)
      modifies this
      ensures requested == AboutWhat(old(View()))
      ensures View() == Begun(old(View()), Observe(requested))
    {
      busy := Refreshing;
      requested := if unconfirmed.Some? then unconfirmed.value else stopped == Some(true);
    }

    method FinishRefresh(requested: bool, answer: Option<Answer>)
      modifies this
      ensures View() == Finished(old(View()), Observe(requested), answer)
    {
      match answer {
        case Some(result) => Settle(result);
        case None =>
      }
      busy := Idle;
    }
  }

  // ── Runs ────────────────────────────────────────────────────────────────

  datatype Wire = Quiet | Sent(ask: Ask) | Served(ask: Ask, answer: Answer)
  datatype System = System(control: Control, armed: bool, wire: Wire)

  datatype Event =
    | Click(ask: Ask)
    | Refuse
    | Serve(applies: bool, readable: bool, durable: Option<bool>)
    | Deliver
    | Lose

  predicate Enabled(s: System, e: Event) {
    match e
    case Click(ask) => s.wire.Quiet? && Offers(s.control, ask)
    case Refuse => s.wire.Sent?
    case Serve(_, _, _) => s.wire.Sent?
    case Deliver => s.wire.Served?
    case Lose => !s.wire.Quiet?
  }

  function Next(s: System, e: Event): System
    requires Enabled(s, e)
  {
    match e
    case Click(ask) => s.(control := Begun(s.control, ask), wire := Sent(ask))
    case Refuse => s.(wire := Served(s.wire.ask, Refused))
    case Serve(applies, readable, durable) =>
      var armed := Applied(s.armed, s.wire.ask, applies);
      s.(armed := armed, wire := Served(s.wire.ask, Observed(ReadBack(armed, s.wire.ask, readable, durable))))
    case Deliver => s.(control := Finished(s.control, s.wire.ask, Some(s.wire.answer)), wire := Quiet)
    case Lose => s.(control := Finished(s.control, s.wire.ask, None), wire := Quiet)
  }

  predicate CanRun(s: System, events: seq<Event>)
    decreases |events|
  {
    events == [] || (Enabled(s, events[0]) && CanRun(Next(s, events[0]), events[1..]))
  }

  function Run(s: System, events: seq<Event>): System
    requires CanRun(s, events)
    decreases |events|
  {
    if events == [] then s else Run(Next(s, events[0]), events[1..])
  }

  predicate Initial(s: System) {
    && s.wire.Quiet?
    && s.control.busy.Idle? && s.control.unconfirmed.None?
    && (s.control.stopped.Some? ==> s.control.stopped.value == s.armed)
  }

  predicate ClaimHolds(s: System) {
    s.control.unconfirmed.None? && s.control.stopped.Some? ==> s.control.stopped.value == s.armed
  }

  predicate Inv(s: System) {
    && (s.wire.Quiet? <==> s.control.busy.Idle?)
    && (s.wire.Served? && s.wire.answer.Observed? ==> Truthful(s.wire.answer.reply, s.armed))
    && (s.wire.Served? && s.wire.answer.Refused? ==> ClaimHolds(s))
    && (s.wire.Sent? || s.wire.Quiet? || s.wire.ask.Observe? ==> ClaimHolds(s))
  }

  lemma {:induction false} RunKeepsInv(s: System, events: seq<Event>)
    requires Inv(s) && CanRun(s, events)
    ensures Inv(Run(s, events))
    decreases |events|
  {
    if events != [] {
      RunKeepsInv(Next(s, events[0]), events[1..]);
    }
  }

  /** Whenever the control says STOPPED or RUNNING, that is what is enforced. */
  lemma ClaimsAreTrue(s: System, events: seq<Event>)
    requires Initial(s) && CanRun(s, events)
    ensures var t := Run(s, events);
            && (PhaseOf(t.control) == Stopped ==> t.armed)
            && (PhaseOf(t.control) == Running ==> !t.armed)
  {
    RunKeepsInv(s, events);
  }

  // ── Durability ──────────────────────────────────────────────────────────

  /** A reply that says whether the change was saved reaches the control. */
  predicate Tells(s: System, e: Event) {
    e.Deliver? && s.wire.Served? && s.wire.answer.Observed? && s.wire.answer.reply.durable.Some?
  }

  predicate NoWord(s: System, events: seq<Event>)
    requires CanRun(s, events)
    decreases |events|
  {
    events == [] || (!Tells(s, events[0]) && NoWord(Next(s, events[0]), events[1..]))
  }

  /** Refreshes, refusals and lost replies leave the last change's warning standing. */
  lemma {:induction false} TheWarningStands(s: System, events: seq<Event>)
    requires CanRun(s, events) && NoWord(s, events)
    ensures Run(s, events).control.notDurable == s.control.notDurable
    decreases |events|
  {
    if events != [] {
      TheWarningStands(Next(s, events[0]), events[1..]);
    }
  }

  /** After a change whose reply says whether it was saved, and until another such
      reply, the warning is up exactly when it was not, and names that change. */
  lemma WarnsOfTheLastChange(s: System, next: bool, applies: bool, readable: bool, durable: bool, events: seq<Event>)
    requires Enabled(s, Click(Set(next)))
    requires var t := Next(Next(Next(s, Click(Set(next))), Serve(applies, readable, Some(durable))), Deliver);
             CanRun(t, events) && NoWord(t, events)
    ensures var t := Next(Next(Next(s, Click(Set(next))), Serve(applies, readable, Some(durable))), Deliver);
            Run(t, events).control.notDurable == if durable then None else Some(next)
  {
    TheWarningStands(Next(Next(Next(s, Click(Set(next))), Serve(applies, readable, Some(durable))), Deliver), events);
  }

  // ── Doubt ───────────────────────────────────────────────────────────────

  predicate InDoubt(s: System, intent: bool) {
    && s.control.unconfirmed == Some(intent)
    && (s.wire.Quiet? <==> s.control.busy.Idle?)
    && (!s.wire.Quiet? ==> s.control.busy.Refreshing? && s.wire.ask == Observe(intent))
  }

  predicate NothingDelivered(events: seq<Event>) {
    forall i :: 0 <= i < |events| ==> !events[i].Deliver?
  }

  lemma {:induction false} DoubtLasts(s: System, intent: bool, events: seq<Event>)
    requires InDoubt(s, intent) && CanRun(s, events) && NothingDelivered(events)
    ensures InDoubt(Run(s, events), intent)
    decreases |events|
  {
    if events != [] {
      DoubtLasts(Next(s, events[0]), intent, events[1..]);
    }
  }

  /** Once a change's reply is lost, and until some reply gets through, no claim
      is shown and nothing but reads about that change are sent. */
  lemma LostChangeIsNotForgotten(s: System, intent: bool, events: seq<Event>)
    requires Inv(s) && !s.wire.Quiet? && s.wire.ask == Set(intent)
    requires CanRun(Next(s, Lose), events) && NothingDelivered(events)
    ensures var t := Run(Next(s, Lose), events);
            && PhaseOf(t.control) in {Unconfirmed, Checking}
            && (!t.wire.Quiet? ==> t.wire.ask == Observe(intent))
  {
    DoubtLasts(Next(s, Lose), intent, events);
  }

  // ── Leaving NOT CONFIRMED ───────────────────────────────────────────────

  /** In doubt about a change that is not in force. */
  predicate Stranded(s: System, intent: bool) {
    && s.control.unconfirmed == Some(intent) && s.armed != intent
    && (s.wire.Quiet? <==> s.control.busy.Idle?)
    && (!s.wire.Quiet? ==> s.wire.ask == Observe(intent))
    && (s.wire.Served? && s.wire.answer.Observed? ==>
          Truthful(s.wire.answer.reply, s.armed) && s.wire.answer.reply.requested == intent)
  }

  lemma {:induction false} StrandedForGood(s: System, intent: bool, events: seq<Event>)
    requires Stranded(s, intent) && CanRun(s, events)
    ensures Stranded(Run(s, events), intent)
    decreases |events|
  {
    if events != [] {
      StrandedForGood(Next(s, events[0]), intent, events[1..]);
    }
  }

  ghost predicate CanLeaveDoubt(s: System) {
    exists events :: CanRun(s, events) && Run(s, events).control.unconfirmed.None?
  }

  /** From NOT CONFIRMED the buttons on screen lead back to a claim exactly when
      the doubtful change is in force. If it is not, a read-back that succeeds
      still disagrees with it, and the only button offered is another refresh. */
  lemma DoubtEndsIffChangeLanded(s: System, intent: bool)
    requires Inv(s) && s.wire.Quiet? && s.control.unconfirmed == Some(intent)
    ensures CanLeaveDoubt(s) <==> s.armed == intent
  {
    if s.armed != intent {
      forall events | CanRun(s, events) ensures Run(s, events).control.unconfirmed.Some? {
        StrandedForGood(s, intent, events);
      }
    } else {
      var events := [Click(Observe(intent)), Serve(false, true, None), Deliver];
      ThreeEvents(s, events[0], events[1], events[2]);
      assert CanRun(s, events) && Run(s, events).control.unconfirmed.None?;
    }
  }

  lemma ThreeEvents(s: System, e: Event, f: Event, g: Event)
    requires Enabled(s, e) && Enabled(Next(s, e), f) && Enabled(Next(Next(s, e), f), g)
    ensures CanRun(s, [e, f, g]) && Run(s, [e, f, g]) == Next(Next(Next(s, e), f), g)
  {
    var events, end := [e, f, g], Next(Next(Next(s, e), f), g);
    var last := events[1..][1..];
    assert events[1..] == [f, g] && last == [g] && last[1..] == [];
    assert CanRun(end, []) && Run(end, []) == end;
    assert CanRun(Next(Next(s, e), f), last) && Run(Next(Next(s, e), f), last) == end;
    assert CanRun(Next(s, e), events[1..]) && Run(Next(s, e), events[1..]) == end;
  }

  /** A stop that is served and answered but not applied is enough to get there
      from a fresh page, and then no button leads out. */
  lemma StrandedIsReachable(s: System)
    requires Initial(s) && s.control.stopped != Some(true) && !s.armed
    ensures var events := [Click(Set(true)), Serve(false, true, None), Deliver];
            && CanRun(s, events)
            && (var t := Run(s, events);
                Inv(t) && t.wire.Quiet? && t.control.unconfirmed == Some(true) && !t.armed && !CanLeaveDoubt(t))
  {
    var events := [Click(Set(true)), Serve(false, true, None), Deliver];
    ThreeEvents(s, events[0], events[1], events[2]);
    RunKeepsInv(s, events);
    DoubtEndsIffChangeLanded(Run(s, events), true);
  }

  /** While a request is out every button is off. */
  lemma BusyOffersNothing(c: Control, ask: Ask)
    ensures Offers(c, ask) ==> c.busy.Idle?
  {
  }

  /** While a request is out the control names it. */
  lemma BusyNamesTheRequest(s: System, ask: Ask)
    requires Enabled(s, Click(ask))
    ensures PhaseOf(Next(s, Click(ask)).control) ==
            match ask case Set(next) => (if next then Stopping else Resuming) case Observe(_) => Checking
  {
  }

  /** An answered change is in doubt exactly when what was read back is not what was
      asked for. */
  lemma AnsweredChange(s: System, next: bool, applies: bool, readable: bool, durable: Option<bool>)
    requires Enabled(s, Click(Set(next)))
    ensures var events := [Click(Set(next)), Serve(applies, readable, durable), Deliver];
            && CanRun(s, events)
            && (var t := Run(s, events);
                && t.control.unconfirmed == (if readable && t.armed == next then None else Some(next))
                && t.control.stopped == (if readable then Some(t.armed) else None)
                && t.armed == if applies then next else s.armed)
  {
    ThreeEvents(s, Click(Set(next)), Serve(applies, readable, durable), Deliver);
  }

  // ── The buttons ─────────────────────────────────────────────────────────

  /** Which way an operator at rest can turn the service: off what is claimed, on
      when nothing is known, and again the way a change went that was not saved. */
  predicate CanTurn(c: Control, next: bool) {
    || (PhaseOf(c) == Stopped && !next)
    || (PhaseOf(c) == Running && next)
    || (PhaseOf(c) == Unknown && next)
    || (c.unconfirmed.None? && c.notDurable == Some(next))
  }

  /** It can be turned those ways and no other; and one click that is applied, saved
      and read back ends in that claim, nothing in doubt and no warning. */
  lemma OneClickTurnsIt(s: System, next: bool)
    requires Inv(s) && s.wire.Quiet?
    ensures Enabled(s, Click(Set(next))) <==> CanTurn(s.control, next)
    ensures var events := [Click(Set(next)), Serve(true, true, Some(true)), Deliver];
            CanTurn(s.control, next) ==>
              && CanRun(s, events)
              && (var t := Run(s, events);
                  && t.armed == next && PhaseOf(t.control) == (if next then Stopped else Running)
                  && t.control.notDurable.None? && !t.control.failed)
  {
    if CanTurn(s.control, next) {
      ThreeEvents(s, Click(Set(next)), Serve(true, true, Some(true)), Deliver);
    }
  }

  /** A stop that could not be read can be read again, and so can one in doubt, about
      the change that is doubtful. */
  lemma OneClickReadsIt(s: System, requested: bool)
    requires Inv(s) && s.wire.Quiet?
    ensures Enabled(s, Click(Observe(requested))) <==>
            if s.control.unconfirmed.Some? then requested == s.control.unconfirmed.value
            else s.control.stopped.None? && !requested
    ensures var events := [Click(Observe(requested)), Serve(false, true, None), Deliver];
            Enabled(s, Click(Observe(requested))) ==>
              CanRun(s, events) && Run(s, events).control.stopped == Some(s.armed)
  {
    if Enabled(s, Click(Observe(requested))) {
      ThreeEvents(s, Click(Observe(requested)), Serve(false, true, None), Deliver);
    }
  }

  /** A refusal changes nothing but the error, which the next answer clears. */
  lemma RefusalSaysSo(s: System, ask: Ask)
    requires Inv(s) && s.wire.Quiet? && Offers(s.control, ask)
    ensures var events := [Click(ask), Refuse, Deliver];
            CanRun(s, events) && Run(s, events) == s.(control := s.control.(failed := true))
  {
    ThreeEvents(s, Click(ask), Refuse, Deliver);
  }
}
