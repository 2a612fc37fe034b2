/** The fleet kill switch bar (components/GlobalKillSwitchBar.tsx). */
module KillSwitch {
  import opened Lists
  import opened StopServer

  datatype Busy = Idle | Applying(next: bool) | Refreshing
  datatype Phase = Disarmed | Arming | Armed | Disarming | Checking | Unknown | Unconfirmed
  datatype Doubt = Doubt(requested: bool, lost: bool)

  /** What the component holds between renders. */
  datatype Bar = Bar(tenant: Option<bool>, doubt: Option<Doubt>, notDurable: Option<bool>, busy: Busy)

  predicate Lost(bar: Bar) {
    bar.doubt.Some? && bar.doubt.value.lost
  }

  function PhaseOf(bar: Bar): Phase {
    if bar.busy.Applying? then (if bar.busy.next then Arming else Disarming)
    else if bar.busy.Refreshing? then Checking
    else if Lost(bar) then Unconfirmed
    else if bar.tenant.None? then Unknown
    else if bar.tenant.value then Armed
    else Disarmed
  }

  function Settled(bar: Bar, reply: Reply): Bar {
    bar.(tenant := reply.tenant,
         doubt := if reply.confirmed then None else Some(Doubt(reply.requested, false)),
         notDurable := if reply.durable.None? then bar.notDurable
                       else if reply.durable.value then None
                       else Some(reply.requested))
  }

  /** A lost change may have landed; a lost re-read only keeps a doubt alive. */
  function LostReply(bar: Bar, ask: Ask): Bar {
    match ask
    case Set(next) => bar.(doubt := Some(Doubt(next, true)))
    case Observe(_) =>
      bar.(doubt := if bar.doubt.Some? then Some(bar.doubt.value.(lost := true)) else None)
  }

  function Begun(bar: Bar, ask: Ask): Bar {
    bar.(busy := if ask.Set? then Applying(ask.next) else Refreshing)
  }

  function Finished(bar: Bar, ask: Ask, reply: Option<Reply>): Bar {
    (if reply.Some? then Settled(bar, reply.value) else LostReply(bar, ask)).(busy := Idle)
  }

  /** The buttons on screen: what a click may send. */
  predicate Offers(bar: Bar, ask: Ask) {
    var phase := PhaseOf(bar);
    match ask
    case Set(next) =>
      && bar.busy.Idle?
      && (|| (phase == Armed && !next)
          || (phase in {Disarmed, Unknown} && next)
          || (bar.notDurable == Some(next) && bar.doubt.None?)
          || (bar.doubt.Some? && bar.doubt.value.requested == next))
    case Observe(requested) =>
      && bar.busy.Idle?
      && (|| (bar.doubt.Some? && bar.doubt.value.requested == requested)
          || (phase == Unknown && bar.doubt.None? && !requested))
  }

  class KillSwitchBar {
    var tenant: Option<bool>
    var doubt: Option<Doubt>
    var notDurable: Option<bool>
    var busy: Busy

    ghost function View(): Bar
      reads this
    {
      Bar(tenant, doubt, notDurable, busy)
    }

    constructor (initial: Option<bool>)
      ensures View() == Bar(initial, None, None, Idle)
    {
      tenant, doubt, notDurable, busy := initial, None, None, Idle;
    }

    method Settle(result: Reply)
      modifies this
      ensures View() == Settled(old(View()), result)
    {
      tenant := result.tenant;
      if result.durable.Some? {
        notDurable := if result.durable.value then None else Some(result.requested);
      }
      doubt := if result.confirmed then None else Some(Doubt(result.requested, false));
    }

    /** Up to the `await`: name the work in progress from the intent. */
    method BeginApply(next: bool)
      modifies this
      ensures View() == Begun(old(View()), Set(next))
    {
      busy := Applying(next);
    }

    /** From the `await`: settle, or record that the reply was lost; then idle. */
    method FinishApply(next: bool, reply: Option<Reply>)
      modifies this
      ensures View() == Finished(old(View()), Set(next), reply)
    {
      match reply {
        case Some(result) => Settle(result);
        case None => doubt := Some(Doubt(next, true));
      }
      busy := Idle;
    }

    method BeginRefresh(requested: bool)
      modifies this
      ensures View() == Begun(old(View()), Observe(requested))
    {
      busy := Refreshing;
    }

    method FinishRefresh(requested: bool, reply: Option<Reply>)
      modifies this
      ensures View() == Finished(old(View()), Observe(requested), reply)
    {
      match reply {
        case Some(result) => Settle(result);
        case None =>
          if doubt.Some? {
            doubt := Some(Doubt(doubt.value.requested, true));
          }
      }
      busy := Idle;
    }
  }

  // ── Runs: one operator, one register, replies that may be lost ──────────

  /** A request on its way, or served with its reply on the way back. */
  datatype Wire = Quiet | Sent(ask: Ask) | Served(ask: Ask, reply: Reply)

  datatype System = System(bar: Bar, armed: bool, wire: Wire)

  datatype Event =
    | Click(ask: Ask)
    | Serve(applies: bool, readable: bool, durable: Option<bool>)
    | Deliver
    | Lose

  predicate Enabled(s: System, e: Event) {
    match e
    case Click(ask) => s.wire.Quiet? && Offers(s.bar, ask)
    case Serve(_, _, _) => s.wire.Sent?
    case Deliver => s.wire.Served?
    case Lose => !s.wire.Quiet?
  }

  function Next(s: System, e: Event): System
    requires Enabled(s, e)
  {
    match e
    case Click(ask) => s.(bar := Begun(s.bar, ask), wire := Sent(ask))
    case Serve(applies, readable, durable) =>
      var armed := Applied(s.armed, s.wire.ask, applies);
      s.(armed := armed, wire := Served(s.wire.ask, ReadBack(armed, s.wire.ask, readable, durable)))
    case Deliver => s.(bar := Finished(s.bar, s.wire.ask, Some(s.wire.reply)), wire := Quiet)
    case Lose => s.(bar := Finished(s.bar, s.wire.ask, None), wire := Quiet)
  }

  predicate CanRun(s: System, events: seq<Event>)
    decreases |events|
  {
    events == [] || (Enabled(s, events[0]) && CanRun(Next(s, events[0]), events[1..]))
  }

  function Run(s: System, events: seq<Event>): System
    requires CanRun(s, events)
    decreases |events|
  {
    if events == [] then s else Run(Next(s, events[0]), events[1..])
  }

  predicate Initial(s: System) {
    && s.wire.Quiet?
    && s.bar.busy.Idle? && s.bar.doubt.None?
    && (s.bar.tenant.Some? ==> s.bar.tenant.value == s.armed)
  }

  /** No change is outstanding, so whatever is claimed still stands. */
  predicate NothingChanging(s: System) {
    s.wire.Quiet? || s.wire.ask.Observe?
  }

  predicate Inv(s: System) {
    && (s.wire.Quiet? <==> s.bar.busy.Idle?)
    && (s.wire.Served? ==> Truthful(s.wire.reply, s.armed))
    && (NothingChanging(s) && !Lost(s.bar) && s.bar.tenant.Some? ==> s.bar.tenant.value == s.armed)
  }

  lemma {:induction false} RunKeepsInv(s: System, events: seq<Event>)
    requires Inv(s) && CanRun(s, events)
    ensures Inv(Run(s, events))
    decreases |events|
  {
    if events != [] {
      RunKeepsInv(Next(s, events[0]), events[1..]);
    }
  }

  /** Whenever the bar says ARMED or DISARMED, that is what the gateway enforces. */
  lemma ClaimsAreTrue(s: System, events: seq<Event>)
    requires Initial(s) && CanRun(s, events)
    ensures var t := Run(s, events);
            && (PhaseOf(t.bar) == Armed ==> t.armed)
            && (PhaseOf(t.bar) == Disarmed ==> !t.armed)
  {
    RunKeepsInv(s, events);
  }

  // ── Durability ──────────────────────────────────────────────────────────

  /** A reply that says whether the change was saved reaches the bar. */
  predicate Tells(s: System, e: Event) {
    e.Deliver? && s.wire.Served? && s.wire.reply.durable.Some?
  }

  predicate NoWord(s: System, events: seq<Event>)
    requires CanRun(s, events)
    decreases |events|
  {
    events == [] || (!Tells(s, events[0]) && NoWord(Next(s, events[0]), events[1..]))
  }

  /** Refreshes and lost replies leave the last change's warning standing. */
  lemma {:induction false} TheWarningStands(s: System, events: seq<Event>)
    requires CanRun(s, events) && NoWord(s, events)
    ensures Run(s, events).bar.notDurable == s.bar.notDurable
    decreases |events|
  {
    if events != [] {
      TheWarningStands(Next(s, events[0]), events[1..]);
    }
  }

  /** After a change whose reply says whether it was saved, and until another such
      reply, the warning is up exactly when it was not, and names that change. */
  lemma WarnsOfTheLastChange(s: System, next: bool, applies: bool, readable: bool, durable: bool, events: seq<Event>)
    requires Enabled(s, Click(Set(next)))
    requires var t := Next(Next(Next(s, Click(Set(next))), Serve(applies, readable, Some(durable))), Deliver);
             CanRun(t, events) && NoWord(t, events)
    ensures var t := Next(Next(Next(s, Click(Set(next))), Serve(applies, readable, Some(durable))), Deliver);
            Run(t, events).bar.notDurable == if durable then None else Some(next)
  {
    TheWarningStands(Next(Next(Next(s, Click(Set(next))), Serve(applies, readable, Some(durable))), Deliver), events);
  }

  // ── Doubt ───────────────────────────────────────────────────────────────

  /** A lost change, and what may follow it without a reply getting through. */
  predicate InDoubt(s: System, intent: bool) {
    && s.bar.doubt == Some(Doubt(intent, true))
    && (s.wire.Quiet? <==> s.bar.busy.Idle?)
    && (!s.wire.Quiet? ==> Requested(s.wire.ask) == intent)
  }

  predicate NothingDelivered(events: seq<Event>) {
    forall i :: 0 <= i < |events| ==> !events[i].Deliver?
  }

  lemma {:induction false} DoubtLasts(s: System, intent: bool, events: seq<Event>)
    requires InDoubt(s, intent) && CanRun(s, events) && NothingDelivered(events)
    ensures InDoubt(Run(s, events), intent)
    decreases |events|
  {
    if events != [] {
      DoubtLasts(Next(s, events[0]), intent, events[1..]);
    }
  }

  /** Once a change's reply is lost, and until some reply gets through, the
      earlier claim is off the screen and every request sent carries that
      change's own intent: nothing on screen can send its opposite. */
  lemma LostChangeIsNotForgotten(s: System, intent: bool, events: seq<Event>)
    requires Inv(s) && !s.wire.Quiet? && s.wire.ask == Set(intent)
    requires CanRun(Next(s, Lose), events) && NothingDelivered(events)
    ensures var t := Run(Next(s, Lose), events);
            && PhaseOf(t.bar) !in {Armed, Disarmed, Unknown}
            && (!t.wire.Quiet? ==> Requested(t.wire.ask) == intent)
  {
    DoubtLasts(Next(s, Lose), intent, events);
  }

  lemma ThreeEvents(s: System, e: Event, f: Event, g: Event)
    requires Enabled(s, e) && Enabled(Next(s, e), f) && Enabled(Next(Next(s, e), f), g)
    ensures CanRun(s, [e, f, g]) && Run(s, [e, f, g]) == Next(Next(Next(s, e), f), g)
  {
    var events, end := [e, f, g], Next(Next(Next(s, e), f), g);
    var last := events[1..][1..];
    assert events[1..] == [f, g] && last == [g] && last[1..] == [];
    assert CanRun(end, []) && Run(end, []) == end;
    assert CanRun(Next(Next(s, e), f), last) && Run(Next(Next(s, e), f), last) == end;
    assert CanRun(Next(s, e), events[1..]) && Run(Next(s, e), events[1..]) == end;
  }

  /** While a request is out every button is off. */
  lemma BusyOffersNothing(bar: Bar, ask: Ask)
    ensures Offers(bar, ask) ==> bar.busy.Idle?
  {
  }

  /** While a request is out the bar names it. */
  lemma BusyNamesTheRequest(s: System, ask: Ask)
    requires Enabled(s, Click(ask))
    ensures PhaseOf(Next(s, Click(ask)).bar) ==
            match ask case Set(next) => (if next then Arming else Disarming) case Observe(_) => Checking
  {
  }

  /** An answered change is in doubt exactly when what was read back is not what was
      asked for, and what was read back is what is claimed. */
  lemma AnsweredChange(s: System, next: bool, applies: bool, readable: bool, durable: Option<bool>)
    requires Enabled(s, Click(Set(next)))
    ensures var events := [Click(Set(next)), Serve(applies, readable, durable), Deliver];
            && CanRun(s, events)
            && (var t := Run(s, events);
                && t.bar.doubt == (if readable && t.armed == next then None else Some(Doubt(next, false)))
                && t.armed == (if applies then next else s.armed)
                && PhaseOf(t.bar) == if !readable then Unknown else if t.armed then Armed else Disarmed)
  {
    ThreeEvents(s, Click(Set(next)), Serve(applies, readable, durable), Deliver);
  }

  /** A re-read that is lost takes down the claim if something was in doubt, and
      changes nothing otherwise. */
  lemma LostReread(s: System, requested: bool)
    requires Enabled(s, Click(Observe(requested)))
    ensures var t := Next(Next(s, Click(Observe(requested))), Lose);
            if s.bar.doubt.Some? then PhaseOf(t.bar) == Unconfirmed && t.bar.doubt == Some(Doubt(s.bar.doubt.value.requested, true))
            else t == s
  {
  }

  /** One read-back that gets through is enough, whichever way the change went. */
  lemma ReadBackEndsDoubt(s: System, intent: bool, durable: Option<bool>)
    requires Inv(s) && InDoubt(s, intent) && s.wire.Quiet?
    ensures var events := [Click(Observe(intent)), Serve(false, true, durable), Deliver];
            && CanRun(s, events)
            && PhaseOf(Run(s, events).bar) == if s.armed then Armed else Disarmed
  {
    ThreeEvents(s, Click(Observe(intent)), Serve(false, true, durable), Deliver);
  }

  // ── The buttons ─────────────────────────────────────────────────────────

  /** Which way an operator at rest can turn the switch: off what is claimed, on
      when nothing is known, and again the way a change went that is in doubt or
      was not saved. */
  predicate CanTurn(bar: Bar, next: bool) {
    || (PhaseOf(bar) == Armed && !next)
    || (PhaseOf(bar) == Disarmed && next)
    || (PhaseOf(bar) == Unknown && next)
    || (bar.doubt.Some? && bar.doubt.value.requested == next)
    || (bar.doubt.None? && bar.notDurable == Some(next))
  }

  /** It can be turned those ways and no other; and one click that is applied, saved
      and read back ends in that claim, nothing in doubt and no warning. */
  lemma OneClickTurnsIt(s: System, next: bool)
    requires Inv(s) && s.wire.Quiet?
    ensures Enabled(s, Click(Set(next))) <==> CanTurn(s.bar, next)
    ensures var events := [Click(Set(next)), Serve(true, true, Some(true)), Deliver];
            CanTurn(s.bar, next) ==>
              && CanRun(s, events)
              && (var t := Run(s, events);
                  && t.armed == next && PhaseOf(t.bar) == (if next then Armed else Disarmed)
                  && t.bar.doubt.None? && t.bar.notDurable.None?)
  {
    if CanTurn(s.bar, next) {
      ThreeEvents(s, Click(Set(next)), Serve(true, true, Some(true)), Deliver);
    }
  }

  /** A switch that could not be read can be read again, and so can one in doubt;
      one read-back settles what is shown. */
  lemma OneClickReadsIt(s: System, requested: bool)
    requires Inv(s) && s.wire.Quiet?
    ensures Enabled(s, Click(Observe(requested))) <==>
            if s.bar.doubt.Some? then requested == s.bar.doubt.value.requested else s.bar.tenant.None? && !requested
    ensures var events := [Click(Observe(requested)), Serve(false, true, None), Deliver];
            Enabled(s, Click(Observe(requested))) ==>
              CanRun(s, events) && PhaseOf(Run(s, events).bar) == if s.armed then Armed else Disarmed
  {
    if Enabled(s, Click(Observe(requested))) {
      ThreeEvents(s, Click(Observe(requested)), Serve(false, true, None), Deliver);
    }
  }
}
