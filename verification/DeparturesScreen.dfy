/** The departures board as React runs it. A state setter works its update out
    at the call only when no earlier update still marks the component; otherwise
    it is queued, and a later render runs it. What an updater reads from a ref it
    reads when it runs. */
module DeparturesScreen {
  import opened Lists
  import opened DeparturesBoard

  /** What a render draws; `queued` is the count beside the resume button. */
  datatype Seen = Seen(rows: seq<Row>, hasOlder: bool, paused: bool, queued: nat, loading: bool)

  /** The refs, which change at once. */
  datatype Refs = Refs(pausedRef: bool, queue: seq<Row>, historyLoaded: bool)

  /** `Computed` is an update worked out at the call. `Append` stands for the three
      setters at the end of a load. */
  datatype Update =
    | Computed(seen: Seen)
    | MergeRow(row: Row)
    | MergeQueue
    | Append(page: seq<Row>, more: bool)
    | Pausing(paused: bool)
    | Counted(n: nat)
    | Loading(loading: bool)

  /** The component. A click is drawn before the page hears anything else. */
  datatype View = View(
    seen: Seen, updates: seq<Update>, marked: bool, clicked: bool, refs: Refs, cursor: Option<Row>)

  function CapOf(refs: Refs): nat {
    if refs.historyLoaded then MAX_SAFE else MAX_ROWS
  }

  /** The queue merged row by row, in queue order. */
  function Resumed(rows: seq<Row>, queue: seq<Row>, max: nat): seq<Row> {
    if queue == [] then rows
    else MergeDeparture(Resumed(rows, queue[..|queue| - 1], max), queue[|queue| - 1], max)
  }

  function Applied(seen: Seen, refs: Refs, u: Update): Seen {
    match u
    case Computed(value) => value
    case MergeRow(row) => seen.(rows := MergeDeparture(seen.rows, row, CapOf(refs)))
    case MergeQueue => seen.(rows := Resumed(seen.rows, refs.queue, CapOf(refs)))
    case Append(page, more) => seen.(rows := seen.rows + Fresh(seen.rows, page), hasOlder := more, loading := false)
    case Pausing(paused) => seen.(paused := paused)
    case Counted(n) => seen.(queued := n)
    case Loading(loading) => seen.(loading := loading)
  }

  function AppliedAll(seen: Seen, refs: Refs, updates: seq<Update>): Seen {
    if updates == [] then seen
    else Applied(AppliedAll(seen, refs, updates[..|updates| - 1]), refs, updates[|updates| - 1])
  }

  /** The very value it was: merging a row always makes a new list. */
  predicate SameValue(seen: Seen, refs: Refs, u: Update) {
    match u
    case MergeQueue => refs.queue == []
    case Pausing(paused) => paused == seen.paused
    case Counted(n) => n == seen.queued
    case Loading(loading) => loading == seen.loading
    case _ => false
  }

  function Set(v: View, u: Update): View {
    if v.marked then v.(updates := v.updates + [u])
    else if SameValue(v.seen, v.refs, u) then v
    else v.(updates := v.updates + [Computed(Applied(v.seen, v.refs, u))], marked := true)
  }

  // ── What the component does ─────────────────────────────────────────────

  function OnInsert(v: View, row: Row): View {
    if v.refs.pausedRef then
      var queue := MergeDeparture(v.refs.queue, row, MAX_ROWS);
      Set(v.(refs := v.refs.(queue := queue)), Counted(|queue|))
    else Set(v, MergeRow(row))
  }

  function OnPause(v: View): View {
    Set(v, Pausing(true)).(clicked := true)
  }

  /** The ref is emptied after the setter is called. */
  function OnResume(v: View): View {
    var merging := Set(v, MergeQueue);
    Set(Set(merging.(refs := v.refs.(queue := [])), Counted(0)), Pausing(false)).(clicked := true)
  }

  function OnAsk(v: View): View
    requires v.seen.rows != []
  {
    Set(v.(cursor := Some(v.seen.rows[|v.seen.rows| - 1])), Loading(true)).(clicked := true)
  }

  function OnLoaded(v: View, data: seq<Row>): View {
    var loaded := v.(refs := v.refs.(historyLoaded := true), cursor := None);
    Set(loaded, Append(Take(data, PAGE_ROWS), |data| > PAGE_ROWS))
  }

  function OnFailed(v: View): View {
    Set(v.(cursor := None), Loading(false))
  }

  /** A render and its effect. The marks of the updates it ran stay; a render with
      none of its own, for the page around it, clears them. */
  function OnRender(v: View): View {
    var seen := AppliedAll(v.seen, v.refs, v.updates);
    View(seen, [], v.updates != [], false, v.refs.(pausedRef := seen.paused), v.cursor)
  }

  function Mounted(rows: seq<Row>, logsAvailable: bool): View {
    View(Seen(Take(rows, MAX_ROWS), logsAvailable && |rows| >= MAX_ROWS, false, 0, false),
         [], false, false, Refs(false, [], false), None)
  }

  class DeparturesView {
    var seen: Seen
    var updates: seq<Update>
    var marked: bool
    var clicked: bool
    var pausedRef: bool
    var queuedRows: seq<Row>
    var historyLoaded: bool
    var cursor: Option<Row>

    ghost function State(): View
      reads this
    {
      View(seen, updates, marked, clicked, Refs(pausedRef, queuedRows, historyLoaded), cursor)
    }

    constructor (initialRows: seq<Row>, logsAvailable: bool)
      ensures State() == Mounted(initialRows, logsAvailable)
    {
      seen := Seen(Take(initialRows, MAX_ROWS), logsAvailable && |initialRows| >= MAX_ROWS, false, 0, false);
      updates, marked, clicked := [], false, false;
      pausedRef, queuedRows, historyLoaded, cursor := false, [], false, None;
    }

    method SetState(u: Update)
      modifies this`updates, this`marked
      ensures State() == Set(old(State()), u)
    {
      if marked {
        updates := updates + [u];
        return;
      }
      var refs := Refs(pausedRef, queuedRows, historyLoaded);
      if SameValue(seen, refs, u) { return; }
      var value := RunUpdater(seen, u);
      updates, marked := updates + [Computed(value)], true;
    }

    /** An updater, with the refs as they are when it runs. */
    method RunUpdater(value: Seen, u: Update) returns (next: Seen)
      ensures next == Applied(value, Refs(pausedRef, queuedRows, historyLoaded), u)
    {
      if !u.MergeQueue? { return Applied(value, Refs(pausedRef, queuedRows, historyLoaded), u); }
      var rows, max := value.rows, if historyLoaded then MAX_SAFE else MAX_ROWS;
      for i := 0 to |queuedRows|
        invariant rows == Resumed(value.rows, queuedRows[..i], max)
      {
        assert queuedRows[..i + 1][..i] == queuedRows[..i];
        rows := MergeDeparture(rows, queuedRows[i], max);
      }
      assert queuedRows[..|queuedRows|] == queuedRows;
      next := value.(rows := rows);
    }

    method Insert(row: Row)
      modifies this
      ensures State() == OnInsert(old(State()), row)
    {
      if pausedRef {
        queuedRows := MergeDeparture(queuedRows, row, MAX_ROWS);
        SetState(Counted(|queuedRows|));
        return;
      }
      SetState(MergeRow(row));
    }

    method Pause()
      modifies this
      ensures State() == OnPause(old(State()))
    {
      SetState(Pausing(true));
      clicked := true;
    }

    method Resume()
      modifies this
      ensures State() == OnResume(old(State()))
    {
      SetState(MergeQueue);
      queuedRows := [];
      SetState(Counted(0));
      SetState(Pausing(false));
      clicked := true;
    }

    method LoadOlder()
      requires seen.rows != []
      modifies this
      ensures State() == OnAsk(old(State()))
    {
      cursor := Some(seen.rows[|seen.rows| - 1]);
      SetState(Loading(true));
      clicked := true;
    }

    method FinishLoad(data: seq<Row>)
      modifies this
      ensures State() == OnLoaded(old(State()), data)
    {
      historyLoaded, cursor := true, None;
      SetState(Append(Take(data, PAGE_ROWS), |data| > PAGE_ROWS));
    }

    method FailLoad()
      modifies this
      ensures State() == OnFailed(old(State()))
    {
      cursor := None;
      SetState(Loading(false));
    }

    method RenderPending()
      modifies this
      ensures State() == OnRender(old(State()))
    {
      var value := seen;
      for i := 0 to |updates|
        invariant State() == old(State())
        invariant value == AppliedAll(seen, Refs(pausedRef, queuedRows, historyLoaded), updates[..i])
      {
        assert updates[..i + 1][..i] == updates[..i];
        value := RunUpdater(value, updates[i]);
      }
      assert updates[..|updates|] == updates;
      seen, marked := value, updates != [];
      updates, clicked := [], false;
      pausedRef := seen.paused;
    }
  }

  // ── Runs ────────────────────────────────────────────────────────────────

  /** The view before its table, whose first `pending` rows it has not heard of;
      `answer` is on its way back. */
  datatype Screen = Screen(table: seq<Row>, pending: nat, view: View, answer: Option<seq<Row>>)

  datatype Act =
    | Recorded(row: Row)
    | Heard
    | Pause
    | Resume
    | Ask
    | Answered
    | Loaded
    | Failed
    | Render

  predicate Enabled(s: Screen, a: Act) {
    && (s.view.clicked ==> a.Render? || a.Recorded? || a.Answered?)
    && match a
       case Recorded(row) =>
         (forall i :: 0 <= i < |s.table| ==> Newer(row, s.table[i])) && !Shows(s.table, row.id) && |s.table| < MAX_SAFE
       case Heard => 0 < s.pending <= |s.table|
       case Pause => !s.view.seen.paused
       case Resume => s.view.seen.paused
       case Ask => s.view.seen.hasOlder && s.view.seen.rows != [] && !s.view.seen.loading
       case Answered => s.view.cursor.Some? && s.answer.None?
       case Loaded => s.view.cursor.Some? && s.answer.Some?
       case Failed => s.view.cursor.Some?
       case Render => true
  }

  function Next(s: Screen, a: Act): Screen
    requires Enabled(s, a)
  {
    match a
    case Recorded(row) => s.(table := [row] + s.table, pending := s.pending + 1)
    case Heard => s.(pending := s.pending - 1, view := OnInsert(s.view, s.table[s.pending - 1]))
    case Pause => s.(view := OnPause(s.view))
    case Resume => s.(view := OnResume(s.view))
    case Ask => s.(view := OnAsk(s.view), answer := None)
    case Answered => s.(answer := Some(Older(s.table, s.view.cursor.value)))
    case Loaded => s.(view := OnLoaded(s.view, s.answer.value), answer := None)
    case Failed => s.(view := OnFailed(s.view), answer := None)
    case Render => s.(view := OnRender(s.view))
  }

  predicate CanRun(s: Screen, acts: seq<Act>)
    decreases |acts|
  {
    acts == [] || (Enabled(s, acts[0]) && CanRun(Next(s, acts[0]), acts[1..]))
  }

  function Run(s: Screen, acts: seq<Act>): Screen
    requires CanRun(s, acts)
    decreases |acts|
  {
    if acts == [] then s else Run(Next(s, acts[0]), acts[1..])
  }

  function Opened(table: seq<Row>): Screen {
    Screen(table, 0, Mounted(table, true), None)
  }

  /** What is drawn once everything queued has run. */
  function Flushed(v: View): Seen {
    AppliedAll(v.seen, v.refs, v.updates)
  }

  function HeardOf(s: Screen): seq<Row> {
    if s.pending <= |s.table| then s.table[s.pending..] else []
  }

  // ── What every run keeps ────────────────────────────────────────────────

  /** The rows an update brings with it. */
  function Brings(u: Update): seq<Row> {
    match u
    case Computed(value) => value.rows
    case MergeRow(row) => [row]
    case Append(page, _) => page
    case _ => []
  }

  function Brought(updates: seq<Update>): seq<Row> {
    if updates == [] then [] else Brought(updates[..|updates| - 1]) + Brings(updates[|updates| - 1])
  }

  /** On the board, on its way there, or asked past. */
  predicate OnBoard(s: Screen, r: Row) {
    || r in s.view.seen.rows || r in Brought(s.view.updates)
    || s.view.cursor == Some(r) || (s.answer.Some? && r in s.answer.value)
  }

  predicate NewerThanAll(rows: seq<Row>, r: Row) {
    forall i :: 0 <= i < |rows| ==> Newer(rows[i], r)
  }

  /** The queue is the newest calls heard of, and everything on the board is
      older. */
  ghost predicate Apart(s: Screen) {
    && s.view.refs.queue <= HeardOf(s)
    && forall r :: OnBoard(s, r) ==> r in HeardOf(s) && NewerThanAll(s.view.refs.queue, r)
  }

  predicate InOrder(v: View) {
    && (!v.marked ==> v.updates == [])
    && (MergeQueue in v.updates ==> v.clicked && v.refs.queue == [])
    && |v.refs.queue| <= MAX_ROWS
    && (v.refs.queue != [] ==> Flushed(v).paused && v.refs.pausedRef)
    && (!v.clicked ==> Flushed(v).paused == v.refs.pausedRef)
  }

  ghost predicate Sound(s: Screen) {
    && Descending(s.table) && DistinctIds(s.table) && s.pending <= |s.table| <= MAX_SAFE
    && InOrder(s.view) && Apart(s)
  }

  lemma AppliedSnoc(seen: Seen, refs: Refs, updates: seq<Update>, u: Update)
    ensures AppliedAll(seen, refs, updates + [u]) == Applied(AppliedAll(seen, refs, updates), refs, u)
    ensures Brought(updates + [u]) == Brought(updates) + Brings(u)
  {
    assert (updates + [u])[..|updates|] == updates;
  }

  /** At once or later, the update runs on what comes before it. */
  lemma SetRuns(v: View, u: Update)
    requires !v.marked ==> v.updates == []
    ensures Flushed(Set(v, u)) == Applied(Flushed(v), v.refs, u)
    ensures !Set(v, u).marked ==> Set(v, u).updates == []
  {
    if v.marked {
      AppliedSnoc(v.seen, v.refs, v.updates, u);
    } else if !SameValue(v.seen, v.refs, u) {
      AppliedSnoc(v.seen, v.refs, [], Computed(Applied(v.seen, v.refs, u)));
      assert [] + [Computed(Applied(v.seen, v.refs, u))] == v.updates + [Computed(Applied(v.seen, v.refs, u))];
    }
  }

  lemma {:induction false} RefsOnlyChangeRows(seen: Seen, a: Refs, b: Refs, updates: seq<Update>)
    ensures AppliedAll(seen, a, updates) == AppliedAll(seen, b, updates).(rows := AppliedAll(seen, a, updates).rows)
    ensures MergeQueue !in updates && a.historyLoaded == b.historyLoaded ==>
              AppliedAll(seen, a, updates) == AppliedAll(seen, b, updates)
  {
    if updates != [] {
      var init := updates[..|updates| - 1];
      assert updates == init + [updates[|updates| - 1]];
      RefsOnlyChangeRows(seen, a, b, init);
    }
  }

  lemma {:induction false} ResumedFrom(rows: seq<Row>, queue: seq<Row>, max: nat, r: Row)
    requires r in Resumed(rows, queue, max)
    ensures r in rows || r in queue
  {
    if queue != [] {
      var init, last := queue[..|queue| - 1], queue[|queue| - 1];
      if r != last {
        ResumedFrom(rows, init, max, r);
      }
    }
  }

  lemma AppliedFrom(seen: Seen, refs: Refs, u: Update, r: Row)
    requires r in Applied(seen, refs, u).rows
    ensures r in seen.rows || r in Brings(u) || (u.MergeQueue? && r in refs.queue)
  {
    if u.MergeQueue? {
      ResumedFrom(seen.rows, refs.queue, CapOf(refs), r);
    }
  }

  lemma {:induction false} AllAppliedFrom(seen: Seen, refs: Refs, updates: seq<Update>, r: Row)
    requires r in AppliedAll(seen, refs, updates).rows
    ensures r in seen.rows || r in Brought(updates) || (MergeQueue in updates && r in refs.queue)
  {
    if updates != [] {
      var init, u := updates[..|updates| - 1], updates[|updates| - 1];
      AppliedFrom(AppliedAll(seen, refs, init), refs, u, r);
      if r in AppliedAll(seen, refs, init).rows {
        AllAppliedFrom(seen, refs, init, r);
      }
      assert updates == init + [u];
    }
  }

  /** What a setter puts on its way to the board. */
  lemma SetBrings(v: View, u: Update, r: Row)
    requires r in Brought(Set(v, u).updates)
    ensures r in Brought(v.updates) || r in v.seen.rows || r in Brings(u) || (u.MergeQueue? && r in v.refs.queue)
  {
    if v.marked {
      AppliedSnoc(v.seen, v.refs, v.updates, u);
    } else if !SameValue(v.seen, v.refs, u) {
      var value := Computed(Applied(v.seen, v.refs, u));
      AppliedSnoc(v.seen, v.refs, v.updates, value);
      if r in Applied(v.seen, v.refs, u).rows {
        AppliedFrom(v.seen, v.refs, u, r);
      }
    }
  }

  lemma HeardIsOlder(s: Screen, r: Row)
    requires Descending(s.table) && 0 < s.pending <= |s.table| && r in HeardOf(s)
    ensures Newer(s.table[s.pending - 1], r) && r in s.table
  {
    var i :| 0 <= i < |HeardOf(s)| && HeardOf(s)[i] == r;
    assert s.table[s.pending + i] == r;
  }

  lemma QueueGrows(s: Screen)
    requires Sound(s) && Enabled(s, Heard)
    ensures var row := s.table[s.pending - 1];
            MergeDeparture(s.view.refs.queue, row, MAX_ROWS) == Take([row] + s.view.refs.queue, MAX_ROWS)
  {
    var queue, row := s.view.refs.queue, s.table[s.pending - 1];
    forall i | 0 <= i < |queue| ensures queue[i].id != row.id {
      assert queue[i] == HeardOf(s)[i] == s.table[s.pending + i];
    }
  }

  /** The new row is on the board's way only when it is not queued. */
  lemma HeardBrings(v: View, row: Row, r: Row)
    requires r in Brought(OnInsert(v, row).updates)
    ensures r in Brought(v.updates) || r in v.seen.rows || (!v.refs.pausedRef && r == row)
  {
    if v.refs.pausedRef {
      var queue := MergeDeparture(v.refs.queue, row, MAX_ROWS);
      SetBrings(v.(refs := v.refs.(queue := queue)), Counted(|queue|), r);
    } else {
      SetBrings(v, MergeRow(row), r);
    }
  }

  lemma HeardOnBoard(s: Screen, r: Row)
    requires Enabled(s, Heard) && OnBoard(Next(s, Heard), r)
    ensures OnBoard(s, r) || (!s.view.refs.pausedRef && r == s.table[s.pending - 1])
  {
    var row := s.table[s.pending - 1];
    if r in Brought(Next(s, Heard).view.updates) {
      HeardBrings(s.view, row, r);
    }
  }

  lemma HeardPlaces(s: Screen, r: Row)
    requires Sound(s) && Enabled(s, Heard) && OnBoard(s, r)
    ensures NewerThanAll(Next(s, Heard).view.refs.queue, r)
    ensures r in [s.table[s.pending - 1]] + HeardOf(s)
  {
    HeardIsOlder(s, r);
    QueueGrows(s);
  }

  lemma QueueStaysPrefix(queue: seq<Row>, heard: seq<Row>, row: Row)
    requires queue <= heard
    ensures Take([row] + queue, MAX_ROWS) <= [row] + heard
  {
    assert [row] + queue <= [row] + heard;
  }

  lemma OneMoreHeard(table: seq<Row>, pending: nat)
    requires 0 < pending <= |table|
    ensures table[pending - 1..] == [table[pending - 1]] + table[pending..]
  {
  }

  lemma HeardQueue(s: Screen)
    requires Sound(s) && Enabled(s, Heard)
    ensures var t, row := Next(s, Heard), s.table[s.pending - 1];
            && HeardOf(t) == [row] + HeardOf(s) && t.view.refs.queue <= HeardOf(t)
            && (!s.view.refs.pausedRef ==> t.view.refs.queue == [])
  {
    OneMoreHeard(s.table, s.pending);
    QueueGrows(s);
    QueueStaysPrefix(s.view.refs.queue, HeardOf(s), s.table[s.pending - 1]);
  }

  lemma HeardKeepsApart(s: Screen)
    requires Sound(s) && Enabled(s, Heard)
    ensures Apart(Next(s, Heard))
  {
    var t := Next(s, Heard);
    HeardQueue(s);
    forall r | OnBoard(t, r) ensures r in HeardOf(t) && NewerThanAll(t.view.refs.queue, r) {
      HeardOnBoard(s, r);
      if OnBoard(s, r) {
        HeardPlaces(s, r);
      }
    }
  }

  lemma HeardKeepsOrder(s: Screen)
    requires Sound(s) && Enabled(s, Heard)
    ensures InOrder(Next(s, Heard).view)
  {
    var row := s.table[s.pending - 1];
    if s.view.refs.pausedRef {
      var queue := MergeDeparture(s.view.refs.queue, row, MAX_ROWS);
      var v := s.view.(refs := s.view.refs.(queue := queue));
      RefsOnlyChangeRows(v.seen, v.refs, s.view.refs, v.updates);
      SetRuns(v, Counted(|queue|));
      QueueGrows(s);
    } else {
      SetRuns(s.view, MergeRow(row));
    }
  }

  lemma SameBoardIsApart(s: Screen, t: Screen)
    requires Apart(s) && HeardOf(t) == HeardOf(s) && t.view.refs.queue == s.view.refs.queue
    requires forall r :: OnBoard(t, r) ==> OnBoard(s, r)
    ensures Apart(t)
  {
  }

  lemma TableGrows(table: seq<Row>, row: Row, pending: nat)
    requires Descending(table) && DistinctIds(table) && pending <= |table|
    requires (forall i :: 0 <= i < |table| ==> Newer(row, table[i])) && !Shows(table, row.id)
    ensures Descending([row] + table) && DistinctIds([row] + table)
    ensures ([row] + table)[pending + 1..] == table[pending..]
  {
  }

  lemma RecordedKeepsSound(s: Screen, row: Row)
    requires Sound(s) && Enabled(s, Recorded(row))
    ensures Sound(Next(s, Recorded(row)))
  {
    TableGrows(s.table, row, s.pending);
    SameBoardIsApart(s, Next(s, Recorded(row)));
  }

  /** A click that leaves the refs alone. */
  lemma PauseKeepsSound(s: Screen)
    requires Sound(s) && Enabled(s, Pause)
    ensures Sound(Next(s, Pause))
  {
    var t := Next(s, Pause);
    SetRuns(s.view, Pausing(true));
    assert HeardOf(t) == HeardOf(s);
    forall r | OnBoard(t, r) ensures OnBoard(s, r) {
      if r in Brought(t.view.updates) { SetBrings(s.view, Pausing(true), r); }
    }
  }

  lemma AskKeepsSound(s: Screen)
    requires Sound(s) && Enabled(s, Ask)
    ensures Sound(Next(s, Ask))
  {
    var t, v := Next(s, Ask), s.view.(cursor := Some(s.view.seen.rows[|s.view.seen.rows| - 1]));
    SetRuns(v, Loading(true));
    assert HeardOf(t) == HeardOf(s);
    forall r | OnBoard(t, r) ensures OnBoard(s, r) {
      if r in Brought(t.view.updates) { SetBrings(v, Loading(true), r); }
    }
  }

  lemma FailedKeepsSound(s: Screen)
    requires Sound(s) && Enabled(s, Failed)
    ensures Sound(Next(s, Failed))
  {
    var t, v := Next(s, Failed), s.view.(cursor := None);
    SetRuns(v, Loading(false));
    assert HeardOf(t) == HeardOf(s);
    forall r | OnBoard(t, r) ensures OnBoard(s, r) {
      if r in Brought(t.view.updates) { SetBrings(v, Loading(false), r); }
    }
  }

  lemma NewerIsEarlier(table: seq<Row>, i: nat, j: nat)
    requires Descending(table) && i < |table| && j < |table| && Newer(table[i], table[j])
    ensures i < j
  {
  }

  /** What a query finds past a row the view has heard of, it has heard of too. */
  lemma OlderIsHeard(s: Screen, cursor: Row, r: Row)
    requires Descending(s.table) && cursor in HeardOf(s) && r in Older(s.table, cursor)
    ensures r in HeardOf(s) && Newer(cursor, r)
  {
    var heard := HeardOf(s);
    assert r in Keep(s.table, Past(cursor));
    var c :| 0 <= c < |heard| && heard[c] == cursor;
    var i :| 0 <= i < |s.table| && s.table[i] == r;
    NewerIsEarlier(s.table, s.pending + c, i);
    assert heard[i - s.pending] == r;
  }

  lemma AnsweredKeepsSound(s: Screen)
    requires Sound(s) && Enabled(s, Answered)
    ensures Sound(Next(s, Answered))
  {
    var t, cursor := Next(s, Answered), s.view.cursor.value;
    assert HeardOf(t) == HeardOf(s);
    assert OnBoard(s, cursor);
    forall r | OnBoard(t, r) ensures r in HeardOf(t) && NewerThanAll(t.view.refs.queue, r) {
      if !OnBoard(s, r) {
        OlderIsHeard(s, cursor, r);
        assert NewerThanAll(s.view.refs.queue, cursor);
      }
    }
  }

  lemma LoadedKeepsSound(s: Screen)
    requires Sound(s) && Enabled(s, Loaded)
    ensures Sound(Next(s, Loaded))
  {
    var t, data := Next(s, Loaded), s.answer.value;
    var v := s.view.(refs := s.view.refs.(historyLoaded := true), cursor := None);
    var u := Append(Take(data, PAGE_ROWS), |data| > PAGE_ROWS);
    RefsOnlyChangeRows(v.seen, v.refs, s.view.refs, v.updates);
    SetRuns(v, u);
    assert HeardOf(t) == HeardOf(s);
    forall r | OnBoard(t, r) ensures OnBoard(s, r) {
      if r in Brought(t.view.updates) { SetBrings(v, u, r); }
    }
  }

  lemma RenderKeepsSound(s: Screen)
    requires Sound(s)
    ensures Sound(Next(s, Render))
  {
    var t := Next(s, Render);
    assert HeardOf(t) == HeardOf(s);
    forall r | OnBoard(t, r) ensures OnBoard(s, r) {
      if r in t.view.seen.rows { AllAppliedFrom(s.view.seen, s.view.refs, s.view.updates, r); }
    }
  }

  /** What a resume leaves of the queue is on its way to the board, or nowhere. */
  lemma ResumeBrings(v: View, r: Row)
    requires r in Brought(OnResume(v).updates)
    ensures r in Brought(v.updates) || r in v.seen.rows || r in v.refs.queue
  {
    var merging := Set(v, MergeQueue).(refs := v.refs.(queue := []));
    TwoSettersBring(merging, Counted(0), Pausing(false), r);
    if r in Brought(merging.updates) {
      SetBrings(v, MergeQueue, r);
    }
  }

  lemma TwoSettersBring(v: View, a: Update, b: Update, r: Row)
    requires Brings(a) == [] && Brings(b) == [] && !a.MergeQueue? && !b.MergeQueue?
    requires r in Brought(Set(Set(v, a), b).updates)
    ensures r in Brought(v.updates) || r in v.seen.rows
  {
    SetBrings(Set(v, a), b, r);
    if r in Brought(Set(v, a).updates) {
      SetBrings(v, a, r);
    }
  }

  lemma ResumeKeepsSound(s: Screen)
    requires Sound(s) && Enabled(s, Resume)
    ensures Sound(Next(s, Resume))
  {
    var t, v := Next(s, Resume), s.view;
    var merging := Set(v, MergeQueue).(refs := v.refs.(queue := []));
    var counted := Set(merging, Counted(0));
    SetRuns(v, MergeQueue);
    SetRuns(merging, Counted(0));
    SetRuns(counted, Pausing(false));
    assert HeardOf(t) == HeardOf(s);
    forall r | OnBoard(t, r) ensures r in HeardOf(t) {
      if r in Brought(t.view.updates) { ResumeBrings(v, r); }
      assert OnBoard(s, r) || r in v.refs.queue;
    }
  }

  lemma StepKeepsSound(s: Screen, a: Act)
    requires Sound(s) && Enabled(s, a)
    ensures Sound(Next(s, a))
  {
    match a
    case Recorded(row) => RecordedKeepsSound(s, row);
    case Heard => HeardKeepsApart(s); HeardKeepsOrder(s);
    case Pause => PauseKeepsSound(s);
    case Resume => ResumeKeepsSound(s);
    case Ask => AskKeepsSound(s);
    case Answered => AnsweredKeepsSound(s);
    case Loaded => LoadedKeepsSound(s);
    case Failed => FailedKeepsSound(s);
    case Render => RenderKeepsSound(s);
  }

  lemma {:induction false} RunKeepsSound(s: Screen, acts: seq<Act>)
    requires Sound(s) && CanRun(s, acts)
    ensures Sound(Run(s, acts))
    decreases |acts|
  {
    if acts != [] {
      StepKeepsSound(s, acts[0]);
      RunKeepsSound(Next(s, acts[0]), acts[1..]);
    }
  }

  lemma OpenedIsSound(table: seq<Row>)
    requires Descending(table) && DistinctIds(table) && |table| <= MAX_SAFE
    ensures Sound(Opened(table))
  {
    assert HeardOf(Opened(table)) == table;
  }

  // ── Resuming ────────────────────────────────────────────────────────────

  function Reverse(rows: seq<Row>): (r: seq<Row>)
    ensures |r| == |rows|
    ensures forall i :: 0 <= i < |rows| ==> r[i] == rows[|rows| - 1 - i]
  {
    if rows == [] then [] else [rows[|rows| - 1]] + Reverse(rows[..|rows| - 1])
  }

  predicate NoneShown(queue: seq<Row>, rows: seq<Row>) {
    forall i :: 0 <= i < |queue| ==> !Shows(rows, queue[i].id)
  }

  /** The queue is newest first and is merged in that order, so it goes onto the
      board the wrong way round. */
  lemma {:induction false} ResumedStartsReversed(rows: seq<Row>, queue: seq<Row>, max: nat)
    requires DistinctIds(queue) && NoneShown(queue, rows) && |queue| <= max
    ensures Reverse(queue) <= Resumed(rows, queue, max)
  {
    if queue != [] {
      var init, last := queue[..|queue| - 1], queue[|queue| - 1];
      ResumedStartsReversed(rows, init, max);
      LastIsNew(rows, queue, max);
      var before := Resumed(rows, init, max);
      assert Reverse(queue) == [last] + Reverse(init);
      assert [last] + before == Reverse(queue) + before[|init|..];
    }
  }

  lemma LastIsNew(rows: seq<Row>, queue: seq<Row>, max: nat)
    requires queue != [] && DistinctIds(queue) && NoneShown(queue, rows)
    ensures !Shows(Resumed(rows, queue[..|queue| - 1], max), queue[|queue| - 1].id)
  {
    var init, last := queue[..|queue| - 1], queue[|queue| - 1];
    var before := Resumed(rows, init, max);
    forall i | 0 <= i < |before| ensures before[i].id != last.id {
      ResumedFrom(rows, init, max, before[i]);
      assert before[i] in init || Shows(rows, before[i].id);
    }
  }

  /** Setters of the count and the pause leave the rows. */
  lemma CountFlushes(v: View, n: nat)
    requires !v.marked ==> v.updates == []
    ensures var w := Set(v, Counted(n));
            && (!w.marked ==> w.updates == []) && w.refs == v.refs && Flushed(w).rows == Flushed(v).rows
  {
    SetRuns(v, Counted(n));
  }

  lemma PausingFlushes(v: View, paused: bool)
    requires !v.marked ==> v.updates == []
    ensures var w := Set(v, Pausing(paused));
            w.refs == v.refs && Flushed(w).paused == paused && Flushed(w).rows == Flushed(v).rows
  {
    SetRuns(v, Pausing(paused));
  }

  lemma UnpausedFlushes(v: View)
    requires !v.marked ==> v.updates == []
    ensures var w := Set(Set(v, Counted(0)), Pausing(false));
            w.refs == v.refs && !Flushed(w).paused && Flushed(w).rows == Flushed(v).rows
  {
    CountFlushes(v, 0);
    PausingFlushes(Set(v, Counted(0)), false);
  }

  /** The queue is read at the call, or once it is empty. */
  lemma MergingFlushes(v: View)
    requires InOrder(v) && !v.clicked
    ensures var merging := Set(v, MergeQueue).(refs := v.refs.(queue := []));
            && (!merging.marked ==> merging.updates == [])
            && Flushed(merging).rows ==
               if v.marked then Flushed(v).rows else Resumed(v.seen.rows, v.refs.queue, CapOf(v.refs))
  {
    var merged := Set(v, MergeQueue);
    var emptied := v.refs.(queue := []);
    SetRuns(v, MergeQueue);
    if v.marked {
      AppliedSnoc(v.seen, emptied, v.updates, MergeQueue);
      RefsOnlyChangeRows(v.seen, emptied, v.refs, v.updates);
    } else {
      RefsOnlyChangeRows(v.seen, emptied, v.refs, merged.updates);
    }
  }

  lemma ResumeFlushes(v: View)
    requires InOrder(v) && !v.clicked
    ensures var w := OnResume(v);
            && w.refs == v.refs.(queue := []) && !Flushed(w).paused
            && Flushed(w).rows == if v.marked then Flushed(v).rows else Resumed(v.seen.rows, v.refs.queue, CapOf(v.refs))
  {
    MergingFlushes(v);
    UnpausedFlushes(Set(v, MergeQueue).(refs := v.refs.(queue := [])));
  }

  /** A resume as the operator sees it: the click, and the render it causes. */
  function Resuming(s: Screen): Screen
    requires Enabled(s, Resume)
  {
    Next(Next(s, Resume), Render)
  }

  /** With no earlier update still marking the component, the queue is merged at
      the call. */
  lemma ResumeAtOnce(s: Screen)
    requires Sound(s) && Enabled(s, Resume) && !s.view.marked
    ensures var v := Resuming(s).view;
            && v.seen.rows == Resumed(s.view.seen.rows, s.view.refs.queue, CapOf(s.view.refs))
            && v.refs.queue == [] && !v.seen.paused
  {
    ResumeFlushes(s.view);
  }

  /** Otherwise it is merged after it has been emptied: the board is what it would
      have been without the resume, and the queue is gone. */
  lemma ResumeTooLate(s: Screen)
    requires Sound(s) && Enabled(s, Resume) && s.view.marked
    ensures var v := Resuming(s).view;
            && v.seen.rows == Next(s, Render).view.seen.rows
            && v.refs.queue == [] && !v.seen.paused
  {
    ResumeFlushes(s.view);
  }

  lemma QueuedIsNotDrawn(s: Screen, rows: seq<Row>)
    requires Sound(s) && !s.view.clicked && (rows == s.view.seen.rows || rows == Flushed(s.view).rows)
    ensures NoneShown(s.view.refs.queue, rows) && DistinctIds(s.view.refs.queue)
  {
    var queue, heard := s.view.refs.queue, HeardOf(s);
    forall i, j | 0 <= i < |queue| && 0 <= j < |rows| ensures rows[j].id != queue[i].id {
      if rows[j] !in s.view.seen.rows {
        AllAppliedFrom(s.view.seen, s.view.refs, s.view.updates, rows[j]);
      }
      assert OnBoard(s, rows[j]) && Newer(queue[i], rows[j]);
      var k :| 0 <= k < |heard| && heard[k] == rows[j];
      DistinctHeard(s, i, k);
    }
    forall i, j | 0 <= i < j < |queue| ensures queue[i].id != queue[j].id {
      DistinctHeard(s, i, j);
    }
  }

  lemma DistinctHeard(s: Screen, i: nat, j: nat)
    requires DistinctIds(s.table) && s.pending <= |s.table| && i < |HeardOf(s)| && j < |HeardOf(s)| && i != j
    ensures HeardOf(s)[i].id != HeardOf(s)[j].id
  {
    assert s.table[s.pending + i].id != s.table[s.pending + j].id;
  }

  lemma AllShown(rows: seq<Row>, queue: seq<Row>, max: nat)
    requires DistinctIds(queue) && NoneShown(queue, rows) && |queue| <= max
    ensures forall i :: 0 <= i < |queue| ==> Shows(Resumed(rows, queue, max), queue[i].id)
  {
    ResumedStartsReversed(rows, queue, max);
    forall i | 0 <= i < |queue| ensures Shows(Resumed(rows, queue, max), queue[i].id) {
      assert Resumed(rows, queue, max)[|queue| - 1 - i] == queue[i];
    }
  }

  /** No queued call is lost exactly when there was none, or nothing marked the
      component at the click; otherwise every one is. */
  lemma ResumeKeepsTheQueueIff(s: Screen)
    requires Sound(s) && Enabled(s, Resume)
    ensures var queue, v := s.view.refs.queue, Resuming(s).view;
            && v.refs.queue == []
            && ((forall i :: 0 <= i < |queue| ==> Shows(v.seen.rows, queue[i].id)) <==> queue == [] || !s.view.marked)
            && (s.view.marked ==> NoneShown(queue, v.seen.rows))
  {
    var queue := s.view.refs.queue;
    if s.view.marked {
      ResumeTooLate(s);
      QueuedIsNotDrawn(s, Flushed(s.view).rows);
      assert queue != [] ==> !Shows(Resuming(s).view.seen.rows, queue[0].id);
    } else {
      ResumeAtOnce(s);
      QueuedIsNotDrawn(s, s.view.seen.rows);
      AllShown(s.view.seen.rows, queue, CapOf(s.view.refs));
    }
  }

  /** When it is merged, the board comes back in order exactly when at most one
      call was waiting. */
  lemma ResumeKeepsOrderIff(s: Screen)
    requires Sound(s) && Enabled(s, Resume) && !s.view.marked && Descending(s.view.seen.rows)
    ensures Descending(Resuming(s).view.seen.rows) <==> |s.view.refs.queue| <= 1
  {
    var queue, rows, max := s.view.refs.queue, s.view.seen.rows, CapOf(s.view.refs);
    ResumeAtOnce(s);
    QueuedIsNotDrawn(s, rows);
    ResumedStartsReversed(rows, queue, max);
    if |queue| > 1 {
      var back := Resumed(rows, queue, max);
      assert back[0] == queue[|queue| - 1] && back[1] == queue[|queue| - 2];
      assert HeardOf(s)[|queue| - 1] == queue[|queue| - 1] && HeardOf(s)[|queue| - 2] == queue[|queue| - 2];
      assert Newer(s.table[s.pending + |queue| - 2], s.table[s.pending + |queue| - 1]);
    } else if |queue| == 1 {
      assert queue[..0] == [] && Resumed(rows, queue[..0], max) == rows;
      MergeKeepsOrderIff(rows, queue[0], max);
      assert rows != [] ==> OnBoard(s, rows[0]);
    }
  }

  // ── Whether it is, over runs ────────────────────────────────────────────

  /** Nothing around the board causes it to render. */
  predicate OwnRenders(s: Screen, acts: seq<Act>)
    requires CanRun(s, acts)
    decreases |acts|
  {
    acts == [] || ((acts[0].Render? ==> s.view.updates != []) && OwnRenders(Next(s, acts[0]), acts[1..]))
  }

  lemma {:induction false} PausedIsMarked(s: Screen, acts: seq<Act>)
    requires (s.view.seen.paused ==> s.view.marked) && CanRun(s, acts) && OwnRenders(s, acts)
    ensures Run(s, acts).view.seen.paused ==> Run(s, acts).view.marked
    decreases |acts|
  {
    if acts != [] {
      PausedIsMarked(Next(s, acts[0]), acts[1..]);
    }
  }

  /** In every run from an opened page, the calls heard of while it was paused are
      kept by a resume exactly when some render since the last update was for the
      page around the board; and if every render is the board's own, no resume
      keeps any. */
  lemma ResumesOfEveryRun(table: seq<Row>, acts: seq<Act>)
    requires Descending(table) && DistinctIds(table) && |table| <= MAX_SAFE
    requires CanRun(Opened(table), acts) && Enabled(Run(Opened(table), acts), Resume)
    ensures var s := Run(Opened(table), acts);
            var queue, v := s.view.refs.queue, Resuming(s).view;
            && v.refs.queue == []
            && ((forall i :: 0 <= i < |queue| ==> Shows(v.seen.rows, queue[i].id)) <==> queue == [] || !s.view.marked)
            && (OwnRenders(Opened(table), acts) ==> NoneShown(queue, v.seen.rows))
  {
    OpenedIsSound(table);
    RunKeepsSound(Opened(table), acts);
    ResumeKeepsTheQueueIff(Run(Opened(table), acts));
    if OwnRenders(Opened(table), acts) {
      PausedIsMarked(Opened(table), acts);
    }
  }

  lemma Then(s: Screen, a: Act, rest: seq<Act>)
    requires Enabled(s, a) && CanRun(Next(s, a), rest)
    ensures CanRun(s, [a] + rest) && Run(s, [a] + rest) == Run(Next(s, a), rest)
    ensures OwnRenders(Next(s, a), rest) && (a.Render? ==> s.view.updates != []) ==> OwnRenders(s, [a] + rest)
  {
    assert ([a] + rest)[1..] == rest;
  }

  function PausedFor(row: Row): seq<Act> {
    [Pause] + ([Render] + ([Recorded(row)] + ([Heard] + ([Render] + []))))
  }

  /** Paused and drawn, with this queue waiting. */
  predicate Waiting(s: Screen, table: seq<Row>, queue: seq<Row>) {
    && s.table == queue + table && s.pending == 0
    && s.view.seen.paused && s.view.refs.pausedRef && s.view.refs.queue == queue
    && s.view.seen.rows == Take(table, MAX_ROWS)
    && s.view.updates == [] && !s.view.clicked
  }

  lemma QueuedForOne(s: Screen, row: Row)
    requires Enabled(s, Recorded(row)) && s.pending == 0 && s.view.updates == [] && s.view.marked && !s.view.clicked
    requires s.view.refs.pausedRef && s.view.seen.paused && s.view.refs.queue == []
    ensures var acts := [Recorded(row)] + ([Heard] + ([Render] + []));
            && CanRun(s, acts) && OwnRenders(s, acts)
            && Run(s, acts) == s.(table := [row] + s.table,
                                  view := s.view.(seen := s.view.seen.(queued := 1), refs := s.view.refs.(queue := [row])))
  {
    var recorded := Next(s, Recorded(row));
    var heard := Next(recorded, Heard);
    var drawn := Next(heard, Render);
    assert recorded.table[0] == row;
    RowQueued(recorded, row);
    assert Take([row] + [], MAX_ROWS) == [row];
    assert Run(drawn, []) == drawn && CanRun(drawn, []) && OwnRenders(drawn, []);
    Then(heard, Render, []);
    Then(recorded, Heard, [Render] + []);
    Then(s, Recorded(row), [Heard] + ([Render] + []));
  }

  lemma PausedForOne(table: seq<Row>, row: Row)
    requires |table| <= MAX_SAFE && Enabled(Opened(table), Recorded(row))
    ensures CanRun(Opened(table), PausedFor(row)) && OwnRenders(Opened(table), PausedFor(row))
    ensures var s := Run(Opened(table), PausedFor(row)); Waiting(s, table, [row]) && s.view.marked
  {
    var start := Opened(table);
    var clicked := Next(start, Pause);
    var paused := Next(clicked, Render);
    PauseDrawn(start);
    QueuedForOne(paused, row);
    Then(clicked, Render, [Recorded(row)] + ([Heard] + ([Render] + [])));
    Then(start, Pause, [Render] + ([Recorded(row)] + ([Heard] + ([Render] + []))));
  }

  /** A page that pauses for one call and resumes loses it. */
  lemma PauseLosesACall(table: seq<Row>, row: Row)
    requires Descending(table) && DistinctIds(table) && |table| <= MAX_SAFE
    requires Enabled(Opened(table), Recorded(row))
    ensures CanRun(Opened(table), PausedFor(row)) && OwnRenders(Opened(table), PausedFor(row))
    ensures var s := Run(Opened(table), PausedFor(row));
            && s.view.refs.queue == [row] && Enabled(s, Resume)
            && !Shows(Resuming(s).view.seen.rows, row.id) && Resuming(s).view.refs.queue == []
  {
    PausedForOne(table, row);
    ResumesOfEveryRun(table, PausedFor(row));
  }

  /** A pause from a page with nothing queued or marked. */
  lemma PauseDrawn(s: Screen)
    requires Enabled(s, Pause) && s.view.updates == [] && !s.view.marked
    ensures Next(s, Pause).view.updates != []
    ensures var v := Next(Next(s, Pause), Render).view;
            v == s.view.(seen := s.view.seen.(paused := true), marked := true, clicked := false,
                         refs := s.view.refs.(pausedRef := true))
  {
    SetRuns(s.view, Pausing(true));
  }

  lemma CountDrawn(v: View, n: nat)
    requires v.marked && v.updates == []
    ensures Set(v, Counted(n)).updates != []
    ensures OnRender(Set(v, Counted(n))) ==
            v.(seen := v.seen.(queued := n), clicked := false, refs := v.refs.(pausedRef := v.seen.paused))
  {
    SetRuns(v, Counted(n));
  }

  lemma QueuedByOne(v: View, row: Row)
    requires v.marked && v.updates == [] && v.refs.pausedRef && v.seen.paused && !Shows(v.refs.queue, row.id)
    ensures OnInsert(v, row).updates != []
    ensures var queue := Take([row] + v.refs.queue, MAX_ROWS);
            OnRender(OnInsert(v, row)) ==
            v.(seen := v.seen.(queued := |queue|), refs := v.refs.(queue := queue), clicked := false)
  {
    var queue := Take([row] + v.refs.queue, MAX_ROWS);
    CountDrawn(v.(refs := v.refs.(queue := queue)), |queue|);
  }

  /** A call heard of while paused, and drawn as a count. */
  lemma RowQueued(s: Screen, row: Row)
    requires Enabled(s, Heard) && s.table[s.pending - 1] == row && s.view.updates == [] && s.view.marked
    requires s.view.refs.pausedRef && s.view.seen.paused && !Shows(s.view.refs.queue, row.id)
    ensures Next(s, Heard).view.updates != []
    ensures var v, queue := Next(Next(s, Heard), Render).view, Take([row] + s.view.refs.queue, MAX_ROWS);
            v == s.view.(seen := s.view.seen.(queued := |queue|), refs := s.view.refs.(queue := queue), clicked := false)
  {
    QueuedByOne(s.view, row);
  }

  lemma OneAct(s: Screen, a: Act)
    requires Enabled(s, a)
    ensures CanRun(s, [a]) && Run(s, [a]) == Next(s, a)
  {
    var rest := [a][1..];
    assert rest == [];
    assert CanRun(Next(s, a), rest) && Run(Next(s, a), rest) == Next(s, a);
  }

  /** Once the page around it has rendered as well, nothing marks the board and the
      call is kept. */
  lemma PageRenderKeepsIt(table: seq<Row>, row: Row)
    requires Descending(table) && DistinctIds(table) && |table| <= MAX_SAFE
    requires Enabled(Opened(table), Recorded(row))
    ensures CanRun(Opened(table), PausedFor(row) + [Render])
    ensures var s := Run(Opened(table), PausedFor(row) + [Render]);
            Enabled(s, Resume) && s.view.refs.queue == [row] && Shows(Resuming(s).view.seen.rows, row.id)
  {
    PausedForOne(table, row);
    var s := Run(Opened(table), PausedFor(row));
    OneAct(s, Render);
    RunConcat(Opened(table), PausedFor(row), [Render]);
    ResumesOfEveryRun(table, PausedFor(row) + [Render]);
  }

  function OneMore(row: Row): seq<Act> {
    [Recorded(row)] + ([Heard] + ([Render] + [Render]))
  }

  lemma OneMoreQueued(s: Screen, table: seq<Row>, queue: seq<Row>, row: Row)
    requires Waiting(s, table, queue) && s.view.marked && Enabled(s, Recorded(row)) && |queue| < MAX_ROWS
    ensures CanRun(s, OneMore(row))
    ensures var t := Run(s, OneMore(row)); Waiting(t, table, [row] + queue) && !t.view.marked
  {
    var s1 := Next(s, Recorded(row));
    var s2 := Next(s1, Heard);
    var s3 := Next(s2, Render);
    forall i | 0 <= i < |queue| ensures queue[i].id != row.id {
      assert s.table[i] == queue[i];
    }
    RowQueued(s1, row);
    assert [row] + s.table == ([row] + queue) + table;
    OneAct(s3, Render);
    Then(s2, Render, [Render]);
    Then(s1, Heard, [Render] + [Render]);
    Then(s, Recorded(row), [Heard] + ([Render] + [Render]));
  }

  /** And two calls kept so come back oldest first. */
  lemma TwoComeBackReversed(table: seq<Row>, row: Row, later: Row)
    requires Descending(table) && DistinctIds(table) && |table| <= MAX_SAFE
    requires Enabled(Opened(table), Recorded(row)) && Enabled(Opened([row] + table), Recorded(later))
    ensures var acts := PausedFor(row) + OneMore(later);
            && CanRun(Opened(table), acts) && Enabled(Run(Opened(table), acts), Resume)
            && Descending(Run(Opened(table), acts).view.seen.rows)
            && !Descending(Resuming(Run(Opened(table), acts)).view.seen.rows)
  {
    PausedForOne(table, row);
    var s := Run(Opened(table), PausedFor(row));
    OneMoreQueued(s, table, [row], later);
    RunConcat(Opened(table), PausedFor(row), OneMore(later));
    OpenedIsSound(table);
    RunKeepsSound(Opened(table), PausedFor(row) + OneMore(later));
    ResumeKeepsOrderIff(Run(Opened(table), PausedFor(row) + OneMore(later)));
  }

  lemma {:induction false} RunConcat(s: Screen, a: seq<Act>, b: seq<Act>)
    requires CanRun(s, a) && CanRun(Run(s, a), b)
    ensures CanRun(s, a + b) && Run(s, a + b) == Run(Run(s, a), b)
    decreases |a|
  {
    if a == [] {
      assert a + b == b;
    } else {
      assert (a + b)[1..] == a[1..] + b;
      RunConcat(Next(s, a[0]), a[1..], b);
    }
  }

  // ── The count and the spinner ───────────────────────────────────────────

  /** Once everything queued has run, the count is how many calls wait and the
      spinner is on exactly while a load is out. */
  predicate CountsRight(v: View) {
    && (!v.marked ==> v.updates == [])
    && Flushed(v).queued == |v.refs.queue|
    && (Flushed(v).loading <==> v.cursor.Some?)
  }

  lemma SetCounts(v: View, u: Update)
    requires !v.marked ==> v.updates == []
    ensures var w := Set(v, u);
            && (!w.marked ==> w.updates == []) && w.refs == v.refs && w.cursor == v.cursor
            && Flushed(w).queued == Applied(Flushed(v), v.refs, u).queued
            && (Flushed(w).loading <==> Applied(Flushed(v), v.refs, u).loading)
  {
    SetRuns(v, u);
  }

  lemma WithRefs(v: View, refs: Refs, cursor: Option<Row>)
    ensures var w := v.(refs := refs, cursor := cursor);
            Flushed(w).queued == Flushed(v).queued && Flushed(w).loading == Flushed(v).loading
  {
    RefsOnlyChangeRows(v.seen, v.refs, refs, v.updates);
  }

  lemma InsertCounts(v: View, row: Row)
    requires CountsRight(v)
    ensures CountsRight(OnInsert(v, row))
  {
    if v.refs.pausedRef {
      var queue := MergeDeparture(v.refs.queue, row, MAX_ROWS);
      WithRefs(v, v.refs.(queue := queue), v.cursor);
      SetCounts(v.(refs := v.refs.(queue := queue)), Counted(|queue|));
    } else {
      SetCounts(v, MergeRow(row));
    }
  }

  lemma CountedCounts(v: View, n: nat)
    requires !v.marked ==> v.updates == []
    requires n == |v.refs.queue| && (Flushed(v).loading <==> v.cursor.Some?)
    ensures CountsRight(Set(v, Counted(n)))
  {
    SetCounts(v, Counted(n));
  }

  lemma PausingCounts(v: View, paused: bool)
    requires CountsRight(v)
    ensures CountsRight(Set(v, Pausing(paused)))
  {
    SetCounts(v, Pausing(paused));
  }

  lemma ResumeCounts(v: View)
    requires CountsRight(v)
    ensures CountsRight(OnResume(v))
  {
    var merging, emptied := Set(v, MergeQueue), v.refs.(queue := []);
    SetCounts(v, MergeQueue);
    WithRefs(merging, emptied, v.cursor);
    CountedCounts(merging.(refs := emptied), 0);
    PausingCounts(Set(merging.(refs := emptied), Counted(0)), false);
  }

  lemma LoadCounts(v: View, data: seq<Row>)
    requires CountsRight(v)
    ensures v.seen.rows != [] ==> CountsRight(OnAsk(v))
    ensures CountsRight(OnLoaded(v, data)) && CountsRight(OnFailed(v))
  {
    if v.seen.rows != [] {
      var last := Some(v.seen.rows[|v.seen.rows| - 1]);
      WithRefs(v, v.refs, last);
      SetCounts(v.(cursor := last), Loading(true));
    }
    WithRefs(v, v.refs.(historyLoaded := true), None);
    SetCounts(v.(refs := v.refs.(historyLoaded := true), cursor := None), Append(Take(data, PAGE_ROWS), |data| > PAGE_ROWS));
    WithRefs(v, v.refs, None);
    SetCounts(v.(cursor := None), Loading(false));
  }

  lemma StepCounts(s: Screen, a: Act)
    requires CountsRight(s.view) && Enabled(s, a)
    ensures CountsRight(Next(s, a).view)
  {
    match a
    case Heard => InsertCounts(s.view, s.table[s.pending - 1]);
    case Pause => PausingCounts(s.view, true);
    case Resume => ResumeCounts(s.view);
    case Ask => LoadCounts(s.view, []);
    case Loaded => LoadCounts(s.view, s.answer.value);
    case Failed => LoadCounts(s.view, []);
    case _ =>
  }

  lemma {:induction false} RunCounts(s: Screen, acts: seq<Act>)
    requires CountsRight(s.view) && CanRun(s, acts)
    ensures CountsRight(Run(s, acts).view)
    decreases |acts|
  {
    if acts != [] {
      StepCounts(s, acts[0]);
      RunCounts(Next(s, acts[0]), acts[1..]);
    }
  }

  /** In every run, each render draws the number of calls that wait, and a spinner
      exactly while a load is out. */
  lemma CountIsTheQueue(table: seq<Row>, acts: seq<Act>)
    requires CanRun(Opened(table), acts)
    ensures var t := Run(Opened(table), acts);
            && OnRender(t.view).seen.queued == |t.view.refs.queue|
            && (OnRender(t.view).seen.loading <==> t.view.cursor.Some?)
  {
    RunCounts(Opened(table), acts);
  }
}
