/** The board as React runs it keeps to DeparturesBoard: there a call is delivered
    when the updater that merges it has run, at the call or in a render. */
module DeparturesRefinement {
  import opened Lists
  import opened B = DeparturesBoard
  import opened S = DeparturesScreen

  /** The calls queued for a render, newest first. */
  function Awaiting(updates: seq<Update>): seq<Row> {
    if updates == [] then []
    else
      var early, u := Awaiting(updates[..|updates| - 1]), updates[|updates| - 1];
      if u.Computed? then [] else if u.MergeRow? then [u.row] + early else early
  }

  /** The rows without them. */
  function Base(rows: seq<Row>, updates: seq<Update>): seq<Row> {
    if updates == [] then rows
    else
      var early, u := Base(rows, updates[..|updates| - 1]), updates[|updates| - 1];
      if u.Computed? then u.seen.rows else if u.Append? then early + Fresh(early, u.page) else early
  }

  function Abstract(s: Screen): Board {
    Board(s.table, s.pending + |Awaiting(s.view.updates)|, Base(s.view.seen.rows, s.view.updates),
          Flushed(s.view).hasOlder, s.view.refs.historyLoaded,
          if s.view.cursor.Some? then Some(Request(s.view.cursor.value, s.answer)) else None)
  }

  /** The foot as drawn is the board's last row, or one the cap has taken off. */
  ghost predicate Foot(b: Board, drawn: seq<Row>) {
    drawn != [] ==>
      b.rows != [] && exists at: nat :: AtFoot(b, at) && Delivered(b)[at] == drawn[|drawn| - 1]
  }

  predicate NoAppend(updates: seq<Update>) {
    forall i :: 0 <= i < |updates| ==> !updates[i].Append?
  }

  ghost predicate Live(s: Screen) {
    && (!s.view.marked ==> s.view.updates == []) && s.view.refs.queue == []
    && s.pending <= |s.table| && Awaiting(s.view.updates) <= HeardOf(s)
    && B.Inv(Abstract(s))
    && Linked(s)
  }

  /** What it says beside the board itself. */
  ghost predicate Linked(s: Screen) {
    && (s.view.cursor.Some? ==> Flushed(s.view).loading && (s.view.clicked || s.view.seen.loading))
    && (!s.view.seen.loading ==> Flushed(s.view).hasOlder == s.view.seen.hasOlder && Foot(Abstract(s), s.view.seen.rows))
    && (!s.view.refs.historyLoaded ==> NoAppend(s.view.updates))
  }

  lemma Snoc(rows: seq<Row>, updates: seq<Update>, u: Update)
    ensures Awaiting(updates + [u]) ==
            if u.Computed? then [] else if u.MergeRow? then [u.row] + Awaiting(updates) else Awaiting(updates)
    ensures Base(rows, updates + [u]) ==
            if u.Computed? then u.seen.rows
            else if u.Append? then Base(rows, updates) + Fresh(Base(rows, updates), u.page)
            else Base(rows, updates)
  {
    assert (updates + [u])[..|updates|] == updates;
  }

  predicate SameBoard(v: View, w: View) {
    && w.seen == v.seen && w.refs.historyLoaded == v.refs.historyLoaded
    && Awaiting(w.updates) == Awaiting(v.updates) && Base(w.seen.rows, w.updates) == Base(v.seen.rows, v.updates)
    && Flushed(w).hasOlder == Flushed(v).hasOlder
    && (NoAppend(v.updates) ==> NoAppend(w.updates))
  }

  /** A setter that is about no rows leaves them. */
  lemma SetLeaves(v: View, u: Update)
    requires !v.marked ==> v.updates == []
    requires u.Pausing? || u.Counted? || u.Loading? || (u.MergeQueue? && v.refs.queue == [])
    ensures SameBoard(v, Set(v, u)) && Set(v, u).refs == v.refs
    ensures !Set(v, u).marked ==> Set(v, u).updates == []
    ensures Flushed(Set(v, u)).loading == if u.Loading? then u.loading else Flushed(v).loading
  {
    SetRuns(v, u);
    if v.marked {
      Snoc(v.seen.rows, v.updates, u);
    } else if !SameValue(v.seen, v.refs, u) {
      Snoc(v.seen.rows, v.updates, Computed(Applied(v.seen, v.refs, u)));
    }
  }

  lemma ResumeLeaves(v: View)
    requires (!v.marked ==> v.updates == []) && v.refs.queue == []
    ensures SameBoard(v, OnResume(v)) && OnResume(v).refs == v.refs && Flushed(OnResume(v)).loading == Flushed(v).loading
    ensures !OnResume(v).marked ==> OnResume(v).updates == []
  {
    var merged := Set(v, MergeQueue);
    SetLeaves(v, MergeQueue);
    assert merged.(refs := v.refs.(queue := [])) == merged;
    SetLeaves(merged, Counted(0));
    SetLeaves(Set(merged, Counted(0)), Pausing(false));
  }

  lemma SetAppends(v: View, page: seq<Row>, more: bool)
    requires !v.marked ==> v.updates == []
    ensures var w := Set(v, Append(page, more));
            && Awaiting(w.updates) == Awaiting(v.updates)
            && Base(w.seen.rows, w.updates) ==
               Base(v.seen.rows, v.updates) + Fresh(Base(v.seen.rows, v.updates), page)
            && Flushed(w).hasOlder == more && !Flushed(w).loading && (!w.marked ==> w.updates == [])
  {
    SetRuns(v, Append(page, more));
    if v.marked {
      Snoc(v.seen.rows, v.updates, Append(page, more));
    } else {
      Snoc(v.seen.rows, v.updates, Computed(Applied(v.seen, v.refs, Append(page, more))));
    }
  }

  lemma SetMerges(v: View, row: Row)
    requires !v.marked ==> v.updates == []
    ensures var w := Set(v, MergeRow(row));
            && w.marked
            && (v.marked ==>
                  Awaiting(w.updates) == [row] + Awaiting(v.updates)
                  && Base(w.seen.rows, w.updates) == Base(v.seen.rows, v.updates))
            && (!v.marked ==>
                  Awaiting(w.updates) == []
                  && Base(w.seen.rows, w.updates) == MergeDeparture(v.seen.rows, row, CapOf(v.refs)))
            && (NoAppend(v.updates) ==> NoAppend(w.updates))
            && Flushed(w).hasOlder == Flushed(v).hasOlder && Flushed(w).loading == Flushed(v).loading
  {
    SetRuns(v, MergeRow(row));
    if v.marked {
      Snoc(v.seen.rows, v.updates, MergeRow(row));
    } else {
      Snoc(v.seen.rows, v.updates, Computed(Applied(v.seen, v.refs, MergeRow(row))));
    }
  }

  // ── What a render draws ─────────────────────────────────────────────────

  predicate Fits(rows: seq<Row>, waiting: seq<Row>, refs: Refs) {
    |rows| <= CapOf(refs) && (refs.historyLoaded ==> |waiting| + |rows| <= MAX_SAFE)
  }

  lemma FreshIgnores(waiting: seq<Row>, rows: seq<Row>, page: seq<Row>)
    requires DistinctIds(waiting + (rows + Fresh(rows, page)))
    ensures Fresh(waiting + rows, page) == Fresh(rows, page)
  {
    var news := Fresh(rows, page);
    var all := waiting + (rows + news);
    forall x | x in page ensures !Shows(waiting + rows, x.id) <==> !Shows(rows, x.id) {
      if Shows(rows, x.id) {
        var i :| 0 <= i < |rows| && rows[i].id == x.id;
        assert (waiting + rows)[|waiting| + i] == rows[i];
      } else {
        assert x in news;
        var k :| 0 <= k < |news| && news[k] == x;
        assert all[|waiting| + |rows| + k] == x;
        forall i | 0 <= i < |waiting + rows| ensures (waiting + rows)[i].id != x.id {
          assert (waiting + rows)[i] == all[i];
        }
      }
    }
    KeepSame(page, (r: Row) => !Shows(waiting + rows, r.id), (r: Row) => !Shows(rows, r.id));
  }

  lemma DistinctInit(waiting: seq<Row>, rows: seq<Row>, more: seq<Row>)
    requires DistinctIds(waiting + (rows + more))
    ensures DistinctIds(waiting + rows)
  {
    var all, fewer := waiting + (rows + more), waiting + rows;
    assert forall i :: 0 <= i < |fewer| ==> fewer[i] == all[i];
  }

  lemma DistinctTail(row: Row, rows: seq<Row>)
    requires DistinctIds([row] + rows)
    ensures DistinctIds(rows) && !Shows(rows, row.id)
  {
    var all := [row] + rows;
    forall i, j | 0 <= i < j < |rows| ensures rows[i].id != rows[j].id {
      assert all[i + 1].id != all[j + 1].id;
    }
    forall i | 0 <= i < |rows| ensures rows[i].id != row.id {
      assert all[0].id != all[i + 1].id;
    }
  }

  lemma MergeOntoCut(row: Row, rows: seq<Row>, max: nat)
    requires !Shows(rows, row.id) && max > 0
    ensures MergeDeparture(Take(rows, max), row, max) == Take([row] + rows, max)
  {
    var cut := Take(rows, max);
    assert forall i :: 0 <= i < |cut| ==> cut[i] == rows[i];
    assert Take([row] + cut, max) == Take([row] + rows, max);
  }

  /** What is queued lands in front of the rest, whatever the order of the
      updates, under the cap as it is then. */
  lemma {:induction false} RenderDraws(seen: Seen, refs: Refs, updates: seq<Update>)
    requires refs.queue == [] && (!refs.historyLoaded ==> NoAppend(updates))
    requires DistinctIds(Awaiting(updates) + Base(seen.rows, updates))
    requires Fits(Base(seen.rows, updates), Awaiting(updates), refs)
    ensures AppliedAll(seen, refs, updates).rows == Take(Awaiting(updates) + Base(seen.rows, updates), CapOf(refs))
  {
    if updates == [] {
      assert Awaiting(updates) + seen.rows == seen.rows;
    } else {
      var init, u := updates[..|updates| - 1], updates[|updates| - 1];
      var waiting, rows := Awaiting(init), Base(seen.rows, init);
      match u
      case Computed(value) => assert Awaiting(updates) + value.rows == value.rows;
      case MergeRow(row) =>
        Regroup([row], waiting, rows);
        DistinctTail(row, waiting + rows);
        RenderDraws(seen, refs, init);
        MergeOntoCut(row, waiting + rows, CapOf(refs));
      case Append(page, _) =>
        assert !NoAppend(updates);
        DistinctInit(waiting, rows, Fresh(rows, page));
        RenderDraws(seen, refs, init);
        FreshIgnores(waiting, rows, page);
        Regroup(waiting, rows, Fresh(rows, page));
      case _ => RenderDraws(seen, refs, init);
    }
  }

  // ── Step by step ────────────────────────────────────────────────────────

  lemma FootStays(b: Board, c: Board, drawn: seq<Row>)
    requires Foot(b, drawn) && c.rows == b.rows && Delivered(c) == Delivered(b) && c.historyLoaded == b.historyLoaded
    ensures Foot(c, drawn)
  {
    if drawn != [] {
      var at: nat :| AtFoot(b, at) && Delivered(b)[at] == drawn[|drawn| - 1];
      assert AtFoot(c, at);
    }
  }

  lemma FootMoves(b: Board, drawn: seq<Row>)
    requires B.Inv(b) && B.Enabled(b, Deliver) && Foot(b, drawn)
    ensures Foot(B.Next(b, Deliver), drawn)
  {
    if drawn != [] {
      var at: nat :| AtFoot(b, at) && Delivered(b)[at] == drawn[|drawn| - 1];
      RowsStayPrefix(b);
      FootMovesBy(b, B.Next(b, Deliver), drawn, at);
    }
  }

  lemma FootMovesBy(b: Board, c: Board, drawn: seq<Row>, at: nat)
    requires drawn != [] && b.rows != [] && AtFoot(b, at) && Delivered(b)[at] == drawn[|drawn| - 1]
    requires 0 < b.pending <= |b.table| && c.table == b.table && c.pending == b.pending - 1
    requires c.historyLoaded == b.historyLoaded && |b.rows| <= |Delivered(b)| <= |b.table| <= MAX_SAFE
    requires c.rows == Take([b.table[b.pending - 1]] + b.rows, Cap(b))
    ensures Foot(c, drawn)
  {
    assert Delivered(c) == [b.table[b.pending - 1]] + Delivered(b);
    assert AtFoot(c, at + 1);
  }

  lemma SameAbstract(s: Screen, t: Screen)
    requires SameBoard(s.view, t.view)
    requires t.table == s.table && t.pending == s.pending && t.answer == s.answer && t.view.cursor == s.view.cursor
    ensures Abstract(t) == Abstract(s)
  {
  }

  lemma LinkedAlone(s: Screen, t: Screen)
    requires Linked(s) && SameBoard(s.view, t.view) && Abstract(t) == Abstract(s) && t.view.cursor == s.view.cursor
    requires Flushed(t.view).loading == Flushed(s.view).loading && (s.view.clicked ==> t.view.clicked)
    ensures Linked(t)
  {
  }

  lemma LeftAlone(s: Screen, t: Screen)
    requires Live(s) && t.view.refs.queue == [] && SameBoard(s.view, t.view)
    requires !t.view.marked ==> t.view.updates == []
    requires t.table == s.table && t.pending == s.pending && t.answer == s.answer && t.view.cursor == s.view.cursor
    requires Flushed(t.view).loading == Flushed(s.view).loading && (s.view.clicked ==> t.view.clicked)
    ensures Live(t) && Abstract(t) == Abstract(s)
  {
    SameAbstract(s, t);
    LinkedAlone(s, t);
    LiveIs(t);
  }

  lemma RecordedIsInsert(s: Screen, row: Row)
    requires S.Enabled(s, Recorded(row)) && s.pending + |Awaiting(s.view.updates)| <= |s.table|
    ensures var t := S.Next(s, Recorded(row));
            && B.Enabled(Abstract(s), Insert(row)) && Abstract(t) == B.Next(Abstract(s), Insert(row))
            && (s.pending <= |s.table| ==> HeardOf(t) == HeardOf(s)) && Delivered(Abstract(t)) == Delivered(Abstract(s))
  {
    assert ([row] + s.table)[s.pending + 1..] == s.table[s.pending..];
  }

  lemma RecordedStays(s: Screen, row: Row)
    requires Live(s) && S.Enabled(s, Recorded(row))
    ensures Live(S.Next(s, Recorded(row)))
  {
    var t := S.Next(s, Recorded(row));
    RecordedIsInsert(s, row);
    B.StepKeepsInv(Abstract(s), Insert(row));
    if !t.view.seen.loading {
      FootStays(Abstract(s), Abstract(t), s.view.seen.rows);
    }
  }

  lemma HeardLater(s: Screen)
    requires S.Enabled(s, Heard) && !s.view.refs.pausedRef && s.view.marked
    ensures var t, row := S.Next(s, Heard), s.table[s.pending - 1];
            && Abstract(t) == Abstract(s) && t.view.seen == s.view.seen
            && Awaiting(t.view.updates) == [row] + Awaiting(s.view.updates)
            && HeardOf(t) == [row] + HeardOf(s)
            && Flushed(t.view).loading == Flushed(s.view).loading && Flushed(t.view).hasOlder == Flushed(s.view).hasOlder
            && (NoAppend(s.view.updates) ==> NoAppend(t.view.updates))
  {
    SetMerges(s.view, s.table[s.pending - 1]);
  }

  lemma HeardLaterStays(s: Screen)
    requires Live(s) && S.Enabled(s, Heard) && !s.view.refs.pausedRef && s.view.marked
    ensures Live(S.Next(s, Heard)) && Abstract(S.Next(s, Heard)) == Abstract(s)
  {
    HeardLater(s);
  }

  lemma NothingAwaits(s: Screen)
    requires s.view.updates == []
    ensures Awaiting(s.view.updates) == [] && Abstract(s).rows == s.view.seen.rows && Abstract(s).pending == s.pending
  {
  }

  lemma InsertedAtOnce(v: View, row: Row)
    requires !v.refs.pausedRef && !v.marked && v.updates == []
    ensures var w := OnInsert(v, row);
            && w.marked && w.seen == v.seen && w.refs == v.refs && w.cursor == v.cursor
            && Awaiting(w.updates) == [] && NoAppend(w.updates)
            && Base(w.seen.rows, w.updates) == MergeDeparture(v.seen.rows, row, CapOf(v.refs))
            && Flushed(w).loading == Flushed(v).loading && Flushed(w).hasOlder == Flushed(v).hasOlder
  {
    SetMerges(v, row);
  }

  lemma HeardAtOnce(s: Screen)
    requires S.Enabled(s, Heard) && !s.view.refs.pausedRef && !s.view.marked && s.view.updates == []
    ensures var t, row := S.Next(s, Heard), s.table[s.pending - 1];
            && B.Enabled(Abstract(s), Deliver) && Abstract(t) == B.Next(Abstract(s), Deliver)
            && Awaiting(t.view.updates) == [] && t.view.seen == s.view.seen
            && HeardOf(t) == [row] + HeardOf(s)
            && Flushed(t.view).loading == Flushed(s.view).loading && Flushed(t.view).hasOlder == Flushed(s.view).hasOlder
            && NoAppend(t.view.updates) && t.view.marked
  {
    NothingAwaits(s);
    InsertedAtOnce(s.view, s.table[s.pending - 1]);
    OneMoreHeard(s.table, s.pending);
  }

  lemma HeardAtOnceStays(s: Screen)
    requires Live(s) && S.Enabled(s, Heard) && !s.view.refs.pausedRef && !s.view.marked
    ensures Live(S.Next(s, Heard))
  {
    HeardAtOnce(s);
    B.StepKeepsInv(Abstract(s), Deliver);
    if !s.view.seen.loading {
      FootMoves(Abstract(s), s.view.seen.rows);
    }
  }

  lemma PauseStays(s: Screen)
    requires Live(s) && S.Enabled(s, Pause)
    ensures Live(S.Next(s, Pause)) && Abstract(S.Next(s, Pause)) == Abstract(s)
  {
    SetLeaves(s.view, Pausing(true));
    LeftAlone(s, S.Next(s, Pause));
  }

  lemma ResumeStays(s: Screen)
    requires Live(s) && S.Enabled(s, Resume)
    ensures Live(S.Next(s, Resume)) && Abstract(S.Next(s, Resume)) == Abstract(s)
  {
    ResumeLeaves(s.view);
    ResumeTouches(s.view);
    LeftAlone(s, S.Next(s, Resume));
  }

  lemma ResumeTouches(v: View)
    ensures OnResume(v).cursor == v.cursor && OnResume(v).clicked
  {
  }

  lemma AskIsBegin(s: Screen, at: nat)
    requires S.Enabled(s, Ask) && (!s.view.marked ==> s.view.updates == []) && s.view.cursor == None
    requires Flushed(s.view).hasOlder && AtFoot(Abstract(s), at) && Abstract(s).rows != []
    requires var drawn := s.view.seen.rows; Delivered(Abstract(s))[at] == drawn[|drawn| - 1]
    ensures var t := S.Next(s, Ask);
            && B.Enabled(Abstract(s), Begin(at)) && Abstract(t) == B.Next(Abstract(s), Begin(at))
            && SameBoard(s.view, t.view) && Flushed(t.view).loading && (!t.view.marked ==> t.view.updates == [])
  {
    var drawn := s.view.seen.rows;
    SetLeaves(s.view.(cursor := Some(drawn[|drawn| - 1])), Loading(true));
  }

  lemma AskLinked(s: Screen, t: Screen)
    requires Linked(s) && SameBoard(s.view, t.view) && Flushed(t.view).loading && t.view.clicked
    requires Abstract(t).rows == Abstract(s).rows && Delivered(Abstract(t)) == Delivered(Abstract(s))
    ensures Linked(t)
  {
    if !t.view.seen.loading {
      FootStays(Abstract(s), Abstract(t), s.view.seen.rows);
    }
  }

  lemma LiveIs(s: Screen)
    requires (!s.view.marked ==> s.view.updates == []) && s.view.refs.queue == []
    requires s.pending <= |s.table| && Awaiting(s.view.updates) <= HeardOf(s)
    requires B.Inv(Abstract(s)) && Linked(s)
    ensures Live(s)
  {
  }

  lemma AskKeepsInv(s: Screen, at: nat)
    requires B.Inv(Abstract(s)) && S.Enabled(s, Ask) && B.Enabled(Abstract(s), Begin(at))
    requires Abstract(S.Next(s, Ask)) == B.Next(Abstract(s), Begin(at))
    ensures B.Inv(Abstract(S.Next(s, Ask)))
  {
    BeginKeepsInv(Abstract(s), at);
  }

  lemma AskTouches(s: Screen)
    requires S.Enabled(s, Ask)
    ensures var t := S.Next(s, Ask);
            t.table == s.table && t.pending == s.pending && t.view.refs == s.view.refs && t.view.clicked
  {
  }

  lemma AskStaysAt(s: Screen, at: nat)
    requires Live(s) && S.Enabled(s, Ask)
    requires AtFoot(Abstract(s), at) && Abstract(s).rows != [] && Flushed(s.view).hasOlder && s.view.cursor == None
    requires var drawn := s.view.seen.rows; Delivered(Abstract(s))[at] == drawn[|drawn| - 1]
    ensures Live(S.Next(s, Ask))
  {
    AskIsBegin(s, at);
    AskKeepsInv(s, at);
    AskTouches(s);
    AskLinked(s, S.Next(s, Ask));
    LiveIs(S.Next(s, Ask));
  }

  lemma FootAt(b: Board, drawn: seq<Row>) returns (at: nat)
    requires Foot(b, drawn) && drawn != []
    ensures b.rows != [] && AtFoot(b, at) && Delivered(b)[at] == drawn[|drawn| - 1]
  {
    at :| AtFoot(b, at) && Delivered(b)[at] == drawn[|drawn| - 1];
  }

  lemma AskStays(s: Screen)
    requires Live(s) && S.Enabled(s, Ask)
    ensures Live(S.Next(s, Ask))
  {
    var at := FootAt(Abstract(s), s.view.seen.rows);
    AskStaysAt(s, at);
  }

  lemma AnsweredStays(s: Screen)
    requires Live(s) && S.Enabled(s, Answered)
    ensures Live(S.Next(s, Answered))
    ensures B.Enabled(Abstract(s), Answer) && Abstract(S.Next(s, Answered)) == B.Next(Abstract(s), Answer)
  {
    var t := S.Next(s, Answered);
    assert Abstract(t) == B.Next(Abstract(s), Answer);
    B.StepKeepsInv(Abstract(s), Answer);
    if !t.view.seen.loading {
      FootStays(Abstract(s), Abstract(t), s.view.seen.rows);
    }
  }

  lemma LoadedView(v: View, data: seq<Row>)
    requires !v.marked ==> v.updates == []
    ensures var w := OnLoaded(v, data);
            && Awaiting(w.updates) == Awaiting(v.updates)
            && Base(w.seen.rows, w.updates) ==
               Base(v.seen.rows, v.updates) + Fresh(Base(v.seen.rows, v.updates), Take(data, PAGE_ROWS))
            && Flushed(w).hasOlder == (|data| > PAGE_ROWS) && !Flushed(w).loading
            && w.seen == v.seen && w.refs == v.refs.(historyLoaded := true) && w.cursor == None
            && (!w.marked ==> w.updates == [])
  {
    var loaded := v.(refs := v.refs.(historyLoaded := true), cursor := None);
    SetAppends(loaded, Take(data, PAGE_ROWS), |data| > PAGE_ROWS);
  }

  /** Finishing a load is the board's own step, whether or not it is whole. */
  lemma LoadedIsFinish(s: Screen)
    requires Live(s) && S.Enabled(s, Loaded)
    ensures B.Enabled(Abstract(s), Finish) && Abstract(S.Next(s, Loaded)) == B.Next(Abstract(s), Finish)
  {
    LoadedView(s.view, s.answer.value);
  }

  lemma LoadedStays(s: Screen)
    requires Live(s) && S.Enabled(s, Loaded) && CursorIsLast(Abstract(s))
    ensures Live(S.Next(s, Loaded))
  {
    LoadedView(s.view, s.answer.value);
    LoadedIsFinish(s);
    B.StepKeepsInv(Abstract(s), Finish);
  }

  lemma FailedStays(s: Screen)
    requires Live(s) && S.Enabled(s, Failed)
    ensures Live(S.Next(s, Failed))
  {
    var t, v := S.Next(s, Failed), s.view.(cursor := None);
    SetLeaves(v, Loading(false));
    SetRuns(v, Loading(false));
    assert Abstract(t) == B.Next(Abstract(s), Fail);
    B.StepKeepsInv(Abstract(s), Fail);
  }

  // ── A render delivers what was queued ───────────────────────────────────

  function Delivers(b: Board, n: nat): (c: Board)
    requires n <= b.pending <= |b.table|
    ensures c == b.(rows := c.rows, pending := b.pending - n)
  {
    if n == 0 then b else B.Next(Delivers(b, n - 1), Deliver)
  }

  /** These put in front one by one, the last first, under the cap. */
  function InFront(waiting: seq<Row>, rows: seq<Row>, max: nat): seq<Row> {
    if waiting == [] then rows else Take([waiting[0]] + InFront(waiting[1..], rows, max), max)
  }

  lemma CutAgain(row: Row, newer: seq<Row>, rows: seq<Row>, max: nat)
    requires max > 0
    ensures Take([row] + Take(newer + rows, max), max) == Take(([row] + newer) + rows, max)
  {
    Regroup([row], newer, rows);
  }

  lemma {:induction false} InFrontIsCut(waiting: seq<Row>, rows: seq<Row>, max: nat)
    requires 0 < max && |rows| <= max
    ensures InFront(waiting, rows, max) == Take(waiting + rows, max)
  {
    if waiting == [] {
      assert waiting + rows == rows;
    } else {
      InFrontIsCut(waiting[1..], rows, max);
      CutAgain(waiting[0], waiting[1..], rows, max);
      assert waiting == [waiting[0]] + waiting[1..];
    }
  }

  lemma DeliverInFront(b: Board)
    requires B.Inv(b) && B.Enabled(b, Deliver)
    ensures B.Inv(B.Next(b, Deliver))
    ensures B.Next(b, Deliver).rows == Take([b.table[b.pending - 1]] + b.rows, Cap(b))
  {
    RowsStayPrefix(b);
    DeliverKeepsInv(b);
  }

  function DeliveredInFront(b: Board, n: nat): seq<Row>
    requires n <= b.pending <= |b.table|
  {
    if n == 0 then b.rows else Take([b.table[b.pending - n]] + DeliveredInFront(b, n - 1), Cap(b))
  }

  lemma {:induction false} DeliversKeepInv(b: Board, n: nat)
    requires B.Inv(b) && n <= b.pending
    ensures B.Inv(Delivers(b, n)) && Delivers(b, n).rows == DeliveredInFront(b, n)
  {
    if n > 0 {
      DeliversKeepInv(b, n - 1);
      DeliverInFront(Delivers(b, n - 1));
    }
  }

  lemma {:induction false} DeliversInFront(b: Board, waiting: seq<Row>)
    requires |waiting| <= b.pending <= |b.table|
    requires forall i :: 0 <= i < |waiting| ==> b.table[b.pending - |waiting| + i] == waiting[i]
    ensures DeliveredInFront(b, |waiting|) == InFront(waiting, b.rows, Cap(b))
  {
    if waiting != [] {
      var later := waiting[1..];
      assert forall i :: 0 <= i < |later| ==> later[i] == waiting[i + 1];
      DeliversInFront(b, later);
    }
  }

  lemma NothingTwice(heard: seq<Row>, waiting: seq<Row>, rows: seq<Row>)
    requires DistinctIds(heard) && waiting <= heard && rows <= heard[|waiting|..]
    ensures DistinctIds(waiting + rows) && |waiting| + |rows| <= |heard|
  {
    var all := waiting + rows;
    assert forall i :: 0 <= i < |all| ==> all[i] == heard[i];
  }

  lemma HeardIsDistinct(s: Screen)
    requires DistinctIds(s.table) && s.pending <= |s.table|
    ensures DistinctIds(HeardOf(s))
  {
    forall i, j | 0 <= i < j < |HeardOf(s)| ensures HeardOf(s)[i].id != HeardOf(s)[j].id {
      DistinctHeard(s, i, j);
    }
  }

  lemma BoardHeard(s: Screen)
    requires s.pending + |Awaiting(s.view.updates)| <= |s.table|
    ensures Delivered(Abstract(s)) == HeardOf(s)[|Awaiting(s.view.updates)|..]
  {
  }

  lemma HeardInTwo(s: Screen)
    requires Live(s)
    ensures HeardOf(s) == Awaiting(s.view.updates) + Delivered(Abstract(s)) && DistinctIds(HeardOf(s))
    ensures |HeardOf(s)| <= MAX_SAFE
  {
    BoardHeard(s);
    HeardIsDistinct(s);
  }

  lemma RowsFit(b: Board)
    requires B.Inv(b)
    ensures |b.rows| <= Cap(b) && b.rows <= Delivered(b)
  {
  }

  lemma RenderLeaves(s: Screen, rows: seq<Row>)
    requires Flushed(s.view).rows == rows
    ensures var t, b := S.Next(s, Render), Abstract(s);
            Abstract(t) == b.(rows := rows, pending := s.pending)
  {
  }

  lemma WaitingIsUndelivered(s: Screen)
    requires s.pending <= |s.table| && Awaiting(s.view.updates) <= HeardOf(s)
    ensures var waiting, b := Awaiting(s.view.updates), Abstract(s);
            && |waiting| <= b.pending
            && forall i :: 0 <= i < |waiting| ==> b.table[b.pending - |waiting| + i] == waiting[i]
  {
    PrefixOfTail(s.table, s.pending, Awaiting(s.view.updates));
  }

  lemma PrefixOfTail(table: seq<Row>, pending: nat, waiting: seq<Row>)
    requires pending <= |table| && waiting <= table[pending..]
    ensures forall i :: 0 <= i < |waiting| ==> table[pending + i] == waiting[i]
  {
    var tail := table[pending..];
    forall i | 0 <= i < |waiting| ensures table[pending + i] == waiting[i] {
      assert tail[i] == waiting[i];
    }
  }

  lemma DrawnRows(s: Screen)
    requires Live(s)
    ensures var waiting, b := Awaiting(s.view.updates), Abstract(s);
            Flushed(s.view).rows == InFront(waiting, b.rows, Cap(b))
  {
    var waiting, b := Awaiting(s.view.updates), Abstract(s);
    HeardInTwo(s);
    RowsFit(b);
    NothingTwice(HeardOf(s), waiting, b.rows);
    RenderDraws(s.view.seen, s.view.refs, s.view.updates);
    InFrontIsCut(waiting, b.rows, Cap(b));
  }

  lemma DeliversAll(b: Board, waiting: seq<Row>)
    requires B.Inv(b) && |waiting| <= b.pending
    requires b.pending <= |b.table| && forall i :: 0 <= i < |waiting| ==> b.table[b.pending - |waiting| + i] == waiting[i]
    ensures B.Inv(Delivers(b, |waiting|)) && Delivers(b, |waiting|).rows == InFront(waiting, b.rows, Cap(b))
  {
    DeliversKeepInv(b, |waiting|);
    DeliversInFront(b, waiting);
  }

  lemma DeliversWaiting(s: Screen)
    requires Live(s)
    ensures var waiting, b := Awaiting(s.view.updates), Abstract(s);
            && |waiting| <= b.pending <= |b.table| && B.Inv(Delivers(b, |waiting|))
            && Delivers(b, |waiting|).rows == InFront(waiting, b.rows, Cap(b))
  {
    WaitingIsUndelivered(s);
    assert Abstract(s).pending <= |Abstract(s).table|;
    DeliversAll(Abstract(s), Awaiting(s.view.updates));
  }

  lemma RenderIsDelivers(s: Screen)
    requires Live(s)
    ensures |Awaiting(s.view.updates)| <= Abstract(s).pending <= |Abstract(s).table|
    ensures Abstract(S.Next(s, Render)) == Delivers(Abstract(s), |Awaiting(s.view.updates)|)
    ensures B.Inv(Abstract(S.Next(s, Render)))
  {
    DrawnRows(s);
    DeliversWaiting(s);
    RenderLeaves(s, Flushed(s.view).rows);
  }

  lemma DrawnFoot(b: Board)
    requires B.Inv(b)
    ensures Foot(b, b.rows)
  {
    if b.rows != [] {
      assert AtFoot(b, |b.rows| - 1);
    }
  }

  lemma RenderStays(s: Screen)
    requires Live(s)
    ensures Live(S.Next(s, Render))
  {
    var t := S.Next(s, Render);
    RenderIsDelivers(s);
    DrawnFoot(Abstract(t));
    LiveIs(t);
  }

  // ── Runs ────────────────────────────────────────────────────────────────

  /** No call comes in while the board is paused, and no load finishes on rows
      whose last is not the one it asked past. */
  predicate Calm(s: Screen, a: Act) {
    && (a.Heard? ==> !s.view.refs.pausedRef)
    && (a.Loaded? ==> CursorIsLast(Abstract(s)))
  }

  predicate AllCalm(s: Screen, acts: seq<Act>)
    requires S.CanRun(s, acts)
    decreases |acts|
  {
    acts == [] || (Calm(s, acts[0]) && AllCalm(S.Next(s, acts[0]), acts[1..]))
  }

  lemma StepStays(s: Screen, a: Act)
    requires Live(s) && S.Enabled(s, a) && Calm(s, a)
    ensures Live(S.Next(s, a))
  {
    match a
    case Recorded(row) => RecordedStays(s, row);
    case Heard => if s.view.marked { HeardLaterStays(s); } else { HeardAtOnceStays(s); }
    case Pause => PauseStays(s);
    case Resume => ResumeStays(s);
    case Ask => AskStays(s);
    case Answered => AnsweredStays(s);
    case Loaded => LoadedStays(s);
    case Failed => FailedStays(s);
    case Render => RenderStays(s);
  }

  lemma {:induction false} RunStays(s: Screen, acts: seq<Act>)
    requires Live(s) && S.CanRun(s, acts) && AllCalm(s, acts)
    ensures Live(S.Run(s, acts))
    decreases |acts|
  {
    if acts != [] {
      StepStays(s, acts[0]);
      RunStays(S.Next(s, acts[0]), acts[1..]);
    }
  }

  lemma OpenedIsLive(table: seq<Row>)
    requires Descending(table) && DistinctIds(table) && |table| <= MAX_SAFE
    ensures Live(S.Opened(table))
  {
    assert Abstract(S.Opened(table)) == B.Opened(table);
    assert Delivered(B.Opened(table)) == table;
    DrawnFoot(B.Opened(table));
  }

  lemma PrefixDescends(s: Screen, rows: seq<Row>)
    requires Descending(s.table) && s.pending <= |s.table| && rows <= HeardOf(s)
    ensures Descending(rows)
  {
    forall i, j | 0 <= i < j < |rows| ensures Newer(rows[i], rows[j]) {
      assert rows[i] == s.table[s.pending + i] && rows[j] == s.table[s.pending + j];
    }
  }

  lemma DrawnIsThePrefix(s: Screen)
    requires Live(s) && s.view.updates == []
    ensures var drawn := s.view.seen;
            && drawn.rows <= HeardOf(s) && Descending(drawn.rows)
            && (s.view.refs.historyLoaded ==> (drawn.hasOlder <==> |drawn.rows| < |HeardOf(s)|))
  {
    HeardInTwo(s);
    assert Delivered(Abstract(s)) == HeardOf(s);
    PrefixDescends(s, s.view.seen.rows);
  }

  /** On the screen, however late its updates run: in every run from an opened page
      that loses nothing to a pause and loads past the board's own last row, each
      render draws the newest calls heard of, without a gap or a repeat, and after a
      load offers older ones exactly when there are some. */
  lemma ScreenIsThePrefix(table: seq<Row>, acts: seq<Act>)
    requires Descending(table) && DistinctIds(table) && |table| <= MAX_SAFE
    requires S.CanRun(S.Opened(table), acts) && AllCalm(S.Opened(table), acts)
    ensures var s := S.Next(S.Run(S.Opened(table), acts), Render);
            var drawn := s.view.seen;
            && drawn.rows <= HeardOf(s) && Descending(drawn.rows)
            && (s.view.refs.historyLoaded ==> (drawn.hasOlder <==> |drawn.rows| < |HeardOf(s)|))
  {
    OpenedIsLive(table);
    RunStays(S.Opened(table), acts);
    RenderStays(S.Run(S.Opened(table), acts));
    DrawnIsThePrefix(S.Next(S.Run(S.Opened(table), acts), Render));
  }

  // ── Loading on the screen ───────────────────────────────────────────────

  /** What is drawn is the newest calls heard of, and knows if there are more. */
  predicate DrawsWhole(s: Screen) {
    var drawn := s.view.seen;
    drawn.rows <= HeardOf(s) && (drawn.hasOlder <==> |drawn.rows| < |HeardOf(s)|)
  }

  lemma NothingTwiceLoaded(waiting: seq<Row>, d: seq<Row>, n: nat, at: nat)
    requires DistinctIds(waiting + d) && n <= at + 1 <= |d|
    ensures var rows := d[..n] + Take(d[at + 1..], PAGE_ROWS);
            DistinctIds(waiting + rows) && |rows| <= |d|
  {
    var all, some := waiting + d, waiting + (d[..n] + Take(d[at + 1..], PAGE_ROWS));
    forall i, j | 0 <= i < j < |some| ensures some[i].id != some[j].id {
      var skip := at + 1 - n;
      var k, l := if i < |waiting| + n then i else i + skip, if j < |waiting| + n then j else j + skip;
      assert some[i] == all[k] && some[j] == all[l];
    }
  }

  lemma PrefixBehind(waiting: seq<Row>, rows: seq<Row>, d: seq<Row>)
    ensures waiting + rows <= waiting + d <==> rows <= d
  {
    var some, all := waiting + rows, waiting + d;
    if some <= all {
      forall i | 0 <= i < |rows| ensures rows[i] == d[i] {
        assert some[|waiting| + i] == all[|waiting| + i];
      }
    }
  }

  lemma LoadedRows(b: Board, waiting: seq<Row>)
    requires B.Inv(b) && B.Enabled(b, Finish) && DistinctIds(waiting + Delivered(b))
    ensures var q := B.Next(b, Finish);
            && Delivered(q) == Delivered(b) && |q.rows| <= |Delivered(b)| && DistinctIds(waiting + q.rows)
  {
    var at: nat :| Asked(b, at);
    FinishAt(b, at);
    NothingTwiceLoaded(waiting, Delivered(b), |b.rows|, at);
  }

  lemma FlushedDraws(u: Screen, waiting: seq<Row>, rows: seq<Row>)
    requires u.view.refs.queue == [] && u.view.refs.historyLoaded
    requires Awaiting(u.view.updates) == waiting && Base(u.view.seen.rows, u.view.updates) == rows
    requires DistinctIds(waiting + rows) && |waiting| + |rows| <= MAX_SAFE
    ensures S.Next(u, Render).view.seen.rows == waiting + rows
    ensures HeardOf(S.Next(u, Render)) == HeardOf(u)
  {
    RenderDraws(u.view.seen, u.view.refs, u.view.updates);
  }

  lemma LoadedIsEnabled(s: Screen)
    requires S.Enabled(s, Loaded)
    ensures B.Enabled(Abstract(s), Finish)
  {
  }

  lemma LoadedDistinct(s: Screen)
    requires Live(s) && S.Enabled(s, Loaded)
    ensures B.Enabled(Abstract(s), Finish)
    ensures var q, waiting := B.Next(Abstract(s), Finish), Awaiting(s.view.updates);
            && Delivered(q) == Delivered(Abstract(s)) && |q.rows| <= |Delivered(q)| && DistinctIds(waiting + q.rows)
            && HeardOf(s) == waiting + Delivered(q) && |HeardOf(s)| <= MAX_SAFE
  {
    LoadedIsEnabled(s);
    HeardInTwo(s);
    LoadedRows(Abstract(s), Awaiting(s.view.updates));
  }

  lemma LoadedDraws(s: Screen)
    requires Live(s) && S.Enabled(s, Loaded)
    ensures var u, waiting := S.Next(s, Loaded), Awaiting(s.view.updates);
            && S.Next(u, Render).view.seen.rows == waiting + Abstract(u).rows
            && S.Next(u, Render).view.seen.hasOlder == Abstract(u).hasOlder
            && HeardOf(S.Next(u, Render)) == waiting + Delivered(Abstract(u))
  {
    LoadedView(s.view, s.answer.value);
    LoadedIsFinish(s);
    LoadedDistinct(s);
    LoadedFlushes(s, S.Next(s, Loaded), Awaiting(s.view.updates), B.Next(Abstract(s), Finish));
  }

  lemma LoadedFlushes(s: Screen, u: Screen, waiting: seq<Row>, b: Board)
    requires u.view.refs.queue == [] && u.view.refs.historyLoaded && HeardOf(u) == HeardOf(s)
    requires Awaiting(u.view.updates) == waiting
    requires HeardOf(s) == waiting + Delivered(b) && |HeardOf(s)| <= MAX_SAFE
    requires Delivered(Abstract(u)) == Delivered(b) && |Abstract(u).rows| <= |Delivered(b)|
    requires DistinctIds(waiting + Abstract(u).rows)
    ensures S.Next(u, Render).view.seen.rows == waiting + Abstract(u).rows
    ensures S.Next(u, Render).view.seen.hasOlder == Abstract(u).hasOlder
    ensures HeardOf(S.Next(u, Render)) == waiting + Delivered(Abstract(u))
  {
    FlushedDraws(u, waiting, Abstract(u).rows);
  }

  /** A load leaves the screen whole exactly when the row it asked past is still the
      board's last, whatever is queued for the render. */
  lemma ScreenLoadIsWholeIff(s: Screen)
    requires Live(s) && S.Enabled(s, Loaded)
    ensures DrawsWhole(S.Next(S.Next(s, Loaded), Render)) <==> CursorIsLast(Abstract(s))
  {
    var u, waiting := S.Next(s, Loaded), Awaiting(s.view.updates);
    LoadedIsFinish(s);
    LoadIsWholeIffCursorIsLast(Abstract(s));
    LoadedDraws(s);
    PrefixBehind(waiting, Abstract(u).rows, Delivered(Abstract(u)));
  }

  lemma CursorHasFallenOff(b: Board, n: nat)
    requires B.Inv(b) && !b.historyLoaded && b.request.Some? && 0 < n <= b.pending
    ensures !CursorIsLast(Delivers(b, n))
  {
    DeliversKeepInv(b, n - 1);
    CursorFallsOff(Delivers(b, n - 1));
  }

  /** One call drawn while the first load is in flight leaves a gap. */
  lemma OneArrivalLeavesAGap(s: Screen)
    requires Live(s) && S.Enabled(s, Heard) && S.Enabled(s, Loaded)
    requires !s.view.refs.pausedRef && !s.view.refs.historyLoaded
    ensures var t := S.Next(S.Next(s, Heard), Render);
            S.Enabled(t, Loaded) && !DrawsWhole(S.Next(S.Next(t, Loaded), Render))
  {
    var t := S.Next(S.Next(s, Heard), Render);
    StepStays(s, Heard);
    RenderStays(S.Next(s, Heard));
    CursorIsDrawnOff(s);
    HeardKeepsRequest(s);
    ScreenLoadIsWholeIff(t);
  }

  lemma CursorIsDrawnOff(s: Screen)
    requires Live(s) && S.Enabled(s, Heard) && S.Enabled(s, Loaded)
    requires !s.view.refs.pausedRef && !s.view.refs.historyLoaded
    ensures !CursorIsLast(Abstract(S.Next(S.Next(s, Heard), Render)))
  {
    var heard := S.Next(s, Heard);
    StepStays(s, Heard);
    RenderIsDelivers(heard);
    if s.view.marked {
      HeardLater(s);
      HeardLaterStays(s);
      WaitingIsUndelivered(heard);
      CursorHasFallenOff(Abstract(heard), |Awaiting(heard.view.updates)|);
    } else {
      HeardAtOnce(s);
      CursorFallsOff(Abstract(s));
    }
  }

  lemma HeardKeepsRequest(s: Screen)
    requires S.Enabled(s, Heard)
    ensures S.Next(s, Heard).view.cursor == s.view.cursor && S.Next(s, Heard).answer == s.answer
    ensures S.Next(s, Heard).view.clicked == s.view.clicked
  {
  }

  /** One still queued when the load finishes does not: by then the cap is gone. */
  lemma QueuedArrivalLeavesNoGap(s: Screen)
    requires Live(s) && S.Enabled(s, Heard) && S.Enabled(s, Loaded)
    requires !s.view.refs.pausedRef && s.view.marked && CursorIsLast(Abstract(s))
    ensures var t := S.Next(s, Heard);
            S.Enabled(t, Loaded) && DrawsWhole(S.Next(S.Next(t, Loaded), Render))
  {
    HeardLaterStays(s);
    HeardKeepsRequest(s);
    ScreenLoadIsWholeIff(S.Next(s, Heard));
  }

  function AskingFirst(row: Row): seq<Act> {
    [Ask] + ([Render] + ([Answered] + ([Recorded(row)] + [])))
  }

  /** Any page opened on a full table gets to the gap: ask for older calls, and let
      one be recorded and drawn before the answer. */
  lemma GapIsReachable(table: seq<Row>, row: Row)
    requires Descending(table) && DistinctIds(table) && MAX_ROWS <= |table| <= MAX_SAFE
    requires S.Enabled(S.Opened(table), Recorded(row))
    ensures S.CanRun(S.Opened(table), AskingFirst(row))
    ensures var s := S.Run(S.Opened(table), AskingFirst(row));
            && S.Enabled(s, Heard)
            && (var t := S.Next(S.Next(s, Heard), Render);
                S.Enabled(t, Loaded) && !DrawsWhole(S.Next(S.Next(t, Loaded), Render)))
  {
    var asked := AskedFirst(table, row);
    OneArrivalLeavesAGap(asked);
  }

  /** The page asked for before the call is recorded. */
  lemma AskedFirst(table: seq<Row>, row: Row) returns (s: Screen)
    requires Descending(table) && DistinctIds(table) && MAX_ROWS <= |table| <= MAX_SAFE
    requires S.Enabled(S.Opened(table), Recorded(row))
    ensures S.CanRun(S.Opened(table), AskingFirst(row)) && S.Run(S.Opened(table), AskingFirst(row)) == s
    ensures Live(s) && S.Enabled(s, Heard) && S.Enabled(s, Loaded)
    ensures !s.view.refs.pausedRef && !s.view.refs.historyLoaded
  {
    var start := S.Opened(table);
    var clicked := S.Next(start, Ask);
    var asked := S.Next(clicked, Render);
    AskDrawn(start);
    OpenedIsLive(table);
    StepStays(start, Ask);
    StepStays(clicked, Render);
    s := RecordedAfterAnswer(asked, row);
    Then(clicked, Render, [Answered] + ([Recorded(row)] + []));
    Then(start, Ask, [Render] + ([Answered] + ([Recorded(row)] + [])));
  }

  lemma RecordedAfterAnswer(asked: Screen, row: Row) returns (s: Screen)
    requires Live(asked) && S.Enabled(asked, Answered) && S.Enabled(asked, Recorded(row))
    ensures S.CanRun(asked, [Answered] + ([Recorded(row)] + [])) && S.Run(asked, [Answered] + ([Recorded(row)] + [])) == s
    ensures Live(s) && s == S.Next(S.Next(asked, Answered), Recorded(row))
  {
    var answered := S.Next(asked, Answered);
    s := S.Next(answered, Recorded(row));
    StepStays(asked, Answered);
    StepStays(answered, Recorded(row));
    assert S.CanRun(s, []) && S.Run(s, []) == s;
    Then(answered, Recorded(row), []);
    Then(asked, Answered, [Recorded(row)] + []);
  }

  lemma AskDrawn(s: Screen)
    requires S.Enabled(s, Ask) && s.view.updates == [] && !s.view.marked
    ensures var t, drawn := S.Next(S.Next(s, Ask), Render), s.view.seen.rows;
            && t.view.cursor == Some(drawn[|drawn| - 1]) && t.answer == None && !t.view.clicked
            && t.table == s.table && t.pending == s.pending
            && t.view.refs == s.view.refs.(pausedRef := s.view.seen.paused)
  {
    var drawn := s.view.seen.rows;
    SetRuns(s.view.(cursor := Some(drawn[|drawn| - 1])), Loading(true));
  }
}
