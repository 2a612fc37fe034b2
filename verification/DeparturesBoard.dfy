/** The departures board (components/DeparturesBoard.tsx, `mergeDeparture` in
    lib/departures.ts): keyset paging into a table that grows at the other end.
    Here a call is delivered when its row reaches the board's rows;
    DeparturesScreen says when that is. */
module DeparturesBoard {
  import opened Lists

  const MAX_ROWS := 40
  const PAGE_ROWS := 40
  const MAX_SAFE := 0x1F_FFFF_FFFF_FFFF

  datatype Row = Row(at: int, id: int)

  /** The order the board and the query both use, newest first. */
  predicate Newer(a: Row, b: Row) {
    a.at > b.at || (a.at == b.at && a.id > b.id)
  }

  /** A strict order, time first, that any two rows of different ids are in. */
  lemma NewerOrders(a: Row, b: Row, c: Row)
    ensures a.at > b.at ==> Newer(a, b)
    ensures Newer(a, b) ==> a.at >= b.at && !Newer(b, a)
    ensures a.id != b.id ==> Newer(a, b) || Newer(b, a)
    ensures Newer(a, b) && Newer(b, c) ==> Newer(a, c)
    ensures a.at == b.at && a.id > b.id ==> Newer(a, b)
  {
  }

  predicate Descending(rows: seq<Row>) {
    forall i, j :: 0 <= i < j < |rows| ==> Newer(rows[i], rows[j])
  }

  predicate DistinctIds(rows: seq<Row>) {
    forall i, j :: 0 <= i < j < |rows| ==> rows[i].id != rows[j].id
  }

  predicate Shows(rows: seq<Row>, id: int) {
    exists i :: 0 <= i < |rows| && rows[i].id == id
  }

  /** Newest first, capped; a row already on the board is ignored. */
  function MergeDeparture(rows: seq<Row>, incoming: Row, max: nat): seq<Row> {
    if Shows(rows, incoming.id) then rows else Take([incoming] + rows, max)
  }

  // ── The board and the table ─────────────────────────────────────────────

  datatype Request = Request(cursor: Row, answer: Option<seq<Row>>)

  /** `table` is everything inserted, newest first; its first `pending` rows have
      not been delivered yet. */
  datatype Board = Board(table: seq<Row>, pending: nat,
                         rows: seq<Row>, hasOlder: bool, historyLoaded: bool, request: Option<Request>)

  datatype Event =
    | Insert(row: Row)
    | Deliver
    | Begin(at: nat)
    | Answer
    | Finish
    | Fail

  function Delivered(b: Board): seq<Row> {
    if b.pending <= |b.table| then b.table[b.pending..] else []
  }

  function Cap(b: Board): nat {
    if b.historyLoaded then MAX_SAFE else MAX_ROWS
  }

  function Past(cursor: Row): Row -> bool {
    r => Newer(cursor, r)
  }

  /** The query: strictly past the cursor, one more than a page. */
  function Older(table: seq<Row>, cursor: Row): seq<Row> {
    Take(Keep(table, Past(cursor)), PAGE_ROWS + 1)
  }

  /** A click asks past the last row as drawn: the board's last, or one the cap
      has taken off since. */
  predicate AtFoot(b: Board, at: nat) {
    |b.rows| - 1 <= at < |Delivered(b)| && (b.historyLoaded ==> at == |b.rows| - 1)
  }

  predicate Enabled(b: Board, e: Event) {
    match e
    case Insert(row) =>
      (forall i :: 0 <= i < |b.table| ==> Newer(row, b.table[i])) && !Shows(b.table, row.id) && |b.table| < MAX_SAFE
    case Deliver => 0 < b.pending <= |b.table|
    case Begin(at) => b.hasOlder && b.rows != [] && b.request.None? && AtFoot(b, at)
    case Answer => b.request.Some? && b.request.value.answer.None?
    case Finish => b.request.Some? && b.request.value.answer.Some?
    case Fail => b.request.Some?
  }

  function Fresh(rows: seq<Row>, page: seq<Row>): seq<Row> {
    Keep(page, (r: Row) => !Shows(rows, r.id))
  }

  function Next(b: Board, e: Event): Board
    requires Enabled(b, e)
  {
    match e
    case Insert(row) => b.(table := [row] + b.table, pending := b.pending + 1)
    case Deliver => b.(rows := MergeDeparture(b.rows, b.table[b.pending - 1], Cap(b)), pending := b.pending - 1)
    case Begin(at) => b.(request := Some(Request(Delivered(b)[at], None)))
    case Answer => b.(request := Some(b.request.value.(answer := Some(Older(b.table, b.request.value.cursor)))))
    case Finish =>
      var data := b.request.value.answer.value;
      b.(rows := b.rows + Fresh(b.rows, Take(data, PAGE_ROWS)), hasOlder := |data| > PAGE_ROWS,
         historyLoaded := true, request := None)
    case Fail => b.(request := None)
  }

  function Opened(table: seq<Row>): Board {
    Board(table, 0, Take(table, MAX_ROWS), |table| >= MAX_ROWS, false, None)
  }

  predicate CanRun(b: Board, events: seq<Event>)
    decreases |events|
  {
    events == [] || (Enabled(b, events[0]) && CanRun(Next(b, events[0]), events[1..]))
  }

  function Run(b: Board, events: seq<Event>): Board
    requires CanRun(b, events)
    decreases |events|
  {
    if events == [] then b else Run(Next(b, events[0]), events[1..])
  }

  // ── No gap, no repeat ───────────────────────────────────────────────────

  /** The request in flight asked past a row at or below the foot of the board. */
  ghost predicate Asked(b: Board, at: nat)
    requires b.request.Some?
  {
    var d, req := Delivered(b), b.request.value;
    && AtFoot(b, at) && d[at] == req.cursor
    && (req.answer.Some? ==> req.answer.value == Take(d[at + 1..], PAGE_ROWS + 1))
  }

  ghost predicate Inv(b: Board) {
    && Descending(b.table) && DistinctIds(b.table) && b.pending <= |b.table| <= MAX_SAFE
    && b.rows <= Delivered(b)
    && (!b.historyLoaded ==> |b.rows| == (if |Delivered(b)| < MAX_ROWS then |Delivered(b)| else MAX_ROWS))
    && (b.historyLoaded ==> (b.hasOlder <==> |b.rows| < |Delivered(b)|))
    && (b.hasOlder && !b.historyLoaded ==> |b.rows| == MAX_ROWS)
    && (b.request.Some? ==> b.rows != [] && b.hasOlder && exists at: nat :: Asked(b, at))
  }

  lemma PastCursor(table: seq<Row>, at: nat)
    requires Descending(table) && at < |table|
    ensures Keep(table, Past(table[at])) == table[at + 1..]
  {
    var p := Past(table[at]);
    var head, tail := table[..at + 1], table[at + 1..];
    assert table == head + tail;
    KeepAppend(head, tail, p);
    NoneNewerThan(table, at, head);
    AllOlderThan(table, at, tail);
    KeepNone(head, p);
    KeepAll(tail, p);
  }

  lemma NoneNewerThan(table: seq<Row>, at: nat, head: seq<Row>)
    requires Descending(table) && at < |table| && head == table[..at + 1]
    ensures forall i :: 0 <= i < |head| ==> !Newer(table[at], head[i])
  {
    forall i | 0 <= i < |head| ensures !Newer(table[at], head[i]) {
      assert i < at ==> Newer(table[i], table[at]);
    }
  }

  lemma AllOlderThan(table: seq<Row>, at: nat, tail: seq<Row>)
    requires Descending(table) && at < |table| && tail == table[at + 1..]
    ensures forall i :: 0 <= i < |tail| ==> Newer(table[at], tail[i])
  {
  }

  lemma InsertKeepsInv(b: Board, row: Row)
    requires Inv(b) && Enabled(b, Insert(row))
    ensures Inv(Next(b, Insert(row)))
  {
    var q := Next(b, Insert(row));
    assert Delivered(q) == Delivered(b);
    if b.request.Some? {
      var at: nat :| Asked(b, at);
      assert Asked(q, at);
    }
  }

  lemma NotOnBoard(b: Board)
    requires Inv(b) && b.pending > 0
    ensures !Shows(b.rows, b.table[b.pending - 1].id)
  {
    forall i | 0 <= i < |b.rows| ensures b.rows[i].id != b.table[b.pending - 1].id {
      assert b.rows[i] == b.table[b.pending + i];
    }
  }

  lemma AskedStays(b: Board, at: nat)
    requires b.pending <= |b.table| && |b.rows| <= |Delivered(b)| <= MAX_SAFE - 1
    requires Enabled(b, Deliver) && b.request.Some? && Asked(b, at)
    requires Next(b, Deliver).rows == Take([b.table[b.pending - 1]] + b.rows, Cap(b))
    ensures Asked(Next(b, Deliver), at + 1)
  {
    var d, longer := Delivered(b), Delivered(Next(b, Deliver));
    assert longer == [b.table[b.pending - 1]] + d;
    assert longer[at + 2..] == d[at + 1..];
  }

  lemma RowsStayPrefix(b: Board)
    requires Inv(b) && Enabled(b, Deliver)
    ensures var q := Next(b, Deliver);
            && q.rows == Take([b.table[b.pending - 1]] + b.rows, Cap(b))
            && q.rows <= Delivered(q) && |Delivered(q)| == |Delivered(b)| + 1
  {
    var q, row := Next(b, Deliver), b.table[b.pending - 1];
    NotOnBoard(b);
    assert Delivered(q) == [row] + Delivered(b);
    assert [row] + b.rows <= Delivered(q);
  }

  lemma DeliverKeepsInv(b: Board)
    requires Inv(b) && Enabled(b, Deliver)
    ensures Inv(Next(b, Deliver))
  {
    RowsStayPrefix(b);
    if b.request.Some? {
      var at: nat :| Asked(b, at);
      AskedStays(b, at);
    }
  }

  lemma BeginKeepsInv(b: Board, at: nat)
    requires Inv(b) && Enabled(b, Begin(at))
    ensures Inv(Next(b, Begin(at)))
  {
    assert Asked(Next(b, Begin(at)), at);
  }

  lemma RestOfTheTable(table: seq<Row>, pending: nat, at: nat, cursor: Row)
    requires Descending(table) && pending + at < |table| && table[pending + at] == cursor
    ensures Keep(table, Past(cursor)) == table[pending..][at + 1..]
  {
    PastCursor(table, pending + at);
    assert table[pending + at + 1..] == table[pending..][at + 1..];
  }

  lemma OlderIsTheRest(b: Board, at: nat)
    requires Inv(b) && b.request.Some? && Asked(b, at)
    ensures Older(b.table, b.request.value.cursor) == Take(Delivered(b)[at + 1..], PAGE_ROWS + 1)
  {
    var cursor := b.request.value.cursor;
    assert Delivered(b)[at] == b.table[b.pending + at];
    RestOfTheTable(b.table, b.pending, at, cursor);
  }

  lemma AnswerKeepsInv(b: Board)
    requires Inv(b) && Enabled(b, Answer)
    ensures Inv(Next(b, Answer))
  {
    var at: nat :| Asked(b, at);
    OlderIsTheRest(b, at);
    assert Asked(Next(b, Answer), at);
  }

  /** The page holds nothing the board has. */
  lemma PageIsFresh(b: Board, at: nat)
    requires Inv(b) && b.request.Some? && Asked(b, at)
    ensures Fresh(b.rows, Take(Delivered(b)[at + 1..], PAGE_ROWS)) == Take(Delivered(b)[at + 1..], PAGE_ROWS)
  {
    var d := Delivered(b);
    var page := Take(d[at + 1..], PAGE_ROWS);
    var p := (r: Row) => !Shows(b.rows, r.id);
    forall i | 0 <= i < |page| ensures p(page[i]) {
      assert page[i] == d[at + 1 + i] == b.table[b.pending + at + 1 + i];
      forall j | 0 <= j < |b.rows| ensures b.rows[j].id != page[i].id {
        assert b.rows[j] == d[j] == b.table[b.pending + j];
      }
    }
    KeepAll(page, p);
  }

  lemma TakeTwice(s: seq<Row>)
    ensures Take(Take(s, PAGE_ROWS + 1), PAGE_ROWS) == Take(s, PAGE_ROWS)
    ensures |Take(s, PAGE_ROWS + 1)| > PAGE_ROWS <==> |s| > PAGE_ROWS
  {
  }

  lemma FinishAt(b: Board, at: nat)
    requires Inv(b) && Enabled(b, Finish) && Asked(b, at)
    ensures var q, d, n := Next(b, Finish), Delivered(b), |b.rows|;
            && Delivered(q) == d && 0 < n <= at + 1 <= |d|
            && q.rows == d[..n] + Take(d[at + 1..], PAGE_ROWS)
            && (q.hasOlder <==> |d| > at + 1 + PAGE_ROWS)
  {
    assert b.rows == Delivered(b)[..|b.rows|];
    PageIsFresh(b, at);
    TakeTwice(Delivered(b)[at + 1..]);
  }

  /** The board is the newest rows, without a gap, and knows if there are more. */
  predicate Whole(b: Board) {
    b.rows <= Delivered(b) && (b.hasOlder <==> |b.rows| < |Delivered(b)|)
  }

  predicate CursorIsLast(b: Board) {
    b.request.Some? && b.rows != [] && b.rows[|b.rows| - 1] == b.request.value.cursor
  }

  lemma DeliveredAreDistinct(b: Board)
    requires DistinctIds(b.table) && b.pending <= |b.table|
    ensures DistinctIds(Delivered(b))
  {
    var d := Delivered(b);
    forall i, j | 0 <= i < j < |d| ensures d[i].id != d[j].id {
      assert d[i] == b.table[b.pending + i] && d[j] == b.table[b.pending + j];
    }
  }

  /** A prefix of n rows and the page past row `at`, put together. */
  lemma JoinedIsWholeIff(d: seq<Row>, n: nat, at: nat)
    requires DistinctIds(d) && 0 < n <= at + 1 <= |d|
    ensures var joined := d[..n] + Take(d[at + 1..], PAGE_ROWS);
            (joined <= d && (|d| > at + 1 + PAGE_ROWS <==> |joined| < |d|)) <==> at == n - 1
  {
    var joined := d[..n] + Take(d[at + 1..], PAGE_ROWS);
    if at > n - 1 && |d| > at + 1 {
      assert joined[n] == d[at + 1];
      assert d[n].id != d[at + 1].id;
    }
  }

  lemma CursorIsLastIff(b: Board, at: nat)
    requires Inv(b) && b.request.Some? && Asked(b, at)
    ensures CursorIsLast(b) <==> at == |b.rows| - 1
  {
    var d, n := Delivered(b), |b.rows|;
    DeliveredAreDistinct(b);
    assert b.rows[n - 1] == d[n - 1];
    if at > n - 1 {
      assert d[n - 1].id != d[at].id;
    }
  }

  lemma WholeWhenJoined(q: Board, d: seq<Row>, n: nat, at: nat)
    requires DistinctIds(d) && 0 < n <= at + 1 <= |d|
    requires Delivered(q) == d && q.rows == d[..n] + Take(d[at + 1..], PAGE_ROWS)
    requires q.hasOlder <==> |d| > at + 1 + PAGE_ROWS
    ensures Whole(q) <==> at == n - 1
  {
    JoinedIsWholeIff(d, n, at);
  }

  lemma WholeAt(b: Board, at: nat)
    requires Inv(b) && Enabled(b, Finish) && Asked(b, at)
    ensures Whole(Next(b, Finish)) <==> at == |b.rows| - 1
  {
    FinishAt(b, at);
    DeliveredAreDistinct(b);
    WholeWhenJoined(Next(b, Finish), Delivered(b), |b.rows|, at);
  }

  /** A load leaves the board whole exactly when the row it asked past is still
      the last one on it. */
  lemma LoadIsWholeIffCursorIsLast(b: Board)
    requires Inv(b) && Enabled(b, Finish)
    ensures Whole(Next(b, Finish)) <==> CursorIsLast(b)
  {
    var at: nat :| Asked(b, at);
    WholeAt(b, at);
    CursorIsLastIff(b, at);
  }

  lemma FinishKeepsInv(b: Board)
    requires Inv(b) && Enabled(b, Finish) && CursorIsLast(b)
    ensures Inv(Next(b, Finish))
  {
    LoadIsWholeIffCursorIsLast(b);
  }

  lemma StepKeepsInv(b: Board, e: Event)
    requires Inv(b) && Enabled(b, e) && (e.Finish? ==> CursorIsLast(b))
    ensures Inv(Next(b, e))
  {
    match e
    case Insert(row) => InsertKeepsInv(b, row);
    case Deliver => DeliverKeepsInv(b);
    case Begin(at) => BeginKeepsInv(b, at);
    case Answer => AnswerKeepsInv(b);
    case Finish => FinishKeepsInv(b);
    case Fail =>
  }

  predicate Undisturbed(b: Board, events: seq<Event>)
    requires CanRun(b, events)
    decreases |events|
  {
    events == [] ||
    ((events[0].Finish? ==> CursorIsLast(b)) && Undisturbed(Next(b, events[0]), events[1..]))
  }

  lemma {:induction false} RunKeepsInv(b: Board, events: seq<Event>)
    requires Inv(b) && CanRun(b, events) && Undisturbed(b, events)
    ensures Inv(Run(b, events))
    decreases |events|
  {
    if events != [] {
      StepKeepsInv(b, events[0]);
      RunKeepsInv(Next(b, events[0]), events[1..]);
    }
  }

  /** Through any inserts, deliveries and loads the board stays a prefix of the
      table's newest-first order, with no repeat, and after a load it offers older
      rows exactly when there are some. */
  lemma BoardIsThePrefix(table: seq<Row>, events: seq<Event>)
    requires Descending(table) && DistinctIds(table) && |table| <= MAX_SAFE
    requires CanRun(Opened(table), events) && Undisturbed(Opened(table), events)
    ensures var b := Run(Opened(table), events);
            && b.rows <= Delivered(b) && Descending(b.rows)
            && (!b.historyLoaded ==> |b.rows| == if |Delivered(b)| < 40 then |Delivered(b)| else 40)
            && (b.historyLoaded ==> Whole(b))
  {
    assert Delivered(Opened(table)) == table;
    RunKeepsInv(Opened(table), events);
    var b := Run(Opened(table), events);
    forall i, j | 0 <= i < j < |b.rows| ensures Newer(b.rows[i], b.rows[j]) {
      assert b.rows[i] == b.table[b.pending + i] && b.rows[j] == b.table[b.pending + j];
    }
  }

  lemma JoinedPage(d: seq<Row>, n: nat, joined: seq<Row>)
    requires n <= |d| && joined == d[..n] + Take(d[n..], 40)
    ensures joined <= d && |joined| == n + if |d| - n < 40 then |d| - n else 40
  {
  }

  /** An undisturbed load brings the next forty rows, or what is left of them. */
  lemma LoadBringsAPage(b: Board)
    requires Inv(b) && Enabled(b, Finish) && CursorIsLast(b)
    ensures var q, left := Next(b, Finish), |Delivered(b)| - |b.rows|;
            && |q.rows| == |b.rows| + (if left < 40 then left else 40)
            && q.rows <= Delivered(b) && (q.hasOlder <==> left > 40)
  {
    var at: nat :| Asked(b, at);
    CursorIsLastIff(b, at);
    LastCursorLoads(b, at);
    JoinedPage(Delivered(b), |b.rows|, Next(b, Finish).rows);
  }

  lemma LastCursorLoads(b: Board, at: nat)
    requires Inv(b) && Enabled(b, Finish) && Asked(b, at) && at == |b.rows| - 1
    ensures var q, d, n := Next(b, Finish), Delivered(b), |b.rows|;
            n <= |d| && q.rows == d[..n] + Take(d[n..], 40) && (q.hasOlder <==> |d| > n + 40)
  {
    FinishAt(b, at);
  }

  /** Later loads cannot be disturbed: the cap is gone by then. */
  lemma LaterLoadsAreUndisturbed(b: Board)
    requires Inv(b) && b.historyLoaded && b.request.Some?
    ensures CursorIsLast(b)
  {
    var at: nat :| Asked(b, at);
    assert b.rows[|b.rows| - 1] == Delivered(b)[|b.rows| - 1];
  }

  /** The first one is, by a single call that arrives while it is in flight: the
      button is only there over a full board, and a full board gives up its last
      row. */
  lemma CursorFallsOff(b: Board)
    requires Inv(b) && !b.historyLoaded && b.request.Some? && Enabled(b, Deliver)
    ensures !CursorIsLast(Next(b, Deliver))
  {
    var q := Next(b, Deliver);
    var d := Delivered(q);
    var at: nat :| Asked(b, at);
    NotOnBoard(b);
    DeliverKeepsInv(b);
    DeliveredAreDistinct(q);
    assert d == [b.table[b.pending - 1]] + Delivered(b);
    assert b.request.value.cursor == d[at + 1];
    assert |q.rows| == MAX_ROWS && q.rows[MAX_ROWS - 1] == d[MAX_ROWS - 1];
    assert d[MAX_ROWS - 1].id != d[at + 1].id;
  }

  // ── What the merge assumes ──────────────────────────────────────────────

  /** Prepending keeps the order exactly for rows newer than the board, or on it:
      a late or repeated row the board has already let go breaks it. */
  lemma MergeKeepsOrderIff(rows: seq<Row>, incoming: Row, max: nat)
    requires Descending(rows) && max > 1
    ensures Descending(MergeDeparture(rows, incoming, max)) <==>
            Shows(rows, incoming.id) || rows == [] || Newer(incoming, rows[0])
  {
    var merged := MergeDeparture(rows, incoming, max);
    if !Shows(rows, incoming.id) {
      assert merged[0] == incoming;
      assert forall i :: 0 < i < |merged| ==> merged[i] == rows[i - 1];
      if rows != [] {
        assert merged[1] == rows[0];
        if Newer(incoming, rows[0]) {
          forall i, j | 0 <= i < j < |merged| ensures Newer(merged[i], merged[j]) {
            assert j > 1 ==> Newer(rows[0], rows[j - 1]);
          }
        }
      }
    }
  }
}
