/** The account export (lib/account-lifecycle.ts): paging whole tables out of a
    database that may predate some of the columns asked for. */
module AccountExport {
  import opened Lists
  import opened Sorting

  const PAGE_SIZE := 1000

  datatype Row = Row(at: int, id: int)
  datatype Code = UndefinedColumn | ColumnNotCached | UndefinedTable | TableNotCached | OtherError
  datatype Reply = Data(rows: seq<Row>, columns: string) | Failed(code: Code)
  datatype Exported = Exported(row: Row, columns: string)
  datatype Result = Done(rows: seq<Exported>) | Refused

  /** One user's rows of one table, unchanged while they are read. Each page is
      cut from the whole ordered answer to its own query: `view(k)`, for page k. */
  datatype Db = Db(view: nat -> seq<Row>, known: string -> bool, unknownCode: Code,
                   missing: bool, missingCode: Code, outage: nat -> bool)

  predicate TableIsMissing(code: Code) {
    code == UndefinedTable || code == TableNotCached
  }

  predicate ColumnIsMissing(code: Code) {
    code == UndefinedColumn || code == ColumnNotCached
  }

  /** 42P01 and PGRST205; 42703 and PGRST204. */
  ghost const NO_TABLE: set<Code> := {UndefinedTable, TableNotCached}
  ghost const NO_COLUMN: set<Code> := {UndefinedColumn, ColumnNotCached}

  ghost predicate Sane(db: Db, n: nat) {
    && (forall k :: |db.view(k)| == n)
    && db.missingCode in NO_TABLE && db.unknownCode !in NO_TABLE
  }

  ghost predicate NoColumn(code: Code) {
    code in NO_COLUMN
  }

  function Start(page: nat): nat {
    page * PAGE_SIZE
  }

  /** The last page is the first short one, so a full table ends in an empty page. */
  function Pages(n: nat): nat {
    n / PAGE_SIZE + 1
  }

  /** `.range(start, start + PAGE_SIZE - 1)`. */
  function Page(rows: seq<Row>, page: nat): (r: seq<Row>)
    ensures |r| < PAGE_SIZE <==> |rows| < Start(page + 1)
  {
    if |rows| <= Start(page) then []
    else if |rows| < Start(page + 1) then rows[Start(page)..]
    else rows[Start(page)..Start(page + 1)]
  }

  function Answer(db: Db, columns: string, page: nat): Reply {
    if db.outage(page) then Failed(OtherError)
    else if db.missing then Failed(db.missingCode)
    else if !db.known(columns) then Failed(db.unknownCode)
    else Data(Page(db.view(page), page), columns)
  }

  function Marked(rows: seq<Row>, columns: string): seq<Exported> {
    seq(|rows|, i requires 0 <= i < |rows| => Exported(rows[i], columns))
  }

  function Concat(parts: nat -> seq<Row>, n: nat): seq<Row> {
    if n == 0 then [] else Concat(parts, n - 1) + parts(n - 1)
  }

  function Parts(view: nat -> seq<Row>): nat -> seq<Row> {
    (k: nat) => Page(view(k), k)
  }

  /** What the first `pages` pages hold between them. */
  function Collected(view: nat -> seq<Row>, pages: nat): seq<Row> {
    Concat(Parts(view), pages)
  }

  /** The newest column list the database knows; the oldest when it knows none. */
  function Newest(db: Db, ladder: seq<string>): (r: nat)
    requires ladder != []
    ensures r < |ladder| && (forall i :: 0 <= i < r ==> !db.known(ladder[i]))
    ensures db.known(ladder[r]) || forall i :: 0 <= i < |ladder| ==> !db.known(ladder[i])
  {
    if db.known(ladder[0]) || |ladder| == 1 then 0
    else
      assert forall i :: 0 < i < |ladder| ==> ladder[i] == ladder[1..][i - 1];
      1 + Newest(db, ladder[1..])
  }

  lemma NewestIs(db: Db, ladder: seq<string>, i: nat)
    requires i < |ladder| && db.known(ladder[i]) && forall j :: 0 <= j < i ==> !db.known(ladder[j])
    ensures Newest(db, ladder) == i
  {
  }

  /** The page can be read, with or without going down the ladder. */
  ghost predicate Readable(db: Db, ladder: seq<string>, page: nat, falls: Code -> bool)
    requires ladder != []
  {
    && !db.outage(page) && !db.missing
    && (db.known(ladder[0]) || (falls(db.unknownCode) && db.known(ladder[Newest(db, ladder)])))
  }

  ghost predicate AllReadable(db: Db, ladder: seq<string>, pages: nat, falls: Code -> bool)
    requires ladder != []
  {
    forall k: nat :: k < pages ==> Readable(db, ladder, k, falls)
  }

  lemma NextPage(view: nat -> seq<Row>, page: nat, columns: string)
    ensures Marked(Collected(view, page + 1), columns) ==
            Marked(Collected(view, page), columns) + Marked(Page(view(page), page), columns)
  {
    assert Collected(view, page + 1) == Collected(view, page) + Parts(view)(page);
  }

  // ── readAllRows ─────────────────────────────────────────────────────────

  /** One page, from the newest column list down, while the database does not
      know a column and for no other refusal. */
  method AskDown(db: Db, ladder: seq<string>, page: nat) returns (reply: Reply)
    requires ladder != [] && db.missingCode in NO_TABLE
    ensures reply.Data? <==> Readable(db, ladder, page, c => c == UndefinedColumn)
    ensures reply.Data? ==> reply == Data(Page(db.view(page), page), ladder[Newest(db, ladder)])
  {
    reply := Answer(db, ladder[0], page);
    ghost var at := 0;
    for i := 1 to |ladder|
      invariant at == i - 1 && reply == Answer(db, ladder[at], page)
      invariant forall j :: 0 <= j < at ==> !db.known(ladder[j])
      invariant i > 1 ==> !db.outage(page) && !db.missing && db.unknownCode == UndefinedColumn
    {
      if reply != Failed(UndefinedColumn) { break; }
      reply := Answer(db, ladder[i], page);
      at := i;
    }
    if db.known(ladder[at]) { NewestIs(db, ladder, at); }
  }

  method ReadAllRows(db: Db, ladder: seq<string>, ghost n: nat) returns (r: Result)
    requires ladder != [] && Sane(db, n)
    ensures r.Done? <==> AllReadable(db, ladder, Pages(n), c => c == UndefinedColumn)
    ensures r.Done? ==> r.rows == Marked(Collected(db.view, Pages(n)), ladder[Newest(db, ladder)])
  {
    var rows: seq<Exported> := [];
    var page := 0;
    ghost var falls := c => c == UndefinedColumn;
    ghost var columns := ladder[Newest(db, ladder)];
    while true
      invariant page < Pages(n) && AllReadable(db, ladder, page, falls)
      invariant rows == Marked(Collected(db.view, page), columns)
      decreases Pages(n) - page
    {
      var reply := AskDown(db, ladder, page);
      if reply.Failed? {
        assert !Readable(db, ladder, page, falls);
        return Refused;
      }
      assert |db.view(page)| == n;
      LastPage(n, page);
      NextPage(db.view, page, columns);
      rows := rows + Marked(reply.rows, reply.columns);
      page := page + 1;
      if |reply.rows| < PAGE_SIZE { return Done(rows); }
    }
  }

  // ── loadReportedCalls and loadInjectionFindings ─────────────────────────

  /** What is handed over: nothing from a database before the table, every page
      read with the newest columns it knows, or no export at all. */
  ghost function Findings(db: Db, ladder: seq<string>, n: nat): Result
    requires ladder != []
  {
    if db.missing then (if db.outage(0) then Refused else Done([]))
    else if AllReadable(db, ladder, Pages(n), NoColumn) then
      Done(Marked(Collected(db.view, Pages(n)), ladder[Newest(db, ladder)]))
    else Refused
  }

  /** Where the loop stands before page `page`. */
  ghost predicate Reached(db: Db, ladder: seq<string>, age: nat, page: nat, rows: seq<Exported>)
    requires ladder != []
  {
    if page == 0 then age == 0 && rows == []
    else
      && age < |ladder| && db.known(ladder[age]) && age == Newest(db, ladder)
      && (age > 0 ==> db.unknownCode in NO_COLUMN)
      && !db.missing && AllReadable(db, ladder, page, NoColumn)
      && rows == Marked(Collected(db.view, page), ladder[age])
  }

  lemma PageReached(db: Db, ladder: seq<string>, age: nat, page: nat, rows: seq<Exported>, next: nat)
    requires ladder != [] && Reached(db, ladder, age, page, rows) && Readable(db, ladder, page, NoColumn)
    requires next < |ladder| && next == Newest(db, ladder) && db.known(ladder[next])
    requires next > 0 ==> db.unknownCode in NO_COLUMN
    ensures Reached(db, ladder, next, page + 1, rows + Marked(Page(db.view(page), page), ladder[next]))
  {
    NextPage(db.view, page, ladder[next]);
    if page == 0 {
      assert Marked(Collected(db.view, 0), ladder[next]) == [];
    }
  }

  lemma EndsMissing(db: Db, ladder: seq<string>, n: nat, age: nat, page: nat, rows: seq<Exported>)
    requires ladder != [] && Reached(db, ladder, age, page, rows) && db.missing && !db.outage(page)
    ensures Findings(db, ladder, n) == Done([])
  {
  }

  lemma EndsRefused(db: Db, ladder: seq<string>, n: nat, age: nat, page: nat, rows: seq<Exported>)
    requires ladder != [] && Reached(db, ladder, age, page, rows) && page < Pages(n)
    requires !Readable(db, ladder, page, NoColumn) && (!db.missing || db.outage(page))
    ensures Findings(db, ladder, n) == Refused
  {
  }

  lemma EndsDone(db: Db, ladder: seq<string>, n: nat, age: nat, rows: seq<Exported>)
    requires ladder != [] && Reached(db, ladder, age, Pages(n), rows)
    ensures Findings(db, ladder, n) == Done(rows)
  {
  }

  /** Here an age once reached is kept for the pages after it. */
  method LoadFindings(db: Db, ladder: seq<string>, ghost n: nat) returns (r: Result)
    requires ladder != [] && Sane(db, n)
    ensures r == Findings(db, ladder, n)
  {
    var rows: seq<Exported> := [];
    var age, page := 0, 0;
    while true
      invariant page < Pages(n) && Reached(db, ladder, age, page, rows)
      decreases Pages(n) - page
    {
      ghost var was := age;
      var reply: Reply;
      age, reply := AskOlder(db, ladder, age, page);
      if reply.Failed? {
        if TableIsMissing(reply.code) {
          EndsMissing(db, ladder, n, was, page, rows);
          return Done([]);
        }
        EndsRefused(db, ladder, n, was, page, rows);
        return Refused;
      }
      assert |db.view(page)| == n;
      LastPage(n, page);
      PageReached(db, ladder, was, page, rows, age);
      rows := rows + Marked(reply.rows, reply.columns);
      page := page + 1;
      if |reply.rows| < PAGE_SIZE {
        EndsDone(db, ladder, n, age, rows);
        return Done(rows);
      }
    }
  }

  /** The index only grows, and stops at the newest list the database knows. */
  method AskOlder(db: Db, ladder: seq<string>, from: nat, page: nat) returns (age: nat, reply: Reply)
    requires from < |ladder| && db.missingCode in NO_TABLE && db.unknownCode !in NO_TABLE
    requires from == 0 || (db.known(ladder[from]) && from == Newest(db, ladder) && db.unknownCode in NO_COLUMN)
    ensures from <= age < |ladder|
    ensures reply.Data? <==> Readable(db, ladder, page, NoColumn)
    ensures reply.Data? ==> age == Newest(db, ladder) && reply == Data(Page(db.view(page), page), ladder[age])
    ensures reply.Data? ==> db.known(ladder[age]) && (age > 0 ==> db.unknownCode in NO_COLUMN)
    ensures reply.Failed? && db.missing && !db.outage(page) ==> reply.code in NO_TABLE
    ensures reply.Failed? && (!db.missing || db.outage(page)) ==> reply.code !in NO_TABLE
  {
    age := from;
    reply := Answer(db, ladder[age], page);
    while reply.Failed? && ColumnIsMissing(reply.code) && age < |ladder| - 1
      invariant from <= age < |ladder| && reply == Answer(db, ladder[age], page)
      invariant age > from ==> from == 0 && !db.outage(page) && !db.missing && db.unknownCode in NO_COLUMN
      invariant from == 0 ==> forall j :: 0 <= j < age ==> !db.known(ladder[j])
      decreases |ladder| - age
    {
      age := age + 1;
      reply := Answer(db, ladder[age], page);
    }
    if from == 0 && db.known(ladder[age]) {
      NewestIs(db, ladder, age);
    }
  }

  // ── Every row once, in order ────────────────────────────────────────────

  function Cut(all: seq<Row>, page: nat): seq<Row> {
    if |all| < Start(page) then all else all[..Start(page)]
  }

  lemma PageExtendsCut(rows: seq<Row>, page: nat)
    ensures Cut(rows, page + 1) == Cut(rows, page) + Page(rows, page)
  {
  }

  lemma {:induction false} ConcatTelescopes(parts: nat -> seq<Row>, whole: nat -> seq<Row>, n: nat)
    requires whole(0) == [] && forall k: nat :: k < n ==> whole(k + 1) == whole(k) + parts(k)
    ensures Concat(parts, n) == whole(n)
  {
    if n > 0 {
      ConcatTelescopes(parts, whole, n - 1);
      assert whole(n - 1 + 1) == whole(n - 1) + parts(n - 1);
    }
  }

  lemma {:induction false} ConcatCounts(parts: nat -> seq<Row>, whole: nat -> multiset<Row>, n: nat)
    requires whole(0) == multiset{} && forall k: nat :: k < n ==> whole(k + 1) == whole(k) + multiset(parts(k))
    ensures multiset(Concat(parts, n)) == whole(n)
  {
    if n > 0 {
      ConcatCounts(parts, whole, n - 1);
      assert whole(n - 1 + 1) == whole(n - 1) + multiset(parts(n - 1));
    }
  }

  /** Read with an order that tells every two rows apart, so that each query sees
      the same list, the pages are that list: every row once, in order, also when
      their number is a multiple of the page. */
  lemma SameViewCollects(view: nat -> seq<Row>, all: seq<Row>, pages: nat)
    requires forall k: nat :: k < pages ==> view(k) == all
    ensures Collected(view, pages) == Cut(all, pages)
  {
    var whole := (k: nat) => Cut(all, k);
    forall k: nat | k < pages ensures whole(k + 1) == whole(k) + Parts(view)(k) {
      PageExtendsCut(all, k);
    }
    ConcatTelescopes(Parts(view), whole, pages);
  }

  lemma LastPage(n: nat, page: nat)
    ensures page < Pages(n) ==> (n < Start(page + 1) <==> Pages(n) == page + 1)
  {
  }

  predicate ByTime(a: Row, b: Row) {
    a.at <= b.at
  }

  predicate ByTimeAndId(a: Row, b: Row) {
    a.at < b.at || (a.at == b.at && a.id <= b.id)
  }

  /** What the database may answer page k with: the table's rows, in any order the
      query allows. */
  ghost predicate Views(view: nat -> seq<Row>, table: seq<Row>, order: (Row, Row) -> bool) {
    forall k :: SortedBy(view(k), order) && multiset(view(k)) == multiset(table)
  }

  lemma AllPages(all: seq<Row>)
    ensures |all| < Start(Pages(|all|))
  {
  }

  lemma TimesAndIdsAreOrdered()
    ensures TotalPreorder(ByTimeAndId) && Antisymmetric(ByTimeAndId)
  {
  }

  lemma OnlySortedView(view: seq<Row>, table: seq<Row>)
    requires SortedBy(view, ByTimeAndId) && multiset(view) == multiset(table)
    ensures view == Sort(table, ByTimeAndId)
  {
    TimesAndIdsAreOrdered();
    SortPermutes(table, ByTimeAndId);
    SortSorts(table, ByTimeAndId);
    SortedIsUnique(view, Sort(table, ByTimeAndId), ByTimeAndId);
  }

  /** The two tables read by (time, id) come out whole, sorted, once each. */
  lemma TotalOrderExports(view: nat -> seq<Row>, table: seq<Row>)
    requires Views(view, table, ByTimeAndId)
    ensures Collected(view, Pages(|table|)) == Sort(table, ByTimeAndId)
  {
    var all := Sort(table, ByTimeAndId);
    forall k: nat ensures view(k) == all {
      assert SortedBy(view(k), ByTimeAndId);
      OnlySortedView(view(k), table);
    }
    SameViewCollects(view, all, Pages(|table|));
    AllPages(all);
    SameElements(view(0), table);
    CutAll(all, Pages(|table|));
  }

  // ── Where ties fall ─────────────────────────────────────────────────────

  /** No two rows of the same instant on either side of a page boundary. */
  predicate NoTieAcross(all: seq<Row>, page: nat)
    requires 0 < page && Start(page) < |all|
  {
    all[Start(page) - 1].at < all[Start(page)].at
  }

  ghost predicate NoStraddle(all: seq<Row>) {
    forall page: nat :: 0 < page && Start(page) < |all| ==> NoTieAcross(all, page)
  }

  ghost predicate ExportsAll(view: nat -> seq<Row>, table: seq<Row>) {
    multiset(Collected(view, Pages(|table|))) == multiset(table)
  }

  function UpTo(bound: int): Row -> bool {
    (x: Row) => x.at <= bound
  }

  lemma AllUpTo(s: seq<Row>, n: nat, low: seq<Row>, bound: int)
    requires SortedBy(s, ByTime) && 0 < n <= |s| && low == s[..n] && s[n - 1].at <= bound
    ensures forall i :: 0 <= i < |low| ==> low[i].at <= bound
  {
    forall i | 0 <= i < n ensures low[i].at <= bound {
      assert i < n - 1 ==> ByTime(s[i], s[n - 1]);
    }
  }

  lemma NoneUpTo(s: seq<Row>, n: nat, high: seq<Row>, bound: int)
    requires SortedBy(s, ByTime) && n < |s| && high == s[n..] && bound < s[n].at
    ensures forall i :: 0 <= i < |high| ==> bound < high[i].at
  {
    forall i | 0 <= i < |high| ensures bound < high[i].at {
      assert i > 0 ==> ByTime(s[n], s[n + i]);
    }
  }

  lemma PrefixIsEarlier(s: seq<Row>, n: nat, bound: int)
    requires SortedBy(s, ByTime) && 0 < n < |s| && s[n - 1].at <= bound < s[n].at
    ensures s[..n] == Keep(s, UpTo(bound))
  {
    var low, high := s[..n], s[n..];
    assert s == low + high;
    KeepAppend(low, high, UpTo(bound));
    AllUpTo(s, n, low, bound);
    KeepAll(low, UpTo(bound));
    NoneUpTo(s, n, high, bound);
    KeepNone(high, UpTo(bound));
  }

  lemma SameKept(a: seq<Row>, b: seq<Row>, p: Row -> bool)
    requires multiset(a) == multiset(b)
    ensures multiset(Keep(a, p)) == multiset(Keep(b, p))
  {
    forall x ensures multiset(Keep(a, p))[x] == multiset(Keep(b, p))[x] {
      KeepCounts(a, p, x);
      KeepCounts(b, p, x);
    }
  }

  lemma SameTimeAt(all: seq<Row>, other: seq<Row>, i: nat)
    requires SortedBy(all, ByTime) && SortedBy(other, ByTime) && multiset(all) == multiset(other) && i < |all|
    ensures |other| == |all| && other[i].at == all[i].at
  {
    TimesAreOrdered();
    SameElements(all, other);
    SortedRunsAgree(all, other, ByTime, i);
    SortedRunsAgree(other, all, ByTime, i);
  }

  lemma SamePrefixAt(all: seq<Row>, other: seq<Row>, n: nat)
    requires SortedBy(all, ByTime) && SortedBy(other, ByTime) && multiset(all) == multiset(other)
    requires 0 < n < |all| == |other| && all[n - 1].at < all[n].at
    ensures multiset(all[..n]) == multiset(other[..n])
  {
    var bound := all[n - 1].at;
    SameTimeAt(all, other, n - 1);
    SameTimeAt(all, other, n);
    PrefixIsEarlier(all, n, bound);
    PrefixIsEarlier(other, n, bound);
    SameKept(all, other, UpTo(bound));
  }

  /** Up to a boundary no tie straddles, every view holds the same rows. */
  lemma SamePrefix(all: seq<Row>, other: seq<Row>, page: nat)
    requires SortedBy(all, ByTime) && SortedBy(other, ByTime) && multiset(all) == multiset(other)
    requires 0 < page && Start(page) < |all| ==> NoTieAcross(all, page)
    ensures multiset(Cut(all, page)) == multiset(Cut(other, page))
  {
    SameElements(all, other);
    if |all| <= Start(page) {
      CutAll(all, page);
      CutAll(other, page);
    } else if page > 0 {
      SamePrefixAt(all, other, Start(page));
    }
  }

  lemma CutAll(s: seq<Row>, page: nat)
    requires |s| <= Start(page)
    ensures Cut(s, page) == s
  {
  }

  lemma TimesAreOrdered()
    ensures TotalPreorder(ByTime)
  {
  }

  lemma PageFillsCut(all: seq<Row>, other: seq<Row>, page: nat)
    requires SortedBy(all, ByTime) && SortedBy(other, ByTime) && multiset(all) == multiset(other) && NoStraddle(all)
    ensures multiset(Cut(all, page + 1)) == multiset(Cut(all, page)) + multiset(Page(other, page))
  {
    BoundaryIsClear(all, page);
    BoundaryIsClear(all, page + 1);
    SamePrefix(all, other, page);
    SamePrefix(all, other, page + 1);
    PageExtendsCut(other, page);
  }

  lemma BoundaryIsClear(all: seq<Row>, page: nat)
    requires NoStraddle(all)
    ensures 0 < page && Start(page) < |all| ==> NoTieAcross(all, page)
  {
  }

  lemma NoStraddleExportsAll(view: nat -> seq<Row>, table: seq<Row>)
    requires Views(view, table, ByTime) && NoStraddle(Sort(table, ByTime))
    ensures ExportsAll(view, table)
  {
    var all := Sort(table, ByTime);
    TimesAreOrdered();
    SortPermutes(table, ByTime);
    SortSorts(table, ByTime);
    var whole := (k: nat) => multiset(Cut(all, k));
    forall k: nat ensures whole(k + 1) == whole(k) + multiset(Parts(view)(k)) {
      assert SortedBy(view(k), ByTime) && multiset(view(k)) == multiset(table);
      PageFillsCut(all, view(k), k);
    }
    ConcatCounts(Parts(view), whole, Pages(|all|));
    AllPages(all);
  }

  // ── Time order, whatever else ───────────────────────────────────────────

  function Times(rows: seq<Row>): seq<int> {
    seq(|rows|, i requires 0 <= i < |rows| => rows[i].at)
  }

  lemma TimesAppend(a: seq<Row>, b: seq<Row>)
    ensures Times(a + b) == Times(a) + Times(b)
  {
  }

  lemma SameTimesOnPage(a: seq<Row>, b: seq<Row>, page: nat)
    requires Times(a) == Times(b)
    ensures Times(Page(a, page)) == Times(Page(b, page))
  {
    assert |a| == |Times(a)| == |b|;
    assert forall i :: 0 <= i < |a| ==> a[i].at == Times(a)[i] == Times(b)[i] == b[i].at;
  }

  lemma {:induction false} CollectedTimes(view: nat -> seq<Row>, all: seq<Row>, pages: nat)
    requires forall k: nat :: k < pages ==> Times(view(k)) == Times(all)
    ensures Times(Collected(view, pages)) == Times(Cut(all, pages))
  {
    if pages > 0 {
      var page := pages - 1;
      CollectedTimes(view, all, page);
      assert Collected(view, pages) == Collected(view, page) + Page(view(page), page);
      TimesAppend(Collected(view, page), Page(view(page), page));
      SameTimesOnPage(view(page), all, page);
      PageExtendsCut(all, page);
      TimesAppend(Cut(all, page), Page(all, page));
    }
  }

  lemma SameTimes(all: seq<Row>, other: seq<Row>)
    requires SortedBy(all, ByTime) && SortedBy(other, ByTime) && multiset(all) == multiset(other)
    ensures Times(other) == Times(all)
  {
    SameElements(all, other);
    forall i | 0 <= i < |all| ensures other[i].at == all[i].at {
      SameTimeAt(all, other, i);
    }
  }

  lemma SortedTimes(a: seq<Row>, b: seq<Row>)
    requires Times(a) == Times(b) && SortedBy(b, ByTime)
    ensures SortedBy(a, ByTime)
  {
    assert |a| == |Times(a)| == |b|;
    forall i, j | 0 <= i < j < |a| ensures ByTime(a[i], a[j]) {
      assert a[i].at == Times(a)[i] == b[i].at && a[j].at == Times(a)[j] == b[j].at;
      assert ByTime(b[i], b[j]);
    }
  }

  /** Ordered by time alone, and whatever is lost or repeated at a boundary, the
      pages come out in time order, as many rows as the table has and with its
      very times. */
  lemma TimeOrderExports(view: nat -> seq<Row>, table: seq<Row>)
    requires Views(view, table, ByTime)
    ensures var out := Collected(view, Pages(|table|));
            |out| == |table| && SortedBy(out, ByTime) && Times(out) == Times(Sort(table, ByTime))
  {
    var all, out := Sort(table, ByTime), Collected(view, Pages(|table|));
    TimesAreOrdered();
    SortPermutes(table, ByTime);
    SortSorts(table, ByTime);
    SameElements(all, table);
    forall k: nat ensures Times(view(k)) == Times(all) {
      assert SortedBy(view(k), ByTime);
      SameTimes(all, view(k));
    }
    CollectedTimes(view, all, Pages(|table|));
    AllPages(all);
    assert |out| == |Times(out)|;
    SortedTimes(out, all);
  }

  function Swapped(all: seq<Row>, n: nat): seq<Row>
    requires 0 < n < |all|
  {
    all[n - 1 := all[n]][n := all[n - 1]]
  }

  /** The answers that lose a row: from the boundary on, pages are cut from the
      list with the tied pair the other way round. */
  function Unlucky(all: seq<Row>, page: nat): nat -> seq<Row>
    requires 0 < page && Start(page) < |all|
  {
    (k: nat) => if k >= page then Swapped(all, Start(page)) else all
  }

  lemma SwappedIsAView(all: seq<Row>, n: nat)
    requires SortedBy(all, ByTime) && 0 < n < |all| && all[n - 1].at == all[n].at
    ensures SortedBy(Swapped(all, n), ByTime) && multiset(Swapped(all, n)) == multiset(all)
  {
    forall i, j | 0 <= i < j < |all| ensures ByTime(Swapped(all, n)[i], Swapped(all, n)[j]) {
      assert ByTime(all[i], all[j]);
    }
  }

  lemma TailOfCut(other: seq<Row>, page: nat, k: nat)
    requires page <= k && Start(page) < |other|
    ensures Start(page) <= |Cut(other, k)|
    ensures Cut(other, k + 1)[Start(page)..] == Cut(other, k)[Start(page)..] + Page(other, k)
  {
    var n, shorter := Start(page), Cut(other, k);
    assert n <= Start(k);
    PageExtendsCut(other, k);
    assert (shorter + Page(other, k))[n..] == shorter[n..] + Page(other, k);
  }

  lemma {:induction false} UnluckyCollects(view: nat -> seq<Row>, all: seq<Row>, other: seq<Row>, page: nat, pages: nat)
    requires |other| == |all| && Start(page) < |all| && page <= pages
    requires forall k: nat :: view(k) == if k >= page then other else all
    ensures Start(page) <= |Cut(other, pages)|
    ensures Collected(view, pages) == all[..Start(page)] + Cut(other, pages)[Start(page)..]
    decreases pages - page
  {
    var n := Start(page);
    if pages == page {
      SameViewCollects(view, all, page);
      assert Cut(other, pages)[n..] == [];
    } else {
      var k := pages - 1;
      UnluckyCollects(view, all, other, page, k);
      TailOfCut(other, page, k);
      assert Collected(view, pages) == Collected(view, k) + Page(other, k);
      Regroup(all[..n], Cut(other, k)[n..], Page(other, k));
    }
  }

  lemma TwinTakesItsPlace(all: seq<Row>, n: nat)
    requires 0 < n < |all|
    ensures multiset(all[..n] + Swapped(all, n)[n..])[all[n - 1]] >= 2
  {
    var low, high, x := all[..n], Swapped(all, n)[n..], all[n - 1];
    assert low[n - 1] == x && high[0] == x;
    assert x in low && x in high;
    assert multiset(low + high)[x] == multiset(low)[x] + multiset(high)[x];
  }

  lemma UnluckyExport(all: seq<Row>, page: nat)
    requires 0 < page && Start(page) < |all|
    ensures Collected(Unlucky(all, page), Pages(|all|)) == all[..Start(page)] + Swapped(all, Start(page))[Start(page)..]
  {
    var other := Swapped(all, Start(page));
    AllPages(all);
    UnluckyCollects(Unlucky(all, page), all, other, page, Pages(|all|));
    CutAll(other, Pages(|all|));
  }

  lemma UnluckyViews(table: seq<Row>, all: seq<Row>, page: nat)
    requires SortedBy(all, ByTime) && multiset(all) == multiset(table)
    requires 0 < page && Start(page) < |all| && !NoTieAcross(all, page)
    ensures Views(Unlucky(all, page), table, ByTime)
  {
    assert ByTime(all[Start(page) - 1], all[Start(page)]);
    SwappedIsAView(all, Start(page));
  }

  lemma RepeatIsNotWhole(out: seq<Row>, table: seq<Row>, x: Row)
    requires Distinct(table) && multiset(out)[x] >= 2
    ensures multiset(out) != multiset(table)
  {
    DistinctCounts(table, x);
  }

  lemma StraddleLoses(table: seq<Row>, all: seq<Row>, page: nat)
    requires Distinct(table) && SortedBy(all, ByTime) && multiset(all) == multiset(table) && |all| == |table|
    requires 0 < page && Start(page) < |all| && !NoTieAcross(all, page)
    ensures Views(Unlucky(all, page), table, ByTime) && !ExportsAll(Unlucky(all, page), table)
  {
    UnluckyViews(table, all, page);
    UnluckyExport(all, page);
    TwinTakesItsPlace(all, Start(page));
    RepeatIsNotWhole(Collected(Unlucky(all, page), Pages(|table|)), table, all[Start(page) - 1]);
  }

  /** A tie across a boundary can hand one row over twice and its twin never. */
  lemma StraddleLosesARow(table: seq<Row>, page: nat)
    requires Distinct(table)
    requires var all := Sort(table, ByTime); 0 < page && Start(page) < |all| && !NoTieAcross(all, page)
    ensures var view := Unlucky(Sort(table, ByTime), page); Views(view, table, ByTime) && !ExportsAll(view, table)
  {
    var all := Sort(table, ByTime);
    TimesAreOrdered();
    SortPermutes(table, ByTime);
    SortSorts(table, ByTime);
    SameElements(all, table);
    StraddleLoses(table, all, page);
  }

  lemma BoundariesAreThousands(all: seq<Row>)
    requires SortedBy(all, ByTime)
    ensures NoStraddle(all) <==> forall i :: 0 < i < |all| && i % 1000 == 0 ==> all[i - 1].at != all[i].at
  {
    forall i | 0 < i < |all| && i % 1000 == 0 ensures NoStraddle(all) ==> all[i - 1].at != all[i].at {
      assert i == Start(i / 1000);
      assert NoStraddle(all) ==> NoTieAcross(all, i / 1000);
    }
    forall page: nat | 0 < page && Start(page) < |all|
      ensures all[Start(page) - 1].at != all[Start(page)].at ==> NoTieAcross(all, page)
      ensures Start(page) % 1000 == 0
    {
      assert ByTime(all[Start(page) - 1], all[Start(page)]);
    }
  }

  /** Ordered by time alone, the export is sure to hold every row once exactly
      when no two rows of one instant lie across a page boundary, which is at every
      thousandth row. */
  lemma ExportIsWholeIffNoStraddle(table: seq<Row>)
    requires Distinct(table)
    ensures var all := Sort(table, ByTime);
            (forall view: nat -> seq<Row> :: Views(view, table, ByTime) ==> ExportsAll(view, table))
            <==> forall i :: 0 < i < |all| && i % 1000 == 0 ==> all[i - 1].at != all[i].at
  {
    var all := Sort(table, ByTime);
    TimesAreOrdered();
    SortSorts(table, ByTime);
    BoundariesAreThousands(all);
    if NoStraddle(all) {
      forall view: nat -> seq<Row> | Views(view, table, ByTime) ensures ExportsAll(view, table) {
        NoStraddleExportsAll(view, table);
      }
    } else {
      var page: nat :| 0 < page && Start(page) < |all| && !NoTieAcross(all, page);
      StraddleLosesARow(table, page);
      assert Views(Unlucky(all, page), table, ByTime);
    }
  }
}
