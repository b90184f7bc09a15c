// The list queries of the repositories (GetAll) and the gorm scopes they are built from: filter, count, order, page.
module Listing {
  import opened Query
  import opened Pagination

  /** A table row: its columns' values. */
  type Row = map<string, string>

  function Field(row: Row, column: string): string { if column in row then row[column] else "" }

  /** How the database compares text: ILIKE, and the order of its collation. */
  datatype Database = Database(ilike: (string, string) -> bool, le: (string, string) -> bool)

  ghost predicate Ordered(d: Database) {
    && (forall a, b :: d.le(a, b) || d.le(b, a))
    && (forall a, b, c :: d.le(a, b) && d.le(b, c) ==> d.le(a, c))
  }

  // ---------------------------------------------------------------- queries

  datatype Where = ILike(column: string, pattern: string) | Equals(column: string, value: string)

  /** A query under construction: its WHERE clauses, all of which must hold, and its ORDER BY columns. */
  datatype Statement = Statement(wheres: seq<Where>, orders: seq<Sort>)

  predicate Holds(d: Database, w: Where, row: Row) {
    match w
    case ILike(column, pattern) => d.ilike(Field(row, column), pattern)
    case Equals(column, value) => Field(row, column) == value
  }

  predicate Selects(d: Database, st: Statement, row: Row) {
    forall w :: w in st.wheres ==> Holds(d, w, row)
  }

  /** What a resolved filter asks of a row. */
  predicate Passes(d: Database, f: Filter, row: Row) {
    if f.partial then d.ilike(Field(row, f.column), "%" + f.value + "%") else Field(row, f.column) == f.value
  }

  predicate PassesAll(d: Database, filters: seq<Filter>, row: Row) {
    forall f :: f in filters ==> Passes(d, f, row)
  }

  /** gorm.Filters: the rows selected are those that also pass every filter. */
  method Filters(ghost d: Database, opts: Options, db: Statement) returns (st: Statement)
    ensures forall row :: Selects(d, st, row) <==> Selects(d, db, row) && PassesAll(d, opts.filters, row)
    ensures st.orders == db.orders
  {
    st := db;
    for i := 0 to |opts.filters|
      invariant forall row :: Selects(d, st, row) <==> Selects(d, db, row) && PassesAll(d, opts.filters[..i], row)
      invariant st.orders == db.orders
    {
      var f := opts.filters[i];
      var clause := if f.partial then ILike(f.column, "%" + f.value + "%") else Equals(f.column, f.value);
      ghost var before := st;
      st := st.(wheres := st.wheres + [clause]);
      forall row ensures Selects(d, st, row) <==> Selects(d, before, row) && Passes(d, f, row) {
        OneMoreWhere(d, before, clause, row);
      }
      forall row
        ensures PassesAll(d, opts.filters[..i + 1], row) <==> PassesAll(d, opts.filters[..i], row) && Passes(d, f, row)
      {
        OneMoreFilter(d, opts.filters, i, row);
      }
    }
    assert opts.filters[..|opts.filters|] == opts.filters;
  }

  lemma OneMoreWhere(d: Database, st: Statement, w: Where, row: Row)
    ensures Selects(d, st.(wheres := st.wheres + [w]), row) <==> Selects(d, st, row) && Holds(d, w, row)
  {
    hide Holds;
    var st' := st.(wheres := st.wheres + [w]);
    if Selects(d, st', row) {
      assert w in st'.wheres;
      forall v | v in st.wheres ensures Holds(d, v, row) { assert v in st'.wheres; }
    }
  }

  lemma OneMoreFilter(d: Database, filters: seq<Filter>, i: nat, row: Row)
    requires i < |filters|
    ensures PassesAll(d, filters[..i + 1], row) <==> PassesAll(d, filters[..i], row) && Passes(d, filters[i], row)
  {
    hide Passes;
    assert filters[..i + 1] == filters[..i] + [filters[i]];
    if PassesAll(d, filters[..i + 1], row) {
      assert filters[i] in filters[..i + 1];
      forall f | f in filters[..i] ensures Passes(d, f, row) { assert f in filters[..i + 1]; }
    }
  }

  /** gorm.Sorts: the ORDER BY columns are added in order of priority. */
  method Sorts(opts: Options, db: Statement) returns (st: Statement)
    ensures st.wheres == db.wheres && st.orders == db.orders + opts.sorts
  {
    st := db;
    for i := 0 to |opts.sorts|
      invariant st.wheres == db.wheres && st.orders == db.orders + opts.sorts[..i]
    {
      st := st.(orders := st.orders + [Sort(opts.sorts[i].column, opts.sorts[i].desc)]);
      assert opts.sorts[..i + 1] == opts.sorts[..i] + [opts.sorts[i]];
    }
    assert opts.sorts[..|opts.sorts|] == opts.sorts;
  }

  // ---------------------------------------------------------------- answers

  /** x may come before y. */
  predicate Before(d: Database, sorts: seq<Sort>, x: Row, y: Row) {
    sorts == []
    || (var a, b := Field(x, sorts[0].column), Field(y, sorts[0].column);
        if d.le(a, b) && d.le(b, a) then Before(d, sorts[1..], x, y)
        else if sorts[0].desc then d.le(b, a) else d.le(a, b))
  }

  predicate Tied(d: Database, sorts: seq<Sort>, x: Row, y: Row) { Before(d, sorts, x, y) && Before(d, sorts, y, x) }

  ghost predicate Sorted(d: Database, sorts: seq<Sort>, rows: seq<Row>) {
    forall i, j :: 0 <= i < j < |rows| ==> Before(d, sorts, rows[i], rows[j])
  }

  /** The two texts rank alike. */
  predicate Alike(d: Database, a: string, b: string) { d.le(a, b) && d.le(b, a) }

  /** On this column x ranks no higher than y, or descending no lower. */
  predicate Ranks(d: Database, s: Sort, x: Row, y: Row) {
    if s.desc then d.le(Field(y, s.column), Field(x, s.column)) else d.le(Field(x, s.column), Field(y, s.column))
  }

  ghost predicate AlikeOn(d: Database, sorts: seq<Sort>, x: Row, y: Row) {
    forall s :: s in sorts ==> Alike(d, Field(x, s.column), Field(y, s.column))
  }

  /** x may precede y: they rank so on every sort column whose predecessors rank them alike. */
  ghost predicate InOrder(d: Database, sorts: seq<Sort>, x: Row, y: Row) {
    forall k :: 0 <= k < |sorts| && AlikeOn(d, sorts[..k], x, y) ==> Ranks(d, sorts[k], x, y)
  }

  lemma AlikeOnOneMore(d: Database, sorts: seq<Sort>, k: nat, x: Row, y: Row)
    requires k < |sorts|
    ensures AlikeOn(d, sorts[..k + 1], x, y) <==>
            Alike(d, Field(x, sorts[0].column), Field(y, sorts[0].column)) && AlikeOn(d, sorts[1..][..k], x, y)
  {
    hide Field, Alike;
    assert sorts[..k + 1] == [sorts[0]] + sorts[1..][..k];
  }

  lemma InOrderByColumn(d: Database, sorts: seq<Sort>, x: Row, y: Row)
    requires sorts != []
    ensures InOrder(d, sorts, x, y) <==>
            && Ranks(d, sorts[0], x, y)
            && (Alike(d, Field(x, sorts[0].column), Field(y, sorts[0].column)) ==> InOrder(d, sorts[1..], x, y))
  {
    var rest := sorts[1..];
    assert AlikeOn(d, sorts[..0], x, y);
    hide Field, Alike, Ranks, AlikeOn;
    forall k | 0 <= k < |rest|
      ensures AlikeOn(d, sorts[..k + 1], x, y) <==>
              Alike(d, Field(x, sorts[0].column), Field(y, sorts[0].column)) && AlikeOn(d, rest[..k], x, y)
    {
      AlikeOnOneMore(d, sorts, k, x, y);
    }
    if InOrder(d, sorts, x, y) && Alike(d, Field(x, sorts[0].column), Field(y, sorts[0].column)) {
      forall k | 0 <= k < |rest| && AlikeOn(d, rest[..k], x, y) ensures Ranks(d, rest[k], x, y) {
        assert AlikeOn(d, sorts[..k + 1], x, y) && sorts[k + 1] == rest[k];
      }
    }
    if Ranks(d, sorts[0], x, y)
       && (Alike(d, Field(x, sorts[0].column), Field(y, sorts[0].column)) ==> InOrder(d, rest, x, y))
    {
      forall k | 0 <= k < |sorts| && AlikeOn(d, sorts[..k], x, y) ensures Ranks(d, sorts[k], x, y) {
        if k > 0 { assert sorts[k] == rest[k - 1] && AlikeOn(d, rest[..k - 1], x, y); }
      }
    }
  }

  /** The comparison as it is made, column by column until one decides, says the same. */
  lemma {:induction false} BeforeIffInOrder(d: Database, sorts: seq<Sort>, x: Row, y: Row)
    ensures Before(d, sorts, x, y) <==> InOrder(d, sorts, x, y)
  {
    if sorts != [] {
      BeforeIffInOrder(d, sorts[1..], x, y);
      InOrderByColumn(d, sorts, x, y);
      hide InOrder, Field;
    }
  }

  function Selected(d: Database, st: Statement, table: seq<Row>): seq<Row> {
    if table == [] then []
    else (if Selects(d, st, table[0]) then [table[0]] else []) + Selected(d, st, table[1..])
  }

  function Matching(d: Database, filters: seq<Filter>, table: seq<Row>): seq<Row> {
    if table == [] then []
    else (if PassesAll(d, filters, table[0]) then [table[0]] else []) + Matching(d, filters, table[1..])
  }

  /** What the database may answer to a query without OFFSET and LIMIT: the matching rows, in any order that the sorts
      allow. */
  ghost predicate IsAnswer(d: Database, opts: Options, table: seq<Row>, rows: seq<Row>) {
    multiset(rows) == multiset(Matching(d, opts.filters, table)) && Sorted(d, opts.sorts, rows)
  }

  lemma {:induction false} SelectedIsMatching(d: Database, st: Statement, filters: seq<Filter>, table: seq<Row>)
    requires forall row :: Selects(d, st, row) <==> PassesAll(d, filters, row)
    ensures Selected(d, st, table) == Matching(d, filters, table)
  {
    hide Selects, PassesAll;
    if table != [] { SelectedIsMatching(d, st, filters, table[1..]); }
  }

  /** The same of a statement. */
  ghost predicate Answers(d: Database, st: Statement, table: seq<Row>, rows: seq<Row>) {
    multiset(rows) == multiset(Selected(d, st, table)) && Sorted(d, st.orders, rows)
  }

  lemma AnswerMeans(d: Database, st: Statement, opts: Options, table: seq<Row>, rows: seq<Row>)
    requires Answers(d, st, table, rows) && forall row :: Selects(d, st, row) <==> PassesAll(d, opts.filters, row)
    ensures |rows| == |Matching(d, opts.filters, table)|
    ensures st.orders == opts.sorts ==> IsAnswer(d, opts, table, rows)
  {
    SelectedIsMatching(d, st, opts.filters, table);
    hide Selected, Matching, Sorted;
    assert |multiset(rows)| == |multiset(Selected(d, st, table))|;
  }

  lemma {:induction false} MatchingCounts(d: Database, filters: seq<Filter>, table: seq<Row>, row: Row)
    ensures multiset(Matching(d, filters, table))[row] == if PassesAll(d, filters, row) then multiset(table)[row] else 0
  {
    hide PassesAll;
    if table != [] {
      MatchingCounts(d, filters, table[1..], row);
      assert table == [table[0]] + table[1..];
    }
  }

  lemma AnswerMeansInOrder(d: Database, opts: Options, table: seq<Row>, rows: seq<Row>)
    requires IsAnswer(d, opts, table, rows)
    ensures forall row :: multiset(rows)[row] == if PassesAll(d, opts.filters, row) then multiset(table)[row] else 0
    ensures forall i, j :: 0 <= i < j < |rows| ==> InOrder(d, opts.sorts, rows[i], rows[j])
  {
    hide PassesAll, Matching, Before, InOrder;
    forall row
      ensures multiset(rows)[row] == if PassesAll(d, opts.filters, row) then multiset(table)[row] else 0
    {
      MatchingCounts(d, opts.filters, table, row);
    }
    forall i, j | 0 <= i < j < |rows| ensures InOrder(d, opts.sorts, rows[i], rows[j]) {
      BeforeIffInOrder(d, opts.sorts, rows[i], rows[j]);
    }
  }

  /** In a listing the value of an earlier row ranks no higher on an ascending column than that of a later row, and no
      lower on a descending one, wherever the columns sorted by before it rank them alike. */
  lemma AnswerIsOrdered(d: Database, opts: Options, table: seq<Row>, rows: seq<Row>, i: nat, j: nat, k: nat)
    requires IsAnswer(d, opts, table, rows) && i < j < |rows| && k < |opts.sorts|
    requires forall s :: s in opts.sorts ==> s.column in rows[i] && s.column in rows[j]
    requires forall s :: s in opts.sorts[..k] ==>
               d.le(rows[i][s.column], rows[j][s.column]) && d.le(rows[j][s.column], rows[i][s.column])
    ensures var column := opts.sorts[k].column;
            && opts.sorts[k] in opts.sorts
            && (!opts.sorts[k].desc ==> d.le(rows[i][column], rows[j][column]))
            && (opts.sorts[k].desc ==> d.le(rows[j][column], rows[i][column]))
  {
    hide IsAnswer;
    AnswerMeansInOrder(d, opts, table, rows);
    forall s | s in opts.sorts[..k]
      ensures s in opts.sorts && Alike(d, Field(rows[i], s.column), Field(rows[j], s.column))
    {
      assert s in opts.sorts;
    }
    assert AlikeOn(d, opts.sorts[..k], rows[i], rows[j]);
    assert InOrder(d, opts.sorts, rows[i], rows[j]);
  }

  /** repository.GetAll: a COUNT, then one page of the ordered rows. `plan` is how the database answers each statement
      this time; rows that tie may come in another order the next. */
  method GetAll(d: Database, table: seq<Row>, plan: Statement -> seq<Row>, p: Params, opts: Options, counted: bool,
          found: bool)
    returns (rows: seq<Row>, total: int, err: bool, ghost answer: seq<Row>)
    requires Valid(p) && forall st :: Answers(d, st, table, plan(st))
    ensures err <==> !counted || !found
    ensures !err ==> total == |Matching(d, opts.filters, table)|
    ensures !err ==> IsAnswer(d, opts, table, answer) && rows == PageOf(answer, p)
    ensures !err ==> forall row ::
              multiset(answer)[row] == if PassesAll(d, opts.filters, row) then multiset(table)[row] else 0
    ensures !err ==> forall i, j :: 0 <= i < j < |answer| ==> InOrder(d, opts.sorts, answer[i], answer[j])
    ensures err ==> rows == [] && total == 0
  {
    hide Answers, Sorted, IsAnswer, PassesAll, InOrder, Matching;
    if !counted { return [], 0, true, []; }
    var st := Filters(d, opts, Statement([], []));
    AnswerMeans(d, st, opts, table, plan(st));
    total := |plan(st)|;
    if !found { return [], 0, true, []; }
    st := Filters(d, opts, Statement([], []));
    st := Sorts(opts, st);
    AnswerMeans(d, st, opts, table, plan(st));
    answer := plan(st);
    AnswerMeansInOrder(d, opts, table, answer);
    rows, err := PageOf(plan(st), p), false;
  }

  // --------------------------------------------------------------- the order

  lemma {:induction false} BeforeIsTotal(d: Database, sorts: seq<Sort>, x: Row, y: Row)
    requires Ordered(d)
    ensures Before(d, sorts, x, y) || Before(d, sorts, y, x)
  {
    if sorts != [] { BeforeIsTotal(d, sorts[1..], x, y); }
  }

  lemma {:induction false} BeforeIsTransitive(d: Database, sorts: seq<Sort>, x: Row, y: Row, z: Row)
    requires Ordered(d) && Before(d, sorts, x, y) && Before(d, sorts, y, z)
    ensures Before(d, sorts, x, z)
  {
    if sorts != [] {
      var a, b, c := Field(x, sorts[0].column), Field(y, sorts[0].column), Field(z, sorts[0].column);
      if d.le(a, b) && d.le(b, a) && d.le(b, c) && d.le(c, b) { BeforeIsTransitive(d, sorts[1..], x, y, z); }
    }
  }

  /** The sorts leave no two of these rows in doubt. */
  ghost predicate Distinguishes(d: Database, sorts: seq<Sort>, rows: seq<Row>) {
    forall x, y :: x in rows && y in rows && Tied(d, sorts, x, y) ==> x == y
  }

  /** Then there is only one order they allow. */
  lemma {:induction false} OneOrder(d: Database, sorts: seq<Sort>, a: seq<Row>, b: seq<Row>)
    requires multiset(a) == multiset(b) && Sorted(d, sorts, a) && Sorted(d, sorts, b) && Distinguishes(d, sorts, a)
    ensures a == b
    decreases |a|
  {
    assert |multiset(a)| == |a| && |multiset(b)| == |b|;
    if a != [] {
      SameFirst(d, sorts, a, b);
      Tail(d, sorts, a);
      Tail(d, sorts, b);
      hide Sorted, Distinguishes;
      OneOrder(d, sorts, a[1..], b[1..]);
      assert a == [a[0]] + a[1..] && b == [b[0]] + b[1..];
    }
  }

  lemma SameFirst(d: Database, sorts: seq<Sort>, a: seq<Row>, b: seq<Row>)
    requires |a| == |b| > 0 && multiset(a) == multiset(b)
    requires Sorted(d, sorts, a) && Sorted(d, sorts, b) && Distinguishes(d, sorts, a)
    ensures a[0] == b[0]
  {
    hide Before;
    assert a[0] in multiset(a) && b[0] in multiset(b);
    assert a[0] in b && b[0] in a;
    FirstIsLeast(d, sorts, a, b[0]);
    FirstIsLeast(d, sorts, b, a[0]);
    assert Tied(d, sorts, a[0], b[0]) || a[0] == b[0];
  }

  lemma Tail(d: Database, sorts: seq<Sort>, rows: seq<Row>)
    requires rows != [] && Sorted(d, sorts, rows)
    ensures multiset(rows[1..]) == multiset(rows) - multiset{rows[0]}
    ensures Sorted(d, sorts, rows[1..])
    ensures Distinguishes(d, sorts, rows) ==> Distinguishes(d, sorts, rows[1..])
  {
    hide Before, Tied;
    assert rows == [rows[0]] + rows[1..];
    assert forall x :: x in rows[1..] ==> x in rows;
  }

  lemma FirstIsLeast(d: Database, sorts: seq<Sort>, rows: seq<Row>, x: Row)
    requires Sorted(d, sorts, rows) && x in rows
    ensures x == rows[0] || Before(d, sorts, rows[0], x)
  {
  }

  // -------------------------------------------------------------- guarantees

  /** Pages 1, 2, ... of a listing, each cut from what the database answered to its own query. */
  function Fetched(answers: seq<seq<Row>>, limit: int): seq<Row>
    requires limit >= 0
  {
    if answers == [] then []
    else Fetched(answers[..|answers| - 1], limit) + PageOf(answers[|answers| - 1], Params(|answers|, limit))
  }

  lemma {:induction false} FetchedFromOne(answers: seq<seq<Row>>, rows: seq<Row>, limit: int)
    requires limit >= 0 && forall a :: a in answers ==> a == rows
    ensures Fetched(answers, limit) == PagesUpTo(rows, limit, |answers|)
  {
    hide PageOf;
    if answers != [] {
      var n := |answers| - 1;
      assert answers[n] in answers;
      forall a | a in answers[..n] ensures a == rows { assert a in answers; }
      FetchedFromOne(answers[..n], rows, limit);
    }
  }

  ghost predicate AllAnswers(d: Database, opts: Options, table: seq<Row>, answers: seq<seq<Row>>) {
    forall a :: a in answers ==> IsAnswer(d, opts, table, a)
  }

  /** Fetching every page shows each matching row exactly as often as it is in the table. */
  ghost predicate Complete(d: Database, opts: Options, table: seq<Row>, limit: int)
    requires 1 <= limit <= MAX_LIMIT
  {
    var n := NewMeta(Params(1, limit), |Matching(d, opts.filters, table)|).totalPages;
    forall answers :: |answers| == n && AllAnswers(d, opts, table, answers) ==>
      multiset(Fetched(answers, limit)) == multiset(Matching(d, opts.filters, table))
  }

  lemma SameRows(d: Database, opts: Options, table: seq<Row>, a: seq<Row>)
    requires IsAnswer(d, opts, table, a)
    ensures |a| == |Matching(d, opts.filters, table)|
    ensures forall x :: x in a <==> x in Matching(d, opts.filters, table)
  {
    var m := Matching(d, opts.filters, table);
    assert |multiset(a)| == |multiset(m)|;
    forall x ensures x in a <==> x in m { assert x in multiset(a) <==> x in multiset(m); }
  }

  /** If the sorts distinguish the matching rows, the pages - each from a query of its own, and whatever the filters -
      concatenate to the one ordered listing. */
  lemma PagesTileTheListing(d: Database, opts: Options, table: seq<Row>, rows: seq<Row>, answers: seq<seq<Row>>,
          p: Params)
    requires Valid(p) && |Matching(d, opts.filters, table)| + p.limit - 1 <= Text.MAX_INT
    requires Distinguishes(d, opts.sorts, Matching(d, opts.filters, table))
    requires IsAnswer(d, opts, table, rows) && AllAnswers(d, opts, table, answers)
    requires |answers| == NewMeta(p, |Matching(d, opts.filters, table)|).totalPages
    ensures Fetched(answers, p.limit) == rows
  {
    hide NewMeta, PageOf;
    SameRows(d, opts, table, rows);
    forall a | a in answers ensures a == rows { OneOrder(d, opts.sorts, rows, a); }
    FetchedFromOne(answers, rows, p.limit);
    PagesTile(rows, p);
  }

  function Swap(rows: seq<Row>, i: nat, j: nat): seq<Row>
    requires i < |rows| && j < |rows|
  {
    rows[i := rows[j]][j := rows[i]]
  }

  lemma BetweenTiedIsTied(d: Database, sorts: seq<Sort>, rows: seq<Row>, i: nat, k: nat, j: nat)
    requires Ordered(d) && Sorted(d, sorts, rows) && i <= k <= j < |rows| && i < j && Tied(d, sorts, rows[i], rows[j])
    ensures Tied(d, sorts, rows[i], rows[k])
  {
    hide Before;
    BeforeIsTotal(d, sorts, rows[i], rows[i]);
    if i < k < j { BeforeIsTransitive(d, sorts, rows[k], rows[j], rows[i]); }
  }

  /** Two rows that tie may come in either order. */
  lemma TiedMaySwap(d: Database, sorts: seq<Sort>, rows: seq<Row>, i: nat, j: nat)
    requires Ordered(d) && Sorted(d, sorts, rows) && i < j < |rows| && Tied(d, sorts, rows[i], rows[j])
    ensures Sorted(d, sorts, Swap(rows, i, j))
  {
    hide Before;
    var swapped := Swap(rows, i, j);
    forall k | i <= k <= j ensures Tied(d, sorts, rows[i], swapped[k]) {
      BetweenTiedIsTied(d, sorts, rows, i, if k == i then j else if k == j then i else k, j);
    }
    forall k, l | 0 <= k < l < |swapped| ensures Before(d, sorts, swapped[k], swapped[l]) {
      if i <= k <= j && i <= l <= j {
        BeforeIsTransitive(d, sorts, swapped[k], rows[i], swapped[l]);
      } else if i <= k <= j {
        BeforeIsTransitive(d, sorts, swapped[k], rows[i], swapped[l]);
      } else if i <= l <= j && k < i {
        BeforeIsTransitive(d, sorts, swapped[k], rows[i], swapped[l]);
      }
    }
  }

  lemma SinglePage(rows: seq<Row>, k: nat)
    requires k < |rows| <= Text.MAX_INT
    ensures PageOf(rows, Params(k + 1, 1)) == [rows[k]]
  {
    PageIsPromised(rows, Params(k + 1, 1));
  }

  /** With one row to a page, page k shows the k-th row of the k-th answer. */
  lemma {:induction false} FetchedOneByOne(answers: seq<seq<Row>>)
    requires |answers| <= Text.MAX_INT && forall a :: a in answers ==> |answers| <= |a| <= Text.MAX_INT
    ensures |Fetched(answers, 1)| == |answers|
    ensures forall k :: 0 <= k < |answers| ==> k < |answers[k]| && Fetched(answers, 1)[k] == answers[k][k]
  {
    hide PageOf;
    if answers != [] {
      var n := |answers| - 1;
      var before := answers[..n];
      forall a | a in before ensures a in answers {}
      FetchedOneByOne(before);
      assert answers[n] in answers;
      SinglePage(answers[n], n);
      forall k | 0 <= k < |answers| ensures k < |answers[k]| && Fetched(answers, 1)[k] == answers[k][k] {
        assert answers[k] in answers;
        if k < n { assert before[k] == answers[k]; }
      }
    }
  }

  /** Otherwise there are answers under which one row is shown twice, and another never. */
  lemma TiesLoseRows(d: Database, opts: Options, table: seq<Row>, rows: seq<Row>, i: nat, j: nat)
    requires Ordered(d) && IsAnswer(d, opts, table, rows) && |rows| <= Text.MAX_INT
    requires i < j < |rows| && Tied(d, opts.sorts, rows[i], rows[j]) && rows[i] != rows[j]
    ensures !Complete(d, opts, table, 1)
  {
    SameRows(d, opts, table, rows);
    MetaCounts(Params(1, 1), |rows|);
    TiedMaySwap(d, opts.sorts, rows, i, j);
    var answers := OneOddAnswer(rows, i, j);
    assert multiset(Swap(rows, i, j)) == multiset(rows);
    hide NewMeta, PageOf, Sorted, Tied, Matching, Fetched, Swap;
    forall a | a in answers ensures IsAnswer(d, opts, table, a) {}
    assert AllAnswers(d, opts, table, answers);
    assert multiset(Fetched(answers, 1)) != multiset(rows);
  }

  /** Every query answered alike, but for the one that fetches row j: there rows i and j are exchanged. */
  lemma OneOddAnswer(rows: seq<Row>, i: nat, j: nat) returns (answers: seq<seq<Row>>)
    requires i < j < |rows| <= Text.MAX_INT && rows[i] != rows[j]
    ensures |answers| == |rows| && forall a :: a in answers ==> a == rows || a == Swap(rows, i, j)
    ensures multiset(Fetched(answers, 1))[rows[i]] == multiset(rows)[rows[i]] + 1
  {
    hide Fetched;
    answers := seq(|rows|, k => if k == j then Swap(rows, i, j) else rows);
    FetchedOneByOne(answers);
    assert Fetched(answers, 1) == rows[j := rows[i]];
  }

  lemma TiedPositions(d: Database, sorts: seq<Sort>, rows: seq<Row>) returns (i: nat, j: nat)
    requires !Distinguishes(d, sorts, rows)
    ensures i < j < |rows| && Tied(d, sorts, rows[i], rows[j]) && rows[i] != rows[j]
  {
    hide Before;
    var x, y :| x in rows && y in rows && Tied(d, sorts, x, y) && x != y;
    i :| 0 <= i < |rows| && rows[i] == x;
    j :| 0 <= j < |rows| && rows[j] == y;
    if j < i { i, j := j, i; }
  }

  /** Paging shows every matching row exactly once, at every page size and whatever the database answers, if and only if
      the sorts distinguish the matching rows: without a sort, or sorting by a column with equal values, it may not. */
  lemma PagingIsCompleteIff(d: Database, opts: Options, table: seq<Row>, rows: seq<Row>)
    requires Ordered(d) && IsAnswer(d, opts, table, rows) && |rows| + MAX_LIMIT - 1 <= Text.MAX_INT
    ensures (forall limit :: 1 <= limit <= MAX_LIMIT ==> Complete(d, opts, table, limit))
       <==> Distinguishes(d, opts.sorts, Matching(d, opts.filters, table))
  {
    SameRows(d, opts, table, rows);
    var matching := Matching(d, opts.filters, table);
    if Distinguishes(d, opts.sorts, matching) {
      forall limit | 1 <= limit <= MAX_LIMIT ensures Complete(d, opts, table, limit) {
        CompleteAt(d, opts, table, rows, limit);
      }
    } else {
      assert !Distinguishes(d, opts.sorts, rows);
      var i, j := TiedPositions(d, opts.sorts, rows);
      TiesLoseRows(d, opts, table, rows, i, j);
    }
  }

  lemma CompleteAt(d: Database, opts: Options, table: seq<Row>, rows: seq<Row>, limit: int)
    requires IsAnswer(d, opts, table, rows) && |rows| + MAX_LIMIT - 1 <= Text.MAX_INT && 1 <= limit <= MAX_LIMIT
    requires Distinguishes(d, opts.sorts, Matching(d, opts.filters, table))
    ensures Complete(d, opts, table, limit)
  {
    SameRows(d, opts, table, rows);
    hide NewMeta, Distinguishes, AllAnswers, Matching, Sorted;
    var n := NewMeta(Params(1, limit), |Matching(d, opts.filters, table)|).totalPages;
    forall answers | |answers| == n && AllAnswers(d, opts, table, answers)
      ensures multiset(Fetched(answers, limit)) == multiset(Matching(d, opts.filters, table))
    {
      PagesTileTheListing(d, opts, table, rows, answers, Params(1, limit));
    }
  }

  lemma {:induction false} SameFiltersSameRows(d: Database, f1: seq<Filter>, f2: seq<Filter>, table: seq<Row>)
    requires forall f :: f in f1 <==> f in f2
    ensures Matching(d, f1, table) == Matching(d, f2, table)
  {
    hide Passes;
    if table != [] {
      assert PassesAll(d, f1, table[0]) <==> PassesAll(d, f2, table[0]);
      SameFiltersSameRows(d, f1, f2, table[1..]);
    }
  }

  /** The rows a request selects do not depend on the order in which Go ranges over its parameters. */
  lemma IterationOrderIsIrrelevant(d: Database, table: seq<Row>, values: Values, schema: Schema,
                                   keys1: seq<string>, keys2: seq<string>, f1: seq<Filter>, f2: seq<Filter>)
    requires FiltersOf(f1, keys1, values, schema) && FiltersOf(f2, keys2, values, schema)
    requires forall key :: key in keys1 <==> key in keys2
    ensures Matching(d, f1, table) == Matching(d, f2, table)
  {
    FilterOrderIsIrrelevant(f1, f2, keys1, keys2, values, schema);
    SameFiltersSameRows(d, f1, f2, table);
  }

  /** A listing shows the rows that have what every such parameter asks for: the text itself, or for a field of the
      partial kind anything ILIKE that text between two percent signs; other parameters make no difference. */
  lemma RowsAreAsAskedFor(d: Database, values: Values, schema: Schema, keys: seq<string>, filters: seq<Filter>,
                          row: Row)
    requires FiltersOf(filters, keys, values, schema) && forall key :: key in keys <==> key in values
    requires forall field :: field in schema ==> schema[field].column in row
    ensures PassesAll(d, filters, row) <==>
            forall field, v :: AskedFor(values, schema, field, v) ==>
              var text := row[schema[field].column];
              if schema[field].partial then d.ilike(text, "%" + v + "%") else text == v
  {
    FiltersAreThoseAskedFor(filters, keys, values, schema);
    hide AskedFor, FiltersOf;
    if PassesAll(d, filters, row) {
      forall field, v | AskedFor(values, schema, field, v)
        ensures var text := row[schema[field].column];
                if schema[field].partial then d.ilike(text, "%" + v + "%") else text == v
      {
        assert Resolved(schema, field, v) in filters;
      }
    }
  }
}
