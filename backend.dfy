/**
 * The server (backend/main.py): the month window of the `month` query
 * parameter, the per-user record queries and their totals, and the record store
 * that signup, expense creation and deletion change.
 *
 * A table is a sequence of rows; `db.query(...).filter(...)` is `Select`, a
 * sequence filter that keeps the table's order.
 */
module Backend {
  import opened Wrappers
  import opened Grouping

  const MinYear := 1
  const MaxYear := 9999

  predicate IsLeapYear(y: int) {
    y % 4 == 0 && (y % 100 != 0 || y % 400 == 0)
  }

  function DaysInMonth(y: int, m: int): int {
    if m == 2 then (if IsLeapYear(y) then 29 else 28)
    else if m == 4 || m == 6 || m == 9 || m == 11 then 30
    else 31
  }

  datatype DateFields = DateFields(year: int, month: int, day: int)

  /** A calendar date Python's `date` can hold (years 1 to 9999). */
  type Date = d: DateFields | MinYear <= d.year <= MaxYear && 1 <= d.month <= 12 && 1 <= d.day <= DaysInMonth(d.year, d.month)
    witness DateFields(1970, 1, 1)

  datatype YearMonth = YearMonth(year: int, month: int)

  /** A `month` query parameter that `strptime(month + "-01", "%Y-%m-%d")` accepts. */
  type Month = m: YearMonth | MinYear <= m.year <= MaxYear && 1 <= m.month <= 12
    witness YearMonth(1970, 1)

  /** Chronological order of dates, as Python compares them. */
  predicate Before(a: DateFields, b: DateFields) {
    a.year < b.year || (a.year == b.year && (a.month < b.month || (a.month == b.month && a.day < b.day)))
  }

  predicate NotAfter(a: DateFields, b: DateFields) {
    !Before(b, a)
  }

  /** An HTTP error response: the status and the `detail` text. */
  datatype HttpError = HttpError(status: int, detail: string)

  /** A `ValueError` escaping a handler answers 500. */
  const ServerError := HttpError(500, "Internal Server Error")

  /** The half-open window `start <= date < end`. */
  datatype Range = Range(start: DateFields, end: DateFields)

  predicate InRange(d: DateFields, r: Range) {
    NotAfter(r.start, d) && Before(d, r.end)
  }

  /**
   * The window of a month: from its first day up to the first day of the next
   * month, December rolling over into January of the next year. A date lies in
   * it exactly when it has that year and month. For December 9999 the end date
   * cannot be constructed and the request fails.
   */
  function MonthRange(m: Month): (r: Result<Range, HttpError>)
    ensures r.Err? <==> m.year == MaxYear && m.month == 12
    ensures r.Err? ==> r.error == ServerError
    ensures r.Ok? ==> Before(r.value.start, r.value.end)
    ensures r.Ok? ==> forall d: Date :: InRange(d, r.value) <==> d.year == m.year && d.month == m.month
  {
    var start := DateFields(m.year, m.month, 1);
    if m.month == 12 then
      if m.year + 1 > MaxYear then Err(ServerError)
      else Ok(Range(start, DateFields(m.year + 1, 1, 1)))
    else Ok(Range(start, DateFields(m.year, m.month + 1, 1)))
  }

  /** The date window of an optional `month` parameter; without one there is no date filter. */
  function Window(month: Option<Month>): Result<Option<Range>, HttpError> {
    match month
    case None => Ok(None)
    case Some(m) =>
      match MonthRange(m)
      case Ok(r) => Ok(Some(r))
      case Err(e) => Err(e)
  }

  /** An `expenses` row; `kind` is the column `type` ("income", "expense" or anything else). */
  datatype Expense = Expense(id: int, amount: int, category: string, description: Option<string>,
                             date: Date, kind: string, userId: int)

  function KindOf(e: Expense): string { e.kind }
  function AmountOf(e: Expense): int { e.amount }
  function CategoryOf(e: Expense): string { e.category }
  /** `e.date.strftime("%Y-%m")`, kept as the pair it is printed from. */
  function MonthOf(e: Expense): YearMonth { YearMonth(e.date.year, e.date.month) }

  /** The filters of a query: the owner, optionally the type, optionally a date window. */
  datatype Query = Query(user: int, kind: Option<string>, window: Option<Range>)

  predicate Matches(q: Query, e: Expense) {
    && e.userId == q.user
    && (q.kind.Some? ==> e.kind == q.kind.value)
    && (q.window.Some? ==> InRange(e.date, q.window.value))
  }

  /** The rows of `table` that pass every filter of `q`, in table order. */
  function Select(table: seq<Expense>, q: Query): (rows: seq<Expense>)
    ensures |rows| <= |table|
  {
    if table == [] then []
    else
      var last := table[|table| - 1];
      Select(table[..|table| - 1], q) + if Matches(q, last) then [last] else []
  }

  /** A row is selected exactly when it is in the table and passes the filters. */
  lemma {:induction false} SelectMembers(table: seq<Expense>, q: Query)
    ensures forall e :: e in Select(table, q) <==> e in table && Matches(q, e)
  {
    if table != [] {
      var init := table[..|table| - 1];
      SelectMembers(init, q);
      assert table == init + [table[|table| - 1]];
    }
  }

  ghost predicate SortedByDate(s: seq<Expense>) {
    forall i, j :: 0 <= i < j < |s| ==> NotAfter(s[i].date, s[j].date)
  }

  function InsertByDate(x: Expense, s: seq<Expense>): (r: seq<Expense>)
    requires SortedByDate(s)
    ensures SortedByDate(r)
    ensures multiset(r) == multiset(s) + multiset{x}
  {
    if s == [] then [x]
    else if NotAfter(x.date, s[0].date) then
      assert s == [s[0]] + s[1..];
      [x] + s
    else
      var rest := InsertByDate(x, s[1..]);
      assert forall i :: 0 <= i < |rest| ==> NotAfter(s[0].date, rest[i].date) by {
        forall i | 0 <= i < |rest| ensures NotAfter(s[0].date, rest[i].date) {
          assert rest[i] in multiset(rest);
          if rest[i] != x {
            assert rest[i] in multiset(s[1..]);
          }
        }
      }
      assert s == [s[0]] + s[1..];
      [s[0]] + rest
  }

  /** `order_by(Expense.date)`: the same rows with their dates non-decreasing. */
  function OrderByDate(s: seq<Expense>): (r: seq<Expense>)
    ensures SortedByDate(r)
    ensures multiset(r) == multiset(s)
  {
    if s == [] then []
    else
      assert s == [s[0]] + s[1..];
      InsertByDate(s[0], OrderByDate(s[1..]))
  }

  /**
   * `GET /expenses`: the current user's rows, restricted to the month when one
   * is given and unrestricted otherwise, ordered by date.
   */
  function GetExpenses(table: seq<Expense>, user: int, month: Option<Month>): (r: Result<seq<Expense>, HttpError>)
    ensures r.Err? <==> month.Some? && month.value.year == MaxYear && month.value.month == 12
    ensures r.Ok? ==> SortedByDate(r.value)
    ensures r.Ok? ==> multiset(r.value) == multiset(Select(table, Query(user, None, Window(month).value)))
    ensures r.Ok? ==> forall e :: e in r.value <==>
              && e in table && e.userId == user
              && (month.Some? ==> e.date.year == month.value.year && e.date.month == month.value.month)
  {
    match Window(month)
    case Err(e) => Err(e)
    case Ok(w) =>
      var rows := OrderByDate(Select(table, Query(user, None, w)));
      SelectMembers(table, Query(user, None, w));
      assert forall e :: e in rows <==> e in multiset(rows);
      assert forall e: Expense :: Matches(Query(user, None, w), e) <==>
        e.userId == user && (month.Some? ==> e.date.year == month.value.year && e.date.month == month.value.month);
      Ok(rows)
  }

  datatype Summary = Summary(totalIncome: int, totalExpense: int, balance: int)

  /**
   * `GET /summary`: over the current user's rows in the window, the sum of the
   * "income" amounts, the sum of the "expense" amounts and their difference.
   */
  function GetSummary(table: seq<Expense>, user: int, month: Option<Month>): (r: Result<Summary, HttpError>)
    ensures r.Err? <==> month.Some? && month.value.year == MaxYear && month.value.month == 12
    ensures r.Ok? ==> r.value.balance == r.value.totalIncome - r.value.totalExpense
  {
    match Window(month)
    case Err(e) => Err(e)
    case Ok(w) =>
      var rows := Select(table, Query(user, None, w));
      var income := GroupSum(rows, KindOf, AmountOf, "income");
      var expense := GroupSum(rows, KindOf, AmountOf, "expense");
      Ok(Summary(income, expense, income - expense))
  }

  /**
   * `total_income` is the sum of the amounts of the user's rows of type
   * "income" in the window, and `total_expense` that of the rows of type
   * "expense".
   */
  lemma SummaryTotals(table: seq<Expense>, user: int, month: Option<Month>)
    requires GetSummary(table, user, month).Ok?
    ensures GetSummary(table, user, month).value.totalIncome
         == Total(Select(table, Query(user, Some("income"), Window(month).value)), AmountOf)
    ensures GetSummary(table, user, month).value.totalExpense
         == Total(Select(table, Query(user, Some("expense"), Window(month).value)), AmountOf)
  {
    KindRowsTotal(table, user, Window(month).value, "income");
    KindRowsTotal(table, user, Window(month).value, "expense");
  }

  /** A row whose type is neither "income" nor "expense" changes no total. */
  lemma {:induction false} OtherKindsIgnored(table: seq<Expense>, e: Expense, user: int, month: Option<Month>)
    requires e.kind != "income" && e.kind != "expense"
    ensures GetSummary(table + [e], user, month) == GetSummary(table, user, month)
  {
    if Window(month).Ok? {
      var q := Query(user, None, Window(month).value);
      assert (table + [e])[..|table|] == table;
      var rows := Select(table, q);
      if Matches(q, e) {
        assert Select(table + [e], q) == rows + [e];
        GroupSumSnoc(rows, e, KindOf, AmountOf, "income");
        GroupSumSnoc(rows, e, KindOf, AmountOf, "expense");
      } else {
        assert Select(table + [e], q) == rows + [] == rows;
      }
    }
  }

  /** When every row is an income or an expense, the two totals add up to all amounts. */
  lemma {:induction false} IncomeAndExpenseCoverAll(table: seq<Expense>, user: int, month: Option<Month>)
    requires GetSummary(table, user, month).Ok?
    requires forall e :: e in table ==> e.kind == "income" || e.kind == "expense"
    ensures var s := GetSummary(table, user, month).value;
            s.totalIncome + s.totalExpense == Total(Select(table, Query(user, None, Window(month).value)), AmountOf)
  {
    var rows := Select(table, Query(user, None, Window(month).value));
    SelectMembers(table, Query(user, None, Window(month).value));
    var ks := ["income", "expense"];
    assert ks[..1] == ["income"] && ks[..1][..0] == [];
    assert SumGroups(rows, KindOf, AmountOf, ks[..1]) == GroupSum(rows, KindOf, AmountOf, "income");
    assert SumGroups(rows, KindOf, AmountOf, ks)
        == GroupSum(rows, KindOf, AmountOf, "income") + GroupSum(rows, KindOf, AmountOf, "expense");
    forall k | k in KeysOf(rows, KindOf) ensures k in ks {
      var i :| 0 <= i < |rows| && KindOf(rows[i]) == k;
      assert rows[i] in rows;
    }
    SumGroupsCovers(rows, KindOf, AmountOf, ks);
  }

  /** The rows of type "expense" that `summary_by_category` and `summary_by_month` read. */
  function ExpenseRows(table: seq<Expense>, user: int, window: Option<Range>): seq<Expense> {
    Select(table, Query(user, Some("expense"), window))
  }

  /**
   * Filtering by type in the query (`Expense.type == kind`) and summing, or
   * summing the rows of that type among the unfiltered rows, gives the same.
   */
  lemma {:induction false} KindRowsTotal(table: seq<Expense>, user: int, window: Option<Range>, kind: string)
    ensures Total(Select(table, Query(user, Some(kind), window)), AmountOf)
         == GroupSum(Select(table, Query(user, None, window)), KindOf, AmountOf, kind)
  {
    if table != [] {
      var init, last := table[..|table| - 1], table[|table| - 1];
      var q, qk := Query(user, None, window), Query(user, Some(kind), window);
      KindRowsTotal(init, user, window, kind);
      var all := Select(init, q);
      var some := Select(init, qk);
      var matches := Matches(q, last);
      assert matches && last.kind == kind <==> Matches(qk, last);
      if matches {
        assert Select(table, q) == all + [last];
        GroupSumSnoc(all, last, KindOf, AmountOf, kind);
        if last.kind == kind {
          assert Select(table, qk) == some + [last];
          TotalSnoc(some, last, AmountOf);
        } else {
          assert Select(table, qk) == some + [] == some;
        }
      } else {
        assert Select(table, q) == all + [] == all;
        assert Select(table, qk) == some + [] == some;
      }
    }
  }

  /**
   * `GET /summary/category`: the expense rows of the user in the window, summed
   * per category; the values add up to the summary's `total_expense`.
   */
  method SummaryByCategory(table: seq<Expense>, user: int, month: Option<Month>) returns (r: Result<Dict<string>, HttpError>)
    ensures r.Err? <==> month.Some? && month.value.year == MaxYear && month.value.month == 12
    ensures r.Ok? ==> r.value == Tally(ExpenseRows(table, user, Window(month).value), CategoryOf, AmountOf)
    ensures r.Ok? ==> r.value.Sum() == GetSummary(table, user, month).value.totalExpense
  {
    var window := Window(month);
    if window.Err? {
      return Err(window.error);
    }
    var rows := ExpenseRows(table, user, window.value);
    var result := Dict([], map[]);
    for i := 0 to |rows|
      invariant result == Tally(rows[..i], CategoryOf, AmountOf)
    {
      var e := rows[i];
      result := result.Add(e.category, e.amount);
      assert rows[..i + 1][..i] == rows[..i];
    }
    assert rows[..|rows|] == rows;
    TallySum(rows, CategoryOf, AmountOf);
    KindRowsTotal(table, user, window.value, "expense");
    r := Ok(result);
  }

  /**
   * `GET /summary/month`: all of the user's expense rows, of every month, summed
   * per calendar month; the values add up to the all-time `total_expense`.
   */
  method SummaryByMonth(table: seq<Expense>, user: int) returns (result: Dict<YearMonth>)
    ensures result == Tally(ExpenseRows(table, user, None), MonthOf, AmountOf)
    ensures result.Sum() == GetSummary(table, user, None).value.totalExpense
  {
    var rows := ExpenseRows(table, user, None);
    result := Dict([], map[]);
    for i := 0 to |rows|
      invariant result == Tally(rows[..i], MonthOf, AmountOf)
    {
      var e := rows[i];
      result := result.Add(MonthOf(e), e.amount);
      assert rows[..i + 1][..i] == rows[..i];
    }
    assert rows[..|rows|] == rows;
    TallySum(rows, MonthOf, AmountOf);
    KindRowsTotal(table, user, None, "expense");
  }
}
