/**
 * The JSON boundary between the server and the page: a stored row reaches the
 * frontend with its date in ISO 8601 form `YYYY-MM-DD` (what FastAPI emits for
 * a Python `date`). This module shows that the page's string-keyed month
 * grouping agrees with the server's calendar months, and that the balance the
 * page charts ends where the server's summary balance is.
 */
module Wire {
  import opened Wrappers
  import opened Grouping
  import opened Text
  import opened Backend
  import opened App

  function Pow10(n: nat): (p: nat)
    ensures p >= 1
  {
    if n == 0 then 1 else 10 * Pow10(n - 1)
  }

  /** `n` written with exactly `width` decimal digits, padded with leading zeros. */
  function Padded(n: nat, width: nat): (s: string)
    requires n < Pow10(width)
    ensures |s| == width
    ensures forall i :: 0 <= i < |s| ==> '0' <= s[i] <= '9'
  {
    if width == 0 then []
    else Padded(n / 10, width - 1) + ['0' + (n % 10) as char]
  }

  /** Padding keeps numbers apart: equal strings come from equal numbers. */
  lemma {:induction false} PaddedInjective(n: nat, m: nat, width: nat)
    requires n < Pow10(width) && m < Pow10(width)
    ensures Padded(n, width) == Padded(m, width) <==> n == m
  {
    if width > 0 && Padded(n, width) == Padded(m, width) {
      var a, b := Padded(n / 10, width - 1), Padded(m / 10, width - 1);
      assert Padded(n, width)[..width - 1] == a && Padded(m, width)[..width - 1] == b;
      assert Padded(n, width)[width - 1] == '0' + (n % 10) as char;
      assert Padded(m, width)[width - 1] == '0' + (m % 10) as char;
      PaddedInjective(n / 10, m / 10, width - 1);
    }
  }

  /** Comparing `a + c` with `b + d` where `a` and `b` have the same length. */
  lemma {:induction false} LessConcat(a: string, c: string, b: string, d: string)
    requires |a| == |b|
    ensures Less(a + c, b + d) <==> Less(a, b) || (a == b && Less(c, d))
  {
    if a != [] {
      assert (a + c)[0] == a[0] && (b + d)[0] == b[0];
      assert (a + c)[1..] == a[1..] + c && (b + d)[1..] == b[1..] + d;
      LessConcat(a[1..], c, b[1..], d);
      if a[0] == b[0] && a[1..] == b[1..] {
        assert a == [a[0]] + a[1..] && b == [b[0]] + b[1..];
      }
    } else {
      assert a + c == c && b + d == d;
    }
  }

  /** Zero-padded numbers of one width sort as strings in numeric order. */
  lemma {:induction false} PaddedOrder(n: nat, m: nat, width: nat)
    requires n < Pow10(width) && m < Pow10(width)
    ensures Less(Padded(n, width), Padded(m, width)) <==> n < m
  {
    if width > 0 {
      var a, b := Padded(n / 10, width - 1), Padded(m / 10, width - 1);
      var c, d := ['0' + (n % 10) as char], ['0' + (m % 10) as char];
      LessConcat(a, c, b, d);
      PaddedOrder(n / 10, m / 10, width - 1);
      PaddedInjective(n / 10, m / 10, width - 1);
      assert Less(c, d) <==> n % 10 < m % 10 by {
        assert c[1..] == [] && d[1..] == [];
      }
    }
  }

  /** The `YYYY-MM` part of an ISO date. */
  function IsoMonth(year: nat, month: nat): (s: string)
    requires year < 10000 && month < 100
    ensures |s| == 7
  {
    Padded(year, 4) + "-" + Padded(month, 2)
  }

  /** A date in ISO 8601 calendar form, `YYYY-MM-DD`. */
  function IsoDate(d: Date): (s: string)
    ensures |s| == 10
    ensures s[..7] == IsoMonth(d.year, d.month)
  {
    IsoMonth(d.year, d.month) + "-" + Padded(d.day, 2)
  }

  /** A stored row as the page receives it. */
  function ToEntry(e: Expense): Entry {
    Entry(e.id, e.amount, e.category, e.description, IsoDate(e.date), e.kind)
  }

  function Entries(rows: seq<Expense>): (entries: seq<Entry>)
    ensures |entries| == |rows|
    ensures forall i :: 0 <= i < |rows| ==> entries[i] == ToEntry(rows[i])
  {
    if rows == [] then [] else Entries(rows[..|rows| - 1]) + [ToEntry(rows[|rows| - 1])]
  }

  /** Calendar order of year-month pairs. */
  predicate EarlierMonth(a: YearMonth, b: YearMonth) {
    a.year < b.year || (a.year == b.year && a.month < b.month)
  }

  /**
   * The page's month key of a row is the server's month of it written out:
   * two rows share a key exactly when they fall in the same calendar month, and
   * the keys sort as strings in calendar order.
   */
  lemma MonthKeysAreChronological(x: Expense, y: Expense)
    ensures MonthKey(ToEntry(x)) == MonthKey(ToEntry(y)) <==> MonthOf(x) == MonthOf(y)
    ensures Less(MonthKey(ToEntry(x)), MonthKey(ToEntry(y))) <==> EarlierMonth(MonthOf(x), MonthOf(y))
  {
    var yx, yy := Padded(x.date.year, 4), Padded(y.date.year, 4);
    var mx, my := Padded(x.date.month, 2), Padded(y.date.month, 2);
    assert MonthKey(ToEntry(x)) == yx + ("-" + mx);
    assert MonthKey(ToEntry(y)) == yy + ("-" + my);
    PaddedInjective(x.date.year, y.date.year, 4);
    PaddedInjective(x.date.month, y.date.month, 2);
    PaddedOrder(x.date.year, y.date.year, 4);
    PaddedOrder(x.date.month, y.date.month, 2);
    LessConcat(yx, "-" + mx, yy, "-" + my);
    assert ("-" + mx)[1..] == mx && ("-" + my)[1..] == my;
    if yx == yy && ("-" + mx) == ("-" + my) {
      assert mx == ("-" + mx)[1..];
    }
    if yx + ("-" + mx) == yy + ("-" + my) {
      assert yx == (yx + ("-" + mx))[..4] && yy == (yy + ("-" + my))[..4];
      assert mx == (yx + ("-" + mx))[5..] && my == (yy + ("-" + my))[5..];
    }
  }

  /** The signed amount the page adds to its balance for a row. */
  function SignedRow(e: Expense): int { Signed(ToEntry(e)) }

  lemma {:induction false} EntriesTotal(rows: seq<Expense>)
    ensures Total(Entries(rows), Signed) == Total(rows, SignedRow)
  {
    if rows != [] {
      EntriesTotal(rows[..|rows| - 1]);
      assert Entries(rows)[..|rows| - 1] == Entries(rows[..|rows| - 1]);
    }
  }

  /** Over rows that are all incomes or expenses, the signed total is income minus expense. */
  lemma {:induction false} SignedTotalIsBalance(rows: seq<Expense>)
    requires forall e :: e in rows ==> e.kind == "income" || e.kind == "expense"
    ensures Total(rows, SignedRow)
         == GroupSum(rows, KindOf, AmountOf, "income") - GroupSum(rows, KindOf, AmountOf, "expense")
  {
    if rows != [] {
      var init := rows[..|rows| - 1];
      assert forall e :: e in init ==> e in rows;
      assert rows[|rows| - 1] in rows;
      SignedTotalIsBalance(init);
    }
  }

  /**
   * The last point of the page's balance chart, drawn from `GET /expenses`,
   * is the `balance` of `GET /summary` for the same month, as long as every
   * row is an income or an expense (the page subtracts every other type, the
   * server counts it nowhere).
   */
  lemma ChartEndsAtSummaryBalance(table: seq<Expense>, user: int, month: Option<Month>)
    requires GetExpenses(table, user, month).Ok?
    requires forall e :: e in table ==> e.kind == "income" || e.kind == "expense"
    ensures Total(Entries(GetExpenses(table, user, month).value), Signed)
         == GetSummary(table, user, month).value.balance
  {
    var rows := GetExpenses(table, user, month).value;
    var selected := Select(table, Query(user, None, Window(month).value));
    SelectMembers(table, Query(user, None, Window(month).value));
    EntriesTotal(rows);
    TotalPermutation(rows, selected, SignedRow);
    SignedTotalIsBalance(selected);
  }
}
