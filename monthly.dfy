/**
 * The monthly expense report: a user's expenses grouped by calendar month, one row
 * per month present, in ascending month order, each row holding the sum of the
 * month's expense `amount` fields (quantities, as the report sums them).
 */
module Monthly {
  import opened Calendar
  import opened Seqs
  import opened Records
  import opened Totals

  /** A calendar month, the period `to_period("M")` gives a date. */
  datatype Period = Period(year: int, month: int)

  function PeriodOf(d: Date): Period {
    Period(d.year, d.month)
  }

  /** Periods are ordered by year, then month. */
  predicate Before(a: Period, b: Period) {
    a.year < b.year || (a.year == b.year && a.month < b.month)
  }

  /** One row of the report: a month and the sum of its expenses' amounts. */
  datatype MonthTotal = MonthTotal(period: Period, amount: int)

  function RowAmount(r: MonthTotal): int {
    r.amount
  }

  /** Strictly ascending months, so no month has two rows. */
  predicate Ascending(rows: seq<MonthTotal>) {
    forall i, j :: 0 <= i < j < |rows| ==> Before(rows[i].period, rows[j].period)
  }

  function Periods(rows: seq<MonthTotal>): set<Period> {
    set r | r in rows :: r.period
  }

  /** What the rows record for `p`: the amount of its row, 0 when it has none. */
  function TotalOf(rows: seq<MonthTotal>, p: Period): int {
    if rows == [] then 0 else (if rows[0].period == p then rows[0].amount else 0) + TotalOf(rows[1..], p)
  }

  function InMonth(p: Period): Expense -> bool {
    (e: Expense) => PeriodOf(e.date) == p
  }

  /** The sum of the amounts of the expenses dated in month `p`. */
  function MonthSum(es: seq<Expense>, p: Period): int {
    Sum(Filter(es, InMonth(p)), Quantity)
  }

  lemma {:induction false} TotalOfAbsent(rows: seq<MonthTotal>, p: Period)
    requires p !in Periods(rows)
    ensures TotalOf(rows, p) == 0
  {
    if rows != [] {
      assert Periods(rows[1..]) <= Periods(rows) by {
        forall x | x in Periods(rows[1..]) ensures x in Periods(rows) {
          var r :| r in rows[1..] && r.period == x;
          assert r in rows;
        }
      }
      TotalOfAbsent(rows[1..], p);
    }
  }

  /** In ascending rows, what the rows record for a row's month is that row's amount. */
  lemma {:induction false} TotalOfRow(rows: seq<MonthTotal>, i: int)
    requires Ascending(rows) && 0 <= i < |rows|
    ensures TotalOf(rows, rows[i].period) == rows[i].amount
  {
    if i == 0 {
      forall r | r in rows[1..] ensures r.period != rows[0].period {
        var k :| 0 <= k < |rows[1..]| && rows[1..][k] == r;
        assert Before(rows[0].period, rows[k + 1].period);
      }
      TotalOfAbsent(rows[1..], rows[0].period);
    } else {
      assert Before(rows[0].period, rows[i].period);
      assert rows[1..][i - 1] == rows[i];
      TotalOfRow(rows[1..], i - 1);
    }
  }

  /** A row whose month comes before every month of ascending rows can head them. */
  lemma ConsAscending(x: MonthTotal, rest: seq<MonthTotal>)
    requires Ascending(rest)
    requires forall y :: y in Periods(rest) ==> Before(x.period, y)
    ensures Ascending([x] + rest)
  {
    var r := [x] + rest;
    forall i, j | 0 <= i < j < |r| ensures Before(r[i].period, r[j].period) {
      assert r[j] == rest[j - 1];
      assert rest[j - 1].period in Periods(rest);
      if i > 0 {
        assert r[i] == rest[i - 1];
      }
    }
  }

  lemma PeriodsCons(rows: seq<MonthTotal>)
    requires rows != []
    ensures Periods(rows) == {rows[0].period} + Periods(rows[1..])
  {
    assert rows == [rows[0]] + rows[1..];
  }

  /** A head whose month precedes `p` can head the tail with `p` added. */
  lemma HeadBeforeTail(rows: seq<MonthTotal>, p: Period, rest: seq<MonthTotal>)
    requires Ascending(rows) && rows != [] && Before(rows[0].period, p)
    requires Ascending(rest) && Periods(rest) == Periods(rows[1..]) + {p}
    ensures Ascending([rows[0]] + rest)
  {
    forall y | y in Periods(rest) ensures Before(rows[0].period, y) {
      if y != p {
        var t :| t in rows[1..] && t.period == y;
        var k :| 0 <= k < |rows[1..]| && rows[1..][k] == t;
        assert Before(rows[0].period, rows[k + 1].period);
      }
    }
    ConsAscending(rows[0], rest);
  }

  /** Adds `q` to the row of month `p`, inserting the row in order when the month is new. */
  function AddToMonth(rows: seq<MonthTotal>, p: Period, q: int): (r: seq<MonthTotal>)
    requires Ascending(rows)
    ensures Ascending(r)
    ensures Periods(r) == Periods(rows) + {p}
  {
    if rows == [] then
      [MonthTotal(p, q)]
    else if rows[0].period == p then
      PeriodsCons(rows);
      var r := [MonthTotal(p, rows[0].amount + q)] + rows[1..];
      PeriodsCons(r);
      assert r[1..] == rows[1..];
      r
    else if Before(p, rows[0].period) then
      PeriodsCons(rows);
      var r := [MonthTotal(p, q)] + rows;
      PeriodsCons(r);
      assert r[1..] == rows;
      ConsAscending(MonthTotal(p, q), rows);
      r
    else
      PeriodsCons(rows);
      var rest := AddToMonth(rows[1..], p, q);
      var r := [rows[0]] + rest;
      assert r[1..] == rest;
      PeriodsCons(r);
      HeadBeforeTail(rows, p, rest);
      r
  }

  /** Adding to a month changes what the rows record for that month by `q`, and nothing else. */
  lemma {:induction false} AddToMonthTotals(rows: seq<MonthTotal>, p: Period, q: int, x: Period)
    requires Ascending(rows)
    ensures TotalOf(AddToMonth(rows, p, q), x) == TotalOf(rows, x) + (if x == p then q else 0)
  {
    if rows != [] && rows[0].period != p && !Before(p, rows[0].period) {
      AddToMonthTotals(rows[1..], p, q, x);
      assert AddToMonth(rows, p, q)[1..] == AddToMonth(rows[1..], p, q);
    } else if rows != [] && rows[0].period == p {
      assert AddToMonth(rows, p, q)[1..] == rows[1..];
    } else if rows != [] {
      assert AddToMonth(rows, p, q)[1..] == rows;
    }
  }

  /** Adding to a month adds `q` to the sum of the rows. */
  lemma {:induction false} AddToMonthSum(rows: seq<MonthTotal>, p: Period, q: int)
    requires Ascending(rows)
    ensures Sum(AddToMonth(rows, p, q), RowAmount) == Sum(rows, RowAmount) + q
  {
    if rows != [] && rows[0].period != p && !Before(p, rows[0].period) {
      AddToMonthSum(rows[1..], p, q);
      assert AddToMonth(rows, p, q)[1..] == AddToMonth(rows[1..], p, q);
    } else if rows != [] && rows[0].period == p {
      assert AddToMonth(rows, p, q)[1..] == rows[1..];
    } else if rows != [] {
      assert AddToMonth(rows, p, q)[1..] == rows;
    }
  }

  /** The groupby: the rows of `es` by month, built by adding one expense at a time. */
  function Group(es: seq<Expense>): (rows: seq<MonthTotal>)
    ensures Ascending(rows)
  {
    if es == [] then [] else AddToMonth(Group(es[1..]), PeriodOf(es[0].date), es[0].amount)
  }

  /**
   * `get_monthly_expense_report`: the user's expenses grouped by month; the empty
   * result when the user has no expenses.
   */
  function GetMonthlyExpenseReport(db: Store, user: nat): (rows: seq<MonthTotal>)
    ensures Ascending(rows)
  {
    Group(SelectExpenses(db.expenses, AllOf(user)))
  }

  /** A month has a row exactly when some expense is dated in it. */
  lemma {:induction false} GroupPeriods(es: seq<Expense>, p: Period)
    ensures p in Periods(Group(es)) <==> exists e :: e in es && PeriodOf(e.date) == p
  {
    if es != [] {
      GroupPeriods(es[1..], p);
      if p in Periods(Group(es[1..])) {
        var e :| e in es[1..] && PeriodOf(e.date) == p;
        assert e in es;
      }
      if p != PeriodOf(es[0].date) && exists e :: e in es && PeriodOf(e.date) == p {
        var e :| e in es && PeriodOf(e.date) == p;
        assert e in es[1..];
      }
    }
  }

  /** Each month's total is the sum of the amounts of that month's expenses. */
  lemma {:induction false} GroupTotals(es: seq<Expense>, p: Period)
    ensures TotalOf(Group(es), p) == MonthSum(es, p)
  {
    if es != [] {
      GroupTotals(es[1..], p);
      AddToMonthTotals(Group(es[1..]), PeriodOf(es[0].date), es[0].amount, p);
      SumAppend(if InMonth(p)(es[0]) then [es[0]] else [], Filter(es[1..], InMonth(p)), Quantity);
    }
  }

  /** The row sums add up to the sum of all the amounts: each expense counts in one month. */
  lemma {:induction false} GroupSum(es: seq<Expense>)
    ensures Sum(Group(es), RowAmount) == Sum(es, Quantity)
  {
    if es != [] {
      GroupSum(es[1..]);
      AddToMonthSum(Group(es[1..]), PeriodOf(es[0].date), es[0].amount);
    }
  }

  /** The report is empty exactly when there are no expenses. */
  lemma GroupEmpty(es: seq<Expense>)
    ensures Group(es) == [] <==> es == []
  {
    if es != [] {
      assert PeriodOf(es[0].date) in Periods(Group(es));
    }
  }

  /**
   * The report of a user: its months are those of the user's expenses, in ascending
   * order, and each row holds the sum of the amounts of the user's expenses in its month.
   */
  lemma MonthlyReportRows(db: Store, user: nat, i: int)
    requires 0 <= i < |GetMonthlyExpenseReport(db, user)|
    ensures var row := GetMonthlyExpenseReport(db, user)[i];
      && row.amount == MonthSum(SelectExpenses(db.expenses, AllOf(user)), row.period)
      && exists e :: e in db.expenses && e.user == user && PeriodOf(e.date) == row.period
  {
    var es := SelectExpenses(db.expenses, AllOf(user));
    var row := Group(es)[i];
    TotalOfRow(Group(es), i);
    GroupTotals(es, row.period);
    assert row in Group(es);
    GroupPeriods(es, row.period);
  }

  /** Every month in which the user has an expense has a row. */
  lemma MonthlyReportCovers(db: Store, user: nat, e: Expense)
    requires e in db.expenses && e.user == user
    ensures PeriodOf(e.date) in Periods(GetMonthlyExpenseReport(db, user))
  {
    var es := SelectExpenses(db.expenses, AllOf(user));
    assert e in es;
    GroupPeriods(es, PeriodOf(e.date));
  }

  /** The rows add up to the user's total expense quantity, and are empty only without expenses. */
  lemma MonthlyReportSum(db: Store, user: nat)
    ensures Sum(GetMonthlyExpenseReport(db, user), RowAmount) == Sum(SelectExpenses(db.expenses, AllOf(user)), Quantity)
    ensures GetMonthlyExpenseReport(db, user) == [] <==> SelectExpenses(db.expenses, AllOf(user)) == []
  {
    GroupSum(SelectExpenses(db.expenses, AllOf(user)));
    GroupEmpty(SelectExpenses(db.expenses, AllOf(user)));
  }
}
