/**
 * The daily balance timeline: one row for every day from the earliest to the latest
 * date among a user's incomes and expenses, each holding the running income minus
 * the running expense `amount` (a quantity, as the timeline sums it) up to that day.
 * Income is in cents and a quantity counts as that many whole currency units, so the
 * balance is income cents minus 100 cents per unit of quantity.
 */
module Timeline {
  import opened Calendar
  import opened Seqs
  import opened Records
  import opened Totals

  /** One row of the timeline. */
  datatype BalanceRow = BalanceRow(date: Date, balance: int)

  /** The income dated on or before the day with ordinal `ord`, in cents. */
  function IncomeUpTo(incomes: seq<Income>, ord: int): int {
    if incomes == [] then 0
    else (if ToOrdinal(incomes[0].date) <= ord then incomes[0].amount else 0) + IncomeUpTo(incomes[1..], ord)
  }

  /** The income dated on the day with ordinal `ord`: that day's `groupby` sum, or 0. */
  function IncomeOn(incomes: seq<Income>, ord: int): int {
    if incomes == [] then 0
    else (if ToOrdinal(incomes[0].date) == ord then incomes[0].amount else 0) + IncomeOn(incomes[1..], ord)
  }

  /** The expense quantity dated on or before the day with ordinal `ord`. */
  function QuantityUpTo(expenses: seq<Expense>, ord: int): int {
    if expenses == [] then 0
    else (if ToOrdinal(expenses[0].date) <= ord then expenses[0].amount else 0) + QuantityUpTo(expenses[1..], ord)
  }

  /** The expense quantity dated on the day with ordinal `ord`: that day's `groupby` sum, or 0. */
  function QuantityOn(expenses: seq<Expense>, ord: int): int {
    if expenses == [] then 0
    else (if ToOrdinal(expenses[0].date) == ord then expenses[0].amount else 0) + QuantityOn(expenses[1..], ord)
  }

  /** The balance on the day with ordinal `ord`, in cents. */
  function Balance(incomes: seq<Income>, expenses: seq<Expense>, ord: int): int {
    IncomeUpTo(incomes, ord) - 100 * QuantityUpTo(expenses, ord)
  }

  /** The dates of all the records, incomes first. */
  function Dates(incomes: seq<Income>, expenses: seq<Expense>): (ds: seq<Date>)
    ensures |ds| == |incomes| + |expenses|
    ensures forall k :: 0 <= k < |incomes| ==> ds[k] == incomes[k].date
    ensures forall k :: 0 <= k < |expenses| ==> ds[|incomes| + k] == expenses[k].date
  {
    seq(|incomes|, k requires 0 <= k < |incomes| => incomes[k].date)
      + seq(|expenses|, k requires 0 <= k < |expenses| => expenses[k].date)
  }

  /** The ordinal of the earliest of `ds`. */
  function Earliest(ds: seq<Date>): (m: int)
    requires ds != []
    ensures 1 <= m <= MaxOrdinal
    ensures exists k :: 0 <= k < |ds| && ToOrdinal(ds[k]) == m
    ensures forall k :: 0 <= k < |ds| ==> m <= ToOrdinal(ds[k])
  {
    if |ds| == 1 then ToOrdinal(ds[0])
    else
      var rest := Earliest(ds[1..]);
      assert forall k :: 1 <= k < |ds| ==> ds[k] == ds[1..][k - 1];
      if ToOrdinal(ds[0]) <= rest then ToOrdinal(ds[0]) else rest
  }

  /** The ordinal of the latest of `ds`. */
  function Latest(ds: seq<Date>): (m: int)
    requires ds != []
    ensures 1 <= m <= MaxOrdinal
    ensures exists k :: 0 <= k < |ds| && ToOrdinal(ds[k]) == m
    ensures forall k :: 0 <= k < |ds| ==> ToOrdinal(ds[k]) <= m
  {
    if |ds| == 1 then ToOrdinal(ds[0])
    else
      var rest := Latest(ds[1..]);
      assert forall k :: 1 <= k < |ds| ==> ds[k] == ds[1..][k - 1];
      if rest <= ToOrdinal(ds[0]) then ToOrdinal(ds[0]) else rest
  }

  /** The running totals grow by exactly the day's amounts from one day to the next. */
  lemma {:induction false} UpToStep(incomes: seq<Income>, expenses: seq<Expense>, ord: int)
    decreases |incomes| + |expenses|
    ensures IncomeUpTo(incomes, ord) == IncomeUpTo(incomes, ord - 1) + IncomeOn(incomes, ord)
    ensures QuantityUpTo(expenses, ord) == QuantityUpTo(expenses, ord - 1) + QuantityOn(expenses, ord)
  {
    if incomes != [] {
      UpToStep(incomes[1..], [], ord);
    }
    if expenses != [] {
      UpToStep([], expenses[1..], ord);
    }
  }

  /** Before the earliest record nothing has accumulated. */
  lemma {:induction false} UpToBeforeFirst(incomes: seq<Income>, expenses: seq<Expense>, ord: int)
    decreases |incomes| + |expenses|
    requires forall i :: i in incomes ==> ord < ToOrdinal(i.date)
    requires forall e :: e in expenses ==> ord < ToOrdinal(e.date)
    ensures IncomeUpTo(incomes, ord) == 0 && QuantityUpTo(expenses, ord) == 0
  {
    if incomes != [] {
      assert incomes[0] in incomes;
      UpToBeforeFirst(incomes[1..], [], ord);
    }
    if expenses != [] {
      assert expenses[0] in expenses;
      UpToBeforeFirst([], expenses[1..], ord);
    }
  }

  lemma {:induction false} EarliestBelowIncome(incomes: seq<Income>, expenses: seq<Expense>, i: Income)
    requires i in incomes && expenses != []
    ensures Earliest(Dates(incomes, expenses)) <= ToOrdinal(i.date)
  {
    var k :| 0 <= k < |incomes| && incomes[k] == i;
    var d := Dates(incomes, expenses)[k];
    assert d == i.date;
  }

  lemma {:induction false} EarliestBelowExpense(incomes: seq<Income>, expenses: seq<Expense>, e: Expense)
    requires incomes != [] && e in expenses
    ensures Earliest(Dates(incomes, expenses)) <= ToOrdinal(e.date)
  {
    var k :| 0 <= k < |expenses| && expenses[k] == e;
    var d := Dates(incomes, expenses)[|incomes| + k];
    assert d == e.date;
  }

  /** Nothing has accumulated the day before the earliest record date. */
  lemma {:induction false} NothingBeforeEarliest(incomes: seq<Income>, expenses: seq<Expense>, first: int)
    requires incomes != [] && expenses != [] && first == Earliest(Dates(incomes, expenses))
    ensures IncomeUpTo(incomes, first - 1) == 0 && QuantityUpTo(expenses, first - 1) == 0
  {
    var ord := first - 1;
    forall i | i in incomes ensures ord < ToOrdinal(i.date) {
      EarliestBelowIncome(incomes, expenses, i);
    }
    forall e | e in expenses ensures ord < ToOrdinal(e.date) {
      EarliestBelowExpense(incomes, expenses, e);
    }
    UpToBeforeFirst(incomes, expenses, ord);
  }

  /** From the latest record on everything has accumulated. */
  lemma {:induction false} UpToFromLast(incomes: seq<Income>, expenses: seq<Expense>, ord: int)
    decreases |incomes| + |expenses|
    requires forall i :: i in incomes ==> ToOrdinal(i.date) <= ord
    requires forall e :: e in expenses ==> ToOrdinal(e.date) <= ord
    ensures IncomeUpTo(incomes, ord) == Sum(incomes, IncomeAmount)
    ensures QuantityUpTo(expenses, ord) == Sum(expenses, Quantity)
  {
    if incomes != [] {
      assert incomes[0] in incomes;
      UpToFromLast(incomes[1..], [], ord);
    }
    if expenses != [] {
      assert expenses[0] in expenses;
      UpToFromLast([], expenses[1..], ord);
    }
  }

  /**
   * The timeline of the given records: one row per consecutive day from the earliest
   * to the latest record date, each with the balance accumulated up to that day.
   */
  predicate IsTimeline(timeline: seq<BalanceRow>, incomes: seq<Income>, expenses: seq<Expense>)
    requires incomes != [] && expenses != []
  {
    RowsFrom(timeline, incomes, expenses, Earliest(Dates(incomes, expenses)))
    && |timeline| == Latest(Dates(incomes, expenses)) - Earliest(Dates(incomes, expenses)) + 1
  }

  /** Row `k` is the day `first + k`, with the balance accumulated up to that day. */
  predicate RowsFrom(timeline: seq<BalanceRow>, incomes: seq<Income>, expenses: seq<Expense>, first: int) {
    forall k :: 0 <= k < |timeline| ==>
      ToOrdinal(timeline[k].date) == first + k && timeline[k].balance == Balance(incomes, expenses, first + k)
  }

  /** The next day's row extends the rows. */
  lemma RowsFromAppend(timeline: seq<BalanceRow>, incomes: seq<Income>, expenses: seq<Expense>, first: int, row: BalanceRow)
    requires RowsFrom(timeline, incomes, expenses, first)
    requires ToOrdinal(row.date) == first + |timeline| && row.balance == Balance(incomes, expenses, first + |timeline|)
    ensures RowsFrom(timeline + [row], incomes, expenses, first)
  {
  }

  /**
   * The data-frame part of `calculate_user_balance_over_time`: empty when there are no
   * incomes or no expenses; otherwise the timeline of the records, built by carrying
   * the cumulative income and expense along the days.
   */
  method BalanceOverTime(incomes: seq<Income>, expenses: seq<Expense>) returns (timeline: seq<BalanceRow>)
    ensures incomes == [] || expenses == [] ==> timeline == []
    ensures incomes != [] && expenses != [] ==> IsTimeline(timeline, incomes, expenses)
  {
    if incomes == [] || expenses == [] {
      return [];
    }
    var first := Earliest(Dates(incomes, expenses));
    var last := Latest(Dates(incomes, expenses));
    NothingBeforeEarliest(incomes, expenses, first);
    timeline := AccumulateDays(incomes, expenses, first, last);
  }

  /**
   * The day loop: starting from nothing accumulated before `first`, one row per day
   * from `first` to `last`, carrying the cumulative income and expense.
   */
  method AccumulateDays(incomes: seq<Income>, expenses: seq<Expense>, first: int, last: int)
    returns (timeline: seq<BalanceRow>)
    requires 1 <= first <= last <= MaxOrdinal
    requires IncomeUpTo(incomes, first - 1) == 0 && QuantityUpTo(expenses, first - 1) == 0
    ensures |timeline| == last - first + 1
    ensures RowsFrom(timeline, incomes, expenses, first)
  {
    var cumulativeIncome := 0;
    var cumulativeExpense := 0;
    var day := first;
    timeline := [];
    while day <= last
      invariant first <= day <= last + 1
      invariant |timeline| == day - first
      invariant cumulativeIncome == IncomeUpTo(incomes, day - 1)
      invariant cumulativeExpense == QuantityUpTo(expenses, day - 1)
      invariant RowsFrom(timeline, incomes, expenses, first)
    {
      UpToStep(incomes, expenses, day);
      cumulativeIncome := cumulativeIncome + IncomeOn(incomes, day);
      cumulativeExpense := cumulativeExpense + QuantityOn(expenses, day);
      var row := BalanceRow(FromOrdinal(day), cumulativeIncome - 100 * cumulativeExpense);
      RowsFromAppend(timeline, incomes, expenses, first, row);
      timeline := timeline + [row];
      day := day + 1;
    }
  }

  /**
   * `calculate_user_balance_over_time`: the timeline of the user's incomes and expenses,
   * empty when the user has none of either.
   */
  method CalculateUserBalanceOverTime(db: Store, user: nat) returns (timeline: seq<BalanceRow>)
    ensures SelectIncomes(db.incomes, AllOf(user)) == [] || SelectExpenses(db.expenses, AllOf(user)) == []
      ==> timeline == []
    ensures SelectIncomes(db.incomes, AllOf(user)) != [] && SelectExpenses(db.expenses, AllOf(user)) != []
      ==> IsTimeline(timeline, SelectIncomes(db.incomes, AllOf(user)), SelectExpenses(db.expenses, AllOf(user)))
  {
    timeline := BalanceOverTime(SelectIncomes(db.incomes, AllOf(user)), SelectExpenses(db.expenses, AllOf(user)));
  }

  /** From one day to the next the balance moves by that day's income minus 100 cents per unit bought. */
  lemma BalanceStep(incomes: seq<Income>, expenses: seq<Expense>, ord: int)
    ensures Balance(incomes, expenses, ord)
         == Balance(incomes, expenses, ord - 1) + IncomeOn(incomes, ord) - 100 * QuantityOn(expenses, ord)
  {
    UpToStep(incomes, expenses, ord);
  }

  /** The first row holds just the earliest day's amounts. */
  lemma FirstBalance(incomes: seq<Income>, expenses: seq<Expense>, first: int)
    requires incomes != [] && expenses != [] && first == Earliest(Dates(incomes, expenses))
    ensures Balance(incomes, expenses, first) == IncomeOn(incomes, first) - 100 * QuantityOn(expenses, first)
  {
    NothingBeforeEarliest(incomes, expenses, first);
    assert IncomeUpTo(incomes, first - 1) == 0 && QuantityUpTo(expenses, first - 1) == 0;
    UpToStep(incomes, expenses, first);
    assert IncomeUpTo(incomes, first) == IncomeOn(incomes, first);
    assert QuantityUpTo(expenses, first) == QuantityOn(expenses, first);
  }

  /** The last row's balance is the total income minus 100 cents per unit of total expense quantity. */
  lemma LastBalance(incomes: seq<Income>, expenses: seq<Expense>)
    requires incomes != [] && expenses != []
    ensures var last := Latest(Dates(incomes, expenses));
      Balance(incomes, expenses, last) == Sum(incomes, IncomeAmount) - 100 * Sum(expenses, Quantity)
  {
    var ds := Dates(incomes, expenses);
    var last := Latest(ds);
    forall i | i in incomes ensures ToOrdinal(i.date) <= last {
      var k :| 0 <= k < |incomes| && incomes[k] == i;
      assert ds[k] == i.date;
    }
    forall e | e in expenses ensures ToOrdinal(e.date) <= last {
      var k :| 0 <= k < |expenses| && expenses[k] == e;
      assert ds[|incomes| + k] == e.date;
    }
    UpToFromLast(incomes, expenses, last);
  }
}
