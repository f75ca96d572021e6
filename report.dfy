/**
 * The report snapshot: a report of one user's records between two dates, which
 * collects the user's expenses and incomes dated in the inclusive range and stores
 * their totals. The totals sum the records' `amount` fields: the expense total sums
 * quantities, each counting as that many whole currency units (100 cents), and the
 * income total sums cents.
 */
module Reports {
  import opened Wrappers
  import opened Calendar
  import opened Seqs
  import opened Records

  /** The query `filter(user=user, date__range=[start, end])`. */
  function InRange(user: nat, start: Date, end: Date): Query {
    Query(user, Some(start), Some(end))
  }

  /** The expense total of a report over `expenses`, in cents: 100 cents per unit of quantity. */
  function ExpenseTotal(expenses: seq<Expense>): int {
    100 * Sum(expenses, Quantity)
  }

  /** The income total of a report over `incomes`, in cents. */
  function IncomeTotal(incomes: seq<Income>): int {
    Sum(incomes, IncomeAmount)
  }

  /** The mutable fields of a report, as one value. */
  datatype ReportState = ReportState(
    expenses: seq<Expense>, incomes: seq<Income>, totalExpenses: int, totalIncomes: int, totalBalance: int)

  class Report {
    const user: nat
    const startDate: Date
    const endDate: Date
    /** The related expenses and incomes, in store order. */
    var expenses: seq<Expense>
    var incomes: seq<Income>
    var totalExpenses: int
    var totalIncomes: int
    var totalBalance: int

    /** The stored totals are those of the related records. */
    predicate Valid()
      reads this
    {
      && totalExpenses == ExpenseTotal(expenses)
      && totalIncomes == IncomeTotal(incomes)
      && totalBalance == totalIncomes - totalExpenses
    }

    /** The related records and the stored totals. */
    function State(): ReportState
      reads this
    {
      ReportState(expenses, incomes, totalExpenses, totalIncomes, totalBalance)
    }

    /** A new report: no related records, all three totals 0. */
    constructor (user: nat, startDate: Date, endDate: Date)
      ensures this.user == user && this.startDate == startDate && this.endDate == endDate
      ensures expenses == [] && incomes == []
      ensures totalExpenses == 0 && totalIncomes == 0 && totalBalance == 0
      ensures Valid()
    {
      this.user := user;
      this.startDate := startDate;
      this.endDate := endDate;
      expenses := [];
      incomes := [];
      totalExpenses := 0;
      totalIncomes := 0;
      totalBalance := 0;
    }

    /**
     * `calculate_totals`: the expense and income totals of the related records (0 when
     * there are none), then the balance as their difference; the relations are kept.
     */
    method CalculateTotals()
      modifies this
      ensures expenses == old(expenses) && incomes == old(incomes)
      ensures totalExpenses == ExpenseTotal(expenses) && totalExpenses >= 0
      ensures totalIncomes == IncomeTotal(incomes)
      ensures totalBalance == totalIncomes - totalExpenses
      ensures Valid()
    {
      ExpenseTotalNonNegative(expenses);
      totalExpenses := ExpenseTotal(expenses);
      totalIncomes := IncomeTotal(incomes);
      totalBalance := totalIncomes - totalExpenses;
    }

    /**
     * `populate_expenses_and_incomes`: replaces the relations with the owner's records
     * dated from `startDate` to `endDate` inclusive, then recomputes the totals. The
     * new state depends only on the store and the report's owner and dates, never on
     * the earlier relations or totals.
     */
    method PopulateExpensesAndIncomes(db: Store)
      modifies this
      ensures expenses == SelectExpenses(db.expenses, InRange(user, startDate, endDate))
      ensures incomes == SelectIncomes(db.incomes, InRange(user, startDate, endDate))
      ensures totalExpenses == ExpenseTotal(expenses) && totalExpenses >= 0
      ensures totalIncomes == IncomeTotal(incomes)
      ensures totalBalance == totalIncomes - totalExpenses
      ensures Valid()
    {
      expenses := SelectExpenses(db.expenses, InRange(user, startDate, endDate));
      incomes := SelectIncomes(db.incomes, InRange(user, startDate, endDate));
      CalculateTotals();
    }
  }

  /** `create_report_for_user`: a new report of the user between the dates, populated. */
  method CreateReportForUser(db: Store, user: nat, startDate: Date, endDate: Date) returns (report: Report)
    ensures fresh(report)
    ensures report.user == user && report.startDate == startDate && report.endDate == endDate
    ensures report.expenses == SelectExpenses(db.expenses, InRange(user, startDate, endDate))
    ensures report.incomes == SelectIncomes(db.incomes, InRange(user, startDate, endDate))
    ensures report.Valid()
  {
    report := new Report(user, startDate, endDate);
    report.PopulateExpensesAndIncomes(db);
  }

  /** Quantities are non-negative, so the expense total is never negative. */
  lemma ExpenseTotalNonNegative(expenses: seq<Expense>)
    ensures ExpenseTotal(expenses) >= 0
  {
    SumNonNegative(expenses, Quantity);
  }

  /**
   * A populated report relates exactly the owner's records dated between the two
   * dates, both included; no other user's record is ever related.
   */
  lemma RangeMembership(db: Store, user: nat, start: Date, end: Date, e: Expense, i: Income)
    ensures e in SelectExpenses(db.expenses, InRange(user, start, end))
        <==> e in db.expenses && e.user == user && ToOrdinal(start) <= ToOrdinal(e.date) <= ToOrdinal(end)
    ensures i in SelectIncomes(db.incomes, InRange(user, start, end))
        <==> i in db.incomes && i.user == user && ToOrdinal(start) <= ToOrdinal(i.date) <= ToOrdinal(end)
  {
    AdmitsRange(user, start, end, e.date);
    AdmitsRange(user, start, end, i.date);
  }

  /** A range whose start is after its end relates nothing, so all three totals are 0. */
  lemma InvertedRangeIsEmpty(db: Store, user: nat, start: Date, end: Date)
    requires !DateLe(start, end)
    ensures SelectExpenses(db.expenses, InRange(user, start, end)) == []
    ensures SelectIncomes(db.incomes, InRange(user, start, end)) == []
    ensures ExpenseTotal(SelectExpenses(db.expenses, InRange(user, start, end))) == 0
    ensures IncomeTotal(SelectIncomes(db.incomes, InRange(user, start, end))) == 0
  {
    forall e | e in db.expenses ensures !ExpenseMatches(InRange(user, start, end))(e) {
      InvertedRangeAdmitsNothing(user, start, end, e.date);
    }
    forall i | i in db.incomes ensures !IncomeMatches(InRange(user, start, end))(i) {
      InvertedRangeAdmitsNothing(user, start, end, i.date);
    }
    FilterNone(db.expenses, ExpenseMatches(InRange(user, start, end)));
    FilterNone(db.incomes, IncomeMatches(InRange(user, start, end)));
  }

  /**
   * Populating a report twice gives what populating it once gave: the second call
   * leaves the relations and all three totals as the first call set them.
   */
  method PopulateTwice(report: Report, db: Store) returns (afterFirst: ReportState)
    modifies report
    ensures afterFirst.expenses == SelectExpenses(db.expenses, InRange(report.user, report.startDate, report.endDate))
    ensures afterFirst.incomes == SelectIncomes(db.incomes, InRange(report.user, report.startDate, report.endDate))
    ensures report.State() == afterFirst
  {
    report.PopulateExpensesAndIncomes(db);
    afterFirst := report.State();
    report.PopulateExpensesAndIncomes(db);
  }
}
