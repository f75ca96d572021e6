/**
 * The per-user totals and balances of the analytics helpers: expense totals as the
 * dot product of quantities and unit prices, income totals as plain sums, balances
 * as income minus expense, each over all of a user's records or over those from or
 * up to a date (both bounds inclusive). Amounts are in cents.
 */
module Totals {
  import opened Wrappers
  import opened Calendar
  import opened Seqs
  import opened Records

  /** `np.dot(quantity, price)` for two vectors of equal length. */
  function Dot(quantity: seq<int>, price: seq<int>): int
    requires |quantity| == |price|
  {
    if quantity == [] then 0 else quantity[0] * price[0] + Dot(quantity[1..], price[1..])
  }

  /** `calculate_expenses`: the dot product when the lengths agree, 0 otherwise. */
  function CalculateExpenses(quantity: seq<int>, price: seq<int>): int
  {
    if |quantity| == |price| then Dot(quantity, price) else 0
  }

  function Quantities(expenses: seq<Expense>): (q: seq<int>)
    ensures |q| == |expenses| && forall i :: 0 <= i < |q| ==> q[i] == expenses[i].amount
  {
    seq(|expenses|, i requires 0 <= i < |expenses| => expenses[i].amount)
  }

  function Prices(expenses: seq<Expense>): (p: seq<int>)
    ensures |p| == |expenses| && forall i :: 0 <= i < |p| ==> p[i] == expenses[i].price
  {
    seq(|expenses|, i requires 0 <= i < |expenses| => expenses[i].price)
  }

  /**
   * `parse_and_calculate_expenses`: the quantity and price columns, then their dot
   * product, which is the sum of the expenses' costs.
   */
  function ParseAndCalculateExpenses(expenses: seq<Expense>): (r: int)
    ensures r == Sum(expenses, Cost)
  {
    DotIsCost(expenses);
    CalculateExpenses(Quantities(expenses), Prices(expenses))
  }

  /** The two columns always have equal length, and their dot product is the sum of the expenses' costs. */
  lemma {:induction false} DotIsCost(expenses: seq<Expense>)
    ensures CalculateExpenses(Quantities(expenses), Prices(expenses)) == Sum(expenses, Cost)
  {
    if expenses != [] {
      DotIsCost(expenses[1..]);
      assert Quantities(expenses)[1..] == Quantities(expenses[1..]);
      assert Prices(expenses)[1..] == Prices(expenses[1..]);
    }
  }

  /** The filter `user=user` with no date bound. */
  function AllOf(user: nat): Query {
    Query(user, None, None)
  }

  function FromDate(user: nat, date: Date): Query {
    Query(user, Some(date), None)
  }

  function ToDate(user: nat, date: Date): Query {
    Query(user, None, Some(date))
  }

  /** The user's expenses: quantity times unit price, summed over their expense rows. */
  function CalculateTotalUserExpenses(db: Store, user: nat): (r: int)
    ensures r == Sum(SelectExpenses(db.expenses, AllOf(user)), Cost)
  {
    ParseAndCalculateExpenses(SelectExpenses(db.expenses, AllOf(user)))
  }

  /** The user's income: the sum of their income amounts, 0 when they have none. */
  function CalculateTotalUserIncome(db: Store, user: nat): (r: int)
    ensures (forall i :: i in db.incomes ==> i.user != user) ==> r == 0
  {
    var selected := SelectIncomes(db.incomes, AllOf(user));
    assert (forall i :: i in db.incomes ==> i.user != user) ==> selected == [] by {
      if (forall i :: i in db.incomes ==> i.user != user) {
        FilterNone(db.incomes, IncomeMatches(AllOf(user)));
      }
    }
    Sum(selected, IncomeAmount)
  }

  /** The user's expenses dated on or after `date`. */
  function CalculateUserExpenseFromDate(db: Store, user: nat, date: Date): (r: int)
    ensures r == Sum(SelectExpenses(db.expenses, FromDate(user, date)), Cost)
  {
    ParseAndCalculateExpenses(SelectExpenses(db.expenses, FromDate(user, date)))
  }

  /** The user's income dated on or after `date`: 0 when none is. */
  function CalculateUserIncomeFromDate(db: Store, user: nat, date: Date): (r: int)
    ensures (forall i :: i in db.incomes && i.user == user ==> !DateLe(date, i.date)) ==> r == 0
  {
    var selected := SelectIncomes(db.incomes, FromDate(user, date));
    assert (forall i :: i in db.incomes && i.user == user ==> !DateLe(date, i.date)) ==> selected == [] by {
      if (forall i :: i in db.incomes && i.user == user ==> !DateLe(date, i.date)) {
        FilterNone(db.incomes, IncomeMatches(FromDate(user, date)));
      }
    }
    Sum(selected, IncomeAmount)
  }

  /** The user's expenses dated on or before `date`. */
  function CalculateUserExpenseToDate(db: Store, user: nat, date: Date): (r: int)
    ensures r == Sum(SelectExpenses(db.expenses, ToDate(user, date)), Cost)
  {
    ParseAndCalculateExpenses(SelectExpenses(db.expenses, ToDate(user, date)))
  }

  /** The user's income dated on or before `date`: 0 when none is. */
  function CalculateUserIncomeToDate(db: Store, user: nat, date: Date): (r: int)
    ensures (forall i :: i in db.incomes && i.user == user ==> !DateLe(i.date, date)) ==> r == 0
  {
    var selected := SelectIncomes(db.incomes, ToDate(user, date));
    assert (forall i :: i in db.incomes && i.user == user ==> !DateLe(i.date, date)) ==> selected == [] by {
      if (forall i :: i in db.incomes && i.user == user ==> !DateLe(i.date, date)) {
        FilterNone(db.incomes, IncomeMatches(ToDate(user, date)));
      }
    }
    Sum(selected, IncomeAmount)
  }

  /** `calculate_balance`: both functions applied to the same arguments, income minus expense. */
  function CalculateBalance<A>(expensesFn: A -> int, incomesFn: A -> int, args: A): int
  {
    incomesFn(args) - expensesFn(args)
  }

  function CalculateTotalUserBalance(db: Store, user: nat): (r: int)
    ensures r == CalculateTotalUserIncome(db, user) - CalculateTotalUserExpenses(db, user)
  {
    CalculateBalance(
      (a: (Store, nat)) => CalculateTotalUserExpenses(a.0, a.1),
      (a: (Store, nat)) => CalculateTotalUserIncome(a.0, a.1),
      (db, user))
  }

  function CalculateUserBalanceFromDate(db: Store, user: nat, date: Date): (r: int)
    ensures r == CalculateUserIncomeFromDate(db, user, date) - CalculateUserExpenseFromDate(db, user, date)
  {
    CalculateBalance(
      (a: (Store, nat, Date)) => CalculateUserExpenseFromDate(a.0, a.1, a.2),
      (a: (Store, nat, Date)) => CalculateUserIncomeFromDate(a.0, a.1, a.2),
      (db, user, date))
  }

  function CalculateUserBalanceToDate(db: Store, user: nat, date: Date): (r: int)
    ensures r == CalculateUserIncomeToDate(db, user, date) - CalculateUserExpenseToDate(db, user, date)
  {
    CalculateBalance(
      (a: (Store, nat, Date)) => CalculateUserExpenseToDate(a.0, a.1, a.2),
      (a: (Store, nat, Date)) => CalculateUserIncomeToDate(a.0, a.1, a.2),
      (db, user, date))
  }

  /** A user with no expense rows has a total expense of 0. */
  lemma NoExpensesNoTotal(db: Store, user: nat)
    requires forall e :: e in db.expenses ==> e.user != user
    ensures CalculateTotalUserExpenses(db, user) == 0
  {
    FilterNone(db.expenses, ExpenseMatches(AllOf(user)));
  }

  /** The from-date queries keep exactly the user's records dated on or after `date`. */
  lemma FromDateMembership(db: Store, user: nat, date: Date, e: Expense, i: Income)
    ensures e in SelectExpenses(db.expenses, FromDate(user, date))
        <==> e in db.expenses && e.user == user && ToOrdinal(date) <= ToOrdinal(e.date)
    ensures i in SelectIncomes(db.incomes, FromDate(user, date))
        <==> i in db.incomes && i.user == user && ToOrdinal(date) <= ToOrdinal(i.date)
  {
    OrdinalOrder(date, e.date);
    OrdinalOrder(date, i.date);
  }

  /** The to-date queries keep exactly the user's records dated on or before `date`. */
  lemma ToDateMembership(db: Store, user: nat, date: Date, e: Expense, i: Income)
    ensures e in SelectExpenses(db.expenses, ToDate(user, date))
        <==> e in db.expenses && e.user == user && ToOrdinal(e.date) <= ToOrdinal(date)
    ensures i in SelectIncomes(db.incomes, ToDate(user, date))
        <==> i in db.incomes && i.user == user && ToOrdinal(i.date) <= ToOrdinal(date)
  {
    OrdinalOrder(e.date, date);
    OrdinalOrder(i.date, date);
  }

  /** Two dates each on or before the other are the same date. */
  lemma DateLeAntisymmetric(a: Date, b: Date)
    requires DateLe(a, b) && DateLe(b, a)
    ensures a == b
  {
  }

  /**
   * Both bounds are inclusive: the from-date and to-date balances at `date` together
   * count every record of the user once and the records dated exactly `date` twice.
   */
  lemma FromAndToDateOverlap(db: Store, user: nat, date: Date)
    ensures CalculateUserBalanceFromDate(db, user, date) + CalculateUserBalanceToDate(db, user, date)
         == CalculateTotalUserBalance(db, user)
          + (Sum(SelectIncomes(db.incomes, Query(user, Some(date), Some(date))), IncomeAmount)
             - Sum(SelectExpenses(db.expenses, Query(user, Some(date), Some(date))), Cost))
  {
    var on := Query(user, Some(date), Some(date));
    FilterInclusionExclusion(db.expenses, ExpenseMatches(FromDate(user, date)), ExpenseMatches(ToDate(user, date)),
      ExpenseMatches(AllOf(user)), ExpenseMatches(on), Cost);
    FilterInclusionExclusion(db.incomes, IncomeMatches(FromDate(user, date)), IncomeMatches(ToDate(user, date)),
      IncomeMatches(AllOf(user)), IncomeMatches(on), IncomeAmount);
  }

  /** The records a query with the same date for both bounds keeps are those dated exactly that day. */
  lemma OnDateMembership(db: Store, user: nat, date: Date, e: Expense)
    ensures e in SelectExpenses(db.expenses, Query(user, Some(date), Some(date)))
        <==> e in db.expenses && e.user == user && e.date == date
  {
    if DateLe(date, e.date) && DateLe(e.date, date) {
      DateLeAntisymmetric(date, e.date);
    }
  }
}
