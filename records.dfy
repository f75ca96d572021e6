/**
 * The `Expense` and `Income` rows of the record store and the `filter(...)` queries
 * the analytics run against them. Decimal amounts (two decimal places) are integer
 * cents; an expense's `amount` is a quantity of its product, a non-negative integer.
 */
module Records {
  import opened Wrappers
  import opened Calendar
  import opened Seqs

  /** An expense: `amount` units of a product costing `price` cents each. */
  datatype Expense = Expense(id: nat, user: nat, price: int, date: Date, amount: nat)

  /** An income of `amount` cents. */
  datatype Income = Income(id: nat, user: nat, date: Date, amount: int)

  /** The rows of both tables. */
  datatype Store = Store(expenses: seq<Expense>, incomes: seq<Income>)

  /**
   * The keyword arguments of `objects.filter(user=..., date__gte=..., date__lte=...)`;
   * `date__range=[a, b]` is both bounds at once.
   */
  datatype Query = Query(user: nat, dateGte: Option<Date>, dateLte: Option<Date>)

  /** Both bounds are inclusive. */
  predicate Admits(q: Query, d: Date) {
    (q.dateGte.Some? ==> DateLe(q.dateGte.value, d)) && (q.dateLte.Some? ==> DateLe(d, q.dateLte.value))
  }

  function ExpenseMatches(q: Query): Expense -> bool {
    (e: Expense) => e.user == q.user && Admits(q, e.date)
  }

  function IncomeMatches(q: Query): Income -> bool {
    (i: Income) => i.user == q.user && Admits(q, i.date)
  }

  /** `Expense.objects.filter(...)`, in store order. */
  function SelectExpenses(store: seq<Expense>, q: Query): (r: seq<Expense>)
    ensures forall e :: e in r <==> e in store && e.user == q.user && Admits(q, e.date)
  {
    Filter(store, ExpenseMatches(q))
  }

  /** `Income.objects.filter(...)`, in store order. */
  function SelectIncomes(store: seq<Income>, q: Query): (r: seq<Income>)
    ensures forall i :: i in r <==> i in store && i.user == q.user && Admits(q, i.date)
  {
    Filter(store, IncomeMatches(q))
  }

  /** What an expense cost: quantity times unit price, in cents. */
  function Cost(e: Expense): int {
    e.amount * e.price
  }

  /** An expense's `amount` field, the quantity. */
  function Quantity(e: Expense): int {
    e.amount
  }

  /** An income's `amount` field, in cents. */
  function IncomeAmount(i: Income): int {
    i.amount
  }

  /** A query with both bounds admits exactly the dates of the inclusive range. */
  lemma AdmitsRange(user: nat, start: Date, end: Date, d: Date)
    ensures Admits(Query(user, Some(start), Some(end)), d)
        <==> ToOrdinal(start) <= ToOrdinal(d) <= ToOrdinal(end)
  {
    OrdinalOrder(start, d);
    OrdinalOrder(d, end);
  }

  /** An inverted range (start after end) admits no date at all. */
  lemma InvertedRangeAdmitsNothing(user: nat, start: Date, end: Date, d: Date)
    requires !DateLe(start, end)
    ensures !Admits(Query(user, Some(start), Some(end)), d)
  {
    OrdinalOrder(start, end);
    AdmitsRange(user, start, end, d);
  }
}
