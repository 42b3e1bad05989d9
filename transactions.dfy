/**
 * The record types of the tracker: transactions, their summary and the
 * optional filter fields.
 */
module Transactions {

  datatype Option<T> = None | Some(value: T)

  datatype TransactionType = Income | Expense

  datatype Category =
    | Food | Travel | Shopping | Entertainment | Bills
    | Healthcare | Education | Salary | Business | Other

  /**
   * A JavaScript number as `parseFloat` produces it: finite or NaN.
   * Infinities are not modelled.
   */
  datatype Number = Finite(r: real) | NaN {
    /** JavaScript truthiness: 0 and NaN are falsy. */
    predicate Truthy() { Finite? && r != 0.0 }
  }

  /**
   * A transaction. `date` is the millisecond timestamp of its `Date`;
   * `kind` is the `type` property.
   */
  datatype Transaction = Transaction(
    id: string,
    amount: real,
    category: Category,
    kind: TransactionType,
    date: int,
    description: Option<string>)

  datatype TransactionSummary = TransactionSummary(totalBalance: real, totalIncome: real, totalExpenses: real)

  /**
   * One optional property of a JavaScript object: the key is missing,
   * present with the value `undefined`, or present with a value.
   * `Object.keys` sees the second kind, truthiness tests do not.
   */
  datatype Field<T> = Absent | Undefined | Value(value: T) {
    predicate HasKey() { !Absent? }
  }

  /** `FilterOptions`; `kind` is the `type` property. */
  datatype FilterOptions = FilterOptions(
    kind: Field<TransactionType>,
    category: Field<Category>,
    minAmount: Field<Number>,
    maxAmount: Field<Number>,
    dateFrom: Field<int>,
    dateTo: Field<int>)

  /** The object literal `{}`. */
  const NoFilters: FilterOptions := FilterOptions(Absent, Absent, Absent, Absent, Absent, Absent)

  /** `Object.keys(f).length`. */
  function KeyCount(f: FilterOptions): (n: nat)
    ensures n <= 6
    ensures n == 0 <==> f == NoFilters
  {
    (if f.kind.HasKey() then 1 else 0) + (if f.category.HasKey() then 1 else 0)
    + (if f.minAmount.HasKey() then 1 else 0) + (if f.maxAmount.HasKey() then 1 else 0)
    + (if f.dateFrom.HasKey() then 1 else 0) + (if f.dateTo.HasKey() then 1 else 0)
  }

  /**
   * The bound a `minAmount`/`maxAmount` field imposes in a test
   * `if (f.minAmount && ...)`: only a truthy number, so neither a missing
   * key, `undefined`, 0 nor NaN constrains anything.
   */
  function AmountBound(f: Field<Number>): (b: Option<real>)
    ensures b.Some? <==> f.Value? && f.value.Truthy()
    ensures b.Some? ==> b.value != 0.0 && f == Value(Finite(b.value))
  {
    match f
    case Value(Finite(r)) => if r != 0.0 then Some(r) else None
    case _ => None
  }
}
