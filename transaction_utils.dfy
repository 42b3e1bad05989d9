/**
 * src/utils/transactionUtils.ts: the balance summary, the six-field filter,
 * the newest-first sort and the transaction id format.
 */
module TransactionUtils {
  import opened Transactions
  import opened Seqs
  import Strings

  predicate IsIncome(t: Transaction) { t.kind == Income }

  /** Every record that is not income counts as an expense. */
  predicate IsExpenseRecord(t: Transaction) { t.kind != Income }

  function Amount(t: Transaction): real { t.amount }

  /** The sum of the amounts of the records (reference definition). */
  function AmountSum(ts: seq<Transaction>): real { Sum(Amount, ts) }

  function TotalIncome(ts: seq<Transaction>): real { AmountSum(Filter(IsIncome, ts)) }

  function TotalExpenses(ts: seq<Transaction>): real { AmountSum(Filter(IsExpenseRecord, ts)) }

  /** The summary as a value, for the views that derive it from a list. */
  function SummaryOf(ts: seq<Transaction>): TransactionSummary
  {
    TransactionSummary(TotalIncome(ts) - TotalExpenses(ts), TotalIncome(ts), TotalExpenses(ts))
  }

  /** Filtering a list extended by one record. */
  lemma FilterSnoc(p: Transaction -> bool, ts: seq<Transaction>, t: Transaction)
    ensures Filter(p, ts + [t]) == if p(t) then Filter(p, ts) + [t] else Filter(p, ts)
  {
    FilterConcat(p, ts, [t]);
  }

  /**
   * `calculateSummary`: one pass in which income records add to
   * `totalIncome` and every other record adds to `totalExpenses`.
   */
  method CalculateSummary(ts: seq<Transaction>) returns (s: TransactionSummary)
    ensures s.totalIncome == TotalIncome(ts)
    ensures s.totalExpenses == TotalExpenses(ts)
    ensures s.totalBalance == s.totalIncome - s.totalExpenses
    ensures ts == [] ==> s == TransactionSummary(0.0, 0.0, 0.0)
    ensures s == SummaryOf(ts)
  {
    var totalIncome := 0.0;
    var totalExpenses := 0.0;
    var i := 0;
    while i < |ts|
      invariant 0 <= i <= |ts|
      invariant totalIncome == TotalIncome(ts[..i])
      invariant totalExpenses == TotalExpenses(ts[..i])
    {
      var t := ts[i];
      assert ts[..i + 1] == ts[..i] + [t];
      FilterSnoc(IsIncome, ts[..i], t);
      FilterSnoc(IsExpenseRecord, ts[..i], t);
      if t.kind == Income {
        SumSnoc(Amount, Filter(IsIncome, ts[..i]), t);
        totalIncome := totalIncome + t.amount;
      } else {
        SumSnoc(Amount, Filter(IsExpenseRecord, ts[..i]), t);
        totalExpenses := totalExpenses + t.amount;
      }
      i := i + 1;
    }
    assert ts[..i] == ts;
    s := TransactionSummary(totalIncome - totalExpenses, totalIncome, totalExpenses);
  }

  /** The summary of a concatenation is the componentwise sum of the summaries. */
  lemma SummaryConcat(xs: seq<Transaction>, ys: seq<Transaction>)
    ensures TotalIncome(xs + ys) == TotalIncome(xs) + TotalIncome(ys)
    ensures TotalExpenses(xs + ys) == TotalExpenses(xs) + TotalExpenses(ys)
    ensures SummaryOf(xs + ys).totalBalance == SummaryOf(xs).totalBalance + SummaryOf(ys).totalBalance
  {
    FilterConcat(IsIncome, xs, ys);
    FilterConcat(IsExpenseRecord, xs, ys);
    SumConcat(Amount, Filter(IsIncome, xs), Filter(IsIncome, ys));
    SumConcat(Amount, Filter(IsExpenseRecord, xs), Filter(IsExpenseRecord, ys));
  }

  /** Every amount lands in exactly one of the two totals. */
  lemma {:induction false} SummaryPartitions(ts: seq<Transaction>)
    ensures TotalIncome(ts) + TotalExpenses(ts) == AmountSum(ts)
  {
    if ts != [] {
      SummaryPartitions(ts[1..]);
    }
  }

  /**
   * The predicate of `filterTransactions`: each present, truthy field is a
   * constraint, and the constraints are and-ed.
   */
  predicate Matches(t: Transaction, f: FilterOptions)
  {
    && (f.kind.Value? ==> t.kind == f.kind.value)
    && (f.category.Value? ==> t.category == f.category.value)
    && (AmountBound(f.minAmount).Some? ==> t.amount >= AmountBound(f.minAmount).value)
    && (AmountBound(f.maxAmount).Some? ==> t.amount <= AmountBound(f.maxAmount).value)
    && (f.dateFrom.Value? ==> t.date >= f.dateFrom.value)
    && (f.dateTo.Value? ==> t.date <= f.dateTo.value)
  }

  function MatchesFilter(f: FilterOptions): Transaction -> bool
  {
    t => Matches(t, f)
  }

  /** `filterTransactions`. */
  function FilterTransactions(ts: seq<Transaction>, f: FilterOptions): seq<Transaction>
  {
    Filter(MatchesFilter(f), ts)
  }

  /**
   * The result is an order-preserving subsequence of the input holding
   * exactly the records that meet every present constraint, each as often
   * as in the input.
   */
  lemma FilterTransactionsSpec(ts: seq<Transaction>, f: FilterOptions)
    ensures IsSubsequence(FilterTransactions(ts, f), ts)
    ensures forall t :: t in ts ==> (t in FilterTransactions(ts, f) <==> Matches(t, f))
    ensures forall t :: multiset(FilterTransactions(ts, f))[t] == if Matches(t, f) then multiset(ts)[t] else 0
    ensures forall t :: t in FilterTransactions(ts, f) ==>
      && (f.kind.Value? ==> t.kind == f.kind.value)
      && (f.category.Value? ==> t.category == f.category.value)
      && (f.minAmount.Value? && f.minAmount.value.Truthy() ==> t.amount >= f.minAmount.value.r)
      && (f.maxAmount.Value? && f.maxAmount.value.Truthy() ==> t.amount <= f.maxAmount.value.r)
      && (f.dateFrom.Value? ==> t.date >= f.dateFrom.value)
      && (f.dateTo.Value? ==> t.date <= f.dateTo.value)
  {
    FilterIsSubsequence(MatchesFilter(f), ts);
    FilterCount(MatchesFilter(f), ts);
  }

  /** No constraint set: every field absent or `undefined`. */
  predicate Unconstrained(f: FilterOptions)
  {
    !f.kind.Value? && !f.category.Value? && !f.minAmount.Value? && !f.maxAmount.Value?
    && !f.dateFrom.Value? && !f.dateTo.Value?
  }

  /** With no filter field set the list passes unchanged. */
  lemma FilterTransactionsIdentity(ts: seq<Transaction>, f: FilterOptions)
    requires Unconstrained(f)
    ensures FilterTransactions(ts, f) == ts
  {
    FilterAll(MatchesFilter(f), ts);
  }

  lemma FilterTransactionsIdempotent(ts: seq<Transaction>, f: FilterOptions)
    ensures FilterTransactions(FilterTransactions(ts, f), f) == FilterTransactions(ts, f)
  {
    FilterIdempotent(MatchesFilter(f), ts);
  }

  /** A min or max amount of 0 is falsy and filters exactly as an absent one. */
  lemma ZeroBoundIsNoBound(ts: seq<Transaction>, f: FilterOptions)
    ensures FilterTransactions(ts, f.(minAmount := Value(Finite(0.0))))
         == FilterTransactions(ts, f.(minAmount := Absent))
    ensures FilterTransactions(ts, f.(maxAmount := Value(Finite(0.0))))
         == FilterTransactions(ts, f.(maxAmount := Absent))
  {
    FilterCongruent(MatchesFilter(f.(minAmount := Value(Finite(0.0)))), MatchesFilter(f.(minAmount := Absent)), ts);
    FilterCongruent(MatchesFilter(f.(maxAmount := Value(Finite(0.0)))), MatchesFilter(f.(maxAmount := Absent)), ts);
  }

  function DateKey(t: Transaction): real { t.date as real }

  /** `sortTransactionsByDate`: a sorted copy, newest first. */
  function SortTransactionsByDate(ts: seq<Transaction>): seq<Transaction>
  {
    SortDesc(ts, DateKey)
  }

  /**
   * The sorted copy is a permutation of the input, non-increasing by date,
   * and records with equal dates keep their relative order.
   */
  lemma SortTransactionsByDateSpec(ts: seq<Transaction>)
    ensures multiset(SortTransactionsByDate(ts)) == multiset(ts)
    ensures |SortTransactionsByDate(ts)| == |ts|
    ensures forall i, j :: 0 <= i < j < |ts| ==>
      SortTransactionsByDate(ts)[i].date >= SortTransactionsByDate(ts)[j].date
  {
    SortDescSorted(ts, DateKey);
  }

  predicate DatedAt(d: int, t: Transaction) { t.date == d }

  /** The sort is stable: records sharing a date stay in input order. */
  lemma SortTransactionsByDateStable(ts: seq<Transaction>, d: int)
    ensures Filter(t => DatedAt(d, t), SortTransactionsByDate(ts)) == Filter(t => DatedAt(d, t), ts)
  {
    SortDescStable(ts, DateKey, t => DatedAt(d, t));
  }

  const IdPrefix: string := "transaction_"

  /**
   * `generateTransactionId` with the clock reading `now` and the random
   * base-36 token passed in.
   */
  function TransactionId(now: nat, token: string): (id: string)
    ensures |id| > |IdPrefix| && id[..|IdPrefix|] == IdPrefix
  {
    IdPrefix + Strings.Decimal(now) + "_" + token
  }
}
