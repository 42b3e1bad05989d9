/**
 * src/screens/HomeScreen.tsx: the screen's own copy of the filter (type,
 * category and amount bounds only, short-circuited when the filter object
 * has no keys), the active-filters flag and what the screen shows.
 */
module HomeScreen {
  import opened Transactions
  import opened Seqs
  import TransactionUtils
  import SpendingChart

  /** `useState<FilterOptions>({})`. */
  const InitialFilters: FilterOptions := NoFilters

  /** The screen's filter predicate: no date tests. */
  predicate HomeMatches(t: Transaction, f: FilterOptions)
  {
    && (f.kind.Value? ==> t.kind == f.kind.value)
    && (f.category.Value? ==> t.category == f.category.value)
    && (AmountBound(f.minAmount).Some? ==> t.amount >= AmountBound(f.minAmount).value)
    && (AmountBound(f.maxAmount).Some? ==> t.amount <= AmountBound(f.maxAmount).value)
  }

  function HomeMatchesFilter(f: FilterOptions): Transaction -> bool
  {
    t => HomeMatches(t, f)
  }

  /** The `filteredTransactions` memo. */
  function FilteredTransactions(ts: seq<Transaction>, f: FilterOptions): seq<Transaction>
  {
    if KeyCount(f) == 0 then ts else Filter(HomeMatchesFilter(f), ts)
  }

  /** `Object.keys(activeFilters).length > 0`. */
  function HasActiveFilters(f: FilterOptions): (b: bool)
    ensures b <==> f.kind.HasKey() || f.category.HasKey() || f.minAmount.HasKey()
                   || f.maxAmount.HasKey() || f.dateFrom.HasKey() || f.dateTo.HasKey()
  {
    KeyCount(f) > 0
  }

  /**
   * With no keys the list is returned as it is; otherwise the result is an
   * order-preserving subsequence holding exactly the records that meet the
   * type, category and amount constraints, each as often as in the input.
   */
  lemma FilteredTransactionsSpec(ts: seq<Transaction>, f: FilterOptions)
    ensures KeyCount(f) == 0 ==> FilteredTransactions(ts, f) == ts
    ensures IsSubsequence(FilteredTransactions(ts, f), ts)
    ensures forall t :: t in ts ==> (t in FilteredTransactions(ts, f) <==> HomeMatches(t, f))
    ensures KeyCount(f) > 0 ==>
      forall t :: multiset(FilteredTransactions(ts, f))[t] == if HomeMatches(t, f) then multiset(ts)[t] else 0
  {
    FilterIsSubsequence(HomeMatchesFilter(f), ts);
    FilterCount(HomeMatchesFilter(f), ts);
    if KeyCount(f) == 0 {
      FilterAll(HomeMatchesFilter(f), ts);
      assert HomeMatchesFilter(f) == HomeMatchesFilter(NoFilters);
    }
  }

  /**
   * The screen's copy agrees with `filterTransactions` once the date fields
   * are dropped; in particular the key-count short-circuit changes nothing.
   */
  lemma AgreesWithFilterTransactions(ts: seq<Transaction>, f: FilterOptions)
    ensures FilteredTransactions(ts, f)
         == TransactionUtils.FilterTransactions(ts, f.(dateFrom := Absent, dateTo := Absent))
  {
    var g := f.(dateFrom := Absent, dateTo := Absent);
    FilterCongruent(HomeMatchesFilter(f), TransactionUtils.MatchesFilter(g), ts);
    if KeyCount(f) == 0 {
      TransactionUtils.FilterTransactionsIdentity(ts, g);
    }
  }

  /** `dateFrom` and `dateTo` are ignored, whatever their values. */
  lemma IgnoresDates(ts: seq<Transaction>, f: FilterOptions, from: Field<int>, to: Field<int>)
    ensures FilteredTransactions(ts, f) == FilteredTransactions(ts, f.(dateFrom := from, dateTo := to))
  {
    AgreesWithFilterTransactions(ts, f);
    AgreesWithFilterTransactions(ts, f.(dateFrom := from, dateTo := to));
    assert f.(dateFrom := Absent, dateTo := Absent)
        == f.(dateFrom := from, dateTo := to).(dateFrom := Absent, dateTo := Absent);
  }

  /** A min or max of 0 imposes no constraint here either. */
  lemma ZeroBoundIsNoBound(ts: seq<Transaction>, f: FilterOptions)
    ensures FilteredTransactions(ts, f.(minAmount := Value(Finite(0.0))))
         == FilteredTransactions(ts, f.(minAmount := Absent))
    ensures FilteredTransactions(ts, f.(maxAmount := Value(Finite(0.0))))
         == FilteredTransactions(ts, f.(maxAmount := Absent))
  {
    var g := f.(dateFrom := Absent, dateTo := Absent);
    AgreesWithFilterTransactions(ts, f.(minAmount := Value(Finite(0.0))));
    AgreesWithFilterTransactions(ts, f.(minAmount := Absent));
    AgreesWithFilterTransactions(ts, f.(maxAmount := Value(Finite(0.0))));
    AgreesWithFilterTransactions(ts, f.(maxAmount := Absent));
    TransactionUtils.ZeroBoundIsNoBound(ts, g);
    assert f.(minAmount := Value(Finite(0.0))).(dateFrom := Absent, dateTo := Absent)
        == g.(minAmount := Value(Finite(0.0)));
    assert f.(minAmount := Absent).(dateFrom := Absent, dateTo := Absent) == g.(minAmount := Absent);
    assert f.(maxAmount := Value(Finite(0.0))).(dateFrom := Absent, dateTo := Absent)
        == g.(maxAmount := Value(Finite(0.0)));
    assert f.(maxAmount := Absent).(dateFrom := Absent, dateTo := Absent) == g.(maxAmount := Absent);
  }

  /**
   * Keys whose values are all `undefined` mark the filters active while
   * filtering nothing out.
   */
  lemma UndefinedKeysAreActive(ts: seq<Transaction>, f: FilterOptions)
    requires f.kind == Undefined && f.category == Undefined
    requires f.minAmount == Undefined && f.maxAmount == Undefined
    ensures HasActiveFilters(f)
    ensures FilteredTransactions(ts, f) == ts
  {
    FilterAll(HomeMatchesFilter(f), ts);
  }

  /** What the screen renders. */
  datatype Screen =
    | Loading
    | Home(summary: TransactionSummary, chart: Option<seq<SpendingChart.ChartEntry>>,
           list: seq<Transaction>, hasActiveFilters: bool)

  /**
   * The screen for the given state: a loading indicator while either store
   * loads; otherwise the summary and the chart of the whole list (the chart
   * only for a non-empty list), and the filtered list newest first.
   */
  function Render(transactionsLoading: bool, themeLoading: bool, ts: seq<Transaction>,
                  activeFilters: FilterOptions, isDark: bool): (s: Screen)
    ensures s.Loading? <==> transactionsLoading || themeLoading
    ensures s.Home? ==> (s.chart.Some? <==> |ts| > 0)
    ensures s.Home? ==> s.hasActiveFilters == HasActiveFilters(activeFilters)
  {
    if transactionsLoading || themeLoading then Loading
    else Home(TransactionUtils.SummaryOf(ts),
              if |ts| > 0 then Some(SpendingChart.ChartData(ts, isDark)) else None,
              TransactionUtils.SortTransactionsByDate(FilteredTransactions(ts, activeFilters)),
              HasActiveFilters(activeFilters))
  }

  /**
   * The summary and the chart come from the unfiltered list: changing the
   * filters changes neither. The initial screen shows the whole list.
   */
  lemma SummaryAndChartIgnoreFilters(ts: seq<Transaction>, f: FilterOptions, g: FilterOptions, isDark: bool)
    ensures var a := Render(false, false, ts, f, isDark);
      var b := Render(false, false, ts, g, isDark);
      a.summary == b.summary && a.chart == b.chart
      && a.chart == (if |ts| > 0 then Some(SpendingChart.ChartData(ts, isDark)) else None)
      && a.summary.totalIncome == TransactionUtils.TotalIncome(ts)
      && a.summary.totalExpenses == TransactionUtils.TotalExpenses(ts)
    ensures var s := Render(false, false, ts, InitialFilters, isDark);
      !s.hasActiveFilters && multiset(s.list) == multiset(ts)
  {
    TransactionUtils.SortTransactionsByDateSpec(ts);
  }
}
