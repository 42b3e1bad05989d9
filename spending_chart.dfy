/**
 * src/components/SpendingChart.tsx: the pie chart's data. Expense amounts
 * are totalled per category in a dictionary, each category becomes an
 * entry coloured by its insertion index, and the entries are sorted by
 * total, largest first, keeping the top eight.
 */
module SpendingChart {
  import opened Transactions
  import opened Seqs
  import TransactionUtils

  const Colors: seq<string> := [
    "#FF6B6B", "#4ECDC4", "#45B7D1", "#96CEB4", "#FECA57",
    "#FF9FF3", "#54A0FF", "#5F27CD", "#00D2D3", "#FF9F43"
  ]

  const MaxEntries: nat := 8

  const LegendFontSize: nat := 12

  datatype ChartEntry = ChartEntry(
    name: Category,
    population: real,
    color: string,
    legendFontColor: string,
    legendFontSize: nat)

  predicate IsExpense(t: Transaction) { t.kind == Expense }

  predicate InCategory(c: Category, t: Transaction) { t.category == c }

  function InCategoryOf(c: Category): Transaction -> bool
  {
    t => InCategory(c, t)
  }

  /** The summed amounts of the records in category `c` (reference definition). */
  function CategorySum(ts: seq<Transaction>, c: Category): real
  {
    TransactionUtils.AmountSum(Filter(InCategoryOf(c), ts))
  }

  /**
   * The categories of `ts` in order of first appearance: the key order of a
   * dictionary filled by walking `ts`.
   */
  function FirstSeen(ts: seq<Transaction>): seq<Category>
  {
    if ts == [] then []
    else
      var p := FirstSeen(ts[..|ts| - 1]);
      var c := ts[|ts| - 1].category;
      if c in p then p else p + [c]
  }

  /** The key order lists each category that occurs, each exactly once. */
  lemma {:induction false} FirstSeenSpec(ts: seq<Transaction>)
    ensures forall i, j :: 0 <= i < j < |FirstSeen(ts)| ==> FirstSeen(ts)[i] != FirstSeen(ts)[j]
    ensures forall c :: c in FirstSeen(ts) <==> c in CategoriesOf(ts)
  {
    if ts != [] {
      var init := ts[..|ts| - 1];
      var last := ts[|ts| - 1];
      FirstSeenSpec(init);
      assert CategoriesOf(ts) == CategoriesOf(init) + {last.category} by {
        assert ts == init + [last];
      }
    }
  }

  /** The set of categories occurring in `ts`. */
  ghost function CategoriesOf(ts: seq<Transaction>): set<Category>
  {
    set t | t in ts :: t.category
  }

  lemma FirstSeenSnoc(ts: seq<Transaction>, t: Transaction)
    ensures FirstSeen(ts + [t]) ==
      if t.category in FirstSeen(ts) then FirstSeen(ts) else FirstSeen(ts) + [t.category]
  {
    assert (ts + [t])[..|ts|] == ts;
  }

  lemma CategorySumSnoc(ts: seq<Transaction>, t: Transaction, c: Category)
    ensures CategorySum(ts + [t], c) == CategorySum(ts, c) + (if t.category == c then t.amount else 0.0)
  {
    TransactionUtils.FilterSnoc(InCategoryOf(c), ts, t);
    SumSnoc(TransactionUtils.Amount, Filter(InCategoryOf(c), ts), t);
  }

  /** A category that does not occur totals 0. */
  lemma CategorySumUnseen(ts: seq<Transaction>, c: Category)
    requires c !in CategoriesOf(ts)
    ensures CategorySum(ts, c) == 0.0
  {
    forall t | t in ts ensures !InCategoryOf(c)(t) {
      assert t.category in CategoriesOf(ts);
    }
    FilterNone(InCategoryOf(c), ts);
  }

  /**
   * The dictionary after walking `ts`: each record adds its amount to its
   * category's key, the key starting from 0 when new.
   */
  function TotalsOf(ts: seq<Transaction>): map<Category, real>
  {
    if ts == [] then map[]
    else
      var m := TotalsOf(ts[..|ts| - 1]);
      var t := ts[|ts| - 1];
      m[t.category := (if t.category in m then m[t.category] else 0.0) + t.amount]
  }

  /** The dictionary holds one key per occurring category, with its total. */
  lemma {:induction false} TotalsOfSpec(ts: seq<Transaction>)
    ensures forall c :: c in TotalsOf(ts) <==> c in FirstSeen(ts)
    ensures forall c :: c in TotalsOf(ts) ==> TotalsOf(ts)[c] == CategorySum(ts, c)
  {
    if ts != [] {
      var init := ts[..|ts| - 1];
      var t := ts[|ts| - 1];
      assert ts == init + [t];
      TotalsOfSpec(init);
      FirstSeenSnoc(init, t);
      forall c | c in TotalsOf(ts) ensures TotalsOf(ts)[c] == CategorySum(ts, c) {
        CategorySumSnoc(init, t, c);
        if c !in TotalsOf(init) {
          FirstSeenSpec(init);
          CategorySumUnseen(init, c);
        }
      }
    }
  }

  /** One more step of the walk, in the terms the loop uses. */
  lemma TotalsStep(ts: seq<Transaction>, i: nat, t: Transaction, order: seq<Category>, m: map<Category, real>)
    requires i < |ts| && t == ts[i]
    requires order == FirstSeen(ts[..i]) && m == TotalsOf(ts[..i])
    ensures TotalsOf(ts[..i + 1]) == m[t.category := (if t.category in m then m[t.category] else 0.0) + t.amount]
    ensures FirstSeen(ts[..i + 1]) == if t.category in order then order else order + [t.category]
  {
    var u := ts[..i + 1];
    assert u[..|u| - 1] == ts[..i];
  }

  /**
   * The `forEach` filling `categoryTotals`, returning the dictionary and its
   * key order: one key per category that occurs, in order of first
   * appearance, holding that category's total.
   */
  method CategoryTotals(expenses: seq<Transaction>) returns (order: seq<Category>, totals: map<Category, real>)
    ensures order == FirstSeen(expenses)
    ensures totals == TotalsOf(expenses)
    ensures forall c :: c in totals <==> c in order
    ensures forall c :: c in totals <==> c in CategoriesOf(expenses)
    ensures forall c :: c in totals ==> totals[c] == CategorySum(expenses, c)
  {
    order := [];
    totals := map[];
    var i := 0;
    while i < |expenses|
      invariant 0 <= i <= |expenses|
      invariant order == FirstSeen(expenses[..i])
      invariant totals == TotalsOf(expenses[..i])
      invariant forall c :: c in totals <==> c in order
    {
      var t := expenses[i];
      TotalsStep(expenses, i, t, order, totals);
      if t.category !in totals {
        order := order + [t.category];
      }
      totals := totals[t.category := (if t.category in totals then totals[t.category] else 0.0) + t.amount];
      i := i + 1;
    }
    assert expenses[..i] == expenses;
    TotalsOfSpec(expenses);
    FirstSeenSpec(expenses);
  }

  function LegendColor(isDark: bool): string
  {
    if isDark then "#FFFFFF" else "#333333"
  }

  /** `Object.entries(categoryTotals).map(...)`: one entry per key, in key order. */
  function Entries(order: seq<Category>, totals: map<Category, real>, isDark: bool): (r: seq<ChartEntry>)
    requires forall c :: c in order ==> c in totals
    ensures |r| == |order|
    ensures forall i :: 0 <= i < |r| ==> r[i] == ChartEntry(order[i], totals[order[i]], Colors[i % |Colors|], LegendColor(isDark), LegendFontSize)
  {
    seq(|order|, i requires 0 <= i < |order| =>
      ChartEntry(order[i], totals[order[i]], Colors[i % |Colors|], LegendColor(isDark), LegendFontSize))
  }

  function Population(e: ChartEntry): real { e.population }

  /** `.sort((a, b) => b.population - a.population).slice(0, 8)`. */
  function TopEntries(entries: seq<ChartEntry>): seq<ChartEntry>
  {
    Take(SortDesc(entries, Population), MaxEntries)
  }

  /** The entries before sorting and slicing. */
  function UnsortedEntries(expenses: seq<Transaction>, isDark: bool): seq<ChartEntry>
  {
    TotalsOfSpec(expenses);
    Entries(FirstSeen(expenses), TotalsOf(expenses), isDark)
  }

  /** The `chartData` memo, as a function of its inputs. */
  function ChartData(ts: seq<Transaction>, isDark: bool): seq<ChartEntry>
  {
    var expenses := Filter(IsExpense, ts);
    if |expenses| == 0 then [] else TopEntries(UnsortedEntries(expenses, isDark))
  }

  /** The `chartData` computation, performing the dictionary loop. */
  method ComputeChartData(ts: seq<Transaction>, isDark: bool) returns (r: seq<ChartEntry>)
    ensures r == ChartData(ts, isDark)
    ensures |r| <= MaxEntries
    ensures SortedDesc(r, Population)
  {
    var expenses := Filter(IsExpense, ts);
    if |expenses| == 0 {
      return [];
    }
    var order, totals := CategoryTotals(expenses);
    assert totals == TotalsOf(expenses);
    r := TopEntries(Entries(order, totals, isDark));
    ChartSorted(ts, isDark);
  }

  /** Only expense records contribute: income records can be dropped first. */
  lemma ChartOnlyExpenses(ts: seq<Transaction>, isDark: bool)
    ensures ChartData(ts, isDark) == ChartData(Filter(IsExpense, ts), isDark)
  {
    FilterIdempotent(IsExpense, ts);
  }

  /** The chart is empty exactly when there is no expense record. */
  lemma ChartEmpty(ts: seq<Transaction>, isDark: bool)
    ensures ChartData(ts, isDark) == [] <==> forall t :: t in ts ==> t.kind != Expense
  {
    var expenses := Filter(IsExpense, ts);
    FilterNone(IsExpense, ts);
    if |expenses| > 0 {
      assert expenses[0] in expenses;
      assert |FirstSeen(expenses)| > 0 by {
        FirstSeenSpec(expenses);
        assert expenses[0].category in FirstSeen(expenses);
      }
    }
  }

  /**
   * Before slicing there is exactly one entry per distinct expense category,
   * in order of first appearance, with that category's expense total and
   * coloured by its insertion index.
   */
  lemma UnsortedEntriesSpec(ts: seq<Transaction>, isDark: bool)
    ensures var expenses := Filter(IsExpense, ts);
      var es := UnsortedEntries(expenses, isDark);
      && |es| == |FirstSeen(expenses)|
      && (forall i :: 0 <= i < |es| ==>
            && es[i].name == FirstSeen(expenses)[i]
            && es[i].population == CategorySum(expenses, es[i].name)
            && es[i].color == Colors[i % 10])
      && (forall i, j :: 0 <= i < j < |es| ==> es[i].name != es[j].name)
      && (forall c :: c in FirstSeen(expenses) <==> c in CategoriesOf(expenses))
  {
    TotalsOfSpec(Filter(IsExpense, ts));
    FirstSeenSpec(Filter(IsExpense, ts));
  }

  /** The categories seen by the chart are exactly those of expense records. */
  lemma ExpenseCategories(ts: seq<Transaction>)
    ensures forall c :: c in CategoriesOf(Filter(IsExpense, ts)) <==>
      exists t :: t in ts && t.kind == Expense && t.category == c
  {
    var expenses := Filter(IsExpense, ts);
    forall c ensures c in CategoriesOf(expenses) <==> exists t :: t in ts && t.kind == Expense && t.category == c {
      if c in CategoriesOf(expenses) {
        var t :| t in expenses && t.category == c;
      }
      if exists t :: t in ts && t.kind == Expense && t.category == c {
        var t :| t in ts && t.kind == Expense && t.category == c;
        assert t in expenses;
      }
    }
  }

  /** The chart is ordered by population, largest first, and has at most 8 entries. */
  lemma ChartSorted(ts: seq<Transaction>, isDark: bool)
    ensures |ChartData(ts, isDark)| <= MaxEntries
    ensures SortedDesc(ChartData(ts, isDark), Population)
  {
    var expenses := Filter(IsExpense, ts);
    if |expenses| > 0 {
      SortDescSorted(UnsortedEntries(expenses, isDark), Population);
    }
  }

  /** The entries the top-8 slice drops. */
  function DroppedEntries(ts: seq<Transaction>, isDark: bool): seq<ChartEntry>
  {
    var expenses := Filter(IsExpense, ts);
    var sorted := SortDesc(UnsortedEntries(expenses, isDark), Population);
    if |expenses| == 0 then [] else sorted[|Take(sorted, MaxEntries)|..]
  }

  /**
   * The kept entries are the largest ones: kept and dropped entries make up
   * all the category entries, there are min(8, categories) kept ones, and
   * no dropped entry has a larger population than a kept one.
   */
  lemma ChartKeepsLargest(ts: seq<Transaction>, isDark: bool)
    ensures var expenses := Filter(IsExpense, ts);
      var es := UnsortedEntries(expenses, isDark);
      var r := ChartData(ts, isDark);
      && (|expenses| > 0 ==> |r| == (if |es| < MaxEntries then |es| else MaxEntries))
      && (|expenses| > 0 ==> multiset(r) + multiset(DroppedEntries(ts, isDark)) == multiset(es))
      && forall e, k :: e in r && k in DroppedEntries(ts, isDark) ==> e.population >= k.population
  {
    var expenses := Filter(IsExpense, ts);
    if |expenses| > 0 {
      var es := UnsortedEntries(expenses, isDark);
      SortDescSorted(es, Population);
      TakeKeepsLargest(SortDesc(es, Population), MaxEntries, Population);
    }
  }
}
