# Expense tracker transaction core, modelled in Dafny

This project models the transaction domain layer of a small React Native
expense tracker and proves properties of that model. It covers six parts:

- the list operations of `src/utils/transactionUtils.ts`: the balance
  summary, the six-field filter, the newest-first sort and the id format;
- the transaction store of `src/hooks/useTransactions.ts`: loading with
  per-record validation, save, add, delete, clear, the filtered read and
  the summary;
- the `chartData` computation of `src/components/SpendingChart.tsx`:
  per-category expense totals, cycled colours, and the top eight by total;
- the home screen's own filter copy, its `hasActiveFilters` flag and what
  the screen shows (`src/screens/HomeScreen.tsx`);
- the filter modal's form state and its apply, clear and cancel handlers
  (`src/components/FilterModal.tsx`);
- the add form's state, amount validation and submit and cancel handlers
  (`src/components/AddTransactionForm.tsx`).

Modules:

- `Seqs` holds the JavaScript array operations the code relies on:
  `filter`, `map`, a summing `forEach`, the stable `Array.prototype.sort`
  in descending key order, and `slice(0, n)`.
- `Strings` holds `trim` over the ECMAScript whitespace set and the decimal
  rendering of a timestamp.
- `Transactions` holds the record types.
- The remaining modules follow the source files one by one.

The stateful parts are classes:

- `UseTransactions.TransactionStore`, whose fields are the list, the
  `loading` flag and the storage cell;
- `FilterModal.Form`;
- `AddTransactionForm.Form`.

Their handlers are methods, and the callbacks a handler makes to its parent
are returned as a sequence of effects.

Modelling choices:

- An optional object property is three-valued: the key is missing, or it
  is present with `undefined`, or it has a value. `Object.keys` counts the
  second case and truthiness tests ignore it.
- The numbers `parseFloat` produces are finite reals or NaN; 0 and NaN are
  falsy.
- `parseFloat`, `Number.prototype.toString` and the JSON date codec are
  function-valued parameters. Each round-trip lemma requires only what its
  proof uses. The save/load lemmas need the date codec to read back the
  timestamps of the saved records. The filter modal's lemma needs `toString` to read
  back only for the two amount bounds it reapplies.
- The clock reading and the random id token are passed into
  `TransactionStore.Add`.
- Whether a storage call succeeds is a boolean parameter of the method
  that makes it.

In these places the model follows the code's literal behaviour:

- A failed storage read is handled like a corrupt payload: the key is
  removed. It is not treated as "nothing stored".
- A `minAmount` or `maxAmount` of 0 is falsy and constrains nothing.
- Loading with nothing stored leaves the list as it was. That is the empty
  initial list, but the code does not reset it.
- Every record that is not income counts as an expense.

## Model

| member | source | states |
|---|---|---|
| Seqs.Filter | src/utils/transactionUtils.ts:40-66 | `Array.prototype.filter`: the result is no longer than the input, holds only input elements, and holds an input element exactly when the predicate accepts it |
| Seqs.FilterCount | src/utils/transactionUtils.ts:40-66 | `filter` keeps every copy of an accepted element and no copy of a rejected one |
| Seqs.Map | src/hooks/useTransactions.ts:24-28 | `Array.prototype.map`: same length, element `i` is the function applied to input element `i` |
| Seqs.SortDesc | src/utils/transactionUtils.ts:73-81 | the stable descending sort returns a permutation of its input of the same length; its order and stability are stated by `Seqs.SortDescSorted` and `Seqs.SortDescStable` |
| Seqs.SortDescStable | src/utils/transactionUtils.ts:73-81 | the descending sort is stable: the elements sharing a key keep their input order |
| Seqs.Take | src/components/SpendingChart.tsx:42 | `slice(0, n)` is the prefix of length min(n, length) |
| Seqs.TakeKeepsLargest | src/components/SpendingChart.tsx:41-42 | on a list sorted by key, `slice(0, n)` keeps min(n, length) elements; kept and dropped parts together are a permutation of the list; and no dropped key exceeds a kept one |
| Strings.Trim | src/components/AddTransactionForm.tsx:61 | `trim` removes a whitespace prefix and suffix; the result neither starts nor ends with whitespace; it is empty exactly when the text is all whitespace |
| Strings.TrimIdempotent | src/components/AddTransactionForm.tsx:61 | trimming a trimmed text changes nothing |
| Strings.Decimal | src/utils/transactionUtils.ts:70 | the rendering of a timestamp is a non-empty run of decimal digits that denotes the timestamp (by `DigitsValue`), with a leading zero only for 0 |
| Transactions.KeyCount | src/screens/HomeScreen.tsx:30 | `Object.keys(f).length` is at most 6 and is 0 exactly for `{}` |
| TransactionUtils.CalculateSummary | src/utils/transactionUtils.ts:16-33 | the loop's totals are the sum of income amounts and the sum of all other amounts; balance is income minus expenses; the empty list gives zeros |
| TransactionUtils.SummaryConcat | src/utils/transactionUtils.ts:21-27 | the summary of `xs ++ ys` is the componentwise sum of the two summaries |
| TransactionUtils.SummaryPartitions | src/utils/transactionUtils.ts:21-27 | every amount lands in exactly one total: income plus expenses is the sum of all amounts |
| TransactionUtils.SummaryOf | src/utils/transactionUtils.ts:29-33 | the summary value of a list; specified by `TransactionUtils.CalculateSummary`, whose loop it equals |
| TransactionUtils.Matches | src/utils/transactionUtils.ts:40-66 | the filter's callback; specified by `TransactionUtils.FilterTransactionsSpec` and `TransactionUtils.ZeroBoundIsNoBound` |
| TransactionUtils.FilterTransactions | src/utils/transactionUtils.ts:36-67 | `filterTransactions`; specified by `TransactionUtils.FilterTransactionsSpec`, `FilterTransactionsIdentity` and `FilterTransactionsIdempotent` |
| TransactionUtils.FilterTransactionsSpec | src/utils/transactionUtils.ts:36-66 | the result is an order-preserving subsequence; it holds a record exactly when the record matches, as many times as the input does; every kept record meets each set type, category, min, max, dateFrom and dateTo constraint |
| TransactionUtils.FilterTransactionsIdentity | src/utils/transactionUtils.ts:40-66 | with no field set, the list passes unchanged |
| TransactionUtils.FilterTransactionsIdempotent | src/utils/transactionUtils.ts:40-66 | filtering twice with one filter equals filtering once |
| TransactionUtils.ZeroBoundIsNoBound | src/utils/transactionUtils.ts:49-55 | a min or max amount of 0 filters as an absent one |
| TransactionUtils.SortTransactionsByDate | src/utils/transactionUtils.ts:73-82 | `sortTransactionsByDate`; specified by `TransactionUtils.SortTransactionsByDateSpec` and `SortTransactionsByDateStable` |
| TransactionUtils.SortTransactionsByDateSpec | src/utils/transactionUtils.ts:73-81 | the sorted copy is a permutation of the input, of the same length, ordered non-increasing by date |
| TransactionUtils.SortTransactionsByDateStable | src/utils/transactionUtils.ts:73-81 | records with equal dates keep their input order |
| TransactionUtils.TransactionId | src/utils/transactionUtils.ts:69-71 | the id starts with `transaction_` and is longer than that prefix |
| UseTransactions.Keep | src/hooks/useTransactions.ts:23-29 | the two load filters, the `filter` before and the `filter` after the `map`; specified by `UseTransactions.LoadEntriesSpec` |
| UseTransactions.Revive | src/hooks/useTransactions.ts:24-28 | the load's `map` step; specified by `UseTransactions.LoadEntriesSpec` |
| UseTransactions.LoadEntries | src/hooks/useTransactions.ts:22-29 | the list a stored array loads to; specified by `UseTransactions.LoadEntriesSpec` and `UseTransactions.SaveLoadRoundTrip` |
| UseTransactions.Serialize | src/hooks/useTransactions.ts:48 | one record as `JSON.stringify` writes it; specified by `UseTransactions.SaveLoadRoundTrip` |
| UseTransactions.WithoutId | src/hooks/useTransactions.ts:74 | the list `deleteTransaction` keeps; specified by `UseTransactions.DeleteSpec` |
| UseTransactions.LoadEntriesSpec | src/hooks/useTransactions.ts:22-29 | loading keeps, in order and with all their copies, exactly the truthy records with a truthy id, a defined amount and a truthy, parseable date; each becomes a transaction with its id, `Number(amount)`, category, type, parsed date and description |
| UseTransactions.LoadedIdsNonEmpty | src/hooks/useTransactions.ts:23 | every loaded transaction has a non-empty id |
| UseTransactions.SaveLoadRoundTrip | src/hooks/useTransactions.ts:22-29 | when the date codec reads back the saved records' timestamps, loading what `saveTransactions` writes returns the saved list |
| UseTransactions.ReloadAfterSave | src/hooks/useTransactions.ts:15-52 | a store whose cell is in sync with its list (as every successful save leaves it), and whose codec reads back its records' timestamps, holds an array there that loads back to exactly that list |
| UseTransactions.DeleteSpec | src/hooks/useTransactions.ts:73-76 | deletion keeps an order-preserving subsequence; no kept record has the id; every record with another id stays, with all its copies; an unknown id changes nothing |
| UseTransactions.TransactionStore.constructor | src/hooks/useTransactions.ts:9-10 | the store starts with an empty list and `loading` true |
| UseTransactions.TransactionStore.Load | src/hooks/useTransactions.ts:15-43 | a stored array replaces the list by its loaded records; nothing stored keeps the list; a failed read or a corrupt payload removes the key (when removal succeeds) and keeps the list; `loading` is false afterwards in every case |
| UseTransactions.TransactionStore.Save | src/hooks/useTransactions.ts:45-52 | the list is set first; a successful write puts exactly the list in storage; a failed write leaves storage as it was without rolling the list back |
| UseTransactions.TransactionStore.Add | src/hooks/useTransactions.ts:54-71 | the new list is the old one with exactly one record appended, carrying the generated id, the amount, category, type, the clock reading as date and the description |
| UseTransactions.TransactionStore.Delete | src/hooks/useTransactions.ts:73-76 | the new list is the old one without the records having the id, and is what gets written |
| UseTransactions.TransactionStore.ClearAll | src/hooks/useTransactions.ts:82-89 | a successful removal empties both the cell and the list; a failed one changes neither |
| UseTransactions.TransactionStore.FilteredTransactions | src/hooks/useTransactions.ts:78-80 | the filtered read is an order-preserving subsequence of the current list holding exactly its matching records, each as many times as the list does |
| UseTransactions.TransactionStore.Summary | src/hooks/useTransactions.ts:91-93 | the summary is the income and expense totals of the current list and their difference |
| SpendingChart.FirstSeen | src/components/SpendingChart.tsx:24-26 | the dictionary's key order; specified by `SpendingChart.FirstSeenSpec` |
| SpendingChart.TotalsOf | src/components/SpendingChart.tsx:22-26 | the dictionary after the walk; specified by `SpendingChart.TotalsOfSpec` |
| SpendingChart.FirstSeenSpec | src/components/SpendingChart.tsx:22-26 | the dictionary's key order lists each occurring category, each exactly once |
| SpendingChart.TotalsOfSpec | src/components/SpendingChart.tsx:22-26 | after walking the expenses, the dictionary has a key exactly for each occurring category, holding that category's total |
| SpendingChart.CategoryTotals | src/components/SpendingChart.tsx:22-26 | the `forEach` loop builds the dictionary and its key order; it has one key per occurring category and holds that category's total |
| SpendingChart.TopEntries | src/components/SpendingChart.tsx:41-42 | sorting by population and keeping eight; specified by `SpendingChart.ChartSorted` and `SpendingChart.ChartKeepsLargest` |
| SpendingChart.ChartData | src/components/SpendingChart.tsx:15-43 | the `chartData` memo as a value; specified by `SpendingChart.ComputeChartData` and the chart lemmas below |
| SpendingChart.ComputeChartData | src/components/SpendingChart.tsx:15-43 | the memo computes the chart data, which has at most 8 entries and is sorted by population, largest first |
| SpendingChart.ChartOnlyExpenses | src/components/SpendingChart.tsx:16 | income records do not affect the chart |
| SpendingChart.ChartEmpty | src/components/SpendingChart.tsx:18-20 | the chart is empty exactly when there is no expense record |
| SpendingChart.UnsortedEntriesSpec | src/components/SpendingChart.tsx:28-40 | before sorting there is one entry per distinct expense category, in order of first appearance, with that category's expense total and colour `colors[index % 10]` |
| SpendingChart.ExpenseCategories | src/components/SpendingChart.tsx:16-26 | the chart's categories are exactly those of expense records |
| SpendingChart.ChartSorted | src/components/SpendingChart.tsx:41-42 | the chart has at most 8 entries and is ordered non-increasing by population |
| SpendingChart.ChartKeepsLargest | src/components/SpendingChart.tsx:41-42 | the chart keeps min(8, categories) entries; kept and dropped entries together are a permutation of all entries; no dropped entry outweighs a kept one |
| HomeScreen.HomeMatches | src/screens/HomeScreen.tsx:35-53 | the screen's filter callback; specified by `HomeScreen.FilteredTransactionsSpec` and `HomeScreen.AgreesWithFilterTransactions` |
| HomeScreen.FilteredTransactions | src/screens/HomeScreen.tsx:28-54 | the `filteredTransactions` memo; specified by `HomeScreen.FilteredTransactionsSpec` and the lemmas below |
| HomeScreen.HasActiveFilters | src/screens/HomeScreen.tsx:56 | the flag is true exactly when some key is present, even with an `undefined` value |
| HomeScreen.FilteredTransactionsSpec | src/screens/HomeScreen.tsx:28-54 | with no keys the list itself is returned; otherwise an order-preserving subsequence holding exactly the records that match type, category, min and max, each as many times as the input does |
| HomeScreen.AgreesWithFilterTransactions | src/screens/HomeScreen.tsx:35-53 | the screen's copy equals `filterTransactions` with the date fields dropped; the short-circuit changes nothing |
| HomeScreen.IgnoresDates | src/screens/HomeScreen.tsx:35-53 | `dateFrom` and `dateTo` do not affect the result, whatever their values |
| HomeScreen.ZeroBoundIsNoBound | src/screens/HomeScreen.tsx:44-50 | a min or max of 0 filters as an absent one |
| HomeScreen.UndefinedKeysAreActive | src/screens/HomeScreen.tsx:28-56 | keys whose values are all `undefined` make the flag true but filter nothing out |
| HomeScreen.Render | src/screens/HomeScreen.tsx:60-95 | the loading view shows exactly while either store loads; the chart is shown exactly for a non-empty list; the header flag is `hasActiveFilters` |
| HomeScreen.SummaryAndChartIgnoreFilters | src/screens/HomeScreen.tsx:84-95 | the summary and chart come from the unfiltered list, so filters change neither; the chart is the `chartData` of the whole list exactly when the list is non-empty; the initial `{}` shows every record and no active flag |
| FilterModal.AppliedFilters | src/components/FilterModal.tsx:48-57 | the apply object has exactly four keys and no dates; type and category are set exactly when selected, and then to the selected value; an amount is `undefined` exactly when its text is empty, and otherwise `parseFloat` of the text |
| FilterModal.Form.constructor | src/components/FilterModal.tsx:41-44 | the fields start from `currentFilters`; a missing or `undefined` bound starts as empty text |
| FilterModal.Form.ReceiveFilters | src/components/FilterModal.tsx:41-44 | a new `currentFilters` prop leaves the form fields as they are |
| FilterModal.Form.SelectType | src/components/FilterModal.tsx:100-147 | the type buttons set only the type; "All" sets it to `undefined` |
| FilterModal.Form.SelectCategory | src/components/FilterModal.tsx:155-189 | the category buttons set only the category; "All Categories" sets it to `undefined` |
| FilterModal.Form.EditMinAmount | src/components/FilterModal.tsx:199-206 | the min input sets only the min text |
| FilterModal.Form.EditMaxAmount | src/components/FilterModal.tsx:210-217 | the max input sets only the max text |
| FilterModal.Form.Apply | src/components/FilterModal.tsx:48-57 | one `onApplyFilters` call with the four-key object built from the form, then `onClose`; the form is unchanged |
| FilterModal.Form.Clear | src/components/FilterModal.tsx:59-66 | the fields are reset to `undefined` and empty text, `{}` is applied, and the modal closes |
| FilterModal.Form.Cancel | src/components/FilterModal.tsx:68-75 | the fields are restored from `currentFilters`; the modal closes without applying anything |
| FilterModal.ReapplyKeepsFiltering | src/components/FilterModal.tsx:41-57 | when `toString` of each present amount bound reads back through `parseFloat`, applying a form restored from the current filters gives back every set value and filters the home list exactly as the current filters do |
| FilterModal.EmptyFormVersusClear | src/components/FilterModal.tsx:48-66 | applying an empty form and clearing both filter nothing out, but only clearing leaves `hasActiveFilters` false |
| AddTransactionForm.DescriptionArg | src/components/AddTransactionForm.tsx:61 | the description argument is absent exactly for blank text; otherwise it is the non-empty trimmed text |
| AddTransactionForm.DescriptionArgIdempotent | src/components/AddTransactionForm.tsx:61 | a description argument is its own description argument |
| AddTransactionForm.Form.constructor | src/components/AddTransactionForm.tsx:45-48 | the defaults are empty amount, Food, expense and empty description |
| AddTransactionForm.Form.EditAmount | src/components/AddTransactionForm.tsx:102-110 | the amount input sets only the amount |
| AddTransactionForm.Form.SelectType | src/components/AddTransactionForm.tsx:116-151 | the type buttons set only the type |
| AddTransactionForm.Form.SelectCategory | src/components/AddTransactionForm.tsx:158-176 | the category buttons set only the category |
| AddTransactionForm.Form.EditDescription | src/components/AddTransactionForm.tsx:183-191 | the description input sets only the description |
| AddTransactionForm.Form.Submit | src/components/AddTransactionForm.tsx:52-69 | an empty, NaN or non-positive amount raises the alert and changes nothing; a valid one adds once, with the positive parsed amount, the selections and the trimmed description or none, then resets every field and closes |
| AddTransactionForm.Form.Cancel | src/components/AddTransactionForm.tsx:71-78 | every field is reset and the form closes without adding |

## Left out

- `formatCurrency` and `formatDate` are not modelled. They call into
  `Intl.NumberFormat` and date-fns, which are not part of this model.
- `Date.now()` and `Math.random()` are not modelled. `TransactionStore.Add`
  takes the clock reading and the base-36 token as arguments, and uses the
  one reading for both the id and the date.
- Asynchrony is not modelled. Each handler runs to completion, so the races
  between overlapping read-then-write mutations cannot arise.
- AsyncStorage and JSON text are not modelled.
  - The cell is a value: missing, corrupt, or an array of records.
  - A record's category and type are assumed to be among the known ones,
    and its date is text.
  - Stored values of other JSON types are not represented.
- The load's filter, map and second filter are fused into one keep-test
  followed by one conversion. The result is the same.
- A `removeItem` that throws inside the load's `catch` is modelled as a
  removal that does nothing. The rejection it causes in the async function
  is not modelled.
- IEEE floating point is not modelled: amounts are reals, so rounding and
  Infinity are out of scope. `parseFloat` and `toString` are abstract
  functions.
- TransactionUtils.TransactionId: only the prefix is stated. The rest is the
  decimal clock reading and the token, and uniqueness is not claimed.
- A date is an unbounded integer timestamp. It stands for a valid `Date`
  time value, and the save/load lemmas ask the codec to read back only the
  dates actually saved.
- `toISOString` throwing on an invalid `Date` is not modelled, because
  revived dates are always valid.
- `useTheme`, `useAsyncStorage`, `ThemeContext`, `App.tsx` and the
  navigation types are not modelled. They are plumbing, and the only logic
  in them is the theme toggle's negation.
- `AddTransactionScreen.tsx` is not modelled. It repeats the form's
  validation and otherwise only navigates.
- Header, BalanceSummary, TransactionItem and TransactionList are
  presentation only. Of them, only TransactionList's call to
  `sortTransactionsByDate` appears as `HomeScreen.Render`'s list.
- Styles, JSX layout and the `visible` flags of the modals are not modelled.
