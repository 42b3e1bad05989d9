/**
 * src/hooks/useTransactions.ts: the transaction store. It holds the list
 * and the `loading` flag, loads the list from one key/value storage cell
 * (keeping only well-formed records), and writes the cell back on add,
 * delete and clear.
 */
module UseTransactions {
  import opened Transactions
  import opened Seqs
  import TransactionUtils

  /** A stored `amount` property: missing, JSON `null`, or a number. */
  datatype RawAmount = AmountMissing | AmountNull | AmountNumber(n: real)

  /**
   * One element of the stored JSON array. `Falsy` is an element such as
   * `null` or `0`; in a `Record`, an empty `id` or `date` stands for a
   * missing or empty property, and `date` holds the serialised date text.
   */
  datatype RawEntry =
    | Falsy
    | Record(id: string, amount: RawAmount, category: Category, kind: TransactionType,
             date: string, description: Option<string>)

  /**
   * The storage cell under the key `expense_tracker_transactions`: nothing stored, a payload on which
   * `JSON.parse` or the array methods throw, or a JSON array.
   */
  datatype Cell = Missing | Corrupt | Entries(entries: seq<RawEntry>)

  /**
   * How dates travel through JSON: `show` is `Date.prototype.toJSON` and
   * `parse` is `new Date(text).getTime()`, `None` standing for NaN.
   */
  datatype DateCodec = DateCodec(show: int -> string, parse: string -> Option<int>)

  /** The codec reads back the date of every record of `ts`, written as non-empty text. */
  ghost predicate DatesRoundTrip(c: DateCodec, ts: seq<Transaction>)
  {
    forall i :: 0 <= i < |ts| ==> c.parse(c.show(ts[i].date)) == Some(ts[i].date) && c.show(ts[i].date) != ""
  }

  /** `Number(t.amount)` for an amount that is not `undefined`. */
  function ToNumber(a: RawAmount): real
  {
    match a
    case AmountNumber(n) => n
    case _ => 0.0
  }

  /**
   * The load filters: the element is truthy, `id` is truthy, `amount` is
   * not `undefined`, `date` is truthy and parses to a valid time.
   */
  predicate Keep(c: DateCodec, e: RawEntry)
  {
    e.Record? && e.id != "" && !e.amount.AmountMissing? && e.date != "" && c.parse(e.date).Some?
  }

  function KeepWith(c: DateCodec): RawEntry -> bool
  {
    e => Keep(c, e)
  }

  /** The `map` step: the date revived and the amount converted to a number. */
  function Revive(c: DateCodec, e: RawEntry): Transaction
  {
    match e
    case Falsy => Transaction("", 0.0, Other, Expense, 0, None)
    case Record(id, amount, category, kind, date, description) =>
      Transaction(id, ToNumber(amount), category, kind,
                  match c.parse(date) case Some(d) => d case None => 0,
                  description)
  }

  function ReviveWith(c: DateCodec): RawEntry -> Transaction
  {
    e => Revive(c, e)
  }

  /** The list a stored array loads to. */
  function LoadEntries(c: DateCodec, es: seq<RawEntry>): seq<Transaction>
  {
    Map(ReviveWith(c), Filter(KeepWith(c), es))
  }

  /** `JSON.stringify` of one transaction, as the load sees it again. */
  function Serialize(c: DateCodec, t: Transaction): RawEntry
  {
    Record(t.id, AmountNumber(t.amount), t.category, t.kind, c.show(t.date), t.description)
  }

  function SerializeWith(c: DateCodec): Transaction -> RawEntry
  {
    t => Serialize(c, t)
  }

  function SerializeAll(c: DateCodec, ts: seq<Transaction>): seq<RawEntry>
  {
    Map(SerializeWith(c), ts)
  }

  ghost predicate IdsNonEmpty(ts: seq<Transaction>)
  {
    forall i :: 0 <= i < |ts| ==> ts[i].id != ""
  }

  /**
   * Loading keeps exactly the well-formed stored records, in order and with
   * their number of copies, and
   * turns each into a transaction with its id, number, category, type,
   * parsed date and description.
   */
  lemma LoadEntriesSpec(c: DateCodec, es: seq<RawEntry>)
    ensures IsSubsequence(Filter(KeepWith(c), es), es)
    ensures |LoadEntries(c, es)| == |Filter(KeepWith(c), es)|
    ensures forall i :: 0 <= i < |LoadEntries(c, es)| ==>
      var e := Filter(KeepWith(c), es)[i];
      var t := LoadEntries(c, es)[i];
      && Keep(c, e)
      && t.id == e.id && t.id != "" && t.amount == ToNumber(e.amount)
      && t.category == e.category && t.kind == e.kind
      && Some(t.date) == c.parse(e.date) && t.description == e.description
    ensures forall e :: e in es ==> (e in Filter(KeepWith(c), es) <==> Keep(c, e))
    ensures forall e :: multiset(Filter(KeepWith(c), es))[e] == if Keep(c, e) then multiset(es)[e] else 0
  {
    FilterIsSubsequence(KeepWith(c), es);
    FilterCount(KeepWith(c), es);
  }

  /** Every loaded transaction has a non-empty id. */
  lemma LoadedIdsNonEmpty(c: DateCodec, es: seq<RawEntry>)
    ensures IdsNonEmpty(LoadEntries(c, es))
  {
    LoadEntriesSpec(c, es);
  }

  /** Saving a list and loading it again gives the same list back. */
  lemma SaveLoadRoundTrip(c: DateCodec, ts: seq<Transaction>)
    requires DatesRoundTrip(c, ts)
    requires IdsNonEmpty(ts)
    ensures LoadEntries(c, SerializeAll(c, ts)) == ts
  {
    var es := SerializeAll(c, ts);
    assert forall e :: e in es ==> Keep(c, e) by {
      forall e | e in es ensures Keep(c, e) {
        var i :| 0 <= i < |es| && es[i] == e;
        assert c.parse(c.show(ts[i].date)) == Some(ts[i].date);
      }
    }
    FilterAll(KeepWith(c), es);
    var r := LoadEntries(c, es);
    forall i | 0 <= i < |ts| ensures r[i] == ts[i] {
      assert c.parse(c.show(ts[i].date)) == Some(ts[i].date);
    }
  }

  /**
   * The hook's state. `storage` is the transactions' storage cell; each
   * storage call that may fail takes a flag saying whether it succeeded.
   */
  class TransactionStore {
    var transactions: seq<Transaction>
    var loading: bool
    var storage: Cell
    const codec: DateCodec

    /** Every transaction has a non-empty id, as generated or as loaded. */
    ghost predicate Valid()
      reads this
    {
      IdsNonEmpty(transactions)
    }

    /** The storage cell holds exactly the in-memory list. */
    ghost predicate InSync()
      reads this
    {
      storage == Entries(SerializeAll(codec, transactions))
    }

    /** The first render: an empty list, still loading. */
    constructor (codec: DateCodec, storage: Cell)
      ensures Valid()
      ensures transactions == [] && loading
      ensures this.storage == storage && this.codec == codec
    {
      this.transactions := [];
      this.loading := true;
      this.storage := storage;
      this.codec := codec;
    }

    /**
     * The load effect. A stored array replaces the list by its well-formed
     * records. Nothing stored leaves the list alone. A failing read or a
     * corrupt payload removes the key (when the removal succeeds) and leaves
     * the list alone. `loading` is false afterwards in every case.
     */
    method Load(readOk: bool, removeOk: bool)
      requires Valid()
      modifies this
      ensures Valid()
      ensures !loading
      ensures readOk && old(storage).Entries? ==>
        transactions == LoadEntries(codec, old(storage).entries) && storage == old(storage)
      ensures readOk && old(storage).Missing? ==>
        transactions == old(transactions) && storage == Missing
      ensures (!readOk || old(storage).Corrupt?) ==>
        transactions == old(transactions) && storage == (if removeOk then Missing else old(storage))
    {
      var removeKey := false;
      if !readOk {
        removeKey := true;
      } else {
        match storage
        case Missing =>
        case Corrupt =>
          removeKey := true;
        case Entries(es) =>
          LoadedIdsNonEmpty(codec, es);
          transactions := LoadEntries(codec, es);
      }
      if removeKey && removeOk {
        storage := Missing;
      }
      loading := false;
    }

    /**
     * `saveTransactions`: the list is set first; a failed write leaves the
     * storage cell as it was but does not roll the list back.
     */
    method Save(newTransactions: seq<Transaction>, writeOk: bool)
      requires Valid() && IdsNonEmpty(newTransactions)
      modifies this
      ensures Valid()
      ensures transactions == newTransactions
      ensures storage == if writeOk then Entries(SerializeAll(codec, newTransactions)) else old(storage)
      ensures writeOk ==> InSync()
      ensures loading == old(loading)
    {
      transactions := newTransactions;
      if writeOk {
        storage := Entries(SerializeAll(codec, newTransactions));
      }
    }

    /**
     * `addTransaction`, with the clock reading and the random id token
     * passed in: exactly one record is appended and the earlier ones stay.
     */
    method Add(now: nat, token: string, amount: real, category: Category, kind: TransactionType,
               description: Option<string>, writeOk: bool)
      requires Valid()
      modifies this
      ensures Valid()
      ensures transactions ==
        old(transactions) + [Transaction(TransactionUtils.TransactionId(now, token), amount, category, kind, now, description)]
      ensures storage == if writeOk then Entries(SerializeAll(codec, transactions)) else old(storage)
      ensures loading == old(loading)
    {
      var t := Transaction(TransactionUtils.TransactionId(now, token), amount, category, kind, now, description);
      Save(transactions + [t], writeOk);
    }

    /** `deleteTransaction`: every record with `id` goes, the rest stay in order. */
    method Delete(id: string, writeOk: bool)
      requires Valid()
      modifies this
      ensures Valid()
      ensures transactions == WithoutId(old(transactions), id)
      ensures storage == if writeOk then Entries(SerializeAll(codec, transactions)) else old(storage)
      ensures loading == old(loading)
    {
      var kept := WithoutId(transactions, id);
      Save(kept, writeOk);
    }

    /**
     * `clearAllTransactions`: the key is removed, then the list emptied; a
     * failed removal changes nothing.
     */
    method ClearAll(removeOk: bool)
      requires Valid()
      modifies this
      ensures Valid()
      ensures transactions == (if removeOk then [] else old(transactions))
      ensures storage == (if removeOk then Missing else old(storage))
      ensures loading == old(loading)
    {
      if removeOk {
        storage := Missing;
        transactions := [];
      }
    }

    /**
     * `getFilteredTransactions`: a pure read of the current list, keeping
     * in order exactly the records that match.
     */
    function FilteredTransactions(filters: FilterOptions): (r: seq<Transaction>)
      reads this
      ensures IsSubsequence(r, transactions)
      ensures forall t :: t in transactions ==> (t in r <==> TransactionUtils.Matches(t, filters))
      ensures forall t :: multiset(r)[t] == if TransactionUtils.Matches(t, filters) then multiset(transactions)[t] else 0
    {
      TransactionUtils.FilterTransactionsSpec(transactions, filters);
      TransactionUtils.FilterTransactions(transactions, filters)
    }

    /** `summary`: always the summary of the current list. */
    method Summary() returns (s: TransactionSummary)
      ensures s.totalIncome == TransactionUtils.TotalIncome(transactions)
      ensures s.totalExpenses == TransactionUtils.TotalExpenses(transactions)
      ensures s.totalBalance == s.totalIncome - s.totalExpenses
    {
      s := TransactionUtils.CalculateSummary(transactions);
    }
  }

  function OtherId(id: string): Transaction -> bool
  {
    (t: Transaction) => t.id != id
  }

  /** The list `deleteTransaction(id)` keeps: `filter(t => t.id !== id)`. */
  function WithoutId(ts: seq<Transaction>, id: string): seq<Transaction>
  {
    Filter(OtherId(id), ts)
  }

  /**
   * Deleting removes every record with the id and only those, keeping the
   * order and the number of copies of the others.
   */
  lemma DeleteSpec(ts: seq<Transaction>, id: string)
    ensures IsSubsequence(WithoutId(ts, id), ts)
    ensures forall t :: t in WithoutId(ts, id) ==> t.id != id
    ensures forall t :: t in ts && t.id != id ==> t in WithoutId(ts, id)
    ensures forall t :: multiset(WithoutId(ts, id))[t] == if t.id != id then multiset(ts)[t] else 0
    ensures (forall t :: t in ts ==> t.id != id) ==> WithoutId(ts, id) == ts
  {
    FilterIsSubsequence(OtherId(id), ts);
    FilterCount(OtherId(id), ts);
    if forall t :: t in ts ==> t.id != id {
      FilterAll(OtherId(id), ts);
    }
  }

  /**
   * A store whose cell is in sync reloads to the same list: what add and
   * delete write is what the next load reads.
   */
  lemma ReloadAfterSave(s: TransactionStore)
    requires s.Valid() && s.InSync() && DatesRoundTrip(s.codec, s.transactions)
    ensures s.storage.Entries? && LoadEntries(s.codec, s.storage.entries) == s.transactions
  {
    SaveLoadRoundTrip(s.codec, s.transactions);
  }
}
