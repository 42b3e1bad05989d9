/**
 * src/components/FilterModal.tsx: the modal's four form fields, how they are
 * initialised from and restored to the current filters, and the filter
 * object that apply and clear hand to the parent.
 */
module FilterModal {
  import opened Transactions
  import opened Seqs
  import HomeScreen

  /** A callback the modal makes: `onApplyFilters(filters)` or `onClose()`. */
  datatype Effect = ApplyFilters(filters: FilterOptions) | Close

  /** `parseFloat` on a text field and `Number.prototype.toString`. */
  datatype NumberCodec = NumberCodec(parse: string -> Number, show: Number -> string)

  /**
   * The bound `f` holds, if any, is written by `toString` as non-empty text
   * that `parseFloat` reads back exactly.
   */
  predicate ShowsBack(c: NumberCodec, f: Field<Number>)
  {
    f.Value? ==> c.parse(c.show(f.value)) == f.value && c.show(f.value) != ""
  }

  /** The selection a stored key gives: `undefined` unless a value is present. */
  function Selected<T>(f: Field<T>): (o: Option<T>)
    ensures o.Some? <==> f.Value?
    ensures o.Some? ==> o.value == f.value
  {
    if f.Value? then Some(f.value) else None
  }

  /** `f?.toString() || ''`: a missing or undefined bound shows as empty text. */
  function AmountText(show: Number -> string, f: Field<Number>): string
  {
    if f.Value? then show(f.value) else ""
  }

  /** A selection as the apply object holds it: the key is always written. */
  function Emitted<T>(o: Option<T>): (f: Field<T>)
    ensures f.HasKey()
    ensures f.Value? <==> o.Some?
    ensures o.Some? ==> f.value == o.value
  {
    match o
    case Some(v) => Value(v)
    case None => Undefined
  }

  /** `text ? parseFloat(text) : undefined`. */
  function ParsedAmount(parse: string -> Number, text: string): (f: Field<Number>)
    ensures f.HasKey()
    ensures f == Undefined <==> text == ""
    ensures text != "" ==> f == Value(parse(text))
  {
    if text == "" then Undefined else Value(parse(text))
  }

  /**
   * The object `handleApply` builds: always exactly the four keys type,
   * category, minAmount and maxAmount, never a date.
   */
  function AppliedFilters(selectedType: Option<TransactionType>, selectedCategory: Option<Category>,
                          minAmount: string, maxAmount: string, parse: string -> Number): (f: FilterOptions)
    ensures KeyCount(f) == 4
    ensures f.dateFrom == Absent && f.dateTo == Absent
    ensures f.kind.Value? <==> selectedType.Some?
    ensures f.category.Value? <==> selectedCategory.Some?
    ensures selectedType.Some? ==> f.kind == Value(selectedType.value)
    ensures selectedCategory.Some? ==> f.category == Value(selectedCategory.value)
    ensures f.minAmount == Undefined <==> minAmount == ""
    ensures f.maxAmount == Undefined <==> maxAmount == ""
    ensures minAmount != "" ==> f.minAmount == Value(parse(minAmount))
    ensures maxAmount != "" ==> f.maxAmount == Value(parse(maxAmount))
  {
    FilterOptions(Emitted(selectedType), Emitted(selectedCategory),
                  ParsedAmount(parse, minAmount), ParsedAmount(parse, maxAmount), Absent, Absent)
  }

  /** The modal's state: the `currentFilters` prop and the four form fields. */
  class Form {
    var currentFilters: FilterOptions
    var selectedType: Option<TransactionType>
    var selectedCategory: Option<Category>
    var minAmount: string
    var maxAmount: string
    const codec: NumberCodec

    /** The form fields show the filter object `f`. */
    ghost predicate Shows(f: FilterOptions)
      reads this
    {
      && selectedType == Selected(f.kind)
      && selectedCategory == Selected(f.category)
      && minAmount == AmountText(codec.show, f.minAmount)
      && maxAmount == AmountText(codec.show, f.maxAmount)
    }

    /** The first render: every field initialised from `currentFilters`. */
    constructor (currentFilters: FilterOptions, codec: NumberCodec)
      ensures this.codec == codec && this.currentFilters == currentFilters
      ensures Shows(currentFilters)
    {
      this.codec := codec;
      this.currentFilters := currentFilters;
      this.selectedType := Selected(currentFilters.kind);
      this.selectedCategory := Selected(currentFilters.category);
      this.minAmount := AmountText(codec.show, currentFilters.minAmount);
      this.maxAmount := AmountText(codec.show, currentFilters.maxAmount);
    }

    /** A re-render with new props: the state keeps its values. */
    method ReceiveFilters(f: FilterOptions)
      modifies this
      ensures currentFilters == f
      ensures selectedType == old(selectedType) && selectedCategory == old(selectedCategory)
      ensures minAmount == old(minAmount) && maxAmount == old(maxAmount)
    {
      currentFilters := f;
    }

    /** The type buttons; `None` is "All". */
    method SelectType(t: Option<TransactionType>)
      modifies this
      ensures selectedType == t
      ensures currentFilters == old(currentFilters) && selectedCategory == old(selectedCategory)
      ensures minAmount == old(minAmount) && maxAmount == old(maxAmount)
    {
      selectedType := t;
    }

    /** The category buttons; `None` is "All Categories". */
    method SelectCategory(c: Option<Category>)
      modifies this
      ensures selectedCategory == c
      ensures currentFilters == old(currentFilters) && selectedType == old(selectedType)
      ensures minAmount == old(minAmount) && maxAmount == old(maxAmount)
    {
      selectedCategory := c;
    }

    method EditMinAmount(text: string)
      modifies this
      ensures minAmount == text
      ensures currentFilters == old(currentFilters) && selectedType == old(selectedType)
      ensures selectedCategory == old(selectedCategory) && maxAmount == old(maxAmount)
    {
      minAmount := text;
    }

    method EditMaxAmount(text: string)
      modifies this
      ensures maxAmount == text
      ensures currentFilters == old(currentFilters) && selectedType == old(selectedType)
      ensures selectedCategory == old(selectedCategory) && minAmount == old(minAmount)
    {
      maxAmount := text;
    }

    /**
     * `handleApply`: one call to `onApplyFilters` with the form's filter
     * object, then `onClose`; the form itself is left as it is.
     */
    method Apply() returns (effects: seq<Effect>)
      ensures |effects| == 2 && effects[0].ApplyFilters? && effects[1] == Close
      ensures effects[0].filters == AppliedFilters(selectedType, selectedCategory, minAmount, maxAmount, codec.parse)
      ensures KeyCount(effects[0].filters) == 4
    {
      var filters := AppliedFilters(selectedType, selectedCategory, minAmount, maxAmount, codec.parse);
      effects := [ApplyFilters(filters), Close];
    }

    /** `handleClear`: every field emptied, `{}` applied, the modal closed. */
    method Clear() returns (effects: seq<Effect>)
      modifies this
      ensures selectedType == None && selectedCategory == None
      ensures minAmount == "" && maxAmount == ""
      ensures Shows(NoFilters)
      ensures currentFilters == old(currentFilters)
      ensures effects == [ApplyFilters(NoFilters), Close]
    {
      selectedType := None;
      selectedCategory := None;
      minAmount := "";
      maxAmount := "";
      effects := [ApplyFilters(NoFilters), Close];
    }

    /** `handleCancel`: the fields restored from `currentFilters`; nothing applied. */
    method Cancel() returns (effects: seq<Effect>)
      modifies this
      ensures Shows(currentFilters)
      ensures currentFilters == old(currentFilters)
      ensures effects == [Close]
    {
      selectedType := Selected(currentFilters.kind);
      selectedCategory := Selected(currentFilters.category);
      minAmount := AmountText(codec.show, currentFilters.minAmount);
      maxAmount := AmountText(codec.show, currentFilters.maxAmount);
      effects := [Close];
    }
  }

  /** The filter object applying a form that shows `f` produces. */
  function ReappliedFilters(c: NumberCodec, f: FilterOptions): FilterOptions
  {
    AppliedFilters(Selected(f.kind), Selected(f.category),
                   AmountText(c.show, f.minAmount), AmountText(c.show, f.maxAmount), c.parse)
  }

  /**
   * Opening the modal on the current filters (or cancelling it) and then
   * applying gives back every set value, turns every unset key into an
   * `undefined` one, and so filters the home screen's list exactly as the
   * current filters do, provided the two bounds survive `toString` and
   * `parseFloat`.
   */
  lemma ReapplyKeepsFiltering(c: NumberCodec, f: FilterOptions, ts: seq<Transaction>)
    requires ShowsBack(c, f.minAmount) && ShowsBack(c, f.maxAmount)
    ensures var g := ReappliedFilters(c, f);
      && (f.kind.Value? ==> g.kind == f.kind) && (!f.kind.Value? ==> g.kind == Undefined)
      && (f.category.Value? ==> g.category == f.category) && (!f.category.Value? ==> g.category == Undefined)
      && (f.minAmount.Value? ==> g.minAmount == f.minAmount) && (!f.minAmount.Value? ==> g.minAmount == Undefined)
      && (f.maxAmount.Value? ==> g.maxAmount == f.maxAmount) && (!f.maxAmount.Value? ==> g.maxAmount == Undefined)
    ensures HomeScreen.FilteredTransactions(ts, ReappliedFilters(c, f)) == HomeScreen.FilteredTransactions(ts, f)
  {
    var g := ReappliedFilters(c, f);
    assert AmountBound(g.minAmount) == AmountBound(f.minAmount);
    assert AmountBound(g.maxAmount) == AmountBound(f.maxAmount);
    if KeyCount(f) == 0 {
      HomeScreen.UndefinedKeysAreActive(ts, g);
    } else {
      FilterCongruent(HomeScreen.HomeMatchesFilter(g), HomeScreen.HomeMatchesFilter(f), ts);
    }
  }

  /**
   * Applying an empty form and clearing filter nothing out, but only the
   * cleared object leaves `hasActiveFilters` false: the applied one holds
   * four `undefined` keys.
   */
  lemma EmptyFormVersusClear(parse: string -> Number, ts: seq<Transaction>)
    ensures var g := AppliedFilters(None, None, "", "", parse);
      && HomeScreen.HasActiveFilters(g)
      && HomeScreen.FilteredTransactions(ts, g) == ts
    ensures !HomeScreen.HasActiveFilters(NoFilters)
    ensures HomeScreen.FilteredTransactions(ts, NoFilters) == ts
  {
    HomeScreen.UndefinedKeysAreActive(ts, AppliedFilters(None, None, "", "", parse));
  }
}
