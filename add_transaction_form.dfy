/**
 * src/components/AddTransactionForm.tsx: the add form's four fields, the
 * amount validation and the arguments a valid submit hands to
 * `onAddTransaction`.
 */
module AddTransactionForm {
  import opened Transactions
  import Strings

  /** What a handler does besides changing the form. */
  datatype Effect =
    | Alert
    | AddTransaction(amount: real, category: Category, kind: TransactionType, description: Option<string>)
    | Close

  /**
   * The negation of the early-return guard: the text is non-empty and
   * `parseFloat` of it is a number greater than 0.
   */
  predicate ValidAmount(text: string, parse: string -> Number)
  {
    text != "" && parse(text).Finite? && parse(text).r > 0.0
  }

  /**
   * `description.trim() || undefined`: the trimmed text, or nothing when
   * the text is blank.
   */
  function DescriptionArg(d: string): (r: Option<string>)
    ensures r.None? <==> Strings.AllWhitespace(d)
    ensures r.Some? ==> r.value != "" && Strings.IsTrimmedSlice(r.value, d)
    ensures r.Some? ==> !Strings.IsWhitespace(r.value[0]) && !Strings.IsWhitespace(r.value[|r.value| - 1])
  {
    var t := Strings.Trim(d);
    if t == "" then None else Some(t)
  }

  /** The form's state and the `parseFloat` it validates with. */
  class Form {
    var amount: string
    var selectedCategory: Category
    var selectedType: TransactionType
    var description: string
    const parse: string -> Number

    /** Every field at its default: no amount, Food, expense, no description. */
    predicate AtDefaults()
      reads this
    {
      amount == "" && selectedCategory == Food && selectedType == Expense && description == ""
    }

    constructor (parse: string -> Number)
      ensures this.parse == parse
      ensures AtDefaults()
    {
      this.parse := parse;
      amount := "";
      selectedCategory := Food;
      selectedType := Expense;
      description := "";
    }

    method EditAmount(text: string)
      modifies this
      ensures amount == text
      ensures selectedCategory == old(selectedCategory) && selectedType == old(selectedType)
      ensures description == old(description)
    {
      amount := text;
    }

    /** The expense and income buttons. */
    method SelectType(t: TransactionType)
      modifies this
      ensures selectedType == t
      ensures amount == old(amount) && selectedCategory == old(selectedCategory)
      ensures description == old(description)
    {
      selectedType := t;
    }

    /** One of the ten category buttons. */
    method SelectCategory(c: Category)
      modifies this
      ensures selectedCategory == c
      ensures amount == old(amount) && selectedType == old(selectedType)
      ensures description == old(description)
    {
      selectedCategory := c;
    }

    method EditDescription(text: string)
      modifies this
      ensures description == text
      ensures amount == old(amount) && selectedCategory == old(selectedCategory)
      ensures selectedType == old(selectedType)
    {
      description := text;
    }

    /**
     * `handleSubmit`. An invalid amount raises the alert and changes
     * nothing. A valid one calls `onAddTransaction` once with the parsed
     * positive amount, the selections and the description argument, then
     * resets every field and closes.
     */
    method Submit() returns (effects: seq<Effect>)
      modifies this
      ensures !ValidAmount(old(amount), parse) ==>
        && effects == [Alert]
        && amount == old(amount) && selectedCategory == old(selectedCategory)
        && selectedType == old(selectedType) && description == old(description)
      ensures ValidAmount(old(amount), parse) ==>
        && effects == [AddTransaction(parse(old(amount)).r, old(selectedCategory), old(selectedType),
                                      DescriptionArg(old(description))), Close]
        && AtDefaults()
      ensures effects[0].AddTransaction? <==> ValidAmount(old(amount), parse)
      ensures effects[0].AddTransaction? ==>
        effects[0].amount > 0.0 && (effects[0].description.Some? ==> effects[0].description.value != "")
    {
      var numAmount := parse(amount);
      if amount == "" || numAmount.NaN? || numAmount.r <= 0.0 {
        effects := [Alert];
        return;
      }
      var call := AddTransaction(numAmount.r, selectedCategory, selectedType, DescriptionArg(description));
      amount := "";
      selectedCategory := Food;
      selectedType := Expense;
      description := "";
      effects := [call, Close];
    }

    /** `handleCancel`: every field reset and the modal closed; nothing added. */
    method Cancel() returns (effects: seq<Effect>)
      modifies this
      ensures AtDefaults()
      ensures effects == [Close]
    {
      amount := "";
      selectedCategory := Food;
      selectedType := Expense;
      description := "";
      effects := [Close];
    }
  }

  /** The description argument of a submit is its own trimmed form. */
  lemma DescriptionArgIdempotent(d: string)
    ensures DescriptionArg(d).Some? ==> DescriptionArg(DescriptionArg(d).value) == DescriptionArg(d)
  {
    if DescriptionArg(d).Some? {
      Strings.TrimIdempotent(d);
    }
  }
}
