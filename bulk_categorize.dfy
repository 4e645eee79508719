/** The bulk-categorise dialog of
    `src/components/transactions/BulkCategorizeDialog.jsx`: the category
    chosen for every selected transaction, the error shown when none is,
    and the options offered. */
module BulkCategorize {
  import opened Text
  import opened Domain

  const SelectCategoryMessage: string := "Please select a category"

  /** The test `c.category_type === t`. */
  function OfType(t: string): Category -> bool
  {
    (c: Category) => c.ctype == t
  }

  /** The options of the select: the income categories, then the expense
      categories, each in the order given. */
  function Options(categories: seq<Category>): seq<Category>
  {
    Filter(categories, OfType("income")) + Filter(categories, OfType("expense"))
  }

  /** A category is offered iff it is given and is an income or expense
      category; no income category follows an expense one; and there are
      as many options as income and expense categories together. */
  lemma OptionsSpec(categories: seq<Category>)
    ensures forall c :: c in Options(categories) <==> c in categories && (c.ctype == "income" || c.ctype == "expense")
    ensures forall i, j :: 0 <= i < j < |Options(categories)| && Options(categories)[i].ctype == "expense" ==>
      Options(categories)[j].ctype == "expense"
    ensures |Options(categories)| == |Filter(categories, OfType("income"))| + |Filter(categories, OfType("expense"))|
  {
    var inc := Filter(categories, OfType("income"));
    var exp := Filter(categories, OfType("expense"));
    assert forall c :: c in inc ==> c.ctype == "income";
    assert forall c :: c in exp ==> c.ctype == "expense";
    forall i, j | 0 <= i < j < |inc + exp| && (inc + exp)[i].ctype == "expense"
      ensures (inc + exp)[j].ctype == "expense"
    {
      assert (inc + exp)[j] == exp[j - |inc|];
      assert exp[j - |inc|] in exp;
    }
  }

  /** The plural of the notice: `transaction` for exactly one, else
      `transactions`, zero included. */
  function Noun(count: int): (r: string)
    ensures r == "transaction" <==> count == 1
    ensures count != 1 ==> r == "transactions"
  {
    if count != 1 then "transactions" else "transaction"
  }

  class BulkCategorizeDialog {
    /** `selectedCategory`: `None` is the empty selection `''`. */
    var selectedCategory: Option<int>
    var error: string

    constructor ()
      ensures selectedCategory.None? && error == ""
    {
      selectedCategory := None;
      error := "";
    }

    /** The Apply button is disabled while nothing is chosen. */
    predicate ApplyDisabled()
      reads this
    {
      selectedCategory.None?
    }

    /** Choosing a category stores it and clears the error. */
    method Choose(id: int)
      modifies this
      ensures selectedCategory == Some(id) && error == ""
      ensures !ApplyDisabled()
    {
      selectedCategory := Some(id);
      error := "";
    }

    /** `handleSubmit`: with nothing chosen, the error is set and nothing
        is submitted; otherwise the chosen category is submitted once and
        the dialog is reset. Submission happens exactly when Apply is
        enabled. */
    method HandleSubmit() returns (submitted: Option<int>)
      modifies this
      ensures submitted.None? <==> old(ApplyDisabled())
      ensures submitted.None? ==> selectedCategory == old(selectedCategory) && error == SelectCategoryMessage
      ensures submitted.Some? ==> submitted == old(selectedCategory) && selectedCategory.None? && error == ""
    {
      if selectedCategory.None? {
        error := SelectCategoryMessage;
        return None;
      }
      submitted := selectedCategory;
      selectedCategory := None;
      error := "";
    }

    /** `handleClose`: the selection and error are reset, then the dialog
        is closed. */
    method HandleClose() returns (closed: bool)
      modifies this
      ensures closed && selectedCategory.None? && error == ""
      ensures ApplyDisabled()
    {
      selectedCategory := None;
      error := "";
      closed := true;
    }
  }

  /** A failed submission leaves Apply disabled and a later choice clears
      the error; after a successful one the dialog is as freshly opened. */
  method SubmitSequence(d: BulkCategorizeDialog, id: int) returns (first: Option<int>, second: Option<int>)
    modifies d
    requires d.selectedCategory.None?
    ensures first.None? && second == Some(id)
    ensures d.selectedCategory.None? && d.error == ""
  {
    first := d.HandleSubmit();
    d.Choose(id);
    second := d.HandleSubmit();
  }
}
