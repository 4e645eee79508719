/** The categories page of `src/pages/Categories.jsx`: what a delete click
    leads to, the type and status filters, the income and expense groups,
    the statistics, the categories offered as reassignment targets, and the
    confirm and reassign handlers. */
module CategoriesPage {
  import opened Text
  import opened Domain

  // ---------------------------------------------------------------------
  // Filtering and grouping
  // ---------------------------------------------------------------------

  /** The test of `filteredCategories`. */
  function Kept(filterType: string, filterActive: string): Category -> bool
  {
    (c: Category) => (filterType == "all" || c.ctype == filterType) && StatusAccepts(filterActive, c.isActive)
  }

  /** `filteredCategories`. */
  function FilteredCategories(categories: seq<Category>, filterType: string, filterActive: string): seq<Category>
  {
    Filter(categories, Kept(filterType, filterActive))
  }

  /** A category is listed iff it is loaded, its type matches the type
      filter (or the filter is `all`), and it is active when the status
      filter is `active` and inactive when it is `inactive`. */
  lemma FilteredCategoriesSpec(categories: seq<Category>, filterType: string, filterActive: string)
    ensures forall c :: c in FilteredCategories(categories, filterType, filterActive) <==>
      c in categories && (filterType == "all" || c.ctype == filterType) &&
      (filterActive == "active" ==> c.isActive) && (filterActive == "inactive" ==> !c.isActive)
  {
  }

  /** The test `c.category_type === t`. */
  function OfType(t: string): Category -> bool
  {
    (c: Category) => c.ctype == t
  }

  /** `incomeCategories` and `expenseCategories`: the filtered list split
      by type. */
  function Group(filtered: seq<Category>, t: string): seq<Category>
  {
    Filter(filtered, OfType(t))
  }

  /** The income and expense groups are disjoint, lie within the filtered
      list, together hold at most its length, and each keeps its order:
      grouping a concatenation concatenates the groups. */
  lemma {:induction false} GroupsPartition(filtered: seq<Category>, more: seq<Category>)
    ensures forall c :: !(c in Group(filtered, "income") && c in Group(filtered, "expense"))
    ensures forall c :: c in Group(filtered, "income") || c in Group(filtered, "expense") ==> c in filtered
    ensures |Group(filtered, "income")| + |Group(filtered, "expense")| <= |filtered|
    ensures Group(filtered + more, "income") == Group(filtered, "income") + Group(more, "income")
    ensures Group(filtered + more, "expense") == Group(filtered, "expense") + Group(more, "expense")
  {
    FilterAppend(filtered, more, OfType("income"));
    FilterAppend(filtered, more, OfType("expense"));
    if filtered != [] {
      GroupsPartition(filtered[1..], []);
      assert filtered == [filtered[0]] + filtered[1..];
      FilterAppend([filtered[0]], filtered[1..], OfType("income"));
      FilterAppend([filtered[0]], filtered[1..], OfType("expense"));
    }
  }

  // ---------------------------------------------------------------------
  // Statistics
  // ---------------------------------------------------------------------

  /** `stats`, over every loaded category. */
  datatype Stats = Stats(total: nat, active: nat, income: nat, expense: nat, transactions: int)

  /** The test `c.is_active`. */
  function IsActive(): Category -> bool
  {
    (c: Category) => c.isActive
  }

  /** `categories.reduce((sum, c) => sum + (c.transaction_count || 0), 0)`. */
  function TransactionTotal(categories: seq<Category>): int
  {
    if categories == [] then 0
    else TransactionTotal(categories[..|categories| - 1]) + CountOrZero(categories[|categories| - 1].transactionCount)
  }

  function StatsOf(categories: seq<Category>): Stats
  {
    Stats(|categories|, |Filter(categories, IsActive())|,
          |Filter(categories, OfType("income"))|, |Filter(categories, OfType("expense"))|,
          TransactionTotal(categories))
  }

  /** Componentwise sum of two statistics. */
  function Plus(a: Stats, b: Stats): Stats
  {
    Stats(a.total + b.total, a.active + b.active, a.income + b.income, a.expense + b.expense,
          a.transactions + b.transactions)
  }

  /** The transaction total of a concatenation adds the two totals. */
  lemma {:induction false} TransactionTotalAppend(a: seq<Category>, b: seq<Category>)
    ensures TransactionTotal(a + b) == TransactionTotal(a) + TransactionTotal(b)
  {
    if b == [] {
      assert a + b == a;
    } else {
      var n := |b| - 1;
      assert (a + b)[..|a + b| - 1] == a + b[..n];
      assert (a + b)[|a + b| - 1] == b[n];
      TransactionTotalAppend(a, b[..n]);
    }
  }

  /** Every statistic adds up over a concatenation of category lists, so
      each counts every loaded category once. */
  lemma StatsAppend(a: seq<Category>, b: seq<Category>)
    ensures StatsOf(a + b) == Plus(StatsOf(a), StatsOf(b))
  {
    TransactionTotalAppend(a, b);
    assert |Filter(a + b, IsActive())| == |Filter(a, IsActive())| + |Filter(b, IsActive())| by {
      FilterAppend(a, b, IsActive());
    }
    assert |Filter(a + b, OfType("income"))| == |Filter(a, OfType("income"))| + |Filter(b, OfType("income"))| by {
      FilterAppend(a, b, OfType("income"));
    }
    assert |Filter(a + b, OfType("expense"))| == |Filter(a, OfType("expense"))| + |Filter(b, OfType("expense"))| by {
      FilterAppend(a, b, OfType("expense"));
    }
  }

  /** The statistics of one category: it counts once in the total, once
      in `active` iff it is active, once in its type, and adds its number
      of transactions (0 when missing). */
  lemma StatsOfOne(c: Category)
    ensures StatsOf([c]) == Stats(1, if c.isActive then 1 else 0,
      if c.ctype == "income" then 1 else 0, if c.ctype == "expense" then 1 else 0,
      CountOrZero(c.transactionCount))
  {
    assert [c][1..] == [];
    assert [c][..0] == [];
    assert IsActive()(c) == c.isActive;
    assert OfType("income")(c) == (c.ctype == "income");
    assert OfType("expense")(c) == (c.ctype == "expense");
    assert TransactionTotal([c]) == CountOrZero(c.transactionCount);
  }

  /** The type counts never exceed the total, and without negative counts
      the transaction total is not negative. */
  lemma {:induction false} StatsBounds(categories: seq<Category>)
    requires forall c :: c in categories ==> CountOrZero(c.transactionCount) >= 0
    ensures StatsOf(categories).income + StatsOf(categories).expense <= StatsOf(categories).total
    ensures StatsOf(categories).active <= StatsOf(categories).total
    ensures StatsOf(categories).transactions >= 0
  {
    GroupsPartition(categories, []);
    if categories != [] {
      var n := |categories| - 1;
      assert forall c :: c in categories[..n] ==> c in categories;
      StatsBounds(categories[..n]);
    }
  }

  // ---------------------------------------------------------------------
  // Reassignment targets
  // ---------------------------------------------------------------------

  /** The test of the reassign dialog's `categories`: not the source, the
      source's type, and active. Without a source the type test compares
      with `undefined` and keeps nothing. */
  function TargetTest(source: Option<Category>): Category -> bool
  {
    (c: Category) => source.Some? && c.id != source.value.id && c.ctype == source.value.ctype && c.isActive
  }

  function ReassignTargets(categories: seq<Category>, source: Option<Category>): seq<Category>
  {
    Filter(categories, TargetTest(source))
  }

  /** The targets are exactly the active loaded categories of the source's
      type other than the source, in loaded order; there are none without
      a source. */
  lemma ReassignTargetsSpec(categories: seq<Category>, source: Option<Category>)
    ensures forall c :: c in ReassignTargets(categories, source) <==>
      source.Some? && c in categories && c.id != source.value.id && c.ctype == source.value.ctype && c.isActive
    ensures source.None? ==> ReassignTargets(categories, source) == []
  {
    if source.None? {
      FilterNone(categories, TargetTest(source));
    }
  }

  // ---------------------------------------------------------------------
  // The page
  // ---------------------------------------------------------------------

  /** Where a delete click leads. */
  datatype DeleteDecision = Refuse | Reassign | ConfirmDelete

  /** `handleDeleteClick`: default categories cannot be deleted; a
      category with transactions must first have them reassigned; any
      other is deleted after confirmation. */
  function Decide(c: Category): (d: DeleteDecision)
    ensures d == Refuse <==> c.isDefault
    ensures d == Reassign <==> !c.isDefault && CountPositive(c.transactionCount)
    ensures d == ConfirmDelete <==> !c.isDefault && !CountPositive(c.transactionCount)
  {
    if c.isDefault then Refuse
    else if CountPositive(c.transactionCount) then Reassign
    else ConfirmDelete
  }

  const DefaultMessage: string := "Cannot delete default categories"
  const DeleteFailedMessage: string := "Failed to delete category"
  const ReassignFailedMessage: string := "Failed to reassign transactions"
  const LoadFailedMessage: string := "Failed to load categories"

  class CategoriesPage {
    var categories: seq<Category>
    var error: Option<string>
    var successMessage: string
    var reassignOpen: bool
    var confirmOpen: bool
    var toDelete: Option<Category>
    var toReassign: Option<Category>

    constructor ()
      ensures categories == [] && error.None? && successMessage == ""
      ensures !reassignOpen && !confirmOpen && toDelete.None? && toReassign.None?
    {
      categories := [];
      error := None;
      successMessage := "";
      reassignOpen := false;
      confirmOpen := false;
      toDelete := None;
      toReassign := None;
    }

    /** `fetchCategories` when the request comes back: the error is
        cleared when the fetch starts and the list becomes the response's. */
    method ShowResponse(response: Response<Category>)
      modifies this
      ensures categories == Listed(response) && error.None?
      ensures toDelete == old(toDelete) && toReassign == old(toReassign) && successMessage == old(successMessage)
      ensures reassignOpen == old(reassignOpen) && confirmOpen == old(confirmOpen)
    {
      error := None;
      categories := Listed(response);
    }

    /** `fetchCategories` when the request fails: the fixed message is
        shown and the list already on screen stays. */
    method ShowLoadFailure()
      modifies this
      ensures error == Some(LoadFailedMessage) && categories == old(categories)
      ensures toDelete == old(toDelete) && toReassign == old(toReassign) && successMessage == old(successMessage)
      ensures reassignOpen == old(reassignOpen) && confirmOpen == old(confirmOpen)
    {
      error := Some(LoadFailedMessage);
    }

    /** `handleDeleteClick`: refused with an error, or the reassign dialog
        opened for the category, or the confirm dialog opened for it. */
    method HandleDeleteClick(c: Category)
      modifies this
      ensures Decide(c) == Refuse ==>
        error == Some(DefaultMessage) && reassignOpen == old(reassignOpen) && confirmOpen == old(confirmOpen) &&
        toDelete == old(toDelete) && toReassign == old(toReassign)
      ensures Decide(c) == Reassign ==>
        toReassign == Some(c) && reassignOpen && confirmOpen == old(confirmOpen) &&
        toDelete == old(toDelete) && error == old(error)
      ensures Decide(c) == ConfirmDelete ==>
        toDelete == Some(c) && confirmOpen && reassignOpen == old(reassignOpen) &&
        toReassign == old(toReassign) && error == old(error)
      ensures categories == old(categories) && successMessage == old(successMessage)
    {
      if c.isDefault {
        error := Some(DefaultMessage);
        return;
      }
      if c.transactionCount.Some? && c.transactionCount.value > 0 {
        toReassign := Some(c);
        reassignOpen := true;
      } else {
        toDelete := Some(c);
        confirmOpen := true;
      }
    }

    /** `handleDeleteConfirm`: nothing happens when no category is pending;
        otherwise the outcome is reported and the dialog closes; a deletion
        also reloads the list, which clears the error. */
    method HandleDeleteConfirm(outcome: Outcome)
      modifies this
      ensures old(toDelete).None? ==>
        toDelete.None? && confirmOpen == old(confirmOpen) && error == old(error) && successMessage == old(successMessage)
      ensures old(toDelete).Some? ==> toDelete.None? && !confirmOpen
      ensures old(toDelete).Some? && outcome.Succeeded? ==>
        successMessage == "Category deleted successfully" && error.None?
      ensures old(toDelete).Some? && outcome.Failed? ==>
        error == Some(ErrorOr(outcome.data, DeleteFailedMessage)) && successMessage == old(successMessage)
      ensures categories == old(categories) && toReassign == old(toReassign) && reassignOpen == old(reassignOpen)
    {
      if toDelete.None? {
        return;
      }
      match outcome {
        case Succeeded =>
          successMessage := "Category deleted successfully";
          error := None;
        case Failed(data) =>
          error := Some(ErrorOr(data, DeleteFailedMessage));
      }
      confirmOpen := false;
      toDelete := None;
    }

    /** `handleReassignSubmit`: nothing happens without a pending category;
        success reports it, closes the dialog, clears it and reloads the
        list, which clears the error; failure only shows the error. */
    method HandleReassignSubmit(outcome: Outcome)
      modifies this
      ensures old(toReassign).None? ==>
        toReassign.None? && reassignOpen == old(reassignOpen) && error == old(error) && successMessage == old(successMessage)
      ensures old(toReassign).Some? && outcome.Succeeded? ==>
        successMessage == "Transactions reassigned and " + old(toReassign).value.name + " deactivated successfully" &&
        !reassignOpen && toReassign.None? && error.None?
      ensures old(toReassign).Some? && outcome.Failed? ==>
        error == Some(ErrorOr(outcome.data, ReassignFailedMessage)) && reassignOpen == old(reassignOpen) &&
        toReassign == old(toReassign) && successMessage == old(successMessage)
      ensures categories == old(categories) && toDelete == old(toDelete) && confirmOpen == old(confirmOpen)
    {
      if toReassign.None? {
        return;
      }
      match outcome
      case Succeeded =>
        successMessage := "Transactions reassigned and " + toReassign.value.name + " deactivated successfully";
        reassignOpen := false;
        toReassign := None;
        error := None;
      case Failed(data) =>
        error := Some(ErrorOr(data, ReassignFailedMessage));
    }
  }
}
