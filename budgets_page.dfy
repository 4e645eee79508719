/** The budgets page of `src/pages/Budgets.jsx`: the status band a budget
    falls in by the share of it already spent, the capped progress-bar
    value, when the template quick-start is offered, and the confirmed
    delete. */
module BudgetsPage {
  import opened Text
  import opened Domain

  // ---------------------------------------------------------------------
  // getBudgetStatus
  // ---------------------------------------------------------------------

  /** The four bands of `getBudgetStatus`. */
  datatype Status = OnTrack | Monitor | Warning | Exceeded

  /** The chip colour of a band. */
  function Color(s: Status): string
  {
    match s
    case OnTrack => "success"
    case Monitor => "info"
    case Warning => "warning"
    case Exceeded => "error"
  }

  /** The chip label of a band. */
  function Label(s: Status): string
  {
    match s
    case OnTrack => "On Track"
    case Monitor => "Monitor"
    case Warning => "Warning"
    case Exceeded => "Exceeded"
  }

  /** The percentage the page works with, `percentage_used || 0` read as a
      number; `None` is `NaN`. */
  function Percentage(percentageUsed: Amount): Option<real>
  {
    AmountOrZero(percentageUsed)
  }

  /** The `if`/`else if` chain of `getBudgetStatus` on the percentage. */
  function StatusOf(p: Option<real>): (s: Status)
    ensures s == OnTrack <==> p.Some? && p.value <= 50.0
    ensures s == Monitor <==> p.Some? && 50.0 < p.value <= 80.0
    ensures s == Warning <==> p.Some? && 80.0 < p.value <= 100.0
    ensures s == Exceeded <==> p.None? || p.value > 100.0
  {
    if p.Some? && p.value <= 50.0 then OnTrack
    else if p.Some? && p.value <= 80.0 then Monitor
    else if p.Some? && p.value <= 100.0 then Warning
    else Exceeded
  }

  /** `getBudgetStatus(budget)`. */
  function BudgetStatus(percentageUsed: Amount): Status
  {
    StatusOf(Percentage(percentageUsed))
  }

  /** The position of a band, from on track to exceeded. */
  function Rank(s: Status): nat
  {
    match s
    case OnTrack => 0
    case Monitor => 1
    case Warning => 2
    case Exceeded => 3
  }

  /** Each band includes its upper bound: exactly 50, 80 and 100 fall in
      the lower band; a missing percentage counts as 0 and is on track; the
      band never falls as the percentage rises. */
  lemma StatusBands(p: real, q: real)
    ensures StatusOf(Some(50.0)) == OnTrack && StatusOf(Some(80.0)) == Monitor
    ensures StatusOf(Some(100.0)) == Warning
    ensures BudgetStatus(Absent) == OnTrack
    ensures p <= q ==> Rank(StatusOf(Some(p))) <= Rank(StatusOf(Some(q)))
  {
    assert Percentage(Absent) == Some(0.0);
  }

  /** The labels of the four bands are distinct, so the label tells the band. */
  lemma LabelsDistinct(s: Status, t: Status)
    ensures Label(s) == Label(t) <==> s == t
  {
  }

  // ---------------------------------------------------------------------
  // Progress bar and quick-start
  // ---------------------------------------------------------------------

  /** `Math.min(parseFloat(percentage_used || 0), 100)`; `NaN` stays `NaN`. */
  function ProgressValue(percentageUsed: Amount): (r: Option<real>)
    ensures r.None? <==> Percentage(percentageUsed).None?
    ensures r.Some? ==> r.value <= 100.0
    ensures r.Some? && Percentage(percentageUsed).value <= 100.0 ==> r == Percentage(percentageUsed)
    ensures r.Some? && Percentage(percentageUsed).value >= 100.0 ==> r == Some(100.0)
  {
    match Percentage(percentageUsed)
    case None => None
    case Some(p) => Some(if p < 100.0 then p else 100.0)
  }

  /** The quick-start panel ("Get Started with Budgets") is shown on the
      overview tab, tab 0, exactly when there are no budgets. */
  function ShowsQuickStart(budgets: seq<Budget>, activeTab: int): (shown: bool)
    ensures shown <==> activeTab == 0 && budgets == []
  {
    activeTab == 0 && |budgets| == 0
  }

  // ---------------------------------------------------------------------
  // The page
  // ---------------------------------------------------------------------

  const DeleteFailedMessage: string := "Failed to delete budget"

  class BudgetsPage {
    var budgets: seq<Budget>
    var toDelete: Option<Budget>
    var confirmOpen: bool
    var error: Option<string>
    var successMessage: string

    constructor ()
      ensures budgets == [] && toDelete.None? && !confirmOpen && error.None? && successMessage == ""
    {
      budgets := [];
      toDelete := None;
      confirmOpen := false;
      error := None;
      successMessage := "";
    }

    /** `handleDeleteClick`: the budget is held and the confirm dialog opens. */
    method HandleDeleteClick(b: Budget)
      modifies this
      ensures toDelete == Some(b) && confirmOpen
      ensures budgets == old(budgets) && error == old(error) && successMessage == old(successMessage)
    {
      toDelete := Some(b);
      confirmOpen := true;
    }

    /** `handleDeleteConfirm`: nothing happens when no budget is pending;
        otherwise the outcome is reported and the dialog closes. */
    method HandleDeleteConfirm(outcome: Outcome)
      modifies this
      ensures old(toDelete).None? ==>
        toDelete.None? && confirmOpen == old(confirmOpen) && error == old(error) && successMessage == old(successMessage)
      ensures old(toDelete).Some? ==> toDelete.None? && !confirmOpen
      ensures old(toDelete).Some? && outcome.Succeeded? ==>
        successMessage == "Budget deleted successfully" && error == old(error)
      ensures old(toDelete).Some? && outcome.Failed? ==>
        error == Some(ErrorOr(outcome.data, DeleteFailedMessage)) && successMessage == old(successMessage)
      ensures budgets == old(budgets)
    {
      if toDelete.None? {
        return;
      }
      match outcome {
        case Succeeded =>
          successMessage := "Budget deleted successfully";
        case Failed(data) =>
          error := Some(ErrorOr(data, DeleteFailedMessage));
      }
      confirmOpen := false;
      toDelete := None;
    }
  }
}
