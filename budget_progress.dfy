/** The progress dialog of `src/components/budgets/BudgetProgressDialog.jsx`:
    the status chip chosen by the backend's status, the capped bar and its
    colour, the spending-pace note and the daily-allowance alert. */
module BudgetProgress {
  import opened Text
  import opened Domain
  import opened BudgetsPage

  /** A chip: colour and label. */
  datatype Chip = Chip(color: string, title: string)

  /** `getStatusConfig`: the four statuses the backend reports, and
      `default`/`Unknown` for any other. */
  function StatusConfig(status: string): (c: Chip)
    ensures status == "on_track" ==> c == Chip("success", "On Track")
    ensures status == "attention" ==> c == Chip("info", "Needs Attention")
    ensures status == "warning" ==> c == Chip("warning", "Warning")
    ensures status == "exceeded" ==> c == Chip("error", "Exceeded")
    ensures c.title == "Unknown" <==> status !in {"on_track", "attention", "warning", "exceeded"}
    ensures c.color == "default" <==> c.title == "Unknown"
  {
    match status
    case "on_track" => Chip("success", "On Track")
    case "attention" => Chip("info", "Needs Attention")
    case "warning" => Chip("warning", "Warning")
    case "exceeded" => Chip("error", "Exceeded")
    case _ => Chip("default", "Unknown")
  }

  /** The bar colour: `error` above 100, `warning` above 80 up to 100, and
      `success` otherwise, including when the percentage is missing. */
  function BarColor(percentageUsed: Amount): (r: string)
    ensures r == "error" <==> ParseAmount(percentageUsed).Some? && ParseAmount(percentageUsed).value > 100.0
    ensures r == "warning" <==> ParseAmount(percentageUsed).Some? && 80.0 < ParseAmount(percentageUsed).value <= 100.0
    ensures r == "success" <==> ParseAmount(percentageUsed).None? || ParseAmount(percentageUsed).value <= 80.0
  {
    var p := ParseAmount(percentageUsed);
    if p.Some? && p.value > 100.0 then "error"
    else if p.Some? && p.value > 80.0 then "warning"
    else "success"
  }

  /** The pace note: shown only for a truthy pace (present and not 0), and
      reading "over pace" iff the pace is above 100. */
  function PaceNote(pace: Option<real>): (r: Option<string>)
    ensures r.None? <==> pace.None? || pace.value == 0.0
    ensures r.Some? ==> (r.value == " (over pace)" <==> pace.value > 100.0)
    ensures r.Some? ==> (r.value == " (on pace)" <==> pace.value <= 100.0)
  {
    if pace.None? || pace.value == 0.0 then None
    else if pace.value > 100.0 then Some(" (over pace)")
    else Some(" (on pace)")
  }

  /** `daily_allowance` as received: absent, `null`, or a number. */
  datatype Allowance = Undefined | Null | Value(v: real)

  /** The daily-allowance alert. */
  datatype Alert = Alert(severity: string, exceeded: bool)

  /** The alert appears unless the allowance is undefined; a positive
      allowance gives an info alert, anything else (zero, negative,
      `null`) the warning that the budget is exceeded. */
  function AllowanceAlert(a: Allowance): (r: Option<Alert>)
    ensures r.None? <==> a.Undefined?
    ensures r.Some? ==> (r.value.severity == "info" <==> a.Value? && a.v > 0.0)
    ensures r.Some? ==> (r.value.exceeded <==> r.value.severity == "warning")
    ensures r.Some? ==> r.value.severity in {"info", "warning"}
  {
    match a
    case Undefined => None
    case Null => Some(Alert("warning", true))
    case Value(v) => if v > 0.0 then Some(Alert("info", false)) else Some(Alert("warning", true))
  }

  /** The spending part of the progress data. */
  datatype Spending = Spending(percentageUsed: Amount, pace: Option<real>, allowance: Allowance)

  /** What the dialog shows about the progress. */
  datatype View = View(chip: Chip, barValue: Option<real>, barColor: string, pace: Option<string>, alert: Option<Alert>)

  /** The dialog renders nothing without a budget; with one it shows the
      chip, the bar, the pace note and the alert built from the progress
      data. */
  function ProgressView(hasBudget: bool, status: string, s: Spending): (r: Option<View>)
    ensures r.None? <==> !hasBudget
    ensures r.Some? ==> r.value == View(StatusConfig(status), ProgressValue(s.percentageUsed), BarColor(s.percentageUsed),
                                        PaceNote(s.pace), AllowanceAlert(s.allowance))
  {
    if !hasBudget then None
    else Some(View(StatusConfig(status), ProgressValue(s.percentageUsed), BarColor(s.percentageUsed),
                   PaceNote(s.pace), AllowanceAlert(s.allowance)))
  }

  /** The bar never shows more than a full budget, its colour is `error`
      exactly when the value was capped below the percentage, and a
      percentage up to 80 shows green. */
  lemma BarAgrees(percentageUsed: Amount)
    requires percentageUsed.Num?
    ensures ProgressValue(percentageUsed).Some?
    ensures BarColor(percentageUsed) == "error" <==> ProgressValue(percentageUsed).value < percentageUsed.value
    ensures percentageUsed.value <= 80.0 ==> BarColor(percentageUsed) == "success"
  {
  }
}
