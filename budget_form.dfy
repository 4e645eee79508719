/** The budget dialog of `src/components/budgets/BudgetFormDialog.jsx`: the
    search for an overlapping active budget, the end date derived from the
    start date and period, the automatic name, the validator, the payload
    and the mapping of backend errors. Dates travel as `YYYY-MM-DD` strings,
    as the date inputs produce them. */
module BudgetForm {
  import opened Text
  import opened Calendar
  import opened Domain
  import opened Formatters

  /** The dialog's `formData`; the category is a category id, or `None` for
      the empty selection. */
  datatype FormData = FormData(
    category: Option<int>, budgetName: string, budgetAmount: string,
    budgetType: string, periodType: string, startDate: string, endDate: string)

  // ---------------------------------------------------------------------
  // Overlapping budgets
  // ---------------------------------------------------------------------

  /** `a >= b` on JavaScript strings. */
  predicate StrGreaterEq(a: string, b: string)
  {
    StrLessEq(b, a)
  }

  /** The three-clause date test of the overlap search: the candidate's start
      or end falls inside the budget, or the candidate covers it. */
  predicate RangesMeet(start: string, end: string, b: Budget)
  {
    (StrGreaterEq(start, b.startDate) && StrLessEq(start, b.endDate)) ||
    (StrGreaterEq(end, b.startDate) && StrLessEq(end, b.endDate)) ||
    (StrLessEq(start, b.startDate) && StrGreaterEq(end, b.endDate))
  }

  /** The search predicate: same category, active, not the budget being
      edited, and meeting the candidate range. */
  predicate Conflicts(b: Budget, category: int, start: string, end: string, editing: Option<int>)
  {
    b.category == category && b.isActive && (editing.None? || b.id != editing.value) &&
    RangesMeet(start, end, b)
  }

  /** `existingBudgets.find(...)`: the first conflicting budget in list order. */
  function FindOverlap(budgets: seq<Budget>, category: int, start: string, end: string,
                       editing: Option<int>): (r: Option<Budget>)
    ensures r.None? <==> forall i :: 0 <= i < |budgets| ==> !Conflicts(budgets[i], category, start, end, editing)
    ensures r.Some? ==>
      exists i ::
        0 <= i < |budgets| && budgets[i] == r.value &&
        Conflicts(budgets[i], category, start, end, editing) &&
        (forall j :: 0 <= j < i ==> !Conflicts(budgets[j], category, start, end, editing))
  {
    Find(budgets, b => Conflicts(b, category, start, end, editing))
  }

  /** With both ranges in order, the three-clause test is the usual
      intersection test of closed intervals: neither range ends before the
      other starts. Ranges sharing a single boundary day meet. */
  lemma RangesMeetIsIntersection(start: string, end: string, b: Budget)
    requires StrLessEq(start, end) && StrLessEq(b.startDate, b.endDate)
    ensures RangesMeet(start, end, b) <==> !(StrLess(end, b.startDate) || StrLess(b.endDate, start))
  {
    var s, e, bs, be := start, end, b.startDate, b.endDate;
    StrLessTrichotomy(s, bs);
    StrLessTrichotomy(s, be);
    StrLessTrichotomy(e, bs);
    StrLessTrichotomy(e, be);
    if StrLess(e, bs) {
      if StrLess(s, e) { StrLessTransitive(s, e, bs); }
      if StrLess(bs, be) { StrLessTransitive(e, bs, be); }
      assert !RangesMeet(s, e, b);
    } else if StrLess(be, s) {
      if StrLess(s, e) { StrLessTransitive(be, s, e); }
      if StrLess(bs, be) { StrLessTransitive(bs, be, s); }
      assert !RangesMeet(s, e, b);
    } else {
      assert StrLessEq(bs, e) && StrLessEq(s, be);
      if StrLess(s, bs) {
        if StrLess(e, be) {
          assert StrGreaterEq(e, bs) && StrLessEq(e, be);
        } else {
          assert StrLessEq(s, bs) && StrGreaterEq(e, be);
        }
      } else {
        assert StrGreaterEq(s, bs) && StrLessEq(s, be);
      }
    }
  }

  /** On real days with four-digit years, a budget meets the candidate range
      exactly when the two ranges of days intersect. */
  lemma RangesMeetOnDays(cs: Date, ce: Date, b: Budget, bs: Date, be: Date)
    requires ValidDate(cs) && ValidDate(ce) && ValidDate(bs) && ValidDate(be)
    requires 1000 <= cs.year <= 9999 && 1000 <= ce.year <= 9999
    requires 1000 <= bs.year <= 9999 && 1000 <= be.year <= 9999
    requires b.startDate == FormatDateForAPI(Day(bs)) && b.endDate == FormatDateForAPI(Day(be))
    requires DayNumber(cs) <= DayNumber(ce) && DayNumber(bs) <= DayNumber(be)
    ensures RangesMeet(FormatDateForAPI(Day(cs)), FormatDateForAPI(Day(ce)), b)
        <==> DayNumber(bs) <= DayNumber(ce) && DayNumber(cs) <= DayNumber(be)
  {
    var s, e := FormatDateForAPI(Day(cs)), FormatDateForAPI(Day(ce));
    DateStringOrder(cs, ce);
    DateStringOrder(bs, be);
    DateStringOrder(ce, bs);
    DateStringOrder(be, cs);
    DayNumberOrder(cs, ce);
    DayNumberOrder(bs, be);
    DayNumberOrder(ce, bs);
    DayNumberOrder(be, cs);
    RangesMeetIsIntersection(s, e, b);
  }

  const OverlapPrefix: string := "Warning: An active budget already exists for this category in this period ("

  /** The warning naming the overlapping budget: the fixed text, then the
      budget's name, then `)`. */
  function OverlapWarning(name: string): (r: string)
    ensures |r| == |OverlapPrefix| + |name| + 1
    ensures r[..|OverlapPrefix|] == OverlapPrefix && r[|OverlapPrefix|..|r| - 1] == name && r[|r| - 1] == ')'
  {
    OverlapPrefix + name + ")"
  }

  // ---------------------------------------------------------------------
  // The end date
  // ---------------------------------------------------------------------

  /** The day a period starting on `d` ends on, as the `Date` setters of the
      end-date `switch` compute it. */
  function PeriodEnd(d: Date, periodType: string): (r: Date)
    requires ValidDate(d)
    ensures ValidDate(r)
    ensures periodType == "weekly" ==> DayNumber(r) == DayNumber(d) + 6
    ensures periodType !in {"weekly", "monthly", "quarterly", "yearly"} ==> r == d
  {
    if periodType == "weekly" then AddDays(d, 6)
    else if periodType == "monthly" then MonthEndAfterShift(d, 1)
    else if periodType == "quarterly" then MonthEndAfterShift(d, 3)
    else if periodType == "yearly" then YearEndAfter(d)
    else d
  }

  /** The end-date computation of `handleChange`: `new Date(start)`, then
      the setters of the period's case, then `formatDateForAPI`. A start
      that is not a date stays an Invalid Date through every setter. */
  method EndDateFor(start: string, periodType: string) returns (end: string)
    ensures ParseDate(start).InvalidDate? ==> end == "NaN-NaN-NaN"
    ensures ParseDate(start).Day? ==> end == FormatDateForAPI(Day(PeriodEnd(ParseDate(start).date, periodType)))
  {
    var startDate := ParseDate(start);
    if startDate.InvalidDate? {
      return FormatDateForAPI(InvalidDate);
    }
    var endDate := ApplyPeriod(startDate.date, periodType);
    end := FormatDateForAPI(Day(endDate));
  }

  /** The `switch` over the period type, on a copy of the start date. */
  method ApplyPeriod(s: Date, periodType: string) returns (endDate: Date)
    requires ValidDate(s)
    ensures endDate == PeriodEnd(s, periodType)
  {
    endDate := s;
    if periodType == "weekly" {
      endDate := AddDaysStep(endDate, 6);
    } else if periodType == "monthly" {
      endDate := MonthEndStep(endDate, 1);
    } else if periodType == "quarterly" {
      endDate := MonthEndStep(endDate, 3);
    } else if periodType == "yearly" {
      endDate := YearEndStep(endDate);
    }
  }

  /** `d.setDate(d.getDate() + n)`. */
  method AddDaysStep(d: Date, n: int) returns (r: Date)
    requires ValidDate(d)
    ensures r == AddDays(d, n)
  {
    r := SetDate(d, d.day + n);
    SetDateRelative(d, n);
  }

  /** `d.setMonth(d.getMonth() + k)` then `d.setDate(0)`. */
  method MonthEndStep(d: Date, k: int) returns (r: Date)
    requires ValidDate(d)
    ensures r == MonthEndAfterShift(d, k)
  {
    r := SetMonth(d, d.month - 1 + k);
    r := SetDate(r, 0);
    SetMonthThenDayZero(d, k);
  }

  /** `d.setFullYear(d.getFullYear() + 1)` then `d.setDate(d.getDate() - 1)`. */
  method YearEndStep(d: Date) returns (r: Date)
    requires ValidDate(d)
    ensures r == YearEndAfter(d)
  {
    var x := SetFullYear(d, d.year + 1);
    r := SetDate(x, x.day - 1);
    SetFullYearThenDayBack(d);
  }

  /** A monthly or quarterly period whose start day exists in the month
      after the period ends on the last day of the period's last month. */
  lemma MonthlyEndInMonth(d: Date, k: int)
    requires ValidDate(d) && (k == 1 || k == 3)
    requires d.day <= DaysInMonth(ShiftMonth(d.year, d.month, k).0, ShiftMonth(d.year, d.month, k).1)
    ensures PeriodEnd(d, if k == 1 then "monthly" else "quarterly")
         == LastDayOfMonth(ShiftMonth(d.year, d.month, k - 1).0, ShiftMonth(d.year, d.month, k - 1).1)
  {
  }

  /** A start day that the month after lacks overflows: the period then ends
      on the last day of that later month. */
  lemma MonthlyEndOverflow(d: Date, k: int)
    requires ValidDate(d) && (k == 1 || k == 3)
    requires d.day > DaysInMonth(ShiftMonth(d.year, d.month, k).0, ShiftMonth(d.year, d.month, k).1)
    ensures PeriodEnd(d, if k == 1 then "monthly" else "quarterly")
         == LastDayOfMonth(ShiftMonth(d.year, d.month, k).0, ShiftMonth(d.year, d.month, k).1)
  {
  }

  /** The monthly period from 31 January runs to the end of February: 29
      February in a leap year such as 2024, 28 February otherwise; from 15
      January it runs to 31 January. */
  lemma MonthlyEndFromJanuary(y: int)
    ensures PeriodEnd(Date(y, 1, 31), "monthly") == Date(y, 2, DaysInMonth(y, 2))
    ensures PeriodEnd(Date(y, 1, 15), "monthly") == Date(y, 1, 31)
    ensures DaysInMonth(2024, 2) == 29 && DaysInMonth(2023, 2) == 28
  {
    assert ShiftMonth(y, 1, 1) == (y, 2) && ShiftMonth(y, 1, 0) == (y, 1);
    MonthlyEndOverflow(Date(y, 1, 31), 1);
    MonthlyEndInMonth(Date(y, 1, 15), 1);
  }

  /** A yearly period ends the day before the same date a year later. */
  lemma YearlyEnd(d: Date)
    requires ValidDate(d)
    ensures d.day <= DaysInMonth(d.year + 1, d.month) ==>
      DayNumber(PeriodEnd(d, "yearly")) + 1 == DayNumber(Date(d.year + 1, d.month, d.day))
  {
    if d.day <= DaysInMonth(d.year + 1, d.month) {
      assert PeriodEnd(d, "yearly") == PrevDay(Date(d.year + 1, d.month, d.day));
    }
  }

  /** From 29 February of a leap year the yearly period ends on 28 February
      of the next year: 29 February of a common year overflows to 1 March
      before the step back. */
  lemma YearlyEndFromLeapDay(d: Date)
    requires ValidDate(d) && d.month == 2 && d.day == 29
    ensures PeriodEnd(d, "yearly") == Date(d.year + 1, 2, 28)
  {
    assert !IsLeapYear(d.year + 1);
    assert PeriodEnd(d, "yearly") == PrevDay(Date(d.year + 1, 3, 1));
  }

  // ---------------------------------------------------------------------
  // The automatic name
  // ---------------------------------------------------------------------

  /** `s.charAt(0).toUpperCase() + s.slice(1)`. */
  function Capitalise(s: string): (r: string)
    ensures |r| == |s|
    ensures s != [] ==> r[0] == ToUpperChar(s[0]) && r[1..] == s[1..]
  {
    if s == [] then [] else [ToUpperChar(s[0])] + s[1..]
  }

  /** The name proposed on create when a category is chosen. */
  function AutoName(periodType: string, categoryName: string): (r: string)
    ensures |r| == |periodType| + |categoryName| + 8
    ensures r[..|periodType|] == Capitalise(periodType)
    ensures r[|periodType|..|periodType| + 1] == " "
    ensures r[|periodType| + 1..|periodType| + 1 + |categoryName|] == categoryName
    ensures r[|periodType| + 1 + |categoryName|..] == " Budget"
  {
    var p := Capitalise(periodType);
    var r := p + (" " + (categoryName + " Budget"));
    assert r == p + " " + categoryName + " Budget";
    r
  }

  // ---------------------------------------------------------------------
  // Validation
  // ---------------------------------------------------------------------

  const CategoryRequired: string := "Category is required"
  const NameRequired: string := "Budget name is required"
  const NameShort: string := "Budget name must be at least 2 characters"
  const NameLong: string := "Budget name cannot exceed 100 characters"
  const AmountRequired: string := "Budget amount is required"
  const AmountNotPositive: string := "Budget amount must be positive"
  const AmountTooLarge: string := "Budget amount exceeds maximum allowed value"
  const StartRequired: string := "Start date is required"
  const EndRequired: string := "End date is required"
  const EndNotAfter: string := "End date must be after start date"
  const SpanTooLong: string := "Budget period cannot exceed 1 year"
  const OverlapError: string := "An active budget already exists for this category in this period"

  function NameError(name: string): (r: Option<string>)
    ensures r.None? <==> |Trim(name)| >= 2 && |name| <= 100
    ensures IsBlank(name) ==> r == Some(NameRequired)
  {
    if Trim(name) == "" then Some(NameRequired)
    else if |Trim(name)| < 2 then Some(NameShort)
    else if |name| > 100 then Some(NameLong)
    else None
  }

  function AmountError(amount: string): (r: Option<string>)
    ensures r.None? <==> amount != "" && ParseFloat(amount).Some? &&
                         0.0 < ParseFloat(amount).value <= 999999.99
  {
    if amount == "" then Some(AmountRequired)
    else
      match ParseFloat(amount)
      case None => Some(AmountNotPositive)
      case Some(a) =>
        if a <= 0.0 then Some(AmountNotPositive)
        else if a > 999999.99 then Some(AmountTooLarge)
        else None
  }

  /** The whole days from `start` to `end`; the time of day is midnight for
      both, so the millisecond difference is a whole number of days. */
  function DaysBetween(start: Date, end: Date): int
    requires ValidDate(start) && ValidDate(end)
  {
    DayNumber(end) - DayNumber(start)
  }

  /** The date-order checks, run when both dates are given: an Invalid Date
      compares false with everything, so it passes both. The span check
      comes second and so wins. */
  function RangeError(start: string, end: string): (r: Option<string>)
    ensures r.None? <==> match (ParseDate(start), ParseDate(end))
      case (Day(s), Day(e)) => DayNumber(s) < DayNumber(e) <= DayNumber(s) + 366
      case _ => true
  {
    match (ParseDate(start), ParseDate(end))
    case (Day(s), Day(e)) =>
      DayNumberOrder(s, e);
      if DaysBetween(s, e) > 366 then Some(SpanTooLong)
      else if !Before(s, e) then Some(EndNotAfter)
      else None
    case _ => None
  }

  /** The errors `validateForm` returns, given the current overlap warning
      and whether a budget is being edited. */
  function FormErrors(d: FormData, overlapWarning: string, isEdit: bool): (r: Errors)
  {
    var e1 := Put(map[], "category", if d.category.None? then Some(CategoryRequired) else None);
    var e2 := Put(e1, "budget_name", NameError(d.budgetName));
    var e3 := Put(e2, "budget_amount", AmountError(d.budgetAmount));
    var e4 := Put(e3, "start_date", if d.startDate == "" then Some(StartRequired) else None);
    var e5 := Put(e4, "end_date", if d.endDate == "" then Some(EndRequired) else None);
    var e6 := Put(e5, "end_date", if d.startDate != "" && d.endDate != "" then RangeError(d.startDate, d.endDate) else None);
    Put(e6, "category", if overlapWarning != "" && !isEdit then Some(OverlapError) else None)
  }

  /** A form passes validation iff a category is chosen, the name and the
      amount pass their rules, both dates are given, two real dates are in
      order at most 366 days apart, and no overlap is reported on create. */
  lemma FormErrorsEmpty(d: FormData, overlapWarning: string, isEdit: bool)
    ensures FormErrors(d, overlapWarning, isEdit) == map[] <==>
      d.category.Some? && NameError(d.budgetName).None? && AmountError(d.budgetAmount).None? &&
      d.startDate != "" && d.endDate != "" && RangeError(d.startDate, d.endDate).None? &&
      (overlapWarning == "" || isEdit)
  {
    var r := FormErrors(d, overlapWarning, isEdit);
    var e1 := Put(map[], "category", if d.category.None? then Some(CategoryRequired) else None);
    var e2 := Put(e1, "budget_name", NameError(d.budgetName));
    var e3 := Put(e2, "budget_amount", AmountError(d.budgetAmount));
    var e4 := Put(e3, "start_date", if d.startDate == "" then Some(StartRequired) else None);
    assert "category" in e1 ==> "category" in r;
    assert "budget_name" in e2 ==> "budget_name" in r;
    assert "budget_amount" in e3 ==> "budget_amount" in r;
    assert "start_date" in e4 ==> "start_date" in r;
  }

  /** An overlap blocks only a new budget, and then as the category's error;
      when editing, the category's only possible error is the missing
      selection. */
  lemma OverlapBlocksOnlyOnCreate(d: FormData, overlapWarning: string, isEdit: bool)
    ensures overlapWarning != "" && !isEdit ==>
      "category" in FormErrors(d, overlapWarning, isEdit) &&
      FormErrors(d, overlapWarning, isEdit)["category"] == OverlapError
    ensures isEdit ==>
      ("category" in FormErrors(d, overlapWarning, isEdit) <==> d.category.None?)
  {
  }

  // ---------------------------------------------------------------------
  // Submission
  // ---------------------------------------------------------------------

  datatype Payload = Payload(
    category: Option<int>, budgetName: string, budgetAmount: Option<real>,
    budgetType: string, periodType: string, startDate: string, endDate: string)

  /** `submitData`: the name trimmed and the amount parsed; the rest as is. */
  function SubmitData(d: FormData): (p: Payload)
    ensures p.budgetName == Trim(d.budgetName) && p.budgetAmount == ParseFloat(d.budgetAmount)
    ensures p.category == d.category && p.budgetType == d.budgetType && p.periodType == d.periodType
    ensures p.startDate == d.startDate && p.endDate == d.endDate
  {
    Payload(d.category, Trim(d.budgetName), ParseFloat(d.budgetAmount), d.budgetType,
            d.periodType, d.startDate, d.endDate)
  }

  /** A valid form sends a category, a trimmed name of 2 to 100 characters
      and a positive amount no larger than 999999.99. */
  lemma ValidFormPayload(d: FormData, overlapWarning: string, isEdit: bool)
    requires FormErrors(d, overlapWarning, isEdit) == map[]
    ensures var p := SubmitData(d);
      p.category.Some? && 2 <= |p.budgetName| <= 100 &&
      p.budgetAmount.Some? && 0.0 < p.budgetAmount.value <= 999999.99
  {
    FormErrorsEmpty(d, overlapWarning, isEdit);
    var p := SubmitData(d);
    assert p.budgetName == Trim(d.budgetName);
  }

  /** The text fields that `handleChange` stores as typed. */
  function SetField(d: FormData, name: string, value: string): (r: FormData)
    ensures name == "budget_name" ==> r == d.(budgetName := value)
    ensures name == "budget_amount" ==> r == d.(budgetAmount := value)
    ensures name == "budget_type" ==> r == d.(budgetType := value)
    ensures name == "period_type" ==> r == d.(periodType := value)
    ensures name == "start_date" ==> r == d.(startDate := value)
    ensures name == "end_date" ==> r == d.(endDate := value)
    ensures name !in {"budget_name", "budget_amount", "budget_type", "period_type", "start_date", "end_date"} ==> r == d
  {
    if name == "budget_name" then d.(budgetName := value)
    else if name == "budget_amount" then d.(budgetAmount := value)
    else if name == "budget_type" then d.(budgetType := value)
    else if name == "period_type" then d.(periodType := value)
    else if name == "start_date" then d.(startDate := value)
    else if name == "end_date" then d.(endDate := value)
    else d
  }

  class BudgetFormDialog {
    var formData: FormData
    var errors: Errors
    var generalError: string
    var overlapWarning: string
    /** The id of the budget being edited; `None` when creating. */
    var editing: Option<int>

    /** The effect run when the dialog opens: a new budget starts on the
        first of today's month and ends on the date `getMonthEnd` gives;
        an edited budget's falsy fields take the same defaults. */
    constructor (budget: Option<(int, Stored)>, amountText: string, today: Date)
      requires ValidDate(today)
      ensures editing == (if budget.Some? then Some(budget.value.0) else None)
      ensures budget.None? ==> formData == FormData(None, "", "", "monthly", "monthly",
        FormatDateForAPI(Day(Date(today.year, today.month, 1))),
        FormatDateForAPI(Day(MonthEndAfterShift(today, 1))))
      ensures budget.Some? ==> formData == Prefill(budget.value.1, amountText,
        FormatDateForAPI(Day(Date(today.year, today.month, 1))),
        FormatDateForAPI(Day(MonthEndAfterShift(today, 1))))
      ensures errors == map[] && generalError == "" && overlapWarning == ""
    {
      var monthStart := GetMonthStart(today);
      var monthEnd := GetMonthEnd(today);
      if budget.Some? {
        editing := Some(budget.value.0);
        formData := Prefill(budget.value.1, amountText, monthStart, monthEnd);
      } else {
        editing := None;
        formData := FormData(None, "", "", "monthly", "monthly", monthStart, monthEnd);
      }
      errors := map[];
      generalError := "";
      overlapWarning := "";
    }

    /** The overlap effect: with a category and both dates, the warning
        names the first conflicting budget, or is cleared; otherwise it is
        left as it was. */
    method CheckOverlap(existing: seq<Budget>)
      modifies this
      ensures formData == old(formData) && errors == old(errors) && generalError == old(generalError)
      ensures editing == old(editing)
      ensures formData.category.None? || formData.startDate == "" || formData.endDate == "" ==>
        overlapWarning == old(overlapWarning)
      ensures formData.category.Some? && formData.startDate != "" && formData.endDate != "" ==>
        var found := FindOverlap(existing, formData.category.value, formData.startDate, formData.endDate, editing);
        overlapWarning == if found.Some? then OverlapWarning(found.value.name) else ""
    {
      if formData.category.Some? && formData.startDate != "" && formData.endDate != "" {
        var overlap := FindOverlap(existing, formData.category.value, formData.startDate, formData.endDate, editing);
        if overlap.Some? {
          overlapWarning := OverlapWarning(overlap.value.name);
        } else {
          overlapWarning := "";
        }
      }
    }

    /** `handleChange` for the category select: on create, a category found
        in the list also renames the budget after the period type held
        before the change. */
    method ChangeCategory(value: int, categories: seq<Category>)
      modifies this
      ensures editing == old(editing) && generalError == old(generalError) && overlapWarning == old(overlapWarning)
      ensures var found := Find(categories, (c: Category) => c.id == value);
        formData == if editing.None? && found.Some?
          then old(formData).(category := Some(value), budgetName := AutoName(old(formData).periodType, found.value.name))
          else old(formData).(category := Some(value))
      ensures errors == ClearFieldError(old(errors), "category")
    {
      var periodType := formData.periodType;
      formData := formData.(category := Some(value));
      if editing.None? {
        var category := Find(categories, (c: Category) => c.id == value);
        if category.Some? {
          formData := formData.(category := Some(value),
                                budgetName := AutoName(periodType, category.value.name));
        }
      }
      if "category" in errors && errors["category"] != "" {
        errors := errors["category" := ""];
      }
    }

    /** `handleChange` for the text fields: the value is stored, and a new
        period type or start date recomputes the end date from the start and
        period in force after the change. */
    method ChangeField(name: string, value: string)
      modifies this
      ensures editing == old(editing) && generalError == old(generalError) && overlapWarning == old(overlapWarning)
      ensures name != "period_type" && name != "start_date" ==> formData == SetField(old(formData), name, value)
      ensures name == "period_type" || name == "start_date" ==>
        var d := SetField(old(formData), name, value);
        formData == d.(endDate := formData.endDate) &&
        (ParseDate(d.startDate).Day? ==>
          formData.endDate == FormatDateForAPI(Day(PeriodEnd(ParseDate(d.startDate).date, d.periodType)))) &&
        (ParseDate(d.startDate).InvalidDate? ==> formData.endDate == "NaN-NaN-NaN")
      ensures errors == ClearFieldError(old(errors), name)
    {
      var old_ := formData;
      formData := SetField(formData, name, value);
      if name == "period_type" || name == "start_date" {
        var start := if name == "start_date" then value else old_.startDate;
        var periodType := if name == "period_type" then value else old_.periodType;
        var end := EndDateFor(start, periodType);
        formData := formData.(endDate := end);
      }
      if name in errors && errors[name] != "" {
        errors := errors[name := ""];
      }
    }

    /** `validateForm`: the rules fill `newErrors` in order; the range
        checks and the overlap check overwrite earlier messages. */
    method ValidateForm() returns (newErrors: Errors)
      ensures newErrors == FormErrors(formData, overlapWarning, editing.Some?)
    {
      ghost var d := formData;
      newErrors := map[];
      if formData.category.None? {
        newErrors := newErrors["category" := CategoryRequired];
      }
      ghost var e1 := newErrors;
      assert e1 == Put(map[], "category", if d.category.None? then Some(CategoryRequired) else None);
      newErrors := CheckName(newErrors);
      newErrors := CheckAmount(newErrors);
      ghost var e3 := newErrors;
      if formData.startDate == "" {
        newErrors := newErrors["start_date" := StartRequired];
      }
      assert newErrors == Put(e3, "start_date", if d.startDate == "" then Some(StartRequired) else None);
      ghost var e4 := newErrors;
      if formData.endDate == "" {
        newErrors := newErrors["end_date" := EndRequired];
      }
      assert newErrors == Put(e4, "end_date", if d.endDate == "" then Some(EndRequired) else None);
      ghost var e5 := newErrors;
      if formData.startDate != "" && formData.endDate != "" {
        newErrors := CheckRange(newErrors);
      }
      assert newErrors == Put(e5, "end_date", if d.startDate != "" && d.endDate != "" then RangeError(d.startDate, d.endDate) else None);
      ghost var e6 := newErrors;
      if overlapWarning != "" && editing.None? {
        newErrors := newErrors["category" := OverlapError];
      }
      assert newErrors == Put(e6, "category", if overlapWarning != "" && editing.None? then Some(OverlapError) else None);
    }

    method CheckName(errs: Errors) returns (newErrors: Errors)
      ensures newErrors == Put(errs, "budget_name", NameError(formData.budgetName))
    {
      newErrors := errs;
      var trimmed := Trim(formData.budgetName);
      if trimmed == "" {
        newErrors := newErrors["budget_name" := NameRequired];
      } else if |trimmed| < 2 {
        newErrors := newErrors["budget_name" := NameShort];
      } else if |formData.budgetName| > 100 {
        newErrors := newErrors["budget_name" := NameLong];
      }
    }

    method CheckAmount(errs: Errors) returns (newErrors: Errors)
      ensures newErrors == Put(errs, "budget_amount", AmountError(formData.budgetAmount))
    {
      newErrors := errs;
      if formData.budgetAmount == "" {
        newErrors := newErrors["budget_amount" := AmountRequired];
      } else {
        var amount := ParseFloat(formData.budgetAmount);
        if amount.None? || amount.value <= 0.0 {
          newErrors := newErrors["budget_amount" := AmountNotPositive];
        } else if amount.value > 999999.99 {
          newErrors := newErrors["budget_amount" := AmountTooLarge];
        }
      }
    }

    /** The two date comparisons; an Invalid Date fails both tests. */
    method CheckRange(errs: Errors) returns (newErrors: Errors)
      ensures newErrors == Put(errs, "end_date", RangeError(formData.startDate, formData.endDate))
    {
      newErrors := errs;
      var start := ParseDate(formData.startDate);
      var end := ParseDate(formData.endDate);
      if start.Day? && end.Day? {
        DayNumberOrder(start.date, end.date);
        if !Before(start.date, end.date) {
          newErrors := newErrors["end_date" := EndNotAfter];
        }
        var daysDiff := DaysBetween(start.date, end.date);
        if daysDiff > 366 {
          newErrors := newErrors["end_date" := SpanTooLong];
        }
      }
    }

    /** `handleSubmit`: an invalid form only shows its errors; a valid one
        sends `SubmitData`, and a failure is shown by `ShowBackendError`. */
    method HandleSubmit(outcome: Outcome) returns (sent: Option<Payload>, closed: bool)
      modifies this
      ensures formData == old(formData) && editing == old(editing) && overlapWarning == old(overlapWarning)
      ensures sent.Some? <==> FormErrors(old(formData), old(overlapWarning), old(editing).Some?) == map[]
      ensures sent.None? ==> errors == FormErrors(old(formData), old(overlapWarning), old(editing).Some?) &&
                             generalError == old(generalError) && !closed
      ensures sent.Some? ==> sent.value == SubmitData(formData) && (closed <==> outcome.Succeeded?)
      ensures sent.Some? && outcome.Succeeded? ==> errors == old(errors) && generalError == ""
      ensures sent.Some? && outcome.Failed? ==>
        (errors, generalError) == BackendError(outcome.data, old(errors))
    {
      var validationErrors := ValidateForm();
      if validationErrors != map[] {
        errors := validationErrors;
        return None, false;
      }
      generalError := "";
      sent := Some(SubmitData(formData));
      closed := outcome.Succeeded?;
      if outcome.Failed? {
        ShowBackendError(outcome.data);
      }
    }

    /** The `catch` branch of `handleSubmit`. */
    method ShowBackendError(data: ErrorPayload)
      modifies this
      requires generalError == ""
      ensures formData == old(formData) && editing == old(editing) && overlapWarning == old(overlapWarning)
      ensures (errors, generalError) == BackendError(data, old(errors))
    {
      match data
      case Object(entries) =>
        if HasTruthy(entries, "category") {
          errors := map["category" := IndexZero(Get(entries, "category").value)];
        } else if HasTruthy(entries, "error") {
          generalError := Shown(Get(entries, "error").value);
        } else {
          generalError := RetryMessage;
        }
      case NonObject =>
        generalError := RetryMessage;
      case NoData =>
        generalError := ConnectionMessage;
    }
  }

  /** A budget opened for editing, as the dialog receives it: `None` and
      `""` are its missing fields, and the amount is as stored. */
  datatype Stored = Stored(
    category: Option<int>, budgetName: string, budgetAmount: Amount,
    budgetType: string, periodType: string, startDate: string, endDate: string)

  /** `budget.x || default` for each field of an edited budget: the type
      and period default to `monthly`, the dates to the month's start and
      end; a falsy amount (the number 0 among them) edits as `''`, and
      another number as `amountText`, the text of its `toString()`. */
  function Prefill(b: Stored, amountText: string, monthStart: string, monthEnd: string): (r: FormData)
    ensures r.category == b.category && r.budgetName == b.budgetName
    ensures r.budgetAmount == AmountText(b.budgetAmount, amountText)
    ensures r.budgetType == (if b.budgetType == "" then "monthly" else b.budgetType)
    ensures r.periodType == (if b.periodType == "" then "monthly" else b.periodType)
    ensures r.startDate == (if b.startDate == "" then monthStart else b.startDate)
    ensures r.endDate == (if b.endDate == "" then monthEnd else b.endDate)
  {
    FormData(b.category, b.budgetName, AmountText(b.budgetAmount, amountText),
             if b.budgetType == "" then "monthly" else b.budgetType,
             if b.periodType == "" then "monthly" else b.periodType,
             if b.startDate == "" then monthStart else b.startDate,
             if b.endDate == "" then monthEnd else b.endDate)
  }

  /** The errors and general message after a failed call, from the errors
      held before: a truthy `category` in the payload becomes the only field
      error; otherwise a truthy `error` is shown as the general message;
      otherwise a generic message says whether the server answered. */
  function BackendError(data: ErrorPayload, errors: Errors): (r: (Errors, string))
    ensures data.Object? && HasTruthy(data.entries, "category") ==>
      r.0 == map["category" := IndexZero(Get(data.entries, "category").value)] && r.1 == ""
    ensures !(data.Object? && HasTruthy(data.entries, "category")) ==> r.0 == errors
    ensures data.Object? && !HasTruthy(data.entries, "category") && !HasTruthy(data.entries, "error") ==>
      r.1 == RetryMessage
    ensures data.Object? && !HasTruthy(data.entries, "category") && HasTruthy(data.entries, "error") ==>
      r.1 == Shown(Get(data.entries, "error").value)
    ensures forall t ::
      (data.Object? && !HasTruthy(data.entries, "category") &&
       Get(data.entries, "error") == Some(Message(t)) && t != "") ==> r.1 == t
    ensures data.NonObject? ==> r.1 == RetryMessage
    ensures data.NoData? ==> r.1 == ConnectionMessage
  {
    match data
    case Object(entries) =>
      if HasTruthy(entries, "category") then (map["category" := IndexZero(Get(entries, "category").value)], "")
      else if HasTruthy(entries, "error") then (errors, Shown(Get(entries, "error").value))
      else (errors, RetryMessage)
    case NonObject => (errors, RetryMessage)
    case NoData => (errors, ConnectionMessage)
  }
}
