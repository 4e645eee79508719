/** The transaction dialog of `src/components/transactions/TransactionFormDialog.jsx`:
    the categories offered for the chosen type, the balance warning for an
    expense, the validator with its insufficient-funds rule, the sign given
    to the submitted amount, and the split of backend errors into field
    errors and a general message. */
module TransactionForm {
  import opened Text
  import opened Calendar
  import opened Domain
  import opened Formatters

  /** The dialog's `formData`. The account and category selects hold an
      identifier or nothing (`''`); identifiers are positive, so a chosen
      one is truthy. */
  datatype FormData = FormData(
    bankAccount: Option<int>, category: Option<int>, description: string,
    ttype: string, amount: string, date: string, note: string,
    reference: string, isRecurring: bool)

  // ---------------------------------------------------------------------
  // Categories offered for the transaction type
  // ---------------------------------------------------------------------

  /** A category fits a type when the type is `transfer` or the two types
      are equal. */
  predicate Compatible(c: Category, ttype: string)
  {
    ttype == "transfer" || c.ctype == ttype
  }

  /** `c => c.category_type === ttype`. */
  function OfType(ttype: string): Category -> bool
  {
    (c: Category) => c.ctype == ttype
  }

  /** `c => c.category_id === id && (ttype === 'transfer' || c.category_type === ttype)`. */
  function StillFits(id: int, ttype: string): Category -> bool
  {
    (c: Category) => c.id == id && Compatible(c, ttype)
  }

  /** The categories the select offers: all of them for a transfer, else
      those of the transaction's own type. */
  function AvailableCategories(categories: seq<Category>, ttype: string): (r: seq<Category>)
    ensures |r| <= |categories|
    ensures ttype == "transfer" ==> r == categories
    ensures forall c :: c in r <==> c in categories && Compatible(c, ttype)
  {
    if ttype == "transfer" then categories
    else Filter(categories, OfType(ttype))
  }

  /** The offered categories keep the order of the input: the selection
      distributes over concatenation. */
  lemma AvailableCategoriesOrder(a: seq<Category>, b: seq<Category>, ttype: string)
    ensures AvailableCategories(a + b, ttype) == AvailableCategories(a, ttype) + AvailableCategories(b, ttype)
  {
    if ttype != "transfer" {
      FilterAppend(a, b, OfType(ttype));
    }
  }

  /** The selected category after the type changes: a selection that no
      category with that identifier fits any more is cleared. */
  function KeptCategory(selected: Option<int>, categories: seq<Category>, ttype: string): (r: Option<int>)
    ensures r.Some? ==> r == selected
    ensures selected.Some? ==>
      (r.None? <==> forall i :: 0 <= i < |categories| ==>
                      !(categories[i].id == selected.value && Compatible(categories[i], ttype)))
  {
    if selected.Some? && Find(categories, StillFits(selected.value, ttype)).None? then None
    else selected
  }

  /** A selection that survives a type change is one of the offered
      categories. */
  lemma KeptCategoryIsOffered(selected: Option<int>, categories: seq<Category>, ttype: string)
    requires KeptCategory(selected, categories, ttype).Some?
    ensures exists c :: c in AvailableCategories(categories, ttype) && c.id == selected.value
  {
    var i :| 0 <= i < |categories| && categories[i].id == selected.value && Compatible(categories[i], ttype);
    assert categories[i] in AvailableCategories(categories, ttype);
  }

  // ---------------------------------------------------------------------
  // The balance warning
  // ---------------------------------------------------------------------

  /** The note shown under the form: none, a projected negative balance
      (with the current balance), or a projected balance below 100. */
  datatype Warning = NoWarning | NegativeBalance(projected: real, current: Amount) | LowBalance(projected: real)

  /** `accounts.find(a => a.bank_account_id === id)`. */
  function AccountById(accounts: seq<Account>, id: int): (r: Option<Account>)
    ensures r.Some? ==> r.value in accounts && r.value.id == id
    ensures r.None? <==> forall i :: 0 <= i < |accounts| ==> accounts[i].id != id
  {
    Find(accounts, (a: Account) => a.id == id)
  }

  /** The warning for an expense of `amount` on a non-credit account, once
      both numbers are read: `None` leaves the warning as it was (an amount
      that is not a number); a balance that is not a number makes both
      comparisons false and clears the warning. */
  function WarningFor(amount: Option<real>, balance: Option<real>, current: Amount): (r: Option<Warning>)
    ensures amount.None? <==> r.None?
    ensures amount.Some? && balance.None? ==> r == Some(NoWarning)
  {
    match amount
    case None => None
    case Some(a) =>
      match balance
      case None => Some(NoWarning)
      case Some(b) =>
        var projected := b - a;
        if projected < 0.0 then Some(NegativeBalance(projected, current))
        else if projected < 100.0 then Some(LowBalance(projected))
        else Some(NoWarning)
  }

  /** What the warning effect does for the selected account: `None` leaves
      the warning as it was (an amount that is not a number, or a credit
      account), otherwise the new warning. */
  function WarningUpdate(account: Option<Account>, amount: string, ttype: string): (r: Option<Warning>)
    ensures account.None? || amount == "" || ttype != "expense" ==> r == Some(NoWarning)
    ensures account.Some? && account.value.accountType == "credit" && amount != "" && ttype == "expense" ==> r.None?
  {
    if account.Some? && amount != "" && ttype == "expense" then
      if account.value.accountType == "credit" then
        None
      else WarningFor(ParseFloat(amount), ParseAmount(account.value.balance), account.value.balance)
    else Some(NoWarning)
  }

  /** With numeric amount `a` and balance `b`, the warning follows the
      projected balance `b - a`: negative, low below 100, and none from 100
      up. */
  lemma WarningForThresholds(a: real, b: real, current: Amount)
    ensures WarningFor(Some(a), Some(b), current) == Some(NegativeBalance(b - a, current)) <==> b - a < 0.0
    ensures WarningFor(Some(a), Some(b), current) == Some(LowBalance(b - a)) <==> 0.0 <= b - a < 100.0
    ensures WarningFor(Some(a), Some(b), current) == Some(NoWarning) <==> b - a >= 100.0
  {
  }

  /** For an expense on a non-credit account with a numeric amount and
      balance, the warning follows the projected balance. */
  lemma WarningThresholds(account: Account, amount: string, a: real, b: real)
    requires account.accountType != "credit" && amount != ""
    requires ParseFloat(amount) == Some(a) && ParseAmount(account.balance) == Some(b)
    ensures WarningUpdate(Some(account), amount, "expense") == Some(NegativeBalance(b - a, account.balance)) <==> b - a < 0.0
    ensures WarningUpdate(Some(account), amount, "expense") == Some(LowBalance(b - a)) <==> 0.0 <= b - a < 100.0
    ensures WarningUpdate(Some(account), amount, "expense") == Some(NoWarning) <==> b - a >= 100.0
  {
    assert WarningUpdate(Some(account), amount, "expense") == WarningFor(Some(a), Some(b), account.balance);
    WarningForThresholds(a, b, account.balance);
  }

  // ---------------------------------------------------------------------
  // Validation
  // ---------------------------------------------------------------------

  const AccountRequired: string := "Account is required"
  const CategoryRequired: string := "Category is required"
  const DescriptionRequired: string := "Description is required"
  const DescriptionShort: string := "Description must be at least 2 characters"
  const DescriptionLong: string := "Description cannot exceed 255 characters"
  const AmountRequired: string := "Amount is required"
  const AmountNotPositive: string := "Amount must be a positive number"
  const AmountTooLarge: string := "Amount exceeds maximum allowed value"
  const DateRequired: string := "Date is required"
  const DateInFuture: string := "Date cannot be more than one day in the future"
  const DateTooOld: string := "Date cannot be more than 2 years in the past"
  const ReferenceTooLong: string := "Reference number cannot exceed 100 characters"
  const NoteTooLong: string := "Note cannot exceed 500 characters"
  const InsufficientFunds: string := "Insufficient funds. This would result in a negative balance."

  /** The description rule: required after trimming, at least two
      characters trimmed, at most 255 as typed. */
  function DescriptionError(s: string): (r: Option<string>)
    ensures r.None? <==> |Trim(s)| >= 2 && |s| <= 255
    ensures AllSpace(s) ==> r == Some(DescriptionRequired)
  {
    var trimmed := Trim(s);
    if trimmed == "" then Some(DescriptionRequired)
    else if |trimmed| < 2 then Some(DescriptionShort)
    else if |s| > 255 then Some(DescriptionLong)
    else None
  }

  /** The amount rule: given, a number, positive and at most 999999.99. */
  function AmountError(s: string): (r: Option<string>)
    ensures r.None? <==> s != "" && ParseFloat(s).Some? && 0.0 < ParseFloat(s).value <= 999999.99
    ensures s == "" ==> r == Some(AmountRequired)
  {
    if s == "" then Some(AmountRequired)
    else
      match ParseFloat(s)
      case None => Some(AmountNotPositive)
      case Some(a) =>
        if a <= 0.0 then Some(AmountNotPositive)
        else if a > 999999.99 then Some(AmountTooLarge)
        else None
  }

  /** `tomorrow.setDate(tomorrow.getDate() + 1)` on a copy of today. */
  function Tomorrow(today: Date): Date
    requires ValidDate(today)
  {
    SetDate(today, today.day + 1)
  }

  /** `twoYearsAgo.setFullYear(twoYearsAgo.getFullYear() - 2)` on a copy of
      today. */
  function TwoYearsAgo(today: Date): Date
    requires ValidDate(today)
  {
    SetFullYear(today, today.year - 2)
  }

  /** Tomorrow is the day after today. */
  lemma TomorrowIsNextDay(today: Date)
    requires ValidDate(today)
    ensures Tomorrow(today) == NextDay(today)
    ensures DayNumber(Tomorrow(today)) == DayNumber(today) + 1
  {
    DayForward(today);
  }

  /** Two years ago is the same day and month, except that 29 February
      becomes 1 March of a common year. */
  lemma TwoYearsAgoValue(today: Date)
    requires ValidDate(today)
    ensures TwoYearsAgo(today)
         == if today.day <= DaysInMonth(today.year - 2, today.month) then Date(today.year - 2, today.month, today.day)
            else Date(today.year - 2, 3, 1)
  {
    SetFullYearValue(today, today.year - 2);
  }

  /** The date rule: required; a date after tomorrow, or on or before the
      day two years back, is refused. `new Date(s)` is the start of the
      day, while `tomorrow` and `twoYearsAgo` keep the current time of day,
      taken to be after midnight: so the start of tomorrow is not after
      `tomorrow`, and the start of the day two years back is before
      `twoYearsAgo`. An Invalid Date passes, since both of its comparisons
      are false. */
  function DateError(s: string, today: Date): (r: Option<string>)
    requires ValidDate(today)
    ensures s == "" ==> r == Some(DateRequired)
    ensures s != "" && ParseDate(s).InvalidDate? ==> r.None?
  {
    if s == "" then Some(DateRequired)
    else
      match ParseDate(s)
      case Day(t) =>
        if Before(Tomorrow(today), t) then Some(DateInFuture)
        else if !Before(TwoYearsAgo(today), t) then Some(DateTooOld)
        else None
      case _ => None
  }

  /** A real date passes exactly when it lies after the day two years back
      and no later than tomorrow; it is too old exactly when it is on or
      before the day two years back. */
  lemma DateWindow(s: string, today: Date)
    requires ValidDate(today) && s != "" && ParseDate(s).Day?
    ensures DateError(s, today).None? <==>
      DayNumber(TwoYearsAgo(today)) < DayNumber(ParseDate(s).date) <= DayNumber(today) + 1
    ensures DateError(s, today) == Some(DateInFuture) <==> DayNumber(ParseDate(s).date) > DayNumber(today) + 1
    ensures DateError(s, today) == Some(DateTooOld) <==>
      DayNumber(ParseDate(s).date) <= DayNumber(TwoYearsAgo(today))
  {
    var t := ParseDate(s).date;
    TomorrowIsNextDay(today);
    TwoYearsAgoValue(today);
    DayNumberOrder(TwoYearsAgo(today), today);
    DayNumberOrder(Tomorrow(today), t);
    DayNumberOrder(TwoYearsAgo(today), t);
  }

  /** The insufficient-funds rule applies: an expense with a numeric amount
      on a known non-credit account whose numeric balance it would take
      below zero. */
  predicate Overdrawn(account: Option<Account>, d: FormData)
  {
    account.Some? && d.ttype == "expense" && d.amount != "" && ParseFloat(d.amount).Some? &&
    account.value.accountType != "credit" && ParseAmount(account.value.balance).Some? &&
    ParseAmount(account.value.balance).value - ParseFloat(d.amount).value < 0.0
  }

  /** The message each field rule of `validateForm` gives, `None` where
      the rule passes. */
  datatype RuleMessages = RuleMessages(
    account: Option<string>, category: Option<string>, description: Option<string>,
    amount: Option<string>, date: Option<string>, reference: Option<string>, note: Option<string>)

  /** The field rules of `validateForm` applied to a form. */
  function FieldRules(d: FormData, today: Date): (m: RuleMessages)
    requires ValidDate(today)
    ensures m.account.None? <==> d.bankAccount.Some?
    ensures m.category.None? <==> d.category.Some?
    ensures m.reference.None? <==> |d.reference| <= 100
    ensures m.note.None? <==> |d.note| <= 500
  {
    RuleMessages(
      if d.bankAccount.None? then Some(AccountRequired) else None,
      if d.category.None? then Some(CategoryRequired) else None,
      DescriptionError(d.description),
      AmountError(d.amount),
      DateError(d.date, today),
      if |d.reference| > 100 then Some(ReferenceTooLong) else None,
      if |d.note| > 500 then Some(NoteTooLong) else None)
  }

  /** The errors object the rules write, in the order `validateForm` runs
      them. */
  function ErrorsOf(m: RuleMessages): (r: Errors)
  {
    var e1 := Put(map[], "bank_account", m.account);
    var e2 := Put(e1, "category", m.category);
    var e3 := Put(e2, "transaction_description", m.description);
    var e4 := Put(e3, "transaction_amount", m.amount);
    var e5 := Put(e4, "transaction_date", m.date);
    var e6 := Put(e5, "reference_number", m.reference);
    Put(e6, "transaction_note", m.note)
  }

  /** The rules' errors are empty iff every rule passes. */
  lemma ErrorsOfEmpty(m: RuleMessages)
    ensures ErrorsOf(m) == map[] <==>
      m.account.None? && m.category.None? && m.description.None? && m.amount.None? &&
      m.date.None? && m.reference.None? && m.note.None?
  {
    var r := ErrorsOf(m);
    var e1 := Put(map[], "bank_account", m.account);
    var e2 := Put(e1, "category", m.category);
    var e3 := Put(e2, "transaction_description", m.description);
    var e4 := Put(e3, "transaction_amount", m.amount);
    var e5 := Put(e4, "transaction_date", m.date);
    var e6 := Put(e5, "reference_number", m.reference);
    assert "bank_account" in e1 ==> "bank_account" in r;
    assert "category" in e2 ==> "category" in r;
    assert "transaction_description" in e3 ==> "transaction_description" in r;
    assert "transaction_amount" in e4 ==> "transaction_amount" in r;
    assert "transaction_date" in e5 ==> "transaction_date" in r;
    assert "reference_number" in e6 ==> "reference_number" in r;
  }

  /** The amount's entry is the amount rule's: the later rules write other
      keys. */
  lemma ErrorsOfAmount(m: RuleMessages)
    ensures "transaction_amount" in ErrorsOf(m) <==> m.amount.Some?
    ensures m.amount.Some? ==> ErrorsOf(m)["transaction_amount"] == m.amount.value
  {
    var e4 := Put(Put(Put(Put(map[], "bank_account", m.account), "category", m.category),
                      "transaction_description", m.description),
                  "transaction_amount", m.amount);
    assert "transaction_amount" in e4 <==> m.amount.Some?;
    var e5 := Put(e4, "transaction_date", m.date);
    var e6 := Put(e5, "reference_number", m.reference);
    assert ErrorsOf(m) == Put(e6, "transaction_note", m.note);
  }

  /** The errors of the field rules of `validateForm`, before the
      insufficient-funds rule. */
  function FieldRuleErrors(d: FormData, today: Date): (r: Errors)
    requires ValidDate(today)
  {
    ErrorsOf(FieldRules(d, today))
  }

  /** The errors `validateForm` returns for a form, the selected account
      and today's date: the insufficient-funds rule runs last. */
  function FormErrors(d: FormData, account: Option<Account>, today: Date): (r: Errors)
    requires ValidDate(today)
  {
    Put(FieldRuleErrors(d, today), "transaction_amount", if Overdrawn(account, d) then Some(InsufficientFunds) else None)
  }

  /** The field rules pass iff an account and a category are chosen, the
      description, amount and date pass their rules, and the reference and
      note fit. */
  lemma FieldRuleErrorsEmpty(d: FormData, today: Date)
    requires ValidDate(today)
    ensures FieldRuleErrors(d, today) == map[] <==>
      d.bankAccount.Some? && d.category.Some? && DescriptionError(d.description).None? &&
      AmountError(d.amount).None? && DateError(d.date, today).None? &&
      |d.reference| <= 100 && |d.note| <= 500
  {
    ErrorsOfEmpty(FieldRules(d, today));
  }

  /** The amount's entry among the field-rule errors is the amount rule's. */
  lemma FieldRuleAmount(d: FormData, today: Date)
    requires ValidDate(today)
    ensures "transaction_amount" in FieldRuleErrors(d, today) <==> AmountError(d.amount).Some?
    ensures AmountError(d.amount).Some? ==> FieldRuleErrors(d, today)["transaction_amount"] == AmountError(d.amount).value
  {
    ErrorsOfAmount(FieldRules(d, today));
  }

  /** A form passes validation iff the field rules pass and the expense
      does not overdraw a non-credit account. */
  lemma FormErrorsEmpty(d: FormData, account: Option<Account>, today: Date)
    requires ValidDate(today)
    ensures FormErrors(d, account, today) == map[] <==>
      d.bankAccount.Some? && d.category.Some? && DescriptionError(d.description).None? &&
      AmountError(d.amount).None? && DateError(d.date, today).None? &&
      |d.reference| <= 100 && |d.note| <= 500 && !Overdrawn(account, d)
  {
    FieldRuleErrorsEmpty(d, today);
  }

  /** Overdrawing a non-credit account always ends with the
      insufficient-funds error on the amount, whatever the amount rule said;
      otherwise the amount's error is the amount rule's. */
  lemma InsufficientFundsOverrides(d: FormData, account: Option<Account>, today: Date)
    requires ValidDate(today)
    ensures Overdrawn(account, d) ==>
      "transaction_amount" in FormErrors(d, account, today) &&
      FormErrors(d, account, today)["transaction_amount"] == InsufficientFunds
    ensures !Overdrawn(account, d) ==>
      ("transaction_amount" in FormErrors(d, account, today) <==> AmountError(d.amount).Some?) &&
      (AmountError(d.amount).Some? ==> FormErrors(d, account, today)["transaction_amount"] == AmountError(d.amount).value)
  {
    FieldRuleAmount(d, today);
  }

  /** A credit account is never blocked: its errors are those of the same
      form with no account selected. */
  lemma CreditNeverBlocked(d: FormData, account: Account, today: Date)
    requires ValidDate(today) && account.accountType == "credit"
    ensures FormErrors(d, Some(account), today) == FormErrors(d, None, today)
  {
    assert !Overdrawn(Some(account), d) && !Overdrawn(None, d);
  }

  // ---------------------------------------------------------------------
  // Submission
  // ---------------------------------------------------------------------

  /** The amount sent for a type: the magnitude with a minus sign for an
      expense, the magnitude for income, as entered for a transfer. A `NaN`
      stays `NaN` (here `None`). */
  function SignedAmount(ttype: string, a: Option<real>): (r: Option<real>)
    ensures r.Some? <==> a.Some?
    ensures a.Some? && ttype == "expense" ==> r.value <= 0.0 && AbsReal(r.value) == AbsReal(a.value)
    ensures a.Some? && ttype == "income" ==> r.value >= 0.0 && AbsReal(r.value) == AbsReal(a.value)
    ensures ttype != "expense" && ttype != "income" ==> r == a
  {
    match a
    case None => None
    case Some(v) =>
      if ttype == "expense" then Some(-AbsReal(v))
      else if ttype == "income" then Some(AbsReal(v))
      else Some(v)
  }

  /** Normalising the sign twice changes nothing more. */
  lemma SignedAmountIdempotent(ttype: string, a: Option<real>)
    ensures SignedAmount(ttype, SignedAmount(ttype, a)) == SignedAmount(ttype, a)
  {
  }

  /** `s.trim() || null`. */
  function OrNull(s: string): (r: Option<string>)
    ensures r.None? <==> AllSpace(s)
    ensures r.Some? ==> r.value == Trim(s) && !IsSpace(r.value[0]) && !IsSpace(r.value[|r.value| - 1])
  {
    var t := Trim(s);
    if t == "" then None else Some(t)
  }

  /** The object sent to the API; `None` stands for `null` (or `NaN`). */
  datatype Payload = Payload(
    bankAccount: Option<int>, category: Option<int>, description: string,
    ttype: string, amount: Option<real>, date: string,
    note: Option<string>, reference: Option<string>, isRecurring: bool)

  /** `submitData`. */
  function SubmitData(d: FormData): (p: Payload)
    ensures p.description == Trim(d.description) && p.amount == SignedAmount(d.ttype, ParseFloat(d.amount))
    ensures p.note == OrNull(d.note) && p.reference == OrNull(d.reference)
    ensures p.bankAccount == d.bankAccount && p.category == d.category && p.ttype == d.ttype
    ensures p.date == d.date && p.isRecurring == d.isRecurring
  {
    Payload(d.bankAccount, d.category, Trim(d.description), d.ttype,
            SignedAmount(d.ttype, ParseFloat(d.amount)), d.date,
            OrNull(d.note), OrNull(d.reference), d.isRecurring)
  }

  /** A form that passes validation sends an account, a category, a
      description of at least two characters, and an amount whose magnitude
      is the entered one, negative for an expense and positive for income. */
  lemma ValidFormPayload(d: FormData, account: Option<Account>, today: Date)
    requires ValidDate(today) && FormErrors(d, account, today) == map[]
    ensures var p := SubmitData(d);
      p.bankAccount.Some? && p.category.Some? && |p.description| >= 2 &&
      p.amount.Some? && 0.0 < AbsReal(p.amount.value) <= 999999.99 &&
      AbsReal(p.amount.value) == ParseFloat(d.amount).value &&
      (d.ttype == "expense" ==> p.amount.value < 0.0) &&
      (d.ttype == "income" ==> p.amount.value > 0.0)
  {
    FormErrorsEmpty(d, account, today);
    var p := SubmitData(d);
    assert p.amount == SignedAmount(d.ttype, ParseFloat(d.amount));
    assert p.description == Trim(d.description);
  }

  // ---------------------------------------------------------------------
  // Backend errors
  // ---------------------------------------------------------------------

  /** The keys whose value is shown as the general message. */
  predicate IsGeneralKey(key: string)
  {
    key == "error" || key == "detail"
  }

  /** The payload's entries that become field errors, in key order. */
  function FieldEntries(entries: seq<(string, ErrValue)>): (r: seq<(string, ErrValue)>)
    ensures forall e :: e in r <==> e in entries && !IsGeneralKey(e.0)
  {
    Filter(entries, (e: (string, ErrValue)) => !IsGeneralKey(e.0))
  }

  /** The general message the `forEach` leaves: the value of the last
      `error` or `detail` key, if there is one. */
  function GeneralMessage(entries: seq<(string, ErrValue)>): (r: Option<string>)
    ensures r.None? <==> forall i :: 0 <= i < |entries| ==> !IsGeneralKey(entries[i].0)
  {
    if entries == [] then None
    else
      var last := entries[|entries| - 1];
      if IsGeneralKey(last.0) then Some(Shown(last.1))
      else
        var r := GeneralMessage(entries[..|entries| - 1]);
        assert forall i :: 0 <= i < |entries| - 1 ==> entries[..|entries| - 1][i] == entries[i];
        r
  }

  /** Dropping the first entry keeps the keys distinct, and none of the
      remaining keys is the first one. */
  lemma DistinctTail(entries: seq<(string, ErrValue)>)
    requires DistinctKeys(entries) && entries != []
    ensures DistinctKeys(entries[1..])
    ensures forall e :: e in entries[1..] ==> e.0 != entries[0].0
  {
    var rest := entries[1..];
    forall i, j | 0 <= i < j < |rest| ensures rest[i].0 != rest[j].0 {
      assert rest[i] == entries[i + 1] && rest[j] == entries[j + 1];
    }
    forall e | e in rest ensures e.0 != entries[0].0 {
      var k :| 0 <= k < |rest| && rest[k] == e;
      assert entries[k + 1] == e;
    }
  }

  /** An entry whose key none of a distinct sequence has can go in front. */
  lemma DistinctCons(x: (string, ErrValue), rest: seq<(string, ErrValue)>)
    requires DistinctKeys(rest) && forall e :: e in rest ==> e.0 != x.0
    ensures DistinctKeys([x] + rest)
  {
    var r := [x] + rest;
    forall i, j | 0 <= i < j < |r| ensures r[i].0 != r[j].0 {
      assert r[j] == rest[j - 1] && r[j] in rest;
      if i > 0 {
        assert r[i] == rest[i - 1];
      }
    }
  }

  /** Filtering keeps the keys of a JSON object distinct. */
  lemma {:induction false} FieldEntriesDistinct(entries: seq<(string, ErrValue)>)
    requires DistinctKeys(entries)
    ensures DistinctKeys(FieldEntries(entries))
  {
    if entries != [] {
      DistinctTail(entries);
      FieldEntriesDistinct(entries[1..]);
      if !IsGeneralKey(entries[0].0) {
        DistinctCons(entries[0], FieldEntries(entries[1..]));
      }
    }
  }

  /** The field errors hold exactly the payload's keys other than `error`
      and `detail`, each with its value's first message. */
  lemma BackendSplit(entries: seq<(string, ErrValue)>)
    requires DistinctKeys(entries)
    ensures forall k :: k in FieldErrors(FieldEntries(entries)) <==>
      !IsGeneralKey(k) && exists i :: 0 <= i < |entries| && entries[i].0 == k
    ensures forall i :: 0 <= i < |entries| && !IsGeneralKey(entries[i].0) ==>
      FieldErrors(FieldEntries(entries))[entries[i].0] == FieldMessage(entries[i].1)
  {
    var f := FieldEntries(entries);
    FieldEntriesDistinct(entries);
    FieldErrorsSpec(f);
    forall k ensures k in FieldErrors(f) <==> !IsGeneralKey(k) && exists i :: 0 <= i < |entries| && entries[i].0 == k {
      if k in FieldErrors(f) {
        var j :| 0 <= j < |f| && f[j].0 == k;
        assert f[j] in f;
        var i :| 0 <= i < |entries| && entries[i] == f[j];
      }
      if !IsGeneralKey(k) && exists i :: 0 <= i < |entries| && entries[i].0 == k {
        var i :| 0 <= i < |entries| && entries[i].0 == k;
        assert entries[i] in entries;
        assert entries[i] in f;
        var j :| 0 <= j < |f| && f[j] == entries[i];
      }
    }
    forall i | 0 <= i < |entries| && !IsGeneralKey(entries[i].0)
      ensures FieldErrors(f)[entries[i].0] == FieldMessage(entries[i].1)
    {
      assert entries[i] in entries;
      assert entries[i] in f;
      var j :| 0 <= j < |f| && f[j] == entries[i];
    }
  }

  /** The errors and general message after a failed call, from those held
      before: the field errors replace the errors when the payload has any,
      the last `error` or `detail` value becomes the general message, and a
      payload that is not an object, or no response, gives a generic
      message. */
  function AfterBackendError(data: ErrorPayload, errors: Errors, general: string): (Errors, string)
  {
    match data
    case Object(entries) =>
      (if FieldEntries(entries) == [] then errors else FieldErrors(FieldEntries(entries)),
       match GeneralMessage(entries) case Some(m) => m case None => general)
    case NonObject => (errors, RetryMessage)
    case NoData => (errors, ConnectionMessage)
  }

  /** The value an input event carries: `checked` for the checkbox, else
      `value` (an identifier for the two selects, text otherwise). */
  datatype Input = Checkbox(checked: bool) | Select(id: Option<int>) | Text(text: string)

  /** `formData` after `{ ...prev, [name]: newValue }`. */
  function SetField(d: FormData, name: string, input: Input): (r: FormData)
    ensures name == "bank_account" && input.Select? ==> r == d.(bankAccount := input.id)
    ensures name == "category" && input.Select? ==> r == d.(category := input.id)
    ensures name == "transaction_type" && input.Text? ==> r == d.(ttype := input.text)
    ensures name == "transaction_amount" && input.Text? ==> r == d.(amount := input.text)
    ensures name == "is_recurring" && input.Checkbox? ==> r == d.(isRecurring := input.checked)
    ensures name == "transaction_description" && input.Text? ==> r == d.(description := input.text)
    ensures name == "transaction_date" && input.Text? ==> r == d.(date := input.text)
    ensures name == "transaction_note" && input.Text? ==> r == d.(note := input.text)
    ensures name == "reference_number" && input.Text? ==> r == d.(reference := input.text)
    ensures (name !in {"bank_account", "category", "transaction_description", "transaction_type", "transaction_amount",
                       "transaction_date", "transaction_note", "reference_number", "is_recurring"}) ==> r == d
  {
    match input
    case Select(id) =>
      if name == "bank_account" then d.(bankAccount := id)
      else if name == "category" then d.(category := id)
      else d
    case Checkbox(c) =>
      if name == "is_recurring" then d.(isRecurring := c) else d
    case Text(t) =>
      if name == "transaction_description" then d.(description := t)
      else if name == "transaction_type" then d.(ttype := t)
      else if name == "transaction_amount" then d.(amount := t)
      else if name == "transaction_date" then d.(date := t)
      else if name == "transaction_note" then d.(note := t)
      else if name == "reference_number" then d.(reference := t)
      else d
  }

  /** A transaction opened for editing, as the dialog receives it; `None`
      and `""` are its falsy fields. */
  datatype Existing = Existing(
    bankAccount: Option<int>, category: Option<int>, description: string,
    ttype: string, date: string, note: string, reference: string, isRecurring: bool)

  /** The form for editing a transaction: each field taken from it, a
      missing type read as an expense and a missing date as today. The
      amount shows `Math.abs(transaction_amount).toString()`, given here as
      `displayAmount`. */
  function Prefill(t: Existing, displayAmount: string, today: Date): (r: FormData)
    requires ValidDate(today)
    ensures r.ttype != "" && r.date != "" && r.amount == displayAmount
    ensures t.ttype != "" ==> r.ttype == t.ttype
    ensures t.ttype == "" ==> r.ttype == "expense"
    ensures t.date != "" ==> r.date == t.date
    ensures t.date == "" ==> r.date == FormatDateForAPI(Day(today))
    ensures r.bankAccount == t.bankAccount && r.category == t.category && r.description == t.description
    ensures r.note == t.note && r.reference == t.reference && r.isRecurring == t.isRecurring
  {
    FormData(t.bankAccount, t.category, t.description, Or(t.ttype, "expense"), displayAmount,
             Or(t.date, FormatDateForAPI(Day(today))), t.note, t.reference, t.isRecurring)
  }

  /** Saving an edit unchanged sends the transaction's own account,
      category, type and date back, its description trimmed, and the shown
      magnitude negated for an expense and kept for income. */
  lemma PrefillResubmit(t: Existing, displayAmount: string, m: real, today: Date)
    requires ValidDate(today) && t.ttype != "" && t.date != ""
    requires ParseFloat(displayAmount) == Some(m) && m >= 0.0
    ensures var p := SubmitData(Prefill(t, displayAmount, today));
      p.bankAccount == t.bankAccount && p.category == t.category && p.ttype == t.ttype &&
      p.date == t.date && p.description == Trim(t.description) && p.isRecurring == t.isRecurring &&
      (t.ttype == "expense" ==> p.amount == Some(-m)) &&
      (t.ttype == "income" ==> p.amount == Some(m))
  {
    var d := Prefill(t, displayAmount, today);
    assert d.amount == displayAmount && d.ttype == t.ttype;
    assert SubmitData(d).amount == SignedAmount(t.ttype, Some(m));
  }

  class TransactionFormDialog {
    var formData: FormData
    var errors: Errors
    var generalError: string
    var warning: Warning
    var availableCategories: seq<Category>
    var selectedAccount: Option<Account>

    /** A dialog opened for a new transaction: an expense dated today. */
    constructor (today: Date)
      requires ValidDate(today)
      ensures formData == FormData(None, None, "", "expense", "", FormatDateForAPI(Day(today)), "", "", false)
      ensures errors == map[] && generalError == "" && warning == NoWarning
      ensures availableCategories == [] && selectedAccount == None
    {
      formData := FormData(None, None, "", "expense", "", FormatDateForAPI(Day(today)), "", "", false);
      errors := map[];
      generalError := "";
      warning := NoWarning;
      availableCategories := [];
      selectedAccount := None;
    }

    /** The effect run when the dialog opens or its transaction changes:
        the form is pre-filled from the transaction being edited, or reset
        for a new one, and the errors and the warning are cleared. */
    method Open(t: Option<Existing>, displayAmount: string, today: Date)
      requires ValidDate(today)
      modifies this
      ensures t.Some? ==> formData == Prefill(t.value, displayAmount, today)
      ensures t.None? ==> formData == FormData(None, None, "", "expense", "", FormatDateForAPI(Day(today)), "", "", false)
      ensures errors == map[] && generalError == "" && warning == NoWarning
      ensures availableCategories == old(availableCategories) && selectedAccount == old(selectedAccount)
    {
      match t {
        case Some(e) =>
          formData := FormData(e.bankAccount, e.category, e.description, Or(e.ttype, "expense"), displayAmount,
                               Or(e.date, FormatDateForAPI(Day(today))), e.note, e.reference, e.isRecurring);
        case None =>
          formData := FormData(None, None, "", "expense", "", FormatDateForAPI(Day(today)), "", "", false);
      }
      errors := map[];
      generalError := "";
      warning := NoWarning;
    }

    /** The effect run when the type or the categories change: the offered
        categories are recomputed and a selection that no longer fits is
        cleared. */
    method UpdateCategories(categories: seq<Category>)
      modifies this
      ensures availableCategories == AvailableCategories(categories, old(formData).ttype)
      ensures formData == old(formData).(category := KeptCategory(old(formData).category, categories, old(formData).ttype))
      ensures errors == old(errors) && generalError == old(generalError)
      ensures warning == old(warning) && selectedAccount == old(selectedAccount)
    {
      if formData.ttype == "transfer" {
        availableCategories := categories;
      } else {
        availableCategories := Filter(categories, OfType(formData.ttype));
      }
      if formData.category.Some? {
        var stillValid := Find(categories, StillFits(formData.category.value, formData.ttype));
        if stillValid.None? {
          formData := formData.(category := None);
        }
      }
    }

    /** The effect run when the account, amount or type changes: with an
        account chosen, it is looked up and the balance warning updated. */
    method UpdateAccount(accounts: seq<Account>)
      modifies this
      ensures formData == old(formData) && errors == old(errors) && generalError == old(generalError)
      ensures availableCategories == old(availableCategories)
      ensures formData.bankAccount.None? ==> selectedAccount == old(selectedAccount) && warning == old(warning)
      ensures formData.bankAccount.Some? ==>
        selectedAccount == AccountById(accounts, formData.bankAccount.value) &&
        warning == (match WarningUpdate(selectedAccount, formData.amount, formData.ttype)
                    case None => old(warning)
                    case Some(w) => w)
    {
      if formData.bankAccount.Some? {
        var account := AccountById(accounts, formData.bankAccount.value);
        selectedAccount := account;
        if account.Some? && formData.amount != "" && formData.ttype == "expense" {
          var amount := ParseFloat(formData.amount);
          if amount.Some? && account.value.accountType != "credit" {
            var balance := ParseAmount(account.value.balance);
            SetWarning(amount.value, balance, account.value.balance);
          }
        } else {
          warning := NoWarning;
        }
      }
    }

    /** The three-way choice of the warning effect for a numeric amount. */
    method SetWarning(amount: real, balance: Option<real>, current: Amount)
      modifies this
      ensures Some(warning) == WarningFor(Some(amount), balance, current)
      ensures formData == old(formData) && errors == old(errors) && generalError == old(generalError)
      ensures availableCategories == old(availableCategories) && selectedAccount == old(selectedAccount)
    {
      if balance.Some? && balance.value - amount < 0.0 {
        warning := NegativeBalance(balance.value - amount, current);
      } else if balance.Some? && balance.value - amount < 100.0 {
        warning := LowBalance(balance.value - amount);
      } else {
        warning := NoWarning;
      }
    }

    /** `handleChange`: the field takes the event's value, its error is
        blanked, and the general error is cleared. */
    method HandleChange(name: string, input: Input)
      modifies this
      ensures formData == SetField(old(formData), name, input)
      ensures errors == ClearFieldError(old(errors), name)
      ensures generalError == ""
      ensures warning == old(warning) && selectedAccount == old(selectedAccount)
      ensures availableCategories == old(availableCategories)
    {
      formData := SetField(formData, name, input);
      if name in errors && errors[name] != "" {
        errors := errors[name := ""];
      }
      if generalError != "" {
        generalError := "";
      }
    }

    /** `validateForm`: each rule writes its message into `newErrors`; the
        insufficient-funds rule runs last and overwrites the amount's. */
    method ValidateForm(today: Date) returns (newErrors: Errors)
      requires ValidDate(today)
      ensures newErrors == FormErrors(formData, selectedAccount, today)
    {
      newErrors := CheckFields(today);
      newErrors := CheckFunds(newErrors);
    }

    /** The field rules of `validateForm`, in order. */
    method CheckFields(today: Date) returns (newErrors: Errors)
      requires ValidDate(today)
      ensures newErrors == FieldRuleErrors(formData, today)
    {
      ghost var m := FieldRules(formData, today);
      newErrors := map[];
      if formData.bankAccount.None? {
        newErrors := newErrors["bank_account" := AccountRequired];
      }
      assert newErrors == Put(map[], "bank_account", m.account);
      ghost var e1 := newErrors;
      if formData.category.None? {
        newErrors := newErrors["category" := CategoryRequired];
      }
      assert newErrors == Put(e1, "category", m.category);
      ghost var e2 := newErrors;
      newErrors := CheckDescription(newErrors);
      assert newErrors == Put(e2, "transaction_description", m.description);
      ghost var e3 := newErrors;
      newErrors := CheckAmount(newErrors);
      assert newErrors == Put(e3, "transaction_amount", m.amount);
      ghost var e4 := newErrors;
      newErrors := CheckDate(newErrors, today);
      assert newErrors == Put(e4, "transaction_date", m.date);
      ghost var e5 := newErrors;
      if formData.reference != "" && |formData.reference| > 100 {
        newErrors := newErrors["reference_number" := ReferenceTooLong];
      }
      assert newErrors == Put(e5, "reference_number", m.reference);
      ghost var e6 := newErrors;
      if formData.note != "" && |formData.note| > 500 {
        newErrors := newErrors["transaction_note" := NoteTooLong];
      }
      assert newErrors == Put(e6, "transaction_note", m.note);
    }

    /** The description rule of `validateForm`. */
    method CheckDescription(errs: Errors) returns (newErrors: Errors)
      ensures newErrors == Put(errs, "transaction_description", DescriptionError(formData.description))
    {
      newErrors := errs;
      var trimmed := Trim(formData.description);
      if trimmed == "" {
        newErrors := newErrors["transaction_description" := DescriptionRequired];
      } else if |trimmed| < 2 {
        newErrors := newErrors["transaction_description" := DescriptionShort];
      } else if |formData.description| > 255 {
        newErrors := newErrors["transaction_description" := DescriptionLong];
      }
    }

    /** The amount rule of `validateForm`. */
    method CheckAmount(errs: Errors) returns (newErrors: Errors)
      ensures newErrors == Put(errs, "transaction_amount", AmountError(formData.amount))
    {
      newErrors := errs;
      if formData.amount == "" {
        newErrors := newErrors["transaction_amount" := AmountRequired];
      } else {
        var amount := ParseFloat(formData.amount);
        if amount.None? || amount.value <= 0.0 {
          newErrors := newErrors["transaction_amount" := AmountNotPositive];
        } else if amount.value > 999999.99 {
          newErrors := newErrors["transaction_amount" := AmountTooLarge];
        }
      }
    }

    /** The date rule of `validateForm`: `tomorrow` and `twoYearsAgo` are
        copies of today moved by `setDate` and `setFullYear`. */
    method CheckDate(errs: Errors, today: Date) returns (newErrors: Errors)
      requires ValidDate(today)
      ensures newErrors == Put(errs, "transaction_date", DateError(formData.date, today))
    {
      newErrors := errs;
      if formData.date == "" {
        newErrors := newErrors["transaction_date" := DateRequired];
      } else {
        var transDate := ParseDate(formData.date);
        var tomorrow := today;
        tomorrow := SetDate(tomorrow, tomorrow.day + 1);
        var twoYearsAgo := today;
        twoYearsAgo := SetFullYear(twoYearsAgo, twoYearsAgo.year - 2);
        assert tomorrow == Tomorrow(today) && twoYearsAgo == TwoYearsAgo(today);
        if transDate.Day? && Before(tomorrow, transDate.date) {
          newErrors := newErrors["transaction_date" := DateInFuture];
          assert DateError(formData.date, today) == Some(DateInFuture);
        } else if transDate.Day? && !Before(twoYearsAgo, transDate.date) {
          newErrors := newErrors["transaction_date" := DateTooOld];
          assert DateError(formData.date, today) == Some(DateTooOld);
        } else {
          assert DateError(formData.date, today) == None;
        }
      }
    }

    /** The insufficient-funds rule of `validateForm`. */
    method CheckFunds(errs: Errors) returns (newErrors: Errors)
      ensures newErrors == Put(errs, "transaction_amount",
                               if Overdrawn(selectedAccount, formData) then Some(InsufficientFunds) else None)
    {
      newErrors := errs;
      if selectedAccount.Some? && formData.ttype == "expense" && formData.amount != "" {
        var amount := ParseFloat(formData.amount);
        if amount.Some? && selectedAccount.value.accountType != "credit" {
          var balance := ParseAmount(selectedAccount.value.balance);
          if balance.Some? && balance.value - amount.value < 0.0 {
            newErrors := newErrors["transaction_amount" := InsufficientFunds];
          }
        }
      }
    }

    /** `handleSubmit`: an invalid form only shows its errors; a valid one
        sends `SubmitData` and, when the call fails, shows what the backend
        said. */
    method HandleSubmit(today: Date, outcome: Outcome) returns (sent: Option<Payload>, closed: bool)
      requires ValidDate(today)
      modifies this
      ensures formData == old(formData) && warning == old(warning) && selectedAccount == old(selectedAccount)
      ensures availableCategories == old(availableCategories)
      ensures sent.Some? <==> FormErrors(old(formData), old(selectedAccount), today) == map[]
      ensures sent.None? ==>
        errors == FormErrors(old(formData), old(selectedAccount), today) && generalError == old(generalError) && !closed
      ensures sent.Some? ==> sent.value == SubmitData(formData) && (closed <==> outcome.Succeeded?)
      ensures sent.Some? && outcome.Succeeded? ==> errors == old(errors) && generalError == ""
      ensures sent.Some? && outcome.Failed? ==> (errors, generalError) == AfterBackendError(outcome.data, old(errors), "")
    {
      ghost var expected := FormErrors(formData, selectedAccount, today);
      var validationErrors := ValidateForm(today);
      if validationErrors != map[] {
        errors := validationErrors;
        return None, false;
      }
      assert expected == map[];
      sent, closed := Send(outcome);
    }

    /** The `try` of `handleSubmit` for a valid form: the general error is
        cleared, `SubmitData` is sent, and the dialog closes on success or
        shows what the backend said. */
    method Send(outcome: Outcome) returns (sent: Option<Payload>, closed: bool)
      modifies this
      ensures formData == old(formData) && warning == old(warning) && selectedAccount == old(selectedAccount)
      ensures availableCategories == old(availableCategories)
      ensures sent == Some(SubmitData(formData)) && (closed <==> outcome.Succeeded?)
      ensures outcome.Succeeded? ==> errors == old(errors) && generalError == ""
      ensures outcome.Failed? ==> (errors, generalError) == AfterBackendError(outcome.data, old(errors), "")
    {
      generalError := "";
      sent := Some(SubmitData(formData));
      closed := outcome.Succeeded?;
      if outcome.Failed? {
        ShowBackendError(outcome.data);
      }
    }

    /** The `catch` branch of `handleSubmit`: the `forEach` over an object
        payload sends `error` and `detail` to the general message and every
        other key to `backendErrors`, which replace the errors when there is
        at least one; otherwise a general message says whether the server
        answered. */
    method ShowBackendError(data: ErrorPayload)
      modifies this
      ensures formData == old(formData) && warning == old(warning) && selectedAccount == old(selectedAccount)
      ensures availableCategories == old(availableCategories)
      ensures (errors, generalError) == AfterBackendError(data, old(errors), old(generalError))
    {
      match data
      case Object(entries) =>
        var backendErrors, hasFieldErrors, general := SplitPayload(entries, generalError);
        generalError := general;
        if hasFieldErrors {
          errors := backendErrors;
        }
      case NonObject =>
        generalError := RetryMessage;
      case NoData =>
        generalError := ConnectionMessage;
    }
  }

  /** The `forEach` over an object payload's keys: `error` and `detail` set
      the general message (the last such call wins), every other key adds
      its field error, and `hasFieldErrors` records whether any did. */
  method SplitPayload(entries: seq<(string, ErrValue)>, general0: string)
    returns (backendErrors: Errors, hasFieldErrors: bool, general: string)
    ensures backendErrors == FieldErrors(FieldEntries(entries))
    ensures hasFieldErrors <==> FieldEntries(entries) != []
    ensures general == match GeneralMessage(entries) case Some(m) => m case None => general0
  {
    backendErrors := map[];
    hasFieldErrors := false;
    general := general0;
    for i := 0 to |entries|
      invariant backendErrors == FieldErrors(FieldEntries(entries[..i]))
      invariant hasFieldErrors <==> FieldEntries(entries[..i]) != []
      invariant general == (match GeneralMessage(entries[..i]) case Some(m) => m case None => general0)
    {
      var (key, value) := entries[i];
      SplitStep(entries, i);
      if key == "error" || key == "detail" {
        general := Shown(value);
      } else {
        hasFieldErrors := true;
        if value.Messages? {
          backendErrors := backendErrors[key := IndexZero(value)];
        } else {
          backendErrors := backendErrors[key := value.text];
        }
      }
    }
    assert entries[..|entries|] == entries;
  }

  /** One step of the `forEach`: a general key sets the message and leaves
      the field errors; any other key adds its field error. */
  lemma SplitStep(entries: seq<(string, ErrValue)>, i: nat)
    requires i < |entries|
    ensures IsGeneralKey(entries[i].0) ==>
      FieldEntries(entries[..i + 1]) == FieldEntries(entries[..i]) &&
      GeneralMessage(entries[..i + 1]) == Some(Shown(entries[i].1))
    ensures !IsGeneralKey(entries[i].0) ==>
      FieldEntries(entries[..i + 1]) == FieldEntries(entries[..i]) + [entries[i]] &&
      FieldErrors(FieldEntries(entries[..i + 1]))
        == FieldErrors(FieldEntries(entries[..i]))[entries[i].0 := FieldMessage(entries[i].1)] &&
      GeneralMessage(entries[..i + 1]) == GeneralMessage(entries[..i])
  {
    var p := (e: (string, ErrValue)) => !IsGeneralKey(e.0);
    assert entries[..i + 1] == entries[..i] + [entries[i]];
    FilterAppend(entries[..i], [entries[i]], p);
    assert entries[..i + 1][..i] == entries[..i];
    if !IsGeneralKey(entries[i].0) {
      var f := FieldEntries(entries[..i]) + [entries[i]];
      assert f[..|f| - 1] == FieldEntries(entries[..i]);
    }
  }
}
