/** The account dialog of `src/components/accounts/AccountFormDialog.jsx`:
    the keystroke encoder of the masked account number, the cleaning of the
    balance text, the validator, the submitted payload and the mapping of
    backend errors onto the form. */
module AccountForm {
  import opened Text
  import opened Domain

  /** The dialog's `formData`; every field holds the text of its input. */
  datatype FormData = FormData(
    accountName: string, bankName: string, accountType: string,
    numberMasked: string, currency: string, balance: string)

  // ---------------------------------------------------------------------
  // The masked account number
  // ---------------------------------------------------------------------

  /** `'*'.repeat(n)`. */
  function Stars(n: nat): (r: string)
    ensures |r| == n && forall i :: 0 <= i < n ==> r[i] == '*'
  {
    if n == 0 then "" else Stars(n - 1) + "*"
  }

  /** `s.replace(/\D/g, '')`: the digits of `s`, in order. */
  function OnlyDigits(s: string): (r: string)
    ensures AllDigits(r) && |r| <= |s|
    ensures forall c :: c in r <==> c in s && IsDigit(c)
    ensures AllDigits(s) ==> r == s
  {
    var r := Filter(s, IsDigit);
    assert AllDigits(r) by {
      forall i | 0 <= i < |r| ensures IsDigit(r[i]) { assert r[i] in r; }
    }
    assert AllDigits(s) ==> r == s by {
      if AllDigits(s) { FilterAll(s, IsDigit); }
    }
    r
  }

  /** Every digit of the input is kept, in order, and nothing else: the
      digits of a concatenation are the digits of each part, and a single
      character is kept exactly when it is a digit. */
  lemma OnlyDigitsKeepsOrder(a: string, b: string, c: char)
    ensures OnlyDigits(a + b) == OnlyDigits(a) + OnlyDigits(b)
    ensures OnlyDigits([c]) == if IsDigit(c) then [c] else []
  {
    FilterAppend(a, b, IsDigit);
    assert [c][1..] == [];
  }

  /** Number of `*` characters at the start of `s`. */
  function LeadingStars(s: string): (k: nat)
    ensures k <= |s| && forall i :: 0 <= i < k ==> s[i] == '*'
    ensures k < |s| ==> s[k] != '*'
  {
    if s != [] && s[0] == '*' then 1 + LeadingStars(s[1..]) else 0
  }

  /** The shape `\*{0,4}\d{0,4}` of every stored masked number. */
  predicate MaskShape(s: string)
  {
    var k := LeadingStars(s);
    k <= 4 && |s| - k <= 4 && AllDigits(s[k..])
  }

  /** The new stored value when `input` is typed into the account-number
      field holding `stored`: longer inputs are ignored, the first four
      characters always show as `*`, and only digits are kept after them. */
  function MaskedNumber(stored: string, input: string): (r: string)
    ensures |input| > 8 ==> r == stored
    ensures |input| <= 4 ==> r == Stars(|input|)
    ensures 4 < |input| <= 8 ==> r == "****" + OnlyDigits(input[4..])
    ensures |input| <= 8 ==> |r| <= 8 && MaskShape(r)
  {
    if |input| <= 8 then
      if |input| <= 4 then
        var r := Stars(|input|);
        assert LeadingStars(r) == |r| by { StarsAreLeading(|input|); }
        r
      else
        var d := OnlyDigits(input[4..]);
        var r := "****" + d;
        assert LeadingStars(r) == 4 by {
          assert r[1..][1..][1..][1..] == d;
          assert d != [] ==> d[0] != '*' by { assert d != [] ==> IsDigit(d[0]); }
        }
        assert r[4..] == d;
        r
    else stored
  }

  lemma {:induction false} StarsAreLeading(n: nat)
    ensures LeadingStars(Stars(n)) == n
  {
    if n > 0 {
      var s := Stars(n);
      assert forall i :: 0 <= i < |s| ==> s[i] == '*';
      LeadingAllStars(s);
    }
  }

  lemma {:induction false} LeadingAllStars(s: string)
    requires forall i :: 0 <= i < |s| ==> s[i] == '*'
    ensures LeadingStars(s) == |s|
  {
    if s != [] {
      assert forall i :: 0 <= i < |s[1..]| ==> s[1..][i] == s[i + 1];
      LeadingAllStars(s[1..]);
    }
  }

  /** Typing a stored value back in leaves it as it is, whatever the field
      held before: the encoder is idempotent. */
  lemma MaskedNumberIdempotent(stored: string, input: string, other: string)
    requires |input| <= 8
    ensures var r := MaskedNumber(stored, input); MaskedNumber(other, r) == r
  {
    var r := MaskedNumber(stored, input);
    if |input| > 4 {
      var d := OnlyDigits(input[4..]);
      if d == [] {
        assert r == "****" == Stars(4);
      } else {
        assert r[4..] == d;
      }
    }
  }

  // ---------------------------------------------------------------------
  // The balance text
  // ---------------------------------------------------------------------

  /** The characters the balance field keeps: `[0-9.-]`. */
  predicate BalanceChar(c: char)
  {
    IsDigit(c) || c == '.' || c == '-'
  }

  /** `value.replace(/[^0-9.-]/g, '')`. */
  function CleanBalance(s: string): (r: string)
    ensures |r| <= |s|
    ensures forall c :: c in r <==> c in s && BalanceChar(c)
  {
    Filter(s, BalanceChar)
  }

  /** Cleaning keeps the kept characters in their original order: it
      distributes over concatenation, and text already clean is unchanged. */
  lemma CleanBalanceKeepsOrder(a: string, b: string)
    ensures CleanBalance(a + b) == CleanBalance(a) + CleanBalance(b)
    ensures (forall i :: 0 <= i < |a| ==> BalanceChar(a[i])) ==> CleanBalance(a) == a
  {
    FilterAppend(a, b, BalanceChar);
    if forall i :: 0 <= i < |a| ==> BalanceChar(a[i]) {
      FilterAll(a, BalanceChar);
    }
  }

  // ---------------------------------------------------------------------
  // Validation
  // ---------------------------------------------------------------------

  const AccountNameRequired: string := "Account name is required"
  const AccountNameShort: string := "Account name must be at least 2 characters"
  const BankNameRequired: string := "Bank name is required"
  const BankNameShort: string := "Bank name must be at least 2 characters"

  /** The name rule shared by the account and bank names, with the field's
      two messages. */
  function NameError(value: string, required: string, tooShort: string): (r: Option<string>)
    ensures r.None? <==> |Trim(value)| >= 2
    ensures IsBlank(value) ==> r == Some(required)
    ensures !IsBlank(value) && |Trim(value)| < 2 ==> r == Some(tooShort)
  {
    if Trim(value) == "" then Some(required)
    else if |Trim(value)| < 2 then Some(tooShort)
    else None
  }

  const NumberRequired: string := "Account number is required"
  const NumberLength: string := "Must be 8 characters (****XXXX)"
  const NumberPrefix: string := "Must start with ****"
  const NumberDigits: string := "Last 4 characters must be digits"
  const BalanceRequired: string := "Current balance is required"
  const BalanceNotNumber: string := "Must be a valid number"

  /** The account-number rule: non-empty, eight characters, `****` first,
      four digits last; the first failing check names the error. */
  function AccountNumberError(s: string): (r: Option<string>)
    ensures r.None? <==> |s| == 8 && s[..4] == "****" && AllDigits(s[4..])
    ensures s == "" ==> r == Some(NumberRequired)
    ensures s != "" && |s| != 8 ==> r == Some(NumberLength)
    ensures |s| == 8 && s[..4] != "****" ==> r == Some(NumberPrefix)
    ensures |s| == 8 && s[..4] == "****" && !AllDigits(s[4..]) ==> r == Some(NumberDigits)
  {
    if s == "" then Some(NumberRequired)
    else if |s| != 8 then Some(NumberLength)
    else if s[..4] != "****" then Some(NumberPrefix)
    else if !AllDigits(s[4..]) then Some(NumberDigits)
    else None
  }

  const NegativeNotCredit: string := "Only credit accounts can have negative balance"
  const PositiveCredit: string := "Credit accounts should have zero or negative balance"
  const OverdraftLimit: string := "Overdraft limit cannot exceed \U{A3}10,000"
  const BalanceTooLarge: string := "Balance exceeds maximum allowed value"

  /** The range a parsed balance must lie in for the account type. */
  predicate BalanceInRange(accountType: string, b: real)
  {
    if accountType == "credit" then -10000.0 <= b <= 0.0 else 0.0 <= b <= 9999999.99
  }

  /** The balance rule, an else-chain over the parsed text. */
  function BalanceError(accountType: string, text: string): (r: Option<string>)
    ensures r.None? <==> text != "" && ParseFloat(text).Some? && BalanceInRange(accountType, ParseFloat(text).value)
    ensures text == "" ==> r == Some(BalanceRequired)
    ensures text != "" && ParseFloat(text).None? ==> r == Some(BalanceNotNumber)
    ensures text != "" && ParseFloat(text).Some? && accountType != "credit" && ParseFloat(text).value < 0.0
            ==> r == Some(NegativeNotCredit)
  {
    if text == "" then Some(BalanceRequired)
    else
      match ParseFloat(text)
      case None => Some(BalanceNotNumber)
      case Some(b) => BalanceCheck(accountType, b)
  }

  /** The else-chain over a parsed balance. */
  function BalanceCheck(accountType: string, b: real): (r: Option<string>)
    ensures r.None? <==> BalanceInRange(accountType, b)
  {
    if accountType != "credit" && b < 0.0 then Some(NegativeNotCredit)
    else if accountType == "credit" && b > 0.0 then Some(PositiveCredit)
    else if b < -10000.0 then Some(OverdraftLimit)
    else if b > 9999999.99 then Some(BalanceTooLarge)
    else None
  }

  /** A credit balance past the overdraft floor gets the overdraft message,
      and the ceiling is never reached by a credit balance: the sign checks
      come first. */
  lemma CreditBalanceMessages(text: string, b: real)
    requires text != "" && ParseFloat(text) == Some(b)
    ensures b < -10000.0 ==> BalanceError("credit", text) == Some(OverdraftLimit)
    ensures b > 0.0 ==> BalanceError("credit", text) == Some(PositiveCredit)
    ensures BalanceError("credit", text) != Some(BalanceTooLarge)
    ensures BalanceError("current", text) != Some(OverdraftLimit)
  {
  }

  /** The errors `validateForm` returns for a form. */
  function FormErrors(d: FormData): (r: Errors)
    ensures r.Keys <= {"account_name", "bank_name", "account_number_masked", "current_balance"}
  {
    var e0: Errors := map[];
    var e1 := Put(e0, "account_name", NameError(d.accountName, AccountNameRequired, AccountNameShort));
    var e2 := Put(e1, "bank_name", NameError(d.bankName, BankNameRequired, BankNameShort));
    var e3 := Put(e2, "account_number_masked", AccountNumberError(d.numberMasked));
    Put(e3, "current_balance", BalanceError(d.accountType, d.balance))
  }

  /** A form is valid iff both trimmed names have two characters or more,
      the masked number is `****` and four digits, and the balance parses
      to a value in its type's range. */
  lemma FormErrorsEmpty(d: FormData)
    ensures FormErrors(d) == map[] <==>
      |Trim(d.accountName)| >= 2 && |Trim(d.bankName)| >= 2 &&
      |d.numberMasked| == 8 && d.numberMasked[..4] == "****" && AllDigits(d.numberMasked[4..]) &&
      d.balance != "" && ParseFloat(d.balance).Some? && BalanceInRange(d.accountType, ParseFloat(d.balance).value)
  {
    var e1 := Put(map[], "account_name", NameError(d.accountName, AccountNameRequired, AccountNameShort));
    var e2 := Put(e1, "bank_name", NameError(d.bankName, BankNameRequired, BankNameShort));
    var e3 := Put(e2, "account_number_masked", AccountNumberError(d.numberMasked));
    assert "account_name" in e1 ==> "account_name" in FormErrors(d);
    assert "bank_name" in e2 ==> "bank_name" in FormErrors(d);
    assert "account_number_masked" in e3 ==> "account_number_masked" in FormErrors(d);
  }

  // ---------------------------------------------------------------------
  // Submission
  // ---------------------------------------------------------------------

  /** The object sent to the API; a `NaN` balance would be sent as `null`. */
  datatype Payload = Payload(
    accountName: string, bankName: string, accountType: string,
    numberMasked: string, currency: string, balance: Option<real>)

  /** `submitData`: the names trimmed, the balance parsed, the rest as typed. */
  function SubmitData(d: FormData): (p: Payload)
    ensures p.accountName == Trim(d.accountName) && p.bankName == Trim(d.bankName)
    ensures p.balance == ParseFloat(d.balance)
    ensures p.accountType == d.accountType && p.numberMasked == d.numberMasked && p.currency == d.currency
  {
    Payload(Trim(d.accountName), Trim(d.bankName), d.accountType, d.numberMasked, d.currency,
            ParseFloat(d.balance))
  }

  /** A form that passes validation sends names of at least two characters
      with no surrounding white space, a well-formed masked number and a
      parsed balance in its type's range. */
  lemma ValidFormPayload(d: FormData)
    requires FormErrors(d) == map[]
    ensures var p := SubmitData(d);
      |p.accountName| >= 2 && |p.bankName| >= 2 &&
      !IsSpace(p.accountName[0]) && !IsSpace(p.accountName[|p.accountName| - 1]) &&
      |p.numberMasked| == 8 && p.numberMasked[..4] == "****" && AllDigits(p.numberMasked[4..]) &&
      p.balance.Some? && BalanceInRange(p.accountType, p.balance.value)
  {
    FormErrorsEmpty(d);
    PayloadOfValidFields(d);
  }

  /** The payload of a form whose fields satisfy the rules' conditions. */
  lemma PayloadOfValidFields(d: FormData)
    requires |Trim(d.accountName)| >= 2 && |Trim(d.bankName)| >= 2
    requires |d.numberMasked| == 8 && d.numberMasked[..4] == "****" && AllDigits(d.numberMasked[4..])
    requires ParseFloat(d.balance).Some? && BalanceInRange(d.accountType, ParseFloat(d.balance).value)
    ensures var p := SubmitData(d);
      |p.accountName| >= 2 && |p.bankName| >= 2 &&
      !IsSpace(p.accountName[0]) && !IsSpace(p.accountName[|p.accountName| - 1]) &&
      |p.numberMasked| == 8 && p.numberMasked[..4] == "****" && AllDigits(p.numberMasked[4..]) &&
      p.balance.Some? && BalanceInRange(p.accountType, p.balance.value)
  {
    var p := SubmitData(d);
    var n := Trim(d.accountName);
    TrimEnds(d.accountName);
    assert p.accountName == n && p.bankName == Trim(d.bankName) && p.numberMasked == d.numberMasked;
    assert p.accountName[0] == n[0] && p.accountName[|p.accountName| - 1] == n[|n| - 1];
    assert p.balance == ParseFloat(d.balance) && p.accountType == d.accountType;
  }

  /** `formData` after `{ ...prev, [name]: value }` for a plain field; a name
      the form does not have adds nothing the dialog reads. */
  function SetField(d: FormData, name: string, value: string): (r: FormData)
    ensures name == "account_name" ==> r == d.(accountName := value)
    ensures name == "bank_name" ==> r == d.(bankName := value)
    ensures name == "account_type" ==> r == d.(accountType := value)
    ensures name == "currency" ==> r == d.(currency := value)
    ensures name !in {"account_name", "bank_name", "account_type", "currency"} ==> r == d
  {
    if name == "account_name" then d.(accountName := value)
    else if name == "bank_name" then d.(bankName := value)
    else if name == "account_type" then d.(accountType := value)
    else if name == "currency" then d.(currency := value)
    else d
  }

  /** An account opened for editing, as the dialog receives it: text
      fields, with `""` for a missing one, and the balance as stored. */
  datatype Stored = Stored(
    accountName: string, bankName: string, accountType: string,
    numberMasked: string, currency: string, balance: Amount)

  /** The form filled from a stored account, each field `|| default`: only
      the type and currency have non-empty defaults, so an account with no
      type edits as `current` in `GBP`; a falsy balance (the number 0
      among them) edits as `''`, and another number as `balanceText`, the
      text of its `toString()`. */
  function Prefill(a: Stored, balanceText: string): (r: FormData)
    ensures r.accountType != "" && r.currency != ""
    ensures r.accountName == a.accountName && r.bankName == a.bankName && r.numberMasked == a.numberMasked
    ensures a.accountType != "" ==> r.accountType == a.accountType
    ensures a.currency != "" ==> r.currency == a.currency
    ensures a.balance.Absent? || a.balance == Num(0.0) || a.balance == Str("") ==> r.balance == ""
    ensures a.balance.Str? ==> r.balance == a.balance.text
    ensures a.balance.Num? && a.balance.value != 0.0 ==> r.balance == balanceText
  {
    FormData(a.accountName, a.bankName, Or(a.accountType, "current"), a.numberMasked,
             Or(a.currency, "GBP"), AmountText(a.balance, balanceText))
  }

  /** An account stored with the number 0 as its balance opens with an
      empty balance, which the balance rule then refuses as missing. */
  lemma ZeroBalanceEditsAsMissing(a: Stored, balanceText: string)
    requires a.balance == Num(0.0)
    ensures BalanceError(Prefill(a, balanceText).accountType, Prefill(a, balanceText).balance) == Some(BalanceRequired)
  {
  }

  /** One name rule of `validateForm`: required after trimming, then at
      least two characters. */
  method CheckName(errs: Errors, key: string, value: string, required: string, tooShort: string)
    returns (newErrors: Errors)
    ensures newErrors == Put(errs, key, NameError(value, required, tooShort))
  {
    newErrors := errs;
    var trimmed := Trim(value);
    if trimmed == "" {
      newErrors := newErrors[key := required];
    } else if |trimmed| < 2 {
      newErrors := newErrors[key := tooShort];
    }
  }

  class AccountFormDialog {
    var formData: FormData
    var errors: Errors
    var generalError: string

    /** A dialog opened to create an account. */
    constructor ()
      ensures formData == FormData("", "", "current", "", "GBP", "")
      ensures errors == map[] && generalError == ""
    {
      formData := FormData("", "", "current", "", "GBP", "");
      errors := map[];
      generalError := "";
    }

    /** The effect run when the dialog opens: the form is filled from the
        account being edited, a missing (falsy) field taking its default,
        or reset for a new account; errors are cleared. */
    method Open(account: Option<Stored>, balanceText: string)
      modifies this
      ensures account.None? ==> formData == FormData("", "", "current", "", "GBP", "")
      ensures account.Some? ==> formData == Prefill(account.value, balanceText)
      ensures errors == map[] && generalError == ""
    {
      if account.Some? {
        var a := account.value;
        var balance := match a.balance
          case Absent => ""
          case Num(v) => if v == 0.0 then "" else balanceText
          case Str(t) => Or(t, "");
        formData := FormData(Or(a.accountName, ""), Or(a.bankName, ""), Or(a.accountType, "current"),
                             Or(a.numberMasked, ""), Or(a.currency, "GBP"), balance);
      } else {
        formData := FormData("", "", "current", "", "GBP", "");
      }
      errors := map[];
      generalError := "";
    }

    /** `handleChange`: the masked number goes through the encoder, the
        balance through the cleaner, other fields are stored as typed; the
        edited field's error is cleared. */
    method HandleChange(name: string, value: string)
      modifies this
      ensures name == "account_number_masked" ==>
        formData == old(formData).(numberMasked := MaskedNumber(old(formData).numberMasked, value))
      ensures name == "current_balance" ==> formData == old(formData).(balance := CleanBalance(value))
      ensures name != "account_number_masked" && name != "current_balance" ==>
        formData == SetField(old(formData), name, value)
      ensures errors == ClearFieldError(old(errors), name)
      ensures generalError == old(generalError)
    {
      if name == "account_number_masked" {
        if |value| <= 8 {
          if |value| <= 4 {
            formData := formData.(numberMasked := Stars(|value|));
          } else {
            var lastFour := OnlyDigits(value[4..]);
            formData := formData.(numberMasked := "****" + lastFour);
          }
        }
      } else if name == "current_balance" {
        formData := formData.(balance := CleanBalance(value));
      } else {
        formData := SetField(formData, name, value);
      }
      if name in errors && errors[name] != "" {
        errors := errors[name := ""];
      }
    }

    /** `validateForm`: each rule adds its message to `newErrors`. */
    method ValidateForm() returns (newErrors: Errors)
      ensures newErrors == FormErrors(formData)
    {
      newErrors := map[];
      newErrors := CheckNames(newErrors);
      newErrors := CheckAccountNumber(newErrors);
      newErrors := CheckBalance(newErrors);
    }

    /** The account-name and bank-name rules of `validateForm`. */
    method CheckNames(errs: Errors) returns (newErrors: Errors)
      ensures newErrors == Put(Put(errs, "account_name", NameError(formData.accountName, AccountNameRequired, AccountNameShort)),
                               "bank_name", NameError(formData.bankName, BankNameRequired, BankNameShort))
    {
      newErrors := CheckName(errs, "account_name", formData.accountName, AccountNameRequired, AccountNameShort);
      newErrors := CheckName(newErrors, "bank_name", formData.bankName, BankNameRequired, BankNameShort);
    }

    /** The account-number rule of `validateForm`. */
    method CheckAccountNumber(errs: Errors) returns (newErrors: Errors)
      ensures newErrors == Put(errs, "account_number_masked", AccountNumberError(formData.numberMasked))
    {
      newErrors := errs;
      var number := formData.numberMasked;
      if number == "" {
        newErrors := newErrors["account_number_masked" := NumberRequired];
      } else if |number| != 8 {
        newErrors := newErrors["account_number_masked" := NumberLength];
      } else if number[..4] != "****" {
        newErrors := newErrors["account_number_masked" := NumberPrefix];
      } else if !AllDigits(number[4..]) {
        newErrors := newErrors["account_number_masked" := NumberDigits];
      }
    }

    /** The balance rule of `validateForm`. */
    method CheckBalance(errs: Errors) returns (newErrors: Errors)
      ensures newErrors == Put(errs, "current_balance", BalanceError(formData.accountType, formData.balance))
    {
      newErrors := errs;
      if formData.balance == "" {
        newErrors := newErrors["current_balance" := BalanceRequired];
      } else {
        var balance := ParseFloat(formData.balance);
        var credit := formData.accountType == "credit";
        if balance.None? {
          newErrors := newErrors["current_balance" := BalanceNotNumber];
        } else if !credit && balance.value < 0.0 {
          newErrors := newErrors["current_balance" := NegativeNotCredit];
        } else if credit && balance.value > 0.0 {
          newErrors := newErrors["current_balance" := PositiveCredit];
        } else if balance.value < -10000.0 {
          newErrors := newErrors["current_balance" := OverdraftLimit];
        } else if balance.value > 9999999.99 {
          newErrors := newErrors["current_balance" := BalanceTooLarge];
        }
      }
    }

    /** `handleSubmit`: an invalid form only shows its errors; a valid one
        sends `SubmitData` and, when the call fails, shows the backend's
        field errors, or a general message. */
    method HandleSubmit(outcome: Outcome) returns (sent: Option<Payload>, closed: bool)
      modifies this
      ensures formData == old(formData)
      ensures sent.Some? <==> FormErrors(old(formData)) == map[]
      ensures sent.None? ==> errors == FormErrors(old(formData)) && generalError == old(generalError) && !closed
      ensures sent.Some? ==> sent.value == SubmitData(formData)
      ensures sent.Some? ==> (closed <==> outcome.Succeeded?)
      ensures sent.Some? && outcome.Succeeded? ==> errors == old(errors) && generalError == ""
      ensures sent.Some? && outcome.Failed? && outcome.data.Object? ==>
        errors == FieldErrors(outcome.data.entries) && generalError == ""
      ensures sent.Some? && outcome.Failed? && outcome.data.NonObject? ==>
        errors == old(errors) && generalError == RetryMessage
      ensures sent.Some? && outcome.Failed? && outcome.data.NoData? ==>
        errors == old(errors) && generalError == ConnectionMessage
    {
      var validationErrors := ValidateForm();
      if validationErrors != map[] {
        errors := validationErrors;
        return None, false;
      }
      generalError := "";
      sent := Some(SubmitData(formData));
      closed := outcome.Succeeded?;
      if outcome.Failed? {
        ShowBackendError(outcome.data);
      }
    }

    /** The `catch` branch of `handleSubmit`: an object payload replaces the
        errors with its field errors; otherwise a general message says
        whether the server answered. */
    method ShowBackendError(data: ErrorPayload)
      modifies this
      ensures formData == old(formData)
      ensures data.Object? ==> errors == FieldErrors(data.entries) && generalError == old(generalError)
      ensures data.NonObject? ==> errors == old(errors) && generalError == RetryMessage
      ensures data.NoData? ==> errors == old(errors) && generalError == ConnectionMessage
    {
      match data
      case Object(entries) =>
        var backendErrors := CollectFieldErrors(entries);
        errors := backendErrors;
      case NonObject =>
        generalError := RetryMessage;
      case NoData =>
        generalError := ConnectionMessage;
    }
  }

  /** The `forEach` over the payload's keys that fills `backendErrors`. */
  method CollectFieldErrors(entries: seq<(string, ErrValue)>) returns (backendErrors: Errors)
    ensures backendErrors == FieldErrors(entries)
  {
    backendErrors := map[];
    for i := 0 to |entries|
      invariant backendErrors == FieldErrors(entries[..i])
    {
      assert entries[..i + 1][..i] == entries[..i];
      var (key, value) := entries[i];
      if value.Messages? {
        backendErrors := backendErrors[key := IndexZero(value)];
      } else {
        backendErrors := backendErrors[key := value.text];
      }
      assert backendErrors == FieldErrors(entries[..i])[entries[i].0 := FieldMessage(entries[i].1)];
    }
    assert entries[..|entries|] == entries;
  }
}
