/** The category dialog of `src/components/categories/CategoryFormDialog.jsx`:
    the name and type rules, the duplicate-name search that ignores case and
    is scoped to the category type, the submitted payload and the mapping of
    backend errors onto the form. */
module CategoryForm {
  import opened Text
  import opened Domain

  /** The dialog's `formData`. */
  datatype FormData = FormData(name: string, ctype: string)

  /** The object sent to the API. */
  datatype Payload = Payload(name: string, ctype: string)

  // ---------------------------------------------------------------------
  // Duplicate names
  // ---------------------------------------------------------------------

  /** The test `find` applies to each existing category: the same name once
      both are lower-cased (the input trimmed), the same type, and not the
      category being edited. Inactive categories are not skipped. */
  function ClashesWith(d: FormData, editing: Option<Category>): Category -> bool
  {
    (c: Category) =>
      ToLower(c.name) == ToLower(Trim(d.name)) && c.ctype == d.ctype &&
      (editing.None? || c.id != editing.value.id)
  }

  /** `existingCategories.find(...)`: the first clashing category. */
  function Duplicate(existing: seq<Category>, d: FormData, editing: Option<Category>): (r: Option<Category>)
  {
    Find(existing, ClashesWith(d, editing))
  }

  /** A duplicate is an existing category of the same type whose name
      matches ignoring case, other than the one being edited; there is none
      exactly when no such category exists. */
  lemma DuplicateSpec(existing: seq<Category>, d: FormData, editing: Option<Category>)
    ensures Duplicate(existing, d, editing).None? <==>
      forall i :: 0 <= i < |existing| ==>
        !(ToLower(existing[i].name) == ToLower(Trim(d.name)) && existing[i].ctype == d.ctype &&
          (editing.None? || existing[i].id != editing.value.id))
    ensures Duplicate(existing, d, editing).Some? ==>
      var c := Duplicate(existing, d, editing).value;
      c in existing && ToLower(c.name) == ToLower(Trim(d.name)) && c.ctype == d.ctype &&
      (editing.None? || c.id != editing.value.id)
  {
    var p := ClashesWith(d, editing);
    assert forall c :: p(c) <==>
      ToLower(c.name) == ToLower(Trim(d.name)) && c.ctype == d.ctype && (editing.None? || c.id != editing.value.id);
  }

  /** Only the lower-cased trimmed name and the type of the input matter:
      two inputs that agree on them find the same duplicate. */
  lemma DuplicateIgnoresCase(existing: seq<Category>, d1: FormData, d2: FormData, editing: Option<Category>)
    requires ToLower(Trim(d1.name)) == ToLower(Trim(d2.name)) && d1.ctype == d2.ctype
    ensures Duplicate(existing, d1, editing) == Duplicate(existing, d2, editing)
  {
    var p, q := ClashesWith(d1, editing), ClashesWith(d2, editing);
    assert forall c :: p(c) == q(c);
    assert FindIndex(existing, p) == FindIndex(existing, q);
  }

  /** The category being edited never counts as its own duplicate, and a
      category of the other type never clashes. */
  lemma DuplicateExcludes(existing: seq<Category>, d: FormData, editing: Option<Category>)
    ensures Duplicate(existing, d, editing).Some? ==> Duplicate(existing, d, editing).value.ctype == d.ctype
    ensures editing.Some? && Duplicate(existing, d, editing).Some? ==>
      Duplicate(existing, d, editing).value.id != editing.value.id
  {
    DuplicateSpec(existing, d, editing);
  }

  // ---------------------------------------------------------------------
  // Validation
  // ---------------------------------------------------------------------

  const NameRequired: string := "Category name is required"
  const NameShort: string := "Category name must be at least 2 characters"
  const NameLong: string := "Category name cannot exceed 50 characters"
  const InvalidType: string := "Invalid category type"

  /** The message naming the clashing category as it is stored. */
  function DuplicateMessage(ctype: string, existingName: string): string
  {
    "You already have a " + ctype + " category named \"" + existingName + "\""
  }

  /** The name rule: required after trimming, at least two characters
      trimmed, at most fifty as typed, and only then not a duplicate. */
  function NameError(d: FormData, existing: seq<Category>, editing: Option<Category>): (r: Option<string>)
  {
    var trimmed := Trim(d.name);
    if trimmed == "" then Some(NameRequired)
    else if |trimmed| < 2 then Some(NameShort)
    else if |d.name| > 50 then Some(NameLong)
    else
      match Duplicate(existing, d, editing)
      case Some(c) => Some(DuplicateMessage(d.ctype, c.name))
      case None => None
  }

  /** The name passes iff it has two to fifty characters around its
      trimmed core and no duplicate exists; the checks run in order, so a
      duplicate is reported only for a name that passes the length checks. */
  lemma NameErrorSpec(d: FormData, existing: seq<Category>, editing: Option<Category>)
    ensures NameError(d, existing, editing).None? <==>
      |Trim(d.name)| >= 2 && |d.name| <= 50 && Duplicate(existing, d, editing).None?
    ensures IsBlank(d.name) ==> NameError(d, existing, editing) == Some(NameRequired)
    ensures !IsBlank(d.name) && |Trim(d.name)| < 2 ==> NameError(d, existing, editing) == Some(NameShort)
    ensures |Trim(d.name)| >= 2 && |d.name| > 50 ==> NameError(d, existing, editing) == Some(NameLong)
    ensures |Trim(d.name)| >= 2 && |d.name| <= 50 && Duplicate(existing, d, editing).Some? ==>
      NameError(d, existing, editing) == Some(DuplicateMessage(d.ctype, Duplicate(existing, d, editing).value.name))
  {
  }

  /** The type rule: `income` or `expense`. */
  function TypeError(ctype: string): (r: Option<string>)
    ensures r.None? <==> ctype == "income" || ctype == "expense"
    ensures r.Some? ==> r.value == InvalidType
  {
    if ctype == "income" || ctype == "expense" then None else Some(InvalidType)
  }

  /** The errors `validateForm` returns. */
  function FormErrors(d: FormData, existing: seq<Category>, editing: Option<Category>): (r: Errors)
  {
    Put(Put(map[], "category_name", NameError(d, existing, editing)), "category_type", TypeError(d.ctype))
  }

  /** A form is valid iff its name passes the name rule and its type is
      `income` or `expense`. */
  lemma FormErrorsEmpty(d: FormData, existing: seq<Category>, editing: Option<Category>)
    ensures FormErrors(d, existing, editing) == map[] <==>
      NameError(d, existing, editing).None? && TypeError(d.ctype).None?
  {
    var e1 := Put(map[], "category_name", NameError(d, existing, editing));
    assert "category_name" in e1 ==> "category_name" in FormErrors(d, existing, editing);
  }

  // ---------------------------------------------------------------------
  // Submission
  // ---------------------------------------------------------------------

  /** `submitData`: the name trimmed, the type as chosen. */
  function SubmitData(d: FormData): (p: Payload)
    ensures p.name == Trim(d.name) && p.ctype == d.ctype
  {
    Payload(Trim(d.name), d.ctype)
  }

  /** What a valid form sends: a name of two to fifty characters with no
      white space at either end, a known type, and no other category of that
      type whose name matches it ignoring case. */
  lemma ValidPayload(d: FormData, existing: seq<Category>, editing: Option<Category>)
    requires FormErrors(d, existing, editing) == map[]
    ensures var p := SubmitData(d);
      2 <= |p.name| <= 50 && !IsSpace(p.name[0]) && !IsSpace(p.name[|p.name| - 1]) &&
      (p.ctype == "income" || p.ctype == "expense") &&
      forall c :: c in existing && c.ctype == p.ctype && ToLower(c.name) == ToLower(p.name) ==>
        editing.Some? && c.id == editing.value.id
  {
    FormErrorsEmpty(d, existing, editing);
    NameErrorSpec(d, existing, editing);
    DuplicateSpec(existing, d, editing);
    TrimEnds(d.name);
    forall c | c in existing && c.ctype == d.ctype && ToLower(c.name) == ToLower(Trim(d.name))
      ensures editing.Some? && c.id == editing.value.id
    {
      var i :| 0 <= i < |existing| && existing[i] == c;
    }
  }

  /** The `catch` branch of `handleSubmit`: a truthy `category_name` becomes
      the only field error (its first element), else a truthy `error`
      becomes the general message, else a generic one; no response gives
      the connection message. */
  function AfterBackendError(data: ErrorPayload, errors: Errors, general: string): (r: (Errors, string))
    ensures data.NoData? ==> r == (errors, ConnectionMessage)
    ensures data.NonObject? ==> r == (errors, RetryMessage)
    ensures data.Object? && HasTruthy(data.entries, "category_name") ==>
      r.0 == map["category_name" := IndexZero(Get(data.entries, "category_name").value)] && r.1 == general
    ensures data.Object? && !HasTruthy(data.entries, "category_name") ==> r.0 == errors
    ensures data.Object? && !HasTruthy(data.entries, "category_name") && HasTruthy(data.entries, "error") ==>
      r.1 == Shown(Get(data.entries, "error").value)
    ensures data.Object? && !HasTruthy(data.entries, "category_name") && !HasTruthy(data.entries, "error") ==>
      r.1 == RetryMessage
  {
    match data
    case Object(entries) =>
      if HasTruthy(entries, "category_name") then
        (map["category_name" := IndexZero(Get(entries, "category_name").value)], general)
      else if HasTruthy(entries, "error") then (errors, Shown(Get(entries, "error").value))
      else (errors, RetryMessage)
    case NonObject => (errors, RetryMessage)
    case NoData => (errors, ConnectionMessage)
  }

  /** `formData` after `{ ...prev, [name]: value }`. */
  function SetField(d: FormData, name: string, value: string): (r: FormData)
    ensures name == "category_name" ==> r == d.(name := value)
    ensures name == "category_type" ==> r == d.(ctype := value)
    ensures name != "category_name" && name != "category_type" ==> r == d
  {
    if name == "category_name" then d.(name := value)
    else if name == "category_type" then d.(ctype := value)
    else d
  }

  /** The suggestion chips offered for a new category of the given type
      (the chips are not shown when editing): none for another type, and
      each a name of two to fifty characters with no white space at
      either end. */
  function Suggestions(ctype: string): (r: seq<string>)
    ensures ctype != "income" && ctype != "expense" ==> r == []
    ensures ctype == "income" ==> |r| == 8
    ensures ctype == "expense" ==> |r| == 12
    ensures forall i :: 0 <= i < |r| ==> 2 <= |r[i]| <= 50 && !IsSpace(r[i][0]) && !IsSpace(r[i][|r[i]| - 1])
  {
    if ctype == "income" then
      ["Salary", "Freelance", "Benefits", "Investment Income", "Rental Income", "Pension", "Bonus", "Dividends"]
    else if ctype == "expense" then
      ["Rent/Mortgage", "Council Tax", "Groceries", "Transport", "Utilities", "Insurance",
       "Entertainment", "Eating Out", "Shopping", "Health & Fitness", "Subscriptions", "Petrol"]
    else []
  }

  /** A picked suggestion passes every length rule of the name, so the
      name is refused only when it duplicates an existing category. */
  lemma SuggestionNameRule(d: FormData, existing: seq<Category>, editing: Option<Category>, i: nat)
    requires i < |Suggestions(d.ctype)|
    ensures var e := d.(name := Suggestions(d.ctype)[i]);
      NameError(e, existing, editing).None? <==> Duplicate(existing, e, editing).None?
  {
    var x := Suggestions(d.ctype)[i];
    TrimUnpadded(x);
  }

  /** The name branch of `validateForm`, as the chain of checks it is. */
  method CheckName(d: FormData, existing: seq<Category>, editing: Option<Category>) returns (message: Option<string>)
    ensures message == NameError(d, existing, editing)
  {
    var trimmed := Trim(d.name);
    if trimmed == "" {
      message := Some(NameRequired);
    } else if |trimmed| < 2 {
      message := Some(NameShort);
    } else if |d.name| > 50 {
      message := Some(NameLong);
    } else {
      var duplicate := Find(existing, ClashesWith(d, editing));
      if duplicate.Some? {
        message := Some(DuplicateMessage(d.ctype, duplicate.value.name));
      } else {
        message := None;
      }
    }
  }

  class CategoryFormDialog {
    var formData: FormData
    var errors: Errors
    var generalError: string

    /** A dialog opened to create a category: an empty expense. */
    constructor ()
      ensures formData == FormData("", "expense") && errors == map[] && generalError == ""
    {
      formData := FormData("", "expense");
      errors := map[];
      generalError := "";
    }

    /** The effect run when the dialog opens: the form is filled from the
        category being edited (an empty name stays empty, an empty type
        becomes `expense`) or reset; the errors are cleared. */
    method Open(category: Option<Category>)
      modifies this
      ensures category.None? ==> formData == FormData("", "expense")
      ensures category.Some? ==> formData.name == category.value.name
      ensures category.Some? && category.value.ctype != "" ==> formData.ctype == category.value.ctype
      ensures category.Some? && category.value.ctype == "" ==> formData.ctype == "expense"
      ensures errors == map[] && generalError == ""
    {
      if category.Some? {
        var c := category.value;
        formData := FormData(c.name, if c.ctype != "" then c.ctype else "expense");
      } else {
        formData := FormData("", "expense");
      }
      errors := map[];
      generalError := "";
    }

    /** `handleChange`: the field takes the typed value and its truthy error
        is blanked. */
    method HandleChange(name: string, value: string)
      modifies this
      ensures formData == SetField(old(formData), name, value)
      ensures errors == ClearFieldError(old(errors), name)
      ensures generalError == old(generalError)
    {
      formData := SetField(formData, name, value);
      if name in errors && errors[name] != "" {
        errors := errors[name := ""];
      }
    }

    /** A suggestion chip's `onClick`: the name becomes the suggestion; the
        errors are left as they are. */
    method PickSuggestion(suggestion: string)
      modifies this
      ensures formData == old(formData).(name := suggestion)
      ensures errors == old(errors) && generalError == old(generalError)
    {
      formData := formData.(name := suggestion);
    }

    /** `validateForm`: the name rule, then the type rule. */
    method ValidateForm(existing: seq<Category>, editing: Option<Category>) returns (newErrors: Errors)
      ensures newErrors == FormErrors(formData, existing, editing)
    {
      var nameMessage := CheckName(formData, existing, editing);
      newErrors := map[];
      if nameMessage.Some? {
        newErrors := newErrors["category_name" := nameMessage.value];
      }
      if formData.ctype != "income" && formData.ctype != "expense" {
        newErrors := newErrors["category_type" := InvalidType];
      }
    }

    /** `handleSubmit`: an invalid form only shows its errors; a valid one
        sends `SubmitData` and, when the call fails, shows what the backend
        said. */
    method HandleSubmit(existing: seq<Category>, editing: Option<Category>, outcome: Outcome)
      returns (sent: Option<Payload>, closed: bool)
      modifies this
      ensures formData == old(formData)
      ensures sent.Some? <==> FormErrors(old(formData), existing, editing) == map[]
      ensures sent.None? ==>
        errors == FormErrors(old(formData), existing, editing) && generalError == old(generalError) && !closed
      ensures sent.Some? ==> sent.value == SubmitData(formData) && (closed <==> outcome.Succeeded?)
      ensures sent.Some? && outcome.Succeeded? ==> errors == old(errors) && generalError == ""
      ensures sent.Some? && outcome.Failed? ==> (errors, generalError) == AfterBackendError(outcome.data, old(errors), "")
    {
      var validationErrors := ValidateForm(existing, editing);
      if validationErrors != map[] {
        errors := validationErrors;
        return None, false;
      }
      generalError := "";
      sent := Some(SubmitData(formData));
      closed := outcome.Succeeded?;
      if outcome.Failed? {
        ShowBackendError(outcome.data);
      }
    }

    /** The `catch` branch of `handleSubmit`. */
    method ShowBackendError(data: ErrorPayload)
      modifies this
      ensures formData == old(formData)
      ensures (errors, generalError) == AfterBackendError(data, old(errors), old(generalError))
    {
      match data
      case Object(entries) =>
        var name := Get(entries, "category_name");
        var error := Get(entries, "error");
        if name.Some? && Truthy(name.value) {
          errors := map["category_name" := IndexZero(name.value)];
        } else if error.Some? && Truthy(error.value) {
          generalError := Shown(error.value);
        } else {
          generalError := RetryMessage;
        }
      case NonObject =>
        generalError := RetryMessage;
      case NoData =>
        generalError := ConnectionMessage;
    }
  }
}
