/** The records the pages and dialogs receive from the API, the shapes of the
    error responses the forms turn into messages, the error dictionaries the
    forms keep, and the list operations (`find`, `filter`) they are built
    from. */
module Domain {
  import opened Text

  // ---------------------------------------------------------------------
  // JSON values
  // ---------------------------------------------------------------------

  /** A money or count field as the client receives it: absent (`null` or
      `undefined`), a JSON number, or a numeric string. */
  datatype Amount = Absent | Num(value: real) | Str(text: string)

  /** `parseFloat(a)`: a number is itself, a string is read as a decimal
      prefix, and an absent value is `NaN` (here `None`). */
  function ParseAmount(a: Amount): (r: Option<real>)
    ensures a.Absent? ==> r.None?
    ensures a.Num? ==> r == Some(a.value)
  {
    match a
    case Absent => None
    case Num(v) => Some(v)
    case Str(s) => ParseFloat(s)
  }

  /** `a || 0`: the falsy values (absent, the number 0, the empty string)
      become the number 0. */
  function OrZero(a: Amount): (r: Amount)
    ensures r.Absent? == false
    ensures (a.Absent? || a == Num(0.0) || a == Str("")) <==> r == Num(0.0)
    ensures r != Num(0.0) ==> r == a
  {
    if a.Absent? || a == Num(0.0) || a == Str("") then Num(0.0) else a
  }

  /** `parseFloat(a || 0)`: a missing value counts as 0. */
  function AmountOrZero(a: Amount): (r: Option<real>)
    ensures a.Absent? ==> r == Some(0.0)
    ensures a.Num? ==> r == Some(a.value)
  {
    ParseAmount(OrZero(a))
  }

  /** `a || ''` where a stored amount fills a text field: the falsy amounts
      (absent, the number 0, the empty string) give `''`, a string is kept,
      and any other number gives `shown`, the text its `toString()` gives. */
  function AmountText(a: Amount, shown: string): (r: string)
    ensures a.Absent? || a == Num(0.0) || a == Str("") ==> r == ""
    ensures a.Str? ==> r == a.text
    ensures a.Num? && a.value != 0.0 ==> r == shown
  {
    match a
    case Absent => ""
    case Num(v) => if v == 0.0 then "" else shown
    case Str(t) => t
  }

  /** `a === 0`: only the number 0 is strictly equal to 0; a numeric string
      such as `"0.00"` is not. */
  predicate IsNumberZero(a: Amount)
  {
    a == Num(0.0)
  }

  /** `n || 0` for an optional count. */
  function CountOrZero(n: Option<int>): int
  {
    match n
    case None => 0
    case Some(k) => k
  }

  /** `n > 0` for an optional count: `undefined > 0` is false. */
  predicate CountPositive(n: Option<int>)
  {
    n.Some? && n.value > 0
  }

  // ---------------------------------------------------------------------
  // Entities
  // ---------------------------------------------------------------------

  /** A category. Identifiers are positive, so an identifier is never
      falsy; an empty selection is `None`. */
  datatype Category = Category(
    id: int, name: string, ctype: string,
    isDefault: bool, isActive: bool, transactionCount: Option<int>)

  datatype Account = Account(
    id: int, name: string, accountType: string,
    isActive: bool, balance: Amount, transactionCount: Option<int>)

  /** A budget as listed by the API; dates are `YYYY-MM-DD` strings. */
  datatype Budget = Budget(
    id: int, name: string, category: int, isActive: bool,
    startDate: string, endDate: string)

  /** A loaded transaction, with the fields the CSV export reads. */
  datatype Transaction = Transaction(
    id: int, date: string, description: string, categoryName: string,
    accountName: string, ttype: string, amount: string)

  /** A list response: paginated (`results` and an optional `count`), a
      bare array, or anything else. */
  datatype Response<T> = Paginated(results: seq<T>, count: Option<int>) | Bare(items: seq<T>) | Other

  /** The items of a list response: `results` when present, the array
      itself, and nothing for anything else. */
  function Listed<T>(response: Response<T>): (r: seq<T>)
    ensures response.Paginated? ==> r == response.results
    ensures response.Bare? ==> r == response.items
    ensures response.Other? ==> r == []
  {
    match response
    case Paginated(results, _) => results
    case Bare(items) => items
    case Other => []
  }

  /** The status filter of the list pages: `active` keeps active records,
      `inactive` keeps inactive ones, any other value (`all`) keeps both. */
  predicate StatusAccepts(filterStatus: string, isActive: bool)
  {
    !(filterStatus == "active" && !isActive) && !(filterStatus == "inactive" && isActive)
  }

  // ---------------------------------------------------------------------
  // Backend error payloads
  // ---------------------------------------------------------------------

  /** A value in an error payload: an array of messages or one message. */
  datatype ErrValue = Messages(items: seq<string>) | Message(text: string)

  /** `err.response?.data`: missing or falsy, something that is not an
      object (a string body), or an object with its keys in order. */
  datatype ErrorPayload = NoData | NonObject | Object(entries: seq<(string, ErrValue)>)

  /** The keys of a JSON object are distinct. */
  predicate DistinctKeys(entries: seq<(string, ErrValue)>)
  {
    forall i, j :: 0 <= i < j < |entries| ==> entries[i].0 != entries[j].0
  }

  /** `data[key]`: the value stored under `key`, if any. */
  function Get(entries: seq<(string, ErrValue)>, key: string): (r: Option<ErrValue>)
    ensures r.Some? <==> exists i :: 0 <= i < |entries| && entries[i].0 == key
    ensures r.Some? ==> exists i :: 0 <= i < |entries| && entries[i] == (key, r.value)
  {
    if entries == [] then None
    else if entries[0].0 == key then Some(entries[0].1)
    else
      var r := Get(entries[1..], key);
      assert forall i :: 1 <= i < |entries| ==> entries[i] == entries[1..][i - 1];
      r
  }

  /** JavaScript truthiness of a payload value: every array is truthy, a
      string only when non-empty. */
  predicate Truthy(v: ErrValue)
  {
    v.Messages? || v.text != ""
  }

  /** `data[key]` is present and truthy. */
  predicate HasTruthy(entries: seq<(string, ErrValue)>, key: string)
  {
    Get(entries, key).Some? && Truthy(Get(entries, key).value)
  }

  /** `v[0]`: the first message of an array (`undefined`, shown as nothing,
      for an empty one), or the first character of a string. */
  function IndexZero(v: ErrValue): (r: string)
    ensures v.Messages? && v.items != [] ==> r == v.items[0]
    ensures v.Message? ==> r == v.text[..if v.text == [] then 0 else 1]
  {
    match v
    case Messages(items) => if items == [] then "" else items[0]
    case Message(t) => if t == [] then "" else t[..1]
  }

  /** `Array.isArray(v) ? v[0] : v`. */
  function FieldMessage(v: ErrValue): (r: string)
    ensures v.Message? ==> r == v.text
    ensures v.Messages? ==> r == IndexZero(v)
  {
    match v
    case Messages(_) => IndexZero(v)
    case Message(t) => t
  }

  /** A payload value shown as a general error: React renders the strings
      of an array next to each other. */
  function Shown(v: ErrValue): (r: string)
    ensures v.Message? ==> r == v.text
  {
    match v
    case Messages(items) => Join(items, "")
    case Message(t) => t
  }

  /** What an API call did: succeeded, or failed with an error payload. */
  datatype Outcome = Succeeded | Failed(data: ErrorPayload)

  /** `err.response?.data?.error || fallback`. */
  function ErrorOr(data: ErrorPayload, fallback: string): (r: string)
    ensures data.Object? && HasTruthy(data.entries, "error") ==> r == Shown(Get(data.entries, "error").value)
    ensures !(data.Object? && HasTruthy(data.entries, "error")) ==> r == fallback
  {
    if data.Object? && HasTruthy(data.entries, "error") then Shown(Get(data.entries, "error").value) else fallback
  }

  const ConnectionMessage: string := "An error occurred. Please check your connection."
  const RetryMessage: string := "An error occurred. Please try again."

  /** `s || fallback` for a string field. */
  function Or(s: string, fallback: string): (r: string)
    ensures s != "" ==> r == s
    ensures s == "" ==> r == fallback
  {
    if s == "" then fallback else s
  }

  /** What an authentication call of the session context resolves to:
      `{ success: true, message }`, `{ success: false, error }` (a missing
      `message` or `error` is `""`), or a rejected promise. */
  datatype Reply = Accepted(message: string) | Refused(error: string) | Threw

  // ---------------------------------------------------------------------
  // Error dictionaries
  // ---------------------------------------------------------------------

  /** A form's `errors` object: field name to message. */
  type Errors = map<string, string>

  /** `if (errors[name]) setErrors(prev => ({ ...prev, [name]: '' }))`:
      a field's truthy error is blanked when the field is edited. */
  function ClearFieldError(errors: Errors, name: string): (r: Errors)
    ensures r.Keys == errors.Keys
    ensures forall k :: k in errors && k != name ==> r[k] == errors[k]
    ensures name in r ==> r[name] == ""
  {
    if name in errors && errors[name] != "" then errors[name := ""] else errors
  }

  /** An error message set when a check fails, left out when it passes. */
  function Put(errors: Errors, key: string, message: Option<string>): (r: Errors)
    ensures r.Keys == if message.Some? then errors.Keys + {key} else errors.Keys
    ensures message.Some? ==> r[key] == message.value
    ensures forall k :: k in errors && k != key ==> r[k] == errors[k]
  {
    if message.Some? then errors[key := message.value] else errors
  }

  /** The field errors a `forEach` over a payload's keys collects, each
      key taking the value `FieldMessage` gives. */
  function FieldErrors(entries: seq<(string, ErrValue)>): (r: Errors)
  {
    if entries == [] then map[]
    else
      var last := entries[|entries| - 1];
      FieldErrors(entries[..|entries| - 1])[last.0 := FieldMessage(last.1)]
  }

  /** The collected dictionary has exactly the payload's keys, each with the
      message of its own value. */
  lemma {:induction false} FieldErrorsSpec(entries: seq<(string, ErrValue)>)
    requires DistinctKeys(entries)
    ensures forall k :: k in FieldErrors(entries) <==> exists i :: 0 <= i < |entries| && entries[i].0 == k
    ensures forall i :: 0 <= i < |entries| ==> FieldErrors(entries)[entries[i].0] == FieldMessage(entries[i].1)
  {
    if entries != [] {
      var n := |entries| - 1;
      var init := entries[..n];
      assert DistinctKeys(init);
      FieldErrorsSpec(init);
      forall k
        ensures k in FieldErrors(entries) <==> exists i :: 0 <= i < |entries| && entries[i].0 == k
      {
        if k in FieldErrors(entries) && k != entries[n].0 {
          var i :| 0 <= i < |init| && init[i].0 == k;
          assert entries[i].0 == k;
        }
        if exists i :: 0 <= i < |entries| && entries[i].0 == k {
          var i :| 0 <= i < |entries| && entries[i].0 == k;
          if i < n {
            assert init[i].0 == k;
          }
        }
      }
      forall i | 0 <= i < |entries|
        ensures FieldErrors(entries)[entries[i].0] == FieldMessage(entries[i].1)
      {
        if i < n {
          assert init[i] == entries[i];
          assert entries[i].0 != entries[n].0;
        }
      }
    }
  }

  // ---------------------------------------------------------------------
  // Array.prototype.find and filter
  // ---------------------------------------------------------------------

  /** `xs.findIndex(p)`, with `|xs|` for "not found". */
  function FindIndex<T>(xs: seq<T>, p: T -> bool): (k: nat)
    ensures k <= |xs|
    ensures forall j :: 0 <= j < k ==> !p(xs[j])
    ensures k < |xs| ==> p(xs[k])
  {
    if xs == [] then 0
    else if p(xs[0]) then 0
    else
      var k := FindIndex(xs[1..], p);
      assert forall j :: 1 <= j < k + 1 ==> xs[j] == xs[1..][j - 1];
      k + 1
  }

  /** `xs.find(p)`: the first element satisfying `p`. */
  function Find<T>(xs: seq<T>, p: T -> bool): (r: Option<T>)
    ensures r.None? <==> forall i :: 0 <= i < |xs| ==> !p(xs[i])
    ensures r.Some? ==> exists i :: 0 <= i < |xs| && xs[i] == r.value && p(xs[i]) &&
                          forall j :: 0 <= j < i ==> !p(xs[j])
  {
    var k := FindIndex(xs, p);
    if k < |xs| then Some(xs[k]) else None
  }

  /** `xs.filter(p)`. */
  function Filter<T(==,!new)>(xs: seq<T>, p: T -> bool): (r: seq<T>)
    ensures |r| <= |xs|
    ensures forall x :: x in r <==> x in xs && p(x)
  {
    if xs == [] then []
    else
      var rest := Filter(xs[1..], p);
      assert forall x :: x in xs <==> x == xs[0] || x in xs[1..];
      if p(xs[0]) then [xs[0]] + rest else rest
  }

  /** Filtering keeps order: it distributes over concatenation. */
  lemma {:induction false} FilterAppend<T(!new)>(a: seq<T>, b: seq<T>, p: T -> bool)
    ensures Filter(a + b, p) == Filter(a, p) + Filter(b, p)
  {
    if a == [] {
      assert a + b == b;
    } else {
      assert (a + b)[0] == a[0];
      assert (a + b)[1..] == a[1..] + b;
      FilterAppend(a[1..], b, p);
    }
  }

  /** Filtering with a predicate every element satisfies changes nothing. */
  lemma {:induction false} FilterAll<T(!new)>(xs: seq<T>, p: T -> bool)
    requires forall i :: 0 <= i < |xs| ==> p(xs[i])
    ensures Filter(xs, p) == xs
  {
    if xs != [] {
      assert forall i :: 0 <= i < |xs[1..]| ==> p(xs[1..][i]) by {
        forall i | 0 <= i < |xs[1..]| ensures p(xs[1..][i]) {
          assert xs[1..][i] == xs[i + 1];
        }
      }
      FilterAll(xs[1..], p);
    }
  }

  /** Filtering with a predicate no element satisfies leaves nothing. */
  lemma {:induction false} FilterNone<T(!new)>(xs: seq<T>, p: T -> bool)
    requires forall i :: 0 <= i < |xs| ==> !p(xs[i])
    ensures Filter(xs, p) == []
  {
    if xs != [] {
      assert forall i :: 0 <= i < |xs[1..]| ==> !p(xs[1..][i]) by {
        forall i | 0 <= i < |xs[1..]| ensures !p(xs[1..][i]) {
          assert xs[1..][i] == xs[i + 1];
        }
      }
      FilterNone(xs[1..], p);
    }
  }
}
