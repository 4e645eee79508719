/** The transactions page of `src/pages/Transactions.jsx`: the selection
    toggle, the filter state and the query parameters built from it, the
    normalisation of the list response, the CSV export text, bulk
    categorisation and the expanded mobile cards. */
module TransactionsPage {
  import opened Text
  import opened Calendar
  import opened Domain
  import opened Formatters

  // ---------------------------------------------------------------------
  // Selection
  // ---------------------------------------------------------------------

  /** No identifier occurs twice. */
  predicate Distinct(xs: seq<int>)
  {
    forall i, j :: 0 <= i < j < |xs| ==> xs[i] != xs[j]
  }

  /** The test `id => id !== transactionId`. */
  function Except(id: int): int -> bool
  {
    (x: int) => x != id
  }

  /** `handleSelectTransaction`: a selected id is removed, any other is
      appended. */
  function Toggle(selected: seq<int>, id: int): (r: seq<int>)
    ensures id in r <==> id !in selected
    ensures forall x :: x != id ==> (x in r <==> x in selected)
  {
    if id in selected then Filter(selected, Except(id)) else selected + [id]
  }

  /** Filtering twice with the same test filters once. */
  lemma {:induction false} FilterTwice(xs: seq<int>, p: int -> bool)
    ensures Filter(Filter(xs, p), p) == Filter(xs, p)
  {
    if xs != [] {
      FilterTwice(xs[1..], p);
      if p(xs[0]) {
        assert Filter(xs, p) == [xs[0]] + Filter(xs[1..], p);
        assert (Filter(xs, p))[1..] == Filter(xs[1..], p);
      }
    }
  }

  /** Filtering keeps a list free of repeats. */
  lemma {:induction false} FilterDistinct(xs: seq<int>, p: int -> bool)
    requires Distinct(xs)
    ensures Distinct(Filter(xs, p))
  {
    if xs != [] {
      assert Distinct(xs[1..]) by {
        forall i, j | 0 <= i < j < |xs[1..]| ensures xs[1..][i] != xs[1..][j] {
          assert xs[1..][i] == xs[i + 1] && xs[1..][j] == xs[j + 1];
        }
      }
      FilterDistinct(xs[1..], p);
      var rest := Filter(xs[1..], p);
      if p(xs[0]) {
        assert xs[0] !in xs[1..] by {
          forall k | 0 <= k < |xs[1..]| ensures xs[1..][k] != xs[0] {
            assert xs[1..][k] == xs[k + 1];
          }
        }
        assert xs[0] !in rest;
        var r := [xs[0]] + rest;
        forall i, j | 0 <= i < j < |r| ensures r[i] != r[j] {
          if i == 0 {
            assert r[j] == rest[j - 1];
          } else {
            assert r[i] == rest[i - 1] && r[j] == rest[j - 1];
          }
        }
      }
    }
  }

  /** The ids other than the toggled one keep their relative order. */
  lemma ToggleKeepsOthers(selected: seq<int>, id: int)
    ensures Filter(Toggle(selected, id), Except(id)) == Filter(selected, Except(id))
  {
    if id in selected {
      FilterTwice(selected, Except(id));
    } else {
      FilterAppend(selected, [id], Except(id));
      assert Filter([id], Except(id)) == [];
    }
  }

  /** A selection without repeats stays without repeats. */
  lemma ToggleDistinct(selected: seq<int>, id: int)
    requires Distinct(selected)
    ensures Distinct(Toggle(selected, id))
  {
    if id in selected {
      FilterDistinct(selected, Except(id));
    }
  }

  /** Toggling twice selects the same ids as before; when the id was not
      selected the list itself comes back unchanged. */
  lemma ToggleTwice(selected: seq<int>, id: int)
    ensures forall x :: x in Toggle(Toggle(selected, id), id) <==> x in selected
    ensures id !in selected ==> Toggle(Toggle(selected, id), id) == selected
  {
    if id !in selected {
      FilterAppend(selected, [id], Except(id));
      assert Filter([id], Except(id)) == [];
      FilterAll(selected, Except(id));
    }
  }

  // ---------------------------------------------------------------------
  // Filters and query parameters
  // ---------------------------------------------------------------------

  /** The page's `filters` object; every value is a string, `''` meaning
      "no filter". */
  datatype Filters = Filters(
    bankAccount: string, category: string, ttype: string, dateFrom: string,
    dateTo: string, minAmount: string, isRecurring: string, search: string)

  /** The keys of `filters`, in declaration order. */
  const FilterKeys: seq<string> :=
    ["bank_account", "category", "type", "date_from", "date_to", "min_amount", "is_recurring", "search"]

  /** `Object.keys(filters)` paired with the values. */
  function Entries(f: Filters): (r: seq<(string, string)>)
    ensures |r| == |FilterKeys|
    ensures forall i :: 0 <= i < |r| ==> r[i].0 == FilterKeys[i]
  {
    [("bank_account", f.bankAccount), ("category", f.category), ("type", f.ttype),
     ("date_from", f.dateFrom), ("date_to", f.dateTo), ("min_amount", f.minAmount),
     ("is_recurring", f.isRecurring), ("search", f.search)]
  }

  /** The filters the page starts with and returns to when cleared: only
      `date_from` is set. */
  function DefaultFilters(dateFrom: string): (f: Filters)
    ensures forall i :: 0 <= i < |Entries(f)| ==> (Entries(f)[i].1 == "" <==> FilterKeys[i] != "date_from" || dateFrom == "")
    ensures f.dateFrom == dateFrom && Entries(f)[3] == ("date_from", dateFrom)
  {
    Filters("", "", "", dateFrom, "", "", "", "")
  }

  /** `{ ...prev, [field]: value }` for one of the filter keys. */
  function SetFilter(f: Filters, field: string, value: string): Filters
  {
    match field
    case "bank_account" => f.(bankAccount := value)
    case "category" => f.(category := value)
    case "type" => f.(ttype := value)
    case "date_from" => f.(dateFrom := value)
    case "date_to" => f.(dateTo := value)
    case "min_amount" => f.(minAmount := value)
    case "is_recurring" => f.(isRecurring := value)
    case "search" => f.(search := value)
    case _ => f
  }

  /** Changing a filter changes exactly the value under its key. */
  lemma SetFilterEntries(f: Filters, i: nat, value: string)
    requires i < |FilterKeys|
    ensures Entries(SetFilter(f, FilterKeys[i], value)) == Entries(f)[i := (FilterKeys[i], value)]
  {
  }

  /** A query parameter: a number or a string. */
  datatype ParamValue = Number(n: int) | Text(s: string)

  type Params = map<string, ParamValue>

  /** `params` before the filters are added: the page, 1-based, and its size. */
  function BaseParams(page: nat, pageSize: int): Params
  {
    map["page" := Number(page + 1), "page_size" := Number(pageSize)]
  }

  /** One step of the `forEach`: a non-empty value is copied under its key. */
  function WithFilter(params: Params, entry: (string, string)): Params
  {
    if entry.1 != "" then params[entry.0 := Text(entry.1)] else params
  }

  /** The parameters after the `forEach` has visited `entries` in order. */
  function ParamsOf(base: Params, entries: seq<(string, string)>): Params
  {
    if entries == [] then base
    else WithFilter(ParamsOf(base, entries[..|entries| - 1]), entries[|entries| - 1])
  }

  /** The filter keys are distinct. */
  predicate DistinctKeys(entries: seq<(string, string)>)
  {
    forall i, j :: 0 <= i < j < |entries| ==> entries[i].0 != entries[j].0
  }

  /** A key is sent iff it is a base parameter or a filter key whose value
      is not empty. */
  lemma {:induction false} ParamsOfKeys(base: Params, entries: seq<(string, string)>)
    ensures forall k :: k in ParamsOf(base, entries) <==>
      k in base || exists i :: 0 <= i < |entries| && entries[i].0 == k && entries[i].1 != ""
  {
    if entries != [] {
      var n := |entries| - 1;
      var init := entries[..n];
      ParamsOfKeys(base, init);
      forall k ensures k in ParamsOf(base, entries) <==> k in base || exists i :: 0 <= i < |entries| && entries[i].0 == k && entries[i].1 != "" {
        if k in ParamsOf(base, entries) && k !in base && !(k == entries[n].0 && entries[n].1 != "") {
          var i :| 0 <= i < |init| && init[i].0 == k && init[i].1 != "";
          assert entries[i] == init[i];
        }
        if exists i :: 0 <= i < |entries| && entries[i].0 == k && entries[i].1 != "" {
          var i :| 0 <= i < |entries| && entries[i].0 == k && entries[i].1 != "";
          if i < n {
            assert init[i] == entries[i];
          }
        }
      }
    }
  }

  /** Each sent filter carries its own value. */
  lemma {:induction false} ParamsOfValues(base: Params, entries: seq<(string, string)>)
    requires DistinctKeys(entries)
    ensures forall i :: 0 <= i < |entries| && entries[i].1 != "" ==>
      entries[i].0 in ParamsOf(base, entries) && ParamsOf(base, entries)[entries[i].0] == Text(entries[i].1)
  {
    if entries != [] {
      var n := |entries| - 1;
      var init := entries[..n];
      assert DistinctKeys(init);
      ParamsOfValues(base, init);
      forall i | 0 <= i < |entries| && entries[i].1 != ""
        ensures entries[i].0 in ParamsOf(base, entries) && ParamsOf(base, entries)[entries[i].0] == Text(entries[i].1)
      {
        if i < n {
          assert init[i] == entries[i];
        }
      }
    }
  }

  /** A base parameter that no filter names keeps its value. */
  lemma {:induction false} ParamsOfBase(base: Params, entries: seq<(string, string)>, k: string)
    requires k in base && forall i :: 0 <= i < |entries| ==> entries[i].0 != k
    ensures k in ParamsOf(base, entries) && ParamsOf(base, entries)[k] == base[k]
  {
    if entries != [] {
      var n := |entries| - 1;
      assert forall i :: 0 <= i < n ==> entries[..n][i] == entries[i];
      ParamsOfBase(base, entries[..n], k);
      assert entries[n].0 != k;
    }
  }

  /** The query of `fetchTransactions`: `page` is one more than the
      0-based page, `page_size` the page size, and each filter key is sent
      iff its value is not empty, with that value. */
  lemma QueryParams(page: nat, pageSize: int, f: Filters)
    ensures "page" in ParamsOf(BaseParams(page, pageSize), Entries(f)) &&
      ParamsOf(BaseParams(page, pageSize), Entries(f))["page"] == Number(page + 1)
    ensures "page_size" in ParamsOf(BaseParams(page, pageSize), Entries(f)) &&
      ParamsOf(BaseParams(page, pageSize), Entries(f))["page_size"] == Number(pageSize)
    ensures forall i :: 0 <= i < |FilterKeys| ==>
      (FilterKeys[i] in ParamsOf(BaseParams(page, pageSize), Entries(f)) <==> Entries(f)[i].1 != "")
    ensures forall i :: 0 <= i < |FilterKeys| && Entries(f)[i].1 != "" ==>
      ParamsOf(BaseParams(page, pageSize), Entries(f))[FilterKeys[i]] == Text(Entries(f)[i].1)
  {
    var e := Entries(f);
    var base := BaseParams(page, pageSize);
    assert DistinctKeys(e);
    ParamsOfKeys(base, e);
    ParamsOfValues(base, e);
    ParamsOfBase(base, e, "page");
    ParamsOfBase(base, e, "page_size");
    forall i | 0 <= i < |e| ensures (e[i].0 in ParamsOf(base, e) <==> e[i].1 != "") {
      if e[i].0 in ParamsOf(base, e) {
        var j :| 0 <= j < |e| && e[j].0 == e[i].0 && e[j].1 != "";
        assert j == i;
      }
    }
  }

  /** The parameter-building loop of `fetchTransactions`. */
  method BuildParams(page: nat, pageSize: int, filters: Filters) returns (params: Params)
    ensures params == ParamsOf(BaseParams(page, pageSize), Entries(filters))
  {
    var entries := Entries(filters);
    params := BaseParams(page, pageSize);
    for i := 0 to |entries|
      invariant params == ParamsOf(BaseParams(page, pageSize), entries[..i])
    {
      assert entries[..i + 1][..i] == entries[..i];
      if entries[i].1 != "" {
        params := params[entries[i].0 := Text(entries[i].1)];
      }
    }
    assert entries[..|entries|] == entries;
  }

  // ---------------------------------------------------------------------
  // Response normalisation and page count
  // ---------------------------------------------------------------------

  /** The transactions shown and the total count after a response: a
      paginated response gives its `results` and its `count` (0 when
      missing), a bare array itself and its length, anything else nothing. */
  function Normalise(response: Response<Transaction>): (r: (seq<Transaction>, int))
    ensures r.0 == Listed(response)
    ensures response.Paginated? ==> r.1 == CountOrZero(response.count)
    ensures response.Bare? ==> r.1 == |r.0|
    ensures response.Other? ==> r.1 == 0
  {
    match response
    case Paginated(results, count) => (results, CountOrZero(count))
    case Bare(items) => (items, |items|)
    case Other => ([], 0)
  }

  /** `Math.ceil(totalCount / pageSize)`: the fewest pages that hold every
      transaction. */
  function PageCount(totalCount: nat, pageSize: nat): (r: nat)
    requires pageSize > 0
    ensures totalCount <= r * pageSize
    ensures r > 0 ==> (r - 1) * pageSize < totalCount
  {
    var r := (totalCount + pageSize - 1) / pageSize;
    CeilingDivision(totalCount, pageSize);
    r
  }

  /** `q = (t + s - 1) / s` is the least `q` with `t <= q * s`. */
  lemma CeilingDivision(t: nat, s: nat)
    requires s > 0
    ensures t <= ((t + s - 1) / s) * s
    ensures (t + s - 1) / s > 0 ==> ((t + s - 1) / s - 1) * s < t
  {
    var r := (t + s - 1) / s;
    var m := (t + s - 1) % s;
    assert t + s - 1 == r * s + m && 0 <= m < s;
    assert (r - 1) * s == r * s - s;
  }

  // ---------------------------------------------------------------------
  // CSV export
  // ---------------------------------------------------------------------

  const CsvHeader: seq<string> := ["Date", "Description", "Category", "Account", "Type", "Amount"]

  /** No header field, and so not the header line, holds a newline. */
  lemma HeaderNoNewline()
    ensures '\n' !in Join(CsvHeader, ",")
  {
    assert '\n' !in CsvHeader[0] && '\n' !in CsvHeader[1] && '\n' !in CsvHeader[2];
    assert '\n' !in CsvHeader[3] && '\n' !in CsvHeader[4] && '\n' !in CsvHeader[5];
    NoNewlineInJoin(CsvHeader, ",");
  }

  /** The fields of one transaction's row; `formatDate` is the locale
      date formatter the page uses. */
  function CsvRow(t: Transaction, formatDate: string -> string): seq<string>
  {
    [formatDate(t.date), t.description, t.categoryName, t.accountName, t.ttype, t.amount]
  }

  /** The rows, each joined by commas, in the order of the loaded list. */
  function RowLines(ts: seq<Transaction>, formatDate: string -> string): (r: seq<string>)
    ensures |r| == |ts|
    ensures forall i :: 0 <= i < |ts| ==> r[i] == Join(CsvRow(ts[i], formatDate), ",")
  {
    if ts == [] then [] else [Join(CsvRow(ts[0], formatDate), ",")] + RowLines(ts[1..], formatDate)
  }

  /** The exported text: the header and the rows, joined by newlines,
      without quoting. */
  function Csv(ts: seq<Transaction>, formatDate: string -> string): string
  {
    Lines(Join(CsvHeader, ","), RowLines(ts, formatDate))
  }

  /** A header line and the row lines, joined by newlines. */
  function Lines(header: string, rows: seq<string>): string
  {
    Join([header] + rows, "\n")
  }

  /** `s.split(c)`: the pieces between occurrences of `c`. */
  function Split(s: string, c: char): (r: seq<string>)
    ensures |r| >= 1
  {
    if s == [] then [""]
    else if s[0] == c then [""] + Split(s[1..], c)
    else
      var rest := Split(s[1..], c);
      [[s[0]] + rest[0]] + rest[1..]
  }

  /** A piece without `c` in front of the rest joins the first piece of the rest. */
  lemma {:induction false} SplitPrefix(p: string, tail: string, c: char)
    requires c !in p
    ensures Split(p + tail, c) == [p + Split(tail, c)[0]] + Split(tail, c)[1..]
  {
    if p != [] {
      var s := p + tail;
      assert s[0] == p[0] != c && s[1..] == p[1..] + tail;
      assert c !in p[1..];
      SplitPrefix(p[1..], tail, c);
      var rest := Split(s[1..], c);
      assert Split(s, c) == [[p[0]] + rest[0]] + rest[1..];
      assert [p[0]] + (p[1..] + Split(tail, c)[0]) == p + Split(tail, c)[0];
    } else {
      var r := Split(tail, c);
      assert p + tail == tail && p + r[0] == r[0];
      assert r == [r[0]] + r[1..];
    }
  }

  /** Splitting a join on a separator that no part contains gives the parts back. */
  lemma {:induction false} SplitJoin(parts: seq<string>, c: char)
    requires |parts| >= 1
    requires forall i :: 0 <= i < |parts| ==> c !in parts[i]
    ensures Split(Join(parts, [c]), c) == parts
  {
    if |parts| == 1 {
      SplitPrefix(parts[0], [], c);
      assert parts[0] + [] == parts[0];
    } else {
      var rest := Join(parts[1..], [c]);
      SplitJoin(parts[1..], c);
      assert Join(parts, [c]) == parts[0] + ([c] + rest);
      SplitPrefix(parts[0], [c] + rest, c);
      assert ([c] + rest)[0] == c && ([c] + rest)[1..] == rest;
      assert Split([c] + rest, c) == [""] + parts[1..];
      assert parts[0] + "" == parts[0];
    }
  }

  /** A field with no comma and no newline. */
  predicate PlainField(s: string)
  {
    ',' !in s && '\n' !in s
  }

  /** A row whose fields hold no comma splits back into its six fields. */
  lemma RowReadsBack(t: Transaction, formatDate: string -> string)
    requires forall k :: 0 <= k < 6 ==> PlainField(CsvRow(t, formatDate)[k])
    ensures Split(Join(CsvRow(t, formatDate), ","), ',') == CsvRow(t, formatDate)
    ensures '\n' !in Join(CsvRow(t, formatDate), ",")
  {
    var row := CsvRow(t, formatDate);
    assert forall k :: 0 <= k < |row| ==> PlainField(row[k]);
    SplitJoin(row, ',');
    NoNewlineInJoin(row, ",");
  }

  /** Lines without newlines split back into the header and the rows. */
  lemma LinesReadBack(header: string, rows: seq<string>)
    requires '\n' !in header && forall i :: 0 <= i < |rows| ==> '\n' !in rows[i]
    ensures Split(Lines(header, rows), '\n') == [header] + rows
  {
    var lines := [header] + rows;
    forall j | 0 <= j < |lines| ensures '\n' !in lines[j] {
      if j > 0 {
        assert lines[j] == rows[j - 1];
      }
    }
    SplitJoin(lines, '\n');
  }

  /** When no field holds a comma or a newline, the text reads back as the
      header line followed by one line per transaction, in order, each
      splitting into its six fields. */
  lemma CsvReadsBack(ts: seq<Transaction>, formatDate: string -> string)
    requires forall i, k :: 0 <= i < |ts| && 0 <= k < 6 ==> PlainField(CsvRow(ts[i], formatDate)[k])
    ensures Split(Csv(ts, formatDate), '\n') == [Join(CsvHeader, ",")] + RowLines(ts, formatDate)
    ensures forall i :: 0 <= i < |ts| ==> Split(RowLines(ts, formatDate)[i], ',') == CsvRow(ts[i], formatDate)
  {
    var rows := RowLines(ts, formatDate);
    forall i | 0 <= i < |ts| ensures Split(rows[i], ',') == CsvRow(ts[i], formatDate) && '\n' !in rows[i] {
      RowReadsBack(ts[i], formatDate);
    }
    HeaderNoNewline();
    LinesReadBack(Join(CsvHeader, ","), rows);
  }

  /** Joining newline-free parts with a comma gives a newline-free line. */
  lemma {:induction false} NoNewlineInJoin(parts: seq<string>, sep: string)
    requires sep == ","
    requires forall k :: 0 <= k < |parts| ==> '\n' !in parts[k]
    ensures '\n' !in Join(parts, sep)
  {
    if |parts| > 1 {
      NoNewlineInJoin(parts[1..], sep);
    }
  }

  /** Occurrences add up over a concatenation. */
  lemma {:induction false} CountAppend(a: string, b: string, c: char)
    ensures Count(a + b, c) == Count(a, c) + Count(b, c)
  {
    if a != [] {
      assert (a + b)[0] == a[0] && (a + b)[1..] == a[1..] + b;
      CountAppend(a[1..], b, c);
    } else {
      assert a + b == b;
    }
  }

  /** `split` gives one more piece than there are separators. */
  lemma {:induction false} SplitLength(s: string, c: char)
    ensures |Split(s, c)| == Count(s, c) + 1
  {
    if s != [] {
      SplitLength(s[1..], c);
    }
  }

  /** A join has at least one separator between each pair of parts, on
      top of the separators inside any one part. */
  lemma {:induction false} CountJoin(parts: seq<string>, c: char, k: nat)
    requires k < |parts|
    ensures Count(Join(parts, [c]), c) >= |parts| - 1 + Count(parts[k], c)
  {
    if |parts| > 1 {
      var rest := Join(parts[1..], [c]);
      assert Join(parts, [c]) == parts[0] + ([c] + rest);
      CountAppend(parts[0], [c] + rest, c);
      CountAppend([c], rest, c);
      assert Count([c], c) == 1;
      if k == 0 {
        CountJoin(parts[1..], c, 0);
      } else {
        CountJoin(parts[1..], c, k - 1);
        assert parts[1..][k - 1] == parts[k];
      }
    }
  }

  /** The export does not quote: a description holding a comma yields a
      line with more than six comma-separated pieces, so the row no longer
      lines up with the header. */
  lemma CommaInDescriptionShiftsColumns(t: Transaction, formatDate: string -> string)
    requires ',' in t.description
    ensures |Split(Join(CsvRow(t, formatDate), ","), ',')| > |CsvHeader|
  {
    var row := CsvRow(t, formatDate);
    CountJoin(row, ',', 1);
    CountPositive(t.description, ',');
    SplitLength(Join(row, ","), ',');
  }

  /** A string holding `c` counts it at least once. */
  lemma {:induction false} CountPositive(s: string, c: char)
    requires c in s
    ensures Count(s, c) >= 1
  {
    if s[0] != c {
      CountPositive(s[1..], c);
    }
  }

  // ---------------------------------------------------------------------
  // The page
  // ---------------------------------------------------------------------

  const SelectFirstMessage: string := "Please select transactions to categorize"
  const BulkErrorMessage: string := "Failed to categorize transactions"
  /** The filters default to the last 30 days. */
  const DefaultWindow: int := 30
  const LoadFailedMessage: string := "Failed to load transactions"
  const DeletedMessage: string := "Transaction deleted successfully. Account balance updated."
  const DeleteFailedMessage: string := "Failed to delete transaction"
  const DuplicatedMessage: string := "Transaction duplicated successfully"
  const DuplicateFailedMessage: string := "Failed to duplicate transaction"
  const UpdatedMessage: string := "Transaction updated successfully"
  const CreatedMessage: string := "Transaction created successfully"

  class TransactionsPage {
    var transactions: seq<Transaction>
    var totalCount: int
    var page: nat
    var pageSize: nat
    var filters: Filters
    var selected: seq<int>
    var expanded: map<int, bool>
    var bulkOpen: bool
    var error: Option<string>
    var successMessage: string

    /** The page as first rendered on `today`: the filters show the last
        30 days, page 0 of size 20, nothing selected. */
    constructor (today: Date)
      requires ValidDate(today)
      ensures filters == DefaultFilters(FormatDateForAPI(Day(AddDays(today, -DefaultWindow))))
      ensures page == 0 && pageSize == 20 && totalCount == 0 && transactions == []
      ensures selected == [] && expanded == map[] && !bulkOpen && error.None? && successMessage == ""
    {
      var dateFrom := GetDaysAgo(today, DefaultWindow);
      filters := DefaultFilters(dateFrom);
      page := 0;
      pageSize := 20;
      totalCount := 0;
      transactions := [];
      selected := [];
      expanded := map[];
      bulkOpen := false;
      error := None;
      successMessage := "";
    }

    /** `handleFilterChange`: one filter takes the value and the page goes
        back to the first. */
    method HandleFilterChange(field: string, value: string)
      modifies this
      ensures filters == SetFilter(old(filters), field, value) && page == 0
      ensures pageSize == old(pageSize) && selected == old(selected) && transactions == old(transactions)
      ensures totalCount == old(totalCount) && expanded == old(expanded) && bulkOpen == old(bulkOpen)
      ensures error == old(error) && successMessage == old(successMessage)
    {
      filters := SetFilter(filters, field, value);
      page := 0;
    }

    /** `handleClearFilters`: every filter back to its default, `date_from`
        to 30 days before today, and the first page. */
    method HandleClearFilters(today: Date)
      requires ValidDate(today)
      modifies this
      ensures filters == DefaultFilters(FormatDateForAPI(Day(AddDays(today, -DefaultWindow)))) && page == 0
      ensures pageSize == old(pageSize) && selected == old(selected) && transactions == old(transactions)
      ensures totalCount == old(totalCount) && expanded == old(expanded) && bulkOpen == old(bulkOpen)
      ensures error == old(error) && successMessage == old(successMessage)
    {
      var dateFrom := GetDaysAgo(today, DefaultWindow);
      filters := DefaultFilters(dateFrom);
      page := 0;
    }

    /** `fetchTransactions` when both requests come back: the error is
        cleared when the fetch starts, and the list and total become the
        normalised response. */
    method ShowResponse(response: Response<Transaction>)
      modifies this
      ensures (transactions, totalCount) == Normalise(response) && error.None?
      ensures filters == old(filters) && page == old(page) && selected == old(selected)
      ensures pageSize == old(pageSize) && expanded == old(expanded) && bulkOpen == old(bulkOpen)
      ensures successMessage == old(successMessage)
    {
      error := None;
      match response
      case Paginated(results, count) =>
        transactions := results;
        totalCount := CountOrZero(count);
      case Bare(items) =>
        transactions := items;
        totalCount := |items|;
      case Other =>
        transactions := [];
        totalCount := 0;
    }

    /** `fetchTransactions` when a request fails: the fixed message is
        shown and the list already on screen stays. */
    method ShowLoadFailure()
      modifies this
      ensures error == Some(LoadFailedMessage)
      ensures transactions == old(transactions) && totalCount == old(totalCount)
      ensures filters == old(filters) && page == old(page) && selected == old(selected)
      ensures pageSize == old(pageSize) && expanded == old(expanded) && bulkOpen == old(bulkOpen)
      ensures successMessage == old(successMessage)
    {
      error := Some(LoadFailedMessage);
    }

    /** `handleSelectTransaction`. */
    method HandleSelectTransaction(id: int)
      modifies this
      ensures selected == Toggle(old(selected), id)
      ensures filters == old(filters) && page == old(page) && expanded == old(expanded)
      ensures transactions == old(transactions) && totalCount == old(totalCount) && pageSize == old(pageSize)
      ensures bulkOpen == old(bulkOpen) && error == old(error) && successMessage == old(successMessage)
    {
      if id in selected {
        selected := Filter(selected, Except(id));
      } else {
        selected := selected + [id];
      }
    }

    /** `toggleCardExpansion`: the card's flag is negated, a card never
        toggled counting as collapsed; no other card changes. */
    method ToggleCardExpansion(id: int)
      modifies this
      ensures id in expanded && (expanded[id] <==> !(id in old(expanded) && old(expanded)[id]))
      ensures forall k :: k != id ==> (k in expanded <==> k in old(expanded))
      ensures forall k :: k != id && k in expanded ==> expanded[k] == old(expanded)[k]
      ensures selected == old(selected) && filters == old(filters)
      ensures page == old(page) && pageSize == old(pageSize) && transactions == old(transactions)
      ensures totalCount == old(totalCount) && bulkOpen == old(bulkOpen)
      ensures error == old(error) && successMessage == old(successMessage)
    {
      var wasOpen := id in expanded && expanded[id];
      expanded := expanded[id := !wasOpen];
    }

    /** `handleDeleteConfirm`: nothing happens without a transaction to
        delete; a deletion reports success and reloads, which clears the
        error; a failure shows the backend's `error` or a fixed message. */
    method HandleDeleteConfirm(toDelete: Option<int>, outcome: Outcome)
      modifies this
      ensures toDelete.None? ==> error == old(error) && successMessage == old(successMessage)
      ensures toDelete.Some? && outcome.Succeeded? ==> successMessage == DeletedMessage && error.None?
      ensures toDelete.Some? && outcome.Failed? ==>
        error == Some(ErrorOr(outcome.data, DeleteFailedMessage)) && successMessage == old(successMessage)
      ensures transactions == old(transactions) && totalCount == old(totalCount)
      ensures filters == old(filters) && page == old(page) && pageSize == old(pageSize)
      ensures selected == old(selected) && expanded == old(expanded) && bulkOpen == old(bulkOpen)
    {
      if toDelete.None? {
        return;
      }
      match outcome {
        case Succeeded =>
          successMessage := DeletedMessage;
          error := None;
        case Failed(data) =>
          error := Some(ErrorOr(data, DeleteFailedMessage));
      }
    }

    /** `handleDuplicate`: success reports it and reloads, which clears the
        error; a failure shows the backend's `error` or a fixed message. */
    method HandleDuplicate(outcome: Outcome)
      modifies this
      ensures outcome.Succeeded? ==> successMessage == DuplicatedMessage && error.None?
      ensures outcome.Failed? ==>
        error == Some(ErrorOr(outcome.data, DuplicateFailedMessage)) && successMessage == old(successMessage)
      ensures transactions == old(transactions) && totalCount == old(totalCount)
      ensures filters == old(filters) && page == old(page) && pageSize == old(pageSize)
      ensures selected == old(selected) && expanded == old(expanded) && bulkOpen == old(bulkOpen)
    {
      match outcome {
        case Succeeded =>
          successMessage := DuplicatedMessage;
          error := None;
        case Failed(data) =>
          error := Some(ErrorOr(data, DuplicateFailedMessage));
      }
    }

    /** `handleFormSubmit`: a saved transaction is reported as updated when
        one was being edited and as created otherwise, and the list reloads;
        a failure is rethrown to the form dialog and changes nothing here. */
    method HandleFormSubmit(editing: bool, outcome: Outcome)
      modifies this
      ensures outcome.Succeeded? ==>
        successMessage == (if editing then UpdatedMessage else CreatedMessage) && error.None?
      ensures outcome.Failed? ==> error == old(error) && successMessage == old(successMessage)
      ensures transactions == old(transactions) && totalCount == old(totalCount)
      ensures filters == old(filters) && page == old(page) && pageSize == old(pageSize)
      ensures selected == old(selected) && expanded == old(expanded) && bulkOpen == old(bulkOpen)
    {
      if outcome.Succeeded? {
        successMessage := if editing then UpdatedMessage else CreatedMessage;
        error := None;
      }
    }

    /** `handleBulkCategorize`: with nothing selected an error is shown and
        the dialog stays closed. */
    method HandleBulkCategorize()
      modifies this
      ensures selected == [] ==> error == Some(SelectFirstMessage) && bulkOpen == old(bulkOpen)
      ensures selected != [] ==> bulkOpen && error == old(error)
      ensures selected == old(selected)
      ensures filters == old(filters) && page == old(page) && expanded == old(expanded)
      ensures transactions == old(transactions) && totalCount == old(totalCount) && pageSize == old(pageSize)
      ensures successMessage == old(successMessage)
    {
      if |selected| == 0 {
        error := Some(SelectFirstMessage);
        return;
      }
      bulkOpen := true;
    }

    /** `handleBulkCategorizeSubmit`: success reports the count, clears the
        selection, closes the dialog and reloads, which clears the error;
        failure keeps both and shows the backend's `error` or a fixed
        message. */
    method HandleBulkCategorizeSubmit(outcome: Outcome)
      modifies this
      ensures outcome.Succeeded? ==>
        selected == [] && !bulkOpen && error.None? &&
        successMessage == IntToString(|old(selected)|) + " transactions categorized successfully"
      ensures outcome.Failed? ==>
        selected == old(selected) && bulkOpen == old(bulkOpen) &&
        error == Some(ErrorOr(outcome.data, BulkErrorMessage)) && successMessage == old(successMessage)
      ensures filters == old(filters) && page == old(page)
      ensures transactions == old(transactions) && totalCount == old(totalCount)
      ensures pageSize == old(pageSize) && expanded == old(expanded)
    {
      match outcome {
        case Succeeded =>
          successMessage := IntToString(|selected|) + " transactions categorized successfully";
          selected := [];
          bulkOpen := false;
          error := None;
        case Failed(data) =>
          error := Some(ErrorOr(data, BulkErrorMessage));
      }
    }
  }
}
