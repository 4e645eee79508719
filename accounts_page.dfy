/** The accounts page of `src/pages/Accounts.jsx`: the type and status
    filters, the per-type count and balance totals of the filtered list,
    which actions an account offers, and the normalisation of the list
    response. */
module AccountsPage {
  import opened Text
  import opened Domain

  // ---------------------------------------------------------------------
  // Filtering
  // ---------------------------------------------------------------------

  /** The test of `filteredAccounts`. */
  function Kept(filterType: string, filterStatus: string): Account -> bool
  {
    (a: Account) => (filterType == "all" || a.accountType == filterType) && StatusAccepts(filterStatus, a.isActive)
  }

  /** `filteredAccounts`. */
  function FilteredAccounts(accounts: seq<Account>, filterType: string, filterStatus: string): seq<Account>
  {
    Filter(accounts, Kept(filterType, filterStatus))
  }

  /** An account is listed iff it is loaded, its type matches the type
      filter (or the filter is `all`), and it is active when the status
      filter is `active` and inactive when it is `inactive`; the list keeps
      the loaded order. */
  lemma FilteredAccountsSpec(accounts: seq<Account>, more: seq<Account>, filterType: string, filterStatus: string)
    ensures forall a :: a in FilteredAccounts(accounts, filterType, filterStatus) <==>
      a in accounts && (filterType == "all" || a.accountType == filterType) &&
      (filterStatus == "active" ==> a.isActive) && (filterStatus == "inactive" ==> !a.isActive)
    ensures FilteredAccounts(accounts + more, filterType, filterStatus) ==
      FilteredAccounts(accounts, filterType, filterStatus) + FilteredAccounts(more, filterType, filterStatus)
  {
    FilterAppend(accounts, more, Kept(filterType, filterStatus));
  }

  // ---------------------------------------------------------------------
  // accountTotals
  // ---------------------------------------------------------------------

  /** One entry of `accountTotals`; a total is `None` once a balance that
      does not parse has made it `NaN`. */
  datatype Tally = Tally(count: nat, total: Option<real>)

  /** `total += x`, `NaN` absorbing. */
  function AddTo(total: Option<real>, x: Option<real>): Option<real>
  {
    if total.Some? && x.Some? then Some(total.value + x.value) else None
  }

  /** The balances added in order, each `parseFloat(current_balance || 0)`. */
  function BalanceSum(accounts: seq<Account>): Option<real>
  {
    if accounts == [] then Some(0.0)
    else AddTo(BalanceSum(accounts[..|accounts| - 1]), AmountOrZero(accounts[|accounts| - 1].balance))
  }

  /** The test `account_type === type`. */
  function OfType(t: string): Account -> bool
  {
    (a: Account) => a.accountType == t
  }

  /** The entry for type `t`: how many accounts have it and their summed balance. */
  function TallyOf(accounts: seq<Account>, t: string): Tally
  {
    Tally(|Filter(accounts, OfType(t))|, BalanceSum(Filter(accounts, OfType(t))))
  }

  /** Summing a list extended by one account adds that account's balance. */
  lemma BalanceSumSnoc(accounts: seq<Account>, a: Account)
    ensures BalanceSum(accounts + [a]) == AddTo(BalanceSum(accounts), AmountOrZero(a.balance))
  {
    assert (accounts + [a])[..|accounts|] == accounts;
  }

  /** `accountTotals` holds the entries of the first `i` accounts: a key
      per type met so far, each with that type's tally. */
  ghost predicate TotalsSoFar(accounts: seq<Account>, i: nat, totals: map<string, Tally>)
    requires i <= |accounts|
  {
    (forall t :: t in totals <==> exists j :: 0 <= j < i && accounts[j].accountType == t) &&
    (forall t :: t in totals ==> totals[t] == TallyOf(accounts[..i], t))
  }

  /** One pass of the `reduce` body on `acc`. */
  function AddAccount(totals: map<string, Tally>, a: Account): map<string, Tally>
  {
    var entry := if a.accountType in totals then totals[a.accountType] else Tally(0, Some(0.0));
    totals[a.accountType := Tally(entry.count + 1, AddTo(entry.total, AmountOrZero(a.balance)))]
  }

  /** The `reduce` body extends the entries to one more account. */
  lemma AddAccountStep(accounts: seq<Account>, i: nat, totals: map<string, Tally>)
    requires i < |accounts| && TotalsSoFar(accounts, i, totals)
    ensures TotalsSoFar(accounts, i + 1, AddAccount(totals, accounts[i]))
  {
    var t := accounts[i].accountType;
    if t !in totals {
      forall j | 0 <= j < i ensures !OfType(t)(accounts[..i][j]) {
        assert accounts[..i][j] == accounts[j];
      }
      FilterNone(accounts[..i], OfType(t));
    }
    var entry := if t in totals then totals[t] else Tally(0, Some(0.0));
    assert entry == TallyOf(accounts[..i], t);
    var after := AddAccount(totals, accounts[i]);
    forall u ensures u in after <==> exists j :: 0 <= j < i + 1 && accounts[j].accountType == u {
      if u == t {
        assert accounts[i].accountType == u;
      }
    }
    forall u | u in after ensures after[u] == TallyOf(accounts[..i + 1], u) {
      StepTally(accounts, i, u);
    }
  }

  /** The `reduce` that builds `accountTotals`: a type gets an entry the
      first time one of its accounts is met, and each account adds one to
      the count and its balance to the total of its type. */
  method AccountTotals(accounts: seq<Account>) returns (totals: map<string, Tally>)
    ensures forall t :: t in totals <==> exists a :: a in accounts && a.accountType == t
    ensures forall t :: t in totals ==> totals[t] == TallyOf(accounts, t)
  {
    totals := map[];
    for i := 0 to |accounts|
      invariant TotalsSoFar(accounts, i, totals)
    {
      ghost var before := totals;
      var t := accounts[i].accountType;
      if t !in totals {
        totals := totals[t := Tally(0, Some(0.0))];
      }
      totals := totals[t := Tally(totals[t].count + 1, AddTo(totals[t].total, AmountOrZero(accounts[i].balance)))];
      assert totals == AddAccount(before, accounts[i]);
      AddAccountStep(accounts, i, before);
    }
    TotalsOfAll(accounts, totals);
  }

  /** Entries built over every account are the ones `AccountTotals` promises. */
  lemma TotalsOfAll(accounts: seq<Account>, totals: map<string, Tally>)
    requires TotalsSoFar(accounts, |accounts|, totals)
    ensures forall t :: t in totals <==> exists a :: a in accounts && a.accountType == t
    ensures forall t :: t in totals ==> totals[t] == TallyOf(accounts, t)
  {
    assert accounts[..|accounts|] == accounts;
    forall t | exists a :: a in accounts && a.accountType == t
      ensures t in totals
    {
      var a :| a in accounts && a.accountType == t;
      var j :| 0 <= j < |accounts| && accounts[j] == a;
    }
  }

  /** What one step of the `reduce` does to the entry of type `t`. */
  lemma StepTally(accounts: seq<Account>, i: nat, t: string)
    requires i < |accounts|
    ensures TallyOf(accounts[..i + 1], t) ==
      if t == accounts[i].accountType then
        Tally(TallyOf(accounts[..i], t).count + 1, AddTo(TallyOf(accounts[..i], t).total, AmountOrZero(accounts[i].balance)))
      else TallyOf(accounts[..i], t)
  {
    assert accounts[..i + 1] == accounts[..i] + [accounts[i]];
    FilterAppend(accounts[..i], [accounts[i]], OfType(t));
    if t == accounts[i].accountType {
      assert Filter([accounts[i]], OfType(t)) == [accounts[i]];
      BalanceSumSnoc(Filter(accounts[..i], OfType(t)), accounts[i]);
    } else {
      assert Filter([accounts[i]], OfType(t)) == [];
      assert Filter(accounts[..i], OfType(t)) + [] == Filter(accounts[..i], OfType(t));
    }
  }

  /** The counts of a list of distinct types that covers every account's
      type, added up. */
  function CountsOver(accounts: seq<Account>, types: seq<string>): nat
  {
    if types == [] then 0 else |Filter(accounts, OfType(types[0]))| + CountsOver(accounts, types[1..])
  }

  /** Putting one more account in front raises by one the count of each
      listed type it has. */
  lemma {:induction false} CountsOverCons(a: Account, rest: seq<Account>, types: seq<string>)
    ensures CountsOver([a] + rest, types) == CountsOver(rest, types) + |Filter(types, (t: string) => t == a.accountType)|
  {
    if types != [] {
      CountsOverCons(a, rest, types[1..]);
      assert ([a] + rest)[0] == a && ([a] + rest)[1..] == rest;
      assert types == [types[0]] + types[1..];
      FilterAppend([types[0]], types[1..], (t: string) => t == a.accountType);
    }
  }

  /** The per-type counts of `accountTotals` add up to the number of
      filtered accounts. */
  lemma {:induction false} CountsSumToLength(accounts: seq<Account>, types: seq<string>)
    requires forall i, j :: 0 <= i < j < |types| ==> types[i] != types[j]
    requires forall a :: a in accounts ==> a.accountType in types
    ensures CountsOver(accounts, types) == |accounts|
  {
    if accounts == [] {
      EmptyCounts(types);
    } else {
      var a := accounts[0];
      var rest := accounts[1..];
      assert accounts == [a] + rest;
      CountsSumToLength(rest, types);
      CountsOverCons(a, rest, types);
      OneMatch(types, a.accountType);
    }
  }

  /** With no accounts every count is zero. */
  lemma {:induction false} EmptyCounts(types: seq<string>)
    ensures CountsOver([], types) == 0
  {
    if types != [] {
      EmptyCounts(types[1..]);
    }
  }

  /** A value found once in a list without repeats is kept once by a
      filter for it. */
  lemma {:induction false} OneMatch(types: seq<string>, x: string)
    requires forall i, j :: 0 <= i < j < |types| ==> types[i] != types[j]
    requires x in types
    ensures |Filter(types, (t: string) => t == x)| == 1
  {
    var p := (t: string) => t == x;
    if types[0] == x {
      assert x !in types[1..] by {
        forall k | 0 <= k < |types[1..]| ensures types[1..][k] != x {
          assert types[1..][k] == types[k + 1];
        }
      }
      assert Filter(types[1..], p) == [] by {
        if Filter(types[1..], p) != [] {
          assert Filter(types[1..], p)[0] in Filter(types[1..], p);
        }
      }
    } else {
      assert x in types[1..];
      OneMatch(types[1..], x);
    }
  }

  // ---------------------------------------------------------------------
  // Actions
  // ---------------------------------------------------------------------

  /** Deactivate is offered for an active account whose balance is the
      number 0. */
  predicate CanDeactivate(a: Account)
  {
    a.isActive && IsNumberZero(a.balance)
  }

  /** Delete is disabled when the account has transactions. */
  predicate DeleteDisabled(a: Account)
  {
    CountPositive(a.transactionCount)
  }

  /** Edit is disabled for an inactive account. */
  predicate EditDisabled(a: Account)
  {
    !a.isActive
  }

  /** Deactivation needs a balance that is strictly the number 0: a
      balance sent as a string, even `"0.00"`, never offers it; an account
      offering it can also be edited. An account with no count of
      transactions can always be deleted. */
  lemma ActionAvailability(a: Account)
    ensures CanDeactivate(a) <==> a.isActive && a.balance == Num(0.0)
    ensures a.balance.Str? ==> !CanDeactivate(a)
    ensures CanDeactivate(a) ==> !EditDisabled(a)
    ensures DeleteDisabled(a) <==> a.transactionCount.Some? && a.transactionCount.value > 0
  {
  }
}
