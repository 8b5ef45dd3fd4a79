/**
 * The per-counterparty ledger hook: the summary fold over the debts shared
 * with one person, and the state the hook publishes after a fetch.
 */
module PersonDebts {
  import opened Common
  import opened DebtModel

  /** What the hook reports for one counterparty. */
  datatype PersonDebtSummary = PersonDebtSummary(
    personName: string,
    totalOwed: real,    // what the person owes the current user
    totalOwing: real,   // what the current user owes the person
    netBalance: real,
    totalDebts: nat,
    activeDebts: nat,
    paidDebts: nat)

  /** What one debt adds to `totalOwed`: an unpaid debt whose creditor is the user. */
  function OwedShare(d: Debt, user: string): real {
    if d.status != Paid && d.creditorName == user then d.amount else 0.0
  }

  /** What one debt adds to `totalOwing`: an unpaid debt whose debtor, and not creditor, is the user. */
  function OwingShare(d: Debt, user: string): real {
    if d.status != Paid && d.creditorName != user && d.debtorName == user then d.amount else 0.0
  }

  function TotalOwed(ds: seq<Debt>, user: string): real {
    if ds == [] then 0.0 else TotalOwed(ds[..|ds| - 1], user) + OwedShare(ds[|ds| - 1], user)
  }

  function TotalOwing(ds: seq<Debt>, user: string): real {
    if ds == [] then 0.0 else TotalOwing(ds[..|ds| - 1], user) + OwingShare(ds[|ds| - 1], user)
  }

  function CountPaid(ds: seq<Debt>): nat {
    if ds == [] then 0 else CountPaid(ds[..|ds| - 1]) + (if ds[|ds| - 1].status == Paid then 1 else 0)
  }

  function CountActive(ds: seq<Debt>): nat {
    if ds == [] then 0 else CountActive(ds[..|ds| - 1]) + (if ds[|ds| - 1].status != Paid then 1 else 0)
  }

  /** The summary the fold computes, as a function of the list. */
  function Summarize(personName: string, ds: seq<Debt>, user: string): PersonDebtSummary {
    var owed := TotalOwed(ds, user);
    var owing := TotalOwing(ds, user);
    PersonDebtSummary(personName, owed, owing, owed - owing, |ds|, CountActive(ds), CountPaid(ds))
  }

  /** `calculateSummary`: one pass over the list with four accumulators. */
  method CalculateSummary(personName: string, debtsList: seq<Debt>, currentUserName: string)
    returns (summary: PersonDebtSummary)
    ensures summary == Summarize(personName, debtsList, currentUserName)
  {
    var totalOwed, totalOwing := 0.0, 0.0;
    var activeDebts, paidDebts := 0, 0;
    var i := 0;
    while i < |debtsList|
      invariant 0 <= i <= |debtsList|
      invariant totalOwed == TotalOwed(debtsList[..i], currentUserName)
      invariant totalOwing == TotalOwing(debtsList[..i], currentUserName)
      invariant activeDebts == CountActive(debtsList[..i])
      invariant paidDebts == CountPaid(debtsList[..i])
    {
      var debt := debtsList[i];
      assert debtsList[..i + 1][..i] == debtsList[..i];
      if debt.status == Paid {
        paidDebts := paidDebts + 1;
      } else {
        activeDebts := activeDebts + 1;
        if debt.creditorName == currentUserName {
          totalOwed := totalOwed + debt.amount;
        } else if debt.debtorName == currentUserName {
          totalOwing := totalOwing + debt.amount;
        }
      }
      i := i + 1;
    }
    assert debtsList[..i] == debtsList;
    summary := PersonDebtSummary(personName, totalOwed, totalOwing, totalOwed - totalOwing,
                                 |debtsList|, activeDebts, paidDebts);
  }

  /** Every debt is counted exactly once, as active or as paid. */
  lemma {:induction false} ActivePlusPaidIsTotal(ds: seq<Debt>)
    ensures CountActive(ds) + CountPaid(ds) == |ds|
  {
    if ds != [] {
      ActivePlusPaidIsTotal(ds[..|ds| - 1]);
    }
  }

  /** The summary's counts partition the list, its name is the argument, its balance is owed minus owing. */
  lemma SummaryShape(personName: string, ds: seq<Debt>, user: string)
    ensures var s := Summarize(personName, ds, user);
      && s.activeDebts + s.paidDebts == s.totalDebts == |ds|
      && s.personName == personName
      && s.netBalance == s.totalOwed - s.totalOwing
  {
    ActivePlusPaidIsTotal(ds);
  }

  /** The debts whose status is not exactly `Paid` (pending and overdue alike). */
  function Unpaid(ds: seq<Debt>): (r: seq<Debt>)
    ensures forall d :: d in r ==> d in ds && d.status != Paid
  {
    if ds == [] then []
    else Unpaid(ds[..|ds| - 1]) + (if ds[|ds| - 1].status != Paid then [ds[|ds| - 1]] else [])
  }

  /** Paid debts add nothing to either total: dropping them leaves both totals unchanged. */
  lemma {:induction false} PaidDebtsAddNothing(ds: seq<Debt>, user: string)
    ensures TotalOwed(ds, user) == TotalOwed(Unpaid(ds), user)
    ensures TotalOwing(ds, user) == TotalOwing(Unpaid(ds), user)
    ensures CountActive(ds) == |Unpaid(ds)|
  {
    if ds != [] {
      var init, last := ds[..|ds| - 1], ds[|ds| - 1];
      PaidDebtsAddNothing(init, user);
      var u := Unpaid(init);
      if last.status != Paid {
        assert Unpaid(ds) == u + [last];
        LastOf(u, last);
        assert TotalOwed(u + [last], user) == TotalOwed(u, user) + OwedShare(last, user);
        assert TotalOwing(u + [last], user) == TotalOwing(u, user) + OwingShare(last, user);
      } else {
        assert Unpaid(ds) == u + [];
        assert u + [] == u;
      }
    }
  }

  /** The totals are additive over concatenation. */
  lemma {:induction false} TotalsAppend(a: seq<Debt>, b: seq<Debt>, user: string)
    ensures TotalOwed(a + b, user) == TotalOwed(a, user) + TotalOwed(b, user)
    ensures TotalOwing(a + b, user) == TotalOwing(a, user) + TotalOwing(b, user)
    ensures CountActive(a + b) == CountActive(a) + CountActive(b)
    ensures CountPaid(a + b) == CountPaid(a) + CountPaid(b)
    decreases |b|
  {
    if b == [] {
      assert a + b == a;
    } else {
      TotalsAppend(a, b[..|b| - 1], user);
      assert (a + b)[..|a + b| - 1] == a + b[..|b| - 1];
    }
  }

  /** The order in which the debts arrive does not change the summary. */
  lemma SummaryOrderIrrelevant(personName: string, a: seq<Debt>, b: seq<Debt>, user: string)
    ensures Summarize(personName, a + b, user) == Summarize(personName, b + a, user)
  {
    TotalsAppend(a, b, user);
    TotalsAppend(b, a, user);
  }

  lemma LastOf(ds: seq<Debt>, d: Debt)
    ensures (ds + [d])[..|ds|] == ds && (ds + [d])[|ds|] == d
  {
  }

  /**
   * An unpaid debt whose creditor is the user goes to `totalOwed`, even when
   * the debtor is the user too; the name comparison is exact.
   */
  lemma CreditorTakesPrecedence(personName: string, ds: seq<Debt>, d: Debt, user: string)
    requires d.status != Paid && d.creditorName == user
    ensures Summarize(personName, ds + [d], user).totalOwed == Summarize(personName, ds, user).totalOwed + d.amount
    ensures Summarize(personName, ds + [d], user).totalOwing == Summarize(personName, ds, user).totalOwing
  {
    LastOf(ds, d);
  }

  /** An unpaid debt whose debtor, and not creditor, is the user goes to `totalOwing`. */
  lemma DebtorGoesToOwing(personName: string, ds: seq<Debt>, d: Debt, user: string)
    requires d.status != Paid && d.creditorName != user && d.debtorName == user
    ensures Summarize(personName, ds + [d], user).totalOwing == Summarize(personName, ds, user).totalOwing + d.amount
    ensures Summarize(personName, ds + [d], user).totalOwed == Summarize(personName, ds, user).totalOwed
  {
    LastOf(ds, d);
  }

  /** An unpaid debt in which neither name is the user counts as active and moves neither total. */
  lemma StrangerDebtOnlyCounted(personName: string, ds: seq<Debt>, d: Debt, user: string)
    requires d.status != Paid && d.creditorName != user && d.debtorName != user
    ensures var before, after := Summarize(personName, ds, user), Summarize(personName, ds + [d], user);
      && after.totalOwed == before.totalOwed
      && after.totalOwing == before.totalOwing
      && after.activeDebts == before.activeDebts + 1
      && after.paidDebts == before.paidDebts
  {
    LastOf(ds, d);
  }

  predicate AllPositive(ds: seq<Debt>) {
    forall i :: 0 <= i < |ds| ==> ds[i].amount > 0.0
  }

  /** With positive amounts both totals are non-negative. */
  lemma {:induction false} TotalsNonNegative(ds: seq<Debt>, user: string)
    requires AllPositive(ds)
    ensures TotalOwed(ds, user) >= 0.0 && TotalOwing(ds, user) >= 0.0
  {
    if ds != [] {
      TotalsNonNegative(ds[..|ds| - 1], user);
      assert ds[|ds| - 1].amount > 0.0;
    }
  }

  /** Two lists that differ only in which unpaid status (pending or overdue) each debt carries. */
  predicate SameUpToUnpaidStatus(a: seq<Debt>, b: seq<Debt>) {
    |a| == |b| &&
    forall i :: 0 <= i < |a| ==>
      a[i].(status := Pending) == b[i].(status := Pending)
      && (a[i].status == Paid <==> b[i].status == Paid)
  }

  /** `overdue` and `pending` are interchangeable for the summary: both count as active. */
  lemma {:induction false} OverdueCountsLikePending(personName: string, a: seq<Debt>, b: seq<Debt>, user: string)
    requires SameUpToUnpaidStatus(a, b)
    ensures Summarize(personName, a, user) == Summarize(personName, b, user)
    decreases |a|
  {
    if a != [] {
      var n := |a| - 1;
      assert SameUpToUnpaidStatus(a[..n], b[..n]) by {
        forall i | 0 <= i < n ensures a[..n][i] == a[i] && b[..n][i] == b[i] { }
      }
      OverdueCountsLikePending(personName, a[..n], b[..n], user);
      assert a[n].(status := Pending) == b[n].(status := Pending);
      assert a[n].creditorName == b[n].creditorName && a[n].debtorName == b[n].debtorName;
      assert a[n].amount == b[n].amount;
    }
  }

  /**
   * The state the hook publishes: the debts, the summary, the loading flag
   * and the error message.
   */
  class PersonDebtsHook {
    const personName: string
    var debts: seq<Debt>
    var summary: Option<PersonDebtSummary>
    var loading: bool
    var error: Option<string>

    constructor (personName: string)
      ensures this.personName == personName
      ensures debts == [] && summary == None && loading && error == None
    {
      this.personName := personName;
      debts := [];
      summary := None;
      loading := true;
      error := None;
    }

    /**
     * `fetchPersonDebts`. `currentUser` is what the auth service returns and
     * `fetched` the outcome of the query for debts involving the person.
     */
    method FetchPersonDebts(currentUser: Option<User>, fetched: Result<seq<Debt>, string>)
      modifies this
      ensures !loading
      ensures personName == [] ==>
        error == Some("Person name is required") && debts == old(debts) && summary == old(summary)
      ensures personName != [] && currentUser.None? ==>
        error == Some("User not authenticated") && debts == [] && summary == None
      ensures personName != [] && currentUser.Some? && fetched.Err? ==>
        error == Some("Failed to load debts for this person.") && debts == [] && summary == None
      ensures personName != [] && currentUser.Some? && fetched.Ok? ==>
        && error == None
        && debts == fetched.value
        && summary == Some(Summarize(personName, fetched.value, CurrentUserName(currentUser)))
    {
      if personName == [] {
        error := Some("Person name is required");
        loading := false;
        return;
      }
      loading := true;
      error := None;
      if currentUser.None? {
        error := Some("User not authenticated");
        debts := [];
        summary := None;
        loading := false;
        return;
      }
      if fetched.Err? {
        error := Some("Failed to load debts for this person.");
        debts := [];
        summary := None;
      } else {
        debts := fetched.value;
        var s := CalculateSummary(personName, fetched.value, CurrentUserName(currentUser));
        summary := Some(s);
      }
      loading := false;
    }
  }
}
