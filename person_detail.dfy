/**
 * The person detail screen: the tab filter over the counterparty's debts,
 * the sign of each row, the net-balance card and the empty-list message.
 */
module PersonDetail {
  import opened Common
  import opened DebtModel
  import opened PersonDebts

  datatype Tab = All | Active | PaidOnly

  /** The test the tab applies to one debt. */
  predicate Keeps(tab: Tab, d: Debt) {
    match tab
    case Active => d.status != Paid
    case PaidOnly => d.status == Paid
    case All => true
  }

  /** `debts.filter(...)` for the active tab. */
  function FilterDebts(ds: seq<Debt>, tab: Tab): (r: seq<Debt>)
    ensures |r| <= |ds|
  {
    if ds == [] then []
    else (if Keeps(tab, ds[0]) then [ds[0]] else []) + FilterDebts(ds[1..], tab)
  }

  /** The tab shows exactly the debts its test keeps. */
  lemma {:induction false} FilterMembers(ds: seq<Debt>, tab: Tab)
    ensures forall d :: d in FilterDebts(ds, tab) <==> d in ds && Keeps(tab, d)
  {
    if ds != [] {
      FilterMembers(ds[1..], tab);
      assert ds == [ds[0]] + ds[1..];
    }
  }

  /** The filter distributes over concatenation, so it keeps the list's order. */
  lemma {:induction false} FilterAppend(a: seq<Debt>, b: seq<Debt>, tab: Tab)
    ensures FilterDebts(a + b, tab) == FilterDebts(a, tab) + FilterDebts(b, tab)
  {
    if a != [] {
      FilterAppend(a[1..], b, tab);
      assert (a + b)[0] == a[0] && (a + b)[1..] == a[1..] + b;
    } else {
      assert a + b == b;
    }
  }

  /** 'all' shows everything. */
  lemma {:induction false} AllKeepsEverything(ds: seq<Debt>)
    ensures FilterDebts(ds, All) == ds
  {
    if ds != [] {
      AllKeepsEverything(ds[1..]);
      assert ds == [ds[0]] + ds[1..];
    }
  }

  /** The 'active' and 'paid' tabs split the list: no debt in both, none in neither. */
  lemma {:induction false} ActivePaidPartition(ds: seq<Debt>)
    ensures |FilterDebts(ds, Active)| + |FilterDebts(ds, PaidOnly)| == |ds|
    ensures forall d :: d in ds <==> d in FilterDebts(ds, Active) || d in FilterDebts(ds, PaidOnly)
    ensures forall d :: !(d in FilterDebts(ds, Active) && d in FilterDebts(ds, PaidOnly))
  {
    FilterMembers(ds, Active);
    FilterMembers(ds, PaidOnly);
    if ds != [] {
      ActivePaidPartition(ds[1..]);
    }
  }

  /**
   * The 'active' tab shows exactly the debts the summary counts as active,
   * in the same order, and the tab lengths are the summary's counts.
   */
  lemma {:induction false} TabsMatchSummary(personName: string, ds: seq<Debt>, user: string)
    ensures FilterDebts(ds, Active) == Unpaid(ds)
    ensures |FilterDebts(ds, Active)| == Summarize(personName, ds, user).activeDebts
    ensures |FilterDebts(ds, PaidOnly)| == Summarize(personName, ds, user).paidDebts
  {
    if ds != [] {
      var init, last := ds[..|ds| - 1], ds[|ds| - 1];
      TabsMatchSummary(personName, init, user);
      assert ds == init + [last];
      FilterAppend(init, [last], Active);
      FilterAppend(init, [last], PaidOnly);
      assert FilterDebts([last], Active) == (if last.status != Paid then [last] else []);
      assert FilterDebts([last], PaidOnly) == (if last.status == Paid then [last] else []);
    }
  }

  /** The sign in front of a row's amount: '-' when the user is the debtor. */
  function RowSign(d: Debt, userName: string): char {
    if Classify(d, userName) == Owe then '-' else '+'
  }

  /**
   * When exactly one side is the user, the row sign and the summary agree:
   * '-' rows add to what the user owes, '+' rows to what the user is owed.
   */
  lemma RowSignAgreesWithSummary(personName: string, ds: seq<Debt>, d: Debt, user: string)
    requires d.status != Paid && (d.debtorName == user) != (d.creditorName == user)
    requires d.amount != 0.0
    ensures var before, after := Summarize(personName, ds, user), Summarize(personName, ds + [d], user);
      RowSign(d, user) == '-' <==> after.totalOwing == before.totalOwing + d.amount && after.totalOwed == before.totalOwed
    ensures var before, after := Summarize(personName, ds, user), Summarize(personName, ds + [d], user);
      RowSign(d, user) == '+' <==> after.totalOwed == before.totalOwed + d.amount && after.totalOwing == before.totalOwing
  {
    if d.creditorName == user {
      CreditorTakesPrecedence(personName, ds, d, user);
    } else {
      DebtorGoesToOwing(personName, ds, d, user);
    }
  }

  /**
   * When both names are the user's, the row shows '-' (the user owes) while
   * the summary counts the debt as owed to the user.
   */
  lemma RowSignDisagreesWhenBothAreUser(personName: string, ds: seq<Debt>, d: Debt, user: string)
    requires d.status != Paid && d.debtorName == user && d.creditorName == user
    ensures RowSign(d, user) == '-'
    ensures Summarize(personName, ds + [d], user).totalOwed == Summarize(personName, ds, user).totalOwed + d.amount
    ensures Summarize(personName, ds + [d], user).totalOwing == Summarize(personName, ds, user).totalOwing
  {
    CreditorTakesPrecedence(personName, ds, d, user);
  }

  /** The net-balance card: colour and sign, the absolute amount, and the caption. */
  datatype BalanceCard = BalanceCard(positive: bool, sign: string, amount: real, caption: string)

  function NetBalanceCard(netBalance: real, personName: string): (c: BalanceCard)
    ensures c.amount >= 0.0
    ensures c.positive <==> netBalance >= 0.0
    ensures (if c.positive then c.amount else -c.amount) == netBalance
  {
    if netBalance >= 0.0 then BalanceCard(true, "+", netBalance, personName + " owes you")
    else BalanceCard(false, "", -netBalance, "You owe " + personName)
  }

  /**
   * For every balance the card's sign and caption follow who is ahead: a
   * balance of zero or more shows '+' and "<name> owes you", a negative one
   * shows no sign and "You owe <name>"; the two captions never coincide.
   */
  lemma NetBalanceCaption(netBalance: real, personName: string)
    ensures var c := NetBalanceCard(netBalance, personName);
      netBalance >= 0.0 ==> c.sign == "+" && c.caption == personName + " owes you"
    ensures var c := NetBalanceCard(netBalance, personName);
      netBalance < 0.0 ==> c.sign == "" && c.caption == "You owe " + personName
    ensures personName + " owes you" != "You owe " + personName
  {
  }

  /** A zero balance reads as the person owing the user. */
  lemma ZeroBalanceReadsAsOwed(personName: string)
    ensures NetBalanceCard(0.0, personName) == BalanceCard(true, "+", 0.0, personName + " owes you")
  {
  }

  /** The message shown when the current tab has no debts. */
  function EmptyMessage(tab: Tab): (m: string)
    ensures m == "No debts found with this person." <==> tab == All
  {
    match tab
    case All => "No debts found with this person."
    case Active => "No active debts found."
    case PaidOnly => "No paid debts found."
  }

  /** What the screen renders below its header. */
  datatype Screen =
    | MissingName
    | Loading
    | ErrorMessage(message: string)
    | History(card: Option<BalanceCard>, rows: seq<Debt>, emptyMessage: Option<string>)

  /** The screen for the hook's state and the chosen tab. */
  function Render(personName: string, hook: PersonDebtsHook, tab: Tab): (s: Screen)
    reads hook
    ensures personName == [] <==> s == MissingName
    ensures s.History? ==> s.rows == FilterDebts(hook.debts, tab)
                           && (s.emptyMessage.Some? <==> s.rows == [])
  {
    if personName == [] then MissingName
    else if hook.loading then Loading
    else if hook.error.Some? then ErrorMessage(hook.error.value)
    else
      var rows := FilterDebts(hook.debts, tab);
      History(
        if hook.summary.Some? then Some(NetBalanceCard(hook.summary.value.netBalance, personName)) else None,
        rows,
        if rows == [] then Some(EmptyMessage(tab)) else None)
  }

  /** The one state cell of the screen. */
  class PersonDetailScreen {
    var activeTab: Tab

    constructor ()
      ensures activeTab == All
    {
      activeTab := All;
    }

    method HandleTabChange(tab: Tab)
      modifies this
      ensures activeTab == tab
    {
      activeTab := tab;
    }
  }
}
