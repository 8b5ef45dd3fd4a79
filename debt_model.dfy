/**
 * The debt record of the ledger (the `Debt` interface), the signed-in user,
 * and the two conventions every screen shares: the display name that stands
 * for "me" in debtor/creditor fields, and how a due date is compared with now.
 */
module DebtModel {
  import opened Common
  import opened JsText

  /** The three stored status values. */
  datatype DebtStatus = Pending | Paid | Overdue

  /** One debt row as the application reads it back from the database. */
  datatype Debt = Debt(
    id: string,
    userId: string,
    debtorName: string,
    creditorName: string,
    amount: real,
    currency: string,
    dueDate: string,
    status: DebtStatus,
    category: Option<string>,
    description: Option<string>,
    createdAt: string,
    updatedAt: string)

  /** The signed-in user; `name` is the display name derived at sign-in. */
  datatype User = User(id: string, email: string, name: string)

  /**
   * Parsing of a date string into an instant in milliseconds (`new Date(s)`):
   * `None` is an Invalid Date. The calendar itself is not part of the model,
   * so every caller receives the parser as a parameter.
   */
  type DateParser = string -> Option<int>

  /**
   * The display name given to a user at sign-in: the profile name, else the
   * part of the e-mail address before its first `@`, else the empty string.
   */
  function DisplayName(profileName: Option<string>, email: Option<string>): (r: string)
    ensures profileName.Some? && profileName.value != [] ==> r == profileName.value
    ensures (profileName.None? || profileName.value == []) && email.Some? ==>
      '@' !in r && r <= email.value && (r == email.value <==> '@' !in email.value)
    ensures (profileName.None? || profileName.value == []) && email.None? ==> r == []
  {
    if profileName.Some? && profileName.value != [] then profileName.value
    else if email.Some? then
      LocalPartIsPrefix(email.value);
      Split(email.value, '@')[0]
    else []
  }

  lemma LocalPartIsPrefix(email: string)
    ensures var local := Split(email, '@')[0];
      local <= email && (local == email <==> '@' !in email)
  {
    if '@' in email {
      SplitAtFirst(email, '@');
    }
  }

  /**
   * `user?.name || 'You'`: the name that stands for the current user in the
   * debtor and creditor fields. It is never empty.
   */
  function CurrentUserName(user: Option<User>): (r: string)
    ensures r != []
    ensures user.Some? && user.value.name != [] ==> r == user.value.name
  {
    if user.Some? && user.value.name != [] then user.value.name else "You"
  }

  /**
   * `new Date(dueDate) < new Date() && status !== 'paid'`: an Invalid Date
   * compares false, so an unparsable due date is never overdue.
   */
  predicate IsOverdue(d: Debt, now: int, parse: DateParser) {
    match parse(d.dueDate)
    case Some(due) => due < now && d.status != Paid
    case None => false
  }

  /** An entry of the supported-currency table. */
  datatype Currency = Currency(code: string, name: string, symbol: string, flag: string)

  /** The supported currencies, in display order; the first is the default. */
  const SupportedCurrencies: seq<Currency> := [
    Currency("USD", "US Dollar", "$", "\U{1F1FA}\U{1F1F8}"),
    Currency("EUR", "Euro", "\U{20AC}", "\U{1F1EA}\U{1F1FA}"),
    Currency("GBP", "British Pound", "\U{00A3}", "\U{1F1EC}\U{1F1E7}"),
    Currency("CAD", "Canadian Dollar", "C$", "\U{1F1E8}\U{1F1E6}"),
    Currency("JPY", "Japanese Yen", "\U{00A5}", "\U{1F1EF}\U{1F1F5}"),
    Currency("AUD", "Australian Dollar", "A$", "\U{1F1E6}\U{1F1FA}"),
    Currency("CHF", "Swiss Franc", "CHF", "\U{1F1E8}\U{1F1ED}")
  ]

  const DefaultCurrency: Currency := SupportedCurrencies[0]

  /** `SUPPORTED_CURRENCIES.some(c => c.code === code)`. */
  predicate IsSupportedCode(code: string) {
    exists i :: 0 <= i < |SupportedCurrencies| && SupportedCurrencies[i].code == code
  }

  /** The supported codes, spelled out. */
  lemma SupportedCodeList(code: string)
    ensures IsSupportedCode(code) <==> code in ["USD", "EUR", "GBP", "CAD", "JPY", "AUD", "CHF"]
  {
    var cs := SupportedCurrencies;
    if code in ["USD", "EUR", "GBP", "CAD", "JPY", "AUD", "CHF"] {
      if code == "USD" { assert cs[0].code == code; }
      else if code == "EUR" { assert cs[1].code == code; }
      else if code == "GBP" { assert cs[2].code == code; }
      else if code == "CAD" { assert cs[3].code == code; }
      else if code == "JPY" { assert cs[4].code == code; }
      else if code == "AUD" { assert cs[5].code == code; }
      else { assert cs[6].code == code; }
    }
  }

  /** A paid debt is never overdue, whatever its due date. */
  lemma PaidNeverOverdue(d: Debt, now: int, parse: DateParser)
    requires d.status == Paid
    ensures !IsOverdue(d, now, parse)
  {
  }

  /** Whose debt it is from the current user's side. */
  datatype DebtType = Owe | Owed

  /** `debtorName === currentUserName ? 'owe' : 'owed'`. */
  function Classify(d: Debt, userName: string): DebtType {
    if d.debtorName == userName then Owe else Owed
  }

  /** The other party: the creditor of a debt the user owes, else the debtor. */
  function Counterparty(d: Debt, userName: string): string {
    if Classify(d, userName) == Owe then d.creditorName else d.debtorName
  }

  /**
   * The classification follows the debtor name alone, and the counterparty is
   * the user only when both names are the user's.
   */
  lemma ClassifyCounterparty(d: Debt, userName: string)
    ensures Classify(d, userName) == Owe <==> d.debtorName == userName
    ensures Counterparty(d, userName) == userName <==> d.debtorName == userName && d.creditorName == userName
    ensures Counterparty(d, userName) in {d.debtorName, d.creditorName}
  {
  }

  /** The status badge: 'Paid' if paid, else 'Overdue' if overdue, else 'Pending'. */
  function StatusLabel(d: Debt, now: int, parse: DateParser): string {
    if d.status == Paid then "Paid"
    else if IsOverdue(d, now, parse) then "Overdue"
    else "Pending"
  }

  /**
   * The label depends on the stored status only through 'paid': a stored
   * 'overdue' whose due date is not yet past, or does not parse, shows 'Pending'.
   */
  lemma StatusLabelCases(d: Debt, now: int, parse: DateParser)
    ensures StatusLabel(d, now, parse) == "Paid" <==> d.status == Paid
    ensures StatusLabel(d, now, parse) == "Overdue" <==>
      d.status != Paid && parse(d.dueDate).Some? && parse(d.dueDate).value < now
    ensures d.status == Overdue && (parse(d.dueDate).None? || parse(d.dueDate).value >= now) ==>
      StatusLabel(d, now, parse) == "Pending"
    ensures StatusLabel(d, now, parse) in {"Paid", "Overdue", "Pending"}
  {
  }
}
