/**
 * The debt service: validation and normalisation of a new debt, the
 * owner-scoped status update and delete, and the sorted counterparty list.
 * The `debts` table is the field `rows` of `DebtStore`; the outcome of each
 * database round-trip that the model does not compute (a database error,
 * the generated id and timestamp) is a parameter.
 */
module DebtService {
  import opened Common
  import opened JsText
  import opened DebtModel

  /**
   * The payload as it reaches the service. `None` stands for a field that is
   * missing (or, for `amount`, a value whose type is not `number`).
   */
  datatype CreateDebtPayload = CreateDebtPayload(
    debtorName: Option<string>,
    creditorName: Option<string>,
    amount: Option<JsNumber>,
    currency: Option<string>,
    dueDate: Option<string>,
    status: Option<string>,
    category: Option<string>,
    description: Option<string>)

  /** The row sent to the database. */
  datatype DebtInsert = DebtInsert(
    userId: string,
    debtorName: string,
    creditorName: string,
    amount: JsNumber,
    currency: string,
    dueDate: string,
    status: DebtStatus,
    category: Option<string>,
    description: Option<string>)

  const DebtorRequired := "Debtor name is required."
  const CreditorRequired := "Creditor name is required."
  const AmountInvalid := "Amount must be a positive number."
  const CurrencyInvalid := "Invalid or unsupported currency."
  const DateShapeInvalid := "Due date must be in YYYY-MM-DD format."
  const DateInvalid := "Invalid due date."
  const NotAuthenticated := "User not authenticated."
  const StatusInvalid := "Invalid debt status."

  /** `!name || name.trim() === ''` fails. */
  predicate NamePresent(name: Option<string>) {
    name.Some? && !IsBlank(name.value)
  }

  /** `typeof amount !== 'number' || amount <= 0` fails; NaN is not `<= 0`. */
  predicate AmountAccepted(amount: Option<JsNumber>) {
    amount.Some? && !amount.value.AtMostZero()
  }

  predicate CurrencyAccepted(currency: Option<string>) {
    currency.Some? && currency.value != [] && IsSupportedCode(currency.value)
  }

  /** The pattern `^\d{4}-\d{2}-\d{2}$`. */
  predicate IsIsoDateShape(s: string) {
    |s| == 10 && s[4] == '-' && s[7] == '-'
    && forall i :: 0 <= i < 10 && i != 4 && i != 7 ==> IsDigit(s[i])
  }

  predicate DateShapeAccepted(dueDate: Option<string>) {
    dueDate.Some? && IsIsoDateShape(dueDate.value)
  }

  predicate DateParses(dueDate: Option<string>, parse: DateParser) {
    dueDate.Some? && parse(dueDate.value).Some?
  }

  /** `payload.status || 'pending'`. */
  function StatusText(status: Option<string>): string {
    if status.None? || status.value == [] then "pending" else status.value
  }

  function ParseStatus(text: string): (r: Option<DebtStatus>)
    ensures r.Some? <==> text in ["pending", "paid", "overdue"]
  {
    if text == "pending" then Some(Pending)
    else if text == "paid" then Some(Paid)
    else if text == "overdue" then Some(Overdue)
    else None
  }

  /** `category || null`. */
  function CategoryOrNull(category: Option<string>): Option<string> {
    if category.None? || category.value == [] then None else category
  }

  /** `description?.trim() || null`. */
  function DescriptionOrNull(description: Option<string>): Option<string> {
    if description.None? || Trim(description.value) == [] then None else Some(Trim(description.value))
  }

  /** The guard chain of `createDebt` followed by the construction of the inserted row. */
  function ValidateCreateDebt(p: CreateDebtPayload, currentUser: Option<User>, parse: DateParser)
    : (r: Result<DebtInsert, string>)
  {
    if !NamePresent(p.debtorName) then Err(DebtorRequired)
    else if !NamePresent(p.creditorName) then Err(CreditorRequired)
    else if !AmountAccepted(p.amount) then Err(AmountInvalid)
    else if !CurrencyAccepted(p.currency) then Err(CurrencyInvalid)
    else if !DateShapeAccepted(p.dueDate) then Err(DateShapeInvalid)
    else if !DateParses(p.dueDate, parse) then Err(DateInvalid)
    else if currentUser.None? then Err(NotAuthenticated)
    else if ParseStatus(StatusText(p.status)).None? then Err(StatusInvalid)
    else Ok(DebtInsert(
      currentUser.value.id,
      Trim(p.debtorName.value),
      Trim(p.creditorName.value),
      p.amount.value,
      p.currency.value,
      p.dueDate.value,
      ParseStatus(StatusText(p.status)).value,
      CategoryOrNull(p.category),
      DescriptionOrNull(p.description)))
  }

  /** One check of the validator: whether it passes and the message it throws otherwise. */
  datatype Check = Check(passes: bool, message: string)

  /** The checks of `createDebt`, in the order the source runs them. */
  function Checks(p: CreateDebtPayload, currentUser: Option<User>, parse: DateParser): (cs: seq<Check>)
    ensures |cs| == 8
  {
    [ Check(NamePresent(p.debtorName), DebtorRequired),
      Check(NamePresent(p.creditorName), CreditorRequired),
      Check(AmountAccepted(p.amount), AmountInvalid),
      Check(CurrencyAccepted(p.currency), CurrencyInvalid),
      Check(DateShapeAccepted(p.dueDate), DateShapeInvalid),
      Check(DateParses(p.dueDate, parse), DateInvalid),
      Check(currentUser.Some?, NotAuthenticated),
      Check(ParseStatus(StatusText(p.status)).Some?, StatusInvalid) ]
  }

  /** The message of the first failing check at or after index `i`, if any. */
  function FirstFailure(cs: seq<Check>, i: nat): (r: Option<string>)
    requires i <= |cs|
    ensures r.None? <==> forall j :: i <= j < |cs| ==> cs[j].passes
    decreases |cs| - i
  {
    if i == |cs| then None
    else if !cs[i].passes then Some(cs[i].message)
    else FirstFailure(cs, i + 1)
  }

  /**
   * `createDebt` throws exactly the message of the first failing check, in
   * source order, and accepts exactly when every check passes.
   */
  lemma ValidationReportsFirstFailure(p: CreateDebtPayload, currentUser: Option<User>, parse: DateParser)
    ensures var r := ValidateCreateDebt(p, currentUser, parse);
      var f := FirstFailure(Checks(p, currentUser, parse), 0);
      && (r.Ok? <==> f.None?)
      && (r.Err? ==> f == Some(r.error))
  {
    var cs := Checks(p, currentUser, parse);
    assert FirstFailure(cs, 7) == if cs[7].passes then None else Some(StatusInvalid);
    assert FirstFailure(cs, 6) == if cs[6].passes then FirstFailure(cs, 7) else Some(NotAuthenticated);
    assert FirstFailure(cs, 5) == if cs[5].passes then FirstFailure(cs, 6) else Some(DateInvalid);
    assert FirstFailure(cs, 4) == if cs[4].passes then FirstFailure(cs, 5) else Some(DateShapeInvalid);
    assert FirstFailure(cs, 3) == if cs[3].passes then FirstFailure(cs, 4) else Some(CurrencyInvalid);
    assert FirstFailure(cs, 2) == if cs[2].passes then FirstFailure(cs, 3) else Some(AmountInvalid);
    assert FirstFailure(cs, 1) == if cs[1].passes then FirstFailure(cs, 2) else Some(CreditorRequired);
  }

  /** A debtor name made only of white space is rejected with the first message. */
  lemma WhitespaceDebtorRejected(p: CreateDebtPayload, currentUser: Option<User>, parse: DateParser)
    requires p.debtorName.Some? && AllSpace(p.debtorName.value)
    ensures ValidateCreateDebt(p, currentUser, parse) == Err(DebtorRequired)
  {
    BlankIffAllSpace(p.debtorName.value);
  }

  /** The same for the creditor name, once the debtor name is present. */
  lemma WhitespaceCreditorRejected(p: CreateDebtPayload, currentUser: Option<User>, parse: DateParser)
    requires NamePresent(p.debtorName)
    requires p.creditorName.Some? && AllSpace(p.creditorName.value)
    ensures ValidateCreateDebt(p, currentUser, parse) == Err(CreditorRequired)
  {
    BlankIffAllSpace(p.creditorName.value);
  }

  /** NaN passes the amount guard, because `NaN <= 0` is false. */
  lemma NaNAmountAccepted(p: CreateDebtPayload, currentUser: Option<User>, parse: DateParser)
    requires p.amount == Some(NaN)
    requires ValidateCreateDebt(p.(amount := Some(Finite(1.0))), currentUser, parse).Ok?
    ensures ValidateCreateDebt(p, currentUser, parse).Ok?
    ensures ValidateCreateDebt(p, currentUser, parse).value.amount == NaN
  {
  }

  /**
   * The inserted row: trimmed names that neither start nor end with white
   * space, the payload's amount, currency and date, the user's id, status
   * 'pending' when none is given, an empty category as null, and the
   * trimmed description or null when it is blank.
   */
  lemma InsertedRowNormalised(p: CreateDebtPayload, currentUser: Option<User>, parse: DateParser)
    requires ValidateCreateDebt(p, currentUser, parse).Ok?
    ensures var row := ValidateCreateDebt(p, currentUser, parse).value;
      && currentUser.Some? && row.userId == currentUser.value.id
      && row.debtorName != [] && !IsSpace(row.debtorName[0]) && !IsSpace(row.debtorName[|row.debtorName| - 1])
      && row.creditorName != [] && !IsSpace(row.creditorName[0]) && !IsSpace(row.creditorName[|row.creditorName| - 1])
      && row.amount == p.amount.value && (row.amount.NaN? || row.amount.value > 0.0)
      && IsSupportedCode(row.currency) && Some(row.currency) == p.currency
      && IsIsoDateShape(row.dueDate) && Some(row.dueDate) == p.dueDate && parse(row.dueDate).Some?
      && ((p.status.None? || p.status == Some("")) ==> row.status == Pending)
      && (row.category.None? <==> (p.category.None? || p.category == Some("")))
      && (row.category.Some? ==> row.category == p.category)
      && (row.description.None? <==> (p.description.None? || IsBlank(p.description.value)))
      && (row.description.Some? ==>
            row.description.value == Trim(p.description.value) && !IsSpace(row.description.value[0]))
  {
    TrimEnds(p.debtorName.value);
    TrimEnds(p.creditorName.value);
    if p.description.Some? {
      TrimEnds(p.description.value);
    }
  }

  /** The inserted names are the payload's names, trimmed. */
  lemma InsertedNames(p: CreateDebtPayload, currentUser: Option<User>, parse: DateParser)
    requires ValidateCreateDebt(p, currentUser, parse).Ok?
    ensures var row := ValidateCreateDebt(p, currentUser, parse).value;
      && row.debtorName == Trim(p.debtorName.value) && row.creditorName == Trim(p.creditorName.value)
  {
  }

  /** The id of the current user and the id of the debt both have to match. */
  predicate Owns(d: Debt, debtId: string, userId: string) {
    d.id == debtId && d.userId == userId
  }

  function MatchCount(rows: seq<Debt>, debtId: string, userId: string): nat {
    if rows == [] then 0
    else (if Owns(rows[0], debtId, userId) then 1 else 0) + MatchCount(rows[1..], debtId, userId)
  }

  /** The index of the one row that matches, when there is exactly one. */
  function MatchIndex(rows: seq<Debt>, debtId: string, userId: string): (k: nat)
    requires MatchCount(rows, debtId, userId) >= 1
    ensures k < |rows| && Owns(rows[k], debtId, userId)
    ensures forall i :: 0 <= i < k ==> !Owns(rows[i], debtId, userId)
  {
    if Owns(rows[0], debtId, userId) then 0
    else
      var k := MatchIndex(rows[1..], debtId, userId);
      assert forall i :: 1 <= i < k + 1 ==> rows[i] == rows[1..][i - 1];
      k + 1
  }

  /** The table after `update({status}).eq('id', debtId).eq('user_id', userId)`. */
  function WithStatus(rows: seq<Debt>, debtId: string, userId: string, status: DebtStatus): seq<Debt> {
    seq(|rows|, i requires 0 <= i < |rows| =>
      if Owns(rows[i], debtId, userId) then rows[i].(status := status) else rows[i])
  }

  /** The table after `delete().eq('id', debtId).eq('user_id', userId)`. */
  function WithoutDebt(rows: seq<Debt>, debtId: string, userId: string): seq<Debt> {
    if rows == [] then []
    else (if Owns(rows[0], debtId, userId) then [] else [rows[0]]) + WithoutDebt(rows[1..], debtId, userId)
  }

  /** Delete removes exactly the matching rows: every other row stays. */
  lemma {:induction false} DeleteRemovesExactlyMatches(rows: seq<Debt>, debtId: string, userId: string)
    ensures forall d :: d in WithoutDebt(rows, debtId, userId) <==> d in rows && !Owns(d, debtId, userId)
    ensures |WithoutDebt(rows, debtId, userId)| == |rows| - MatchCount(rows, debtId, userId)
  {
    if rows != [] {
      DeleteRemovesExactlyMatches(rows[1..], debtId, userId);
      assert rows == [rows[0]] + rows[1..];
    }
  }

  /** Deleting an id that matches nothing leaves the table as it was. */
  lemma {:induction false} DeleteAbsentUnchanged(rows: seq<Debt>, debtId: string, userId: string)
    requires MatchCount(rows, debtId, userId) == 0
    ensures WithoutDebt(rows, debtId, userId) == rows
  {
    if rows != [] {
      DeleteAbsentUnchanged(rows[1..], debtId, userId);
      assert rows == [rows[0]] + rows[1..];
    }
  }

  /** Rows of other users are never touched by an update or a delete. */
  lemma OtherUsersUntouched(rows: seq<Debt>, debtId: string, userId: string, status: DebtStatus, i: nat)
    requires i < |rows| && rows[i].userId != userId
    ensures WithStatus(rows, debtId, userId, status)[i] == rows[i]
    ensures rows[i] in WithoutDebt(rows, debtId, userId)
  {
    DeleteRemovesExactlyMatches(rows, debtId, userId);
  }

  /** Setting the same status twice is the same as setting it once. */
  lemma WithStatusIdempotent(rows: seq<Debt>, debtId: string, userId: string, status: DebtStatus)
    ensures WithStatus(WithStatus(rows, debtId, userId, status), debtId, userId, status)
         == WithStatus(rows, debtId, userId, status)
  {
  }

  /** The names appearing as debtor or creditor in a list of rows. */
  function NamesIn(ds: seq<Debt>): set<string> {
    if ds == [] then {} else NamesIn(ds[..|ds| - 1]) + {ds[|ds| - 1].debtorName, ds[|ds| - 1].creditorName}
  }

  lemma {:induction false} NamesInMembers(ds: seq<Debt>)
    ensures forall s :: s in NamesIn(ds) <==> exists d :: d in ds && (d.debtorName == s || d.creditorName == s)
  {
    if ds != [] {
      var init := ds[..|ds| - 1];
      NamesInMembers(init);
      assert ds == init + [ds[|ds| - 1]];
      forall s | exists d :: d in ds && (d.debtorName == s || d.creditorName == s)
        ensures s in NamesIn(ds)
      {
        var d :| d in ds && (d.debtorName == s || d.creditorName == s);
        if d != ds[|ds| - 1] {
          assert d in init;
        }
      }
    }
  }

  /** The rows a query with `.eq('user_id', userId)` returns, in table order. */
  function OwnedBy(rows: seq<Debt>, userId: string): (r: seq<Debt>)
    ensures forall d :: d in r <==> d in rows && d.userId == userId
  {
    if rows == [] then []
    else (if rows[0].userId == userId then [rows[0]] else []) + OwnedBy(rows[1..], userId)
  }

  const SingleRowError := "JSON object requested, multiple (or no) rows returned"

  /** What `updateDebtStatus` returns, given the table before the call. */
  function UpdateResult(rows: seq<Debt>, debtId: string, status: DebtStatus,
                        currentUser: Option<User>, dbError: Option<string>): (r: Result<Debt, string>)
    ensures r.Ok? ==> currentUser.Some? && MatchCount(rows, debtId, currentUser.value.id) == 1
                      && r.value.status == status && r.value.id == debtId && r.value.userId == currentUser.value.id
                      && r.value.(status := rows[MatchIndex(rows, debtId, currentUser.value.id)].status)
                         == rows[MatchIndex(rows, debtId, currentUser.value.id)]
    ensures currentUser.None? ==> r == Err(NotAuthenticated)
    ensures currentUser.Some? && dbError.Some? ==> r == Err("Failed to update debt: " + dbError.value)
    ensures currentUser.Some? && dbError.None? ==>
              (r.Ok? <==> MatchCount(rows, debtId, currentUser.value.id) == 1)
              && (r.Err? ==> r.error == "Failed to update debt: " + SingleRowError)
  {
    if currentUser.None? then Err(NotAuthenticated)
    else if dbError.Some? then Err("Failed to update debt: " + dbError.value)
    else if MatchCount(rows, debtId, currentUser.value.id) != 1 then Err("Failed to update debt: " + SingleRowError)
    else Ok(WithStatus(rows, debtId, currentUser.value.id, status)[MatchIndex(rows, debtId, currentUser.value.id)])
  }

  /**
   * An update changes nothing but the status of the rows that match both
   * ids; every other row keeps its place and its value.
   */
  lemma UpdateScoped(rows: seq<Debt>, debtId: string, userId: string, status: DebtStatus)
    ensures var r := WithStatus(rows, debtId, userId, status);
      && |r| == |rows|
      && forall i :: 0 <= i < |rows| ==>
           (Owns(rows[i], debtId, userId) ==> r[i].status == status && r[i].(status := rows[i].status) == rows[i])
           && (!Owns(rows[i], debtId, userId) ==> r[i] == rows[i])
  {
  }

  /** The database refuses a row whose amount is NaN: such an insert reports an error. */
  predicate RefusesNaN(v: Result<DebtInsert, string>, dbError: Option<string>) {
    v.Ok? && v.value.amount.NaN? ==> dbError.Some?
  }

  /** What `createDebt` returns: the validator's error, the database's error, or the stored debt. */
  function CreateOutcome(p: CreateDebtPayload, currentUser: Option<User>, parse: DateParser,
                         dbError: Option<string>, newId: string, timestamp: string): (r: Result<Debt, string>)
    requires RefusesNaN(ValidateCreateDebt(p, currentUser, parse), dbError)
    ensures var v := ValidateCreateDebt(p, currentUser, parse);
      && (v.Err? ==> r == Err(v.error))
      && (v.Ok? && dbError.Some? ==> r == Err("Failed to create debt: " + dbError.value))
      && (v.Ok? && dbError.None? ==> v.value.amount.Finite? && r == Ok(DebtStore.Stored(v.value, newId, timestamp)))
  {
    var v := ValidateCreateDebt(p, currentUser, parse);
    if v.Err? then Err(v.error)
    else if dbError.Some? then Err("Failed to create debt: " + dbError.value)
    else Ok(DebtStore.Stored(v.value, newId, timestamp))
  }

  /**
   * A created debt is the validated row with the new id and timestamps: the
   * caller's user id, the trimmed names, and a positive amount.
   */
  lemma CreatedDebtShape(p: CreateDebtPayload, currentUser: Option<User>, parse: DateParser,
                         dbError: Option<string>, newId: string, timestamp: string)
    requires RefusesNaN(ValidateCreateDebt(p, currentUser, parse), dbError)
    ensures var r := CreateOutcome(p, currentUser, parse, dbError, newId, timestamp);
      r.Ok? ==> && currentUser.Some? && r.value.userId == currentUser.value.id && r.value.id == newId
                && r.value.debtorName == Trim(p.debtorName.value) && r.value.creditorName == Trim(p.creditorName.value)
                && r.value.amount > 0.0 && r.value.createdAt == timestamp && r.value.updatedAt == timestamp
  {
    var v := ValidateCreateDebt(p, currentUser, parse);
    if v.Ok? && dbError.None? {
      InsertedRowNormalised(p, currentUser, parse);
      InsertedNames(p, currentUser, parse);
    }
  }

  /** The `debts` table, as far as this service reads and writes it. */
  class DebtStore {
    var rows: seq<Debt>

    constructor ()
      ensures rows == []
    {
      rows := [];
    }

    /** The debt a successful insert returns: the row plus what the database generates. */
    static function Stored(row: DebtInsert, id: string, timestamp: string): Debt
      requires row.amount.Finite?
    {
      Debt(id, row.userId, row.debtorName, row.creditorName, row.amount.value, row.currency,
           row.dueDate, row.status, row.category, row.description, timestamp, timestamp)
    }

    /**
     * `createDebt`. `dbError` is the error the insert reports, if any. The
     * database refuses a NaN amount (it arrives as null).
     */
    method CreateDebt(p: CreateDebtPayload, currentUser: Option<User>, parse: DateParser,
                      dbError: Option<string>, newId: string, timestamp: string)
      returns (r: Result<Debt, string>)
      requires RefusesNaN(ValidateCreateDebt(p, currentUser, parse), dbError)
      modifies this
      ensures r == CreateOutcome(p, currentUser, parse, dbError, newId, timestamp)
      ensures r.Ok? ==> rows == old(rows) + [r.value]
      ensures r.Err? ==> rows == old(rows)
    {
      var v := ValidateCreateDebt(p, currentUser, parse);
      if v.Err? {
        return Err(v.error);
      }
      if dbError.Some? {
        return Err("Failed to create debt: " + dbError.value);
      }
      var created := Stored(v.value, newId, timestamp);
      rows := rows + [created];
      return Ok(created);
    }

    /** `updateDebtStatus`: `.single()` fails unless exactly one row matches. */
    method UpdateDebtStatus(debtId: string, status: DebtStatus, currentUser: Option<User>, dbError: Option<string>)
      returns (r: Result<Debt, string>)
      modifies this
      ensures r == UpdateResult(old(rows), debtId, status, currentUser, dbError)
      ensures r.Err? ==> rows == old(rows)
      ensures r.Ok? ==> currentUser.Some? && rows == WithStatus(old(rows), debtId, currentUser.value.id, status)
    {
      if currentUser.None? {
        return Err(NotAuthenticated);
      }
      var userId := currentUser.value.id;
      if dbError.Some? {
        return Err("Failed to update debt: " + dbError.value);
      }
      if MatchCount(rows, debtId, userId) != 1 {
        return Err("Failed to update debt: " + SingleRowError);
      }
      var k := MatchIndex(rows, debtId, userId);
      rows := WithStatus(rows, debtId, userId, status);
      return Ok(rows[k]);
    }

    /** `deleteDebt`: removes every row matching both ids; no match is not an error. */
    method DeleteDebt(debtId: string, currentUser: Option<User>, dbError: Option<string>)
      returns (r: Result<(), string>)
      modifies this
      ensures currentUser.None? ==> r == Err(NotAuthenticated) && rows == old(rows)
      ensures currentUser.Some? && dbError.Some? ==>
        r == Err("Failed to delete debt: " + dbError.value) && rows == old(rows)
      ensures currentUser.Some? && dbError.None? ==>
        r == Ok(()) && rows == WithoutDebt(old(rows), debtId, currentUser.value.id)
    {
      if currentUser.None? {
        return Err(NotAuthenticated);
      }
      if dbError.Some? {
        return Err("Failed to delete debt: " + dbError.value);
      }
      rows := WithoutDebt(rows, debtId, currentUser.value.id);
      return Ok(());
    }

    /**
     * `getUniquePersons`: every debtor and creditor name of the user's rows
     * once, without the current user's name, in ascending order.
     */
    method GetUniquePersons(userId: string, currentUser: Option<User>, dbError: Option<string>)
      returns (r: Result<seq<string>, string>)
      ensures dbError.Some? ==> r == Err("Failed to fetch unique persons: " + dbError.value)
      ensures dbError.None? ==> r.Ok? && StrictlySorted(r.value)
      ensures dbError.None? ==> forall s :: s in r.value <==>
        && s != CurrentUserName(currentUser)
        && exists d :: d in rows && d.userId == userId && (d.debtorName == s || d.creditorName == s)
    {
      if dbError.Some? {
        return Err("Failed to fetch unique persons: " + dbError.value);
      }
      var data := OwnedBy(rows, userId);
      var persons := CollectNames(data);
      NamesInMembers(data);
      persons := persons - {CurrentUserName(currentUser)};
      var sorted := SortNames(persons);
      return Ok(sorted);
    }
  }

  /** The `forEach` that adds both names of every row to a set. */
  method CollectNames(data: seq<Debt>) returns (persons: set<string>)
    ensures persons == NamesIn(data)
  {
    persons := {};
    var i := 0;
    while i < |data|
      invariant 0 <= i <= |data|
      invariant persons == NamesIn(data[..i])
    {
      assert data[..i + 1][..i] == data[..i];
      persons := persons + {data[i].debtorName, data[i].creditorName};
      i := i + 1;
    }
    assert data[..i] == data;
  }

  /** `Array.from(persons).sort()`: the elements of the set in ascending order. */
  method SortNames(persons: set<string>) returns (sorted: seq<string>)
    ensures StrictlySorted(sorted)
    ensures forall s :: s in sorted <==> s in persons
  {
    var remaining := persons;
    sorted := [];
    while remaining != {}
      invariant remaining <= persons
      invariant StrictlySorted(sorted)
      invariant forall s :: s in sorted <==> s in persons && s !in remaining
      decreases |remaining|
    {
      var x :| x in remaining;
      sorted := Insert(sorted, x);
      remaining := remaining - {x};
    }
  }
}
