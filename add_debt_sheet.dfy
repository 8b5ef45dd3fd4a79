/**
 * The add-debt form: the checks on save, the payload it sends to the debt
 * service, the form reset after a successful create, and the link between
 * the typed person name and a picked contact.
 */
module AddDebtSheet {
  import opened Common
  import opened JsText
  import opened DebtModel
  import opened DebtService
  import opened ContactService
  import CurrencyAmountInput

  /** The payload built from the form fields. */
  function BuildPayload(debtType: DebtType, person: string, amount: string, currencyCode: string,
                        dueDate: string, selectedCategory: string, note: string, user: Option<User>)
    : CreateDebtPayload
  {
    CreateDebtPayload(
      Some(if debtType == Owed then person else CurrentUserName(user)),
      Some(if debtType == Owe then person else CurrentUserName(user)),
      Some(ParseFloat(amount)),
      Some(currencyCode),
      Some(dueDate),
      Some("pending"),
      if selectedCategory == [] then None else Some(selectedCategory),
      if Trim(note) == [] then None else Some(Trim(note)))
  }

  /**
   * An amount field holding only "." passes the input's sanitiser unchanged
   * and is sent to the debt service as NaN.
   */
  lemma DotAmountSendsNaN(debtType: DebtType, person: string, currencyCode: string,
                          dueDate: string, selectedCategory: string, note: string, user: Option<User>)
    ensures CurrencyAmountInput.Sanitize(".") == "."
    ensures BuildPayload(debtType, person, ".", currencyCode, dueDate, selectedCategory, note, user).amount
            == Some(NaN)
  {
  }

  /**
   * The user stands on the side the chosen type says and the person on the
   * other; the debt is new ('pending'), and an empty category or a blank
   * note is left out.
   */
  lemma PayloadSides(debtType: DebtType, person: string, amount: string, currencyCode: string,
                     dueDate: string, selectedCategory: string, note: string, user: Option<User>)
    ensures var p := BuildPayload(debtType, person, amount, currencyCode, dueDate, selectedCategory, note, user);
      && (debtType == Owe ==> p.debtorName == Some(CurrentUserName(user)) && p.creditorName == Some(person))
      && (debtType == Owed ==> p.debtorName == Some(person) && p.creditorName == Some(CurrentUserName(user)))
      && (person != CurrentUserName(user) ==>
            (p.debtorName == Some(CurrentUserName(user))) != (p.creditorName == Some(CurrentUserName(user))))
      && p.status == Some("pending") && p.currency == Some(currencyCode)
      && (p.category.None? <==> selectedCategory == [])
      && (p.description.None? <==> IsBlank(note))
  {
  }

  /**
   * A debt saved from the form is shown with the type the user chose and
   * the person as counterparty, as long as the person's trimmed name is not
   * the user's own name (which the form does not check).
   */
  lemma SavedDebtShownAsChosen(debtType: DebtType, person: string, amount: string, currencyCode: string,
                               dueDate: string, selectedCategory: string, note: string, user: Option<User>,
                               serviceUser: Option<User>, parse: DateParser, row: DebtInsert, id: string, timestamp: string)
    requires ValidateCreateDebt(
      BuildPayload(debtType, person, amount, currencyCode, dueDate, selectedCategory, note, user), serviceUser, parse) == Ok(row)
    requires row.amount.Finite?
    requires Trim(CurrentUserName(user)) == CurrentUserName(user) && Trim(person) != CurrentUserName(user)
    ensures Classify(DebtStore.Stored(row, id, timestamp), CurrentUserName(user)) == debtType
    ensures Counterparty(DebtStore.Stored(row, id, timestamp), CurrentUserName(user)) == Trim(person)
  {
    SavedNames(debtType, person, amount, currencyCode, dueDate, selectedCategory, note, user, serviceUser, parse,
               row, CurrentUserName(user), Trim(person));
  }

  /** The saved names: the user's name on the chosen side, the trimmed person on the other. */
  lemma SavedNames(debtType: DebtType, person: string, amount: string, currencyCode: string,
                   dueDate: string, selectedCategory: string, note: string, user: Option<User>,
                   serviceUser: Option<User>, parse: DateParser, row: DebtInsert, un: string, tp: string)
    requires ValidateCreateDebt(
      BuildPayload(debtType, person, amount, currencyCode, dueDate, selectedCategory, note, user), serviceUser, parse) == Ok(row)
    requires un == CurrentUserName(user) && tp == Trim(person) && Trim(un) == un
    ensures debtType == Owe ==> row.debtorName == un && row.creditorName == tp
    ensures debtType == Owed ==> row.debtorName == tp && row.creditorName == un
  {
    InsertedNames(BuildPayload(debtType, person, amount, currencyCode, dueDate, selectedCategory, note, user), serviceUser, parse);
  }

  /**
   * The form only asks for a non-empty person; a name of spaces gets past it
   * and the service then refuses it.
   */
  lemma BlankPersonRejectedByService(debtType: DebtType, person: string, amount: string, currencyCode: string,
                                     dueDate: string, selectedCategory: string, note: string, user: Option<User>,
                                     serviceUser: Option<User>, parse: DateParser)
    requires person != [] && AllSpace(person)
    requires !AllSpace(CurrentUserName(user))
    ensures var v := ValidateCreateDebt(
      BuildPayload(debtType, person, amount, currencyCode, dueDate, selectedCategory, note, user), serviceUser, parse);
      v == Err(if debtType == Owed then DebtorRequired else CreditorRequired)
  {
    BlankIffAllSpace(person);
    BlankIffAllSpace(CurrentUserName(user));
  }

  datatype FormAlert =
    | MissingInformation
    | AuthenticationRequired
    | Success
    | ErrorAlert(message: string)

  /** The message of the error alert after a failed create. */
  function FailureMessage(error: string): (m: string)
    ensures m != []
    ensures error != [] ==> m == error
  {
    if error != [] then error else "Failed to add debt. Please try again."
  }

  class AddDebtForm {
    var debtType: DebtType
    var person: string
    var amount: string
    var selectedCategory: string
    var note: string
    var dueDate: string
    var selectedContact: Option<Contact>
    var isCreating: bool
    var alerts: seq<FormAlert>
    /** How many times `onDebtAdded` was called. */
    var added: nat

    constructor ()
      ensures debtType == Owe && person == [] && amount == [] && selectedCategory == [] && note == []
      ensures dueDate == "2025-01-30" && selectedContact == None && !isCreating && alerts == [] && added == 0
    {
      debtType := Owe;
      person := [];
      amount := [];
      selectedCategory := [];
      note := [];
      dueDate := "2025-01-30";
      selectedContact := None;
      isCreating := false;
      alerts := [];
      added := 0;
    }

    /** A picked contact is still the person named in the text field. */
    predicate ContactLinked()
      reads this
    {
      selectedContact.Some? ==> selectedContact.value.name == person
    }

    /** The payload the current form fields make. */
    function Payload(user: Option<User>, currencyCode: string): CreateDebtPayload
      reads this
    {
      BuildPayload(debtType, person, amount, currencyCode, dueDate, selectedCategory, note, user)
    }

    /** The save button is disabled while a required field is empty or a create runs. */
    predicate SaveDisabled()
      reads this
    {
      person == [] || amount == [] || isCreating
    }

    method HandleContactSelect(contact: Contact)
      modifies this
      ensures selectedContact == Some(contact) && person == contact.name && ContactLinked()
      ensures debtType == old(debtType) && amount == old(amount) && note == old(note)
      ensures selectedCategory == old(selectedCategory) && dueDate == old(dueDate)
      ensures isCreating == old(isCreating) && alerts == old(alerts) && added == old(added)
    {
      selectedContact := Some(contact);
      person := contact.name;
    }

    /** Typing a name other than the picked contact's drops the contact. */
    method HandlePersonTextChange(text: string)
      modifies this
      ensures person == text && ContactLinked()
      ensures old(selectedContact).Some? && old(selectedContact).value.name == text ==> selectedContact == old(selectedContact)
      ensures old(selectedContact).Some? && old(selectedContact).value.name != text ==> selectedContact == None
      ensures old(selectedContact).None? ==> selectedContact == None
      ensures debtType == old(debtType) && amount == old(amount) && note == old(note)
      ensures selectedCategory == old(selectedCategory) && dueDate == old(dueDate)
      ensures isCreating == old(isCreating) && alerts == old(alerts) && added == old(added)
    {
      person := text;
      if selectedContact.Some? && text != selectedContact.value.name {
        selectedContact := None;
      }
    }

    method HandleTypeChange(t: DebtType)
      modifies this
      ensures debtType == t
      ensures person == old(person) && amount == old(amount) && note == old(note) && selectedContact == old(selectedContact)
      ensures selectedCategory == old(selectedCategory) && dueDate == old(dueDate)
      ensures isCreating == old(isCreating) && alerts == old(alerts) && added == old(added)
    {
      debtType := t;
    }

    /** A form with nothing typed in, no category and no contact. */
    predicate Cleared()
      reads this
    {
      person == [] && amount == [] && selectedCategory == [] && note == [] && selectedContact == None
    }

    /** The field resets after a successful create: all but the type and the due date are emptied. */
    method ClearFields()
      modifies this
      ensures Cleared()
      ensures debtType == old(debtType) && dueDate == old(dueDate)
      ensures isCreating == old(isCreating) && alerts == old(alerts) && added == old(added)
    {
      person := [];
      amount := [];
      selectedCategory := [];
      note := [];
      selectedContact := None;
    }

    /**
     * The part of `handleSave` after the checks: create the debt, then reset
     * the form and report success, or report the error.
     */
    method Submit(newDebt: CreateDebtPayload, store: DebtStore, serviceUser: Option<User>, parse: DateParser,
                  dbError: Option<string>, newId: string, timestamp: string)
      requires RefusesNaN(ValidateCreateDebt(newDebt, serviceUser, parse), dbError)
      modifies this, store
      ensures var r := CreateOutcome(newDebt, serviceUser, parse, dbError, newId, timestamp);
        && (r.Ok? ==>
              && store.rows == old(store.rows) + [r.value] && Cleared()
              && added == old(added) + 1 && alerts == old(alerts) + [Success])
        && (r.Err? ==>
              && store.rows == old(store.rows) && alerts == old(alerts) + [ErrorAlert(FailureMessage(r.error))]
              && person == old(person) && amount == old(amount) && selectedCategory == old(selectedCategory)
              && note == old(note) && selectedContact == old(selectedContact) && added == old(added))
      ensures debtType == old(debtType) && dueDate == old(dueDate) && !isCreating
    {
      isCreating := true;
      var r := store.CreateDebt(newDebt, serviceUser, parse, dbError, newId, timestamp);
      if r.Ok? {
        ClearFields();
        added := added + 1;
        alerts := alerts + [Success];
      } else {
        alerts := alerts + [ErrorAlert(FailureMessage(r.error))];
      }
      isCreating := false;
    }

    /**
     * `handleSave`. `isAuthenticated` and `user` are what the form's auth
     * hook reports; `serviceUser`, `parse`, `dbError`, `newId` and
     * `timestamp` are what the debt service sees when it runs.
     */
    method HandleSave(isAuthenticated: bool, user: Option<User>, currencyCode: string,
                      store: DebtStore, serviceUser: Option<User>, parse: DateParser,
                      dbError: Option<string>, newId: string, timestamp: string)
      requires !isCreating
      requires RefusesNaN(ValidateCreateDebt(Payload(user, currencyCode), serviceUser, parse), dbError)
      modifies this, store
      ensures old(person) == [] || old(amount) == [] ==>
        && alerts == old(alerts) + [MissingInformation]
        && store.rows == old(store.rows)
        && person == old(person) && amount == old(amount) && added == old(added)
        && selectedCategory == old(selectedCategory) && note == old(note) && selectedContact == old(selectedContact)
      ensures old(person) != [] && old(amount) != [] && !isAuthenticated ==>
        && alerts == old(alerts) + [AuthenticationRequired]
        && store.rows == old(store.rows)
        && person == old(person) && amount == old(amount) && added == old(added)
        && selectedCategory == old(selectedCategory) && note == old(note) && selectedContact == old(selectedContact)
      ensures old(person) != [] && old(amount) != [] && isAuthenticated ==>
        var r := CreateOutcome(old(Payload(user, currencyCode)), serviceUser, parse, dbError, newId, timestamp);
        && (r.Ok? ==>
              && store.rows == old(store.rows) + [r.value] && Cleared()
              && added == old(added) + 1 && alerts == old(alerts) + [Success])
        && (r.Err? ==>
              && store.rows == old(store.rows) && alerts == old(alerts) + [ErrorAlert(FailureMessage(r.error))]
              && person == old(person) && amount == old(amount) && added == old(added)
              && selectedCategory == old(selectedCategory) && note == old(note)
              && selectedContact == old(selectedContact))
      ensures debtType == old(debtType) && dueDate == old(dueDate) && !isCreating
      ensures old(ContactLinked()) ==> ContactLinked()
    {
      if person == [] || amount == [] {
        alerts := alerts + [MissingInformation];
        return;
      }
      if !isAuthenticated {
        alerts := alerts + [AuthenticationRequired];
        return;
      }
      Submit(Payload(user, currencyCode), store, serviceUser, parse, dbError, newId, timestamp);
    }
  }
}
