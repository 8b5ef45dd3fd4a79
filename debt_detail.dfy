/**
 * The debt detail screen: finding the debt in the loaded list, what the
 * screen shows, and the guarded "mark as repaid" action.
 */
module DebtDetail {
  import opened Common
  import opened JsText
  import opened DebtModel
  import opened DebtService

  /** `debts.find(d => d.id === debtId)`: the first debt with that id. */
  function FindById(debts: seq<Debt>, debtId: string): (r: Option<Debt>)
    ensures r.None? <==> forall i :: 0 <= i < |debts| ==> debts[i].id != debtId
    ensures r.Some? ==> exists k :: 0 <= k < |debts| && debts[k] == r.value && r.value.id == debtId
                                    && forall i :: 0 <= i < k ==> debts[i].id != debtId
  {
    if debts == [] then None
    else if debts[0].id == debtId then Some(debts[0])
    else
      var r := FindById(debts[1..], debtId);
      assert forall i :: 1 <= i < |debts| ==> debts[i] == debts[1..][i - 1];
      r
  }

  /** What the screen renders. */
  datatype View = Loading | ErrorView(message: string) | Detail(debt: Debt)

  /** The dialogs the screen opens. */
  datatype Alert =
    | AuthenticationRequired        // signed out: asked to sign in
    | ConfirmRepaid                 // 'Mark as repaid' confirmation
    | AuthenticationError           // the update failed with an auth-looking message
    | ErrorAlert(message: string)   // any other failure

  /** The dialog shown when the status update fails with `message`. */
  function FailureAlert(message: string): Alert {
    if Contains(message, "authentication") || Contains(message, "unauthorized") then AuthenticationError
    else ErrorAlert("Failed to mark debt as repaid: " + message)
  }

  /**
   * The service's own "not signed in" message does not contain
   * 'authentication', so it reaches the user as a generic error.
   */
  lemma ServiceAuthFailureShownAsGenericError(message: string)
    requires message == NotAuthenticated
    ensures FailureAlert(message) == ErrorAlert("Failed to mark debt as repaid: " + message)
  {
    LacksUnauthorized(message);
    LacksAuthentication(message);
  }

  /** 'unauthorized' has a 'z', which the message lacks. */
  lemma LacksUnauthorized(m: string)
    requires m == NotAuthenticated
    ensures !Contains(m, "unauthorized")
  {
    assert 'z' !in m;
    NotContainedAt(m, "unauthorized", 9);
  }

  /** The only 'o' of the message comes too early for the 'o' of 'authentication'. */
  lemma LacksAuthentication(m: string)
    requires m == NotAuthenticated
    ensures !Contains(m, "authentication")
  {
    var front, back := "User not aut", "henticated.";
    assert m == front + back;
    assert 'o' !in back;
    forall j | 12 <= j < |m| ensures m[j] != 'o' {
      assert m[j] == back[j - 12];
      assert back[j - 12] in back;
    }
    NotContainedAt(m, "authentication", 12);
  }

  /**
   * `p` does not occur in `m` when the character at offset `k` of `p` shows
   * up in `m` only before index `k`.
   */
  lemma NotContainedAt(m: string, p: string, k: nat)
    requires k < |p|
    requires forall j :: 0 <= j < |m| && m[j] == p[k] ==> j < k
    ensures !Contains(m, p)
  {
    ContainsIffOccurs(m, p);
    forall i | OccursAt(m, p, i) ensures m[i + k] == p[k] {
      assert m[i..i + |p|][k] == m[i + k];
    }
  }

  class DebtDetailScreen {
    var debt: Option<Debt>
    var loading: bool
    var error: Option<string>
    var isRepaid: bool
    var isUpdating: bool
    var alerts: seq<Alert>

    constructor ()
      ensures debt == None && loading && error == None && !isRepaid && !isUpdating && alerts == []
    {
      debt := None;
      loading := true;
      error := None;
      isRepaid := false;
      isUpdating := false;
      alerts := [];
    }

    /** Loading first, then any error or a missing debt, then the debt. */
    function Render(): View
      reads this
    {
      if loading then Loading
      else if error.Some? then ErrorView(error.value)
      else if debt.None? then ErrorView("Could not load debt details.")
      else Detail(debt.value)
    }

    /** The repayment progress: 1 for a paid debt, else 0. */
    function RepaymentProgress(): (p: int)
      reads this
      requires debt.Some?
      ensures p == 1 <==> debt.value.status == Paid
      ensures p == 0 || p == 1
    {
      if debt.value.status == Paid then 1 else 0
    }

    /** The action button is disabled once repaid or while an update runs. */
    predicate ActionDisabled()
      reads this
    {
      isRepaid || isUpdating
    }

    /** `findDebt`, run whenever the id, the list or its loading flag changes. */
    method FindDebt(debtId: string, debts: seq<Debt>, debtsLoading: bool)
      modifies this
      ensures alerts == old(alerts) && isUpdating == old(isUpdating)
      ensures debtId == [] ==>
        Render() == ErrorView("No debt ID provided.") && debt == old(debt) && isRepaid == old(isRepaid)
      ensures debtId != [] && debtsLoading ==>
        Render() == Loading && debt == old(debt) && error == old(error) && isRepaid == old(isRepaid)
      ensures debtId != [] && !debtsLoading && FindById(debts, debtId).Some? ==>
        && Render() == Detail(FindById(debts, debtId).value)
        && Render().debt.id == debtId
        && (isRepaid <==> Render().debt.status == Paid)
      ensures debtId != [] && !debtsLoading && FindById(debts, debtId).None? ==>
        Render() == ErrorView("Debt not found.") && debt == old(debt) && isRepaid == old(isRepaid)
    {
      if debtId == [] {
        error := Some("No debt ID provided.");
        loading := false;
        return;
      }
      if debtsLoading {
        loading := true;
        return;
      }
      var found := FindById(debts, debtId);
      if found.Some? {
        debt := found;
        error := None;
        isRepaid := found.value.status == Paid;
      } else {
        error := Some("Debt not found.");
      }
      loading := false;
    }

    /**
     * `handleMarkRepaid`. `confirmed` is the answer to the confirmation
     * dialog; `currentUser` and `dbError` are what the status update sees.
     */
    method HandleMarkRepaid(isAuthenticated: bool, confirmed: bool, store: DebtStore,
                            currentUser: Option<User>, dbError: Option<string>)
      requires debt.Some?
      modifies this, store
      ensures old(isUpdating) ==> unchanged(this) && store.rows == old(store.rows)
      ensures !old(isUpdating) && !isAuthenticated ==>
        && alerts == old(alerts) + [AuthenticationRequired]
        && store.rows == old(store.rows)
        && debt == old(debt) && isRepaid == old(isRepaid) && !isUpdating
      ensures !old(isUpdating) && isAuthenticated && !confirmed ==>
        && alerts == old(alerts) + [ConfirmRepaid]
        && store.rows == old(store.rows)
        && debt == old(debt) && isRepaid == old(isRepaid) && !isUpdating
      ensures !old(isUpdating) && isAuthenticated && confirmed ==>
        var u := UpdateResult(old(store.rows), old(debt).value.id, Paid, currentUser, dbError);
        && !isUpdating
        && (u.Ok? ==>
              && debt == Some(old(debt).value.(status := Paid))
              && isRepaid && ActionDisabled() && RepaymentProgress() == 1
              && alerts == old(alerts) + [ConfirmRepaid]
              && store.rows == WithStatus(old(store.rows), old(debt).value.id, currentUser.value.id, Paid))
        && (u.Err? ==>
              && debt == old(debt) && isRepaid == old(isRepaid)
              && alerts == old(alerts) + [ConfirmRepaid, FailureAlert(u.error)]
              && store.rows == old(store.rows))
      ensures loading == old(loading) && error == old(error)
    {
      if isUpdating {
        return;
      }
      if !isAuthenticated {
        alerts := alerts + [AuthenticationRequired];
        return;
      }
      alerts := alerts + [ConfirmRepaid];
      if !confirmed {
        return;
      }
      isUpdating := true;
      var r := store.UpdateDebtStatus(debt.value.id, Paid, currentUser, dbError);
      if r.Ok? {
        debt := Some(debt.value.(status := Paid));
        isRepaid := true;
      } else {
        alerts := alerts + [FailureAlert(r.error)];
      }
      isUpdating := false;
    }
  }
}
