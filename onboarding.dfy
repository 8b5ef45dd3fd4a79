/**
 * The onboarding draft: an optional debt that the first screens fill in,
 * the type first and the details after, and the test that decides whether
 * the draft is complete enough to be saved once the user has signed up.
 */
module Onboarding {
  import opened Common
  import opened JsText
  import opened DebtModel

  /** `OnboardingDebt`: every field but the type is text as typed. */
  datatype OnboardingDebt = OnboardingDebt(
    kind: DebtType,
    personName: string,
    amount: string,
    dueDate: string,
    category: string,
    note: string)

  /** `Omit<OnboardingDebt, 'type'>`, the argument of `setDebtDetails`. */
  datatype DebtDetails = DebtDetails(
    personName: string,
    amount: string,
    dueDate: string,
    category: string,
    note: string)

  const MsPerWeek := 7 * 24 * 60 * 60 * 1000

  /**
   * `new Date(t).toISOString().split('T')[0]`: the calendar day of an
   * instant, in milliseconds, as `YYYY-MM-DD`. The calendar is a parameter.
   */
  type IsoDay = int -> string

  /** The draft `setDebtType` starts when there is none: the type, a due date a week ahead, and empty text. */
  function NewDraft(kind: DebtType, now: int, isoDay: IsoDay): OnboardingDebt {
    OnboardingDebt(kind, [], [], isoDay(now + MsPerWeek), [], [])
  }

  /** The updater of `setDebtType`. */
  function WithType(prev: Option<OnboardingDebt>, kind: DebtType, now: int, isoDay: IsoDay): Option<OnboardingDebt> {
    match prev
    case Some(d) => Some(d.(kind := kind))
    case None => Some(NewDraft(kind, now, isoDay))
  }

  /** The updater of `setDebtDetails`: a missing draft stays missing. */
  function WithDetails(prev: Option<OnboardingDebt>, details: DebtDetails): Option<OnboardingDebt> {
    match prev
    case Some(d) => Some(OnboardingDebt(d.kind, details.personName, details.amount, details.dueDate,
                                        details.category, details.note))
    case None => None
  }

  /** The details part of a draft. */
  function Details(d: OnboardingDebt): DebtDetails {
    DebtDetails(d.personName, d.amount, d.dueDate, d.category, d.note)
  }

  /** `isComplete`. */
  predicate IsComplete(debt: Option<OnboardingDebt>) {
    debt.Some? && !IsBlank(debt.value.personName) && !IsBlank(debt.value.amount)
    && ParseFloat(debt.value.amount).Positive()
  }

  /**
   * Setting the type always leaves a draft of that type: a new one has empty
   * text and is due a week from now, an existing one keeps every other field.
   */
  lemma WithTypeShape(prev: Option<OnboardingDebt>, kind: DebtType, now: int, isoDay: IsoDay)
    ensures var r := WithType(prev, kind, now, isoDay);
      && r.Some? && r.value.kind == kind
      && (prev.Some? ==> Details(r.value) == Details(prev.value))
      && (prev.None? ==> Details(r.value) == DebtDetails([], [], isoDay(now + MsPerWeek), [], []))
  {
  }

  /** Setting the details keeps the type and takes every other field from the details. */
  lemma WithDetailsShape(prev: Option<OnboardingDebt>, details: DebtDetails)
    ensures var r := WithDetails(prev, details);
      && (r.Some? <==> prev.Some?)
      && (r.Some? ==> r.value.kind == prev.value.kind && Details(r.value) == details)
  {
  }

  /**
   * The onboarding flow, type then details, ends with the same draft
   * whatever was there before.
   */
  lemma TypeThenDetails(prev: Option<OnboardingDebt>, kind: DebtType, now: int, isoDay: IsoDay, details: DebtDetails)
    ensures WithDetails(WithType(prev, kind, now, isoDay), details)
         == Some(OnboardingDebt(kind, details.personName, details.amount, details.dueDate, details.category, details.note))
  {
  }

  /** A text that `parseFloat` reads as a positive number is never blank. */
  lemma PositiveNotBlank(s: string)
    requires ParseFloat(s).Positive()
    ensures !IsBlank(s)
  {
    if IsBlank(s) {
      BlankIffAllSpace(s);
      BlankParsesNaN(s);
    }
  }

  lemma BlankParsesNaN(s: string)
    requires AllSpace(s)
    ensures ParseFloat(s) == NaN
  {
    if LeadingSpace(s) < |s| {
      assert false;
    }
    assert TrimStart(s) == [];
  }

  /**
   * The blank-amount test of `isComplete` is implied by the positive-amount
   * test; completeness depends only on the draft's details, never on its type,
   * and a fresh draft is never complete.
   */
  lemma CompleteIff(debt: Option<OnboardingDebt>, kind: DebtType, now: int, isoDay: IsoDay)
    ensures IsComplete(debt) <==>
      debt.Some? && !IsBlank(debt.value.personName) && ParseFloat(debt.value.amount).Positive()
    ensures debt.Some? ==> (IsComplete(WithType(debt, kind, now, isoDay)) <==> IsComplete(debt))
    ensures !IsComplete(WithType(None, kind, now, isoDay))
  {
    if debt.Some? && ParseFloat(debt.value.amount).Positive() {
      PositiveNotBlank(debt.value.amount);
    }
    assert IsBlank([]);
  }

  class OnboardingContext {
    /** The `debt` state: `None` before a type is chosen and after clearing. */
    var debt: Option<OnboardingDebt>

    constructor ()
      ensures debt == None
    {
      debt := None;
    }

    method SetDebtType(kind: DebtType, now: int, isoDay: IsoDay)
      modifies this
      ensures debt == WithType(old(debt), kind, now, isoDay)
      ensures debt.Some? && debt.value.kind == kind
    {
      debt := WithType(debt, kind, now, isoDay);
    }

    method SetDebtDetails(details: DebtDetails)
      modifies this
      ensures debt == WithDetails(old(debt), details)
      ensures debt.Some? <==> old(debt).Some?
    {
      debt := WithDetails(debt, details);
    }

    method ClearDebt()
      modifies this
      ensures debt == None && !IsComplete(debt)
    {
      debt := None;
    }

    predicate Complete()
      reads this
    {
      IsComplete(debt)
    }
  }
}
