/**
 * The filter sheet of the debts list: a local copy of the filters that the
 * select handlers edit one field at a time, that "clear" resets, and that
 * "apply" hands back to the list before closing the sheet.
 */
module FilterSheet {
  import opened Common

  datatype TypeFilter = AllDebts | OweDebts | OwedDebts
  datatype DateRange = AnyDate | Overdue | Next7Days | Next30Days

  /** `DebtFilters`; a category of `None` stands for `null`, meaning every category. */
  datatype DebtFilters = DebtFilters(kind: TypeFilter, category: Option<string>, dateRange: DateRange)

  /** The filters `handleClearFilters` sets. */
  const ClearedFilters := DebtFilters(AllDebts, None, AnyDate)

  /** `hasActiveFilters`: some field differs from its "everything" value. */
  predicate HasActiveFilters(f: DebtFilters) {
    f.kind != AllDebts || f.category != None || f.dateRange != AnyDate
  }

  /** The filters are active exactly when they are not the cleared ones. */
  lemma ActiveIffNotCleared(f: DebtFilters)
    ensures HasActiveFilters(f) <==> f != ClearedFilters
    ensures !HasActiveFilters(ClearedFilters)
  {
  }

  /**
   * Choosing a value for one field decides whether the filters are active
   * only together with the other two fields: a non-default choice always
   * makes them active, and a default choice leaves them active exactly when
   * one of the other fields is.
   */
  lemma SelectionActivity(f: DebtFilters, kind: TypeFilter, category: Option<string>, dateRange: DateRange)
    ensures HasActiveFilters(f.(kind := kind)) <==> kind != AllDebts || f.category.Some? || f.dateRange != AnyDate
    ensures HasActiveFilters(f.(category := category)) <==> category.Some? || f.kind != AllDebts || f.dateRange != AnyDate
    ensures HasActiveFilters(f.(dateRange := dateRange)) <==> dateRange != AnyDate || f.kind != AllDebts || f.category.Some?
  {
  }

  class FilterSheetState {
    /** The sheet's `filters` state. */
    var filters: DebtFilters
    /** Every value handed to `onApplyFilters`, oldest first. */
    var applied: seq<DebtFilters>
    /** How many times `onClose` has been called. */
    var closes: nat

    /** The state starts as the `initialFilters` prop. */
    constructor (initialFilters: DebtFilters)
      ensures filters == initialFilters && applied == [] && closes == 0
    {
      filters := initialFilters;
      applied := [];
      closes := 0;
    }

    /** The effect on a new `initialFilters` prop: local edits are dropped. */
    method InitialFiltersChanged(initialFilters: DebtFilters)
      modifies this
      ensures filters == initialFilters
      ensures applied == old(applied) && closes == old(closes)
    {
      filters := initialFilters;
    }

    /** `handleApplyFilters`: the current filters go to the list unchanged, then the sheet closes. */
    method HandleApplyFilters()
      modifies this
      ensures applied == old(applied) + [old(filters)] && closes == old(closes) + 1
      ensures filters == old(filters)
    {
      applied := applied + [filters];
      closes := closes + 1;
    }

    /** `handleClose`: the sheet closes and nothing is applied. */
    method HandleClose()
      modifies this
      ensures closes == old(closes) + 1
      ensures filters == old(filters) && applied == old(applied)
    {
      closes := closes + 1;
    }

    /** `handleClearFilters`: every field returns to "everything"; nothing is applied yet. */
    method HandleClearFilters()
      modifies this
      ensures filters == ClearedFilters && !HasActiveFilters(filters)
      ensures applied == old(applied) && closes == old(closes)
    {
      filters := ClearedFilters;
    }

    method HandleTypeSelect(kind: TypeFilter)
      modifies this
      ensures filters == old(filters).(kind := kind)
      ensures applied == old(applied) && closes == old(closes)
    {
      filters := filters.(kind := kind);
    }

    method HandleCategorySelect(categoryName: Option<string>)
      modifies this
      ensures filters == old(filters).(category := categoryName)
      ensures applied == old(applied) && closes == old(closes)
    {
      filters := filters.(category := categoryName);
    }

    method HandleDateRangeSelect(dateRange: DateRange)
      modifies this
      ensures filters == old(filters).(dateRange := dateRange)
      ensures applied == old(applied) && closes == old(closes)
    {
      filters := filters.(dateRange := dateRange);
    }
  }
}
