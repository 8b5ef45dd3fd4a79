/**
 * The category store: the built-in categories, the merge that puts missing
 * ones back, and the load, add and delete operations on the stored list.
 * The `debt_categories` AsyncStorage entry is the field `stored` of
 * `CategoryStore`; whether a write succeeds, the generated id and the
 * creation time are parameters.
 */
module CategoryService {
  import opened Common
  import opened JsText

  datatype Category = Category(id: string, name: string, emoji: string, isDefault: bool, createdAt: string)

  /** The nine built-in categories, ids "1" to "9". */
  const DefaultCategories: seq<Category> := [
    Category("1", "Dinner", "\U{1F37D}\U{FE0F}", true, "2025-01-01"),
    Category("2", "Gas", "\U{26FD}", true, "2025-01-01"),
    Category("3", "Concert", "\U{1F3B5}", true, "2025-01-01"),
    Category("4", "Loan", "\U{1F4B0}", true, "2025-01-01"),
    Category("5", "Coffee", "\U{2615}", true, "2025-01-01"),
    Category("6", "Groceries", "\U{1F6D2}", true, "2025-01-01"),
    Category("7", "Rent", "\U{1F3E0}", true, "2025-01-01"),
    Category("8", "Bills", "\U{1F4C4}", true, "2025-01-01"),
    Category("9", "Other", "\U{1F4DD}", true, "2025-01-01")
  ]

  /**
   * The stored entry: nothing (or an empty string), a value that cannot be
   * read or parsed as a list of categories, or a list.
   */
  datatype StoredCategories = NoCategories | UnreadableCategories | SavedCategories(categories: seq<Category>)

  /** The ids of a list, in order. */
  function Ids(cs: seq<Category>): (ids: seq<string>)
    ensures |ids| == |cs| && forall i :: 0 <= i < |cs| ==> ids[i] == cs[i].id
  {
    seq(|cs|, i requires 0 <= i < |cs| => cs[i].id)
  }

  /** Every built-in id occurs in the list. */
  predicate HasAllDefaults(cs: seq<Category>) {
    forall d :: d in DefaultCategories ==> d.id in Ids(cs)
  }

  /** The entries of `defs` whose id is not among `ids`, in order. */
  function Missing(defs: seq<Category>, ids: seq<string>): seq<Category> {
    if defs == [] then []
    else (if defs[0].id in ids then [] else [defs[0]]) + Missing(defs[1..], ids)
  }

  /** `mergeWithDefaults`: the list, then the built-in categories it lacks. */
  function MergeWithDefaults(existing: seq<Category>): seq<Category> {
    existing + Missing(DefaultCategories, Ids(existing))
  }

  lemma {:induction false} MissingMembers(defs: seq<Category>, ids: seq<string>)
    ensures forall c :: c in Missing(defs, ids) <==> c in defs && c.id !in ids
  {
    if defs != [] {
      MissingMembers(defs[1..], ids);
      assert defs == [defs[0]] + defs[1..];
    }
  }

  lemma {:induction false} MissingNone(defs: seq<Category>, ids: seq<string>)
    requires forall d :: d in defs ==> d.id in ids
    ensures Missing(defs, ids) == []
  {
    if defs != [] {
      assert defs[0] in defs;
      assert forall d :: d in defs[1..] ==> d in defs;
      MissingNone(defs[1..], ids);
    }
  }

  lemma IdsAppend(a: seq<Category>, b: seq<Category>)
    ensures Ids(a + b) == Ids(a) + Ids(b)
  {
    assert forall i :: 0 <= i < |a + b| ==> Ids(a + b)[i] == (Ids(a) + Ids(b))[i];
  }

  /**
   * The merge keeps the list as it was at the front, appends only built-in
   * categories whose id is missing, and leaves no built-in id missing.
   */
  lemma MergeShape(existing: seq<Category>)
    ensures var m := MergeWithDefaults(existing);
      && |existing| <= |m| && m[..|existing|] == existing
      && (forall c :: c in m[|existing|..] <==> c in DefaultCategories && c.id !in Ids(existing))
      && HasAllDefaults(m)
  {
    var m := MergeWithDefaults(existing);
    var extra := Missing(DefaultCategories, Ids(existing));
    MissingMembers(DefaultCategories, Ids(existing));
    assert m[|existing|..] == extra;
    IdsAppend(existing, extra);
    forall d | d in DefaultCategories ensures d.id in Ids(m) {
      if d.id !in Ids(existing) {
        assert d in extra;
        var k :| 0 <= k < |extra| && extra[k] == d;
        assert Ids(extra)[k] == d.id;
      }
    }
  }

  /** A list that already holds every built-in id is left as it is by the merge. */
  lemma MergeCompleteIdentity(existing: seq<Category>)
    requires HasAllDefaults(existing)
    ensures MergeWithDefaults(existing) == existing
  {
    MissingNone(DefaultCategories, Ids(existing));
  }

  lemma DefaultsComplete()
    ensures HasAllDefaults(DefaultCategories)
  {
    forall d | d in DefaultCategories ensures d.id in Ids(DefaultCategories) {
      var k :| 0 <= k < |DefaultCategories| && DefaultCategories[k] == d;
      assert Ids(DefaultCategories)[k] == d.id;
    }
  }

  /** The list `getCategories` returns for a stored entry. */
  function Loaded(stored: StoredCategories): (cs: seq<Category>)
    ensures HasAllDefaults(cs)
    ensures stored.SavedCategories? ==> |stored.categories| <= |cs| && cs[..|stored.categories|] == stored.categories
  {
    match stored
    case NoCategories => DefaultsComplete(); DefaultCategories
    case UnreadableCategories => DefaultsComplete(); DefaultCategories
    case SavedCategories(cs) =>
      if HasAllDefaults(cs) then cs else MergeShape(cs); MergeWithDefaults(cs)
  }

  /** Whether `getCategories` writes the list back: on first use and after a merge. */
  predicate LoadWrites(stored: StoredCategories) {
    stored.NoCategories? || (stored.SavedCategories? && !HasAllDefaults(stored.categories))
  }

  /** The stored entry after a write of `cs` that succeeds or not. */
  function Written(stored: StoredCategories, cs: seq<Category>, writeOk: bool): StoredCategories {
    if writeOk then SavedCategories(cs) else stored
  }

  /** The stored entry after `getCategories`. */
  function StoredAfterLoad(stored: StoredCategories, writeOk: bool): StoredCategories {
    if LoadWrites(stored) then Written(stored, Loaded(stored), writeOk) else stored
  }

  /**
   * On first use the built-in list is returned and saved; a stored list with
   * every built-in id comes back as it is and is not rewritten; a failed read
   * or parse gives the built-in list and writes nothing.
   */
  lemma LoadCases(stored: StoredCategories, writeOk: bool)
    ensures stored.NoCategories? ==>
      Loaded(stored) == DefaultCategories && StoredAfterLoad(stored, writeOk) == Written(stored, DefaultCategories, writeOk)
    ensures stored.UnreadableCategories? ==>
      Loaded(stored) == DefaultCategories && StoredAfterLoad(stored, writeOk) == stored
    ensures stored.SavedCategories? && HasAllDefaults(stored.categories) ==>
      Loaded(stored) == stored.categories && StoredAfterLoad(stored, writeOk) == stored
    ensures stored.SavedCategories? && !HasAllDefaults(stored.categories) ==>
      Loaded(stored) == MergeWithDefaults(stored.categories)
  {
  }

  /** Loading twice gives the same list as loading once, once the first write went through. */
  lemma LoadStable(stored: StoredCategories)
    ensures Loaded(StoredAfterLoad(stored, true)) == Loaded(stored)
    ensures StoredAfterLoad(StoredAfterLoad(stored, true), true) == StoredAfterLoad(stored, true)
  {
  }

  /** The first entry with the id, as `Array.prototype.find` returns it. */
  function FindById(cs: seq<Category>, id: string): (r: Option<Category>)
    ensures r.Some? <==> id in Ids(cs)
    ensures r.Some? ==> r.value in cs && r.value.id == id
  {
    if cs == [] then None
    else if cs[0].id == id then Some(cs[0])
    else
      var r := FindById(cs[1..], id);
      assert Ids(cs) == [cs[0].id] + Ids(cs[1..]);
      r
  }

  /** `find` returns the entry at the first index that has the id. */
  lemma {:induction false} FindByIdFirst(cs: seq<Category>, i: nat)
    requires i < |cs| && forall j :: 0 <= j < i ==> cs[j].id != cs[i].id
    ensures FindById(cs, cs[i].id) == Some(cs[i])
  {
    if i > 0 {
      assert cs[0].id != cs[i].id;
      FindByIdFirst(cs[1..], i - 1);
    }
  }

  /** The list without the entries that have the id. */
  function WithoutId(cs: seq<Category>, id: string): seq<Category> {
    if cs == [] then []
    else (if cs[0].id == id then [] else [cs[0]]) + WithoutId(cs[1..], id)
  }

  /** Every entry with the id goes, every other entry stays, and an unknown id changes nothing. */
  lemma WithoutIdShape(cs: seq<Category>, id: string)
    ensures forall c :: c in WithoutId(cs, id) <==> c in cs && c.id != id
    ensures id !in Ids(cs) ==> WithoutId(cs, id) == cs
  {
    WithoutIdMembers(cs, id);
    if id !in Ids(cs) {
      assert forall i :: 0 <= i < |cs| ==> cs[i].id != id by {
        forall i | 0 <= i < |cs| ensures cs[i].id != id { assert Ids(cs)[i] == cs[i].id; }
      }
      WithoutAbsentId(cs, id);
    }
  }

  lemma {:induction false} WithoutIdMembers(cs: seq<Category>, id: string)
    ensures forall c :: c in WithoutId(cs, id) <==> c in cs && c.id != id
  {
    if cs != [] {
      WithoutIdMembers(cs[1..], id);
      assert cs == [cs[0]] + cs[1..];
    }
  }

  lemma {:induction false} WithoutAbsentId(cs: seq<Category>, id: string)
    requires forall i :: 0 <= i < |cs| ==> cs[i].id != id
    ensures WithoutId(cs, id) == cs
  {
    if cs != [] {
      WithoutAbsentId(cs[1..], id);
      assert cs == [cs[0]] + cs[1..];
    }
  }

  const CannotDeleteDefault := "Cannot delete default categories"

  /** The list `deleteCategory` saves, or the error it throws. */
  function DeleteOutcome(cs: seq<Category>, id: string): (r: Result<seq<Category>, string>)
    ensures r.Err? <==> id in Ids(cs) && FindById(cs, id).value.isDefault
    ensures r.Err? ==> r.error == CannotDeleteDefault
    ensures r.Ok? ==> forall c :: c in r.value <==> c in cs && c.id != id
  {
    WithoutIdShape(cs, id);
    var category := FindById(cs, id);
    if category.Some? && category.value.isDefault then Err(CannotDeleteDefault)
    else Ok(WithoutId(cs, id))
  }

  /** Deleting a built-in category is refused whenever it is the first entry with its id. */
  lemma DefaultDeleteRefused(cs: seq<Category>, i: nat)
    requires i < |cs| && cs[i].isDefault && forall j :: 0 <= j < i ==> cs[j].id != cs[i].id
    ensures DeleteOutcome(cs, cs[i].id) == Err(CannotDeleteDefault)
  {
    FindByIdFirst(cs, i);
  }

  class CategoryStore {
    var stored: StoredCategories

    constructor (stored: StoredCategories)
      ensures this.stored == stored
    {
      this.stored := stored;
    }

    /** `saveCategories`: a failed write is logged and swallowed. */
    method SaveCategories(cs: seq<Category>, writeOk: bool)
      modifies this
      ensures stored == Written(old(stored), cs, writeOk)
    {
      if writeOk {
        stored := SavedCategories(cs);
      }
    }

    method GetCategories(writeOk: bool) returns (cs: seq<Category>)
      modifies this
      ensures cs == Loaded(old(stored)) && HasAllDefaults(cs)
      ensures stored == StoredAfterLoad(old(stored), writeOk)
    {
      match stored
      case SavedCategories(categories) =>
        if !HasAllDefaults(categories) {
          var merged := MergeWithDefaults(categories);
          SaveCategories(merged, writeOk);
          return merged;
        }
        return categories;
      case NoCategories =>
        SaveCategories(DefaultCategories, writeOk);
        return DefaultCategories;
      case UnreadableCategories =>
        return DefaultCategories;
    }

    /** `addCategory`: the new entry is appended to the loaded list and saved. */
    method AddCategory(name: string, emoji: string, newId: string, createdAt: string,
                       loadWriteOk: bool, saveWriteOk: bool)
      returns (c: Category)
      modifies this
      ensures c == Category(newId, Trim(name), emoji, false, createdAt)
      ensures stored == Written(StoredAfterLoad(old(stored), loadWriteOk), Loaded(old(stored)) + [c], saveWriteOk)
    {
      c := Category(newId, Trim(name), emoji, false, createdAt);
      var categories := GetCategories(loadWriteOk);
      SaveCategories(categories + [c], saveWriteOk);
    }

    /**
     * `deleteCategory`: refused for a built-in category, otherwise the
     * loaded list without the id is saved. `error` is the thrown message.
     * `loadWriteOk` is the outcome of any write the load makes, `saveWriteOk`
     * that of the final save.
     */
    method DeleteCategory(categoryId: string, loadWriteOk: bool, saveWriteOk: bool) returns (error: Option<string>)
      modifies this
      ensures var r := DeleteOutcome(Loaded(old(stored)), categoryId);
        && (r.Err? ==> error == Some(r.error) && stored == StoredAfterLoad(old(stored), loadWriteOk))
        && (r.Ok? ==> error == None
                      && stored == Written(StoredAfterLoad(old(stored), loadWriteOk), r.value, saveWriteOk))
    {
      var categories := GetCategories(loadWriteOk);
      var category := FindById(categories, categoryId);
      if category.Some? && category.value.isDefault {
        return Some(CannotDeleteDefault);
      }
      SaveCategories(WithoutId(categories, categoryId), saveWriteOk);
      return None;
    }
  }
}
