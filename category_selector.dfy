/**
 * The category picker: choosing a chip, and the checks and state changes of
 * creating a new category from the modal.
 */
module CategorySelector {
  import opened Common
  import opened JsText
  import opened CategoryService

  const EnterNameError := "Please enter a category name"
  const DuplicateNameError := "A category with this name already exists"

  /** The emoji the modal starts with and returns to. */
  const DefaultEmoji := "\U{1F4DD}"

  /** Some category's lower-cased name is `key`. */
  predicate AnyNamed(cs: seq<Category>, key: string) {
    cs != [] && (Lower(cs[0].name) == key || AnyNamed(cs[1..], key))
  }

  lemma {:induction false} AnyNamedIff(cs: seq<Category>, key: string)
    ensures AnyNamed(cs, key) <==> exists i :: 0 <= i < |cs| && Lower(cs[i].name) == key
  {
    if cs != [] {
      AnyNamedIff(cs[1..], key);
      if AnyNamed(cs[1..], key) {
        var i :| 0 <= i < |cs[1..]| && Lower(cs[1..][i].name) == key;
        assert Lower(cs[i + 1].name) == key;
      }
      if exists i :: 0 <= i < |cs| && Lower(cs[i].name) == key {
        var i :| 0 <= i < |cs| && Lower(cs[i].name) == key;
        if i > 0 {
          assert Lower(cs[1..][i - 1].name) == key;
        }
      }
    }
  }

  /** The alert `handleCreateCategory` shows before adding anything, if any. */
  function CreateError(categories: seq<Category>, newCategoryName: string): (r: Option<string>)
    ensures r == Some(EnterNameError) <==> IsBlank(newCategoryName)
    ensures r.None? ==> !IsBlank(newCategoryName)
  {
    if IsBlank(newCategoryName) then Some(EnterNameError)
    else if AnyNamed(categories, Lower(Trim(newCategoryName))) then Some(DuplicateNameError)
    else None
  }

  /**
   * A name is refused as a duplicate exactly when it is not blank and, once
   * trimmed, equals some category's name with case ignored.
   */
  lemma DuplicateIff(categories: seq<Category>, newCategoryName: string)
    ensures CreateError(categories, newCategoryName) == Some(DuplicateNameError) <==>
      !IsBlank(newCategoryName)
      && exists i :: 0 <= i < |categories| && Lower(categories[i].name) == Lower(Trim(newCategoryName))
  {
    AnyNamedIff(categories, Lower(Trim(newCategoryName)));
  }

  /** An existing name typed in another case, or with spaces around it, is a duplicate. */
  lemma CaseVariantRejected(categories: seq<Category>, i: nat, newCategoryName: string)
    requires i < |categories| && !IsBlank(newCategoryName)
    requires Lower(Trim(newCategoryName)) == Lower(categories[i].name)
    ensures CreateError(categories, newCategoryName) == Some(DuplicateNameError)
  {
    DuplicateIff(categories, newCategoryName);
  }

  class CategoryPicker {
    /** The categories the picker shows, as the categories hook holds them. */
    var categories: seq<Category>
    var showCreateModal: bool
    var newCategoryName: string
    var selectedEmoji: string
    /** Error alerts shown, oldest first. */
    var alerts: seq<string>
    /** Every name handed to `onSelectCategory`, oldest first. */
    var selections: seq<string>

    constructor (categories: seq<Category>)
      ensures this.categories == categories && !showCreateModal && newCategoryName == []
      ensures selectedEmoji == DefaultEmoji && alerts == [] && selections == []
    {
      this.categories := categories;
      showCreateModal := false;
      newCategoryName := [];
      selectedEmoji := DefaultEmoji;
      alerts := [];
      selections := [];
    }

    /** The create button is disabled while the trimmed name is empty. */
    predicate CreateDisabled()
      reads this
    {
      IsBlank(newCategoryName)
    }

    /** Tapping a chip selects exactly that chip's name. */
    method HandleCategorySelect(categoryName: string)
      modifies this
      ensures selections == old(selections) + [categoryName]
      ensures categories == old(categories) && alerts == old(alerts) && showCreateModal == old(showCreateModal)
      ensures newCategoryName == old(newCategoryName) && selectedEmoji == old(selectedEmoji)
    {
      selections := selections + [categoryName];
    }

    method HandleEmojiSelect(emoji: string)
      modifies this
      ensures selectedEmoji == emoji
      ensures categories == old(categories) && alerts == old(alerts) && showCreateModal == old(showCreateModal)
      ensures newCategoryName == old(newCategoryName) && selections == old(selections)
    {
      selectedEmoji := emoji;
    }

    /**
     * `handleCreateCategory`: a blank or duplicate name raises an alert and
     * changes nothing; otherwise the trimmed name is added with the chosen
     * emoji, selected, and the modal closes with its inputs reset.
     */
    method HandleCreateCategory(store: CategoryStore, newId: string, createdAt: string,
                                loadWriteOk: bool, saveWriteOk: bool)
      modifies this, store
      ensures var e := CreateError(old(categories), old(newCategoryName));
        && (e.Some? ==>
              && alerts == old(alerts) + [e.value] && store.stored == old(store.stored)
              && categories == old(categories) && selections == old(selections)
              && newCategoryName == old(newCategoryName) && selectedEmoji == old(selectedEmoji)
              && showCreateModal == old(showCreateModal))
        && (e.None? ==>
              var c := Category(newId, Trim(old(newCategoryName)), old(selectedEmoji), false, createdAt);
              && store.stored == Written(StoredAfterLoad(old(store.stored), loadWriteOk),
                                     Loaded(old(store.stored)) + [c], saveWriteOk)
              && categories == old(categories) + [c] && selections == old(selections) + [c.name]
              && !showCreateModal && newCategoryName == [] && selectedEmoji == DefaultEmoji
              && alerts == old(alerts))
    {
      var e := CreateError(categories, newCategoryName);
      if e.Some? {
        alerts := alerts + [e.value];
        return;
      }
      var newCategory := store.AddCategory(Trim(newCategoryName), selectedEmoji, newId, createdAt,
                                              loadWriteOk, saveWriteOk);
      TrimIdempotent(newCategoryName);
      Created(newCategory);
    }

    /** The state changes after a successful create. */
    method Created(c: Category)
      modifies this
      ensures categories == old(categories) + [c] && selections == old(selections) + [c.name]
      ensures !showCreateModal && newCategoryName == [] && selectedEmoji == DefaultEmoji
      ensures alerts == old(alerts)
    {
      categories := categories + [c];
      selections := selections + [c.name];
      showCreateModal := false;
      newCategoryName := [];
      selectedEmoji := DefaultEmoji;
    }
  }
}
