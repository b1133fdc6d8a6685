/** The filter panel: its local filter object and search input, and the
    handlers that derive a new filter object from the old one and hand it
    to the parent through `onFilterChange`. */
module Filters {
  import opened Common
  import opened Api

  /** `b` is `a` with at most the value under `key` changed. */
  ghost predicate SameExcept(a: JsObject, b: JsObject, key: string) {
    forall k | k != key :: (k in a <==> k in b) && (k in a ==> a[k] == b[k])
  }

  /** `{ filter: 'all' }`, the panel's initial and reset filter. */
  function InitialFilter(): (f: JsObject)
    ensures f.Keys == {"filter"} && f["filter"] == Str("all")
  {
    map["filter" := Str("all")]
  }

  /** `handleFilterChange`: `filter` becomes the chosen status, or "all" when
      there is none (JavaScript `value || 'all'`). */
  function WithStatus(f: JsObject, value: Option<string>): (r: JsObject)
    ensures "filter" in r
    ensures value.Some? && value.value != "" ==> r["filter"] == Str(value.value)
    ensures value.None? || value.value == "" ==> r["filter"] == Str("all")
    ensures SameExcept(f, r, "filter")
  {
    f["filter" := Str(if value.Some? && value.value != "" then value.value else "all")]
  }

  /** `handleSearch`: `search` becomes the input, or undefined when the input
      is empty. */
  function WithSearch(f: JsObject, input: string): (r: JsObject)
    ensures "search" in r
    ensures input != "" ==> r["search"] == Str(input)
    ensures input == "" ==> r["search"] == Undefined
    ensures SameExcept(f, r, "search")
  {
    f["search" := if input != "" then Str(input) else Undefined]
  }

  /** `handleClearSearch`: `search` becomes undefined. */
  function WithoutSearch(f: JsObject): (r: JsObject)
    ensures "search" in r && r["search"] == Undefined
    ensures SameExcept(f, r, "search")
  {
    f["search" := Undefined]
  }

  /** `handleCategoryChange` and `handlePriorityChange`: the choice "all"
      unsets the key, any other choice sets it. */
  function WithChoice(f: JsObject, key: string, choice: string): (r: JsObject)
    ensures key in r
    ensures choice == "all" ==> r[key] == Undefined
    ensures choice != "all" ==> r[key] == Str(choice)
    ensures SameExcept(f, r, key)
  {
    f[key := if choice == "all" then Undefined else Str(choice)]
  }

  /** An empty search is no search: the server is sent the same parameters as
      after clearing the search, and none of them is `search`. */
  lemma EmptySearchIsCleared(f: JsObject)
    ensures Cleaned(Some(WithSearch(f, ""))) == Cleaned(Some(WithoutSearch(f)))
    ensures "search" !in Cleaned(Some(WithoutSearch(f)))
  {
  }

  /** Choosing "all" for a category or priority removes that parameter from
      the request and leaves every other parameter as it was. */
  lemma AllChoiceDropsParameter(f: JsObject, key: string)
    ensures key !in Cleaned(Some(WithChoice(f, key, "all")))
    ensures SameExcept(Cleaned(Some(f)), Cleaned(Some(WithChoice(f, key, "all"))), key)
  {
  }

  /** After a reset the server is sent `filter=all` and nothing else. */
  lemma ResetSendsOnlyAll()
    ensures Cleaned(Some(InitialFilter())) == map["filter" := Str("all")]
  {
  }

  /** Each handler is idempotent: repeating the same choice changes nothing. */
  lemma HandlersIdempotent(f: JsObject, value: Option<string>, input: string, key: string, choice: string)
    ensures WithStatus(WithStatus(f, value), value) == WithStatus(f, value)
    ensures WithSearch(WithSearch(f, input), input) == WithSearch(f, input)
    ensures WithoutSearch(WithoutSearch(f)) == WithoutSearch(f)
    ensures WithChoice(WithChoice(f, key, choice), key, choice) == WithChoice(f, key, choice)
  {
  }

  /** A search followed by clearing it is a clear. */
  lemma ClearUndoesSearch(f: JsObject, input: string)
    ensures WithoutSearch(WithSearch(f, input)) == WithoutSearch(f)
  {
  }

  /** The panel's state. `published` lists, in order, every filter object
      handed to `onFilterChange`. */
  class FilterPanel {
    var filters: JsObject
    var searchInput: string
    var showAdvanced: bool
    var published: seq<JsObject>

    constructor ()
      ensures filters == InitialFilter() && searchInput == "" && !showAdvanced && published == []
    {
      filters := InitialFilter();
      searchInput := "";
      showAdvanced := false;
      published := [];
    }

    /** Typing in the search box changes only the input. */
    method TypeSearch(text: string)
      modifies this
      ensures searchInput == text
      ensures filters == old(filters) && showAdvanced == old(showAdvanced) && published == old(published)
    {
      searchInput := text;
    }

    /** The filter icon shows or hides the category and priority selects. */
    method ToggleAdvanced()
      modifies this
      ensures showAdvanced == !old(showAdvanced)
      ensures filters == old(filters) && searchInput == old(searchInput) && published == old(published)
    {
      showAdvanced := !showAdvanced;
    }

    method ChangeStatus(value: Option<string>)
      modifies this
      ensures filters == WithStatus(old(filters), value)
      ensures published == old(published) + [filters]
      ensures searchInput == old(searchInput) && showAdvanced == old(showAdvanced)
    {
      var newFilters := WithStatus(filters, value);
      filters := newFilters;
      published := published + [newFilters];
    }

    /** The search button, and Enter in the search box. */
    method Search()
      modifies this
      ensures filters == WithSearch(old(filters), old(searchInput))
      ensures published == old(published) + [filters]
      ensures searchInput == old(searchInput) && showAdvanced == old(showAdvanced)
    {
      var newFilters := WithSearch(filters, searchInput);
      filters := newFilters;
      published := published + [newFilters];
    }

    /** A key press in the search box: Enter searches, any other key does
        nothing here. */
    method SearchKeyDown(key: string)
      modifies this
      ensures key == "Enter" ==> filters == WithSearch(old(filters), old(searchInput))
                                 && published == old(published) + [filters]
      ensures key != "Enter" ==> filters == old(filters) && published == old(published)
      ensures searchInput == old(searchInput) && showAdvanced == old(showAdvanced)
    {
      if key == "Enter" {
        Search();
      }
    }

    method ClearSearch()
      modifies this
      ensures searchInput == ""
      ensures filters == WithoutSearch(old(filters))
      ensures published == old(published) + [filters]
      ensures showAdvanced == old(showAdvanced)
    {
      searchInput := "";
      var newFilters := WithoutSearch(filters);
      filters := newFilters;
      published := published + [newFilters];
    }

    method ChangeCategory(choice: string)
      modifies this
      ensures filters == WithChoice(old(filters), "category", choice)
      ensures published == old(published) + [filters]
      ensures searchInput == old(searchInput) && showAdvanced == old(showAdvanced)
    {
      var newFilters := WithChoice(filters, "category", choice);
      filters := newFilters;
      published := published + [newFilters];
    }

    method ChangePriority(choice: string)
      modifies this
      ensures filters == WithChoice(old(filters), "priority", choice)
      ensures published == old(published) + [filters]
      ensures searchInput == old(searchInput) && showAdvanced == old(showAdvanced)
    {
      var newFilters := WithChoice(filters, "priority", choice);
      filters := newFilters;
      published := published + [newFilters];
    }

    method ResetFilters()
      modifies this
      ensures filters == InitialFilter() && searchInput == ""
      ensures published == old(published) + [InitialFilter()]
      ensures showAdvanced == old(showAdvanced)
    {
      filters := InitialFilter();
      searchInput := "";
      published := published + [InitialFilter()];
    }
  }
}
