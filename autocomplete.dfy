/** The selection widget shared by the movement pages: a text query, an
    open/closed dropdown and a list of items filtered by the query. The
    selected item belongs to the parent page; the widget reports a new
    selection through `onChange`. */
module Autocomplete {
  import opened Domain
  import opened Text
  import Lists

  /** The item's display value, lower-cased, contains the lower-cased query. */
  predicate Matches(value: string, query: string)
    ensures query == "" ==> Matches(value, query)
    ensures query == value ==> Matches(value, query)
    ensures Matches(value, query) ==> |query| <= |value|
  {
    ContainsEmpty(Lower(value));
    ContainsSelf(Lower(value));
    Contains(Lower(value), Lower(query))
  }

  /** `filteredItems`: the whole list for an empty query, otherwise exactly
      the matching items in their original order. */
  function FilteredItems<T(==,!new)>(items: seq<T>, query: string, display: T -> string): (r: seq<T>)
    ensures query == "" ==> r == items
    ensures forall i :: 0 <= i < |r| ==> r[i] in items && Matches(display(r[i]), query)
    ensures forall i :: 0 <= i < |items| && Matches(display(items[i]), query) ==> items[i] in r
    ensures Lists.IsSubsequence(r, items)
    ensures forall x :: multiset(r)[x] == if Matches(display(x), query) then multiset(items)[x] else 0
  {
    if query == "" then
      EmptyQueryMatchesAll(items, display);
      Lists.FilterKeepsAll(items, x => Matches(display(x), ""));
      items
    else
      Lists.Filter(items, x => Matches(display(x), query))
  }

  /** Every display value matches the empty query. */
  lemma EmptyQueryMatchesAll<T>(items: seq<T>, display: T -> string)
    ensures forall i :: 0 <= i < |items| ==> Matches(display(items[i]), "")
  {
    forall i | 0 <= i < |items| ensures Matches(display(items[i]), "") {
      ContainsEmpty(Lower(display(items[i])));
    }
  }

  /** The shortcut for the empty query agrees with the general filter:
      `includes("")` holds of every string. */
  lemma EmptyQueryIsPlainFilter<T(!new)>(items: seq<T>, display: T -> string)
    ensures FilteredItems(items, "", display) == Lists.Filter(items, x => Matches(display(x), ""))
  {
    EmptyQueryMatchesAll(items, display);
    Lists.FilterKeepsAll(items, x => Matches(display(x), ""));
  }

  /** Once an item is selected the query is its display value, and the
      item is still in the dropdown list. */
  lemma SelectedItemStaysListed<T(!new)>(items: seq<T>, item: T, display: T -> string)
    requires item in items
    ensures item in FilteredItems(items, display(item), display)
  {
    ContainsSelf(Lower(display(item)));
    var k :| 0 <= k < |items| && items[k] == item;
    assert Matches(display(items[k]), display(item));
  }

  /** The query shown for a selection: its display value, or "" for none. */
  function QueryFor<T>(selected: Option<T>, display: T -> string): (q: string)
    ensures selected.None? ==> q == ""
    ensures selected.Some? ==> q == display(selected.value) && Matches(display(selected.value), q)
  {
    if selected.Some? then display(selected.value) else ""
  }

  /** A call of the parent's `onChange`, if the handler makes one. */
  datatype Report<+T> = Silent | Reported(selection: Option<T>)

  class Widget<T> {
    const display: T -> string
    var query: string
    var isOpen: bool

    constructor (display: T -> string)
      ensures this.display == display && query == "" && !isOpen
    {
      this.display := display;
      query := "";
      isOpen := false;
    }

    /** `handleSelect`: report the item, show its display value, close. */
    method Select(item: T) returns (report: Report<T>)
      modifies this
      ensures report == Reported(Some(item))
      ensures query == display(item) && !isOpen
    {
      report := Reported(Some(item));
      query := display(item);
      isOpen := false;
    }

    /** `handleClear`: report no selection, empty the query, close. */
    method Clear() returns (report: Report<T>)
      modifies this
      ensures report == Reported(None)
      ensures query == "" && !isOpen
    {
      report := Reported(None);
      query := "";
      isOpen := false;
    }

    /** The input's `onChange`: the typed text becomes the query, the list
        opens, and a current selection is withdrawn. */
    method Type(text: string, selected: Option<T>) returns (report: Report<T>)
      modifies this
      ensures query == text && isOpen
      ensures report == if selected.Some? then Reported(None) else Silent
    {
      query := text;
      isOpen := true;
      report := if selected.Some? then Reported(None) else Silent;
    }

    /** The input's `onFocus` opens the list. */
    method Focus()
      modifies this
      ensures isOpen && query == old(query)
    {
      isOpen := true;
    }

    /** The chevron, shown only while nothing is selected and the query is
        empty, toggles the list. */
    method Toggle(selected: Option<T>)
      requires selected.None? && query == ""
      modifies this
      ensures isOpen == !old(isOpen) && query == old(query)
    {
      isOpen := !isOpen;
    }

    /** A mouse-down outside the widget closes the list and drops any text
        that did not become a selection. */
    method ClickOutside(selected: Option<T>)
      modifies this
      ensures !isOpen
      ensures query == QueryFor(selected, display)
    {
      isOpen := false;
      if selected.None? {
        query := "";
      } else {
        query := display(selected.value);
      }
    }

    /** The effect that runs when the parent's selection changes. */
    method SyncSelection(selected: Option<T>)
      modifies this
      ensures query == QueryFor(selected, display)
      ensures isOpen == old(isOpen)
    {
      if selected.Some? {
        query := display(selected.value);
      } else {
        query := "";
      }
    }
  }
}
