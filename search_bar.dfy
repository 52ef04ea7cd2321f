/**
 * The search bar: the query and category the page filters by, the category
 * chips that select and deselect a category, and the buttons that clear them.
 */
module SearchBar {
  import opened LinkTypes
  import LinkManager

  /** The filter the search bar edits: the query text and the selected category, if any. */
  datatype Filters = Filters(query: string, category: Option<Category>)

  /** The category after clicking a chip: the selected chip deselects, any other chip selects its category. */
  function ToggleCategory(selected: Option<Category>, clicked: Category): (r: Option<Category>)
    ensures r.None? <==> selected == Some(clicked)
    ensures r.Some? ==> r.value == clicked
  {
    if selected == Some(clicked) then None else Some(clicked)
  }

  /**
   * Clicking the same chip twice restores the selection exactly when nothing
   * or that chip's category was selected; from another category it ends
   * with nothing selected.
   */
  lemma ToggleTwice(selected: Option<Category>, clicked: Category)
    ensures ToggleCategory(ToggleCategory(selected, clicked), clicked) == selected <==>
      selected.None? || selected.value == clicked
    ensures selected.Some? && selected.value != clicked ==>
      ToggleCategory(ToggleCategory(selected, clicked), clicked).None?
  {
  }

  /** Clicking a chip: only the category changes. */
  function ClickChip(f: Filters, clicked: Category): (r: Filters)
    ensures r.query == f.query
    ensures r.category == ToggleCategory(f.category, clicked)
  {
    f.(category := ToggleCategory(f.category, clicked))
  }

  /** Some filter is in force: a non-empty query or a selected category. */
  predicate HasActiveFilters(f: Filters)
  {
    |f.query| > 0 || f.category.Some?
  }

  /** The clear button: empties the query and deselects the category. */
  function ClearSearch(f: Filters): (r: Filters)
    ensures !HasActiveFilters(r)
    ensures r.query == [] && r.category.None?
  {
    Filters("", None)
  }

  /** The query badge's close button: the query empties, the category stays. */
  function ClearQueryBadge(f: Filters): (r: Filters)
    ensures r.query == [] && r.category == f.category
    ensures HasActiveFilters(r) <==> f.category.Some?
  {
    f.(query := "")
  }

  /** The category badge's close button: the category is deselected, the query stays. */
  function ClearCategoryBadge(f: Filters): (r: Filters)
    ensures r.category.None? && r.query == f.query
    ensures HasActiveFilters(r) <==> |f.query| > 0
  {
    f.(category := None)
  }

  /** Clearing both badges one at a time, in either order, is the same as the clear button. */
  lemma BadgesTogetherClearAll(f: Filters)
    ensures ClearCategoryBadge(ClearQueryBadge(f)) == ClearSearch(f)
    ensures ClearQueryBadge(ClearCategoryBadge(f)) == ClearSearch(f)
  {
  }

  /** The page's filtered list under the search bar's filters. */
  function Shown(links: seq<Link>, f: Filters): seq<Link>
  {
    LinkManager.FilterLinks(links, f.query, f.category)
  }

  /** Without an active filter every link is shown, in order. */
  lemma InactiveFiltersShowAll(links: seq<Link>, f: Filters)
    requires !HasActiveFilters(f)
    ensures Shown(links, f) == links
  {
    LinkManager.NoFilterShowsAll(links);
  }

  /** After the clear button every link is shown again. */
  lemma ClearShowsAll(links: seq<Link>, f: Filters)
    ensures Shown(links, ClearSearch(f)) == links
  {
    InactiveFiltersShowAll(links, ClearSearch(f));
  }

  /** Clicking the chip of the selected category, with an empty query, shows every link again. */
  lemma DeselectShowsAll(links: seq<Link>, c: Category)
    ensures Shown(links, ClickChip(Filters("", Some(c)), c)) == links
  {
    InactiveFiltersShowAll(links, ClickChip(Filters("", Some(c)), c));
  }

  /** The search bar's own state: whether the category panel is open. */
  class Bar {
    var showFilters: bool

    /** The panel starts closed. */
    constructor ()
      ensures !showFilters
    {
      showFilters := false;
    }

    /** The filter button opens or closes the category panel. */
    method ToggleFilters()
      modifies this
      ensures showFilters == !old(showFilters)
    {
      showFilters := !showFilters;
    }
  }
}
