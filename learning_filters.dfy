/**
 * The filter bar of the learning-card list: which chips it shows, when the
 * reset button appears, what reset does and the page-size choices.
 */
module LearningFilters {
  import opened Base
  import opened Text

  datatype SortOption = Random | Alphabetical

  /** The choices of the "Éléments par page" selector. */
  const ItemsPerPageOptions: seq<nat> := [9, 18, 27, 36]

  /** JavaScript truthiness of a `string | null` selection: `null` and `""` are false. */
  predicate Truthy(s: Option<string>)
  {
    s.Some? && s.value != ""
  }

  /** The selection the bar shows and edits. */
  datatype Selection = Selection(theme: Option<string>, niveau: Option<string>, sortOption: SortOption, itemsPerPage: int)

  function ItemsChip(itemsPerPage: int): string
  {
    "Éléments: " + IntToString(itemsPerPage)
  }

  /** The chips: theme, niveau and sort when set, then always the page size. */
  function ActiveFilters(sel: Selection): (chips: seq<string>)
    ensures |chips| == (if Truthy(sel.theme) then 1 else 0) + (if Truthy(sel.niveau) then 1 else 0)
                       + (if sel.sortOption == Alphabetical then 1 else 0) + 1
    ensures chips[|chips| - 1] == ItemsChip(sel.itemsPerPage)
    ensures Truthy(sel.theme) ==> chips[0] == "Thème: " + sel.theme.value
    ensures Truthy(sel.niveau) ==> chips[if Truthy(sel.theme) then 1 else 0] == "Niveau: " + sel.niveau.value
    ensures sel.sortOption == Alphabetical ==> chips[|chips| - 2] == "Tri: Alphabétique"
  {
    (if Truthy(sel.theme) then ["Thème: " + sel.theme.value] else [])
    + (if Truthy(sel.niveau) then ["Niveau: " + sel.niveau.value] else [])
    + (if sel.sortOption == Alphabetical then ["Tri: Alphabétique"] else [])
    + [ItemsChip(sel.itemsPerPage)]
  }

  /** The chip row is shown when there is at least one chip, which is always. */
  lemma ChipRowAlwaysShown(sel: Selection)
    ensures |ActiveFilters(sel)| > 0
  {
  }

  /** The reset button shows when theme or niveau is not `null`, or the sort is alphabetical; the page size never counts. */
  predicate HasActiveFilters(sel: Selection)
  {
    sel.theme != None || sel.niveau != None || sel.sortOption == Alphabetical
  }

  /** `handleResetFilters`: theme and niveau back to `null`, sort back to random, page size kept. */
  function Reset(sel: Selection): (r: Selection)
    ensures r.itemsPerPage == sel.itemsPerPage
    ensures !HasActiveFilters(r)
  {
    Selection(None, None, Random, sel.itemsPerPage)
  }

  /** After a reset only the page-size chip remains, and a second reset changes nothing. */
  lemma ResetLeavesPageSizeChip(sel: Selection)
    ensures ActiveFilters(Reset(sel)) == [ItemsChip(sel.itemsPerPage)]
    ensures Reset(Reset(sel)) == Reset(sel)
  {
  }

  /** A selection with nothing active is its own reset: reset is exactly "make nothing active". */
  lemma ResetOfInactive(sel: Selection)
    requires !HasActiveFilters(sel)
    ensures Reset(sel) == sel
  {
  }

  /** A set chip always makes the reset button appear. */
  lemma ChipImpliesActive(sel: Selection)
    requires |ActiveFilters(sel)| > 1
    ensures HasActiveFilters(sel)
  {
  }

  /** The converse fails: an empty-string theme is active for the reset button but has no chip. */
  lemma EmptyThemeActiveWithoutChip(k: int)
    ensures var sel := Selection(Some(""), None, Random, k);
      HasActiveFilters(sel) && ActiveFilters(sel) == [ItemsChip(k)]
  {
  }

  /** Every page-size choice is positive, so it can divide the list into pages. */
  lemma ItemsPerPageOptionsPositive()
    ensures forall i :: 0 <= i < |ItemsPerPageOptions| ==> ItemsPerPageOptions[i] > 0
    ensures ItemsPerPageOptions == [9, 18, 27, 36]
  {
  }
}
