/**
 * The learning-card list: filter by theme and niveau, then sort by theme or
 * shuffle, then cut into pages; every change of the inputs goes back to page 1.
 */
module LearningPage {
  import opened Base
  import opened Text
  import opened Seqs
  import opened LearningFilters

  datatype Card = Card(id: int, theme: string, niveau: string, info: string, reference: string, pdfUrl: string)

  function ThemeIs(t: string): Card -> bool
  {
    (c: Card) => c.theme == t
  }

  function NiveauIs(n: string): Card -> bool
  {
    (c: Card) => c.niveau == n
  }

  /** A card passes the selection: a truthy theme (niveau) must equal the card's; `null` and `""` impose nothing. */
  predicate Matches(theme: Option<string>, niveau: Option<string>, c: Card)
  {
    (!Truthy(theme) || c.theme == theme.value) && (!Truthy(niveau) || c.niveau == niveau.value)
  }

  function Selected(theme: Option<string>, niveau: Option<string>): Card -> bool
  {
    c => Matches(theme, niveau, c)
  }

  /** The two successive `filter` calls of the list effect. */
  function FilterCards(cards: seq<Card>, theme: Option<string>, niveau: Option<string>): seq<Card>
  {
    var byTheme := if Truthy(theme) then Filter(cards, ThemeIs(theme.value)) else cards;
    if Truthy(niveau) then Filter(byTheme, NiveauIs(niveau.value)) else byTheme
  }

  /** The two filters keep exactly the matching cards, in their original order. */
  lemma FilterCardsIsOneFilter(cards: seq<Card>, theme: Option<string>, niveau: Option<string>)
    ensures FilterCards(cards, theme, niveau) == Filter(cards, Selected(theme, niveau))
    ensures IsSubsequence(FilterCards(cards, theme, niveau), cards)
  {
    var m := Selected(theme, niveau);
    if Truthy(theme) && Truthy(niveau) {
      var p, q := ThemeIs(theme.value), NiveauIs(niveau.value);
      FilterFilter(cards, p, q);
      FilterExtensional(cards, x => p(x) && q(x), m);
    } else if Truthy(theme) {
      FilterExtensional(cards, ThemeIs(theme.value), m);
    } else if Truthy(niveau) {
      FilterExtensional(cards, NiveauIs(niveau.value), m);
    } else {
      FilterKeepsAll(cards, m);
    }
    FilterIsSubsequence(cards, m);
  }

  // ---------------------------------------------------------------------------
  // Alphabetical order by theme (a stable sort on `localeCompare`)

  predicate SortedByTheme(s: seq<Card>)
  {
    forall i, j :: 0 <= i < j < |s| ==> LexLeq(s[i].theme, s[j].theme)
  }

  /** Insert `x` before the first card whose theme is not before `x`'s. */
  function InsertByTheme(x: Card, s: seq<Card>): (r: seq<Card>)
    ensures multiset(r) == multiset(s) + multiset{x}
    decreases |s|
  {
    if s == [] || LexLeq(x.theme, s[0].theme) then [x] + s
    else
      assert s == [s[0]] + s[1..];
      [s[0]] + InsertByTheme(x, s[1..])
  }

  /** `filtered.sort((a, b) => a.theme.localeCompare(b.theme))`. */
  function SortByTheme(s: seq<Card>): (r: seq<Card>)
    ensures multiset(r) == multiset(s)
    decreases |s|
  {
    if s == [] then []
    else
      assert s == [s[0]] + s[1..];
      InsertByTheme(s[0], SortByTheme(s[1..]))
  }

  lemma {:induction false} InsertKeepsSorted(x: Card, s: seq<Card>)
    requires SortedByTheme(s)
    ensures SortedByTheme(InsertByTheme(x, s))
    decreases |s|
  {
    if s != [] && !LexLeq(x.theme, s[0].theme) {
      LexLeqTotal(x.theme, s[0].theme);
      InsertKeepsSorted(x, s[1..]);
      var rest := InsertByTheme(x, s[1..]);
      forall j | 0 <= j < |rest|
        ensures LexLeq(s[0].theme, rest[j].theme)
      {
        assert rest[j] in multiset(rest);
        if rest[j] != x {
          assert rest[j] in s[1..];
        }
      }
    } else if s != [] {
      forall j | 0 <= j < |s|
        ensures LexLeq(x.theme, s[j].theme)
      {
        if j > 0 {
          LexLeqTransitive(x.theme, s[0].theme, s[j].theme);
        }
      }
    }
  }

  /** In alphabetical mode the list is ordered by theme. */
  lemma {:induction false} SortByThemeSorted(s: seq<Card>)
    ensures SortedByTheme(SortByTheme(s))
    decreases |s|
  {
    if s != [] {
      SortByThemeSorted(s[1..]);
      InsertKeepsSorted(s[0], SortByTheme(s[1..]));
    }
  }

  /** Inserting only ever passes over cards of other themes, so it keeps the order within each theme. */
  lemma {:induction false} InsertWithinTheme(x: Card, s: seq<Card>, t: string)
    ensures Filter(InsertByTheme(x, s), ThemeIs(t)) == (if x.theme == t then [x] else []) + Filter(s, ThemeIs(t))
    decreases |s|
  {
    if s != [] && !LexLeq(x.theme, s[0].theme) {
      LexLeqReflexive(x.theme);
      InsertWithinTheme(x, s[1..], t);
      var r := InsertByTheme(x, s);
      assert r[1..] == InsertByTheme(x, s[1..]);
    }
  }

  /** The sort is stable: the cards of one theme keep their relative order. */
  lemma {:induction false} SortByThemeStable(s: seq<Card>, t: string)
    ensures Filter(SortByTheme(s), ThemeIs(t)) == Filter(s, ThemeIs(t))
    decreases |s|
  {
    if s != [] {
      SortByThemeStable(s[1..], t);
      InsertWithinTheme(s[0], SortByTheme(s[1..]), t);
    }
  }

  // ---------------------------------------------------------------------------
  // Random order (Fisher-Yates)

  /**
   * The shuffle loop: from the last index down to 1, swap with a position
   * `j` in `[0, i]`. `Math.random` is a free choice of `j`.
   */
  method Shuffle(a: array<Card>)
    modifies a
    ensures multiset(a[..]) == multiset(old(a[..]))
  {
    var i := a.Length - 1;
    while i > 0
      invariant i < a.Length
      invariant multiset(a[..]) == multiset(old(a[..]))
      decreases i
    {
      var j :| 0 <= j <= i;
      a[i], a[j] := a[j], a[i];
      i := i - 1;
    }
  }

  /** The ordering step of `applyFilters`: sorted by theme in alphabetical mode, shuffled otherwise. */
  method Arrange(cards: seq<Card>, sort: SortOption) returns (r: seq<Card>)
    ensures multiset(r) == multiset(cards)
    ensures sort == Alphabetical ==> r == SortByTheme(cards)
  {
    if sort == Alphabetical {
      return SortByTheme(cards);
    }
    var a := new Card[|cards|](i requires 0 <= i < |cards| => cards[i]);
    assert a[..] == cards;
    Shuffle(a);
    r := a[..];
  }

  // ---------------------------------------------------------------------------
  // Pagination

  /** `Math.ceil(length / itemsPerPage)`. */
  function TotalPages(count: nat, itemsPerPage: nat): (n: nat)
    requires itemsPerPage > 0
    ensures n * itemsPerPage >= count
    ensures n > 0 ==> (n - 1) * itemsPerPage < count
  {
    CeilDiv(count, itemsPerPage)
  }

  /** `items.slice((page - 1) * k, page * k)`. */
  function Page<T>(items: seq<T>, page: int, k: nat): seq<T>
  {
    Slice(items, (page - 1) * k, page * k)
  }

  lemma PageBounds(page: int, k: nat)
    requires page >= 1
    ensures 0 <= (page - 1) * k <= page * k
    ensures page * k - (page - 1) * k == k
  {
    assert page * k == (page - 1) * k + k;
  }

  /** A page holds at most `k` items. */
  lemma PageSize<T>(items: seq<T>, page: int, k: nat)
    requires page >= 1
    ensures |Page(items, page, k)| <= k
  {
    PageBounds(page, k);
  }

  /** The first `n` pages, one after the other. */
  function Pages<T>(items: seq<T>, k: nat, n: nat): seq<T>
  {
    if n == 0 then [] else Pages(items, k, n - 1) + Page(items, n, k)
  }

  /** The items before `b`, then those from `b` to `e`, are those before `e` (each bound clamped to the list). */
  lemma PrefixThenSlice<T>(items: seq<T>, b: nat, e: nat)
    requires b <= e
    ensures items[..Min(b, |items|)] + Slice(items, b, e) == items[..Min(e, |items|)]
  {
    if b < |items| {
      assert items[..b] + items[b..Min(e, |items|)] == items[..Min(e, |items|)];
    }
  }

  lemma {:induction false} PagesArePrefix<T>(items: seq<T>, k: nat, n: nat)
    ensures Pages(items, k, n) == items[..Min(n * k, |items|)]
  {
    if n > 0 {
      PagesArePrefix(items, k, n - 1);
      PageBounds(n, k);
      PrefixThenSlice(items, (n - 1) * k, n * k);
    }
  }

  /** Pages 1 to `totalPages` put back together are the whole list. */
  lemma PagesCoverList<T>(items: seq<T>, k: nat)
    requires k > 0
    ensures Pages(items, k, TotalPages(|items|, k)) == items
  {
    PagesArePrefix(items, k, TotalPages(|items|, k));
  }

  /** Every page from 1 to `totalPages` has at least one item; every page after it is empty. */
  lemma PageEmptiness<T>(items: seq<T>, page: int, k: nat)
    requires k > 0 && page >= 1
    ensures Page(items, page, k) == [] <==> page > TotalPages(|items|, k)
  {
    var n := TotalPages(|items|, k);
    PageBounds(page, k);
    if page > n {
      MulMonotone(n, page - 1, k);
    } else {
      MulMonotone(page - 1, n - 1, k);
    }
  }

  // ---------------------------------------------------------------------------
  // The page's state

  class LearningList {
    var allCards: seq<Card>
    var filteredCards: seq<Card>
    var selectedTheme: Option<string>
    var selectedNiveau: Option<string>
    var currentPage: int
    var itemsPerPage: int
    var sortOption: SortOption
    var isLoading: bool

    /** The shown list is the filtered cards, sorted by theme in alphabetical mode, in some order otherwise. */
    ghost predicate Valid()
      reads this
    {
      && itemsPerPage > 0
      && currentPage >= 1
      && multiset(filteredCards) == multiset(FilterCards(allCards, selectedTheme, selectedNiveau))
      && (sortOption == Alphabetical ==> filteredCards == SortByTheme(FilterCards(allCards, selectedTheme, selectedNiveau)))
    }

    constructor ()
      ensures Valid() && isLoading
      ensures allCards == [] && filteredCards == []
      ensures selectedTheme == None && selectedNiveau == None && sortOption == Random
      ensures currentPage == 1 && itemsPerPage == 9
    {
      allCards := [];
      filteredCards := [];
      selectedTheme := None;
      selectedNiveau := None;
      currentPage := 1;
      itemsPerPage := 9;
      sortOption := Random;
      isLoading := true;
    }

    /** The list effect: filter, then sort or shuffle, then back to page 1. */
    method ApplyFilters()
      requires itemsPerPage > 0
      modifies this
      ensures Valid()
      ensures currentPage == 1
      ensures allCards == old(allCards) && selectedTheme == old(selectedTheme) && selectedNiveau == old(selectedNiveau)
      ensures sortOption == old(sortOption) && itemsPerPage == old(itemsPerPage) && isLoading == old(isLoading)
    {
      filteredCards := Arrange(FilterCards(allCards, selectedTheme, selectedNiveau), sortOption);
      currentPage := 1;
    }

    /** The initial fetch: on success the cards are stored (and the list effect runs again); loading ends either way. */
    method Loaded(fetched: Option<seq<Card>>)
      requires Valid()
      modifies this
      ensures Valid() && !isLoading
      ensures fetched.Some? ==> allCards == fetched.value && currentPage == 1
      ensures fetched.None? ==> allCards == old(allCards) && filteredCards == old(filteredCards)
      ensures selectedTheme == old(selectedTheme) && selectedNiveau == old(selectedNiveau) && sortOption == old(sortOption)
    {
      if fetched.Some? {
        allCards := fetched.value;
        filteredCards := fetched.value;
        ApplyFilters();
      }
      isLoading := false;
    }

    /** A theme button; the effect only runs when the value actually changes. */
    method SelectTheme(theme: Option<string>)
      requires Valid()
      modifies this
      ensures Valid() && selectedTheme == theme
      ensures old(selectedTheme) != theme ==> currentPage == 1
      ensures old(selectedTheme) == theme ==> currentPage == old(currentPage) && filteredCards == old(filteredCards)
      ensures allCards == old(allCards) && selectedNiveau == old(selectedNiveau) && sortOption == old(sortOption)
      ensures itemsPerPage == old(itemsPerPage)
    {
      if theme != selectedTheme {
        selectedTheme := theme;
        ApplyFilters();
      }
    }

    /** A niveau button; the effect only runs when the value actually changes. */
    method SelectNiveau(niveau: Option<string>)
      requires Valid()
      modifies this
      ensures Valid() && selectedNiveau == niveau
      ensures old(selectedNiveau) != niveau ==> currentPage == 1
      ensures old(selectedNiveau) == niveau ==> currentPage == old(currentPage) && filteredCards == old(filteredCards)
      ensures allCards == old(allCards) && selectedTheme == old(selectedTheme) && sortOption == old(sortOption)
      ensures itemsPerPage == old(itemsPerPage)
    {
      if niveau != selectedNiveau {
        selectedNiveau := niveau;
        ApplyFilters();
      }
    }

    /** `handleSortChange`: page 1 in any case; re-sorts or reshuffles only on a change. */
    method ChangeSort(option: SortOption)
      requires Valid()
      modifies this
      ensures Valid() && sortOption == option && currentPage == 1
      ensures old(sortOption) == option ==> filteredCards == old(filteredCards)
      ensures allCards == old(allCards) && selectedTheme == old(selectedTheme) && selectedNiveau == old(selectedNiveau)
      ensures itemsPerPage == old(itemsPerPage)
    {
      if option != sortOption {
        sortOption := option;
        ApplyFilters();
      }
      currentPage := 1;
    }

    /** `handleItemsPerPageChange`: a choice of the selector, and page 1. */
    method ChangeItemsPerPage(value: int)
      requires Valid() && value in ItemsPerPageOptions
      modifies this
      ensures Valid() && itemsPerPage == value && currentPage == 1
      ensures filteredCards == old(filteredCards) && allCards == old(allCards)
      ensures selectedTheme == old(selectedTheme) && selectedNiveau == old(selectedNiveau) && sortOption == old(sortOption)
    {
      itemsPerPage := value;
      currentPage := 1;
    }

    /** The filter bar's reset: no theme, no niveau, random order, page 1; the page size is kept. */
    method ResetFilters()
      requires Valid()
      modifies this
      ensures Valid() && currentPage == 1
      ensures Selection(selectedTheme, selectedNiveau, sortOption, itemsPerPage)
           == Reset(Selection(old(selectedTheme), old(selectedNiveau), old(sortOption), old(itemsPerPage)))
      ensures allCards == old(allCards)
    {
      SelectTheme(None);
      SelectNiveau(None);
      ChangeSort(Random);
    }

    function PageCount(): nat
      reads this
      requires itemsPerPage > 0
    {
      TotalPages(|filteredCards|, itemsPerPage)
    }

    /** A page button, from 1 to the page count. */
    method GoToPage(page: int)
      requires Valid() && 1 <= page <= PageCount()
      modifies this
      ensures Valid() && currentPage == page
      ensures filteredCards == old(filteredCards) && itemsPerPage == old(itemsPerPage)
      ensures allCards == old(allCards) && selectedTheme == old(selectedTheme)
      ensures selectedNiveau == old(selectedNiveau) && sortOption == old(sortOption)
    {
      currentPage := page;
    }

    /** The cards of the current page. */
    function PaginatedCards(): (r: seq<Card>)
      reads this
      requires Valid()
      ensures |r| <= itemsPerPage
      ensures r == [] <==> currentPage > PageCount()
    {
      PageSize(filteredCards, currentPage, itemsPerPage);
      PageEmptiness(filteredCards, currentPage, itemsPerPage);
      Page(filteredCards, currentPage, itemsPerPage)
    }

    /** "Aucune carte ne correspond à vos filtres" replaces the grid when the page is empty. */
    predicate ShowsNoCardsMessage()
      reads this
      requires Valid()
    {
      PaginatedCards() == []
    }

    /** The page buttons are shown only when there is more than one page. */
    predicate ShowsPageButtons()
      reads this
      requires Valid()
    {
      PaginatedCards() != [] && PageCount() > 1
    }
  }

  /** On page 1 the "no cards" message appears exactly when no card passes the filters. */
  lemma NoCardsOnFirstPage(cards: seq<Card>, k: nat)
    requires k > 0
    ensures Page(cards, 1, k) == [] <==> cards == []
  {
    PageEmptiness(cards, 1, k);
  }
}
