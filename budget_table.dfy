/**
 * The budget breakdown table: the category filter options, search and
 * category filtering, click-to-sort columns, pagination and the progress
 * cell of each row.
 */
module BudgetTable {
  import opened Wrappers
  import opened Strings
  import opened Lists
  import opened Types

  function Min(a: int, b: int): int { if a < b then a else b }
  function Max(a: int, b: int): int { if a < b then b else a }

  // ---------------------------------------------------------------------
  // Filter options and filtering
  // ---------------------------------------------------------------------

  function CategoriesOf(budgets: seq<BudgetWithStats>): (r: seq<string>)
    ensures |r| == |budgets|
    ensures forall i :: 0 <= i < |r| ==> r[i] == budgets[i].budget.category
  {
    if budgets == [] then [] else [budgets[0].budget.category] + CategoriesOf(budgets[1..])
  }

  /** The options of the category select: "All", then each category once, in sorted order. */
  function CategoryOptions(budgets: seq<BudgetWithStats>): (r: seq<string>)
    ensures |r| >= 1 && r[0] == "All"
  {
    ["All"] + SortedUnique(CategoriesOf(budgets))
  }

  /** After "All", every category of a budget appears exactly once, in ascending order, and nothing else does. */
  lemma CategoryOptionsSpec(budgets: seq<BudgetWithStats>)
    ensures StrictlySorted(CategoryOptions(budgets)[1..])
    ensures forall c :: c in CategoryOptions(budgets)[1..] <==>
      exists i :: 0 <= i < |budgets| && budgets[i].budget.category == c
  {
    var cats := CategoriesOf(budgets);
    assert CategoryOptions(budgets)[1..] == SortedUnique(cats);
    forall c ensures c in cats <==> exists i :: 0 <= i < |budgets| && budgets[i].budget.category == c {
      if c in cats {
        var i :| 0 <= i < |cats| && cats[i] == c;
      }
    }
  }

  /** A row passes when its name contains the search term, ignoring case, and the category filter is "All" or its category. */
  predicate Matches(b: BudgetWithStats, searchTerm: string, filterCategory: string) {
    Contains(Lower(b.budget.name), Lower(searchTerm)) &&
    (filterCategory == "All" || b.budget.category == filterCategory)
  }

  function MatchTest(searchTerm: string, filterCategory: string): BudgetWithStats -> bool {
    b => Matches(b, searchTerm, filterCategory)
  }

  function FilterBudgets(budgets: seq<BudgetWithStats>, searchTerm: string, filterCategory: string): seq<BudgetWithStats>
  {
    Filter(budgets, MatchTest(searchTerm, filterCategory))
  }

  /** Filtering keeps exactly the matching rows, in their original order. */
  lemma FilterBudgetsSpec(budgets: seq<BudgetWithStats>, searchTerm: string, filterCategory: string)
    ensures IsSubsequence(FilterBudgets(budgets, searchTerm, filterCategory), budgets)
    ensures forall b :: b in FilterBudgets(budgets, searchTerm, filterCategory) <==>
      b in budgets && Matches(b, searchTerm, filterCategory)
  {
    FilterIsSubsequence(budgets, MatchTest(searchTerm, filterCategory));
  }

  /** With an empty search and the "All" filter, every budget is listed. */
  lemma NoFilterKeepsAll(budgets: seq<BudgetWithStats>)
    ensures FilterBudgets(budgets, "", "All") == budgets
  {
    forall i | 0 <= i < |budgets| ensures Matches(budgets[i], "", "All") {
      ContainsEmpty(Lower(budgets[i].budget.name));
    }
    FilterAll(budgets, MatchTest("", "All"));
  }

  // ---------------------------------------------------------------------
  // Sorting
  // ---------------------------------------------------------------------

  datatype SortKey = NameKey | CategoryKey | SpentKey | LimitKey | ProgressKey
  datatype Direction = Asc | Desc
  datatype SortConfig = SortConfig(key: SortKey, direction: Direction)

  /** A JavaScript number as far as comparing and dividing money needs it. */
  datatype Num = Finite(v: real) | PosInf | NegInf | NaN

  /** JavaScript `a / b` on finite numbers: a zero divisor gives an infinity, or NaN for `0 / 0`. */
  function Divide(a: real, b: real): (r: Num)
    ensures r == NaN <==> a == 0.0 && b == 0.0
    ensures r.Finite? <==> b != 0.0
  {
    if b != 0.0 then Finite(a / b)
    else if a > 0.0 then PosInf
    else if a < 0.0 then NegInf
    else NaN
  }

  function Rank(n: Num): int {
    match n
    case NegInf => 0
    case Finite(_) => 1
    case PosInf => 2
    case NaN => 3
  }

  /** JavaScript `<` on numbers: false whenever either side is NaN. */
  predicate NumLess(a: Num, b: Num) {
    a != NaN && b != NaN && (Rank(a) < Rank(b) || (a.Finite? && b.Finite? && a.v < b.v))
  }

  /** The value a column sorts by. */
  datatype SortValue = Text(s: string) | Number(n: Num)

  function SortValueOf(b: BudgetWithStats, key: SortKey): SortValue {
    match key
    case NameKey => Text(b.budget.name)
    case CategoryKey => Text(b.budget.category)
    case SpentKey => Number(Finite(b.spent))
    case LimitKey => Number(Finite(b.budget.amountLimit))
    case ProgressKey => Number(Divide(b.spent, b.budget.amountLimit))
  }

  /** JavaScript `<` on two values of one column: code-unit order on text. */
  predicate ValueLess(x: SortValue, y: SortValue) {
    match (x, y)
    case (Text(a), Text(b)) => LexLess(a, b)
    case (Number(a), Number(b)) => NumLess(a, b)
    case _ => false
  }

  /** The comparator returns -1 for `(a, b)`: `a` is placed strictly ahead of `b`. */
  predicate Before(config: SortConfig, a: BudgetWithStats, b: BudgetWithStats) {
    var x, y := SortValueOf(a, config.key), SortValueOf(b, config.key);
    if config.direction == Asc then ValueLess(x, y) else ValueLess(y, x)
  }

  /** The comparator passed to the sort; with no sort chosen it answers 0 for every pair. */
  function Comparator(config: Option<SortConfig>): (BudgetWithStats, BudgetWithStats) -> bool {
    match config
    case None => (a: BudgetWithStats, b: BudgetWithStats) => false
    case Some(c) => (a: BudgetWithStats, b: BudgetWithStats) => Before(c, a, b)
  }

  /** The rows whose sort value is not NaN; only the progress column can be NaN. */
  predicate Comparable(config: SortConfig, b: BudgetWithStats) {
    SortValueOf(b, config.key) != Number(NaN)
  }

  function ComparableTest(config: SortConfig): BudgetWithStats -> bool {
    b => Comparable(config, b)
  }

  /** `[...filtered].sort(comparator)`, a stable sort. */
  function SortBudgets(rows: seq<BudgetWithStats>, config: Option<SortConfig>): seq<BudgetWithStats>
  {
    SortBy(rows, Comparator(config))
  }

  /** Sorting only reorders the rows. */
  lemma SortBudgetsPermutation(rows: seq<BudgetWithStats>, config: Option<SortConfig>)
    ensures multiset(SortBudgets(rows, config)) == multiset(rows)
  {
    SortByPermutation(rows, Comparator(config));
  }

  /** Until a column header is clicked, the rows keep their filtered order. */
  lemma NoSortKeepsOrder(rows: seq<BudgetWithStats>)
    ensures SortBudgets(rows, None) == rows
  {
    SortByOfUnordered(rows, Comparator(None));
  }

  lemma {:induction false} NumLessTotal(a: Num, b: Num)
    requires a != NaN && b != NaN && a != b
    ensures NumLess(a, b) || NumLess(b, a)
  {
  }

  /** `!(x < y)` and `!(y < z)` give `!(x < z)` on one column's non-NaN values. */
  lemma ValueNegTransitive(x: SortValue, y: SortValue, z: SortValue)
    requires x.Text? == y.Text? == z.Text?
    requires x != Number(NaN) && y != Number(NaN) && z != Number(NaN)
    requires !ValueLess(x, y) && !ValueLess(y, z)
    ensures !ValueLess(x, z)
  {
    if x.Text? {
      if LexLess(x.s, z.s) {
        if x.s == y.s {
        } else {
          LexLessTotal(x.s, y.s);
          LexLessTransitive(y.s, x.s, z.s);
        }
      }
    } else if NumLess(x.n, z.n) && x.n != y.n {
      NumLessTotal(x.n, y.n);
    }
  }

  lemma ValueLessAsymmetric(x: SortValue, y: SortValue)
    requires ValueLess(x, y)
    ensures !ValueLess(y, x)
  {
    if x.Text? {
      LexLessAsymmetric(x.s, y.s);
    }
  }

  /** A chosen column orders its non-NaN rows as a strict weak order. */
  lemma ComparatorIsWeakOrder(config: SortConfig)
    ensures StrictWeakOrder(Comparator(Some(config)), ComparableTest(config))
  {
    var before := Comparator(Some(config));
    var ok := ComparableTest(config);
    var key := config.key;
    forall a, b | ok(a) && ok(b) && before(a, b) ensures !before(b, a) {
      if config.direction == Asc {
        ValueLessAsymmetric(SortValueOf(a, key), SortValueOf(b, key));
      } else {
        ValueLessAsymmetric(SortValueOf(b, key), SortValueOf(a, key));
      }
    }
    forall a, b, c | ok(a) && ok(b) && ok(c) && !before(a, b) && !before(b, c) ensures !before(a, c) {
      var x, y, z := SortValueOf(a, key), SortValueOf(b, key), SortValueOf(c, key);
      if config.direction == Asc {
        ValueNegTransitive(x, y, z);
      } else {
        ValueNegTransitive(z, y, x);
      }
    }
  }

  /**
   * After a column is chosen, no row is placed after one it should come
   * before, as long as no row's value in that column is NaN.
   */
  lemma SortBudgetsSorted(rows: seq<BudgetWithStats>, config: SortConfig)
    requires forall i :: 0 <= i < |rows| ==> Comparable(config, rows[i])
    ensures forall i, j :: 0 <= i < j < |SortBudgets(rows, Some(config))| ==>
      !Before(config, SortBudgets(rows, Some(config))[j], SortBudgets(rows, Some(config))[i])
  {
    ComparatorIsWeakOrder(config);
    SortBySorted(rows, Comparator(Some(config)), ComparableTest(config));
  }

  /** Only the progress column can hold NaN, and only for a row with nothing spent against a zero limit. */
  lemma ComparableIff(config: SortConfig, b: BudgetWithStats)
    ensures !Comparable(config, b) <==>
      config.key == ProgressKey && b.spent == 0.0 && b.budget.amountLimit == 0.0
  {
  }

  /** Clicking a header: ascending, unless that column is already sorted ascending. */
  function NextSort(current: Option<SortConfig>, key: SortKey): (r: SortConfig)
    ensures r.key == key
    ensures r.direction == Desc <==> current == Some(SortConfig(key, Asc))
  {
    var direction := if current.Some? && current.value.key == key && current.value.direction == Asc then Desc else Asc;
    SortConfig(key, direction)
  }

  /** Clicking one header again and again alternates ascending and descending. */
  lemma NextSortToggles(current: Option<SortConfig>, key: SortKey)
    ensures NextSort(Some(NextSort(Some(NextSort(current, key)), key)), key) == NextSort(current, key)
  {
  }

  // ---------------------------------------------------------------------
  // Pagination
  // ---------------------------------------------------------------------

  /** The page sizes the select offers. */
  predicate IsPageSize(k: int) { k == 5 || k == 10 || k == 20 || k == 50 }

  /** `Math.ceil(n / perPage)`. */
  function TotalPages(n: nat, perPage: nat): (r: nat)
    requires perPage > 0
  {
    (n + perPage - 1) / perPage
  }

  /** `TotalPages` is the least number of pages holding `n` rows. */
  lemma TotalPagesIsCeiling(n: nat, perPage: nat)
    requires perPage > 0
    ensures TotalPages(n, perPage) * perPage >= n
    ensures TotalPages(n, perPage) == 0 || (TotalPages(n, perPage) - 1) * perPage < n
  {
    var t := TotalPages(n, perPage);
    var m := n + perPage - 1;
    assert m == t * perPage + m % perPage;
    assert t * perPage - perPage == (t - 1) * perPage;
  }

  /** `rows.slice((page - 1) * perPage, page * perPage)`. */
  function Page<T>(rows: seq<T>, page: nat, perPage: nat): seq<T>
    requires page >= 1
  {
    assert (page - 1) * perPage <= page * perPage;
    rows[Min((page - 1) * perPage, |rows|)..Min(page * perPage, |rows|)]
  }

  /** A page never holds more rows than the page size. */
  lemma PageSize<T>(rows: seq<T>, page: nat, perPage: nat)
    requires page >= 1
    ensures |Page(rows, page, perPage)| <= perPage
  {
    assert page * perPage == (page - 1) * perPage + perPage;
  }

  /** The first `m` pages, one after the other. */
  function PagesUpTo<T>(rows: seq<T>, perPage: nat, m: nat): seq<T>
  {
    if m == 0 then [] else PagesUpTo(rows, perPage, m - 1) + Page(rows, m, perPage)
  }

  lemma {:induction false} PagesUpToIsPrefix<T>(rows: seq<T>, perPage: nat, m: nat)
    ensures PagesUpTo(rows, perPage, m) == rows[..Min(m * perPage, |rows|)]
  {
    if m > 0 {
      PagesUpToIsPrefix(rows, perPage, m - 1);
      assert (m - 1) * perPage <= m * perPage;
      var a, b := Min((m - 1) * perPage, |rows|), Min(m * perPage, |rows|);
      assert rows[..a] + rows[a..b] == rows[..b];
    }
  }

  /** Reading pages 1 to `TotalPages` in turn shows every row exactly once, in order. */
  lemma AllPagesShowEverything<T>(rows: seq<T>, perPage: nat)
    requires perPage > 0
    ensures PagesUpTo(rows, perPage, TotalPages(|rows|, perPage)) == rows
  {
    TotalPagesIsCeiling(|rows|, perPage);
    PagesUpToIsPrefix(rows, perPage, TotalPages(|rows|, perPage));
  }

  /** The "Showing X to Y" numbers of a page. */
  function ShowingFrom(page: nat, perPage: nat): int { (page - 1) * perPage + 1 }
  function ShowingTo(page: nat, perPage: nat, n: nat): int { Min(page * perPage, n) }

  /** On any page from 1 to `TotalPages`, "Showing X to Y" counts exactly the rows of the page. */
  lemma ShowingCountsPage<T>(rows: seq<T>, page: nat, perPage: nat)
    requires perPage > 0 && 1 <= page <= TotalPages(|rows|, perPage)
    ensures 1 <= ShowingFrom(page, perPage) <= ShowingTo(page, perPage, |rows|)
    ensures ShowingTo(page, perPage, |rows|) - ShowingFrom(page, perPage) + 1 == |Page(rows, page, perPage)|
  {
    TotalPagesIsCeiling(|rows|, perPage);
    var t := TotalPages(|rows|, perPage);
    assert (page - 1) * perPage <= (t - 1) * perPage;
    assert page * perPage == (page - 1) * perPage + perPage;
  }

  // ---------------------------------------------------------------------
  // The progress cell
  // ---------------------------------------------------------------------

  function Times100(n: Num): Num {
    if n.Finite? then Finite(n.v * 100.0) else n
  }

  /** `(spent / amount_limit) * 100`. */
  function ProgressOf(b: BudgetWithStats): Num {
    Times100(Divide(b.spent, b.budget.amountLimit))
  }

  /** `progress > 100`: the row is drawn in the over-budget colour. */
  predicate IsOverBudget(b: BudgetWithStats) {
    NumLess(Finite(100.0), ProgressOf(b))
  }

  /** `Math.min(progress, 100)`, the width of the bar in percent. */
  function BarWidth(progress: Num): Num {
    if progress == NaN then NaN else if NumLess(progress, Finite(100.0)) then progress else Finite(100.0)
  }

  /** With a positive limit, a row is over budget exactly when more than the limit was spent. */
  lemma OverBudgetIff(b: BudgetWithStats)
    requires b.budget.amountLimit > 0.0
    ensures IsOverBudget(b) <==> b.spent > b.budget.amountLimit
  {
    var l := b.budget.amountLimit;
    var q := b.spent / l;
    assert b.spent == q * l;
    if q * 100.0 > 100.0 {
      assert q > 1.0;
      assert q * l > 1.0 * l;
    }
    if b.spent > l {
      assert q * l > 1.0 * l;
      assert q > 1.0;
    }
  }

  /** A zero limit shows any spending as over budget and nothing spent as not over (NaN). */
  lemma ZeroLimitRow(b: BudgetWithStats)
    requires b.budget.amountLimit == 0.0
    ensures IsOverBudget(b) <==> b.spent > 0.0
  {
  }

  /** The bar never draws wider than 100%. */
  lemma BarWidthAtMost100(progress: Num)
    ensures BarWidth(progress) == NaN || !NumLess(Finite(100.0), BarWidth(progress))
    ensures progress != NaN ==> BarWidth(progress) != NaN
  {
  }

  /**
   * Whatever the sort and the page, a page of the pipeline's output holds
   * at most the page size of rows, each a fetched budget that passes the
   * search and the category filter.
   */
  lemma {:induction false} PageRowsMatch(budgets: seq<BudgetWithStats>, searchTerm: string, filterCategory: string,
                                         config: Option<SortConfig>, page: nat, perPage: nat)
    requires page >= 1
    ensures var r := Page(SortBudgets(FilterBudgets(budgets, searchTerm, filterCategory), config), page, perPage);
      |r| <= perPage && forall i :: 0 <= i < |r| ==> r[i] in budgets && Matches(r[i], searchTerm, filterCategory)
  {
    var filtered := FilterBudgets(budgets, searchTerm, filterCategory);
    var listed := SortBudgets(filtered, config);
    PageSize(listed, page, perPage);
    SortBudgetsPermutation(filtered, config);
    FilterBudgetsSpec(budgets, searchTerm, filterCategory);
    var r := Page(listed, page, perPage);
    PageRowsIn(listed, page, perPage);
    forall i | 0 <= i < |r|
      ensures r[i] in filtered
    {
      assert r[i] in multiset(listed);
    }
  }

  /** Every row of a page is a row of the list it pages. */
  lemma PageRowsIn<T>(rows: seq<T>, page: nat, perPage: nat)
    requires page >= 1
    ensures forall i :: 0 <= i < |Page(rows, page, perPage)| ==> Page(rows, page, perPage)[i] in rows
  {
    var a := Min((page - 1) * perPage, |rows|);
    assert (page - 1) * perPage <= page * perPage;
    forall i | 0 <= i < |Page(rows, page, perPage)|
      ensures Page(rows, page, perPage)[i] in rows
    {
      assert Page(rows, page, perPage)[i] == rows[a + i];
    }
  }

  // ---------------------------------------------------------------------
  // The table's own state
  // ---------------------------------------------------------------------

  class BudgetTableView {
    var currentPage: nat
    var searchTerm: string
    var filterCategory: string
    var sortConfig: Option<SortConfig>
    var itemsPerPage: nat

    /** The page number is at least 1 and the page size is one the select offers. */
    predicate Valid()
      reads this
    {
      currentPage >= 1 && IsPageSize(itemsPerPage)
    }

    /** The table as first mounted: page 1 of 10, no search, all categories, unsorted. */
    constructor()
      ensures Valid()
      ensures currentPage == 1 && searchTerm == "" && filterCategory == "All"
      ensures sortConfig == None && itemsPerPage == 10
    {
      currentPage := 1;
      searchTerm := "";
      filterCategory := "All";
      sortConfig := None;
      itemsPerPage := 10;
    }

    /** The filtered, sorted rows before paging. */
    function Listed(budgets: seq<BudgetWithStats>): seq<BudgetWithStats>
      reads this
    {
      SortBudgets(FilterBudgets(budgets, searchTerm, filterCategory), sortConfig)
    }

    /** The rows on the current page: never more than the page size, all matching the filters. */
    function Visible(budgets: seq<BudgetWithStats>): (r: seq<BudgetWithStats>)
      reads this
      requires Valid()
      ensures |r| <= itemsPerPage
      ensures forall i :: 0 <= i < |r| ==> r[i] in budgets && Matches(r[i], searchTerm, filterCategory)
    {
      PageRowsMatch(budgets, searchTerm, filterCategory, sortConfig, currentPage, itemsPerPage);
      Page(Listed(budgets), currentPage, itemsPerPage)
    }

    function PageCount(budgets: seq<BudgetWithStats>): nat
      reads this
      requires Valid()
    {
      TotalPages(|Listed(budgets)|, itemsPerPage)
    }

    /** Typing in the search box; a changed term sends the table back to page 1. */
    method SetSearchTerm(term: string)
      requires Valid()
      modifies `searchTerm, `currentPage
      ensures Valid()
      ensures searchTerm == term
      ensures currentPage == (if term != old(searchTerm) then 1 else old(currentPage))
      ensures filterCategory == old(filterCategory) && sortConfig == old(sortConfig) && itemsPerPage == old(itemsPerPage)
    {
      if term != searchTerm {
        currentPage := 1;
      }
      searchTerm := term;
    }

    /** Choosing a category; a changed choice sends the table back to page 1. */
    method SetFilterCategory(choice: string)
      requires Valid()
      modifies `filterCategory, `currentPage
      ensures Valid()
      ensures filterCategory == choice
      ensures currentPage == (if choice != old(filterCategory) then 1 else old(currentPage))
      ensures searchTerm == old(searchTerm) && sortConfig == old(sortConfig) && itemsPerPage == old(itemsPerPage)
    {
      if choice != filterCategory {
        currentPage := 1;
      }
      filterCategory := choice;
    }

    /** Choosing a page size; a changed size sends the table back to page 1. */
    method SetItemsPerPage(k: nat)
      requires Valid() && IsPageSize(k)
      modifies `itemsPerPage, `currentPage
      ensures Valid()
      ensures itemsPerPage == k
      ensures currentPage == (if k != old(itemsPerPage) then 1 else old(currentPage))
      ensures searchTerm == old(searchTerm) && filterCategory == old(filterCategory) && sortConfig == old(sortConfig)
    {
      if k != itemsPerPage {
        currentPage := 1;
      }
      itemsPerPage := k;
    }

    /** Clicking a column header; the page is left as it was. */
    method HandleSort(key: SortKey)
      requires Valid()
      modifies `sortConfig
      ensures Valid()
      ensures sortConfig == Some(NextSort(old(sortConfig), key))
      ensures currentPage == old(currentPage) && searchTerm == old(searchTerm)
      ensures filterCategory == old(filterCategory) && itemsPerPage == old(itemsPerPage)
    {
      sortConfig := Some(NextSort(sortConfig, key));
    }

    /** "Previous": one page back, never below page 1. */
    method PreviousPage()
      requires Valid()
      modifies `currentPage
      ensures Valid()
      ensures currentPage == Max(1, old(currentPage) - 1)
      ensures searchTerm == old(searchTerm) && filterCategory == old(filterCategory)
      ensures sortConfig == old(sortConfig) && itemsPerPage == old(itemsPerPage)
    {
      currentPage := Max(1, currentPage - 1);
    }

    /** "Next", shown only when there is more than one page: one page on, never past the last. */
    method NextPage(budgets: seq<BudgetWithStats>)
      requires Valid() && PageCount(budgets) > 1
      modifies `currentPage
      ensures Valid()
      ensures currentPage == Min(old(PageCount(budgets)), old(currentPage) + 1)
      ensures currentPage <= old(PageCount(budgets))
      ensures searchTerm == old(searchTerm) && filterCategory == old(filterCategory)
      ensures sortConfig == old(sortConfig) && itemsPerPage == old(itemsPerPage)
    {
      var total := PageCount(budgets);
      currentPage := Min(total, currentPage + 1);
    }
  }
}
