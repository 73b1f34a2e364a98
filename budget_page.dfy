/**
 * The monthly budget page: each budget of the month is given what was spent
 * against it and the colour of its category's group.
 */
module BudgetPage {
  import opened Wrappers
  import opened Strings
  import opened Lists
  import opened Types

  // ---------------------------------------------------------------------
  // The category map
  // ---------------------------------------------------------------------

  /** The category a `Map` filled row by row holds for `name`: the last row with that name. */
  function LastByName(cats: seq<Category>, name: string): Option<Category>
  {
    if cats == [] then None
    else if cats[|cats| - 1].name == name then Some(cats[|cats| - 1])
    else LastByName(cats[..|cats| - 1], name)
  }

  /** `cats[k]` is the last category called `name`. */
  predicate IsLastNamed(cats: seq<Category>, k: int, name: string) {
    0 <= k < |cats| && cats[k].name == name && forall j :: k < j < |cats| ==> cats[j].name != name
  }

  /** `LastByName` finds the last category with the name, and finds nothing when no category has it. */
  lemma {:induction false} LastByNameSpec(cats: seq<Category>, name: string)
    ensures LastByName(cats, name).None? <==> forall i :: 0 <= i < |cats| ==> cats[i].name != name
    ensures LastByName(cats, name).Some? ==>
      exists k :: IsLastNamed(cats, k, name) && cats[k] == LastByName(cats, name).value
  {
    if cats != [] {
      var last := |cats| - 1;
      LastByNameSpec(cats[..last], name);
      if cats[last].name == name {
        assert IsLastNamed(cats, last, name);
      } else if LastByName(cats, name).Some? {
        var k :| IsLastNamed(cats[..last], k, name) && cats[..last][k] == LastByName(cats, name).value;
        assert IsLastNamed(cats, k, name);
      }
    }
  }

  /** `categoryData?.forEach(c => categoryMap.set(c.name, c))`. */
  method BuildCategoryMap(cats: seq<Category>) returns (m: map<string, Category>)
    ensures forall n :: n in m <==> LastByName(cats, n).Some?
    ensures forall n :: n in m ==> m[n] == LastByName(cats, n).value
  {
    m := map[];
    for i := 0 to |cats|
      invariant forall n :: n in m <==> LastByName(cats[..i], n).Some?
      invariant forall n :: n in m ==> m[n] == LastByName(cats[..i], n).value
    {
      assert cats[..i + 1][..i] == cats[..i];
      m := m[cats[i].name := cats[i]];
    }
    assert cats[..|cats|] == cats;
  }

  // ---------------------------------------------------------------------
  // Spent and colour
  // ---------------------------------------------------------------------

  /**
   * A transaction counts toward a budget when it has the budget's category,
   * is an expense, and has a description containing the budget's name,
   * ignoring case.
   */
  predicate CountsToward(tx: Transaction, b: Budget) {
    tx.category == Some(b.category) && tx.kind == "expense" &&
    tx.description.Some? && Contains(Lower(tx.description.value), Lower(b.name))
  }

  function CountsTest(b: Budget): Transaction -> bool {
    tx => CountsToward(tx, b)
  }

  function Amount(tx: Transaction): real { tx.amount }

  /** The month's spending against `b`; 0 when the transactions could not be fetched. */
  function Spent(b: Budget, txData: Option<seq<Transaction>>): real {
    match txData
    case None => 0.0
    case Some(txs) => SumOf(Filter(txs, CountsTest(b)), Amount)
  }

  /** Spending is 0 when no transaction counts toward the budget. */
  lemma SpentWithoutMatches(b: Budget, txs: seq<Transaction>)
    requires forall i :: 0 <= i < |txs| ==> !CountsToward(txs[i], b)
    ensures Spent(b, Some(txs)) == 0.0
  {
    FilterNone(txs, CountsTest(b));
  }

  /** An expense in the given category. */
  predicate ExpenseOf(tx: Transaction, category: string) {
    tx.category == Some(category) && tx.kind == "expense"
  }

  function ExpenseTest(category: string): Transaction -> bool {
    tx => ExpenseOf(tx, category)
  }

  function MentionTest(name: string): Transaction -> bool {
    (tx: Transaction) => tx.description.Some? && Contains(Lower(tx.description.value), Lower(name))
  }

  function SilentTest(name: string): Transaction -> bool {
    tx => !MentionTest(name)(tx)
  }

  function NonNegativeTest(): Transaction -> bool {
    (tx: Transaction) => tx.amount >= 0.0
  }

  /**
   * With non-negative amounts, a budget's spending lies between 0 and all
   * the month's expenses in its category.
   */
  lemma SpentWithinCategory(b: Budget, txs: seq<Transaction>)
    requires forall i :: 0 <= i < |txs| ==> txs[i].amount >= 0.0
    ensures 0.0 <= Spent(b, Some(txs))
    ensures Spent(b, Some(txs)) <= SumOf(Filter(txs, ExpenseTest(b.category)), Amount)
  {
    var inCategory := Filter(txs, ExpenseTest(b.category));
    var counted := Filter(txs, CountsTest(b));
    var unmentioned := Filter(inCategory, SilentTest(b.name));
    FilterFilter(txs, ExpenseTest(b.category), MentionTest(b.name), CountsTest(b));
    SumOfPartition(inCategory, MentionTest(b.name), SilentTest(b.name), Amount);
    assert forall i :: 0 <= i < |txs| ==> NonNegativeTest()(txs[i]);
    FilterKeeps(txs, ExpenseTest(b.category), NonNegativeTest());
    FilterKeeps(inCategory, SilentTest(b.name), NonNegativeTest());
    FilterKeeps(txs, CountsTest(b), NonNegativeTest());
    SumOfNonNegative(unmentioned, Amount);
    SumOfNonNegative(counted, Amount);
  }

  /** The dot colour of a budget's group; a category missing from the map gives zinc. */
  function ColorOf(category: Option<Category>): string {
    match category
    case None => "bg-zinc-500"
    case Some(c) =>
      match c.group
      case Needs => "bg-blue-500"
      case Wants => "bg-purple-500"
      case Savings => "bg-emerald-500"
  }

  /** Each group has its own colour, different from the colour of an unknown category. */
  lemma ColorsDistinguishGroups(c: Category, d: Category)
    ensures ColorOf(Some(c)) != ColorOf(None)
    ensures ColorOf(Some(c)) == ColorOf(Some(d)) <==> c.group == d.group
  {
  }

  /** The budgets with their spending and colour, in the fetched order. */
  function WithStats(budgets: seq<Budget>, cats: seq<Category>, txData: Option<seq<Transaction>>): (r: seq<BudgetWithStats>)
    ensures |r| == |budgets|
    ensures forall i :: 0 <= i < |r| ==> r[i].budget == budgets[i]
    ensures forall i :: 0 <= i < |r| ==> r[i].spent == Spent(budgets[i], txData)
    ensures forall i :: 0 <= i < |r| ==> r[i].color == ColorOf(LastByName(cats, budgets[i].category))
  {
    seq(|budgets|, i requires 0 <= i < |budgets| =>
      BudgetWithStats(budgets[i], Spent(budgets[i], txData), ColorOf(LastByName(cats, budgets[i].category))))
  }

  /**
   * `fetchBudgets` once the rows are in: the category map is built, then
   * every budget gets its spending and its colour; the budgets themselves
   * are passed through unchanged and in order.
   */
  method FetchStats(budgets: seq<Budget>, cats: seq<Category>, txData: Option<seq<Transaction>>) returns (r: seq<BudgetWithStats>)
    ensures r == WithStats(budgets, cats, txData)
  {
    var categoryMap := BuildCategoryMap(cats);
    r := [];
    for i := 0 to |budgets|
      invariant r == WithStats(budgets[..i], cats, txData)
    {
      var b := budgets[i];
      var category := if b.category in categoryMap then Some(categoryMap[b.category]) else None;
      assert category == LastByName(cats, b.category);
      r := r + [BudgetWithStats(b, Spent(b, txData), ColorOf(category))];
    }
    assert budgets[..|budgets|] == budgets;
  }
}
