/**
 * The 50/30/20 planner: the month's budget limits summed per group of
 * their category, the expected income, and the three progress cards.
 */
module MonthlyPlanner {
  import opened Wrappers
  import opened Lists
  import opened Types
  import opened JsNumber
  import opened Progress
  import BudgetPage

  // ---------------------------------------------------------------------
  // Group totals
  // ---------------------------------------------------------------------

  /** `cats[k]` is the first category called `name`. */
  predicate IsFirstNamed(cats: seq<Category>, k: int, name: string) {
    0 <= k < |cats| && cats[k].name == name && forall j :: 0 <= j < k ==> cats[j].name != name
  }

  /** `categories.find(c => c.name === b.category)?.group`: the group of the FIRST category with that name. */
  function GroupOf(b: Budget, cats: seq<Category>): (r: Option<Group>)
    ensures r.None? <==> forall i :: 0 <= i < |cats| ==> cats[i].name != b.category
    ensures r.Some? ==> exists k :: IsFirstNamed(cats, k, b.category) && cats[k].group == r.value
  {
    match FindFirst(cats, (c: Category) => c.name == b.category)
    case Some(k) => Some(cats[k].group)
    case None => None
  }

  function InGroupTest(cats: seq<Category>, g: Group): Budget -> bool {
    b => GroupOf(b, cats) == Some(g)
  }

  function Limit(b: Budget): real { b.amountLimit }

  /** `getGroupTotal(g)`: the limits of the budgets whose category is in group `g`. */
  function GroupTotal(budgets: seq<Budget>, cats: seq<Category>, g: Group): real {
    SumOf(Filter(budgets, InGroupTest(cats, g)), Limit)
  }

  function MatchedTest(cats: seq<Category>): Budget -> bool {
    b => GroupOf(b, cats).Some?
  }

  /**
   * Every budget with a known category counts toward exactly one group and
   * the others toward none, so the three totals add up to the limits of
   * the budgets with a known category.
   */
  lemma {:induction false} GroupTotalsAddUp(budgets: seq<Budget>, cats: seq<Category>)
    ensures GroupTotal(budgets, cats, Needs) + GroupTotal(budgets, cats, Wants) + GroupTotal(budgets, cats, Savings)
      == SumOf(Filter(budgets, MatchedTest(cats)), Limit)
  {
    if budgets != [] {
      GroupTotalsAddUp(budgets[1..], cats);
      SumOfFilterStep(budgets, InGroupTest(cats, Needs), Limit);
      SumOfFilterStep(budgets, InGroupTest(cats, Wants), Limit);
      SumOfFilterStep(budgets, InGroupTest(cats, Savings), Limit);
      SumOfFilterStep(budgets, MatchedTest(cats), Limit);
    }
  }

  /** With no budgets, or none in the group, the group's total is 0. */
  lemma GroupTotalOfNone(budgets: seq<Budget>, cats: seq<Category>, g: Group)
    requires forall i :: 0 <= i < |budgets| ==> GroupOf(budgets[i], cats) != Some(g)
    ensures GroupTotal(budgets, cats, g) == 0.0
  {
    FilterNone(budgets, InGroupTest(cats, g));
  }

  /**
   * The planner takes the first category with a name, the budget page's
   * colour map the last: with two "Food" categories, one a need and one a
   * want, a "Food" budget counts as a need here but is coloured as a want
   * on the page.
   */
  lemma FirstAndLastCategoryDisagree()
    ensures var cats := [Category("c1", "Food", Needs), Category("c2", "Food", Wants)];
      var b := Budget("b1", "Groceries", "Food", 100.0, "monthly", "2024-05-01");
      GroupOf(b, cats) == Some(Needs) &&
      BudgetPage.ColorOf(BudgetPage.LastByName(cats, b.category)) == "bg-purple-500"
  {
    var cats := [Category("c1", "Food", Needs), Category("c2", "Food", Wants)];
    assert cats[..1] == [cats[0]];
    assert BudgetPage.LastByName(cats, "Food") == Some(cats[1]);
  }

  // ---------------------------------------------------------------------
  // Income and the plan row
  // ---------------------------------------------------------------------

  /** `parseFloat(income) || 0`: unreadable income counts as 0. */
  function IncomeValue(income: string): real {
    ParseFloatOrZero(income)
  }

  /** An empty or unreadable income field counts as no income. */
  lemma UnreadableIncomeIsZero(income: string)
    requires ParseFloat(income).None?
    ensures IncomeValue(income) == 0.0
  {
  }

  /** The loaded plan, as far as saving needs it. */
  datatype MonthlyPlan = MonthlyPlan(id: string, expectedIncome: real)

  datatype PlanWrite =
    | UpdatePlan(id: string, expectedIncome: real)
    | InsertPlan(userId: string, month: string, expectedIncome: real)

  /**
   * Saving the income: nothing without a user; the loaded plan is updated
   * when there is one, otherwise a plan dated the first of the month is
   * inserted.
   */
  function SaveIncome(user: Option<string>, plan: Option<MonthlyPlan>, month: string, income: string): (r: Option<PlanWrite>)
    ensures r.None? <==> user.None?
    ensures r.Some? ==> r.value.expectedIncome == IncomeValue(income)
    ensures r.Some? ==> (r.value.UpdatePlan? <==> plan.Some?)
    ensures r.Some? && plan.Some? ==> r.value == UpdatePlan(plan.value.id, IncomeValue(income))
    ensures r.Some? && plan.None? ==> r.value == InsertPlan(user.value, month + "-01", IncomeValue(income))
  {
    if user.None? then None
    else
      var incomeValue := IncomeValue(income);
      match plan
      case Some(p) => Some(UpdatePlan(p.id, incomeValue))
      case None => Some(InsertPlan(user.value, month + "-01", incomeValue))
  }

  // ---------------------------------------------------------------------
  // The progress cards
  // ---------------------------------------------------------------------

  /** The card shows "Over by" when more than the target is planned. */
  predicate IsOver(current: real, target: real) {
    current > target
  }

  /**
   * The card's percentage is `Percent(current, target)`. A card with no
   * positive target shows 0%, and is over as soon as
   * anything positive is planned; with a positive target its percentage
   * passes 100 exactly when the card is over, and the "remaining" it shows
   * otherwise is at most 100%.
   */
  lemma CardSpec(current: real, target: real)
    ensures target <= 0.0 ==> Percent(current, target) == 0.0
    ensures target <= 0.0 && current > 0.0 ==> IsOver(current, target)
    ensures target > 0.0 ==> (Percent(current, target) > 100.0 <==> IsOver(current, target))
    ensures target > 0.0 && current >= 0.0 && !IsOver(current, target) ==> 0.0 <= 100.0 - Percent(current, target) <= 100.0
    ensures BarWidth(Percent(current, target)) <= 100.0
  {
    PercentSpec(current, target);
  }
}
