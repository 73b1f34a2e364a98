/**
 * The projects page: every project is shown with the sum of its expenses,
 * and the header shows the sum over all projects.
 */
module ProjectsPage {
  import opened Wrappers
  import opened Lists

  /** A project row; `totalSpent` is absent until the page fills it in. */
  datatype Project = Project(id: string, name: string, description: string, status: string, totalSpent: Option<real>)

  /** The `project_id, amount` projection of a project expense. */
  datatype ProjectExpense = ProjectExpense(projectId: string, amount: real)

  function ForProjectTest(id: string): ProjectExpense -> bool {
    (e: ProjectExpense) => e.projectId == id
  }

  function ExpenseAmount(e: ProjectExpense): real { e.amount }

  /** The sum of the amounts of the expenses carrying `id`. */
  function ProjectTotal(expenses: seq<ProjectExpense>, id: string): real {
    SumOf(Filter(expenses, ForProjectTest(id)), ExpenseAmount)
  }

  /** A project no expense refers to has spent nothing. */
  lemma ProjectTotalWithoutExpenses(expenses: seq<ProjectExpense>, id: string)
    requires forall i :: 0 <= i < |expenses| ==> expenses[i].projectId != id
    ensures ProjectTotal(expenses, id) == 0.0
  {
    FilterNone(expenses, ForProjectTest(id));
  }

  /** One more expense adds its amount to its own project's total and to no other. */
  lemma ProjectTotalAppend(expenses: seq<ProjectExpense>, e: ProjectExpense, id: string)
    ensures ProjectTotal(expenses + [e], id) == ProjectTotal(expenses, id) + (if e.projectId == id then e.amount else 0.0)
  {
    var p := ForProjectTest(id);
    FilterConcat(expenses, [e], p);
    assert Filter([e], p) == if p(e) then [e] else [];
    SumOfConcat(Filter(expenses, p), Filter([e], p), ExpenseAmount);
  }

  /** Some expense in `expenses` carries `id`. */
  predicate HasExpenses(expenses: seq<ProjectExpense>, id: string) {
    exists i :: 0 <= i < |expenses| && expenses[i].projectId == id
  }

  /** `m` holds, for every project id occurring in `expenses`, the sum of its amounts, and nothing else. */
  ghost predicate IsTotalsOf(m: map<string, real>, expenses: seq<ProjectExpense>) {
    (forall id :: id in m <==> HasExpenses(expenses, id)) &&
    (forall id :: id in m ==> m[id] == ProjectTotal(expenses, id))
  }

  /** One step of the loop: adding an expense to its project's entry, which starts from 0. */
  lemma AddExpenseStep(m: map<string, real>, expenses: seq<ProjectExpense>, e: ProjectExpense)
    requires IsTotalsOf(m, expenses)
    ensures IsTotalsOf(m[e.projectId := (if e.projectId in m then m[e.projectId] else 0.0) + e.amount], expenses + [e])
  {
    var s := expenses + [e];
    var m' := m[e.projectId := (if e.projectId in m then m[e.projectId] else 0.0) + e.amount];
    if e.projectId !in m {
      ProjectTotalWithoutExpenses(expenses, e.projectId);
    }
    forall id | id in m'
      ensures m'[id] == ProjectTotal(s, id)
    {
      ProjectTotalAppend(expenses, e, id);
    }
    forall id
      ensures id in m' <==> HasExpenses(s, id)
    {
      if HasExpenses(s, id) {
        var k :| 0 <= k < |s| && s[k].projectId == id;
        if k < |expenses| {
          assert expenses[k].projectId == id;
        }
      }
      if HasExpenses(expenses, id) {
        var k :| 0 <= k < |expenses| && expenses[k].projectId == id;
        assert s[k].projectId == id;
      }
      assert s[|expenses|].projectId == e.projectId;
    }
  }

  /**
   * The `expensesByProject` loop: one entry per project id that occurs in
   * the expenses, holding the sum of that project's amounts.
   */
  method TotalsByProject(expenses: seq<ProjectExpense>) returns (m: map<string, real>)
    ensures forall id :: id in m <==> HasExpenses(expenses, id)
    ensures forall id :: id in m ==> m[id] == ProjectTotal(expenses, id)
  {
    m := map[];
    for i := 0 to |expenses|
      invariant IsTotalsOf(m, expenses[..i])
    {
      var e := expenses[i];
      AddExpenseStep(m, expenses[..i], e);
      assert expenses[..i + 1] == expenses[..i] + [e];
      var before := if e.projectId in m then m[e.projectId] else 0.0;
      m := m[e.projectId := before + e.amount];
    }
    assert expenses[..|expenses|] == expenses;
  }

  /** Every project with the total of its expenses, or 0 when it has none. */
  function WithTotals(projects: seq<Project>, expenses: seq<ProjectExpense>): (r: seq<Project>)
    ensures |r| == |projects|
    ensures forall i :: 0 <= i < |r| ==> r[i] == projects[i].(totalSpent := r[i].totalSpent)
    ensures forall i :: 0 <= i < |r| ==> r[i].totalSpent == Some(ProjectTotal(expenses, projects[i].id))
  {
    seq(|projects|, i requires 0 <= i < |projects| => projects[i].(totalSpent := Some(ProjectTotal(expenses, projects[i].id))))
  }

  /**
   * `processedProjects`: each project, in order and otherwise unchanged,
   * takes its entry of the totals map, or 0 when it has none.
   */
  method ProcessProjects(projects: seq<Project>, expenses: seq<ProjectExpense>) returns (r: seq<Project>)
    ensures r == WithTotals(projects, expenses)
  {
    var totals := TotalsByProject(expenses);
    r := [];
    for i := 0 to |projects|
      invariant r == WithTotals(projects[..i], expenses)
    {
      var p := projects[i];
      if p.id !in totals {
        ProjectTotalWithoutExpenses(expenses, p.id);
      }
      var spent := if p.id in totals then totals[p.id] else 0.0;
      r := r + [p.(totalSpent := Some(spent))];
    }
    assert projects[..|projects|] == projects;
  }

  function SpentOrZero(p: Project): real { p.totalSpent.GetOr(0.0) }

  /** `totalSpentAllProjects`: the shown totals added up, a missing total counting 0. */
  function TotalSpentAll(projects: seq<Project>): real {
    SumOf(projects, SpentOrZero)
  }

  /** The project ids, in order. */
  function Ids(projects: seq<Project>): (r: seq<string>)
    ensures |r| == |projects|
    ensures forall i :: 0 <= i < |r| ==> r[i] == projects[i].id
  {
    if projects == [] then [] else [projects[0].id] + Ids(projects[1..])
  }

  predicate DistinctIds(projects: seq<Project>) {
    forall i, j :: 0 <= i < j < |projects| ==> projects[i].id != projects[j].id
  }

  function ListedTest(projects: seq<Project>): ProjectExpense -> bool {
    (e: ProjectExpense) => e.projectId in Ids(projects)
  }

  function UnlistedRestTest(projects: seq<Project>): ProjectExpense -> bool requires projects != [] {
    (e: ProjectExpense) => e.projectId != projects[0].id
  }

  /** The header total is the first project's total plus that of the others. */
  lemma TotalSpentAllStep(projects: seq<Project>, expenses: seq<ProjectExpense>)
    requires projects != []
    ensures TotalSpentAll(WithTotals(projects, expenses))
      == ProjectTotal(expenses, projects[0].id) + TotalSpentAll(WithTotals(projects[1..], expenses))
  {
    assert WithTotals(projects, expenses)[1..] == WithTotals(projects[1..], expenses);
  }

  /**
   * With distinct ids, the listed projects' expenses split into the first
   * project's and those of the others.
   */
  lemma ListedExpensesStep(projects: seq<Project>, expenses: seq<ProjectExpense>)
    requires projects != [] && DistinctIds(projects)
    ensures SumOf(Filter(expenses, ListedTest(projects)), ExpenseAmount)
      == ProjectTotal(expenses, projects[0].id) + SumOf(Filter(expenses, ListedTest(projects[1..])), ExpenseAmount)
  {
    var rest := projects[1..];
    var id := projects[0].id;
    var listed := ListedTest(projects);
    assert Ids(projects) == [id] + Ids(rest);
    assert forall x: ProjectExpense :: ForProjectTest(id)(x) == (listed(x) && ForProjectTest(id)(x));
    FilterFilter(expenses, listed, ForProjectTest(id), ForProjectTest(id));
    forall x: ProjectExpense
      ensures ListedTest(rest)(x) == (listed(x) && UnlistedRestTest(projects)(x))
    {
      if x.projectId in Ids(rest) {
        var k :| 0 <= k < |rest| && Ids(rest)[k] == x.projectId;
        assert projects[k + 1].id == x.projectId;
      }
    }
    FilterFilter(expenses, listed, UnlistedRestTest(projects), ListedTest(rest));
    SumOfPartition(Filter(expenses, listed), ForProjectTest(id), UnlistedRestTest(projects), ExpenseAmount);
  }

  /**
   * With distinct project ids, the header total is the sum of the expenses
   * that belong to a listed project; expenses of other projects count for
   * nothing.
   */
  lemma {:induction false} TotalSpentAllIsListedExpenses(projects: seq<Project>, expenses: seq<ProjectExpense>)
    requires DistinctIds(projects)
    ensures TotalSpentAll(WithTotals(projects, expenses)) == SumOf(Filter(expenses, ListedTest(projects)), ExpenseAmount)
  {
    if projects == [] {
      FilterNone(expenses, ListedTest(projects));
    } else {
      TotalSpentAllIsListedExpenses(projects[1..], expenses);
      TotalSpentAllStep(projects, expenses);
      ListedExpensesStep(projects, expenses);
    }
  }

  /** An expense for a project that is not listed leaves the header total unchanged. */
  lemma UnlistedExpenseIgnored(projects: seq<Project>, expenses: seq<ProjectExpense>, e: ProjectExpense)
    requires DistinctIds(projects) && e.projectId !in Ids(projects)
    ensures TotalSpentAll(WithTotals(projects, expenses + [e])) == TotalSpentAll(WithTotals(projects, expenses))
  {
    TotalSpentAllIsListedExpenses(projects, expenses);
    TotalSpentAllIsListedExpenses(projects, expenses + [e]);
    FilterConcat(expenses, [e], ListedTest(projects));
    assert Filter([e], ListedTest(projects)) == [];
    assert Filter(expenses, ListedTest(projects)) + [] == Filter(expenses, ListedTest(projects));
  }
}
