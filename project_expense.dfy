/**
 * The "Add Project Expense" dialog: categories suggested from earlier
 * project expenses, the category dropdown, and submitting an expense that
 * debits the chosen account.
 */
module ProjectExpense {
  import opened Wrappers
  import opened Strings
  import opened Lists
  import opened Types
  import opened JsNumber
  import opened ExpenseEntry

  /** The project expense row the dialog inserts. */
  datatype ProjectExpenseInsert = ProjectExpenseInsert(
    userId: string,
    projectId: string,
    amount: Option<real>,
    description: string,
    category: string,
    date: string,
    accountId: string)

  function Name(c: string): string { c }

  /**
   * Pressing "Add Expense": nothing without an amount, description,
   * category, date, user and account; an error before any write when the
   * account is not in the list; otherwise the expense insert and, if that
   * succeeds, the debited balance.
   */
  function SubmitOutcome(
    amount: string, description: string, category: string, date: string, user: Option<string>,
    selectedAccountId: string, projectId: string, accounts: seq<AccountRef>, insertOk: bool): (r: Outcome<ProjectExpenseInsert>)
    ensures r.Ignored? <==>
      amount == "" || description == "" || category == "" || date == "" || user.None? || selectedAccountId == ""
    ensures r.AccountNotFound? <==> !r.Ignored? && FindAccount(accounts, selectedAccountId).None?
  {
    if amount == "" || description == "" || category == "" || date == "" || user.None? || selectedAccountId == "" then Ignored
    else match FindAccount(accounts, selectedAccountId)
      case None => AccountNotFound
      case Some(k) =>
        var expenseAmount := ParseFloat(amount);
        var row := ProjectExpenseInsert(user.value, projectId, expenseAmount, description, category, date, selectedAccountId);
        Written(DebitWrites(row, accounts[k], expenseAmount, insertOk))
  }

  /**
   * A submission that writes inserts the expense for this project and,
   * only after a successful insert, debits the first account with the
   * selected id by the parsed amount.
   */
  lemma SubmitWrites(
    amount: string, description: string, category: string, date: string, u: string,
    selectedAccountId: string, projectId: string, accounts: seq<AccountRef>, insertOk: bool, k: nat)
    requires amount != "" && description != "" && category != "" && date != "" && selectedAccountId != ""
    requires k < |accounts| && accounts[k].id == selectedAccountId
    requires forall j :: 0 <= j < k ==> accounts[j].id != selectedAccountId
    ensures var r := SubmitOutcome(amount, description, category, date, Some(u), selectedAccountId, projectId, accounts, insertOk);
      r.Written? && r.writes[0] == Insert(ProjectExpenseInsert(u, projectId, ParseFloat(amount), description, category, date, selectedAccountId)) &&
      (|r.writes| == 2 <==> insertOk) &&
      (insertOk ==> r.writes[1] == UpdateBalance(selectedAccountId, Debit(accounts[k].balance, ParseFloat(amount))))
  {
    FindFirstAt(accounts, (a: AccountRef) => a.id == selectedAccountId, k);
  }

  class ProjectExpenseForm {
    var amount: string
    var description: string
    var category: string
    var date: string
    var selectedAccountId: string
    var accounts: seq<AccountRef>
    var existingCategories: seq<string>

    constructor(today: string)
      ensures amount == "" && description == "" && category == "" && date == today
      ensures selectedAccountId == "" && accounts == [] && existingCategories == []
    {
      amount := "";
      description := "";
      category := "";
      date := today;
      selectedAccountId := "";
      accounts := [];
      existingCategories := [];
    }

    /**
     * Opening with a signed-in user: when the earlier project expenses were
     * fetched, the suggestions become their distinct categories, sorted;
     * when the accounts were fetched they replace the list and the first,
     * if any, becomes the selected one. A fetch that returned no data keeps
     * the old list.
     */
    method Open(user: Option<string>, pastCategories: Option<seq<string>>, accountData: Option<seq<AccountRef>>)
      modifies `existingCategories, `accounts, `selectedAccountId
      ensures user.None? ==> existingCategories == old(existingCategories) && accounts == old(accounts)
      ensures user.None? ==> selectedAccountId == old(selectedAccountId)
      ensures user.Some? && pastCategories.None? ==> existingCategories == old(existingCategories)
      ensures user.Some? && pastCategories.Some? ==> existingCategories == SortedUnique(pastCategories.value)
      ensures user.Some? && pastCategories.Some? ==> StrictlySorted(existingCategories)
      ensures user.Some? && pastCategories.Some? ==>
        forall c :: c in existingCategories <==> c in pastCategories.value
      ensures user.Some? ==> accounts == accountData.GetOr(old(accounts))
      ensures user.Some? && accountData.Some? && accountData.value != [] ==> selectedAccountId == accountData.value[0].id
      ensures user.Some? && !(accountData.Some? && accountData.value != []) ==> selectedAccountId == old(selectedAccountId)
    {
      if user.Some? {
        if pastCategories.Some? {
          existingCategories := SortedUnique(pastCategories.value);
        }
        if accountData.Some? {
          accounts := accountData.value;
          if |accountData.value| > 0 {
            selectedAccountId := accountData.value[0].id;
          }
        }
      }
    }

    /** The suggestions the dropdown lists for the text typed so far. */
    function Dropdown(): (r: seq<string>)
      reads this
      ensures forall c :: c in r <==> c in existingCategories && NameMatches(c, category)
    {
      MatchingOptionsSpec(existingCategories, Name, category);
      MatchingOptions(existingCategories, Name, category)
    }

    /**
     * Submitting: the writes of `SubmitOutcome`; after a successful insert
     * the amount, description and category are cleared and the date goes
     * back to today.
     */
    method Submit(user: Option<string>, projectId: string, insertOk: bool, today: string) returns (outcome: Outcome<ProjectExpenseInsert>)
      modifies `amount, `description, `category, `date
      ensures outcome == SubmitOutcome(old(amount), old(description), old(category), old(date), user,
        old(selectedAccountId), projectId, old(accounts), insertOk)
      ensures outcome.Written? && insertOk ==> amount == "" && description == "" && category == "" && date == today
      ensures !(outcome.Written? && insertOk) ==> amount == old(amount) && description == old(description)
      ensures !(outcome.Written? && insertOk) ==> category == old(category) && date == old(date)
    {
      var a, d, c, dt, id, accts := amount, description, category, date, selectedAccountId, accounts;
      var result := SubmitOutcome(a, d, c, dt, user, id, projectId, accts, insertOk);
      if result.Written? && insertOk {
        amount := "";
        description := "";
        category := "";
        date := today;
      }
      outcome := result;
    }
  }
}
