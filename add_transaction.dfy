/**
 * The "Add Transaction" dialog: keyword auto-categorisation, picking a
 * budget item, the category dropdown, and submitting an expense that debits
 * the chosen account.
 */
module AddTransaction {
  import opened Wrappers
  import opened Strings
  import opened Lists
  import opened Types
  import opened JsNumber
  import opened ExpenseEntry

  /** The mock categoriser's table, in key order. */
  const Keywords: seq<(string, string)> := [
    ("grocery", "Food"),
    ("coffee", "Food"),
    ("uber", "Transport"),
    ("netflix", "Entertainment"),
    ("salary", "Income"),
    ("rent", "Housing")
  ]

  const Fallback := "Uncategorized"

  function KeywordTest(lowerDescription: string): ((string, string)) -> bool {
    (entry: (string, string)) => Contains(lowerDescription, entry.0)
  }

  /** The first key found in the lower-cased description gives the category; none gives "Uncategorized". */
  function KeywordCategory(description: string): string {
    match FindFirst(Keywords, KeywordTest(Lower(description)))
    case Some(k) => Keywords[k].1
    case None => Fallback
  }

  /** The suggestion is never empty, and is "Uncategorized" exactly when no key occurs in the description. */
  lemma KeywordCategorySpec(description: string)
    ensures KeywordCategory(description) != ""
    ensures KeywordCategory(description) == Fallback <==>
      forall k :: 0 <= k < |Keywords| ==> !Contains(Lower(description), Keywords[k].0)
  {
    var lower := Lower(description);
    match FindFirst(Keywords, KeywordTest(lower))
    case Some(k) => {
      assert Contains(lower, Keywords[k].0);
      assert Keywords[k].1 != Fallback;
    }
    case None => {
      assert forall k :: 0 <= k < |Keywords| ==> !KeywordTest(lower)(Keywords[k]);
    }
  }

  /** The earliest key present decides, whatever later keys also occur. */
  lemma FirstKeywordWins(description: string, k: nat)
    requires k < |Keywords| && Contains(Lower(description), Keywords[k].0)
    requires forall j :: 0 <= j < k ==> !Contains(Lower(description), Keywords[j].0)
    ensures KeywordCategory(description) == Keywords[k].1
  {
    FindFirstAt(Keywords, KeywordTest(Lower(description)), k);
  }

  /** "grocery", the first key, always gives "Food", even beside "salary" or "rent". */
  lemma GroceryIsFood(description: string)
    requires Contains(Lower(description), "grocery")
    ensures KeywordCategory(description) == "Food"
  {
    FirstKeywordWins(description, 0);
  }

  /** The transaction row the dialog inserts. */
  datatype TransactionInsert = TransactionInsert(
    userId: string,
    amount: Option<real>,
    description: string,
    category: string,
    kind: string,
    date: string,
    status: string,
    accountId: string)

  function CategoryName(c: Category): string { c.name }

  /**
   * Pressing "Add Transaction": nothing without an amount, description,
   * category, user, account and date; an error before any write when the
   * account is not in the list; otherwise the expense insert and, if that
   * succeeds, the debited balance.
   */
  function SubmitOutcome(
    amount: string, description: string, category: string, user: Option<string>,
    selectedAccountId: string, date: string, accounts: seq<AccountRef>, insertOk: bool): (r: Outcome<TransactionInsert>)
    ensures r.Ignored? <==>
      amount == "" || description == "" || category == "" || user.None? || selectedAccountId == "" || date == ""
    ensures r.AccountNotFound? <==> !r.Ignored? && FindAccount(accounts, selectedAccountId).None?
  {
    if amount == "" || description == "" || category == "" || user.None? || selectedAccountId == "" || date == "" then Ignored
    else match FindAccount(accounts, selectedAccountId)
      case None => AccountNotFound
      case Some(k) =>
        var txAmount := ParseFloat(amount);
        var row := TransactionInsert(user.value, txAmount, description, category, "expense", date, "completed", selectedAccountId);
        Written(DebitWrites(row, accounts[k], txAmount, insertOk))
  }

  /**
   * A submission that writes inserts one completed expense of the parsed
   * amount and, only after a successful insert, sets the account's balance
   * to its old balance minus that amount.
   */
  lemma SubmitWrites(
    amount: string, description: string, category: string, u: string,
    selectedAccountId: string, date: string, accounts: seq<AccountRef>, insertOk: bool, k: nat)
    requires amount != "" && description != "" && category != "" && selectedAccountId != "" && date != ""
    requires k < |accounts| && accounts[k].id == selectedAccountId
    requires forall j :: 0 <= j < k ==> accounts[j].id != selectedAccountId
    ensures var r := SubmitOutcome(amount, description, category, Some(u), selectedAccountId, date, accounts, insertOk);
      r.Written? && r.writes[0] == Insert(TransactionInsert(u, ParseFloat(amount), description, category, "expense", date, "completed", selectedAccountId)) &&
      (|r.writes| == 2 <==> insertOk) &&
      (insertOk ==> r.writes[1] == UpdateBalance(selectedAccountId, Debit(accounts[k].balance, ParseFloat(amount))))
  {
    FindFirstAt(accounts, (a: AccountRef) => a.id == selectedAccountId, k);
  }

  class AddTransactionForm {
    var amount: string
    var description: string
    var category: string
    var date: string
    var selectedAccountId: string
    var selectedBudget: string
    var accounts: seq<AccountRef>
    var budgets: seq<BudgetRef>
    var existingCategories: seq<Category>

    constructor(today: string)
      ensures amount == "" && description == "" && category == "" && date == today
      ensures selectedAccountId == "" && selectedBudget == ""
      ensures accounts == [] && budgets == [] && existingCategories == []
    {
      amount := "";
      description := "";
      category := "";
      date := today;
      selectedAccountId := "";
      selectedBudget := "";
      accounts := [];
      budgets := [];
      existingCategories := [];
    }

    /**
     * Opening with a signed-in user: the date goes back to today, each list
     * that was fetched replaces the old one (a fetch that returned no data
     * keeps it), and the first fetched account, if any, becomes the
     * selected one.
     */
    method Open(user: Option<string>, today: string, catData: Option<seq<Category>>,
                accountData: Option<seq<AccountRef>>, budgetData: Option<seq<BudgetRef>>)
      modifies `date, `existingCategories, `accounts, `selectedAccountId, `budgets
      ensures user.None? ==> date == old(date) && accounts == old(accounts) && budgets == old(budgets)
      ensures user.None? ==> existingCategories == old(existingCategories) && selectedAccountId == old(selectedAccountId)
      ensures user.Some? ==> date == today
      ensures user.Some? ==> existingCategories == catData.GetOr(old(existingCategories))
      ensures user.Some? ==> accounts == accountData.GetOr(old(accounts))
      ensures user.Some? ==> budgets == budgetData.GetOr(old(budgets))
      ensures user.Some? && accountData.Some? && accountData.value != [] ==> selectedAccountId == accountData.value[0].id
      ensures user.Some? && !(accountData.Some? && accountData.value != []) ==> selectedAccountId == old(selectedAccountId)
    {
      if user.Some? {
        date := today;
        if catData.Some? {
          existingCategories := catData.value;
        }
        if accountData.Some? {
          accounts := accountData.value;
          if |accountData.value| > 0 {
            selectedAccountId := accountData.value[0].id;
          }
        }
        if budgetData.Some? {
          budgets := budgetData.value;
        }
      }
    }

    /** "Auto-categorize": nothing with an empty description, otherwise the keyword suggestion. */
    method AutoCategorize()
      modifies `category
      ensures category == (if old(description) == "" then old(category) else KeywordCategory(old(description)))
      ensures description != "" ==> category != ""
    {
      if description == "" {
        return;
      }
      KeywordCategorySpec(description);
      category := KeywordCategory(description);
    }

    /** Picking a budget item copies its category and name; an unknown id changes only the selection. */
    method SelectBudget(budgetId: string)
      modifies `selectedBudget, `category, `description
      ensures selectedBudget == budgetId
      ensures var found := FindFirst(old(budgets), (b: BudgetRef) => b.id == budgetId);
        (found.Some? ==> category == old(budgets)[found.value].category && description == old(budgets)[found.value].name) &&
        (found.None? ==> category == old(category) && description == old(description))
    {
      selectedBudget := budgetId;
      var found := FindFirst(budgets, (b: BudgetRef) => b.id == budgetId);
      if found.Some? {
        category := budgets[found.value].category;
        description := budgets[found.value].name;
      }
    }

    /** The categories the dropdown lists for the text typed so far. */
    function Dropdown(): (r: seq<Category>)
      reads this
      ensures forall c :: c in r <==> c in existingCategories && NameMatches(c.name, category)
    {
      MatchingOptionsSpec(existingCategories, CategoryName, category);
      MatchingOptions(existingCategories, CategoryName, category)
    }

    /**
     * Submitting: the writes of `SubmitOutcome`; after a successful insert
     * the amount, description, category and budget selection are cleared.
     */
    method Submit(user: Option<string>, insertOk: bool) returns (outcome: Outcome<TransactionInsert>)
      modifies `amount, `description, `category, `selectedBudget
      ensures outcome == SubmitOutcome(old(amount), old(description), old(category), user,
        old(selectedAccountId), old(date), old(accounts), insertOk)
      ensures outcome.Written? && insertOk ==> amount == "" && description == "" && category == "" && selectedBudget == ""
      ensures !(outcome.Written? && insertOk) ==> amount == old(amount) && description == old(description)
      ensures !(outcome.Written? && insertOk) ==> category == old(category) && selectedBudget == old(selectedBudget)
    {
      var a, d, c, id, dt, accts := amount, description, category, selectedAccountId, date, accounts;
      var result := SubmitOutcome(a, d, c, user, id, dt, accts, insertOk);
      if result.Written? && insertOk {
        amount := "";
        description := "";
        category := "";
        selectedBudget := "";
      }
      outcome := result;
    }
  }
}
