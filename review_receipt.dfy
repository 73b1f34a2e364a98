/**
 * The receipt review dialog: the scanned line items are edited, mapped to
 * budgets or deleted, their total is shown, and saving turns each item into
 * one expense transaction.
 */
module ReviewReceipt {
  import opened Wrappers
  import opened Strings
  import opened Lists
  import opened Types

  /** One scanned line; an amount the number field cannot read is NaN (`None`). */
  datatype ScannedItem = ScannedItem(name: string, amount: Option<real>, category: string, budgetId: Option<string>)

  /** What the scanner returned; an empty `date` stands for a missing one. */
  datatype ScannedData = ScannedData(store: string, date: string, items: seq<ScannedItem>, receiptUrl: Option<string>)

  /** The fields a line's inputs edit, with the new value. */
  datatype ItemEdit = SetName(name: string) | SetCategory(category: string) | SetAmount(amount: Option<real>)

  /** The expense row inserted for one item. */
  datatype ExpenseInsert = ExpenseInsert(
    userId: string,
    amount: Option<real>,
    category: string,
    description: string,
    date: string,
    kind: string,
    receiptUrl: Option<string>)

  /** `{ ...item, [field]: value }`: one field replaced. */
  function ApplyEdit(item: ScannedItem, edit: ItemEdit): (r: ScannedItem)
    ensures edit.SetName? ==> r.name == edit.name && r.amount == item.amount && r.category == item.category
    ensures edit.SetCategory? ==> r.category == edit.category && r.name == item.name && r.amount == item.amount
    ensures edit.SetAmount? ==> r.amount == edit.amount && r.name == item.name && r.category == item.category
    ensures r.budgetId == item.budgetId
  {
    match edit
    case SetName(n) => item.(name := n)
    case SetCategory(c) => item.(category := c)
    case SetAmount(a) => item.(amount := a)
  }

  /** `budgets.find(b => b.id === budgetId)`. */
  function FindBudget(budgets: seq<BudgetRef>, budgetId: string): (r: Option<nat>)
    ensures r.Some? ==> r.value < |budgets| && budgets[r.value].id == budgetId
    ensures r.Some? ==> forall j :: 0 <= j < r.value ==> budgets[j].id != budgetId
    ensures r.None? ==> forall j :: 0 <= j < |budgets| ==> budgets[j].id != budgetId
  {
    FindFirst(budgets, (b: BudgetRef) => b.id == budgetId)
  }

  /** Mapping a line to a budget takes the budget's category and name; an unknown id only unmaps it. */
  function SelectBudget(item: ScannedItem, budgets: seq<BudgetRef>, budgetId: string): (r: ScannedItem)
    ensures FindBudget(budgets, budgetId).Some? ==>
      var b := budgets[FindBudget(budgets, budgetId).value];
      r == ScannedItem(b.name, item.amount, b.category, Some(budgetId))
    ensures FindBudget(budgets, budgetId).None? ==> r == item.(budgetId := None)
  {
    match FindBudget(budgets, budgetId)
    case Some(k) => item.(budgetId := Some(budgetId), category := budgets[k].category, name := budgets[k].name)
    case None => item.(budgetId := None)
  }

  /** The map-to-budget select offers an empty option, which never names a budget. */
  lemma EmptyChoiceUnmaps(item: ScannedItem, budgets: seq<BudgetRef>)
    requires forall j :: 0 <= j < |budgets| ==> budgets[j].id != ""
    ensures SelectBudget(item, budgets, "") == item.(budgetId := None)
  {
  }

  /** `Number(item.amount) || 0`: NaN and missing amounts count as 0. */
  function AmountOrZero(item: ScannedItem): real {
    item.amount.GetOr(0.0)
  }

  /** The total shown under the list. */
  function Total(items: seq<ScannedItem>): real {
    SumOf(items, AmountOrZero)
  }

  /** `items.filter((_, i) => i !== index)`: an index outside the list removes nothing. */
  function RemoveAt(items: seq<ScannedItem>, index: int): (r: seq<ScannedItem>)
    ensures 0 <= index < |items| ==> |r| == |items| - 1
    ensures 0 <= index < |items| ==> forall j :: 0 <= j < index ==> r[j] == items[j]
    ensures 0 <= index < |items| ==> forall j :: index <= j < |r| ==> r[j] == items[j + 1]
    ensures !(0 <= index < |items|) ==> r == items
  {
    if 0 <= index < |items| then items[..index] + items[index + 1..] else items
  }

  /** Deleting a line takes exactly its amount off the total. */
  lemma RemoveAtTotal(items: seq<ScannedItem>, index: nat)
    requires index < |items|
    ensures Total(RemoveAt(items, index)) == Total(items) - AmountOrZero(items[index])
  {
    assert items == items[..index] + [items[index]] + items[index + 1..];
    SumOfConcat(items[..index] + [items[index]], items[index + 1..], AmountOrZero);
    SumOfConcat(items[..index], [items[index]], AmountOrZero);
    SumOfConcat(items[..index], items[index + 1..], AmountOrZero);
  }

  /** Deleting a line removes that item once and keeps every other. */
  lemma RemoveAtMultiset(items: seq<ScannedItem>, index: nat)
    requires index < |items|
    ensures multiset(RemoveAt(items, index)) + multiset{items[index]} == multiset(items)
  {
    assert items == items[..index] + [items[index]] + items[index + 1..];
  }

  /** Replacing one line changes the total by the difference of its amounts. */
  lemma ReplaceTotal(items: seq<ScannedItem>, index: nat, item: ScannedItem)
    requires index < |items|
    ensures Total(items[index := item]) == Total(items) - AmountOrZero(items[index]) + AmountOrZero(item)
  {
    var s := items[index := item];
    assert items == items[..index] + [items[index]] + items[index + 1..];
    assert s == items[..index] + [item] + items[index + 1..];
    SumOfConcat(items[..index] + [items[index]], items[index + 1..], AmountOrZero);
    SumOfConcat(items[..index], [items[index]], AmountOrZero);
    SumOfConcat(items[..index] + [item], items[index + 1..], AmountOrZero);
    SumOfConcat(items[..index], [item], AmountOrZero);
  }

  /** One expense per item, in order, described as `store - name`, all on the receipt's date. */
  function ExpenseRows(userId: string, store: string, date: string, items: seq<ScannedItem>, receiptUrl: Option<string>): (r: seq<ExpenseInsert>)
    ensures |r| == |items|
    ensures forall i :: 0 <= i < |r| ==>
      r[i] == ExpenseInsert(userId, items[i].amount, items[i].category, store + " - " + items[i].name, date, "expense", receiptUrl)
  {
    if items == [] then []
    else
      var row := ExpenseInsert(userId, items[0].amount, items[0].category, store + " - " + items[0].name, date, "expense", receiptUrl);
      [row] + ExpenseRows(userId, store, date, items[1..], receiptUrl)
  }

  /** The save button is enabled only with at least one item and no save under way. */
  predicate CanSave(items: seq<ScannedItem>, isSubmitting: bool) {
    !isSubmitting && |items| > 0
  }

  /** Save: nothing without a signed-in user, otherwise the rows above in one insert. */
  function SaveRequest(user: Option<string>, store: string, date: string, items: seq<ScannedItem>, receiptUrl: Option<string>): (r: Option<seq<ExpenseInsert>>)
    ensures r.None? <==> user.None?
    ensures r.Some? ==> r.value == ExpenseRows(user.value, store, date, items, receiptUrl)
  {
    match user
    case None => None
    case Some(u) => Some(ExpenseRows(u, store, date, items, receiptUrl))
  }

  /** An enabled save by a signed-in user inserts at least one expense, and the inserted amounts add up to the total shown. */
  lemma SaveMatchesTotal(u: string, store: string, date: string, items: seq<ScannedItem>, receiptUrl: Option<string>)
    requires CanSave(items, false)
    ensures SaveRequest(Some(u), store, date, items, receiptUrl).Some?
    ensures var rows := SaveRequest(Some(u), store, date, items, receiptUrl).value;
      |rows| >= 1 && SumOf(rows, (e: ExpenseInsert) => e.amount.GetOr(0.0)) == Total(items)
  {
    ExpenseRowsSum(u, store, date, items, receiptUrl);
  }

  lemma {:induction false} ExpenseRowsSum(u: string, store: string, date: string, items: seq<ScannedItem>, receiptUrl: Option<string>)
    ensures SumOf(ExpenseRows(u, store, date, items, receiptUrl), (e: ExpenseInsert) => e.amount.GetOr(0.0)) == Total(items)
  {
    if items != [] {
      ExpenseRowsSum(u, store, date, items[1..], receiptUrl);
    }
  }

  /** The dialog's editable copy of the scan. */
  class ReceiptReview {
    var items: seq<ScannedItem>
    var store: string
    var date: string
    var budgets: seq<BudgetRef>
    var suggestedCategories: seq<string>

    constructor()
      ensures items == [] && store == "" && date == "" && budgets == [] && suggestedCategories == []
    {
      items := [];
      store := "";
      date := "";
      budgets := [];
      suggestedCategories := [];
    }

    /** A new scan replaces the items and store; a scan without a date takes today's. */
    method Load(scanned: ScannedData, today: string)
      modifies `items, `store, `date
      ensures items == scanned.items && store == scanned.store
      ensures date == (if scanned.date != "" then scanned.date else today)
      ensures budgets == old(budgets) && suggestedCategories == old(suggestedCategories)
    {
      items := scanned.items;
      store := scanned.store;
      date := if scanned.date != "" then scanned.date else today;
    }

    /**
     * The fetched past categories, sorted and distinct, and this month's
     * budgets; a fetch that returned no data keeps the old list.
     */
    method LoadLookups(pastCategories: Option<seq<string>>, monthBudgets: Option<seq<BudgetRef>>)
      modifies `suggestedCategories, `budgets
      ensures pastCategories.None? ==> suggestedCategories == old(suggestedCategories)
      ensures pastCategories.Some? ==> suggestedCategories == SortedUnique(pastCategories.value)
      ensures budgets == monthBudgets.GetOr(old(budgets))
    {
      if pastCategories.Some? {
        suggestedCategories := SortedUnique(pastCategories.value);
      }
      if monthBudgets.Some? {
        budgets := monthBudgets.value;
      }
    }

    /** Editing one field of one line; every other line stays as it was. */
    method ChangeItem(index: nat, edit: ItemEdit)
      requires index < |items|
      modifies `items
      ensures items == old(items)[index := ApplyEdit(old(items)[index], edit)]
      ensures store == old(store) && date == old(date) && budgets == old(budgets)
      ensures suggestedCategories == old(suggestedCategories)
    {
      var newItems := items;
      newItems := newItems[index := ApplyEdit(newItems[index], edit)];
      items := newItems;
    }

    /** Choosing a budget for one line. */
    method SelectBudgetFor(index: nat, budgetId: string)
      requires index < |items|
      modifies `items
      ensures items == old(items)[index := SelectBudget(old(items)[index], old(budgets), budgetId)]
      ensures store == old(store) && date == old(date) && budgets == old(budgets)
      ensures suggestedCategories == old(suggestedCategories)
    {
      var newItems := items;
      newItems := newItems[index := SelectBudget(newItems[index], budgets, budgetId)];
      items := newItems;
    }

    /** The trash button of one line. */
    method DeleteItem(index: nat)
      modifies `items
      ensures items == RemoveAt(old(items), index)
      ensures store == old(store) && date == old(date) && budgets == old(budgets)
      ensures suggestedCategories == old(suggestedCategories)
    {
      items := RemoveAt(items, index);
    }

    /**
     * What "Save" sends from the dialog's own fields: nothing without a
     * signed-in user, otherwise one expense per line whose amounts add up
     * to the total the dialog shows.
     */
    function Request(user: Option<string>, receiptUrl: Option<string>): (r: Option<seq<ExpenseInsert>>)
      reads this
      ensures r.None? <==> user.None?
      ensures r.Some? ==> |r.value| == |items|
      ensures r.Some? ==> SumOf(r.value, (e: ExpenseInsert) => e.amount.GetOr(0.0)) == Total(items)
    {
      if user.Some? then
        ExpenseRowsSum(user.value, store, date, items, receiptUrl);
        SaveRequest(user, store, date, items, receiptUrl)
      else None
    }
  }
}
