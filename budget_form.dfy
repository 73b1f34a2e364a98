/**
 * The state of the budget creation dialog and what it writes: the single
 * budget form (create, edit, duplicate), the bulk preview that can be edited
 * item by item, and the request a submit sends.
 */
module BudgetForm {
  import opened Wrappers
  import opened Strings
  import opened Lists
  import opened Types
  import opened JsNumber
  import opened AutoCategorizer
  import opened BulkParser

  datatype InputMode = Single | Bulk

  /** Why the dialog was opened. */
  datatype OperationMode = Create | Edit | Duplicate

  /** The column of a proposal the preview lets the user change. */
  datatype Field = SourceNameField | CategoryField | AmountField

  /**
   * The budget an edit or a duplicate starts from. The limit is a whole
   * number here, so its text rendering is `NatToString`.
   */
  datatype InitialBudget = InitialBudget(id: Option<string>, name: string, category: string, amountLimit: nat, month: string)

  /**
   * A `budgets` row as written; `amountLimit` is `parseFloat` of the text (None
   * for NaN) and `monthStart` is the `YYYY-MM-01` text the date is built from.
   */
  datatype BudgetRow = BudgetRow(userId: string, name: string, category: string, amountLimit: Option<real>, period: string, monthStart: string)

  datatype SaveRequest =
    | UpdateBudget(id: string, row: BudgetRow)
    | InsertBudget(row: BudgetRow)
    | InsertBudgets(rows: seq<BudgetRow>)

  // ---------------------------------------------------------------- the preview buffer

  function FieldOf(item: BulkItem, field: Field): string
  {
    match field
    case SourceNameField => item.sourceName
    case CategoryField => item.category
    case AmountField => item.amount
  }

  /** `{ ...item, [field]: value }`. */
  function SetField(item: BulkItem, field: Field, value: string): (r: BulkItem)
    ensures FieldOf(r, field) == value
    ensures r.id == item.id
    ensures forall g :: g != field ==> FieldOf(r, g) == FieldOf(item, g)
  {
    match field
    case SourceNameField => item.(sourceName := value)
    case CategoryField => item.(category := value)
    case AmountField => item.(amount := value)
  }

  /**
   * `updateBulkItem`: every proposal with the given id gets the new value in
   * that field; every other field and every other proposal stays as it was.
   */
  function UpdateItems(items: seq<BulkItem>, id: string, field: Field, value: string): (r: seq<BulkItem>)
    ensures |r| == |items|
    ensures forall t :: 0 <= t < |r| ==> r[t].id == items[t].id
    ensures forall t :: 0 <= t < |r| && items[t].id == id ==>
      FieldOf(r[t], field) == value &&
      forall g :: g != field ==> FieldOf(r[t], g) == FieldOf(items[t], g)
    ensures forall t :: 0 <= t < |r| && items[t].id != id ==> r[t] == items[t]
  {
    seq(|items|, t requires 0 <= t < |items| =>
      if items[t].id == id then SetField(items[t], field, value) else items[t])
  }

  /** Editing a field never changes any id, so the ids stay distinct. */
  lemma UpdateItemsKeepsIdsDistinct(items: seq<BulkItem>, id: string, field: Field, value: string)
    requires DistinctIds(items)
    ensures DistinctIds(UpdateItems(items, id, field, value))
  {
  }

  /** The test `item.id !== id`. */
  function OtherThan(id: string): BulkItem -> bool
  {
    (item: BulkItem) => item.id != id
  }

  /** `removeBulkItem`: the proposals with other ids, in their order. */
  function RemoveItems(items: seq<BulkItem>, id: string): (r: seq<BulkItem>)
    ensures forall t :: 0 <= t < |r| ==> r[t].id != id && r[t] in items
    ensures forall t :: 0 <= t < |items| && items[t].id != id ==> items[t] in r
  {
    Filter(items, OtherThan(id))
  }

  /** The proposals keep their relative order. */
  lemma RemoveItemsIsSubsequence(items: seq<BulkItem>, id: string)
    ensures IsSubsequence(RemoveItems(items, id), items)
  {
    FilterIsSubsequence(items, OtherThan(id));
  }

  /** Removing an id no proposal has changes nothing. */
  lemma RemoveAbsentId(items: seq<BulkItem>, id: string)
    requires forall t :: 0 <= t < |items| ==> items[t].id != id
    ensures RemoveItems(items, id) == items
  {
    FilterAll(items, OtherThan(id));
  }

  /** With distinct ids, removing the id of the `k`-th proposal drops exactly that proposal. */
  lemma {:induction false} RemovePresentId(items: seq<BulkItem>, k: nat)
    requires DistinctIds(items) && k < |items|
    ensures RemoveItems(items, items[k].id) == items[..k] + items[k + 1..]
  {
    var id := items[k].id;
    var tail := items[1..];
    assert DistinctIds(tail);
    if k == 0 {
      assert forall t :: 0 <= t < |tail| ==> tail[t].id != id;
      RemoveAbsentId(tail, id);
    } else {
      assert items[0].id != id;
      assert tail[k - 1] == items[k];
      RemovePresentId(tail, k - 1);
      assert items[..k] + items[k + 1..] == [items[0]] + (tail[..k - 1] + tail[k..]);
    }
  }

  /** Removing a proposal keeps the ids of the others distinct. */
  lemma {:induction false} RemoveItemsKeepsIdsDistinct(items: seq<BulkItem>, id: string)
    requires DistinctIds(items)
    ensures DistinctIds(RemoveItems(items, id))
  {
    var k := FindFirst(items, (item: BulkItem) => item.id == id);
    if k.Some? {
      RemovePresentId(items, k.value);
      var r := items[..k.value] + items[k.value + 1..];
      forall a, b | 0 <= a < b < |r| ensures r[a].id != r[b].id {
        var a' := if a < k.value then a else a + 1;
        var b' := if b < k.value then b else b + 1;
        assert r[a] == items[a'] && r[b] == items[b'];
      }
    } else {
      RemoveAbsentId(items, id);
    }
  }

  // ---------------------------------------------------------------- submit

  /** `s.slice(0, 7)`: the `YYYY-MM` part of a date. */
  function MonthPart(s: string): (r: string)
    ensures |r| <= 7 && |r| <= |s| && r == s[..|r|]
    ensures |s| >= 7 ==> |r| == 7
  {
    if |s| <= 7 then s else s[..7]
  }

  /** The row a bulk proposal becomes. */
  function BulkRow(userId: string, item: BulkItem, month: string): BudgetRow
  {
    BudgetRow(userId, item.sourceName, item.category, ParseFloat(item.amount), "monthly", month + "-01")
  }

  /** What `handleSubmit` writes, or None when it returns without writing. */
  function SaveRequestOf(
    userId: Option<string>, inputMode: InputMode, opMode: OperationMode, initialId: Option<string>,
    name: string, category: string, limit: string, month: string, items: seq<BulkItem>): (r: Option<SaveRequest>)
    ensures r.None? <==>
      userId.None? ||
      (inputMode == Single && (category == "" || limit == "")) ||
      (inputMode == Bulk && items == [])
    ensures r.Some? && inputMode == Bulk ==>
      r.value.InsertBudgets? && |r.value.rows| == |items| &&
      forall t :: 0 <= t < |items| ==>
        r.value.rows[t].userId == userId.value &&
        r.value.rows[t].name == items[t].sourceName &&
        r.value.rows[t].category == items[t].category &&
        r.value.rows[t].amountLimit == ParseFloat(items[t].amount) &&
        r.value.rows[t].period == "monthly" &&
        r.value.rows[t].monthStart == month + "-01"
    ensures r.Some? && inputMode == Single ==>
      (r.value.UpdateBudget? <==> opMode == Edit && initialId.Some? && initialId.value != "") &&
      (r.value.UpdateBudget? || r.value.InsertBudget?) &&
      r.value.row == BudgetRow(userId.value, if name == "" then category else name, category,
                               ParseFloat(limit), "monthly", month + "-01")
  {
    if userId.None? then None
    else match inputMode
      case Single =>
        if category == "" || limit == "" then None
        else
          var row := BudgetRow(userId.value, if name != "" then name else category, category,
                               ParseFloat(limit), "monthly", month + "-01");
          if opMode == Edit && initialId.Some? && initialId.value != "" then Some(UpdateBudget(initialId.value, row))
          else Some(InsertBudget(row))
      case Bulk =>
        if items == [] then None
        else Some(InsertBudgets(seq(|items|, t requires 0 <= t < |items| => BulkRow(userId.value, items[t], month))))
  }

  /**
   * The submit button can be pressed: it is rendered in single mode and, in
   * bulk mode, only on the preview, and it is enabled when no submission is
   * under way and `handleSubmit` has something to write.
   */
  function CanSubmit(isSubmitting: bool, isPreviewing: bool, inputMode: InputMode, category: string, limit: string, items: seq<BulkItem>): (r: bool)
    ensures r ==> !isSubmitting
    ensures r ==> inputMode == Single || isPreviewing
  {
    (inputMode == Single || isPreviewing) &&
    !isSubmitting && (if inputMode == Single then category != "" && limit != "" else items != [])
  }

  /**
   * For a signed-in user and a rendered button, the button can be pressed
   * exactly when submitting would write something.
   */
  lemma CanSubmitMatchesRequest(
    userId: string, inputMode: InputMode, opMode: OperationMode, initialId: Option<string>,
    name: string, category: string, limit: string, month: string, items: seq<BulkItem>)
    ensures CanSubmit(false, true, inputMode, category, limit, items) <==>
      SaveRequestOf(Some(userId), inputMode, opMode, initialId, name, category, limit, month, items).Some?
    ensures inputMode == Bulk ==> !CanSubmit(false, false, inputMode, category, limit, items)
  {
  }

  /**
   * Editing an existing budget and saving it unchanged writes the same name,
   * category, limit and month back to the same id.
   */
  lemma EditRoundTrip(userId: string, init: InitialBudget)
    requires init.id.Some? && init.id.value != "" && init.category != ""
    requires |init.month| >= 7
    ensures SaveRequestOf(Some(userId), Single, Edit, init.id, init.name, init.category,
                          NatToString(init.amountLimit), MonthPart(init.month), [])
      == Some(UpdateBudget(init.id.value,
           BudgetRow(userId, if init.name == "" then init.category else init.name, init.category,
                     Some(init.amountLimit as real), "monthly", init.month[..7] + "-01")))
  {
    ParseFloatOfNatToString(init.amountLimit);
  }

  /**
   * Duplicating a budget writes a new row (never an update) with the same
   * name, category and limit.
   */
  lemma DuplicateInserts(userId: string, init: InitialBudget, month: string)
    requires init.category != ""
    ensures SaveRequestOf(Some(userId), Single, Duplicate, init.id, init.name, init.category,
                          NatToString(init.amountLimit), month, [])
      == Some(InsertBudget(
           BudgetRow(userId, if init.name == "" then init.category else init.name, init.category,
                     Some(init.amountLimit as real), "monthly", month + "-01")))
  {
    ParseFloatOfNatToString(init.amountLimit);
  }

  /**
   * Submitting a freshly parsed bulk text writes one row per non-blank line,
   * and no row gets a negative limit.
   */
  lemma {:induction false} BulkSubmitOfParsedText(userId: string, text: string, cats: seq<Category>, month: string)
    requires NonBlankLines(text) != []
    ensures var r := SaveRequestOf(Some(userId), Bulk, Create, None, "", "", "", month, ParseBulkText(text, cats));
      r.Some? && r.value.InsertBudgets? && |r.value.rows| == |NonBlankLines(text)| &&
      forall t :: 0 <= t < |r.value.rows| ==>
        r.value.rows[t].amountLimit.None? || r.value.rows[t].amountLimit.value >= 0.0
  {
    var items := ParseBulkText(text, cats);
    var lines := NonBlankLines(text);
    ParseBulkTextShape(text, cats);
    var r := SaveRequestOf(Some(userId), Bulk, Create, None, "", "", "", month, items);
    assert r.Some? && r.value.InsertBudgets? && |r.value.rows| == |lines|;
    forall t | 0 <= t < |r.value.rows|
      ensures r.value.rows[t].amountLimit.None? || r.value.rows[t].amountLimit.value >= 0.0
    {
      assert r.value.rows[t].amountLimit == ParseFloat(items[t].amount);
      assert items[t] == ParseLine(lines[t], t, cats);
      LineAmountUnsigned(lines[t]);
    }
  }

  /** The amount read from any line parses to NaN or to a number that is not negative. */
  lemma LineAmountUnsigned(line: string)
    ensures ParseFloat(LineParts(line).1).None? || ParseFloat(LineParts(line).1).value >= 0.0
  {
    var amount := LineParts(line).1;
    LinePartsAmountShape(line);
    assert DigitsAndDots(amount) by {
      if amount == "0" {
        assert IsDigit(amount[0]);
      }
    }
    ParseFloatUnsigned(amount);
  }

  /**
   * An amount made only of separators survives the pattern but parses to NaN:
   * "Rice ," proposes amount "" and the row gets no number.
   */
  lemma {:induction false} SeparatorOnlyAmountIsNaN(name: string)
    requires name != [] && Trim(name) == name
    requires forall t :: 0 <= t < |name| ==> !IsLineTerminator(name[t])
    ensures LineParts(name + " ,").1 == ""
    ensures ParseFloat(LineParts(name + " ,").1) == None
  {
    assert name + " ," == name + " " + ",";
    LinePartsOfNameAndAmount(name, ",");
  }

  // ---------------------------------------------------------------- the dialog

  /** The proposals for a pasted text, which never share an id. */
  method Preview(text: string, cats: seq<Category>) returns (r: seq<BulkItem>)
    ensures r == ParseBulkText(text, cats) && DistinctIds(r)
  {
    ParseBulkTextIdsDistinct(text, cats);
    r := ParseBulkText(text, cats);
  }

  class BudgetDialog {
    var inputMode: InputMode
    var name: string
    var category: string
    var limit: string
    var month: string
    var bulkText: string
    var items: seq<BulkItem>
    var isPreviewing: bool
    var categories: seq<Category>

    /** The proposals in the preview never share an id. */
    predicate Valid()
      reads this
    {
      DistinctIds(items)
    }

    /** The dialog as first mounted, for the current `YYYY-MM`. */
    constructor(currentMonth: string)
      ensures Valid()
      ensures inputMode == Single && name == "" && category == "" && limit == ""
      ensures month == currentMonth && bulkText == "" && items == [] && !isPreviewing
      ensures categories == []
    {
      inputMode := Single;
      name := "";
      category := "";
      limit := "";
      month := currentMonth;
      bulkText := "";
      items := [];
      isPreviewing := false;
      categories := [];
    }

    /**
     * Opening the dialog: an edit or a duplicate pre-fills the single form
     * from the budget (an edit with no month falls back to the current
     * month); a create resets everything.
     */
    method Open(initial: Option<InitialBudget>, opMode: OperationMode, currentMonth: string)
      requires Valid()
      modifies `inputMode, `name, `category, `limit, `month, `bulkText, `items, `isPreviewing
      ensures Valid()
      ensures inputMode == Single
      ensures initial.Some? ==>
        name == initial.value.name && category == initial.value.category &&
        limit == NatToString(initial.value.amountLimit) &&
        month == (if opMode == Duplicate || initial.value.month != "" then MonthPart(initial.value.month) else currentMonth) &&
        bulkText == old(bulkText) && items == old(items) && isPreviewing == old(isPreviewing)
      ensures initial.None? ==>
        name == "" && category == "" && limit == "" && month == currentMonth &&
        bulkText == "" && items == [] && !isPreviewing
    {
      if initial.Some? {
        var init := initial.value;
        name := init.name;
        category := init.category;
        limit := NatToString(init.amountLimit);
        if opMode == Duplicate {
          month := MonthPart(init.month);
        } else if init.month != "" {
          month := MonthPart(init.month);
        } else {
          month := currentMonth;
        }
        inputMode := Single;
      } else {
        month := currentMonth;
        inputMode := Single;
        name := "";
        category := "";
        limit := "";
        bulkText := "";
        items := [];
        isPreviewing := false;
      }
    }

    /** The categories query answered; no data leaves the list as it was. */
    method LoadCategories(data: Option<seq<Category>>)
      requires Valid()
      modifies `categories
      ensures Valid()
      ensures categories == (if data.Some? then data.value else old(categories))
    {
      if data.Some? {
        categories := data.value;
      }
    }

    method SetBulkText(text: string)
      requires Valid()
      modifies `bulkText
      ensures Valid() && bulkText == text
    {
      bulkText := text;
    }

    /** `parseBulkText`: the preview shows one proposal per non-blank line. */
    method ParsePreview()
      requires Valid()
      modifies `items, `isPreviewing
      ensures Valid()
      ensures items == ParseBulkText(old(bulkText), old(categories)) && isPreviewing
    {
      var parsed := Preview(bulkText, categories);
      items, isPreviewing := parsed, true;
    }

    /** Back from the preview to the text; the proposals are kept. */
    method BackToEdit()
      requires Valid()
      modifies `isPreviewing
      ensures Valid() && !isPreviewing
    {
      isPreviewing := false;
    }

    method UpdateItem(id: string, field: Field, value: string)
      requires Valid()
      modifies `items
      ensures Valid()
      ensures items == UpdateItems(old(items), id, field, value)
    {
      items := UpdateItems(items, id, field, value);
      UpdateItemsKeepsIdsDistinct(old(items), id, field, value);
    }

    method RemoveItem(id: string)
      requires Valid()
      modifies `items
      ensures Valid()
      ensures items == RemoveItems(old(items), id)
      ensures |items| <= |old(items)|
    {
      RemoveItemsKeepsIdsDistinct(items, id);
      items := RemoveItems(items, id);
    }

    /**
     * What pressing submit sends from the dialog's own fields: nothing
     * exactly when the submit button could not be pressed (or nobody is
     * signed in); in bulk mode one row per proposal on screen.
     */
    function Request(userId: Option<string>, opMode: OperationMode, initialId: Option<string>): (r: Option<SaveRequest>)
      reads this
      ensures userId.Some? ==> (r.Some? <==> CanSubmit(false, true, inputMode, category, limit, items))
      ensures userId.None? ==> r.None?
      ensures r.Some? && inputMode == Bulk ==> r.value.InsertBudgets? && |r.value.rows| == |items|
    {
      SaveRequestOf(userId, inputMode, opMode, initialId, name, category, limit, month, items)
    }
  }
}
