/** The transactions page: the search filter and how each row's status and amount are shown. */
module TransactionsPage {
  import opened Wrappers
  import opened Strings
  import opened Lists
  import opened Types
  import opened JsNumber

  // ---------------------------------------------------------------------
  // Search
  // ---------------------------------------------------------------------

  /** `field?.toLowerCase().includes(term.toLowerCase())`: false when the field is missing. */
  predicate FieldMentions(field: Option<string>, term: string) {
    field.Some? && Contains(Lower(field.value), Lower(term))
  }

  /** A row is listed when its description or its category mentions the search term. */
  predicate Keeps(t: Transaction, searchTerm: string) {
    FieldMentions(t.description, searchTerm) || FieldMentions(t.category, searchTerm)
  }

  function KeepTest(searchTerm: string): Transaction -> bool {
    t => Keeps(t, searchTerm)
  }

  /** `filteredTransactions`. */
  function FilterTransactions(txs: seq<Transaction>, searchTerm: string): seq<Transaction> {
    Filter(txs, KeepTest(searchTerm))
  }

  /**
   * The listed rows keep the fetched order, and a row is listed exactly
   * when its description or category mentions the term, ignoring case.
   */
  lemma FilterTransactionsSpec(txs: seq<Transaction>, searchTerm: string)
    ensures IsSubsequence(FilterTransactions(txs, searchTerm), txs)
    ensures forall t :: t in FilterTransactions(txs, searchTerm) <==> t in txs && Keeps(t, searchTerm)
  {
    FilterIsSubsequence(txs, KeepTest(searchTerm));
  }

  /**
   * With an empty search a row is listed exactly when it has a description
   * or a category; one with neither never appears.
   */
  lemma EmptySearchNeedsAField(t: Transaction)
    ensures Keeps(t, "") <==> t.description.Some? || t.category.Some?
  {
    if t.description.Some? {
      ContainsEmpty(Lower(t.description.value));
    }
    if t.category.Some? {
      ContainsEmpty(Lower(t.category.value));
    }
  }

  /** Searching is blind to letter case in the term. */
  lemma SearchIgnoresTermCase(t: Transaction, a: string, b: string)
    requires Lower(a) == Lower(b)
    ensures Keeps(t, a) <==> Keeps(t, b)
  {
  }

  // ---------------------------------------------------------------------
  // The amount column
  // ---------------------------------------------------------------------

  /** `type === "expense" ? "-" : "+"` followed by `Math.abs(amount)`. */
  function AmountSign(t: Transaction): char {
    if t.kind == "expense" then '-' else '+'
  }

  function AmountMagnitude(t: Transaction): real {
    Abs(t.amount)
  }

  /** The value the sign and the magnitude spell out together. */
  function ShownValue(t: Transaction): real {
    if AmountSign(t) == '-' then -AmountMagnitude(t) else AmountMagnitude(t)
  }

  /**
   * Only expenses show a minus sign; the number shown is never negative.
   * Expenses read as money going out and everything else as money coming
   * in, whatever sign the stored amount has.
   */
  lemma AmountDisplay(t: Transaction)
    ensures AmountSign(t) == '-' <==> t.kind == "expense"
    ensures AmountMagnitude(t) >= 0.0
    ensures AmountMagnitude(t) == t.amount || AmountMagnitude(t) == -t.amount
    ensures t.kind == "expense" ==> ShownValue(t) <= 0.0
    ensures t.kind != "expense" ==> ShownValue(t) >= 0.0
    ensures t.amount >= 0.0 && t.kind != "expense" ==> ShownValue(t) == t.amount
    ensures t.amount >= 0.0 && t.kind == "expense" ==> ShownValue(t) == -t.amount
  {
  }

  // ---------------------------------------------------------------------
  // The status badge
  // ---------------------------------------------------------------------

  /** `status || 'completed'`: a missing or empty status reads "completed". */
  function StatusLabel(status: Option<string>): (r: string)
    ensures r != ""
    ensures status.Some? && status.value != "" ==> r == status.value
  {
    if status.None? || status.value == "" then "completed" else status.value
  }

  const Green := "bg-emerald-500/10 text-emerald-500"
  const Yellow := "bg-yellow-500/10 text-yellow-500"

  /** The badge's colour as the page computes it: from the stored status, not the label. */
  function StatusColorAsWritten(status: Option<string>): string {
    if status == Some("completed") then Green else Yellow
  }

  /** A row with no status is labelled "completed" but drawn in the yellow of a pending one. */
  lemma MissingStatusLooksPending()
    ensures StatusLabel(None) == "completed" && StatusColorAsWritten(None) == Yellow
    ensures StatusLabel(Some("")) == "completed" && StatusColorAsWritten(Some("")) == Yellow
  {
  }

  /** The badge's colour taken from the label it shows. */
  function StatusColor(status: Option<string>): string {
    if StatusLabel(status) == "completed" then Green else Yellow
  }

  /**
   * The badge is green exactly when it reads "completed", and it agrees
   * with the page's colour whenever a status is stored.
   */
  lemma StatusColorMatchesLabel(status: Option<string>)
    ensures StatusColor(status) == Green <==> StatusLabel(status) == "completed"
    ensures status.Some? && status.value != "" ==> StatusColor(status) == StatusColorAsWritten(status)
  {
  }
}
