/**
 * What the transaction and project-expense dialogs share: the type-ahead
 * category dropdown with its "New category" hint, and recording an expense
 * against a payment account (insert the expense, then debit the account).
 */
module ExpenseEntry {
  import opened Wrappers
  import opened Strings
  import opened Lists
  import opened Types

  // ---------------------------------------------------------------------
  // The category dropdown
  // ---------------------------------------------------------------------

  /** `name.toLowerCase().includes(typed.toLowerCase())`. */
  predicate NameMatches(name: string, typed: string) {
    Contains(Lower(name), Lower(typed))
  }

  function MatchTest<T>(nameOf: T -> string, typed: string): T -> bool {
    o => NameMatches(nameOf(o), typed)
  }

  /** The dropdown entries: the options whose name contains the typed text, ignoring case. */
  function MatchingOptions<T(==)>(options: seq<T>, nameOf: T -> string, typed: string): seq<T>
  {
    Filter(options, MatchTest(nameOf, typed))
  }

  /** Some option's name equals the typed text, ignoring case. */
  predicate HasExactName<T>(options: seq<T>, nameOf: T -> string, typed: string) {
    exists i :: 0 <= i < |options| && Lower(nameOf(options[i])) == Lower(typed)
  }

  /** The "New category" hint: something is typed and no option has exactly that name. */
  predicate ShowsNewHint<T>(options: seq<T>, nameOf: T -> string, typed: string) {
    |typed| > 0 && !HasExactName(options, nameOf, typed)
  }

  /** The dropdown lists exactly the matching options, in their original order. */
  lemma MatchingOptionsSpec<T>(options: seq<T>, nameOf: T -> string, typed: string)
    ensures IsSubsequence(MatchingOptions(options, nameOf, typed), options)
    ensures forall o :: o in MatchingOptions(options, nameOf, typed) <==>
      o in options && NameMatches(nameOf(o), typed)
  {
    FilterIsSubsequence(options, MatchTest(nameOf, typed));
  }

  /** Before anything is typed, the dropdown lists every option and shows no hint. */
  lemma NothingTypedListsAll<T>(options: seq<T>, nameOf: T -> string)
    ensures MatchingOptions(options, nameOf, "") == options
    ensures !ShowsNewHint(options, nameOf, "")
  {
    forall i | 0 <= i < |options| ensures NameMatches(nameOf(options[i]), "") {
      ContainsEmpty(Lower(nameOf(options[i])));
    }
    FilterAll(options, MatchTest(nameOf, ""));
  }

  /**
   * Typing an existing name in any case lists that option and shows no
   * hint; with no such option, any non-empty text shows the hint.
   */
  lemma ExactNameListedWithoutHint<T>(options: seq<T>, nameOf: T -> string, typed: string, i: nat)
    requires i < |options| && Lower(nameOf(options[i])) == Lower(typed)
    ensures options[i] in MatchingOptions(options, nameOf, typed)
    ensures !ShowsNewHint(options, nameOf, typed)
  {
    ContainsSelf(Lower(typed));
  }

  lemma NewHintIff<T>(options: seq<T>, nameOf: T -> string, typed: string)
    ensures ShowsNewHint(options, nameOf, typed) <==>
      typed != [] && forall i :: 0 <= i < |options| ==> Lower(nameOf(options[i])) != Lower(typed)
  {
  }

  // ---------------------------------------------------------------------
  // Debiting the payment account
  // ---------------------------------------------------------------------

  /** `accounts.find(a => a.id === id)`: the first account with that id. */
  function FindAccount(accounts: seq<AccountRef>, id: string): (r: Option<nat>)
    ensures r.Some? ==> r.value < |accounts| && accounts[r.value].id == id
    ensures r.None? <==> forall j :: 0 <= j < |accounts| ==> accounts[j].id != id
  {
    FindFirst(accounts, (a: AccountRef) => a.id == id)
  }

  /** `balance - amount`; an unreadable amount (NaN) makes the balance NaN too. */
  function Debit(balance: real, amount: Option<real>): (r: Option<real>)
    ensures r.Some? <==> amount.Some?
    ensures r.Some? ==> r.value + amount.value == balance
  {
    match amount
    case None => None
    case Some(a) => Some(balance - a)
  }

  /** A write the dialog sends to the database, in order. */
  datatype Write<R> = Insert(row: R) | UpdateBalance(accountId: string, balance: Option<real>)

  /** What pressing the submit button does. */
  datatype Outcome<R> =
    | Ignored             // a required field is empty or nobody is signed in
    | AccountNotFound     // the selected account is not in the list: error, nothing written
    | Written(writes: seq<Write<R>>)

  /**
   * The expense row is inserted first; the account's debited balance is
   * written only when that insert succeeded.
   */
  function DebitWrites<R>(row: R, account: AccountRef, amount: Option<real>, insertOk: bool): (r: seq<Write<R>>)
    ensures |r| >= 1 && r[0] == Insert(row)
    ensures |r| == 2 <==> insertOk
    ensures forall i :: 0 <= i < |r| && r[i].UpdateBalance? ==>
      insertOk && i == 1 && r[i] == UpdateBalance(account.id, Debit(account.balance, amount))
  {
    if insertOk then [Insert(row), UpdateBalance(account.id, Debit(account.balance, amount))] else [Insert(row)]
  }

  /** A balance write always follows the insert of the same submission. */
  lemma BalanceAfterInsert<R>(row: R, account: AccountRef, amount: Option<real>, insertOk: bool, i: nat)
    requires i < |DebitWrites(row, account, amount, insertOk)|
    requires DebitWrites(row, account, amount, insertOk)[i].UpdateBalance?
    ensures i > 0 && DebitWrites(row, account, amount, insertOk)[0] == Insert(row)
    ensures DebitWrites(row, account, amount, insertOk)[i].balance == Debit(account.balance, amount)
  {
  }
}
