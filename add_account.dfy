/**
 * The "Add Account" / "Edit Account" dialog: the type select's casing,
 * the form reset on opening, and the update-or-insert choice on submit.
 */
module AddAccount {
  import opened Wrappers
  import opened Strings
  import opened JsNumber

  /** The select's options; the first is the default. */
  const AccountTypes: seq<string> := ["Savings", "Current", "Investment"]

  /** `s.charAt(0).toUpperCase() + s.slice(1)`, for ASCII letters. */
  function Capitalize(s: string): (r: string)
    ensures |r| == |s|
    ensures s != [] ==> r[0] == UpperChar(s[0]) && r[1..] == s[1..]
    ensures s != [] ==> !IsLowerLetter(r[0])
  {
    if s == [] then [] else [UpperChar(s[0])] + s[1..]
  }

  /**
   * Lower-casing undoes capitalising: a stored type without capitals comes
   * back from the form unchanged, and any type comes back as its
   * lower-case form.
   */
  lemma LowerCapitalize(s: string)
    ensures Lower(Capitalize(s)) == Lower(s)
    ensures NoUpper(s) ==> Lower(Capitalize(s)) == s
  {
    if s != [] {
      var c := Capitalize(s);
      assert LowerChar(c[0]) == LowerChar(s[0]);
      forall i | 0 <= i < |s|
        ensures Lower(c)[i] == Lower(s)[i]
      {
      }
      if NoUpper(s) {
        LowerOfNoUpper(s);
      }
    }
  }

  /** A capitalised word without other capitals is restored by capitalising its lower-case form. */
  lemma CapitalizeLower(t: string)
    requires t != [] && IsUpper(t[0]) && NoUpper(t[1..])
    ensures Capitalize(Lower(t)) == t
  {
    var l := Lower(t);
    assert l[1..] == t[1..];
    assert UpperChar(LowerChar(t[0])) == t[0];
  }

  /** The stored forms of the three options capitalise back to the option, so editing selects it. */
  lemma StoredTypesSelectTheirOption()
    ensures forall t :: t in AccountTypes ==> Capitalize(Lower(t)) == t
  {
    CapitalizeLower("Savings");
    CapitalizeLower("Current");
    CapitalizeLower("Investment");
  }

  datatype Mode = Create | Edit

  /** The account the dialog was opened with. */
  datatype InitialAccount = InitialAccount(id: string, name: string, kind: string, balance: real)

  /** The row the dialog sends: `type` lower-cased and the balance parsed. */
  datatype AccountData = AccountData(userId: string, name: string, kind: string, balance: Option<real>)

  datatype AccountWrite =
    | UpdateAccount(id: string, data: AccountData)
    | InsertAccount(data: AccountData)

  /** `mode === "edit" && initialData?.id`: an edit of an existing row. */
  predicate EditsRow(mode: Mode, initial: Option<InitialAccount>) {
    mode == Edit && initial.Some? && initial.value.id != ""
  }

  /**
   * Pressing save: nothing unless name, type, balance and user are all
   * present; then an update of the edited row or an insert of a new one.
   */
  function SubmitRequest(user: Option<string>, mode: Mode, initial: Option<InitialAccount>,
                         name: string, kind: string, balance: string): (r: Option<AccountWrite>)
    ensures r.None? <==> name == "" || kind == "" || balance == "" || user.None?
    ensures r.Some? ==> (r.value.UpdateAccount? <==> EditsRow(mode, initial))
    ensures r.Some? && r.value.UpdateAccount? ==> r.value.id == initial.value.id
    ensures r.Some? ==> r.value.data == AccountData(user.value, name, Lower(kind), ParseFloat(balance))
    ensures r.Some? ==> NoUpper(r.value.data.kind)
  {
    if name == "" || kind == "" || balance == "" || user.None? then None
    else
      LowerIsNoUpper(kind);
      var data := AccountData(user.value, name, Lower(kind), ParseFloat(balance));
      if EditsRow(mode, initial) then Some(UpdateAccount(initial.value.id, data))
      else Some(InsertAccount(data))
  }

  class AccountDialog {
    var name: string
    var kind: string
    var balance: string

    /** A fresh form: no name, the first type, no balance. */
    predicate IsReset()
      reads this
    {
      name == "" && kind == AccountTypes[0] && balance == ""
    }

    constructor()
      ensures IsReset()
    {
      name := "";
      kind := AccountTypes[0];
      balance := "";
    }

    /**
     * The open effect: editing an account pre-fills its name, its type with
     * a capital first letter and `balanceText`, the rendering of its
     * balance; anything else resets the form.
     */
    method Open(mode: Mode, initial: Option<InitialAccount>, balanceText: string)
      modifies `name, `kind, `balance
      ensures mode == Edit && initial.Some? ==>
        name == initial.value.name && kind == Capitalize(initial.value.kind) && balance == balanceText
      ensures !(mode == Edit && initial.Some?) ==> IsReset()
    {
      if mode == Edit && initial.Some? {
        name := initial.value.name;
        kind := Capitalize(initial.value.kind);
        balance := balanceText;
      } else {
        name := "";
        kind := AccountTypes[0];
        balance := "";
      }
    }

    /** The write a save sends from the current form. */
    function Request(user: Option<string>, mode: Mode, initial: Option<InitialAccount>): (r: Option<AccountWrite>)
      reads this
      ensures r.None? <==> name == "" || kind == "" || balance == "" || user.None?
      ensures r.Some? ==> r.value.data.name == name && r.value.data.kind == Lower(kind)
    {
      SubmitRequest(user, mode, initial, name, kind, balance)
    }
  }

  /**
   * Opening an account for editing and saving without changes writes its
   * name and its stored lower-case type back to the same row.
   */
  lemma EditRoundTrip(u: string, a: InitialAccount, balanceText: string)
    requires a.id != "" && a.name != "" && a.kind != "" && NoUpper(a.kind) && balanceText != ""
    ensures SubmitRequest(Some(u), Edit, Some(a), a.name, Capitalize(a.kind), balanceText)
      == Some(UpdateAccount(a.id, AccountData(u, a.name, a.kind, ParseFloat(balanceText))))
  {
    LowerCapitalize(a.kind);
  }

  /** A freshly reset form cannot be saved until a name and a balance are typed. */
  lemma ResetFormIsNotSaved(u: Option<string>, mode: Mode, initial: Option<InitialAccount>)
    ensures SubmitRequest(u, mode, initial, "", AccountTypes[0], "").None?
  {
  }
}
