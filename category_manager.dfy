/**
 * The category manager: one form that either adds a category or, while a
 * category is being edited, renames and regroups it.
 */
module CategoryManager {
  import opened Wrappers
  import opened Strings
  import opened Types

  /** The write a submission sends: an update of the edited row or an insert of a new one. */
  datatype CategoryWrite =
    | UpdateCategory(id: string, name: string, group: Group)
    | InsertCategory(userId: string, name: string, group: Group)

  /** `if (editingId)`: an empty id counts as no edit in progress. */
  predicate IsEditing(editingId: Option<string>) {
    editingId.Some? && editingId.value != ""
  }

  /**
   * Submitting the form: nothing without a user or with a name that is
   * only white space; otherwise an update of the edited row or an insert.
   * The name is sent as typed, untrimmed.
   */
  function SubmitRequest(user: Option<string>, name: string, group: Group, editingId: Option<string>): (r: Option<CategoryWrite>)
    ensures r.None? <==> user.None? || AllSpace(name)
    ensures r.Some? ==> r.value.name == name && r.value.group == group
    ensures r.Some? ==> (r.value.UpdateCategory? <==> IsEditing(editingId))
    ensures r.Some? && r.value.UpdateCategory? ==> r.value.id == editingId.value
    ensures r.Some? && r.value.InsertCategory? ==> r.value.userId == user.value
  {
    TrimEmptyIff(name);
    if user.None? || Trim(name) == "" then None
    else if IsEditing(editingId) then Some(UpdateCategory(editingId.value, name, group))
    else Some(InsertCategory(user.value, name, group))
  }

  /** Editing a category and submitting unchanged writes the same name and group back to the same row. */
  lemma EditRoundTrip(u: string, c: Category)
    requires c.id != "" && !AllSpace(c.name)
    ensures SubmitRequest(Some(u), c.name, c.group, Some(c.id)) == Some(UpdateCategory(c.id, c.name, c.group))
  {
  }

  class CategoryForm {
    var name: string
    var group: Group
    var editingId: Option<string>

    /** A fresh form: empty name, the "needs" group, nothing being edited. */
    predicate IsReset()
      reads this
    {
      name == "" && group == Needs && editingId.None?
    }

    constructor()
      ensures IsReset()
    {
      name := "";
      group := Needs;
      editingId := None;
    }

    /** The pencil button: the form takes the category's name and group and edits its row. */
    method StartEdit(c: Category)
      modifies `name, `group, `editingId
      ensures name == c.name && group == c.group && editingId == Some(c.id)
    {
      name := c.name;
      group := c.group;
      editingId := Some(c.id);
    }

    /** "Cancel": back to a fresh form. */
    method CancelEdit()
      modifies `name, `group, `editingId
      ensures IsReset()
    {
      name := "";
      group := Needs;
      editingId := None;
    }

    /**
     * Submitting: the request of `SubmitRequest`; when it was sent and
     * succeeded the form is reset, otherwise it keeps what was typed.
     */
    method Submit(user: Option<string>, writeOk: bool) returns (request: Option<CategoryWrite>)
      modifies `name, `group, `editingId
      ensures request == SubmitRequest(user, old(name), old(group), old(editingId))
      ensures request.Some? && writeOk ==> IsReset()
      ensures !(request.Some? && writeOk) ==> name == old(name) && group == old(group) && editingId == old(editingId)
    {
      var n, g, e := name, group, editingId;
      var result := SubmitRequest(user, n, g, e);
      if result.Some? && writeOk {
        name := "";
        group := Needs;
        editingId := None;
      }
      request := result;
    }
  }
}
