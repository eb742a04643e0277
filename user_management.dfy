/**
 * The admin's user table (src/components/Admin/UserManagement.js): loading the users,
 * the delete button's eligibility, the role badge, and the confirmed delete.
 */
module UserManagement {
  import opened Text
  import opened JsValue
  import opened QuizService
  import opened Lists

  const LoadFailed := "Failed to load users"
  const DeleteFailed := "Failed to delete user"

  /** `user.role === 'PLAYER'`: only player rows have a delete button. */
  predicate DeleteOffered(user: Value) {
    Get(user, "role") == Str("PLAYER")
  }

  /** The button's `disabled`: at most one admin in the table and the row is an admin. */
  predicate DeleteDisabled(users: seq<Value>, user: Value) {
    CountWhere(users, "role", Str("ADMIN")) <= 1 && Get(user, "role") == Str("ADMIN")
  }

  /** The disabled condition needs an admin row, and only player rows have the button, so it is never disabled. */
  lemma OfferedDeleteIsEnabled(users: seq<Value>, user: Value)
    requires DeleteOffered(user)
    ensures !DeleteDisabled(users, user)
  {
  }

  /** `role-badge ${roleClasses[role]}`: the class is looked up by `String(role)`; other roles read `undefined`. */
  function RoleBadgeClass(role: Value): (r: string)
    ensures ToJsString(role) == "ADMIN" ==> r == "role-badge role-admin"
    ensures ToJsString(role) == "PLAYER" ==> r == "role-badge role-player"
    ensures ToJsString(role) != "ADMIN" && ToJsString(role) != "PLAYER" ==> r == "role-badge undefined"
  {
    var key := ToJsString(role);
    "role-badge " + (if key == "ADMIN" then "role-admin" else if key == "PLAYER" then "role-player" else "undefined")
  }

  /** The two roles of the application get their two badges. */
  lemma RoleBadges()
    ensures RoleBadgeClass(Str("ADMIN")) == "role-badge role-admin"
    ensures RoleBadgeClass(Str("PLAYER")) == "role-badge role-player"
    ensures RoleBadgeClass(Null) == "role-badge undefined"
  {
  }

  /** The table's state. */
  class Table {
    var users: Value
    var loading: bool
    var error: string
    var deleteConfirm: Value
    var alerts: seq<string>

    constructor()
      ensures users == Arr([]) && loading && error == "" && deleteConfirm == Null && alerts == []
    {
      users := Arr([]);
      loading := true;
      error := "";
      deleteConfirm := Null;
      alerts := [];
    }

    /** `loadUsers`: the payload replaces the table, or the error is set; `loading` ends false. */
    method LoadUsers(o: ApiOutcome)
      modifies this
      ensures !loading && deleteConfirm == old(deleteConfirm) && alerts == old(alerts)
      ensures PlainCall(o).Returned? ==> users == PlainCall(o).value && error == old(error)
      ensures PlainCall(o).Threw? ==> users == old(users) && error == LoadFailed
    {
      loading := true;
      match PlainCall(o) {
        case Returned(data) =>
          users := data;
        case Threw(_) =>
          error := LoadFailed;
      }
      loading := false;
    }

    /** A row's delete button: asks to confirm the deletion of that user's id. */
    method AskDelete(user: Value)
      requires DeleteOffered(user)
      modifies this
      ensures deleteConfirm == Get(user, "id")
      ensures users == old(users) && loading == old(loading) && error == old(error) && alerts == old(alerts)
    {
      deleteConfirm := Get(user, "id");
    }

    /** The dialog's Cancel. */
    method CancelDelete()
      modifies this
      ensures deleteConfirm == Null
      ensures users == old(users) && loading == old(loading) && error == old(error) && alerts == old(alerts)
    {
      deleteConfirm := Null;
    }

    /**
     * `handleDeleteUser(userId)`: after the server deletes, every user with that id leaves the
     * table and the dialog closes. A failure, or a table that is not an array (its `filter`
     * throws inside the same `try`), alerts and keeps the table and the dialog.
     */
    method HandleDeleteUser(userId: Value, o: ApiOutcome)
      modifies this
      ensures loading == old(loading) && error == old(error)
      ensures PlainCall(o).Returned? && old(users).Arr? ==>
                users == Arr(RemoveWhere(old(users).items, "id", userId)) && deleteConfirm == Null && alerts == old(alerts)
      ensures PlainCall(o).Returned? && old(users).Arr? ==> !AnyWhere(users.items, "id", userId)
      ensures PlainCall(o).Returned? && !old(users).Arr? ==>
                users == old(users) && deleteConfirm == old(deleteConfirm) && alerts == old(alerts) + [DeleteFailed]
      ensures PlainCall(o).Threw? ==>
                users == old(users) && deleteConfirm == old(deleteConfirm)
                && alerts == old(alerts) + [ServerErrorOr(PlainCall(o).error, DeleteFailed)]
    {
      match PlainCall(o) {
        case Returned(_) =>
          if users.Arr? {
            RemoveWhereLeavesNone(users.items, "id", userId);
            users := Arr(RemoveWhere(users.items, "id", userId));
            deleteConfirm := Null;
          } else {
            alerts := alerts + [DeleteFailed];
          }
        case Threw(e) =>
          alerts := alerts + [ServerErrorOr(e, DeleteFailed)];
      }
    }

    /** `{deleteConfirm && (…)}`: the confirmation dialog shows only for a truthy pending id. */
    predicate DialogShown()
      reads this
    {
      Truthy(deleteConfirm)
    }

    /** The dialog's Delete button: `handleDeleteUser(deleteConfirm)` on the pending id. */
    method ConfirmDelete(o: ApiOutcome)
      requires DialogShown()
      modifies this
      ensures loading == old(loading) && error == old(error)
      ensures PlainCall(o).Returned? && old(users).Arr? ==>
                users == Arr(RemoveWhere(old(users).items, "id", old(deleteConfirm))) && deleteConfirm == Null
                && alerts == old(alerts)
      ensures PlainCall(o).Returned? && old(users).Arr? ==> !AnyWhere(users.items, "id", old(deleteConfirm))
      ensures PlainCall(o).Returned? && !old(users).Arr? ==>
                users == old(users) && deleteConfirm == old(deleteConfirm) && alerts == old(alerts) + [DeleteFailed]
      ensures PlainCall(o).Threw? ==>
                users == old(users) && deleteConfirm == old(deleteConfirm)
                && alerts == old(alerts) + [ServerErrorOr(PlainCall(o).error, DeleteFailed)]
    {
      HandleDeleteUser(deleteConfirm, o);
    }

    /**
     * A row's Delete button, then the dialog's Delete if the dialog shows. A row whose id is
     * falsy (the id 0, say) never opens the dialog, so it cannot be deleted from the table;
     * any other row is deleted as `handleDeleteUser` deletes it.
     */
    method DeleteRow(user: Value, o: ApiOutcome)
      requires DeleteOffered(user)
      modifies this
      ensures loading == old(loading) && error == old(error)
      ensures DialogShown() ==> Truthy(Get(user, "id"))
      ensures !Truthy(Get(user, "id")) ==>
                users == old(users) && alerts == old(alerts) && deleteConfirm == Get(user, "id")
      ensures Truthy(Get(user, "id")) && PlainCall(o).Returned? && old(users).Arr? ==>
                users == Arr(RemoveWhere(old(users).items, "id", Get(user, "id"))) && deleteConfirm == Null
                && alerts == old(alerts) && !AnyWhere(users.items, "id", Get(user, "id"))
      ensures Truthy(Get(user, "id")) && PlainCall(o).Returned? && !old(users).Arr? ==>
                users == old(users) && deleteConfirm == Get(user, "id") && alerts == old(alerts) + [DeleteFailed]
      ensures Truthy(Get(user, "id")) && PlainCall(o).Threw? ==>
                users == old(users) && deleteConfirm == Get(user, "id")
                && alerts == old(alerts) + [ServerErrorOr(PlainCall(o).error, DeleteFailed)]
    {
      AskDelete(user);
      if DialogShown() {
        ConfirmDelete(o);
      }
    }
  }
}
