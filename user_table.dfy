/** The admin's user-management table: password changes (the admin's own,
    which needs the current password, or another user's), confirmed
    deletes, and which controls each row shows. */
module UserTableView {
  import opened Common
  import opened Sessions

  /** The password inputs of one row; a field never typed into is None. */
  datatype PasswordDraft = PasswordDraft(currentPassword: Option<string>, newPassword: Option<string>)

  /** `{}`: the entry a row gets back after a successful change. */
  const EmptyDraft := PasswordDraft(None, None)

  /** `passwords[id]`, reading an absent entry as `{}`. */
  function DraftOf(passwords: map<Id, PasswordDraft>, id: Id): (d: PasswordDraft)
    ensures id in passwords ==> d == passwords[id]
    ensures id !in passwords ==> d == EmptyDraft
  {
    if id in passwords then passwords[id] else EmptyDraft
  }

  const OwnPasswordPath := "/users/change-password"

  /** An admin's path for changing user `id`'s password. It never
      coincides with the self-service path: at index 7 it has the id's first
      character, which is a digit or '-', where the self-service path has 'c'. */
  function UserPasswordPath(id: Id): (p: string)
    ensures p != OwnPasswordPath
  {
    var p := "/users/" + IdText(id) + "/change-password";
    assert p[7] == IdText(id)[0];
    assert OwnPasswordPath[7] == 'c';
    p
  }

  /** The request `handlePasswordChange(userId)` sends. For the signed-in
      user it carries the current and the new password to the self-service
      path; for anyone else only the new password, to that user's path.
      A field never typed into is sent as "". */
  function PasswordChangeRequest(current: Session, userId: Id, passwords: map<Id, PasswordDraft>): (r: Request)
    ensures r.verb == Put && r.body.Json?
    ensures r.path == OwnPasswordPath <==> userId == current.user.id
    ensures userId != current.user.id ==> r.path == UserPasswordPath(userId)
    ensures r.body.fields.Keys ==
              if userId == current.user.id then {"currentPassword", "newPassword"} else {"newPassword"}
    ensures r.body.fields["newPassword"] == TruthyOr(DraftOf(passwords, userId).newPassword, "")
    ensures userId == current.user.id ==>
              r.body.fields["currentPassword"] == TruthyOr(DraftOf(passwords, userId).currentPassword, "")
  {
    var draft := DraftOf(passwords, userId);
    var newPassword := TruthyOr(draft.newPassword, "");
    if userId == current.user.id then
      Request(Put, OwnPasswordPath,
              Json(map["currentPassword" := TruthyOr(draft.currentPassword, ""), "newPassword" := newPassword]))
    else
      Request(Put, UserPasswordPath(userId), Json(map["newPassword" := newPassword]))
  }

  /** The controls a row renders. */
  datatype Control =
    | CurrentPasswordInput | NewPasswordInput | SaveButton | CancelButton
    | ChangePasswordButton | DeleteButton

  /** A row being edited shows the password inputs (the current-password
      input only on the signed-in user's own row); otherwise an admin sees
      Change Password, and Delete on every row but their own; a non-admin
      sees nothing. */
  function RowControls(current: Session, row: User, editingId: Option<Id>): (r: set<Control>)
    ensures DeleteButton in r <==>
              editingId != Some(row.id) && current.user.role == "admin" && row.id != current.user.id
    ensures ChangePasswordButton in r <==> editingId != Some(row.id) && current.user.role == "admin"
    ensures CurrentPasswordInput in r <==> editingId == Some(row.id) && row.id == current.user.id
    ensures SaveButton in r <==> editingId == Some(row.id)
    ensures NewPasswordInput in r <==> editingId == Some(row.id)
    ensures CancelButton in r <==> editingId == Some(row.id)
  {
    if editingId == Some(row.id) then
      (if row.id == current.user.id then {CurrentPasswordInput} else {}) + {NewPasswordInput, SaveButton, CancelButton}
    else if current.user.role == "admin" then
      {ChangePasswordButton} + (if row.id != current.user.id then {DeleteButton} else {})
    else {}
  }

  /** No one is ever offered to delete their own account. */
  lemma NoDeleteOnOwnRow(current: Session, editingId: Option<Id>)
    ensures DeleteButton !in RowControls(current, current.user, editingId)
  {
  }

  function UserId(u: User): Id
  {
    u.id
  }

  function DeleteUserRequest(id: Id): (r: Request)
    ensures r.verb == Delete && r.body == NoBody
    ensures r.path == "/users/" + IdText(id)
  {
    Request(Delete, "/users/" + IdText(id), NoBody)
  }

  /** Each user path names exactly one user: two users never share the
      password path or the delete request. */
  lemma UserPathsNameTheirUser(a: Id, b: Id)
    ensures UserPasswordPath(a) == UserPasswordPath(b) ==> a == b
    ensures DeleteUserRequest(a) == DeleteUserRequest(b) ==> a == b
  {
    if UserPasswordPath(a) == UserPasswordPath(b) {
      IdInPathInjective("/users/", "/change-password", a, b);
    }
    if DeleteUserRequest(a) == DeleteUserRequest(b) {
      assert "/users/" + IdText(a) + "" == "/users/" + IdText(b) + "";
      IdInPathInjective("/users/", "", a, b);
    }
  }

  class UserTable {
    var users: seq<User>
    var loading: bool
    var editingId: Option<Id>
    var passwords: map<Id, PasswordDraft>
    /** The stored session read at render time. */
    const currentUser: Session

    constructor (currentUser: Session)
      ensures this.currentUser == currentUser
      ensures users == [] && !loading && editingId.None? && passwords == map[]
    {
      this.currentUser := currentUser;
      users, loading, editingId, passwords := [], false, None, map[];
    }

    /** `fetchUsers`, run on mount. */
    method FetchUsers(resp: Response<seq<User>>) returns (req: Request)
      modifies this`users, this`loading
      ensures req == Request(Get, "/users", NoBody)
      ensures !loading
      ensures users == if resp.Success? then resp.data else old(users)
    {
      loading := true;
      req := Request(Get, "/users", NoBody);
      if resp.Success? {
        users := resp.data;
      }
      loading := false;
    }

    /** The Change Password button. */
    method StartEditing(id: Id)
      modifies this`editingId
      ensures editingId == Some(id)
    {
      editingId := Some(id);
    }

    /** The Cancel button: the typed passwords are kept. */
    method CancelEditing()
      modifies this`editingId
      ensures editingId.None?
    {
      editingId := None;
    }

    /** Typing into the current-password input of row `id`: only that field
        of that row's entry changes. */
    method EditCurrentPassword(id: Id, value: string)
      modifies this`passwords
      ensures passwords == old(passwords)[id := DraftOf(old(passwords), id).(currentPassword := Some(value))]
    {
      passwords := passwords[id := DraftOf(passwords, id).(currentPassword := Some(value))];
    }

    /** Typing into the new-password input of row `id`. */
    method EditNewPassword(id: Id, value: string)
      modifies this`passwords
      ensures passwords == old(passwords)[id := DraftOf(old(passwords), id).(newPassword := Some(value))]
    {
      passwords := passwords[id := DraftOf(passwords, id).(newPassword := Some(value))];
    }

    /** `handlePasswordChange`: on success editing ends and the row's entry
        becomes `{}` while every other row's entry is kept; on failure
        nothing changes. */
    method HandlePasswordChange(userId: Id, resp: Response<Unit>) returns (req: Request)
      modifies this`editingId, this`passwords
      ensures req == PasswordChangeRequest(currentUser, userId, old(passwords))
      ensures resp.Success? ==> editingId.None? && passwords == old(passwords)[userId := EmptyDraft]
      ensures resp.Failure? ==> editingId == old(editingId) && passwords == old(passwords)
    {
      req := PasswordChangeRequest(currentUser, userId, passwords);
      if resp.Success? {
        editingId := None;
        passwords := passwords[userId := EmptyDraft];
      }
    }

    /** `handleDelete`: a cancelled confirmation sends nothing; a confirmed
        one sends one delete, and only its success removes the rows whose
        id matches. */
    method HandleDelete(userId: Id, confirmed: bool, resp: Response<Unit>) returns (req: Option<Request>)
      modifies this`users
      ensures !confirmed ==> req.None? && users == old(users)
      ensures confirmed ==> req == Some(DeleteUserRequest(userId))
      ensures users == if confirmed && resp.Success? then RemoveId(old(users), UserId, userId) else old(users)
    {
      if !confirmed {
        req := None;
        return;
      }
      req := Some(DeleteUserRequest(userId));
      if resp.Success? {
        users := RemoveId(users, UserId, userId);
      }
    }
  }
}
