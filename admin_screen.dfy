/**
 * The admin screen (app/admin.tsx): the admin-only gate, the user form with
 * its add, update and delete handlers, and the hidden delete button on the
 * admin's own row.
 */
module AdminScreen {
  import opened Common
  import opened Text
  import opened Salon
  import opened Auth

  /** The form's fields: name, email, the four-digit PIN and the role. */
  datatype UserForm = UserForm(name: string, email: string, pin: string, role: Role)

  const EmptyForm := UserForm("", "", "", Employee)
  const RequiredMessage := "Minden mező kitöltése kötelező!"
  const PinLengthMessage := "A PIN kód 4 számjegyű kell legyen!"
  const AddedMessage := "Felhasználó sikeresen hozzáadva!"
  const EmailInUseMessage := "Ez az email cím már használatban van!"
  const UpdatedMessage := "Felhasználó sikeresen módosítva!"
  const UpdateFailedMessage := "Nem sikerült módosítani a felhasználót!"
  const DeletedMessage := "Felhasználó sikeresen törölve!"
  const DeleteFailedMessage := "Nem törölheti saját magát vagy nem sikerült a törlés!"

  /** The checks shared by both handlers, in order: every field filled, then a PIN of exactly four UTF-16 code units (`pin.length`). */
  function FormError(f: UserForm): Option<string> {
    if f.name == "" || f.email == "" || f.pin == "" then Some(RequiredMessage)
    else if JsLength(f.pin) != 4 then Some(PinLengthMessage)
    else None
  }

  /**
   * A form passes exactly when name and email are not empty and the PIN has
   * four UTF-16 code units; unlike the client form, a name of spaces passes.
   */
  lemma FormErrorMeaning(f: UserForm)
    ensures FormError(f).None? <==> f.name != "" && f.email != "" && JsLength(f.pin) == 4
    ensures f.name == "" || f.email == "" ==> FormError(f) == Some(RequiredMessage)
    ensures f.name != "" && f.email != "" && f.pin != "" && JsLength(f.pin) != 4 ==> FormError(f) == Some(PinLengthMessage)
  {
  }

  /** `user-${Date.now()}`. */
  function NewUserId(now: nat): string {
    "user-" + NatToString(now)
  }

  /** The record `handleAddUser` builds as written: the PIN goes to a `pin` field and the account has no password. */
  function NewUserAsWritten(f: UserForm, now: nat): User {
    User(NewUserId(now), f.name, f.email, f.role, None)
  }

  /** The record as intended: the PIN is the account's password, which the login screen asks for as "PIN kód". */
  function NewUser(f: UserForm, now: nat): User {
    User(NewUserId(now), f.name, f.email, f.role, Some(f.pin))
  }

  /** The patch `handleUpdateUser` sends as written: the PIN is not the password, so the password is kept. */
  function UpdatePatchAsWritten(f: UserForm): UserPatch {
    UserPatch(Keep, Set(f.name), Set(f.email), Set(f.role), Keep)
  }

  /** The patch as intended: the PIN becomes the password. */
  function UpdatePatch(f: UserForm): UserPatch {
    UserPatch(Keep, Set(f.name), Set(f.email), Set(f.role), Set(Some(f.pin)))
  }

  /** `openEditModal`'s form; the PIN shown is the account's password (empty when it has none). */
  function FormOf(u: User): UserForm {
    UserForm(u.name, u.email, if u.password.Some? then u.password.value else "", u.role)
  }

  /** An account appended after the others is found by `login` only when no earlier account matches. */
  lemma {:induction false} FindLoginAppend(users: seq<User>, u: User, email: string, password: string)
    ensures !Credentials(u, email, password) ==> FindLogin(users + [u], email, password) == FindLogin(users, email, password)
    ensures Credentials(u, email, password) ==>
              FindLogin(users + [u], email, password) == (if FindLogin(users, email, password).Some? then FindLogin(users, email, password) else Some(u))
  {
    if users == [] {
      assert users + [u] == [u];
    } else {
      assert (users + [u])[1..] == users[1..] + [u];
      FindLoginAppend(users[1..], u, email, password);
    }
  }

  /**
   * As written, no email and no password ever signs in the account the admin
   * screen adds: login on the extended list is login on the old one.
   */
  lemma AdminCreatedCannotLogIn(users: seq<User>, f: UserForm, now: nat, email: string, password: string)
    ensures LoginMatch(users + [NewUserAsWritten(f, now)], email, password) == LoginMatch(users, email, password)
  {
    FindLoginAppend(users, NewUserAsWritten(f, now), NormalEmail(email), Trim(password));
  }

  /** As written, an edit never changes the password whatever PIN is typed. */
  lemma UpdateAsWrittenKeepsPassword(u: User, f: UserForm)
    ensures MergeUser(u, UpdatePatchAsWritten(f)).password == u.password
  {
  }

  /**
   * With the PIN stored as the password, the added account signs in with the
   * email and PIN the admin typed (when neither has surrounding spaces), and it
   * is the account signed in when no other shares its lower-cased email.
   */
  lemma CreatedUserCanLogIn(users: seq<User>, f: UserForm, now: nat)
    requires Trim(f.email) == f.email && Trim(f.pin) == f.pin
    ensures var u := NewUser(f, now);
            var r := LoginMatch(users + [u], f.email, f.pin);
            && r.Some?
            && ((forall i :: 0 <= i < |users| ==> Lower(users[i].email) != Lower(f.email)) ==> r == Some(u))
  {
    var u := NewUser(f, now);
    assert NormalEmail(f.email) == Lower(f.email);
    assert Credentials(u, Lower(f.email), f.pin);
    FindLoginAppend(users, u, Lower(f.email), f.pin);
  }

  /** With the corrected patch, an edit sets the password to the PIN typed. */
  lemma UpdateSetsPassword(u: User, f: UserForm)
    ensures var v := MergeUser(u, UpdatePatch(f));
            v.password == Some(f.pin) && v.id == u.id && v.name == f.name && v.email == f.email && v.role == f.role
  {
  }

  /** The delete button is drawn on every row but the signed-in user's own. */
  predicate ShowsDelete(u: User, current: Option<User>) {
    current.None? || u.id != current.value.id
  }

  /** For an admin, the button is shown exactly on the rows that `deleteUser` would delete. */
  lemma DeleteButtonAgreesWithStore(u: User, current: Option<User>)
    requires IsAdmin(current)
    ensures ShowsDelete(u, current) <==> CanDeleteUser(current, u.id)
  {
  }

  /** The screen's state over the auth hook `auth`. */
  class AdminScreen {
    const auth: AuthStore
    var showAddModal: bool
    var editingUser: Option<User>
    var form: UserForm

    constructor (auth: AuthStore)
      ensures this.auth == auth && !showAddModal && editingUser.None? && form == EmptyForm
    {
      this.auth := auth;
      showAddModal, editingUser, form := false, None, EmptyForm;
    }

    /** The gate: anyone but an admin sees only the no-access message. */
    predicate Accessible()
      reads this, auth
    {
      IsAdmin(auth.authState.user)
    }

    predicate ModalVisible()
      reads this
    {
      showAddModal || editingUser.Some?
    }

    method OpenAddModal()
      modifies this`showAddModal
      ensures showAddModal
    {
      showAddModal := true;
    }

    /** `openEditModal`: the form filled from the account. */
    method OpenEditModal(u: User)
      modifies this`editingUser, this`form
      ensures editingUser == Some(u) && form == FormOf(u)
    {
      editingUser, form := Some(u), FormOf(u);
    }

    /** The close button: both modes off and the form reset. */
    method CloseModal()
      modifies this`showAddModal, this`editingUser, this`form
      ensures !ModalVisible() && form == EmptyForm
    {
      showAddModal, editingUser, form := false, None, EmptyForm;
    }

    /** The form's inputs and role buttons: each replaces its own field. */
    method EditName(text: string)
      modifies this`form
      ensures form == old(form).(name := text)
    {
      form := form.(name := text);
    }

    method EditEmail(text: string)
      modifies this`form
      ensures form == old(form).(email := text)
    {
      form := form.(email := text);
    }

    method EditPin(text: string)
      modifies this`form
      ensures form == old(form).(pin := text)
    {
      form := form.(pin := text);
    }

    method SetRole(role: Role)
      modifies this`form
      ensures form == old(form).(role := role)
    {
      form := form.(role := role);
    }

    /**
     * `handleAddUser`: a form error is reported and nothing changes; otherwise
     * the account (with the PIN as password, id from the clock) is offered to
     * `addUser`. On success the modal closes and the form resets; a refusal is
     * reported as an email already in use.
     */
    method HandleAddUser(now: nat) returns (alert: string)
      modifies this`showAddModal, this`form, auth
      ensures var err := FormError(old(form));
              var u := NewUser(old(form), now);
              var ok := err.None? && CanAddUser(old(auth.users), old(auth.authState).user, u);
              && auth.users == (if ok then old(auth.users) + [u] else old(auth.users))
              && alert == (if err.Some? then err.value else if ok then AddedMessage else EmailInUseMessage)
              && showAddModal == (old(showAddModal) && !ok)
              && form == (if ok then EmptyForm else old(form))
      ensures auth.authState == old(auth.authState) && auth.savedSession == old(auth.savedSession)
    {
      var f := form;
      var err := FormError(f);
      if err.Some? {
        return err.value;
      }
      var success := auth.AddUser(NewUser(f, now));
      alert, showAddModal, form := if success then AddedMessage else EmailInUseMessage,
                                   showAddModal && !success, if success then EmptyForm else f;
    }

    /**
     * `handleUpdateUser`: nothing without an account being edited; a form
     * error is reported; otherwise `updateUser` merges the form (the PIN as
     * password) into the account and, on success, the edit ends and the form resets.
     */
    method HandleUpdateUser() returns (alert: Option<string>)
      modifies this`editingUser, this`form, auth
      ensures old(editingUser).None? || FormError(old(form)).Some? ==>
                && alert == (if old(editingUser).None? then None else FormError(old(form)))
                && auth.users == old(auth.users) && auth.authState == old(auth.authState)
                && editingUser == old(editingUser) && form == old(form)
      ensures old(editingUser).Some? && FormError(old(form)).None? ==>
                var id := old(editingUser).value.id;
                var ok := IsAdmin(old(auth.authState).user);
                && auth.users == (if ok then UpdatedUsers(old(auth.users), id, UpdatePatch(old(form))) else old(auth.users))
                && auth.authState == (if ok then SessionAfterUpdate(old(auth.authState), auth.users, id) else old(auth.authState))
                && alert == Some(if ok then UpdatedMessage else UpdateFailedMessage)
                && editingUser == (if ok then None else old(editingUser))
                && form == (if ok then EmptyForm else old(form))
    {
      var f, e := form, editingUser;
      if e.None? {
        return None;
      }
      var err := FormError(f);
      if err.Some? {
        return err;
      }
      var success := auth.UpdateUser(e.value.id, UpdatePatch(f));
      alert, editingUser, form := Some(if success then UpdatedMessage else UpdateFailedMessage),
                                  if success then None else e, if success then EmptyForm else f;
    }

    /** `handleDeleteUser` after the dialog: `deleteUser` runs only when confirmed. */
    method HandleDeleteUser(id: string, confirmed: bool) returns (alert: Option<string>)
      modifies auth
      ensures var ok := confirmed && CanDeleteUser(old(auth.authState).user, id);
              && auth.users == (if ok then WithoutUser(old(auth.users), id) else old(auth.users))
              && alert == (if !confirmed then None else Some(if ok then DeletedMessage else DeleteFailedMessage))
      ensures auth.authState == old(auth.authState)
    {
      if !confirmed {
        return None;
      }
      var success := auth.DeleteUser(id);
      alert := Some(if success then DeletedMessage else DeleteFailedMessage);
    }
  }
}
