/**
 * The account and session store (hooks/use-auth.ts): the user list, merged at
 * start-up from the stored list over the built-in accounts; the session
 * (`AuthState`); login and logout; and the admin-only user management.
 * Storage is two fields of the store that hold what was last written.
 */
module Auth {
  import opened Common
  import opened Text
  import opened Salon

  /** The three built-in accounts. */
  const DefaultUsers: seq<User> := [
    User("admin-1", "Admin", "admin@goldwax.hu", Admin, Some("admin123")),
    User("emp-1", "Dolgozó 1", "dolgozo1@goldwax.hu", Employee, Some("dolgozo123")),
    User("emp-2", "Dolgozó 2", "dolgozo2@goldwax.hu", Employee, Some("dolgozo456"))
  ]

  /** The state a fresh session starts from, and the one `logout` returns to. */
  const SignedOut := AuthState(None, false)

  predicate UniqueIds(users: seq<User>) {
    forall i, j :: 0 <= i < j < |users| ==> users[i].id != users[j].id
  }

  /** `users.some(u => u.id === id)`. */
  predicate HasUserId(users: seq<User>, id: string) {
    exists i :: 0 <= i < |users| && users[i].id == id
  }

  /** The set of ids on the list. */
  function Ids(users: seq<User>): set<string> {
    set i | 0 <= i < |users| :: users[i].id
  }

  // ---------------------------------------------------------------------------
  // Merging the stored list over the built-in accounts
  // ---------------------------------------------------------------------------

  /** `users.findIndex(u => u.id === id)`: the first position with that id, or -1. */
  function FindIndex(users: seq<User>, id: string): (r: int)
    ensures -1 <= r < |users|
    ensures 0 <= r ==> users[r].id == id && forall j :: 0 <= j < r ==> users[j].id != id
    ensures r == -1 ==> forall j :: 0 <= j < |users| ==> users[j].id != id
  {
    if users == [] then -1
    else if users[0].id == id then 0
    else
      var r := FindIndex(users[1..], id);
      if r == -1 then -1 else r + 1
  }

  /** One round of the merge loop: a known id is overwritten in place, a new one is appended. */
  function MergeOne(merged: seq<User>, u: User): seq<User> {
    var i := FindIndex(merged, u.id);
    if i >= 0 then merged[i := u] else merged + [u]
  }

  /** The whole merge loop: every stored user, in stored order, merged into `merged`. */
  function MergeAll(merged: seq<User>, stored: seq<User>): seq<User>
    decreases |stored|
  {
    if stored == [] then merged else MergeAll(MergeOne(merged, stored[0]), stored[1..])
  }

  /** The user list `loadUsers` settles on: the merge when a list is stored, the built-in accounts otherwise. */
  function LoadedUsers(stored: Option<seq<User>>): seq<User> {
    if stored.Some? then MergeAll(DefaultUsers, stored.value) else DefaultUsers
  }

  /** One merge step keeps every earlier position's id, and only grows the list. */
  lemma MergeOneKeepsPositions(merged: seq<User>, u: User)
    ensures |MergeOne(merged, u)| >= |merged|
    ensures forall i :: 0 <= i < |merged| ==> MergeOne(merged, u)[i].id == merged[i].id
  {
  }

  /** After a merge step the merged user is on the list, and so is every user with another id. */
  lemma MergeOneKeepsOthers(merged: seq<User>, u: User)
    ensures u in MergeOne(merged, u)
    ensures forall v :: v in merged && v.id != u.id ==> v in MergeOne(merged, u)
  {
    var i := FindIndex(merged, u.id);
    var r := MergeOne(merged, u);
    if i >= 0 {
      assert r[i] == u;
      forall v | v in merged && v.id != u.id ensures v in r {
        var l :| 0 <= l < |merged| && merged[l] == v;
        assert r[l] == v;
      }
    } else {
      assert r[|merged|] == u;
      forall v | v in merged && v.id != u.id ensures v in r {
        var l :| 0 <= l < |merged| && merged[l] == v;
        assert r[l] == v;
      }
    }
  }

  /** One merge step adds exactly the merged user's id. */
  lemma MergeOneIds(merged: seq<User>, u: User)
    ensures Ids(MergeOne(merged, u)) == Ids(merged) + {u.id}
  {
    var i := FindIndex(merged, u.id);
    var r := MergeOne(merged, u);
    forall x | x in Ids(r) ensures x in Ids(merged) + {u.id} {
      var l :| 0 <= l < |r| && r[l].id == x;
      if l < |merged| && (i < 0 || l != i) {
        assert merged[l].id == x;
      }
    }
    forall x | x in Ids(merged) + {u.id} ensures x in Ids(r) {
      if x == u.id {
        var l := if i >= 0 then i else |merged|;
        assert r[l].id == x;
      } else {
        var l :| 0 <= l < |merged| && merged[l].id == x;
        assert r[l].id == x;
      }
    }
  }

  /** A merge step never creates two users with the same id. */
  lemma MergeOneUnique(merged: seq<User>, u: User)
    requires UniqueIds(merged)
    ensures UniqueIds(MergeOne(merged, u))
  {
    var i := FindIndex(merged, u.id);
    var r := MergeOne(merged, u);
    if i >= 0 {
      forall l | 0 <= l < |r| ensures r[l].id == merged[l].id {
      }
    } else {
      forall a, b | 0 <= a < b < |r| ensures r[a].id != r[b].id {
        if b < |merged| {
          assert r[a] == merged[a] && r[b] == merged[b];
        } else {
          assert r[a] == merged[a];
        }
      }
    }
  }

  /** The ids after the merge are those of the starting list and those of the stored list. */
  lemma {:induction false} MergeAllIds(merged: seq<User>, stored: seq<User>)
    ensures Ids(MergeAll(merged, stored)) == Ids(merged) + Ids(stored)
    decreases |stored|
  {
    if stored != [] {
      MergeOneIds(merged, stored[0]);
      MergeAllIds(MergeOne(merged, stored[0]), stored[1..]);
      assert Ids(stored) == {stored[0].id} + Ids(stored[1..]) by {
        forall x | x in Ids(stored) ensures x in {stored[0].id} + Ids(stored[1..]) {
          var l :| 0 <= l < |stored| && stored[l].id == x;
          if l > 0 {
            assert stored[1..][l - 1].id == x;
          }
        }
        forall x | x in Ids(stored[1..]) ensures x in Ids(stored) {
          var l :| 0 <= l < |stored| - 1 && stored[1..][l].id == x;
          assert stored[l + 1].id == x;
        }
        assert stored[0].id in Ids(stored);
      }
    }
  }

  /** The starting list keeps its ids at their positions; the merge only overwrites or appends. */
  lemma {:induction false} MergeAllKeepsPositions(merged: seq<User>, stored: seq<User>)
    ensures |MergeAll(merged, stored)| >= |merged|
    ensures forall i :: 0 <= i < |merged| ==> MergeAll(merged, stored)[i].id == merged[i].id
    decreases |stored|
  {
    if stored != [] {
      MergeOneKeepsPositions(merged, stored[0]);
      MergeAllKeepsPositions(MergeOne(merged, stored[0]), stored[1..]);
    }
  }

  /** The merge keeps ids unique when the starting list has unique ids. */
  lemma {:induction false} MergeAllUnique(merged: seq<User>, stored: seq<User>)
    requires UniqueIds(merged)
    ensures UniqueIds(MergeAll(merged, stored))
    decreases |stored|
  {
    if stored != [] {
      MergeOneUnique(merged, stored[0]);
      MergeAllUnique(MergeOne(merged, stored[0]), stored[1..]);
    }
  }

  /** A stored user whose id does not come again later in the stored list ends up on the merged list as stored. */
  lemma {:induction false} MergeAllStoredWins(merged: seq<User>, stored: seq<User>, j: nat)
    requires j < |stored|
    requires forall l :: j < l < |stored| ==> stored[l].id != stored[j].id
    ensures stored[j] in MergeAll(merged, stored)
    decreases |stored|
  {
    var next := MergeOne(merged, stored[0]);
    MergeOneKeepsOthers(merged, stored[0]);
    if j == 0 {
      MergeAllKeepsUser(next, stored[1..], stored[0]);
    } else {
      forall l | j - 1 < l < |stored| - 1 ensures stored[1..][l].id != stored[1..][j - 1].id {
        assert stored[1..][l] == stored[l + 1];
      }
      MergeAllStoredWins(next, stored[1..], j - 1);
    }
  }

  /** A user on the list stays through merges of other ids. */
  lemma {:induction false} MergeAllKeepsUser(merged: seq<User>, stored: seq<User>, v: User)
    requires v in merged
    requires forall l :: 0 <= l < |stored| ==> stored[l].id != v.id
    ensures v in MergeAll(merged, stored)
    decreases |stored|
  {
    if stored != [] {
      MergeOneKeepsOthers(merged, stored[0]);
      forall l | 0 <= l < |stored| - 1 ensures stored[1..][l].id != v.id {
        assert stored[1..][l] == stored[l + 1];
      }
      MergeAllKeepsUser(MergeOne(merged, stored[0]), stored[1..], v);
    }
  }

  lemma DefaultUsersUnique()
    ensures UniqueIds(DefaultUsers)
  {
    assert "emp-1"[4] != "emp-2"[4];
  }

  /**
   * Whatever is stored, the loaded list starts with the three built-in ids at their
   * positions, holds exactly their ids and the stored ones, and has no id twice.
   */
  lemma LoadedUsersKeepDefaults(stored: Option<seq<User>>)
    ensures var users := LoadedUsers(stored);
            && |users| >= 3
            && users[0].id == "admin-1" && users[1].id == "emp-1" && users[2].id == "emp-2"
            && Ids(users) == Ids(DefaultUsers) + (if stored.Some? then Ids(stored.value) else {})
            && UniqueIds(users)
  {
    DefaultUsersUnique();
    if stored.Some? {
      MergeAllKeepsPositions(DefaultUsers, stored.value);
      MergeAllIds(DefaultUsers, stored.value);
      MergeAllUnique(DefaultUsers, stored.value);
    }
  }

  // ---------------------------------------------------------------------------
  // Login and session restore
  // ---------------------------------------------------------------------------

  /** `email.trim().toLowerCase()`. */
  function NormalEmail(email: string): string {
    Lower(Trim(email))
  }

  /** The login test for one account, on the normalised email and password. */
  predicate Credentials(u: User, email: string, password: string) {
    Lower(u.email) == email && u.password == Some(password)
  }

  /** `users.find(...)` of `login`: an account whose credentials match. */
  function FindLogin(users: seq<User>, email: string, password: string): (r: Option<User>)
    ensures r.Some? ==> r.value in users && Credentials(r.value, email, password)
    ensures r.None? ==> forall i :: 0 <= i < |users| ==> !Credentials(users[i], email, password)
  {
    if users == [] then None
    else if Credentials(users[0], email, password) then Some(users[0])
    else FindLogin(users[1..], email, password)
  }

  /** The account `login(email, password)` signs in, if any. */
  function LoginMatch(users: seq<User>, email: string, password: string): Option<User> {
    FindLogin(users, NormalEmail(email), Trim(password))
  }

  /** The account `login` picks is the first that matches. */
  lemma {:induction false} FindLoginFirst(users: seq<User>, email: string, password: string, k: nat)
    requires k < |users| && Credentials(users[k], email, password)
    requires forall j :: 0 <= j < k ==> !Credentials(users[j], email, password)
    ensures FindLogin(users, email, password) == Some(users[k])
  {
    if k > 0 {
      forall j | 0 <= j < k - 1 ensures !Credentials(users[1..][j], email, password) {
        assert users[1..][j] == users[j + 1];
      }
      FindLoginFirst(users[1..], email, password, k - 1);
    }
  }

  /** Lower-casing never turns a character into white space, nor white space into anything else. */
  lemma LowerCharSpace(c: char)
    ensures IsSpace(LowerChar(c)) <==> IsSpace(c)
  {
  }

  /** Lower-casing keeps a trimmed string trimmed. */
  lemma LowerKeepsTrimmed(t: string)
    requires t == [] || (!IsSpace(t[0]) && !IsSpace(t[|t| - 1]))
    ensures Trim(Lower(t)) == Lower(t)
  {
    if t != [] {
      LowerCharSpace(t[0]);
      LowerCharSpace(t[|t| - 1]);
    }
    TrimOfTrimmed(Lower(t));
  }

  /** Normalising an already normalised email changes nothing: typing it back in reaches the same account. */
  lemma NormalEmailIdempotent(email: string)
    ensures NormalEmail(NormalEmail(email)) == NormalEmail(email)
  {
    var t := Trim(email);
    LowerKeepsTrimmed(t);
    LowerIdempotent(t);
  }

  /** The session `loadAuthState` keeps: a stored session is taken over only while its user's id is on the list. */
  function RestoredSession(users: seq<User>, current: AuthState, stored: Option<AuthState>): AuthState {
    if stored.Some? && stored.value.user.Some? && HasUserId(users, stored.value.user.value.id)
    then stored.value
    else current
  }

  /** What storage holds afterwards: a session whose user is gone is removed, anything else is left. */
  function RestoredStorage(users: seq<User>, stored: Option<AuthState>): Option<AuthState> {
    if stored.Some? && stored.value.user.Some? && !HasUserId(users, stored.value.user.value.id)
    then None
    else stored
  }

  /**
   * From a signed-out start, a restored session's user is always on the list, and a
   * stored session whose user is missing is both refused and removed from storage.
   */
  lemma RestoreOnlyKnownUsers(users: seq<User>, stored: Option<AuthState>)
    ensures var s := RestoredSession(users, SignedOut, stored);
            && (s.user.Some? ==> HasUserId(users, s.user.value.id) && s == stored.value)
            && (stored.Some? && stored.value.user.Some? && !HasUserId(users, stored.value.user.value.id) ==>
                  s == SignedOut && RestoredStorage(users, stored) == None)
            && (stored.Some? && stored.value.user.Some? && HasUserId(users, stored.value.user.value.id) ==>
                  s == stored.value && RestoredStorage(users, stored) == stored)
  {
  }

  // ---------------------------------------------------------------------------
  // Admin-only user management
  // ---------------------------------------------------------------------------

  /** `users.some(u => u.email === email)`: an exact, case-sensitive comparison. */
  predicate EmailTaken(users: seq<User>, email: string) {
    exists i :: 0 <= i < |users| && users[i].email == email
  }

  predicate UniqueEmails(users: seq<User>) {
    forall i, j :: 0 <= i < j < |users| ==> users[i].email != users[j].email
  }

  /** `addUser`'s two refusals: the caller is not an admin, or the email is already in use. */
  predicate CanAddUser(users: seq<User>, caller: Option<User>, u: User) {
    IsAdmin(caller) && !EmailTaken(users, u.email)
  }

  /** The email check keeps emails unique (in the exact comparison it uses). */
  lemma AddUserKeepsEmailsUnique(users: seq<User>, caller: Option<User>, u: User)
    requires UniqueEmails(users) && CanAddUser(users, caller, u)
    ensures UniqueEmails(users + [u])
  {
    var r := users + [u];
    forall i, j | 0 <= i < j < |r| ensures r[i].email != r[j].email {
      assert r[i] == users[i];
      if j < |users| {
        assert r[j] == users[j];
      }
    }
  }

  /** `Partial<User>`. */
  datatype UserPatch = UserPatch(
    id: Field<string>, name: Field<string>, email: Field<string>, role: Field<Role>,
    password: Field<Option<string>>)

  /** `{ ...u, ...updates }`. */
  function MergeUser(u: User, p: UserPatch): User {
    User(p.id.Or(u.id), p.name.Or(u.name), p.email.Or(u.email), p.role.Or(u.role), p.password.Or(u.password))
  }

  function UpdateOneUser(u: User, id: string, p: UserPatch): User {
    if u.id == id then MergeUser(u, p) else u
  }

  /** `users.map(u => u.id === id ? { ...u, ...updates } : u)`. */
  function UpdatedUsers(users: seq<User>, id: string, p: UserPatch): (r: seq<User>)
    ensures |r| == |users|
    ensures forall i :: 0 <= i < |users| ==> r[i] == UpdateOneUser(users[i], id, p)
  {
    if users == [] then [] else [UpdateOneUser(users[0], id, p)] + UpdatedUsers(users[1..], id, p)
  }

  /** `users.find(u => u.id === id)`. */
  function FindUser(users: seq<User>, id: string): (r: Option<User>)
    ensures r.Some? ==> r.value in users && r.value.id == id
    ensures r.None? <==> forall i :: 0 <= i < |users| ==> users[i].id != id
  {
    if users == [] then None
    else if users[0].id == id then Some(users[0])
    else FindUser(users[1..], id)
  }

  /** `find` returns the first user with the id. */
  lemma {:induction false} FindUserFirst(users: seq<User>, id: string, k: nat)
    requires k < |users| && users[k].id == id
    requires forall j :: 0 <= j < k ==> users[j].id != id
    ensures FindUser(users, id) == Some(users[k])
  {
    if k > 0 {
      forall j | 0 <= j < k - 1 ensures users[1..][j].id != id {
        assert users[1..][j] == users[j + 1];
      }
      FindUserFirst(users[1..], id, k - 1);
    }
  }

  /** `updateUser` rewrites the session when the signed-in account is the one edited and is still found under that id. */
  predicate SessionRefreshed(session: AuthState, updated: seq<User>, id: string) {
    session.user.Some? && session.user.value.id == id && FindUser(updated, id).Some?
  }

  /** The session after `updateUser`: the signed-in account, when refreshed, is replaced by its new record. */
  function SessionAfterUpdate(session: AuthState, updated: seq<User>, id: string): AuthState {
    if SessionRefreshed(session, updated, id) then session.(user := FindUser(updated, id)) else session
  }

  /**
   * When the admin edits their own account (first listed at `k`) without changing its
   * id, the session then holds the merged record; any other edit leaves the session alone.
   */
  lemma UpdateOwnAccount(users: seq<User>, session: AuthState, id: string, p: UserPatch, k: nat)
    requires k < |users| && users[k].id == id && forall j :: 0 <= j < k ==> users[j].id != id
    requires p.id == Keep || p.id == Set(id)
    ensures var s := SessionAfterUpdate(session, UpdatedUsers(users, id, p), id);
            && (session.user.Some? && session.user.value.id == id ==>
                  s == session.(user := Some(MergeUser(users[k], p))))
            && (session.user.None? || session.user.value.id != id ==> s == session)
  {
    var updated := UpdatedUsers(users, id, p);
    if session.user.Some? && session.user.value.id == id {
      forall j | 0 <= j < k ensures updated[j].id != id {
        assert updated[j] == users[j];
      }
      assert updated[k] == MergeUser(users[k], p);
      FindUserFirst(updated, id, k);
    }
  }

  /** `deleteUser`'s refusals: the caller is not an admin, or targets their own account. */
  predicate CanDeleteUser(caller: Option<User>, id: string) {
    IsAdmin(caller) && id != caller.value.id
  }

  /** `users.filter(u => u.id !== id)`. */
  function WithoutUser(users: seq<User>, id: string): (r: seq<User>)
    ensures |r| <= |users|
  {
    if users == [] then []
    else if users[0].id == id then WithoutUser(users[1..], id)
    else [users[0]] + WithoutUser(users[1..], id)
  }

  /** The users kept by the filter are exactly those with another id. */
  lemma {:induction false} WithoutUserMembers(users: seq<User>, id: string)
    ensures forall v :: v in WithoutUser(users, id) <==> v in users && v.id != id
  {
    if users != [] {
      WithoutUserMembers(users[1..], id);
      assert users == [users[0]] + users[1..];
    }
  }

  /**
   * A permitted delete removes every account with the id and nothing else, and never
   * the signed-in admin's own account, so a session restore afterwards still finds it.
   */
  lemma DeleteKeepsCaller(users: seq<User>, caller: Option<User>, id: string)
    requires CanDeleteUser(caller, id) && caller.value in users
    ensures caller.value in WithoutUser(users, id)
    ensures HasUserId(WithoutUser(users, id), caller.value.id)
    ensures !HasUserId(WithoutUser(users, id), id)
  {
    WithoutUserMembers(users, id);
    var r := WithoutUser(users, id);
    var l :| 0 <= l < |r| && r[l] == caller.value;
    assert r[l].id == caller.value.id;
    forall i | 0 <= i < |r| ensures r[i].id != id {
      assert r[i] in r;
    }
  }

  // ---------------------------------------------------------------------------
  // The store
  // ---------------------------------------------------------------------------

  /**
   * The auth store. `savedUsers` and `savedSession` are what storage holds under
   * the users key and the session key; every write of the source sets them to the
   * written state and every removal sets them to `None`.
   */
  class AuthStore {
    var users: seq<User>
    var authState: AuthState
    var isLoading: bool
    var savedUsers: Option<seq<User>>
    var savedSession: Option<AuthState>

    /** The hook's initial state over the storage contents it finds. */
    constructor (storedUsers: Option<seq<User>>, storedSession: Option<AuthState>)
      ensures users == DefaultUsers && authState == SignedOut && isLoading
      ensures savedUsers == storedUsers && savedSession == storedSession
    {
      users := DefaultUsers;
      authState := SignedOut;
      isLoading := true;
      savedUsers := storedUsers;
      savedSession := storedSession;
    }

    /**
     * `loadUsers`: the stored list is merged over a copy of the built-in accounts one
     * user at a time (overwrite at the first index with that id, otherwise append),
     * and the result is both the state and what is stored.
     */
    method LoadUsers()
      modifies this
      ensures users == LoadedUsers(old(savedUsers)) && savedUsers == Some(users)
      ensures authState == old(authState) && isLoading == old(isLoading) && savedSession == old(savedSession)
    {
      if savedUsers.None? {
        users := DefaultUsers;
      } else {
        var stored := savedUsers.value;
        var merged := DefaultUsers;
        var i := 0;
        while i < |stored|
          invariant 0 <= i <= |stored|
          invariant MergeAll(merged, stored[i..]) == MergeAll(DefaultUsers, stored)
        {
          var user := stored[i];
          assert stored[i..][1..] == stored[i + 1..];
          var existingIndex := FindIndex(merged, user.id);
          if existingIndex >= 0 {
            merged := merged[existingIndex := user];
          } else {
            merged := merged + [user];
          }
          i := i + 1;
        }
        assert stored[i..] == [];
        users := merged;
      }
      savedUsers := Some(users);
    }

    /** `loadAuthState`: restores the stored session only while its user is still on the list. */
    method LoadAuthState()
      modifies this
      ensures authState == RestoredSession(old(users), old(authState), old(savedSession))
      ensures savedSession == RestoredStorage(old(users), old(savedSession))
      ensures !isLoading && users == old(users) && savedUsers == old(savedUsers)
    {
      if savedSession.Some? {
        var parsedAuth := savedSession.value;
        if parsedAuth.user.Some? {
          if HasUserId(users, parsedAuth.user.value.id) {
            authState := parsedAuth;
          } else {
            savedSession := None;
          }
        }
      }
      isLoading := false;
    }

    /**
     * `login`: the email is trimmed and lower-cased, the password trimmed; the first
     * account with that lower-cased email and exactly that password is signed in.
     * A failed attempt changes nothing.
     */
    method Login(email: string, password: string) returns (ok: bool)
      modifies this
      ensures ok == LoginMatch(old(users), email, password).Some?
      ensures ok ==> authState == AuthState(LoginMatch(old(users), email, password), true)
      ensures ok ==> savedSession == Some(authState)
      ensures !ok ==> authState == old(authState) && savedSession == old(savedSession)
      ensures users == old(users) && savedUsers == old(savedUsers) && isLoading == old(isLoading)
    {
      var user := LoginMatch(users, email, password);
      ok := user.Some?;
      if ok {
        authState := AuthState(user, true);
        savedSession := Some(authState);
      }
    }

    /** `logout`: back to the signed-out state, and the stored session is removed. */
    method Logout()
      modifies this
      ensures authState == SignedOut && savedSession == None
      ensures users == old(users) && savedUsers == old(savedUsers) && isLoading == old(isLoading)
    {
      authState := SignedOut;
      savedSession := None;
    }

    /** `addUser`: only an admin, and only for an email not yet used; the user is appended. */
    method AddUser(u: User) returns (ok: bool)
      modifies this
      ensures ok == CanAddUser(old(users), old(authState).user, u)
      ensures ok ==> users == old(users) + [u] && savedUsers == Some(users)
      ensures !ok ==> users == old(users) && savedUsers == old(savedUsers)
      ensures authState == old(authState) && savedSession == old(savedSession) && isLoading == old(isLoading)
    {
      if !IsAdmin(authState.user) {
        return false;
      }
      if EmailTaken(users, u.email) {
        return false;
      }
      users := users + [u];
      savedUsers := Some(users);
      return true;
    }

    /** `updateUser`: only an admin; merges the patch into the users with that id and refreshes the session when it is one of them. */
    method UpdateUser(id: string, p: UserPatch) returns (ok: bool)
      modifies this
      ensures ok == IsAdmin(old(authState).user)
      ensures ok ==> && users == UpdatedUsers(old(users), id, p) && savedUsers == Some(users)
                     && authState == SessionAfterUpdate(old(authState), users, id)
                     && savedSession == (if SessionRefreshed(old(authState), users, id) then Some(authState)
                                         else old(savedSession))
      ensures !ok ==> && users == old(users) && savedUsers == old(savedUsers)
                      && authState == old(authState) && savedSession == old(savedSession)
      ensures isLoading == old(isLoading)
    {
      if !IsAdmin(authState.user) {
        return false;
      }
      users := UpdatedUsers(users, id, p);
      savedUsers := Some(users);
      if authState.user.value.id == id {
        var updatedUser := FindUser(users, id);
        if updatedUser.Some? {
          authState := authState.(user := updatedUser);
          savedSession := Some(authState);
        }
      }
      return true;
    }

    /** `deleteUser`: only an admin, and never their own account; removes every user with the id. */
    method DeleteUser(id: string) returns (ok: bool)
      modifies this
      ensures ok == CanDeleteUser(old(authState).user, id)
      ensures ok ==> users == WithoutUser(old(users), id) && savedUsers == Some(users)
      ensures !ok ==> users == old(users) && savedUsers == old(savedUsers)
      ensures authState == old(authState) && savedSession == old(savedSession) && isLoading == old(isLoading)
    {
      if !IsAdmin(authState.user) || id == authState.user.value.id {
        return false;
      }
      users := WithoutUser(users, id);
      savedUsers := Some(users);
      return true;
    }
  }

  /**
   * The hook's start-up (hooks/use-auth.ts:250-262), in the order its effects take
   * effect: the session effect first runs while `users` is still the built-in list,
   * because `loadUsers` has not set the stored list yet; `loadUsers` then sets the
   * merged list and the effect runs again on the new `users`. A stored session whose
   * account is not built in is refused and removed on the first run, so the second run
   * finds no session even when the merged list holds that account. This is one
   * interleaving of the two asynchronous loads, the one in which the first session
   * read completes before the stored list is set.
   */
  method Mount(storedUsers: Option<seq<User>>, session: AuthState) returns (store: AuthStore)
    requires session.user.Some? && session.user.value.id !in Ids(DefaultUsers)
    ensures store.authState == SignedOut && store.savedSession == None && !store.isLoading
    ensures store.users == LoadedUsers(storedUsers) && store.savedUsers == Some(store.users)
    ensures storedUsers.Some? && session.user.value.id in Ids(storedUsers.value) ==>
              session.user.value.id in Ids(store.users)
  {
    store := new AuthStore(storedUsers, Some(session));
    store.LoadAuthState();
    store.LoadUsers();
    LoadedUsersKeepDefaults(storedUsers);
    store.LoadAuthState();
  }
}
