/** The authentication provider of the client: whether a user is logged in, their id
    and username, kept in step with two `localStorage` keys so that a reload restores
    the session. */
module AuthContext {
  import opened Wrappers
  import opened JsBuiltins
  import opened LocalStorage

  const UserIdKey := "userId"
  const UsernameKey := "username"

  /** The provider's three state fields. `userId` is null, NaN (when a stored id is not
      a number) or an integer. */
  datatype Session = Session(isLoggedIn: bool, userId: Option<JsInt>, username: Option<string>)

  const LoggedOut := Session(false, None, None)

  /** The stored entries hold a session to restore: both keys present and non-empty. */
  predicate HasStoredSession(entries: map<string, string>) {
    Truthy(if UserIdKey in entries then Some(entries[UserIdKey]) else None) &&
    Truthy(if UsernameKey in entries then Some(entries[UsernameKey]) else None)
  }

  /** The session after the startup effect has read `entries` without error, starting
      from `s`: a stored session is taken over (its id through `parseInt`), otherwise
      nothing changes. */
  function Restore(s: Session, entries: map<string, string>): (r: Session)
    ensures !HasStoredSession(entries) ==> r == s
    ensures HasStoredSession(entries) ==> r.isLoggedIn && r.username == Some(entries[UsernameKey])
    ensures HasStoredSession(entries) ==> r.userId == Some(ParseInt(entries[UserIdKey]))
    ensures r.isLoggedIn && !s.isLoggedIn ==> r.username.Some? && r.username.value != ""
  {
    if HasStoredSession(entries) then
      Session(true, Some(ParseInt(entries[UserIdKey])), Some(entries[UsernameKey]))
    else s
  }

  /** The stored entries after `login(id, user)`. */
  function LoginEntries(entries: map<string, string>, id: int, user: string): map<string, string> {
    entries[UserIdKey := IntToString(id)][UsernameKey := user]
  }

  /** The stored entries after `logout()`. */
  function LogoutEntries(entries: map<string, string>): map<string, string> {
    entries - {UserIdKey, UsernameKey}
  }

  /** Logging in as `id`/`user` and reloading the page restores exactly that session,
      provided the username is not empty (an empty one is not restored). */
  lemma ReloadAfterLogin(entries: map<string, string>, id: int, user: string)
    requires user != ""
    ensures Restore(LoggedOut, LoginEntries(entries, id, user)) == Session(true, Some(Int(id)), Some(user))
  {
    var e := LoginEntries(entries, id, user);
    assert e[UserIdKey] == IntToString(id);
    assert HasStoredSession(e);
    ParseIntToString(id);
  }

  /** After logging out, a reload stays logged out. */
  lemma ReloadAfterLogout(entries: map<string, string>)
    ensures Restore(LoggedOut, LogoutEntries(entries)) == LoggedOut
  {
  }

  /** Logging out removes every trace of a previous login from the store. */
  lemma LogoutUndoesLogin(entries: map<string, string>, id: int, user: string)
    ensures LogoutEntries(LoginEntries(entries, id, user)) == LogoutEntries(entries)
  {
  }

  /** The `AuthProvider` component's state. */
  class AuthProvider {
    var isLoggedIn: bool
    var userId: Option<JsInt>
    var username: Option<string>

    function State(): Session
      reads this
    {
      Session(isLoggedIn, userId, username)
    }

    /** The initial state, before any effect runs: logged out. */
    constructor ()
      ensures State() == LoggedOut
    {
      isLoggedIn := false;
      userId := None;
      username := None;
    }

    /** The mount effect. `readFails` stands for `getItem` throwing, after which the
        whole store is cleared and the state is left as it was. */
    method RestoreOnMount(store: Storage, readFails: bool)
      modifies this, store
      ensures readFails ==> State() == old(State()) && store.entries == map[]
      ensures !readFails ==> State() == Restore(old(State()), old(store.entries))
      ensures !readFails ==> store.entries == old(store.entries)
    {
      if readFails {
        store.Clear();
        return;
      }
      var storedUserId := store.GetItem(UserIdKey);
      var storedUsername := store.GetItem(UsernameKey);
      if Truthy(storedUserId) && Truthy(storedUsername) {
        isLoggedIn := true;
        userId := Some(ParseInt(storedUserId.value));
        username := storedUsername;
      }
    }

    /** `login(id, user)`: logged in as `user`, both keys written. */
    method Login(id: int, user: string, store: Storage)
      modifies this, store
      ensures State() == Session(true, Some(Int(id)), Some(user))
      ensures store.entries == LoginEntries(old(store.entries), id, user)
    {
      isLoggedIn := true;
      userId := Some(Int(id));
      username := Some(user);
      store.SetItem(UserIdKey, IntToString(id));
      store.SetItem(UsernameKey, user);
    }

    /** `logout()`: back to the initial state, both keys removed. */
    method Logout(store: Storage)
      modifies this, store
      ensures State() == LoggedOut
      ensures store.entries == LogoutEntries(old(store.entries))
    {
      isLoggedIn := false;
      userId := None;
      username := None;
      store.RemoveItem(UserIdKey);
      store.RemoveItem(UsernameKey);
    }
  }
}
