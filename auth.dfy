/**
 * The auth store: anonymous or signed in, restored from local storage on mount. Sign-in and
 * sign-up are mocks that always succeed whatever the password.
 */
module Auth {
  import opened Wrappers
  import opened Text
  import opened Entities
  import opened Storage

  /** `{ success, user }`. */
  datatype AuthResult = AuthResult(success: bool, user: User)

  /** The display name `name || email.split('@')[0]`. */
  function DisplayName(email: string, name: Option<string>): (r: string)
    ensures Truthy(name) ==> r == name.value
    ensures !Truthy(name) ==> StartsWith(email, r) && '@' !in r
    ensures !Truthy(name) && '@' in email ==> email[|r|] == '@'
    ensures !Truthy(name) && '@' !in email ==> r == email
  {
    if Truthy(name) then name.value else BeforeFirst(email, '@')
  }

  /** The user record the mocks build: id `user_${Date.now()}`. */
  function MockUser(email: string, name: string, now: nat): (u: User)
    ensures StartsWith(u.id, "user_") && |u.id| > |"user_"|
    ensures u.email == email && u.name == name && u.createdAt == now
  {
    User("user_" + NatToString(now), email, name, now)
  }

  /** The name shown for "ann@example.com" without a given name is "ann". */
  lemma DisplayNameExample()
    ensures DisplayName("ann@example.com", None) == "ann"
  {
    var e := "ann@example.com";
    BeforeFirstAt(e, '@', 3);
  }

  class AuthStore {
    var user: Option<User>
    var loading: bool
    const storage: LocalStorage

    /**
     * Mount: a stored record that parses becomes the user; a corrupt one is removed and the
     * user stays null; loading ends false either way.
     */
    constructor (storage: LocalStorage)
      modifies storage`user
      ensures this.storage == storage && !loading
      ensures old(storage.user).Some? && old(storage.user).value.Parsed? ==>
        user == Some(old(storage.user).value.user) && storage.user == old(storage.user)
      ensures old(storage.user) == Some(Corrupt) ==> user == None && storage.user == None
      ensures old(storage.user).None? ==> user == None && storage.user == None
    {
      this.storage := storage;
      user := None;
      loading := true;
      new;
      var saved := storage.user;
      if saved.Some? {
        match saved.value
        case Parsed(u) => user := Some(u);
        case Corrupt => storage.user := None;
      }
      loading := false;
    }

    /** `isAuthenticated`: `!!user`. */
    predicate IsAuthenticated()
      reads this
    {
      user.Some?
    }

    /** `signIn(email, password, name)`: always succeeds; the password is not looked at. */
    method SignIn(email: string, password: string, name: Option<string>, now: nat) returns (result: AuthResult)
      modifies this`user, storage`user
      ensures result.success
      ensures result.user == MockUser(email, DisplayName(email, name), now)
      ensures user == Some(result.user) && storage.user == Some(Parsed(result.user))
      ensures IsAuthenticated()
    {
      var mock := MockUser(email, DisplayName(email, name), now);
      user := Some(mock);
      storage.user := Some(Parsed(mock));
      result := AuthResult(true, mock);
    }

    /** `signUp(email, password, name)`: like sign-in, with the name taken verbatim. */
    method SignUp(email: string, password: string, name: string, now: nat) returns (result: AuthResult)
      modifies this`user, storage`user
      ensures result.success
      ensures result.user == MockUser(email, name, now)
      ensures user == Some(result.user) && storage.user == Some(Parsed(result.user))
      ensures IsAuthenticated()
    {
      var mock := MockUser(email, name, now);
      user := Some(mock);
      storage.user := Some(Parsed(mock));
      result := AuthResult(true, mock);
    }

    /** `signOut`: back to anonymous, and the stored record removed. */
    method SignOut()
      modifies this`user, storage`user
      ensures user == None && storage.user == None
      ensures !IsAuthenticated()
    {
      user := None;
      storage.user := None;
    }
  }
}
