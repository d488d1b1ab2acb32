/**
 * The two-step sign-in form: step 1 asks for the email, step 2 for the password; "Change"
 * goes back to step 1.
 */
module SignIn {
  import opened Wrappers
  import opened Auth
  import opened Storage

  const EmailRequired := "Enter your email or mobile phone number"
  const PasswordRequired := "Enter your password"

  /** `location.state?.from?.pathname || '/'`: where a successful sign-in goes. */
  function OriginPath(from: Option<string>): (r: string)
    ensures r != ""
    ensures Truthy(from) ==> r == from.value
    ensures !Truthy(from) ==> r == "/"
  {
    if Truthy(from) then from.value else "/"
  }

  class SignInForm {
    var step: int
    var email: string
    var password: string
    var error: string
    var loading: bool
    const from: Option<string>
    const auth: AuthStore

    /** The form is always on step 1 or step 2. */
    predicate Valid()
      reads this
    {
      step == 1 || step == 2
    }

    constructor (auth: AuthStore, from: Option<string>)
      ensures Valid() && step == 1
      ensures this.auth == auth && this.from == from
      ensures email == "" && password == "" && error == "" && !loading
    {
      this.auth := auth;
      this.from := from;
      step := 1;
      email, password, error := "", "", "";
      loading := false;
    }

    method SetEmail(value: string)
      modifies this`email
      ensures email == value
    {
      email := value;
    }

    method SetPassword(value: string)
      modifies this`password
      ensures password == value
    {
      password := value;
    }

    /** `handleContinue`: an empty email sets the message and stays; otherwise clear it and go to step 2. */
    method Continue()
      requires Valid()
      modifies this`error, this`step
      ensures Valid()
      ensures email == "" ==> error == EmailRequired && step == old(step)
      ensures email != "" ==> error == "" && step == 2
    {
      if email == "" {
        error := EmailRequired;
        return;
      }
      error := "";
      step := 2;
    }

    /**
     * `handleSignIn`: an empty password sets the message and does not call `signIn`; otherwise
     * `signIn(email, password)` runs and the page navigates to the origin path. Loading is
     * false again on every exit; `now` stands for the clock.
     */
    method SignIn(now: nat) returns (navigate: Option<string>)
      modifies this`error, this`loading, auth`user, auth.storage`user
      ensures !loading
      ensures password == "" ==>
        && error == PasswordRequired && navigate.None?
        && auth.user == old(auth.user) && auth.storage.user == old(auth.storage.user)
      ensures password != "" ==>
        && error == "" && navigate == Some(OriginPath(from))
        && auth.user == Some(MockUser(email, DisplayName(email, None), now))
        && auth.storage.user == Some(Parsed(MockUser(email, DisplayName(email, None), now)))
    {
      error := "";
      loading := true;
      if password == "" {
        error := PasswordRequired;
        loading := false;
        return None;
      }
      var result := auth.SignIn(email, password, None, now);
      // The mock always succeeds, so the failure message is never shown.
      assert result.success;
      navigate := Some(OriginPath(from));
      loading := false;
    }

    /** `handleChangeEmail`: back to step 1 with the password and error cleared; the email stays. */
    method ChangeEmail()
      modifies this`step, this`password, this`error
      ensures Valid() && step == 1
      ensures password == "" && error == ""
      ensures email == old(email)
    {
      step := 1;
      password := "";
      error := "";
    }
  }
}
