/**
 * The registration form: the live password requirement indicators and the submit handler's
 * chain of checks, of which only the first failure is reported.
 */
module Register {
  import opened Wrappers
  import opened Text
  import opened Auth
  import opened Storage

  /** One requirement indicator: its caption and whether the password meets it. */
  datatype Requirement = Requirement(caption: string, valid: bool)

  /** Some character of `s` satisfies `p` (a regular-expression test for one character class). */
  function AnyChar(s: string, p: char -> bool): (r: bool)
    ensures r <==> exists i :: 0 <= i < |s| && p(s[i])
  {
    if s == [] then false
    else if p(s[0]) then true
    else
      var r := AnyChar(s[1..], p);
      assert (exists i :: 0 <= i < |s| && p(s[i])) ==> (exists i :: 0 <= i < |s[1..]| && p(s[1..][i])) by {
        if exists i :: 0 <= i < |s| && p(s[i]) {
          var i :| 0 <= i < |s| && p(s[i]);
          assert i > 0 && s[1..][i - 1] == s[i];
        }
      }
      r
  }

  function DigitClass(): char -> bool { (c: char) => IsDigit(c) }
  function LetterClass(): char -> bool { (c: char) => IsAsciiLetter(c) }

  /** `passwordRequirements`: length at least 6, a digit (`/\d/`), a letter (`/[a-zA-Z]/`). */
  function PasswordRequirements(password: string): (r: seq<Requirement>)
    ensures |r| == 3
    ensures r[0].valid <==> |password| >= 6
    ensures r[1].valid <==> exists i :: 0 <= i < |password| && IsDigit(password[i])
    ensures r[2].valid <==> exists i :: 0 <= i < |password| && IsAsciiLetter(password[i])
  {
    [ Requirement("At least 6 characters", |password| >= 6),
      Requirement("Contains a number", AnyChar(password, DigitClass())),
      Requirement("Contains a letter", AnyChar(password, LetterClass())) ]
  }

  const FillAllFields := "Please fill in all fields"
  const InvalidEmail := "Please enter a valid email address"
  const PasswordTooShort := "Password must be at least 6 characters"
  const PasswordMismatch := "Passwords do not match"

  /** The checks of `handleSubmit`, in order; the first that fails gives the error. */
  function FirstError(name: string, email: string, password: string, confirm: string): Option<string> {
    if name == "" || email == "" || password == "" || confirm == "" then Some(FillAllFields)
    else if '@' !in email then Some(InvalidEmail)
    else if |password| < 6 then Some(PasswordTooShort)
    else if password != confirm then Some(PasswordMismatch)
    else None
  }

  /** Every field filled, an "@" in the email, at least 6 characters, and a matching confirmation. */
  predicate Acceptable(name: string, email: string, password: string, confirm: string) {
    name != "" && email != "" && password != "" && confirm != "" &&
    '@' in email && |password| >= 6 && password == confirm
  }

  /**
   * Each message is reported exactly when its check fails and every earlier check passes, and
   * there is no error exactly when the form is acceptable.
   */
  lemma FirstErrorCases(name: string, email: string, password: string, confirm: string)
    ensures var e := FirstError(name, email, password, confirm);
      var filled := name != "" && email != "" && password != "" && confirm != "";
      && (e == Some(FillAllFields) <==> !filled)
      && (e == Some(InvalidEmail) <==> filled && '@' !in email)
      && (e == Some(PasswordTooShort) <==> filled && '@' in email && |password| < 6)
      && (e == Some(PasswordMismatch) <==> filled && '@' in email && |password| >= 6 && password != confirm)
      && (e == None <==> Acceptable(name, email, password, confirm))
  {
  }

  /**
   * The digit and letter indicators are display-only: a six-letter password without a digit and
   * a six-digit password without a letter are both accepted.
   */
  lemma DigitAndLetterNotEnforced(letters: string, digits: string)
    requires letters == "abcdef" && digits == "123456"
    ensures !PasswordRequirements(letters)[1].valid && FirstError("Ann", "ann@example.com", letters, letters) == None
    ensures !PasswordRequirements(digits)[2].valid && FirstError("Ann", "ann@example.com", digits, digits) == None
  {
    forall i | 0 <= i < |letters| ensures !IsDigit(letters[i]) {
      assert letters[i] in "abcdef";
    }
    forall i | 0 <= i < |digits| ensures !IsAsciiLetter(digits[i]) {
      assert digits[i] in "123456";
    }
    assert "ann@example.com"[3] == '@';
  }

  class RegisterForm {
    var name: string
    var email: string
    var password: string
    var confirmPassword: string
    var error: string
    var loading: bool
    const auth: AuthStore

    constructor (auth: AuthStore)
      ensures this.auth == auth
      ensures name == "" && email == "" && password == "" && confirmPassword == ""
      ensures error == "" && !loading
    {
      this.auth := auth;
      name, email, password, confirmPassword := "", "", "", "";
      error := "";
      loading := false;
    }

    /** The four inputs' change handlers. */
    method Edit(name: string, email: string, password: string, confirmPassword: string)
      modifies this`name, this`email, this`password, this`confirmPassword
      ensures this.name == name && this.email == email
      ensures this.password == password && this.confirmPassword == confirmPassword
    {
      this.name, this.email, this.password, this.confirmPassword := name, email, password, confirmPassword;
    }

    /**
     * `handleSubmit`: the first failing check sets its message and `signUp` is not called;
     * when all pass, `signUp(email, password, name)` signs the user in and the page navigates
     * to "/". Loading is false again on every exit; `now` stands for the clock.
     */
    method Submit(now: nat) returns (navigate: Option<string>)
      modifies this`error, this`loading, auth`user, auth.storage`user
      ensures !loading
      ensures FirstError(name, email, password, confirmPassword).Some? ==>
        && error == FirstError(name, email, password, confirmPassword).value
        && navigate.None?
        && auth.user == old(auth.user) && auth.storage.user == old(auth.storage.user)
      ensures FirstError(name, email, password, confirmPassword).None? ==>
        && error == ""
        && navigate == Some("/")
        && auth.user == Some(MockUser(email, name, now))
        && auth.storage.user == Some(Parsed(MockUser(email, name, now)))
    {
      error := "";
      loading := true;
      var problem := FirstError(name, email, password, confirmPassword);
      if problem.Some? {
        error := problem.value;
        loading := false;
        return None;
      }
      var result := auth.SignUp(email, password, name, now);
      // The mock always succeeds, so the failure message is never shown.
      assert result.success;
      navigate := Some("/");
      loading := false;
    }
  }
}
