/**
 * The login form: two ordered checks on the typed fields, then a simulated
 * delay before the credentials reach the login handler; and the simulated
 * Google sign-in.
 */
module Login {
  import opened Wrappers
  import App

  const EmailRequired := "Email is required."
  const PasswordTooShort := "Password must be at least 8 characters long."

  /** The checks of `handleFormSubmit` in their order. The e-mail is only
      required to be non-empty: its format is not checked here. */
  function LoginError(email: string, password: string): (r: Option<string>)
    ensures r == Some(EmailRequired) <==> email == ""
    ensures r == Some(PasswordTooShort) <==> email != "" && |password| < 8
    ensures r == None <==> email != "" && |password| >= 8
  {
    if email == "" then Some(EmailRequired)
    else if |password| < 8 then Some(PasswordTooShort)
    else None
  }

  /** A login that passes the form's checks signs in as the user derived
      from the typed e-mail, whatever the password. */
  lemma AcceptedLoginUser(email: string, password: string)
    requires LoginError(email, password).None?
    ensures App.LoginUser(App.Credentials(Some(email), Some(password), None)) == App.RegisteredUser(email)
  {
  }

  class LoginPage {
    var email: string
    var password: string
    var error: string
    var isLoggingIn: bool
    var isGoogleLoading: bool
    var isAuthModalOpen: bool

    constructor ()
      ensures email == "" && password == "" && error == ""
      ensures !isLoggingIn && !isGoogleLoading && !isAuthModalOpen
    {
      email, password, error := "", "", "";
      isLoggingIn, isGoogleLoading, isAuthModalOpen := false, false, false;
    }

    /** `handleFormSubmit`: a failing check sets its message and stops;
        otherwise the message is cleared, the spinner shown, and the typed
        e-mail and password are what the delayed call will hand over. */
    method Submit() returns (pending: Option<App.Credentials>)
      modifies this`error, this`isLoggingIn
      ensures pending.None? <==> LoginError(email, password).Some?
      ensures pending.None? ==> error == LoginError(email, password).value && isLoggingIn == old(isLoggingIn)
      ensures pending.Some? ==> pending.value == App.Credentials(Some(email), Some(password), None)
      ensures pending.Some? ==> error == "" && isLoggingIn
    {
      var e := LoginError(email, password);
      if e.Some? {
        error := e.value;
        return None;
      }
      error := "";
      isLoggingIn := true;
      pending := Some(App.Credentials(Some(email), Some(password), None));
    }

    /** `handleGoogleLogin`, first half. */
    method StartGoogleLogin()
      modifies this`isGoogleLoading, this`isAuthModalOpen
      ensures isGoogleLoading && isAuthModalOpen
    {
      isGoogleLoading := true;
      isAuthModalOpen := true;
    }

    /** `handleGoogleLogin`, the timer. */
    method FinishGoogleLogin() returns (c: App.Credentials)
      modifies this`isAuthModalOpen
      ensures !isAuthModalOpen
      ensures c == App.GoogleDemoCredentials
    {
      isAuthModalOpen := false;
      c := App.GoogleDemoCredentials;
    }
  }
}
