/**
 * The login form of `LoginPage`: the empty-field check, the one login
 * request a valid submit issues, the Enter shortcut, and what a successful
 * login does to the session.
 */
module Login {
  import opened Common
  import opened Api
  import opened Session

  const FillAllMessage := "Please fill in all fields"
  const DefaultLoginError := "Login failed"
  const HomePath := "/"

  /** What a submit does: show a validation toast and stop, or issue the login mutation. */
  datatype SubmitOutcome = Rejected(toast: string) | SendLogin(call: Call)

  /**
   * `handleSubmit` on the current fields: an empty email or password is
   * rejected without a request; otherwise exactly one login call with both
   * fields is issued.
   */
  function SubmitDecision(email: string, password: string): (o: SubmitOutcome)
    ensures o.Rejected? <==> !Truthy(email) || !Truthy(password)
    ensures o.Rejected? ==> o.toast == FillAllMessage
    ensures o.SendLogin? ==> o.call == Login(email, password)
  {
    if !Truthy(email) || !Truthy(password) then Rejected(FillAllMessage)
    else SendLogin(Login(email, password))
  }

  /** The toast after a failed login: the error's message, or the default when it is empty. */
  function LoginErrorToast(e: Error): (msg: string)
    ensures Truthy(e.message) ==> msg == e.message
    ensures !Truthy(e.message) ==> msg == DefaultLoginError
  {
    OrElse(e.message, DefaultLoginError)
  }

  class LoginPage {
    var email: string
    var password: string

    constructor ()
      ensures email == "" && password == ""
    {
      email := "";
      password := "";
    }

    method SetEmail(value: string)
      modifies this
      ensures email == value && password == old(password)
    {
      email := value;
    }

    method SetPassword(value: string)
      modifies this
      ensures password == value && email == old(email)
    {
      password := value;
    }

    /** The button's `handleSubmit`. */
    method HandleSubmit() returns (outcome: SubmitOutcome)
      ensures outcome == SubmitDecision(email, password)
    {
      if !Truthy(email) || !Truthy(password) {
        outcome := Rejected(FillAllMessage);
        return;
      }
      outcome := SendLogin(Login(email, password));
    }

    /** A key press in the password field: Enter runs the same submit path, other keys do nothing. */
    method HandleKeyDown(key: string) returns (outcome: Option<SubmitOutcome>)
      ensures outcome.Some? <==> key == "Enter"
      ensures outcome.Some? ==> outcome.value == SubmitDecision(email, password)
    {
      if key == "Enter" {
        var o := HandleSubmit();
        outcome := Some(o);
      } else {
        outcome := None;
      }
    }
  }

  /** The mutation's `onSuccess`: `login(access_token)`, then navigate home. */
  method OnLoginSuccess(auth: AuthProvider, accessToken: string) returns (navigateTo: string)
    modifies auth, auth.storage
    ensures auth.Valid() && auth.State() == AfterLogin(old(auth.State()), accessToken)
    ensures auth.isAuthenticated && auth.token == Some(accessToken) && auth.storage.accessToken == Some(accessToken)
    ensures navigateTo == HomePath
  {
    auth.Login(accessToken);
    navigateTo := HomePath;
  }
}
