/**
 * The login page (pages/LoginPage.tsx): where a successful sign-in leads, how
 * the auth provider's error codes become messages, and the sign-in/sign-up
 * toggle.
 */
module LoginPage {
  import opened Records
  import App

  /** Where a sign-in returns to: the remembered location's path, or the dashboard when there is none. */
  function RedirectTarget(state: Option<NavState>): (target: string)
    ensures target != ""
    ensures state.Some? && state.value.from.Some? && state.value.from.value.pathname != "" ==>
              target == state.value.from.value.pathname
    ensures !(state.Some? && state.value.from.Some? && state.value.from.value.pathname != "") ==>
              target == "/dashboard"
  {
    if state.Some? && state.value.from.Some? && state.value.from.value.pathname != "" then
      state.value.from.value.pathname
    else "/dashboard"
  }

  /** Being sent to the login page by the guard and signing in returns the visitor to the page asked for. */
  lemma GuardRedirectRoundTrip(location: Location)
    requires location.pathname != ""
    ensures var r := App.ProtectedRoute(None, false, location, App.DashboardView);
            r.Redirect? && r.to == "/login" && RedirectTarget(r.state) == location.pathname
  {
  }

  /** A visitor stopped at the dashboard, once signed in, is shown the dashboard. */
  lemma SignInReachesDashboard(u: User)
    ensures var r := App.Router(None, false, Location("/dashboard"));
            r.Redirect? && App.Router(Some(u), false, Location(r.to)) == App.Show(App.LoginView) &&
            App.Router(Some(u), false, Location(RedirectTarget(r.state))) == App.Show(App.DashboardView)
  {
  }

  const EmailInUse := "auth/email-already-in-use"
  const InvalidCredential := "auth/invalid-credential"
  const WrongPassword := "auth/wrong-password"
  const WeakPassword := "auth/weak-password"

  /** The message shown for a failed sign-in or sign-up with the given error code and error text. */
  function ErrorMessage(code: string, message: string): (r: string)
    ensures r != ""
    ensures code == EmailInUse ==> r == "Email already in use. Please log in."
    ensures code == InvalidCredential || code == WrongPassword ==> r == "Invalid email or password."
    ensures code == WeakPassword ==> r == "Password should be at least 6 characters."
    ensures code !in {EmailInUse, InvalidCredential, WrongPassword, WeakPassword} ==>
              r == (if message != "" then message else "Authentication failed.")
  {
    if code == EmailInUse then "Email already in use. Please log in."
    else if code == InvalidCredential || code == WrongPassword then "Invalid email or password."
    else if code == WeakPassword then "Password should be at least 6 characters."
    else if message != "" then message
    else "Authentication failed."
  }

  datatype AuthOutcome = Succeeded | Failed(code: string, message: string)

  class LoginForm {
    var isSignUp: bool
    var email: string
    var password: string
    var error: string
    var isLoading: bool

    constructor ()
      ensures !isSignUp && email == "" && password == "" && error == "" && !isLoading
    {
      isSignUp := false;
      email := "";
      password := "";
      error := "";
      isLoading := false;
    }

    method SetEmail(value: string)
      modifies this`email
      ensures email == value
    {
      email := value;
    }

    method SetPassword(value: string)
      modifies this`password
      ensures password == value
    {
      password := value;
    }

    /**
     * `handleSubmit`, given how the auth call ends: only a successful sign-in
     * navigates (replacing the history entry); a successful sign-up leaves the
     * routing to the auth listener. A failure shows its message, and an address
     * already in use switches the form to sign-in. Loading is over afterwards.
     */
    method Submit(state: Option<NavState>, outcome: AuthOutcome) returns (navigateTo: Option<string>)
      modifies this`isLoading, this`error, this`isSignUp
      ensures outcome.Succeeded? && !old(isSignUp) ==> navigateTo == Some(RedirectTarget(state))
      ensures outcome.Succeeded? && old(isSignUp) ==> navigateTo == None
      ensures outcome.Succeeded? ==> error == "" && isSignUp == old(isSignUp)
      ensures outcome.Failed? ==> navigateTo == None && error == ErrorMessage(outcome.code, outcome.message)
      ensures outcome.Failed? && outcome.code == EmailInUse ==> !isSignUp
      ensures outcome.Failed? && outcome.code != EmailInUse ==> isSignUp == old(isSignUp)
      ensures !isLoading
    {
      isLoading := true;
      error := "";
      navigateTo := None;
      match outcome {
        case Succeeded =>
          if !isSignUp {
            navigateTo := Some(RedirectTarget(state));
          }
        case Failed(code, message) =>
          error := ErrorMessage(code, message);
          if code == EmailInUse {
            isSignUp := false;
          }
      }
      isLoading := false;
    }

    /** The mode link: it flips between sign-in and sign-up and clears the error. */
    method ToggleMode()
      modifies this`isSignUp, this`error
      ensures isSignUp == !old(isSignUp) && error == ""
    {
      isSignUp := !isSignUp;
      error := "";
    }

    /** `fillAdminCredentials` fills in the admin address; the password is left as typed. */
    method FillAdminCredentials()
      modifies this`email
      ensures email == "admin@legalchicks.vip"
    {
      email := "admin@legalchicks.vip";
    }
  }
}
