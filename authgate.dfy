/** The email-and-password gate: a form that signs in or signs up after two checks of
    its own. `signIn` and `signUp` are taken as given auth calls. */
module AuthGate {
  import opened Wrappers
  import opened Auth
  import AuthScreen

  const MissingFields: string := "Please enter email and password"
  const AccountCreated: string := "Account created!"
  const WelcomeBack: string := "Welcome back!"

  /** The gate's own checks, in order: both fields filled in, then a password of at
      least 6 characters. */
  function GateIssue(email: string, password: string): Option<string> {
    if email == [] || password == [] then Some(MissingFields)
    else if |password| < 6 then Some(AuthScreen.PasswordTooShort)
    else None
  }

  /** The gate lets a form through exactly when the email is filled in and the password
      has at least 6 characters. What it lets through with a valid email passes the
      sign-in screen's login schema too, and its sign-up schema once the access code
      has 3 to 20 characters. */
  lemma GateRules(email: string, password: string, accessCode: string, isEmail: string -> bool)
    ensures GateIssue(email, password).None? <==> email != [] && |password| >= 6
    ensures GateIssue(email, password).None? && isEmail(Text.Trim(email)) ==>
      AuthScreen.LoginIssues(email, password, isEmail) == []
    ensures GateIssue(email, password).None? && isEmail(Text.Trim(email)) && 3 <= |accessCode| <= 20 ==>
      AuthScreen.SignUpIssues(email, password, accessCode, isEmail) == []
  {
  }

  /** The call the submit makes, chosen by the mode. */
  datatype GateCall = SignUp(email: string, password: string) | SignIn(email: string, password: string)

  class AuthGateView {
    var email: string
    var password: string
    var isSignUp: bool
    var isLoading: bool
    var isAnimating: bool

    constructor()
      ensures email == [] && password == [] && !isSignUp && !isLoading && !isAnimating
    {
      email, password := [], [];
      isSignUp, isLoading, isAnimating := false, false, false;
    }

    /** `handleSubmit`: a refused form shows the gate's message and makes no call; an
        accepted one makes the call of the current mode with the fields as typed. An
        error answer (`error`) is shown and ends loading; success starts the animation
        and schedules `onSuccess` with loading still on. */
    method HandleSubmit(error: Option<string>) returns (call: Option<GateCall>, toast: Toast)
      modifies this
      ensures GateIssue(email, password).Some? ==>
        call.None? && toast == ErrorToast(GateIssue(email, password).value)
        && isLoading == old(isLoading) && isAnimating == old(isAnimating)
      ensures GateIssue(email, password).None? ==>
        call == Some(if isSignUp then SignUp(email, password) else SignIn(email, password))
      ensures GateIssue(email, password).None? && error.Some? ==>
        toast == ErrorToast(error.value) && !isLoading && isAnimating == old(isAnimating)
      ensures GateIssue(email, password).None? && error.None? ==>
        isLoading && isAnimating && toast == SuccessToast(if isSignUp then AccountCreated else WelcomeBack)
      ensures email == old(email) && password == old(password) && isSignUp == old(isSignUp)
    {
      if email == [] || password == [] {
        return None, ErrorToast(MissingFields);
      }
      if |password| < 6 {
        return None, ErrorToast(AuthScreen.PasswordTooShort);
      }
      isLoading := true;
      call := Some(if isSignUp then SignUp(email, password) else SignIn(email, password));
      if error.Some? {
        isLoading := false;
        return call, ErrorToast(error.value);
      }
      isAnimating := true;
      toast := SuccessToast(if isSignUp then AccountCreated else WelcomeBack);
    }

    /** The link under the form: switches between sign-in and sign-up, keeping the form. */
    method ToggleMode()
      modifies this
      ensures isSignUp == !old(isSignUp)
      ensures email == old(email) && password == old(password)
      ensures isLoading == old(isLoading) && isAnimating == old(isAnimating)
    {
      isSignUp := !isSignUp;
    }
  }
}
