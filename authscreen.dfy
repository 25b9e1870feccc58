/** The sign-in screen: sign up with email, password and access code, or sign in with
    email and password, each form checked by a schema before the auth call. */
module AuthScreen {
  import opened Wrappers
  import opened Text
  import opened Auth

  const InvalidEmail: string := "Invalid email address"
  const PasswordTooShort: string := "Password must be at least 6 characters"
  const AccessCodeTooShort: string := "Access code must be at least 3 characters"
  const AccessCodeTooLong: string := "Access code must be less than 20 characters"
  const PasswordRequired: string := "Password is required"
  const AlreadyRegistered: string := "This email is already registered. Please sign in instead."
  const InvalidCredentials: string := "Invalid email or password"
  const Unexpected: string := "An unexpected error occurred"
  const UniverseCreated: string := "Your universe has been created!"
  const WelcomeBack: string := "Welcome back!"

  /** The issues of `authSchema.safeParse`, field by field in the schema's order. The
      email is trimmed before it is checked; `isEmail` is the email validator. */
  function SignUpIssues(email: string, password: string, accessCode: string, isEmail: string -> bool): seq<string> {
    (if isEmail(Trim(email)) then [] else [InvalidEmail])
    + (if |password| >= 6 then [] else [PasswordTooShort])
    + (if |accessCode| < 3 then [AccessCodeTooShort] else [])
    + (if |accessCode| > 20 then [AccessCodeTooLong] else [])
  }

  /** The issues of the login schema: a valid email and a non-empty password. */
  function LoginIssues(email: string, password: string, isEmail: string -> bool): seq<string> {
    (if isEmail(Trim(email)) then [] else [InvalidEmail])
    + (if |password| >= 1 then [] else [PasswordRequired])
  }

  /** Sign-up passes exactly when the trimmed email is valid, the password has at least
      6 characters and the access code, as typed, 3 to 20; the first failing field in
      that order gives the message shown. */
  lemma SignUpRules(email: string, password: string, accessCode: string, isEmail: string -> bool)
    ensures var issues := SignUpIssues(email, password, accessCode, isEmail);
      && (issues == [] <==> isEmail(Trim(email)) && |password| >= 6 && 3 <= |accessCode| <= 20)
      && (!isEmail(Trim(email)) ==> issues[0] == InvalidEmail)
      && (isEmail(Trim(email)) && |password| < 6 ==> issues[0] == PasswordTooShort)
      && (isEmail(Trim(email)) && |password| >= 6 && |accessCode| < 3 ==> issues[0] == AccessCodeTooShort)
      && (isEmail(Trim(email)) && |password| >= 6 && |accessCode| > 20 ==> issues[0] == AccessCodeTooLong)
  {
  }

  /** Login passes exactly when the trimmed email is valid and the password is not empty;
      a bad email is reported first. */
  lemma LoginRules(email: string, password: string, isEmail: string -> bool)
    ensures var issues := LoginIssues(email, password, isEmail);
      && (issues == [] <==> isEmail(Trim(email)) && password != [])
      && (!isEmail(Trim(email)) ==> issues[0] == InvalidEmail)
      && (isEmail(Trim(email)) && password == [] ==> issues[0] == PasswordRequired)
  {
  }

  /** Every sign-up form the schema accepts passes the login schema too. */
  lemma SignUpImpliesLogin(email: string, password: string, accessCode: string, isEmail: string -> bool)
    requires SignUpIssues(email, password, accessCode, isEmail) == []
    ensures LoginIssues(email, password, isEmail) == []
  {
  }

  /** The auth call made: sign-up with the trimmed email and the normalised access code
      in the user metadata, or password sign-in with the trimmed email. */
  datatype AuthCall = SignUp(email: string, password: string, accessCode: string) | SignIn(email: string, password: string)

  /** How the auth call ends: accepted, answered with an error message, or thrown. */
  datatype AuthAnswer = Accepted | Rejected(message: string) | Threw

  /** The message shown for an auth error: the known ones are reworded. */
  function ErrorText(isSignUp: bool, message: string): string {
    if isSignUp then (if Contains(message, "already registered") then AlreadyRegistered else message)
    else if Contains(message, "Invalid login credentials") then InvalidCredentials else message
  }

  class AuthScreenView {
    var email: string
    var password: string
    var accessCode: string
    var isLoading: bool
    var isSignUp: bool
    var isAnimating: bool

    constructor()
      ensures email == [] && password == [] && accessCode == []
      ensures !isLoading && !isSignUp && !isAnimating
    {
      email, password, accessCode := [], [], [];
      isLoading, isSignUp, isAnimating := false, false, false;
    }

    /** `handleSubmit`: the form of the current mode is checked; the first issue is
        shown and no call is made, or else the auth call is made with the normalised
        fields. Success starts the animation and schedules `onSuccess` with loading
        still on; an error or a throw is shown and ends loading. */
    method HandleSubmit(isEmail: string -> bool, answer: AuthAnswer) returns (call: Option<AuthCall>, toast: Toast)
      modifies this
      ensures var issues := if isSignUp then SignUpIssues(email, password, accessCode, isEmail)
                            else LoginIssues(email, password, isEmail);
        && (issues != [] ==> call.None? && toast == ErrorToast(issues[0]) && !isLoading)
        && (issues == [] ==> call == Some(if isSignUp then SignUp(Trim(email), password, NormalizeCode(accessCode))
                                          else SignIn(Trim(email), password)))
        && (issues == [] && answer.Accepted? ==>
              isLoading && isAnimating && toast == SuccessToast(if isSignUp then UniverseCreated else WelcomeBack))
        && (issues == [] && answer.Rejected? ==>
              !isLoading && toast == ErrorToast(ErrorText(isSignUp, answer.message)))
        && (issues == [] && answer.Threw? ==> !isLoading && toast == ErrorToast(Unexpected))
        && (!(issues == [] && answer.Accepted?) ==> isAnimating == old(isAnimating))
      ensures email == old(email) && password == old(password) && accessCode == old(accessCode)
      ensures isSignUp == old(isSignUp)
    {
      isLoading := true;
      var issues := if isSignUp then SignUpIssues(email, password, accessCode, isEmail)
                    else LoginIssues(email, password, isEmail);
      if issues != [] {
        isLoading := false;
        return None, ErrorToast(issues[0]);
      }
      call := Some(if isSignUp then SignUp(Trim(email), password, NormalizeCode(accessCode))
                   else SignIn(Trim(email), password));
      match answer
      case Accepted =>
        isAnimating := true;
        toast := SuccessToast(if isSignUp then UniverseCreated else WelcomeBack);
      case Rejected(message) =>
        isLoading := false;
        toast := ErrorToast(ErrorText(isSignUp, message));
      case Threw =>
        isLoading := false;
        toast := ErrorToast(Unexpected);
    }

    /** The mode switch under the form. */
    method ToggleMode()
      modifies this
      ensures isSignUp == !old(isSignUp)
      ensures email == old(email) && password == old(password) && accessCode == old(accessCode)
      ensures isLoading == old(isLoading) && isAnimating == old(isAnimating)
    {
      isSignUp := !isSignUp;
    }
  }
}
