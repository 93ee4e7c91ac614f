/** The login screen of `src/components/login-screen.tsx`: which form is shown
    (the auth mode), the loading flag, the error banner, the e-mail a reset
    link went to, the background theme index and the light/dark toggle.
    Each asynchronous handler is split at its `await`: the part before it is
    `BeginSubmit`, the part after it a `Complete...` method that receives what
    the authentication service answered. */
module LoginScreen {
  import opened Common
  import opened Forms
  import ThemeCycle

  datatype AuthMode = Login | Signup | Reset | ResetSent | Verifying

  /** The ids of the screen's two background themes, in cycling order. */
  const ThemeIds: seq<string> := ["cyberpunk", "space"]

  const SignInFailed := "Failed to sign in"
  const SignUpFailed := "Failed to sign up"
  const ResetFailed := "Failed to send reset email"
  const VerificationFailed := "Verification failed"

  datatype SignupValues = SignupValues(email: string, password: string, confirmPassword: string)

  /** The sign-up form's default values, restored by `signupForm.reset()`. */
  const EmptySignup := SignupValues("", "", "")

  /** `loginSchema`: a valid e-mail and a password of at least six characters. */
  function LoginIssues(emailOk: bool, password: string): (r: seq<Issue>)
    ensures r == [] <==> emailOk && |password| >= MinPasswordLength
    ensures Issue(Email, InvalidEmail) in r <==> !emailOk
  {
    EmailIssues(emailOk) + MinLengthIssues(Password, password)
  }

  /** `signupSchema`: a valid e-mail and two equal passwords of at least six
      characters; a mismatch is reported under `confirmPassword`. */
  function SignupIssues(emailOk: bool, values: SignupValues): (r: seq<Issue>)
    ensures r == [] <==>
              emailOk && |values.password| >= MinPasswordLength && |values.confirmPassword| >= MinPasswordLength
              && values.password == values.confirmPassword
    ensures Issue(ConfirmPassword, Mismatch) in r <==> values.password != values.confirmPassword
    ensures Issue(Email, InvalidEmail) in r <==> !emailOk
  {
    EmailIssues(emailOk) + PasswordPairIssues(values.password, values.confirmPassword)
  }

  /** `resetSchema`: only a valid e-mail. */
  function ResetIssues(emailOk: bool): (r: seq<Issue>)
    ensures r == [] <==> emailOk
  {
    EmailIssues(emailOk)
  }

  /** The verification effect starts only when both `token_hash` and `type`
      are present and non-empty in the URL. */
  function StartsVerification(q: QueryParams): (r: bool)
    ensures r <==> "token_hash" in q && "type" in q && q["token_hash"] != "" && q["type"] != ""
  {
    Truthy(Param(q, "token_hash")) && Truthy(Param(q, "type"))
  }

  /** The modes the rendered links lead to: "sign up" and "forgot password"
      from the login form, "back to login" from the sign-up, reset and
      reset-sent views, and no link while verifying. */
  function LinkTargets(mode: AuthMode): (targets: set<AuthMode>)
    ensures Verifying !in targets && ResetSent !in targets
    ensures mode != Login ==> targets <= {Login}
  {
    match mode
    case Login => {Signup, Reset}
    case Signup => {Login}
    case Reset => {Login}
    case ResetSent => {Login}
    case Verifying => {}
  }

  /** `handleToggleTheme`: "dark" becomes "light", anything else (including
      no theme yet) becomes "dark". */
  function ToggledTheme(theme: Option<string>): (r: string)
    ensures r == "light" <==> theme == Some("dark")
    ensures r == "dark" <==> theme != Some("dark")
  {
    if theme == Some("dark") then "light" else "dark"
  }

  /** Toggling twice from a light or dark theme returns to it. */
  lemma ToggleTwice(theme: string)
    requires theme == "dark" || theme == "light"
    ensures ToggledTheme(Some(ToggledTheme(Some(theme)))) == theme
  {
  }

  class Screen {
    var isLoading: bool
    var themeIndex: int
    var authMode: AuthMode
    var error: Option<string>
    var resetEmail: string
    var signupForm: SignupValues
    /** The light/dark theme held by the theme provider. */
    var colorTheme: Option<string>

    ghost predicate Valid()
      reads this
    {
      0 <= themeIndex < |ThemeIds|
    }

    constructor (colorTheme: Option<string>)
      ensures Valid()
      ensures !isLoading && themeIndex == 0 && authMode == Login && error == None
      ensures resetEmail == "" && signupForm == EmptySignup && this.colorTheme == colorTheme
    {
      isLoading, themeIndex, authMode, error := false, 0, Login, None;
      resetEmail, signupForm := "", EmptySignup;
      this.colorTheme := colorTheme;
    }

    /** The effect that reads the URL: with both parameters it switches to
        the verifying view and starts the one-time-code check. */
    method CheckVerificationLink(q: QueryParams) returns (started: bool)
      modifies this`authMode
      ensures started <==> StartsVerification(q)
      ensures authMode == if started then Verifying else old(authMode)
    {
      var tokenHash := Param(q, "token_hash");
      var kind := Param(q, "type");
      started := Truthy(tokenHash) && Truthy(kind);
      if started {
        authMode := Verifying;
      }
    }

    /** The answer to the one-time-code check: success navigates away (not
        modelled); failure shows the message and returns to the login form. */
    method CompleteVerification(result: ProviderResult)
      modifies this`error, this`authMode
      ensures result.Ok? ==> error == old(error) && authMode == old(authMode)
      ensures result.Err? ==> error == Some(ErrorText(result.message, VerificationFailed)) && authMode == Login
    {
      if result.Err? {
        error := Some(ErrorText(result.message, VerificationFailed));
        authMode := Login;
      }
    }

    /** The common start of `onLogin`, `onSignup` and `onReset`. */
    method BeginSubmit()
      modifies this`isLoading, this`error
      ensures isLoading && error == None
    {
      isLoading := true;
      error := None;
    }

    /** The rest of `onLogin`: success navigates away (not modelled); a
        failure shows the message or "Failed to sign in"; loading ends either way. */
    method CompleteLogin(result: ProviderResult)
      modifies this`isLoading, this`error
      ensures !isLoading
      ensures result.Ok? ==> error == old(error)
      ensures result.Err? ==> error == Some(ErrorText(result.message, SignInFailed))
    {
      if result.Err? {
        error := Some(ErrorText(result.message, SignInFailed));
      }
      isLoading := false;
    }

    /** The rest of `onSignup`: success clears the form and shows the login
        form; a failure shows the message or "Failed to sign up" and stays. */
    method CompleteSignup(result: ProviderResult)
      modifies this`isLoading, this`error, this`authMode, this`signupForm
      ensures !isLoading
      ensures result.Ok? ==> signupForm == EmptySignup && authMode == Login && error == old(error)
      ensures result.Err? ==> error == Some(ErrorText(result.message, SignUpFailed))
      ensures result.Err? ==> signupForm == old(signupForm) && authMode == old(authMode)
    {
      if result.Ok? {
        signupForm := EmptySignup;
        authMode := Login;
      } else {
        error := Some(ErrorText(result.message, SignUpFailed));
      }
      isLoading := false;
    }

    /** The rest of `onReset`: success remembers the e-mail and shows the
        "reset sent" view; a failure shows the message or the fallback and stays. */
    method CompleteReset(email: string, result: ProviderResult)
      modifies this`isLoading, this`error, this`authMode, this`resetEmail
      ensures !isLoading
      ensures result.Ok? ==> resetEmail == email && authMode == ResetSent && error == old(error)
      ensures result.Err? ==> error == Some(ErrorText(result.message, ResetFailed))
      ensures result.Err? ==> resetEmail == old(resetEmail) && authMode == old(authMode)
    {
      if result.Ok? {
        resetEmail := email;
        authMode := ResetSent;
      } else {
        error := Some(ErrorText(result.message, ResetFailed));
      }
      isLoading := false;
    }

    /** A click on one of the links between the forms. */
    method FollowLink(target: AuthMode)
      requires target in LinkTargets(authMode)
      modifies this`authMode
      ensures authMode == target
    {
      authMode := target;
    }

    /** `nextTheme`: `(prev + 1) % themes.length`. */
    method NextTheme()
      requires Valid()
      modifies this`themeIndex
      ensures Valid()
      ensures themeIndex == ThemeCycle.Next(old(themeIndex), |ThemeIds|)
      ensures themeIndex == (if old(themeIndex) == |ThemeIds| - 1 then 0 else old(themeIndex) + 1)
    {
      ThemeCycle.StepsStayInRange(themeIndex, |ThemeIds|);
      themeIndex := ThemeCycle.Next(themeIndex, |ThemeIds|);
    }

    /** `prevTheme`: `(prev - 1 + themes.length) % themes.length`. */
    method PrevTheme()
      requires Valid()
      modifies this`themeIndex
      ensures Valid()
      ensures themeIndex == ThemeCycle.Prev(old(themeIndex), |ThemeIds|)
      ensures themeIndex == (if old(themeIndex) == 0 then |ThemeIds| - 1 else old(themeIndex) - 1)
    {
      ThemeCycle.StepsStayInRange(themeIndex, |ThemeIds|);
      themeIndex := ThemeCycle.Prev(themeIndex, |ThemeIds|);
    }

    /** `handleToggleTheme`. */
    method ToggleColorTheme()
      modifies this`colorTheme
      ensures colorTheme == Some(ToggledTheme(old(colorTheme)))
    {
      colorTheme := Some(ToggledTheme(colorTheme));
    }
  }

  /** A whole sign-in attempt: loading while the service is asked, never
      after; the mode is never changed by it. */
  method SignIn(s: Screen, result: ProviderResult)
    modifies s`isLoading, s`error
    ensures !s.isLoading
    ensures result.Ok? <==> s.error == None
    ensures result.Err? ==> s.error == Some(ErrorText(result.message, SignInFailed))
  {
    s.BeginSubmit();
    assert s.isLoading && s.error == None;
    s.CompleteLogin(result);
  }
}
