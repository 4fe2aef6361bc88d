/**
 * app/auth/login.tsx: the login form's validation and the handling of signIn's result.
 */
module Login {
  import opened Wrappers
  import opened Text
  import opened Types
  import AuthContext
  import StoreApi

  const FIELDS_REQUIRED: string := "Preencha todos os campos"
  const LOGIN_FALLBACK: string := "Erro ao fazer login"

  /** What handleLogin passes to signIn. */
  datatype Credentials = Credentials(email: string, password: string)

  /** A blank e-mail or a blank password stops the login. */
  function LoginError(email: string, password: string): (r: Option<string>)
    ensures r.None? <==> !AllSpace(email) && !AllSpace(password)
    ensures r.Some? ==> r.value == FIELDS_REQUIRED
  {
    if Blank(email) || Blank(password) then Some(FIELDS_REQUIRED) else None
  }

  /** The login screen's form state. */
  class LoginForm {
    var email: string
    var password: string
    var isLoading: bool
    var error: string

    constructor ()
      ensures email == "" && password == "" && !isLoading && error == ""
    {
      email, password, isLoading, error := "", "", false, "";
    }

    /** handleLogin: with a blank field only the message is shown and signIn is not called.
        Otherwise signIn receives the trimmed e-mail and the password as typed; success
        navigates back, failure shows signIn's message (never empty, so the screen's own fallback
        never shows). Loading ends false. */
    method HandleLogin(auth: AuthContext.AuthState, response: Remote<StoreApi.LoginResponse>)
      returns (sent: Option<Credentials>, navigatedBack: bool)
      requires auth.tokens.Valid()
      modifies this`isLoading, this`error, auth`user, auth`cachedUser, auth.tokens
      ensures auth.tokens.Valid()
      ensures sent.Some? <==> old(LoginError(email, password)).None?
      ensures sent.None? ==>
                error == FIELDS_REQUIRED && isLoading == old(isLoading) && !navigatedBack &&
                auth.user == old(auth.user) && auth.tokens.Stored() == old(auth.tokens.Stored())
      ensures sent.Some? ==> sent.value == old(Credentials(Trim(email), password)) && !isLoading
      ensures sent.Some? ==> (navigatedBack <==> response.Ok?)
      ensures sent.Some? && response.Ok? ==> error == "" && auth.user == Some(response.value.user)
      ensures sent.Some? && response.Err? ==>
                error == AuthContext.SignInErrorMessage(response.error) && auth.user == old(auth.user)
    {
      var credentials := Credentials(Trim(email), password);
      if Blank(email) || Blank(password) {
        error := FIELDS_REQUIRED;
        sent, navigatedBack := None, false;
      } else {
        isLoading := true;
        error := "";
        sent := Some(credentials);
        navigatedBack := SubmitSignIn(auth, response);
        isLoading := false;
      }
    }

    /** The part of handleLogin after validation: signIn's outcome becomes the navigation or the
        message shown. */
    method SubmitSignIn(auth: AuthContext.AuthState, response: Remote<StoreApi.LoginResponse>)
      returns (navigatedBack: bool)
      requires auth.tokens.Valid()
      modifies this`error, auth`user, auth`cachedUser, auth.tokens
      ensures auth.tokens.Valid()
      ensures navigatedBack <==> response.Ok?
      ensures response.Ok? ==> error == old(error) && auth.user == Some(response.value.user)
      ensures response.Err? ==>
                error == AuthContext.SignInErrorMessage(response.error) && auth.user == old(auth.user)
    {
      var result := auth.SignIn(response);
      if result.success {
        navigatedBack := true;
      } else {
        navigatedBack := false;
        error := if result.error.Some? && result.error.value != "" then result.error.value else LOGIN_FALLBACK;
      }
    }
  }
}
