/**
 * src/context/AuthContext.tsx: the signed-in user, its cached copy in local storage (USER_DATA),
 * and the steps that change them: revalidation, start-up, sign-in, sign-up, sign-out and profile
 * update. The token lives in the shared TokenStore of module Api.
 */
module AuthContext {
  import opened Wrappers
  import opened Types
  import opened Api
  import StoreApi

  const SIGN_IN_FALLBACK: string := "E-mail ou senha inválidos"
  const SIGN_UP_FALLBACK: string := "Erro ao criar conta"

  /** What signIn and signUp resolve to. */
  datatype AuthResult = AuthResult(success: bool, error: Option<string>)

  /** `list?.[0]` */
  function Head(list: seq<string>): (r: Option<string>)
    ensures r.Some? <==> list != []
    ensures r.Some? ==> r.value == list[0]
  {
    if list == [] then None else Some(list[0])
  }

  /** `a || b || ... || fallback` over optional strings: the first truthy candidate, else the
      fallback. */
  function FirstTruthy(candidates: seq<Option<string>>, fallback: string): (r: string)
    ensures (forall i | 0 <= i < |candidates| :: !Truthy(candidates[i])) ==> r == fallback
    ensures forall i | 0 <= i < |candidates| && Truthy(candidates[i]) &&
                       (forall j | 0 <= j < i :: !Truthy(candidates[j])) ::
              r == candidates[i].value
    ensures fallback != "" ==> r != ""
  {
    if candidates == [] then fallback
    else if Truthy(candidates[0]) then candidates[0].value
    else FirstTruthy(candidates[1..], fallback)
  }

  /** The candidates signIn reads from the error body: non_field_errors[0], detail, error. */
  function SignInCandidates(e: ApiError): seq<Option<string>> {
    match e.response
    case None => []
    case Some(resp) => [Head(resp.data.nonFieldErrors), resp.data.detail, resp.data.error]
  }

  /** The candidates signUp reads: email[0], password[0], non_field_errors[0], detail. */
  function SignUpCandidates(e: ApiError): seq<Option<string>> {
    match e.response
    case None => []
    case Some(resp) =>
      [Head(resp.data.email), Head(resp.data.password), Head(resp.data.nonFieldErrors), resp.data.detail]
  }

  function SignInErrorMessage(e: ApiError): (msg: string)
    ensures msg != ""
    ensures e.response.None? ==> msg == SIGN_IN_FALLBACK
  {
    FirstTruthy(SignInCandidates(e), SIGN_IN_FALLBACK)
  }

  function SignUpErrorMessage(e: ApiError): (msg: string)
    ensures msg != ""
    ensures e.response.None? ==> msg == SIGN_UP_FALLBACK
  {
    FirstTruthy(SignUpCandidates(e), SIGN_UP_FALLBACK)
  }

  /** The sign-in cascade in full: a field message wins over `detail`, which wins over `error`,
      and the generic text appears only when the server gave none of them. */
  lemma SignInMessagePriority(e: ApiError)
    requires e.response.Some?
    ensures var d := e.response.value.data;
            SignInErrorMessage(e) ==
              if d.nonFieldErrors != [] && d.nonFieldErrors[0] != "" then d.nonFieldErrors[0]
              else if Truthy(d.detail) then d.detail.value
              else if Truthy(d.error) then d.error.value
              else SIGN_IN_FALLBACK
  {
    var c := SignInCandidates(e);
    var d := e.response.value.data;
    assert Truthy(c[0]) <==> d.nonFieldErrors != [] && d.nonFieldErrors[0] != "";
    assert FirstTruthy(c, SIGN_IN_FALLBACK) ==
           if Truthy(c[0]) then c[0].value else FirstTruthy(c[1..], SIGN_IN_FALLBACK);
    assert FirstTruthy(c[1..], SIGN_IN_FALLBACK) ==
           if Truthy(c[1]) then c[1].value else FirstTruthy(c[2..], SIGN_IN_FALLBACK);
    assert FirstTruthy(c[2..], SIGN_IN_FALLBACK) ==
           if Truthy(c[2]) then c[2].value else FirstTruthy(c[3..], SIGN_IN_FALLBACK);
    assert c[3..] == [];
  }

  /** The sign-up cascade in full: email, then password, then non-field messages, then detail. */
  lemma SignUpMessagePriority(e: ApiError)
    requires e.response.Some?
    ensures var d := e.response.value.data;
            SignUpErrorMessage(e) ==
              if d.email != [] && d.email[0] != "" then d.email[0]
              else if d.password != [] && d.password[0] != "" then d.password[0]
              else if d.nonFieldErrors != [] && d.nonFieldErrors[0] != "" then d.nonFieldErrors[0]
              else if Truthy(d.detail) then d.detail.value
              else SIGN_UP_FALLBACK
  {
    var c := SignUpCandidates(e);
    var d := e.response.value.data;
    assert Truthy(c[0]) <==> d.email != [] && d.email[0] != "";
    assert Truthy(c[1]) <==> d.password != [] && d.password[0] != "";
    assert Truthy(c[2]) <==> d.nonFieldErrors != [] && d.nonFieldErrors[0] != "";
    assert FirstTruthy(c, SIGN_UP_FALLBACK) ==
           if Truthy(c[0]) then c[0].value else FirstTruthy(c[1..], SIGN_UP_FALLBACK);
    assert FirstTruthy(c[1..], SIGN_UP_FALLBACK) ==
           if Truthy(c[1]) then c[1].value else FirstTruthy(c[2..], SIGN_UP_FALLBACK);
    assert FirstTruthy(c[2..], SIGN_UP_FALLBACK) ==
           if Truthy(c[2]) then c[2].value else FirstTruthy(c[3..], SIGN_UP_FALLBACK);
    assert FirstTruthy(c[3..], SIGN_UP_FALLBACK) ==
           if Truthy(c[3]) then c[3].value else FirstTruthy(c[4..], SIGN_UP_FALLBACK);
    assert c[4..] == [];
  }

  /** The provider's state over the shared token store. */
  class AuthState {
    const tokens: TokenStore
    var user: Option<User>
    var isLoading: bool
    /** The USER_DATA entry of local storage. */
    var cachedUser: Option<User>

    /** Mount: no user yet, loading, storage as left by the previous run. */
    constructor (tokens: TokenStore, stored: Option<User>)
      ensures this.tokens == tokens
      ensures user == None && isLoading && cachedUser == stored
    {
      this.tokens := tokens;
      user, isLoading, cachedUser := None, true, stored;
    }

    /** `!!user` */
    predicate IsAuthenticated()
      reads this
      ensures IsAuthenticated() <==> user != None
    {
      user.Some?
    }

    /** fetchProfile: with no stored token the user is signed out and the profile is not
        requested; otherwise the profile replaces and is cached as the user, a 401 clears token,
        cache and user, and any other failure changes nothing. */
    method FetchProfile(profile: Remote<User>) returns (requested: bool)
      requires tokens.Valid()
      modifies this`user, this`cachedUser, tokens
      ensures tokens.Valid()
      ensures requested == Truthy(old(tokens.Stored()))
      ensures !requested ==>
                user == None && !IsAuthenticated() && cachedUser == old(cachedUser) &&
                tokens.Stored() == old(tokens.Stored())
      ensures requested && profile.Ok? ==>
                user == Some(profile.value) && cachedUser == user && tokens.Stored() == old(tokens.Stored())
      ensures requested && profile.Err? && Is401(profile.error) ==>
                user == None && cachedUser == None && tokens.Stored() == None && tokens.authToken == None
      ensures requested && profile.Err? && !Is401(profile.error) ==>
                user == old(user) && cachedUser == old(cachedUser) && tokens.Stored() == old(tokens.Stored())
    {
      var token := tokens.GetAuthToken();
      if !Truthy(token) {
        user := None;
        return false;
      }
      requested := true;
      var r := StoreApi.ProfileCall(tokens, profile);
      match r {
        case Ok(p) =>
          user := Some(p);
          cachedUser := Some(p);
        case Err(e) =>
          if e.response.Some? && e.response.value.status == 401 {
            tokens.ClearAuthToken();
            cachedUser := None;
            user := None;
          }
      }
    }

    /** initAuth: the cached user is shown first, then revalidated; loading ends either way. */
    method InitAuth(profile: Remote<User>) returns (requested: bool)
      requires tokens.Valid()
      modifies this`user, this`cachedUser, this`isLoading, tokens
      ensures tokens.Valid()
      ensures !isLoading
      ensures requested == Truthy(old(tokens.Stored()))
      ensures !requested ==> user == None && cachedUser == old(cachedUser) && tokens.Stored() == old(tokens.Stored())
      ensures requested && profile.Ok? ==>
                user == Some(profile.value) && cachedUser == user && tokens.Stored() == old(tokens.Stored())
      ensures requested && profile.Err? && Is401(profile.error) ==>
                user == None && cachedUser == None && tokens.Stored() == None
      ensures requested && profile.Err? && !Is401(profile.error) ==>
                user == (if old(cachedUser).Some? then old(cachedUser) else old(user)) &&
                cachedUser == old(cachedUser) && tokens.Stored() == old(tokens.Stored())
    {
      if cachedUser.Some? {
        user := cachedUser;
      }
      requested := FetchProfile(profile);
      isLoading := false;
    }

    /** signIn: on success the user from the response, cached, and a successful result; on
        failure the user is untouched and the result carries the cascade's message. */
    method SignIn(response: Remote<StoreApi.LoginResponse>) returns (result: AuthResult)
      requires tokens.Valid()
      modifies this`user, this`cachedUser, tokens
      ensures tokens.Valid()
      ensures result.success <==> response.Ok?
      ensures tokens.Stored() == StoreApi.TokenAfterAuth(old(tokens.Stored()), response)
      ensures response.Ok? ==>
                user == Some(response.value.user) && cachedUser == user && IsAuthenticated() && result.error == None
      ensures response.Err? ==>
                user == old(user) && cachedUser == old(cachedUser) &&
                result.error == Some(SignInErrorMessage(response.error))
    {
      var r := StoreApi.LoginUser(tokens, response);
      match r {
        case Ok(data) =>
          user := Some(data.user);
          cachedUser := Some(data.user);
          result := AuthResult(true, None);
        case Err(e) =>
          result := AuthResult(false, Some(FirstTruthy(SignInCandidates(e), SIGN_IN_FALLBACK)));
      }
    }

    /** signUp: as signIn, with the registration cascade. */
    method SignUp(response: Remote<StoreApi.LoginResponse>) returns (result: AuthResult)
      requires tokens.Valid()
      modifies this`user, this`cachedUser, tokens
      ensures tokens.Valid()
      ensures result.success <==> response.Ok?
      ensures tokens.Stored() == StoreApi.TokenAfterAuth(old(tokens.Stored()), response)
      ensures response.Ok? ==>
                user == Some(response.value.user) && cachedUser == user && IsAuthenticated() && result.error == None
      ensures response.Err? ==>
                user == old(user) && cachedUser == old(cachedUser) &&
                result.error == Some(SignUpErrorMessage(response.error))
    {
      var r := StoreApi.RegisterUser(tokens, response);
      match r {
        case Ok(data) =>
          user := Some(data.user);
          cachedUser := Some(data.user);
          result := AuthResult(true, None);
        case Err(e) =>
          result := AuthResult(false, Some(FirstTruthy(SignUpCandidates(e), SIGN_UP_FALLBACK)));
      }
    }

    /** signOut: whatever the remote logout answers, the session ends completely. */
    method SignOut(response: Remote<()>)
      requires tokens.Valid()
      modifies this`user, this`cachedUser, tokens
      ensures tokens.Valid()
      ensures user == None && !IsAuthenticated() && cachedUser == None
      ensures tokens.authToken == None && tokens.Stored() == None
    {
      var _ := StoreApi.LogoutUser(tokens, response);
      user := None;
      cachedUser := None;
    }

    /** updateProfile: the updated user replaces and is cached as the user; a failure is
        rethrown with the user untouched (a 401 still clears the token, in the interceptor). */
    method UpdateProfile(response: Remote<User>) returns (r: Remote<User>)
      requires tokens.Valid()
      modifies this`user, this`cachedUser, tokens
      ensures tokens.Valid()
      ensures r == response
      ensures response.Ok? ==> user == Some(response.value) && cachedUser == user
      ensures response.Err? ==> user == old(user) && cachedUser == old(cachedUser)
      ensures tokens.Stored() ==
                if response.Err? && Is401(response.error) then None else old(tokens.Stored())
    {
      r := StoreApi.ProfileCall(tokens, response);
      if r.Ok? {
        user := Some(r.value);
        cachedUser := Some(r.value);
      }
    }
  }
}
