/**
 * src/services/api.ts: the authentication token, cached in a module variable in front of secure
 * storage, and the request/response interceptors every HTTP client installs.
 */
module Api {
  import opened Wrappers
  import opened Types

  const AUTH_TOKEN_KEY: string := "auth_token"
  const AUTHORIZATION: string := "Authorization"

  /** JavaScript truthiness of a `string | null`. */
  predicate Truthy(t: Option<string>) {
    t.Some? && t.value != ""
  }

  function Lookup(m: map<string, string>, k: string): (r: Option<string>)
    ensures r.Some? <==> k in m
    ensures r.Some? ==> r.value == m[k]
  {
    if k in m then Some(m[k]) else None
  }

  /** The request interceptor's header rule: `Authorization: Token <t>` is added exactly when a
      token is present, and no other header is touched. */
  function WithAuthorization(headers: map<string, string>, token: Option<string>): (r: map<string, string>)
    ensures Truthy(token) ==> AUTHORIZATION in r && r[AUTHORIZATION] == "Token " + token.value
    ensures !Truthy(token) ==> r == headers
    ensures forall k | k in headers && k != AUTHORIZATION :: k in r && r[k] == headers[k]
    ensures r.Keys <= headers.Keys + {AUTHORIZATION}
  {
    if Truthy(token) then headers[AUTHORIZATION := "Token " + token.value] else headers
  }

  /** The module variable `authToken` together with the secure key-value store behind it. */
  class TokenStore {
    var authToken: Option<string>
    var secure: map<string, string>

    /** The in-memory copy, when it is usable, is what secure storage holds. */
    ghost predicate Valid()
      reads this
    {
      Truthy(authToken) ==> Lookup(secure, AUTH_TOKEN_KEY) == authToken
    }

    /** The token persisted in secure storage. */
    function Stored(): Option<string>
      reads this
    {
      Lookup(secure, AUTH_TOKEN_KEY)
    }

    /** Process start: nothing in memory, storage as left by the previous run. */
    constructor (secure: map<string, string>)
      ensures Valid()
      ensures authToken == None && this.secure == secure
    {
      authToken := None;
      this.secure := secure;
    }

    method SetAuthToken(token: Option<string>)
      requires Valid()
      modifies this
      ensures Valid()
      ensures authToken == token
      ensures secure == if Truthy(token) then old(secure)[AUTH_TOKEN_KEY := token.value]
                        else old(secure) - {AUTH_TOKEN_KEY}
    {
      authToken := token;
      if Truthy(token) {
        secure := secure[AUTH_TOKEN_KEY := token.value];
      } else {
        secure := secure - {AUTH_TOKEN_KEY};
      }
    }

    /** Returns the memory copy when it is truthy, otherwise reads storage and caches what it
        finds; either way the answer is what secure storage holds. */
    method GetAuthToken() returns (token: Option<string>)
      requires Valid()
      modifies this`authToken
      ensures Valid()
      ensures token == old(Stored())
      ensures Truthy(old(authToken)) ==> token == old(authToken)
      ensures authToken == token
    {
      if Truthy(authToken) {
        return authToken;
      }
      authToken := Lookup(secure, AUTH_TOKEN_KEY);
      token := authToken;
    }

    method ClearAuthToken()
      requires Valid()
      modifies this
      ensures Valid()
      ensures authToken == None && Stored() == None
      ensures secure == old(secure) - {AUTH_TOKEN_KEY}
    {
      authToken := None;
      secure := secure - {AUTH_TOKEN_KEY};
    }

    /** The request interceptor installed on the store, auth and global clients. */
    method AuthorizeRequest(headers: map<string, string>) returns (sent: map<string, string>)
      requires Valid()
      modifies this`authToken
      ensures Valid()
      ensures sent == WithAuthorization(headers, old(Stored()))
      ensures authToken == old(Stored())
    {
      var token := GetAuthToken();
      sent := WithAuthorization(headers, token);
    }

    /** handleResponseError: clears the token on a 401 and rejects with the same error. */
    method HandleResponseError(e: ApiError) returns (rejected: ApiError)
      requires Valid()
      modifies this
      ensures Valid()
      ensures rejected == e
      ensures Is401(e) ==> authToken == None && secure == old(secure) - {AUTH_TOKEN_KEY}
      ensures !Is401(e) ==> authToken == old(authToken) && secure == old(secure)
    {
      if e.response.Some? && e.response.value.status == 401 {
        ClearAuthToken();
      }
      rejected := e;
    }
  }

  /** One call through an HTTP client: the request interceptor runs, then the response
      interceptor on failure. The caller sees the server's outcome unchanged. */
  method Request<T>(tokens: TokenStore, response: Remote<T>) returns (r: Remote<T>)
    requires tokens.Valid()
    modifies tokens
    ensures tokens.Valid()
    ensures r == response
    ensures response.Err? && Is401(response.error) ==>
              tokens.authToken == None && tokens.secure == old(tokens.secure) - {AUTH_TOKEN_KEY}
    ensures !(response.Err? && Is401(response.error)) ==>
              tokens.authToken == old(tokens.Stored()) && tokens.secure == old(tokens.secure)
  {
    var _ := tokens.AuthorizeRequest(map[]);
    if response.Err? {
      var _ := tokens.HandleResponseError(response.error);
    }
    r := response;
  }
}
