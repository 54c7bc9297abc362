/** The token lifecycle of frontend/src/lib/auth.ts: the OAuth 2.0 password
    grant (section 4.3 of RFC 6749) tried with HTTP Basic client
    authentication and then with the client credentials in the body
    (section 2.3.1 of RFC 6749), the stored access token, logout, and the
    expiry test on the JWT `exp` claim (section 4.1.4 of RFC 7519).
    The token endpoint is a function from request to outcome; JWT decoding
    is a function from token to its optional `exp`; `typeof window` is the
    flag `inBrowser`. */
module AuthLib {
  import opened Common
  import opened Types
  import opened Browser

  /** The one storage key the token lives under. */
  const TokenKey: string := "access_token"

  /** The defaults used when the environment sets no client credentials. */
  const ClientId: string := "myclientid"
  const ClientSecret: string := "myclientsecret"

  const LoginPath: string := "/login"

  /** One `name=value` pair of a form-encoded body. */
  datatype Param = Param(name: string, value: string)

  /** How the client authenticates itself to the token endpoint. The Basic
      header carries `clientId:clientSecret` (its base64 encoding is not modelled). */
  datatype ClientAuth = BasicHeader(clientId: string, clientSecret: string) | InBody

  datatype TokenRequest = TokenRequest(params: seq<Param>, clientAuth: ClientAuth)

  /** What the token endpoint answers: an access token, or an error. */
  datatype TokenResponse = Granted(accessToken: string) | Failed(error: string)

  /** The password-grant parameters both exchanges send. */
  function GrantParams(username: string, password: string): (params: seq<Param>)
    ensures |params| == 3
    ensures params[0] == Param("grant_type", "password")
    ensures params[1] == Param("username", username) && params[2] == Param("password", password)
  {
    [Param("grant_type", "password"), Param("username", username), Param("password", password)]
  }

  function BasicAuthRequest(username: string, password: string): TokenRequest
  {
    TokenRequest(GrantParams(username, password), BasicHeader(ClientId, ClientSecret))
  }

  function BodyCredentialsRequest(username: string, password: string): TokenRequest
  {
    TokenRequest(GrantParams(username, password)
                   + [Param("client_id", ClientId), Param("client_secret", ClientSecret)],
                 InBody)
  }

  /** Both requests carry the same grant, username and password; only the
      body variant adds the client credentials, and only the Basic variant
      sends a header. */
  lemma RequestsShareTheGrant(username: string, password: string)
    ensures BasicAuthRequest(username, password).params
      == BodyCredentialsRequest(username, password).params[..3]
    ensures |BodyCredentialsRequest(username, password).params| == 5
    ensures BodyCredentialsRequest(username, password).params[3..]
      == [Param("client_id", ClientId), Param("client_secret", ClientSecret)]
    ensures BasicAuthRequest(username, password).params[0] == Param("grant_type", "password")
    ensures BasicAuthRequest(username, password).params[1] == Param("username", username)
    ensures BasicAuthRequest(username, password).params[2] == Param("password", password)
    ensures BasicAuthRequest(username, password).clientAuth.BasicHeader?
    ensures BodyCredentialsRequest(username, password).clientAuth == InBody
  {
  }

  /** The storage an exchange leaves behind: a granted token is written
      under the token key, when there is a window. */
  function StoreToken(entries: map<string, string>, outcome: TokenResponse, inBrowser: bool): (r: map<string, string>)
    ensures outcome.Granted? && inBrowser ==> TokenKey in r && r[TokenKey] == outcome.accessToken
    ensures outcome.Failed? || !inBrowser ==> r == entries
    ensures forall k :: k in entries && k != TokenKey ==> k in r && r[k] == entries[k]
  {
    if outcome.Granted? && inBrowser then entries[TokenKey := outcome.accessToken] else entries
  }

  function AsResult(outcome: TokenResponse): (r: Result<string, string>)
    ensures r.Ok? <==> outcome.Granted?
    ensures r.Ok? ==> r.value == outcome.accessToken
    ensures r.Err? ==> r.error == outcome.error
  {
    match outcome
    case Granted(token) => Ok(token)
    case Failed(error) => Err(error)
  }

  /** One exchange: sends `request`, stores and returns the granted token,
      or fails with the endpoint's error and writes nothing. */
  method Exchange(request: TokenRequest, endpoint: TokenRequest -> TokenResponse,
                  storage: LocalStorage, inBrowser: bool)
    returns (result: Result<string, string>)
    modifies storage
    ensures result == AsResult(endpoint(request))
    ensures storage.entries == StoreToken(old(storage.entries), endpoint(request), inBrowser)
  {
    var outcome := endpoint(request);
    if outcome.Failed? {
      return Err(outcome.error);
    }
    if inBrowser {
      storage.SetItem(TokenKey, outcome.accessToken);
    }
    result := Ok(outcome.accessToken);
  }

  method LoginWithBasicAuth(username: string, password: string, endpoint: TokenRequest -> TokenResponse,
                            storage: LocalStorage, inBrowser: bool)
    returns (result: Result<string, string>)
    modifies storage
    ensures result == AsResult(endpoint(BasicAuthRequest(username, password)))
    ensures storage.entries
      == StoreToken(old(storage.entries), endpoint(BasicAuthRequest(username, password)), inBrowser)
  {
    result := Exchange(BasicAuthRequest(username, password), endpoint, storage, inBrowser);
  }

  /** The error of the second exchange is rethrown to the caller. */
  method LoginWithCredentialsInBody(username: string, password: string, endpoint: TokenRequest -> TokenResponse,
                                    storage: LocalStorage, inBrowser: bool)
    returns (result: Result<string, string>)
    modifies storage
    ensures result == AsResult(endpoint(BodyCredentialsRequest(username, password)))
    ensures storage.entries
      == StoreToken(old(storage.entries), endpoint(BodyCredentialsRequest(username, password)), inBrowser)
  {
    result := Exchange(BodyCredentialsRequest(username, password), endpoint, storage, inBrowser);
  }

  /** The requests `login` sends: the body variant only after the Basic one failed. */
  function LoginAttempts(username: string, password: string, endpoint: TokenRequest -> TokenResponse): (sent: seq<TokenRequest>)
    ensures 1 <= |sent| <= 2 && sent[0] == BasicAuthRequest(username, password)
    ensures |sent| == 2 <==> endpoint(BasicAuthRequest(username, password)).Failed?
    ensures |sent| == 2 ==> sent[1] == BodyCredentialsRequest(username, password)
  {
    var basic := BasicAuthRequest(username, password);
    if endpoint(basic).Granted? then [basic] else [basic, BodyCredentialsRequest(username, password)]
  }

  /** login: Basic first, then the body credentials; the outcome of the last
      exchange sent decides the result and the stored token. */
  method Login(username: string, password: string, endpoint: TokenRequest -> TokenResponse,
               storage: LocalStorage, inBrowser: bool)
    returns (result: Result<string, string>, sent: seq<TokenRequest>)
    modifies storage
    ensures sent == LoginAttempts(username, password, endpoint)
    ensures result == AsResult(endpoint(sent[|sent| - 1]))
    ensures storage.entries == StoreToken(old(storage.entries), endpoint(sent[|sent| - 1]), inBrowser)
  {
    sent := [BasicAuthRequest(username, password)];
    result := LoginWithBasicAuth(username, password, endpoint, storage, inBrowser);
    if result.Err? {
      sent := sent + [BodyCredentialsRequest(username, password)];
      result := LoginWithCredentialsInBody(username, password, endpoint, storage, inBrowser);
    }
  }

  /** When both exchanges fail, the second error reaches the caller and the
      storage is as it was. */
  lemma LoginFailureKeepsStorage(username: string, password: string, endpoint: TokenRequest -> TokenResponse,
                                 entries: map<string, string>, inBrowser: bool)
    requires endpoint(BasicAuthRequest(username, password)).Failed?
    requires endpoint(BodyCredentialsRequest(username, password)).Failed?
    ensures var sent := LoginAttempts(username, password, endpoint);
      AsResult(endpoint(sent[|sent| - 1])) == Err(endpoint(BodyCredentialsRequest(username, password)).error) &&
      StoreToken(entries, endpoint(sent[|sent| - 1]), inBrowser) == entries
  {
  }

  /** The storage logout leaves: the token key gone, when there is a window. */
  function AfterLogout(entries: map<string, string>, inBrowser: bool): (r: map<string, string>)
    ensures inBrowser ==> TokenKey !in r
    ensures forall k :: k in entries && (k != TokenKey || !inBrowser) ==> k in r && r[k] == entries[k]
    ensures forall k :: k in r ==> k in entries
  {
    if inBrowser then entries - {TokenKey} else entries
  }

  lemma LogoutIdempotent(entries: map<string, string>, inBrowser: bool)
    ensures AfterLogout(AfterLogout(entries, inBrowser), inBrowser) == AfterLogout(entries, inBrowser)
  {
  }

  /** logout: drops the token and navigates to the login page. */
  method Logout(storage: LocalStorage, inBrowser: bool) returns (navigate: Option<string>)
    modifies storage
    ensures storage.entries == AfterLogout(old(storage.entries), inBrowser)
    ensures navigate == if inBrowser then Some(LoginPath) else None
  {
    navigate := None;
    if inBrowser {
      storage.RemoveItem(TokenKey);
      navigate := Some(LoginPath);
    }
  }

  /** getToken: null outside a browser, otherwise the stored token, if any. */
  function GetToken(storage: LocalStorage, inBrowser: bool): (token: Option<string>)
    reads storage
    ensures token.Some? <==> inBrowser && TokenKey in storage.entries
    ensures token.Some? ==> token.value == storage.entries[TokenKey]
  {
    if inBrowser then storage.GetItem(TokenKey) else None
  }

  /** isAuthenticated on a given token: false for a missing or empty token
      and for one whose payload does not decode to an `exp`; otherwise `exp`
      must lie after the current second, `Math.floor(now / 1000)`. */
  function TokenIsLive(token: Option<string>, decodeExp: string -> Option<int>, nowMillis: int): (r: bool)
    ensures r ==> token.Some? && token.value != "" && decodeExp(token.value).Some?
    ensures r ==> nowMillis < decodeExp(token.value).value * 1000
  {
    match token
    case None => false
    case Some(t) =>
      if t == "" then false
      else
        match decodeExp(t)
        case None => false
        case Some(exp) => exp > nowMillis / 1000
  }

  /** The token is live exactly while the clock, in milliseconds, is before
      `exp` seconds. */
  lemma {:induction false} LiveUntilExpiry(token: string, decodeExp: string -> Option<int>, nowMillis: int)
    requires token != "" && decodeExp(token).Some?
    ensures TokenIsLive(Some(token), decodeExp, nowMillis) <==> nowMillis < decodeExp(token).value * 1000
  {
    var exp := decodeExp(token).value;
    var q, r := nowMillis / 1000, nowMillis % 1000;
    assert nowMillis == q * 1000 + r && 0 <= r < 1000;
    if exp > q {
      assert exp * 1000 >= q * 1000 + 1000;
    } else {
      assert exp * 1000 <= q * 1000;
    }
  }

  /** Once expired, a token stays expired as time moves on. */
  lemma ExpiryIsFinal(token: Option<string>, decodeExp: string -> Option<int>, earlier: int, later: int)
    requires earlier <= later
    ensures TokenIsLive(token, decodeExp, later) ==> TokenIsLive(token, decodeExp, earlier)
  {
    if token.Some? && token.value != "" && decodeExp(token.value).Some? {
      LiveUntilExpiry(token.value, decodeExp, earlier);
      LiveUntilExpiry(token.value, decodeExp, later);
    }
  }

  /** isAuthenticated reads the token through getToken. */
  function IsAuthenticated(storage: LocalStorage, inBrowser: bool, decodeExp: string -> Option<int>, nowMillis: int): (r: bool)
    reads storage
    ensures r ==> inBrowser && TokenKey in storage.entries && storage.entries[TokenKey] != ""
    ensures r ==> decodeExp(storage.entries[TokenKey]).Some?
  {
    TokenIsLive(GetToken(storage, inBrowser), decodeExp, nowMillis)
  }

  // ---------------------------------------------------------------------
  // hasRole as written
  // ---------------------------------------------------------------------

  /** The JavaScript values `includes` compares: `roles` holds Role objects
      and the argument is a string. */
  datatype JsValue = JsString(text: string) | JsRole(role: Role)

  /** Array.prototype.includes: some element is the same value. */
  predicate Includes(values: seq<JsValue>, v: JsValue)
  {
    exists i :: 0 <= i < |values| && values[i] == v
  }

  /** hasRole as written: `user.roles.includes(role)` with a string role
      against an array of Role objects, which can never hold. */
  function HasRoleAsWritten(user: User, role: string): (r: bool)
    ensures !r
  {
    Includes(seq(|user.roles|, i requires 0 <= i < |user.roles| => JsRole(user.roles[i])), JsString(role))
  }

  /** An administrator is not recognised by the as-written test. */
  lemma AdminNotRecognisedAsWritten(user: User)
    requires |user.roles| == 1 && user.roles[0].authority == AdminRole
    ensures !HasRoleAsWritten(user, AdminRole)
  {
  }
}
