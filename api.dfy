/** The axios interceptors of frontend/src/lib/api.ts: the request
    interceptor attaches the stored token, the response interceptor turns a
    401 outside the token endpoint into a forced logout. */
module ApiClient {
  import opened Common
  import opened Browser
  import opened AuthLib

  const AuthorizationHeader: string := "Authorization"
  const TokenEndpointPath: string := "/oauth2/token"
  const BearerScheme: string := "Bearer "

  /** The part of an axios request config the interceptor touches. */
  class RequestConfig {
    var url: Option<string>
    var headers: map<string, string>

    constructor (url: Option<string>, headers: map<string, string>)
      ensures this.url == url && this.headers == headers
    {
      this.url := url;
      this.headers := headers;
    }
  }

  /** The header section 2.1 of RFC 6750 asks for: `Bearer` and the token. */
  function BearerAuthorization(token: string): (value: string)
    ensures BearerScheme <= value && value[|BearerScheme|..] == token
  {
    BearerScheme + token
  }

  /** The bearer value can be read back into the token, so distinct tokens
      give distinct headers. */
  lemma BearerInjective(a: string, b: string)
    ensures BearerAuthorization(a) == BearerAuthorization(b) ==> a == b
  {
    if BearerAuthorization(a) == BearerAuthorization(b) {
      assert a == BearerAuthorization(a)[|BearerScheme|..];
    }
  }

  /** The headers a request leaves the interceptor with: the token is attached
      only in a browser and only when it is a non-empty string. */
  function HeadersWithToken(headers: map<string, string>, token: Option<string>, inBrowser: bool): (r: map<string, string>)
    ensures inBrowser && token.Some? && token.value != "" ==>
      r == headers[AuthorizationHeader := BearerAuthorization(token.value)]
    ensures !inBrowser || token.None? || token == Some("") ==> r == headers
  {
    if inBrowser && token.Some? && token.value != "" then
      headers[AuthorizationHeader := BearerAuthorization(token.value)]
    else headers
  }

  /** The headers as written: in a browser a non-empty stored token becomes
      the whole Authorization value, with no scheme in front of it. */
  function HeadersAsWritten(headers: map<string, string>, token: Option<string>, inBrowser: bool): (r: map<string, string>)
    ensures inBrowser && token.Some? && token.value != "" ==>
      r == headers[AuthorizationHeader := token.value]
    ensures !inBrowser || token.None? || token == Some("") ==> r == headers
  {
    if inBrowser && token.Some? && token.value != "" then headers[AuthorizationHeader := token.value]
    else headers
  }

  /** A bare access token, as the token endpoint returns and auth.ts stores,
      is sent without the scheme a resource server expects; the corrected
      headers carry it. */
  lemma BareTokenLacksScheme(headers: map<string, string>, token: string)
    requires |token| > 0 && token[0] != 'B'
    ensures !(BearerScheme <= HeadersAsWritten(headers, Some(token), true)[AuthorizationHeader])
    ensures BearerScheme <= HeadersWithToken(headers, Some(token), true)[AuthorizationHeader]
  {
    assert HeadersAsWritten(headers, Some(token), true)[AuthorizationHeader][0] != BearerScheme[0];
  }

  /** The request interceptor. */
  method OnRequest(config: RequestConfig, storage: LocalStorage, inBrowser: bool)
    modifies config
    ensures config.url == old(config.url)
    ensures config.headers
      == HeadersWithToken(old(config.headers), if inBrowser then storage.GetItem(TokenKey) else None, inBrowser)
  {
    if inBrowser {
      var token := storage.GetItem(TokenKey);
      if token.Some? && token.value != "" {
        config.headers := config.headers[AuthorizationHeader := BearerAuthorization(token.value)];
      }
    }
  }

  /** A failed call as the response interceptor sees it: the response status,
      if there was a response, and the request URL, if any. */
  datatype HttpError = HttpError(status: Option<int>, url: Option<string>)

  /** `error.response?.status === 401 && !error.config.url?.includes('/oauth2/token')`;
      a missing URL does not protect the call. */
  function ForcesLogout(error: HttpError): (r: bool)
    ensures r ==> error.status == Some(401)
    ensures error.url.Some? && Contains(error.url.value, TokenEndpointPath) ==> !r
    ensures error.status == Some(401) && error.url.None? ==> r
  {
    error.status == Some(401) && !(error.url.Some? && Contains(error.url.value, TokenEndpointPath))
  }

  /** The storage a failed call leaves behind. */
  function StorageAfterError(entries: map<string, string>, error: HttpError, inBrowser: bool): (r: map<string, string>)
    ensures ForcesLogout(error) && inBrowser ==> r == entries - {TokenKey}
    ensures !ForcesLogout(error) || !inBrowser ==> r == entries
  {
    if ForcesLogout(error) && inBrowser then entries - {TokenKey} else entries
  }

  /** A 401 from the token endpoint itself leaves the storage alone. */
  lemma TokenEndpointFailureKeepsStorage(entries: map<string, string>, url: string, inBrowser: bool)
    requires Contains(url, TokenEndpointPath)
    ensures StorageAfterError(entries, HttpError(Some(401), Some(url)), inBrowser) == entries
  {
  }

  /** An error other than 401, or a network error without a response, leaves it alone. */
  lemma OtherErrorsKeepStorage(entries: map<string, string>, error: HttpError, inBrowser: bool)
    requires error.status != Some(401)
    ensures StorageAfterError(entries, error, inBrowser) == entries
  {
  }

  /** A 401 on an ordinary call drops the token. */
  lemma UnauthorisedDropsToken(entries: map<string, string>, url: string)
    requires !Contains(url, TokenEndpointPath)
    ensures TokenKey !in StorageAfterError(entries, HttpError(Some(401), Some(url)), true)
  {
  }

  /** The response interceptor's error branch: clears the session if needed
      and rejects with the very same error. */
  method OnResponseError(error: HttpError, storage: LocalStorage, inBrowser: bool)
    returns (rejected: HttpError, navigate: Option<string>)
    modifies storage
    ensures rejected == error
    ensures storage.entries == StorageAfterError(old(storage.entries), error, inBrowser)
    ensures navigate == if ForcesLogout(error) && inBrowser then Some(LoginPath) else None
  {
    navigate := None;
    if ForcesLogout(error) && inBrowser {
      storage.RemoveItem(TokenKey);
      navigate := Some(LoginPath);
    }
    rejected := error;
  }
}
