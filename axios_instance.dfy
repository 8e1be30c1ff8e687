/**
 * The two interceptors every API call passes through: the request one adds
 * the bearer token from storage, the response one lets responses through
 * and, on a 401, clears the token and sends the browser to `/login` before
 * rejecting with the same error.
 */
module AxiosInstance {

  import opened Wrappers
  import opened AuthApi
  import Browser
  import Http

  const AUTHORIZATION := "Authorization"
  const LOGIN_PATH := "/login"

  /** A request as the interceptor sees it: the call and its headers. */
  datatype Config = Config(request: Http.Request, headers: map<string, string>)

  /** The headers after the request interceptor: `Bearer <token>` added exactly when a non-empty token is stored. */
  function AuthorizedHeaders(st: map<string, string>, headers: map<string, string>): (r: map<string, string>)
    ensures IsAuthenticated(st) ==> r == headers[AUTHORIZATION := "Bearer " + st[TOKEN_KEY]]
    ensures !IsAuthenticated(st) ==> r == headers
  {
    var token := GetToken(st);
    if token.Some? && token.value != "" then headers[AUTHORIZATION := "Bearer " + token.value] else headers
  }

  /** The request interceptor: reads the token and sets the header in place; storage is only read. */
  method OnRequest(w: Browser.Window, config: Config) returns (out: Config)
    ensures out.request == config.request
    ensures out.headers == AuthorizedHeaders(w.storage, config.headers)
  {
    out := config;
    var token := w.GetItem(TOKEN_KEY);
    if token.Some? && token.value != "" {
      out := out.(headers := out.headers[AUTHORIZATION := "Bearer " + token.value]);
    }
  }

  /** `error.response?.status === 401`. */
  predicate IsUnauthorized<T>(o: Http.Outcome<T>) {
    o.Rejected? && o.error.response.Some? && o.error.response.value.status == 401
  }

  /** The storage a 401 leaves: `token` and `user` removed, everything else, `admin` included, kept. */
  function AfterUnauthorized(st: map<string, string>): (r: map<string, string>)
    ensures TOKEN_KEY !in r && USER_KEY !in r
    ensures forall k :: k in r <==> k in st && k != TOKEN_KEY && k != USER_KEY
    ensures forall k :: k in r ==> r[k] == st[k]
  {
    st - {TOKEN_KEY, USER_KEY}
  }

  /**
   * The response interceptor: a response or a non-401 error (a network
   * error included) changes nothing; a 401 clears `token` and `user` and
   * assigns `/login` to the location.  Either way the outcome is passed on
   * unchanged: the same response, or a rejection with the same error.
   */
  method OnResponse<T>(w: Browser.Window, o: Http.Outcome<T>) returns (r: Http.Outcome<T>)
    modifies w`storage, w`href
    ensures r == o
    ensures IsUnauthorized(o) ==> w.storage == AfterUnauthorized(old(w.storage)) && w.href == LOGIN_PATH
    ensures !IsUnauthorized(o) ==> w.storage == old(w.storage) && w.href == old(w.href)
  {
    if IsUnauthorized(o) {
      w.RemoveItem(TOKEN_KEY);
      w.RemoveItem(USER_KEY);
      w.Assign(LOGIN_PATH);
    }
    r := o;
  }

  /** A 401 signs the client out but leaves the stored admin readable as before. */
  lemma UnauthorizedKeepsAdmin(st: map<string, string>)
    ensures !IsAuthenticated(AfterUnauthorized(st))
    ensures GetAdmin(AfterUnauthorized(st)) == GetAdmin(st)
  {
  }

  /** What a 401 clears is a part of what `logout` clears. */
  lemma UnauthorizedThenLogout(st: map<string, string>)
    ensures Cleared(AfterUnauthorized(st)) == Cleared(st)
  {
  }

  /** After a login the token goes out on every request. */
  lemma {:induction false} BearerAfterLogin(st: map<string, string>, s: Session, headers: map<string, string>)
    requires s.token != ""
    ensures AuthorizedHeaders(StoreSession(st, s), headers) == headers[AUTHORIZATION := "Bearer " + s.token]
  {
    StoreSessionReadBack(st, s);
  }

  /** After a logout or a 401 requests go out with their headers unchanged. */
  lemma NoBearerAfterClearing(st: map<string, string>, headers: map<string, string>)
    ensures AuthorizedHeaders(Cleared(st), headers) == headers
    ensures AuthorizedHeaders(AfterUnauthorized(st), headers) == headers
  {
  }
}
