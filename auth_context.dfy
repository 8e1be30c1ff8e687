/**
 * `AuthProvider`: the signed-in admin (`user`) and the `loading` flag,
 * restored from storage on mount, set by `login`, cleared by `logout`;
 * and `useAuth`, which refuses to run outside a provider.
 */
module AuthContext {

  import opened Wrappers
  import opened Js
  import opened AdminCodec
  import opened AuthApi
  import Browser
  import Http
  import AxiosInstance

  /** What the mount effect makes of the stored session. */
  datatype Hydration =
    | Restored(admin: AdminProfile)
    | Anonymous
      /** `getAdmin` threw, so the effect stops before clearing `loading`. */
    | Crashed

  /**
   * The mount effect on storage `st`: the effect reads the token, then the
   * admin (whose parse may throw), and restores the admin only when both
   * are truthy.
   */
  function HydrationOf(st: map<string, string>): (h: Hydration)
    ensures h.Crashed? <==> GetAdmin(st).Unreadable?
    ensures h.Restored? <==> IsAuthenticated(st) && GetAdmin(st).Admin?
    ensures h.Restored? ==> Encode(h.admin) == st[ADMIN_KEY]
  {
    var token := GetToken(st);
    match GetAdmin(st)
    case Unreadable => Crashed
    case NoAdmin => Anonymous
    case Admin(a) => if token.Some? && token.value != "" then Restored(a) else Anonymous
  }

  /** What the context's `login` returns. */
  datatype LoginReply = LoggedIn | LoginFailed(error: JsValue)

  /** `useAuth()`: the context value, or the error thrown outside a provider. */
  datatype Hook<T> = Provided(value: T) | Throws(message: string)

  const OUTSIDE_PROVIDER := "useAuth must be used within AuthProvider"

  function UseAuth<T>(context: Option<T>): (r: Hook<T>)
    ensures r.Throws? <==> context.None?
    ensures r.Provided? ==> r.value == context.value
    ensures r.Throws? ==> r.message == OUTSIDE_PROVIDER
  {
    match context
    case None => Throws(OUTSIDE_PROVIDER)
    case Some(c) => Provided(c)
  }

  class AuthProvider {
    var user: Option<AdminProfile>
    var loading: bool

    /** The state before the mount effect: nobody, still loading. */
    constructor ()
      ensures user == None && loading
    {
      user := None;
      loading := true;
    }

    /** `isAuthenticated: !!user`: true exactly when an admin is signed in. */
    predicate IsAuthenticated(): (signedIn: bool)
      reads this
      ensures signedIn <==> user != None
    {
      user.Some?
    }

    /**
     * The mount effect: restores the stored admin when a token and an
     * admin are stored, and clears `loading` unless reading the admin
     * threw.  Storage is only read.
     */
    method Hydrate(w: Browser.Window)
      modifies this
      ensures HydrationOf(w.storage).Restored? ==> user == Some(HydrationOf(w.storage).admin) && !loading
      ensures HydrationOf(w.storage).Anonymous? ==> user == old(user) && !loading
      ensures HydrationOf(w.storage).Crashed? ==> user == old(user) && loading == old(loading)
      ensures IsAuthenticated() <==> HydrationOf(w.storage).Restored? || old(IsAuthenticated())
    {
      var token := w.GetItem(TOKEN_KEY);
      var admin := GetAdmin(w.storage);
      if admin.Unreadable? {
        return;
      }
      if token.Some? && token.value != "" && admin.Admin? {
        user := Some(admin.profile);
      }
      loading := false;
    }

    /**
     * `login(email, password)` once `authApi.login` has answered with
     * `result`: a success with a body stores the session and signs the
     * admin in; anything else changes nothing and passes the error on
     * (`undefined` for a success without a body).
     */
    method Login(w: Browser.Window, result: Http.Envelope<Option<Session>>) returns (reply: LoginReply)
      modifies this`user, w`storage
      ensures result.Success? && result.data.Some? ==>
        w.storage == StoreSession(old(w.storage), result.data.value)
        && user == Some(result.data.value.admin) && reply == LoggedIn
      ensures IsAuthenticated() <==> (result.Success? && result.data.Some?) || old(IsAuthenticated())
      ensures !(result.Success? && result.data.Some?) ==>
        w.storage == old(w.storage) && user == old(user)
        && reply == LoginFailed(if result.Failure? then result.error else Undefined)
    {
      if result.Success? && result.data.Some? {
        var session := result.data.value;
        w.SetItem(TOKEN_KEY, session.token);
        w.SetItem(ADMIN_KEY, Encode(session.admin));
        user := Some(session.admin);
        return LoggedIn;
      }
      reply := LoginFailed(if result.Failure? then result.error else Undefined);
    }

    /** `logout()`: `authApi.logout()`, then nobody is signed in. */
    method Logout(w: Browser.Window)
      modifies this`user, w`storage
      ensures w.storage == Cleared(old(w.storage))
      ensures user == None && !IsAuthenticated()
    {
      AuthApi.Logout(w);
      user := None;
    }
  }

  /** A reload after a login restores the same admin, provided the token is not empty. */
  lemma {:induction false} LoginThenReload(st: map<string, string>, s: Session)
    ensures HydrationOf(StoreSession(st, s)) == (if s.token != "" then Restored(s.admin) else Anonymous)
  {
    StoreSessionReadBack(st, s);
  }

  /** A reload after a logout restores nobody. */
  lemma LogoutThenReload(st: map<string, string>)
    ensures HydrationOf(Cleared(st)) == Anonymous
  {
  }

  /** A reload after a 401 restores nobody; it still throws if the stored admin is unreadable, since the 401 leaves it. */
  lemma UnauthorizedThenReload(st: map<string, string>)
    ensures HydrationOf(AxiosInstance.AfterUnauthorized(st))
      == (if GetAdmin(st).Unreadable? then Crashed else Anonymous)
  {
    AxiosInstance.UnauthorizedKeepsAdmin(st);
  }
}
