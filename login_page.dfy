/**
 * The login page's `handleLogin`, split at its one `await`: `StartLogin`
 * validates the form and issues the call, `FinishLogin` handles the
 * answer.  The page writes the session to storage itself and navigates;
 * it never goes through the auth context.
 */
module LoginPage {

  import opened Wrappers
  import opened Js
  import opened AdminCodec
  import opened AuthApi
  import Browser
  import Http

  const DASHBOARD_PATH := "/dashboard"

  /** The toasts the handler shows. */
  datatype Notice =
    | Required
    | Welcome(role: Option<string>)
    | InvalidCredentials(error: JsValue)
    | ServerError

  class Login {
    var email: string
    var password: string
    var loading: bool

    constructor ()
      ensures email == "" && password == "" && !loading
    {
      email := "";
      password := "";
      loading := false;
    }

    method SetEmail(value: string)
      modifies this`email
      ensures email == value
    {
      email := value;
    }

    method SetPassword(value: string)
      modifies this`password
      ensures password == value
    {
      password := value;
    }

    /**
     * Up to the call: an empty email or password stops with a toast and
     * no call; otherwise `loading` is set and `authApi.login` is called.
     */
    method StartLogin() returns (call: Option<Http.Request>, notice: Option<Notice>)
      modifies this`loading
      ensures email == "" || password == "" ==>
        call == None && notice == Some(Required) && loading == old(loading)
      ensures email != "" && password != "" ==>
        call == Some(LoginRequest(email, password)) && notice == None && loading
    {
      if email == "" || password == "" {
        return None, Some(Required);
      }
      loading := true;
      call := Some(LoginRequest(email, password));
      notice := None;
    }

    /**
     * After the call: a success stores the token and the encoded admin and
     * goes to the dashboard; a success without a body throws on the
     * destructuring and lands in the `catch`; a failure reports its error.
     * Only a stored session changes storage, and `loading` ends false on
     * every path.
     */
    method FinishLogin(w: Browser.Window, result: Http.Envelope<Option<Session>>)
      returns (nav: Option<string>, notice: Notice)
      modifies this`loading, w`storage
      ensures !loading
      ensures result.Success? && result.data.Some? ==>
        w.storage == StoreSession(old(w.storage), result.data.value)
        && nav == Some(DASHBOARD_PATH) && notice == Welcome(result.data.value.admin.role)
      ensures result.Success? && result.data.None? ==>
        w.storage == old(w.storage) && nav == None && notice == ServerError
      ensures result.Failure? ==>
        w.storage == old(w.storage) && nav == None && notice == InvalidCredentials(result.error)
    {
      nav := None;
      if result.Success? {
        if result.data.None? {
          notice := ServerError;
        } else {
          var session := result.data.value;
          w.SetItem(TOKEN_KEY, session.token);
          w.SetItem(ADMIN_KEY, Encode(session.admin));
          notice := Welcome(session.admin.role);
          nav := Some(DASHBOARD_PATH);
        }
      } else {
        notice := InvalidCredentials(result.error);
      }
      loading := false;
    }
  }
}
