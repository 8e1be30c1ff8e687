/**
 * The admin management page, open to super admins only.  It reads the
 * token and the stored admin while rendering, turns everyone else away,
 * lists the admins, creates new ones from a validated form, computes the
 * status an admin's toggle asks for, and deletes admins after
 * confirmation.  An admin cannot toggle or delete their own row.
 */
module AdminManagement {

  import opened Wrappers
  import opened Js
  import opened AdminCodec
  import opened AuthApi
  import Http
  import AppSidebar
  import AxiosInstance

  const LOGIN_PATH := "/login"
  const DASHBOARD_PATH := "/dashboard"
  const SUPER_ADMIN := "super-admin"

  /** What the page does with the session it finds. */
  datatype Gate =
    | Crashed         // the stored admin is not JSON: parsing it while rendering throws
    | RedirectLogin   // no token, or no stored admin
    | AccessDenied    // an admin without the super-admin role: a toast, then the dashboard
    | Granted

  /**
   * `currentAdmin` is `JSON.parse(storedAdmin)` when the entry is
   * non-empty, `null` otherwise; the effect sends a visitor without a token
   * or an admin to the login page and a non-super-admin to the dashboard.
   */
  function GateOf(st: map<string, string>): (g: Gate)
    ensures g == Crashed <==> GetAdmin(st).Unreadable?
    ensures g == RedirectLogin <==> !GetAdmin(st).Unreadable? && (!IsAuthenticated(st) || GetAdmin(st).NoAdmin?)
    ensures g == Granted <==> IsAuthenticated(st) && GetAdmin(st).Admin? && GetAdmin(st).profile.role == Some(SUPER_ADMIN)
  {
    match GetAdmin(st)
    case Unreadable => Crashed
    case NoAdmin => RedirectLogin
    case Admin(a) =>
      if !IsAuthenticated(st) then RedirectLogin
      else if a.role != Some(SUPER_ADMIN) then AccessDenied
      else Granted
  }

  /** Where the access effect navigates. */
  function GateNavigation(g: Gate): (nav: Option<string>)
    ensures nav.Some? <==> g == RedirectLogin || g == AccessDenied
    ensures g == RedirectLogin ==> nav == Some(LOGIN_PATH)
    ensures g == AccessDenied ==> nav == Some(DASHBOARD_PATH)
  {
    match g
    case RedirectLogin => Some(LOGIN_PATH)
    case AccessDenied => Some(DASHBOARD_PATH)
    case _ => None
  }

  /** The mount effect's condition: `token && currentAdmin?.role === "super-admin"`. */
  predicate ShouldFetch(st: map<string, string>) {
    IsAuthenticated(st) && GetAdmin(st).Admin? && GetAdmin(st).profile.role == Some(SUPER_ADMIN)
  }

  /**
   * The admins are fetched exactly when the page is granted, and the page
   * is granted exactly when the sidebar shows its link to a signed-in admin.
   */
  lemma GateAgreement(st: map<string, string>)
    ensures ShouldFetch(st) <==> GateOf(st) == Granted
    ensures GateOf(st) == Granted <==> IsAuthenticated(st) && AppSidebar.ShowsAdminSection(AppSidebar.StoredAdmin(st))
  {
  }

  /**
   * A super admin who has just signed in with a token is granted; after
   * any of the three sign-out paths the page sends the visitor to the
   * login page, even though two of them keep the stored admin.
   */
  lemma GateAfterSessionChanges(st: map<string, string>, s: Session)
    ensures s.token != "" && s.admin.role == Some(SUPER_ADMIN) ==> GateOf(StoreSession(st, s)) == Granted
    ensures GateOf(Cleared(st)) == RedirectLogin
    ensures !GetAdmin(st).Unreadable? ==> GateOf(AppSidebar.WithoutToken(st)) == RedirectLogin
    ensures !GetAdmin(st).Unreadable? ==> GateOf(AxiosInstance.AfterUnauthorized(st)) == RedirectLogin
  {
    StoreSessionReadBack(st, s);
    assert GetAdmin(AppSidebar.WithoutToken(st)) == GetAdmin(st);
    assert GetAdmin(AxiosInstance.AfterUnauthorized(st)) == GetAdmin(st);
  }

  /** The create form. */
  datatype AdminForm = AdminForm(name: string, email: string, password: string, role: string)

  const EMPTY_FORM := AdminForm("", "", "", "admin")

  /** `!form.name || !form.email || !form.password` fails validation. */
  predicate FormValid(f: AdminForm) {
    f.name != "" && f.email != "" && f.password != ""
  }

  /** The form as the request body `adminApi.create(form)` sends. */
  function FormBody(f: AdminForm): (body: Object)
    ensures body.Keys == {"name", "email", "password", "role"}
    ensures body["name"] == Str(f.name) && body["email"] == Str(f.email)
    ensures body["password"] == Str(f.password) && body["role"] == Str(f.role)
  {
    map["name" := Str(f.name), "email" := Str(f.email), "password" := Str(f.password), "role" := Str(f.role)]
  }

  /** The `adminApi` calls the page makes. */
  datatype AdminCall = ListAdmins | CreateAdmin(body: Object) | DeleteAdmin(id: JsValue)

  /** `admin.status === "active" ? "disabled" : "active"`. */
  function NewStatus(status: JsValue): (r: string)
    ensures r == "disabled" <==> status == Str("active")
    ensures r == "active" <==> status != Str("active")
  {
    if status == Str("active") then "disabled" else "active"
  }

  /** The toggle's label: `Disable` for an active admin, `Enable` otherwise. */
  function ToggleLabel(status: JsValue): string {
    if status == Str("active") then "Disable" else "Enable"
  }

  /**
   * The toggle asks for the status its label names, and toggling twice
   * leads back: `active` and `disabled` swap, and every other status asks
   * for `active`.
   */
  lemma NewStatusSpec(status: JsValue)
    ensures ToggleLabel(status) == "Disable" <==> NewStatus(status) == "disabled"
    ensures NewStatus(Str(NewStatus(status))) == if status == Str("active") then "active" else "disabled"
    ensures status == Str("active") || status == Str("disabled") ==> Str(NewStatus(Str(NewStatus(status)))) == status
  {
  }

  /** `currentAdmin?.id`: `undefined` without an admin, `null` for an admin stored without an id. */
  function CurrentId(current: AdminRead): JsValue {
    match current
    case Admin(a) => if a.id.Some? then Str(a.id.value) else Null
    case _ => Undefined
  }

  /** The current admin's own row: `currentAdmin?.id === a._id`. */
  predicate IsOwnRow(current: AdminRead, row: Object) {
    CurrentId(current) == Prop(row, "_id")
  }

  /** The toggle is disabled on one's own row. */
  predicate ToggleDisabled(current: AdminRead, row: Object) {
    IsOwnRow(current, row)
  }

  /** The delete button shows on every other row. */
  predicate ShowsDelete(current: AdminRead, row: Object) {
    !IsOwnRow(current, row)
  }

  /**
   * A signed-in admin with an id sees their own row without a delete
   * button and with the toggle disabled, and every row with another id
   * with both; every row either offers delete or is the admin's own.
   */
  lemma OwnRowRules(a: AdminProfile, row: Object)
    requires a.id.Some?
    ensures Prop(row, "_id") == Str(a.id.value) ==> ToggleDisabled(Admin(a), row) && !ShowsDelete(Admin(a), row)
    ensures Prop(row, "_id") != Str(a.id.value) ==> !ToggleDisabled(Admin(a), row) && ShowsDelete(Admin(a), row)
    ensures ShowsDelete(Admin(a), row) != ToggleDisabled(Admin(a), row)
  {
  }

  class AdminManagementPage {
    var admins: seq<Object>
    var loading: bool
    var form: AdminForm

    constructor ()
      ensures admins == [] && !loading && form == EMPTY_FORM
    {
      admins := [];
      loading := false;
      form := EMPTY_FORM;
    }

    /**
     * `fetchAdmins` once `adminApi.getAll` has answered (`None` for a
     * falsy body): a success stores the list, or `[]`; a failure keeps the
     * list.  `loading` ends false.
     */
    method FetchAdmins(result: Http.Envelope<Option<seq<Object>>>) returns (call: AdminCall)
      modifies this`admins, this`loading
      ensures call == ListAdmins && !loading
      ensures result.Success? ==> admins == result.data.GetOr([])
      ensures result.Failure? ==> admins == old(admins)
    {
      loading := true;
      call := ListAdmins;
      if result.Success? {
        admins := if result.data.Some? then result.data.value else [];
      }
      loading := false;
    }

    /**
     * `handleCreateAdmin`: an incomplete form makes no call and changes
     * nothing.  Otherwise the form is sent; on success it is reset and the
     * list fetched again, on failure both stay.  `loading` ends false.
     */
    method HandleCreate(result: Http.Envelope<JsValue>, refetch: Http.Envelope<Option<seq<Object>>>)
      returns (calls: seq<AdminCall>)
      modifies this`form, this`admins, this`loading
      ensures !FormValid(old(form)) ==>
        calls == [] && form == old(form) && admins == old(admins) && loading == old(loading)
      ensures FormValid(old(form)) ==> |calls| >= 1 && calls[0] == CreateAdmin(FormBody(old(form))) && !loading
      ensures FormValid(old(form)) && result.Success? ==>
        form == EMPTY_FORM && calls == [CreateAdmin(FormBody(old(form))), ListAdmins]
        && (refetch.Success? ==> admins == refetch.data.GetOr([]))
        && (refetch.Failure? ==> admins == old(admins))
      ensures FormValid(old(form)) && result.Failure? ==>
        form == old(form) && admins == old(admins) && calls == [CreateAdmin(FormBody(old(form)))]
    {
      if !FormValid(form) {
        return [];
      }
      loading := true;
      calls := [CreateAdmin(FormBody(form))];
      if result.Success? {
        form := EMPTY_FORM;
        var list := FetchAdmins(refetch);
        calls := calls + [list];
      }
      loading := false;
    }

    /**
     * `handleDeleteAdmin(admin)`: without confirmation nothing is called;
     * with it the admin is deleted by `_id`, and a success fetches the list
     * again.
     */
    method HandleDelete(row: Object, confirmed: bool, result: Http.Envelope<JsValue>,
                        refetch: Http.Envelope<Option<seq<Object>>>)
      returns (calls: seq<AdminCall>)
      modifies this`admins, this`loading
      ensures !confirmed ==> calls == [] && admins == old(admins) && loading == old(loading)
      ensures confirmed && result.Failure? ==>
        calls == [DeleteAdmin(Prop(row, "_id"))] && admins == old(admins) && loading == old(loading)
      ensures confirmed && result.Success? ==>
        calls == [DeleteAdmin(Prop(row, "_id")), ListAdmins] && !loading
        && (refetch.Success? ==> admins == refetch.data.GetOr([]))
        && (refetch.Failure? ==> admins == old(admins))
    {
      if !confirmed {
        return [];
      }
      calls := [DeleteAdmin(Prop(row, "_id"))];
      if result.Success? {
        var list := FetchAdmins(refetch);
        calls := calls + [list];
      }
    }
  }
}
