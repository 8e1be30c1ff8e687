/**
 * The application's route table: two public paths rendering the login
 * page, seven paths under the protected layout, and a catch-all rendering
 * the not-found page.  Paths match exactly.
 */
module Router {

  import opened Wrappers

  datatype Page =
    | LoginView
    | DashboardView
    | CustomerView
    | BookingView
    | VendorView
    | SubscriptionView
    | AdminPlansView
    | AdminManagementView
    | NotFoundView

  datatype Access = Public | Protected | Fallback

  datatype Route = Route(access: Access, page: Page)

  const PUBLIC_ROUTES: seq<(string, Page)> := [("/", LoginView), ("/login", LoginView)]

  const PROTECTED_ROUTES: seq<(string, Page)> := [
    ("/dashboard", DashboardView),
    ("/customer", CustomerView),
    ("/booking", BookingView),
    ("/vendor", VendorView),
    ("/subscription", AdminPlansView),
    ("/plans", AdminPlansView),
    ("/admin-management", AdminManagementView)
  ]

  /** The page a table gives a path, if the path is in it. */
  function Lookup(table: seq<(string, Page)>, path: string): (r: Option<Page>)
    ensures r.None? <==> forall i :: 0 <= i < |table| ==> table[i].0 != path
    ensures r.Some? ==> exists i :: 0 <= i < |table| && table[i] == (path, r.value)
  {
    if table == [] then None
    else if table[0].0 == path then Some(table[0].1)
    else
      var r := Lookup(table[1..], path);
      assert forall i :: 0 <= i < |table[1..]| ==> table[1..][i] == table[i + 1];
      r
  }

  /** The route a path resolves to. */
  function Resolve(path: string): Route {
    match Lookup(PUBLIC_ROUTES, path)
    case Some(p) => Route(Public, p)
    case None =>
      match Lookup(PROTECTED_ROUTES, path)
      case Some(p) => Route(Protected, p)
      case None => Route(Fallback, NotFoundView)
  }

  predicate IsProtectedPath(path: string) {
    exists i :: 0 <= i < |PROTECTED_ROUTES| && PROTECTED_ROUTES[i].0 == path
  }

  /**
   * Every path falls in exactly one class: public paths render the login
   * page without protection, the seven protected paths render under the
   * protected layout, and every other path renders the not-found page.
   */
  lemma ResolveClasses(path: string)
    ensures Resolve(path).access == Public <==> path == "/" || path == "/login"
    ensures Resolve(path).access == Protected <==> IsProtectedPath(path)
    ensures Resolve(path).access == Fallback <==> !(path == "/" || path == "/login") && !IsProtectedPath(path)
    ensures Resolve(path).access == Public ==> Resolve(path).page == LoginView
    ensures Resolve(path).access == Fallback ==> Resolve(path).page == NotFoundView
  {
    if Lookup(PUBLIC_ROUTES, path).None? {
      assert PUBLIC_ROUTES[0].0 != path && PUBLIC_ROUTES[1].0 != path;
    }
  }

  /** No route renders the subscription page: `/subscription` renders the plans page. */
  lemma {:induction false} SubscriptionUnreachable(path: string)
    ensures Resolve(path).page != SubscriptionView
    ensures Resolve("/subscription") == Route(Protected, AdminPlansView)
    ensures Resolve("/plans") == Route(Protected, AdminPlansView)
  {
    var pub := Lookup(PUBLIC_ROUTES, path);
    var prot := Lookup(PROTECTED_ROUTES, path);
    if pub.Some? {
      var i :| 0 <= i < |PUBLIC_ROUTES| && PUBLIC_ROUTES[i] == (path, pub.value);
    } else if prot.Some? {
      var i :| 0 <= i < |PROTECTED_ROUTES| && PROTECTED_ROUTES[i] == (path, prot.value);
    }
  }
}
