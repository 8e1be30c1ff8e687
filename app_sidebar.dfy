/**
 * The sidebar: its fixed navigation, the header showing the stored admin,
 * the super-admin-only link, the active/inactive link styling, and its own
 * logout, which removes only the token.
 */
module AppSidebar {

  import opened Wrappers
  import opened AdminCodec
  import opened AuthApi
  import Browser
  import Router
  import AuthContext

  const LOGIN_PATH := "/login"
  const ADMIN_MANAGEMENT_PATH := "/admin-management"
  const SUPER_ADMIN := "super-admin"

  datatype NavItem = NavItem(title: string, to: string)
  datatype NavSection = NavSection(heading: string, items: seq<NavItem>)

  const NAV_SECTIONS: seq<NavSection> := [
    NavSection("Overview", [
      NavItem("Dashboard", "/dashboard"),
      NavItem("Customers", "/customer"),
      NavItem("Bookings", "/booking"),
      NavItem("Subscriptions", "/subscription"),
      NavItem("Vendors", "/vendor")
    ])
  ]

  /** One section of five links, in this order, each to a protected route; the Subscriptions link renders the plans page. */
  lemma NavTargets()
    ensures |NAV_SECTIONS| == 1 && |NAV_SECTIONS[0].items| == 5
    ensures forall i :: 0 <= i < 5 ==>
      NAV_SECTIONS[0].items[i].title == ["Dashboard", "Customers", "Bookings", "Subscriptions", "Vendors"][i]
    ensures forall item :: item in NAV_SECTIONS[0].items ==> Router.Resolve(item.to).access == Router.Protected
    ensures Router.Resolve(ADMIN_MANAGEMENT_PATH) == Router.Route(Router.Protected, Router.AdminManagementView)
    ensures Router.Resolve(NAV_SECTIONS[0].items[3].to).page == Router.AdminPlansView
  {
  }

  /**
   * `JSON.parse(localStorage.getItem("admin"))`: a missing entry parses as
   * `null`; unlike `getAdmin`, an empty entry is parsed too, and throws.
   */
  function StoredAdmin(st: map<string, string>): (r: AdminRead)
    ensures ADMIN_KEY !in st ==> r == NoAdmin
    ensures ADMIN_KEY in st && st[ADMIN_KEY] == "" ==> r == Unreadable
    ensures ADMIN_KEY in st && st[ADMIN_KEY] != "" ==> r == GetAdmin(st)
  {
    if ADMIN_KEY !in st then NoAdmin
    else
      match Decode(st[ADMIN_KEY])
      case Some(a) => Admin(a)
      case None => Unreadable
  }

  /** `admin?.role === "super-admin"`. */
  predicate ShowsAdminSection(admin: AdminRead) {
    admin.Admin? && admin.profile.role == Some(SUPER_ADMIN)
  }

  /** The admin-management link shows exactly for an admin stored with the role `super-admin`. */
  lemma {:induction false} AdminSectionAfterLogin(st: map<string, string>, s: Session)
    ensures ShowsAdminSection(StoredAdmin(StoreSession(st, s))) <==> s.admin.role == Some(SUPER_ADMIN)
  {
    StoreSessionReadBack(st, s);
    EncodeNonEmpty(s.admin);
  }

  /** `v || fallback` on an optional string field. */
  function OrDefault(f: Option<string>, fallback: string): (r: string)
    ensures f.Some? && f.value != "" ==> r == f.value
    ensures !(f.Some? && f.value != "") ==> r == fallback
  {
    if f.Some? && f.value != "" then f.value else fallback
  }

  /** `admin?.name || "Administrator"`: never blank. */
  function HeaderName(admin: AdminRead): (r: string)
    ensures r != ""
    ensures admin.Admin? && admin.profile.name.Some? && admin.profile.name.value != "" ==>
      r == admin.profile.name.value
    ensures !(admin.Admin? && admin.profile.name.Some? && admin.profile.name.value != "") ==>
      r == "Administrator"
  {
    OrDefault(if admin.Admin? then admin.profile.name else None, "Administrator")
  }

  /** `admin?.role || "admin"`: never blank. */
  function HeaderRole(admin: AdminRead): (r: string)
    ensures r != ""
    ensures admin.Admin? && admin.profile.role.Some? && admin.profile.role.value != "" ==>
      r == admin.profile.role.value
    ensures !(admin.Admin? && admin.profile.role.Some? && admin.profile.role.value != "") ==>
      r == "admin"
  {
    OrDefault(if admin.Admin? then admin.profile.role else None, "admin")
  }

  const BASE_NAV := "group relative flex items-center gap-3 px-3 py-2 rounded-2xl transition-all duration-200"
  const ACTIVE_NAV := "text-white bg-white/10 backdrop-blur border border-white/30 shadow-lg shadow-cyan-500/20"
  const INACTIVE_NAV := "text-white/60 hover:text-white hover:bg-white/5 border border-transparent"

  /** `clsx(base, isActive ? active : inactive)`. */
  function NavClasses(isActive: bool): string {
    BASE_NAV + " " + (if isActive then ACTIVE_NAV else INACTIVE_NAV)
  }

  /** The classes start with the base set and tell the active link from the others. */
  lemma NavClassesSpec(isActive: bool)
    ensures BASE_NAV + " " <= NavClasses(isActive)
    ensures NavClasses(isActive) == NavClasses(true) <==> isActive
  {
    assert |NavClasses(true)| != |NavClasses(false)|;
  }

  /** The storage the sidebar logout leaves: only the token removed. */
  function WithoutToken(st: map<string, string>): (r: map<string, string>)
    ensures TOKEN_KEY !in r
    ensures forall k :: k in r <==> k in st && k != TOKEN_KEY
    ensures forall k :: k in r ==> r[k] == st[k]
  {
    st - {TOKEN_KEY}
  }

  /** `handleLogout`: remove the token and go to `/login`. */
  method HandleLogout(w: Browser.Window) returns (nav: string)
    modifies w`storage
    ensures w.storage == WithoutToken(old(w.storage))
    ensures nav == LOGIN_PATH
  {
    w.RemoveItem(TOKEN_KEY);
    nav := LOGIN_PATH;
  }

  /**
   * After the sidebar logout nobody is authenticated, but the admin stays
   * stored: the header and the admin link still show it, a reload restores
   * nobody, and a later `logout` clears the rest.
   */
  lemma SidebarLogoutKeepsAdmin(st: map<string, string>)
    ensures !IsAuthenticated(WithoutToken(st))
    ensures StoredAdmin(WithoutToken(st)) == StoredAdmin(st)
    ensures !AuthContext.HydrationOf(WithoutToken(st)).Restored?
    ensures Cleared(WithoutToken(st)) == Cleared(st)
  {
  }
}
