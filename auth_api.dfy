/**
 * `authApi`: the session kept in `localStorage` under `token` and `admin`
 * (plus a legacy `user` key that only the clearing paths touch), its
 * readers, the logout that clears it, and the login/register calls.
 */
module AuthApi {

  import opened Wrappers
  import opened Js
  import opened AdminCodec
  import Browser
  import Http

  const TOKEN_KEY := "token"
  const ADMIN_KEY := "admin"
  const USER_KEY := "user"

  /** What a successful login returns: the bearer token and the signed-in admin. */
  datatype Session = Session(token: string, admin: AdminProfile)

  /** What `getAdmin` gives: `null`, the parsed admin, or a `JSON.parse` exception. */
  datatype AdminRead = NoAdmin | Admin(profile: AdminProfile) | Unreadable

  /** The request `login` sends. */
  function LoginRequest(email: string, password: string): (r: Http.Request)
    ensures r.verb == Http.Post && r.url == "/api/admin/login" && r.body.Some? && r.body.value.Obj?
    ensures r.body.value.fields.Keys == {"email", "password"}
    ensures r.body.value.fields["email"] == Str(email) && r.body.value.fields["password"] == Str(password)
  {
    Http.Request(Http.Post, "/api/admin/login",
      Some(Obj(map["email" := Str(email), "password" := Str(password)])))
  }

  /** The request `register` sends: the admin data as the body. */
  function RegisterRequest(adminData: JsValue): (r: Http.Request)
    ensures r.verb == Http.Post && r.url == "/api/admin/register" && r.body == Some(adminData)
  {
    Http.Request(Http.Post, "/api/admin/register", Some(adminData))
  }

  /** The storage `logout` leaves: the three session keys removed. */
  function Cleared(st: map<string, string>): (r: map<string, string>)
    ensures TOKEN_KEY !in r && ADMIN_KEY !in r && USER_KEY !in r
    ensures forall k :: k in r <==> k in st && k != TOKEN_KEY && k != ADMIN_KEY && k != USER_KEY
    ensures forall k :: k in r ==> r[k] == st[k]
  {
    st - {TOKEN_KEY, ADMIN_KEY, USER_KEY}
  }

  /** Logging out a second time changes nothing. */
  lemma ClearedIdempotent(st: map<string, string>)
    ensures Cleared(Cleared(st)) == Cleared(st)
  {
  }

  /** `logout()`: removes `token`, `admin` and `user`, one key at a time. */
  method Logout(w: Browser.Window)
    modifies w`storage
    ensures w.storage == Cleared(old(w.storage))
  {
    w.RemoveItem(TOKEN_KEY);
    w.RemoveItem(ADMIN_KEY);
    w.RemoveItem(USER_KEY);
  }

  /** `getToken()`: the stored token, `null` when there is none. */
  function GetToken(st: map<string, string>): (r: Option<string>)
    ensures r.None? <==> TOKEN_KEY !in st
    ensures r.Some? ==> r.value == st[TOKEN_KEY]
  {
    if TOKEN_KEY in st then Some(st[TOKEN_KEY]) else None
  }

  /**
   * `getAdmin()`: `null` for a missing or empty entry, otherwise `JSON.parse`
   * of it: the decoded admin, or the exception when the text does not parse.
   */
  function GetAdmin(st: map<string, string>): (r: AdminRead)
    ensures r.NoAdmin? <==> ADMIN_KEY !in st || st[ADMIN_KEY] == ""
    ensures r.Unreadable? <==> ADMIN_KEY in st && st[ADMIN_KEY] != "" && Decode(st[ADMIN_KEY]).None?
    ensures r.Admin? ==> Decode(st[ADMIN_KEY]) == Some(r.profile) && Encode(r.profile) == st[ADMIN_KEY]
    ensures forall a :: ADMIN_KEY in st && st[ADMIN_KEY] == Encode(a) ==> r == Admin(a)
  {
    StoredEncodingDecodes(st);
    if ADMIN_KEY !in st || st[ADMIN_KEY] == "" then NoAdmin
    else
      match Decode(st[ADMIN_KEY])
      case Some(a) => EncodeDecode(st[ADMIN_KEY]); Admin(a)
      case None => Unreadable
  }

  /** An entry holding the encoding of an admin is non-empty and decodes to that admin. */
  lemma StoredEncodingDecodes(st: map<string, string>)
    ensures forall a :: ADMIN_KEY in st && st[ADMIN_KEY] == Encode(a) ==>
      st[ADMIN_KEY] != "" && Decode(st[ADMIN_KEY]) == Some(a)
  {
    forall a | ADMIN_KEY in st && st[ADMIN_KEY] == Encode(a)
      ensures st[ADMIN_KEY] != "" && Decode(st[ADMIN_KEY]) == Some(a)
    {
      EncodeNonEmpty(a);
      DecodeEncode(a);
    }
  }

  /** `isAuthenticated()`: `!!getToken()`. */
  predicate IsAuthenticated(st: map<string, string>) {
    var t := GetToken(st);
    t.Some? && t.value != ""
  }

  /** Authenticated exactly when a non-empty token is stored; the `admin` entry plays no part. */
  lemma IsAuthenticatedSpec(st: map<string, string>, v: string)
    ensures IsAuthenticated(st) <==> TOKEN_KEY in st && st[TOKEN_KEY] != ""
    ensures IsAuthenticated(st[ADMIN_KEY := v]) == IsAuthenticated(st)
    ensures IsAuthenticated(st - {ADMIN_KEY}) == IsAuthenticated(st)
  {
  }

  /** What the login handlers write: the token, then the encoded admin. */
  function StoreSession(st: map<string, string>, s: Session): (r: map<string, string>)
    ensures r.Keys == st.Keys + {TOKEN_KEY, ADMIN_KEY}
    ensures forall k :: k in st && k != TOKEN_KEY && k != ADMIN_KEY ==> r[k] == st[k]
  {
    st[TOKEN_KEY := s.token][ADMIN_KEY := Encode(s.admin)]
  }

  /** An encoded admin is never the empty string, so `getAdmin` parses it. */
  lemma EncodeNonEmpty(a: AdminProfile)
    ensures Encode(a) != "" && Encode(a)[0] == '{'
  {
  }

  /** A stored session reads back as it was written. */
  lemma {:induction false} StoreSessionReadBack(st: map<string, string>, s: Session)
    ensures GetToken(StoreSession(st, s)) == Some(s.token)
    ensures GetAdmin(StoreSession(st, s)) == Admin(s.admin)
    ensures IsAuthenticated(StoreSession(st, s)) <==> s.token != ""
  {
    EncodeNonEmpty(s.admin);
    DecodeEncode(s.admin);
  }

  /** After `logout` nobody is authenticated and there is no stored admin. */
  lemma LoggedOut(st: map<string, string>)
    ensures !IsAuthenticated(Cleared(st))
    ensures GetToken(Cleared(st)) == None && GetAdmin(Cleared(st)) == NoAdmin
  {
  }
}
