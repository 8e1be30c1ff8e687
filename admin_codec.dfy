/**
 * The signed-in admin as the application keeps it under the storage key
 * `admin`: a profile with the four fields the code reads (`id`, `name`,
 * `email`, `role`), each possibly missing.  The text form is JSON-shaped
 * (`{"id":...,"name":...,"email":...,"role":...}`, a missing field written
 * `null`, `"` and `\` escaped).  `Decode` and `Encode` are inverse: a
 * profile reads back as written, and every text that decodes is the
 * encoding of its result; other text decodes to `None`, which stands for
 * `JSON.parse` throwing.
 */
module AdminCodec {

  import opened Wrappers

  datatype AdminProfile = AdminProfile(
    id: Option<string>,
    name: Option<string>,
    email: Option<string>,
    role: Option<string>)

  /** The body of a JSON string literal: `"` and `\` get a backslash in front. */
  function Escape(s: string): string {
    if s == [] then ""
    else (if s[0] == '"' || s[0] == '\\' then ['\\', s[0]] else [s[0]]) + Escape(s[1..])
  }

  function EncodeField(f: Option<string>): string {
    match f
    case None => "null"
    case Some(s) => "\"" + Escape(s) + "\""
  }

  const ID_KEY := "{\"id\":"
  const NAME_KEY := ",\"name\":"
  const EMAIL_KEY := ",\"email\":"
  const ROLE_KEY := ",\"role\":"

  /** `JSON.stringify(admin)`. */
  function Encode(a: AdminProfile): string {
    ID_KEY + (EncodeField(a.id) + (NAME_KEY + (EncodeField(a.name)
      + (EMAIL_KEY + (EncodeField(a.email) + (ROLE_KEY + (EncodeField(a.role) + "}")))))))
  }

  /** The text after the prefix `p`, if `s` starts with it. */
  function Expect(p: string, s: string): Option<string> {
    if p <= s then Some(s[|p|..]) else None
  }

  /** Reads an escaped string body up to its closing quote: the string and the text after the quote. */
  function ParseQuoted(s: string): Option<(string, string)>
    decreases |s|
  {
    if s == [] then None
    else if s[0] == '"' then Some(("", s[1..]))
    else if s[0] == '\\' then
      if |s| < 2 || !(s[1] == '"' || s[1] == '\\') then None
      else
        var r :- ParseQuoted(s[2..]);
        Some(([s[1]] + r.0, r.1))
    else
      var r :- ParseQuoted(s[1..]);
      Some(([s[0]] + r.0, r.1))
  }

  function ParseField(s: string): Option<(Option<string>, string)> {
    if "null" <= s then Some((None, s[4..]))
    else if "\"" <= s then
      var r :- ParseQuoted(s[1..]);
      Some((Some(r.0), r.1))
    else None
  }

  /** `JSON.parse(text)` on a stored admin: `None` when the text is not an encoded profile. */
  function Decode(text: string): Option<AdminProfile> {
    var s0 :- Expect(ID_KEY, text);
    var id :- ParseField(s0);
    var rest :- DecodeFromName(id.1);
    Some(AdminProfile(id.0, rest.0, rest.1, rest.2))
  }

  function DecodeFromName(text: string): Option<(Option<string>, Option<string>, Option<string>)> {
    var s1 :- Expect(NAME_KEY, text);
    var name :- ParseField(s1);
    var rest :- DecodeFromEmail(name.1);
    Some((name.0, rest.0, rest.1))
  }

  function DecodeFromEmail(text: string): Option<(Option<string>, Option<string>)> {
    var s2 :- Expect(EMAIL_KEY, text);
    var email :- ParseField(s2);
    var s3 :- Expect(ROLE_KEY, email.1);
    var role :- ParseField(s3);
    if role.1 == "}" then Some((email.0, role.0)) else None
  }

  lemma ExpectPrefix(p: string, rest: string)
    ensures Expect(p, p + rest) == Some(rest)
  {
    assert p <= p + rest;
    assert (p + rest)[|p|..] == rest;
  }

  /** The string reader stops at the quote the escaper did not escape. */
  lemma {:induction false} ParseQuotedEscape(s: string, rest: string)
    ensures ParseQuoted(Escape(s) + "\"" + rest) == Some((s, rest))
    decreases |s|
  {
    if s == [] {
      assert Escape(s) + "\"" + rest == "\"" + rest;
    } else {
      ParseQuotedEscape(s[1..], rest);
      var head := if s[0] == '"' || s[0] == '\\' then ['\\', s[0]] else [s[0]];
      var t := Escape(s) + "\"" + rest;
      assert t == head + (Escape(s[1..]) + "\"" + rest);
      assert t[|head|..] == Escape(s[1..]) + "\"" + rest;
      assert [s[0]] + s[1..] == s;
    }
  }

  lemma ParseFieldEncode(f: Option<string>, rest: string)
    ensures ParseField(EncodeField(f) + rest) == Some((f, rest))
  {
    var t := EncodeField(f) + rest;
    match f
    case None =>
      assert "null" <= t && t[4..] == rest;
    case Some(s) =>
      assert !("null" <= t) by { assert t[0] == '"'; }
      assert "\"" <= t;
      assert t[1..] == Escape(s) + "\"" + rest;
      ParseQuotedEscape(s, rest);
  }

  /** Reading back what was written gives the same profile. */
  lemma DecodeEncode(a: AdminProfile)
    ensures Decode(Encode(a)) == Some(a)
  {
    var fromRole := ROLE_KEY + (EncodeField(a.role) + "}");
    var fromEmail := EMAIL_KEY + (EncodeField(a.email) + fromRole);
    var fromName := NAME_KEY + (EncodeField(a.name) + fromEmail);
    assert DecodeFromEmail(fromEmail) == Some((a.email, a.role)) by {
      ExpectPrefix(EMAIL_KEY, EncodeField(a.email) + fromRole);
      ParseFieldEncode(a.email, fromRole);
      ExpectPrefix(ROLE_KEY, EncodeField(a.role) + "}");
      ParseFieldEncode(a.role, "}");
    }
    assert DecodeFromName(fromName) == Some((a.name, a.email, a.role)) by {
      ExpectPrefix(NAME_KEY, EncodeField(a.name) + fromEmail);
      ParseFieldEncode(a.name, fromEmail);
    }
    ExpectPrefix(ID_KEY, EncodeField(a.id) + fromName);
    ParseFieldEncode(a.id, fromName);
  }

  /** Different profiles are stored as different text. */
  lemma EncodeInjective(a: AdminProfile, b: AdminProfile)
    ensures Encode(a) == Encode(b) ==> a == b
  {
    DecodeEncode(a);
    DecodeEncode(b);
  }

  /** The string reader only accepts what the escaper writes. */
  lemma {:induction false} ParseQuotedCanonical(s: string)
    requires ParseQuoted(s).Some?
    ensures s == Escape(ParseQuoted(s).value.0) + "\"" + ParseQuoted(s).value.1
    decreases |s|
  {
    var r := ParseQuoted(s).value;
    if s[0] == '"' {
      assert r.0 == "";
      assert s == "\"" + s[1..];
    } else {
      var k := if s[0] == '\\' then 2 else 1;
      ParseQuotedCanonical(s[k..]);
      var inner := ParseQuoted(s[k..]).value;
      assert r == ([s[k - 1]] + inner.0, inner.1);
      assert [s[k - 1]] + inner.0 == [r.0[0]] + r.0[1..];
      assert r.0[1..] == inner.0;
      assert s == s[..k] + s[k..];
    }
  }

  lemma ParseFieldCanonical(s: string)
    requires ParseField(s).Some?
    ensures s == EncodeField(ParseField(s).value.0) + ParseField(s).value.1
  {
    if "null" <= s {
      assert s == "null" + s[4..];
    } else {
      ParseQuotedCanonical(s[1..]);
      assert s == "\"" + s[1..];
    }
  }

  lemma ExpectCanonical(p: string, s: string)
    requires Expect(p, s).Some?
    ensures s == p + Expect(p, s).value
  {
  }

  /** Every text that decodes is exactly the encoding of the decoded profile. */
  lemma EncodeDecode(text: string)
    requires Decode(text).Some?
    ensures Encode(Decode(text).value) == text
  {
    var a := Decode(text).value;
    var s0 := Expect(ID_KEY, text).value;
    ExpectCanonical(ID_KEY, text);
    var id := ParseField(s0).value;
    ParseFieldCanonical(s0);
    var s1 := Expect(NAME_KEY, id.1).value;
    ExpectCanonical(NAME_KEY, id.1);
    var name := ParseField(s1).value;
    ParseFieldCanonical(s1);
    var s2 := Expect(EMAIL_KEY, name.1).value;
    ExpectCanonical(EMAIL_KEY, name.1);
    var email := ParseField(s2).value;
    ParseFieldCanonical(s2);
    var s3 := Expect(ROLE_KEY, email.1).value;
    ExpectCanonical(ROLE_KEY, email.1);
    var role := ParseField(s3).value;
    ParseFieldCanonical(s3);
    assert a == AdminProfile(id.0, name.0, email.0, role.0);
  }
}
