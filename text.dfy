/**
 * The string operations the pages apply: `join`, `split` on one
 * character, `trim`, `toLowerCase`, `includes` and the
 * "first letter upper-cased" badge label.  Case mapping and white space
 * are ASCII only.
 */
module Text {

  /** `parts.join(sep)`. */
  function Join(parts: seq<string>, sep: string): string {
    if parts == [] then ""
    else if |parts| == 1 then parts[0]
    else parts[0] + sep + Join(parts[1..], sep)
  }

  /** The ASCII white space `String.prototype.trim` removes. */
  predicate IsSpace(c: char) {
    c == ' ' || c == '\t' || c == '\n' || c == '\r' || c == '\U{B}' || c == '\U{C}'
  }

  function TrimStart(s: string): string {
    if s != [] && IsSpace(s[0]) then TrimStart(s[1..]) else s
  }

  function TrimEnd(s: string): string {
    if s != [] && IsSpace(s[|s| - 1]) then TrimEnd(s[..|s| - 1]) else s
  }

  /** `s.trim()`. */
  function Trim(s: string): string {
    TrimEnd(TrimStart(s))
  }

  /**
   * `s.split(sep)` for a one-character separator: the pieces between
   * separators, so the empty string gives `[""]` and there is always at
   * least one piece.
   */
  function Split(s: string, sep: char): (pieces: seq<string>)
    ensures |pieces| >= 1
    decreases |s|
  {
    if s == [] then [""]
    else
      var rest := Split(s[1..], sep);
      if s[0] == sep then [""] + rest else [[s[0]] + rest[0]] + rest[1..]
  }

  function LowerChar(c: char): char {
    if 'A' <= c <= 'Z' then (c as int + 32) as char else c
  }

  function UpperChar(c: char): char {
    if 'a' <= c <= 'z' then (c as int - 32) as char else c
  }

  /** `s.toLowerCase()`. */
  function Lower(s: string): string {
    if s == [] then "" else [LowerChar(s[0])] + Lower(s[1..])
  }

  /** Lower-casing is length-preserving and lower-cases each character; a second pass changes nothing. */
  lemma {:induction false} LowerSpec(s: string)
    ensures |Lower(s)| == |s|
    ensures forall i :: 0 <= i < |s| ==> Lower(s)[i] == LowerChar(s[i])
    ensures Lower(Lower(s)) == Lower(s)
  {
    if s != [] {
      LowerSpec(s[1..]);
      assert Lower(s)[1..] == Lower(s[1..]);
    }
  }

  /** A second lower-casing pass changes nothing. */
  lemma {:induction false} LowerIdempotent(s: string)
    ensures Lower(Lower(s)) == Lower(s)
  {
    if s != [] {
      LowerIdempotent(s[1..]);
      assert Lower(s)[0] == LowerChar(s[0]) && Lower(s)[1..] == Lower(s[1..]);
    }
  }

  /** `s.includes(t)`: `t` occurs in `s` at some position. */
  predicate Contains(s: string, t: string) {
    t <= s || (s != [] && Contains(s[1..], t))
  }

  /** `s.charAt(0).toUpperCase() + s.slice(1)`. */
  function Capitalize(s: string): string {
    if s == [] then "" else [UpperChar(s[0])] + s[1..]
  }

  /** The first character upper-cased, the rest kept; lower-casing cannot tell the label from the status. */
  lemma CapitalizeSpec(s: string)
    ensures |Capitalize(s)| == |s|
    ensures s != "" ==> Capitalize(s)[0] == UpperChar(s[0]) && Capitalize(s)[1..] == s[1..]
    ensures Lower(Capitalize(s)) == Lower(s)
  {
    if s != "" {
      assert Capitalize(s)[1..] == s[1..];
      assert LowerChar(UpperChar(s[0])) == LowerChar(s[0]);
    }
  }

  /** `t` sits in `s` at position `i`. */
  predicate OccursAt(s: string, t: string, i: int) {
    0 <= i <= |s| - |t| && s[i..i + |t|] == t
  }

  /** `includes` holds exactly when `t` occurs at some position of `s`. */
  lemma {:induction false} ContainsSpec(s: string, t: string)
    ensures Contains(s, t) <==> exists i :: OccursAt(s, t, i)
  {
    if s != [] {
      ContainsSpec(s[1..], t);
      if t <= s {
        assert OccursAt(s, t, 0);
      }
      if exists i :: OccursAt(s[1..], t, i) {
        var i :| OccursAt(s[1..], t, i);
        assert s[1..][i..i + |t|] == s[i + 1..i + 1 + |t|];
        assert OccursAt(s, t, i + 1);
      }
      if exists i :: OccursAt(s, t, i) {
        var i :| OccursAt(s, t, i);
        if i > 0 {
          assert s[1..][i - 1..i - 1 + |t|] == s[i..i + |t|];
          assert OccursAt(s[1..], t, i - 1);
        } else {
          assert t <= s;
        }
      }
    } else if t == [] {
      assert OccursAt(s, t, 0);
    } else {
      assert forall i :: !OccursAt(s, t, i);
    }
  }

  /** Every string in `ps`, with `pad` in front. */
  function Prefixed(ps: seq<string>, pad: string): (r: seq<string>)
    ensures |r| == |ps|
  {
    if ps == [] then [] else [pad + ps[0]] + Prefixed(ps[1..], pad)
  }

  /** Splitting text without the separator gives the text back whole. */
  lemma {:induction false} SplitNoSeparator(a: string, sep: char)
    requires sep !in a
    ensures Split(a, sep) == [a]
    decreases |a|
  {
    if a != [] {
      SplitNoSeparator(a[1..], sep);
      assert [a[0]] + a[1..] == a;
    }
  }

  /** Text in front of the first piece lands in the first piece. */
  lemma {:induction false} SplitPrepend(pad: string, x: string, sep: char)
    requires sep !in pad
    ensures Split(pad + x, sep) == [pad + Split(x, sep)[0]] + Split(x, sep)[1..]
    decreases |pad|
  {
    if pad != [] {
      var s := pad + x;
      assert s[1..] == pad[1..] + x;
      SplitPrepend(pad[1..], x, sep);
      assert [pad[0]] + (pad[1..] + Split(x, sep)[0]) == pad + Split(x, sep)[0];
    } else {
      assert pad + x == x;
      assert pad + Split(x, sep)[0] == Split(x, sep)[0];
      assert [Split(x, sep)[0]] + Split(x, sep)[1..] == Split(x, sep);
    }
  }

  /** A separator after separator-free text ends the first piece there. */
  lemma {:induction false} SplitAtSeparator(a: string, b: string, sep: char)
    requires sep !in a
    ensures Split(a + [sep] + b, sep) == [a] + Split(b, sep)
    decreases |a|
  {
    if a == [] {
      assert a + [sep] + b == [sep] + b;
      assert ([sep] + b)[1..] == b;
    } else {
      var s := a + [sep] + b;
      assert s[1..] == a[1..] + [sep] + b;
      SplitAtSeparator(a[1..], b, sep);
      assert [a[0]] + a[1..] == a;
    }
  }

  /**
   * Joining separator-free parts with the separator followed by `pad`, then
   * splitting on the separator, gives the first part back and every later
   * part with `pad` in front.
   */
  lemma {:induction false} SplitJoin(parts: seq<string>, sep: char, pad: string)
    requires |parts| > 0
    requires forall i :: 0 <= i < |parts| ==> sep !in parts[i]
    requires sep !in pad
    ensures Split(Join(parts, [sep] + pad), sep) == [parts[0]] + Prefixed(parts[1..], pad)
    decreases |parts|
  {
    if |parts| == 1 {
      SplitNoSeparator(parts[0], sep);
    } else {
      var tail := Join(parts[1..], [sep] + pad);
      assert Join(parts, [sep] + pad) == parts[0] + [sep] + (pad + tail);
      SplitAtSeparator(parts[0], pad + tail, sep);
      SplitJoin(parts[1..], sep, pad);
      SplitPrepend(pad, tail, sep);
      assert parts[1..][1..] == parts[2..];
    }
  }

  /** Text that neither starts nor ends with white space is its own trim. */
  lemma TrimUntouched(s: string)
    requires s == "" || (!IsSpace(s[0]) && !IsSpace(s[|s| - 1]))
    ensures Trim(s) == s
  {
  }

  /** Leading white space does not survive `trim`. */
  lemma {:induction false} TrimAfterSpaces(pad: string, p: string)
    requires forall i :: 0 <= i < |pad| ==> IsSpace(pad[i])
    ensures Trim(pad + p) == Trim(p)
    decreases |pad|
  {
    if pad != [] {
      assert (pad + p)[1..] == pad[1..] + p;
      TrimAfterSpaces(pad[1..], p);
    } else {
      assert pad + p == p;
    }
  }
}
