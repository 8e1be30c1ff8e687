/**
 * The client-side filtering the list pages share: keep the records whose
 * field equals a filter value, but only when that filter is set.
 */
module Records {

  import opened Js
  import opened Lists

  /** `r[key] === value`. */
  function FieldIs(key: string, value: string): Object -> bool {
    r => Prop(r, key) == Str(value)
  }

  /** `if (value) list = list.filter(r => r[key] === value)`. */
  function Narrow(rs: seq<Object>, key: string, value: string): seq<Object> {
    if value != "" then Filter(rs, FieldIs(key, value)) else rs
  }

  /** A record passes a filter that is unset, or that equals its field. */
  predicate PassesFilter(r: Object, key: string, value: string) {
    value == "" || Prop(r, key) == Str(value)
  }

  /** A record passes two filters when it passes each. */
  function PassesBoth(k1: string, v1: string, k2: string, v2: string): Object -> bool {
    r => PassesFilter(r, k1, v1) && PassesFilter(r, k2, v2)
  }

  /**
   * Two filters in a row are one filter on both conditions: they keep
   * exactly the records passing both, in their order in the input.
   */
  lemma {:induction false} NarrowTwice(rs: seq<Object>, k1: string, v1: string, k2: string, v2: string)
    ensures Narrow(Narrow(rs, k1, v1), k2, v2) == Filter(rs, PassesBoth(k1, v1, k2, v2))
    ensures forall r :: r in Narrow(Narrow(rs, k1, v1), k2, v2) <==>
      r in rs && PassesFilter(r, k1, v1) && PassesFilter(r, k2, v2)
  {
    var pass := PassesBoth(k1, v1, k2, v2);
    if v1 != "" && v2 != "" {
      FilterTwice(rs, FieldIs(k1, v1), FieldIs(k2, v2));
      FilterExtensional(rs, Both(FieldIs(k1, v1), FieldIs(k2, v2)), pass);
    } else if v1 != "" {
      FilterExtensional(rs, FieldIs(k1, v1), pass);
    } else if v2 != "" {
      FilterExtensional(rs, FieldIs(k2, v2), pass);
    } else {
      FilterKeepsAll(rs, pass);
    }
    forall r ensures r in Narrow(Narrow(rs, k1, v1), k2, v2) <==>
      r in rs && PassesFilter(r, k1, v1) && PassesFilter(r, k2, v2)
    {
      FilterMembers(rs, pass, r);
    }
  }
}
