/**
 * What the plans page and the subscriptions page send to `planApi`: a plan
 * payload whose feature list is the comma-separated form field, split on
 * `,` with each piece trimmed; and its inverse direction, the field
 * `features.join(", ")` the plans page fills in when a plan is edited.
 */
module PlanForms {

  import opened Js
  import opened Lists
  import Text

  /** The payload's price: a constant, or `Number(field)` of a form field. */
  datatype Price = Fixed(n: int) | NumberOf(field: JsValue)

  datatype PlanPayload = PlanPayload(
    name: JsValue,
    price: Price,
    duration: JsValue,
    planType: JsValue,
    features: seq<string>)

  /** The `planApi` calls the two pages make. */
  datatype PlanCall =
    | ListPlans
    | CreatePlan(data: PlanPayload)
    | UpdatePlan(id: JsValue, data: PlanPayload)
    | DeletePlan(id: JsValue)

  /** `field.split(",").map(f => f.trim())`. */
  function Features(field: string): (fs: seq<string>)
    ensures |fs| >= 1
    ensures field == "" ==> fs == [""]
  {
    Map(Text.Split(field, ','), Text.Trim)
  }

  /** `features.join(", ")` of an array of feature strings. */
  function FeaturesField(fs: seq<string>): string {
    Text.Join(fs, ", ")
  }

  /** A feature that survives the round trip: no comma, and no white space at either end. */
  predicate PlainFeature(f: string) {
    ',' !in f && (f == "" || (!Text.IsSpace(f[0]) && !Text.IsSpace(f[|f| - 1])))
  }

  /**
   * Joining a non-empty list of plain features with `", "` and splitting
   * the field again gives the list back.
   */
  lemma {:induction false} FeaturesRoundTrip(fs: seq<string>)
    requires fs != []
    requires forall i :: 0 <= i < |fs| ==> PlainFeature(fs[i])
    ensures Features(FeaturesField(fs)) == fs
  {
    Text.SplitJoin(fs, ',', " ");
    var pieces := [fs[0]] + Text.Prefixed(fs[1..], " ");
    assert Text.Split(FeaturesField(fs), ',') == pieces by {
      assert [','] + " " == ", ";
    }
    PrefixedPieces(fs[1..], " ");
    forall i | 0 <= i < |fs| ensures Text.Trim(pieces[i]) == fs[i] {
      Text.TrimUntouched(fs[i]);
      if i > 0 {
        assert pieces[i] == " " + fs[i];
        Text.TrimAfterSpaces(" ", fs[i]);
      }
    }
  }

  /** The pieces of `Prefixed` are the padded strings, position by position. */
  lemma {:induction false} PrefixedPieces(ps: seq<string>, pad: string)
    ensures forall i :: 0 <= i < |ps| ==> Text.Prefixed(ps, pad)[i] == pad + ps[i]
  {
    if ps != [] {
      PrefixedPieces(ps[1..], pad);
    }
  }

  /**
   * An empty feature list does not survive: it is edited as the empty
   * field, which is submitted as one empty feature.
   */
  lemma EmptyFeaturesRoundTrip()
    ensures FeaturesField([]) == ""
    ensures Features(FeaturesField([])) == [""]
  {
  }

  /** A single feature, trimmed; a feature list without commas is kept whole. */
  lemma FeaturesWithoutComma(field: string)
    requires ',' !in field
    ensures Features(field) == [Text.Trim(field)]
  {
    Text.SplitNoSeparator(field, ',');
  }
}
