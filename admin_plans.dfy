/**
 * The plans page: one form both creates plans and edits them.  Editing
 * fills the form from a plan and remembers its id; submitting sends the
 * form as a plan payload, to `update` when an id is remembered and to
 * `create` otherwise, and a success clears the form and the id.
 */
module AdminPlans {

  import opened Wrappers
  import opened Js
  import opened Lists
  import opened PlanForms
  import Text
  import Http

  /** The form's fields, all empty at first. */
  const EMPTY_FORM: Object :=
    map["name" := Str(""), "price" := Str(""), "duration" := Str(""), "features" := Str(""), "planType" := Str("")]

  /**
   * The payload built from the form, or `None` when its features field is
   * not a string and `split` throws.
   */
  function Payload(form: Object): (p: Option<PlanPayload>)
    ensures p.Some? <==> Prop(form, "features").Str?
    ensures p.Some? ==>
      p.value.name == Prop(form, "name") && p.value.duration == Prop(form, "duration")
      && p.value.planType == Prop(form, "planType") && p.value.price == NumberOf(Prop(form, "price"))
      && p.value.features == Features(Prop(form, "features").s)
  {
    match Prop(form, "features")
    case Str(field) =>
      Some(PlanPayload(Prop(form, "name"), NumberOf(Prop(form, "price")), Prop(form, "duration"),
                       Prop(form, "planType"), Features(field)))
    case _ => None
  }

  /** The form `editPlan(plan)` fills in, or `None` when `plan.features` is no array and `join` throws. */
  function EditedForm(plan: Object): (form: Option<Object>)
    ensures form.Some? <==> Prop(plan, "features").Arr?
    ensures form.Some? ==>
      form.value.Keys == EMPTY_FORM.Keys
      && form.value["features"] == Str(Text.Join(Map(Prop(plan, "features").elems, ElementText), ", "))
      && forall k :: k in EMPTY_FORM && k != "features" ==> form.value[k] == Prop(plan, k)
  {
    match Prop(plan, "features")
    case Arr(es) =>
      Some(map["name" := Prop(plan, "name"), "price" := Prop(plan, "price"), "duration" := Prop(plan, "duration"),
               "features" := Str(Text.Join(Map(es, ElementText), ", ")), "planType" := Prop(plan, "planType")])
    case _ => None
  }

  /**
   * Editing a plan whose features are a non-empty list of plain strings
   * and submitting the form unchanged sends the plan's own name, duration,
   * type and feature list.
   */
  lemma EditThenSubmit(plan: Object, fs: seq<string>)
    requires Prop(plan, "features") == Arr(Map(fs, f => Str(f)))
    requires fs != [] && forall i :: 0 <= i < |fs| ==> PlainFeature(fs[i])
    ensures EditedForm(plan).Some? && Payload(EditedForm(plan).value).Some?
    ensures var p := Payload(EditedForm(plan).value).value;
      p.features == fs && p.name == Prop(plan, "name") && p.duration == Prop(plan, "duration")
      && p.planType == Prop(plan, "planType") && p.price == NumberOf(Prop(plan, "price"))
  {
    var es := Map(fs, f => Str(f));
    assert forall i :: 0 <= i < |fs| ==> ElementText(es[i]) == fs[i];
    assert Map(es, ElementText) == fs;
    FeaturesRoundTrip(fs);
  }

  class PlansPage {
    var plans: seq<Object>
    var loading: bool
    var form: Object
    var editingId: JsValue

    /** The features field always holds text: inputs write strings and editing writes a join. */
    predicate Valid()
      reads this
    {
      Prop(form, "features").Str?
    }

    constructor ()
      ensures Valid() && plans == [] && !loading && form == EMPTY_FORM && editingId == Null
    {
      plans := [];
      loading := false;
      form := EMPTY_FORM;
      editingId := Null;
    }

    /** `fetchPlans`: a success stores the list (`[]` for a falsy body), a failure keeps it; `loading` ends false. */
    method FetchPlans(result: Http.Envelope<Option<seq<Object>>>) returns (call: PlanCall)
      modifies this`plans, this`loading
      ensures call == ListPlans && !loading
      ensures result.Success? ==> plans == result.data.GetOr([])
      ensures result.Failure? ==> plans == old(plans)
    {
      loading := true;
      call := ListPlans;
      if result.Success? {
        plans := if result.data.Some? then result.data.value else [];
      }
      loading := false;
    }

    /** `handleChange(e)`: the input named `name` takes the typed text; nothing else changes. */
    method HandleChange(name: string, value: string)
      requires Valid()
      modifies this`form
      ensures Valid()
      ensures form == old(form)[name := Str(value)]
    {
      form := form[name := Str(value)];
    }

    /**
     * `handleSubmit`: the form's payload goes to `update(editingId, ...)`
     * when `editingId` is truthy and to `create` otherwise.  A success
     * clears the form and the id and fetches the list again; a failure
     * leaves the form, the id and the list as they were.
     */
    method HandleSubmit(result: Http.Envelope<JsValue>, refetch: Http.Envelope<Option<seq<Object>>>)
      returns (calls: seq<PlanCall>)
      requires Valid()
      modifies this`form, this`editingId, this`plans, this`loading
      ensures Valid()
      ensures var data := Payload(old(form)).value;
        |calls| >= 1
        && calls[0] == (if Truthy(old(editingId)) then UpdatePlan(old(editingId), data) else CreatePlan(data))
      ensures result.Success? ==>
        form == EMPTY_FORM && editingId == Null && |calls| == 2 && calls[1] == ListPlans && !loading
        && (refetch.Success? ==> plans == refetch.data.GetOr([]))
        && (refetch.Failure? ==> plans == old(plans))
      ensures result.Failure? ==>
        form == old(form) && editingId == old(editingId) && plans == old(plans) && loading == old(loading)
        && |calls| == 1
    {
      var data := Payload(form).value;
      var call := if Truthy(editingId) then UpdatePlan(editingId, data) else CreatePlan(data);
      calls := [call];
      if result.Success? {
        form := EMPTY_FORM;
        editingId := Null;
        var list := FetchPlans(refetch);
        calls := calls + [list];
      }
    }

    /**
     * `editPlan(plan)`: fills the form from the plan and remembers its id;
     * when the plan's features are no array, `join` throws and nothing
     * changes.
     */
    method EditPlan(plan: Object) returns (ok: bool)
      requires Valid()
      modifies this`form, this`editingId
      ensures Valid()
      ensures ok <==> EditedForm(plan).Some?
      ensures ok ==> form == EditedForm(plan).value && editingId == Prop(plan, "_id")
      ensures !ok ==> form == old(form) && editingId == old(editingId)
    {
      var filled := EditedForm(plan);
      ok := filled.Some?;
      if ok {
        form := filled.value;
        editingId := Prop(plan, "_id");
      }
    }

    /** `deletePlan(id)`: nothing without confirmation; otherwise the delete, and on success the refetch. */
    method HandleDelete(id: JsValue, confirmed: bool, result: Http.Envelope<JsValue>,
                        refetch: Http.Envelope<Option<seq<Object>>>)
      returns (calls: seq<PlanCall>)
      modifies this`plans, this`loading
      ensures !confirmed ==> calls == [] && plans == old(plans) && loading == old(loading)
      ensures confirmed && result.Failure? ==> calls == [DeletePlan(id)] && plans == old(plans) && loading == old(loading)
      ensures confirmed && result.Success? ==>
        calls == [DeletePlan(id), ListPlans] && !loading
        && (refetch.Success? ==> plans == refetch.data.GetOr([]))
        && (refetch.Failure? ==> plans == old(plans))
    {
      if !confirmed {
        return [];
      }
      calls := [DeletePlan(id)];
      if result.Success? {
        var list := FetchPlans(refetch);
        calls := calls + [list];
      }
    }
  }
}
