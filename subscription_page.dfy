/**
 * The subscriptions page (not reachable from any route).  It lists the
 * plans, shows those whose type is the form's user type, and creates a
 * plan from its form: the customer name becomes the plan name, the
 * features field is typed into the input named `planType`, the start
 * date becomes the duration, the price is 0 and the status choice is not
 * sent.
 */
module SubscriptionPage {

  import opened Wrappers
  import opened Js
  import opened Lists
  import opened PlanForms
  import Http

  /** The inputs of the form. */
  const FORM_KEYS: set<string> := {"customerName", "planType", "startDate", "status", "userType"}

  const EMPTY_FORM: map<string, string> :=
    map["customerName" := "", "planType" := "", "startDate" := "", "status" := "Active", "userType" := "customer"]

  /** The payload `handleSubmit` sends to `planApi.create`. */
  function Payload(form: map<string, string>): (p: PlanPayload)
    requires FORM_KEYS <= form.Keys
    ensures p.name == Str(form["customerName"]) && p.duration == Str(form["startDate"])
    ensures p.planType == Str(form["userType"]) && p.price == Fixed(0)
    ensures p.features == Features(form["planType"])
  {
    PlanPayload(Str(form["customerName"]), Fixed(0), Str(form["startDate"]), Str(form["userType"]),
                Features(form["planType"]))
  }

  /** The status choice never reaches the payload: forms that differ only in it send the same plan. */
  lemma PayloadIgnoresStatus(form: map<string, string>, status: string)
    requires FORM_KEYS <= form.Keys
    ensures Payload(form["status" := status]) == Payload(form)
  {
  }

  /** `sub => sub.planType === form.userType`. */
  function OfUserType(userType: string): Object -> bool {
    sub => Prop(sub, "planType") == Str(userType)
  }

  /** `filteredSubscriptions`. */
  function Filtered(subscriptions: seq<Object>, userType: string): seq<Object> {
    Filter(subscriptions, OfUserType(userType))
  }

  /** The shown plans are exactly the listed ones of the chosen user type. */
  lemma FilteredSpec(subscriptions: seq<Object>, userType: string)
    ensures forall s :: s in Filtered(subscriptions, userType) <==> s in subscriptions && Prop(s, "planType") == Str(userType)
  {
    forall s ensures s in Filtered(subscriptions, userType) <==> s in subscriptions && Prop(s, "planType") == Str(userType) {
      FilterMembers(subscriptions, OfUserType(userType), s);
    }
  }

  class SubscriptionsPage {
    var subscriptions: seq<Object>
    var form: map<string, string>
    var loading: bool

    predicate Valid()
      reads this
    {
      FORM_KEYS <= form.Keys
    }

    constructor ()
      ensures Valid() && subscriptions == [] && form == EMPTY_FORM && !loading
    {
      subscriptions := [];
      form := EMPTY_FORM;
      loading := false;
    }

    /** The plans the page shows. */
    function Shown(): (shown: seq<Object>)
      requires Valid()
      reads this
      ensures forall s :: s in shown <==> s in subscriptions && Prop(s, "planType") == Str(form["userType"])
    {
      FilteredSpec(subscriptions, form["userType"]);
      Filtered(subscriptions, form["userType"])
    }

    /** `fetchSubscriptions`: a success stores the list (`[]` for a falsy body), a failure keeps it; `loading` ends false. */
    method FetchSubscriptions(result: Http.Envelope<Option<seq<Object>>>) returns (call: PlanCall)
      modifies this`subscriptions, this`loading
      ensures call == ListPlans && !loading
      ensures result.Success? ==> subscriptions == result.data.GetOr([])
      ensures result.Failure? ==> subscriptions == old(subscriptions)
    {
      loading := true;
      call := ListPlans;
      if result.Success? {
        subscriptions := if result.data.Some? then result.data.value else [];
      }
      loading := false;
    }

    /** `handleChange(e)`: the named input takes the typed text; nothing else changes. */
    method HandleChange(name: string, value: string)
      requires Valid()
      modifies this`form
      ensures Valid() && form == old(form)[name := value]
    {
      form := form[name := value];
    }

    /**
     * `handleSubmit`: the payload goes to `planApi.create`; a success resets
     * the form and fetches the list again, a failure keeps both.
     * `loading` ends false either way.
     */
    method HandleSubmit(result: Http.Envelope<JsValue>, refetch: Http.Envelope<Option<seq<Object>>>)
      returns (calls: seq<PlanCall>)
      requires Valid()
      modifies this`form, this`subscriptions, this`loading
      ensures Valid() && !loading
      ensures |calls| >= 1 && calls[0] == CreatePlan(Payload(old(form)))
      ensures result.Success? ==>
        form == EMPTY_FORM && calls == [CreatePlan(Payload(old(form))), ListPlans]
        && (refetch.Success? ==> subscriptions == refetch.data.GetOr([]))
        && (refetch.Failure? ==> subscriptions == old(subscriptions))
      ensures result.Failure? ==> form == old(form) && subscriptions == old(subscriptions) && |calls| == 1
    {
      loading := true;
      calls := [CreatePlan(Payload(form))];
      if result.Success? {
        form := EMPTY_FORM;
        var list := FetchSubscriptions(refetch);
        calls := calls + [list];
      }
      loading := false;
    }

    /** `handleDelete(id)`: nothing without confirmation; otherwise the delete, and on success the refetch. */
    method HandleDelete(id: JsValue, confirmed: bool, result: Http.Envelope<JsValue>,
                        refetch: Http.Envelope<Option<seq<Object>>>)
      returns (calls: seq<PlanCall>)
      modifies this`subscriptions, this`loading
      ensures !confirmed ==> calls == [] && subscriptions == old(subscriptions) && loading == old(loading)
      ensures confirmed && result.Failure? ==>
        calls == [DeletePlan(id)] && subscriptions == old(subscriptions) && loading == old(loading)
      ensures confirmed && result.Success? ==>
        calls == [DeletePlan(id), ListPlans] && !loading
        && (refetch.Success? ==> subscriptions == refetch.data.GetOr([]))
        && (refetch.Failure? ==> subscriptions == old(subscriptions))
    {
      if !confirmed {
        return [];
      }
      calls := [DeletePlan(id)];
      if result.Success? {
        var list := FetchSubscriptions(refetch);
        calls := calls + [list];
      }
    }
  }
}
