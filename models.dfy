/**
 * The mappers from backend records to the admin panel's models: a user to
 * a customer, a subscription record, and a plan.  Each field is copied
 * from the backend object, with the stated defaults for missing values;
 * a missing backend field reads as `undefined`.
 */
module Models {

  import opened Js

  datatype Customer = Customer(
    id: JsValue,
    name: JsValue,
    phone: JsValue,
    email: JsValue,
    customerId: JsValue,
    currentPack: JsValue,
    status: JsValue,
    expiryDate: JsValue,
    isBlocked: JsValue)

  datatype Subscription = Subscription(
    id: JsValue,
    userId: JsValue,
    planId: JsValue,
    currentPack: JsValue,
    price: JsValue,
    expiryDate: JsValue,
    status: JsValue,
    startDate: JsValue,
    createdAt: JsValue,
    updatedAt: JsValue)

  datatype Plan = Plan(
    id: JsValue,
    name: JsValue,
    price: JsValue,
    duration: JsValue,
    features: JsValue,
    planType: JsValue,
    active: bool,
    createdAt: JsValue,
    updatedAt: JsValue)

  /** `mapUserToCustomer`. */
  function MapUserToCustomer(u: Object): (c: Customer)
    ensures c.id == Prop(u, "_id") && c.name == Prop(u, "name") && c.phone == Prop(u, "phone")
    ensures c.customerId == Prop(u, "user_id")
  {
    var sub := Prop(u, "subscription");
    Customer(
      Prop(u, "_id"),
      Prop(u, "name"),
      Prop(u, "phone"),
      Or(Prop(u, "email"), Str("")),
      Prop(u, "user_id"),
      Or(OptGet(sub, "currentPack"), Str("")),
      Or(OptGet(sub, "status"), Str("Pending")),
      Or(OptGet(sub, "expiryDate"), Str("")),
      Or(Prop(u, "isBlocked"), Bool(false)))
  }

  /** The email is copied when it is truthy, and `""` otherwise (missing, empty, `null` or `false`). */
  lemma CustomerEmail(u: Object)
    ensures !Truthy(Prop(u, "email")) ==> MapUserToCustomer(u).email == Str("")
    ensures "email" in u && Truthy(u["email"]) ==> MapUserToCustomer(u).email == u["email"]
  {
  }

  /**
   * Without a subscription object the pack and expiry are `""` and the
   * status `Pending`; with one, each of the three is copied when truthy
   * and defaulted the same way otherwise.
   */
  lemma CustomerSubscription(u: Object)
    ensures !Prop(u, "subscription").Obj? ==>
      var c := MapUserToCustomer(u);
      c.currentPack == Str("") && c.status == Str("Pending") && c.expiryDate == Str("")
    ensures Prop(u, "subscription").Obj? ==>
      var s := Prop(u, "subscription").fields;
      var c := MapUserToCustomer(u);
      (Truthy(Prop(s, "currentPack")) ==> c.currentPack == s["currentPack"])
      && (Truthy(Prop(s, "status")) ==> c.status == s["status"])
      && (Truthy(Prop(s, "expiryDate")) ==> c.expiryDate == s["expiryDate"])
      && (!Truthy(Prop(s, "currentPack")) ==> c.currentPack == Str(""))
      && (!Truthy(Prop(s, "status")) ==> c.status == Str("Pending"))
      && (!Truthy(Prop(s, "expiryDate")) ==> c.expiryDate == Str(""))
  {
  }

  /** A customer is blocked exactly when the backend says so with a truthy value; otherwise the flag is `false`. */
  lemma CustomerBlocked(u: Object)
    ensures Truthy(MapUserToCustomer(u).isBlocked) <==> Truthy(Prop(u, "isBlocked"))
    ensures !Truthy(Prop(u, "isBlocked")) ==> MapUserToCustomer(u).isBlocked == Bool(false)
  {
  }

  /** The ten fields `mapSubscriptionResponse` keeps. */
  const SUBSCRIPTION_FIELDS: seq<string> := [
    "_id", "userId", "planId", "currentPack", "price",
    "expiryDate", "status", "startDate", "createdAt", "updatedAt"]

  /** `mapSubscriptionResponse`: the ten fields, each unchanged. */
  function MapSubscriptionResponse(s: Object): Subscription {
    Subscription(
      Prop(s, "_id"), Prop(s, "userId"), Prop(s, "planId"), Prop(s, "currentPack"), Prop(s, "price"),
      Prop(s, "expiryDate"), Prop(s, "status"), Prop(s, "startDate"), Prop(s, "createdAt"), Prop(s, "updatedAt"))
  }

  /** The mapped record as a list of values, in the order of `SUBSCRIPTION_FIELDS`. */
  function SubscriptionValues(m: Subscription): seq<JsValue> {
    [m.id, m.userId, m.planId, m.currentPack, m.price, m.expiryDate, m.status, m.startDate, m.createdAt, m.updatedAt]
  }

  /**
   * Each of the ten fields is copied unchanged, and nothing else is read:
   * two backend records that agree on the ten fields (differing, say, in
   * `__v` or `planDetails`) map to the same subscription.
   */
  lemma SubscriptionFields(s: Object, t: Object)
    ensures forall i :: 0 <= i < |SUBSCRIPTION_FIELDS| ==>
      SubscriptionValues(MapSubscriptionResponse(s))[i] == Prop(s, SUBSCRIPTION_FIELDS[i])
    ensures (forall i :: 0 <= i < |SUBSCRIPTION_FIELDS| ==> Prop(s, SUBSCRIPTION_FIELDS[i]) == Prop(t, SUBSCRIPTION_FIELDS[i]))
      ==> MapSubscriptionResponse(s) == MapSubscriptionResponse(t)
  {
    if forall i :: 0 <= i < |SUBSCRIPTION_FIELDS| ==> Prop(s, SUBSCRIPTION_FIELDS[i]) == Prop(t, SUBSCRIPTION_FIELDS[i]) {
      var fs := SUBSCRIPTION_FIELDS;
      assert Prop(s, fs[0]) == Prop(t, fs[0]) && Prop(s, fs[1]) == Prop(t, fs[1]);
      assert Prop(s, fs[2]) == Prop(t, fs[2]) && Prop(s, fs[3]) == Prop(t, fs[3]);
      assert Prop(s, fs[4]) == Prop(t, fs[4]) && Prop(s, fs[5]) == Prop(t, fs[5]);
      assert Prop(s, fs[6]) == Prop(t, fs[6]) && Prop(s, fs[7]) == Prop(t, fs[7]);
      assert Prop(s, fs[8]) == Prop(t, fs[8]) && Prop(s, fs[9]) == Prop(t, fs[9]);
    }
  }

  /** `mapPlanResponse`. */
  function MapPlanResponse(p: Object): (r: Plan)
    ensures r.id == Prop(p, "_id") && r.name == Prop(p, "name") && r.price == Prop(p, "price")
    ensures r.duration == Prop(p, "duration") && r.planType == Prop(p, "planType")
  {
    Plan(
      Prop(p, "_id"),
      Prop(p, "name"),
      Prop(p, "price"),
      Prop(p, "duration"),
      Or(Prop(p, "features"), Arr([])),
      Prop(p, "planType"),
      Prop(p, "active") != Bool(false),
      Prop(p, "createdAt"),
      Prop(p, "updatedAt"))
  }

  /**
   * A plan whose features are missing or falsy gets the empty list and a list is copied; a
   * plan is active unless it is explicitly `false`, so a missing flag
   * means active.
   */
  lemma PlanDefaults(p: Object, fs: seq<JsValue>)
    ensures !Truthy(Prop(p, "features")) ==> MapPlanResponse(p).features == Arr([])
    ensures Prop(p, "features") == Arr(fs) ==> MapPlanResponse(p).features == Arr(fs)
    ensures !MapPlanResponse(p).active <==> "active" in p && p["active"] == Bool(false)
    ensures "active" !in p ==> MapPlanResponse(p).active
  {
  }
}
