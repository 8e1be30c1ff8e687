/**
 * `customerApi`: the customer list with optional filters sent as a query
 * string, one customer, and blocking and unblocking one.  Every function
 * answers with an envelope; none throws.
 */
module CustomerApi {

  import opened Wrappers
  import opened Js
  import opened Http
  import Lists

  const CUSTOMERS_PATH := "/api/customers/getCustomers"
  const CUSTOMER_PATH := "/api/customers/"

  /** The filters `getAll` reads, in the order it appends them. */
  const FILTER_KEYS: seq<string> := ["status", "pack", "limit", "page"]

  /** The URL `getAll(filters)` requests. */
  function GetAllUrl(filters: Object): string {
    WithQuery(CUSTOMERS_PATH, Serialize(AppendedParams(filters, FILTER_KEYS)))
  }

  /** The URL built step by step: four conditional appends, then the query choice. */
  method BuildGetAllUrl(filters: Object) returns (url: string)
    ensures url == GetAllUrl(filters)
  {
    var params := new SearchParams();
    assert [] + ["status"] == ["status"] && ["status"] + ["pack"] == ["status", "pack"];
    assert ["status", "pack"] + ["limit"] == ["status", "pack", "limit"];
    assert ["status", "pack", "limit"] + ["page"] == FILTER_KEYS;
    AppendIfTruthy(params, filters, [], "status");
    AppendIfTruthy(params, filters, ["status"], "pack");
    AppendIfTruthy(params, filters, ["status", "pack"], "limit");
    AppendIfTruthy(params, filters, ["status", "pack", "limit"], "page");
    var queryString := params.ToString();
    url := if queryString != "" then CUSTOMERS_PATH + "?" + queryString else CUSTOMERS_PATH;
  }

  /**
   * The query lists `status`, `pack`, `limit` and `page`, in that order,
   * each when its filter is truthy, and the URL has a `?` only when one is.
   */
  lemma {:induction false} GetAllUrlSpec(filters: Object)
    ensures AppendedParams(filters, FILTER_KEYS)
      == Lists.Map(Lists.Filter(FILTER_KEYS, k => Truthy(Prop(filters, k))), k => KeyParam(filters, k))
    ensures (forall k :: k in FILTER_KEYS ==> !Truthy(Prop(filters, k))) ==> GetAllUrl(filters) == CUSTOMERS_PATH
    ensures (exists k :: k in FILTER_KEYS && Truthy(Prop(filters, k))) ==>
      GetAllUrl(filters) == CUSTOMERS_PATH + "?" + Serialize(AppendedParams(filters, FILTER_KEYS))
  {
    AppendedParamsSpec(filters, FILTER_KEYS);
    var ps := AppendedParams(filters, FILTER_KEYS);
    UrlShape(CUSTOMERS_PATH, ps);
    if exists k :: k in FILTER_KEYS && Truthy(Prop(filters, k)) {
      var k :| k in FILTER_KEYS && Truthy(Prop(filters, k));
      assert KeyParam(filters, k) in ps;
    }
  }

  /** `response.data?.data || response.data`: the inner list when the backend wraps it. */
  function Unwrap(body: JsValue): (r: JsValue)
    ensures Truthy(OptGet(body, "data")) ==> r == OptGet(body, "data")
    ensures !Truthy(OptGet(body, "data")) ==> r == body
  {
    Or(OptGet(body, "data"), body)
  }

  /** `getAll` once the request has settled. */
  function GetAll(o: Outcome<JsValue>): (r: Envelope<JsValue>)
    ensures r.Success? <==> o.Resolved?
    ensures o.Resolved? ==> r.data == Unwrap(o.body)
    ensures o.Rejected? ==> r.error == ErrorText(o.error)
  {
    match Settle(o)
    case Success(body) => Success(Unwrap(body))
    case Failure(e) => Failure(e)
  }

  /** An unwrapped body taken from `{ data: [...], total }` is the inner list; a bare list passes as it is. */
  lemma UnwrapCases(inner: seq<JsValue>, total: JsValue, list: seq<JsValue>)
    ensures Unwrap(Obj(map["data" := Arr(inner), "total" := total])) == Arr(inner)
    ensures Unwrap(Arr(list)) == Arr(list)
  {
  }

  function GetByIdRequest(id: JsValue): Request {
    Request(Get, CUSTOMER_PATH + ToStr(id), None)
  }

  function BlockRequest(id: JsValue): Request {
    Request(Patch, CUSTOMER_PATH + ToStr(id) + "/block", None)
  }

  function UnblockRequest(id: JsValue): Request {
    Request(Patch, CUSTOMER_PATH + ToStr(id) + "/unblock", None)
  }

  /**
   * `getById`, `block` and `unblock` address the customer's own path, the
   * two status changes extend it with different suffixes and send no body.
   */
  lemma CustomerPaths(id: JsValue)
    ensures GetByIdRequest(id).verb == Get && BlockRequest(id).verb == Patch && UnblockRequest(id).verb == Patch
    ensures GetByIdRequest(id).url <= BlockRequest(id).url && GetByIdRequest(id).url <= UnblockRequest(id).url
    ensures BlockRequest(id).url != UnblockRequest(id).url
    ensures BlockRequest(id).body == None && UnblockRequest(id).body == None
  {
    var u := GetByIdRequest(id).url;
    assert BlockRequest(id).url == u + "/block" && UnblockRequest(id).url == u + "/unblock";
    assert |BlockRequest(id).url| != |UnblockRequest(id).url|;
  }
}
