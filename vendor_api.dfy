/**
 * `vendorApi`: the vendor list filtered by `category` and `status` through
 * the query string, one vendor, blocking or unblocking one, and deleting
 * one.  Every function answers with the body unchanged or the error text.
 */
module VendorApi {

  import opened Wrappers
  import opened Js
  import opened Http

  const VENDORS_PATH := "/api/vendors/getall"
  const VENDOR_PATH := "/api/vendors/"

  /** The filters `getAll` reads, in the order it appends them. */
  const FILTER_KEYS: seq<string> := ["category", "status"]

  /** The URL `getAll(filters)` requests. */
  function GetAllUrl(filters: Object): string {
    WithQuery(VENDORS_PATH, Serialize(AppendedParams(filters, FILTER_KEYS)))
  }

  /** The URL built step by step: two conditional appends, then the query choice. */
  method BuildGetAllUrl(filters: Object) returns (url: string)
    ensures url == GetAllUrl(filters)
  {
    var params := new SearchParams();
    assert [] + ["category"] == ["category"] && ["category"] + ["status"] == FILTER_KEYS;
    AppendIfTruthy(params, filters, [], "category");
    AppendIfTruthy(params, filters, ["category"], "status");
    var queryString := params.ToString();
    url := if queryString != "" then VENDORS_PATH + "?" + queryString else VENDORS_PATH;
  }

  /**
   * The query holds `category` then `status`, each when its filter is
   * truthy; the URL is the bare path when neither is, and `path?query`
   * otherwise.
   */
  lemma GetAllUrlSpec(filters: Object)
    ensures AppendedParams(filters, FILTER_KEYS)
      == (if Truthy(Prop(filters, "category")) then [KeyParam(filters, "category")] else [])
         + (if Truthy(Prop(filters, "status")) then [KeyParam(filters, "status")] else [])
    ensures !Truthy(Prop(filters, "category")) && !Truthy(Prop(filters, "status")) ==> GetAllUrl(filters) == VENDORS_PATH
    ensures Truthy(Prop(filters, "category")) || Truthy(Prop(filters, "status")) ==>
      GetAllUrl(filters) == VENDORS_PATH + "?" + Serialize(AppendedParams(filters, FILTER_KEYS))
  {
    var s := Prop(filters, "status");
    assert FILTER_KEYS[1..] == ["status"] && FILTER_KEYS[1..][1..] == [];
    assert AppendedParams(filters, ["status"]) == (if Truthy(s) then [KeyParam(filters, "status")] else []) + [];
    UrlShape(VENDORS_PATH, AppendedParams(filters, FILTER_KEYS));
  }

  /**
   * The vendor page passes its filters under the names `categoryFilter`
   * and `statusFilter`, which `getAll` never reads: the list is always
   * requested without a query.
   */
  lemma PageFiltersIgnored(categoryFilter: string, statusFilter: string)
    ensures GetAllUrl(map["categoryFilter" := Str(categoryFilter), "statusFilter" := Str(statusFilter)]) == VENDORS_PATH
  {
    GetAllUrlSpec(map["categoryFilter" := Str(categoryFilter), "statusFilter" := Str(statusFilter)]);
  }

  function GetByIdRequest(id: JsValue): Request {
    Request(Get, VENDOR_PATH + "get/" + ToStr(id), None)
  }

  /** `toggleBlock(id, block)`: the new blocked state as the body `{ block }`. */
  function ToggleBlockRequest(id: JsValue, block: bool): (r: Request)
    ensures r.verb == Patch && r.url == VENDOR_PATH + ToStr(id) + "/block"
    ensures r.body.Some? && OptGet(r.body.value, "block") == Bool(block)
  {
    Request(Patch, VENDOR_PATH + ToStr(id) + "/block", Some(Obj(map["block" := Bool(block)])))
  }

  function DeleteRequest(id: JsValue): (r: Request)
    ensures r.verb == Delete && r.url == VENDOR_PATH + ToStr(id) && r.body == None
  {
    Request(Delete, VENDOR_PATH + ToStr(id), None)
  }

  /** Deleting and blocking address the same vendor path; the read goes through `get/`. */
  lemma VendorPaths(id: JsValue, block: bool)
    ensures DeleteRequest(id).url <= ToggleBlockRequest(id, block).url
    ensures DeleteRequest(id).url != GetByIdRequest(id).url
  {
    assert ToggleBlockRequest(id, block).url == DeleteRequest(id).url + "/block";
    assert |DeleteRequest(id).url| != |GetByIdRequest(id).url|;
  }
}
