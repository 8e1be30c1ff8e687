/**
 * The vendors page.  Every change of the category or status filter fetches
 * the whole vendor list again and filters it on the client; the category
 * options are the distinct categories of the unfiltered list.  Blocking
 * and deleting update the shown list in place once the backend agrees.
 */
module VendorPage {

  import opened Wrappers
  import opened Js
  import opened Lists
  import opened Records
  import Text
  import Http
  import VendorApi

  /** `v => v.category`. */
  function CategoryOf(v: Object): JsValue {
    Prop(v, "category")
  }

  /** `[...new Set(vendors.map(v => v.category))]`. */
  function Categories(all: seq<Object>): seq<JsValue> {
    Distinct(Map(all, CategoryOf))
  }

  /**
   * The options hold the category of every fetched vendor (a missing one
   * included, as `undefined`), each once, and nothing else.
   */
  lemma CategoriesSpec(all: seq<Object>)
    ensures forall x :: x in Categories(all) <==> exists i :: 0 <= i < |all| && CategoryOf(all[i]) == x
    ensures forall i, j :: 0 <= i < j < |Categories(all)| ==> Categories(all)[i] != Categories(all)[j]
  {
    var cs := Map(all, CategoryOf);
    forall x ensures x in Categories(all) <==> exists i :: 0 <= i < |all| && CategoryOf(all[i]) == x {
      DistinctMembers(cs, x);
      if x in cs {
        var i :| 0 <= i < |cs| && cs[i] == x;
        assert CategoryOf(all[i]) == x;
      }
    }
    DistinctNoDuplicates(cs);
  }

  /** The state after a successful toggle: `{ ...v, isBlocked: !isBlocked, status: ... }` for the vendors with `_id === id`. */
  function BlockToggled(vs: seq<Object>, id: JsValue, isBlocked: JsValue): seq<Object> {
    var block := !Truthy(isBlocked);
    Map(vs, v => if Prop(v, "_id") == id
                 then v["isBlocked" := Bool(block)]["status" := Str(if block then "blocked" else "approved")]
                 else v)
  }

  /**
   * A toggle keeps the length and every other vendor; a matching vendor
   * gets the opposite of the shown blocked state, status `blocked` when it
   * is now blocked and `approved` when it is not, and keeps its other fields.
   */
  lemma BlockToggledSpec(vs: seq<Object>, id: JsValue, isBlocked: JsValue)
    ensures |BlockToggled(vs, id, isBlocked)| == |vs|
    ensures forall i :: 0 <= i < |vs| && Prop(vs[i], "_id") != id ==> BlockToggled(vs, id, isBlocked)[i] == vs[i]
    ensures forall i :: 0 <= i < |vs| && Prop(vs[i], "_id") == id ==>
      var r := BlockToggled(vs, id, isBlocked)[i];
      r["isBlocked"] == Bool(!Truthy(isBlocked))
      && r["status"] == Str(if Truthy(isBlocked) then "approved" else "blocked")
      && r.Keys == vs[i].Keys + {"isBlocked", "status"}
      && forall k :: k in vs[i] && k != "isBlocked" && k != "status" ==> r[k] == vs[i][k]
  {
  }

  /**
   * Blocking an approved, unblocked vendor and then unblocking it gives the
   * list back as it was.
   */
  lemma BlockThenUnblock(vs: seq<Object>, id: JsValue)
    requires forall i :: 0 <= i < |vs| && Prop(vs[i], "_id") == id ==>
      Prop(vs[i], "isBlocked") == Bool(false) && Prop(vs[i], "status") == Str("approved")
    ensures BlockToggled(BlockToggled(vs, id, Bool(false)), id, Bool(true)) == vs
  {
    var once := BlockToggled(vs, id, Bool(false));
    var twice := BlockToggled(once, id, Bool(true));
    BlockToggledSpec(vs, id, Bool(false));
    BlockToggledSpec(once, id, Bool(true));
    forall i | 0 <= i < |vs| ensures twice[i] == vs[i] {
      if Prop(vs[i], "_id") == id {
        assert Prop(once[i], "_id") == id;
        assert twice[i].Keys == vs[i].Keys;
        assert forall k :: k in vs[i] ==> twice[i][k] == vs[i][k];
      }
    }
  }

  /** `vendors.filter(v => v._id !== id)`. */
  function WithoutVendor(id: JsValue): Object -> bool {
    v => Prop(v, "_id") != id
  }

  /** After a delete, exactly the vendors with another id remain, in their order. */
  lemma DeletedSpec(vs: seq<Object>, id: JsValue)
    ensures forall v :: v in Filter(vs, WithoutVendor(id)) <==> v in vs && Prop(v, "_id") != id
    ensures (forall i :: 0 <= i < |vs| ==> Prop(vs[i], "_id") != id) ==> Filter(vs, WithoutVendor(id)) == vs
  {
    forall v ensures v in Filter(vs, WithoutVendor(id)) <==> v in vs && Prop(v, "_id") != id {
      FilterMembers(vs, WithoutVendor(id), v);
    }
    if forall i :: 0 <= i < |vs| ==> Prop(vs[i], "_id") != id {
      FilterKeepsAll(vs, WithoutVendor(id));
    }
  }

  /** The badge text: the status with its first letter upper-cased. */
  function BadgeLabel(status: string): (text: string)
    ensures |text| == |status|
    ensures status != "" ==> text[0] == Text.UpperChar(status[0]) && text[1..] == status[1..]
    ensures Text.Lower(text) == Text.Lower(status)
  {
    Text.CapitalizeSpec(status);
    Text.Capitalize(status)
  }

  /** The badge colours of the four known statuses; any other status has none. */
  function BadgeColors(status: string): Option<string> {
    match status
    case "approved" => Some("bg-green-100 text-green-700 border-green-300")
    case "pending" => Some("bg-yellow-100 text-yellow-700 border-yellow-300")
    case "blocked" => Some("bg-red-100 text-red-700 border-red-300")
    case "rejected" => Some("bg-gray-200 text-gray-700 border-gray-300")
    case _ => None
  }

  /** Exactly the statuses the filter offers have a colour. */
  lemma BadgeColorsSpec(status: string)
    ensures BadgeColors(status).Some? <==> status in ["approved", "pending", "blocked", "rejected"]
  {
  }

  class VendorsPage {
    var categoryFilter: string
    var statusFilter: string
    var vendors: seq<Object>
    var categories: seq<JsValue>

    constructor ()
      ensures categoryFilter == "" && statusFilter == "" && vendors == [] && categories == []
    {
      categoryFilter := "";
      statusFilter := "";
      vendors := [];
      categories := [];
    }

    /**
     * `fetchVendors` once `vendorApi.getAll` has answered with `vendors`
     * (`None` when the body has none): the URL carries no query, because
     * the filters are passed under names `getAll` does not read; a success
     * stores the filtered list and the categories of the whole list, a
     * failure changes nothing.
     */
    method FetchVendors(result: Http.Envelope<Option<seq<Object>>>) returns (url: string)
      modifies this`vendors, this`categories
      ensures url == VendorApi.VENDORS_PATH
      ensures result.Success? ==>
        var all := result.data.GetOr([]);
        vendors == Narrow(Narrow(all, "category", categoryFilter), "status", statusFilter)
        && categories == Categories(all)
      ensures result.Failure? ==> vendors == old(vendors) && categories == old(categories)
    {
      var filters := map["categoryFilter" := Str(categoryFilter), "statusFilter" := Str(statusFilter)];
      url := VendorApi.BuildGetAllUrl(filters);
      VendorApi.PageFiltersIgnored(categoryFilter, statusFilter);
      if result.Success? {
        var list := if result.data.Some? then result.data.value else [];
        if categoryFilter != "" {
          list := Filter(list, FieldIs("category", categoryFilter));
        }
        if statusFilter != "" {
          list := Filter(list, FieldIs("status", statusFilter));
        }
        vendors := list;
        categories := Categories(result.data.GetOr([]));
      }
    }

    /** A filter change, then the refetch it triggers. */
    method SelectFilters(category: string, status: string, result: Http.Envelope<Option<seq<Object>>>)
      returns (url: string)
      modifies this`categoryFilter, this`statusFilter, this`vendors, this`categories
      ensures categoryFilter == category && statusFilter == status
      ensures url == VendorApi.VENDORS_PATH
      ensures result.Success? ==>
        var all := result.data.GetOr([]);
        vendors == Narrow(Narrow(all, "category", category), "status", status)
        && categories == Categories(all)
        && forall v :: v in vendors <==>
          v in all && PassesFilter(v, "category", category) && PassesFilter(v, "status", status)
      ensures result.Failure? ==> vendors == old(vendors) && categories == old(categories)
    {
      categoryFilter := category;
      statusFilter := status;
      url := FetchVendors(result);
      if result.Success? {
        NarrowTwice(result.data.GetOr([]), "category", category, "status", status);
      }
    }

    /** `handleBlockToggle(id, name, isBlocked)`: asks for the opposite state, and applies it on success. */
    method HandleBlockToggle(id: JsValue, isBlocked: JsValue, result: Http.Envelope<JsValue>)
      returns (call: Http.Request)
      modifies this`vendors
      ensures call == VendorApi.ToggleBlockRequest(id, !Truthy(isBlocked))
      ensures result.Success? ==> vendors == BlockToggled(old(vendors), id, isBlocked)
      ensures result.Failure? ==> vendors == old(vendors)
    {
      call := VendorApi.ToggleBlockRequest(id, !Truthy(isBlocked));
      if result.Success? {
        vendors := BlockToggled(vendors, id, isBlocked);
      }
    }

    /** `handleDeleteVendor(id, name)`: on success the vendor leaves the list. */
    method HandleDeleteVendor(id: JsValue, result: Http.Envelope<JsValue>)
      returns (call: Http.Request)
      modifies this`vendors
      ensures call == VendorApi.DeleteRequest(id)
      ensures result.Success? ==> vendors == Filter(old(vendors), WithoutVendor(id))
      ensures result.Failure? ==> vendors == old(vendors)
    {
      call := VendorApi.DeleteRequest(id);
      if result.Success? {
        vendors := Filter(vendors, WithoutVendor(id));
      }
    }
  }
}
