/**
 * The customers page.  A change of the pack or status filter resets
 * "show all" and fetches the list again, filtered on the client and cut
 * to its first ten entries; "View More" fetches it again uncut.  The page
 * blocks and unblocks customers in place and offers the distinct packs as
 * filter options.
 */
module CustomerPage {

  import opened Wrappers
  import opened Js
  import opened Lists
  import opened Records
  import Http
  import CustomerApi

  const INITIAL_LIMIT := 10

  /** The pack filter, then the status filter, each only when set. */
  function Matching(data: seq<Object>, pack: string, status: string): seq<Object> {
    Narrow(Narrow(data, "currentPack", pack), "status", status)
  }

  /** What `fetchCustomers(limit)` stores: the matching customers, the first ten of them when `limit`. */
  function Fetched(data: seq<Object>, pack: string, status: string, limit: bool): seq<Object> {
    if limit then Take(Matching(data, pack, status), INITIAL_LIMIT) else Matching(data, pack, status)
  }

  /** A customer passes the filters when each filter that is set equals its field. */
  predicate Passes(c: Object, pack: string, status: string) {
    PassesFilter(c, "currentPack", pack) && PassesFilter(c, "status", status)
  }

  /**
   * The filtered list keeps exactly the customers that pass both filters,
   * in their order in the fetched list; the limited list is its first ten
   * entries.
   */
  lemma FetchedSpec(data: seq<Object>, pack: string, status: string)
    ensures Matching(data, pack, status) == Filter(data, PassesBoth("currentPack", pack, "status", status))
    ensures forall c :: c in Matching(data, pack, status) <==> c in data && Passes(c, pack, status)
    ensures Fetched(data, pack, status, true) <= Matching(data, pack, status)
    ensures |Fetched(data, pack, status, true)| == if |Matching(data, pack, status)| <= INITIAL_LIMIT
                                                   then |Matching(data, pack, status)| else INITIAL_LIMIT
  {
    NarrowTwice(data, "currentPack", pack, "status", status);
  }

  /** The first ten entries, or all of them when `showAll`. */
  function Displayed(customers: seq<Object>, showAll: bool): (r: seq<Object>)
    ensures r <= customers
    ensures showAll ==> r == customers
    ensures !showAll ==> |r| == if |customers| <= INITIAL_LIMIT then |customers| else INITIAL_LIMIT
  {
    if showAll then customers else Take(customers, INITIAL_LIMIT)
  }

  /** `c._id || c.id`. */
  function RecordId(c: Object): JsValue {
    Or(Prop(c, "_id"), Prop(c, "id"))
  }

  /** The state update of a successful toggle. */
  function ToggledBlock(cs: seq<Object>, id: JsValue, isBlocked: bool): seq<Object> {
    Map(cs, c => if RecordId(c) == id then c["isBlocked" := Bool(!isBlocked)] else c)
  }

  /**
   * A toggle keeps the length, leaves every other customer as it was, and
   * on the matching ones sets `isBlocked` to the opposite of the shown
   * state and changes no other field.
   */
  lemma ToggledBlockSpec(cs: seq<Object>, id: JsValue, isBlocked: bool)
    ensures |ToggledBlock(cs, id, isBlocked)| == |cs|
    ensures forall i :: 0 <= i < |cs| && RecordId(cs[i]) != id ==> ToggledBlock(cs, id, isBlocked)[i] == cs[i]
    ensures forall i :: 0 <= i < |cs| && RecordId(cs[i]) == id ==>
      var r := ToggledBlock(cs, id, isBlocked)[i];
      r.Keys == cs[i].Keys + {"isBlocked"} && r["isBlocked"] == Bool(!isBlocked)
      && forall k :: k in cs[i] && k != "isBlocked" ==> r[k] == cs[i][k]
  {
  }

  /** `customers.map(c => c.currentPack).filter(Boolean)`. */
  function Packs(customers: seq<Object>): seq<JsValue> {
    Filter(Map(customers, c => Prop(c, "currentPack")), Truthy)
  }

  /** `Array.from(new Set(packs))`. */
  function PackOptions(customers: seq<Object>): seq<JsValue> {
    Distinct(Packs(customers))
  }

  /**
   * The options are the truthy packs of the listed customers, each once,
   * in the order in which they first occur.
   */
  lemma {:induction false} PackOptionsSpec(customers: seq<Object>)
    ensures forall x :: x in PackOptions(customers) ==> x in Packs(customers)
    ensures forall x :: x in PackOptions(customers) <==>
      Truthy(x) && exists i :: 0 <= i < |customers| && Prop(customers[i], "currentPack") == x
    ensures forall i, j :: 0 <= i < j < |PackOptions(customers)| ==> PackOptions(customers)[i] != PackOptions(customers)[j]
    ensures forall i, j :: 0 <= i < j < |PackOptions(customers)| ==>
      FirstIndex(Packs(customers), PackOptions(customers)[i]) < FirstIndex(Packs(customers), PackOptions(customers)[j])
  {
    var all := Map(customers, c => Prop(c, "currentPack"));
    forall x ensures x in PackOptions(customers) <==>
      Truthy(x) && exists i :: 0 <= i < |customers| && Prop(customers[i], "currentPack") == x
    {
      DistinctMembers(Packs(customers), x);
      FilterMembers(all, Truthy, x);
      if x in all {
        var i :| 0 <= i < |all| && all[i] == x;
        assert Prop(customers[i], "currentPack") == x;
      }
      if exists i :: 0 <= i < |customers| && Prop(customers[i], "currentPack") == x {
        var i :| 0 <= i < |customers| && Prop(customers[i], "currentPack") == x;
        assert all[i] == x;
      }
    }
    DistinctNoDuplicates(Packs(customers));
    DistinctFirstOccurrenceOrder(Packs(customers));
  }

  class CustomersPage {
    var customers: seq<Object>
    var selectedPack: string
    var selectedStatus: string
    var showAll: bool
    var loading: bool
    var total: int

    constructor ()
      ensures customers == [] && selectedPack == "" && selectedStatus == ""
      ensures !showAll && !loading && total == 0
    {
      customers := [];
      selectedPack := "";
      selectedStatus := "";
      showAll := false;
      loading := false;
      total := 0;
    }

    /** The "View More" button: `!showAll && total > 10`. */
    predicate ViewMoreShown()
      reads this
    {
      !showAll && total > INITIAL_LIMIT
    }

    /**
     * `fetchCustomers(limitForInitial)` once `customerApi.getAll()` has
     * answered: a success stores the filtered (and possibly cut) list and
     * its length as `total`; a failure keeps both.  `loading` ends false.
     * `getAll()` is called without filters, so the request is the bare
     * path and all filtering happens on the page.
     */
    method FetchCustomers(result: Http.Envelope<Option<seq<Object>>>, limitForInitial: bool) returns (url: string)
      modifies this`customers, this`total, this`loading
      ensures url == CustomerApi.GetAllUrl(map[]) && url == CustomerApi.CUSTOMERS_PATH
      ensures result.Success? ==>
        customers == Fetched(result.data.GetOr([]), selectedPack, selectedStatus, limitForInitial)
        && total == |customers|
      ensures result.Failure? ==> customers == old(customers) && total == old(total)
      ensures result.Success? && limitForInitial ==> total <= INITIAL_LIMIT
      ensures !loading
    {
      loading := true;
      url := CustomerApi.BuildGetAllUrl(map[]);
      CustomerApi.GetAllUrlSpec(map[]);
      if result.Success? {
        var data := if result.data.Some? then result.data.value else [];
        if selectedPack != "" {
          data := Filter(data, FieldIs("currentPack", selectedPack));
        }
        if selectedStatus != "" {
          data := Filter(data, FieldIs("status", selectedStatus));
        }
        if limitForInitial {
          data := Take(data, INITIAL_LIMIT);
        }
        customers := data;
        total := |data|;
      }
      loading := false;
    }

    /**
     * The effect on a filter change (and on mount): "show all" off, then
     * the limited fetch.  "View More" can then show only when this fetch
     * failed and an earlier uncut list had more than ten entries.
     */
    method SelectFilters(pack: string, status: string, result: Http.Envelope<Option<seq<Object>>>)
      returns (url: string)
      modifies this`selectedPack, this`selectedStatus, this`showAll, this`customers, this`total, this`loading
      ensures selectedPack == pack && selectedStatus == status && !showAll && !loading
      ensures url == CustomerApi.CUSTOMERS_PATH
      ensures result.Success? ==> customers == Fetched(result.data.GetOr([]), pack, status, true) && total == |customers|
      ensures result.Failure? ==> customers == old(customers) && total == old(total)
      ensures ViewMoreShown() ==> result.Failure? && old(total) > INITIAL_LIMIT
    {
      selectedPack := pack;
      selectedStatus := status;
      showAll := false;
      url := FetchCustomers(result, true);
    }

    /** "View More": show all, then fetch the uncut list; the button is gone afterwards. */
    method ViewMore(result: Http.Envelope<Option<seq<Object>>>) returns (url: string)
      modifies this`showAll, this`customers, this`total, this`loading
      ensures showAll && !ViewMoreShown() && !loading
      ensures url == CustomerApi.CUSTOMERS_PATH
      ensures result.Success? ==>
        customers == Fetched(result.data.GetOr([]), selectedPack, selectedStatus, false) && total == |customers|
      ensures result.Failure? ==> customers == old(customers) && total == old(total)
    {
      showAll := true;
      url := FetchCustomers(result, false);
    }

    /**
     * `handleToggleBlock(customerId, isBlocked)`: unblocks a blocked
     * customer and blocks any other; on success the list is updated in
     * place, on failure it is kept.
     */
    method HandleToggleBlock(customerId: JsValue, isBlocked: bool, result: Http.Envelope<JsValue>)
      returns (call: Http.Request)
      modifies this`customers
      ensures call == if isBlocked then CustomerApi.UnblockRequest(customerId) else CustomerApi.BlockRequest(customerId)
      ensures result.Success? ==> customers == ToggledBlock(old(customers), customerId, isBlocked)
      ensures result.Failure? ==> customers == old(customers)
    {
      call := if isBlocked then CustomerApi.UnblockRequest(customerId) else CustomerApi.BlockRequest(customerId);
      if result.Success? {
        customers := ToggledBlock(customers, customerId, isBlocked);
      }
    }
  }
}
