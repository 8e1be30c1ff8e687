/**
 * The bookings page.  The fetched bookings become table rows with a
 * service summary; two counters give their number and the number of
 * completed ones.  The table shows the rows that match a case-insensitive
 * search on the customer or service name and the chosen status.
 */
module BookingPage {

  import opened Wrappers
  import opened Js
  import opened Lists
  import Text
  import Http

  /** One table row, built from one backend booking. */
  datatype Row = Row(
    id: JsValue,
    customerId: JsValue,
    customerName: JsValue,
    vendorId: JsValue,
    services: JsValue,
    serviceName: JsValue,
    status: JsValue,
    bookingDate: JsValue)

  const NO_SERVICES := "—"

  /**
   * `services?.join(", ") || "—"`; `None` when `services` is neither an
   * array nor nullish, so that `join` is not a function and the call throws.
   */
  function ServiceName(services: JsValue): (r: Option<JsValue>)
    ensures r.None? <==> !(services.Undefined? || services.Null? || services.Arr?)
    ensures services.Undefined? || services.Null? || services == Arr([]) ==> r == Some(Str(NO_SERVICES))
    ensures r.Some? ==> r.value.Str? && r.value.s != ""
  {
    match services
    case Undefined => Some(Str(NO_SERVICES))
    case Null => Some(Str(NO_SERVICES))
    case Arr(es) =>
      var joined := Text.Join(Map(es, ElementText), ", ");
      Some(if joined != "" then Str(joined) else Str(NO_SERVICES))
    case _ => None
  }

  /** The names of the services, joined with a comma and a space. */
  lemma ServiceNameOfNames(names: seq<string>)
    requires names != [] && names[0] != ""
    ensures ServiceName(Arr(Map(names, n => Str(n)))) == Some(Str(Text.Join(names, ", ")))
  {
    var es := Map(names, n => Str(n));
    assert forall i :: 0 <= i < |names| ==> ElementText(es[i]) == names[i];
    assert Map(es, ElementText) == names;
    JoinHeadNonEmpty(names, ", ");
  }

  /** A join whose first part is non-empty is non-empty. */
  lemma JoinHeadNonEmpty(parts: seq<string>, sep: string)
    requires parts != [] && parts[0] != ""
    ensures Text.Join(parts, sep) != ""
  {
    if |parts| > 1 {
      assert Text.Join(parts, sep)[0] == parts[0][0];
    }
  }

  /** The row for booking `b`: its ids and names copied, `bookingStatus` as the status, `createdAt` as the date. */
  function FormatRow(b: Object): Option<Row> {
    var name :- ServiceName(Prop(b, "services"));
    Some(Row(Prop(b, "_id"), Prop(b, "customerId"), Prop(b, "customerName"), Prop(b, "vendorId"),
             Prop(b, "services"), name, Prop(b, "bookingStatus"), Prop(b, "createdAt")))
  }

  /** `bookings.map(...)`: every row, or `None` when formatting one of them throws. */
  function FormatAll(bs: seq<Object>): (r: Option<seq<Row>>)
    ensures r.Some? <==> forall i :: 0 <= i < |bs| ==> FormatRow(bs[i]).Some?
    ensures r.Some? ==> |r.value| == |bs| && forall i :: 0 <= i < |bs| ==> Some(r.value[i]) == FormatRow(bs[i])
  {
    if bs == [] then Some([])
    else
      match FormatRow(bs[0])
      case None => None
      case Some(row) =>
        match FormatAll(bs[1..])
        case None =>
          assert exists i :: 1 <= i < |bs| && FormatRow(bs[i]).None? by {
            var j :| 0 <= j < |bs[1..]| && FormatRow(bs[1..][j]).None?;
            assert FormatRow(bs[j + 1]).None?;
          }
          None
        case Some(rows) => Some([row] + rows)
  }

  /** A formatted row keeps the booking's fields under the row's names. */
  lemma FormatRowSpec(b: Object)
    ensures FormatRow(b).Some? <==> ServiceName(Prop(b, "services")).Some?
    ensures FormatRow(b).Some? ==>
      var r := FormatRow(b).value;
      r.id == Prop(b, "_id") && r.customerId == Prop(b, "customerId") && r.vendorId == Prop(b, "vendorId")
      && r.customerName == Prop(b, "customerName") && r.services == Prop(b, "services")
      && r.status == Prop(b, "bookingStatus") && r.bookingDate == Prop(b, "createdAt")
      && r.serviceName == ServiceName(Prop(b, "services")).value
  {
  }

  /** `b.status === "completed"`. */
  function IsCompleted(r: Row): bool {
    r.status == Str("completed")
  }

  /** The two counters: all rows, and the completed ones among them. */
  function Stats(rows: seq<Row>): (r: (nat, nat))
    ensures r.0 == |rows| && r.1 <= r.0
    ensures r.1 == multiset(Map(rows, IsCompleted))[true]
    ensures r.1 == |rows| <==> forall i :: 0 <= i < |rows| ==> IsCompleted(rows[i])
  {
    CompletedCount(rows);
    CompletedIsCount(rows);
    (|rows|, |Filter(rows, IsCompleted)|)
  }

  /** All rows are counted as completed exactly when each of them is. */
  lemma {:induction false} CompletedCount(rows: seq<Row>)
    ensures |Filter(rows, IsCompleted)| == |rows| <==> forall i :: 0 <= i < |rows| ==> IsCompleted(rows[i])
  {
    if rows != [] {
      CompletedCount(rows[1..]);
      assert forall i :: 1 <= i < |rows| ==> rows[i] == rows[1..][i - 1];
    }
  }

  /** The completed counter is the number of rows whose status is `completed`. */
  lemma {:induction false} CompletedIsCount(rows: seq<Row>)
    ensures |Filter(rows, IsCompleted)| == multiset(Map(rows, IsCompleted))[true]
  {
    if rows != [] {
      CompletedIsCount(rows[1..]);
      assert Map(rows, IsCompleted) == [IsCompleted(rows[0])] + Map(rows[1..], IsCompleted);
      assert multiset(Map(rows, IsCompleted))
        == multiset([IsCompleted(rows[0])]) + multiset(Map(rows[1..], IsCompleted));
    }
  }

  /** `v?.toLowerCase().includes(term.toLowerCase())` on a string value. */
  predicate TextMatches(v: JsValue, term: string) {
    v.Str? && Text.Contains(Text.Lower(v.s), Text.Lower(term))
  }

  /** The search and status conditions of `filteredBookings` for one row. */
  predicate Visible(r: Row, searchTerm: string, statusFilter: string) {
    (searchTerm == "" || TextMatches(r.customerName, searchTerm) || TextMatches(r.serviceName, searchTerm))
    && (statusFilter == "all" || r.status == Str(statusFilter))
  }

  function VisibleFor(searchTerm: string, statusFilter: string): Row -> bool {
    r => Visible(r, searchTerm, statusFilter)
  }

  /** `filteredBookings`. */
  function Filtered(rows: seq<Row>, searchTerm: string, statusFilter: string): seq<Row> {
    Filter(rows, VisibleFor(searchTerm, statusFilter))
  }

  /**
   * A row is shown exactly when it passes both conditions; with no search
   * and the status `all` every row is shown.  A match means that the
   * lower-cased term occurs in the lower-cased name.
   */
  lemma FilteredSpec(rows: seq<Row>, searchTerm: string, statusFilter: string)
    ensures forall r :: r in Filtered(rows, searchTerm, statusFilter) <==> r in rows && Visible(r, searchTerm, statusFilter)
    ensures searchTerm == "" && statusFilter == "all" ==> Filtered(rows, searchTerm, statusFilter) == rows
  {
    forall r ensures r in Filtered(rows, searchTerm, statusFilter) <==> r in rows && Visible(r, searchTerm, statusFilter) {
      FilterMembers(rows, VisibleFor(searchTerm, statusFilter), r);
    }
    if searchTerm == "" && statusFilter == "all" {
      FilterKeepsAll(rows, VisibleFor(searchTerm, statusFilter));
    }
  }

  /** A string matches a term exactly when the lower-cased term sits somewhere in the lower-cased string. */
  lemma TextMatchesSpec(s: string, term: string)
    ensures TextMatches(Str(s), term) ==> exists i :: Text.OccursAt(Text.Lower(s), Text.Lower(term), i)
    ensures (exists i :: Text.OccursAt(Text.Lower(s), Text.Lower(term), i)) ==> TextMatches(Str(s), term)
  {
    Text.ContainsSpec(Text.Lower(s), Text.Lower(term));
  }

  /** The search ignores the case of the term: a lower-cased term matches the same texts. */
  lemma TermCaseIgnored(v: JsValue, term: string)
    ensures TextMatches(v, Text.Lower(term)) == TextMatches(v, term)
  {
    Text.LowerIdempotent(term);
  }

  /** Every string contains itself, so a row is found by searching for its own customer name. */
  lemma FoundByOwnName(r: Row, statusFilter: string)
    requires r.customerName.Str? && r.customerName.s != ""
    requires statusFilter == "all" || r.status == Str(statusFilter)
    ensures Visible(r, r.customerName.s, statusFilter)
  {
    var low := Text.Lower(r.customerName.s);
    assert Text.OccursAt(low, low, 0);
    Text.ContainsSpec(low, low);
  }

  /** The badge configurations. */
  /** The one `bookingApi` call the page makes. */
  datatype BookingCall = ListBookings

  datatype BadgeConfig = CompletedBadge | PendingBadge | RejectedBadge | DefaultBadge

  /** `statusColors[status] || statusColors["default"]`: the property name is `String(status)`. */
  function BadgeConfigOf(status: JsValue): (c: BadgeConfig)
    ensures c == DefaultBadge <==> ToStr(status) !in {"completed", "pending", "rejected"}
  {
    match ToStr(status)
    case "completed" => CompletedBadge
    case "pending" => PendingBadge
    case "rejected" => RejectedBadge
    case _ => DefaultBadge
  }

  class BookingsPage {
    var bookings: seq<Row>
    var loading: bool
    var searchTerm: string
    var statusFilter: string
    var totalBookings: nat
    var completed: nat

    constructor ()
      ensures bookings == [] && loading && searchTerm == "" && statusFilter == "all"
      ensures totalBookings == 0 && completed == 0
    {
      bookings := [];
      loading := true;
      searchTerm := "";
      statusFilter := "all";
      totalBookings := 0;
      completed := 0;
    }

    /** The counters describe the stored rows. */
    predicate StatsAgree()
      reads this
    {
      (totalBookings, completed) == Stats(bookings)
    }

    /**
     * `fetchBookings` once `bookingApi.getAll` has answered with `bookings`
     * (`None` when that is not a list, so `map` throws): when every booking
     * formats, the rows and the counters are stored; otherwise nothing
     * changes.  `loading` ends false in every case.
     */
    method FetchBookings(result: Http.Envelope<Option<seq<Object>>>) returns (call: BookingCall)
      requires StatsAgree()
      modifies this`bookings, this`totalBookings, this`completed, this`loading
      ensures call == ListBookings && !loading && StatsAgree() && completed <= totalBookings
      ensures result.Success? && result.data.Some? && FormatAll(result.data.value).Some? ==>
        bookings == FormatAll(result.data.value).value
      ensures !(result.Success? && result.data.Some? && FormatAll(result.data.value).Some?) ==>
        bookings == old(bookings) && totalBookings == old(totalBookings) && completed == old(completed)
    {
      call := ListBookings;
      if result.Success? && result.data.Some? {
        var formatted := FormatAll(result.data.value);
        if formatted.Some? {
          bookings := formatted.value;
          var stats := Stats(formatted.value);
          totalBookings := stats.0;
          completed := stats.1;
        }
      }
      loading := false;
    }

    /** The rows the table shows. */
    function Shown(): (rows: seq<Row>)
      reads this
      ensures forall r :: r in rows <==> r in bookings && Visible(r, searchTerm, statusFilter)
    {
      FilteredSpec(bookings, searchTerm, statusFilter);
      Filtered(bookings, searchTerm, statusFilter)
    }
  }
}
