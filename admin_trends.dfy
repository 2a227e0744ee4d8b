// The admin trend analysis: the admin check comes first, then the two
// collection reads, then the projection of bookings into trend records and
// the call to the text-generation flow. Every failure on the way is turned
// into a fallback result, so the action always returns both fields.
module AdminTrends {
  import opened Results
  import opened Types
  import opened Lookup
  import ServerAuth

  /** One entry of the data sent to the flow. A booking whose service is not
      found gets neither a name nor a price. */
  datatype TrendRecord = TrendRecord(serviceName: Option<string>, price: Option<int>, bookingTimestamp: int)

  /** The flow's two text fields. */
  datatype AnalysisResult = AnalysisResult(summary: string, pricingSuggestions: string)

  /** The largest distance from the epoch, in milliseconds, that a
      JavaScript Date can hold; `toISOString` throws a RangeError with the
      message "Invalid time value" beyond it. */
  const MaxTimeMs: int := 8640000000000000
  const InvalidTimeValue: string := "Invalid time value"

  predicate TimestampValid(t: int) {
    -MaxTimeMs <= t <= MaxTimeMs
  }

  predicate AllTimestampsValid(bookings: seq<Booking>) {
    forall i :: 0 <= i < |bookings| ==> TimestampValid(bookings[i].bookingDate)
  }

  /** The record for one booking: the first service with its id supplies the
      name and the price. */
  function RecordOf(b: Booking, services: seq<Service>): (t: TrendRecord)
    ensures t.bookingTimestamp == b.bookingDate
    ensures t.serviceName.Some? <==> HasId(services, ServiceId, b.serviceId)
    ensures t.price.Some? <==> t.serviceName.Some?
    ensures t.serviceName.Some? ==>
      exists k :: FirstIndex(services, ServiceId, b.serviceId, k) &&
        t.serviceName == Some(services[k].name) && t.price == Some(services[k].price)
  {
    var m := Find(services, ServiceId, b.serviceId);
    if m.Some? then TrendRecord(Some(m.value.name), Some(m.value.price), b.bookingDate)
    else TrendRecord(None, None, b.bookingDate)
  }

  /** The projection: one record per booking, in the bookings' order. */
  function Project(bookings: seq<Booking>, services: seq<Service>): (records: seq<TrendRecord>)
    ensures |records| == |bookings|
    ensures forall i :: 0 <= i < |bookings| ==> records[i] == RecordOf(bookings[i], services)
  {
    seq(|bookings|, i requires 0 <= i < |bookings| => RecordOf(bookings[i], services))
  }

  /** Projecting a concatenation projects each part: the order of the
      bookings is kept. */
  lemma ProjectAppend(xs: seq<Booking>, ys: seq<Booking>, services: seq<Service>)
    ensures Project(xs + ys, services) == Project(xs, services) + Project(ys, services)
  {
    assert forall i :: 0 <= i < |xs| ==> (xs + ys)[i] == xs[i];
    assert forall i :: 0 <= i < |ys| ==> (xs + ys)[|xs| + i] == ys[i];
  }

  /** `bookings.map(...)` with `toISOString` inside: the map stops with a
      RangeError at the first timestamp out of range, and otherwise yields
      the projection. */
  method ProjectForFlow(bookings: seq<Booking>, services: seq<Service>) returns (records: Option<seq<TrendRecord>>)
    ensures records.None? <==> !AllTimestampsValid(bookings)
    ensures records.Some? ==> records.value == Project(bookings, services)
  {
    var i := 0;
    var acc: seq<TrendRecord> := [];
    while i < |bookings|
      invariant 0 <= i <= |bookings|
      invariant forall j :: 0 <= j < i ==> TimestampValid(bookings[j].bookingDate)
      invariant acc == Project(bookings[..i], services)
    {
      if !TimestampValid(bookings[i].bookingDate) {
        return None;
      }
      acc := acc + [RecordOf(bookings[i], services)];
      i := i + 1;
    }
    assert bookings[..i] == bookings;
    return Some(acc);
  }

  const Unauthorized: string := "Unauthorized: Admin access required."
  const SummaryPrefix: string := "An error occurred while analyzing the data: "
  const UnknownError: string := "An unknown error occurred."
  const PricingFallback: string := "Could not generate pricing suggestions due to an error."

  /** The message the catch block reports: an Error's message, or a fixed
      text for any other thrown value. */
  function MessageOf(e: ThrownValue): (m: string)
    ensures e.ErrorObject? ==> m == e.message
    ensures e.NonErrorValue? ==> m == UnknownError
  {
    match e
    case ErrorObject(message) => message
    case NonErrorValue => UnknownError
  }

  /** The result returned from the catch block. */
  function Fallback(e: ThrownValue): (r: AnalysisResult)
    ensures r.pricingSuggestions == PricingFallback
    ensures |r.summary| >= |SummaryPrefix| && r.summary[..|SummaryPrefix|] == SummaryPrefix
    ensures r.summary[|SummaryPrefix|..] == MessageOf(e)
  {
    AnalysisResult(SummaryPrefix + MessageOf(e), PricingFallback)
  }

  /** The collections are read only when getting the admin app did not
      throw, the caller is an admin, and initialising the client SDK did
      not throw. */
  predicate ReachesReads(adminAppFailure: Option<ThrownValue>, authorization: Option<string>,
                         verify: string -> Outcome<ServerAuth.DecodedToken>, initFailure: Option<ThrownValue>)
  {
    adminAppFailure.None? && ServerAuth.AdminAuthUser(authorization, verify).Some? && initFailure.None?
  }

  /** `analyze`. `adminAppFailure` is what getting the admin app and its
      auth service throws, if anything, before the header is looked at;
      `authorization` and `verify` feed the admin check; `initFailure` is
      what initialising the client SDK throws, if anything; `bookingsRead`
      and `servicesRead` are what reading the two collections gives; `flow`
      is the text-generation flow applied to the records. `collectionsRead`
      lists the collections actually read, in order. */
  method Analyze(adminAppFailure: Option<ThrownValue>,
                 authorization: Option<string>, verify: string -> Outcome<ServerAuth.DecodedToken>,
                 initFailure: Option<ThrownValue>,
                 bookingsRead: Outcome<seq<Booking>>, servicesRead: Outcome<seq<Service>>,
                 flow: seq<TrendRecord> -> Outcome<AnalysisResult>)
    returns (r: AnalysisResult, collectionsRead: seq<string>)
    // A throw while getting the admin app ends everything.
    ensures adminAppFailure.Some? ==> collectionsRead == [] && r == Fallback(adminAppFailure.value)
    // Without an admin, nothing is read.
    ensures adminAppFailure.None? && ServerAuth.AdminAuthUser(authorization, verify).None? ==>
      collectionsRead == [] && r == Fallback(ErrorObject(Unauthorized))
    // With one, a failed initialisation still reads nothing.
    ensures adminAppFailure.None? && ServerAuth.AdminAuthUser(authorization, verify).Some? && initFailure.Some? ==>
      collectionsRead == [] && r == Fallback(initFailure.value)
    // Otherwise bookings are read first, and services only if that worked.
    ensures ReachesReads(adminAppFailure, authorization, verify, initFailure) ==>
      collectionsRead == if bookingsRead.Ok? then ["bookings", "services"] else ["bookings"]
    ensures ReachesReads(adminAppFailure, authorization, verify, initFailure) && bookingsRead.Thrown? ==>
      r == Fallback(bookingsRead.error)
    ensures ReachesReads(adminAppFailure, authorization, verify, initFailure) && bookingsRead.Ok? && servicesRead.Thrown? ==>
      r == Fallback(servicesRead.error)
    ensures ReachesReads(adminAppFailure, authorization, verify, initFailure) && bookingsRead.Ok? && servicesRead.Ok? ==>
      if !AllTimestampsValid(bookingsRead.value) then r == Fallback(ErrorObject(InvalidTimeValue))
      else
        var out := flow(Project(bookingsRead.value, servicesRead.value));
        (out.Ok? ==> r == out.value) && (out.Thrown? ==> r == Fallback(out.error))
    // Either the flow's own result, or a fallback.
    ensures r.pricingSuggestions == PricingFallback || exists rs :: flow(rs) == Ok(r)
  {
    collectionsRead := [];
    if adminAppFailure.Some? {
      return Fallback(adminAppFailure.value), collectionsRead;
    }
    var adminUser := ServerAuth.AdminAuthUser(authorization, verify);
    if adminUser.None? {
      return Fallback(ErrorObject(Unauthorized)), collectionsRead;
    }
    if initFailure.Some? {
      return Fallback(initFailure.value), collectionsRead;
    }
    collectionsRead := collectionsRead + ["bookings"];
    if bookingsRead.Thrown? {
      return Fallback(bookingsRead.error), collectionsRead;
    }
    var bookings := bookingsRead.value;
    collectionsRead := collectionsRead + ["services"];
    if servicesRead.Thrown? {
      return Fallback(servicesRead.error), collectionsRead;
    }
    var services := servicesRead.value;
    var records := ProjectForFlow(bookings, services);
    if records.None? {
      return Fallback(ErrorObject(InvalidTimeValue)), collectionsRead;
    }
    var out := flow(records.value);
    match out {
      case Ok(value) => r := value;
      case Thrown(e) => r := Fallback(e);
    }
  }
}
