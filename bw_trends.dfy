// The bw-admin trend analysis: no admin check; the static sample bookings
// are projected against the static catalogue and passed to the flow, and
// any failure yields one fixed fallback whatever the error was.
module BwTrends {
  import opened Results
  import opened Types
  import Data
  import opened AdminTrends

  const BwSummaryFallback: string := "An error occurred while analyzing the data. Please check the logs."

  /** The fixed fallback. */
  function BwFallback(): (r: AnalysisResult)
    ensures r.pricingSuggestions == PricingFallback && r.summary == BwSummaryFallback
  {
    AnalysisResult(BwSummaryFallback, PricingFallback)
  }

  /** `analyze` over the sample data. `today` is the moment the sample
      bookings were created; `flow` is the text-generation flow applied to the
      records. */
  method Analyze(today: int, flow: seq<TrendRecord> -> Outcome<AnalysisResult>) returns (r: AnalysisResult)
    ensures !AllTimestampsValid(Data.Bookings(today)) ==> r == BwFallback()
    ensures AllTimestampsValid(Data.Bookings(today)) ==>
      var out := flow(Project(Data.Bookings(today), Data.Services));
      (out.Ok? ==> r == out.value) && (out.Thrown? ==> r == BwFallback())
    ensures r == BwFallback() || exists rs :: flow(rs) == Ok(r)
  {
    var records := ProjectForFlow(Data.Bookings(today), Data.Services);
    if records.None? {
      return BwFallback();
    }
    var out := flow(records.value);
    match out {
      case Ok(value) => r := value;
      case Thrown(_) => r := BwFallback();
    }
  }

  /** The records sent for the sample data: every booking finds its
      service, so each record carries that service's name and price. */
  lemma SampleProjection(today: int)
    ensures |Project(Data.Bookings(today), Data.Services)| == 6
    ensures forall i :: 0 <= i < 6 ==>
      Project(Data.Bookings(today), Data.Services)[i].serviceName.Some? &&
      Project(Data.Bookings(today), Data.Services)[i].price.Some?
    ensures Project(Data.Bookings(today), Data.Services)[0].serviceName == Some("Luxury Manicure")
    ensures Project(Data.Bookings(today), Data.Services)[0].price == Some(50)
    ensures Project(Data.Bookings(today), Data.Services)[2].serviceName == Some("Balayage & Style")
    ensures Project(Data.Bookings(today), Data.Services)[2].price == Some(250)
  {
    Data.BookingsReferToCatalogue(today);
    var bs := Data.Bookings(today);
    forall i | 0 <= i < 6
      ensures Project(bs, Data.Services)[i].serviceName.Some? && Project(bs, Data.Services)[i].price.Some?
    {
      assert bs[i] in bs;
    }
    Data.FindCatalogueService(0);
    Data.FindCatalogueService(3);
  }
}
