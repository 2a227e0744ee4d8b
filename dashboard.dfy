// The bw-admin dashboard: paid revenue, the booking count and the five most
// recent bookings, the last obtained by sorting the fetched bookings array
// in place, newest first, and keeping its first five entries.
module Dashboard {
  import opened Results
  import opened Types
  import opened Lookup
  import AdminColumns
  import Data

  /** `services.find(s => s.id === serviceId)?.price || 0`. */
  function PriceOrZero(services: seq<Service>, serviceId: string): int {
    match Find(services, ServiceId, serviceId)
    case None => 0
    case Some(s) => s.price
  }

  /** `bookings.filter(b => b.paymentStatus === 'Paid')`: every paid booking
      as often as it occurs, and nothing else. */
  function PaidBookings(bookings: seq<Booking>): (r: seq<Booking>)
    ensures forall b :: b in r ==> b in bookings && b.paymentStatus == Paid
    ensures forall b :: b in bookings && b.paymentStatus == Paid ==> b in r
    ensures forall b :: multiset(r)[b] == if b.paymentStatus == Paid then multiset(bookings)[b] else 0
  {
    if bookings == [] then []
    else
      assert bookings == [bookings[0]] + bookings[1..];
      if bookings[0].paymentStatus == Paid then [bookings[0]] + PaidBookings(bookings[1..])
      else PaidBookings(bookings[1..])
  }

  /** The filter keeps order: filtering a concatenation filters each part. */
  lemma {:induction false} PaidBookingsAppend(xs: seq<Booking>, ys: seq<Booking>)
    ensures PaidBookings(xs + ys) == PaidBookings(xs) + PaidBookings(ys)
    decreases |xs|
  {
    if xs == [] {
      assert xs + ys == ys;
    } else {
      assert (xs + ys)[1..] == xs[1..] + ys;
      PaidBookingsAppend(xs[1..], ys);
    }
  }

  /** A single booking is kept exactly when it is paid. With
      `PaidBookingsAppend` this determines the filter on every list. */
  lemma PaidBookingsSingle(b: Booking)
    ensures PaidBookings([b]) == if b.paymentStatus == Paid then [b] else []
  {
    assert [b][1..] == [];
  }

  /** `.reduce((acc, b) => acc + price(b), acc)`: a left fold. */
  function FoldRevenue(acc: int, bookings: seq<Booking>, services: seq<Service>): int
    decreases |bookings|
  {
    if bookings == [] then acc
    else FoldRevenue(acc + PriceOrZero(services, bookings[0].serviceId), bookings[1..], services)
  }

  /** What one booking adds to the revenue. */
  function Contribution(b: Booking, services: seq<Service>): int {
    if b.paymentStatus == Paid then PriceOrZero(services, b.serviceId) else 0
  }

  /** Reference definition: the sum of the contributions of all bookings. */
  function RevenueSum(bookings: seq<Booking>, services: seq<Service>): int {
    if bookings == [] then 0 else Contribution(bookings[0], services) + RevenueSum(bookings[1..], services)
  }

  /** `totalRevenue`: the filter-then-reduce over the paid bookings equals
      the plain sum of every booking's contribution (the matched price for a
      paid booking, 0 without a match, 0 for an unpaid one). */
  function TotalRevenue(bookings: seq<Booking>, services: seq<Service>): (total: int)
    ensures total == RevenueSum(bookings, services)
  {
    FoldPaidIsSum(bookings, services);
    FoldRevenue(0, PaidBookings(bookings), services)
  }

  lemma {:induction false} FoldRevenueShift(acc: int, bookings: seq<Booking>, services: seq<Service>)
    ensures FoldRevenue(acc, bookings, services) == acc + FoldRevenue(0, bookings, services)
    decreases |bookings|
  {
    if bookings != [] {
      var p := PriceOrZero(services, bookings[0].serviceId);
      FoldRevenueShift(acc + p, bookings[1..], services);
      FoldRevenueShift(p, bookings[1..], services);
    }
  }

  /** Folding the paid bookings from 0 gives the reference sum. */
  lemma {:induction false} FoldPaidIsSum(bookings: seq<Booking>, services: seq<Service>)
    ensures FoldRevenue(0, PaidBookings(bookings), services) == RevenueSum(bookings, services)
    decreases |bookings|
  {
    if bookings != [] {
      FoldPaidIsSum(bookings[1..], services);
      var b := bookings[0];
      if b.paymentStatus == Paid {
        assert PaidBookings(bookings) == [b] + PaidBookings(bookings[1..]);
        assert ([b] + PaidBookings(bookings[1..]))[1..] == PaidBookings(bookings[1..]);
        FoldRevenueShift(PriceOrZero(services, b.serviceId), PaidBookings(bookings[1..]), services);
      }
    }
  }

  lemma {:induction false} RevenueSumAppend(xs: seq<Booking>, ys: seq<Booking>, services: seq<Service>)
    ensures RevenueSum(xs + ys, services) == RevenueSum(xs, services) + RevenueSum(ys, services)
    decreases |xs|
  {
    if xs == [] {
      assert xs + ys == ys;
    } else {
      assert (xs + ys)[1..] == xs[1..] + ys;
      RevenueSumAppend(xs[1..], ys, services);
    }
  }

  /** An unpaid booking, wherever it stands, does not change the revenue. */
  lemma UnpaidDoesNotCount(xs: seq<Booking>, b: Booking, ys: seq<Booking>, services: seq<Service>)
    requires b.paymentStatus == Unpaid
    ensures TotalRevenue(xs + [b] + ys, services) == TotalRevenue(xs + ys, services)
  {
    RevenueSumAppend(xs + [b], ys, services);
    RevenueSumAppend(xs, [b], services);
    RevenueSumAppend(xs, ys, services);
  }

  /** With non-negative prices the revenue is non-negative. */
  lemma {:induction false} RevenueNonNegative(bookings: seq<Booking>, services: seq<Service>)
    requires forall s :: s in services ==> s.price >= 0
    ensures TotalRevenue(bookings, services) >= 0
  {
    SumNonNegative(bookings, services);
  }

  lemma {:induction false} SumNonNegative(bookings: seq<Booking>, services: seq<Service>)
    requires forall s :: s in services ==> s.price >= 0
    ensures RevenueSum(bookings, services) >= 0
    decreases |bookings|
  {
    if bookings != [] {
      SumNonNegative(bookings[1..], services);
      var f := Find(services, ServiceId, bookings[0].serviceId);
      if f.Some? {
        var k :| FirstIndex(services, ServiceId, bookings[0].serviceId, k) && services[k] == f.value;
        assert f.value in services;
      }
    }
  }

  /** The sample data earns 50 + 250 + 75 + 110 from its four paid bookings. */
  lemma SampleRevenue(today: int)
    ensures TotalRevenue(Data.Bookings(today), Data.Services) == 485
  {
    var ss, bs := Data.Services, Data.Bookings(today);
    SampleContributions(today);
    SumOfSix(bs, ss);
  }

  /** The sum from index `k` is the contribution at `k` plus the sum after it. */
  lemma RevenueSumStep(bs: seq<Booking>, ss: seq<Service>, k: nat)
    requires k < |bs|
    ensures RevenueSum(bs[k..], ss) == Contribution(bs[k], ss) + RevenueSum(bs[k + 1..], ss)
  {
    assert bs[k..][1..] == bs[k + 1..];
  }

  /** The reference sum of six bookings, spelled out term by term. */
  lemma SumOfSix(bs: seq<Booking>, ss: seq<Service>)
    requires |bs| == 6
    ensures RevenueSum(bs, ss) ==
      Contribution(bs[0], ss) + Contribution(bs[1], ss) + Contribution(bs[2], ss) +
      Contribution(bs[3], ss) + Contribution(bs[4], ss) + Contribution(bs[5], ss)
  {
    RevenueSumStep(bs, ss, 0);
    RevenueSumStep(bs, ss, 1);
    RevenueSumStep(bs, ss, 2);
    RevenueSumStep(bs, ss, 3);
    RevenueSumStep(bs, ss, 4);
    RevenueSumStep(bs, ss, 5);
    assert bs[6..] == [];
    assert bs[0..] == bs;
  }

  lemma SampleContributions(today: int)
    ensures var ss, bs := Data.Services, Data.Bookings(today);
      Contribution(bs[0], ss) == 50 && Contribution(bs[1], ss) == 0 && Contribution(bs[2], ss) == 250 &&
      Contribution(bs[3], ss) == 75 && Contribution(bs[4], ss) == 0 && Contribution(bs[5], ss) == 110
  {
    var ss, bs := Data.Services, Data.Bookings(today);
    Data.FindCatalogueService(0);
    Data.FindCatalogueService(3);
    Data.FindCatalogueService(1);
    Data.FindCatalogueService(5);
    assert bs[0].serviceId == ss[0].id && bs[2].serviceId == ss[3].id;
    assert bs[3].serviceId == ss[1].id && bs[5].serviceId == ss[5].id;
  }

  /** Newest first. */
  predicate DateDescending(s: seq<Booking>) {
    forall i, j :: 0 <= i < j < |s| ==> s[i].bookingDate >= s[j].bookingDate
  }

  /** `bookings.sort((a, b) => date(b) - date(a))`, in place on the fetched
      array (an insertion sort, which like the engine's sort is stable). */
  method SortByDateDescending(a: array<Booking>)
    modifies a
    ensures DateDescending(a[..])
    ensures multiset(a[..]) == multiset(old(a[..]))
  {
    var i := 0;
    while i < a.Length
      invariant 0 <= i <= a.Length
      invariant DateDescending(a[..i])
      invariant multiset(a[..]) == multiset(old(a[..]))
    {
      InsertNext(a, i);
      i := i + 1;
    }
  }

  /** Moves `a[i]` left past every strictly older booking, so that the
      newest-first prefix grows by one. */
  method InsertNext(a: array<Booking>, i: int)
    requires 0 <= i < a.Length && DateDescending(a[..i])
    modifies a
    ensures DateDescending(a[..i + 1])
    ensures multiset(a[..]) == multiset(old(a[..]))
  {
    var j := i;
    while j > 0 && a[j - 1].bookingDate < a[j].bookingDate
      invariant 0 <= j <= i
      invariant forall p, q :: 0 <= p < q <= i && p != j && q != j ==> a[p].bookingDate >= a[q].bookingDate
      invariant forall q :: j < q <= i ==> a[j].bookingDate > a[q].bookingDate
      invariant multiset(a[..]) == multiset(old(a[..]))
    {
      ghost var before := a[..];
      a[j - 1], a[j] := a[j], a[j - 1];
      assert a[..] == before[j - 1 := before[j]][j := before[j - 1]];
      j := j - 1;
    }
  }

  function Min(x: int, y: int): int { if x <= y then x else y }

  /** `recentBookings`: sort the array in place, then `slice(0, 5)`. */
  method RecentBookings(a: array<Booking>) returns (recent: seq<Booking>)
    modifies a
    ensures DateDescending(a[..]) && multiset(a[..]) == multiset(old(a[..]))
    ensures recent == a[..Min(5, a.Length)]
  {
    SortByDateDescending(a);
    recent := a[..Min(5, a.Length)];
  }

  /** In a newest-first list, every booking of a prefix is at least as recent
      as every booking after it: the slice holds the most recent bookings. */
  lemma PrefixIsMostRecent(s: seq<Booking>, k: nat)
    requires DateDescending(s) && k <= |s|
    ensures forall x, y :: x in s[..k] && y in s[k..] ==> x.bookingDate >= y.bookingDate
  {
    forall x, y | x in s[..k] && y in s[k..] ensures x.bookingDate >= y.bookingDate {
      var i :| 0 <= i < k && s[i] == x;
      var j :| k <= j < |s| && s[j] == y;
    }
  }

  /** The recent-bookings badge: `default` for Completed, `secondary` otherwise. */
  function RecentBadge(s: Status): (r: AdminColumns.Variant)
    ensures r == AdminColumns.Default <==> s == Completed
    ensures r != AdminColumns.Default ==> r == AdminColumns.Secondary
  {
    if s == Completed then AdminColumns.Default else AdminColumns.Secondary
  }

  datatype RecentRow = RecentRow(client: Option<User>, service: Option<Service>, status: Status, badge: AdminColumns.Variant)

  datatype DashboardView =
    | DashboardLoading
    | DashboardReady(totalRevenue: int, totalBookings: nat, totalServices: nat, totalClients: nat,
                     recent: seq<RecentRow>)

  function RecentRowOf(b: Booking, services: seq<Service>, users: seq<User>): RecentRow {
    RecentRow(Find(users, UserId, b.userId), Find(services, ServiceId, b.serviceId), b.status, RecentBadge(b.status))
  }

  function OrEmpty<T>(data: Option<seq<T>>): seq<T> {
    if data.Some? then data.value else []
  }

  /** The dashboard render: only the loading view while any collection
      loads; otherwise absent data counts as empty, the revenue and count are
      computed, and the bookings array is sorted in place for the recent list. */
  method RenderDashboard(
    bookingsLoading: bool, servicesLoading: bool, usersLoading: bool,
    bookingsData: Option<array<Booking>>, servicesData: Option<seq<Service>>, usersData: Option<seq<User>>)
    returns (v: DashboardView)
    modifies if bookingsData.Some? then {bookingsData.value} else {}
    ensures (bookingsLoading || servicesLoading || usersLoading) <==> v == DashboardLoading
    ensures v == DashboardLoading && bookingsData.Some? ==> unchanged(bookingsData.value)
    ensures v.DashboardReady? ==>
      var services, users := OrEmpty(servicesData), OrEmpty(usersData);
      var before := if bookingsData.Some? then old(bookingsData.value[..]) else [];
      var after := if bookingsData.Some? then bookingsData.value[..] else [];
      && v.totalRevenue == TotalRevenue(before, services)
      && v.totalBookings == |before|
      && v.totalServices == |services| && v.totalClients == |users|
      && DateDescending(after) && multiset(after) == multiset(before)
      && |v.recent| == Min(5, |after|)
      && forall i :: 0 <= i < |v.recent| ==> v.recent[i] == RecentRowOf(after[i], services, users)
  {
    if bookingsLoading || servicesLoading || usersLoading {
      return DashboardLoading;
    }
    var services, users := OrEmpty(servicesData), OrEmpty(usersData);
    var recent: seq<Booking> := [];
    var revenue := 0;
    var count := 0;
    if bookingsData.Some? {
      var a := bookingsData.value;
      revenue := TotalRevenue(a[..], services);
      count := a.Length;
      recent := RecentBookings(a);
    }
    var rows := seq(|recent|, i requires 0 <= i < |recent| => RecentRowOf(recent[i], services, users));
    v := DashboardReady(revenue, count, |services|, |users|, rows);
  }
}
