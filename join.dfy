// The client-side join of the two bookings tables (admin and bw-admin):
// each booking is paired with the first service and the first client whose
// id matches, or with nothing, by a linear `find`.
module BookingJoin {
  import opened Results
  import opened Types
  import opened Lookup

  /** A booking with its joined service and client (`undefined` when absent). */
  datatype BookingWithDetails = BookingWithDetails(booking: Booking, service: Option<Service>, user: Option<User>)

  /** The `bookingsWithDetails` memo: empty until all three collections have
      data, otherwise one record per booking, in order, every booking field
      kept and the first matching service and client attached. */
  function JoinBookings(
    bookingsData: Option<seq<Booking>>, servicesData: Option<seq<Service>>, usersData: Option<seq<User>>)
    : (r: seq<BookingWithDetails>)
    ensures bookingsData.None? || servicesData.None? || usersData.None? ==> r == []
    ensures bookingsData.Some? && servicesData.Some? && usersData.Some? ==>
      |r| == |bookingsData.value| &&
      forall i :: 0 <= i < |r| ==>
        r[i].booking == bookingsData.value[i] &&
        FirstMatch(servicesData.value, ServiceId, r[i].booking.serviceId, r[i].service) &&
        FirstMatch(usersData.value, UserId, r[i].booking.userId, r[i].user)
  {
    if bookingsData.None? || servicesData.None? || usersData.None? then []
    else
      var bs, ss, us := bookingsData.value, servicesData.value, usersData.value;
      seq(|bs|, i requires 0 <= i < |bs| =>
        BookingWithDetails(bs[i], Find(ss, ServiceId, bs[i].serviceId), Find(us, UserId, bs[i].userId)))
  }

  /** A live collection subscription as the page sees it. */
  datatype CollectionState<T> = CollectionState(data: Option<seq<T>>, isLoading: bool)

  datatype BookingsPageView = LoadingBookings | BookingsTable(rows: seq<BookingWithDetails>)

  /** The bookings page: the loading view while any of the three collections
      is loading, the joined table otherwise. (The admin page also ORs in
      `isUserLoading`, which the auth hook does not return, so it is always
      `undefined` and changes nothing; the bw-admin page omits it.) */
  function BookingsPage(
    bookings: CollectionState<Booking>, services: CollectionState<Service>, users: CollectionState<User>)
    : (v: BookingsPageView)
    ensures v.LoadingBookings? <==> bookings.isLoading || services.isLoading || users.isLoading
    ensures v.BookingsTable? ==> v.rows == JoinBookings(bookings.data, services.data, users.data)
  {
    if bookings.isLoading || services.isLoading || users.isLoading then LoadingBookings
    else BookingsTable(JoinBookings(bookings.data, services.data, users.data))
  }

  /** Whether the admin page opens its collections: only with both a
      database handle and a signed-in user. */
  function AdminCollectionPath(firestorePresent: bool, userPresent: bool, path: string): (r: Option<string>)
    ensures r.Some? <==> firestorePresent && userPresent
    ensures r.Some? ==> r.value == path
  {
    if firestorePresent && userPresent then Some(path) else None
  }

  /** The bw-admin page opens its collections whenever the database handle is present. */
  function BwCollectionPath(firestorePresent: bool, path: string): (r: Option<string>)
    ensures r.Some? <==> firestorePresent
    ensures r.Some? ==> r.value == path
  {
    if firestorePresent then Some(path) else None
  }

  /** A dangling service or client reference degrades to `undefined` in its
      row; it never removes the row. */
  lemma DanglingReferenceKeepsRow(bs: seq<Booking>, ss: seq<Service>, us: seq<User>, i: int)
    requires 0 <= i < |bs|
    requires forall s :: s in ss ==> s.id != bs[i].serviceId
    ensures var rows := JoinBookings(Some(bs), Some(ss), Some(us));
      |rows| == |bs| && rows[i].booking == bs[i] && rows[i].service == None
  {
  }
}
