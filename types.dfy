// The domain records of the salon: services, products, bookings, clients and
// gallery images, with the two closed status enumerations of a booking.
module Types {
  import opened Results

  /** A booking's lifecycle status; exactly one of four values. */
  datatype Status = Pending | Confirmed | Cancelled | Completed

  /** A booking's payment status; an axis independent of `Status`. */
  datatype PaymentStatus = Paid | Unpaid

  /** A bookable service. `price` is a plain number (no currency field) and
      `duration` is in minutes. */
  datatype Service = Service(
    id: string, name: string, description: string,
    price: int, duration: int, category: string, imageId: string)

  datatype Product = Product(id: string, name: string, description: string, price: int, imageId: string)

  /** A booking refers to its client and its service by id only: no price or
      duration is stored on it. `bookingDate` is a timestamp in milliseconds. */
  datatype Booking = Booking(
    id: string, userId: string, serviceId: string, bookingDate: int,
    status: Status, paymentStatus: PaymentStatus)

  datatype User = User(id: string, name: string, email: string, phone: string)

  datatype GalleryImage = GalleryImage(id: string, imageId: string)

  // The `id` of each record kind, as a function value for generic lookups.
  function ServiceId(s: Service): string { s.id }
  function ProductId(p: Product): string { p.id }
  function BookingId(b: Booking): string { b.id }
  function UserId(u: User): string { u.id }
  function GalleryImageId(g: GalleryImage): string { g.id }

  /** The strings a stored status can have. */
  const StatusNames: seq<string> := ["Pending", "Confirmed", "Cancelled", "Completed"]

  /** The string a status has in a stored document; reading it back gives
      the same status. */
  function StatusName(s: Status): (name: string)
    ensures ParseStatus(name) == Some(s)
  {
    match s
    case Pending => "Pending"
    case Confirmed =>
      assert "Confirmed"[0] != "Pending"[0];
      "Confirmed"
    case Cancelled =>
      assert "Cancelled"[0] != "Pending"[0] && "Cancelled"[1] != "Confirmed"[1];
      "Cancelled"
    case Completed =>
      assert "Completed"[0] != "Pending"[0] && "Completed"[2] != "Confirmed"[2] && "Completed"[1] != "Cancelled"[1];
      "Completed"
  }

  /** Reads a stored status string back; any other string is not a status. */
  function ParseStatus(name: string): (r: Option<Status>)
    ensures r.Some? <==> name in StatusNames
  {
    if name == "Pending" then Some(Pending)
    else if name == "Confirmed" then Some(Confirmed)
    else if name == "Cancelled" then Some(Cancelled)
    else if name == "Completed" then Some(Completed)
    else None
  }

  /** The strings a stored payment status can have. */
  const PaymentStatusNames: seq<string> := ["Paid", "Unpaid"]

  /** The string a payment status has in a stored document; reading it back
      gives the same payment status. */
  function PaymentStatusName(p: PaymentStatus): (name: string)
    ensures ParsePaymentStatus(name) == Some(p)
  {
    match p
    case Paid => "Paid"
    case Unpaid =>
      assert |"Unpaid"| != |"Paid"|;
      "Unpaid"
  }

  function ParsePaymentStatus(name: string): (r: Option<PaymentStatus>)
    ensures r.Some? <==> name in PaymentStatusNames
  {
    if name == "Paid" then Some(Paid)
    else if name == "Unpaid" then Some(Unpaid)
    else None
  }

  /** Reading a stored string back yields only the status written that way,
      and distinct statuses are stored as distinct strings. */
  lemma StatusRoundTrip(name: string, s: Status, t: Status)
    ensures ParseStatus(name).Some? ==> StatusName(ParseStatus(name).value) == name
    ensures StatusName(s) == StatusName(t) ==> s == t
  {
    if ParseStatus(name).Some? {
      assert name in StatusNames;
    }
    assert ParseStatus(StatusName(s)) == Some(s) && ParseStatus(StatusName(t)) == Some(t);
  }

  lemma PaymentStatusRoundTrip(name: string, p: PaymentStatus, q: PaymentStatus)
    ensures ParsePaymentStatus(name).Some? ==> PaymentStatusName(ParsePaymentStatus(name).value) == name
    ensures PaymentStatusName(p) == PaymentStatusName(q) ==> p == q
  {
    assert ParsePaymentStatus(PaymentStatusName(p)) == Some(p) && ParsePaymentStatus(PaymentStatusName(q)) == Some(q);
  }

}
