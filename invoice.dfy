// The figures of the printable invoice: its number, amount, subtotal, tax,
// total and status line.
module Invoice {
  import opened Types
  import opened Strings

  const BookingIdPrefix: string := "book_"

  /** `booking.id.replace('book_', '')`: the first "book_" is removed. */
  function InvoiceNumber(bookingId: string): (r: string)
    ensures (forall j: nat :: !OccursAt(bookingId, BookingIdPrefix, j)) ==> r == bookingId
    ensures forall k: nat ::
      (OccursAt(bookingId, BookingIdPrefix, k) &&
       forall j: nat :: j < k ==> !OccursAt(bookingId, BookingIdPrefix, j)) ==>
      r == bookingId[..k] + bookingId[k + |BookingIdPrefix|..]
  {
    ReplaceFirst(bookingId, BookingIdPrefix, "")
  }

  /** A booking id made the usual way numbers its invoice with its suffix. */
  lemma InvoiceNumberOfStandardId(suffix: string)
    ensures InvoiceNumber(BookingIdPrefix + suffix) == suffix
  {
    var id := BookingIdPrefix + suffix;
    assert OccursAt(id, BookingIdPrefix, 0);
    assert id[5..] == suffix;
  }

  /** Only the first occurrence goes: "book_book_7" becomes "book_7". */
  lemma OnlyFirstOccurrenceRemoved()
    ensures InvoiceNumber("book_book_7") == "book_7"
  {
    InvoiceNumberOfStandardId("book_7");
  }

  datatype InvoiceFigures = InvoiceFigures(
    number: string, amount: int, subtotal: int, tax: int, total: int, statusLine: string)

  /** The invoice for a booking of `service`. The amount is the service's
      current price; subtotal and total are formatted from that same amount,
      the tax line is a constant zero, and the status line shows the payment
      status, not the booking status. */
  function MakeInvoice(booking: Booking, service: Service): (inv: InvoiceFigures)
    ensures inv.amount == service.price
    ensures inv.subtotal == inv.total == inv.amount
    ensures inv.tax == 0 && inv.total == inv.subtotal + inv.tax
    ensures inv.statusLine == PaymentStatusName(booking.paymentStatus)
    ensures inv.number == InvoiceNumber(booking.id)
  {
    var amount := service.price;
    InvoiceFigures(InvoiceNumber(booking.id), amount, amount, 0, amount, PaymentStatusName(booking.paymentStatus))
  }

  /** The status line never reflects the booking status: two bookings that
      differ only in `status` get the same invoice. */
  lemma StatusLineIgnoresStatus(b: Booking, s: Status, service: Service)
    ensures MakeInvoice(b, service) == MakeInvoice(b.(status := s), service)
  {
  }
}
