// The cells of the bw-admin bookings table. The client comes from the join
// (no per-row read), the badges and the amount repeat the admin table's
// lookups, and the WhatsApp link uses the raw phone.
module BwColumns {
  import opened Results
  import opened Types
  import opened Strings
  import opened BookingJoin
  import AdminColumns

  /** One rendered row of the bw-admin table. A missing client leaves the
      name and email cells empty. */
  datatype BwRow = BwRow(
    clientName: Option<string>, clientEmail: Option<string>,
    amount: int, statusVariant: AdminColumns.Variant, paymentVariant: AdminColumns.Variant,
    invoiceHref: string, whatsAppHref: string)

  const BwInvoicePrefix: string := "/bw-admin/invoice/"

  /** `https://wa.me/${booking.user?.phone}`: the raw phone, unsanitised; a
      missing client interpolates the text "undefined" and the item is still shown. */
  function WhatsAppLink(user: Option<User>): (href: string)
    ensures StartsWith(href, AdminColumns.WhatsAppPrefix)
    ensures user.Some? ==> href[|AdminColumns.WhatsAppPrefix|..] == user.value.phone
    ensures user.None? ==> href[|AdminColumns.WhatsAppPrefix|..] == "undefined"
  {
    AdminColumns.WhatsAppPrefix + (if user.Some? then user.value.phone else "undefined")
  }

  /** The cells of one row. */
  function RowCells(row: BookingWithDetails): (r: BwRow)
    ensures r.clientName.Some? <==> row.user.Some?
    ensures r.clientEmail.Some? <==> row.user.Some?
    ensures row.user.Some? ==> r.clientName == Some(row.user.value.name) && r.clientEmail == Some(row.user.value.email)
    ensures row.service.None? ==> r.amount == 0
    ensures row.service.Some? ==> r.amount == row.service.value.price
    ensures r.statusVariant == AdminColumns.StatusVariant(StatusName(row.booking.status))
    ensures r.paymentVariant == AdminColumns.Default <==> row.booking.paymentStatus == Paid
    ensures StartsWith(r.invoiceHref, BwInvoicePrefix) && r.invoiceHref[|BwInvoicePrefix|..] == row.booking.id
    ensures r.whatsAppHref == WhatsAppLink(row.user)
  {
    PaymentStatusRoundTrip(PaymentStatusName(Paid), row.booking.paymentStatus, Paid);
    BwRow(
      if row.user.Some? then Some(row.user.value.name) else None,
      if row.user.Some? then Some(row.user.value.email) else None,
      AdminColumns.Amount(row.service),
      AdminColumns.StatusVariant(StatusName(row.booking.status)),
      AdminColumns.PaymentVariant(PaymentStatusName(row.booking.paymentStatus)),
      BwInvoicePrefix + row.booking.id,
      WhatsAppLink(row.user))
  }
}
