// The cells of the admin bookings table: the status and payment badges, the
// amount, the client cell fed by a per-row document read, the WhatsApp menu
// item and the invoice link.
module AdminColumns {
  import opened Results
  import opened Types
  import PhoneUtils
  import opened Strings

  /** The badge variants the tables use. */
  datatype Variant = Default | Secondary | Outline | Destructive

  /** The status badge: a lookup table keyed by the stored status string,
      with `default` for any string outside the table. */
  function StatusVariant(status: string): (r: Variant)
    ensures r == Secondary <==> status == "Pending"
    ensures r == Outline <==> status == "Completed"
    ensures r == Destructive <==> status == "Cancelled"
    ensures r == Default <==> ParseStatus(status) == None || status == "Confirmed"
  {
    if status == "Confirmed" then Default
    else if status == "Pending" then Secondary
    else if status == "Completed" then Outline
    else if status == "Cancelled" then Destructive
    else Default
  }

  /** The payment badge: `default` exactly for the string "Paid". */
  function PaymentVariant(paymentStatus: string): (r: Variant)
    ensures r == Default <==> paymentStatus == "Paid"
    ensures r != Default ==> r == Secondary
  {
    if paymentStatus == "Paid" then Default else Secondary
  }

  /** Every stored status gets its own badge; only a string that is not a
      status falls back to `default`, which it shares with Confirmed. */
  lemma StatusVariantTotal(s: Status, t: Status)
    ensures StatusVariant(StatusName(s)) == StatusVariant(StatusName(t)) <==> s == t
    ensures StatusVariant(StatusName(s)) == Default <==> s == Confirmed
  {
    StatusRoundTrip(StatusName(s), s, t);
    StatusRoundTrip(StatusName(t), t, s);
  }

  /** The amount cell: the joined service's price, or 0 without a service. */
  function Amount(service: Option<Service>): (r: int)
    ensures service.None? ==> r == 0
    ensures service.Some? ==> r == service.value.price
  {
    match service
    case None => 0
    case Some(s) => s.price
  }

  /** What the client cell shows for the row's fetched client document. */
  datatype ClientCellView = CellLoading | UnknownClient | ClientDetails(name: string, email: string)

  /** Loading is checked first, then a missing document, then the details. */
  function ClientCell(isLoading: bool, user: Option<User>): (v: ClientCellView)
    ensures v == CellLoading <==> isLoading
    ensures v == UnknownClient <==> !isLoading && user.None?
    ensures v.ClientDetails? ==> user.Some? && v.name == user.value.name && v.email == user.value.email
  {
    if isLoading then CellLoading
    else if user.None? then UnknownClient
    else ClientDetails(user.value.name, user.value.email)
  }

  const WhatsAppPrefix: string := "https://wa.me/"

  /** The WhatsApp menu item: absent when the client document or its phone is
      missing or empty, otherwise a wa.me link to the sanitised phone. */
  function WhatsAppItem(user: Option<User>): (href: Option<string>)
    ensures href.None? <==> user.None? || user.value.phone == ""
    ensures href.Some? ==>
      StartsWith(href.value, WhatsAppPrefix) &&
      href.value[|WhatsAppPrefix|..] == PhoneUtils.Sanitize(user.value.phone) &&
      PhoneUtils.AllDigits(href.value[|WhatsAppPrefix|..])
  {
    if user.None? || user.value.phone == "" then None
    else
      Some(WhatsAppPrefix + PhoneUtils.Sanitize(user.value.phone))
  }

  const AdminInvoicePrefix: string := "/admin/invoice/"

  /** The "View Invoice" link: the booking id under /admin/invoice/. */
  function InvoiceLink(bookingId: string): (href: string)
    ensures StartsWith(href, AdminInvoicePrefix) && href[|AdminInvoicePrefix|..] == bookingId
  {
    AdminInvoicePrefix + bookingId
  }
}
