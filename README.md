# Salon booking site — a Dafny model of its logic

The site is a Next.js and Firebase application for a beauty salon. It has a
public services page, a three-step booking wizard and two back offices: an
"admin" area behind Firebase authentication and a "bw-admin" area with the
same views. Most of it is markup. This project models the logic under that
markup and proves what it guarantees:

- **Domain records and fixtures.**
  - The records are services, products, bookings, clients and gallery images, with the two closed status enumerations.
  - The constant catalogue is checked for referential integrity and for distinct ids.
- **The WhatsApp phone sanitiser** (`PhoneUtils`).
- **The bookings tables.**
  - The client-side join of bookings to services and clients by first id match (`BookingJoin`).
  - The cells of both tables: status and payment badges, amount, client cell, WhatsApp link, invoice link (`AdminColumns`, `BwColumns`).
- **The bw-admin dashboard.** Paid revenue, the booking count, and the five most recent bookings (`Dashboard`). The five are obtained by an in-place sort of the fetched array.
- **The printable invoice's figures** (`Invoice`).
- **The services page.** Distinct categories, one section per category, and the "Book Now" link (`ServicesPage`).
- **The booking wizard.**
  - A pure transition system with its reachable-state invariant.
  - A class whose state cells the handlers update (`BookingForm`).
- **The Firebase provider** (`Provider`).
  - The authentication record replaced by each auth event, and the context value.
  - The `useFirebase` guards and the `__memo` tagging.
- **The gates.**
  - The admin layout's gate (`AdminLayout`).
  - The login page's redirect and sign-in flag (`Login`).
  - The edge middleware's path gate (`Middleware`).
  - The server-side `Authorization` header check and the app registry (`ServerAuth`).
- **Trend analysis.**
  - The admin `analyze` action: admin check, then reads, then projection, then flow, with a fallback on every failure (`AdminTrends`).
  - The bw-admin variant over static data (`BwTrends`).
  - The analysis panel's loading/result state (`AnalysisDisplay`).

`Results` holds `Option` and `Outcome` (a call's value or what it threw).
`Lookup` holds `Array.prototype.find` by id. `Strings` holds the JavaScript
string operations the code uses: `startsWith`, `indexOf`, `replace` with a
string pattern, and `split(...)[1]`.

Firebase, the text-generation flow and the clock are not modelled. What they
return enters the model as parameters:
- a sequence of auth events;
- `verify` for `verifyIdToken`;
- `bookingsRead` / `servicesRead` for `getDocs`;
- `flow` for the AI flow;
- `today` for `new Date()`;
- booleans for "auth service present" and "sign-in resolved".

**Field names.** `Booking` declares `userId` and `bookingDate`
(src/lib/types.ts:21-23). The admin bookings page and the dashboard read
`clientId` and `date` from the stored documents instead
in these places:
- src/app/admin/bookings/page.tsx:37 and src/app/bw-admin/bookings/page.tsx:34 (the join);
- src/app/admin/bookings/columns.tsx:88, 101 and 163 (client cell, date cell, WhatsApp item);
- src/app/bw-admin/page.tsx:71 (the sort) and src/app/bw-admin/page.tsx:148 (the recent-bookings client);
- src/app/admin/invoice/[id]/page.tsx:32, src/app/bw-admin/invoice/[id]/page.tsx:27 and src/app/admin/invoice/invoice-template.tsx:64 (the invoice);
- src/app/admin/trends/actions.ts:33 (the trend records, whose timestamp range check reads `date`).

The model uses the declared names throughout. It takes `clientId` to hold the same value
as `userId`, and `date` the same timestamp as `bookingDate`.

**The phone sanitiser and its doc comment.**
- The comment on `sanitizePhoneNumberForWhatsApp` (src/lib/utils.ts:10) says the result does not start with a '0'.
- The code strips one leading '0' only (src/lib/utils.ts:23-25).
- The model follows the code. The lemmas `PhoneUtils.LeadingZeroSurvives`, `PhoneUtils.NotIdempotent` and `PhoneUtils.SanitizeTwice` show the gap: "00123" gives "0123", and a second pass gives "123".

**Two gates that disagree.**
- The middleware's prefix test (src/middleware.ts:23) also catches "/administrator".
- Its matcher `/admin/:path*` (src/middleware.ts:35-37) never routes that path to it.
- `Middleware.AdministratorIsGated` and `Middleware.AdministratorNotMatched` state both halves.

**Out-of-range dates.** In the admin `analyze`, `toISOString` throws a
`RangeError` ("Invalid time value") for a timestamp outside ±8.64e15 ms. The
catch block turns that into the fallback, and the model does the same.

## Model

| member | source | states |
|---|---|---|
| Types.StatusName | src/lib/types.ts:24 | the string a status is stored as reads back as that same status |
| Types.PaymentStatusName | src/lib/types.ts:25 | the string a payment status is stored as reads back as that same payment status |
| Types.ParseStatus | src/lib/types.ts:24 | a string is read as a status iff it is one of "Pending", "Confirmed", "Cancelled", "Completed" |
| Types.ParsePaymentStatus | src/lib/types.ts:25 | a string is read as a payment status iff it is "Paid" or "Unpaid" |
| Types.StatusRoundTrip | src/lib/types.ts:24 | a string read as a status is exactly how that status is written; distinct statuses are written as distinct strings |
| Types.PaymentStatusRoundTrip | src/lib/types.ts:25 | a string read as a payment status is exactly how it is written; Paid and Unpaid are written as distinct strings |
| Lookup.Find | src/app/admin/bookings/page.tsx:35-37 | `find` by id returns the record at the first index with that id, or nothing when no record has it; it never fails |
| Lookup.FirstMatchUnique | src/app/admin/bookings/page.tsx:35-37 | the first match is determined by the data: two results that both satisfy it are equal |
| Lookup.FindDistinct | src/lib/data.ts:4-59 | in a collection with distinct ids, looking up a record's own id returns that record |
| Data.Bookings | src/lib/data.ts:93-142 | six sample bookings; a booking is Completed iff it lies before the moment of creation, and every Completed one is Paid |
| Data.BookingsReferToCatalogue | src/lib/data.ts:93-142 | every sample booking's serviceId is the id of a catalogue service and its userId the id of a client |
| Data.ServiceIdsDistinct | src/lib/data.ts:4-59 | no two services share an id |
| Data.ProductIdsDistinct | src/lib/data.ts:61-90 | no two products share an id |
| Data.BookingIdsDistinct | src/lib/data.ts:93-142 | no two sample bookings share an id |
| Data.UserIdsDistinct | src/lib/data.ts:144-175 | no two clients share an id |
| Data.GalleryIdsDistinct | src/lib/data.ts:177-186 | no two gallery images share an id |
| Data.FindCatalogueService | src/lib/data.ts:4-59 | looking up a catalogue service by its own id finds exactly that service |
| Data.CataloguePositive | src/lib/data.ts:4-90 | every service price and duration and every product price is a positive integer |
| Data.FeaturedServicesAreThree | src/lib/data.ts:4-59 | the catalogue has six services, so taking the first three always yields three |
| PhoneUtils.Digits | src/lib/utils.ts:19 | removing non-digits leaves only digits, never lengthens the text, and leaves an all-digit input unchanged; with `DigitsOfChar` and `DigitsAppend` this determines it |
| PhoneUtils.DigitsOfChar | src/lib/utils.ts:19 | a single character is kept iff it is a digit |
| PhoneUtils.DigitsOfNonDigits | src/lib/utils.ts:19 | a text without digits is removed entirely |
| PhoneUtils.Sanitize | src/lib/utils.ts:14-33 | an empty input gives ""; the result is all digits: the input's digits, with one '0' dropped exactly when they start with '0', otherwise all of them; never longer than the digits |
| PhoneUtils.DigitsAppend | src/lib/utils.ts:19 | the digits of a concatenation are the concatenated digits: order is kept |
| PhoneUtils.DigitsKeepsEveryDigit | src/lib/utils.ts:19 | every digit of the input survives the non-digit removal |
| PhoneUtils.LeadingZeroSurvives | src/lib/utils.ts:10-25 | "00123" sanitises to "0123", which starts with '0' although the doc comment promises otherwise |
| PhoneUtils.NotIdempotent | src/lib/utils.ts:23-25 | sanitising "00123" twice gives "123", differing from one pass |
| PhoneUtils.SanitizeTwice | src/lib/utils.ts:23-25 | a second pass leaves a result unchanged exactly when the result is empty or does not start with '0' |
| BookingJoin.JoinBookings | src/app/admin/bookings/page.tsx:30-39 | empty unless all three collections have data; otherwise one row per booking in order, booking unchanged, with the first matching service and client or nothing |
| BookingJoin.BookingsPage | src/app/bw-admin/bookings/page.tsx:27-40 | the loading view exactly while any of the three collections loads, otherwise the joined rows |
| BookingJoin.AdminCollectionPath | src/app/admin/bookings/page.tsx:22-24 | the admin page opens a collection exactly when both the database handle and a user are present |
| BookingJoin.BwCollectionPath | src/app/bw-admin/bookings/page.tsx:19-21 | the bw-admin page opens a collection exactly when the database handle is present |
| BookingJoin.DanglingReferenceKeepsRow | src/app/bw-admin/bookings/page.tsx:27-36 | a booking whose service is missing keeps its row, with no service attached |
| AdminColumns.StatusVariant | src/app/admin/bookings/columns.tsx:122-128 | Pending, Completed and Cancelled each get their own badge (iff); any string that is not a status gets `default`, shared with Confirmed |
| AdminColumns.PaymentVariant | src/app/admin/bookings/columns.tsx:136-137 | `default` exactly for "Paid", `secondary` otherwise |
| AdminColumns.StatusVariantTotal | src/app/admin/bookings/columns.tsx:122-128 | distinct stored statuses get distinct badges, and only Confirmed gets `default` |
| AdminColumns.Amount | src/app/admin/bookings/columns.tsx:109 | the joined service's price, or 0 when there is no service |
| AdminColumns.ClientCell | src/app/admin/bookings/columns.tsx:30-49 | "Loading" exactly while loading (checked first), "Unknown Client" exactly when loaded with no document, otherwise that client's name and email |
| AdminColumns.WhatsAppItem | src/app/admin/bookings/columns.tsx:52-68 | no item exactly when the client or the phone is missing or empty; otherwise `https://wa.me/` followed by the sanitised, all-digit phone |
| AdminColumns.InvoiceLink | src/app/admin/bookings/columns.tsx:156 | `/admin/invoice/` followed by the booking id |
| BwColumns.WhatsAppLink | src/app/bw-admin/bookings/columns.tsx:118-122 | `https://wa.me/` followed by the raw phone, or by "undefined" when there is no client; always shown |
| BwColumns.RowCells | src/app/bw-admin/bookings/columns.tsx:40-122 | client cells present iff the client is; amount is the price or 0; the same status lookup as the admin table; `default` payment badge iff Paid; `/bw-admin/invoice/` + id |
| Dashboard.PaidBookings | src/app/bw-admin/page.tsx:63 | keeps exactly the bookings whose payment status is Paid, each paid booking as often as it occurs |
| Dashboard.PaidBookingsAppend | src/app/bw-admin/page.tsx:63 | filtering a concatenation filters each part: the order is kept |
| Dashboard.PaidBookingsSingle | src/app/bw-admin/page.tsx:63 | a single booking is kept iff it is paid |
| Dashboard.FoldRevenueShift | src/app/bw-admin/page.tsx:63-67 | the reduce's starting value only shifts its result |
| Dashboard.FoldPaidIsSum | src/app/bw-admin/page.tsx:62-67 | reducing the paid bookings from 0 gives the sum, over all bookings, of the matched price for a paid booking (0 without a match) and 0 for an unpaid one |
| Dashboard.TotalRevenue | src/app/bw-admin/page.tsx:62-67 | the filter-then-reduce revenue equals that reference sum |
| Dashboard.RevenueSumAppend | src/app/bw-admin/page.tsx:62-67 | the reference sum is additive over concatenation |
| Dashboard.UnpaidDoesNotCount | src/app/bw-admin/page.tsx:63-66 | inserting an unpaid booking anywhere leaves the revenue unchanged |
| Dashboard.RevenueNonNegative | src/app/bw-admin/page.tsx:62-67 | with non-negative prices the revenue is non-negative |
| Dashboard.SumNonNegative | src/app/bw-admin/page.tsx:62-67 | with non-negative prices the reference sum is non-negative |
| Dashboard.SampleRevenue | src/app/bw-admin/page.tsx:62-67 | on the sample data the revenue is 485 |
| Dashboard.RevenueSumStep | src/app/bw-admin/page.tsx:62-67 | the reference sum from a position is that booking's contribution plus the sum after it |
| Dashboard.SumOfSix | src/app/bw-admin/page.tsx:62-67 | the reference sum of six bookings is the sum of their six contributions |
| Dashboard.SampleContributions | src/lib/data.ts:93-142 | what each sample booking adds: its service's price when paid, 0 when unpaid |
| Dashboard.SortByDateDescending | src/app/bw-admin/page.tsx:70-71 | sorts the fetched array in place: afterwards newest first and a permutation of its old contents |
| Dashboard.InsertNext | src/app/bw-admin/page.tsx:70-71 | one insertion step: the newest-first prefix grows by one and the contents are permuted |
| Dashboard.RecentBookings | src/app/bw-admin/page.tsx:70-72 | the array is permuted into newest-first order and the result is its first min(5, n) entries |
| Dashboard.PrefixIsMostRecent | src/app/bw-admin/page.tsx:70-72 | in a newest-first list every entry of a prefix is at least as recent as every later one |
| Dashboard.RecentBadge | src/app/bw-admin/page.tsx:160 | `default` iff Completed, otherwise `secondary` |
| Dashboard.RenderDashboard | src/app/bw-admin/page.tsx:53-72 | only the loading view while any collection loads, with the array untouched; otherwise absent data counts as empty, revenue and count are taken from the bookings as fetched, and the array is sorted in place with its first five rows shown |
| Strings.IndexOfFrom | src/app/admin/invoice/invoice-template.tsx:50 | `indexOf` with a non-empty pattern: the first occurrence at or after the start index, or none when there is no occurrence there |
| Strings.ReplaceFirst | src/app/admin/invoice/invoice-template.tsx:50 | `replace` with a non-empty string pattern and a replacement without `$` patterns: unchanged without an occurrence, otherwise only the first occurrence is replaced, literally |
| Strings.Utf16Length | src/app/book/booking-form.tsx:23-25 | the `length` zod compares: one unit for a character below U+10000 and two for one above; between the number of code points and twice it, and equal to it when every code point is below U+10000 |
| Strings.Utf16LengthAppend | src/app/book/booking-form.tsx:23-25 | the length of a concatenation is the sum of the lengths, which with the one-character case fixes every length |
| Strings.SplitSecond | src/firebase/server-auth.ts:39 | `split(sep)[1]`: undefined iff `sep` does not occur; otherwise the text after the first occurrence, up to the next one or the end |
| Invoice.InvoiceNumber | src/app/admin/invoice/invoice-template.tsx:50 | an id without "book_" is unchanged; otherwise its first "book_" is removed and the rest kept |
| Invoice.InvoiceNumberOfStandardId | src/app/admin/invoice/invoice-template.tsx:50 | "book_" followed by a suffix is numbered with that suffix |
| Invoice.OnlyFirstOccurrenceRemoved | src/app/admin/invoice/invoice-template.tsx:50 | "book_book_7" is numbered "book_7" |
| Invoice.MakeInvoice | src/app/admin/invoice/invoice-template.tsx:23-101 | amount is the service's price; subtotal and total both equal it; tax is 0; the status line shows the payment status; number as above |
| Invoice.StatusLineIgnoresStatus | src/app/admin/invoice/invoice-template.tsx:65 | changing only a booking's status does not change its invoice |
| ServicesPage.FirstPosition | src/app/services/page.tsx:23 | the index of the first occurrence |
| ServicesPage.Dedup | src/app/services/page.tsx:23 | `[...new Set(xs)]`: no duplicates, the same members, never longer |
| ServicesPage.CategoryList | src/app/services/page.tsx:23 | one category per service, position by position |
| ServicesPage.Categories | src/app/services/page.tsx:23 | no services gives no categories; otherwise distinct, and a category is listed iff some service has it |
| ServicesPage.DedupKeepsFirstOccurrenceOrder | src/app/services/page.tsx:23 | the categories are in order of first occurrence |
| ServicesPage.FirstPositionPrefix | src/app/services/page.tsx:23 | appending at the end does not move an existing first occurrence |
| ServicesPage.Section | src/app/services/page.tsx:43-44 | a section holds exactly the services of that category |
| ServicesPage.SectionAppend | src/app/services/page.tsx:43-44 | filtering distributes over concatenation, so sections keep the original order |
| ServicesPage.Count | src/app/services/page.tsx:39-45 | a category's count is 0 iff it is not listed |
| ServicesPage.CountNoDuplicates | src/app/services/page.tsx:23 | in a duplicate-free list every listed category occurs once |
| ServicesPage.CardCountCons | src/app/services/page.tsx:39-45 | a service adds one card per listing of its category |
| ServicesPage.CardCountIsServiceCount | src/app/services/page.tsx:39-45 | with distinct categories covering every service, the cards add up to the services |
| ServicesPage.CardCountEmpty | src/app/services/page.tsx:39-45 | no services, no cards |
| ServicesPage.EverySectionOnce | src/app/services/page.tsx:23-45 | every service appears in exactly one section, and the cards number the services |
| ServicesPage.BookLink | src/app/services/page.tsx:69 | `/book?service=` followed by the service id |
| ServicesPage.Page | src/app/services/page.tsx:19-45 | the loading view iff loading; otherwise one section per category in order, each listing that category's services |
| BookingForm.Initial | src/app/book/booking-form.tsx:34-37 | step 1 with nothing selected, a valid state |
| BookingForm.Preselect | src/app/book/booking-form.tsx:42-50 | only a non-empty id found in the catalogue selects its service, without moving the step; otherwise the state is unchanged |
| BookingForm.SelectService | src/app/book/booking-form.tsx:71-74 | the service becomes the selection and the step advances by exactly one; validity kept |
| BookingForm.SelectDate | src/app/book/booking-form.tsx:149-152 | only the date changes; validity kept |
| BookingForm.VisibleTimeSlots | src/app/book/booking-form.tsx:159-166 | the fixed eight slots iff on step 2 with a date chosen, otherwise none |
| BookingForm.SelectTime | src/app/book/booking-form.tsx:76-79 | the slot becomes the selection and the step advances by one, to 3 |
| BookingForm.GoBack | src/app/book/booking-form.tsx:69 | the step drops by exactly one and stays at least 1; validity kept |
| BookingForm.DetailsValid | src/app/book/booking-form.tsx:22-26 | passing needs an accepted email and at least one code point of name and five of phone; an accepted email with at least 2 and 10 code points always passes |
| BookingForm.AstralNamePasses | src/app/book/booking-form.tsx:23 | a name of one emoji is two UTF-16 units long and so passes `min(2)` |
| BookingForm.Submit | src/app/book/booking-form.tsx:22-26 | moves to step 4 iff name ≥ 2 and phone ≥ 10 UTF-16 units and the email is accepted, recording the details; otherwise unchanged |
| BookingForm.BookAnother | src/app/book/booking-form.tsx:93 | back to the initial state |
| BookingForm.Apply | src/app/book/booking-form.tsx:42-93 | every action the screen offers keeps the state valid |
| BookingForm.RunStaysValid | src/app/book/booking-form.tsx:34-93 | every state reached from a valid one is valid, so the step stays between 1 and 4 |
| BookingForm.Header | src/app/book/booking-form.tsx:102-107 | title `step - 1` of the three; segment `s` filled iff `s ≤ step`, connector iff `s < step` |
| BookingForm.FilledSegments | src/app/book/booking-form.tsx:102-107 | on step `s` exactly `s` segments are filled, the first always |
| BookingForm.BookNowPreselects | src/app/services/page.tsx:69 | the services page's link for a catalogue service preselects that very service |
| BookingForm.BookingFormState.constructor | src/app/book/booking-form.tsx:34-37 | the cells start in the initial state |
| BookingForm.BookingFormState.PreselectFromQuery | src/app/book/booking-form.tsx:42-50 | the cells become `Preselect` of the old state |
| BookingForm.BookingFormState.NextStep | src/app/book/booking-form.tsx:68 | the step goes up by one, nothing else changes |
| BookingForm.BookingFormState.PrevStep | src/app/book/booking-form.tsx:69 | the cells become `GoBack` of the old state |
| BookingForm.BookingFormState.HandleServiceSelect | src/app/book/booking-form.tsx:71-74 | the cells become `SelectService` of the old state |
| BookingForm.BookingFormState.HandleDateSelect | src/app/book/booking-form.tsx:149-152 | the cells become `SelectDate` of the old state |
| BookingForm.BookingFormState.HandleTimeSelect | src/app/book/booking-form.tsx:76-79 | the cells become `SelectTime` of the old state |
| BookingForm.BookingFormState.OnSubmit | src/app/book/booking-form.tsx:58-66 | the cells become `Submit` of the old state, so lengths are counted in UTF-16 units |
| BookingForm.BookingFormState.Reset | src/app/book/booking-form.tsx:93 | the cells become `BookAnother` of the old state |
| Provider.InitialState | src/firebase/provider.tsx:72-77 | no user, not admin, loading, no error |
| Provider.Reduce | src/firebase/provider.tsx:79-109 | each auth event's new record; admin iff a successful token fetch carries the strict `admin === true` claim (or a resubscription keeps it); consistency preserved |
| Provider.ReachableConsistent | src/firebase/provider.tsx:79-109 | in every state reached by auth events, admin implies a signed-in user with no error |
| Provider.AuthProvider.constructor | src/firebase/provider.tsx:72-77 | the record starts in the initial state |
| Provider.AuthProvider.OnAuthChanged | src/firebase/provider.tsx:80-85 | no auth service records the error; with one, loading is set |
| Provider.AuthProvider.OnAuthStateChanged | src/firebase/provider.tsx:89-101 | the record becomes `Reduce` of the signed-in or signed-out event |
| Provider.AuthProvider.OnListenerError | src/firebase/provider.tsx:103-106 | the record becomes `Reduce` of the listener error |
| Provider.ContextValue | src/firebase/provider.tsx:111-123 | services available iff app, firestore and auth are all present; the handles are passed on then and null otherwise; auth fields copied |
| Provider.UseFirebase | src/firebase/provider.tsx:133-153 | throws outside a provider, throws when services are unavailable, otherwise returns the handles and the auth state |
| Provider.UseFirebaseInsideProvider | src/firebase/provider.tsx:111-153 | inside a provider, `useFirebase` succeeds iff all three handles were given, and then reports the provider's state |
| Provider.MemoTarget.constructor | src/firebase/provider.tsx:180-189 | a fresh object is untagged |
| Provider.MarkMemo | src/firebase/provider.tsx:180-189 | returns the memoised value itself; an object is tagged `__memo` |
| Middleware.Decide | src/middleware.ts:18-32 | redirect iff the path starts with /admin and no non-empty idToken; the redirect keeps the URL with pathname /login |
| Middleware.AnyTokenPasses | src/middleware.ts:19-31 | any non-empty token, forged or genuine, passes alike |
| Middleware.AdministratorIsGated | src/middleware.ts:23 | the prefix test also redirects "/administrator" |
| Middleware.MatcherMatches | src/middleware.ts:35-37 | only paths starting with /admin are matched; a path starting with /admin is left out exactly when a character other than '/' follows the prefix, so "/adminX" is never matched |
| Middleware.Serve | src/middleware.ts:35-37 | the middleware runs only on paths its matcher selects; all others pass |
| Middleware.MatchedPathsAreGated | src/middleware.ts:18-37 | on a matched path, redirect iff no token |
| Middleware.AdministratorNotMatched | src/middleware.ts:35-37 | "/administrator" is not matched, so it passes without a token |
| AdminLayout.View | src/app/admin/layout.tsx:59-68 | loading iff auth loads (checked first); the panel iff resolved and admin; Access Denied iff resolved and not admin |
| AdminLayout.RedirectTarget | src/app/admin/layout.tsx:40-51 | a redirect to /login exactly when Access Denied shows; none while loading |
| AdminLayout.AuthErrorIsDenied | src/app/admin/layout.tsx:37-50 | a failed token fetch or listener error is denied and redirected like any non-admin |
| AdminLayout.PanelOnlyForSignedIn | src/app/admin/layout.tsx:68-128 | in any reachable state the panel is shown only to a signed-in user |
| AdminLayout.SignedOutIsDenied | src/app/admin/layout.tsx:53-56 | after signing out the layout shows Access Denied |
| AdminLayout.SignOutEffects | src/app/admin/layout.tsx:53-56 | the sign-out call comes first; the navigation to /login follows, last, iff the sign-out resolved, and a rejected sign-out does nothing more |
| AdminLayout.MenuLinksAreGated | src/app/admin/layout.tsx:23-29 | every sidebar link is matched by the middleware and redirected without a token |
| Login.LoginRedirect | src/app/login/page.tsx:23-25 | to /admin iff auth resolved and admin |
| Login.NoRedirectLoop | src/app/login/page.tsx:23-25 | the login page and the admin layout never both redirect, and once auth resolves exactly one does |
| Login.SignInEffects | src/app/login/page.tsx:27-43 | without auth only an error toast; otherwise loading set, then the attempt, then success toast or error and loading cleared |
| Login.SignInLoading | src/app/login/page.tsx:27-43 | without auth no attempt and the flag is untouched; with auth an attempt, and the flag ends true iff it succeeded |
| Login.SubmitDisabledAfterSignIn | src/app/login/page.tsx:27-79 | after a submit from an enabled button, the button stays disabled iff auth was present and the sign-in succeeded |
| Login.LoginPage.constructor | src/app/login/page.tsx:15-17 | empty fields, not loading |
| Login.LoginPage.OnEmailChange | src/app/login/page.tsx:61-62 | only the email changes |
| Login.LoginPage.OnPasswordChange | src/app/login/page.tsx:71-72 | only the password changes |
| Login.LoginPage.HandleSignIn | src/app/login/page.tsx:27-43 | performs `SignInEffects` and leaves the flag as they set it |
| ServerAuth.BearerToken | src/firebase/server-auth.ts:37-39 | a token iff the header starts with exactly "Bearer ", and then `split('Bearer ')[1]` |
| ServerAuth.BearerTokenOfWellFormedHeader | src/firebase/server-auth.ts:39 | "Bearer " + a token without "Bearer " in it yields that token |
| ServerAuth.BearerTokenStopsAtSecondPrefix | src/firebase/server-auth.ts:39 | "Bearer abcBearer xyz" yields "abc" |
| ServerAuth.LowerCaseSchemeRejected | src/firebase/server-auth.ts:37 | "bearer …" yields no token |
| ServerAuth.AdminAuthUser | src/firebase/server-auth.ts:33-55 | null without a usable header; a decoded token only when verification succeeds and `admin === true`, and always then |
| ServerAuth.NoHeaderNoVerification | src/firebase/server-auth.ts:37-38 | without a usable header the verifier's behaviour does not matter |
| ServerAuth.FindApp | src/firebase/server-auth.ts:14-16 | an app of that name from the registry, or none iff no app has the name |
| ServerAuth.AppRegistry.constructor | src/firebase/server-auth.ts:12-27 | no apps registered |
| ServerAuth.AppRegistry.GetAdminApp | src/firebase/server-auth.ts:12-27 | reuses an existing app of that name and changes nothing; otherwise appends one with the default credential; names stay distinct |
| ServerAuth.AppRegistry.GetAdminAuthUser | src/firebase/server-auth.ts:33-55 | the result is `AdminAuthUser`; an existing server-auth app is reused with the registry unchanged, otherwise exactly one app with that name and the default credential is appended; distinct names stay distinct |
| AdminTrends.RecordOf | src/app/admin/trends/actions.ts:29-33 | the booking's timestamp, with the name and price of the first service with its id, or neither |
| AdminTrends.Project | src/app/admin/trends/actions.ts:28-35 | one record per booking, in order |
| AdminTrends.ProjectAppend | src/app/admin/trends/actions.ts:28 | projecting a concatenation projects each part |
| AdminTrends.ProjectForFlow | src/app/admin/trends/actions.ts:28-35 | fails iff some timestamp is out of range; otherwise the projection |
| AdminTrends.MessageOf | src/app/admin/trends/actions.ts:45-47 | an Error's message, or "An unknown error occurred." |
| AdminTrends.Fallback | src/app/admin/trends/actions.ts:42-50 | the summary is the fixed prefix followed by the message; the fixed pricing text |
| AdminTrends.Analyze | src/app/admin/trends/actions.ts:10-51 | a throw from getting the admin app, a missing admin, or a throw from initialisation means no reads and its fallback; otherwise bookings read before services; each failure gives its fallback; otherwise the flow's own result |
| BwTrends.BwFallback | src/app/bw-admin/trends/actions.ts:23-27 | both fields are fixed texts |
| BwTrends.Analyze | src/app/bw-admin/trends/actions.ts:6-29 | the flow's result over the projected sample data, or the fixed fallback whatever the error |
| BwTrends.SampleProjection | src/app/bw-admin/trends/actions.ts:8-15 | six records, each with its service's name and price |
| AnalysisDisplay.InitialPanel | src/app/bw-admin/trends/analysis-display.tsx:14-15 | not loading, no result |
| AnalysisDisplay.Begin | src/app/bw-admin/trends/analysis-display.tsx:18-19 | loading, result cleared |
| AnalysisDisplay.Settle | src/app/bw-admin/trends/analysis-display.tsx:20-22 | a resolved action's value becomes the result and loading ends; a rejection leaves the state |
| AnalysisDisplay.ClickOutcome | src/app/bw-admin/trends/analysis-display.tsx:17-45 | after a click the cards show iff the action resolved, and the button stays disabled iff it rejected |
| AnalysisDisplay.AnalysisPanel.constructor | src/app/bw-admin/trends/analysis-display.tsx:14-15 | the cells start in the initial state |
| AnalysisDisplay.AnalysisPanel.HandleAnalyze | src/app/bw-admin/trends/analysis-display.tsx:17-23 | the cells become `Settle(Begin(old))` for the way the action settled |

## Left out

- Markup, styling, icons, toasts' appearance and the layout components are not modelled. Neither are the pages that only wire components together (the home, products, gallery, book and admin trends pages, and the bw-admin layout).
- The Firebase SDK is not modelled. This covers `onAuthStateChanged`, `getIdTokenResult`, `verifyIdToken`, `getDocs`, the live collection and document subscriptions, `signInWithEmailAndPassword`, `signOut` and `initializeApp`. Their results are parameters or events of the model. `AppRegistry.GetAdminApp` assumes `initializeApp` succeeds; a throw from it or from `getAuth` enters `AdminTrends.Analyze` as its `adminAppFailure` parameter.
- The text-generation flow is a parameter returning a value or a thrown error. What the data is serialised to (`JSON.stringify`) is not modelled: the flow receives the records themselves.
- Dates are integers (milliseconds since the epoch).
  - `toISOString` is modelled only by its range check; the ISO text is not.
  - The sample bookings' `add(today, {days, hours})` takes a day as 24 hours, with no daylight-saving shifts.
  - Date formatting with date-fns and currency formatting with `Intl.NumberFormat` are not modelled.
  - Prices are integers, so `parseFloat(price.toString())` is the price itself.
- BookingForm.DetailsValid: zod's email check is the boolean `emailOk`. The values typed into the form before a submit are not state of the model.
- BookingForm: the calendar's disabling of past dates is not modelled. `SelectDate` accepts any day.
- The Confirm, Decline and Mark-as-Paid menu items have no handlers, so there is no booking lifecycle to model.
- AdminColumns.StatusVariant: the badge lookup object also answers inherited keys such as "toString". The model treats every string outside the four statuses as falling back to `default`.
- The admin bookings page also ORs `isUserLoading` into its loading flag. The auth hook does not return that field, so it is always undefined; the model omits it.
- React effect scheduling, memoisation timing, concurrent renders, and writes by other administrators are not modelled. Neither is async interleaving of the auth listener: a sign-out arriving while src/firebase/provider.tsx:92 awaits `getIdTokenResult` is not modelled.
- Provider: the provider's effect unsubscribes on cleanup. The model treats each subscription's events as one sequence.
- `cn` (class-name merging) and the dashboard's chart constants are not modelled. `initializeFirebase` is not modelled either; a throw from it enters `AdminTrends.Analyze` as its `initFailure` parameter.
- The unused `getAdminApp` in src/middleware.ts:10-15 is not modelled. The middleware never calls it.
- Dashboard.SortByDateDescending: stability of the sort is not stated. The contract gives newest-first order and a permutation.
- The admin layout's sign-out handler is the sequence "sign out, then go to /login" (`AdminLayout.SignOutEffects`), with the sign-out's outcome as a parameter. `AdminLayout.SignedOutIsDenied` states its effect on the gate.
- Strings.IndexOfFrom: only non-empty patterns are searched for. JavaScript answers `min(from, s.length)` for an empty pattern; the invoice never searches for one.
- Strings.ReplaceFirst: `$` patterns in the replacement (`$&`, `$1` and the like) are not expanded. The invoice's replacement is a fixed text without them.
- BookingForm.DetailsValid: its contract bounds the accepted lengths in code points only from both sides (at least 1 and 5 needed, 2 and 10 enough). The exact rule, in UTF-16 units as zod counts, is its body together with `Strings.Utf16Length`.
