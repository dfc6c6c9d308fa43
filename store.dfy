/**
 The records the listings views read and write, the database that holds them
 and the queue of e-mail tasks the views hand to the worker.

 Identifiers are the string form of the uuids the database uses as primary
 keys. Prices and amounts are whole numbers: the views copy them and never
 compute with them.
 */
module Store {

  datatype Option<+T> = None | Some(value: T)

  /** Python truthiness of an optional string request parameter:
      neither missing nor empty. */
  predicate Given(o: Option<string>)
  {
    o.Some? && o.value != ""
  }

  type UserId = string
  type ListingId = string
  type BookingId = string
  type PaymentId = string
  type ReviewId = string

  /** The fields of a listing its host may edit. */
  datatype ListingDetails = ListingDetails(title: string, description: string, location: string, price: int)

  datatype Listing = Listing(host: UserId, details: ListingDetails)

  datatype BookingStatus = Pending | Confirmed | Canceled

  datatype Booking = Booking(user: UserId, listing: ListingId, status: BookingStatus, totalPrice: int)

  datatype PaymentStatus = Pending | Completed | Failed

  /** A payment record; `chapaId` is the gateway's own transaction id,
      recorded by a successful verification. */
  datatype Payment = Payment(
    booking: BookingId,
    amount: int,
    txRef: string,
    chapaId: Option<string>,
    status: PaymentStatus)

  datatype Review = Review(user: UserId, listing: ListingId, rating: int, comment: string)

  /** One queued task: `send_payment_confirmation_email.delay(booking)` or
      `send_payment_failure_email.delay(booking)`. */
  datatype Notification = PaymentConfirmation(booking: BookingId) | PaymentFailure(booking: BookingId)

  /** The database tables plus the task queue, in the order tasks were queued. */
  datatype State = State(
    listings: map<ListingId, Listing>,
    bookings: map<BookingId, Booking>,
    payments: map<PaymentId, Payment>,
    reviews: map<ReviewId, Review>,
    outbox: seq<Notification>)

  /** What a view leaves behind and what it answers. */
  datatype Outcome<R> = Outcome(state: State, response: R)

  /** The answer of the owner-only update and destroy actions. */
  datatype EditResponse = NotFound | Forbidden | Updated | Deleted
  {
    function Code(): int
    {
      match this
      case NotFound => 404
      case Forbidden => 403
      case Updated => 200
      case Deleted => 204
    }
  }

  /** Every key of `m` is kept by `m'` with the same value. */
  ghost predicate Keeps<K, V>(m: map<K, V>, m': map<K, V>)
  {
    forall k :: k in m ==> k in m' && m'[k] == m[k]
  }

  ghost predicate BookingsReferToListings(s: State)
  {
    forall b :: b in s.bookings ==> s.bookings[b].listing in s.listings
  }

  ghost predicate PaymentsReferToBookings(s: State)
  {
    forall p :: p in s.payments ==> s.payments[p].booking in s.bookings
  }

  ghost predicate ReviewsReferToListings(s: State)
  {
    forall r :: r in s.reviews ==> s.reviews[r].listing in s.listings
  }

  /** The payment relation is one-to-one: `booking.payment` names at most one record. */
  ghost predicate OnePaymentPerBooking(s: State)
  {
    forall p, q :: p in s.payments && q in s.payments && s.payments[p].booking == s.payments[q].booking ==> p == q
  }

  /** A transaction reference identifies one payment. */
  ghost predicate UniqueTxRefs(s: State)
  {
    forall p, q :: p in s.payments && q in s.payments && s.payments[p].txRef == s.payments[q].txRef ==> p == q
  }

  /** One review per (user, listing) pair. */
  ghost predicate OneReviewPerUserAndListing(s: State)
  {
    forall r, q ::
      r in s.reviews && q in s.reviews && s.reviews[r].user == s.reviews[q].user && s.reviews[r].listing == s.reviews[q].listing
      ==> r == q
  }

  /** The integrity of the database that every view keeps. */
  ghost predicate Valid(s: State)
  {
    && BookingsReferToListings(s)
    && PaymentsReferToBookings(s)
    && ReviewsReferToListings(s)
    && OnePaymentPerBooking(s)
    && UniqueTxRefs(s)
    && OneReviewPerUserAndListing(s)
  }
}
