/**
 BookingViewSet.perform_create: a booking of an existing listing, made for
 the requester, with a confirmation e-mail task queued straight away.
 */
module Bookings {
  import opened Store

  datatype CreateBookingResponse = ListingNotFound | BookingCreated(bookingId: BookingId)
  {
    function Code(): int
    {
      match this
      case ListingNotFound => 404
      case BookingCreated(_) => 201
    }
  }

  /** `bookingId` is the fresh primary key; `status` and `totalPrice` are the
      serializer's validated data. */
  ghost function CreateBooking(s: State, user: UserId, listingId: Option<ListingId>, bookingId: BookingId,
                               status: BookingStatus, totalPrice: int): (r: Outcome<CreateBookingResponse>)
    requires Valid(s) && bookingId !in s.bookings
    ensures Valid(r.state)
    ensures r.response == ListingNotFound <==> listingId.None? || listingId.value !in s.listings
    ensures r.response == ListingNotFound ==> r.state == s
    ensures r.response.BookingCreated? ==>
      && listingId.Some?
      && r.response.bookingId == bookingId
      && r.state.bookings.Keys == s.bookings.Keys + {bookingId}
      && r.state.bookings[bookingId] == Booking(user, listingId.value, status, totalPrice)
      && Keeps(s.bookings, r.state.bookings)
      && r.state.outbox == s.outbox + [PaymentConfirmation(bookingId)]
      && r.state.listings == s.listings && r.state.payments == s.payments && r.state.reviews == s.reviews
  {
    if listingId.None? || listingId.value !in s.listings then
      Outcome(s, ListingNotFound)
    else
      var booking := Booking(user, listingId.value, status, totalPrice);
      Outcome(s.(bookings := s.bookings[bookingId := booking], outbox := s.outbox + [PaymentConfirmation(bookingId)]),
              BookingCreated(bookingId))
  }
}
