/**
 The listings views as they run: one object holding the database tables and
 the task queue, whose actions update them step by step. Each action is
 proved to leave exactly the state, and give exactly the answer, that the
 corresponding function of Listings, Bookings, Reviews or Payments
 prescribes, and to keep the database's integrity.
 */
module Views {
  import opened Store
  import opened Chapa
  import Listings
  import Bookings
  import Reviews
  import Payments

  class Backend {
    var listings: map<ListingId, Listing>
    var bookings: map<BookingId, Booking>
    var payments: map<PaymentId, Payment>
    var reviews: map<ReviewId, Review>
    var outbox: seq<Notification>

    ghost function Snapshot(): State
      reads this
    {
      State(listings, bookings, payments, reviews, outbox)
    }

    constructor ()
      ensures Snapshot() == State(map[], map[], map[], map[], [])
      ensures Valid(Snapshot())
    {
      listings, bookings, payments, reviews, outbox := map[], map[], map[], map[], [];
    }

    /** ListingViewSet.update */
    method UpdateListing(user: UserId, l: ListingId, details: ListingDetails) returns (resp: EditResponse)
      requires Valid(Snapshot())
      modifies this
      ensures Valid(Snapshot())
      ensures Outcome(Snapshot(), resp) == Listings.UpdateListing(old(Snapshot()), user, l, details)
    {
      if l !in listings {
        return NotFound;
      }
      var listing := listings[l];
      if listing.host != user {
        return Forbidden;
      }
      listing := listing.(details := details);
      listings := listings[l := listing];
      resp := Updated;
    }

    /** ListingViewSet.destroy, with the deletes the database cascades to. */
    method DestroyListing(user: UserId, l: ListingId) returns (resp: EditResponse)
      requires Valid(Snapshot())
      modifies this
      ensures Valid(Snapshot())
      ensures Outcome(Snapshot(), resp) == Listings.DestroyListing(old(Snapshot()), user, l)
    {
      if l !in listings {
        return NotFound;
      }
      if listings[l].host != user {
        return Forbidden;
      }
      listings := listings - {l};
      bookings := map b | b in bookings && bookings[b].listing != l :: bookings[b];
      payments := map p | p in payments && payments[p].booking in bookings :: payments[p];
      reviews := map q | q in reviews && reviews[q].listing != l :: reviews[q];
      resp := Deleted;
    }

    /** BookingViewSet.perform_create */
    method CreateBooking(user: UserId, listingId: Option<ListingId>, bookingId: BookingId,
                         status: BookingStatus, totalPrice: int) returns (resp: Bookings.CreateBookingResponse)
      requires Valid(Snapshot()) && bookingId !in bookings
      modifies this
      ensures Valid(Snapshot())
      ensures Outcome(Snapshot(), resp) == Bookings.CreateBooking(old(Snapshot()), user, listingId, bookingId, status, totalPrice)
    {
      if listingId.None? || listingId.value !in listings {
        return Bookings.ListingNotFound;
      }
      bookings := bookings[bookingId := Booking(user, listingId.value, status, totalPrice)];
      outbox := outbox + [PaymentConfirmation(bookingId)];
      resp := Bookings.BookingCreated(bookingId);
    }

    /** ReviewViewSet.create */
    method CreateReview(user: UserId, listingId: Option<ListingId>, reviewId: ReviewId,
                        rating: int, comment: string, dataValid: bool) returns (resp: Reviews.CreateReviewResponse)
      requires Valid(Snapshot()) && reviewId !in reviews
      modifies this
      ensures Valid(Snapshot())
      ensures Outcome(Snapshot(), resp) == Reviews.CreateReview(old(Snapshot()), user, listingId, reviewId, rating, comment, dataValid)
    {
      if !Given(listingId) {
        return Reviews.ListingIdRequired;
      }
      var l := listingId.value;
      if l !in listings {
        return Reviews.ListingNotFound;
      }
      if exists q :: q in reviews && reviews[q].user == user && reviews[q].listing == l {
        return Reviews.AlreadyReviewed;
      }
      if !dataValid {
        return Reviews.InvalidReview;
      }
      reviews := reviews[reviewId := Review(user, l, rating, comment)];
      resp := Reviews.ReviewCreated(reviewId);
    }

    /** ReviewViewSet.update */
    method UpdateReview(user: UserId, q: ReviewId, rating: int, comment: string) returns (resp: EditResponse)
      requires Valid(Snapshot())
      modifies this
      ensures Valid(Snapshot())
      ensures Outcome(Snapshot(), resp) == Reviews.UpdateReview(old(Snapshot()), user, q, rating, comment)
    {
      if q !in reviews {
        return NotFound;
      }
      var review := reviews[q];
      if review.user != user {
        return Forbidden;
      }
      review := review.(rating := rating, comment := comment);
      reviews := reviews[q := review];
      resp := Updated;
    }

    /** ReviewViewSet.destroy */
    method DestroyReview(user: UserId, q: ReviewId) returns (resp: EditResponse)
      requires Valid(Snapshot())
      modifies this
      ensures Valid(Snapshot())
      ensures Outcome(Snapshot(), resp) == Reviews.DestroyReview(old(Snapshot()), user, q)
    {
      if q !in reviews {
        return NotFound;
      }
      if reviews[q].user != user {
        return Forbidden;
      }
      reviews := reviews - {q};
      resp := Deleted;
    }

    /** PaymentViewSet.initiate_payment; `paymentId` and `txRef` are the
        uuids it generates, `reply` the gateway's answer. */
    method InitiatePayment(user: UserId, bookingId: Option<BookingId>, paymentId: PaymentId, txRef: string,
                           reply: InitReply) returns (resp: Payments.InitiateResponse)
      requires Valid(Snapshot()) && Payments.IsFresh(Snapshot(), paymentId, txRef)
      modifies this
      ensures Valid(Snapshot())
      ensures Outcome(Snapshot(), resp) == Payments.Initiate(old(Snapshot()), user, bookingId, paymentId, txRef, reply)
    {
      if bookingId.None? || bookingId.value !in bookings || bookings[bookingId.value].user != user {
        return Payments.BookingNotFound;
      }
      var b := bookingId.value;
      var booking := bookings[b];
      if exists p :: p in payments && payments[p].booking == b {
        return Payments.AlreadyInitiated;
      }
      if reply.code != HttpOk {
        return Payments.InitializationFailed(reply.payload);
      }
      payments := payments[paymentId := Payment(b, booking.totalPrice, txRef, None, PaymentStatus.Pending)];
      resp := Payments.Initiated(paymentId, reply.checkoutUrl);
    }

    /** PaymentViewSet.verify_payment; `reply` is the gateway's answer. */
    method VerifyPayment(user: UserId, txRef: Option<string>, reply: VerifyReply) returns (resp: Payments.VerifyResponse)
      requires Valid(Snapshot())
      modifies this
      ensures Valid(Snapshot())
      ensures Outcome(Snapshot(), resp) == Payments.Verify(old(Snapshot()), user, txRef, reply)
    {
      if !Given(txRef) {
        return Payments.TxRefRequired;
      }
      var t := txRef.value;
      if !exists p :: p in payments && payments[p].txRef == t && payments[p].booking in bookings
                      && bookings[payments[p].booking].user == user {
        return Payments.PaymentNotFound;
      }
      var p :| p in payments && payments[p].txRef == t && payments[p].booking in bookings
               && bookings[payments[p].booking].user == user;
      Payments.FindPaymentUnique(Snapshot(), user, t, p);
      if reply.code != HttpOk {
        return Payments.VerificationFailed(reply.payload);
      }
      ghost var before := Snapshot();
      var payment := payments[p];
      if Succeeded(reply) {
        payment := payment.(status := Completed, chapaId := reply.transactionId);
        payments := payments[p := payment];
        var b := payment.booking;
        bookings := bookings[b := bookings[b].(status := Confirmed)];
        outbox := outbox + [PaymentConfirmation(b)];
        resp := Payments.PaymentSuccessful(payment.status);
        assert Snapshot() == Payments.Complete(before, p, reply.transactionId);
      } else {
        payment := payment.(status := Failed);
        payments := payments[p := payment];
        outbox := outbox + [PaymentFailure(payment.booking)];
        resp := Payments.PaymentFailed(payment.status);
        assert Snapshot() == Payments.Fail(before, p);
      }
    }
  }
}
