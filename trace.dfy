/**
 Sequences of requests served one after another by the listings views, and
 what holds of every state they reach.
 */
module Trace {
  import opened Store
  import opened Chapa
  import Listings
  import Bookings
  import Reviews
  import Payments

  datatype Request =
    | UpdateListing(user: UserId, listing: ListingId, details: ListingDetails)
    | DestroyListing(user: UserId, listing: ListingId)
    | CreateBooking(user: UserId, listingId: Option<ListingId>, bookingId: BookingId, status: BookingStatus, totalPrice: int)
    | CreateReview(user: UserId, listingId: Option<ListingId>, reviewId: ReviewId, rating: int, comment: string, dataValid: bool)
    | UpdateReview(user: UserId, review: ReviewId, rating: int, comment: string)
    | DestroyReview(user: UserId, review: ReviewId)
    | InitiatePayment(user: UserId, bookingParam: Option<BookingId>, paymentId: PaymentId, txRef: string, initReply: InitReply)
    | VerifyPayment(user: UserId, txRefParam: Option<string>, verifyReply: VerifyReply)

  /** The identifiers the request generates collide with nothing stored. */
  ghost predicate Admissible(s: State, req: Request)
  {
    match req
    case CreateBooking(_, _, b, _, _) => b !in s.bookings
    case CreateReview(_, _, q, _, _, _) => q !in s.reviews
    case InitiatePayment(_, _, p, t, _) => Payments.IsFresh(s, p, t)
    case _ => true
  }

  /** A payment that survives a request keeps its booking, amount and
      transaction reference. */
  ghost predicate KeepsPaymentIdentity(s: State, s': State)
  {
    forall p :: p in s.payments && p in s'.payments ==>
      && s'.payments[p].booking == s.payments[p].booking
      && s'.payments[p].amount == s.payments[p].amount
      && s'.payments[p].txRef == s.payments[p].txRef
  }

  /** The database after serving one request. */
  ghost function Step(s: State, req: Request): (r: State)
    requires Valid(s) && Admissible(s, req)
    ensures Valid(r)
    ensures s.outbox <= r.outbox
  {
    match req
    case UpdateListing(u, l, d) => Listings.UpdateListing(s, u, l, d).state
    case DestroyListing(u, l) => Listings.DestroyListing(s, u, l).state
    case CreateBooking(u, l, b, st, price) => Bookings.CreateBooking(s, u, l, b, st, price).state
    case CreateReview(u, l, q, rating, comment, ok) => Reviews.CreateReview(s, u, l, q, rating, comment, ok).state
    case UpdateReview(u, q, rating, comment) => Reviews.UpdateReview(s, u, q, rating, comment).state
    case DestroyReview(u, q) => Reviews.DestroyReview(s, u, q).state
    case InitiatePayment(u, b, p, t, reply) => Payments.Initiate(s, u, b, p, t, reply).state
    case VerifyPayment(u, t, reply) => Payments.Verify(s, u, t, reply).state
  }

  /** Verification only changes a payment's status and gateway id. */
  lemma VerifyKeepsPaymentIdentity(s: State, u: UserId, t: Option<string>, reply: VerifyReply)
    requires Valid(s)
    ensures KeepsPaymentIdentity(s, Payments.Verify(s, u, t, reply).state)
  {
    var r := Payments.Verify(s, u, t, reply).state;
    if Given(t) && Payments.FindPayment(s, u, t.value).Some? && reply.code == HttpOk {
      var p := Payments.FindPayment(s, u, t.value).value;
      if Succeeded(reply) {
        assert Payments.CompletesPayment(s, r, p, reply.transactionId);
      } else {
        assert Payments.FailsPayment(s, r, p);
      }
    }
  }

  /** No request changes which booking a payment pays for, its amount or its
      transaction reference. */
  lemma StepKeepsPaymentIdentity(s: State, req: Request)
    requires Valid(s) && Admissible(s, req)
    ensures KeepsPaymentIdentity(s, Step(s, req))
  {
    match req
    case VerifyPayment(u, t, reply) =>
      VerifyKeepsPaymentIdentity(s, u, t, reply);
    case InitiatePayment(u, b, p, t, reply) =>
      assert Keeps(s.payments, Step(s, req).payments);
    case DestroyListing(u, l) =>
      assert Keeps(Step(s, req).payments, s.payments);
    case _ =>
      assert Step(s, req).payments == s.payments;
  }

  /** Payments come into existence only through initiation, and as PENDING. */
  lemma StepCreatesPaymentsOnlyByInitiation(s: State, req: Request)
    requires Valid(s) && Admissible(s, req)
    ensures forall p :: p in Step(s, req).payments && p !in s.payments ==>
      req.InitiatePayment? && Step(s, req).payments[p].status == PaymentStatus.Pending
  {
    match req
    case VerifyPayment(u, t, reply) =>
      VerifyKeepsPaymentIdentity(s, u, t, reply);
    case InitiatePayment(u, b, p, t, reply) =>
    case DestroyListing(u, l) =>
      assert Keeps(Step(s, req).payments, s.payments);
    case _ =>
      assert Step(s, req).payments == s.payments;
  }

  /** Verification changes no booking but the verified payment's, and that
      one only to CONFIRMED. */
  lemma VerifyOnlyConfirms(s: State, u: UserId, t: Option<string>, reply: VerifyReply)
    requires Valid(s)
    ensures var r := Payments.Verify(s, u, t, reply).state;
            forall b :: b in s.bookings && b in r.bookings && r.bookings[b].status != s.bookings[b].status ==>
              r.bookings[b].status == Confirmed
  {
    var r := Payments.Verify(s, u, t, reply).state;
    if Given(t) && Payments.FindPayment(s, u, t.value).Some? && reply.code == HttpOk {
      var p := Payments.FindPayment(s, u, t.value).value;
      if Succeeded(reply) {
        assert Payments.CompletesPayment(s, r, p, reply.transactionId);
      } else {
        assert Payments.FailsPayment(s, r, p);
      }
    }
  }

  /** Among the modelled requests, an existing booking's status changes only
      through a successful verification of its payment, and then to
      CONFIRMED. (Creation may give a new booking any status.) */
  lemma StepConfirmsBookingsOnlyByVerification(s: State, req: Request)
    requires Valid(s) && Admissible(s, req)
    ensures forall b :: b in s.bookings && b in Step(s, req).bookings && Step(s, req).bookings[b].status != s.bookings[b].status ==>
      req.VerifyPayment? && Step(s, req).bookings[b].status == Confirmed
  {
    match req
    case VerifyPayment(u, t, reply) =>
      VerifyOnlyConfirms(s, u, t, reply);
    case CreateBooking(u, l, b, st, price) =>
      assert Keeps(s.bookings, Step(s, req).bookings);
    case DestroyListing(u, l) =>
      assert Keeps(Step(s, req).bookings, s.bookings);
    case _ =>
      assert Step(s, req).bookings == s.bookings;
  }

  /** Every request of `reqs` finds its generated identifiers fresh. */
  ghost predicate Executable(s: State, reqs: seq<Request>)
    requires Valid(s)
    decreases |reqs|
  {
    reqs == [] || (Admissible(s, reqs[0]) && Executable(Step(s, reqs[0]), reqs[1..]))
  }

  /** The database after serving `reqs` in order: the integrity invariant
      (one payment per booking, unique references, no dangling record) holds
      throughout, and the task queue only grows. */
  ghost function Run(s: State, reqs: seq<Request>): (r: State)
    requires Valid(s) && Executable(s, reqs)
    ensures Valid(r)
    ensures s.outbox <= r.outbox
    decreases |reqs|
  {
    if reqs == [] then s else Run(Step(s, reqs[0]), reqs[1..])
  }

  /** Serving `req` and then `rest` is serving `[req] + rest`. */
  lemma RunCons(s: State, req: Request, rest: seq<Request>)
    requires Valid(s) && Admissible(s, req) && Executable(Step(s, req), rest)
    ensures Executable(s, [req] + rest)
    ensures Run(s, [req] + rest) == Run(Step(s, req), rest)
  {
    assert ([req] + rest)[0] == req && ([req] + rest)[1..] == rest;
  }

  /** `k` copies of `x`. */
  function Repeat<T>(x: T, k: nat): (r: seq<T>)
    ensures |r| == k
  {
    if k == 0 then [] else [x] + Repeat(x, k - 1)
  }

  lemma AppendRepeat<T>(prefix: seq<T>, x: T, k: nat)
    requires k > 0
    ensures (prefix + [x]) + Repeat(x, k - 1) == prefix + Repeat(x, k)
  {
    assert Repeat(x, k) == [x] + Repeat(x, k - 1);
  }

  /** One successful verification of payment `p` leaves it findable by the
      same reference, completed, with its booking confirmed and one more
      confirmation queued. */
  lemma VerifySucceeds(s: State, user: UserId, p: PaymentId, check: VerifyReply)
    requires Valid(s) && p in s.payments && s.payments[p].txRef != ""
    requires Payments.PaymentOf(s, user, s.payments[p].txRef, p)
    requires check.code == HttpOk && Succeeded(check)
    ensures var s1 := Step(s, VerifyPayment(user, Some(s.payments[p].txRef), check));
            && p in s1.payments
            && s1.payments[p].txRef == s.payments[p].txRef
            && s1.payments[p].booking == s.payments[p].booking
            && Payments.PaymentOf(s1, user, s.payments[p].txRef, p)
            && s1.payments[p].status == Completed
            && s1.bookings[s.payments[p].booking].status == Confirmed
            && s1.outbox == s.outbox + [PaymentConfirmation(s.payments[p].booking)]
  {
    assert Payments.PaymentOf(s, user, Some(s.payments[p].txRef).value, p);
  }

  /** As written, verification is not idempotent: verifying the same
      reference `k` times with a successful answer queues `k` confirmations,
      and the payment stays found, completed and its booking confirmed. */
  lemma {:induction false} ReverifyQueuesEveryTime(s: State, user: UserId, p: PaymentId, check: VerifyReply, k: nat)
    requires Valid(s) && p in s.payments && s.payments[p].txRef != ""
    requires Payments.PaymentOf(s, user, s.payments[p].txRef, p)
    requires check.code == HttpOk && Succeeded(check)
    ensures var reqs := Repeat(VerifyPayment(user, Some(s.payments[p].txRef), check), k);
            && Executable(s, reqs)
            && var r := Run(s, reqs);
            && Payments.PaymentOf(r, user, s.payments[p].txRef, p)
            && r.payments[p].booking == s.payments[p].booking
            && r.outbox == s.outbox + Repeat(PaymentConfirmation(s.payments[p].booking), k)
            && (k > 0 ==> r.payments[p].status == Completed && r.bookings[s.payments[p].booking].status == Confirmed)
    decreases k
  {
    var t := s.payments[p].txRef;
    var b := s.payments[p].booking;
    var req := VerifyPayment(user, Some(t), check);
    if k > 0 {
      var s1 := Step(s, req);
      VerifySucceeds(s, user, p, check);
      ReverifyQueuesEveryTime(s1, user, p, check, k - 1);
      assert Repeat(req, k) == [req] + Repeat(req, k - 1);
      RunCons(s, req, Repeat(req, k - 1));
      var n := PaymentConfirmation(b);
      var r := Run(s1, Repeat(req, k - 1));
      assert r.outbox == s1.outbox + Repeat(n, k - 1);
      assert s1.outbox == s.outbox + [n];
      AppendRepeat(s.outbox, n, k);
    }
  }

  /** A booking just created can be paid for: its owner's initiation with a
      200 answer creates its payment. */
  lemma NewBookingCanBePaid(s: State, user: UserId, l: ListingId, b: BookingId, status: BookingStatus, totalPrice: int,
                            paymentId: PaymentId, txRef: string, reply: InitReply)
    requires Valid(s) && b !in s.bookings && l in s.listings
    requires Payments.IsFresh(Bookings.CreateBooking(s, user, Some(l), b, status, totalPrice).state, paymentId, txRef)
    requires reply.code == HttpOk
    ensures var s1 := Bookings.CreateBooking(s, user, Some(l), b, status, totalPrice).state;
            var r := Payments.Initiate(s1, user, Some(b), paymentId, txRef, reply);
            && r.response == Payments.Initiated(paymentId, reply.checkoutUrl)
            && r.state.payments[paymentId].amount == totalPrice
  {
    var s1 := Bookings.CreateBooking(s, user, Some(l), b, status, totalPrice).state;
    assert s1.payments == s.payments;
    assert !Payments.HasPayment(s1, b);
  }
}
