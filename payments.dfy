/**
 PaymentViewSet: initiating a Chapa payment for a booking and verifying it.

 Each action is a function from the database before the request to the
 database after it and the response. The gateway's reply and the freshly
 generated identifiers are parameters.
 */
module Payments {
  import opened Store
  import opened Chapa

  datatype InitiateResponse =
    | BookingNotFound
    | AlreadyInitiated
    | InitializationFailed(error: string)
    | Initiated(paymentId: PaymentId, checkoutUrl: Option<string>)
  {
    function Code(): int
    {
      match this
      case BookingNotFound => 404
      case AlreadyInitiated => 400
      case InitializationFailed(_) => 400
      case Initiated(_, _) => 201
    }
  }

  datatype VerifyResponse =
    | TxRefRequired
    | PaymentNotFound
    | VerificationFailed(error: string)
    | PaymentSuccessful(status: PaymentStatus)
    | PaymentFailed(status: PaymentStatus)
  {
    function Code(): int
    {
      match this
      case TxRefRequired => 400
      case PaymentNotFound => 404
      case VerificationFailed(_) => 400
      case PaymentSuccessful(_) => 200
      case PaymentFailed(_) => 400
    }
  }

  /** `Booking.objects.get(booking_id=b, user=user)` finds a record. */
  ghost predicate OwnsBooking(s: State, user: UserId, b: BookingId)
  {
    b in s.bookings && s.bookings[b].user == user
  }

  /** `hasattr(booking, "payment")`: some payment refers to the booking. */
  ghost predicate HasPayment(s: State, b: BookingId)
  {
    exists p :: p in s.payments && s.payments[p].booking == b
  }

  /** `Payment.objects.get(transaction_reference=txRef, booking__user=user)` may return `p`. */
  ghost predicate PaymentOf(s: State, user: UserId, txRef: string, p: PaymentId)
  {
    p in s.payments && s.payments[p].txRef == txRef && OwnsBooking(s, user, s.payments[p].booking)
  }

  /** The payment `verify_payment` looks up, if any. */
  ghost function FindPayment(s: State, user: UserId, txRef: string): (r: Option<PaymentId>)
    ensures r.Some? ==> PaymentOf(s, user, txRef, r.value)
    ensures r.None? ==> forall p :: !PaymentOf(s, user, txRef, p)
  {
    if exists p :: PaymentOf(s, user, txRef, p) then
      var p :| PaymentOf(s, user, txRef, p);
      Some(p)
    else
      None
  }

  /** In a consistent database the lookup is determined: the reference names
      one payment at most. */
  lemma FindPaymentUnique(s: State, user: UserId, txRef: string, p: PaymentId)
    requires Valid(s) && PaymentOf(s, user, txRef, p)
    ensures FindPayment(s, user, txRef) == Some(p)
  {
  }

  /** The identifiers `initiate_payment` generates (the uuid primary key and
      `uuid4()` as tx_ref) collide with nothing stored. */
  ghost predicate IsFresh(s: State, paymentId: PaymentId, txRef: string)
  {
    && paymentId !in s.payments
    && txRef != ""
    && forall p :: p in s.payments ==> s.payments[p].txRef != txRef
  }

  ghost function PaymentsFor(s: State, b: BookingId): set<PaymentId>
  {
    set p | p in s.payments && s.payments[p].booking == b
  }

  /** `s'` is `s` with exactly one more payment, `payment` under key `id`. */
  ghost predicate AddsPayment(s: State, s': State, id: PaymentId, payment: Payment)
  {
    && s'.payments.Keys == s.payments.Keys + {id}
    && id in s'.payments && s'.payments[id] == payment
    && Keeps(s.payments, s'.payments)
    && s'.listings == s.listings && s'.bookings == s.bookings
    && s'.reviews == s.reviews && s'.outbox == s.outbox
  }

  /** The success branch of verification: payment `p` is completed with the
      gateway's id, its booking confirmed, one confirmation queued, and
      nothing else changes. */
  ghost predicate CompletesPayment(s: State, s': State, p: PaymentId, chapaId: Option<string>)
  {
    && p in s.payments
    && var b := s.payments[p].booking;
    && b in s.bookings
    && s'.payments.Keys == s.payments.Keys
    && s'.payments[p] == s.payments[p].(status := Completed, chapaId := chapaId)
    && (forall q :: q in s.payments && q != p ==> s'.payments[q] == s.payments[q])
    && s'.bookings.Keys == s.bookings.Keys
    && s'.bookings[b] == s.bookings[b].(status := Confirmed)
    && (forall c :: c in s.bookings && c != b ==> s'.bookings[c] == s.bookings[c])
    && s'.outbox == s.outbox + [PaymentConfirmation(b)]
    && s'.listings == s.listings && s'.reviews == s.reviews
  }

  /** The other branch: payment `p` is failed whatever it was before, its
      booking is untouched, one failure notice is queued. */
  ghost predicate FailsPayment(s: State, s': State, p: PaymentId)
  {
    && p in s.payments
    && s'.payments.Keys == s.payments.Keys
    && s'.payments[p] == s.payments[p].(status := Failed)
    && (forall q :: q in s.payments && q != p ==> s'.payments[q] == s.payments[q])
    && s'.outbox == s.outbox + [PaymentFailure(s.payments[p].booking)]
    && s'.bookings == s.bookings && s'.listings == s.listings && s'.reviews == s.reviews
  }

  /** `initiate_payment`: a PENDING payment for the requester's own booking,
      created only when the booking has none and the gateway answered 200. */
  ghost function Initiate(s: State, user: UserId, bookingId: Option<BookingId>, paymentId: PaymentId,
                          txRef: string, reply: InitReply): (r: Outcome<InitiateResponse>)
    requires Valid(s) && IsFresh(s, paymentId, txRef)
    ensures Valid(r.state)
    ensures r.response == BookingNotFound <==> bookingId.None? || !OwnsBooking(s, user, bookingId.value)
    ensures r.response == AlreadyInitiated <==> bookingId.Some? && OwnsBooking(s, user, bookingId.value) && HasPayment(s, bookingId.value)
    ensures r.response.InitializationFailed? <==>
      bookingId.Some? && OwnsBooking(s, user, bookingId.value) && !HasPayment(s, bookingId.value) && reply.code != HttpOk
    ensures r.response.InitializationFailed? ==> r.response.error == reply.payload
    ensures !r.response.Initiated? ==> r.state == s
    ensures r.response.Initiated? ==>
      && bookingId.Some? && bookingId.value in s.bookings
      && r.response == Initiated(paymentId, reply.checkoutUrl)
      && AddsPayment(s, r.state, paymentId,
                     Payment(bookingId.value, s.bookings[bookingId.value].totalPrice, txRef, None, PaymentStatus.Pending))
  {
    if bookingId.None? || !OwnsBooking(s, user, bookingId.value) then
      Outcome(s, BookingNotFound)
    else if HasPayment(s, bookingId.value) then
      Outcome(s, AlreadyInitiated)
    else if reply.code != HttpOk then
      Outcome(s, InitializationFailed(reply.payload))
    else
      var b := bookingId.value;
      var payment := Payment(b, s.bookings[b].totalPrice, txRef, None, PaymentStatus.Pending);
      Outcome(s.(payments := s.payments[paymentId := payment]), Initiated(paymentId, reply.checkoutUrl))
  }

  /** `verify_payment`: asks the gateway about the requester's payment with
      that reference and settles it by the answer, with no guard on the
      payment's current status. */
  ghost function Verify(s: State, user: UserId, txRef: Option<string>, reply: VerifyReply): (r: Outcome<VerifyResponse>)
    requires Valid(s)
    ensures Valid(r.state)
    ensures !Given(txRef) ==> r == Outcome(s, TxRefRequired)
    ensures Given(txRef) && (forall p :: !PaymentOf(s, user, txRef.value, p)) ==> r == Outcome(s, PaymentNotFound)
    ensures Given(txRef) ==> forall p {:trigger PaymentOf(s, user, txRef.value, p)} :: PaymentOf(s, user, txRef.value, p) ==>
      && (reply.code != HttpOk ==> r == Outcome(s, VerificationFailed(reply.payload)))
      && (reply.code == HttpOk && Succeeded(reply) ==>
            r.response == PaymentSuccessful(Completed) && CompletesPayment(s, r.state, p, reply.transactionId))
      && (reply.code == HttpOk && !Succeeded(reply) ==>
            r.response == PaymentFailed(Failed) && FailsPayment(s, r.state, p))
  {
    if !Given(txRef) then
      Outcome(s, TxRefRequired)
    else if FindPayment(s, user, txRef.value).None? then
      Outcome(s, PaymentNotFound)
    else if reply.code != HttpOk then
      Outcome(s, VerificationFailed(reply.payload))
    else
      var p := FindPayment(s, user, txRef.value).value;
      if Succeeded(reply) then
        Outcome(Complete(s, p, reply.transactionId), PaymentSuccessful(Completed))
      else
        Outcome(Fail(s, p), PaymentFailed(Failed))
  }

  /** The success branch of `verify_payment`: the payment is marked COMPLETED
      with the gateway's id, then its booking CONFIRMED, then the confirmation
      e-mail task queued. */
  ghost function Complete(s: State, p: PaymentId, chapaId: Option<string>): (r: State)
    requires Valid(s) && p in s.payments
    ensures Valid(r)
    ensures CompletesPayment(s, r, p, chapaId)
  {
    var payment := s.payments[p].(status := Completed, chapaId := chapaId);
    var b := payment.booking;
    s.(payments := s.payments[p := payment],
       bookings := s.bookings[b := s.bookings[b].(status := Confirmed)],
       outbox := s.outbox + [PaymentConfirmation(b)])
  }

  /** The other branch: the payment is marked FAILED and the failure e-mail
      task queued; the booking is not touched. */
  ghost function Fail(s: State, p: PaymentId): (r: State)
    requires Valid(s) && p in s.payments
    ensures Valid(r)
    ensures FailsPayment(s, r, p)
  {
    var payment := s.payments[p].(status := Failed);
    s.(payments := s.payments[p := payment], outbox := s.outbox + [PaymentFailure(payment.booking)])
  }

  /** At most one payment exists for any booking. */
  lemma AtMostOnePayment(s: State, b: BookingId)
    requires Valid(s)
    ensures |PaymentsFor(s, b)| <= 1
  {
    if p :| p in PaymentsFor(s, b) {
      assert PaymentsFor(s, b) == {p};
    }
  }

  /** Once a payment is initiated for a booking, a second initiation for it
      by its owner is refused with 400 and changes nothing. */
  lemma SecondInitiateRejected(s: State, user: UserId, b: BookingId, paymentId: PaymentId, txRef: string, reply: InitReply,
                               paymentId2: PaymentId, txRef2: string, reply2: InitReply)
    requires Valid(s) && IsFresh(s, paymentId, txRef)
    requires Initiate(s, user, Some(b), paymentId, txRef, reply).response.Initiated?
    requires IsFresh(Initiate(s, user, Some(b), paymentId, txRef, reply).state, paymentId2, txRef2)
    ensures var s1 := Initiate(s, user, Some(b), paymentId, txRef, reply).state;
            Initiate(s1, user, Some(b), paymentId2, txRef2, reply2) == Outcome(s1, AlreadyInitiated)
  {
    var s1 := Initiate(s, user, Some(b), paymentId, txRef, reply).state;
    assert s1.payments[paymentId].booking == b;
    assert HasPayment(s1, b);
  }

  /** A freshly initiated payment is found by its reference, and a successful
      verification completes it and confirms its booking. */
  lemma InitiateThenVerify(s: State, user: UserId, b: BookingId, paymentId: PaymentId, txRef: string,
                           reply: InitReply, check: VerifyReply)
    requires Valid(s) && IsFresh(s, paymentId, txRef)
    requires Initiate(s, user, Some(b), paymentId, txRef, reply).response.Initiated?
    requires check.code == HttpOk && Succeeded(check)
    ensures var s1 := Initiate(s, user, Some(b), paymentId, txRef, reply).state;
            var r := Verify(s1, user, Some(txRef), check);
            && r.response == PaymentSuccessful(Completed)
            && r.state.payments[paymentId].status == Completed
            && r.state.payments[paymentId].chapaId == check.transactionId
            && r.state.bookings[b].status == Confirmed
            && r.state.outbox == s.outbox + [PaymentConfirmation(b)]
  {
    var s1 := Initiate(s, user, Some(b), paymentId, txRef, reply).state;
    assert PaymentOf(s1, user, txRef, paymentId);
  }

  /** As written, verification does not look at the current status: a
      completed payment answered with anything but "success" becomes FAILED
      and queues a failure notice, while its booking stays confirmed. */
  lemma CompletedPaymentCanFail(s: State, user: UserId, p: PaymentId, check: VerifyReply)
    requires Valid(s) && p in s.payments && s.payments[p].txRef != ""
    requires PaymentOf(s, user, s.payments[p].txRef, p) && s.payments[p].status == Completed
    requires check.code == HttpOk && !Succeeded(check)
    ensures var r := Verify(s, user, Some(s.payments[p].txRef), check);
            && r.state.payments[p].status == Failed
            && r.state.bookings == s.bookings
            && r.state.outbox == s.outbox + [PaymentFailure(s.payments[p].booking)]
  {
    assert PaymentOf(s, user, Some(s.payments[p].txRef).value, p);
  }

  /** The HTTP status `initiate_payment` answers with: 404 exactly when the
      requester has no such booking, 400 exactly when the booking is already
      paid for or the gateway did not answer 200, and 201 exactly when the
      database changed. */
  lemma InitiateStatusCodes(s: State, user: UserId, bookingId: Option<BookingId>, paymentId: PaymentId,
                            txRef: string, reply: InitReply)
    requires Valid(s) && IsFresh(s, paymentId, txRef)
    ensures var r := Initiate(s, user, bookingId, paymentId, txRef, reply);
            && (r.response.Code() == 404 <==> bookingId.None? || !OwnsBooking(s, user, bookingId.value))
            && (r.response.Code() == 400 <==>
                  bookingId.Some? && OwnsBooking(s, user, bookingId.value)
                  && (HasPayment(s, bookingId.value) || reply.code != HttpOk))
            && (r.response.Code() == 201 <==> r.state != s)
  {
    var r := Initiate(s, user, bookingId, paymentId, txRef, reply);
    if r.response.Initiated? {
      assert paymentId in r.state.payments && paymentId !in s.payments;
    }
  }

  /** The HTTP status `verify_payment` answers with: 404 exactly when the
      requester has no payment with that reference, 200 exactly when the
      gateway answered 200 with "success" for a found payment, 400 in every
      other case; and the database changes exactly when a found payment got a
      200 answer, whatever its status. */
  lemma VerifyStatusCodes(s: State, user: UserId, txRef: Option<string>, reply: VerifyReply)
    requires Valid(s)
    ensures var r := Verify(s, user, txRef, reply);
            var found := Given(txRef) && FindPayment(s, user, txRef.value).Some?;
            && (r.response.Code() == 404 <==> Given(txRef) && !found)
            && (r.response.Code() == 200 <==> found && reply.code == HttpOk && Succeeded(reply))
            && (r.response.Code() == 400 <==> !Given(txRef) || (found && !(reply.code == HttpOk && Succeeded(reply))))
            && (r.state != s <==> found && reply.code == HttpOk)
  {
    var r := Verify(s, user, txRef, reply);
    if Given(txRef) && FindPayment(s, user, txRef.value).Some? && reply.code == HttpOk {
      assert |r.state.outbox| == |s.outbox| + 1;
    }
  }
}
