# Travel listings backend: payment, booking and review views

This project models the request handlers of the `listings` app of a Django travel-booking
backend. The main focus is the payment flow of `PaymentViewSet`:

- `initiate_payment` finds the requester's own booking. It refuses a second payment for that
  booking and asks the Chapa gateway to initialize a transaction. Only on a 200 reply does it
  store one PENDING payment, which carries a fresh `tx_ref` and the booking's total price.
- `verify_payment` finds the requester's payment by `tx_ref` and asks the gateway for its status.
  - On `"success"` it marks the payment COMPLETED, records the gateway id, marks the booking
    CONFIRMED and queues a confirmation e-mail task.
  - On any other answer it marks the payment FAILED and queues a failure e-mail task.

The model also covers these smaller rules in `views.py`:

- the guarded review creation;
- owner-only update and delete of listings and reviews;
- booking creation, which also queues a confirmation e-mail task.

How it is built:

- `store.dfy` (module `Store`) holds the records. A `State` holds the four tables (listings,
  bookings, payments, reviews) as maps keyed by their uuid, plus the task queue (`outbox`) as a
  sequence of `PaymentConfirmation(booking)` / `PaymentFailure(booking)` entries. `Valid` is the
  database's integrity:
  - no dangling foreign key;
  - one payment per booking;
  - unique transaction references;
  - one review per user and listing.
- `chapa.dfy` (module `Chapa`) gives the gateway's replies as plain input values: a status code, the
  raw body, and the optional `checkout_url`, `status` and `id`.
- `listings.dfy`, `bookings.dfy`, `reviews.dfy` and `payments.dfy` give each view action as a
  function from the state before the request to the state after it plus the response. Their
  contracts state the outcome of every branch, what changes and what does not, and that `Valid`
  is kept.
- `views.dfy` (class `Views.Backend`) is the imperative form. Its fields are the tables and the
  queue, and each method updates them step by step, as the views do through `save()` and
  `.delay()`. Each method is proved to leave exactly the state, and return exactly the response,
  that the function above prescribes.
- `trace.dfy` (module `Trace`) serves sequences of requests. It proves that the integrity holds in
  every reachable state, that the task queue only grows, and what repeated verification does.

The Chapa reply and the generated uuids (`tx_ref`, and the primary keys of new rows) are inputs.
Each generated id must be fresh, as uuid4 values are in practice.

The model follows `views.py`, including where it is weaker than one might expect:

- `verify_payment` does not look at the payment's current status. A COMPLETED payment that is
  verified again with a non-success answer becomes FAILED and queues a failure e-mail. Every
  successful re-verification queues one more confirmation (`Trace.ReverifyQueuesEveryTime`). So
  payment status is not monotonic, and verification is not idempotent.
- A successful verification sets the booking to CONFIRMED whatever its status was, CANCELED
  included.
- Booking creation queues `send_payment_confirmation_email` before any payment exists.
- `models.py` does not agree with `views.py`. It has no `Payment` model, `Listing` has `user`
  rather than `host`, and `Booking` has no `user` or `total_price`. Record fields are taken from
  their use in `views.py`.
- With no `Payment` model in `models.py`, the one-payment guard `hasattr(booking, "payment")`
  (views.py:218) is taken to mean "some payment refers to this booking". That holds when
  `Payment.booking` is a `OneToOneField` with the default reverse name. With a plain `ForeignKey`
  the accessor would be `payment_set` and the guard always false. With `related_name="payment"`
  it would always be true.
- Booking creation stores the status from the request data (views.py:92), so a booking can start
  out CONFIRMED, or any other status, with no payment.

## Model

| member | source | states |
|---|---|---|
| `Payments.Initiate` | alx_travel_app/listings/views.py:206-262 | 404 with no change iff no booking with that id belongs to the requester; 400 with no change iff the booking already has a payment; gateway error (carrying the raw body) with no change iff the reply is not 200; otherwise exactly one new payment under the new id, with the booking, its total price as amount, the generated tx_ref, no gateway id and PENDING status, the checkout URL returned and nothing else changed; integrity kept |
| `Payments.Verify` | alx_travel_app/listings/views.py:264-317 | 400 with no change when tx_ref is missing or empty; 404 with no change when no payment of the requester's bookings has that reference; 400 with no change when the gateway reply is not 200; on "success" the found payment is completed and its booking confirmed, with one confirmation queued; on anything else the payment is failed, the booking untouched, and one failure queued; integrity kept |
| `Payments.FindPayment` | alx_travel_app/listings/views.py:273-276 | the lookup returns a payment with that reference whose booking belongs to the requester, or nothing when there is none |
| `Payments.FindPaymentUnique` | alx_travel_app/listings/views.py:274 | in a consistent database the lookup by reference and requester is determined: it returns the one matching payment |
| `Payments.Complete` | alx_travel_app/listings/views.py:293-305 | the payment becomes COMPLETED with the gateway id, every other payment is unchanged, its booking becomes CONFIRMED and no other booking changes, exactly one confirmation for that booking is appended, integrity kept |
| `Payments.Fail` | alx_travel_app/listings/views.py:307-317 | the payment becomes FAILED whatever it was, other payments and all bookings are unchanged, exactly one failure notice for its booking is appended, integrity kept |
| `Payments.AtMostOnePayment` | alx_travel_app/listings/views.py:217-219 | in a consistent database a booking has at most one payment |
| `Payments.SecondInitiateRejected` | alx_travel_app/listings/views.py:217-219 | after a successful initiation for a booking, any further initiation for it by its owner answers 400 and changes nothing (another requester gets 404, views.py:213-215) |
| `Payments.InitiateThenVerify` | alx_travel_app/listings/views.py:221-305 | a payment just initiated is found by its tx_ref, and a successful verification completes it with the gateway id, confirms its booking and queues exactly one confirmation |
| `Payments.CompletedPaymentCanFail` | alx_travel_app/listings/views.py:307-312 | verification has no status guard: a COMPLETED payment answered with a non-success status becomes FAILED, bookings stay as they were and a failure notice is queued |
| `Payments.InitiateStatusCodes` | alx_travel_app/listings/views.py:213-262 | the HTTP status of `initiate_payment`: 404 exactly when the requester has no such booking, 400 exactly when it is already paid for or the gateway did not answer 200, 201 exactly when the database changed |
| `Payments.VerifyStatusCodes` | alx_travel_app/listings/views.py:269-317 | the HTTP status of `verify_payment`: 404 exactly when the requester has no payment with that reference, 200 exactly when a found payment's gateway answer is 200 with "success", 400 otherwise; the database changes exactly when a found payment got a 200 answer |
| `Listings.UpdateListing` | alx_travel_app/listings/views.py:55-63 | with no `host` query parameter: 404 iff the listing does not exist, 403 iff the requester is not its host, both with no change; otherwise only that listing's details are replaced, host kept; integrity kept |
| `Listings.DestroyListing` | alx_travel_app/listings/views.py:65-73 | 404 and 403 as for update, with no change; otherwise the listing is removed with exactly its bookings, their payments and its reviews, all other records kept as they were and the queue unchanged (reviews attached to a deleted booking but of another listing are kept, see Left out); integrity kept |
| `Bookings.CreateBooking` | alx_travel_app/listings/views.py:87-101 | "Listing not found" with no change iff the listing id is missing or unknown; otherwise exactly one new booking for the requester and that listing, and exactly one confirmation task queued for it, nothing else changed; integrity kept |
| `Reviews.CreateReview` | alx_travel_app/listings/views.py:137-165 | 400 iff the listing id is missing or empty; 404 iff the listing does not exist; 400 iff the requester already reviewed it; 400 iff the data is invalid; each of these with no change; otherwise exactly one new review by the requester for that listing; one review per user and listing kept |
| `Reviews.UpdateReview` | alx_travel_app/listings/views.py:167-175 | with no `listing_id` query parameter: 404 iff the review does not exist, 403 iff the requester is not its author, both with no change; otherwise only that review's rating and comment change |
| `Reviews.DestroyReview` | alx_travel_app/listings/views.py:177-185 | 404 and 403 as for update, with no change; otherwise exactly that review is removed and nothing else changes |
| `Reviews.SecondReviewRejected` | alx_travel_app/listings/views.py:154-159 | once a user's review of a listing is created, any further create by that user for that listing answers 400 and changes nothing |
| `Trace.Step` | alx_travel_app/listings/views.py:55-317 | serving any one request keeps the database's integrity and only appends to the task queue |
| `Trace.Run` | alx_travel_app/listings/views.py:55-317 | after any sequence of requests with fresh generated ids the integrity holds: one payment per booking, unique transaction references, no dangling record, one review per user and listing; the task queue only grew |
| `Trace.VerifySucceeds` | alx_travel_app/listings/views.py:293-305 | one successful verification keeps the payment findable by the same reference, completed, with its booking confirmed and one confirmation appended |
| `Trace.ReverifyQueuesEveryTime` | alx_travel_app/listings/views.py:293-305 | verifying the same reference k times with "success" appends exactly k confirmations for its booking; the payment stays completed and the booking confirmed |
| `Trace.NewBookingCanBePaid` | alx_travel_app/listings/views.py:211-257 | a booking just created has no payment, so its owner's initiation with a 200 reply creates one whose amount is the booking's total price |
| `Trace.VerifyKeepsPaymentIdentity` | alx_travel_app/listings/views.py:293-309 | verification never changes a payment's booking, amount or transaction reference |
| `Trace.StepKeepsPaymentIdentity` | alx_travel_app/listings/views.py:252-309 | no request changes a surviving payment's booking, amount or transaction reference |
| `Trace.StepCreatesPaymentsOnlyByInitiation` | alx_travel_app/listings/views.py:252-257 | a payment that appears after a request was created by an initiation, and is PENDING |
| `Trace.VerifyOnlyConfirms` | alx_travel_app/listings/views.py:298-300 | verification changes a booking's status only to CONFIRMED |
| `Trace.StepConfirmsBookingsOnlyByVerification` | alx_travel_app/listings/views.py:298-300 | among the modelled requests, an existing booking's status changes only through verification, and only to CONFIRMED; creation may give a new booking any status, CONFIRMED included; the framework's default booking update, left out, can also set it |
| `Views.Backend.InitiatePayment` | alx_travel_app/listings/views.py:206-262 | the tables, queue and response after the call are those of `Payments.Initiate` on the tables before it; integrity kept |
| `Views.Backend.VerifyPayment` | alx_travel_app/listings/views.py:264-317 | the tables, queue and response after the call are those of `Payments.Verify` on the tables before it; integrity kept |
| `Views.Backend.CreateBooking` | alx_travel_app/listings/views.py:87-101 | the tables, queue and response after the call are those of `Bookings.CreateBooking`; integrity kept |
| `Views.Backend.CreateReview` | alx_travel_app/listings/views.py:137-165 | the tables and response after the call are those of `Reviews.CreateReview`; integrity kept |
| `Views.Backend.UpdateListing` | alx_travel_app/listings/views.py:55-63 | the tables and response after the call are those of `Listings.UpdateListing`; integrity kept |
| `Views.Backend.DestroyListing` | alx_travel_app/listings/views.py:65-73 | the tables and response after the call are those of `Listings.DestroyListing`, cascade included; integrity kept |
| `Views.Backend.UpdateReview` | alx_travel_app/listings/views.py:167-175 | the tables and response after the call are those of `Reviews.UpdateReview`; integrity kept |
| `Views.Backend.DestroyReview` | alx_travel_app/listings/views.py:177-185 | the tables and response after the call are those of `Reviews.DestroyReview`; integrity kept |

## Left out

- The HTTP calls to Chapa (views.py:240-244, 282-285), the request headers, the API key and the
  base URL. Each reply is an input value. Network failures and timeouts, which would raise rather
  than return a status code, are not modelled.
- Gateway bodies are assumed to be JSON objects whose `data` is an object or absent. Other bodies
  make the views raise, and the client gets a 500, which the model does not represent:
  - a non-JSON body on a non-200 reply (views.py:247, 288), with nothing changed; the model answers
    400 with the raw body instead;
  - a 200 reply with `"data": null` to initiation (views.py:261), which raises after the payment is
    stored at views.py:252, so a retry then gets 400; the model answers `Initiated`;
  - a 200 reply with `"data": null` to verification (views.py:291), which raises before anything
    changes; the model cannot tell it from a missing `data` and fails the payment.
- `uuid.uuid4()` and the database's uuid defaults. The generated `tx_ref` and primary keys are
  parameters that must be fresh. Nothing in the code guarantees this beyond uuid4's randomness.
- The Django ORM, `Response` bodies and messages, and permission classes. The requester is always
  an authenticated user id, and each response is a constructor with its HTTP status (`Code()`).
  Malformed uuids that make a lookup raise a validation error are not modelled.
- Serializer validation is not modelled. The one exception is `ReviewViewSet.create`, which
  branches on `is_valid()`; there it is a boolean input. Booking fields other than status and
  total price (dates) are not modelled. Listing and review updates replace only the editable
  details, or the rating and comment. Partial updates are not distinguished.
- `Bookings.CreateBooking` returns the 404 that `perform_create` builds, but the framework
  discards `perform_create`'s return value. What the client then receives is not part of this
  model.
- Decimal prices and amounts are integers, copied and never computed with.
- alx_travel_app/listings/tasks.py (the Celery workers that send the e-mails) is not part of this
  model. A `.delay(...)` call is an entry appended to the queue.
- Enqueueing is assumed to succeed. In the source, `.delay()` at views.py:95, 303 and 312 raises
  when the Celery broker is unreachable, and no view catches that.
  - Each of these calls runs after the records are saved (views.py:92, then 296 and 300, then 309).
    So the client gets a 500 and no task is queued.
  - The saved changes stay when requests are not wrapped in a transaction (`ATOMIC_REQUESTS` off,
    Django's default; the settings are not part of this model). These are the stored booking, or
    the payment marked COMPLETED with its booking CONFIRMED, or the payment marked FAILED.
  - The model has no such outcome. Every "exactly one confirmation/failure appended" in the
    contracts of `Bookings.CreateBooking`, `Payments.Complete`, `Payments.Fail` and `Payments.Verify`
    assumes a reachable broker.
- alx_travel_app/listings/management/commands/seed.py (random seeding) and the schema in
  alx_travel_app/listings/models.py are not part of this model.
- Concurrency: the views take no locks, so requests are served one at a time here.
- Listing creation (`ListingViewSet.perform_create`, views.py:31-33, which inserts a listing hosted
  by the requester) is not modelled: no modelled request creates listings, so `Trace` starts from
  whatever listings the initial state holds.
- The `get_queryset` filters (views.py:44-53 and 115-123) are not modelled. They also narrow the
  lookup that update and destroy make (views.py:57, 67, 169, 179): a host's
  `PUT /listings/<id>/?host=<another username>` answers 404 in the source, where
  `Listings.UpdateListing` answers as if no query parameter were given. The 404 rows of the listing
  and review update and destroy actions hold only without those parameters.
- Code that only reads or decides permissions is not modelled: `get_permissions`,
  `BookingViewSet.get_queryset`, `ReviewViewSet.perform_create` (not called by the overridden
  `create`) and `my_reviews`.
- The framework's default actions of `BookingViewSet` (a `ModelViewSet`, views.py:78) are not
  modelled: list, retrieve, update, partial update and destroy. The default update writes the
  serializer's fields, so a booking's owner can change its status (to CANCELED, say) and its total
  price without any verification; `Trace.StepConfirmsBookingsOnlyByVerification` speaks only of the
  modelled requests. The default destroy deletes the booking and, by cascade, its payment.
- The review's link to a booking is not modelled. `Review.booking` cascades on delete in
  `models.py`, and views.py:161-163 never checks that a review's booking is of its listing. So in
  the source, deleting a listing also deletes every review attached to one of its bookings, even
  when that review's `listing` is another listing. `Listings.DestroyListing` keeps such reviews.
  It removes exactly the reviews whose listing is the deleted one.
