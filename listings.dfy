/**
 ListingViewSet: the owner checks of `update` and `destroy`. A listing may
 be edited or deleted only by its host; deleting it deletes, as the
 database's cascades do, its bookings, their payments and its reviews.
 */
module Listings {
  import opened Store

  /** `update`: the host replaces the editable details; anyone else gets 403. */
  ghost function UpdateListing(s: State, user: UserId, l: ListingId, details: ListingDetails): (r: Outcome<EditResponse>)
    requires Valid(s)
    ensures Valid(r.state)
    ensures r.response == NotFound <==> l !in s.listings
    ensures r.response == Forbidden <==> l in s.listings && s.listings[l].host != user
    ensures r.response != Updated ==> r.state == s
    ensures r.response == Updated ==>
      && l in s.listings
      && r.state.listings.Keys == s.listings.Keys
      && r.state.listings[l] == Listing(s.listings[l].host, details)
      && (forall k :: k in s.listings && k != l ==> r.state.listings[k] == s.listings[k])
      && r.state.(listings := s.listings) == s
  {
    if l !in s.listings then
      Outcome(s, NotFound)
    else if s.listings[l].host != user then
      Outcome(s, Forbidden)
    else
      Outcome(s.(listings := s.listings[l := Listing(s.listings[l].host, details)]), Updated)
  }

  /** `destroy`: the host deletes the listing and everything hanging off it;
      anyone else gets 403. */
  ghost function DestroyListing(s: State, user: UserId, l: ListingId): (r: Outcome<EditResponse>)
    requires Valid(s)
    ensures Valid(r.state)
    ensures r.response == NotFound <==> l !in s.listings
    ensures r.response == Forbidden <==> l in s.listings && s.listings[l].host != user
    ensures r.response != Deleted ==> r.state == s
    ensures r.response == Deleted ==>
      && r.state.listings.Keys == s.listings.Keys - {l}
      && Keeps(r.state.listings, s.listings)
      && (forall b :: b in r.state.bookings <==> b in s.bookings && s.bookings[b].listing != l)
      && Keeps(r.state.bookings, s.bookings)
      && (forall p :: p in r.state.payments <==> p in s.payments && s.bookings[s.payments[p].booking].listing != l)
      && Keeps(r.state.payments, s.payments)
      && (forall q :: q in r.state.reviews <==> q in s.reviews && s.reviews[q].listing != l)
      && Keeps(r.state.reviews, s.reviews)
      && r.state.outbox == s.outbox
  {
    if l !in s.listings then
      Outcome(s, NotFound)
    else if s.listings[l].host != user then
      Outcome(s, Forbidden)
    else
      var bookings := map b | b in s.bookings && s.bookings[b].listing != l :: s.bookings[b];
      var payments := map p | p in s.payments && s.payments[p].booking in bookings :: s.payments[p];
      var reviews := map q | q in s.reviews && s.reviews[q].listing != l :: s.reviews[q];
      Outcome(State(s.listings - {l}, bookings, payments, reviews, s.outbox), Deleted)
  }
}
