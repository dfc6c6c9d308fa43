/**
 ReviewViewSet: the guarded `create` (listing id given, listing exists, one
 review per user and listing) and the owner checks of `update` and `destroy`.
 */
module Reviews {
  import opened Store

  datatype CreateReviewResponse =
    | ListingIdRequired
    | ListingNotFound
    | AlreadyReviewed
    | InvalidReview
    | ReviewCreated(reviewId: ReviewId)
  {
    function Code(): int
    {
      match this
      case ListingIdRequired => 400
      case ListingNotFound => 404
      case AlreadyReviewed => 400
      case InvalidReview => 400
      case ReviewCreated(_) => 201
    }
  }

  /** `Review.objects.filter(user=user, listing=l).exists()`. */
  ghost predicate HasReviewed(s: State, user: UserId, l: ListingId)
  {
    exists q :: q in s.reviews && s.reviews[q].user == user && s.reviews[q].listing == l
  }

  /** `create`: `reviewId` is the fresh primary key, `rating` and `comment`
      the request's data and `dataValid` the serializer's verdict on it. */
  ghost function CreateReview(s: State, user: UserId, listingId: Option<ListingId>, reviewId: ReviewId,
                              rating: int, comment: string, dataValid: bool): (r: Outcome<CreateReviewResponse>)
    requires Valid(s) && reviewId !in s.reviews
    ensures Valid(r.state)
    ensures r.response == ListingIdRequired <==> !Given(listingId)
    ensures r.response == ListingNotFound <==> Given(listingId) && listingId.value !in s.listings
    ensures r.response == AlreadyReviewed <==>
      Given(listingId) && listingId.value in s.listings && HasReviewed(s, user, listingId.value)
    ensures r.response == InvalidReview <==>
      Given(listingId) && listingId.value in s.listings && !HasReviewed(s, user, listingId.value) && !dataValid
    ensures !r.response.ReviewCreated? ==> r.state == s
    ensures r.response.ReviewCreated? ==>
      && listingId.Some?
      && r.response.reviewId == reviewId
      && r.state.reviews.Keys == s.reviews.Keys + {reviewId}
      && r.state.reviews[reviewId] == Review(user, listingId.value, rating, comment)
      && Keeps(s.reviews, r.state.reviews)
      && r.state.(reviews := s.reviews) == s
  {
    if !Given(listingId) then
      Outcome(s, ListingIdRequired)
    else if listingId.value !in s.listings then
      Outcome(s, ListingNotFound)
    else if HasReviewed(s, user, listingId.value) then
      Outcome(s, AlreadyReviewed)
    else if !dataValid then
      Outcome(s, InvalidReview)
    else
      Outcome(s.(reviews := s.reviews[reviewId := Review(user, listingId.value, rating, comment)]), ReviewCreated(reviewId))
  }

  /** `update`: the author replaces rating and comment; anyone else gets 403. */
  ghost function UpdateReview(s: State, user: UserId, q: ReviewId, rating: int, comment: string): (r: Outcome<EditResponse>)
    requires Valid(s)
    ensures Valid(r.state)
    ensures r.response == NotFound <==> q !in s.reviews
    ensures r.response == Forbidden <==> q in s.reviews && s.reviews[q].user != user
    ensures r.response != Updated ==> r.state == s
    ensures r.response == Updated ==>
      && q in s.reviews
      && r.state.reviews.Keys == s.reviews.Keys
      && r.state.reviews[q] == s.reviews[q].(rating := rating, comment := comment)
      && (forall k :: k in s.reviews && k != q ==> r.state.reviews[k] == s.reviews[k])
      && r.state.(reviews := s.reviews) == s
  {
    if q !in s.reviews then
      Outcome(s, NotFound)
    else if s.reviews[q].user != user then
      Outcome(s, Forbidden)
    else
      Outcome(s.(reviews := s.reviews[q := s.reviews[q].(rating := rating, comment := comment)]), Updated)
  }

  /** `destroy`: the author deletes the review; anyone else gets 403. */
  ghost function DestroyReview(s: State, user: UserId, q: ReviewId): (r: Outcome<EditResponse>)
    requires Valid(s)
    ensures Valid(r.state)
    ensures r.response == NotFound <==> q !in s.reviews
    ensures r.response == Forbidden <==> q in s.reviews && s.reviews[q].user != user
    ensures r.response != Deleted ==> r.state == s
    ensures r.response == Deleted ==>
      && r.state.reviews.Keys == s.reviews.Keys - {q}
      && Keeps(r.state.reviews, s.reviews)
      && r.state.(reviews := s.reviews) == s
  {
    if q !in s.reviews then
      Outcome(s, NotFound)
    else if s.reviews[q].user != user then
      Outcome(s, Forbidden)
    else
      Outcome(s.(reviews := s.reviews - {q}), Deleted)
  }

  /** After a user's review of a listing is created, every further attempt
      by that user on that listing is refused with 400 and changes nothing. */
  lemma SecondReviewRejected(s: State, user: UserId, l: ListingId, reviewId: ReviewId, rating: int, comment: string,
                             reviewId2: ReviewId, rating2: int, comment2: string, dataValid2: bool)
    requires Valid(s) && reviewId !in s.reviews
    requires CreateReview(s, user, Some(l), reviewId, rating, comment, true).response.ReviewCreated?
    requires reviewId2 !in CreateReview(s, user, Some(l), reviewId, rating, comment, true).state.reviews
    ensures var s1 := CreateReview(s, user, Some(l), reviewId, rating, comment, true).state;
            CreateReview(s1, user, Some(l), reviewId2, rating2, comment2, dataValid2) == Outcome(s1, AlreadyReviewed)
  {
    var s1 := CreateReview(s, user, Some(l), reviewId, rating, comment, true).state;
    assert s1.reviews[reviewId].user == user && s1.reviews[reviewId].listing == l;
    assert HasReviewed(s1, user, l);
  }
}
