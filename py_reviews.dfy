/**
 * The review routes of the Python back end (backend/routes/reviews.py). Each write is
 * followed by `update_vendor_rating` for the review's vendor. Paging (`skip`/`limit`) and
 * the `created_at` order of the listing are not modelled.
 */
module PyReviews {
  import opened Records
  import opened Tables
  import opened Store
  import opened PyUtils
  import PyBookings
  import ManageReviews

  /** Every stored review has a rating of one to five stars, as `Review` validates. */
  predicate RatingsValid(reviews: seq<Row<Review>>)
  {
    forall i :: 0 <= i < |reviews| ==> 1 <= reviews[i].val.rating <= 5
  }

  lemma PutKeepsReviewInvariants(reviews: seq<Row<Review>>, id: Id, r: Review)
    requires Has(reviews, id) && Get(reviews, id).value.bookingId == r.bookingId
    ensures OneReviewPerBooking(reviews) ==> OneReviewPerBooking(Put(reviews, id, r))
    ensures RatingsValid(reviews) && 1 <= r.rating <= 5 ==> RatingsValid(Put(reviews, id, r))
  {
    var p := Put(reviews, id, r);
    PutSameBookings(reviews, id, r);
    if OneReviewPerBooking(reviews) {
      forall i, j | 0 <= i < j < |p| ensures p[i].val.bookingId != p[j].val.bookingId {
        assert reviews[i].val.bookingId != reviews[j].val.bookingId;
      }
    }
  }

  /** Replacing a review by one for the same booking leaves every booking id in place. */
  lemma PutSameBookings(reviews: seq<Row<Review>>, id: Id, r: Review)
    requires Has(reviews, id) && Get(reviews, id).value.bookingId == r.bookingId
    ensures forall i :: 0 <= i < |reviews| ==> Put(reviews, id, r)[i].val.bookingId == reviews[i].val.bookingId
  {
    var k := IndexOf(reviews, id).value;
    assert reviews[k].val == Get(reviews, id).value;
    assert Put(reviews, id, r) == reviews[k := Row(id, r)];
  }

  lemma AppendKeepsReviewInvariants(reviews: seq<Row<Review>>, row: Row<Review>)
    ensures ReviewsFor(reviews + [row], row.val.bookingId) == ReviewsFor(reviews, row.val.bookingId) + 1
    ensures OneReviewPerBooking(reviews) && ReviewsFor(reviews, row.val.bookingId) == 0 ==>
              OneReviewPerBooking(reviews + [row])
    ensures RatingsValid(reviews) && 1 <= row.val.rating <= 5 ==> RatingsValid(reviews + [row])
  {
    assert (reviews + [row])[..|reviews|] == reviews;
    if OneReviewPerBooking(reviews) && ReviewsFor(reviews, row.val.bookingId) == 0 {
      AppendKeepsOneReviewPerBooking(reviews, row);
    }
  }

  lemma RemoveKeepsRatingsValid(reviews: seq<Row<Review>>, id: Id)
    requires RatingsValid(reviews)
    ensures RatingsValid(Remove(reviews, id))
  {
    var r := Remove(reviews, id);
    forall i | 0 <= i < |r| ensures r[i] in reviews {
    }
  }

  lemma RemoveKeepsReviewInvariants(reviews: seq<Row<Review>>, id: Id)
    ensures OneReviewPerBooking(reviews) ==> OneReviewPerBooking(Remove(reviews, id))
    ensures RatingsValid(reviews) ==> RatingsValid(Remove(reviews, id))
  {
    if OneReviewPerBooking(reviews) {
      RemoveKeepsOneReviewPerBooking(reviews, id);
    }
    if RatingsValid(reviews) {
      RemoveKeepsRatingsValid(reviews, id);
    }
  }

  /** Stores the new review collection, then `update_vendor_rating` for the vendor. */
  method StoreAndRate(db: Db, reviews: seq<Row<Review>>, vendorId: Id)
    modifies db`reviews, db`ratings
    ensures db.reviews == reviews
    ensures db.ratings == Upsert(old(db.ratings), vendorId, RatingOf(reviews, vendorId))
  {
    db.reviews := reviews;
    UpdateVendorRating(db, vendorId);
  }

  // ------------------------------------------------------------------
  // create_review (reviews.py:15-65)
  // ------------------------------------------------------------------

  /** reviews.py:24-58. `ReviewCreate` does not bound the rating; the `Review` built from it
      does, and its ValueError surfaces as a 500 after every other check has passed. */
  function CreateGuard(caller: Id, bookingId: Id, rating: int, title: Option<string>, content: Option<string>,
                       bookings: seq<Row<Booking>>, reviews: seq<Row<Review>>): (g: Outcome<Review>)
    ensures !Has(bookings, bookingId) ==> g == Err(404, BookingNotFound)
    ensures g.Ok? <==>
      && Has(bookings, bookingId)
      && Get(bookings, bookingId).value.status == Completed
      && Get(bookings, bookingId).value.customerId == Some(caller)
      && ReviewsFor(reviews, bookingId) == 0
      && 1 <= rating <= 5
    ensures Has(bookings, bookingId) && Get(bookings, bookingId).value.status != Completed ==> g == Err(400, NotCompleted)
    ensures g == Err(403, NotBookingCustomer) <==>
              Get(bookings, bookingId).Some? && Get(bookings, bookingId).value.status == Completed
              && Get(bookings, bookingId).value.customerId != Some(caller)
    ensures g == Err(400, DuplicateReview) <==>
              Get(bookings, bookingId).Some? && Get(bookings, bookingId).value.status == Completed
              && Get(bookings, bookingId).value.customerId == Some(caller) && ReviewsFor(reviews, bookingId) > 0
    ensures g == Err(500, InvalidRating) <==>
              Get(bookings, bookingId).Some? && Get(bookings, bookingId).value.status == Completed
              && Get(bookings, bookingId).value.customerId == Some(caller) && ReviewsFor(reviews, bookingId) == 0
              && !(1 <= rating <= 5)
    ensures g.Ok? ==> g.value == Review(bookingId, Get(bookings, bookingId).value.vendorId, caller, rating, title, content)
  {
    match Get(bookings, bookingId) {
      case None => Err(404, BookingNotFound)
      case Some(b) =>
        if b.status != Completed then Err(400, NotCompleted)
        else if b.customerId != Some(caller) then Err(403, NotBookingCustomer)
        else if ReviewsFor(reviews, bookingId) > 0 then Err(400, DuplicateReview)
        else MakeReview(bookingId, b.vendorId, caller, rating, title, content)
    }
  }

  /** The two back ends check in different orders: a customer asking to review someone
      else's booking that is not yet completed is told 400 here and 403 by the edge function. */
  lemma CheckOrderDiffers(caller: Id, other: Id, bookingId: Id, b: Booking, rating: int)
    requires bookingId != "" && other != caller && b.customerId == Some(other) && b.status == Confirmed
    requires 1 <= rating <= 5
    ensures CreateGuard(caller, bookingId, rating, None, None, [Row(bookingId, b)], []) == Err(400, NotCompleted)
    ensures ManageReviews.CreateGuard(caller, bookingId, rating as real, [Row(bookingId, b)], []) == Err(403, NotBookingCustomer)
  {
    assert (rating as real).Floor == rating;
  }

  method CreateReview(db: Db, caller: Id, bookingId: Id, rating: int, title: Option<string>, content: Option<string>,
                      newId: Id) returns (resp: Outcome<Review>)
    modifies db`reviews, db`ratings
    ensures var g := CreateGuard(caller, bookingId, rating, title, content, db.bookings, old(db.reviews));
      && (g.Err? ==> resp == Err(g.status, g.reason) && db.reviews == old(db.reviews) && db.ratings == old(db.ratings))
      && (g.Ok? ==>
            && resp == Ok(g.value)
            && db.reviews == old(db.reviews) + [Row(newId, g.value)]
            && ReviewsFor(db.reviews, bookingId) == ReviewsFor(old(db.reviews), bookingId) + 1
            && db.ratings == Upsert(old(db.ratings), g.value.vendorId, RatingOf(db.reviews, g.value.vendorId)))
    ensures OneReviewPerBooking(old(db.reviews)) ==> OneReviewPerBooking(db.reviews)
    ensures RatingsValid(old(db.reviews)) ==> RatingsValid(db.reviews)
  {
    var g := CreateGuard(caller, bookingId, rating, title, content, db.bookings, db.reviews);
    if g.Err? {
      return Err(g.status, g.reason);
    }
    var row := Row(newId, g.value);
    AppendKeepsReviewInvariants(db.reviews, row);
    StoreAndRate(db, db.reviews + [row], g.value.vendorId);
    resp := Ok(g.value);
  }

  /** Once a booking has its review, every later attempt is refused. */
  lemma NoSecondReview(caller: Id, bookingId: Id, rating: int, title: Option<string>, content: Option<string>,
                       bookings: seq<Row<Booking>>, reviews: seq<Row<Review>>, row: Row<Review>)
    requires row.val.bookingId == bookingId
    ensures CreateGuard(caller, bookingId, rating, title, content, bookings, reviews + [row]).Err?
  {
    assert ReviewsFor(reviews + [row], bookingId) > 0 by {
      assert (reviews + [row])[..|reviews|] == reviews;
    }
  }

  // ------------------------------------------------------------------
  // get_vendor_reviews, get_vendor_rating_summary (reviews.py:71-109)
  // ------------------------------------------------------------------

  /** The listing is public but needs an approved vendor. */
  function VendorReviewsListed(vendors: seq<Row<Vendor>>, reviews: seq<Row<Review>>, vendorId: Id): (r: Outcome<seq<Row<Review>>>)
    ensures r.Ok? <==> Has(vendors, vendorId) && Get(vendors, vendorId).value.isApproved
    ensures r.Err? ==> r == Err(404, VendorNotApproved)
    ensures r.Ok? ==>
      && (forall i :: 0 <= i < |r.value| ==> r.value[i] in reviews && r.value[i].val.vendorId == vendorId)
      && (forall i :: 0 <= i < |reviews| && reviews[i].val.vendorId == vendorId ==> reviews[i] in r.value)
  {
    match Get(vendors, vendorId) {
      case None => Err(404, VendorNotApproved)
      case Some(v) => if v.isApproved then Ok(ManageReviews.ReviewsOfVendor(reviews, vendorId)) else Err(404, VendorNotApproved)
    }
  }

  /** With unique ids, the listing is answered exactly when the compound lookup of
      reviews.py:81-84 finds a row. */
  lemma VendorReviewsFilter(vendors: seq<Row<Vendor>>, reviews: seq<Row<Review>>, vendorId: Id)
    requires UniqueIds(vendors)
    ensures VendorReviewsListed(vendors, reviews, vendorId).Ok? <==> FindWhere(vendors, vendorId, ApprovedVendor).Some?
  {
    FindWhereUnique(vendors, vendorId, ApprovedVendor);
  }

  // ------------------------------------------------------------------
  // update_review (reviews.py:115-153)
  // ------------------------------------------------------------------

  /** The review after the `$set` of reviews.py:136-147: only supplied fields change. */
  function Revised(r: Review, rating: Option<int>, title: Option<string>, content: Option<string>): (s: Review)
    ensures s.rating == (if rating.Some? then rating.value else r.rating)
    ensures s.title == (if title.Some? then title else r.title)
    ensures s.content == (if content.Some? then content else r.content)
    ensures s.bookingId == r.bookingId && s.vendorId == r.vendorId && s.customerId == r.customerId
  {
    r.(rating := if rating.Some? then rating.value else r.rating,
       title := if title.Some? then title else r.title,
       content := if content.Some? then content else r.content)
  }

  /** The query parameter bound `ge=1, le=5` comes first (a 422), then the review, then its author. */
  function UpdateGuard(caller: Id, reviewId: Id, rating: Option<int>, reviews: seq<Row<Review>>): (g: Outcome<Review>)
    ensures g.Ok? <==>
      (rating.Some? ==> 1 <= rating.value <= 5) && Has(reviews, reviewId) && Get(reviews, reviewId).value.customerId == caller
    ensures g.Ok? ==> Get(reviews, reviewId) == Some(g.value)
    ensures rating.Some? && !(1 <= rating.value <= 5) ==> g == Err(422, InvalidRating)
    ensures (rating.Some? ==> 1 <= rating.value <= 5) && !Has(reviews, reviewId) ==> g == Err(404, ReviewNotFound)
    ensures g == Err(403, Forbidden) <==>
              (rating.Some? ==> 1 <= rating.value <= 5) && Get(reviews, reviewId).Some?
              && Get(reviews, reviewId).value.customerId != caller
    ensures g.Err? ==> g.status in {403, 404, 422}
  {
    if rating.Some? && !(1 <= rating.value <= 5) then Err(422, InvalidRating)
    else match Get(reviews, reviewId) {
      case None => Err(404, ReviewNotFound)
      case Some(r) => if r.customerId != caller then Err(403, Forbidden) else Ok(r)
    }
  }

  method UpdateReview(db: Db, caller: Id, reviewId: Id, rating: Option<int>, title: Option<string>,
                      content: Option<string>) returns (resp: Outcome<Review>)
    modifies db`reviews, db`ratings
    ensures var g := UpdateGuard(caller, reviewId, rating, old(db.reviews));
      && (g.Err? ==> resp == Err(g.status, g.reason) && db.reviews == old(db.reviews) && db.ratings == old(db.ratings))
      && (g.Ok? ==>
            && resp == Ok(Revised(g.value, rating, title, content))
            && db.reviews == Put(old(db.reviews), reviewId, resp.value)
            && db.ratings == Upsert(old(db.ratings), g.value.vendorId, RatingOf(db.reviews, g.value.vendorId)))
    ensures OneReviewPerBooking(old(db.reviews)) ==> OneReviewPerBooking(db.reviews)
    ensures RatingsValid(old(db.reviews)) ==> RatingsValid(db.reviews)
  {
    var g := UpdateGuard(caller, reviewId, rating, db.reviews);
    if g.Err? {
      return Err(g.status, g.reason);
    }
    var revised := Revised(g.value, rating, title, content);
    PutKeepsReviewInvariants(db.reviews, reviewId, revised);
    StoreAndRate(db, Put(db.reviews, reviewId, revised), g.value.vendorId);
    var reread := Get(db.reviews, reviewId);
    assert reread == Some(revised);
    resp := Ok(reread.value);
  }

  // ------------------------------------------------------------------
  // delete_review (reviews.py:155-181)
  // ------------------------------------------------------------------

  function DeleteGuard(caller: Id, reviewId: Id, reviews: seq<Row<Review>>, users: seq<Row<User>>): (g: Outcome<Review>)
    ensures g.Ok? <==>
      && Has(reviews, reviewId)
      && (Get(reviews, reviewId).value.customerId == caller || PyBookings.UserRole(users, caller) == Some(AdminRole))
    ensures g.Ok? ==> Get(reviews, reviewId) == Some(g.value)
    ensures !Has(reviews, reviewId) ==> g == Err(404, ReviewNotFound)
    ensures Has(reviews, reviewId) && g.Err? ==> g == Err(403, Forbidden)
  {
    match Get(reviews, reviewId) {
      case None => Err(404, ReviewNotFound)
      case Some(r) =>
        if r.customerId != caller && PyBookings.UserRole(users, caller) != Some(AdminRole) then Err(403, Forbidden)
        else Ok(r)
    }
  }

  method DeleteReview(db: Db, caller: Id, reviewId: Id) returns (resp: Outcome<()>)
    modifies db`reviews, db`ratings
    ensures var g := DeleteGuard(caller, reviewId, old(db.reviews), db.users);
      && (g.Err? ==> resp == Err(g.status, g.reason) && db.reviews == old(db.reviews) && db.ratings == old(db.ratings))
      && (g.Ok? ==>
            && resp == Ok(())
            && db.reviews == Remove(old(db.reviews), reviewId)
            && |db.reviews| == |old(db.reviews)| - 1
            && db.ratings == Upsert(old(db.ratings), g.value.vendorId, RatingOf(db.reviews, g.value.vendorId)))
    ensures OneReviewPerBooking(old(db.reviews)) ==> OneReviewPerBooking(db.reviews)
    ensures RatingsValid(old(db.reviews)) ==> RatingsValid(db.reviews)
  {
    var g := DeleteGuard(caller, reviewId, db.reviews, db.users);
    if g.Err? {
      return Err(g.status, g.reason);
    }
    RemoveKeepsReviewInvariants(db.reviews, reviewId);
    StoreAndRate(db, Remove(db.reviews, reviewId), g.value.vendorId);
    resp := Ok(());
  }

  /** While every stored rating is valid, the summary a write leaves behind is either the
      empty one or an average of one to five stars (in hundredths). */
  lemma RecomputedSummaryInRange(reviews: seq<Row<Review>>, vendorId: Id)
    requires RatingsValid(reviews)
    ensures RatingOf(reviews, vendorId).totalReviews == 0 ==> RatingOf(reviews, vendorId) == RatingSummary(0, 0)
    ensures RatingOf(reviews, vendorId).totalReviews > 0 ==> 100 <= RatingOf(reviews, vendorId).averageCenti <= 500
  {
    RatingInRange(reviews, vendorId);
  }
}
