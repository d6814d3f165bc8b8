/**
 * The manage-reviews edge function (supabase/functions/manage-reviews/index.ts): creating a
 * review of a completed booking, listing a vendor's reviews with its rating summary, and
 * deleting a review.
 *
 * The function reads the booking's `booking_status`, while create-booking writes `status`;
 * the model's single status field stands for both.
 */
module ManageReviews {
  import opened Records
  import opened Tables
  import opened Aggregates
  import opened Store

  /** The request body. Empty strings are missing (falsy) values; `rating` is the JSON
      number as sent, 0 when missing. */
  datatype Request = Request(action: string, bookingId: Id, rating: real, title: string,
                             content: string, vendorId: Id, reviewId: Id)

  datatype Result =
    | ReviewCreated(review: Row<Review>, vendorRating: Option<RatingSummary>)
    | VendorReviews(reviews: seq<Row<Review>>, summary: RatingSummary)
    | ReviewDeleted

  predicate IsWholeStarRating(rating: real)
  {
    1.0 <= rating <= 5.0 && rating == rating.Floor as real
  }

  // ------------------------------------------------------------------
  // create_review (index.ts:54-191)
  // ------------------------------------------------------------------

  /** index.ts:55-135; the first failing check decides. A booking is reviewable by its own
      customer once completed, and only while it has no review — `.single()` finds an
      existing review only when there is exactly one. */
  function CreateGuard(caller: Id, bookingId: Id, rating: real,
                       bookings: seq<Row<Booking>>, reviews: seq<Row<Review>>): (g: Outcome<Booking>)
    ensures bookingId == "" || rating == 0.0 ==> g == Err(400, MissingFields)
    ensures bookingId != "" && rating != 0.0 && !IsWholeStarRating(rating) ==> g == Err(400, InvalidRating)
    ensures g == Err(404, BookingNotFound) <==> bookingId != "" && IsWholeStarRating(rating) && !Has(bookings, bookingId)
    ensures g == Err(403, NotBookingCustomer) <==>
              bookingId != "" && IsWholeStarRating(rating)
              && Get(bookings, bookingId).Some? && Get(bookings, bookingId).value.customerId != Some(caller)
    ensures g == Err(400, NotCompleted) <==>
              bookingId != "" && IsWholeStarRating(rating) && Get(bookings, bookingId).Some?
              && Get(bookings, bookingId).value.customerId == Some(caller)
              && Get(bookings, bookingId).value.status != Completed
    ensures g == Err(400, DuplicateReview) <==>
              bookingId != "" && IsWholeStarRating(rating) && Get(bookings, bookingId).Some?
              && Get(bookings, bookingId).value.customerId == Some(caller)
              && Get(bookings, bookingId).value.status == Completed && ReviewsFor(reviews, bookingId) == 1
    ensures g.Ok? <==>
      bookingId != "" && IsWholeStarRating(rating) && Get(bookings, bookingId).Some?
      && Get(bookings, bookingId).value.customerId == Some(caller)
      && Get(bookings, bookingId).value.status == Completed
      && ReviewsFor(reviews, bookingId) != 1
    ensures g.Ok? ==> Get(bookings, bookingId) == Some(g.value)
    ensures Get(bookings, bookingId).Some? && Get(bookings, bookingId).value.customerId.None? ==> g.Err?
  {
    if bookingId == "" || rating == 0.0 then Err(400, MissingFields)
    else if rating < 1.0 || rating > 5.0 || rating != rating.Floor as real then Err(400, InvalidRating)
    else match Get(bookings, bookingId) {
      case None => Err(404, BookingNotFound)
      case Some(b) =>
        if b.customerId != Some(caller) then Err(403, NotBookingCustomer)
        else if b.status != Completed then Err(400, NotCompleted)
        else if ReviewsFor(reviews, bookingId) == 1 then Err(400, DuplicateReview)
        else Ok(b)
    }
  }

  /** The inserted row (index.ts:140-147): the vendor from the booking, the customer from
      the caller, the default title and content. It is a review the `Review` validator accepts. */
  function NewReview(bookingId: Id, b: Booking, caller: Id, rating: real, title: string, content: string): (r: Review)
    requires IsWholeStarRating(rating)
    ensures MakeReview(bookingId, b.vendorId, caller, rating.Floor, r.title, r.content) == Ok(r)
    ensures r.rating as real == rating
    ensures r.title == Some(if title == "" then "Experience Review" else title)
    ensures r.content == Some(content)
  {
    Review(bookingId, b.vendorId, caller, rating.Floor,
           Some(if title == "" then "Experience Review" else title), Some(content))
  }

  /** index.ts:163-178: a notice to the vendor's user when the vendor row exists. */
  function ReviewNotice(vendors: seq<Row<Vendor>>, vendorId: Id, bookingId: Id): (ns: seq<Notification>)
    ensures |ns| == (if Has(vendors, vendorId) then 1 else 0)
    ensures |ns| == 1 ==>
              ns[0].userId == Some(Get(vendors, vendorId).value.userId)
              && ns[0].kind == SystemAlert && ns[0].relatedBooking == Some(bookingId)
  {
    match Get(vendors, vendorId) {
      case None => []
      case Some(v) => [Notification(Some(v.userId), SystemAlert, "New Review", Some(bookingId), Some(vendorId))]
    }
  }

  method CreateReview(db: Db, caller: Id, req: Request, newId: Id) returns (resp: Outcome<Result>)
    modifies db`reviews, db`notifications
    ensures var g := CreateGuard(caller, req.bookingId, req.rating, db.bookings, old(db.reviews));
      && (g.Err? ==> resp == Err(g.status, g.reason)
                     && db.reviews == old(db.reviews) && db.notifications == old(db.notifications))
      && (g.Ok? ==>
            var row := Row(newId, NewReview(req.bookingId, g.value, caller, req.rating, req.title, req.content));
            && db.reviews == old(db.reviews) + [row]
            && db.notifications == old(db.notifications) + ReviewNotice(db.vendors, g.value.vendorId, req.bookingId)
            && resp == Ok(ReviewCreated(row, Get(db.ratings, g.value.vendorId))))
    ensures OneReviewPerBooking(old(db.reviews)) ==> OneReviewPerBooking(db.reviews)
  {
    if req.bookingId == "" || req.rating == 0.0 {
      return Err(400, MissingFields);
    }
    if req.rating < 1.0 || req.rating > 5.0 || req.rating != req.rating.Floor as real {
      return Err(400, InvalidRating);
    }
    var booking := Get(db.bookings, req.bookingId);
    if booking.None? {
      return Err(404, BookingNotFound);
    }
    var b := booking.value;
    if b.customerId != Some(caller) {
      return Err(403, NotBookingCustomer);
    }
    if b.status != Completed {
      return Err(400, NotCompleted);
    }
    if ReviewsFor(db.reviews, req.bookingId) == 1 {
      return Err(400, DuplicateReview);
    }
    var row := Row(newId, NewReview(req.bookingId, b, caller, req.rating, req.title, req.content));
    if OneReviewPerBooking(db.reviews) {
      OneReviewCountsAtMostOne(db.reviews, req.bookingId);
      AppendKeepsOneReviewPerBooking(db.reviews, row);
    }
    db.reviews := db.reviews + [row];
    db.notifications := db.notifications + ReviewNotice(db.vendors, b.vendorId, req.bookingId);
    resp := Ok(ReviewCreated(row, Get(db.ratings, b.vendorId)));
  }

  /** Once a booking has been reviewed, the next attempt to review it is refused. */
  lemma SecondReviewRefused(caller: Id, bookingId: Id, rating: real, bookings: seq<Row<Booking>>,
                            reviews: seq<Row<Review>>, row: Row<Review>, rating2: real)
    requires OneReviewPerBooking(reviews)
    requires CreateGuard(caller, bookingId, rating, bookings, reviews).Ok?
    requires row.val.bookingId == bookingId
    requires IsWholeStarRating(rating2)
    ensures CreateGuard(caller, bookingId, rating2, bookings, reviews + [row]) == Err(400, DuplicateReview)
  {
    OneReviewCountsAtMostOne(reviews, bookingId);
    AppendKeepsOneReviewPerBooking(reviews, row);
  }

  // ------------------------------------------------------------------
  // get_vendor_reviews (index.ts:194-256)
  // ------------------------------------------------------------------

  /** The summary row, or zeros when there is none (index.ts:221-243). */
  function SummaryOrZero(ratings: seq<Row<RatingSummary>>, vendorId: Id): (s: RatingSummary)
    ensures !Has(ratings, vendorId) ==> s == RatingSummary(0, 0)
    ensures Has(ratings, vendorId) ==> Get(ratings, vendorId) == Some(s)
  {
    match Get(ratings, vendorId) {
      case None => RatingSummary(0, 0)
      case Some(s) => s
    }
  }

  function ReviewsOfVendor(reviews: seq<Row<Review>>, vendorId: Id): (r: seq<Row<Review>>)
    ensures forall i :: 0 <= i < |r| ==> r[i] in reviews && r[i].val.vendorId == vendorId
    ensures forall i :: 0 <= i < |reviews| && reviews[i].val.vendorId == vendorId ==> reviews[i] in r
  {
    Filter(reviews, (x: Row<Review>) => x.val.vendorId == vendorId)
  }

  // ------------------------------------------------------------------
  // delete_review (index.ts:259-323)
  // ------------------------------------------------------------------

  /** `isAdmin` is the answer of the `is_admin` RPC. */
  function DeleteGuard(caller: Id, isAdmin: bool, reviewId: Id, reviews: seq<Row<Review>>): (g: Outcome<Review>)
    ensures reviewId == "" ==> g == Err(400, MissingFields)
    ensures reviewId != "" && !Has(reviews, reviewId) ==> g == Err(404, ReviewNotFound)
    ensures g.Ok? <==> reviewId != "" && Get(reviews, reviewId).Some?
                       && (Get(reviews, reviewId).value.customerId == caller || isAdmin)
    ensures g.Err? && Has(reviews, reviewId) && reviewId != "" ==> g == Err(403, Forbidden)
  {
    if reviewId == "" then Err(400, MissingFields)
    else match Get(reviews, reviewId) {
      case None => Err(404, ReviewNotFound)
      case Some(r) => if r.customerId != caller && !isAdmin then Err(403, Forbidden) else Ok(r)
    }
  }

  method DeleteReview(db: Db, caller: Id, isAdmin: bool, reviewId: Id) returns (resp: Outcome<Result>)
    modifies db`reviews
    ensures var g := DeleteGuard(caller, isAdmin, reviewId, old(db.reviews));
      && (g.Err? ==> resp == Err(g.status, g.reason) && db.reviews == old(db.reviews))
      && (g.Ok? ==> resp == Ok(ReviewDeleted) && db.reviews == Remove(old(db.reviews), reviewId)
                    && |db.reviews| == |old(db.reviews)| - 1)
    ensures OneReviewPerBooking(old(db.reviews)) ==> OneReviewPerBooking(db.reviews)
  {
    if reviewId == "" {
      return Err(400, MissingFields);
    }
    var review := Get(db.reviews, reviewId);
    if review.None? {
      return Err(404, ReviewNotFound);
    }
    if review.value.customerId != caller && !isAdmin {
      return Err(403, Forbidden);
    }
    if OneReviewPerBooking(db.reviews) {
      RemoveKeepsOneReviewPerBooking(db.reviews, reviewId);
    }
    db.reviews := Remove(db.reviews, reviewId);
    resp := Ok(ReviewDeleted);
  }

  // ------------------------------------------------------------------
  // The dispatcher (index.ts:27-51, 325-331)
  // ------------------------------------------------------------------

  method ManageReviewsHandler(db: Db, caller: Option<Id>, isAdmin: bool, req: Request, newId: Id)
    returns (resp: Outcome<Result>)
    modifies db`reviews, db`notifications
    ensures caller.None? ==> resp == Err(401, AuthRequired)
    ensures caller.Some? && req.action == "" ==> resp == Err(400, MissingFields)
    ensures caller.Some? && req.action !in {"", "create_review", "get_vendor_reviews", "delete_review"}
      ==> resp == Err(400, InvalidAction)
    ensures caller.None? || req.action !in {"create_review", "delete_review"} ==>
      db.reviews == old(db.reviews) && db.notifications == old(db.notifications)
    ensures caller.Some? && req.action == "get_vendor_reviews" ==>
      resp == (if req.vendorId == "" then Err(400, MissingFields)
               else Ok(VendorReviews(ReviewsOfVendor(db.reviews, req.vendorId), SummaryOrZero(db.ratings, req.vendorId))))
    ensures caller.Some? && req.action == "create_review" ==>
      var g := CreateGuard(caller.value, req.bookingId, req.rating, db.bookings, old(db.reviews));
      && (g.Err? ==> resp == Err(g.status, g.reason)
                     && db.reviews == old(db.reviews) && db.notifications == old(db.notifications))
      && (g.Ok? ==>
            var row := Row(newId, NewReview(req.bookingId, g.value, caller.value, req.rating, req.title, req.content));
            && db.reviews == old(db.reviews) + [row]
            && db.notifications == old(db.notifications) + ReviewNotice(db.vendors, g.value.vendorId, req.bookingId)
            && resp == Ok(ReviewCreated(row, Get(db.ratings, g.value.vendorId))))
    ensures caller.Some? && req.action == "delete_review" ==>
      var g := DeleteGuard(caller.value, isAdmin, req.reviewId, old(db.reviews));
      && db.notifications == old(db.notifications)
      && (g.Err? ==> resp == Err(g.status, g.reason) && db.reviews == old(db.reviews))
      && (g.Ok? ==> resp == Ok(ReviewDeleted) && db.reviews == Remove(old(db.reviews), req.reviewId))
    ensures OneReviewPerBooking(old(db.reviews)) ==> OneReviewPerBooking(db.reviews)
  {
    if caller.None? {
      return Err(401, AuthRequired);
    }
    if req.action == "" {
      return Err(400, MissingFields);
    }
    if req.action == "create_review" {
      resp := CreateReview(db, caller.value, req, newId);
    } else if req.action == "get_vendor_reviews" {
      if req.vendorId == "" {
        return Err(400, MissingFields);
      }
      resp := Ok(VendorReviews(ReviewsOfVendor(db.reviews, req.vendorId), SummaryOrZero(db.ratings, req.vendorId)));
    } else if req.action == "delete_review" {
      resp := DeleteReview(db, caller.value, isAdmin, req.reviewId);
    } else {
      resp := Err(400, InvalidAction);
    }
  }
}
