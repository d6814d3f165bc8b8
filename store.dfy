/**
 * The database both back ends work on: one table per collection. Wallets and rating
 * summaries are keyed by their vendor's id (the `vendor_wallets.vendor_id` index of
 * backend/database.py:84 is unique, and the summary is upserted per vendor).
 * Settlement transactions and notifications are append-only logs.
 */
module Store {
  import opened Records
  import opened Tables

  class Db {
    var users: seq<Row<User>>
    var vendors: seq<Row<Vendor>>
    var packages: seq<Row<Package>>
    var slots: seq<Row<TimeSlot>>
    var bookings: seq<Row<Booking>>
    var wallets: seq<Row<Wallet>>
    var payouts: seq<Row<Payout>>
    var txs: seq<SettlementTx>
    var reviews: seq<Row<Review>>
    var ratings: seq<Row<RatingSummary>>
    var notifications: seq<Notification>
    var commissionSetting: Option<CommissionSetting>
    /** Calls of the `record_booking_earnings` RPC, in order. */
    ghost var earningsCalls: seq<EarningsCall>

    constructor ()
      ensures users == [] && vendors == [] && packages == [] && slots == [] && bookings == []
      ensures wallets == [] && payouts == [] && txs == [] && reviews == [] && ratings == []
      ensures notifications == [] && commissionSetting.None? && earningsCalls == []
    {
      users, vendors, packages, slots, bookings := [], [], [], [], [];
      wallets, payouts, txs, reviews, ratings := [], [], [], [], [];
      notifications, commissionSetting, earningsCalls := [], None, [];
    }
  }

  /** No slot is booked beyond its capacity. */
  predicate WithinCapacity(slots: seq<Row<TimeSlot>>)
  {
    forall i :: 0 <= i < |slots| ==> slots[i].val.bookedCount <= slots[i].val.capacity
  }

  /** Every booking's commission and vendor amount add up to its total. */
  predicate SplitsBalance(bookings: seq<Row<Booking>>)
  {
    forall i :: 0 <= i < |bookings| ==>
      bookings[i].val.commissionAmount + bookings[i].val.vendorAmount == bookings[i].val.totalAmount
  }

  /** The wallet identity: balance = earned - commission - paid out. */
  predicate WalletBalanced(w: Wallet)
  {
    w.balance == w.totalEarned - w.totalCommission - w.totalPaidOut
  }

  predicate WalletsBalanced(wallets: seq<Row<Wallet>>)
  {
    forall i :: 0 <= i < |wallets| ==> WalletBalanced(wallets[i].val)
  }

  /** Replacing a row by one that also satisfies a per-row invariant keeps it. */
  lemma PutKeepsWithinCapacity(slots: seq<Row<TimeSlot>>, id: Id, s: TimeSlot)
    requires WithinCapacity(slots) && s.bookedCount <= s.capacity
    ensures WithinCapacity(Put(slots, id, s))
  {
    var r := Put(slots, id, s);
    forall i | 0 <= i < |r| ensures r[i].val.bookedCount <= r[i].val.capacity {
      assert r[i] == slots[i] || r[i] == Row(id, s);
    }
  }

  lemma PutKeepsWalletsBalanced(wallets: seq<Row<Wallet>>, id: Id, w: Wallet)
    requires WalletsBalanced(wallets) && WalletBalanced(w)
    ensures WalletsBalanced(Put(wallets, id, w))
  {
    var r := Put(wallets, id, w);
    forall i | 0 <= i < |r| ensures WalletBalanced(r[i].val) {
      assert r[i] == wallets[i] || r[i] == Row(id, w);
    }
  }

  lemma PutKeepsSplitsBalance(bookings: seq<Row<Booking>>, id: Id, b: Booking)
    requires SplitsBalance(bookings)
    requires b.commissionAmount + b.vendorAmount == b.totalAmount
    ensures SplitsBalance(Put(bookings, id, b))
  {
    var r := Put(bookings, id, b);
    forall i | 0 <= i < |r|
      ensures r[i].val.commissionAmount + r[i].val.vendorAmount == r[i].val.totalAmount
    {
      assert r[i] == bookings[i] || r[i] == Row(id, b);
    }
  }

  /** A stored booking's split adds up when every stored split does. */
  lemma StoredSplitBalances(bookings: seq<Row<Booking>>, id: Id)
    requires SplitsBalance(bookings) && Has(bookings, id)
    ensures Get(bookings, id).value.commissionAmount + Get(bookings, id).value.vendorAmount
            == Get(bookings, id).value.totalAmount
  {
    var k := IndexOf(bookings, id).value;
    assert bookings[k].val == Get(bookings, id).value;
  }

  /** Rewrites a stored booking; the amounts it keeps keep the split balanced. */
  method WriteBooking(db: Db, bookingId: Id, b: Booking, nb: Booking)
    requires Get(db.bookings, bookingId) == Some(b)
    requires nb.totalAmount == b.totalAmount && nb.commissionAmount == b.commissionAmount && nb.vendorAmount == b.vendorAmount
    modifies db`bookings
    ensures db.bookings == Put(old(db.bookings), bookingId, nb)
    ensures SplitsBalance(old(db.bookings)) ==> SplitsBalance(db.bookings)
  {
    if SplitsBalance(db.bookings) {
      StoredSplitBalances(db.bookings, bookingId);
      PutKeepsSplitsBalance(db.bookings, bookingId, nb);
    }
    db.bookings := Put(db.bookings, bookingId, nb);
  }

  lemma AppendKeepsSplitsBalance(bookings: seq<Row<Booking>>, row: Row<Booking>)
    requires SplitsBalance(bookings)
    requires row.val.commissionAmount + row.val.vendorAmount == row.val.totalAmount
    ensures SplitsBalance(bookings + [row])
  {
    var r := bookings + [row];
    forall i | 0 <= i < |r|
      ensures r[i].val.commissionAmount + r[i].val.vendorAmount == r[i].val.totalAmount
    {
      if i < |bookings| { assert r[i] == bookings[i]; }
    }
  }

  /** How many reviews a booking has. */
  function ReviewsFor(reviews: seq<Row<Review>>, bookingId: Id): (n: nat)
    ensures n <= |reviews|
  {
    if |reviews| == 0 then 0
    else ReviewsFor(reviews[..|reviews| - 1], bookingId)
         + (if reviews[|reviews| - 1].val.bookingId == bookingId then 1 else 0)
  }

  /** No two reviews share a booking (the unique `reviews.booking_id` index of
      backend/database.py:98). */
  predicate OneReviewPerBooking(reviews: seq<Row<Review>>)
  {
    forall i, j :: 0 <= i < j < |reviews| ==> reviews[i].val.bookingId != reviews[j].val.bookingId
  }

  lemma {:induction false} ReviewsForZero(reviews: seq<Row<Review>>, bookingId: Id)
    ensures ReviewsFor(reviews, bookingId) == 0 <==>
            forall i :: 0 <= i < |reviews| ==> reviews[i].val.bookingId != bookingId
  {
    if |reviews| > 0 {
      var init := reviews[..|reviews| - 1];
      ReviewsForZero(init, bookingId);
      assert forall i :: 0 <= i < |init| ==> init[i] == reviews[i];
    }
  }

  lemma {:induction false} OneReviewCountsAtMostOne(reviews: seq<Row<Review>>, bookingId: Id)
    requires OneReviewPerBooking(reviews)
    ensures ReviewsFor(reviews, bookingId) <= 1
  {
    if |reviews| > 0 {
      var init := reviews[..|reviews| - 1];
      assert OneReviewPerBooking(init) by {
        forall i, j | 0 <= i < j < |init| ensures init[i].val.bookingId != init[j].val.bookingId {
          assert init[i] == reviews[i] && init[j] == reviews[j];
        }
      }
      OneReviewCountsAtMostOne(init, bookingId);
      if reviews[|reviews| - 1].val.bookingId == bookingId {
        ReviewsForZero(init, bookingId);
      }
    }
  }

  lemma AppendKeepsOneReviewPerBooking(reviews: seq<Row<Review>>, row: Row<Review>)
    requires OneReviewPerBooking(reviews) && ReviewsFor(reviews, row.val.bookingId) == 0
    ensures OneReviewPerBooking(reviews + [row])
    ensures ReviewsFor(reviews + [row], row.val.bookingId) == 1
  {
    ReviewsForZero(reviews, row.val.bookingId);
    assert (reviews + [row])[..|reviews|] == reviews;
  }

  lemma RemoveKeepsOneReviewPerBooking(reviews: seq<Row<Review>>, id: Id)
    requires OneReviewPerBooking(reviews)
    ensures OneReviewPerBooking(Remove(reviews, id))
  {
    match IndexOf(reviews, id) {
      case None =>
      case Some(k) =>
        var r := reviews[..k] + reviews[k + 1..];
        forall i, j | 0 <= i < j < |r| ensures r[i].val.bookingId != r[j].val.bookingId {
          var i' := if i < k then i else i + 1;
          var j' := if j < k then j else j + 1;
          assert r[i] == reviews[i'] && r[j] == reviews[j'];
        }
    }
  }
}
