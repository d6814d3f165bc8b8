/**
 * The helpers of the Python back end (backend/utils.py): wallet creation and credit,
 * payout processing, the vendor rating recompute, the slot helpers and the booking
 * notifications. Commission rate and split are `Ledger.CommissionRatePy` and `Ledger.SplitPy`.
 */
module PyUtils {
  import opened Records
  import opened Tables
  import opened Aggregates
  import opened Ledger
  import opened Store
  import ProcessSettlement

  // ------------------------------------------------------------------
  // Wallets (utils.py:45-86)
  // ------------------------------------------------------------------

  /** The wallets after `create_vendor_wallet(vendor_id)`: an existing wallet is kept,
      otherwise an empty one is inserted. */
  function WalletsWith(wallets: seq<Row<Wallet>>, vendorId: Id): (r: seq<Row<Wallet>>)
    ensures Has(r, vendorId)
    ensures Has(wallets, vendorId) ==> r == wallets
    ensures !Has(wallets, vendorId) ==> r == wallets + [Row(vendorId, NewWallet())]
    ensures !Has(wallets, vendorId) ==> Get(r, vendorId) == Some(NewWallet())
  {
    if Has(wallets, vendorId) then wallets
    else
      AppendGet(wallets, vendorId, NewWallet(), vendorId);
      wallets + [Row(vendorId, NewWallet())]
  }

  /** A second call changes nothing. */
  lemma CreateVendorWalletIdempotent(wallets: seq<Row<Wallet>>, vendorId: Id)
    ensures WalletsWith(WalletsWith(wallets, vendorId), vendorId) == WalletsWith(wallets, vendorId)
  {
  }

  method CreateVendorWallet(db: Db, vendorId: Id) returns (w: Wallet)
    modifies db`wallets
    ensures db.wallets == WalletsWith(old(db.wallets), vendorId)
    ensures Get(db.wallets, vendorId) == Some(w)
    ensures Has(old(db.wallets), vendorId) ==> Get(old(db.wallets), vendorId) == Some(w)
    ensures WalletsBalanced(old(db.wallets)) ==> WalletsBalanced(db.wallets)
  {
    var existing := Get(db.wallets, vendorId);
    if existing.Some? {
      return existing.value;
    }
    w := NewWallet();
    db.wallets := WalletsWith(db.wallets, vendorId);
  }

  /** The `$inc` of `update_wallet_on_booking` (utils.py:65-75). */
  function CreditedWallet(w: Wallet, total: Paise, commission: Paise, vendorAmount: Paise): (v: Wallet)
    ensures v.balance - w.balance == vendorAmount
    ensures v.totalEarned - w.totalEarned == total
    ensures v.totalCommission - w.totalCommission == commission
    ensures v.totalPaidOut == w.totalPaidOut
  {
    w.(balance := w.balance + vendorAmount, totalEarned := w.totalEarned + total,
       totalCommission := w.totalCommission + commission)
  }

  /** A credit keeps balance = earned - commission - paid out exactly when the vendor's
      share is the total less the commission, as `calculate_commission` makes it. */
  lemma CreditKeepsBalanced(w: Wallet, total: Paise, commission: Paise, vendorAmount: Paise)
    requires WalletBalanced(w)
    ensures WalletBalanced(CreditedWallet(w, total, commission, vendorAmount)) <==> vendorAmount == total - commission
  {
  }

  function EarningsTx(vendorId: Id, bookingId: Id, total: Paise, commission: Paise, vendorAmount: Paise): (t: SettlementTx)
    ensures t.txType == BookingEarnings && t.bookingId == Some(bookingId) && t.vendorId == vendorId
    ensures t.grossAmount == total && t.commissionAmount == commission && t.netAmount == vendorAmount
  {
    SettlementTx(vendorId, Some(bookingId), BookingEarnings, total, commission, vendorAmount, None, None)
  }

  /** `update_wallet_on_booking`. The transaction is recorded even when the vendor has no
      wallet, in which case the `$inc` matches nothing. */
  method UpdateWalletOnBooking(db: Db, vendorId: Id, bookingId: Id, total: Paise, commission: Paise, vendorAmount: Paise)
    modifies db`wallets, db`txs
    ensures db.wallets == (if Has(old(db.wallets), vendorId)
                           then Put(old(db.wallets), vendorId,
                                    CreditedWallet(Get(old(db.wallets), vendorId).value, total, commission, vendorAmount))
                           else old(db.wallets))
    ensures db.txs == old(db.txs) + [EarningsTx(vendorId, bookingId, total, commission, vendorAmount)]
    ensures WalletsBalanced(old(db.wallets)) && vendorAmount == total - commission ==> WalletsBalanced(db.wallets)
  {
    var wallet := Get(db.wallets, vendorId);
    if wallet.Some? {
      var credited := CreditedWallet(wallet.value, total, commission, vendorAmount);
      if WalletsBalanced(db.wallets) && vendorAmount == total - commission {
        assert Row(vendorId, wallet.value) in db.wallets;
        CreditKeepsBalanced(wallet.value, total, commission, vendorAmount);
        PutKeepsWalletsBalanced(db.wallets, vendorId, credited);
      }
      db.wallets := Put(db.wallets, vendorId, credited);
    }
    db.txs := db.txs + [EarningsTx(vendorId, bookingId, total, commission, vendorAmount)];
  }

  // ------------------------------------------------------------------
  // Payouts (utils.py:97-143)
  // ------------------------------------------------------------------

  /** The `$set` of utils.py:110-122. */
  function ProcessedPayout(p: Payout, status: PayoutStatus, settledBy: Id, notes: Option<string>,
                           reference: Option<string>, now: Time): (q: Payout)
    ensures q.status == status && q.settledBy == Some(settledBy) && q.settledAt == Some(now)
    ensures q.settlementNotes == notes && q.payoutReference == reference
    ensures q.vendorId == p.vendorId && q.amount == p.amount && q.payoutMethod == p.payoutMethod
  {
    p.(status := status, settledBy := Some(settledBy), settledAt := Some(now),
       settlementNotes := notes, payoutReference := reference)
  }

  /** The `$inc` of utils.py:126-135. */
  function DebitedWallet(w: Wallet, amount: Paise): (v: Wallet)
    ensures v.balance == w.balance - amount
    ensures v.totalPaidOut == w.totalPaidOut + amount
    ensures v.totalEarned == w.totalEarned && v.totalCommission == w.totalCommission
  {
    w.(balance := w.balance - amount, totalPaidOut := w.totalPaidOut + amount)
  }

  lemma DebitKeepsBalanced(w: Wallet, amount: Paise)
    requires WalletBalanced(w)
    ensures WalletBalanced(DebitedWallet(w, amount))
  {
  }

  /** Nothing stops a payout from being completed twice: each completion debits again. */
  lemma DoubleCompletionDebitsTwice(w: Wallet, amount: Paise)
    ensures DebitedWallet(DebitedWallet(w, amount), amount).balance == w.balance - 2 * amount
    ensures DebitedWallet(DebitedWallet(w, amount), amount).totalPaidOut == w.totalPaidOut + 2 * amount
  {
  }

  /** The two settle paths: the Python one subtracts the amount and keeps the wallet
      identity; the edge function sets the balance to 0, which keeps it only when the
      balance was exactly the amount. */
  lemma SettlePathsCompared(w: Wallet, amount: Paise)
    requires WalletBalanced(w)
    ensures WalletBalanced(DebitedWallet(w, amount))
    ensures WalletBalanced(ProcessSettlement.SettledWallet(w, amount)) <==> w.balance == amount
    ensures DebitedWallet(w, amount).totalPaidOut == ProcessSettlement.SettledWallet(w, amount).totalPaidOut
  {
  }

  /** The notice of utils.py:138-143. Its `user_id` is the payout's vendor id, not the
      vendor's user id as on the other notices. */
  function PayoutNotice(p: Payout): (n: Notification)
    ensures n.userId == Some(p.vendorId) && n.kind == PayoutProcessed
  {
    Notification(Some(p.vendorId), PayoutProcessed, "Payout Completed", None, None)
  }

  /** `process_payout`. An unknown payout raises (a 500 from the route); otherwise the
      payout is rewritten whatever its current status, and a completion debits the wallet
      and notifies. */
  method ProcessPayout(db: Db, payoutId: Id, settledBy: Id, notes: Option<string>, reference: Option<string>,
                       status: PayoutStatus, now: Time) returns (resp: Outcome<Payout>)
    modifies db`payouts, db`wallets, db`notifications
    ensures resp.Ok? <==> Has(old(db.payouts), payoutId)
    ensures resp.Err? ==>
              resp == Err(500, PayoutNotFound) && db.payouts == old(db.payouts)
              && db.wallets == old(db.wallets) && db.notifications == old(db.notifications)
    ensures resp.Ok? ==>
      var p := Get(old(db.payouts), payoutId).value;
      && resp.value == ProcessedPayout(p, status, settledBy, notes, reference, now)
      && db.payouts == Put(old(db.payouts), payoutId, resp.value)
      && db.wallets == (if status == PayoutCompleted && Has(old(db.wallets), p.vendorId)
                        then Put(old(db.wallets), p.vendorId, DebitedWallet(Get(old(db.wallets), p.vendorId).value, p.amount))
                        else old(db.wallets))
      && db.notifications == old(db.notifications) + (if status == PayoutCompleted then [PayoutNotice(p)] else [])
    ensures WalletsBalanced(old(db.wallets)) ==> WalletsBalanced(db.wallets)
  {
    var payout := Get(db.payouts, payoutId);
    if payout.None? {
      return Err(500, PayoutNotFound);
    }
    var p := payout.value;
    var q := ProcessedPayout(p, status, settledBy, notes, reference, now);
    db.payouts := Put(db.payouts, payoutId, q);
    if status == PayoutCompleted {
      var wallet := Get(db.wallets, p.vendorId);
      if wallet.Some? {
        var debited := DebitedWallet(wallet.value, p.amount);
        if WalletsBalanced(db.wallets) {
          assert Row(p.vendorId, wallet.value) in db.wallets;
          PutKeepsWalletsBalanced(db.wallets, p.vendorId, debited);
        }
        db.wallets := Put(db.wallets, p.vendorId, debited);
      }
      db.notifications := db.notifications + [PayoutNotice(p)];
    }
    resp := Ok(q);
  }

  // ------------------------------------------------------------------
  // Ratings (utils.py:149-188)
  // ------------------------------------------------------------------

  function Stars(r: Row<Review>): int { r.val.rating }

  function VendorReviewRows(reviews: seq<Row<Review>>, vendorId: Id): (r: seq<Row<Review>>)
    ensures forall i :: 0 <= i < |r| ==> r[i] in reviews && r[i].val.vendorId == vendorId
  {
    Filter(reviews, (x: Row<Review>) => x.val.vendorId == vendorId)
  }

  /** The summary `update_vendor_rating` writes: over the first 1000 of the vendor's
      reviews (`to_list(1000)`), the count and the mean rating rounded half-to-even to
      hundredths of a star; zeros when there are none. */
  function RatingOf(reviews: seq<Row<Review>>, vendorId: Id): (s: RatingSummary)
    ensures var rs := Take(VendorReviewRows(reviews, vendorId), 1000);
      && s.totalReviews == |rs|
      && (|rs| == 0 ==> s.averageCenti == 0)
      && (|rs| > 0 ==> 2 * (|rs| * s.averageCenti) - |rs| <= 200 * Sum(rs, Stars) <= 2 * (|rs| * s.averageCenti) + |rs|)
  {
    var rs := Take(VendorReviewRows(reviews, vendorId), 1000);
    if |rs| == 0 then RatingSummary(0, 0)
    else RatingSummary(RoundHalfEven(100 * Sum(rs, Stars), |rs|), |rs|)
  }

  /** With every rating between 1 and 5, a vendor with reviews averages between 1.00 and 5.00. */
  lemma RatingInRange(reviews: seq<Row<Review>>, vendorId: Id)
    requires forall i :: 0 <= i < |reviews| ==> 1 <= reviews[i].val.rating <= 5
    ensures RatingOf(reviews, vendorId).totalReviews > 0 ==> 100 <= RatingOf(reviews, vendorId).averageCenti <= 500
  {
    var rs := Take(VendorReviewRows(reviews, vendorId), 1000);
    var n := |rs|;
    if n > 0 {
      var q := RatingOf(reviews, vendorId).averageCenti;
      assert forall i :: 0 <= i < n ==> 1 <= Stars(rs[i]) <= 5 by {
        forall i | 0 <= i < n ensures 1 <= Stars(rs[i]) <= 5 {
          assert rs[i] in VendorReviewRows(reviews, vendorId);
        }
      }
      SumBounds(rs, Stars, 1, 5);
      var t := Sum(rs, Stars);
      assert n <= t <= 5 * n;
      assert 2 * (n * q) - n <= 200 * t <= 2 * (n * q) + n;
      if q < 100 {
        MulMono(n, q, 99);
        assert false;
      }
      if q > 500 {
        MulMono(n, 501, q);
        assert false;
      }
    }
  }

  method UpdateVendorRating(db: Db, vendorId: Id)
    modifies db`ratings
    ensures db.ratings == Upsert(old(db.ratings), vendorId, RatingOf(db.reviews, vendorId))
    ensures Get(db.ratings, vendorId) == Some(RatingOf(db.reviews, vendorId))
    ensures forall other :: other != vendorId ==> Get(db.ratings, other) == Get(old(db.ratings), other)
  {
    db.ratings := Upsert(db.ratings, vendorId, RatingOf(db.reviews, vendorId));
  }

  // ------------------------------------------------------------------
  // Time slots (utils.py:239-279)
  // ------------------------------------------------------------------

  function CheckSlotAvailability(slots: seq<Row<TimeSlot>>, slotId: Id): (ok: bool)
    ensures ok <==> Get(slots, slotId).Some? && Get(slots, slotId).value.isAvailable
                    && Get(slots, slotId).value.bookedCount < Get(slots, slotId).value.capacity
  {
    match Get(slots, slotId) {
      case None => false
      case Some(s) => s.isAvailable && s.bookedCount < s.capacity
    }
  }

  /** The slot after `increment_slot_booking`: one more booked, closed once full. */
  function IncrementedSlot(s: TimeSlot): (t: TimeSlot)
    ensures t.bookedCount == s.bookedCount + 1
    ensures t.isAvailable == (s.isAvailable && s.bookedCount + 1 < s.capacity)
    ensures t.(bookedCount := s.bookedCount, isAvailable := s.isAvailable) == s
  {
    var t := s.(bookedCount := s.bookedCount + 1);
    if t.bookedCount >= t.capacity then t.(isAvailable := false) else t
  }

  /** The increment has no capacity guard of its own: on a full slot it overbooks. A slot
      that passed `check_slot_availability` stays within capacity. */
  lemma IncrementCapacity(s: TimeSlot)
    ensures s.bookedCount >= s.capacity ==> IncrementedSlot(s).bookedCount > IncrementedSlot(s).capacity
    ensures s.bookedCount < s.capacity ==> IncrementedSlot(s).bookedCount <= IncrementedSlot(s).capacity
  {
  }

  method IncrementSlotBooking(db: Db, slotId: Id)
    modifies db`slots
    ensures db.slots == (if Has(old(db.slots), slotId)
                         then Put(old(db.slots), slotId, IncrementedSlot(Get(old(db.slots), slotId).value))
                         else old(db.slots))
  {
    var slot := Get(db.slots, slotId);
    if slot.None? {
      return;
    }
    var s := slot.value.(bookedCount := slot.value.bookedCount + 1);
    db.slots := Put(db.slots, slotId, s);
    var reread := Get(db.slots, slotId);
    assert reread == Some(s);
    if reread.Some? && reread.value.bookedCount >= reread.value.capacity {
      var closed := reread.value.(isAvailable := false);
      assert closed == IncrementedSlot(slot.value);
      db.slots := Put(db.slots, slotId, closed);
      PutTwice(old(db.slots), slotId, s, closed);
    } else {
      assert s == IncrementedSlot(slot.value);
    }
  }

  /** The slot after `decrement_slot_booking`: one fewer booked, with no floor at 0, and open. */
  function DecrementedSlot(s: TimeSlot): (t: TimeSlot)
    ensures t.bookedCount == s.bookedCount - 1 && t.isAvailable
    ensures t.(bookedCount := s.bookedCount, isAvailable := s.isAvailable) == s
  {
    s.(bookedCount := s.bookedCount - 1, isAvailable := true)
  }

  method DecrementSlotBooking(db: Db, slotId: Id)
    modifies db`slots
    ensures db.slots == (if Has(old(db.slots), slotId)
                         then Put(old(db.slots), slotId, DecrementedSlot(Get(old(db.slots), slotId).value))
                         else old(db.slots))
  {
    var slot := Get(db.slots, slotId);
    if slot.Some? {
      db.slots := Put(db.slots, slotId, DecrementedSlot(slot.value));
    }
  }

  /** A decrement undoes an increment's count, but reopens the slot even if it was closed by hand. */
  lemma DecrementUndoesIncrement(s: TimeSlot)
    ensures DecrementedSlot(IncrementedSlot(s)).bookedCount == s.bookedCount
    ensures DecrementedSlot(IncrementedSlot(s)) == s <==> s.isAvailable
  {
  }

  // ------------------------------------------------------------------
  // Notifications (utils.py:213-233)
  // ------------------------------------------------------------------

  /** `create_booking_notifications(booking, vendor)`: the customer, when the booking has
      one, then the vendor's user. */
  function BookingNotices(b: Booking, bookingId: Id, vendorId: Id, vendor: Vendor): (ns: seq<Notification>)
    ensures |ns| == (if b.customerId.Some? && b.customerId.value != "" then 2 else 1)
    ensures ns[|ns| - 1].userId == Some(vendor.userId)
    ensures |ns| == 2 ==> ns[0].userId == b.customerId
    ensures forall i :: 0 <= i < |ns| ==> ns[i].kind == BookingConfirmation && ns[i].relatedBooking == Some(bookingId)
  {
    (if b.customerId.Some? && b.customerId.value != ""
     then [Notification(b.customerId, BookingConfirmation, "Booking Confirmed", Some(bookingId), Some(vendorId))]
     else [])
    + [Notification(Some(vendor.userId), BookingConfirmation, "New Booking", Some(bookingId), None)]
  }
}
