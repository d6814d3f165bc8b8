/**
 * The aggregations of src/lib/earningsCalculator.ts: a vendor's earnings over its
 * bookings and the admin's financial overview. A query that fails hands the
 * aggregator no rows (`return []`, `data || []`); None stands for that failure.
 */
module Earnings {
  import opened Records
  import opened Aggregates

  datatype VendorEarnings = VendorEarnings(
    totalGross: Paise,
    totalCommission: Paise,
    totalEarnings: Paise,
    completedBookings: nat,
    pendingBookings: nat,
    totalBookings: nat)

  datatype AdminFinancials = AdminFinancials(
    totalCommissionCollected: Paise,
    totalBookingsAmount: Paise,
    totalPayouts: Paise,
    pendingPayouts: Paise,
    approvedVendorsCount: nat,
    pendingVendorsCount: nat)

  predicate IsCompleted(b: Booking) { b.status == Completed }
  /** "pending" in the earnings report means not yet completed and not cancelled. */
  predicate IsOpen(b: Booking) { b.status == Pending || b.status == Confirmed }
  function TotalOf(b: Booking): Paise { b.totalAmount }
  function CommissionOf(b: Booking): Paise { b.commissionAmount }
  function CompletedTotal(b: Booking): Paise { if IsCompleted(b) then b.totalAmount else 0 }
  function CompletedCommission(b: Booking): Paise { if IsCompleted(b) then b.commissionAmount else 0 }
  /** What a booking adds to the vendor's earnings: total less commission, once completed. */
  function CompletedNet(b: Booking): Paise { if IsCompleted(b) then b.totalAmount - b.commissionAmount else 0 }
  function CompletedVendorAmount(b: Booking): Paise { if IsCompleted(b) then b.vendorAmount else 0 }

  predicate PayoutDone(p: Payout) { p.status == PayoutCompleted }
  predicate PayoutWaiting(p: Payout) { p.status == PayoutPending }
  function PayoutAmount(p: Payout): Paise { p.amount }
  predicate Approved(v: Vendor) { v.isApproved }
  predicate NotApproved(v: Vendor) { !v.isApproved }

  function RowsOrEmpty<T>(fetched: Option<seq<T>>): seq<T>
  {
    if fetched.Some? then fetched.value else []
  }

  /** `getVendorBookingsFinancials`: the vendor's bookings, or none when the query fails. */
  function VendorBookings(fetched: Option<seq<Booking>>, vendorId: Id): (r: seq<Booking>)
    ensures fetched.None? ==> r == []
    ensures forall i :: 0 <= i < |r| ==> r[i].vendorId == vendorId && r[i] in RowsOrEmpty(fetched)
    ensures forall i :: 0 <= i < |RowsOrEmpty(fetched)| && RowsOrEmpty(fetched)[i].vendorId == vendorId ==>
              RowsOrEmpty(fetched)[i] in r
  {
    Filter(RowsOrEmpty(fetched), (b: Booking) => b.vendorId == vendorId)
  }

  /** `calculateVendorEarnings` (earningsCalculator.ts:114-143) over the fetched bookings. */
  function CalculateVendorEarnings(bookings: seq<Booking>): (e: VendorEarnings)
    ensures e.totalBookings == |bookings|
    ensures e.completedBookings + e.pendingBookings <= e.totalBookings
  {
    CountDisjoint(bookings, IsCompleted, IsOpen);
    var completed := Filter(bookings, IsCompleted);
    VendorEarnings(
      Sum(bookings, TotalOf),
      Sum(bookings, CommissionOf),
      Sum(completed, TotalOf) - Sum(completed, CommissionOf),
      |completed|,
      Count(bookings, IsOpen),
      |bookings|)
  }

  /** Gross and commission cover every booking, cancelled ones included; earnings cover
      (total - commission) of completed bookings only. */
  lemma VendorEarningsSums(bookings: seq<Booking>)
    ensures CalculateVendorEarnings(bookings).totalGross == Sum(bookings, TotalOf)
    ensures CalculateVendorEarnings(bookings).totalCommission == Sum(bookings, CommissionOf)
    ensures CalculateVendorEarnings(bookings).totalEarnings == Sum(bookings, CompletedNet)
    ensures CalculateVendorEarnings(bookings).completedBookings == Count(bookings, IsCompleted)
  {
    SumFilter(bookings, IsCompleted, TotalOf, CompletedTotal);
    SumFilter(bookings, IsCompleted, CommissionOf, CompletedCommission);
    SumDifference(bookings, CompletedTotal, CompletedCommission, CompletedNet);
  }

  /** A cancelled booking raises gross and commission by its own amounts and changes
      neither the earnings nor the completed and pending counts. */
  lemma CancelledCountsOnlyInGross(bookings: seq<Booking>, b: Booking)
    requires b.status == Cancelled
    ensures var before, after := CalculateVendorEarnings(bookings), CalculateVendorEarnings(bookings + [b]);
      after.totalGross == before.totalGross + b.totalAmount
      && after.totalCommission == before.totalCommission + b.commissionAmount
      && after.totalEarnings == before.totalEarnings
      && after.completedBookings == before.completedBookings
      && after.pendingBookings == before.pendingBookings
      && after.totalBookings == before.totalBookings + 1
  {
    VendorEarningsSums(bookings);
    VendorEarningsSums(bookings + [b]);
    assert (bookings + [b])[..|bookings + [b]| - 1] == bookings;
  }

  /** When every completed booking was split consistently (vendor amount = total - commission),
      the earnings are the vendor amounts of the completed bookings. */
  lemma EarningsAreVendorAmounts(bookings: seq<Booking>)
    requires forall i :: 0 <= i < |bookings| ==>
      bookings[i].commissionAmount + bookings[i].vendorAmount == bookings[i].totalAmount
    ensures CalculateVendorEarnings(bookings).totalEarnings == Sum(bookings, CompletedVendorAmount)
  {
    VendorEarningsSums(bookings);
    SumCongruent(bookings, CompletedNet, CompletedVendorAmount);
  }

  /** `getAdminFinancials` (earningsCalculator.ts:206-252): the bookings query keeps only
      completed bookings; each failed query contributes no rows. */
  function GetAdminFinancials(bookings: Option<seq<Booking>>, vendors: Option<seq<Vendor>>,
                              payouts: Option<seq<Payout>>): (f: AdminFinancials)
    ensures f.approvedVendorsCount + f.pendingVendorsCount == |RowsOrEmpty(vendors)|
    ensures bookings.None? ==> f.totalCommissionCollected == 0 && f.totalBookingsAmount == 0
    ensures payouts.None? ==> f.totalPayouts == 0 && f.pendingPayouts == 0
  {
    var done := Filter(RowsOrEmpty(bookings), IsCompleted);
    var ps := RowsOrEmpty(payouts);
    var vs := RowsOrEmpty(vendors);
    CountComplement(vs, Approved, NotApproved);
    AdminFinancials(
      Sum(done, CommissionOf),
      Sum(done, TotalOf),
      Sum(Filter(ps, PayoutDone), PayoutAmount),
      Sum(Filter(ps, PayoutWaiting), PayoutAmount),
      |Filter(vs, Approved)|,
      |Filter(vs, NotApproved)|)
  }

  function DoneAmount(p: Payout): Paise { if PayoutDone(p) then p.amount else 0 }
  function WaitingAmount(p: Payout): Paise { if PayoutWaiting(p) then p.amount else 0 }

  /** Paid-out totals count completed payouts only and pending totals pending ones only;
      a processing or failed payout adds to neither. */
  lemma AdminPayoutTotals(bookings: Option<seq<Booking>>, vendors: Option<seq<Vendor>>, ps: seq<Payout>)
    ensures GetAdminFinancials(bookings, vendors, Some(ps)).totalPayouts == Sum(ps, DoneAmount)
    ensures GetAdminFinancials(bookings, vendors, Some(ps)).pendingPayouts == Sum(ps, WaitingAmount)
    ensures forall p: Payout :: (p.status == PayoutProcessing || p.status == PayoutFailed) ==>
      GetAdminFinancials(bookings, vendors, Some(ps + [p])).totalPayouts
        == GetAdminFinancials(bookings, vendors, Some(ps)).totalPayouts
      && GetAdminFinancials(bookings, vendors, Some(ps + [p])).pendingPayouts
        == GetAdminFinancials(bookings, vendors, Some(ps)).pendingPayouts
  {
    SumFilter(ps, PayoutDone, PayoutAmount, DoneAmount);
    SumFilter(ps, PayoutWaiting, PayoutAmount, WaitingAmount);
    forall p: Payout | p.status == PayoutProcessing || p.status == PayoutFailed
      ensures GetAdminFinancials(bookings, vendors, Some(ps + [p])).totalPayouts
        == GetAdminFinancials(bookings, vendors, Some(ps)).totalPayouts
      ensures GetAdminFinancials(bookings, vendors, Some(ps + [p])).pendingPayouts
        == GetAdminFinancials(bookings, vendors, Some(ps)).pendingPayouts
    {
      UnsettledPayoutAddsNothing(ps, p);
    }
  }

  lemma UnsettledPayoutAddsNothing(ps: seq<Payout>, p: Payout)
    requires p.status == PayoutProcessing || p.status == PayoutFailed
    ensures Sum(Filter(ps + [p], PayoutDone), PayoutAmount) == Sum(Filter(ps, PayoutDone), PayoutAmount)
    ensures Sum(Filter(ps + [p], PayoutWaiting), PayoutAmount) == Sum(Filter(ps, PayoutWaiting), PayoutAmount)
  {
    var qs := ps + [p];
    SumFilter(ps, PayoutDone, PayoutAmount, DoneAmount);
    SumFilter(ps, PayoutWaiting, PayoutAmount, WaitingAmount);
    SumFilter(qs, PayoutDone, PayoutAmount, DoneAmount);
    SumFilter(qs, PayoutWaiting, PayoutAmount, WaitingAmount);
    assert qs[..|qs| - 1] == ps;
  }

  /** The admin's booking totals are taken over completed bookings only. */
  lemma AdminBookingTotals(bs: seq<Booking>, vendors: Option<seq<Vendor>>, payouts: Option<seq<Payout>>)
    ensures GetAdminFinancials(Some(bs), vendors, payouts).totalBookingsAmount == Sum(bs, CompletedTotal)
    ensures GetAdminFinancials(Some(bs), vendors, payouts).totalCommissionCollected == Sum(bs, CompletedCommission)
  {
    SumFilter(bs, IsCompleted, TotalOf, CompletedTotal);
    SumFilter(bs, IsCompleted, CommissionOf, CompletedCommission);
  }
}
