/**
 * The admin routes of the Python back end (backend/routes/admin.py): vendor approval and
 * suspension, the commission settings, payouts and the dashboard. Every route is behind
 * `require_role([admin])`, so the caller here is an admin by construction.
 *
 * Rates arrive as a float percentage validated by FastAPI's `Query(ge=0, le=100)`; the model
 * takes them in basis points, and a value outside the range is the framework's 422.
 */
module PyAdmin {
  import opened Records
  import opened Tables
  import opened Aggregates
  import opened Ledger
  import opened Store
  import opened Earnings
  import opened PyUtils

  // ------------------------------------------------------------------
  // Vendor approval (admin.py:33-103)
  // ------------------------------------------------------------------

  /** `VendorApproval.status` (models.py:95-98): pending is not a choice. */
  datatype Decision = Approve | Reject | Suspend

  function DecisionStatus(d: Decision): (s: VendorStatus)
    ensures s != VendorPending
  {
    match d
    case Approve => VendorApproved
    case Reject => VendorRejected
    case Suspend => VendorSuspended
  }

  /** The approval flag agrees with the status. A registered vendor starts out this way and
      each admin route keeps it. */
  predicate FlagsAgree(vendors: seq<Row<Vendor>>)
  {
    forall i :: 0 <= i < |vendors| ==> (vendors[i].val.isApproved <==> vendors[i].val.status == VendorApproved)
  }

  lemma PutKeepsFlagsAgree(vendors: seq<Row<Vendor>>, id: Id, v: Vendor)
    requires FlagsAgree(vendors) && (v.isApproved <==> v.status == VendorApproved)
    ensures FlagsAgree(Put(vendors, id, v))
  {
    var r := Put(vendors, id, v);
    forall i | 0 <= i < |r| ensures r[i] == vendors[i] || r[i] == Row(id, v) {
    }
  }

  /** The vendor after the `$set` of admin.py:47-62. */
  function Decided(v: Vendor, d: Decision, admin: Id, now: Time): (r: Vendor)
    ensures r.status == DecisionStatus(d)
    ensures r.isApproved <==> d == Approve
    ensures r.approvedBy == Some(admin) && r.approvedAt == Some(now)
    ensures r.userId == v.userId && r.commissionRate == v.commissionRate && r.companyName == v.companyName
  {
    v.(status := DecisionStatus(d), isApproved := d == Approve, approvedBy := Some(admin), approvedAt := Some(now))
  }

  function ApprovalNotice(v: Vendor, vendorId: Id): (n: Notification)
    ensures n.userId == Some(v.userId) && n.kind == VendorApproval && n.relatedVendor == Some(vendorId)
  {
    Notification(Some(v.userId), VendorApproval, "Vendor Application Approved", None, Some(vendorId))
  }

  /** `approve_vendor`: an approval also makes sure the vendor has a wallet and tells the
      vendor's user; a rejection or suspension only writes the decision. */
  method ApproveVendor(db: Db, admin: Id, vendorId: Id, d: Decision, now: Time) returns (resp: Outcome<Vendor>)
    modifies db`vendors, db`wallets, db`notifications
    ensures !Has(old(db.vendors), vendorId) ==>
      resp == Err(404, VendorNotFound) && db.vendors == old(db.vendors)
      && db.wallets == old(db.wallets) && db.notifications == old(db.notifications)
    ensures Has(old(db.vendors), vendorId) ==>
      var v := Get(old(db.vendors), vendorId).value;
      && resp == Ok(Decided(v, d, admin, now))
      && db.vendors == Put(old(db.vendors), vendorId, Decided(v, d, admin, now))
      && db.wallets == (if d == Approve then WalletsWith(old(db.wallets), vendorId) else old(db.wallets))
      && db.notifications == old(db.notifications) + (if d == Approve then [ApprovalNotice(v, vendorId)] else [])
    ensures resp.Ok? && d == Approve ==> Has(db.wallets, vendorId)
    ensures FlagsAgree(old(db.vendors)) ==> FlagsAgree(db.vendors)
    ensures WalletsBalanced(old(db.wallets)) ==> WalletsBalanced(db.wallets)
  {
    var vendor := Get(db.vendors, vendorId);
    if vendor.None? {
      return Err(404, VendorNotFound);
    }
    var v := vendor.value;
    var updated := Decided(v, d, admin, now);
    PutVendor(db, vendorId, updated);
    if d == Approve {
      Onboard(db, v, vendorId);
    }
    var reread := Get(db.vendors, vendorId);
    assert reread == Some(updated);
    resp := Ok(updated);
  }

  /** The `update_one` on `vendors`, for a vendor whose flag matches its status. */
  method PutVendor(db: Db, vendorId: Id, v: Vendor)
    requires v.isApproved <==> v.status == VendorApproved
    modifies db`vendors
    ensures db.vendors == Put(old(db.vendors), vendorId, v)
    ensures FlagsAgree(old(db.vendors)) ==> FlagsAgree(db.vendors)
  {
    if FlagsAgree(db.vendors) {
      PutKeepsFlagsAgree(db.vendors, vendorId, v);
    }
    db.vendors := Put(db.vendors, vendorId, v);
  }

  /** What an approval adds: the wallet, when there is none yet, and the notice to the vendor's user. */
  method Onboard(db: Db, v: Vendor, vendorId: Id)
    modifies db`wallets, db`notifications
    ensures db.wallets == WalletsWith(old(db.wallets), vendorId)
    ensures db.notifications == old(db.notifications) + [ApprovalNotice(v, vendorId)]
    ensures WalletsBalanced(old(db.wallets)) ==> WalletsBalanced(db.wallets)
  {
    var _ := CreateVendorWallet(db, vendorId);
    db.notifications := db.notifications + [ApprovalNotice(v, vendorId)];
  }

  /** `suspend_vendor` (admin.py:80-103). */
  method SuspendVendor(db: Db, vendorId: Id) returns (resp: Outcome<()>)
    modifies db`vendors
    ensures !Has(old(db.vendors), vendorId) ==> resp == Err(404, VendorNotFound) && db.vendors == old(db.vendors)
    ensures Has(old(db.vendors), vendorId) ==>
      var v := Get(old(db.vendors), vendorId).value;
      resp == Ok(()) && db.vendors == Put(old(db.vendors), vendorId, v.(status := VendorSuspended, isApproved := false))
    ensures resp.Ok? ==> Get(db.vendors, vendorId).value.status == VendorSuspended && !Get(db.vendors, vendorId).value.isApproved
    ensures FlagsAgree(old(db.vendors)) ==> FlagsAgree(db.vendors)
  {
    var vendor := Get(db.vendors, vendorId);
    if vendor.None? {
      return Err(404, VendorNotFound);
    }
    var suspended := vendor.value.(status := VendorSuspended, isApproved := false);
    PutVendor(db, vendorId, suspended);
    resp := Ok(());
  }

  // ------------------------------------------------------------------
  // Commission settings (admin.py:109-173)
  // ------------------------------------------------------------------

  /** `Query(..., ge=0, le=100)`, in basis points. */
  function RateInRange(rate: Rate): (g: Outcome<Rate>)
    ensures g.Ok? <==> 0 <= rate <= FullRate
    ensures g.Ok? ==> g.value == rate
    ensures g.Err? ==> g == Err(422, RateOutOfRange)
  {
    if 0 <= rate <= FullRate then Ok(rate) else Err(422, RateOutOfRange)
  }

  /** `get_commission_settings`: the settings document, created with its default 15% when
      there is none. */
  method GetCommissionSettings(db: Db) returns (s: CommissionSetting)
    modifies db`commissionSetting
    ensures old(db.commissionSetting).Some? ==> s == old(db.commissionSetting).value && db.commissionSetting == old(db.commissionSetting)
    ensures old(db.commissionSetting).None? ==> s == CommissionSetting(Some(DefaultRate)) && db.commissionSetting == Some(s)
  {
    if db.commissionSetting.None? {
      db.commissionSetting := Some(CommissionSetting(Some(DefaultRate)));
    }
    s := db.commissionSetting.value;
  }

  /** `update_commission_settings`: updates the document, or inserts one. */
  method UpdateCommissionSettings(db: Db, rate: Rate) returns (resp: Outcome<CommissionSetting>)
    modifies db`commissionSetting
    ensures RateInRange(rate).Err? ==> resp == Err(422, RateOutOfRange) && db.commissionSetting == old(db.commissionSetting)
    ensures RateInRange(rate).Ok? ==>
      resp == Ok(CommissionSetting(Some(rate))) && db.commissionSetting == Some(resp.value)
  {
    var checked := RateInRange(rate);
    if checked.Err? {
      return Err(checked.status, checked.reason);
    }
    db.commissionSetting := Some(CommissionSetting(Some(rate)));
    resp := Ok(db.commissionSetting.value);
  }

  /** `set_vendor_commission_rate`: the bounds are checked before the vendor is looked up. */
  method SetVendorCommissionRate(db: Db, vendorId: Id, rate: Rate) returns (resp: Outcome<()>)
    modifies db`vendors
    ensures RateInRange(rate).Err? ==> resp == Err(422, RateOutOfRange) && db.vendors == old(db.vendors)
    ensures RateInRange(rate).Ok? && !Has(old(db.vendors), vendorId) ==>
      resp == Err(404, VendorNotFound) && db.vendors == old(db.vendors)
    ensures RateInRange(rate).Ok? && Has(old(db.vendors), vendorId) ==>
      resp == Ok(()) &&
      db.vendors == Put(old(db.vendors), vendorId, Get(old(db.vendors), vendorId).value.(commissionRate := Some(rate)))
    ensures FlagsAgree(old(db.vendors)) ==> FlagsAgree(db.vendors)
  {
    var checked := RateInRange(rate);
    if checked.Err? {
      return Err(checked.status, checked.reason);
    }
    var vendor := Get(db.vendors, vendorId);
    if vendor.None? {
      return Err(404, VendorNotFound);
    }
    var updated := vendor.value.(commissionRate := Some(rate));
    if FlagsAgree(db.vendors) {
      PutKeepsFlagsAgree(db.vendors, vendorId, updated);
    }
    db.vendors := Put(db.vendors, vendorId, updated);
    resp := Ok(());
  }

  /** What the routes above mean for a booking: a vendor's own rate wins over the default,
      and either one, once set through these routes, is a rate between 0% and 100%, so the
      split of a non-negative price stays within it. */
  lemma RatesSetHereBoundCommission(v: Vendor, rate: Rate, price: Paise)
    requires RateInRange(rate).Ok? && price >= 0
    ensures CommissionRatePy(Some(v.(commissionRate := Some(rate))), None) == rate
    ensures CommissionRatePy(Some(v.(commissionRate := None)), Some(CommissionSetting(Some(rate)))) == rate
    ensures 0 <= CommissionPy(price, rate) <= price
  {
    CommissionPyBounds(price, rate);
  }

  // ------------------------------------------------------------------
  // Payouts (admin.py:179-259)
  // ------------------------------------------------------------------

  /** The status and vendor filters of `get_all_payouts`; an absent or empty filter matches every payout. */
  predicate PayoutMatches(p: Payout, status: Option<PayoutStatus>, vendorId: Option<Id>)
  {
    (status.Some? ==> p.status == status.value) && (Given(vendorId) ==> p.vendorId == vendorId.value)
  }

  /** The payouts the query of `get_all_payouts` matches, before its `to_list(200)`. */
  function MatchingPayouts(payouts: seq<Row<Payout>>, status: Option<PayoutStatus>, vendorId: Option<Id>): (r: seq<Row<Payout>>)
    ensures forall i :: 0 <= i < |r| ==>
      && r[i] in payouts
      && (status.Some? ==> r[i].val.status == status.value)
      && (Given(vendorId) ==> r[i].val.vendorId == vendorId.value)
    ensures forall i :: 0 <= i < |payouts| && PayoutMatches(payouts[i].val, status, vendorId) ==> payouts[i] in r
  {
    Filter(payouts, (p: Row<Payout>) =>
      (status.None? || p.val.status == status.value) && (!Given(vendorId) || p.val.vendorId == vendorId.value))
  }

  /** `get_all_payouts`: optional filters on status and vendor, at most 200 rows. */
  function PayoutsListed(payouts: seq<Row<Payout>>, status: Option<PayoutStatus>, vendorId: Option<Id>): (r: seq<Row<Payout>>)
    ensures |r| <= 200
    ensures forall i :: 0 <= i < |r| ==>
      && r[i] in payouts
      && (status.Some? ==> r[i].val.status == status.value)
      && (Given(vendorId) ==> r[i].val.vendorId == vendorId.value)
    ensures |MatchingPayouts(payouts, status, vendorId)| <= 200 ==>
      forall i :: 0 <= i < |payouts| && PayoutMatches(payouts[i].val, status, vendorId) ==> payouts[i] in r
  {
    var matching := MatchingPayouts(payouts, status, vendorId);
    var r := Take(matching, 200);
    assert forall i :: 0 <= i < |r| ==> r[i] == matching[i];
    assert |matching| <= 200 ==> r == matching;
    r
  }

  /** admin.py:206-220: vendor, then its wallet, then the amount. Nothing bounds the amount
      from below. */
  function CreatePayoutGuard(vendorId: Id, amount: Paise, vendors: seq<Row<Vendor>>, wallets: seq<Row<Wallet>>): (g: Outcome<Vendor>)
    ensures g.Ok? <==> Has(vendors, vendorId) && Has(wallets, vendorId) && amount <= Get(wallets, vendorId).value.balance
    ensures g.Ok? ==> Get(vendors, vendorId) == Some(g.value)
    ensures !Has(vendors, vendorId) ==> g == Err(404, VendorNotFound)
    ensures Has(vendors, vendorId) && !Has(wallets, vendorId) ==> g == Err(404, WalletNotFound)
    ensures Has(vendors, vendorId) && Has(wallets, vendorId) && amount > Get(wallets, vendorId).value.balance ==>
      g == Err(400, AmountExceedsBalance)
  {
    match Get(vendors, vendorId) {
      case None => Err(404, VendorNotFound)
      case Some(v) =>
        match Get(wallets, vendorId) {
          case None => Err(404, WalletNotFound)
          case Some(w) => if amount > w.balance then Err(400, AmountExceedsBalance) else Ok(v)
        }
    }
  }

  /** A zero or negative amount gets through the guard. */
  lemma NonPositivePayoutAccepted(vendorId: Id, amount: Paise, vendors: seq<Row<Vendor>>, wallets: seq<Row<Wallet>>)
    requires Has(vendors, vendorId) && Has(wallets, vendorId) && Get(wallets, vendorId).value.balance >= 0
    requires amount <= 0
    ensures CreatePayoutGuard(vendorId, amount, vendors, wallets).Ok?
  {
  }

  function InitiatedNotice(v: Vendor): (n: Notification)
    ensures n.userId == Some(v.userId) && n.kind == PayoutProcessed
  {
    Notification(Some(v.userId), PayoutProcessed, "Payout Initiated", None, None)
  }

  /** `create_payout`: a pending payout is inserted; the wallet is not touched (it is not
      in the frame at all). */
  method CreatePayout(db: Db, vendorId: Id, amount: Paise, payoutMethod: Option<string>, newId: Id)
    returns (resp: Outcome<Payout>)
    modifies db`payouts, db`notifications
    ensures var g := CreatePayoutGuard(vendorId, amount, db.vendors, db.wallets);
      && (g.Err? ==> resp == Err(g.status, g.reason) && db.payouts == old(db.payouts)
                     && db.notifications == old(db.notifications))
      && (g.Ok? ==> resp == Ok(NewPayout(vendorId, amount, payoutMethod))
                    && db.payouts == old(db.payouts) + [Row(newId, resp.value)]
                    && db.notifications == old(db.notifications) + [InitiatedNotice(g.value)])
  {
    var g := CreatePayoutGuard(vendorId, amount, db.vendors, db.wallets);
    if g.Err? {
      return Err(g.status, g.reason);
    }
    var payout := NewPayout(vendorId, amount, payoutMethod);
    db.payouts := db.payouts + [Row(newId, payout)];
    db.notifications := db.notifications + [InitiatedNotice(g.value)];
    resp := Ok(payout);
  }

  /** `PayoutSettle.status` (models.py:274-278). */
  datatype SettleStatus = SettleCompleted | SettleFailed

  function SettlePayoutStatus(s: SettleStatus): (r: PayoutStatus)
    ensures r == PayoutCompleted || r == PayoutFailed
  {
    if s == SettleCompleted then PayoutCompleted else PayoutFailed
  }

  /** `settle_payout`: `process_payout` and a re-read of the payout. An unknown payout makes
      `process_payout` raise, which surfaces as a 500. */
  method SettlePayout(db: Db, admin: Id, payoutId: Id, s: SettleStatus, notes: Option<string>,
                      reference: Option<string>, now: Time) returns (resp: Outcome<Payout>)
    modifies db`payouts, db`wallets, db`notifications
    ensures !Has(old(db.payouts), payoutId) ==>
      resp == Err(500, PayoutNotFound) && db.payouts == old(db.payouts)
      && db.wallets == old(db.wallets) && db.notifications == old(db.notifications)
    ensures Has(old(db.payouts), payoutId) ==>
      var p := Get(old(db.payouts), payoutId).value;
      var q := ProcessedPayout(p, SettlePayoutStatus(s), admin, notes, reference, now);
      && resp == Ok(q)
      && db.payouts == Put(old(db.payouts), payoutId, q)
      && db.wallets == (if s == SettleCompleted && Has(old(db.wallets), p.vendorId)
                        then Put(old(db.wallets), p.vendorId, DebitedWallet(Get(old(db.wallets), p.vendorId).value, p.amount))
                        else old(db.wallets))
      && db.notifications == old(db.notifications) + (if s == SettleCompleted then [PayoutNotice(p)] else [])
    ensures WalletsBalanced(old(db.wallets)) ==> WalletsBalanced(db.wallets)
  {
    var processed := ProcessPayout(db, payoutId, admin, notes, reference, SettlePayoutStatus(s), now);
    if processed.Err? {
      return processed;
    }
    var reread := Get(db.payouts, payoutId);
    assert reread == Some(processed.value);
    resp := Ok(reread.value);
  }

  // ------------------------------------------------------------------
  // Dashboard (admin.py:265-296)
  // ------------------------------------------------------------------

  datatype DashboardStats = DashboardStats(
    totalVendors: nat,
    pendingVendors: nat,
    approvedVendors: nat,
    totalBookings: nat,
    totalRevenue: Paise,
    totalCommission: Paise,
    pendingPayouts: Paise)

  predicate StatusPending(v: Vendor) { v.status == VendorPending }

  /** `get_admin_dashboard` over the tables; each query reads at most its `to_list` limit. */
  function AdminDashboard(vendors: seq<Vendor>, bookings: seq<Booking>, payouts: seq<Payout>): (d: DashboardStats)
    ensures d.totalVendors == |vendors| || d.totalVendors == 1000
    ensures d.totalBookings == |bookings| || d.totalBookings == 5000
    ensures d.totalBookings <= 5000 && d.totalVendors <= 1000
    ensures d.pendingVendors <= d.totalVendors && d.approvedVendors <= d.totalVendors
  {
    var vs := Take(vendors, 1000);
    var bs := Filter(Take(bookings, 5000), IsCompleted);
    var ps := Take(Filter(payouts, PayoutWaiting), 100);
    DashboardStats(
      |vs|, Count(vs, StatusPending), Count(vs, Approved),
      |Take(bookings, 5000)|, Sum(bs, TotalOf), Sum(bs, CommissionOf), Sum(ps, PayoutAmount))
  }

  /** While the flags agree with the statuses, no vendor is counted both as pending and as
      approved. */
  lemma DashboardVendorsDisjoint(vendors: seq<Vendor>, bookings: seq<Booking>, payouts: seq<Payout>)
    requires forall i :: 0 <= i < |vendors| ==> (vendors[i].isApproved <==> vendors[i].status == VendorApproved)
    ensures AdminDashboard(vendors, bookings, payouts).pendingVendors
          + AdminDashboard(vendors, bookings, payouts).approvedVendors
         <= AdminDashboard(vendors, bookings, payouts).totalVendors
  {
    var vs := Take(vendors, 1000);
    assert forall i :: 0 <= i < |vs| ==> vs[i] == vendors[i];
    CountDisjoint(vs, StatusPending, Approved);
  }

  /** Within the query limits the dashboard's revenue, commission, approved count and pending
      payouts are those of the edge function's `getAdminFinancials`; its pending-vendor count
      differs, since it counts unapproved vendors rather than status pending. */
  lemma DashboardMatchesFinancials(vendors: seq<Vendor>, bookings: seq<Booking>, payouts: seq<Payout>)
    requires |vendors| <= 1000 && |bookings| <= 5000 && Count(payouts, PayoutWaiting) <= 100
    ensures var d, f := AdminDashboard(vendors, bookings, payouts),
                        GetAdminFinancials(Some(Filter(bookings, IsCompleted)), Some(vendors), Some(payouts));
      && d.totalRevenue == f.totalBookingsAmount
      && d.totalCommission == f.totalCommissionCollected
      && d.approvedVendors == f.approvedVendorsCount
      && d.pendingPayouts == f.pendingPayouts
  {
    assert Take(vendors, 1000) == vendors;
    assert Take(bookings, 5000) == bookings;
    var done := Filter(bookings, IsCompleted);
    FilterIdempotent(done, IsCompleted);
    assert Take(Filter(payouts, PayoutWaiting), 100) == Filter(payouts, PayoutWaiting);
    assert |Filter(vendors, Approved)| == Count(vendors, Approved);
  }

  /** Filtering a filtered list again by the same test changes nothing. */
  lemma {:induction false} FilterIdempotent<T>(s: seq<T>, p: T -> bool)
    requires forall i :: 0 <= i < |s| ==> p(s[i])
    ensures Filter(s, p) == s
  {
    if |s| > 0 {
      FilterIdempotent(s[..|s| - 1], p);
      assert s == s[..|s| - 1] + [s[|s| - 1]];
    }
  }

  /** Revenue less commission is what the completed bookings paid their vendors, when every
      stored split adds up. */
  lemma DashboardNetIsVendorShare(vendors: seq<Vendor>, bookings: seq<Booking>, payouts: seq<Payout>)
    requires |bookings| <= 5000
    requires forall i :: 0 <= i < |bookings| ==>
      bookings[i].commissionAmount + bookings[i].vendorAmount == bookings[i].totalAmount
    ensures AdminDashboard(vendors, bookings, payouts).totalRevenue
          - AdminDashboard(vendors, bookings, payouts).totalCommission
         == Sum(bookings, CompletedVendorAmount)
  {
    assert Take(bookings, 5000) == bookings;
    SumFilter(bookings, IsCompleted, TotalOf, CompletedTotal);
    SumFilter(bookings, IsCompleted, CommissionOf, CompletedCommission);
    SumDifference(bookings, CompletedTotal, CompletedCommission, CompletedVendorAmount);
  }
}
