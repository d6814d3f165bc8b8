/**
 * The vendor routes of the Python back end (backend/routes/vendors.py): registration, the
 * profile update, the vendor dashboard and the public vendor views. The caller and, for
 * the vendor routes, the caller's vendor id come from the authentication layer as inputs.
 * The `location` regex of the browse query and its paging are not modelled.
 */
module PyVendors {
  import opened Records
  import opened Tables
  import opened Aggregates
  import opened Store
  import opened Earnings
  import PyAdmin
  import ManageReviews

  /** No user owns two vendor profiles. */
  predicate OneVendorPerUser(vendors: seq<Row<Vendor>>)
  {
    forall i, j :: 0 <= i < j < |vendors| ==> vendors[i].val.userId != vendors[j].val.userId
  }

  predicate HasProfile(vendors: seq<Row<Vendor>>, userId: Id)
  {
    exists i :: 0 <= i < |vendors| && vendors[i].val.userId == userId
  }

  // ------------------------------------------------------------------
  // register_vendor (vendors.py:23-58)
  // ------------------------------------------------------------------

  /** A second profile for the same user is refused; otherwise the new vendor is pending and
      unapproved, and the user's role becomes vendor. */
  method RegisterVendor(db: Db, caller: Id, companyName: string, newId: Id) returns (resp: Outcome<Vendor>)
    modifies db`vendors, db`users
    ensures HasProfile(old(db.vendors), caller) ==>
      resp == Err(400, ProfileExists) && db.vendors == old(db.vendors) && db.users == old(db.users)
    ensures !HasProfile(old(db.vendors), caller) ==>
      && resp == Ok(NewVendor(caller, companyName))
      && db.vendors == old(db.vendors) + [Row(newId, resp.value)]
      && db.users == (if Has(old(db.users), caller)
                      then Put(old(db.users), caller, Get(old(db.users), caller).value.(role := VendorRole))
                      else old(db.users))
    ensures resp.Ok? && Has(old(db.users), caller) ==> Get(db.users, caller) == Some(User(VendorRole))
    ensures OneVendorPerUser(old(db.vendors)) ==> OneVendorPerUser(db.vendors)
    ensures PyAdmin.FlagsAgree(old(db.vendors)) ==> PyAdmin.FlagsAgree(db.vendors)
  {
    if exists i :: 0 <= i < |db.vendors| && db.vendors[i].val.userId == caller {
      return Err(400, ProfileExists);
    }
    var vendor := NewVendor(caller, companyName);
    var row := Row(newId, vendor);
    AppendKeepsVendorInvariants(db.vendors, row);
    db.vendors := db.vendors + [row];
    PromoteToVendor(db, caller);
    resp := Ok(vendor);
  }

  /** A profile for a user without one, with its flag matching its status, keeps both vendor invariants. */
  lemma AppendKeepsVendorInvariants(vendors: seq<Row<Vendor>>, row: Row<Vendor>)
    requires !HasProfile(vendors, row.val.userId)
    requires row.val.isApproved <==> row.val.status == VendorApproved
    ensures OneVendorPerUser(vendors) ==> OneVendorPerUser(vendors + [row])
    ensures PyAdmin.FlagsAgree(vendors) ==> PyAdmin.FlagsAgree(vendors + [row])
  {
    var r := vendors + [row];
    assert forall i :: 0 <= i < |vendors| ==> r[i] == vendors[i];
  }

  /** The `$set` of the user's role, when the user exists. */
  method PromoteToVendor(db: Db, userId: Id)
    modifies db`users
    ensures db.users == (if Has(old(db.users), userId)
                         then Put(old(db.users), userId, Get(old(db.users), userId).value.(role := VendorRole))
                         else old(db.users))
  {
    var user := Get(db.users, userId);
    if user.Some? {
      db.users := Put(db.users, userId, user.value.(role := VendorRole));
    }
  }

  /** Registration succeeds at most once per user. */
  lemma RegisterOnce(vendors: seq<Row<Vendor>>, caller: Id, companyName: string, newId: Id)
    ensures HasProfile(vendors + [Row(newId, NewVendor(caller, companyName))], caller)
  {
    assert (vendors + [Row(newId, NewVendor(caller, companyName))])[|vendors|].val.userId == caller;
  }

  /** `update_vendor_profile`: only descriptive fields; status, approval and commission rate
      cannot be changed here. */
  method UpdateVendorProfile(db: Db, vendorId: Id, companyName: Option<string>) returns (resp: Option<Vendor>)
    modifies db`vendors
    ensures db.vendors == (if Has(old(db.vendors), vendorId) && companyName.Some?
                           then Put(old(db.vendors), vendorId, Get(old(db.vendors), vendorId).value.(companyName := companyName.value))
                           else old(db.vendors))
    ensures resp == Get(db.vendors, vendorId)
    ensures resp.Some? ==>
      && resp.value.status == Get(old(db.vendors), vendorId).value.status
      && resp.value.isApproved == Get(old(db.vendors), vendorId).value.isApproved
      && resp.value.commissionRate == Get(old(db.vendors), vendorId).value.commissionRate
  {
    var vendor := Get(db.vendors, vendorId);
    if vendor.Some? && companyName.Some? {
      db.vendors := Put(db.vendors, vendorId, vendor.value.(companyName := companyName.value));
    }
    resp := Get(db.vendors, vendorId);
  }

  // ------------------------------------------------------------------
  // get_vendor_dashboard (vendors.py:84-126)
  // ------------------------------------------------------------------

  datatype VendorDashboard = VendorDashboard(
    totalBookings: nat,
    pendingBookings: nat,
    confirmedBookings: nat,
    completedBookings: nat,
    totalRevenue: Paise,
    walletBalance: Paise,
    pendingPayouts: Paise,
    rating: RatingSummary)

  predicate IsPending(b: Booking) { b.status == Pending }
  predicate IsConfirmed(b: Booking) { b.status == Confirmed }
  function VendorAmountOf(b: Booking): Paise { b.vendorAmount }

  /** The bookings the dashboard query matches, before its `to_list(1000)`. */
  function BookingsOfVendor(bookings: seq<Booking>, vendorId: Id): (r: seq<Booking>)
    ensures forall i :: 0 <= i < |r| ==> r[i] in bookings && r[i].vendorId == vendorId
    ensures forall i :: 0 <= i < |bookings| && bookings[i].vendorId == vendorId ==> bookings[i] in r
  {
    Filter(bookings, (b: Booking) => b.vendorId == vendorId)
  }

  /** The vendor's bookings as the query reads them: at most 1000, and all of them when the
      vendor has no more. */
  function DashboardBookings(bookings: seq<Booking>, vendorId: Id): (r: seq<Booking>)
    ensures |r| <= 1000
    ensures forall i :: 0 <= i < |r| ==> r[i] in bookings && r[i].vendorId == vendorId
    ensures |BookingsOfVendor(bookings, vendorId)| <= 1000 ==>
      forall i :: 0 <= i < |bookings| && bookings[i].vendorId == vendorId ==> bookings[i] in r
  {
    var mine := BookingsOfVendor(bookings, vendorId);
    var r := Take(mine, 1000);
    assert forall i :: 0 <= i < |r| ==> r[i] == mine[i];
    assert |mine| <= 1000 ==> r == mine;
    r
  }

  /** The pending payouts query of vendors.py:105-108, before its `to_list(100)`. */
  function PendingPayoutsOf(payouts: seq<Payout>, vendorId: Id): (r: seq<Payout>)
    ensures forall i :: 0 <= i < |r| ==> r[i] in payouts && r[i].vendorId == vendorId && r[i].status == PayoutPending
    ensures forall i :: 0 <= i < |payouts| && payouts[i].vendorId == vendorId && payouts[i].status == PayoutPending ==>
              payouts[i] in r
  {
    Filter(payouts, (p: Payout) => p.vendorId == vendorId && p.status == PayoutPending)
  }

  function VendorDashboardOf(bookings: seq<Booking>, wallets: seq<Row<Wallet>>, payouts: seq<Payout>,
                             ratings: seq<Row<RatingSummary>>, vendorId: Id): (d: VendorDashboard)
    ensures d.totalBookings <= 1000
    ensures |PendingPayoutsOf(payouts, vendorId)| <= 100 ==>
              d.pendingPayouts == Sum(PendingPayoutsOf(payouts, vendorId), PayoutAmount)
    ensures !Has(wallets, vendorId) ==> d.walletBalance == 0
    ensures Has(wallets, vendorId) ==> d.walletBalance == Get(wallets, vendorId).value.balance
    ensures !Has(ratings, vendorId) ==> d.rating == RatingSummary(0, 0)
  {
    var bs := DashboardBookings(bookings, vendorId);
    var done := Filter(bs, IsCompleted);
    var pending := PendingPayoutsOf(payouts, vendorId);
    var waiting := Take(pending, 100);
    assert |pending| <= 100 ==> waiting == pending;
    VendorDashboard(
      |bs|, Count(bs, IsPending), Count(bs, IsConfirmed), |done|,
      Sum(done, VendorAmountOf),
      if Has(wallets, vendorId) then Get(wallets, vendorId).value.balance else 0,
      Sum(waiting, PayoutAmount),
      ManageReviews.SummaryOrZero(ratings, vendorId))
  }

  /** Three pairwise exclusive tests count at most every element once. */
  lemma {:induction false} CountThree<T>(s: seq<T>, p: T -> bool, q: T -> bool, r: T -> bool)
    requires forall i :: 0 <= i < |s| ==> (p(s[i]) ==> !q(s[i]) && !r(s[i])) && (q(s[i]) ==> !r(s[i]))
    ensures Count(s, p) + Count(s, q) + Count(s, r) <= |s|
  {
    if |s| > 0 {
      var init := s[..|s| - 1];
      CountThree(init, p, q, r);
      CountStep(s, |s| - 1, p);
      CountStep(s, |s| - 1, q);
      CountStep(s, |s| - 1, r);
      assert s[..|s|] == s;
    }
  }

  /** The three status counts never exceed the bookings read. */
  lemma DashboardCountsBounded(bookings: seq<Booking>, wallets: seq<Row<Wallet>>, payouts: seq<Payout>,
                               ratings: seq<Row<RatingSummary>>, vendorId: Id)
    ensures var d := VendorDashboardOf(bookings, wallets, payouts, ratings, vendorId);
      d.pendingBookings + d.confirmedBookings + d.completedBookings <= d.totalBookings
  {
    var bs := DashboardBookings(bookings, vendorId);
    CountThree(bs, IsPending, IsConfirmed, IsCompleted);
  }

  /** The dashboard's revenue is the vendor share of its completed bookings; when every
      split adds up it equals the `totalEarnings` of the edge-side `calculateVendorEarnings`
      over the same bookings. */
  lemma DashboardRevenueIsEarnings(bookings: seq<Booking>, wallets: seq<Row<Wallet>>, payouts: seq<Payout>,
                                   ratings: seq<Row<RatingSummary>>, vendorId: Id)
    ensures var bs := DashboardBookings(bookings, vendorId);
      VendorDashboardOf(bookings, wallets, payouts, ratings, vendorId).totalRevenue == Sum(bs, CompletedVendorAmount)
    ensures var bs := DashboardBookings(bookings, vendorId);
      (forall i :: 0 <= i < |bs| ==> bs[i].commissionAmount + bs[i].vendorAmount == bs[i].totalAmount) ==>
        VendorDashboardOf(bookings, wallets, payouts, ratings, vendorId).totalRevenue
          == CalculateVendorEarnings(bs).totalEarnings
  {
    var bs := DashboardBookings(bookings, vendorId);
    SumFilter(bs, IsCompleted, VendorAmountOf, CompletedVendorAmount);
    if forall i :: 0 <= i < |bs| ==> bs[i].commissionAmount + bs[i].vendorAmount == bs[i].totalAmount {
      EarningsAreVendorAmounts(bs);
    }
  }

  // ------------------------------------------------------------------
  // Public vendor views (vendors.py:132-162)
  // ------------------------------------------------------------------

  predicate PubliclyListed(v: Vendor)
  {
    v.isApproved && v.status == VendorApproved
  }

  function BrowseVendors(vendors: seq<Row<Vendor>>): (r: seq<Row<Vendor>>)
    ensures forall i :: 0 <= i < |r| ==> r[i] in vendors && PubliclyListed(r[i].val)
    ensures forall i :: 0 <= i < |vendors| && PubliclyListed(vendors[i].val) ==> vendors[i] in r
  {
    Filter(vendors, (v: Row<Vendor>) => PubliclyListed(v.val))
  }

  function VendorDetails(vendors: seq<Row<Vendor>>, vendorId: Id): (r: Outcome<Vendor>)
    ensures r.Ok? <==> Has(vendors, vendorId) && PubliclyListed(Get(vendors, vendorId).value)
    ensures r.Ok? ==> Get(vendors, vendorId) == Some(r.value)
    ensures r.Err? ==> r == Err(404, VendorNotFound)
  {
    match Get(vendors, vendorId) {
      case None => Err(404, VendorNotFound)
      case Some(v) => if PubliclyListed(v) then Ok(v) else Err(404, VendorNotFound)
    }
  }

  /** With unique ids, the answer is the three-field `find_one` of vendors.py:153-157. */
  lemma VendorDetailsFilter(vendors: seq<Row<Vendor>>, vendorId: Id)
    requires UniqueIds(vendors)
    ensures VendorDetails(vendors, vendorId).Ok? <==> FindWhere(vendors, vendorId, PubliclyListed).Some?
    ensures VendorDetails(vendors, vendorId).Ok? ==> FindWhere(vendors, vendorId, PubliclyListed) == Some(VendorDetails(vendors, vendorId).value)
  {
    FindWhereUnique(vendors, vendorId, PubliclyListed);
  }

  /** While approval flags agree with statuses, the public views list exactly the approved
      vendors, so a suspension (which clears the flag) hides the vendor. */
  lemma PublicViewsShowApproved(vendors: seq<Row<Vendor>>, i: nat)
    requires PyAdmin.FlagsAgree(vendors) && i < |vendors|
    ensures vendors[i] in BrowseVendors(vendors) <==> vendors[i].val.isApproved
  {
  }
}
