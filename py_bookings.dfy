/**
 * The booking routes of the Python back end (backend/routes/bookings.py): creating a
 * booking and changing its status. The principal is the caller's user id (`None` for a
 * guest on create).
 *
 * Lookups by id and a second field (`{'id': …, 'is_active': True}`) are modelled as the
 * row with the id followed by a check of the field. Ids are uuid4 values the server mints,
 * and with unique ids the two agree (CreateGuardFilters).
 */
module PyBookings {
  import opened Records
  import opened Tables
  import opened Ledger
  import opened Store
  import opened BookingFlow
  import opened PyUtils

  // ------------------------------------------------------------------
  // Slot bookkeeping
  // ------------------------------------------------------------------

  /** No slot is overbooked, and a slot still marked available has room left, so that
      `is_available` alone tells a customer the truth. */
  predicate SlotsConsistent(slots: seq<Row<TimeSlot>>)
  {
    && WithinCapacity(slots)
    && forall i :: 0 <= i < |slots| && slots[i].val.isAvailable ==> slots[i].val.bookedCount < slots[i].val.capacity
  }

  lemma PutKeepsSlotsConsistent(slots: seq<Row<TimeSlot>>, id: Id, s: TimeSlot)
    requires SlotsConsistent(slots)
    requires s.bookedCount <= s.capacity && (s.isAvailable ==> s.bookedCount < s.capacity)
    ensures SlotsConsistent(Put(slots, id, s))
  {
    var r := Put(slots, id, s);
    forall i | 0 <= i < |r| ensures r[i] == slots[i] || r[i] == Row(id, s) {
    }
  }

  /** Booking an available slot (`increment_slot_booking` after the availability check)
      keeps the slots consistent. */
  lemma IncrementKeepsSlotsConsistent(slots: seq<Row<TimeSlot>>, id: Id)
    requires SlotsConsistent(slots) && CheckSlotAvailability(slots, id)
    ensures SlotsConsistent(Put(slots, id, IncrementedSlot(Get(slots, id).value)))
  {
    var k := IndexOf(slots, id).value;
    assert slots[k].val == Get(slots, id).value;
    PutKeepsSlotsConsistent(slots, id, IncrementedSlot(Get(slots, id).value));
  }

  /** Releasing a slot (`decrement_slot_booking`) keeps them consistent too, since the
      count it lowers was at most the capacity. */
  lemma DecrementKeepsSlotsConsistent(slots: seq<Row<TimeSlot>>, id: Id)
    requires SlotsConsistent(slots) && Has(slots, id)
    ensures SlotsConsistent(Put(slots, id, DecrementedSlot(Get(slots, id).value)))
  {
    var k := IndexOf(slots, id).value;
    assert slots[k].val == Get(slots, id).value;
    PutKeepsSlotsConsistent(slots, id, DecrementedSlot(Get(slots, id).value));
  }

  // ------------------------------------------------------------------
  // create_booking (bookings.py:23-79)
  // ------------------------------------------------------------------

  /** `BookingCreate`; an empty `timeSlotId` is a missing one. */
  datatype CreateRequest = CreateRequest(
    vendorId: Id,
    packageId: Id,
    timeSlotId: Id,
    customerName: string,
    customerEmail: string,
    customerPhone: Option<string>,
    notes: Option<string>)

  /** bookings.py:31-51. Unlike the edge function, nothing ties the package to `vendor_id`. */
  function CreateGuard(req: CreateRequest, packages: seq<Row<Package>>, vendors: seq<Row<Vendor>>,
                       slots: seq<Row<TimeSlot>>): (g: Outcome<Package>)
    ensures g.Ok? <==>
      && Get(packages, req.packageId).Some? && Get(packages, req.packageId).value.isActive
      && Get(vendors, req.vendorId).Some? && Get(vendors, req.vendorId).value.isApproved
      && (req.timeSlotId != "" ==> CheckSlotAvailability(slots, req.timeSlotId))
    ensures g.Ok? ==> Get(packages, req.packageId) == Some(g.value)
    ensures (Get(packages, req.packageId).None? || !Get(packages, req.packageId).value.isActive)
      ==> g == Err(404, PackageNotFound)
    ensures g == Err(404, VendorNotApproved) <==>
              Get(packages, req.packageId).Some? && Get(packages, req.packageId).value.isActive
              && !(Get(vendors, req.vendorId).Some? && Get(vendors, req.vendorId).value.isApproved)
    ensures g == Err(400, SlotFull) <==>
              Get(packages, req.packageId).Some? && Get(packages, req.packageId).value.isActive
              && Get(vendors, req.vendorId).Some? && Get(vendors, req.vendorId).value.isApproved
              && req.timeSlotId != "" && !CheckSlotAvailability(slots, req.timeSlotId)
    ensures g.Err? ==> g in {Err(404, PackageNotFound), Err(404, VendorNotApproved), Err(400, SlotFull)}
  {
    match Get(packages, req.packageId) {
      case None => Err(404, PackageNotFound)
      case Some(pkg) =>
        if !pkg.isActive then Err(404, PackageNotFound)
        else if Get(vendors, req.vendorId).None? || !Get(vendors, req.vendorId).value.isApproved then
          Err(404, VendorNotApproved)
        else if req.timeSlotId != "" && !CheckSlotAvailability(slots, req.timeSlotId) then Err(400, SlotFull)
        else Ok(pkg)
    }
  }

  /** With unique ids, the two 404s are exactly the compound `find_one`s of bookings.py:32-43
      coming back empty. */
  lemma CreateGuardFilters(req: CreateRequest, packages: seq<Row<Package>>, vendors: seq<Row<Vendor>>,
                           slots: seq<Row<TimeSlot>>)
    requires UniqueIds(packages) && UniqueIds(vendors)
    ensures var g := CreateGuard(req, packages, vendors, slots);
      && (g == Err(404, PackageNotFound) <==> FindWhere(packages, req.packageId, ActivePackage).None?)
      && (g == Err(404, VendorNotApproved) <==>
            FindWhere(packages, req.packageId, ActivePackage).Some? && FindWhere(vendors, req.vendorId, ApprovedVendor).None?)
      && (g.Ok? ==> FindWhere(packages, req.packageId, ActivePackage) == Some(g.value))
  {
    FindWhereUnique(packages, req.packageId, ActivePackage);
    FindWhereUnique(vendors, req.vendorId, ApprovedVendor);
  }

  /** The `Booking` of bookings.py:58-71: pending and unpaid, priced with Python rounding. */
  function PyNewBooking(req: CreateRequest, caller: Option<Id>, price: Paise, rate: Rate): (b: Booking)
    ensures b.status == Pending && b.paymentStatus == Unpaid
    ensures b.totalAmount == price && b.commissionAmount == CommissionPy(price, rate)
    ensures b.commissionAmount + b.vendorAmount == b.totalAmount
    ensures b.customerId == caller && b.vendorId == req.vendorId && b.packageId == req.packageId
    ensures b.timeSlotId.None? <==> req.timeSlotId == ""
  {
    var split := SplitPy(price, rate);
    Booking(caller, req.vendorId, req.packageId,
            if req.timeSlotId == "" then None else Some(req.timeSlotId),
            req.customerName, req.customerEmail, req.customerPhone, req.notes,
            split.total, split.commission, split.vendor, Pending, Unpaid,
            None, None, None, None, None)
  }

  method CreateBooking(db: Db, req: CreateRequest, caller: Option<Id>, newId: Id) returns (resp: Outcome<Booking>)
    modifies db`bookings, db`slots
    ensures var g := CreateGuard(req, db.packages, db.vendors, old(db.slots));
      && (g.Err? ==> resp == Err(g.status, g.reason) && db.bookings == old(db.bookings) && db.slots == old(db.slots))
      && (g.Ok? ==>
            && resp == Ok(PyNewBooking(req, caller, g.value.price,
                                       CommissionRatePy(Get(db.vendors, req.vendorId), db.commissionSetting)))
            && db.bookings == old(db.bookings) + [Row(newId, resp.value)]
            && db.slots == (if req.timeSlotId == "" then old(db.slots)
                            else Put(old(db.slots), req.timeSlotId, IncrementedSlot(Get(old(db.slots), req.timeSlotId).value))))
    ensures SlotsConsistent(old(db.slots)) ==> SlotsConsistent(db.slots)
    ensures SplitsBalance(old(db.bookings)) ==> SplitsBalance(db.bookings)
  {
    var pkg := Get(db.packages, req.packageId);
    if pkg.None? || !pkg.value.isActive {
      return Err(404, PackageNotFound);
    }
    var vendor := Get(db.vendors, req.vendorId);
    if vendor.None? || !vendor.value.isApproved {
      return Err(404, VendorNotApproved);
    }
    if req.timeSlotId != "" && !CheckSlotAvailability(db.slots, req.timeSlotId) {
      return Err(400, SlotFull);
    }
    var rate := CommissionRatePy(vendor, db.commissionSetting);
    var booking := PyNewBooking(req, caller, pkg.value.price, rate);
    InsertBooking(db, Row(newId, booking), req.timeSlotId);
    resp := Ok(booking);
  }

  /** The insert and, when a slot was named, its increment (bookings.py:73-77). */
  method InsertBooking(db: Db, row: Row<Booking>, slotId: Id)
    requires slotId != "" ==> CheckSlotAvailability(db.slots, slotId)
    requires row.val.commissionAmount + row.val.vendorAmount == row.val.totalAmount
    modifies db`bookings, db`slots
    ensures db.bookings == old(db.bookings) + [row]
    ensures db.slots == (if slotId == "" then old(db.slots)
                         else Put(old(db.slots), slotId, IncrementedSlot(Get(old(db.slots), slotId).value)))
    ensures SlotsConsistent(old(db.slots)) ==> SlotsConsistent(db.slots)
    ensures SplitsBalance(old(db.bookings)) ==> SplitsBalance(db.bookings)
  {
    if SplitsBalance(db.bookings) {
      AppendKeepsSplitsBalance(db.bookings, row);
    }
    db.bookings := db.bookings + [row];
    if slotId != "" {
      if SlotsConsistent(db.slots) {
        IncrementKeepsSlotsConsistent(db.slots, slotId);
      }
      IncrementSlotBooking(db, slotId);
    }
  }

  // ------------------------------------------------------------------
  // update_booking_status (bookings.py:85-171)
  // ------------------------------------------------------------------

  /** `BookingUpdate`: each field None when left unset. */
  datatype StatusUpdate = StatusUpdate(
    status: Option<BookingStatus>,
    paymentStatus: Option<PaymentStatus>,
    vendorNotes: Option<string>,
    cancellationReason: Option<string>)

  /** `get_user_role`: the role on the caller's user document. */
  function UserRole(users: seq<Row<User>>, caller: Id): (r: Option<Role>)
    ensures r.Some? <==> Has(users, caller)
  {
    match Get(users, caller) {
      case None => None
      case Some(u) => Some(u.role)
    }
  }

  predicate IsVendorOf(vendors: seq<Row<Vendor>>, vendorId: Id, caller: Id)
  {
    Get(vendors, vendorId).Some? && Get(vendors, vendorId).value.userId == caller
  }

  /** `is_booking_participant`, on a booking that exists. */
  predicate IsParticipant(b: Booking, vendors: seq<Row<Vendor>>, caller: Id)
  {
    b.customerId == Some(caller) || IsVendorOf(vendors, b.vendorId, caller)
  }

  /** bookings.py:95-137: the booking, then participant-or-admin, then — only when a
      status is given — the customer and vendor transition rules. */
  function UpdateGuard(caller: Id, bookingId: Id, status: Option<BookingStatus>, bookings: seq<Row<Booking>>,
                       vendors: seq<Row<Vendor>>, users: seq<Row<User>>): (g: Outcome<Booking>)
    ensures !Has(bookings, bookingId) ==> g == Err(404, BookingNotFound)
    ensures g.Ok? <==>
      && Get(bookings, bookingId).Some?
      && var b := Get(bookings, bookingId).value;
         var isAdmin := UserRole(users, caller) == Some(AdminRole);
         && (IsParticipant(b, vendors, caller) || isAdmin)
         && (status.Some? ==> PyTransitionAllowed(b.status, status.value, b.customerId == Some(caller),
                                                  IsVendorOf(vendors, b.vendorId, caller), isAdmin))
    ensures g.Ok? ==> Get(bookings, bookingId) == Some(g.value)
    ensures g.Err? ==> g.status in {403, 404}
    ensures Get(bookings, bookingId).Some? && g.Err? ==> g.status == 403
    ensures g == Err(403, Forbidden) <==>
      && Get(bookings, bookingId).Some?
      && !IsParticipant(Get(bookings, bookingId).value, vendors, caller)
      && UserRole(users, caller) != Some(AdminRole)
  {
    match Get(bookings, bookingId) {
      case None => Err(404, BookingNotFound)
      case Some(b) =>
        var isAdmin := UserRole(users, caller) == Some(AdminRole);
        if !IsParticipant(b, vendors, caller) && !isAdmin then Err(403, Forbidden)
        else if status.Some? && !PyTransitionAllowed(b.status, status.value, b.customerId == Some(caller),
                                                     IsVendorOf(vendors, b.vendorId, caller), isAdmin)
        then Err(403, NotAuthorizedTransition)
        else Ok(b)
    }
  }

  /** The booking after the `$set` of `update_data` (bookings.py:140-168). */
  function PyUpdated(b: Booking, target: BookingStatus, u: StatusUpdate, now: Time): (r: Booking)
    ensures r.status == target
    ensures r.paymentStatus == (if u.paymentStatus.Some? then u.paymentStatus.value else b.paymentStatus)
    ensures r.vendorNotes == (if u.vendorNotes.Some? then u.vendorNotes else b.vendorNotes)
    ensures r.cancellationReason == (if u.cancellationReason.Some? then u.cancellationReason else b.cancellationReason)
    ensures r.confirmedAt == (if target == Confirmed then Some(now) else b.confirmedAt)
    ensures r.completedAt == (if target == Completed then Some(now) else b.completedAt)
    ensures r.cancelledAt == (if target == Cancelled then Some(now) else b.cancelledAt)
    ensures r.totalAmount == b.totalAmount && r.commissionAmount == b.commissionAmount && r.vendorAmount == b.vendorAmount
    ensures r.customerId == b.customerId && r.vendorId == b.vendorId && r.timeSlotId == b.timeSlotId
  {
    var r := b.(status := target,
                paymentStatus := if u.paymentStatus.Some? then u.paymentStatus.value else b.paymentStatus,
                vendorNotes := if u.vendorNotes.Some? then u.vendorNotes else b.vendorNotes,
                cancellationReason := if u.cancellationReason.Some? then u.cancellationReason else b.cancellationReason);
    match target
    case Confirmed => r.(confirmedAt := Some(now))
    case Completed => r.(completedAt := Some(now))
    case Cancelled => r.(cancelledAt := Some(now))
    case Pending => r
  }

  /** The writes of an accepted status change (bookings.py:140-168). */
  method ApplyStatusChange(db: Db, bookingId: Id, b: Booking, target: BookingStatus, u: StatusUpdate, now: Time)
    returns (resp: Outcome<Booking>)
    requires Get(db.bookings, bookingId) == Some(b)
    modifies db`bookings, db`wallets, db`txs, db`notifications, db`slots
    ensures target == Confirmed ==>
      && db.txs == old(db.txs) + [EarningsTx(b.vendorId, bookingId, b.totalAmount, b.commissionAmount, b.vendorAmount)]
      && db.slots == old(db.slots)
      && (!Has(db.vendors, b.vendorId) ==>
            resp == Err(500, VendorNotFound) && db.bookings == old(db.bookings) && db.notifications == old(db.notifications))
      && (Has(db.vendors, b.vendorId) ==>
            && resp == Ok(PyUpdated(b, Confirmed, u, now))
            && db.bookings == Put(old(db.bookings), bookingId, PyUpdated(b, Confirmed, u, now))
            && db.notifications == old(db.notifications) + BookingNotices(b, bookingId, b.vendorId, Get(db.vendors, b.vendorId).value))
    ensures target != Confirmed ==>
      && resp == Ok(PyUpdated(b, target, u, now))
      && db.bookings == Put(old(db.bookings), bookingId, PyUpdated(b, target, u, now))
      && db.txs == old(db.txs) && db.notifications == old(db.notifications) && db.wallets == old(db.wallets)
      && db.slots == (if target == Cancelled && b.timeSlotId.Some? && Has(old(db.slots), b.timeSlotId.value)
                      then Put(old(db.slots), b.timeSlotId.value, DecrementedSlot(Get(old(db.slots), b.timeSlotId.value).value))
                      else old(db.slots))
    ensures SplitsBalance(old(db.bookings)) ==> SplitsBalance(db.bookings)
    ensures SplitsBalance(old(db.bookings)) && WalletsBalanced(old(db.wallets)) ==> WalletsBalanced(db.wallets)
    ensures SlotsConsistent(old(db.slots)) ==> SlotsConsistent(db.slots)
  {
    if target == Confirmed {
      resp := ApplyConfirm(db, bookingId, b, u, now);
    } else {
      resp := ApplyOther(db, bookingId, b, target, u, now);
    }
  }

  /** A move to confirmed: the notices, which need the vendor row, and the booking, then the
      wallet credit and its transaction. bookings.py:143-155 credits first and then raises when
      the vendor row is missing; the writes touch different tables, so the result is the same:
      the credit happens either way, the notices and the booking only with a vendor row. */
  method ApplyConfirm(db: Db, bookingId: Id, b: Booking, u: StatusUpdate, now: Time) returns (resp: Outcome<Booking>)
    requires Get(db.bookings, bookingId) == Some(b)
    modifies db`bookings, db`wallets, db`txs, db`notifications
    ensures db.txs == old(db.txs) + [EarningsTx(b.vendorId, bookingId, b.totalAmount, b.commissionAmount, b.vendorAmount)]
    ensures !Has(db.vendors, b.vendorId) ==>
      resp == Err(500, VendorNotFound) && db.bookings == old(db.bookings) && db.notifications == old(db.notifications)
    ensures Has(db.vendors, b.vendorId) ==>
      && resp == Ok(PyUpdated(b, Confirmed, u, now))
      && db.bookings == Put(old(db.bookings), bookingId, PyUpdated(b, Confirmed, u, now))
      && db.notifications == old(db.notifications) + BookingNotices(b, bookingId, b.vendorId, Get(db.vendors, b.vendorId).value)
    ensures SplitsBalance(old(db.bookings)) ==> SplitsBalance(db.bookings)
    ensures SplitsBalance(old(db.bookings)) && WalletsBalanced(old(db.wallets)) ==> WalletsBalanced(db.wallets)
  {
    if SplitsBalance(db.bookings) {
      StoredSplitBalances(db.bookings, bookingId);
    }
    resp := ConfirmWrites(db, bookingId, b, u, now);
    UpdateWalletOnBooking(db, b.vendorId, bookingId, b.totalAmount, b.commissionAmount, b.vendorAmount);
  }

  /** The notices and the booking of a confirmation, written only when the vendor row exists. */
  method ConfirmWrites(db: Db, bookingId: Id, b: Booking, u: StatusUpdate, now: Time) returns (resp: Outcome<Booking>)
    requires Get(db.bookings, bookingId) == Some(b)
    modifies db`bookings, db`notifications
    ensures !Has(db.vendors, b.vendorId) ==>
      resp == Err(500, VendorNotFound) && db.bookings == old(db.bookings) && db.notifications == old(db.notifications)
    ensures Has(db.vendors, b.vendorId) ==>
      && resp == Ok(PyUpdated(b, Confirmed, u, now))
      && db.bookings == Put(old(db.bookings), bookingId, PyUpdated(b, Confirmed, u, now))
      && db.notifications == old(db.notifications) + BookingNotices(b, bookingId, b.vendorId, Get(db.vendors, b.vendorId).value)
    ensures SplitsBalance(old(db.bookings)) ==> SplitsBalance(db.bookings)
  {
    var vendor := Get(db.vendors, b.vendorId);
    if vendor.None? {
      return Err(500, VendorNotFound);
    }
    db.notifications := db.notifications + BookingNotices(b, bookingId, b.vendorId, vendor.value);
    var nb := PyUpdated(b, Confirmed, u, now);
    WriteBooking(db, bookingId, b, nb);
    resp := Ok(nb);
  }

  /** Any other move: a cancellation releases the slot, then the booking is written. */
  method ApplyOther(db: Db, bookingId: Id, b: Booking, target: BookingStatus, u: StatusUpdate, now: Time)
    returns (resp: Outcome<Booking>)
    requires Get(db.bookings, bookingId) == Some(b) && target != Confirmed
    modifies db`bookings, db`slots
    ensures resp == Ok(PyUpdated(b, target, u, now))
    ensures db.bookings == Put(old(db.bookings), bookingId, PyUpdated(b, target, u, now))
    ensures db.slots == (if target == Cancelled && b.timeSlotId.Some? && Has(old(db.slots), b.timeSlotId.value)
                         then Put(old(db.slots), b.timeSlotId.value, DecrementedSlot(Get(old(db.slots), b.timeSlotId.value).value))
                         else old(db.slots))
    ensures SplitsBalance(old(db.bookings)) ==> SplitsBalance(db.bookings)
    ensures SlotsConsistent(old(db.slots)) ==> SlotsConsistent(db.slots)
  {
    if target == Cancelled {
      ReleaseSlot(db, b);
    }
    var nb := PyUpdated(b, target, u, now);
    WriteBooking(db, bookingId, b, nb);
    resp := Ok(nb);
  }

  /** What a cancellation writes besides the booking: its slot, if any, is released. */
  method ReleaseSlot(db: Db, b: Booking)
    modifies db`slots
    ensures db.slots == (if b.timeSlotId.Some? && Has(old(db.slots), b.timeSlotId.value)
                         then Put(old(db.slots), b.timeSlotId.value, DecrementedSlot(Get(old(db.slots), b.timeSlotId.value).value))
                         else old(db.slots))
    ensures SlotsConsistent(old(db.slots)) ==> SlotsConsistent(db.slots)
  {
    if b.timeSlotId.Some? {
      if SlotsConsistent(db.slots) && Has(db.slots, b.timeSlotId.value) {
        DecrementKeepsSlotsConsistent(db.slots, b.timeSlotId.value);
      }
      DecrementSlotBooking(db, b.timeSlotId.value);
    }
  }

  /** The route. Without a status nothing is written, whatever else the body holds. A move to
      confirmed credits the wallet every time (there is no once-per-booking guard) and then
      notifies; when the vendor row is missing the notification step fails with a 500 after
      the credit, and the booking itself is left unchanged. A move to cancelled releases the
      booking's slot. */
  method UpdateBookingStatus(db: Db, caller: Id, bookingId: Id, u: StatusUpdate, now: Time)
    returns (resp: Outcome<Booking>)
    modifies db`bookings, db`wallets, db`txs, db`notifications, db`slots
    ensures var g := UpdateGuard(caller, bookingId, u.status, old(db.bookings), db.vendors, db.users);
      && (g.Err? || u.status.None? ==>
            && db.bookings == old(db.bookings) && db.wallets == old(db.wallets) && db.txs == old(db.txs)
            && db.notifications == old(db.notifications) && db.slots == old(db.slots)
            && resp == (if g.Err? then Err(g.status, g.reason) else Ok(g.value)))
      && (g.Ok? && u.status.Some? ==>
            var b := g.value;
            var target := u.status.value;
            && (target == Confirmed ==>
                  && db.txs == old(db.txs) + [EarningsTx(b.vendorId, bookingId, b.totalAmount, b.commissionAmount, b.vendorAmount)]
                  && db.slots == old(db.slots)
                  && (!Has(db.vendors, b.vendorId) ==>
                        resp == Err(500, VendorNotFound) && db.bookings == old(db.bookings)
                        && db.notifications == old(db.notifications))
                  && (Has(db.vendors, b.vendorId) ==>
                        && resp == Ok(PyUpdated(b, Confirmed, u, now))
                        && db.bookings == Put(old(db.bookings), bookingId, PyUpdated(b, Confirmed, u, now))
                        && db.notifications == old(db.notifications) + BookingNotices(b, bookingId, b.vendorId, Get(db.vendors, b.vendorId).value)))
            && (target != Confirmed ==>
                  && resp == Ok(PyUpdated(b, target, u, now))
                  && db.bookings == Put(old(db.bookings), bookingId, PyUpdated(b, target, u, now))
                  && db.txs == old(db.txs) && db.notifications == old(db.notifications) && db.wallets == old(db.wallets)
                  && db.slots == (if target == Cancelled && b.timeSlotId.Some? && Has(old(db.slots), b.timeSlotId.value)
                                  then Put(old(db.slots), b.timeSlotId.value, DecrementedSlot(Get(old(db.slots), b.timeSlotId.value).value))
                                  else old(db.slots))))
    ensures SplitsBalance(old(db.bookings)) ==> SplitsBalance(db.bookings)
    ensures SplitsBalance(old(db.bookings)) && WalletsBalanced(old(db.wallets)) ==> WalletsBalanced(db.wallets)
    ensures SlotsConsistent(old(db.slots)) ==> SlotsConsistent(db.slots)
  {
    var g := UpdateGuard(caller, bookingId, u.status, db.bookings, db.vendors, db.users);
    if g.Err? {
      return Err(g.status, g.reason);
    }
    if u.status.None? {
      return Ok(g.value);
    }
    resp := ApplyStatusChange(db, bookingId, g.value, u.status.value, u, now);
  }
}
