/**
 * The create-booking edge function (supabase/functions/create-booking/index.ts):
 * a chain of early-return guards, then the insert of the booking with its price
 * snapshot and commission split, then the `increment_booked_count` RPC on the slot.
 *
 * The function writes the booking's status into the legacy `status` column; the
 * model's single status field stands for it and for `booking_status`.
 */
module CreateBooking {
  import opened Records
  import opened Tables
  import opened Ledger
  import opened Store

  /** The request body; an empty id or string is a missing (falsy) value. */
  datatype Request = Request(
    packageId: Id,
    vendorId: Id,
    timeSlotId: Id,
    customerName: string,
    customerEmail: string,
    customerPhone: string,
    notes: string,
    isManualBooking: bool)

  function NonEmpty(s: string): (r: Option<string>)
    ensures r.None? <==> s == ""
  {
    if s == "" then None else Some(s)
  }

  predicate MissingRequired(req: Request)
  {
    req.packageId == "" || req.vendorId == "" || req.customerName == "" || req.customerEmail == ""
  }

  predicate SlotBookable(s: TimeSlot)
  {
    s.isAvailable && s.bookedCount < s.capacity
  }

  /** Everything the guards demand, in no particular order. */
  predicate Admissible(req: Request, caller: Option<Id>, isAdmin: bool,
                       packages: seq<Row<Package>>, vendors: seq<Row<Vendor>>, slots: seq<Row<TimeSlot>>)
  {
    && !MissingRequired(req)
    && (req.isManualBooking ==> caller.Some? && isAdmin)
    && Get(packages, req.packageId).Some?
    && Get(packages, req.packageId).value.isActive
    && Get(packages, req.packageId).value.vendorId == req.vendorId
    && Get(vendors, req.vendorId).Some? && Get(vendors, req.vendorId).value.isApproved
    && (req.timeSlotId != "" ==>
          Get(slots, req.timeSlotId).Some? && SlotBookable(Get(slots, req.timeSlotId).value))
  }

  /** The stages of the guard chain, each one assuming the ones before it passed. */
  predicate PassesAuth(req: Request, caller: Option<Id>, isAdmin: bool)
  {
    !MissingRequired(req) && (req.isManualBooking ==> caller.Some? && isAdmin)
  }

  predicate PackageFits(req: Request, packages: seq<Row<Package>>)
  {
    Get(packages, req.packageId).Some? && Get(packages, req.packageId).value.isActive
    && Get(packages, req.packageId).value.vendorId == req.vendorId
  }

  predicate VendorOk(req: Request, vendors: seq<Row<Vendor>>)
  {
    Get(vendors, req.vendorId).Some? && Get(vendors, req.vendorId).value.isApproved
  }

  /** The guard chain of index.ts:42-120; the first failing check decides the response.
      `isAdmin` is the answer of the `is_admin` RPC for the caller. */
  function Guard(req: Request, caller: Option<Id>, isAdmin: bool,
                 packages: seq<Row<Package>>, vendors: seq<Row<Vendor>>, slots: seq<Row<TimeSlot>>): (g: Outcome<Package>)
    ensures g.Ok? <==> Admissible(req, caller, isAdmin, packages, vendors, slots)
    ensures g.Ok? ==> Get(packages, req.packageId) == Some(g.value)
    ensures MissingRequired(req) ==> g == Err(400, MissingFields)
    ensures !MissingRequired(req) && req.isManualBooking ==>
      (caller.None? ==> g == Err(401, AuthRequired)) && (caller.Some? && !isAdmin ==> g == Err(403, AdminRequired))
    ensures g == Err(404, PackageNotFound) <==> PassesAuth(req, caller, isAdmin) && !Has(packages, req.packageId)
    ensures PassesAuth(req, caller, isAdmin) && Get(packages, req.packageId).Some? ==>
      && (!Get(packages, req.packageId).value.isActive ==> g == Err(400, PackageInactive))
      && (Get(packages, req.packageId).value.isActive && Get(packages, req.packageId).value.vendorId != req.vendorId ==>
            g == Err(400, VendorMismatch))
    ensures PassesAuth(req, caller, isAdmin) && PackageFits(req, packages) && !VendorOk(req, vendors) ==>
      g == Err(400, VendorNotApproved)
    ensures PassesAuth(req, caller, isAdmin) && PackageFits(req, packages) && VendorOk(req, vendors) && req.timeSlotId != "" ==>
      && (!Has(slots, req.timeSlotId) ==> g == Err(404, SlotNotFound))
      && (Has(slots, req.timeSlotId) && !SlotBookable(Get(slots, req.timeSlotId).value) ==> g == Err(400, SlotFull))
    ensures g == Err(404, SlotNotFound) ==>
      PassesAuth(req, caller, isAdmin) && PackageFits(req, packages) && VendorOk(req, vendors) && !Has(slots, req.timeSlotId)
    ensures g == Err(400, SlotFull) ==>
      PassesAuth(req, caller, isAdmin) && PackageFits(req, packages) && VendorOk(req, vendors)
      && Get(slots, req.timeSlotId).Some? && !SlotBookable(Get(slots, req.timeSlotId).value)
    ensures g.Err? ==> g.status in {400, 401, 403, 404}
  {
    if MissingRequired(req) then Err(400, MissingFields)
    else if req.isManualBooking && caller.None? then Err(401, AuthRequired)
    else if req.isManualBooking && !isAdmin then Err(403, AdminRequired)
    else match Get(packages, req.packageId) {
      case None => Err(404, PackageNotFound)
      case Some(pkg) =>
        if !pkg.isActive then Err(400, PackageInactive)
        else if pkg.vendorId != req.vendorId then Err(400, VendorMismatch)
        else if Get(vendors, req.vendorId).None? || !Get(vendors, req.vendorId).value.isApproved then
          Err(400, VendorNotApproved)
        else if req.timeSlotId == "" then Ok(pkg)
        else match Get(slots, req.timeSlotId) {
          case None => Err(404, SlotNotFound)
          case Some(slot) => if !SlotBookable(slot) then Err(400, SlotFull) else Ok(pkg)
        }
    }
  }

  /** The commission-settings read of index.ts:123-127. */
  function SettingsQuery(setting: Option<CommissionSetting>): RateQuery
  {
    if setting.None? then NoSettingsRow else SettingsRow(setting.value.rate)
  }

  /** The inserted row (index.ts:137-151). */
  function NewBooking(req: Request, caller: Option<Id>, price: Paise, rate: Rate): (b: Booking)
    ensures b.totalAmount == price
    ensures b.commissionAmount == CommissionJs(price, rate)
    ensures b.commissionAmount + b.vendorAmount == b.totalAmount
    ensures req.isManualBooking ==> b.status == Confirmed && b.paymentStatus == Paid
    ensures !req.isManualBooking ==> b.status == Pending && b.paymentStatus == Unpaid
    ensures b.customerId == caller
    ensures b.timeSlotId.None? <==> req.timeSlotId == ""
    ensures b.vendorId == req.vendorId && b.packageId == req.packageId
  {
    var split := SplitJs(price, rate);
    Booking(
      caller, req.vendorId, req.packageId,
      if req.timeSlotId == "" then None else Some(req.timeSlotId),
      req.customerName, req.customerEmail, NonEmpty(req.customerPhone), NonEmpty(req.notes),
      split.total, split.commission, split.vendor,
      if req.isManualBooking then Confirmed else Pending,
      if req.isManualBooking then Paid else Unpaid,
      None, None, None, None, None)
  }

  /** The `increment_booked_count` RPC, taken to add exactly 1 to the slot's count. */
  function IncrementBookedCount(slots: seq<Row<TimeSlot>>, id: Id): (r: seq<Row<TimeSlot>>)
    ensures forall other :: other != id ==> Get(r, other) == Get(slots, other)
    ensures Get(slots, id).Some? ==>
      Get(r, id) == Some(Get(slots, id).value.(bookedCount := Get(slots, id).value.bookedCount + 1))
    ensures !Has(slots, id) ==> r == slots
  {
    match Get(slots, id) {
      case None => slots
      case Some(s) =>
        var s' := s.(bookedCount := s.bookedCount + 1);
        PutOthers(slots, id, s');
        Put(slots, id, s')
    }
  }

  /** The guard chain as the function runs it, one early return after another; it reads
      the tables and changes nothing. */
  method CheckRequest(db: Db, req: Request, caller: Option<Id>, isAdmin: bool) returns (g: Outcome<Package>)
    ensures g == Guard(req, caller, isAdmin, db.packages, db.vendors, db.slots)
  {
    if MissingRequired(req) {
      return Err(400, MissingFields);
    }
    if req.isManualBooking {
      if caller.None? {
        return Err(401, AuthRequired);
      }
      if !isAdmin {
        return Err(403, AdminRequired);
      }
    }
    var pkg := Get(db.packages, req.packageId);
    if pkg.None? {
      return Err(404, PackageNotFound);
    }
    if !pkg.value.isActive {
      return Err(400, PackageInactive);
    }
    if pkg.value.vendorId != req.vendorId {
      return Err(400, VendorMismatch);
    }
    var vendor := Get(db.vendors, req.vendorId);
    if vendor.None? || !vendor.value.isApproved {
      return Err(400, VendorNotApproved);
    }
    if req.timeSlotId != "" {
      var slot := Get(db.slots, req.timeSlotId);
      if slot.None? {
        return Err(404, SlotNotFound);
      }
      if !slot.value.isAvailable || slot.value.bookedCount >= slot.value.capacity {
        return Err(400, SlotFull);
      }
    }
    return Ok(pkg.value);
  }

  /** The whole handler. On rejection nothing changes; on success one booking is appended
      and, when a slot was named, only that slot's count rises by one. Admission keeps every
      slot within its capacity and every booking's split balanced. */
  method CreateBookingHandler(db: Db, req: Request, caller: Option<Id>, isAdmin: bool, newId: Id)
    returns (resp: Outcome<Booking>)
    modifies db`bookings, db`slots
    ensures var g := Guard(req, caller, isAdmin, db.packages, db.vendors, old(db.slots));
      && (g.Err? ==> resp == Err(g.status, g.reason)
                     && db.bookings == old(db.bookings) && db.slots == old(db.slots))
      && (g.Ok? ==> resp == Ok(NewBooking(req, caller, g.value.price, RateOrDefault(SettingsQuery(db.commissionSetting))))
                    && db.bookings == old(db.bookings) + [Row(newId, resp.value)]
                    && db.slots == (if req.timeSlotId == "" then old(db.slots)
                                   else IncrementBookedCount(old(db.slots), req.timeSlotId)))
    ensures WithinCapacity(old(db.slots)) ==> WithinCapacity(db.slots)
    ensures SplitsBalance(old(db.bookings)) ==> SplitsBalance(db.bookings)
  {
    var g := CheckRequest(db, req, caller, isAdmin);
    if g.Err? {
      return Err(g.status, g.reason);
    }
    var rate := RateOrDefault(SettingsQuery(db.commissionSetting));
    var booking := NewBooking(req, caller, g.value.price, rate);
    AppendBooking(db, Row(newId, booking));
    if req.timeSlotId != "" {
      TakeSeat(db, req.timeSlotId);
    }
    resp := Ok(booking);
  }

  /** The insert into `bookings`. */
  method AppendBooking(db: Db, row: Row<Booking>)
    requires row.val.commissionAmount + row.val.vendorAmount == row.val.totalAmount
    modifies db`bookings
    ensures db.bookings == old(db.bookings) + [row]
    ensures SplitsBalance(old(db.bookings)) ==> SplitsBalance(db.bookings)
  {
    if SplitsBalance(db.bookings) {
      AppendKeepsSplitsBalance(db.bookings, row);
    }
    db.bookings := db.bookings + [row];
  }

  /** The `increment_booked_count` call for a slot that still has room. */
  method TakeSeat(db: Db, id: Id)
    requires Has(db.slots, id) && Get(db.slots, id).value.bookedCount < Get(db.slots, id).value.capacity
    modifies db`slots
    ensures db.slots == IncrementBookedCount(old(db.slots), id)
    ensures WithinCapacity(old(db.slots)) ==> WithinCapacity(db.slots)
  {
    var s := Get(db.slots, id).value;
    if WithinCapacity(db.slots) {
      PutKeepsWithinCapacity(db.slots, id, s.(bookedCount := s.bookedCount + 1));
    }
    db.slots := IncrementBookedCount(db.slots, id);
  }
}
