/**
 * The update-booking-status edge function (supabase/functions/update-booking-status/index.ts):
 * authentication, request validation, the authorization gate of BookingFlow.EdgeAuthorized,
 * the update payload built field by field, and the notifications it inserts.
 *
 * The function reads and writes `booking_status`; the model's single status field stands for it.
 */
module UpdateBookingStatus {
  import opened Records
  import opened Tables
  import opened BookingFlow
  import opened Store

  /** The request body; an empty string is a missing (falsy) value. */
  datatype Request = Request(bookingId: Id, newStatus: string, cancellationReason: string, vendorNotes: string)

  datatype Response = Response(booking: Booking, notificationsCount: nat)

  /** index.ts:27-118 up to the authorization decision. `isVendor` and `isAdmin` are the
      answers of the `is_vendor_owner` and `is_admin` RPCs. */
  function Guard(caller: Option<Id>, req: Request, isVendor: bool, isAdmin: bool,
                 bookings: seq<Row<Booking>>): (g: Outcome<Booking>)
    ensures caller.None? ==> g == Err(401, AuthRequired)
    ensures caller.Some? && (req.bookingId == "" || req.newStatus == "") ==> g == Err(400, MissingFields)
    ensures caller.Some? && req.bookingId != "" && req.newStatus != "" && ParseStatus(req.newStatus).None?
      ==> g == Err(400, InvalidStatus)
    ensures g == Err(404, BookingNotFound) <==>
              caller.Some? && req.bookingId != "" && ParseStatus(req.newStatus).Some? && !Has(bookings, req.bookingId)
    ensures g == Err(403, NotAuthorizedTransition) <==>
      caller.Some? && req.bookingId != "" && ParseStatus(req.newStatus).Some? && Get(bookings, req.bookingId).Some?
      && !EdgeAuthorized(Get(bookings, req.bookingId).value.status, ParseStatus(req.newStatus).value,
                         Get(bookings, req.bookingId).value.customerId == caller, isVendor, isAdmin)
    ensures g.Ok? <==>
      caller.Some? && req.bookingId != "" && ParseStatus(req.newStatus).Some? && Get(bookings, req.bookingId).Some?
      && EdgeAuthorized(Get(bookings, req.bookingId).value.status, ParseStatus(req.newStatus).value,
                        Get(bookings, req.bookingId).value.customerId == caller, isVendor, isAdmin)
    ensures g.Ok? ==> Get(bookings, req.bookingId) == Some(g.value)
    ensures g.Err? ==> g.status in {400, 401, 403, 404}
  {
    if caller.None? then Err(401, AuthRequired)
    else if req.bookingId == "" || req.newStatus == "" then Err(400, MissingFields)
    else match ParseStatus(req.newStatus) {
      case None => Err(400, InvalidStatus)
      case Some(target) =>
        match Get(bookings, req.bookingId) {
          case None => Err(404, BookingNotFound)
          case Some(b) =>
            if EdgeAuthorized(b.status, target, b.customerId == caller, isVendor, isAdmin) then Ok(b)
            else Err(403, NotAuthorizedTransition)
        }
    }
  }

  method CheckRequest(db: Db, caller: Option<Id>, req: Request, isVendor: bool, isAdmin: bool)
    returns (g: Outcome<Booking>)
    ensures g == Guard(caller, req, isVendor, isAdmin, db.bookings)
  {
    if caller.None? {
      return Err(401, AuthRequired);
    }
    if req.bookingId == "" || req.newStatus == "" {
      return Err(400, MissingFields);
    }
    var target := ParseStatus(req.newStatus);
    if target.None? {
      return Err(400, InvalidStatus);
    }
    var booking := Get(db.bookings, req.bookingId);
    if booking.None? {
      return Err(404, BookingNotFound);
    }
    var isCustomer := booking.value.customerId == caller;
    var authorized := false;
    if target.value == Cancelled {
      authorized := (isCustomer && booking.value.status == Pending) || isAdmin;
    } else if target.value == Confirmed {
      authorized := (isVendor || isAdmin) && booking.value.status == Pending;
    } else if target.value == Completed {
      authorized := (isVendor || isAdmin) && booking.value.status == Confirmed;
    }
    if !authorized {
      return Err(403, NotAuthorizedTransition);
    }
    return Ok(booking.value);
  }

  /** The booking after the update payload of index.ts:121-150 is applied. */
  function Updated(b: Booking, target: BookingStatus, reason: string, notes: string,
                   isVendor: bool, isAdmin: bool, now: Time): (r: Booking)
    ensures r.status == target
    ensures r.confirmedAt == (if target == Confirmed && b.status == Pending then Some(now) else b.confirmedAt)
    ensures r.completedAt == (if target == Completed && b.status == Confirmed then Some(now) else b.completedAt)
    ensures r.cancelledAt == (if target == Cancelled then Some(now) else b.cancelledAt)
    ensures r.cancellationReason == (if target == Cancelled && reason != "" then Some(reason) else b.cancellationReason)
    ensures r.vendorNotes == (if notes != "" && (isVendor || isAdmin) then Some(notes) else b.vendorNotes)
    ensures r.(status := b.status, confirmedAt := b.confirmedAt, completedAt := b.completedAt,
               cancelledAt := b.cancelledAt, cancellationReason := b.cancellationReason,
               vendorNotes := b.vendorNotes) == b
  {
    var r := b.(status := target);
    var r :=
      if target == Confirmed && b.status == Pending then r.(confirmedAt := Some(now))
      else if target == Completed && b.status == Confirmed then r.(completedAt := Some(now))
      else if target == Cancelled then
        r.(cancelledAt := Some(now),
           cancellationReason := if reason != "" then Some(reason) else b.cancellationReason)
      else r;
    if notes != "" && (isVendor || isAdmin) then r.(vendorNotes := Some(notes)) else r
  }

  /** The notifications of index.ts:165-228. `vendorUser` is the `user_id` of the booking's
      vendor row, None when that row is missing. The customer entry is built even when the
      booking has no customer id. */
  function Notifications(b: Booking, bookingId: Id, target: BookingStatus, vendorUser: Option<Id>): (ns: seq<Notification>)
    ensures |ns| == (if target == Completed then 1
                     else if target == Pending then 0
                     else 1 + (if vendorUser.Some? then 1 else 0))
    ensures |ns| > 0 ==> ns[0].userId == b.customerId
    ensures forall i :: 0 <= i < |ns| ==> ns[i].relatedBooking == Some(bookingId)
    ensures |ns| == 2 ==> ns[1].userId == vendorUser
  {
    match target
    case Confirmed =>
      [Notification(b.customerId, BookingConfirmation, "Booking Confirmed", Some(bookingId), None)]
      + (if vendorUser.Some? then [Notification(vendorUser, BookingConfirmation, "Booking Confirmed", Some(bookingId), None)] else [])
    case Completed =>
      [Notification(b.customerId, BookingCompleted, "Experience Complete", Some(bookingId), None)]
    case Cancelled =>
      [Notification(b.customerId, BookingCancelled, "Booking Cancelled", Some(bookingId), None)]
      + (if vendorUser.Some? then [Notification(vendorUser, BookingCancelled, "Booking Cancelled", Some(bookingId), None)] else [])
    case Pending => []
  }

  function VendorUser(vendors: seq<Row<Vendor>>, vendorId: Id): (u: Option<Id>)
    ensures u.Some? <==> Has(vendors, vendorId)
  {
    match Get(vendors, vendorId) {
      case None => None
      case Some(v) => Some(v.userId)
    }
  }

  /** index.ts:231-233: one insert per notification, in order. */
  method InsertAll(db: Db, ns: seq<Notification>)
    modifies db`notifications
    ensures db.notifications == old(db.notifications) + ns
  {
    var i := 0;
    while i < |ns|
      invariant 0 <= i <= |ns|
      invariant db.notifications == old(db.notifications) + ns[..i]
    {
      db.notifications := db.notifications + [ns[i]];
      i := i + 1;
      assert ns[..i] == ns[..i - 1] + [ns[i - 1]];
    }
    assert ns[..|ns|] == ns;
  }

  /** The whole handler. A rejection changes nothing. An accepted request rewrites the one
      booking, appends its notifications, and logs one `record_booking_earnings` call exactly
      when a pending booking is confirmed (a failure of that call is swallowed). */
  method UpdateBookingStatusHandler(db: Db, caller: Option<Id>, req: Request,
                                    isVendor: bool, isAdmin: bool, now: Time)
    returns (resp: Outcome<Response>)
    modifies db`bookings, db`notifications, db`earningsCalls
    ensures var g := Guard(caller, req, isVendor, isAdmin, old(db.bookings));
      && (g.Err? ==> resp == Err(g.status, g.reason) && db.bookings == old(db.bookings)
                     && db.notifications == old(db.notifications) && db.earningsCalls == old(db.earningsCalls))
      && (g.Ok? ==>
            var target := ParseStatus(req.newStatus).value;
            var nb := Updated(g.value, target, req.cancellationReason, req.vendorNotes, isVendor, isAdmin, now);
            var ns := Notifications(g.value, req.bookingId, target, VendorUser(db.vendors, g.value.vendorId));
            && resp == Ok(Response(nb, |ns|))
            && db.bookings == Put(old(db.bookings), req.bookingId, nb)
            && db.notifications == old(db.notifications) + ns
            && db.earningsCalls == old(db.earningsCalls) +
                 (if target == Confirmed && g.value.status == Pending
                  then [EarningsCall(req.bookingId, g.value.vendorId, g.value.totalAmount)] else []))
    ensures SplitsBalance(old(db.bookings)) ==> SplitsBalance(db.bookings)
  {
    var g := CheckRequest(db, caller, req, isVendor, isAdmin);
    if g.Err? {
      return Err(g.status, g.reason);
    }
    var booking := g.value;
    var target := ParseStatus(req.newStatus).value;
    var calls := if target == Confirmed && booking.status == Pending
                 then [EarningsCall(req.bookingId, booking.vendorId, booking.totalAmount)] else [];
    db.earningsCalls := db.earningsCalls + calls;
    var nb := Updated(booking, target, req.cancellationReason, req.vendorNotes, isVendor, isAdmin, now);
    WriteBooking(db, req.bookingId, booking, nb);
    var ns := Notifications(booking, req.bookingId, target, VendorUser(db.vendors, booking.vendorId));
    InsertAll(db, ns);
    resp := Ok(Response(nb, |ns|));
  }

  /** Earnings are recorded exactly on confirmation: for a request the guard accepts, the
      handler's condition for logging a `record_booking_earnings` call ("the target is confirmed
      and the booking was pending") holds if and only if the target is confirmed, because the
      gate admits a confirmation only of a pending booking. */
  lemma EarningsOnlyOnConfirm(caller: Option<Id>, req: Request, isVendor: bool, isAdmin: bool,
                              bookings: seq<Row<Booking>>)
    requires Guard(caller, req, isVendor, isAdmin, bookings).Ok?
    ensures var g := Guard(caller, req, isVendor, isAdmin, bookings);
      var target := ParseStatus(req.newStatus).value;
      (target == Confirmed && g.value.status == Pending) <==> target == Confirmed
  {
  }
}
