/**
 * The booking state machine and the three gates that decide who may move a booking:
 *  - the declared table and `canTransitionBooking` (src/types/marketplace.types.ts:336-392),
 *  - the authorization of the update-booking-status edge function (index.ts:93-105),
 *  - the transition rules of the Python route (backend/routes/bookings.py:100-137).
 * The lemmas at the end compare them.
 */
module BookingFlow {
  import opened Records

  /** `BOOKING_STATUS_FLOW`: the statuses each status may move to. */
  function AllowedTransitions(s: BookingStatus): (next: set<BookingStatus>)
    ensures s !in next && Pending !in next
    ensures s == Completed || s == Cancelled <==> next == {}
  {
    match s
    case Pending => {Confirmed, Cancelled}
    case Confirmed => {Completed, Cancelled}
    case Completed => {}
    case Cancelled => {}
  }

  predicate InFlow(current: BookingStatus, target: BookingStatus)
  {
    target in AllowedTransitions(current)
  }

  /** `canTransitionBooking(current, target, role)`. */
  function CanTransitionBooking(current: BookingStatus, target: BookingStatus, role: Role): (ok: bool)
    ensures ok ==> InFlow(current, target)
    ensures role == CustomerRole ==> (ok <==> current == Pending && target == Cancelled)
    ensures role == VendorRole ==>
      (ok <==> (current == Pending && target == Confirmed) || (current == Confirmed && target == Completed))
    ensures role == AdminRole ==> (ok <==> InFlow(current, target))
  {
    if !InFlow(current, target) then false
    else if role == CustomerRole then target == Cancelled && current == Pending
    else if role == VendorRole then
      (current == Pending && target == Confirmed) || (current == Confirmed && target == Completed)
    else role == AdminRole
  }

  /** Completed and cancelled bookings are final, and nothing ever moves to itself or back
      to pending, whoever asks. */
  lemma FinalStatesAndNoReturn(current: BookingStatus, target: BookingStatus, role: Role)
    ensures (current == Completed || current == Cancelled) ==> !CanTransitionBooking(current, target, role)
    ensures (target == current || target == Pending) ==> !CanTransitionBooking(current, target, role)
  {
  }

  /** The raw `new_status` of a request; the empty string is a missing value. */
  function ParseStatus(text: string): (s: Option<BookingStatus>)
    ensures s.Some? <==> text in {"pending", "confirmed", "completed", "cancelled"}
  {
    if text == "pending" then Some(Pending)
    else if text == "confirmed" then Some(Confirmed)
    else if text == "completed" then Some(Completed)
    else if text == "cancelled" then Some(Cancelled)
    else None
  }

  /** update-booking-status/index.ts:93-105. `isVendor` and `isAdmin` are the answers
      of the `is_vendor_owner` and `is_admin` RPCs. */
  function EdgeAuthorized(current: BookingStatus, target: BookingStatus,
                          isCustomer: bool, isVendor: bool, isAdmin: bool): (ok: bool)
    ensures target == Pending ==> !ok
    ensures target == Confirmed ==> (ok <==> (isVendor || isAdmin) && current == Pending)
    ensures target == Completed ==> (ok <==> (isVendor || isAdmin) && current == Confirmed)
    ensures target == Cancelled ==> (ok <==> (isCustomer && current == Pending) || isAdmin)
  {
    match target
    case Cancelled => (isCustomer && current == Pending) || isAdmin
    case Confirmed => (isVendor || isAdmin) && current == Pending
    case Completed => (isVendor || isAdmin) && current == Confirmed
    case Pending => false
  }

  /** bookings.py:119-137: what the Python route lets through once the caller is a
      participant or an admin (bookings.py:106). A caller who is both the customer and
      the vendor must pass both rules. */
  function PyTransitionAllowed(current: BookingStatus, target: BookingStatus,
                               isCustomer: bool, isVendor: bool, isAdmin: bool): (ok: bool)
    ensures isAdmin ==> ok
    ensures !isAdmin && isCustomer ==> (ok ==> current == Pending && target == Cancelled)
    ensures !isAdmin && isVendor ==>
      (ok ==> (current == Pending && target == Confirmed) || (current == Confirmed && target == Completed))
  {
    var customerOk := !(isCustomer && !isAdmin) || (target == Cancelled && current == Pending);
    var vendorOk := !(isVendor && !isAdmin) ||
      (current == Pending && target == Confirmed) || (current == Confirmed && target == Completed);
    customerOk && vendorOk
  }

  /** The role a single-hat caller has in the declared table. */
  function RoleOf(isCustomer: bool, isVendor: bool, isAdmin: bool): Role
    requires isCustomer || isVendor || isAdmin
  {
    if isAdmin then AdminRole else if isVendor then VendorRole else CustomerRole
  }

  /** For a caller who is only the customer or only the vendor owner, the edge function and
      the Python route both agree exactly with `canTransitionBooking`. */
  lemma SingleRoleGatesAgree(current: BookingStatus, target: BookingStatus, isCustomer: bool, isVendor: bool)
    requires isCustomer != isVendor
    ensures EdgeAuthorized(current, target, isCustomer, isVendor, false)
      == CanTransitionBooking(current, target, RoleOf(isCustomer, isVendor, false))
    ensures PyTransitionAllowed(current, target, isCustomer, isVendor, false)
      == CanTransitionBooking(current, target, RoleOf(isCustomer, isVendor, false))
  {
  }

  /** The edge function lets an admin do every move of the table and, beyond it, cancel a
      booking from any status, including a completed or an already cancelled one. */
  lemma EdgeAdminExceedsTable(current: BookingStatus, target: BookingStatus, isCustomer: bool, isVendor: bool)
    ensures EdgeAuthorized(current, target, isCustomer, isVendor, true)
      <==> CanTransitionBooking(current, target, AdminRole) || target == Cancelled
    ensures EdgeAuthorized(Completed, Cancelled, isCustomer, isVendor, true)
      && !CanTransitionBooking(Completed, Cancelled, AdminRole)
  {
  }

  /** The Python route lets an admin make any move at all, for instance reopen a
      completed booking as pending, which neither the table nor the edge function allows. */
  lemma PyAdminUnrestricted(current: BookingStatus, target: BookingStatus, isCustomer: bool, isVendor: bool)
    ensures PyTransitionAllowed(current, target, isCustomer, isVendor, true)
    ensures PyTransitionAllowed(Completed, Pending, isCustomer, isVendor, true)
      && !EdgeAuthorized(Completed, Pending, isCustomer, isVendor, true)
      && !CanTransitionBooking(Completed, Pending, AdminRole)
  {
  }

  /** A non-admin who is both the booking's customer and its vendor owner can change nothing
      through the Python route, but may cancel, confirm or complete through the edge function. */
  lemma DualRoleCallerDiffers(current: BookingStatus, target: BookingStatus)
    ensures !PyTransitionAllowed(current, target, true, true, false)
    ensures EdgeAuthorized(current, target, true, true, false)
      <==> CanTransitionBooking(current, target, CustomerRole) || CanTransitionBooking(current, target, VendorRole)
  {
  }

  /** Every gate moves only along the table's edges, except for an admin. */
  lemma NonAdminGatesSound(current: BookingStatus, target: BookingStatus, isCustomer: bool, isVendor: bool)
    ensures EdgeAuthorized(current, target, isCustomer, isVendor, false) ==> InFlow(current, target)
    ensures (isCustomer || isVendor) && PyTransitionAllowed(current, target, isCustomer, isVendor, false)
      ==> InFlow(current, target)
  {
  }
}
