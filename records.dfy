/**
 * The marketplace's records: the enums and document shapes of backend/models.py,
 * which the Supabase side stores under the same names (src/types/marketplace.types.ts).
 *
 * Units: money is integer paise (1/100 rupee); a commission rate is in basis
 * points (1/100 of a percent, so 15% is 1500); a `YYYY-MM-DD` date is a day number;
 * a timestamp is an integer. Identifiers are strings, and the empty string stands
 * for a missing (falsy) identifier in a request body.
 */
module Records {

  type Id = string

  /** A Python `if q:` on an optional query parameter: a missing value and an empty
      string are both falsy. */
  predicate Given(q: Option<string>)
  {
    q.Some? && q.value != ""
  }
  type Paise = int
  type Rate = int
  type Day = int
  type Time = int

  datatype Option<T> = None | Some(value: T)

  // ------------------------------------------------------------------
  // Enums (models.py:11-37)
  // ------------------------------------------------------------------

  datatype VendorStatus = VendorPending | VendorApproved | VendorRejected | VendorSuspended

  datatype BookingStatus = Pending | Confirmed | Completed | Cancelled

  datatype PaymentStatus = Unpaid | Paid | Refunded

  datatype PayoutStatus = PayoutPending | PayoutProcessing | PayoutCompleted | PayoutFailed

  datatype Role = CustomerRole | VendorRole | AdminRole

  datatype NotificationType =
    | BookingConfirmation | VendorApproval | BookingCompleted
    | BookingCancelled | PayoutProcessed | SystemAlert

  datatype TxType = BookingEarnings | CommissionDeducted | PayoutTx

  // ------------------------------------------------------------------
  // Records
  // ------------------------------------------------------------------

  datatype User = User(role: Role)

  /** `status` and `commissionRate` exist only on the Python side; the Supabase
      vendor row carries only `isApproved`. A missing `commission_rate` key is None. */
  datatype Vendor = Vendor(
    userId: Id,
    companyName: string,
    status: VendorStatus,
    commissionRate: Option<Rate>,
    isApproved: bool,
    approvedBy: Option<Id>,
    approvedAt: Option<Time>)

  datatype Package = Package(
    vendorId: Id,
    name: string,
    price: Paise,
    durationMinutes: int,
    isActive: bool)

  /** The second field of the routes' compound lookups: `'is_approved': True`. */
  predicate ApprovedVendor(v: Vendor) { v.isApproved }

  /** `'is_active': True`. */
  predicate ActivePackage(p: Package) { p.isActive }

  datatype TimeSlot = TimeSlot(
    vendorId: Id,
    packageId: Option<Id>,
    slotDate: Day,
    capacity: int,
    bookedCount: int,
    isAvailable: bool)

  /** One status field. The Supabase create-booking function writes the
      column `status` while update-booking-status and manage-reviews read
      `booking_status`; the model keeps a single field for both (StatusColumns models the two). */
  datatype Booking = Booking(
    customerId: Option<Id>,
    vendorId: Id,
    packageId: Id,
    timeSlotId: Option<Id>,
    customerName: string,
    customerEmail: string,
    customerPhone: Option<string>,
    notes: Option<string>,
    totalAmount: Paise,
    commissionAmount: Paise,
    vendorAmount: Paise,
    status: BookingStatus,
    paymentStatus: PaymentStatus,
    confirmedAt: Option<Time>,
    completedAt: Option<Time>,
    cancelledAt: Option<Time>,
    cancellationReason: Option<string>,
    vendorNotes: Option<string>)

  datatype Wallet = Wallet(
    balance: Paise,
    totalEarned: Paise,
    totalCommission: Paise,
    totalPaidOut: Paise)

  datatype Payout = Payout(
    vendorId: Id,
    amount: Paise,
    status: PayoutStatus,
    settledBy: Option<Id>,
    settledAt: Option<Time>,
    settlementNotes: Option<string>,
    payoutReference: Option<string>,
    payoutMethod: Option<string>)

  datatype SettlementTx = SettlementTx(
    vendorId: Id,
    bookingId: Option<Id>,
    txType: TxType,
    grossAmount: Paise,
    commissionAmount: Paise,
    netAmount: Paise,
    payoutId: Option<Id>,
    settledAt: Option<Time>)

  datatype Review = Review(
    bookingId: Id,
    vendorId: Id,
    customerId: Id,
    rating: int,
    title: Option<string>,
    content: Option<string>)

  /** Average rating in hundredths of a star (round(x, 2) of models.py:332). */
  datatype RatingSummary = RatingSummary(averageCenti: int, totalReviews: nat)

  datatype Notification = Notification(
    userId: Option<Id>,
    kind: NotificationType,
    title: string,
    relatedBooking: Option<Id>,
    relatedVendor: Option<Id>)

  /** The single commission-settings row: `percentage` on the Supabase side,
      `default_rate` on the Python side; None when the field is missing or null. */
  datatype CommissionSetting = CommissionSetting(rate: Option<Rate>)

  /** A call of the `record_booking_earnings` RPC, whose body is not part of this model. */
  datatype EarningsCall = EarningsCall(bookingId: Id, vendorId: Id, grossAmount: Paise)

  // ------------------------------------------------------------------
  // Handler results
  // ------------------------------------------------------------------

  datatype Reason =
    | MissingFields | AuthRequired | AdminRequired | Forbidden
    | PackageNotFound | PackageInactive | VendorMismatch | VendorNotApproved
    | VendorNotFound | SlotNotFound | SlotFull | SlotHasBookings
    | InvalidStatus | BookingNotFound | NotAuthorizedTransition
    | WalletNotFound | NoBalance | AmountExceedsBalance | PayoutNotFound | AlreadySettled
    | InvalidRating | NotCompleted | NotBookingCustomer | DuplicateReview | ReviewNotFound
    | InvalidAction | ProfileExists | InvalidPrice | RateOutOfRange | InternalError

  /** An HTTP response: a value, or a status code with the reason. */
  datatype Outcome<T> = Ok(value: T) | Err(status: int, reason: Reason)

  // ------------------------------------------------------------------
  // Defaults and validators of models.py
  // ------------------------------------------------------------------

  const DefaultRate: Rate := 1500

  /** `Vendor(...)` built by register_vendor: status pending, not approved, 15% (models.py:71-73). */
  function NewVendor(userId: Id, companyName: string): (v: Vendor)
    ensures v.status == VendorPending && !v.isApproved
    ensures v.commissionRate == Some(DefaultRate)
    ensures v.userId == userId && v.approvedBy.None? && v.approvedAt.None?
  {
    Vendor(userId, companyName, VendorPending, Some(DefaultRate), false, None, None)
  }

  /** `TimeSlot(**TimeSlotCreate)`: nothing booked yet and available (models.py:157-158). */
  function NewTimeSlot(vendorId: Id, packageId: Option<Id>, slotDate: Day, capacity: int): (s: TimeSlot)
    ensures s.bookedCount == 0 && s.isAvailable
    ensures s.vendorId == vendorId && s.packageId == packageId
    ensures s.slotDate == slotDate && s.capacity == capacity
  {
    TimeSlot(vendorId, packageId, slotDate, capacity, 0, true)
  }

  /** `VendorWallet(vendor_id=...)`: every total starts at 0 (models.py:242-245). */
  function NewWallet(): (w: Wallet)
    ensures w.balance == 0 && w.totalEarned == 0 && w.totalCommission == 0 && w.totalPaidOut == 0
  {
    Wallet(0, 0, 0, 0)
  }

  /** `Payout(...)` with the declared default status (models.py:257). */
  function NewPayout(vendorId: Id, amount: Paise, payoutMethod: Option<string>): (p: Payout)
    ensures p.status == PayoutPending && p.vendorId == vendorId && p.amount == amount
    ensures p.settledBy.None? && p.settledAt.None?
  {
    Payout(vendorId, amount, PayoutPending, None, None, None, None, payoutMethod)
  }

  /** The `Package` price validator (models.py:118-123): a constructed package has price > 0.
      Raised inside a handler, the validation error surfaces as a 500. */
  function MakePackage(vendorId: Id, name: string, price: Paise, durationMinutes: int): (r: Outcome<Package>)
    ensures r.Ok? <==> price > 0
    ensures r.Ok? ==> r.value.price == price && r.value.isActive && r.value.vendorId == vendorId
    ensures r.Err? ==> r == Err(500, InvalidPrice)
  {
    if price <= 0 then Err(500, InvalidPrice)
    else Ok(Package(vendorId, name, price, durationMinutes, true))
  }

  /** The `Review` rating validator (models.py:316-321): a constructed review has 1 <= rating <= 5. */
  function MakeReview(bookingId: Id, vendorId: Id, customerId: Id, rating: int,
                      title: Option<string>, content: Option<string>): (r: Outcome<Review>)
    ensures r.Ok? <==> 1 <= rating <= 5
    ensures r.Ok? ==> r.value == Review(bookingId, vendorId, customerId, rating, title, content)
    ensures r.Err? ==> r == Err(500, InvalidRating)
  {
    if 1 <= rating <= 5 then Ok(Review(bookingId, vendorId, customerId, rating, title, content))
    else Err(500, InvalidRating)
  }
}
