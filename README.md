# Booking lifecycle and settlement ledger of a paragliding marketplace

This project models the core of a marketplace for tandem paragliding flights. Vendors (flying
schools) list packages and time slots. Customers book them. Vendors confirm and complete the
bookings. Each booking is split into a platform commission and a vendor share. The vendor's
share is credited to a wallet, and admins pay the wallet out.

The system is implemented twice. The model covers both:

- **TypeScript side.** The Supabase edge functions `create-booking`, `update-booking-status`,
  `process-settlement` and `manage-reviews`, with the helper libraries `earningsCalculator.ts`,
  `packageQueries.ts`, `marketplace.types.ts`, `roleManagement.ts` and `dashboardRouting.ts`.
- **Python side.** The FastAPI/MongoDB back end: `models.py`, `utils.py` and the `bookings`,
  `admin`, `reviews`, `time_slots`, `packages` and `vendors` routes.

Modelling conventions:

- **Money.** Integer paise (1/100 rupee).
- **Rates.** Commission rates are in basis points, so 15% is 1500 and 100% is 10000.
- **Dates and times.** `YYYY-MM-DD` dates are day numbers; timestamps are integers.
- **Tables.** Every table is a sequence of `Row(id, value)` held by one `Store.Db` object.
  - A lookup, update or delete whose filter is the id alone (`{'id': x}`, or a Supabase
    `.eq("id", x)`) acts on the first row with the id, as Mongo's `find_one`, `update_one`
    and `delete_one` do.
  - A `find_one` on the id and one more field (`{'id': x, 'is_active': True}`) matches the
    first row that passes the whole filter, `Tables.FindWhere`. The route models write it as
    the row with the id followed by a test of the field. The two agree when ids are unique
    (`Tables.FindWhereUnique`), and each such route has a lemma restating it over `FindWhere`
    under that assumption.
- **Handlers.**
  - Each HTTP handler is a method over `Db`. It returns `Ok(value)` or `Err(status, reason)`,
    and its `modifies` clause names the tables it writes.
  - Its guard chain is a pure function whose contract gives each error case in order.
  - The method's contract ties the new tables to the old ones. It also states the invariants
    the handler keeps:
    - every stored split adds up;
    - wallets balance as earned − commission − paid out;
    - booked counts stay within capacity;
    - at most one review per booking;
    - ratings lie in 1..5;
    - approval flags agree with vendor statuses.
- **Inputs in place of seen code.** The caller, fresh ids, the clock and the answers of RPCs
  whose bodies are not shown are parameters: `is_admin`, `is_vendor_owner`, and
  `record_booking_earnings`, which is an append to a ghost log.

The two back ends round differently. JavaScript's `Math.round` rounds halves up, and Python's
`round` rounds halves to even. Each has its own function (`Ledger.RoundHalfUp`,
`Ledger.RoundHalfEven`). Much of the model compares what the two implementations, and the
declared transition table, allow.

## Model

| member | source | states |
|---|---|---|
| Ledger.RoundHalfUp | src/lib/earningsCalculator.ts:46-48 | The result is the integer nearest n/d, and an exact half goes up. |
| Ledger.RoundHalfEven | backend/utils.py:29-39 | The result is the integer nearest n/d, and an exact half goes to the even neighbour. |
| Ledger.RoundingsAgreeOffTies | backend/utils.py:29-39 | The two roundings differ only when n/d lies exactly halfway between two integers. |
| Ledger.CommissionJs | src/lib/earningsCalculator.ts:46-48 | `calculateCommission` is amount × rate / 100 rounded half-up to whole paise. |
| Ledger.NetAmountJs | src/lib/earningsCalculator.ts:53-56 | Commission plus net amount equals the amount, for every amount and rate. |
| Ledger.CommissionJsBounds | src/lib/earningsCalculator.ts:46-56 | For an amount ≥ 0 and a rate from 0% to 100%, both the commission and the net amount lie in [0, amount]. |
| Ledger.SplitJs | supabase/functions/create-booking/index.ts:129-132 | The booking split has total = price and commission = `calculateCommission`, and commission + vendor amount = total. |
| Ledger.CommissionPy | backend/utils.py:29-39 | `round(total * rate / 100, 2)` is the exact commission rounded half-to-even to whole paise. |
| Ledger.SplitPy | backend/utils.py:29-39 | `calculate_commission` returns the total unchanged and a commission and vendor amount that add up to it. |
| Ledger.CommissionPyBounds | backend/utils.py:29-39 | For an amount ≥ 0 and a rate from 0% to 100%, the Python commission and vendor amount lie in [0, amount]. |
| Ledger.SplitsAgreeOffTies | backend/utils.py:29-39 | The JavaScript and Python splits are equal unless the exact commission ends in exactly half a paisa. |
| Ledger.SplitsDifferOnTie | supabase/functions/create-booking/index.ts:129-132 | At 15%, a 30-paise booking is split 5/25 by the TypeScript side and 4/26 by the Python side. |
| Ledger.NetAmountExact | src/types/marketplace.types.ts:431-434 | The unrounded net amount of the types module gives the gross at rate 0, gives 0 at rate 100, and lies in [0, gross] in between. |
| Ledger.NetAmountJsNearExact | src/lib/earningsCalculator.ts:53-56 | The rounded net amount is within half a paisa of the unrounded one. |
| Ledger.RateOrDefault | src/lib/earningsCalculator.ts:61-74 | `getCommissionRate` is never 0. It is the stored percentage when that is non-zero, and 15% when the query fails, the row is missing or the stored value is 0. |
| Ledger.CommissionRatePy | backend/utils.py:13-27 | `get_commission_rate` picks the vendor's own rate if present, else the settings default, else 15%. |
| Ledger.ZeroRateFallbacksDiffer | src/lib/earningsCalculator.ts:68-73 | When the stored rate is 0%, the TypeScript side charges 15% and the Python side charges 0%. |
| BookingFlow.AllowedTransitions | src/types/marketplace.types.ts:336-341 | No status leads to itself or to pending; completed and cancelled lead nowhere. |
| BookingFlow.CanTransitionBooking | src/types/marketplace.types.ts:366-392 | Every allowed move is an edge of the table. A customer may only cancel a pending booking. A vendor may only confirm a pending booking or complete a confirmed one. An admin may make exactly the table's moves. |
| BookingFlow.FinalStatesAndNoReturn | src/types/marketplace.types.ts:336-341 | Completed and cancelled are final for every role, and no role may move a booking to its own status or back to pending. |
| BookingFlow.ParseStatus | supabase/functions/update-booking-status/index.ts:56-65 | A status text is accepted iff it is one of the four status names. |
| BookingFlow.EdgeAuthorized | supabase/functions/update-booking-status/index.ts:93-107 | The edge gate never allows pending. Confirm needs a pending booking and the vendor owner or an admin. Complete needs a confirmed booking and the vendor owner or an admin. Cancel needs the customer on a pending booking, or an admin. |
| BookingFlow.PyTransitionAllowed | backend/routes/bookings.py:115-137 | An admin passes. The customer rule allows only pending→cancelled. The vendor rule allows only pending→confirmed and confirmed→completed. |
| BookingFlow.SingleRoleGatesAgree | backend/routes/bookings.py:115-137 | For a caller who is only the customer or only the vendor owner, both gates decide exactly as `canTransitionBooking`. |
| BookingFlow.EdgeAdminExceedsTable | supabase/functions/update-booking-status/index.ts:95-97 | The edge gate allows an admin exactly the table's moves plus a cancel from any status, so an admin can cancel a completed booking. |
| BookingFlow.PyAdminUnrestricted | backend/routes/bookings.py:115-168 | The Python route lets an admin make any move, including completed→pending. |
| BookingFlow.DualRoleCallerDiffers | backend/routes/bookings.py:115-137 | A non-admin who is both the customer and the vendor owner can change nothing through the Python route. The edge gate lets that caller make every non-admin move. |
| BookingFlow.NonAdminGatesSound | supabase/functions/update-booking-status/index.ts:93-107 | Without admin rights, both gates allow only edges of the table. |
| Earnings.VendorBookings | src/lib/earningsCalculator.ts:83-108 | The result is exactly the fetched bookings of the vendor, and none when the query fails. |
| Earnings.CalculateVendorEarnings | src/lib/earningsCalculator.ts:114-143 | The total count is every booking, and completed + pending ≤ total. |
| Earnings.VendorEarningsSums | src/lib/earningsCalculator.ts:126-138 | Gross and commission sum over every booking, cancelled ones included. Earnings sum total − commission over completed bookings only. |
| Earnings.CancelledCountsOnlyInGross | src/lib/earningsCalculator.ts:126-141 | A cancelled booking adds its amounts to gross and commission, and changes neither the earnings nor the counts. |
| Earnings.EarningsAreVendorAmounts | src/lib/earningsCalculator.ts:114-143 | Where every split adds up, the earnings are the vendor amounts of the completed bookings. |
| Earnings.GetAdminFinancials | src/lib/earningsCalculator.ts:206-252 | Approved plus unapproved vendors is the whole vendor list. A failed query contributes zero. |
| Earnings.AdminPayoutTotals | src/lib/earningsCalculator.ts:234-240 | Paid-out totals count completed payouts only, and pending totals count pending payouts only. A processing or failed payout counts in neither. |
| Earnings.AdminBookingTotals | src/lib/earningsCalculator.ts:206-232 | The admin's booking and commission totals sum the completed bookings only. |
| CreateBooking.Guard | supabase/functions/create-booking/index.ts:42-120 | The checks run in order and the first failure wins: missing fields (400); manual-booking authorization (401/403); then, once those pass, a missing package gives 404 and 404 arises only that way; an inactive package gives 400; a package of another vendor gives 400; an unapproved vendor gives 400; a missing named slot gives 404; a full or unavailable one gives 400. Each slot error arises only after every earlier check passed. A request passes iff it is admissible. |
| CreateBooking.AppendBooking | supabase/functions/create-booking/index.ts:135-153 | The booking row is appended and nothing else in the table changes; balanced splits stay balanced. |
| CreateBooking.TakeSeat | supabase/functions/create-booking/index.ts:162-165 | The named slot's count grows by one, every other slot is unchanged, and slots stay within capacity. |
| CreateBooking.NewBooking | supabase/functions/create-booking/index.ts:135-151 | The total is the price and the split adds up. A manual booking is confirmed and paid; any other is pending and unpaid. The customer is the caller. |
| CreateBooking.IncrementBookedCount | supabase/functions/create-booking/index.ts:160-165 | Only the named slot changes, and its booked count rises by exactly 1. |
| CreateBooking.CheckRequest | supabase/functions/create-booking/index.ts:42-120 | The early-return chain reads the tables and returns exactly the guard's verdict. |
| CreateBooking.CreateBookingHandler | supabase/functions/create-booking/index.ts:9-175 | A rejection changes nothing. An accepted booking is inserted, and only its slot gains one booking. Slots stay within capacity and every split stays balanced. |
| UpdateBookingStatus.Guard | supabase/functions/update-booking-status/index.ts:27-118 | No user gives 401. Missing fields give 400, and an unknown status gives 400 before the booking is read. Once those pass, a missing booking gives 404, and 404 arises only that way. An existing booking whose move the edge gate refuses gives 403, and 403 arises only that way. The request passes iff the edge gate authorizes the move. |
| UpdateBookingStatus.CheckRequest | supabase/functions/update-booking-status/index.ts:27-118 | The early-return chain reads the bookings and returns exactly the guard's verdict. |
| UpdateBookingStatus.Updated | supabase/functions/update-booking-status/index.ts:121-150 | `confirmed_at` is set only on pending→confirmed and `completed_at` only on confirmed→completed. The cancellation reason is written only on cancel and when given. Vendor notes are written only for the vendor owner or an admin. |
| UpdateBookingStatus.Notifications | supabase/functions/update-booking-status/index.ts:165-233 | Completion sends one notice. Confirm and cancel send two when the vendor row exists, else one. The first notice goes to the customer id even when it is null. |
| UpdateBookingStatus.InsertAll | supabase/functions/update-booking-status/index.ts:231-233 | The notifications are appended in order. |
| UpdateBookingStatus.UpdateBookingStatusHandler | supabase/functions/update-booking-status/index.ts:10-257 | A rejection changes nothing. An accepted move writes the updated booking and its notices, and logs earnings only on pending→confirmed. Balanced splits are kept. |
| UpdateBookingStatus.EarningsOnlyOnConfirm | supabase/functions/update-booking-status/index.ts:127-138 | For every request the guard accepts, the condition on which the handler logs a `record_booking_earnings` call (target confirmed and booking pending) holds iff the target is confirmed. |
| StatusColumns.Inserted | supabase/functions/create-booking/index.ts:149 | The inserted row carries the booking's status in `status` and the column default in `booking_status`. |
| StatusColumns.StatusReadAsWritten | supabase/functions/update-booking-status/index.ts:97-104 | The gate and the review check read `booking_status`. |
| StatusColumns.NewBookingMisread | supabase/functions/manage-reviews/index.ts:106 | Whatever the column default, an online or a manual new booking reads with a status other than the one it was created with. |
| StatusColumns.GateAsWrittenOnNewBooking | supabase/functions/update-booking-status/index.ts:97-104 | As written, with a default other than pending no vendor can confirm a new online booking; with pending, a manual booking inserted as confirmed passes the gate for a confirmation. |
| StatusColumns.GateOnNewBooking | supabase/functions/update-booking-status/index.ts:99-100 | With one status field, the vendor can confirm a new booking iff it was booked online. |
| UpdateBookingStatus.VendorUser | supabase/functions/update-booking-status/index.ts:176-181 | The vendor user is found iff the booking's vendor row exists; a missing row drops the vendor notification. |
| ProcessSettlement.Gate | supabase/functions/process-settlement/index.ts:27-62 | No user gives 401. A non-admin gets 403 before the action is read. A missing action gives 400. |
| ProcessSettlement.CreatePayoutGuard | supabase/functions/process-settlement/index.ts:66-103 | A missing vendor id gives 400 and a missing wallet 404. A wallet with balance ≤ 0 gives 400 NoBalance, and NoBalance arises only that way. It passes iff the wallet exists with a positive balance. |
| ProcessSettlement.InitiatedPayout | supabase/functions/process-settlement/index.ts:106-116 | A new payout is pending and its amount is the whole current balance. |
| ProcessSettlement.VendorNotice | supabase/functions/process-settlement/index.ts:122-136 | It sends one notice to the vendor's user when the vendor row exists, and none otherwise. |
| ProcessSettlement.CreatePayout | supabase/functions/process-settlement/index.ts:65-149 | Apart from the guard's errors, it inserts a payout and leaves the wallet untouched. Existing payouts are never consulted. |
| ProcessSettlement.PaidOutAsWritten | supabase/functions/process-settlement/index.ts:217-224 | As written, `existing \|\| 0 + amount` keeps a non-zero existing total and ignores the amount. |
| ProcessSettlement.PaidOutIntended | supabase/functions/process-settlement/index.ts:217-224 | The corrected total grows by exactly the amount paid. |
| ProcessSettlement.PaidOutAsWrittenLosesPayouts | supabase/functions/process-settlement/index.ts:217-224 | The two totals agree on a first payout and disagree on every later non-zero one. |
| ProcessSettlement.PaidOutSecondPayoutExample | supabase/functions/process-settlement/index.ts:217-224 | A wallet that paid out 5000 then settles 3000: as written it records 5000, and the intended total is 8000. |
| ProcessSettlement.SettleGuard | supabase/functions/process-settlement/index.ts:153-182 | A missing payout id gives 400 and an unknown payout 404. A completed payout gives 400 AlreadySettled, and AlreadySettled arises only that way. It passes iff the payout exists and is not completed. |
| ProcessSettlement.SettledPayout | supabase/functions/process-settlement/index.ts:186-196 | The settled payout is completed and stamped with the settlement time. Its notes are set when given, and its amount and vendor are kept. |
| ProcessSettlement.SettledWallet | supabase/functions/process-settlement/index.ts:214-228 | The balance becomes 0 and the paid-out total becomes the old total plus the amount. This is the corrected total, not the expression of lines 217-224; see Findings. |
| ProcessSettlement.PayoutDebit | supabase/functions/process-settlement/index.ts:202-211 | The payout transaction has net −amount, gross 0 and commission 0. |
| ProcessSettlement.SettlePayout | supabase/functions/process-settlement/index.ts:152-266 | Only a completed payout is refused; pending, processing and failed ones settle. It writes the payout, one debit transaction, the settled wallet and a notice. |
| ProcessSettlement.SettleZeroesLaterEarnings | supabase/functions/process-settlement/index.ts:214-228 | Settling sets the balance to 0 rather than subtracting the amount, so later earnings are lost. |
| ProcessSettlement.ReportRows | supabase/functions/process-settlement/index.ts:269-276 | With no vendor id the report covers every payout; otherwise it covers exactly that vendor's. |
| ProcessSettlement.ReportTotalsOf | supabase/functions/process-settlement/index.ts:285-295 | The loop yields the sum of pending amounts, the sum of completed amounts and the count of all payouts. |
| ProcessSettlement.ReportAmountsBounded | supabase/functions/process-settlement/index.ts:285-295 | With non-negative amounts, pending plus completed never exceeds the sum of all payouts. |
| ProcessSettlement.ProcessSettlementHandler | supabase/functions/process-settlement/index.ts:10-322 | It runs the gate, then the named action. An unknown action gives 400 and changes nothing, and the report changes nothing. For `create_payout`, the response and the new payouts and notifications are those of CreatePayoutGuard on the old wallets: an error changes nothing; success appends the initiated payout of the whole balance and the vendor notice. For `settle_payout`, the response and the new payouts, wallets, transactions and notifications are those of SettleGuard on the old payouts, as in SettlePayout. |
| ProcessSettlement.ParseAction | supabase/functions/process-settlement/index.ts:65-313 | An action is recognised iff it is `create_payout`, `settle_payout` or `get_payout_report`; anything else falls through to 400. |
| ManageReviews.CreateGuard | supabase/functions/manage-reviews/index.ts:54-135 | A missing field gives 400, and a rating that is not a whole 1..5 gives 400. Then, in order and each iff every earlier check passed: booking missing (404), caller not its customer (403), not completed (400 NotCompleted), already reviewed (400 DuplicateReview). A booking with no customer can never be reviewed. |
| ManageReviews.NewReview | supabase/functions/manage-reviews/index.ts:138-149 | The review takes the vendor from the booking and the customer from the caller. The title defaults to "Experience Review". |
| ManageReviews.ReviewNotice | supabase/functions/manage-reviews/index.ts:163-178 | It sends one notice to the vendor's user when the vendor row exists. |
| ManageReviews.CreateReview | supabase/functions/manage-reviews/index.ts:54-192 | A rejection changes nothing. Success appends exactly the new review and keeps one review per booking. |
| ManageReviews.SecondReviewRefused | supabase/functions/manage-reviews/index.ts:119-135 | Once a booking has a review, every further attempt gets 400. |
| ManageReviews.SummaryOrZero | supabase/functions/manage-reviews/index.ts:220-243 | A vendor with no summary row has average 0 and 0 reviews. The same default serves `backend/routes/reviews.py:99-107` and the vendor dashboard. |
| ManageReviews.ReviewsOfVendor | supabase/functions/manage-reviews/index.ts:208-214 | The listing is exactly the vendor's reviews. |
| ManageReviews.DeleteGuard | supabase/functions/manage-reviews/index.ts:259-301 | A missing id gives 400 and an unknown review 404. Otherwise it passes iff the caller is the author or an admin, else 403. |
| ManageReviews.DeleteReview | supabase/functions/manage-reviews/index.ts:259-320 | A rejection changes nothing. Success removes the review and keeps one review per booking. |
| ManageReviews.ManageReviewsHandler | supabase/functions/manage-reviews/index.ts:10-340 | No user gives 401. A missing or unknown action gives 400 and changes nothing. Listing changes nothing. For `create_review`, the response and the new reviews and notifications are those of CreateGuard on the old reviews: an error changes nothing; success appends the new review and the vendor notice. For `delete_review`, DeleteGuard on the old reviews decides: an error changes nothing; success removes the review. Notifications are unchanged. One review per booking is kept. |
| PackageQueries.ApprovedVendorIds | src/lib/packageQueries.ts:30-39 | The ids are exactly those of approved vendors. |
| PackageQueries.SortByPrice | src/lib/packageQueries.ts:47 | The result is sorted by ascending price and is a permutation of its input. |
| PackageQueries.FilterKeepsSortedByPrice | src/lib/packageQueries.ts:72-74 | Filtering a price-sorted list keeps it sorted. |
| PackageQueries.FetchCustomerPackages | src/lib/packageQueries.ts:27-81 | The result is empty on any query error or when no vendor is approved, and it is sorted by price. A package is listed iff it is active, its vendor is approved and the vendor has a bookable slot. The slot table is read as the intended filter `booked_count < capacity`; see Findings. |
| PackageQueries.HasBookableSlots | src/lib/packageQueries.ts:135-153 | True iff the vendor has a slot dated today or later that is available and not full. This is the intended filter; see Findings. |
| PackageQueries.SlotQueryAsWritten | src/lib/packageQueries.ts:57-62 | The slot query as written: it fails iff the value compared with `capacity` is not an integer literal (an optional sign, then decimal digits), and otherwise keeps slots whose capacity exceeds that constant. |
| PackageQueries.SignedBoundsRead | src/lib/packageQueries.ts:62 | Signed values such as "-1" and "+5" are read as integers and the query answers; a bare sign or an empty value fails it. |
| PackageQueries.CapacityLiteralFailsQuery | src/lib/packageQueries.ts:57-66 | With the value "booked_count" the slot query fails, so the customer listing is empty and `hasBookableSlots` is false for every vendor and every table. |
| PackageQueries.VisiblePackageHiddenAsWritten | src/lib/packageQueries.ts:135-153 | A package the intended listing shows, with a vendor the intended `hasBookableSlots` accepts, is hidden and rejected as written. |
| PackageQueries.ListedPackagesAreBookable | src/lib/packageQueries.ts:55-74 | `hasBookableSlots` holds for the vendor of every package in the customer listing. |
| PackageQueries.FetchVendorPackages | src/lib/packageQueries.ts:88-106 | The result is exactly that vendor's packages, inactive ones included. |
| PackageQueries.FetchAdminPackages | src/lib/packageQueries.ts:113-130 | The result is every package, sorted by price. |
| Records.NewVendor | backend/models.py:71-73 | A new vendor is pending and not approved, with a 15% commission. |
| Records.NewTimeSlot | backend/models.py:157-158 | A new slot has nothing booked and is available. |
| Records.NewWallet | backend/models.py:242-245 | A new wallet has balance, earned, commission and paid-out all 0. |
| Records.NewPayout | backend/models.py:257 | A new payout is pending. |
| Records.MakePackage | backend/models.py:118-123 | A package is constructed iff its price is > 0; otherwise the validator's error surfaces as 500. |
| Records.MakeReview | backend/models.py:316-321 | A review is constructed iff 1 ≤ rating ≤ 5. |
| Tables.FindWhere | backend/routes/time_slots.py:113 | A compound `find_one` finds a row iff some row has the id and passes the filter, and what it finds is such a row. |
| Tables.FindWhereUnique | backend/models.py:44 | With unique ids (the uuid4 default), the compound lookup equals the row with the id, kept only when it passes the filter. |
| Tables.FindWhereSeesPastFirstRow | backend/routes/bookings.py:32-35 | With a repeated id, a first row failing the filter hides from the id lookup a later row that the compound lookup finds. |
| PyUtils.WalletsWith | backend/utils.py:45-56 | Afterwards the vendor has a wallet. An existing wallet is kept; otherwise an empty one is appended. |
| PyUtils.CreateVendorWalletIdempotent | backend/utils.py:45-56 | A second `create_vendor_wallet` changes nothing. |
| PyUtils.CreateVendorWallet | backend/utils.py:45-56 | It returns the existing wallet or the new empty one, and keeps wallets balanced. |
| PyUtils.CreditedWallet | backend/utils.py:65-75 | The balance rises by the vendor amount, earned by the total and commission by the commission. The paid-out total is unchanged. |
| PyUtils.CreditKeepsBalanced | backend/utils.py:58-86 | A credit keeps balance = earned − commission − paid out iff vendor amount = total − commission. |
| PyUtils.EarningsTx | backend/utils.py:76-86 | The booking-earnings transaction carries the three amounts of the booking. |
| PyUtils.UpdateWalletOnBooking | backend/utils.py:58-86 | It credits the vendor's wallet if one exists and always appends one earnings transaction. It keeps wallets balanced when the split adds up. |
| PyUtils.ProcessedPayout | backend/utils.py:110-122 | The payout gets the new status, settler, time, notes and reference, and keeps its amount and vendor. |
| PyUtils.DebitedWallet | backend/utils.py:126-135 | The balance drops by the amount and the paid-out total rises by it. |
| PyUtils.DebitKeepsBalanced | backend/utils.py:126-135 | A debit keeps balance = earned − commission − paid out. |
| PyUtils.DoubleCompletionDebitsTwice | backend/utils.py:97-135 | Completing the same payout twice debits the wallet twice. |
| PyUtils.SettlePathsCompared | backend/utils.py:126-135 | The Python debit keeps the wallet balanced. The TypeScript settlement does so iff the balance equals the amount. Both raise paid-out by the same amount. |
| PyUtils.PayoutNotice | backend/utils.py:138-143 | The notice is addressed to the payout's vendor id. |
| PyUtils.ProcessPayout | backend/utils.py:97-143 | An unknown payout is an error and changes nothing. Status completed debits the wallet and notifies; any other status leaves the wallet untouched. Wallets stay balanced. |
| PyUtils.RatingOf | backend/utils.py:149-192 | No reviews gives 0/0. Otherwise the count is the number of reviews read, at most 1000. The average, in hundredths of a star, is within half a hundredth of their mean. |
| PyUtils.RatingInRange | backend/utils.py:149-192 | When every rating is 1..5, a vendor with reviews averages between 1.00 and 5.00. |
| PyUtils.UpdateVendorRating | backend/utils.py:149-192 | The vendor's summary row is replaced or inserted with the recomputed rating. Every other row is unchanged. |
| PyUtils.CheckSlotAvailability | backend/utils.py:239-247 | False for an unknown slot, else available and booked count < capacity. |
| PyUtils.IncrementedSlot | backend/utils.py:249-267 | One more booking, and the slot closes once the count reaches the capacity. |
| PyUtils.IncrementCapacity | backend/utils.py:249-267 | The increment overbooks a full slot but keeps a slot that had room within capacity. |
| PyUtils.IncrementSlotBooking | backend/utils.py:249-267 | Only the named slot changes, to its incremented form. |
| PyUtils.DecrementedSlot | backend/utils.py:269-279 | One fewer booking, with no floor at 0, and the slot is open again. |
| PyUtils.DecrementSlotBooking | backend/utils.py:269-279 | Only the named slot changes, to its decremented form. |
| PyUtils.DecrementUndoesIncrement | backend/utils.py:249-279 | A decrement restores the count, and restores the slot iff it was available. |
| PyUtils.BookingNotices | backend/utils.py:213-237 | The customer is notified when the booking has one, then the vendor's user. |
| PyBookings.CreateGuard | backend/routes/bookings.py:31-51 | In order, each iff every earlier check passed: package missing or inactive (404), vendor missing or unapproved (404 VendorNotApproved), named slot unavailable (400 SlotFull). The package is never checked against `vendor_id`. |
| PyBookings.CreateGuardFilters | backend/routes/bookings.py:31-43 | With unique ids, the package 404 is iff `find_one({'id', 'is_active': True})` finds nothing, the vendor 404 iff the package is found and `find_one({'id', 'is_approved': True})` finds nothing, and an accepted booking uses the package row found. |
| PyBookings.PyNewBooking | backend/routes/bookings.py:54-71 | The booking is pending and unpaid, with the Python split of the price. |
| PyBookings.CreateBooking | backend/routes/bookings.py:23-79 | A rejection changes nothing. Success appends the booking and increments its slot iff one is given. Slot consistency and balanced splits are kept. |
| PyBookings.IncrementKeepsSlotsConsistent | backend/utils.py:239-267 | Booking a slot that passed the availability check keeps every slot within capacity and closed when full. |
| PyBookings.DecrementKeepsSlotsConsistent | backend/utils.py:269-279 | Releasing a booking keeps the slots consistent. |
| PyBookings.UserRole | backend/utils.py:285-289 | The role is known iff the user document exists. |
| PyBookings.UpdateGuard | backend/routes/bookings.py:95-137 | A missing booking gives 404. For an existing booking every refusal is 403: a caller who is neither a participant nor an admin gets 403 Forbidden, and only such a caller does. A move the customer or vendor rule refuses gets 403 too. |
| PyBookings.PyUpdated | backend/routes/bookings.py:140-168 | The status and the supplied fields are set, with the timestamp of the target status. Amounts, parties and slot are unchanged. |
| PyBookings.ApplyStatusChange | backend/routes/bookings.py:140-168 | Every confirm credits the wallet and logs a transaction, with no once-per-booking guard. Every cancel decrements the slot. Splits, wallet balance and slot consistency are kept. |
| PyBookings.ApplyConfirm | backend/routes/bookings.py:142-153 | A confirmation always credits the wallet and logs one earnings transaction. The notices and the booking are written only when the vendor row exists; otherwise the result is a 500. Splits and wallet balance are kept. |
| PyBookings.ApplyOther | backend/routes/bookings.py:155-167 | Any other move writes the updated booking, and a cancellation with a slot releases that slot. Splits and slot consistency are kept. |
| PyBookings.ConfirmWrites | backend/routes/bookings.py:143-168 | With the vendor row, the booking is rewritten as confirmed and the booking notices are appended; without it, 500 and neither changes. Splits stay balanced. |
| PyBookings.ReleaseSlot | backend/routes/bookings.py:159-163 | A cancelled booking that names an existing slot releases one seat of it; otherwise the slots are unchanged. Slot consistency is kept. |
| PyBookings.UpdateBookingStatus | backend/routes/bookings.py:85-171 | A rejection, or a request with no status, changes nothing. A confirm whose vendor is missing gives 500 after logging the earnings transaction, and leaves the booking as it was. Otherwise the change is applied. Every invariant is kept. |
| PyBookings.InsertBooking | backend/routes/bookings.py:73-77 | The booking is appended and, when a slot was named, that slot gains one booked seat; slot consistency and balanced splits are kept. |
| PyAdmin.Decided | backend/routes/admin.py:47-62 | The status is the decision's, and approval is set iff the decision is approve. |
| PyAdmin.ApproveVendor | backend/routes/admin.py:33-78 | An unknown vendor gives 404. An approval leaves the vendor with a wallet and sends a notice. Flags agree with statuses and wallets stay balanced. |
| PyAdmin.Onboard | backend/routes/admin.py:64-74 | The vendor gets a wallet when it has none (an existing wallet is kept) and exactly one approval notice is appended; wallets stay balanced. |
| PyAdmin.SuspendVendor | backend/routes/admin.py:80-103 | An unknown vendor gives 404. Otherwise the status becomes suspended and approval is cleared. |
| PyAdmin.RateInRange | backend/routes/admin.py:126 | A rate is accepted iff it lies in [0%, 100%], else 422. |
| PyAdmin.GetCommissionSettings | backend/routes/admin.py:109-122 | It returns the settings, creating them with 15% when missing. |
| PyAdmin.UpdateCommissionSettings | backend/routes/admin.py:124-153 | An out-of-range rate gives 422 and changes nothing. Otherwise the settings hold the new rate. |
| PyAdmin.SetVendorCommissionRate | backend/routes/admin.py:155-173 | Bounds are checked first (422); then an unknown vendor gives 404. Otherwise the vendor's rate is set. |
| PyAdmin.RatesSetHereBoundCommission | backend/routes/admin.py:155-173 | A rate accepted here becomes the rate `get_commission_rate` returns, and keeps the commission within the price. |
| PyAdmin.PayoutsListed | backend/routes/admin.py:179-195 | At most 200 payouts, each in the table and matching the given filters; when at most 200 match, every matching payout is listed. |
| PyAdmin.MatchingPayouts | backend/routes/admin.py:188-192 | Exactly the payouts that match the status and vendor filters. An absent filter matches all, and so does an empty vendor id. |
| PyAdmin.CreatePayoutGuard | backend/routes/admin.py:206-220 | Vendor missing (404), then wallet missing (404), then amount > balance (400). |
| PyAdmin.NonPositivePayoutAccepted | backend/routes/admin.py:206-220 | A zero or negative amount passes the guard. |
| PyAdmin.CreatePayout | backend/routes/admin.py:197-240 | A rejection changes nothing. Success inserts a pending payout and notifies, and the wallet is not touched. |
| PyAdmin.SettlePayout | backend/routes/admin.py:242-259 | It runs `process_payout` and returns the re-read payout; an unknown payout surfaces as 500 and changes nothing. Otherwise the payout is processed, a completed settlement debits the wallet, and exactly a completed settlement appends the payout notice. Wallets stay balanced. |
| PyAdmin.AdminDashboard | backend/routes/admin.py:265-296 | Each count reads at most its `to_list` limit, and the pending and approved counts never exceed the vendors read. |
| PyAdmin.DashboardVendorsDisjoint | backend/routes/admin.py:273-276 | While flags agree with statuses, no vendor is counted both as pending and as approved. |
| PyAdmin.DashboardMatchesFinancials | backend/routes/admin.py:279-286 | Within the read limits, revenue, commission, the approved-vendor count and pending payouts equal `getAdminFinancials`. |
| PyAdmin.DashboardNetIsVendorShare | backend/routes/admin.py:279-286 | Revenue less commission is the vendor share of the completed bookings, when every split adds up. |
| PyReviews.CreateGuard | backend/routes/reviews.py:24-58 | In order, each iff every earlier check passed: booking missing (404), not completed (400), caller not its customer (403), already reviewed (400 DuplicateReview), rating outside 1..5 (500 from the validator). |
| PyReviews.CheckOrderDiffers | backend/routes/reviews.py:24-48 | For another customer's booking that is not completed, Python answers 400 and the edge function 403. |
| PyReviews.CreateReview | backend/routes/reviews.py:15-65 | Success appends the review and recomputes the vendor rating. One review per booking and valid ratings are kept. |
| PyReviews.NoSecondReview | backend/routes/reviews.py:42-48 | Once a booking has a review, every further attempt is refused. |
| PyReviews.VendorReviewsListed | backend/routes/reviews.py:71-92 | The vendor's reviews, only for an approved vendor, else 404. |
| PyReviews.VendorReviewsFilter | backend/routes/reviews.py:80-86 | With unique ids, the reviews are listed iff `find_one({'id', 'is_approved': True})` finds the vendor. |
| PyReviews.Revised | backend/routes/reviews.py:136-147 | Only the supplied fields change. |
| PyReviews.UpdateGuard | backend/routes/reviews.py:115-133 | A rating outside 1..5 gives 422, then a missing review 404. A non-author of an existing review gives 403, and 403 arises only that way. |
| PyReviews.UpdateReview | backend/routes/reviews.py:115-153 | A rejection changes nothing. Success revises the review and recomputes the rating, keeping the review invariants. |
| PyReviews.DeleteGuard | backend/routes/reviews.py:155-173 | A missing review gives 404. Otherwise it passes iff the caller is the author or an admin, else 403. |
| PyReviews.DeleteReview | backend/routes/reviews.py:155-181 | Success removes the review and recomputes the rating, keeping the review invariants. |
| PyReviews.RecomputedSummaryInRange | backend/utils.py:149-192 | The recomputed summary is 0/0 or an average between 1.00 and 5.00. |
| PyTimeSlots.CreateTimeSlot | backend/routes/time_slots.py:14-29 | Another vendor's slot gives 403. Otherwise a fresh slot is appended. |
| PyTimeSlots.MySlots | backend/routes/time_slots.py:31-44 | At most 200 slots, each the caller's and on the given day when one is given. When no more than 200 match, every matching slot is listed. |
| PyTimeSlots.VendorSlots | backend/routes/time_slots.py:39-41 | Exactly the caller's slots, on the given day when one is given. |
| PyTimeSlots.Changed | backend/routes/time_slots.py:64-71 | Only the supplied capacity and availability change. |
| PyTimeSlots.OwnedSlot | backend/routes/time_slots.py:56-61 | A missing slot gives 404 and another vendor's 403. |
| PyTimeSlots.UpdateTimeSlot | backend/routes/time_slots.py:46-73 | A rejection changes nothing; otherwise the slot is replaced by its changed form. |
| PyTimeSlots.UpdateCanOverbook | backend/routes/time_slots.py:64-71 | Lowering the capacity below the booked count is accepted. |
| PyTimeSlots.DeleteTimeSlot | backend/routes/time_slots.py:75-97 | Ownership errors as for update. A slot with bookings gives 400; otherwise it is removed. Consistency is kept. |
| PyTimeSlots.PackageAvailability | backend/routes/time_slots.py:103-141 | 404 unless the package is active and its vendor approved. Otherwise at most 100 slots, each an available, non-full slot of the vendor in the date range. When the query matches at most 100 available slots, every such slot with room is listed. |
| PyTimeSlots.PackageAvailabilityFilters | backend/routes/time_slots.py:112-122 | With unique ids, the package 404 is iff the active-package lookup finds nothing; slots are listed iff both compound lookups find a row, and they are the open slots of the vendor of the package found. |
| PyTimeSlots.QueriedSlots | backend/routes/time_slots.py:125-134 | Exactly the vendor's available slots in the date range. |
| PyTimeSlots.OpenSlots | backend/routes/time_slots.py:135-139 | At most 100 slots, each available, in range and with room. When at most 100 are available in range, all those with room are kept. |
| PyTimeSlots.DateFilterCases | backend/routes/time_slots.py:131-134 | Both bounds give a closed range and a start alone an open one; an end alone is ignored. |
| PyTimeSlots.ListedSlotsAreBookable | backend/routes/time_slots.py:125-139 | Every listed slot passes `check_slot_availability`, when slot ids are unique. |
| PyPackages.CreatePackage | backend/routes/packages.py:14-29 | Another vendor gives 403 and a non-positive price 500. Otherwise an active package is appended. Positive prices are kept. |
| PyPackages.MyPackages | backend/routes/packages.py:31-40 | At most 100 packages, each the caller's, inactive ones included. When the caller has at most 100, all of them are listed. |
| PyPackages.VendorPackages | backend/routes/packages.py:36-38 | Exactly the caller's packages, inactive ones included. |
| PyPackages.OwnedPackage | backend/routes/packages.py:52-57 | A missing package gives 404 and another vendor's 403. |
| PyPackages.Revised | backend/routes/packages.py:59-67 | Only the supplied fields change; the owner never does. |
| PyPackages.UpdatePackage | backend/routes/packages.py:42-69 | A rejection changes nothing. Otherwise the revised package is written. The response is that package when its price is positive, and 500 when it is not, because the response model validates the price after the write. Prices stay positive only when a supplied price is. |
| PyPackages.PackageResponse | backend/models.py:118-123 | The response passes iff the price is positive; otherwise 500. |
| PyPackages.UpdateAcceptsZeroPrice | backend/models.py:135-138 | An update can store a price of 0, which creation refuses. |
| PyPackages.DeletePackage | backend/routes/packages.py:71-93 | The delete is soft: the row stays, inactive, and positive prices are kept. |
| PyPackages.ApprovedIds | backend/routes/packages.py:111-126 | At most 1000 ids, each of an approved vendor. |
| PyPackages.BrowsePackages | backend/routes/packages.py:99-137 | A named vendor that is not approved gives 404; an empty vendor id counts as none. Otherwise only active packages within the inclusive price range, of the named vendor or of approved vendors. |
| PyPackages.VendorIsApprovedFilter | backend/routes/packages.py:115-120 | With unique ids, the vendor check passes iff `find_one({'id', 'is_approved': True})` finds a row. |
| PyPackages.BrowseAllApproved | backend/routes/packages.py:111-134 | With at most 1000 approved vendors, every active package of an approved vendor in the price range is listed. |
| PyPackages.PackageDetails | backend/routes/packages.py:139-161 | Found iff the package is active and its vendor approved, else 404. |
| PyPackages.PackageDetailsFilters | backend/routes/packages.py:143-158 | With unique ids, the details are found iff both compound lookups find a row, and they are the package row found. |
| PyPackages.PackageDetailsOnRepeatedId | backend/routes/packages.py:143-149 | With an inactive and then an active row under one id, the model answers 404 while the compound lookup finds the active row. |
| PyPackages.DeletedPackageHidden | backend/routes/packages.py:87-91 | A soft-deleted package leaves both public views and stays among its vendor's packages, in the capped listing whenever the vendor has at most 100. |
| PyVendors.RegisterVendor | backend/routes/vendors.py:23-58 | A second profile gives 400 and changes nothing. Otherwise a pending, unapproved vendor is appended and the user's role becomes vendor. It keeps one profile per user and flags agreeing with statuses. |
| PyVendors.PromoteToVendor | backend/routes/vendors.py:50-54 | The user's role becomes vendor when the user exists; no other user changes, and an unknown user leaves the table as it was. |
| PyVendors.RegisterOnce | backend/routes/vendors.py:32-34 | After a registration the user has a profile, so a second one is refused. |
| PyVendors.UpdateVendorProfile | backend/routes/vendors.py:65-82 | Only descriptive fields change: status, approval and commission rate are kept. |
| PyVendors.DashboardBookings | backend/routes/vendors.py:89-91 | At most 1000 bookings, each a booking of the table and of the vendor; when the vendor has at most 1000, all of them are listed. |
| PyVendors.BookingsOfVendor | backend/routes/vendors.py:89-91 | Exactly the bookings of the vendor. |
| PyVendors.VendorDashboardOf | backend/routes/vendors.py:84-126 | A missing wallet gives balance 0 and a missing summary gives 0/0. When the vendor has at most 100 pending payouts, the pending payout figure is the sum of their amounts. |
| PyVendors.PendingPayoutsOf | backend/routes/vendors.py:105-108 | Exactly the vendor's pending payouts. |
| PyVendors.DashboardCountsBounded | backend/routes/vendors.py:93-96 | pending + confirmed + completed ≤ total bookings. |
| PyVendors.DashboardRevenueIsEarnings | backend/routes/vendors.py:99 | Revenue is the sum of vendor amounts of completed bookings. With balanced splits it equals `calculateVendorEarnings`' total. |
| PyVendors.BrowseVendors | backend/routes/vendors.py:132-146 | Exactly the vendors that are approved in both flag and status. |
| PyVendors.VendorDetails | backend/routes/vendors.py:148-162 | Found iff the vendor is approved in both flag and status, else 404. |
| PyVendors.VendorDetailsFilter | backend/routes/vendors.py:153-160 | With unique ids, found iff the three-field `find_one` finds a row, and the answer is that row. |
| PyVendors.PublicViewsShowApproved | backend/routes/vendors.py:141 | While flags agree with statuses, a vendor is listed iff its flag is set. |
| RoleManagement.UserRoleOf | frontend/src/lib/roleManagement.ts:119-137 | A query error gives null and no rows give customer. Admin iff any row is admin; vendor iff no admin row and some vendor row. |
| RoleManagement.UserRoleIsHighest | frontend/src/lib/roleManagement.ts:133-136 | The chosen role outranks every role the user holds, and is one of them. |
| RoleManagement.MoreRolesNeverLower | frontend/src/lib/roleManagement.ts:133-136 | Adding a role row never lowers the role. |
| RoleManagement.VendorStatusOf | frontend/src/lib/roleManagement.ts:143-155 | Null without exactly one vendor row. Approved iff that row is approved. Never rejected. |
| RoleManagement.VendorIdOf | frontend/src/lib/roleManagement.ts:160-168 | A returned id is non-empty and belongs to a vendor row of the user. |
| RoleManagement.OneProfileStatus | frontend/src/lib/roleManagement.ts:143-168 | With exactly one row for the user, the status and id are that row's. |
| RoleManagement.DashboardRoute | frontend/src/lib/roleManagement.ts:178-190 | Null goes to /auth, admin to /admin and customer to /. A vendor goes to /vendor/dashboard iff approved, else to /vendor/register. |
| RoleManagement.CanAccessDashboard | frontend/src/lib/roleManagement.ts:195-204 | False for null. True for admin and customer. True for a vendor iff approved. |
| RoleManagement.AccessMatchesRoute | frontend/src/lib/roleManagement.ts:178-204 | Access is refused iff the route is /auth or /vendor/register. |
| DashboardRouting.DashboardDestination | frontend/src/lib/dashboardRouting.ts:64-80 | Admin goes to /admin. A vendor goes to /vendor/dashboard iff it has a vendor id and is approved, else to /vendor/register. Any other role, null included, goes to /. |
| DashboardRouting.HookNavigation | frontend/src/lib/dashboardRouting.ts:31-57 | No navigation while auth loads, or with no user or no role. |
| DashboardRouting.HookFollowsDestination | frontend/src/lib/dashboardRouting.ts:31-80 | The hook navigates iff it is ready, and then to exactly `getDashboardDestination`. |
| DashboardRouting.DestinationAgreesWithRoute | frontend/src/lib/dashboardRouting.ts:64-80 | For a known role the two route helpers agree. With no role, one gives / and the other /auth. |

## Left out

- Floating point: amounts are exact paise, and the binary rounding of `Math.round(x * 100) / 100` and Python's `round` on doubles is not modelled.
- HTTP plumbing: CORS, request parsing, catch-all 500 handlers and response message texts are not modelled.
- Authentication: sessions, JWT decoding and `backend/auth.py`. The caller is an input.
- Concurrency: every handler runs atomically. Interleavings between the reads and writes of a handler are not modelled.
- RPC bodies: `is_admin`, `is_vendor_owner`, `increment_booked_count` and `record_booking_earnings` are not shown. They are inputs, a +1 and a log append.
- Query ordering (`created_at`, `slot_date`) and Mongo paging parameters: results keep table order. A `to_list` cap is modelled as `Take`, and a capped listing promises completeness only when no more rows match than the cap, since which rows a sorted cap keeps is not modelled.
- Signup functions and the TypeScript `approveVendor`/`rejectVendor` of roleManagement.ts: these are auth and table I/O with no guard logic.
- The vendor `location` regex of the browse route is not modelled.
- Descriptive fields (contact data, description, logo, times of day, package descriptions) are not modelled. PyVendors.UpdateVendorProfile models only the company name among them.
- Listing routes with no guard logic are not modelled: `get_pending_vendors`, `get_all_bookings`, `get_my_bookings`, `get_booking_details`, `get_vendor_profile`.
- Notifications carry only recipient, type and related record. Their titles and messages are not modelled.
- Explicit JSON `null` versus a missing field: both are `None`. In a TypeScript request body, an empty string stands for a missing or falsy value. In a Python query parameter tested with `if q:`, an empty string is falsy too: `Given` is false for it, so an empty `vendor_id` filters nothing (admin.py:191, packages.py:113), and an empty date parameter is `None`.
- PyPackages.MyPackages, PyPackages.BrowsePackages and PyPackages.PackageDetails do not model the response validation of a stored non-positive price (a 500 for the whole listing); such a price exists only after an update supplied it.
- Repeated ids: PyBookings.CreateGuard, PyPackages.VendorIsApproved, PyPackages.BrowsePackages, PyPackages.PackageDetails, PyTimeSlots.PackageAvailability, PyReviews.VendorReviewsListed and PyVendors.VendorDetails judge only the first row with the id. Mongo's compound `find_one` would take the first row that passes the whole filter. They agree when ids are unique, which the server's uuid4 ids give (backend/models.py:44), and the `…Filters` lemmas prove it. With a repeated id an earlier failing row hides a later passing one (PyPackages.PackageDetailsOnRepeatedId).
- PackageQueries.SlotQueryAsWritten reads a value as an integer when it is an optional sign followed by decimal digits. The SQL type of `capacity` is not part of this model, so a value beyond that type's range is not modelled as an error. Surrounding whitespace and the underscore and `0x` forms that newer PostgreSQL versions accept are not modelled either.
- React pages, components and `useAuth.tsx` are not modelled; they are rendering glue.
- PackageQueries.FetchCustomerPackages and PackageQueries.HasBookableSlots read the slot table with the intended `booked_count < capacity`, not the `.gt("capacity", "booked_count")` literal comparison of `src/lib/packageQueries.ts:62` and `:146`; PackageQueries.SlotQueryAsWritten models that query (see Findings).
- The status field is single in the model. `create-booking` writes `status` while the other edge functions read `booking_status`; StatusColumns models the two columns (see Findings).
- ProcessSettlement.SettlePayout: it uses the corrected paid-out total, PaidOutIntended, rather than the one as written (see Findings).
- ProcessSettlement.SettledWallet: it gives the corrected paid-out total, PaidOutIntended (old total plus the amount), not the `existing || 0 + amount` of `supabase/functions/process-settlement/index.ts:217-224`, which keeps any non-zero existing total (see Findings).

## Findings

| source | as written | input that shows it | evidently intended | confidence | as-written member | corrected member |
|---|---|---|---|---|---|---|
| supabase/functions/process-settlement/index.ts:217-224 | `total_paid_out: existing \|\| 0 + payout.amount` parses as `existing \|\| (0 + amount)`, so a non-zero existing total is kept and the payout is not added | a wallet with `total_paid_out` 5000 settles a payout of 3000: it records 5000 | `(existing \|\| 0) + amount`, which records 8000 | high (not executed) | ProcessSettlement.PaidOutAsWritten (ProcessSettlement.PaidOutSecondPayoutExample) | ProcessSettlement.PaidOutIntended |
| src/lib/packageQueries.ts:62 | `.gt("capacity", "booked_count")` sends the text "booked_count" as the value compared with the integer column `capacity`; the database cannot read it as an integer, so the slot query fails and its error branch returns `[]` (the same filter at line 146 makes `hasBookableSlots` return false) | an approved vendor with an active package and a slot today with capacity 10 and 0 booked: the customer listing is empty | compare `capacity` with the `booked_count` column, a slot with room | medium (not executed) | PackageQueries.SlotQueryAsWritten (PackageQueries.CapacityLiteralFailsQuery, PackageQueries.VisiblePackageHiddenAsWritten) | PackageQueries.FetchCustomerPackages, PackageQueries.HasBookableSlots |
| supabase/functions/create-booking/index.ts:149 | the insert sets `status`, while update-booking-status/index.ts:71, 97-104 and manage-reviews/index.ts:81, 106 select and test `booking_status`, so a new row's gate status is the column default | any column default: with one other than `pending`, a new online booking cannot be confirmed by its vendor; with `pending`, a manual booking inserted as confirmed passes the gate for a confirmation | one status column, written at creation and read by the gate and the review check | medium (not executed) | StatusColumns.StatusReadAsWritten (StatusColumns.NewBookingMisread, StatusColumns.GateAsWrittenOnNewBooking) | StatusColumns.GateOnNewBooking, with UpdateBookingStatus.Guard on the single `Booking.status` |
