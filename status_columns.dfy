/**
 * The two status columns of a Supabase booking row. `create-booking` inserts the row with
 * `status` (supabase/functions/create-booking/index.ts:149), while `update-booking-status`
 * and `manage-reviews` select, test and rewrite `booking_status`
 * (update-booking-status/index.ts:71, 97-104, 122; manage-reviews/index.ts:81, 106).
 * A freshly inserted row therefore carries its real status in one column and the column
 * default in the other. The rest of the model keeps one field, `Booking.status`, for both.
 */
module StatusColumns {
  import opened Records
  import opened BookingFlow
  import CreateBooking

  /** The two columns of one row. */
  datatype StatusColumns = StatusColumns(status: BookingStatus, bookingStatus: BookingStatus)

  /** The row as inserted: `status` is the booking's status, `booking_status` is left at
      the column default `default`. */
  function Inserted(b: Booking, default: BookingStatus): (c: StatusColumns)
    ensures c.status == b.status
    ensures c.bookingStatus == default
  {
    StatusColumns(b.status, default)
  }

  /** The status the gate and the review check read, as written: `booking_status`. */
  function StatusReadAsWritten(c: StatusColumns): (s: BookingStatus)
    ensures s == c.bookingStatus
  {
    c.bookingStatus
  }

  /** Whatever the column default is, one of the two kinds of new booking is misread: the
      default cannot equal both the pending status of an online booking and the confirmed
      status of a manual one. */
  lemma {:induction false} NewBookingMisread(req: CreateBooking.Request, caller: Option<Id>,
                                             price: Paise, rate: Rate, default: BookingStatus)
    ensures var online := CreateBooking.NewBooking(req.(isManualBooking := false), caller, price, rate);
            var manual := CreateBooking.NewBooking(req.(isManualBooking := true), caller, price, rate);
            || StatusReadAsWritten(Inserted(online, default)) != online.status
            || StatusReadAsWritten(Inserted(manual, default)) != manual.status
  {
    var online := CreateBooking.NewBooking(req.(isManualBooking := false), caller, price, rate);
    var manual := CreateBooking.NewBooking(req.(isManualBooking := true), caller, price, rate);
    assert online.status == Pending && manual.status == Confirmed;
  }

  /** The consequence at the gate, as written: unless the default is `pending`, no vendor
      can confirm a new online booking (a pending booking reads as something else), and when
      the default is `pending`, a manual booking, inserted as confirmed, still reads as pending
      and passes the gate for a confirmation. */
  lemma {:induction false} GateAsWrittenOnNewBooking(req: CreateBooking.Request, caller: Option<Id>,
                                                     price: Paise, rate: Rate, default: BookingStatus)
    ensures var online := CreateBooking.NewBooking(req.(isManualBooking := false), caller, price, rate);
            default != Pending ==>
              !EdgeAuthorized(StatusReadAsWritten(Inserted(online, default)), Confirmed, false, true, false)
    ensures var manual := CreateBooking.NewBooking(req.(isManualBooking := true), caller, price, rate);
            default == Pending ==>
              && manual.status == Confirmed
              && EdgeAuthorized(StatusReadAsWritten(Inserted(manual, default)), Confirmed, false, true, false)
  {
    var manual := CreateBooking.NewBooking(req.(isManualBooking := true), caller, price, rate);
    assert manual.status == Confirmed;
  }

  /** With one status field, as the model keeps it: the booking's vendor can confirm a new
      booking exactly when it was booked online: an online booking is confirmable and a manual
      one, already confirmed, is not. */
  lemma {:induction false} GateOnNewBooking(req: CreateBooking.Request, caller: Option<Id>, price: Paise, rate: Rate)
    ensures var b := CreateBooking.NewBooking(req, caller, price, rate);
            EdgeAuthorized(b.status, Confirmed, false, true, false) <==> !req.isManualBooking
  {
    var b := CreateBooking.NewBooking(req, caller, price, rate);
    assert req.isManualBooking ==> b.status == Confirmed;
  }
}
