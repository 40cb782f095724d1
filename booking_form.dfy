/** The booking dialog (src/components/bookings/BookingFormDialog.tsx): its validation schema,
    the mapping that loads a booking into the form, and the store action it submits. */
module BookingForm {
  import opened Collections
  import opened Entities
  import opened Store

  datatype BookingFormData = BookingFormData(
    customerId: string, programName: string, totalAmount: int, visaDeposit: int)

  /** The schema: a chosen customer, a program name of at least two characters, a total of at
      least 1 and a non-negative deposit. Nothing relates the deposit to the total. */
  predicate ValidBookingForm(f: BookingFormData)
  {
    |f.customerId| >= 1 && |f.programName| >= 2 && f.totalAmount >= 1 && f.visaDeposit >= 0
  }

  /** The form's initial values, which the schema rejects until the user fills them in. */
  const EmptyBookingForm := BookingFormData("", "", 0, 0)

  /** The reset that runs when the dialog is given another booking, or none: that booking's
      values, or the initial ones. */
  function LoadBooking(b: Option<Booking>): (f: BookingFormData)
    ensures b.None? ==> f == EmptyBookingForm
    ensures b.Some? ==> f.customerId == b.value.customerId && f.programName == b.value.programName
    ensures b.Some? ==> f.totalAmount == b.value.totalAmount && f.visaDeposit == b.value.visaDeposit
  {
    match b
    case None => EmptyBookingForm
    case Some(r) => BookingFormData(r.customerId, r.programName, r.totalAmount, r.visaDeposit)
  }

  /** A new booking cannot be submitted before a customer, a program and a total are entered. */
  lemma NewFormRejected()
    ensures !ValidBookingForm(LoadBooking(None))
  {
  }

  /** What a submission asks of the store: a new booking, or a partial update of an existing one. */
  datatype BookingSubmission =
    | AddBookingAction(booking: Booking)
    | UpdateBookingAction(id: string, patch: BookingPatch)

  /** The submission for validated form data. `editing` is the booking being edited, if any;
      `newId` and `now` stand for the random identifier and the clock reading of a new booking. */
  function SubmitBooking(f: BookingFormData, editing: Option<Booking>, newId: string, now: string): (s: BookingSubmission)
    requires ValidBookingForm(f)
    ensures s.UpdateBookingAction? <==> editing.Some?
    ensures s.UpdateBookingAction? ==>
      && s.id == editing.value.id
      && s.patch == BookingPatch(None, Some(f.customerId), Some(f.programName), Some(f.totalAmount),
                                 Some(f.visaDeposit), Some(f.totalAmount - f.visaDeposit),
                                 None, None, None, None, None, None)
    ensures s.AddBookingAction? ==>
      && s.booking.id == newId && s.booking.createdAt == now
      && s.booking.customerId == f.customerId && s.booking.programName == f.programName
      && s.booking.totalAmount == f.totalAmount && s.booking.visaDeposit == f.visaDeposit
      && s.booking.remainingAmount == f.totalAmount - f.visaDeposit
      && !s.booking.isPaid
      && s.booking.travelDirection.None? && s.booking.fromLocation.None?
      && s.booking.toLocation.None? && s.booking.departureDate.None?
  {
    var remaining := f.totalAmount - f.visaDeposit;
    if editing.Some? then
      UpdateBookingAction(editing.value.id,
        BookingPatch(None, Some(f.customerId), Some(f.programName), Some(f.totalAmount),
                     Some(f.visaDeposit), Some(remaining), None, None, None, None, None, None))
    else
      AddBookingAction(Booking(newId, f.customerId, f.programName, f.totalAmount, f.visaDeposit,
                               remaining, false, now, None, None, None, None))
  }

  /** The booking a submission leaves in place of `b` (for an edit, `b` is the edited booking). */
  function Resulting(s: BookingSubmission, b: Booking): Booking
  {
    match s
    case AddBookingAction(nb) => nb
    case UpdateBookingAction(_, p) => MergeBooking(p)(b)
  }

  /** On both paths the stored balance is the total less the deposit, and an edit keeps the
      booking's identity, paid flag and creation time. */
  lemma SubmittedBalance(f: BookingFormData, editing: Option<Booking>, newId: string, now: string, b: Booking)
    requires ValidBookingForm(f)
    requires editing.Some? ==> b == editing.value
    ensures var r := Resulting(SubmitBooking(f, editing, newId, now), b);
      && r.remainingAmount == f.totalAmount - f.visaDeposit
      && r.totalAmount == f.totalAmount && r.visaDeposit == f.visaDeposit
      && (editing.Some? ==> r.id == b.id && r.isPaid == b.isPaid && r.createdAt == b.createdAt)
      && (editing.None? ==> !r.isPaid)
  {
  }

  /** Loading a booking and submitting it unchanged recomputes its balance and changes nothing
      else; a booking whose balance already is total less deposit comes back as it was. */
  lemma {:induction false} EditRoundTrip(b: Booking, newId: string, now: string)
    requires ValidBookingForm(LoadBooking(Some(b)))
    ensures Resulting(SubmitBooking(LoadBooking(Some(b)), Some(b), newId, now), b)
            == b.(remainingAmount := b.totalAmount - b.visaDeposit)
    ensures b.remainingAmount == b.totalAmount - b.visaDeposit ==>
            Resulting(SubmitBooking(LoadBooking(Some(b)), Some(b), newId, now), b) == b
  {
  }

  /** The schema accepts a deposit larger than the total, which stores a negative balance. */
  lemma DepositAboveTotalAccepted()
    ensures var f := BookingFormData("c1", "umrah", 1000, 1500);
      && ValidBookingForm(f)
      && SubmitBooking(f, None, "b1", "2024-01-01T00:00:00Z").booking.remainingAmount < 0
  {
  }

  /** Editing a paid booking gives it back a balance: it stays paid but owes the total less the
      deposit again. */
  lemma PaidEditReopensBalance()
    ensures var b := Booking("b1", "c1", "umrah", 10000, 2000, 0, true, "2024-01-01T00:00:00Z",
                             None, None, None, None);
      var r := Resulting(SubmitBooking(LoadBooking(Some(b)), Some(b), "unused", "unused"), b);
      && r.isPaid && r.remainingAmount == 8000
  {
  }
}
