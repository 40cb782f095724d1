/** The visa dialog (src/components/visas/VisaFormDialog.tsx): the origin and destination lists
    for each travel direction, the validation schema, the loading of a visa into the form, the
    clearing of the locations when the direction changes, and the payload it submits. Dates are
    held by their ISO text; the schema's date objects are not modelled apart from it. */
module VisaForm {
  import opened Collections
  import opened Entities
  import Reports

  /** The 27 Egyptian governorates, in the order the dialog lists them. */
  const Governorates: seq<string> :=
    ["القاهرة", "الجيزة", "الإسكندرية", "الدقهلية", "البحر الأحمر", "البحيرة", "الفيوم",
     "الغربية", "الإسماعيلية", "المنوفية", "المنيا", "القليوبية", "الوادي الجديد",
     "السويس", "أسوان", "أسيوط", "بني سويف", "بورسعيد", "دمياط", "الشرقية", "جنوب سيناء",
     "كفر الشيخ", "مطروح", "الأقصر", "قنا", "شمال سيناء", "سوهاج"]

  /** The six Saudi cities, in the order the dialog lists them. */
  const SaudiCities: seq<string> :=
    ["مكة المكرمة", "المدينة المنورة", "جدة", "الرياض", "الدمام", "الطائف"]

  /** The list the origin is chosen from: governorates when travelling to Saudi Arabia, Saudi
      cities when travelling back. */
  function FromLocations(dir: TravelDirection): (r: seq<string>)
    ensures dir == EgyptToSaudi ==> r == Governorates
    ensures dir == SaudiToEgypt ==> r == SaudiCities
  {
    if dir == EgyptToSaudi then Governorates else SaudiCities
  }

  /** The list the destination is chosen from: the other of the two lists. */
  function ToLocations(dir: TravelDirection): (r: seq<string>)
    ensures dir == EgyptToSaudi ==> r == SaudiCities
    ensures dir == SaudiToEgypt ==> r == Governorates
  {
    if dir == EgyptToSaudi then SaudiCities else Governorates
  }

  /** No governorate is a Saudi city. */
  lemma ListsDisjoint()
    ensures |Governorates| == 27 && |SaudiCities| == 6
    ensures forall i, j :: 0 <= i < |Governorates| && 0 <= j < |SaudiCities| ==>
              Governorates[i] != SaudiCities[j]
  {
  }

  /** Reversing the direction swaps the two lists, and for either direction no entry is offered
      both as origin and as destination. */
  lemma {:induction false} DirectionLists(dir: TravelDirection)
    ensures FromLocations(dir) == ToLocations(if dir == EgyptToSaudi then SaudiToEgypt else EgyptToSaudi)
    ensures forall x :: x in FromLocations(dir) ==> x !in ToLocations(dir)
  {
    ListsDisjoint();
  }

  /** A visa as the visa hook declares its rows: the date columns are `Option`, and the other
      columns are always present. */
  datatype VisaRow = VisaRow(
    id: string,
    customerId: string,
    visaNumber: string,
    issueDate: Option<string>,
    expiryDate: Option<string>,
    status: VisaStatus,
    travelDirection: TravelDirection,
    fromLocation: string,
    toLocation: string,
    departureDate: Option<string>,
    bookingDate: Option<string>)

  /** The form's values. A date not yet picked is `None`. */
  datatype VisaFormData = VisaFormData(
    customerId: string,
    visaNumber: string,
    issueDate: Option<string>,
    expiryDate: Option<string>,
    departureDate: Option<string>,
    status: VisaStatus,
    travelDirection: TravelDirection,
    fromLocation: string,
    toLocation: string)

  /** The schema: a customer, a visa number, all three dates, a document status, and an origin
      and a destination. The locations are only required to be non-empty, not to come from the
      direction's lists. */
  predicate ValidVisaForm(f: VisaFormData)
  {
    && |f.customerId| >= 1 && |f.visaNumber| >= 1
    && f.issueDate.Some? && f.expiryDate.Some? && f.departureDate.Some?
    && IsDocumentStatus(f.status)
    && |f.fromLocation| >= 1 && |f.toLocation| >= 1
  }

  /** The values of a new visa. */
  const DefaultVisaForm := VisaFormData("", "", None, None, None, Pending, EgyptToSaudi, "", "")

  /** A nullable date column as the form receives it: a missing or empty date is not picked. */
  function LoadDate(d: Option<string>): (r: Option<string>)
    ensures r.Some? <==> d.Some? && d.value != ""
    ensures r.Some? ==> r == d
  {
    if d.Some? && d.value != "" then d else None
  }

  /** The reset that runs when the dialog is given another visa, or none: that visa's own values,
      or the defaults. */
  function LoadVisa(visa: Option<VisaRow>): (f: VisaFormData)
    ensures visa.None? ==> f == DefaultVisaForm
    ensures visa.Some? ==>
      && f.customerId == visa.value.customerId && f.visaNumber == visa.value.visaNumber
      && f.issueDate == LoadDate(visa.value.issueDate)
      && f.expiryDate == LoadDate(visa.value.expiryDate)
      && f.departureDate == LoadDate(visa.value.departureDate)
      && f.status == visa.value.status && f.travelDirection == visa.value.travelDirection
      && f.fromLocation == visa.value.fromLocation && f.toLocation == visa.value.toLocation
  {
    match visa
    case None => DefaultVisaForm
    case Some(v) =>
      VisaFormData(v.customerId, v.visaNumber, LoadDate(v.issueDate), LoadDate(v.expiryDate),
                   LoadDate(v.departureDate), v.status, v.travelDirection, v.fromLocation,
                   v.toLocation)
  }

  /** The form after the dialog is given the visa `visa` (or none) while it holds `current`:
      the reset loads the visa's values, and when that changes the direction the effect that
      watches the direction then clears both locations. */
  function Opened(current: VisaFormData, visa: Option<VisaRow>): (f: VisaFormData)
    ensures f.travelDirection == LoadVisa(visa).travelDirection
    ensures f.(fromLocation := LoadVisa(visa).fromLocation, toLocation := LoadVisa(visa).toLocation)
            == LoadVisa(visa)
    ensures current.travelDirection == LoadVisa(visa).travelDirection ==> f == LoadVisa(visa)
    ensures current.travelDirection != LoadVisa(visa).travelDirection ==>
            f.fromLocation == "" && f.toLocation == ""
  {
    var loaded := LoadVisa(visa);
    if loaded.travelDirection != current.travelDirection
    then loaded.(fromLocation := "", toLocation := "")
    else loaded
  }

  /** Loading a visa whose direction differs from the form's current one leaves a form the
      schema rejects, so that visa cannot be saved until both locations are chosen again. */
  lemma DirectionChangeOnOpenBlocksEdit(current: VisaFormData, v: VisaRow)
    requires current.travelDirection != v.travelDirection
    ensures !ValidVisaForm(Opened(current, Some(v)))
  {
  }

  /** The dialog's form, whose values the user and the dialog's effects change in place. */
  class VisaFormState {
    var values: VisaFormData

    constructor ()
      ensures values == DefaultVisaForm
    {
      values := DefaultVisaForm;
    }

    /** The dialog being given another visa, or none: the reset, then the direction effect. */
    method Reset(visa: Option<VisaRow>)
      modifies this
      ensures values == Opened(old(values), visa)
    {
      var before := values.travelDirection;
      values := LoadVisa(visa);
      if values.travelDirection != before {
        values := values.(fromLocation := "");
        values := values.(toLocation := "");
      }
    }

    /** Choosing a direction. When it differs from the current one, the effect that watches the
        direction clears both locations, which the schema then rejects until both are chosen
        again; choosing the same direction changes nothing. */
    method ChangeDirection(dir: TravelDirection)
      modifies this
      ensures dir != old(values).travelDirection ==>
        values == old(values).(travelDirection := dir, fromLocation := "", toLocation := "")
      ensures dir == old(values).travelDirection ==> values == old(values)
      ensures dir != old(values).travelDirection ==> !ValidVisaForm(values)
    {
      var changed := dir != values.travelDirection;
      values := values.(travelDirection := dir);
      if changed {
        values := values.(fromLocation := "");
        values := values.(toLocation := "");
      }
    }

    /** Picking an origin and a destination. */
    method ChooseLocations(from: string, to: string)
      modifies this
      ensures values == old(values).(fromLocation := from, toLocation := to)
    {
      values := values.(fromLocation := from, toLocation := to);
    }
  }

  /** The record the dialog sends to the database. */
  datatype VisaPayload = VisaPayload(
    customerId: string,
    visaNumber: string,
    issueDate: string,
    expiryDate: string,
    departureDate: string,
    status: VisaStatus,
    travelDirection: TravelDirection,
    fromLocation: string,
    toLocation: string,
    bookingDate: string)

  datatype VisaSubmission =
    | AddVisaAction(payload: VisaPayload)
    | UpdateVisaAction(id: string, payload: VisaPayload)

  /** The booking date sent: the edited visa's own when it has a non-empty one, otherwise the
      date part of the current time `now`. */
  function BookingDate(editing: Option<VisaRow>, now: string): (r: string)
    ensures editing.Some? && editing.value.bookingDate.Some? && editing.value.bookingDate.value != ""
            ==> r == editing.value.bookingDate.value
    ensures !(editing.Some? && editing.value.bookingDate.Some? && editing.value.bookingDate.value != "")
            ==> r == Reports.DatePart(now)
  {
    if editing.Some? && editing.value.bookingDate.Some? && editing.value.bookingDate.value != ""
    then editing.value.bookingDate.value
    else Reports.DatePart(now)
  }

  /** The submission for validated form data; `editing` is the visa being edited, if any. */
  function SubmitVisa(f: VisaFormData, editing: Option<VisaRow>, now: string): (s: VisaSubmission)
    requires ValidVisaForm(f)
    ensures s.UpdateVisaAction? <==> editing.Some?
    ensures s.UpdateVisaAction? ==> s.id == editing.value.id
    ensures s.payload.customerId == f.customerId && s.payload.visaNumber == f.visaNumber
    ensures s.payload.issueDate == Reports.DatePart(f.issueDate.value)
    ensures s.payload.expiryDate == Reports.DatePart(f.expiryDate.value)
    ensures s.payload.departureDate == Reports.DatePart(f.departureDate.value)
    ensures s.payload.status == f.status && IsDocumentStatus(s.payload.status)
    ensures s.payload.travelDirection == f.travelDirection
    ensures s.payload.fromLocation == f.fromLocation && s.payload.toLocation == f.toLocation
    ensures s.payload.bookingDate == BookingDate(editing, now)
  {
    var p := VisaPayload(f.customerId, f.visaNumber, Reports.DatePart(f.issueDate.value),
                         Reports.DatePart(f.expiryDate.value), Reports.DatePart(f.departureDate.value),
                         f.status, f.travelDirection, f.fromLocation, f.toLocation,
                         BookingDate(editing, now));
    if editing.Some? then UpdateVisaAction(editing.value.id, p) else AddVisaAction(p)
  }

  /** A date already in the database's day form has no time part, so the payload's date split
      gives it back. */
  lemma {:induction false} DayTextUnchanged(d: string)
    requires 'T' !in d
    ensures Reports.DatePart(d) == d
  {
    if d != [] {
      assert d[0] in d;
      assert forall c :: c in d[1..] ==> c in d;
      DayTextUnchanged(d[1..]);
    }
  }

  /** The row an update turns `v` into. */
  function ApplyVisaUpdate(v: VisaRow, p: VisaPayload): VisaRow
  {
    VisaRow(v.id, p.customerId, p.visaNumber, Some(p.issueDate), Some(p.expiryDate), p.status,
            p.travelDirection, p.fromLocation, p.toLocation, Some(p.departureDate), Some(p.bookingDate))
  }

  /** Opening a complete visa in a form already in its direction and saving it unchanged writes
      back the same row: its dates, its fields and its original booking date. */
  lemma EditRoundTrip(current: VisaFormData, v: VisaRow, now: string)
    requires current.travelDirection == v.travelDirection
    requires v.issueDate.Some? && v.expiryDate.Some? && v.departureDate.Some? && v.bookingDate.Some?
    requires v.issueDate.value != "" && v.expiryDate.value != "" && v.departureDate.value != ""
    requires v.bookingDate.value != ""
    requires 'T' !in v.issueDate.value && 'T' !in v.expiryDate.value && 'T' !in v.departureDate.value
    requires ValidVisaForm(LoadVisa(Some(v)))
    ensures Opened(current, Some(v)) == LoadVisa(Some(v))
    ensures var s := SubmitVisa(Opened(current, Some(v)), Some(v), now);
      s.UpdateVisaAction? && s.id == v.id && ApplyVisaUpdate(v, s.payload) == v
  {
    DayTextUnchanged(v.issueDate.value);
    DayTextUnchanged(v.expiryDate.value);
    DayTextUnchanged(v.departureDate.value);
  }

  /** An edited visa without a booking date gets today's date, as a new visa does. */
  lemma MissingBookingDateIsToday(f: VisaFormData, v: VisaRow, now: string)
    requires ValidVisaForm(f)
    requires v.bookingDate.None? || v.bookingDate == Some("")
    ensures SubmitVisa(f, Some(v), now).payload.bookingDate == SubmitVisa(f, None, now).payload.bookingDate
    ensures SubmitVisa(f, Some(v), now).payload.bookingDate == Reports.DatePart(now)
  {
  }

  /** The schema accepts locations that neither list offers. */
  lemma LocationsNotChecked()
    ensures var f := VisaFormData("c1", "V-1", Some("2024-01-01"), Some("2024-06-01"),
                                  Some("2024-02-01"), Pending, EgyptToSaudi, "x", "y");
      ValidVisaForm(f) && f.fromLocation !in FromLocations(f.travelDirection)
      && f.toLocation !in ToLocations(f.travelDirection)
  {
  }
}
