/** The customer dialog (src/components/customers/CustomerFormDialog.tsx): its validation
    schema, the loading of a customer into the form and the payload it submits. */
module CustomerForm {
  import opened Collections
  import opened Entities

  /** A customer as the customer hook declares its rows; the optional text columns and the
      status may be null. */
  datatype CustomerRow = CustomerRow(
    id: string,
    fullName: string,
    phoneNumber: string,
    nationalId: string,
    address: Option<string>,
    umrahProgram: Option<string>,
    visaStatus: Option<VisaStatus>,
    notes: Option<string>)

  /** The form's values; the optional fields may be left undefined, and the status is whatever
      the loaded row carried until the user picks one. */
  datatype CustomerFormData = CustomerFormData(
    fullName: string,
    phoneNumber: string,
    nationalId: string,
    address: Option<string>,
    umrahProgram: Option<string>,
    visaStatus: Option<VisaStatus>,
    notes: Option<string>)

  /** The schema: a name of at least two characters, a phone number of at least ten, a national
      id of at least five, and one of the four customer statuses. */
  predicate ValidCustomerForm(f: CustomerFormData)
  {
    && |f.fullName| >= 2 && |f.phoneNumber| >= 10 && |f.nationalId| >= 5
    && f.visaStatus.Some? && IsCustomerStatus(f.visaStatus.value)
  }

  /** `x || ''` on an optional text: a missing text becomes empty. */
  function OrEmpty(x: Option<string>): (r: string)
    ensures x.Some? ==> r == x.value
    ensures x.None? ==> r == ""
  {
    x.GetOr("")
  }

  /** The values of a new customer. */
  const DefaultCustomerForm := CustomerFormData("", "", "", Some(""), Some(""), Some(Pending), Some(""))

  /** The reset that runs when the dialog is given another customer, or none: that customer's
      own values, missing texts as empty ones, or the defaults. */
  function LoadCustomer(c: Option<CustomerRow>): (f: CustomerFormData)
    ensures c.None? ==> f == DefaultCustomerForm
    ensures c.Some? ==>
      && f.fullName == c.value.fullName && f.phoneNumber == c.value.phoneNumber
      && f.nationalId == c.value.nationalId
      && f.address == Some(OrEmpty(c.value.address))
      && f.umrahProgram == Some(OrEmpty(c.value.umrahProgram))
      && f.notes == Some(OrEmpty(c.value.notes))
      && f.visaStatus == c.value.visaStatus
  {
    match c
    case None => DefaultCustomerForm
    case Some(r) =>
      CustomerFormData(r.fullName, r.phoneNumber, r.nationalId, Some(OrEmpty(r.address)),
                       Some(OrEmpty(r.umrahProgram)), r.visaStatus, Some(OrEmpty(r.notes)))
  }

  /** The fields the dialog sends, on both paths. */
  datatype CustomerPayload = CustomerPayload(
    fullName: string,
    phoneNumber: string,
    nationalId: string,
    address: string,
    umrahProgram: string,
    visaStatus: CustomerStatus,
    notes: string)

  datatype CustomerSubmission =
    | AddCustomerAction(payload: CustomerPayload)
    | UpdateCustomerAction(id: string, payload: CustomerPayload)

  /** The submission for validated form data; `editing` is the customer being edited, if any. */
  function SubmitCustomer(f: CustomerFormData, editing: Option<CustomerRow>): (s: CustomerSubmission)
    requires ValidCustomerForm(f)
    ensures s.UpdateCustomerAction? <==> editing.Some?
    ensures s.UpdateCustomerAction? ==> s.id == editing.value.id
    ensures s.payload.fullName == f.fullName && s.payload.phoneNumber == f.phoneNumber
    ensures s.payload.nationalId == f.nationalId
    ensures s.payload.address == OrEmpty(f.address)
    ensures s.payload.umrahProgram == OrEmpty(f.umrahProgram)
    ensures s.payload.notes == OrEmpty(f.notes)
    ensures s.payload.visaStatus == f.visaStatus.value
  {
    var p := CustomerPayload(f.fullName, f.phoneNumber, f.nationalId, OrEmpty(f.address),
                             OrEmpty(f.umrahProgram), f.visaStatus.value, OrEmpty(f.notes));
    if editing.Some? then UpdateCustomerAction(editing.value.id, p) else AddCustomerAction(p)
  }

  /** Adding and updating send the same fields; only the update names the customer. */
  lemma SamePayload(f: CustomerFormData, c: CustomerRow)
    requires ValidCustomerForm(f)
    ensures SubmitCustomer(f, Some(c)).payload == SubmitCustomer(f, None).payload
    ensures SubmitCustomer(f, Some(c)) == UpdateCustomerAction(c.id, SubmitCustomer(f, None).payload)
  {
  }

  /** The row an update turns `c` into. */
  function ApplyCustomerUpdate(c: CustomerRow, p: CustomerPayload): CustomerRow
  {
    CustomerRow(c.id, p.fullName, p.phoneNumber, p.nationalId, Some(p.address),
                Some(p.umrahProgram), Some(p.visaStatus), Some(p.notes))
  }

  /** Opening a customer and saving it unchanged writes back its fields, with each missing
      optional text stored as an empty one. */
  lemma EditRoundTrip(c: CustomerRow)
    requires ValidCustomerForm(LoadCustomer(Some(c)))
    ensures var s := SubmitCustomer(LoadCustomer(Some(c)), Some(c));
      && s.UpdateCustomerAction? && s.id == c.id
      && ApplyCustomerUpdate(c, s.payload)
         == c.(address := Some(OrEmpty(c.address)), umrahProgram := Some(OrEmpty(c.umrahProgram)),
               notes := Some(OrEmpty(c.notes)))
  {
  }

  /** A customer whose optional texts are all present comes back exactly as it was. */
  lemma CompleteRoundTrip(c: CustomerRow)
    requires c.address.Some? && c.umrahProgram.Some? && c.notes.Some?
    requires ValidCustomerForm(LoadCustomer(Some(c)))
    ensures ApplyCustomerUpdate(c, SubmitCustomer(LoadCustomer(Some(c)), Some(c)).payload) == c
  {
    EditRoundTrip(c);
  }

  /** A customer whose status is one only visa documents use loads into a form the schema
      rejects: the load does not map the status, so the customer cannot be saved until its
      status is picked again. */
  lemma DocumentStatusBlocksEdit(c: CustomerRow)
    requires c.visaStatus == Some(Issued) || c.visaStatus == Some(Expired)
    ensures !ValidCustomerForm(LoadCustomer(Some(c)))
  {
  }
}
