/** The record shapes of the agency's data: the enumerations of the database schema and the
    five records the local store keeps. Amounts, which are JavaScript numbers in the source,
    are integers here; dates and timestamps are opaque strings. */
module Entities {
  import opened Collections

  /** The database's `visa_status` enumeration. Customers use the first four values, visa
      documents the values `Pending`, `Issued` and `Expired`. */
  datatype VisaStatus = Pending | Processing | Approved | Rejected | Issued | Expired

  /** The statuses a customer record may carry. */
  predicate IsCustomerStatus(s: VisaStatus)
  {
    s.Pending? || s.Processing? || s.Approved? || s.Rejected?
  }

  /** The statuses a visa document may carry. */
  predicate IsDocumentStatus(s: VisaStatus)
  {
    s.Pending? || s.Issued? || s.Expired?
  }

  type CustomerStatus = s: VisaStatus | IsCustomerStatus(s) witness Pending
  type DocumentStatus = s: VisaStatus | IsDocumentStatus(s) witness Pending

  datatype TravelDirection = EgyptToSaudi | SaudiToEgypt

  datatype DebtType = Receivable | Payable

  datatype Customer = Customer(
    id: string,
    fullName: string,
    phoneNumber: string,
    nationalId: string,
    address: string,
    umrahProgram: string,
    visaStatus: CustomerStatus,
    notes: string,
    createdAt: string)

  /** A booking. The travel fields are declared on the record but the booking form never
      fills them in, so they are optional here. */
  datatype Booking = Booking(
    id: string,
    customerId: string,
    programName: string,
    totalAmount: int,
    visaDeposit: int,
    remainingAmount: int,
    isPaid: bool,
    createdAt: string,
    travelDirection: Option<TravelDirection>,
    fromLocation: Option<string>,
    toLocation: Option<string>,
    departureDate: Option<string>)

  datatype Debt = Debt(
    id: string,
    personName: string,
    amount: int,
    kind: DebtType,
    description: string,
    date: string,
    isPaid: bool)

  datatype Visa = Visa(
    id: string,
    customerId: string,
    visaNumber: string,
    issueDate: string,
    expiryDate: string,
    status: DocumentStatus,
    travelDirection: TravelDirection,
    fromLocation: string,
    toLocation: string,
    departureDate: string,
    bookingDate: string)

  datatype Expense = Expense(
    id: string,
    category: string,
    amount: int,
    description: string,
    date: string)

  // Key projections, named so that every use of a key is the same function value.

  function CustomerId(c: Customer): string { c.id }
  function BookingId(b: Booking): string { b.id }
  function BookingCustomer(b: Booking): string { b.customerId }
  function ExpenseId(e: Expense): string { e.id }
  function VisaId(v: Visa): string { v.id }
  function VisaCustomer(v: Visa): string { v.customerId }
  function DebtId(d: Debt): string { d.id }
}
