/** The local record store (src/store/useStore.ts): five collections and the actions that
    replace them. Each action is a method of `RecordStore` whose postcondition gives every
    collection's new value as a function of the old state; the lemmas below state what those
    functions promise. */
module Store {
  import opened Collections
  import opened Entities

  // Partial records: `None` is a field the partial object leaves out. A spread
  // `{ ...record, ...partial }` keeps the record's value there and takes the partial's elsewhere.

  datatype CustomerPatch = CustomerPatch(
    id: Option<string>, fullName: Option<string>, phoneNumber: Option<string>,
    nationalId: Option<string>, address: Option<string>, umrahProgram: Option<string>,
    visaStatus: Option<CustomerStatus>, notes: Option<string>, createdAt: Option<string>)

  datatype BookingPatch = BookingPatch(
    id: Option<string>, customerId: Option<string>, programName: Option<string>,
    totalAmount: Option<int>, visaDeposit: Option<int>, remainingAmount: Option<int>,
    isPaid: Option<bool>, createdAt: Option<string>,
    travelDirection: Option<TravelDirection>, fromLocation: Option<string>,
    toLocation: Option<string>, departureDate: Option<string>)

  datatype ExpensePatch = ExpensePatch(
    id: Option<string>, category: Option<string>, amount: Option<int>,
    description: Option<string>, date: Option<string>)

  datatype VisaPatch = VisaPatch(
    id: Option<string>, customerId: Option<string>, visaNumber: Option<string>,
    issueDate: Option<string>, expiryDate: Option<string>, status: Option<DocumentStatus>,
    travelDirection: Option<TravelDirection>, fromLocation: Option<string>,
    toLocation: Option<string>, departureDate: Option<string>, bookingDate: Option<string>)

  datatype DebtPatch = DebtPatch(
    id: Option<string>, personName: Option<string>, amount: Option<int>, kind: Option<DebtType>,
    description: Option<string>, date: Option<string>, isPaid: Option<bool>)

  function MergeCustomer(p: CustomerPatch): Customer -> Customer
  {
    (c: Customer) => Customer(p.id.GetOr(c.id), p.fullName.GetOr(c.fullName), p.phoneNumber.GetOr(c.phoneNumber),
                  p.nationalId.GetOr(c.nationalId), p.address.GetOr(c.address),
                  p.umrahProgram.GetOr(c.umrahProgram), p.visaStatus.GetOr(c.visaStatus),
                  p.notes.GetOr(c.notes), p.createdAt.GetOr(c.createdAt))
  }

  function MergeBooking(p: BookingPatch): Booking -> Booking
  {
    (b: Booking) => Booking(p.id.GetOr(b.id), p.customerId.GetOr(b.customerId), p.programName.GetOr(b.programName),
                 p.totalAmount.GetOr(b.totalAmount), p.visaDeposit.GetOr(b.visaDeposit),
                 p.remainingAmount.GetOr(b.remainingAmount), p.isPaid.GetOr(b.isPaid),
                 p.createdAt.GetOr(b.createdAt),
                 if p.travelDirection.Some? then p.travelDirection else b.travelDirection,
                 if p.fromLocation.Some? then p.fromLocation else b.fromLocation,
                 if p.toLocation.Some? then p.toLocation else b.toLocation,
                 if p.departureDate.Some? then p.departureDate else b.departureDate)
  }

  function MergeExpense(p: ExpensePatch): Expense -> Expense
  {
    (e: Expense) => Expense(p.id.GetOr(e.id), p.category.GetOr(e.category), p.amount.GetOr(e.amount),
                 p.description.GetOr(e.description), p.date.GetOr(e.date))
  }

  function MergeVisa(p: VisaPatch): Visa -> Visa
  {
    (v: Visa) => Visa(p.id.GetOr(v.id), p.customerId.GetOr(v.customerId), p.visaNumber.GetOr(v.visaNumber),
              p.issueDate.GetOr(v.issueDate), p.expiryDate.GetOr(v.expiryDate), p.status.GetOr(v.status),
              p.travelDirection.GetOr(v.travelDirection), p.fromLocation.GetOr(v.fromLocation),
              p.toLocation.GetOr(v.toLocation), p.departureDate.GetOr(v.departureDate),
              p.bookingDate.GetOr(v.bookingDate))
  }

  function MergeDebt(p: DebtPatch): Debt -> Debt
  {
    (d: Debt) => Debt(p.id.GetOr(d.id), p.personName.GetOr(d.personName), p.amount.GetOr(d.amount),
              p.kind.GetOr(d.kind), p.description.GetOr(d.description), p.date.GetOr(d.date),
              p.isPaid.GetOr(d.isPaid))
  }

  /** A partial record that leaves every field out changes no record. */
  lemma EmptyPatchKeeps(c: Customer, b: Booking, e: Expense, v: Visa, d: Debt)
    ensures MergeCustomer(CustomerPatch(None, None, None, None, None, None, None, None, None))(c) == c
    ensures MergeBooking(BookingPatch(None, None, None, None, None, None, None, None,
                                      None, None, None, None))(b) == b
    ensures MergeExpense(ExpensePatch(None, None, None, None, None))(e) == e
    ensures MergeVisa(VisaPatch(None, None, None, None, None, None, None, None, None, None, None))(v) == v
    ensures MergeDebt(DebtPatch(None, None, None, None, None, None, None))(d) == d
  {
  }

  /** Spreading the same partial record a second time changes nothing more. */
  lemma MergeIdempotent(pc: CustomerPatch, c: Customer, pb: BookingPatch, b: Booking,
                        pe: ExpensePatch, e: Expense, pv: VisaPatch, v: Visa, pd: DebtPatch, d: Debt)
    ensures MergeCustomer(pc)(MergeCustomer(pc)(c)) == MergeCustomer(pc)(c)
    ensures MergeBooking(pb)(MergeBooking(pb)(b)) == MergeBooking(pb)(b)
    ensures MergeExpense(pe)(MergeExpense(pe)(e)) == MergeExpense(pe)(e)
    ensures MergeVisa(pv)(MergeVisa(pv)(v)) == MergeVisa(pv)(v)
    ensures MergeDebt(pd)(MergeDebt(pd)(d)) == MergeDebt(pd)(d)
  {
  }

  /** The booking payment toggle: flips `isPaid`; a booking that becomes paid has its balance
      zeroed, a booking that becomes unpaid keeps whatever balance it had. */
  function TogglePayment(b: Booking): (r: Booking)
    ensures r.isPaid == !b.isPaid
    ensures !b.isPaid ==> r.remainingAmount == 0
    ensures b.isPaid ==> r.remainingAmount == b.remainingAmount
    ensures r.(isPaid := b.isPaid, remainingAmount := b.remainingAmount) == b
  {
    b.(isPaid := !b.isPaid, remainingAmount := if b.isPaid then b.remainingAmount else 0)
  }

  /** The debt toggle: flips `isPaid` and nothing else. */
  function ToggleDebtPaid(d: Debt): (r: Debt)
    ensures r.isPaid == !d.isPaid
    ensures r.(isPaid := d.isPaid) == d
  {
    d.(isPaid := !d.isPaid)
  }

  class RecordStore {
    var customers: seq<Customer>
    var bookings: seq<Booking>
    var expenses: seq<Expense>
    var visas: seq<Visa>
    var debts: seq<Debt>

    constructor ()
      ensures customers == [] && bookings == [] && expenses == [] && visas == [] && debts == []
    {
      customers, bookings, expenses, visas, debts := [], [], [], [], [];
    }

    method AddCustomer(c: Customer)
      modifies this
      ensures customers == old(customers) + [c]
      ensures bookings == old(bookings) && expenses == old(expenses)
      ensures visas == old(visas) && debts == old(debts)
    {
      customers := customers + [c];
    }

    method UpdateCustomer(id: string, patch: CustomerPatch)
      modifies this
      ensures customers == Updated(old(customers), CustomerId, id, MergeCustomer(patch))
      ensures bookings == old(bookings) && expenses == old(expenses)
      ensures visas == old(visas) && debts == old(debts)
    {
      customers := Updated(customers, CustomerId, id, MergeCustomer(patch));
    }

    /** Removes the customer and, in cascade, that customer's bookings and visas. */
    method DeleteCustomer(id: string)
      modifies this
      ensures customers == Without(old(customers), CustomerId, id)
      ensures bookings == Without(old(bookings), BookingCustomer, id)
      ensures visas == Without(old(visas), VisaCustomer, id)
      ensures expenses == old(expenses) && debts == old(debts)
      ensures forall b :: b in bookings ==> b.customerId != id
      ensures forall v :: v in visas ==> v.customerId != id
    {
      customers := Without(customers, CustomerId, id);
      bookings := Without(bookings, BookingCustomer, id);
      visas := Without(visas, VisaCustomer, id);
    }

    method AddBooking(b: Booking)
      modifies this
      ensures bookings == old(bookings) + [b]
      ensures customers == old(customers) && expenses == old(expenses)
      ensures visas == old(visas) && debts == old(debts)
    {
      bookings := bookings + [b];
    }

    method UpdateBooking(id: string, patch: BookingPatch)
      modifies this
      ensures bookings == Updated(old(bookings), BookingId, id, MergeBooking(patch))
      ensures customers == old(customers) && expenses == old(expenses)
      ensures visas == old(visas) && debts == old(debts)
    {
      bookings := Updated(bookings, BookingId, id, MergeBooking(patch));
    }

    method DeleteBooking(id: string)
      modifies this
      ensures bookings == Without(old(bookings), BookingId, id)
      ensures customers == old(customers) && expenses == old(expenses)
      ensures visas == old(visas) && debts == old(debts)
    {
      bookings := Without(bookings, BookingId, id);
    }

    method TogglePaymentStatus(id: string)
      modifies this
      ensures bookings == Updated(old(bookings), BookingId, id, TogglePayment)
      ensures customers == old(customers) && expenses == old(expenses)
      ensures visas == old(visas) && debts == old(debts)
    {
      bookings := Updated(bookings, BookingId, id, TogglePayment);
    }

    method AddExpense(e: Expense)
      modifies this
      ensures expenses == old(expenses) + [e]
      ensures customers == old(customers) && bookings == old(bookings)
      ensures visas == old(visas) && debts == old(debts)
    {
      expenses := expenses + [e];
    }

    method UpdateExpense(id: string, patch: ExpensePatch)
      modifies this
      ensures expenses == Updated(old(expenses), ExpenseId, id, MergeExpense(patch))
      ensures customers == old(customers) && bookings == old(bookings)
      ensures visas == old(visas) && debts == old(debts)
    {
      expenses := Updated(expenses, ExpenseId, id, MergeExpense(patch));
    }

    method DeleteExpense(id: string)
      modifies this
      ensures expenses == Without(old(expenses), ExpenseId, id)
      ensures customers == old(customers) && bookings == old(bookings)
      ensures visas == old(visas) && debts == old(debts)
    {
      expenses := Without(expenses, ExpenseId, id);
    }

    method AddVisa(v: Visa)
      modifies this
      ensures visas == old(visas) + [v]
      ensures customers == old(customers) && bookings == old(bookings)
      ensures expenses == old(expenses) && debts == old(debts)
    {
      visas := visas + [v];
    }

    method UpdateVisa(id: string, patch: VisaPatch)
      modifies this
      ensures visas == Updated(old(visas), VisaId, id, MergeVisa(patch))
      ensures customers == old(customers) && bookings == old(bookings)
      ensures expenses == old(expenses) && debts == old(debts)
    {
      visas := Updated(visas, VisaId, id, MergeVisa(patch));
    }

    method DeleteVisa(id: string)
      modifies this
      ensures visas == Without(old(visas), VisaId, id)
      ensures customers == old(customers) && bookings == old(bookings)
      ensures expenses == old(expenses) && debts == old(debts)
    {
      visas := Without(visas, VisaId, id);
    }

    method AddDebt(d: Debt)
      modifies this
      ensures debts == old(debts) + [d]
      ensures customers == old(customers) && bookings == old(bookings)
      ensures expenses == old(expenses) && visas == old(visas)
    {
      debts := debts + [d];
    }

    method UpdateDebt(id: string, patch: DebtPatch)
      modifies this
      ensures debts == Updated(old(debts), DebtId, id, MergeDebt(patch))
      ensures customers == old(customers) && bookings == old(bookings)
      ensures expenses == old(expenses) && visas == old(visas)
    {
      debts := Updated(debts, DebtId, id, MergeDebt(patch));
    }

    method DeleteDebt(id: string)
      modifies this
      ensures debts == Without(old(debts), DebtId, id)
      ensures customers == old(customers) && bookings == old(bookings)
      ensures expenses == old(expenses) && visas == old(visas)
    {
      debts := Without(debts, DebtId, id);
    }

    method ToggleDebtPaidStatus(id: string)
      modifies this
      ensures debts == Updated(old(debts), DebtId, id, ToggleDebtPaid)
      ensures customers == old(customers) && bookings == old(bookings)
      ensures expenses == old(expenses) && visas == old(visas)
    {
      debts := Updated(debts, DebtId, id, ToggleDebtPaid);
    }
  }

  // ---------------------------------------------------------------------------------------
  // What the actions promise

  /** Every booking and every visa names a customer that is in the store. The store does not
      enforce this, but the cascading delete keeps it. */
  ghost predicate ReferencesResolve(customers: seq<Customer>, bookings: seq<Booking>, visas: seq<Visa>)
  {
    && (forall b :: b in bookings ==> exists c :: c in customers && c.id == b.customerId)
    && (forall v :: v in visas ==> exists c :: c in customers && c.id == v.customerId)
  }

  /** Deleting a customer with its bookings and visas never leaves a dangling reference. */
  lemma CascadeKeepsReferences(customers: seq<Customer>, bookings: seq<Booking>, visas: seq<Visa>, id: string)
    requires ReferencesResolve(customers, bookings, visas)
    ensures ReferencesResolve(Without(customers, CustomerId, id), Without(bookings, BookingCustomer, id),
                              Without(visas, VisaCustomer, id))
  {
    var cs := Without(customers, CustomerId, id);
    forall b | b in Without(bookings, BookingCustomer, id)
      ensures exists c :: c in cs && c.id == b.customerId
    {
      var c :| c in customers && c.id == b.customerId;
      assert c in cs;
    }
    forall v | v in Without(visas, VisaCustomer, id)
      ensures exists c :: c in cs && c.id == v.customerId
    {
      var c :| c in customers && c.id == v.customerId;
      assert c in cs;
    }
  }

  /** Toggling a booking's payment twice restores `isPaid` but leaves the balance at zero:
      the double toggle is the identity exactly when every matching booking already had a
      zero balance. */
  lemma TogglePaymentTwice(bookings: seq<Booking>, id: string)
    ensures var twice := Updated(Updated(bookings, BookingId, id, TogglePayment), BookingId, id, TogglePayment);
      && |twice| == |bookings|
      && (forall i :: 0 <= i < |bookings| ==>
            twice[i] == if bookings[i].id == id then bookings[i].(remainingAmount := 0) else bookings[i])
      && (twice == bookings <==> forall b :: b in bookings && b.id == id ==> b.remainingAmount == 0)
  {
    var twice := Updated(Updated(bookings, BookingId, id, TogglePayment), BookingId, id, TogglePayment);
    if twice == bookings {
      forall b | b in bookings && b.id == id ensures b.remainingAmount == 0 {
        var i :| 0 <= i < |bookings| && bookings[i] == b;
        assert twice[i] == b.(remainingAmount := 0);
      }
    }
  }

  /** A worked example: a 10000 booking with a 2000 deposit owes 8000;
      paying and un-paying it leaves it unpaid with a balance of 0, not 8000. */
  lemma TogglePaymentTwiceLosesBalance()
    ensures var b := Booking("b1", "c1", "umrah", 10000, 2000, 8000, false, "2024-01-01T00:00:00Z",
                             None, None, None, None);
      && TogglePayment(b).isPaid && TogglePayment(b).remainingAmount == 0
      && !TogglePayment(TogglePayment(b)).isPaid
      && TogglePayment(TogglePayment(b)).remainingAmount == 0
      && TogglePayment(TogglePayment(b)).remainingAmount != b.totalAmount - b.visaDeposit
  {
  }

  /** Toggling a debt's paid flag twice gives back the original list. */
  lemma ToggleDebtPaidTwice(debts: seq<Debt>, id: string)
    ensures Updated(Updated(debts, DebtId, id, ToggleDebtPaid), DebtId, id, ToggleDebtPaid) == debts
  {
    UpdatedInvolution(debts, DebtId, id, ToggleDebtPaid);
  }
}
