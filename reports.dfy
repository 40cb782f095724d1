/** The daily report page (src/pages/Reports.tsx): date filters, income, expense and profit
    figures, outstanding balances and the record built for the report export. */
module Reports {
  import opened Collections
  import opened Entities

  /** `s.split('T')[0]`: the text before the first `T`, or all of `s` when it has none. */
  function DatePart(s: string): (r: string)
    ensures r <= s
    ensures 'T' !in r
    ensures |r| < |s| ==> s[|r|] == 'T'
  {
    if s == [] || s[0] == 'T' then [] else [s[0]] + DatePart(s[1..])
  }

  function CreatedOn(date: string): Booking -> bool
  {
    (b: Booking) => DatePart(b.createdAt) == date
  }

  function DatedOn(date: string): Expense -> bool
  {
    (e: Expense) => e.date == date
  }

  /** The bookings created on `date`, in their original order. */
  function DailyBookings(bookings: seq<Booking>, date: string): (r: seq<Booking>)
    ensures IsSubsequence(r, bookings)
    ensures forall b :: b in r <==> b in bookings && DatePart(b.createdAt) == date
    ensures forall b: Booking :: DatePart(b.createdAt) == date ==> multiset(r)[b] == multiset(bookings)[b]
  {
    Filter(bookings, CreatedOn(date))
  }

  /** The expenses dated `date`, in their original order. */
  function DailyExpenses(expenses: seq<Expense>, date: string): (r: seq<Expense>)
    ensures IsSubsequence(r, expenses)
    ensures forall e :: e in r <==> e in expenses && e.date == date
    ensures forall e: Expense :: e.date == date ==> multiset(r)[e] == multiset(expenses)[e]
  {
    Filter(expenses, DatedOn(date))
  }

  /** What one booking contributes to income: the deposit while unpaid, the full price once paid. */
  function BookingIncome(b: Booking): (r: int)
    ensures r == if b.isPaid then b.totalAmount else b.visaDeposit
  {
    b.visaDeposit + (if b.isPaid then b.totalAmount - b.visaDeposit else 0)
  }

  function ExpenseAmount(e: Expense): int { e.amount }
  function DepositOf(b: Booking): int { b.visaDeposit }
  function BalanceOf(b: Booking): int { b.totalAmount - b.visaDeposit }
  function RemainingOf(b: Booking): int { b.remainingAmount }
  function IsPaid(b: Booking): bool { b.isPaid }
  function IsUnpaid(b: Booking): bool { !b.isPaid }

  /** What a booking still owes in the remaining-payments figure: nothing once it is paid. */
  function OutstandingOf(b: Booking): int { if b.isPaid then 0 else b.remainingAmount }

  function TotalIncome(bookings: seq<Booking>): int { Sum(bookings, BookingIncome) }

  function TotalExpenses(expenses: seq<Expense>): int { Sum(expenses, ExpenseAmount) }

  function DailyIncome(bookings: seq<Booking>, date: string): int
  {
    TotalIncome(DailyBookings(bookings, date))
  }

  function DailyExpenseTotal(expenses: seq<Expense>, date: string): int
  {
    TotalExpenses(DailyExpenses(expenses, date))
  }

  /** The sum of the balances of the unpaid bookings. */
  function RemainingPayments(bookings: seq<Booking>): int
  {
    Sum(Filter(bookings, IsUnpaid), RemainingOf)
  }

  /** Income is every deposit plus the rest of the price of each paid booking. */
  lemma {:induction false} IncomeDecomposition(bookings: seq<Booking>)
    ensures TotalIncome(bookings) == Sum(bookings, DepositOf) + Sum(Filter(bookings, IsPaid), BalanceOf)
  {
    if bookings != [] {
      IncomeDecomposition(bookings[1..]);
    }
  }

  /** Paid bookings never count towards the remaining payments. */
  lemma {:induction false} RemainingPaymentsSkipPaid(bookings: seq<Booking>)
    ensures RemainingPayments(bookings) == Sum(bookings, OutstandingOf)
  {
    if bookings != [] {
      RemainingPaymentsSkipPaid(bookings[1..]);
    }
  }

  /** With non-negative amounts, a day's figures never exceed the overall ones. */
  lemma DailyWithinTotal(bookings: seq<Booking>, expenses: seq<Expense>, date: string)
    requires forall b :: b in bookings ==> b.totalAmount >= 0 && b.visaDeposit >= 0
    requires forall e :: e in expenses ==> e.amount >= 0
    ensures DailyIncome(bookings, date) <= TotalIncome(bookings)
    ensures DailyExpenseTotal(expenses, date) <= TotalExpenses(expenses)
  {
    SumFilterAtMost(bookings, CreatedOn(date), BookingIncome);
    SumFilterAtMost(expenses, DatedOn(date), ExpenseAmount);
  }

  /** One line of the exported report. */
  datatype ReportLine = ReportLine(customer: Option<string>, program: string, amount: int,
                                   deposit: int, paid: bool)

  datatype Report = Report(date: string, dailyIncome: int, dailyExpenses: int, dailyProfit: int,
                           bookings: seq<ReportLine>, expenses: seq<Expense>)

  /** The name of the first customer with the given id, if any. */
  function CustomerName(customers: seq<Customer>, id: string): (r: Option<string>)
    ensures r.None? <==> forall c :: c in customers ==> c.id != id
    ensures r.Some? ==> exists i :: 0 <= i < |customers| && customers[i].id == id &&
                                  customers[i].fullName == r.value &&
                                  forall j :: 0 <= j < i ==> customers[j].id != id
  {
    var found := Find(customers, CustomerId, id);
    if found.Some? then Some(found.value.fullName) else None
  }

  /** The record the export serialises for `date`. */
  function BuildReport(customers: seq<Customer>, bookings: seq<Booking>, expenses: seq<Expense>,
                       date: string): (r: Report)
    ensures r.date == date
    ensures r.dailyIncome == DailyIncome(bookings, date)
    ensures r.dailyExpenses == DailyExpenseTotal(expenses, date)
    ensures r.dailyProfit == r.dailyIncome - r.dailyExpenses
    ensures |r.bookings| == |DailyBookings(bookings, date)|
    ensures forall i :: 0 <= i < |r.bookings| ==>
      var b := DailyBookings(bookings, date)[i];
      && r.bookings[i].customer == CustomerName(customers, b.customerId)
      && r.bookings[i].program == b.programName
      && r.bookings[i].amount == b.totalAmount
      && r.bookings[i].deposit == b.visaDeposit
      && r.bookings[i].paid == b.isPaid
    ensures r.expenses == DailyExpenses(expenses, date)
  {
    var daily := DailyBookings(bookings, date);
    var income := DailyIncome(bookings, date);
    var spent := DailyExpenseTotal(expenses, date);
    Report(date, income, spent, income - spent,
           seq(|daily|, i requires 0 <= i < |daily| =>
             ReportLine(CustomerName(customers, daily[i].customerId), daily[i].programName,
                        daily[i].totalAmount, daily[i].visaDeposit, daily[i].isPaid)),
           DailyExpenses(expenses, date))
  }

  /** A worked example: expenses of 500 on day D and 300 on another day
      give a total of 500 for D. */
  lemma DailyExpenseExample()
    ensures DailyExpenseTotal([Expense("e1", "office", 500, "rent", "2024-03-01"),
                               Expense("e2", "transport", 300, "taxi", "2024-03-02")], "2024-03-01") == 500
  {
    var es := [Expense("e1", "office", 500, "rent", "2024-03-01"),
               Expense("e2", "transport", 300, "taxi", "2024-03-02")];
    assert es[1..][1..] == [];
    assert DailyExpenses(es, "2024-03-01") == [es[0]];
  }
}
