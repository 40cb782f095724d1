/** The dashboard page (src/pages/Dashboard.tsx): counts, income, expenses, net profit and
    the five most recent bookings. */
module Dashboard {
  import opened Collections
  import opened Entities
  import Reports

  datatype Stats = Stats(
    totalCustomers: int,
    totalBookings: int,
    paidBookings: int,
    unpaidBookings: int,
    totalIncome: int,
    totalExpensesAmount: int,
    netProfit: int,
    recentBookings: seq<Booking>)

  /** The dashboard figures for the given lists. Income follows the same per-booking rule as
      the report page; recent bookings are the first five of the list as the list is ordered. */
  function Summarize(customers: seq<Customer>, bookings: seq<Booking>, expenses: seq<Expense>): (st: Stats)
    ensures st.totalCustomers == |customers|
    ensures st.totalBookings == |bookings|
    ensures st.paidBookings + st.unpaidBookings == st.totalBookings
    ensures st.paidBookings == |Filter(bookings, Reports.IsPaid)|
    ensures st.totalIncome == Sum(bookings, Reports.DepositOf) + Sum(Filter(bookings, Reports.IsPaid), Reports.BalanceOf)
    ensures st.totalIncome == Reports.TotalIncome(bookings)
    ensures st.totalExpensesAmount == Reports.TotalExpenses(expenses)
    ensures st.netProfit == st.totalIncome - st.totalExpensesAmount
    ensures |st.recentBookings| == Min(5, |bookings|)
    ensures st.recentBookings <= bookings
  {
    Reports.IncomeDecomposition(bookings);
    FilterPartition(bookings, Reports.IsPaid, Reports.IsUnpaid);
    var income := Sum(bookings, Reports.BookingIncome);
    var spent := Sum(expenses, Reports.ExpenseAmount);
    Stats(|customers|, |bookings|,
          |Filter(bookings, Reports.IsPaid)|, |Filter(bookings, Reports.IsUnpaid)|,
          income, spent, income - spent,
          bookings[..Min(5, |bookings|)])
  }
}
