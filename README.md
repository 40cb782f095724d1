# Umrah companion: a verified model of the agency's record keeping

The application is the back office of a small Umrah travel agency. It keeps customers,
bookings, visas, expenses and debts. It works out the day's and the overall income, expenses
and profit. It validates the data-entry dialogs and turns their values into stored records. It
filters the list pages by a search box. It also cleans the WhatsApp number that a visa is
shared to.

This project models that logic in Dafny and proves what the code promises about it. There is
one module per source file:

- `Store` holds the record store: a class with the five collections and one method per action.
- `Reports` and `Dashboard` hold the figures, as pure functions over the record lists.
- `BookingForm`, `VisaForm`, `CustomerForm`, `ExpenseForm` and `DebtForm` hold the dialogs. Each
  has its schema as a predicate, its load mapping and its submission.
- `VisaPreview` holds the WhatsApp number cleaning and the PDF file name. The cleaning is done
  the way the dialog does it: a reassigned variable.
- `BookingsPage`, `VisasPage`, `CustomersPage` and `ExpensesPage` hold the search filters and
  the label maps.

Two shared modules back them:

- `Entities` holds the record shapes and the key projections.
- `Collections` holds `filter`, `find`, `includes`, `toLowerCase`, the sums, and the map/filter
  updates by id, each with its facts proved once.

Identifiers, clock readings and "today" are parameters. Amounts are integers. Dates are opaque
strings; only the `split('T')[0]` step is modelled.

Four places where the code does something other than what one might expect are modelled as
written, each with a lemma that exhibits it:

- The booking payment toggle zeroes the balance when a booking becomes paid and does not
  restore it when the booking becomes unpaid again. See `Store.TogglePaymentTwice` and
  `Store.TogglePaymentTwiceLosesBalance`.
- The booking schema does not relate the deposit to the total, so a valid form can store a
  negative balance. See `BookingForm.DepositAboveTotalAccepted`.
- The visa dialog clears both locations whenever a loaded visa changes the form's direction,
  so, for example, a Saudi-to-Egypt visa opened from the default form cannot be saved unchanged.
  See `VisaForm.DirectionChangeOnOpenBlocksEdit`.
- A null description column (and, for expenses, a null date) loads into the expense and debt forms as null, which their
  schemas reject. See `ExpenseForm.MissingColumnBlocksEdit` and `DebtForm.NullDescriptionBlocksEdit`.

## Model

| member | source | states |
|---|---|---|
| Collections.Filter | src/pages/Reports.tsx:13-16 | `filter` keeps the accepted elements in their original order and with their multiplicities; an element is in the result iff it is in the input and accepted |
| Collections.FilterAll | src/pages/Bookings.tsx:30-36 | a filter that accepts every element returns the list unchanged |
| Collections.FilterSame | src/pages/Bookings.tsx:30-36 | two tests that agree on every element select the same sub-list |
| Collections.FilterPartition | src/pages/Dashboard.tsx:17-18 | filtering by a test and by its negation gives lengths that add up to the list's length |
| Collections.Without | src/store/useStore.ts:76-79 | delete-by-key removes exactly the records with that key and keeps the survivors in order |
| Collections.WithoutNoMatch | src/store/useStore.ts:76-79 | deleting a key no record has leaves the collection unchanged |
| Collections.Updated | src/store/useStore.ts:52-57 | update-by-key keeps length and order, changes exactly the records with that key and leaves all others as they were |
| Collections.UpdatedNoMatch | src/store/useStore.ts:69-74 | updating or toggling a key no record has leaves the collection unchanged |
| Collections.UpdatedInvolution | src/store/useStore.ts:133-138 | applying twice an update whose change undoes itself and keeps the key gives the original list back |
| Collections.SumFilterAtMost | src/pages/Reports.tsx:13-31 | with non-negative terms, the sum over a filtered list is at most the sum over the whole list |
| Collections.Find | src/pages/Bookings.tsx:31 | `find` returns nothing iff no element has the key, and otherwise the first element that has it |
| Collections.Contains | src/pages/Bookings.tsx:33-34 | `includes` holds iff the query occurs as a contiguous block at some position |
| Collections.ContainsEmpty | src/pages/Bookings.tsx:34 | every string includes the empty query |
| Collections.ToLower | src/pages/Bookings.tsx:33-34 | lower-casing keeps the length and maps each character on its own |
| Collections.ToLowerIdempotent | src/pages/Bookings.tsx:33-34 | lower-casing twice is lower-casing once |
| Store.TogglePayment | src/store/useStore.ts:84 | the toggle flips `isPaid`, zeroes the balance of a booking that becomes paid, keeps the balance of one that becomes unpaid, and changes nothing else |
| Store.ToggleDebtPaid | src/store/useStore.ts:136 | the debt toggle flips `isPaid` and changes nothing else |
| Store.MergeCustomer | src/store/useStore.ts:55 | the customer spread: each field the partial record gives replaces the customer's, the rest are kept |
| Store.MergeBooking | src/store/useStore.ts:72 | the booking spread, field by field as for customers |
| Store.MergeExpense | src/store/useStore.ts:94 | the expense spread, field by field |
| Store.MergeVisa | src/store/useStore.ts:109 | the visa spread, field by field |
| Store.MergeDebt | src/store/useStore.ts:124 | the debt spread, field by field |
| Store.EmptyPatchKeeps | src/store/useStore.ts:55-124 | a partial record that gives no field leaves every kind of record unchanged |
| Store.MergeIdempotent | src/store/useStore.ts:55-124 | spreading the same partial record twice is spreading it once |
| Store.RecordStore.constructor | src/store/useStore.ts:43-47 | the store starts with five empty collections |
| Store.RecordStore.AddCustomer | src/store/useStore.ts:49-50 | the customer is appended at the end; the other four collections are unchanged |
| Store.RecordStore.UpdateCustomer | src/store/useStore.ts:52-57 | the partial record is merged over the customers with that id only; the other collections are unchanged |
| Store.RecordStore.DeleteCustomer | src/store/useStore.ts:59-64 | the customer, their bookings and their visas are removed; expenses and debts are unchanged; no remaining booking or visa names the id |
| Store.RecordStore.AddBooking | src/store/useStore.ts:66-67 | the booking is appended at the end; the other four collections are unchanged |
| Store.RecordStore.UpdateBooking | src/store/useStore.ts:69-74 | the partial record is merged over the bookings with that id only; the other collections are unchanged |
| Store.RecordStore.DeleteBooking | src/store/useStore.ts:76-79 | exactly the bookings with that id are removed; the other collections are unchanged |
| Store.RecordStore.TogglePaymentStatus | src/store/useStore.ts:81-86 | the payment toggle is applied to the bookings with that id only; the other collections are unchanged |
| Store.RecordStore.AddExpense | src/store/useStore.ts:88-89 | the expense is appended at the end; the other four collections are unchanged |
| Store.RecordStore.UpdateExpense | src/store/useStore.ts:91-96 | the partial record is merged over the expenses with that id only; the other collections are unchanged |
| Store.RecordStore.DeleteExpense | src/store/useStore.ts:98-101 | exactly the expenses with that id are removed; the other collections are unchanged |
| Store.RecordStore.AddVisa | src/store/useStore.ts:103-104 | the visa is appended at the end; the other four collections are unchanged |
| Store.RecordStore.UpdateVisa | src/store/useStore.ts:106-111 | the partial record is merged over the visas with that id only; the other collections are unchanged |
| Store.RecordStore.DeleteVisa | src/store/useStore.ts:113-116 | exactly the visas with that id are removed; the other collections are unchanged |
| Store.RecordStore.AddDebt | src/store/useStore.ts:118-119 | the debt is appended at the end; the other four collections are unchanged |
| Store.RecordStore.UpdateDebt | src/store/useStore.ts:121-126 | the partial record is merged over the debts with that id only; the other collections are unchanged |
| Store.RecordStore.DeleteDebt | src/store/useStore.ts:128-131 | exactly the debts with that id are removed; the other collections are unchanged |
| Store.RecordStore.ToggleDebtPaidStatus | src/store/useStore.ts:133-138 | the paid flag is flipped on the debts with that id only; the other collections are unchanged |
| Store.CascadeKeepsReferences | src/store/useStore.ts:59-64 | if every booking and visa named an existing customer before a customer delete, they all still do afterwards |
| Store.TogglePaymentTwice | src/store/useStore.ts:81-86 | toggling twice restores `isPaid` but leaves a zero balance on every matching booking; it is the identity iff every matching booking already had a zero balance |
| Store.TogglePaymentTwiceLosesBalance | src/store/useStore.ts:84 | a 10000 booking with a 2000 deposit and 8000 owed, paid then un-paid, is unpaid with a balance of 0 |
| Store.ToggleDebtPaidTwice | src/store/useStore.ts:133-138 | toggling a debt's paid flag twice gives the original list back |
| Reports.DatePart | src/pages/Reports.tsx:14 | `split('T')[0]` is the longest prefix without a `T`: it holds no `T`, and the input continues with `T` when it is shorter than the input |
| Reports.DailyBookings | src/pages/Reports.tsx:13-15 | the day's bookings are exactly those whose creation time has the selected date before its first `T`, in original order |
| Reports.DailyExpenses | src/pages/Reports.tsx:16 | the day's expenses are exactly those dated on the selected date, in original order |
| Reports.BookingIncome | src/pages/Reports.tsx:19-22 | a booking contributes its deposit while unpaid and its full total once paid |
| Reports.TotalIncome | src/pages/Reports.tsx:27-30 | total income is the sum of every booking's contribution |
| Reports.TotalExpenses | src/pages/Reports.tsx:31 | total expenses are the sum of every expense's amount |
| Reports.DailyIncome | src/pages/Reports.tsx:19-22 | the day's income is the total income of the day's bookings |
| Reports.DailyExpenseTotal | src/pages/Reports.tsx:23 | the day's expenses are the total of the day's expenses |
| Reports.RemainingPayments | src/pages/Reports.tsx:32-34 | the remaining payments are the sum of the balances of the unpaid bookings |
| Reports.IncomeDecomposition | src/pages/Reports.tsx:27-30 | total income is every deposit plus the rest of the price of each paid booking |
| Reports.RemainingPaymentsSkipPaid | src/pages/Reports.tsx:32-34 | the remaining payments sum each unpaid booking's balance and nothing for a paid one |
| Reports.DailyWithinTotal | src/pages/Reports.tsx:13-31 | with non-negative amounts, the day's income and expenses never exceed the overall ones |
| Reports.CustomerName | src/pages/Reports.tsx:43 | the report's customer name is absent iff no customer has the id, and otherwise is the name of the first customer with that id |
| Reports.BuildReport | src/pages/Reports.tsx:37-50 | the report carries the date, the day's income, expenses and profit, one line per daily booking in order with its amount, deposit and paid flag, and the day's expenses |
| Reports.DailyExpenseExample | src/pages/Reports.tsx:16 | expenses of 500 on a day and 300 on another give 500 for that day |
| Dashboard.Summarize | src/pages/Dashboard.tsx:15-23 | customer and booking counts; paid plus unpaid is the booking count; income by the report page's rule; net profit is income less expenses; the recent bookings are the first min(5, n) in order |
| BookingForm.LoadBooking | src/components/bookings/BookingFormDialog.tsx:63-79 | when the dialog is given another booking it loads that booking's customer, program, total and deposit; when it is given none it loads the initial values |
| BookingForm.NewFormRejected | src/components/bookings/BookingFormDialog.tsx:31-36 | the initial values of a new booking fail the schema |
| BookingForm.SubmitBooking | src/components/bookings/BookingFormDialog.tsx:81-101 | an edit sends the four form fields and the balance (total less deposit) and nothing else; a new booking carries the given id and time, the form's fields, that balance, and is unpaid |
| BookingForm.SubmittedBalance | src/components/bookings/BookingFormDialog.tsx:82-99 | on both paths the stored balance is total less deposit; an edit keeps the booking's id, paid flag and creation time |
| BookingForm.EditRoundTrip | src/components/bookings/BookingFormDialog.tsx:63-70 | loading a booking and saving it unchanged only recomputes its balance |
| BookingForm.DepositAboveTotalAccepted | src/components/bookings/BookingFormDialog.tsx:31-36 | the schema accepts a deposit above the total, and the stored balance is then negative |
| BookingForm.PaidEditReopensBalance | src/components/bookings/BookingFormDialog.tsx:84-88 | editing a paid booking keeps it paid but gives it back a non-zero balance |
| BookingForm.ValidBookingForm | src/components/bookings/BookingFormDialog.tsx:31-36 | the schema: a customer, a program name of at least two characters, a total of at least 1 and a non-negative deposit |
| VisaPreview.DigitsOf | src/components/visas/VisaPreviewDialog.tsx:91 | removing the non-digits leaves only digits, in order, each digit as often as in the input |
| VisaPreview.DigitsOfDigits | src/components/visas/VisaPreviewDialog.tsx:91 | a digit string is its own digit string |
| VisaPreview.WhatsAppNumber | src/components/visas/VisaPreviewDialog.tsx:91-97 | the main path's number: the digits, with a `2` put in front unless they already start with `2` |
| VisaPreview.FallbackNumber | src/components/visas/VisaPreviewDialog.tsx:160-163 | the error path's number: the digits, with a `2` put in front only when they start with `0` |
| VisaPreview.CleanNumber | src/components/visas/VisaPreviewDialog.tsx:90-97 | the main path's cleaning yields a digit string that starts with `2` |
| VisaPreview.WhatsAppNumberShape | src/components/visas/VisaPreviewDialog.tsx:91-97 | the cleaned number is digits only, starts with `2` and is never empty |
| VisaPreview.WhatsAppNumberPrefix | src/components/visas/VisaPreviewDialog.tsx:92-97 | a digit string starting with `0` gets exactly one `2` in front; one starting with `2` is kept as it is |
| VisaPreview.AgencyNumberIsLocal | src/components/visas/VisaPreviewDialog.tsx:157 | the agency's number `AgencyNumber` is a digit string that starts with `0` |
| VisaPreview.WhatsAppNumberExample | src/components/visas/VisaPreviewDialog.tsx:92-97 | the agency's number `01119452522` becomes `201119452522` |
| VisaPreview.WhatsAppNumberIdempotent | src/components/visas/VisaPreviewDialog.tsx:91-97 | cleaning a cleaned number changes nothing |
| VisaPreview.CleanFallbackNumber | src/components/visas/VisaPreviewDialog.tsx:160-163 | the error path's cleaning yields the digits, with a `2` in front only for a leading `0` |
| VisaPreview.FallbackAgreement | src/components/visas/VisaPreviewDialog.tsx:160-163 | the two paths give the same number iff the digits start with `0` or `2` |
| VisaPreview.FallbackDiffers | src/components/visas/VisaPreviewDialog.tsx:160-163 | the input `5` gives `25` on the main path and `5` on the error path |
| VisaPreview.ShareWhatsApp | src/components/visas/VisaPreviewDialog.tsx:81-165 | an empty number is refused and nothing is shared; otherwise the browser's share sheet is used exactly when it is offered and nothing throws, a throw opens WhatsApp for the error path's number, and the remaining case opens it for the main path's number |
| VisaPreview.PdfFileName | src/components/visas/VisaPreviewDialog.tsx:61 | the file name is `visa-`, the visa number, then `.pdf` |
| VisaPreview.PdfFileNameInjective | src/components/visas/VisaPreviewDialog.tsx:61 | different visa numbers give different file names |
| VisaForm.FromLocations | src/components/visas/VisaFormDialog.tsx:149 | the origin list is the governorates when travelling to Saudi Arabia and the Saudi cities otherwise |
| VisaForm.ToLocations | src/components/visas/VisaFormDialog.tsx:150 | the destination list is the Saudi cities when travelling to Saudi Arabia and the governorates otherwise |
| VisaForm.ListsDisjoint | src/components/visas/VisaFormDialog.tsx:41-51 | there are 27 governorates and 6 Saudi cities, and no entry is in both lists |
| VisaForm.DirectionLists | src/components/visas/VisaFormDialog.tsx:149-150 | reversing the direction swaps the lists; no entry is offered both as origin and as destination |
| VisaForm.LoadDate | src/components/visas/VisaFormDialog.tsx:100-102 | a missing or empty date column loads as no date; any other loads as itself |
| VisaForm.ValidVisaForm | src/components/visas/VisaFormDialog.tsx:53-63 | the schema: a customer, a visa number, all three dates, a document status and non-empty locations |
| VisaForm.LoadVisa | src/components/visas/VisaFormDialog.tsx:95-118 | when the dialog is given another visa it loads that visa's fields; when it is given none it loads the defaults |
| VisaForm.Opened | src/components/visas/VisaFormDialog.tsx:95-124 | the form after a new visa is given keeps the loaded direction and fields; the locations are the loaded ones when the direction stays and empty when it changes |
| VisaForm.DirectionChangeOnOpenBlocksEdit | src/components/visas/VisaFormDialog.tsx:121-124 | a visa whose direction differs from the form's current one loads into a form the schema rejects |
| VisaForm.VisaFormState.constructor | src/components/visas/VisaFormDialog.tsx:81-91 | the form starts with the default values |
| VisaForm.VisaFormState.Reset | src/components/visas/VisaFormDialog.tsx:95-124 | giving the dialog another visa loads its values, and clears both locations when that changes the form's direction |
| VisaForm.VisaFormState.ChangeDirection | src/components/visas/VisaFormDialog.tsx:120-124 | a new direction clears both locations, after which the schema rejects the form; the same direction changes nothing |
| VisaForm.VisaFormState.ChooseLocations | src/components/visas/VisaFormDialog.tsx:61-62 | choosing locations sets both and nothing else |
| VisaForm.BookingDate | src/components/visas/VisaFormDialog.tsx:137 | the booking date is the edited visa's own when non-empty, otherwise today's date |
| VisaForm.SubmitVisa | src/components/visas/VisaFormDialog.tsx:126-144 | the payload copies customer, number, status, direction and both locations, sends each date's day part and the booking date; an edit names the visa |
| VisaForm.DayTextUnchanged | src/components/visas/VisaFormDialog.tsx:130-132 | a date without a time part survives the day-part split unchanged |
| VisaForm.EditRoundTrip | src/components/visas/VisaFormDialog.tsx:95-144 | giving the dialog a complete visa, in the hook's row shape, while the form is already in its direction, and saving it unchanged writes back the same row, booking date included |
| VisaForm.MissingBookingDateIsToday | src/components/visas/VisaFormDialog.tsx:137 | an edited visa without a booking date gets today's date, as a new one does |
| VisaForm.LocationsNotChecked | src/components/visas/VisaFormDialog.tsx:61-62 | the schema accepts locations that neither list offers |
| CustomerForm.OrEmpty | src/components/customers/CustomerFormDialog.tsx:100-103 | a missing optional text becomes empty, a present one is kept |
| CustomerForm.ValidCustomerForm | src/components/customers/CustomerFormDialog.tsx:31-39 | the schema: a name of at least 2, a phone of at least 10 and a national id of at least 5 characters, and one of the four customer statuses |
| CustomerForm.LoadCustomer | src/components/customers/CustomerFormDialog.tsx:69-91 | when the dialog is given another customer it loads that customer's fields, with missing texts as empty ones; when it is given none it loads the defaults |
| CustomerForm.SubmitCustomer | src/components/customers/CustomerFormDialog.tsx:93-115 | the payload carries name, phone, national id, status and the three optional texts defaulted to empty; an update also names the customer |
| CustomerForm.SamePayload | src/components/customers/CustomerFormDialog.tsx:94-114 | add and update send the same fields; the update only adds the id |
| CustomerForm.EditRoundTrip | src/components/customers/CustomerFormDialog.tsx:71-104 | giving the dialog a customer in the hook's row shape and saving it unchanged writes back its fields, missing texts stored as empty |
| CustomerForm.CompleteRoundTrip | src/components/customers/CustomerFormDialog.tsx:71-104 | a customer with all optional texts present comes back exactly |
| CustomerForm.DocumentStatusBlocksEdit | src/components/customers/CustomerFormDialog.tsx:37 | a customer carrying `issued` or `expired` loads into a form the schema rejects |
| ExpenseForm.LoadExpense | src/components/expenses/ExpenseFormDialog.tsx:63-79 | when the dialog is given another expense it loads that expense's fields, a null amount as 0 and a null description or date as null; when it is given none it loads empty values dated today |
| ExpenseForm.SubmitExpense | src/components/expenses/ExpenseFormDialog.tsx:81-97 | the payload is exactly category, amount, description and date; an update also names the expense |
| ExpenseForm.EditRoundTrip | src/components/expenses/ExpenseFormDialog.tsx:65-89 | opening and saving an expense unchanged writes back the same row |
| ExpenseForm.MissingColumnBlocksEdit | src/components/expenses/ExpenseFormDialog.tsx:33-35 | an expense with a null amount, description or date loads into a form the schema rejects |
| ExpenseForm.UnknownCategoryAccepted | src/components/expenses/ExpenseFormDialog.tsx:32 | the schema accepts a category the select does not offer |
| ExpenseForm.ValidExpenseForm | src/components/expenses/ExpenseFormDialog.tsx:31-36 | the schema: a category, an amount of at least 1, a description of at least two characters and a date, neither null |
| DebtForm.LoadDebt | src/components/debts/DebtFormDialog.tsx:63-79 | when the dialog is given another debt it loads name, amount (null as 0), type and description; when it is given none it loads the defaults |
| DebtForm.SubmitDebt | src/components/debts/DebtFormDialog.tsx:81-99 | both paths send name, amount, type and the description defaulted to empty; a new debt is also unpaid and dated today |
| DebtForm.EditKeepsStatusAndDate | src/components/debts/DebtFormDialog.tsx:83-89 | an edit never changes a debt's paid flag or date |
| DebtForm.EditRoundTrip | src/components/debts/DebtFormDialog.tsx:65-89 | opening and saving a debt unchanged that the schema accepts writes back the same row |
| DebtForm.NullDescriptionBlocksEdit | src/components/debts/DebtFormDialog.tsx:33-35 | a debt with a null description or a null amount loads into a form the schema rejects |
| DebtForm.NewDebtIsOpen | src/components/debts/DebtFormDialog.tsx:91-98 | a new debt starts unpaid and dated today, with the form's name, amount and type |
| DebtForm.ValidDebtForm | src/components/debts/DebtFormDialog.tsx:31-36 | the schema: a name of at least two characters, an amount of at least 1, and a description that is not null |
| BookingsPage.FilteredBookings | src/pages/Bookings.tsx:30-36 | the shown bookings are exactly the matching ones, in original order |
| BookingsPage.BookingMatches | src/pages/Bookings.tsx:31-35 | a booking matches when the first customer with its id has a name containing the query, or its program name does, both compared lower-cased |
| BookingsPage.EmptyQueryKeepsAll | src/pages/Bookings.tsx:34 | an empty search shows every booking |
| BookingsPage.UnknownCustomerMatchesByProgram | src/pages/Bookings.tsx:31-34 | a booking whose customer is not found is kept iff its program name matches |
| BookingsPage.CustomerNameMatch | src/pages/Bookings.tsx:31-33 | a booking whose first matching customer's name contains the query is kept |
| BookingsPage.QueryCaseIgnored | src/pages/Bookings.tsx:33-34 | lower-casing the query does not change the result |
| VisasPage.FilteredVisas | src/pages/Visas.tsx:30-36 | the shown visas are exactly the matching ones, in original order |
| VisasPage.VisaMatches | src/pages/Visas.tsx:31-35 | a visa matches when the first customer with its id has a name containing the query, or its number does, both compared lower-cased |
| VisasPage.EmptyQueryKeepsAll | src/pages/Visas.tsx:34 | an empty search shows every visa |
| VisasPage.UnknownCustomerMatchesByNumber | src/pages/Visas.tsx:31-34 | a visa whose customer is not found is kept iff its number matches |
| VisasPage.QueryCaseIgnored | src/pages/Visas.tsx:33-34 | lower-casing the query does not change the result |
| VisasPage.StatusLabel | src/pages/Visas.tsx:71-75 | every document status has a non-empty label |
| VisasPage.StatusLabelsDistinct | src/pages/Visas.tsx:65-81 | two statuses share a label iff they are the same status |
| CustomersPage.FilteredCustomers | src/pages/Customers.tsx:28-33 | the shown customers are exactly the matching ones, in original order |
| CustomersPage.CustomerMatches | src/pages/Customers.tsx:29-32 | a customer matches on a lower-cased name, or on phone or national id as typed |
| CustomersPage.EmptyQueryKeepsAll | src/pages/Customers.tsx:30 | an empty search shows every customer |
| CustomersPage.NationalIdCaseMatters | src/pages/Customers.tsx:30-32 | the national id is matched against the query as typed, so the case of its letters matters |
| CustomersPage.StatusLabel | src/pages/Customers.tsx:58-63 | there is a label exactly for the four customer statuses |
| CustomersPage.StatusLabelsDistinct | src/pages/Customers.tsx:58-63 | two customer statuses share a label iff they are the same status |
| ExpensesPage.FilteredExpenses | src/pages/Expenses.tsx:36-40 | the shown expenses are exactly the matching ones, in original order |
| ExpensesPage.ExpenseMatches | src/pages/Expenses.tsx:37-39 | an expense matches when its lower-cased description contains the lower-cased query, or its category has a label containing the query as typed |
| ExpensesPage.DisplayedTotal | src/pages/Expenses.tsx:42 | the displayed total is the sum of the amounts of the shown expenses |
| ExpensesPage.UnknownCategoryMatchesByDescription | src/pages/Expenses.tsx:37-39 | an expense of an unknown category is kept iff its description matches |
| ExpensesPage.EmptyQueryShowsAll | src/pages/Expenses.tsx:36-42 | an empty search shows every expense, and the displayed total is the overall total |
| ExpensesPage.DisplayedWithinTotal | src/pages/Expenses.tsx:42 | with non-negative amounts, the displayed total never exceeds the overall total |
| ExpensesPage.DisplayedCategory | src/pages/Expenses.tsx:137 | a known category is shown by its label, an unknown one by its raw key |
| ExpensesPage.CategoryLabelsDistinct | src/pages/Expenses.tsx:19-26 | the six known categories are shown under six different labels |

## Left out

- Network persistence is not modelled: the Supabase hooks, react-query caching, toasts and the zustand `persist` storage. Each dialog's submission ends at the store or database call it would make.
- Rendering, layout, routing, the install prompt and the JSX of every page and dialog.
- Export plumbing: the canvas capture, jsPDF, Blob/URL, `JSON.stringify`, `window.open`, `encodeURIComponent` and the Web Share API calls. Whether the browser offers to share the image and whether rendering or sharing throws are parameters of the share action.
- Clock and locale: `new Date()`, `toISOString`, date-fns and `toLocaleString`. Times and "today" are parameters, and dates are strings. In the visa form a picked date is held by its ISO text, so no time-zone shift between a loaded day and the saved one is modelled.
- Floating point: amounts are integers, and the `Number(...)` coercions of the Dashboard and Expenses pages are identities. A null amount column is an `Option` in the form rows and reads as 0.
- Collections.ToLower: lower-cases ASCII letters only; the source's `toLowerCase` also maps non-ASCII capitals, which have no case in the Arabic text this application holds.
- Store.RecordStore.UpdateCustomer: a partial record's field set to `undefined` (as opposed to absent) is not modelled; every patch field is either absent or a value. The same holds for the other update methods.
- Dashboard.Summarize: is stated over the store's record types. The page reads the database rows, whose nullable amount and paid columns are not modelled there.
- ExpensesPage.DisplayedCategory: a category key that names a property of every JavaScript object (e.g. `constructor`) would find an inherited value in `expenseCategories`; the model's label map holds only the six keys.
- VisaForm.VisaFormState.Reset: the reset effect runs in the commit where the `visa` prop changes. The direction effect runs in the re-render that the reset causes, exactly when the reset changed the direction. `Reset` models the two as one step, and `Opened` gives their combined outcome. The effects' run when the dialog is first mounted, with no visa, loads the defaults and leaves the direction unchanged, so it is the case `Reset(None)` from the defaults.
- ExpensesPage.FilteredExpenses: the page is stated over the store's expense records, whose description and amount are always present. The database row the page reads allows a null description, which makes `expense.description.toLowerCase()` throw and the page fail, and a null amount, which `Number` sums as 0; neither is modelled here. A category key naming an inherited property of every JavaScript object (e.g. `constructor`) makes `expenseCategories[key]?.includes` throw, because the inherited value is a function; the model treats such a key as an unknown category, whose expenses match by description only.
- String lengths: the schemas' `min(n)` counts UTF-16 code units, while the model's `|s|` counts Unicode scalar values; a text made of one character outside the Basic Multilingual Plane (an emoji, say) passes `min(2)` in the source but not in the model.
- Dialog lifetime: every page renders its dialog all the time, and the "Add" button only opens it. A reset runs only when the record given to the dialog changes, and closing the dialog does not reset the form. So reopening the add dialog after a cancel keeps the values typed before. After an added expense the expense dialog's `form.reset()` returns to the values taken when the dialog was mounted, including that moment's date rather than today's. The model's load functions describe the reset effects alone.
- Customer and visa dialog wiring: the customers page (src/pages/Customers.tsx:163-167) and the visas page (src/pages/Visas.tsx:187-191) hand `CustomerFormDialog` and `VisaFormDialog` the store's records, with fields such as `fullName` and `customerId`. The dialogs read the hook's row fields, such as `full_name` and `customer_id`, so in the application as wired an opened record loads undefined fields. `CustomerForm` and `VisaForm` are stated over the rows the hooks declare, and their round trips hold for those rows only.
- The receivables and payables totals of the debts page are not part of this model; that page is not among the modelled files.
- The `visaCardRef` guard at the start of the share action is a rendering check and is left out.
