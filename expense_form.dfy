/** The expense dialog (src/components/expenses/ExpenseFormDialog.tsx): its validation schema,
    the loading of an expense into the form and the payload it submits. */
module ExpenseForm {
  import opened Collections
  import Reports

  /** An expense as the dialog receives it; the amount, description and date columns may be
      null (`None`). */
  datatype ExpenseRow = ExpenseRow(id: string, category: string, amount: Option<int>,
                                   description: Option<string>, date: Option<string>)

  /** The form's values; a description or date of `None` is the null a loaded row put there. */
  datatype ExpenseFormData = ExpenseFormData(category: string, amount: int,
                                             description: Option<string>, date: Option<string>)

  /** The schema: a category, an amount of at least 1, a description of at least two characters
      and a date, neither of them null. Any non-empty category passes. */
  predicate ValidExpenseForm(f: ExpenseFormData)
  {
    && |f.category| >= 1 && f.amount >= 1
    && f.description.Some? && |f.description.value| >= 2
    && f.date.Some? && |f.date.value| >= 1
  }

  /** The keys the category select offers. */
  const CategoryKeys: seq<string> := ["office", "transport", "marketing", "salaries", "utilities", "other"]

  /** The reset that runs when the dialog is given another expense, or none: that expense's
      values (a null amount reads as 0), or empty values dated with the date part of the current
      time `now`. */
  function LoadExpense(e: Option<ExpenseRow>, now: string): (f: ExpenseFormData)
    ensures e.None? ==> f == ExpenseFormData("", 0, Some(""), Some(Reports.DatePart(now)))
    ensures e.Some? ==>
      && f.category == e.value.category && f.description == e.value.description
      && f.date == e.value.date
      && (e.value.amount.Some? ==> f.amount == e.value.amount.value)
      && (e.value.amount.None? ==> f.amount == 0)
  {
    match e
    case None => ExpenseFormData("", 0, Some(""), Some(Reports.DatePart(now)))
    case Some(r) => ExpenseFormData(r.category, r.amount.GetOr(0), r.description, r.date)
  }

  /** The fields the dialog sends, on both paths. */
  datatype ExpensePayload = ExpensePayload(category: string, amount: int, description: string,
                                           date: string)

  datatype ExpenseSubmission =
    | AddExpenseAction(payload: ExpensePayload)
    | UpdateExpenseAction(id: string, payload: ExpensePayload)

  /** The submission for validated form data; `editing` is the expense being edited, if any. */
  function SubmitExpense(f: ExpenseFormData, editing: Option<ExpenseRow>): (s: ExpenseSubmission)
    requires ValidExpenseForm(f)
    ensures s.UpdateExpenseAction? <==> editing.Some?
    ensures s.UpdateExpenseAction? ==> s.id == editing.value.id
    ensures s.payload == ExpensePayload(f.category, f.amount, f.description.value, f.date.value)
  {
    var p := ExpensePayload(f.category, f.amount, f.description.value, f.date.value);
    if editing.Some? then UpdateExpenseAction(editing.value.id, p) else AddExpenseAction(p)
  }

  /** The row an update turns `e` into. */
  function ApplyExpenseUpdate(e: ExpenseRow, p: ExpensePayload): ExpenseRow
  {
    ExpenseRow(e.id, p.category, Some(p.amount), Some(p.description), Some(p.date))
  }

  /** Opening an expense and saving it unchanged writes back its category, amount, description
      and date. */
  lemma EditRoundTrip(e: ExpenseRow, now: string)
    requires ValidExpenseForm(LoadExpense(Some(e), now))
    ensures var s := SubmitExpense(LoadExpense(Some(e), now), Some(e));
      s.UpdateExpenseAction? && s.id == e.id && ApplyExpenseUpdate(e, s.payload) == e
  {
  }

  /** An expense with a null amount loads as 0, and a null description or date loads as null,
      all of which the schema rejects. */
  lemma MissingColumnBlocksEdit(e: ExpenseRow, now: string)
    requires e.amount.None? || e.description.None? || e.date.None?
    ensures !ValidExpenseForm(LoadExpense(Some(e), now))
  {
  }

  /** The schema accepts a category the select does not offer. */
  lemma UnknownCategoryAccepted()
    ensures var f := ExpenseFormData("travel", 100, Some("tickets"), Some("2024-03-01"));
      ValidExpenseForm(f) && f.category !in CategoryKeys
  {
  }
}
