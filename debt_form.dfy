/** The debt dialog (src/components/debts/DebtFormDialog.tsx): its validation schema, the
    loading of a debt into the form and the payloads it submits. */
module DebtForm {
  import opened Collections
  import opened Entities
  import Reports

  /** A debt as the debt hook declares its rows; several columns may be null. */
  datatype DebtRow = DebtRow(id: string, personName: string, amount: Option<int>, kind: DebtType,
                             description: Option<string>, date: Option<string>,
                             isPaid: Option<bool>)

  /** The form's values. The form starts with an empty description and never leaves it
      undefined, so a `None` description is the null a loaded row put there. */
  datatype DebtFormData = DebtFormData(personName: string, amount: int, kind: DebtType,
                                       description: Option<string>)

  /** The schema: a name of at least two characters, an amount of at least 1 and a debt type.
      The description is optional, which admits leaving it undefined but not null. */
  predicate ValidDebtForm(f: DebtFormData)
  {
    |f.personName| >= 2 && f.amount >= 1 && f.description.Some?
  }

  const DefaultDebtForm := DebtFormData("", 0, Receivable, Some(""))

  /** The reset that runs when the dialog is given another debt, or none: that debt's values (a
      null amount reads as 0), or the defaults. */
  function LoadDebt(d: Option<DebtRow>): (f: DebtFormData)
    ensures d.None? ==> f == DefaultDebtForm
    ensures d.Some? ==>
      && f.personName == d.value.personName && f.kind == d.value.kind
      && f.description == d.value.description
      && f.amount == d.value.amount.GetOr(0)
  {
    match d
    case None => DefaultDebtForm
    case Some(r) => DebtFormData(r.personName, r.amount.GetOr(0), r.kind, r.description)
  }

  /** What the dialog sends: a new debt carries a date and a paid flag; an update only the four
      edited fields. */
  datatype DebtSubmission =
    | AddDebtAction(personName: string, amount: int, kind: DebtType, description: string,
                    date: string, isPaid: bool)
    | UpdateDebtAction(id: string, personName: string, amount: int, kind: DebtType,
                       description: string)

  /** The submission for validated form data; `editing` is the debt being edited, if any, and
      `now` the current time. */
  function SubmitDebt(f: DebtFormData, editing: Option<DebtRow>, now: string): (s: DebtSubmission)
    requires ValidDebtForm(f)
    ensures s.UpdateDebtAction? <==> editing.Some?
    ensures s.UpdateDebtAction? ==> s.id == editing.value.id
    ensures s.personName == f.personName && s.amount == f.amount && s.kind == f.kind
    ensures s.description == f.description.GetOr("")
    ensures s.AddDebtAction? ==> !s.isPaid && s.date == Reports.DatePart(now)
  {
    var description := f.description.GetOr("");
    if editing.Some? then
      UpdateDebtAction(editing.value.id, f.personName, f.amount, f.kind, description)
    else
      AddDebtAction(f.personName, f.amount, f.kind, description, Reports.DatePart(now), false)
  }

  /** The row a submission leaves in place of `d`: an update replaces the four sent columns and
      keeps everything else. */
  function ApplyDebtUpdate(d: DebtRow, s: DebtSubmission): DebtRow
    requires s.UpdateDebtAction?
  {
    d.(personName := s.personName, amount := Some(s.amount), kind := s.kind,
       description := Some(s.description))
  }

  /** An edit never changes whether a debt is paid, nor its date. */
  lemma EditKeepsStatusAndDate(f: DebtFormData, d: DebtRow, now: string)
    requires ValidDebtForm(f)
    ensures var r := ApplyDebtUpdate(d, SubmitDebt(f, Some(d), now));
      r.id == d.id && r.isPaid == d.isPaid && r.date == d.date
  {
  }

  /** Opening a debt and saving it unchanged writes back the same row. */
  lemma EditRoundTrip(d: DebtRow, now: string)
    requires ValidDebtForm(LoadDebt(Some(d)))
    ensures ApplyDebtUpdate(d, SubmitDebt(LoadDebt(Some(d)), Some(d), now)) == d
  {
  }

  /** A debt with a null description loads into a form the schema rejects, so it cannot be
      saved until a description is typed; a null amount, which reads as 0, blocks it likewise. */
  lemma NullDescriptionBlocksEdit(d: DebtRow)
    requires d.description.None? || d.amount.None?
    ensures !ValidDebtForm(LoadDebt(Some(d)))
  {
  }

  /** The record the store would keep for a new debt with identifier `id`. */
  function NewDebt(s: DebtSubmission, id: string): Debt
    requires s.AddDebtAction?
  {
    Debt(id, s.personName, s.amount, s.kind, s.description, s.date, s.isPaid)
  }

  /** A new debt starts unpaid, dated today, with the given fields. */
  lemma NewDebtIsOpen(f: DebtFormData, id: string, now: string)
    requires ValidDebtForm(f)
    ensures var n := NewDebt(SubmitDebt(f, None, now), id);
      && !n.isPaid && n.date == Reports.DatePart(now) && n.id == id
      && n.personName == f.personName && n.amount == f.amount && n.kind == f.kind
  {
  }
}
