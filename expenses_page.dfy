/** The expenses list (src/pages/Expenses.tsx): the category labels, the search box filter, the
    total shown for the filtered list and the category shown in each row. */
module ExpensesPage {
  import opened Collections
  import opened Entities
  import Reports

  /** `expenseCategories`: the label of each category key the expense form offers. */
  const CategoryLabels: map<string, string> :=
    map["office" := "مصاريف مكتبية", "transport" := "مواصلات", "marketing" := "تسويق",
        "salaries" := "رواتب", "utilities" := "مرافق", "other" := "أخرى"]

  /** The search test for one expense: the lower-cased description contains the lower-cased
      query, or the expense has a known category whose label contains the query as typed. */
  predicate ExpenseMatches(query: string, e: Expense)
  {
    || Contains(ToLower(e.description), ToLower(query))
    || (e.category in CategoryLabels && Contains(CategoryLabels[e.category], query))
  }

  function MatchesQuery(query: string): Expense -> bool
  {
    (e: Expense) => ExpenseMatches(query, e)
  }

  /** `filteredExpenses`: the matching expenses, in their original order. */
  function FilteredExpenses(expenses: seq<Expense>, query: string): (r: seq<Expense>)
    ensures IsSubsequence(r, expenses)
    ensures forall e :: e in r <==> e in expenses && ExpenseMatches(query, e)
    ensures forall e: Expense :: ExpenseMatches(query, e) ==> multiset(r)[e] == multiset(expenses)[e]
  {
    Filter(expenses, MatchesQuery(query))
  }

  /** An expense of an unknown category is kept exactly when its description matches. */
  lemma UnknownCategoryMatchesByDescription(query: string, e: Expense)
    requires e.category !in CategoryLabels
    ensures ExpenseMatches(query, e) <==> Contains(ToLower(e.description), ToLower(query))
  {
  }

  /** The total shown above the list: the sum of the amounts of the filtered expenses. */
  function DisplayedTotal(expenses: seq<Expense>, query: string): int
  {
    Reports.TotalExpenses(FilteredExpenses(expenses, query))
  }

  /** With an empty search the list shows every expense and the total is the overall total. */
  lemma {:induction false} EmptyQueryShowsAll(expenses: seq<Expense>)
    ensures FilteredExpenses(expenses, "") == expenses
    ensures DisplayedTotal(expenses, "") == Reports.TotalExpenses(expenses)
  {
    forall e | e in expenses ensures ExpenseMatches("", e) {
      ContainsEmpty(ToLower(e.description));
    }
    FilterAll(expenses, MatchesQuery(""));
  }

  /** With non-negative amounts, the filtered total never exceeds the overall total. */
  lemma DisplayedWithinTotal(expenses: seq<Expense>, query: string)
    requires forall e :: e in expenses ==> e.amount >= 0
    ensures DisplayedTotal(expenses, query) <= Reports.TotalExpenses(expenses)
  {
    SumFilterAtMost(expenses, MatchesQuery(query), Reports.ExpenseAmount);
  }

  /** The category cell: the key's label, or the key itself when it has none. */
  function DisplayedCategory(key: string): (text: string)
    ensures key in CategoryLabels ==> text == CategoryLabels[key]
    ensures key !in CategoryLabels ==> text == key
  {
    if key in CategoryLabels && CategoryLabels[key] != "" then CategoryLabels[key] else key
  }

  /** The six known categories are shown under six different labels. */
  lemma CategoryLabelsDistinct(k1: string, k2: string)
    requires k1 in CategoryLabels && k2 in CategoryLabels
    ensures DisplayedCategory(k1) == DisplayedCategory(k2) <==> k1 == k2
  {
  }
}
