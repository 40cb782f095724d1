/** The customers list (src/pages/Customers.tsx): the search box filter and the status labels. */
module CustomersPage {
  import opened Collections
  import opened Entities

  /** The search test for one customer: the lower-cased name contains the lower-cased query, or
      the phone number or the national id contains the query as typed. */
  predicate CustomerMatches(query: string, c: Customer)
  {
    || Contains(ToLower(c.fullName), ToLower(query))
    || Contains(c.phoneNumber, query)
    || Contains(c.nationalId, query)
  }

  function MatchesQuery(query: string): Customer -> bool
  {
    (c: Customer) => CustomerMatches(query, c)
  }

  /** `filteredCustomers`: the matching customers, in their original order. */
  function FilteredCustomers(customers: seq<Customer>, query: string): (r: seq<Customer>)
    ensures IsSubsequence(r, customers)
    ensures forall c :: c in r <==> c in customers && CustomerMatches(query, c)
    ensures forall c: Customer :: CustomerMatches(query, c) ==> multiset(r)[c] == multiset(customers)[c]
  {
    Filter(customers, MatchesQuery(query))
  }

  /** An empty search shows every customer. */
  lemma {:induction false} EmptyQueryKeepsAll(customers: seq<Customer>)
    ensures FilteredCustomers(customers, "") == customers
  {
    forall c | c in customers ensures CustomerMatches("", c) {
      ContainsEmpty(c.phoneNumber);
    }
    FilterAll(customers, MatchesQuery(""));
  }

  /** Only the name is compared without regard to case: a national id holding an upper-case
      letter is found by that letter typed in upper case but not in lower case. */
  lemma NationalIdCaseMatters()
    ensures var c := Customer("c1", "Om", "0", "A", "", "", Pending, "", "");
      CustomerMatches("A", c) && !CustomerMatches("a", c)
  {
    var c := Customer("c1", "Om", "0", "A", "", "", Pending, "", "");
    assert OccursAt(c.nationalId, "A", 0);
    assert ToLower("a") == "a" && ToLower("Om") == "om";
    assert forall i: nat :: !OccursAt("om", "a", i);
    assert forall i: nat :: !OccursAt("0", "a", i);
    assert forall i: nat :: !OccursAt("A", "a", i);
  }

  /** The badge of `visaStatusLabels`, defined for the four customer statuses only. */
  function StatusLabel(s: VisaStatus): (text: Option<string>)
    ensures text.Some? <==> IsCustomerStatus(s)
  {
    match s
    case Pending => Some("قيد الانتظار")
    case Processing => Some("جاري المعالجة")
    case Approved => Some("تمت الموافقة")
    case Rejected => Some("مرفوض")
    case Issued => None
    case Expired => None
  }

  /** The four customer statuses have four different labels. */
  lemma StatusLabelsDistinct(s: CustomerStatus, t: CustomerStatus)
    ensures StatusLabel(s) == StatusLabel(t) <==> s == t
  {
  }
}
