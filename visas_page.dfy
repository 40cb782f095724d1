/** The visas list (src/pages/Visas.tsx): the search box filter over the store's visas and the
    label shown for each document status. */
module VisasPage {
  import opened Collections
  import opened Entities

  /** The search test for one visa: the first customer with the visa's customer id has a name
      containing the query, or the visa number contains it, both compared lower-cased. */
  predicate VisaMatches(customers: seq<Customer>, query: string, v: Visa)
  {
    var q := ToLower(query);
    var c := Find(customers, CustomerId, v.customerId);
    (c.Some? && Contains(ToLower(c.value.fullName), q)) || Contains(ToLower(v.visaNumber), q)
  }

  function MatchesQuery(customers: seq<Customer>, query: string): Visa -> bool
  {
    (v: Visa) => VisaMatches(customers, query, v)
  }

  /** `filteredVisas`: the matching visas, in their original order. */
  function FilteredVisas(visas: seq<Visa>, customers: seq<Customer>, query: string): (r: seq<Visa>)
    ensures IsSubsequence(r, visas)
    ensures forall v :: v in r <==> v in visas && VisaMatches(customers, query, v)
    ensures forall v: Visa :: VisaMatches(customers, query, v) ==> multiset(r)[v] == multiset(visas)[v]
  {
    Filter(visas, MatchesQuery(customers, query))
  }

  /** An empty search shows every visa. */
  lemma {:induction false} EmptyQueryKeepsAll(visas: seq<Visa>, customers: seq<Customer>)
    ensures FilteredVisas(visas, customers, "") == visas
  {
    forall v | v in visas ensures VisaMatches(customers, "", v) {
      ContainsEmpty(ToLower(v.visaNumber));
    }
    FilterAll(visas, MatchesQuery(customers, ""));
  }

  /** A visa whose customer id names no customer is kept exactly when its number contains the
      query. */
  lemma UnknownCustomerMatchesByNumber(customers: seq<Customer>, query: string, v: Visa)
    requires forall c :: c in customers ==> c.id != v.customerId
    ensures VisaMatches(customers, query, v) <==> Contains(ToLower(v.visaNumber), ToLower(query))
  {
  }

  /** The filter does not depend on the case of the query's letters. */
  lemma {:induction false} QueryCaseIgnored(visas: seq<Visa>, customers: seq<Customer>, query: string)
    ensures FilteredVisas(visas, customers, ToLower(query)) == FilteredVisas(visas, customers, query)
  {
    ToLowerIdempotent(query);
    FilterSame(visas, MatchesQuery(customers, ToLower(query)), MatchesQuery(customers, query));
  }

  /** The badge text of `getStatusBadge`. */
  function StatusLabel(s: DocumentStatus): (text: string)
    ensures text != ""
  {
    match s
    case Pending => "قيد المعالجة"
    case Issued => "صادرة"
    case Expired => "منتهية"
  }

  /** The three document statuses are told apart by their labels. */
  lemma StatusLabelsDistinct(s: DocumentStatus, t: DocumentStatus)
    ensures StatusLabel(s) == StatusLabel(t) <==> s == t
  {
  }
}
