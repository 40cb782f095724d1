/** The bookings list (src/pages/Bookings.tsx): the search box filter over the store's bookings. */
module BookingsPage {
  import opened Collections
  import opened Entities

  /** The search test for one booking: the first customer with the booking's customer id has a
      name containing the query, or the program name contains it, both compared lower-cased.
      A booking whose customer is not found can only match through its program name. */
  predicate BookingMatches(customers: seq<Customer>, query: string, b: Booking)
  {
    var q := ToLower(query);
    var c := Find(customers, CustomerId, b.customerId);
    (c.Some? && Contains(ToLower(c.value.fullName), q)) || Contains(ToLower(b.programName), q)
  }

  function MatchesQuery(customers: seq<Customer>, query: string): Booking -> bool
  {
    (b: Booking) => BookingMatches(customers, query, b)
  }

  /** `filteredBookings`: the matching bookings, in their original order. */
  function FilteredBookings(bookings: seq<Booking>, customers: seq<Customer>, query: string): (r: seq<Booking>)
    ensures IsSubsequence(r, bookings)
    ensures forall b :: b in r <==> b in bookings && BookingMatches(customers, query, b)
    ensures forall b: Booking :: BookingMatches(customers, query, b) ==>
              multiset(r)[b] == multiset(bookings)[b]
  {
    Filter(bookings, MatchesQuery(customers, query))
  }

  /** An empty search shows every booking. */
  lemma {:induction false} EmptyQueryKeepsAll(bookings: seq<Booking>, customers: seq<Customer>)
    ensures FilteredBookings(bookings, customers, "") == bookings
  {
    forall b | b in bookings ensures BookingMatches(customers, "", b) {
      ContainsEmpty(ToLower(b.programName));
    }
    FilterAll(bookings, MatchesQuery(customers, ""));
  }

  /** A booking whose customer id names no customer is kept exactly when its program name
      contains the query. */
  lemma UnknownCustomerMatchesByProgram(customers: seq<Customer>, query: string, b: Booking)
    requires forall c :: c in customers ==> c.id != b.customerId
    ensures BookingMatches(customers, query, b) <==> Contains(ToLower(b.programName), ToLower(query))
  {
  }

  /** A booking is kept when its customer's name contains the query, whatever its program. */
  lemma {:induction false} CustomerNameMatch(customers: seq<Customer>, query: string, b: Booking, i: nat)
    requires i < |customers| && customers[i].id == b.customerId
    requires forall j :: 0 <= j < i ==> customers[j].id != b.customerId
    requires Contains(ToLower(customers[i].fullName), ToLower(query))
    ensures BookingMatches(customers, query, b)
  {
    var c := Find(customers, CustomerId, b.customerId);
    assert customers[i] in customers && CustomerId(customers[i]) == b.customerId;
    var k :| 0 <= k < |customers| && customers[k] == c.value && CustomerId(customers[k]) == b.customerId
             && forall j :: 0 <= j < k ==> CustomerId(customers[j]) != b.customerId;
    assert k == i;
  }

  /** The filter does not depend on the case of the query's letters. */
  lemma {:induction false} QueryCaseIgnored(bookings: seq<Booking>, customers: seq<Customer>, query: string)
    ensures FilteredBookings(bookings, customers, ToLower(query)) == FilteredBookings(bookings, customers, query)
  {
    ToLowerIdempotent(query);
    FilterSame(bookings, MatchesQuery(customers, ToLower(query)), MatchesQuery(customers, query));
  }
}
