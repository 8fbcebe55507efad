/** The customer dashboard: the customers it loads, the search over names,
    numbers and address, and the sort by name, customer number or city. */
module CustomerDashboard {
  import opened Js
  import opened Text
  import opened Records
  import opened Seqs
  import opened Dashboard
  import Api
  import Http

  const INITIAL_SORT := "name"
  const INITIAL_DIRECTION := Asc

  /** The sort and view state the dashboard mounts with: by name, A to Z, as cards. */
  method NewViewState() returns (v: ViewState)
    ensures fresh(v)
    ensures v.sortBy == "name" && v.direction == Asc && v.viewMode == Grid
  {
    v := new ViewState(INITIAL_SORT, INITIAL_DIRECTION);
  }

  /** `fetchData`: `fetchCustomers` always delivers a list, so the wrapping of a
      single value never applies and a failed request shows no customers. */
  function LoadedCustomers(fetched: Result<Http.Response, string>, e: Engine): (customers: seq<Json>)
    ensures customers == Api.FetchCustomers(fetched, e)
    ensures fetched.Failure? || !fetched.value.ok ==> customers == []
  {
    AsList(JArr(Api.FetchCustomers(fetched, e)))
  }

  // ---------------------------------------------------------------------------
  // Address fields

  /** `address = getCustomerProperty(c, 'address') || {}`, then
      `typeof address === 'object' ? address[key] || '' : ''`. */
  function AddressField(c: Customer, key: string): (r: string)
    ensures !Present(c.address) ==> r == ""
    ensures Present(c.address) && c.address.value.JObj? ==> r == TextOf(Member(c.address.value, key))
  {
    var address := if Present(c.address) then c.address.value else JObj(map[]);
    if address.JObj? || address.JArr? then TextOf(Member(address, key)) else ""
  }

  /** A customer whose `address` is not an object has neither city nor zip code. */
  lemma NonObjectAddressIsEmpty(c: Customer, key: string)
    requires Present(c.address) && !c.address.value.JObj?
    ensures AddressField(c, key) == ""
  {
  }

  // ---------------------------------------------------------------------------
  // Filtering

  /** The six texts the search looks in, each "" when missing. */
  function SearchFields(c: Customer): (r: seq<string>)
    ensures |r| == 6
  {
    [OrElse(c.companyName, ""), OrElse(c.firstName, ""), OrElse(c.lastName, ""), OrElse(c.customerNumber, ""),
     AddressField(c, "city"), AddressField(c, "zipcode")]
  }

  /** An empty search keeps every customer; otherwise one of the fields must
      contain the lower-cased term, ignoring case. */
  predicate SearchMatches(c: Customer, term: string) {
    term == "" || exists k :: 0 <= k < 6 && Contains(Lower(SearchFields(c)[k]), Lower(term))
  }

  /** `filteredCustomers`. */
  function FilteredCustomers(customers: seq<Customer>, term: string): (r: seq<Customer>)
    ensures |r| <= |customers|
  {
    Filter(customers, c => SearchMatches(c, term))
  }

  /** The dashboard shows, in their loaded order, exactly the customers that match. */
  lemma FilteredCustomersExactly(customers: seq<Customer>, term: string)
    ensures IsSubsequence(FilteredCustomers(customers, term), customers)
    ensures forall c :: c in FilteredCustomers(customers, term) <==> c in customers && SearchMatches(c, term)
    ensures term == "" ==> FilteredCustomers(customers, term) == customers
  {
    var p := c => SearchMatches(c, term);
    FilterIsSubsequence(customers, p);
    forall c ensures c in Filter(customers, p) <==> c in customers && p(c) {
      FilterMembership(customers, p, c);
    }
    if term == "" {
      FilterAll(customers, p);
    }
  }

  /** A missing field never matches a non-empty term. */
  lemma MissingFieldsNeverMatch(c: Customer, term: string)
    requires term != ""
    requires !Filled(c.companyName) && !Filled(c.firstName) && !Filled(c.lastName) && !Filled(c.customerNumber)
    requires !Present(c.address)
    ensures !SearchMatches(c, term)
  {
    forall k | 0 <= k < 6 ensures !Contains(Lower(SearchFields(c)[k]), Lower(term)) {
      assert SearchFields(c)[k] == "";
    }
  }

  /** Typing more characters can only narrow the list, and keeps its order. */
  lemma NarrowingSearch(customers: seq<Customer>, term: string, more: string)
    ensures IsSubsequence(FilteredCustomers(customers, term + more), FilteredCustomers(customers, term))
  {
    forall c | SearchMatches(c, term + more) ensures SearchMatches(c, term) {
      if term != "" {
        var k :| 0 <= k < 6 && Contains(Lower(SearchFields(c)[k]), Lower(term + more));
        NeedleNarrows(Lower(SearchFields(c)[k]), term, more);
      }
    }
    FilterNarrows(customers, c => SearchMatches(c, term + more), c => SearchMatches(c, term));
  }

  // ---------------------------------------------------------------------------
  // Sorting

  /** `companyName || `${firstName || ''} ${lastName || ''}``. */
  function NameKey(c: Customer): (r: string)
    ensures Filled(c.companyName) ==> r == c.companyName.value
    ensures !Filled(c.companyName) ==> ' ' in r
  {
    if Filled(c.companyName) then c.companyName.value
    else
      var r := OrElse(c.firstName, "") + " " + OrElse(c.lastName, "");
      assert r[|OrElse(c.firstName, "")|] == ' ';
      r
  }

  function NumberKey(c: Customer): string {
    OrElse(c.customerNumber, "")
  }

  function CityKey(c: Customer): string {
    AddressField(c, "city")
  }

  /** The comparator `sortedCustomers` uses for the chosen column and direction. */
  function CustomerComparator(sortBy: string, direction: Direction, locale: Locale): (Customer, Customer) -> int {
    if sortBy == "name" then Textual(NameKey, direction, locale.compare)
    else if sortBy == "customerNumber" then Textual(NumberKey, direction, locale.compare)
    else if sortBy == "city" then Textual(CityKey, direction, locale.compare)
    else Unordered()
  }

  /** `sortedCustomers`: a sorted copy of the filtered list. */
  function SortedCustomers(filtered: seq<Customer>, sortBy: string, direction: Direction, locale: Locale)
    : (r: seq<Customer>)
    ensures |r| == |filtered|
  {
    Sort(filtered, CustomerComparator(sortBy, direction, locale))
  }

  /** Sorting neither drops nor duplicates a customer. */
  lemma SortedCustomersPermute(filtered: seq<Customer>, sortBy: string, direction: Direction, locale: Locale)
    ensures multiset(SortedCustomers(filtered, sortBy, direction, locale)) == multiset(filtered)
  {
    SortPermutes(filtered, CustomerComparator(sortBy, direction, locale));
  }

  /** Descending compares the pair the other way round, for every column. */
  lemma DescendingSwaps(sortBy: string, locale: Locale, a: Customer, b: Customer)
    ensures CustomerComparator(sortBy, Desc, locale)(a, b) == CustomerComparator(sortBy, Asc, locale)(b, a)
  {
  }

  /** By name, customers compare by their company name when they have one,
      whatever their person names. */
  lemma CompanyNameDecides(sortBy: string, direction: Direction, locale: Locale, a: Customer, b: Customer,
                           first: Option<string>, last: Option<string>)
    requires sortBy == "name" && Filled(a.companyName)
    ensures CustomerComparator(sortBy, direction, locale)(a.(firstName := first, lastName := last), b) ==
            CustomerComparator(sortBy, direction, locale)(a, b)
  {
    assert NameKey(a.(firstName := first, lastName := last)) == NameKey(a);
  }

  /** An unknown column leaves the filtered order as it is. */
  lemma UnknownColumnKeepsOrder(filtered: seq<Customer>, sortBy: string, direction: Direction, locale: Locale)
    requires sortBy !in ["name", "customerNumber", "city"]
    ensures SortedCustomers(filtered, sortBy, direction, locale) == filtered
  {
    SortNeutral(filtered, CustomerComparator(sortBy, direction, locale));
  }
}
