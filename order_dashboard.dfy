/** The order dashboard: the orders it loads, the status and search filter, the
    sort by the chosen column, and the "edit in EventWorx" action. */
module OrderDashboard {
  import opened Js
  import opened Text
  import opened Records
  import opened Seqs
  import opened Dashboard
  import Api
  import Http

  const INITIAL_SORT := "date"
  const INITIAL_DIRECTION := Desc
  const EDIT_URL := "https://lsz-vt.eventworx.biz/eventworx/#job/edit/order/"
  const NO_ORDER_ID := "Keine Auftrags-ID gefunden"

  /** The sort and view state the dashboard mounts with: newest start date first, as cards. */
  method NewViewState() returns (v: ViewState)
    ensures fresh(v)
    ensures v.sortBy == "date" && v.direction == Desc && v.viewMode == Grid
  {
    v := new ViewState(INITIAL_SORT, INITIAL_DIRECTION);
  }

  /** `fetchData`: what `fetchOrders` delivered, a single value wrapped into a list. */
  function LoadedOrders(fetched: Result<Http.Response, string>, e: Engine): (orders: seq<Json>)
    ensures fetched.Failure? || !fetched.value.ok ==> orders == []
    ensures var data := Api.FetchOrders(fetched, e); !data.JArr? ==> orders == [data]
  {
    AsList(Api.FetchOrders(fetched, e))
  }

  /** A failed request shows an empty list, not the error panel: `fetchOrders`
      settles every failure itself, so the dashboard's own `catch` never runs. */
  lemma FailureShowsNoOrders(fetched: Result<Http.Response, string>, e: Engine)
    requires fetched.Failure? || !fetched.value.ok || fetched.value.text.Failure?
    ensures LoadedOrders(fetched, e) == []
  {
  }

  // ---------------------------------------------------------------------------
  // Filtering

  /** `filter === 'all' || order.status === filter`. */
  predicate StatusMatches(o: Order, filter: string) {
    filter == "all" || o.status == filter
  }

  /** `field && field.toLowerCase().includes(needle)`. */
  predicate FieldMatches(field: Option<string>, needle: string) {
    Filled(field) && Contains(Lower(field.value), needle)
  }

  /** The same test on a value read by property path; only a string can match. */
  predicate PathMatches(v: Option<Json>, needle: string) {
    Present(v) && v.value.JStr? && Contains(Lower(v.value.s), needle)
  }

  /** An empty search keeps every order; otherwise the lower-cased term must
      occur in the title, the job number, the customer's company name, or the
      postal address's city or zip code. */
  predicate SearchMatches(o: Order, term: string) {
    term == "" ||
    var needle := Lower(term);
    FieldMatches(o.title, needle) || FieldMatches(o.jobNumber, needle) ||
    (o.customer.Some? && FieldMatches(o.customer.value.companyName, needle)) ||
    PathMatches(Lookup(o.postalAddress, ["city"]), needle) ||
    PathMatches(Lookup(o.postalAddress, ["zipcode"]), needle)
  }

  predicate Shown(o: Order, filter: string, term: string) {
    StatusMatches(o, filter) && SearchMatches(o, term)
  }

  /** `filteredOrders`. */
  function FilteredOrders(orders: seq<Order>, filter: string, term: string): (r: seq<Order>)
    ensures |r| <= |orders|
  {
    Filter(orders, o => Shown(o, filter, term))
  }

  /** The dashboard shows, in their loaded order, exactly the orders of the
      chosen status that match the search. */
  lemma FilteredOrdersExactly(orders: seq<Order>, filter: string, term: string)
    ensures IsSubsequence(FilteredOrders(orders, filter, term), orders)
    ensures forall o :: o in FilteredOrders(orders, filter, term) <==>
      o in orders && StatusMatches(o, filter) && SearchMatches(o, term)
    ensures filter != "all" ==> forall o :: o in FilteredOrders(orders, filter, term) ==> o.status == filter
  {
    var p := o => Shown(o, filter, term);
    FilterIsSubsequence(orders, p);
    forall o ensures o in Filter(orders, p) <==> o in orders && p(o) {
      FilterMembership(orders, p, o);
    }
  }

  /** The "all" tab without a search term lists every loaded order. */
  lemma AllWithoutSearchShowsEverything(orders: seq<Order>)
    ensures FilteredOrders(orders, "all", "") == orders
  {
    FilterAll(orders, o => Shown(o, "all", ""));
  }

  /** The search ignores case: a term and its lower-case form find the same orders. */
  lemma SearchIgnoresCase(o: Order, term: string)
    ensures SearchMatches(o, term) <==> SearchMatches(o, Lower(term))
  {
    LowerIdempotent(term);
  }

  /** Typing more characters can only narrow the list, and keeps its order. */
  lemma NarrowingSearch(orders: seq<Order>, filter: string, term: string, more: string)
    ensures IsSubsequence(FilteredOrders(orders, filter, term + more), FilteredOrders(orders, filter, term))
  {
    forall o | Shown(o, filter, term + more) ensures Shown(o, filter, term) {
      if term != "" {
        var long, short := Lower(term + more), Lower(term);
        if FieldMatches(o.title, long) {
          NeedleNarrows(Lower(o.title.value), term, more);
        } else if FieldMatches(o.jobNumber, long) {
          NeedleNarrows(Lower(o.jobNumber.value), term, more);
        } else if o.customer.Some? && FieldMatches(o.customer.value.companyName, long) {
          NeedleNarrows(Lower(o.customer.value.companyName.value), term, more);
        } else if PathMatches(Lookup(o.postalAddress, ["city"]), long) {
          NeedleNarrows(Lower(Lookup(o.postalAddress, ["city"]).value.s), term, more);
        } else {
          NeedleNarrows(Lower(Lookup(o.postalAddress, ["zipcode"]).value.s), term, more);
        }
      }
    }
    FilterNarrows(orders, o => Shown(o, filter, term + more), o => Shown(o, filter, term));
  }

  // ---------------------------------------------------------------------------
  // Sorting

  /** `startDate ? new Date(startDate).getTime() : 0`. */
  function DateKey(o: Order, locale: Locale): int {
    match o.startDate
    case DateNumber(n) => n
    case DateText(t) => if t == "" then 0 else locale.parseDate(t)
    case NoDate => 0
  }

  function DateKeyIn(locale: Locale): Order -> int {
    o => DateKey(o, locale)
  }

  /** `overallPriceValue || 0`. */
  function PriceKey(o: Order): int {
    o.overallPriceValue.GetOr(0)
  }

  function TitleKey(o: Order): string {
    OrElse(o.title, "")
  }

  function JobKey(o: Order): string {
    OrElse(o.jobNumber, "")
  }

  function CustomerKey(o: Order): string {
    if o.customer.Some? then OrElse(o.customer.value.companyName, "") else ""
  }

  /** The comparator `sortedOrders` uses for the chosen column and direction. */
  function OrderComparator(sortBy: string, direction: Direction, locale: Locale): (Order, Order) -> int {
    if sortBy == "date" then Numeric(DateKeyIn(locale), direction)
    else if sortBy == "title" then Textual(TitleKey, direction, locale.compare)
    else if sortBy == "jobNumber" then Textual(JobKey, direction, locale.compare)
    else if sortBy == "customer" then Textual(CustomerKey, direction, locale.compare)
    else if sortBy == "price" then Numeric(PriceKey, direction)
    else Unordered()
  }

  /** `sortedOrders`: a sorted copy of the filtered list. */
  function SortedOrders(filtered: seq<Order>, sortBy: string, direction: Direction, locale: Locale): (r: seq<Order>)
    ensures |r| == |filtered|
  {
    Sort(filtered, OrderComparator(sortBy, direction, locale))
  }

  /** Sorting neither drops nor duplicates an order. */
  lemma SortedOrdersPermute(filtered: seq<Order>, sortBy: string, direction: Direction, locale: Locale)
    ensures multiset(SortedOrders(filtered, sortBy, direction, locale)) == multiset(filtered)
  {
    SortPermutes(filtered, OrderComparator(sortBy, direction, locale));
  }

  /** Descending compares the pair the other way round, for every column. */
  lemma DescendingSwaps(sortBy: string, locale: Locale, a: Order, b: Order)
    ensures OrderComparator(sortBy, Desc, locale)(a, b) == OrderComparator(sortBy, Asc, locale)(b, a)
  {
  }

  /** By date the list is ordered by start time; an order without a start date
      counts as time 0. */
  lemma DateSortOrders(filtered: seq<Order>, direction: Direction, locale: Locale)
    ensures var r := SortedOrders(filtered, "date", direction, locale);
      forall i, j :: 0 <= i < j < |r| ==>
        (direction == Asc ==> DateKey(r[i], locale) <= DateKey(r[j], locale)) &&
        (direction == Desc ==> DateKey(r[i], locale) >= DateKey(r[j], locale))
  {
    var key := DateKeyIn(locale);
    assert OrderComparator("date", direction, locale) == Numeric(key, direction);
    NumericSortOrders(filtered, key, direction);
    var r := SortedOrders(filtered, "date", direction, locale);
    assert r == Sort(filtered, Numeric(key, direction));
    forall i, j | 0 <= i < j < |r|
      ensures (direction == Asc ==> DateKey(r[i], locale) <= DateKey(r[j], locale)) &&
              (direction == Desc ==> DateKey(r[i], locale) >= DateKey(r[j], locale))
    {
      assert key(r[i]) == DateKey(r[i], locale) && key(r[j]) == DateKey(r[j], locale);
      assert direction == Asc ==> key(r[i]) <= key(r[j]);
    }
  }

  /** By price the list is ordered by `overallPriceValue`, a missing price counting as 0. */
  lemma PriceSortOrders(filtered: seq<Order>, direction: Direction, locale: Locale)
    ensures var r := SortedOrders(filtered, "price", direction, locale);
      forall i, j :: 0 <= i < j < |r| ==>
        (direction == Asc ==> PriceKey(r[i]) <= PriceKey(r[j])) &&
        (direction == Desc ==> PriceKey(r[i]) >= PriceKey(r[j]))
  {
    assert OrderComparator("price", direction, locale) == Numeric(PriceKey, direction);
    NumericSortOrders(filtered, PriceKey, direction);
    var r := SortedOrders(filtered, "price", direction, locale);
    assert r == Sort(filtered, Numeric(PriceKey, direction));
    forall i, j | 0 <= i < j < |r|
      ensures (direction == Asc ==> PriceKey(r[i]) <= PriceKey(r[j])) &&
              (direction == Desc ==> PriceKey(r[i]) >= PriceKey(r[j]))
    {
      var key: Order -> int := PriceKey;
      assert key(r[i]) == PriceKey(r[i]) && key(r[j]) == PriceKey(r[j]);
    }
  }

  /** An unknown column leaves the filtered order as it is. */
  lemma UnknownColumnKeepsOrder(filtered: seq<Order>, sortBy: string, direction: Direction, locale: Locale)
    requires sortBy !in ["date", "title", "jobNumber", "customer", "price"]
    ensures SortedOrders(filtered, sortBy, direction, locale) == filtered
  {
    SortNeutral(filtered, OrderComparator(sortBy, direction, locale));
  }

  // ---------------------------------------------------------------------------
  // Editing

  datatype EditAction = OpenTab(url: string) | ErrorToast(message: string)

  /** `handleEditOrder`: opens the order's EventWorx page when it has an id,
      otherwise reports that none was found. */
  function EditOrder(o: Order): (r: EditAction)
    ensures r.OpenTab? <==> Filled(o.id)
    ensures r.OpenTab? ==> EDIT_URL <= r.url && r.url[|EDIT_URL|..] == o.id.value
    ensures r.ErrorToast? ==> r.message == NO_ORDER_ID
  {
    if Filled(o.id) then OpenTab(EDIT_URL + o.id.value) else ErrorToast(NO_ORDER_ID)
  }

  /** Different orders open different pages. */
  lemma EditTargetsDistinct(a: Order, b: Order)
    requires EditOrder(a).OpenTab? && EditOrder(b).OpenTab? && a.id != b.id
    ensures EditOrder(a).url != EditOrder(b).url
  {
    var ua, ub := EditOrder(a).url, EditOrder(b).url;
    assert ua[|EDIT_URL|..] == a.id.value && ub[|EDIT_URL|..] == b.id.value;
  }
}
