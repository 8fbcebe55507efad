/** The customer list: which of the loaded contacts it shows (customers, plus
    the "PM2 Veranstaltungstechnik" company rebuilt from a `contactFor` entry
    when no shown contact carries its id), and the search over names,
    numbers, addresses and communication values. */
module CustomerList {
  import opened Js
  import opened Text
  import opened Records
  import opened Seqs
  import opened Names

  const PM2 := "PM2 Veranstaltungstechnik"
  /** The contact number the rebuilt PM2 record gets when its entry has none. */
  const PM2_NUMBER := "KO-0282"

  // ---------------------------------------------------------------------------
  // The PM2 record

  /** `company.companyName && company.companyName.includes(PM2) && company.id`. */
  predicate IsPm2Company(company: Company) {
    Filled(company.companyName) && Contains(company.companyName.value, PM2) && Filled(company.id)
  }

  /** The `contactFor` entries the scan visits. */
  function ContactForOf(c: Customer): seq<Company> {
    c.contactFor.GetOr([])
  }

  /** The first PM2 company of a list of entries. */
  function Pm2In(companies: seq<Company>): (r: Option<Company>)
    ensures r.Some? ==> r.value in companies && IsPm2Company(r.value)
    ensures r.None? <==> forall k :: 0 <= k < |companies| ==> !IsPm2Company(companies[k])
  {
    if companies == [] then None
    else
      var prev := Pm2In(companies[..|companies| - 1]);
      var last := companies[|companies| - 1];
      if prev.Some? then prev else if IsPm2Company(last) then Some(last) else None
  }

  /** The first PM2 company met when visiting every contact's `contactFor`
      entries in order. */
  function FirstPm2(data: seq<Customer>): (r: Option<Company>)
    ensures r.Some? ==> IsPm2Company(r.value) && exists k :: 0 <= k < |data| && r.value in ContactForOf(data[k])
    ensures r.None? <==> forall k :: 0 <= k < |data| ==> Pm2In(ContactForOf(data[k])).None?
  {
    if data == [] then None
    else
      var init := data[..|data| - 1];
      var prev := FirstPm2(init);
      assert forall k :: 0 <= k < |init| ==> init[k] == data[k];
      if prev.Some? then prev else Pm2In(ContactForOf(data[|data| - 1]))
  }

  /** The contact of the earliest entry wins. */
  lemma {:induction false} FirstPm2PicksEarliest(data: seq<Customer>, k: nat)
    requires k < |data| && Pm2In(ContactForOf(data[k])).Some?
    requires forall j :: 0 <= j < k ==> Pm2In(ContactForOf(data[j])).None?
    ensures FirstPm2(data) == Pm2In(ContactForOf(data[k]))
  {
    var init := data[..|data| - 1];
    if k < |data| - 1 {
      assert init[k] == data[k];
      FirstPm2PicksEarliest(init, k);
    } else {
      assert forall j :: 0 <= j < |init| ==> init[j] == data[j];
    }
  }

  /** The customer record built from a PM2 entry. */
  function FromCompany(company: Company): (c: Customer)
    ensures c.id == company.id && c.companyName == company.companyName && c.customerId == company.customerId
    ensures IsSet(c.isCompany) && IsSet(c.isCustomer) && c.isPerson == Some(false)
    ensures c.contactNumber == Some(if Filled(company.contactNumber) then company.contactNumber.value else PM2_NUMBER)
  {
    Customer(
      id := company.id,
      contactNumber := Some(OrElse(company.contactNumber, PM2_NUMBER)),
      customerId := company.customerId,
      customerNumber := None,
      isCompany := Some(true),
      isPerson := Some(false),
      isLocation := None,
      isCustomer := Some(true),
      personSalutation := None,
      personFirstName := None,
      personLastName := None,
      firstName := None,
      lastName := None,
      companyName := company.companyName,
      locationName := None,
      activation := None,
      contactPersons := Some(company.contactPersons.GetOr([])),
      contactFor := None,
      addresses := Some(company.addresses.GetOr([])),
      communications := Some(company.communications.GetOr([])),
      address := None,
      status := None)
  }

  function Pm2Record(data: seq<Customer>): Option<Customer> {
    if FirstPm2(data).Some? then Some(FromCompany(FirstPm2(data).value)) else None
  }

  /** The scan of the load effect: every contact's `contactFor` entries, in
      order, keeping the record built from the first PM2 entry. */
  method FindPm2(data: seq<Customer>) returns (pm2: Option<Customer>)
    ensures pm2 == Pm2Record(data)
  {
    pm2 := None;
    var i := 0;
    while i < |data|
      invariant 0 <= i <= |data|
      invariant pm2 == Pm2Record(data[..i])
    {
      var customer := data[i];
      if customer.contactFor.Some? && |customer.contactFor.value| > 0 {
        var companies := customer.contactFor.value;
        var j := 0;
        while j < |companies|
          invariant 0 <= j <= |companies|
          invariant pm2 == (if FirstPm2(data[..i]).Some? then Pm2Record(data[..i])
                            else if Pm2In(companies[..j]).Some? then Some(FromCompany(Pm2In(companies[..j]).value))
                            else None)
        {
          var company := companies[j];
          assert companies[..j + 1][..j] == companies[..j];
          if Filled(company.companyName) && Contains(company.companyName.value, PM2) && Filled(company.id) {
            if pm2.None? {
              pm2 := Some(FromCompany(company));
            }
          }
          j := j + 1;
        }
        assert companies[..j] == companies;
      }
      assert data[..i + 1][..i] == data[..i];
      i := i + 1;
    }
    assert data[..i] == data;
  }

  // ---------------------------------------------------------------------------
  // The contacts shown

  /** A customer that is a company or a person, or any contact whose company
      name mentions PM2. */
  predicate IsShown(c: Customer) {
    (IsSet(c.isCustomer) && (IsSet(c.isCompany) || IsSet(c.isPerson))) ||
    (Filled(c.companyName) && Contains(c.companyName.value, PM2))
  }

  /** `validCustomers`: the shown contacts, then the PM2 record when one was
      built and no shown contact has its id. */
  function ValidCustomers(data: seq<Customer>): (r: seq<Customer>)
    ensures |r| <= |data| + 1
  {
    WithPm2(Filter(data, IsShown), Pm2Record(data))
  }

  /** `if (pm2Data && !validCustomers.some(c => c.id === pm2Data.id)) validCustomers.push(pm2Data)`. */
  function WithPm2(kept: seq<Customer>, pm2: Option<Customer>): seq<Customer> {
    if pm2.Some? && !(exists c :: c in kept && c.id == pm2.value.id) then kept + [pm2.value] else kept
  }

  /** Every listed contact is shown by the rule, and is either a loaded contact
      or the rebuilt PM2 record. */
  lemma ValidCustomersShown(data: seq<Customer>)
    ensures forall c :: c in ValidCustomers(data) ==> IsShown(c)
    ensures forall c :: c in ValidCustomers(data) ==> c in data || Some(c) == Pm2Record(data)
  {
  }

  /** The list starts with exactly the shown contacts, in loaded order, and
      holds at most one more. */
  lemma ValidCustomersKeepsOrder(data: seq<Customer>)
    ensures Filter(data, IsShown) <= ValidCustomers(data)
    ensures |ValidCustomers(data)| <= |Filter(data, IsShown)| + 1
    ensures forall c :: c in data ==> (c in ValidCustomers(data) <==> IsShown(c))
  {
    forall c | c in data {
      FilterMembership(data, IsShown, c);
    }
  }

  /** When a PM2 entry exists, some listed contact carries its id, and the
      rebuilt record is added only when none did already. */
  lemma Pm2AlwaysListed(data: seq<Customer>)
    requires Pm2Record(data).Some?
    ensures exists c :: c in ValidCustomers(data) && c.id == Pm2Record(data).value.id
    ensures |ValidCustomers(data)| == |Filter(data, IsShown)| + 1 <==>
      forall c :: c in Filter(data, IsShown) ==> c.id != Pm2Record(data).value.id
  {
    var kept := Filter(data, IsShown);
    var pm2 := Pm2Record(data).value;
    if !(exists c :: c in kept && c.id == pm2.id) {
      assert pm2 in ValidCustomers(data);
    }
  }

  /** Without a PM2 entry the list is exactly the shown contacts. */
  lemma NoPm2NoExtra(data: seq<Customer>)
    requires forall k :: 0 <= k < |data| ==> Pm2In(ContactForOf(data[k])).None?
    ensures ValidCustomers(data) == Filter(data, IsShown)
  {
    assert FirstPm2(data).None?;
  }

  // ---------------------------------------------------------------------------
  // Searching

  /** `(field || "").toLowerCase().includes(needle)`. */
  predicate TextMatches(field: Option<string>, needle: string) {
    Contains(Lower(OrElse(field, "")), needle)
  }

  predicate AddressMatches(a: Address, needle: string) {
    TextMatches(a.street, needle) || TextMatches(a.city, needle) || TextMatches(a.zipcode, needle)
  }

  /** The fields one customer is searched in: company name, full person name,
      contact number, customer id, any address's street, city or zip code,
      and any communication value. */
  predicate MatchesSearch(c: Customer, needle: string) {
    TextMatches(c.companyName, needle) ||
    Contains(Lower(FullName(PersonFirst(c), PersonLast(c))), needle) ||
    TextMatches(c.contactNumber, needle) ||
    TextMatches(c.customerId, needle) ||
    (c.addresses.Some? && exists a :: a in c.addresses.value && AddressMatches(a, needle)) ||
    (c.communications.Some? && exists m :: m in c.communications.value && TextMatches(m.value, needle))
  }

  /** The search effect: a blank term shows every customer; otherwise the term,
      lower-cased but not trimmed, must occur in one of the fields. */
  function Searched(customers: seq<Customer>, term: string): (r: seq<Customer>)
    ensures |r| <= |customers|
  {
    if Trim(term) == "" then customers else Filter(customers, c => MatchesSearch(c, Lower(term)))
  }

  /** What the search shows, in loaded order. */
  lemma SearchedExactly(customers: seq<Customer>, term: string)
    ensures IsBlank(term) ==> Searched(customers, term) == customers
    ensures IsSubsequence(Searched(customers, term), customers)
    ensures !IsBlank(term) ==>
      forall c :: c in Searched(customers, term) <==> c in customers && MatchesSearch(c, Lower(term))
  {
    TrimEmptyIffBlank(term);
    var p := c => MatchesSearch(c, Lower(term));
    if IsBlank(term) {
      SubsequenceReflexive(customers);
    } else {
      FilterIsSubsequence(customers, p);
      forall c ensures c in Filter(customers, p) <==> c in customers && p(c) {
        FilterMembership(customers, p, c);
      }
    }
  }

  /** Typing more characters can only narrow the list, and keeps its order. */
  lemma NarrowingSearch(customers: seq<Customer>, term: string, more: string)
    ensures IsSubsequence(Searched(customers, term + more), Searched(customers, term))
  {
    TrimEmptyIffBlank(term);
    TrimEmptyIffBlank(term + more);
    var long := c => MatchesSearch(c, Lower(term + more));
    var short := c => MatchesSearch(c, Lower(term));
    if IsBlank(term + more) {
      assert IsBlank(term) by {
        forall i | 0 <= i < |term| ensures IsSpace(term[i]) {
          assert (term + more)[i] == term[i];
        }
      }
      SubsequenceReflexive(customers);
    } else if IsBlank(term) {
      FilterIsSubsequence(customers, long);
    } else {
      forall c | long(c) ensures short(c) {
        NarrowMatch(c, term, more);
      }
      FilterNarrows(customers, long, short);
    }
  }

  lemma NarrowMatch(c: Customer, term: string, more: string)
    requires MatchesSearch(c, Lower(term + more))
    ensures MatchesSearch(c, Lower(term))
  {
    var long := Lower(term + more);
    if TextMatches(c.companyName, long) {
      NeedleNarrows(Lower(OrElse(c.companyName, "")), term, more);
    } else if Contains(Lower(FullName(PersonFirst(c), PersonLast(c))), long) {
      NeedleNarrows(Lower(FullName(PersonFirst(c), PersonLast(c))), term, more);
    } else if TextMatches(c.contactNumber, long) {
      NeedleNarrows(Lower(OrElse(c.contactNumber, "")), term, more);
    } else if TextMatches(c.customerId, long) {
      NeedleNarrows(Lower(OrElse(c.customerId, "")), term, more);
    } else if c.addresses.Some? && exists a :: a in c.addresses.value && AddressMatches(a, long) {
      var a :| a in c.addresses.value && AddressMatches(a, long);
      if TextMatches(a.street, long) {
        NeedleNarrows(Lower(OrElse(a.street, "")), term, more);
      } else if TextMatches(a.city, long) {
        NeedleNarrows(Lower(OrElse(a.city, "")), term, more);
      } else {
        NeedleNarrows(Lower(OrElse(a.zipcode, "")), term, more);
      }
    } else {
      var m :| m in c.communications.value && TextMatches(m.value, long);
      NeedleNarrows(Lower(OrElse(m.value, "")), term, more);
    }
  }

  // ---------------------------------------------------------------------------
  // The component's state

  class CustomerListView {
    var customers: seq<Customer>
    var filtered: seq<Customer>
    var searchTerm: string
    var loading: bool
    var error: Option<string>

    /** The shown list is always the search applied to the loaded list. */
    predicate Valid()
      reads this
    {
      filtered == Searched(customers, searchTerm)
    }

    constructor ()
      ensures Valid() && customers == [] && searchTerm == "" && loading && error.None?
    {
      assert Searched([], "") == [];
      customers := [];
      filtered := [];
      searchTerm := "";
      loading := true;
      error := None;
    }

    /** The load effect and the search effect it triggers: the contacts to list
        are stored and the current search is applied to them. */
    method Load(data: seq<Customer>)
      modifies this
      ensures Valid()
      ensures customers == ValidCustomers(data) && searchTerm == old(searchTerm)
      ensures !loading && error.None?
    {
      var pm2 := FindPm2(data);
      var valid := WithPm2(Filter(data, IsShown), pm2);
      assert valid == ValidCustomers(data);
      var term := searchTerm;
      var shown := Searched(valid, term);
      customers := valid;
      filtered := shown;
      error := None;
      loading := false;
      assert customers == valid && filtered == shown && searchTerm == term;
    }

    /** Typing in the search box, and the search effect it triggers. */
    method SetSearchTerm(term: string)
      modifies this
      ensures Valid()
      ensures searchTerm == term && customers == old(customers)
      ensures loading == old(loading) && error == old(error)
    {
      var listed := customers;
      var shown := Searched(listed, term);
      searchTerm := term;
      filtered := shown;
      assert customers == listed && filtered == shown && searchTerm == term;
    }

    /** The clear button: the whole list is shown again. */
    method ClearSearch()
      modifies this
      ensures Valid() && filtered == customers
      ensures searchTerm == "" && customers == old(customers)
      ensures loading == old(loading) && error == old(error)
    {
      SetSearchTerm("");
    }
  }
}
