/** The four figures above the customer dashboard: persons, companies (every
    contact that is not a person), active contacts, and distinct cities. */
module CustomerStats {
  import opened Js
  import opened Records
  import opened Seqs

  predicate IsPerson(c: Customer) {
    IsSet(c.isPerson)
  }

  predicate IsNotPerson(c: Customer) {
    !IsSet(c.isPerson)
  }

  /** `status === 'active'`: only the string "active" counts. */
  predicate IsActive(c: Customer) {
    c.status == Some(JStr("active"))
  }

  function PersonCount(cs: seq<Customer>): nat {
    Count(cs, IsPerson)
  }

  function CompanyCount(cs: seq<Customer>): nat {
    Count(cs, IsNotPerson)
  }

  function ActiveCount(cs: seq<Customer>): nat {
    Count(cs, IsActive)
  }

  /** Every contact is counted exactly once, as a person or as a company. */
  lemma PersonsAndCompaniesPartition(cs: seq<Customer>)
    ensures PersonCount(cs) + CompanyCount(cs) == |cs|
  {
    CountComplement(cs, IsPerson, IsNotPerson);
  }

  /** At most every contact is active. */
  lemma ActiveAtMostTotal(cs: seq<Customer>)
    ensures ActiveCount(cs) <= |cs|
    ensures ActiveCount(cs) == |cs| <==> forall c :: c in cs ==> IsActive(c)
  {
    ActiveAllIff(cs);
  }

  lemma {:induction false} ActiveAllIff(cs: seq<Customer>)
    ensures ActiveCount(cs) == |cs| <==> forall c :: c in cs ==> IsActive(c)
  {
    if cs != [] {
      ActiveAllIff(cs[1..]);
      assert cs == [cs[0]] + cs[1..];
    }
  }

  // ---------------------------------------------------------------------------
  // Cities

  /** The city a contact contributes: `address.city` when `address` is a truthy
      object and its `city` is truthy. */
  function CityOf(c: Customer): (r: Option<Json>)
    ensures r.Some? ==> Truthy(r.value) && Present(c.address)
  {
    if Present(c.address) && (c.address.value.JObj? || c.address.value.JArr?) && Present(Member(c.address.value, "city"))
    then Member(c.address.value, "city")
    else None
  }

  /** `uniqueCities`: a set filled while visiting the contacts. */
  method UniqueCities(cs: seq<Customer>) returns (cities: set<Json>)
    ensures forall x :: x in cities <==> exists k :: 0 <= k < |cs| && CityOf(cs[k]) == Some(x)
    ensures |cities| <= |cs|
  {
    cities := {};
    var i := 0;
    while i < |cs|
      invariant 0 <= i <= |cs|
      invariant forall x :: x in cities <==> exists k :: 0 <= k < i && CityOf(cs[k]) == Some(x)
      invariant |cities| <= i
    {
      var address := cs[i].address;
      if Present(address) && (address.value.JObj? || address.value.JArr?) && Present(Member(address.value, "city")) {
        cities := cities + {Member(address.value, "city").value};
      }
      i := i + 1;
    }
  }

  // ---------------------------------------------------------------------------
  // Captions

  /** The caption under a count: its share `part / total` of all contacts
      (shown as a rounded percentage), or the "none" text. */
  datatype Caption = Share(part: nat, total: nat) | NoneText(text: string)

  /** `count > 0 ? share : none`: the share is only formed for a non-zero
      count, which is at most the total, so it never divides by zero. */
  function CountCaption(count: nat, total: nat, none: string): (r: Caption)
    requires count <= total
    ensures r.NoneText? <==> count == 0
    ensures r.NoneText? ==> r.text == none
    ensures r.Share? ==> 0 < r.part <= r.total && r.part == count && r.total == total
  {
    if count > 0 then Share(count, total) else NoneText(none)
  }

  function PersonCaption(cs: seq<Customer>): (r: Caption)
    ensures r.NoneText? <==> PersonCount(cs) == 0
    ensures r.Share? ==> r.total == |cs| > 0
  {
    CountCaption(PersonCount(cs), |cs|, "Keine Personen")
  }

  function CompanyCaption(cs: seq<Customer>): (r: Caption)
    ensures r.NoneText? <==> CompanyCount(cs) == 0
    ensures r.Share? ==> r.total == |cs| > 0
  {
    CountCaption(CompanyCount(cs), |cs|, "Keine Unternehmen")
  }

  /** With at least one contact, at most one of the two captions is the "none"
      text, and two shares add up to the whole. */
  lemma SomeCaptionHasShare(cs: seq<Customer>)
    requires cs != []
    ensures PersonCaption(cs).Share? || CompanyCaption(cs).Share?
    ensures PersonCaption(cs).Share? && CompanyCaption(cs).Share? ==>
      PersonCaption(cs).part + CompanyCaption(cs).part == |cs|
  {
    PersonsAndCompaniesPartition(cs);
  }
}
