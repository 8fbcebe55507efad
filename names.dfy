/** What the customer card and the details dialog share: the fallback chain of
    names, the placeholder for a nameless contact, the type label, and the
    lookup of a communication entry by its type. */
module Names {
  import opened Js
  import opened Text
  import opened Records

  const UNNAMED := "Unbenannter Kontakt"

  /** Neither end of the text is white space (what `trim()` leaves). */
  predicate Trimmed(s: string) {
    s == [] || (!IsSpace(s[0]) && !IsSpace(s[|s| - 1]))
  }

  lemma TrimIsTrimmed(s: string)
    ensures Trimmed(Trim(s))
  {
    var t := TrimStart(s);
    var r := TrimEnd(t);
    if r != [] {
      assert r[0] == t[0];
    }
  }

  /** `v && v.trim() !== ""`. */
  predicate NonBlank(v: Option<string>) {
    Filled(v) && Trim(v.value) != ""
  }

  /** `` `${first} ${last}`.trim() ``. */
  function FullName(first: string, last: string): (r: string)
    ensures Trimmed(r)
  {
    TrimIsTrimmed(first + " " + last);
    Trim(first + " " + last)
  }

  /** `decodeHtmlEntities(v).trim()`. */
  function Decoded(v: string, locale: Locale): (r: string)
    ensures Trimmed(r)
  {
    TrimIsTrimmed(locale.decode(v));
    Trim(locale.decode(v))
  }

  /** `personFirstName || firstName || ""` and the same for the last name. */
  function PersonFirst(c: Customer): string {
    OrElse(c.personFirstName, OrElse(c.firstName, ""))
  }

  function PersonLast(c: Customer): string {
    OrElse(c.personLastName, OrElse(c.lastName, ""))
  }

  /** The name of the first `contactFor` entry: company, first name, location. */
  function PrimaryName(company: Company, locale: Locale): (r: string)
    ensures Trimmed(r)
  {
    if NonBlank(company.companyName) then Decoded(company.companyName.value, locale)
    else if NonBlank(company.personFirstName) then Decoded(company.personFirstName.value, locale)
    else if NonBlank(company.locationName) then Decoded(company.locationName.value, locale)
    else ""
  }

  /** The chain both views fall back to for a contact of no recognised kind:
      the person's own names, the company name, the location name, then the
      first `contactFor` entry; "" when none applies. */
  function FallbackName(c: Customer, locale: Locale): (r: string)
    ensures Trimmed(r)
  {
    if Filled(c.personFirstName) || Filled(c.personLastName) then
      FullName(OrElse(c.personFirstName, ""), OrElse(c.personLastName, ""))
    else if NonBlank(c.companyName) then Decoded(c.companyName.value, locale)
    else if NonBlank(c.locationName) then Decoded(c.locationName.value, locale)
    else if c.contactFor.Some? && |c.contactFor.value| > 0 then PrimaryName(c.contactFor.value[0], locale)
    else ""
  }

  /** The first `contactFor` entry is named by its company name, else its first
      name, else its location: each found name hides the ones after it. */
  lemma PrimaryNamePrecedence(company: Company, locale: Locale, first: Option<string>, location: Option<string>)
    ensures NonBlank(company.companyName) ==>
      PrimaryName(company.(personFirstName := first, locationName := location), locale) ==
      Decoded(company.companyName.value, locale)
    ensures !NonBlank(company.companyName) && NonBlank(company.personFirstName) ==>
      PrimaryName(company.(locationName := location), locale) == Decoded(company.personFirstName.value, locale)
    ensures !NonBlank(company.companyName) && !NonBlank(company.personFirstName) && NonBlank(company.locationName) ==>
      PrimaryName(company, locale) == Decoded(company.locationName.value, locale)
    ensures !NonBlank(company.companyName) && !NonBlank(company.personFirstName) && !NonBlank(company.locationName) ==>
      PrimaryName(company, locale) == ""
  {
  }

  /** Below the person names the chain tries the company name, then the location
      name, then the first `contactFor` entry: each found name hides the sources
      after it. */
  lemma FallbackNamePrecedence(c: Customer, locale: Locale, location: Option<string>, contactFor: Option<seq<Company>>)
    requires !Filled(c.personFirstName) && !Filled(c.personLastName)
    ensures NonBlank(c.companyName) ==>
      FallbackName(c.(locationName := location, contactFor := contactFor), locale) == Decoded(c.companyName.value, locale)
    ensures !NonBlank(c.companyName) && NonBlank(c.locationName) ==>
      FallbackName(c.(contactFor := contactFor), locale) == Decoded(c.locationName.value, locale)
    ensures !NonBlank(c.companyName) && !NonBlank(c.locationName) ==>
      FallbackName(c, locale) ==
        if c.contactFor.Some? && |c.contactFor.value| > 0 then PrimaryName(c.contactFor.value[0], locale) else ""
  {
  }

  /** `if (!displayName) displayName = "Unbenannter Kontakt"`. */
  function OrPlaceholder(name: string): (r: string)
    requires Trimmed(name)
    ensures r != "" && Trimmed(r)
    ensures name != "" ==> r == name
  {
    if name == "" then UNNAMED else name
  }

  /** The kind of contact shown: company before person before location. */
  function TypeLabel(c: Customer): (r: string)
    ensures r == "Unternehmen" <==> IsSet(c.isCompany)
    ensures r == "Person" <==> !IsSet(c.isCompany) && IsSet(c.isPerson)
    ensures r == "Standort" <==> !IsSet(c.isCompany) && !IsSet(c.isPerson) && IsSet(c.isLocation)
    ensures r == "Kontakt" <==> !IsSet(c.isCompany) && !IsSet(c.isPerson) && !IsSet(c.isLocation)
  {
    if IsSet(c.isCompany) then "Unternehmen"
    else if IsSet(c.isPerson) then "Person"
    else if IsSet(c.isLocation) then "Standort"
    else "Kontakt"
  }

  // ---------------------------------------------------------------------------
  // Communication entries

  /** `communications.find(c => c.typeName === type)`. */
  function ContactByType(comms: seq<Communication>, kind: string): (r: Option<Communication>)
    ensures r.None? <==> forall i :: 0 <= i < |comms| ==> comms[i].typeName != Some(kind)
    ensures r.Some? ==> exists i :: 0 <= i < |comms| && comms[i] == r.value && r.value.typeName == Some(kind) &&
                                 (forall j :: 0 <= j < i ==> comms[j].typeName != Some(kind))
  {
    if comms == [] then None
    else if comms[0].typeName == Some(kind) then Some(comms[0])
    else
      var r := ContactByType(comms[1..], kind);
      assert forall i :: 1 <= i < |comms| ==> comms[i] == comms[1..][i - 1];
      if r.Some? then
        var i :| 0 <= i < |comms[1..]| && comms[1..][i] == r.value && r.value.typeName == Some(kind) &&
                 (forall j :: 0 <= j < i ==> comms[1..][j].typeName != Some(kind));
        assert comms[i + 1] == r.value;
        r
      else r
  }

  /** `find(t1) || find(t2) || ...`: the entry of the first type that has one. */
  function FirstOfTypes(comms: seq<Communication>, kinds: seq<string>): (r: Option<Communication>)
    ensures r.None? <==> forall k :: 0 <= k < |kinds| ==> ContactByType(comms, kinds[k]).None?
  {
    if kinds == [] then None
    else if ContactByType(comms, kinds[0]).Some? then ContactByType(comms, kinds[0])
    else
      assert forall k :: 1 <= k < |kinds| ==> kinds[k] == kinds[1..][k - 1];
      FirstOfTypes(comms, kinds[1..])
  }

  /** The chain yields the entry of type `kinds[k]` when no earlier type has one. */
  lemma {:induction false} FirstOfTypesPicksFirst(comms: seq<Communication>, kinds: seq<string>, k: nat)
    requires k < |kinds| && ContactByType(comms, kinds[k]).Some?
    requires forall j :: 0 <= j < k ==> ContactByType(comms, kinds[j]).None?
    ensures FirstOfTypes(comms, kinds) == ContactByType(comms, kinds[k])
  {
    if k > 0 {
      assert kinds[1..][k - 1] == kinds[k];
      FirstOfTypesPicksFirst(comms, kinds[1..], k - 1);
    }
  }

  /** What the chain yields is an entry of the list whose type is one of the chain's. */
  lemma {:induction false} FirstOfTypesFound(comms: seq<Communication>, kinds: seq<string>)
    requires FirstOfTypes(comms, kinds).Some?
    ensures var r := FirstOfTypes(comms, kinds).value;
      r in comms && r.typeName.Some? && r.typeName.value in kinds
  {
    if ContactByType(comms, kinds[0]).None? {
      FirstOfTypesFound(comms, kinds[1..]);
    }
  }

  /** A shorter chain that finds an entry finds the same one as any longer chain
      starting with it. */
  lemma {:induction false} FirstOfTypesPrefix(comms: seq<Communication>, kinds: seq<string>, more: seq<string>)
    requires FirstOfTypes(comms, kinds).Some?
    ensures FirstOfTypes(comms, kinds + more) == FirstOfTypes(comms, kinds)
  {
    var all := kinds + more;
    assert all[0] == kinds[0];
    if ContactByType(comms, kinds[0]).None? {
      assert all[1..] == kinds[1..] + more;
      FirstOfTypesPrefix(comms, kinds[1..], more);
    }
  }

  const EMAIL_CHAIN := ["email_business", "email"]
  const MOBILE_CHAIN := ["phone_mobile", "mobile"]
}
