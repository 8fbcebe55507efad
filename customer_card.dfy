/** The values a customer card shows: its title, the id beside it, the
    communication entries picked for phone and e-mail, and the contact-person
    count label. */
module CustomerCard {
  import opened Js
  import opened Text
  import opened Records
  import opened Names

  /** The name before the placeholder rule: person customers by their names,
      company customers by their company name, everyone else by the fallback chain. */
  function CardName(c: Customer, locale: Locale): (r: string)
    ensures Trimmed(r)
  {
    if IsSet(c.isPerson) && IsSet(c.isCustomer) then FullName(PersonFirst(c), PersonLast(c))
    else if IsSet(c.isCompany) && IsSet(c.isCustomer) then Decoded(OrElse(c.companyName, ""), locale)
    else FallbackName(c, locale)
  }

  /** `displayName`: never empty, and never starts or ends with white space. */
  function DisplayName(c: Customer, locale: Locale): (r: string)
    ensures r != "" && Trimmed(r)
  {
    OrPlaceholder(CardName(c, locale))
  }

  /** A person customer's title depends only on the name fields: the
      `personFirstName`/`personLastName` pair, each falling back to
      `firstName`/`lastName`; a filled person field hides the plain one. */
  lemma PersonCustomerName(c: Customer, locale: Locale, other: Customer, locale': Locale)
    requires IsSet(c.isPerson) && IsSet(c.isCustomer) && IsSet(other.isPerson) && IsSet(other.isCustomer)
    requires c.personFirstName == other.personFirstName && c.personLastName == other.personLastName
    requires Filled(c.personFirstName) || c.firstName == other.firstName
    requires Filled(c.personLastName) || c.lastName == other.lastName
    ensures DisplayName(c, locale) == DisplayName(other, locale')
  {
  }

  /** A company customer that is not also a person customer is titled by its
      decoded, trimmed company name, whatever its person names say. */
  lemma CompanyCustomerName(c: Customer, locale: Locale)
    requires IsSet(c.isCompany) && IsSet(c.isCustomer) && !IsSet(c.isPerson)
    ensures DisplayName(c, locale) == OrPlaceholder(Decoded(OrElse(c.companyName, ""), locale))
    ensures forall p, l :: DisplayName(c.(personFirstName := p, personLastName := l), locale) == DisplayName(c, locale)
  {
  }

  /** In the fallback chain a filled person name hides the company, location and
      `contactFor` names. */
  lemma FallbackPrefersPersonNames(c: Customer, locale: Locale, company: Option<string>, location: Option<string>,
                                   contactFor: Option<seq<Company>>)
    requires !(IsSet(c.isPerson) && IsSet(c.isCustomer)) && !(IsSet(c.isCompany) && IsSet(c.isCustomer))
    requires Filled(c.personFirstName) || Filled(c.personLastName)
    ensures DisplayName(c.(companyName := company, locationName := location, contactFor := contactFor), locale) ==
            DisplayName(c, locale)
    ensures DisplayName(c, locale) == OrPlaceholder(FullName(OrElse(c.personFirstName, ""), OrElse(c.personLastName, "")))
  {
  }

  /** For a contact that is neither a person nor a company customer and has no
      person names, the card is titled by the company name, else the location
      name, else the first `contactFor` entry's company name, first name or
      location, else the placeholder. */
  lemma FallbackOrder(c: Customer, locale: Locale, location: Option<string>, contactFor: Option<seq<Company>>)
    requires !(IsSet(c.isPerson) && IsSet(c.isCustomer)) && !(IsSet(c.isCompany) && IsSet(c.isCustomer))
    requires !Filled(c.personFirstName) && !Filled(c.personLastName)
    ensures NonBlank(c.companyName) ==>
      DisplayName(c.(locationName := location, contactFor := contactFor), locale) ==
      OrPlaceholder(Decoded(c.companyName.value, locale))
    ensures !NonBlank(c.companyName) && NonBlank(c.locationName) ==>
      DisplayName(c.(contactFor := contactFor), locale) == OrPlaceholder(Decoded(c.locationName.value, locale))
    ensures !NonBlank(c.companyName) && !NonBlank(c.locationName) && c.contactFor.Some? && |c.contactFor.value| > 0 ==>
      var primary := c.contactFor.value[0];
      (NonBlank(primary.companyName) ==> DisplayName(c, locale) == OrPlaceholder(Decoded(primary.companyName.value, locale))) &&
      (!NonBlank(primary.companyName) && NonBlank(primary.personFirstName) ==>
        DisplayName(c, locale) == OrPlaceholder(Decoded(primary.personFirstName.value, locale))) &&
      (!NonBlank(primary.companyName) && !NonBlank(primary.personFirstName) && NonBlank(primary.locationName) ==>
        DisplayName(c, locale) == OrPlaceholder(Decoded(primary.locationName.value, locale))) &&
      (!NonBlank(primary.companyName) && !NonBlank(primary.personFirstName) && !NonBlank(primary.locationName) ==>
        DisplayName(c, locale) == UNNAMED)
    ensures !NonBlank(c.companyName) && !NonBlank(c.locationName) && (c.contactFor.None? || c.contactFor.value == []) ==>
      DisplayName(c, locale) == UNNAMED
  {
    FallbackNamePrecedence(c, locale, location, contactFor);
    if !NonBlank(c.companyName) && !NonBlank(c.locationName) && c.contactFor.Some? && |c.contactFor.value| > 0 {
      PrimaryNamePrecedence(c.contactFor.value[0], locale, c.contactFor.value[0].personFirstName, c.contactFor.value[0].locationName);
    }
  }

  /** The placeholder is shown exactly when the chosen name source is empty. */
  lemma PlaceholderOnlyWhenNameless(c: Customer, locale: Locale)
    ensures CardName(c, locale) == "" ==> DisplayName(c, locale) == UNNAMED
    ensures CardName(c, locale) != "" ==> DisplayName(c, locale) == CardName(c, locale)
  {
  }

  /** `customerId || contactNumber || ""`. */
  function CardId(c: Customer): (r: string)
    ensures r == "" <==> !Filled(c.customerId) && !Filled(c.contactNumber)
    ensures Filled(c.customerId) ==> r == c.customerId.value
    ensures !Filled(c.customerId) && Filled(c.contactNumber) ==> r == c.contactNumber.value
  {
    OrElse(c.customerId, OrElse(c.contactNumber, ""))
  }

  /** The card's business-phone chain; unlike the dialog's it ends with `mobile`. */
  const PHONE_CHAIN := ["tel_business", "phone_business", "phone", "mobile"]

  function Communications(c: Customer): seq<Communication> {
    c.communications.GetOr([])
  }

  /** `phoneBusiness`: the first entry of the first type in the chain that has one. */
  function BusinessPhone(c: Customer): (r: Option<Communication>)
    ensures r.Some? ==> r.value in Communications(c) && r.value.typeName.Some? && r.value.typeName.value in PHONE_CHAIN
    ensures r.None? <==> forall e :: e in Communications(c) ==> e.typeName.None? || e.typeName.value !in PHONE_CHAIN
  {
    var r := FirstOfTypes(Communications(c), PHONE_CHAIN);
    if r.Some? then
      FirstOfTypesFound(Communications(c), PHONE_CHAIN);
      r
    else
      forall e | e in Communications(c) && e.typeName.Some? ensures e.typeName.value !in PHONE_CHAIN {
        var i :| 0 <= i < |Communications(c)| && Communications(c)[i] == e;
        forall k | 0 <= k < |PHONE_CHAIN| ensures e.typeName.value != PHONE_CHAIN[k] {
          assert ContactByType(Communications(c), PHONE_CHAIN[k]).None?;
        }
      }
      r
  }

  /** `emailBusiness` and `phoneMobile`. */
  function BusinessEmail(c: Customer): Option<Communication> {
    FirstOfTypes(Communications(c), EMAIL_CHAIN)
  }

  function MobilePhone(c: Customer): Option<Communication> {
    FirstOfTypes(Communications(c), MOBILE_CHAIN)
  }

  /** The label beside the number of contact persons. */
  function ContactPersonsLabel(n: nat): (r: string)
    ensures |r| >= 2 && (n != 1 <==> r[|r| - 2..] == "en")
    ensures NatToString(n) <= r
  {
    var singular := NatToString(n) + " Kontaktperson";
    assert singular[|singular| - 2..] == "on";
    var r := singular + (if n != 1 then "en" else "");
    assert r[..|NatToString(n)|] == NatToString(n);
    assert n != 1 ==> r[|r| - 2..] == "en";
    assert n == 1 ==> r == singular;
    r
  }
}
