/** The customer details dialog: its title (name and salutation), the id in its
    header, the status label, its communication chains, and the per-person
    loading of contact details. */
module CustomerDetails {
  import opened Js
  import opened Text
  import opened Records
  import opened Names
  import Api
  import Http
  import CustomerCard

  /** The name before the placeholder rule. Companies are titled by
      `personFirstName` first, then the company name, and get no further
      fallback; persons by their names; everyone else by the shared chain. */
  function DialogName(c: Customer, locale: Locale): (r: string)
    ensures Trimmed(r)
  {
    if IsSet(c.isCompany) then
      if NonBlank(c.personFirstName) then Decoded(c.personFirstName.value, locale)
      else if NonBlank(c.companyName) then Decoded(c.companyName.value, locale)
      else ""
    else if IsSet(c.isPerson) then FullName(PersonFirst(c), PersonLast(c))
    else FallbackName(c, locale)
  }

  function DisplayName(c: Customer, locale: Locale): (r: string)
    ensures r != "" && Trimmed(r)
  {
    OrPlaceholder(DialogName(c, locale))
  }

  /** For a company a non-blank `personFirstName` wins over the company name. */
  lemma CompanyPrefersPersonFirstName(c: Customer, locale: Locale, company: Option<string>)
    requires IsSet(c.isCompany) && NonBlank(c.personFirstName)
    ensures DisplayName(c, locale) == OrPlaceholder(Decoded(c.personFirstName.value, locale))
    ensures DisplayName(c.(companyName := company), locale) == DisplayName(c, locale)
  {
  }

  /** A company with neither name gets the placeholder: the location and
      `contactFor` names are not consulted. */
  lemma NamelessCompanyIsUnnamed(c: Customer, locale: Locale)
    requires IsSet(c.isCompany) && !NonBlank(c.personFirstName) && !NonBlank(c.companyName)
    ensures DisplayName(c, locale) == UNNAMED
  {
  }

  /** A person that is not a company is titled by the trimmed "first last", each
      part `personFirstName || firstName` (resp. last), whatever its company,
      location and `contactFor` names say; for a person customer this is the
      card's title too. */
  lemma PersonTitle(c: Customer, locale: Locale, company: Option<string>, location: Option<string>,
                    contactFor: Option<seq<Company>>)
    requires !IsSet(c.isCompany) && IsSet(c.isPerson)
    ensures DisplayName(c, locale) == OrPlaceholder(FullName(PersonFirst(c), PersonLast(c)))
    ensures DisplayName(c.(companyName := company, locationName := location, contactFor := contactFor), locale) ==
            DisplayName(c, locale)
    ensures IsSet(c.isCustomer) ==> DisplayName(c, locale) == CustomerCard.DisplayName(c, locale)
  {
  }

  /** For contacts that are neither companies nor persons the dialog shows the
      same title as the card. */
  lemma AgreesWithCard(c: Customer, locale: Locale)
    requires !IsSet(c.isCompany) && !IsSet(c.isPerson)
    ensures DisplayName(c, locale) == CustomerCard.DisplayName(c, locale)
  {
  }

  /** The title with the salutation: prefixed only for persons with a salutation;
      the name always ends the title. */
  function WithSalutation(c: Customer, name: string): (r: string)
    ensures |r| >= |name| && r[|r| - |name|..] == name
    ensures |r| > |name| <==> IsSet(c.isPerson) && Filled(c.personSalutation)
    ensures |r| > |name| ==> c.personSalutation.value <= r
  {
    if IsSet(c.isPerson) && Filled(c.personSalutation) then c.personSalutation.value + " " + name else name
  }

  /** `customerId || contactNumber || customerNumber` (each defaulting to ""). */
  function HeaderId(c: Customer): (r: string)
    ensures r == "" <==> !Filled(c.customerId) && !Filled(c.contactNumber) && !Filled(c.customerNumber)
    ensures Filled(c.customerId) ==> r == c.customerId.value
    ensures !Filled(c.customerId) && Filled(c.contactNumber) ==> r == c.contactNumber.value
    ensures !Filled(c.customerId) && !Filled(c.contactNumber) && Filled(c.customerNumber) ==> r == c.customerNumber.value
  {
    OrElse(c.customerId, OrElse(c.contactNumber, OrElse(c.customerNumber, "")))
  }

  /** "Aktiv" exactly when `activation` (default "active") is "active". */
  function StatusLabel(c: Customer): (r: string)
    ensures r == "Aktiv" <==> !Filled(c.activation) || c.activation.value == "active"
    ensures r == "Aktiv" || r == "Inaktiv"
  {
    if OrElse(c.activation, "active") == "active" then "Aktiv" else "Inaktiv"
  }

  /** The dialog's business-phone chain: the card's without `mobile`. */
  const PHONE_CHAIN := ["tel_business", "phone_business", "phone"]

  function BusinessPhone(c: Customer): Option<Communication> {
    FirstOfTypes(CustomerCard.Communications(c), PHONE_CHAIN)
  }

  /** Where the dialog shows a business phone, the card shows the same one; the
      card may show one more, and then it is a `mobile` entry. */
  lemma PhoneAgreesWithCard(c: Customer)
    ensures BusinessPhone(c).Some? ==> CustomerCard.BusinessPhone(c) == BusinessPhone(c)
    ensures BusinessPhone(c).None? && CustomerCard.BusinessPhone(c).Some? ==>
      CustomerCard.BusinessPhone(c).value.typeName == Some("mobile")
  {
    var comms := CustomerCard.Communications(c);
    assert CustomerCard.PHONE_CHAIN == PHONE_CHAIN + ["mobile"];
    if BusinessPhone(c).Some? {
      FirstOfTypesPrefix(comms, PHONE_CHAIN, ["mobile"]);
    } else if CustomerCard.BusinessPhone(c).Some? {
      var all := CustomerCard.PHONE_CHAIN;
      forall j | 0 <= j < 3 ensures ContactByType(comms, all[j]).None? {
        assert all[j] == PHONE_CHAIN[j];
      }
      FirstOfTypesPicksFirst(comms, all, 3);
    }
  }

  // ---------------------------------------------------------------------------
  // Loading contact details per person

  const LOAD_ERROR_PREFIX := "Fehler beim Laden der Kontaktdetails: "

  /** The guard of the effect: a person id, no truthy details cached for it, and
      no load in flight for it. */
  predicate NeedsFetch(id: Option<string>, details: map<string, Json>, loading: map<string, bool>) {
    Filled(id) && !(id.value in details && Truthy(details[id.value])) && !(id.value in loading && loading[id.value])
  }

  /** The ids the effect starts loading, in order, judged against the state it
      was rendered with (a duplicate id is started twice). */
  function Started(persons: seq<ContactPerson>, details: map<string, Json>, loading: map<string, bool>)
    : (ids: seq<string>)
    ensures |ids| <= |persons|
    ensures forall k :: 0 <= k < |ids| ==> NeedsFetch(Some(ids[k]), details, loading)
  {
    if persons == [] then []
    else
      var last := persons[|persons| - 1];
      Started(persons[..|persons| - 1], details, loading) + (if NeedsFetch(last.personId, details, loading) then [last.personId.value] else [])
  }

  /** Every person the guard admits is started. */
  lemma {:induction false} StartedCoversGuard(persons: seq<ContactPerson>, details: map<string, Json>,
                                              loading: map<string, bool>, p: ContactPerson)
    requires p in persons && NeedsFetch(p.personId, details, loading)
    ensures p.personId.value in Started(persons, details, loading)
  {
    var init := persons[..|persons| - 1];
    if p != persons[|persons| - 1] {
      assert persons == init + [persons[|persons| - 1]];
      StartedCoversGuard(init, details, loading, p);
    }
  }

  /** After a failed load the next run of the effect fetches that id again. */
  lemma FailedLoadIsRetried(id: string, details: map<string, Json>, loading: map<string, bool>)
    requires id != ""
    ensures NeedsFetch(Some(id), details[id := JNull], loading[id := false])
  {
  }

  /** Details that `fetchContactDetails` returned stop further loads of that id. */
  lemma LoadedDetailsStop(fetched: Result<Http.Response, string>, e: Engine, id: string,
                          details: map<string, Json>, loading: map<string, bool>)
    requires Api.FetchContactDetails(fetched, e).Success?
    ensures !NeedsFetch(Some(id), details[id := Api.FetchContactDetails(fetched, e).value], loading)
  {
  }

  /** A load in flight is not started twice by later runs of the effect. */
  lemma InFlightNotRestarted(id: string, details: map<string, Json>, loading: map<string, bool>)
    ensures !NeedsFetch(Some(id), details, loading[id := true])
  {
  }

  /** `loading` after `setLoadingContacts(prev => ({...prev, [id]: true}))` for each started id. */
  function MarkLoading(loading: map<string, bool>, ids: seq<string>): (r: map<string, bool>)
    ensures forall id :: id in r <==> id in loading || id in ids
    ensures forall id :: id in ids ==> r[id]
    ensures forall id :: id in loading && id !in ids ==> r[id] == loading[id]
  {
    if ids == [] then loading else MarkLoading(loading, ids[..|ids| - 1])[ids[|ids| - 1] := true]
  }

  /** The three records the dialog keeps per person id. */
  class ContactLoader {
    var details: map<string, Json>
    var loading: map<string, bool>
    var errors: map<string, string>

    constructor ()
      ensures details == map[] && loading == map[] && errors == map[]
    {
      details, loading, errors := map[], map[], map[];
    }

    /** The effect: when the dialog is open and has contact persons, marks every
        id the guard admits as loading and returns them, in order, as the fetches
        to start. */
    method StartLoads(open: bool, persons: seq<ContactPerson>) returns (started: seq<string>)
      modifies this
      ensures started == (if open && |persons| > 0 then Started(persons, old(details), old(loading)) else [])
      ensures loading == MarkLoading(old(loading), started)
      ensures details == old(details) && errors == old(errors)
    {
      started := [];
      if open && |persons| > 0 {
        var rendered, cached := loading, details;
        var marked := rendered;
        var i := 0;
        while i < |persons|
          invariant 0 <= i <= |persons|
          invariant started == Started(persons[..i], cached, rendered)
          invariant marked == MarkLoading(rendered, started)
        {
          var person := persons[i];
          assert persons[..i + 1][..i] == persons[..i];
          if NeedsFetch(person.personId, cached, rendered) {
            ghost var before := started;
            marked := marked[person.personId.value := true];
            started := started + [person.personId.value];
            assert started[..|started| - 1] == before;
          }
          i := i + 1;
        }
        assert persons[..i] == persons;
        loading := marked;
      }
    }

    /** The settling of one fetch: `then` stores the details and drops the id's
        error, `catch` stores the error message and null details; `finally`
        ends the loading. Other ids are untouched. */
    method Finish(id: string, result: Result<Json, string>)
      modifies this
      ensures result.Success? ==> details == old(details)[id := result.value] && errors == old(errors) - {id}
      ensures result.Failure? ==>
        details == old(details)[id := JNull] && errors == old(errors)[id := LOAD_ERROR_PREFIX + result.error]
      ensures loading == old(loading)[id := false]
    {
      match result {
        case Success(data) =>
          details := details[id := data];
          errors := errors - {id};
        case Failure(message) =>
          errors := errors[id := LOAD_ERROR_PREFIX + message];
          details := details[id := JNull];
      }
      loading := loading[id := false];
    }
  }
}
