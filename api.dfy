/** The data layer: how the three webhook responses are classified, and how each
    contact of the customer list is normalised from its first `contactFor` entry.
    The data arrive as untyped JSON, so this module works on `Json` values; a
    property read on null raises a TypeError, which these functions report as
    `None` (the callers catch it). */
module Api {
  import opened Js
  import opened Text
  import Http

  const EMPTY_RESPONSE := "API hat eine leere Antwort zurückgegeben"
  const UNEXPECTED_SHAPE := "API-Antwort hat nicht die erwartete Struktur"

  function StatusMessage(status: int): string {
    "API-Anfrage fehlgeschlagen mit Status " + IntToString(status)
  }

  /** `!text || text.trim() === ''`. */
  predicate EmptyBody(text: string) {
    text == "" || Trim(text) == ""
  }

  // ---------------------------------------------------------------------------
  // JavaScript list operations on untyped values

  /** `v.length` for the values that have one here: arrays and strings. */
  function Length(v: Json): Option<nat> {
    match v
    case JArr(items) => Some(|items|)
    case JStr(s) => Some(|s|)
    case _ => None
  }

  /** `v.length > 0`. */
  predicate NonEmpty(v: Json) {
    Length(v).Some? && Length(v).value > 0
  }

  /** `v[0]` of a non-empty array or string. */
  function First(v: Json): Json
    requires NonEmpty(v)
  {
    match v
    case JArr(items) => items[0]
    case JStr(s) => JStr([s[0]])
  }

  /** `[...v]` of an array or a string. */
  function SpreadList(v: Json): (r: Json)
    requires Length(v).Some?
    ensures r.JArr? && Length(r) == Length(v)
    ensures v.JArr? ==> r == v
    ensures v.JStr? ==> forall i :: 0 <= i < |v.s| ==> r.items[i] == JStr([v.s[i]])
  {
    match v
    case JArr(items) => JArr(items)
    case JStr(s) => JArr(seq(|s|, i requires 0 <= i < |s| => JStr([s[i]])))
  }

  /** `v || []`. */
  function OrEmptyList(v: Option<Json>): Json {
    if Present(v) then v.value else JArr([])
  }

  /** The value of a key in a record under construction, as a property read. */
  function Field(record: map<string, Json>, key: string): Option<Json> {
    if key in record then Some(record[key]) else None
  }

  // ---------------------------------------------------------------------------
  // Normalising one contact (the callback of `responseData.map`)

  /** The properties the normalisation may rewrite. */
  const REWRITTEN: set<string> := {"companyName", "isCompany", "isPerson", "communications", "addresses"}

  /** Step 1: a contact without addresses takes the primary company's, when it has any. */
  function BackfillAddresses(addresses: Json, primary: Json): Option<Json> {
    if Length(addresses) != Some(0) then Some(addresses)
    else if primary.JNull? then None
    else
      var theirs := Member(primary, "addresses");
      if Present(theirs) && NonEmpty(theirs.value) then Some(theirs.value) else Some(addresses)
  }

  /** Step 2: a missing or blank company name is replaced by the primary's, trimmed. */
  function BackfillCompanyName(record: map<string, Json>, primary: Json): Option<map<string, Json>> {
    var own := Field(record, "companyName");
    if Present(own) && !own.value.JStr? then None
    else if Present(own) && Trim(own.value.s) != "" then Some(record)
    else if primary.JNull? then None
    else
      var theirs := Member(primary, "companyName");
      if !Present(theirs) then Some(record)
      else if !theirs.value.JStr? then None
      else Some(record["companyName" := JStr(Trim(theirs.value.s))])
  }

  /** The record is a customer with neither flag set. */
  predicate Unflagged(record: map<string, Json>) {
    Present(Field(record, "isCustomer")) && !Present(Field(record, "isCompany")) && !Present(Field(record, "isPerson"))
  }

  /** Step 3: an unflagged customer takes over the primary's flags that are set. */
  function BackfillFlags(record: map<string, Json>, primary: Json): Option<map<string, Json>> {
    if !Unflagged(record) then Some(record)
    else if primary.JNull? then None
    else
      var withCompany := if Present(Member(primary, "isCompany")) then record["isCompany" := JBool(true)] else record;
      Some(if Present(Member(primary, "isPerson")) then withCompany["isPerson" := JBool(true)] else withCompany)
  }

  /** Step 4: a contact without communications takes a copy of the primary's, when it has any. */
  function BackfillCommunications(communications: Json, primary: Json): Option<Json> {
    if Length(communications) != Some(0) then Some(communications)
    else if primary.JNull? then None
    else
      var theirs := Member(primary, "communications");
      if Present(theirs) && NonEmpty(theirs.value) then Some(SpreadList(theirs.value)) else Some(communications)
  }

  /** The rewriting of the copied record once its lists are known: without a
      non-empty `contactFor` only the two lists are set; otherwise the four
      backfill steps run in order against `contactFor[0]`. None when one throws. */
  function Rewrite(record: map<string, Json>, communications: Json, addresses: Json, contactFor: Option<Json>)
    : (r: Option<map<string, Json>>)
    ensures r.Some? ==> "communications" in r.value && "addresses" in r.value
  {
    if !(Present(contactFor) && NonEmpty(contactFor.value)) then
      Some(record["communications" := communications]["addresses" := addresses])
    else
      var primary := First(contactFor.value);
      match BackfillAddresses(addresses, primary)
      case None => None
      case Some(addresses') =>
        match BackfillCompanyName(record, primary)
        case None => None
        case Some(named) =>
          match BackfillFlags(named, primary)
          case None => None
          case Some(flagged) =>
            match BackfillCommunications(communications, primary)
            case None => None
            case Some(communications') => Some(flagged["communications" := communications']["addresses" := addresses'])
  }

  /** The normalised copy of one contact, or None when the callback throws. */
  function Normalised(c: Json): (r: Option<Json>)
    ensures r.Some? ==> r.value.JObj? && "communications" in r.value.fields && "addresses" in r.value.fields
  {
    if c.JNull? then None
    else
      match Rewrite(SpreadEntries(c), OrEmptyList(Member(c, "communications")), OrEmptyList(Member(c, "addresses")),
                    Member(c, "contactFor"))
      case None => None
      case Some(record) => Some(JObj(record))
  }

  /** The callback as the code runs it: a copy of the contact whose fields are
      overwritten step by step. */
  method NormaliseCustomer(c: Json) returns (r: Option<Json>)
    ensures r == Normalised(c)
  {
    if c.JNull? {
      return None;
    }
    var record := RewriteRecord(SpreadEntries(c), OrEmptyList(Member(c, "communications")),
                                OrEmptyList(Member(c, "addresses")), Member(c, "contactFor"));
    r := if record.Some? then Some(JObj(record.value)) else None;
  }

  /** The body of the callback after the copy is taken: the four steps against
      `contactFor[0]`, stopping at the first that throws. */
  method RewriteRecord(record: map<string, Json>, communications: Json, addresses: Json, contactFor: Option<Json>)
    returns (r: Option<map<string, Json>>)
    ensures r == Rewrite(record, communications, addresses, contactFor)
  {
    if !(Present(contactFor) && NonEmpty(contactFor.value)) {
      var out := record;
      out := out["communications" := communications];
      out := out["addresses" := addresses];
      return Some(out);
    }
    var primary := First(contactFor.value);
    var addresses' := AddressesStep(addresses, primary);
    if addresses'.None? {
      return None;
    }
    var named := CompanyNameStep(record, primary);
    if named.None? {
      return None;
    }
    var flagged := FlagsStep(named.value, primary);
    if flagged.None? {
      return None;
    }
    var communications' := CommunicationsStep(communications, primary);
    if communications'.None? {
      return None;
    }
    var out := flagged.value;
    out := out["communications" := communications'.value];
    out := out["addresses" := addresses'.value];
    r := Some(out);
  }

  /** Step 1 as the code runs it; None where `primary.addresses` throws. */
  method AddressesStep(addresses: Json, primary: Json) returns (r: Option<Json>)
    ensures r == BackfillAddresses(addresses, primary)
  {
    var out := addresses;
    if Length(addresses) == Some(0) {
      if primary.JNull? {
        return None;
      }
      var theirs := Member(primary, "addresses");
      if Present(theirs) && NonEmpty(theirs.value) {
        out := theirs.value;
      }
    }
    r := Some(out);
  }

  /** Step 2 as the code runs it; None where `.trim()` or `primary.companyName` throws. */
  method CompanyNameStep(record: map<string, Json>, primary: Json) returns (r: Option<map<string, Json>>)
    ensures r == BackfillCompanyName(record, primary)
  {
    var out := record;
    var own := Field(record, "companyName");
    if Present(own) && !own.value.JStr? {
      return None;
    }
    if !Present(own) || Trim(own.value.s) == "" {
      if primary.JNull? {
        return None;
      }
      var theirs := Member(primary, "companyName");
      if Present(theirs) {
        if !theirs.value.JStr? {
          return None;
        }
        out := out["companyName" := JStr(Trim(theirs.value.s))];
      }
    }
    r := Some(out);
  }

  /** Step 3 as the code runs it. */
  method FlagsStep(record: map<string, Json>, primary: Json) returns (r: Option<map<string, Json>>)
    ensures r == BackfillFlags(record, primary)
  {
    var out := record;
    if Unflagged(record) {
      if primary.JNull? {
        return None;
      }
      if Present(Member(primary, "isCompany")) {
        out := out["isCompany" := JBool(true)];
      }
      if Present(Member(primary, "isPerson")) {
        out := out["isPerson" := JBool(true)];
      }
    }
    r := Some(out);
  }

  /** Step 4 as the code runs it. */
  method CommunicationsStep(communications: Json, primary: Json) returns (r: Option<Json>)
    ensures r == BackfillCommunications(communications, primary)
  {
    var out := communications;
    if Length(communications) == Some(0) {
      if primary.JNull? {
        return None;
      }
      var theirs := Member(primary, "communications");
      if Present(theirs) && NonEmpty(theirs.value) {
        out := SpreadList(theirs.value);
      }
    }
    r := Some(out);
  }

  /** Step 2 touches no property but `companyName`. */
  lemma NameStepKeeps(record: map<string, Json>, primary: Json, k: string)
    requires BackfillCompanyName(record, primary).Some? && k != "companyName"
    ensures Field(BackfillCompanyName(record, primary).value, k) == Field(record, k)
  {
  }

  /** Step 3 touches no property but the two flags. */
  lemma FlagStepKeeps(record: map<string, Json>, primary: Json, k: string)
    requires BackfillFlags(record, primary).Some? && k != "isCompany" && k != "isPerson"
    ensures Field(BackfillFlags(record, primary).value, k) == Field(record, k)
  {
  }

  /** Every property outside the five rewritten ones is copied unchanged. */
  lemma RewriteKeepsOtherFields(record: map<string, Json>, communications: Json, addresses: Json,
                                contactFor: Option<Json>, k: string)
    requires Rewrite(record, communications, addresses, contactFor).Some? && k !in REWRITTEN
    ensures Field(Rewrite(record, communications, addresses, contactFor).value, k) == Field(record, k)
  {
    assert k != "companyName" && k != "isCompany" && k != "isPerson" && k != "communications" && k != "addresses";
    if Present(contactFor) && NonEmpty(contactFor.value) {
      var primary := First(contactFor.value);
      var named := BackfillCompanyName(record, primary).value;
      NameStepKeeps(record, primary, k);
      FlagStepKeeps(named, primary, k);
    }
  }

  lemma NormalisedKeepsOtherFields(c: Json, k: string)
    requires Normalised(c).Some? && k !in REWRITTEN
    ensures Field(Normalised(c).value.fields, k) == Field(SpreadEntries(c), k)
  {
    RewriteKeepsOtherFields(SpreadEntries(c), OrEmptyList(Member(c, "communications")),
                            OrEmptyList(Member(c, "addresses")), Member(c, "contactFor"), k);
  }

  /** Step 3 either leaves a flag alone or sets it, and only on an unflagged record. */
  lemma FlagStepRaises(record: map<string, Json>, primary: Json, flag: string)
    requires BackfillFlags(record, primary).Some? && (flag == "isCompany" || flag == "isPerson")
    ensures var after := BackfillFlags(record, primary).value;
      Field(after, flag) == Field(record, flag) || (Field(after, flag) == Some(JBool(true)) && Unflagged(record))
  {
  }

  /** Step 2 changes the company name only when it is missing or blank, to the
      primary's trimmed name. */
  lemma NameStepResult(record: map<string, Json>, primary: Json)
    requires BackfillCompanyName(record, primary).Some?
    ensures var own := Field(record, "companyName");
      var after := Field(BackfillCompanyName(record, primary).value, "companyName");
      after == own ||
      ((!Present(own) || (own.value.JStr? && Trim(own.value.s) == "")) &&
        var theirs := Member(primary, "companyName");
        Present(theirs) && theirs.value.JStr? && after == Some(JStr(Trim(theirs.value.s))))
  {
  }

  lemma RewriteFlags(record: map<string, Json>, communications: Json, addresses: Json,
                     contactFor: Option<Json>, flag: string)
    requires Rewrite(record, communications, addresses, contactFor).Some?
    requires flag == "isCompany" || flag == "isPerson"
    ensures var after := Rewrite(record, communications, addresses, contactFor).value;
      Field(after, flag) == Field(record, flag) || (Field(after, flag) == Some(JBool(true)) && Unflagged(record))
  {
    if Present(contactFor) && NonEmpty(contactFor.value) {
      var primary := First(contactFor.value);
      var named := BackfillCompanyName(record, primary).value;
      NameStepKeeps(record, primary, flag);
      NameStepKeeps(record, primary, "isCustomer");
      NameStepKeeps(record, primary, "isCompany");
      NameStepKeeps(record, primary, "isPerson");
      FlagStepRaises(named, primary, flag);
    }
  }

  /** `isCompany` and `isPerson` are either left as they were or set to true, and
      they change only for a customer with neither flag set. */
  lemma FlagsOnlyRaised(c: Json, flag: string)
    requires Normalised(c).Some? && (flag == "isCompany" || flag == "isPerson")
    ensures var before, after := SpreadEntries(c), Normalised(c).value.fields;
      Field(after, flag) == Field(before, flag) ||
      (Field(after, flag) == Some(JBool(true)) && Unflagged(before))
  {
    RewriteFlags(SpreadEntries(c), OrEmptyList(Member(c, "communications")),
                 OrEmptyList(Member(c, "addresses")), Member(c, "contactFor"), flag);
  }

  /** The addresses come from `contactFor[0]` only when the record's own list is
      empty and the primary's is not. */
  lemma RewriteAddresses(record: map<string, Json>, communications: Json, addresses: Json, contactFor: Option<Json>)
    requires Rewrite(record, communications, addresses, contactFor).Some?
    ensures var after := Rewrite(record, communications, addresses, contactFor).value["addresses"];
      after == addresses ||
      (Length(addresses) == Some(0) && Present(contactFor) && NonEmpty(contactFor.value) &&
        var theirs := Member(First(contactFor.value), "addresses");
        Present(theirs) && NonEmpty(theirs.value) && after == theirs.value)
  {
  }

  lemma AddressesBackfilled(c: Json)
    requires Normalised(c).Some?
    ensures var own := OrEmptyList(Member(c, "addresses"));
      var after := Normalised(c).value.fields["addresses"];
      after == own ||
      (Length(own) == Some(0) && var contactFor := Member(c, "contactFor");
        Present(contactFor) && NonEmpty(contactFor.value) &&
        var theirs := Member(First(contactFor.value), "addresses");
        Present(theirs) && NonEmpty(theirs.value) && after == theirs.value)
  {
    RewriteAddresses(SpreadEntries(c), OrEmptyList(Member(c, "communications")),
                     OrEmptyList(Member(c, "addresses")), Member(c, "contactFor"));
  }

  /** The communications come from `contactFor[0]` only when the record's own list
      is empty and the primary's is not; then they are a copy of it. */
  lemma RewriteCommunications(record: map<string, Json>, communications: Json, addresses: Json, contactFor: Option<Json>)
    requires Rewrite(record, communications, addresses, contactFor).Some?
    ensures var after := Rewrite(record, communications, addresses, contactFor).value["communications"];
      after == communications ||
      (Length(communications) == Some(0) && Present(contactFor) && NonEmpty(contactFor.value) &&
        var theirs := Member(First(contactFor.value), "communications");
        Present(theirs) && NonEmpty(theirs.value) && after == SpreadList(theirs.value))
  {
  }

  lemma CommunicationsBackfilled(c: Json)
    requires Normalised(c).Some?
    ensures var own := OrEmptyList(Member(c, "communications"));
      var after := Normalised(c).value.fields["communications"];
      after == own ||
      (Length(own) == Some(0) && var contactFor := Member(c, "contactFor");
        Present(contactFor) && NonEmpty(contactFor.value) &&
        var theirs := Member(First(contactFor.value), "communications");
        Present(theirs) && NonEmpty(theirs.value) && after == SpreadList(theirs.value))
  {
    RewriteCommunications(SpreadEntries(c), OrEmptyList(Member(c, "communications")),
                          OrEmptyList(Member(c, "addresses")), Member(c, "contactFor"));
  }

  /** The company name changes only when it was missing or blank, and then to the
      primary's name, trimmed. */
  lemma RewriteCompanyName(record: map<string, Json>, communications: Json, addresses: Json, contactFor: Option<Json>)
    requires Rewrite(record, communications, addresses, contactFor).Some?
    ensures var own := Field(record, "companyName");
      var after := Field(Rewrite(record, communications, addresses, contactFor).value, "companyName");
      after == own ||
      ((!Present(own) || (own.value.JStr? && Trim(own.value.s) == "")) &&
        Present(contactFor) && NonEmpty(contactFor.value) &&
        var theirs := Member(First(contactFor.value), "companyName");
        Present(theirs) && theirs.value.JStr? && after == Some(JStr(Trim(theirs.value.s))))
  {
    if Present(contactFor) && NonEmpty(contactFor.value) {
      var primary := First(contactFor.value);
      var named := BackfillCompanyName(record, primary).value;
      NameStepResult(record, primary);
      FlagStepKeeps(named, primary, "companyName");
    }
  }

  lemma CompanyNameBackfilled(c: Json)
    requires Normalised(c).Some?
    ensures var own := Field(SpreadEntries(c), "companyName");
      var after := Field(Normalised(c).value.fields, "companyName");
      after == own ||
      ((!Present(own) || (own.value.JStr? && Trim(own.value.s) == "")) &&
        var contactFor := Member(c, "contactFor");
        Present(contactFor) && NonEmpty(contactFor.value) &&
        var theirs := Member(First(contactFor.value), "companyName");
        Present(theirs) && theirs.value.JStr? && after == Some(JStr(Trim(theirs.value.s))))
  {
    RewriteCompanyName(SpreadEntries(c), OrEmptyList(Member(c, "communications")),
                       OrEmptyList(Member(c, "addresses")), Member(c, "contactFor"));
  }

  /** A value that is absent, falsy or an array. */
  predicate ListLike(v: Option<Json>) {
    !Present(v) || v.value.JArr?
  }

  /** When the contact's own lists and the primary's addresses are arrays or
      absent, both lists of the result are arrays. */
  lemma NormalisedListsAreArrays(c: Json)
    requires Normalised(c).Some?
    requires ListLike(Member(c, "addresses")) && ListLike(Member(c, "communications"))
    requires var contactFor := Member(c, "contactFor");
      Present(contactFor) && NonEmpty(contactFor.value) ==>
        ListLike(Member(First(contactFor.value), "addresses"))
    ensures Normalised(c).value.fields["addresses"].JArr?
    ensures Normalised(c).value.fields["communications"].JArr?
  {
    AddressesBackfilled(c);
    CommunicationsBackfilled(c);
  }

  /** A contact object without `contactFor` is always normalised: only its two
      lists are set. */
  lemma NormalisedWithoutContactFor(c: Json)
    requires c.JObj? && !Present(Member(c, "contactFor"))
    ensures Normalised(c) == Some(JObj(c.fields["communications" := OrEmptyList(Member(c, "communications"))]
                                                ["addresses" := OrEmptyList(Member(c, "addresses"))]))
  {
  }

  /** `responseData.map(...)`: every contact normalised, in order; one throw ends it. */
  function NormaliseList(items: seq<Json>): (r: Option<seq<Json>>)
    ensures r.Some? <==> forall i :: 0 <= i < |items| ==> Normalised(items[i]).Some?
    ensures r.Some? ==> |r.value| == |items| && forall i :: 0 <= i < |items| ==> Normalised(items[i]) == Some(r.value[i])
  {
    if items == [] then Some([])
    else match (Normalised(items[0]), NormaliseList(items[1..]))
      case (Some(head), Some(tail)) =>
        assert forall i :: 1 <= i < |items| ==> items[i] == items[1..][i - 1];
        Some([head] + tail)
      case (_, _) =>
        assert forall i :: 1 <= i < |items| ==> items[i] == items[1..][i - 1];
        None
  }

  // ---------------------------------------------------------------------------
  // The three requests

  /** `fetchOrders`: the parsed body, or [] on every failure. `fetched` is what
      `fetch` settled with: the response or the rejection message. */
  function FetchOrders(fetched: Result<Http.Response, string>, e: Engine): (data: Json)
    ensures fetched.Failure? || !fetched.value.ok ==> data == JArr([])
    ensures fetched.Success? && fetched.value.ok && fetched.value.text.Success? ==>
      var text := fetched.value.text.value;
      (EmptyBody(text) ==> data == JArr([])) &&
      (!EmptyBody(text) && e.parse(text).Failure? ==> data == JArr([])) &&
      (!EmptyBody(text) && e.parse(text).Success? ==> data == e.parse(text).value)
    ensures fetched.Success? && fetched.value.text.Failure? ==> data == JArr([])
  {
    match fetched
    case Failure(_) => JArr([])
    case Success(response) =>
      if !response.ok then JArr([])
      else match response.text
        case Failure(_) => JArr([])
        case Success(text) =>
          if EmptyBody(text) then JArr([])
          else match e.parse(text)
            case Failure(_) => JArr([])
            case Success(data) => data
  }

  /** `fetchCustomers`: the normalised contacts when the body parses to an array
      whose every element normalises, else []. */
  function FetchCustomers(fetched: Result<Http.Response, string>, e: Engine): (customers: seq<Json>)
    ensures customers != [] ==>
      fetched.Success? && fetched.value.ok && fetched.value.text.Success? && !EmptyBody(fetched.value.text.value) &&
      var parsed := e.parse(fetched.value.text.value);
      parsed.Success? && parsed.value.JArr? && NormaliseList(parsed.value.items) == Some(customers)
    ensures fetched.Success? && fetched.value.ok && fetched.value.text.Success? && !EmptyBody(fetched.value.text.value) ==>
      var parsed := e.parse(fetched.value.text.value);
      parsed.Success? && parsed.value.JArr? && NormaliseList(parsed.value.items).Some? ==>
        customers == NormaliseList(parsed.value.items).value
  {
    match fetched
    case Failure(_) => []
    case Success(response) =>
      if !response.ok then []
      else match response.text
        case Failure(_) => []
        case Success(text) =>
          if EmptyBody(text) then []
          else match e.parse(text)
            case Failure(_) => []
            case Success(data) =>
              if !data.JArr? then []
              else match NormaliseList(data.items)
                case None => []
                case Some(customers) => customers
  }

  /** A body that is not an array yields no customers. */
  lemma CustomersNeedArray(fetched: Result<Http.Response, string>, e: Engine)
    requires fetched.Success? && fetched.value.text.Success?
    requires var parsed := e.parse(fetched.value.text.value); parsed.Success? && !parsed.value.JArr?
    ensures FetchCustomers(fetched, e) == []
  {
  }

  /** `fetchContactDetails`: the `data` member of a `{success, data}` envelope, or
      the message of the error thrown. */
  function FetchContactDetails(fetched: Result<Http.Response, string>, e: Engine): (r: Result<Json, string>)
    ensures fetched.Failure? ==> r == Failure(fetched.error)
    ensures fetched.Success? && !fetched.value.ok ==> r == Failure(StatusMessage(fetched.value.status))
    ensures r.Success? <==>
      fetched.Success? && fetched.value.ok && fetched.value.text.Success? && !EmptyBody(fetched.value.text.value) &&
      var parsed := e.parse(fetched.value.text.value);
      parsed.Success? && Present(Member(parsed.value, "success")) && Present(Member(parsed.value, "data"))
    ensures r.Success? ==> r.value == Member(e.parse(fetched.value.text.value).value, "data").value
    ensures fetched.Success? && fetched.value.ok && fetched.value.text.Success? && EmptyBody(fetched.value.text.value) ==>
      r == Failure(EMPTY_RESPONSE)
  {
    match fetched
    case Failure(message) => Failure(message)
    case Success(response) =>
      if !response.ok then Failure(StatusMessage(response.status))
      else match response.text
        case Failure(message) => Failure(message)
        case Success(text) =>
          if EmptyBody(text) then Failure(EMPTY_RESPONSE)
          else match e.parse(text)
            case Failure(message) => Failure(message)
            case Success(data) =>
              if data.JNull? then Failure(e.nullAccess("success"))
              else if Present(Member(data, "success")) && Present(Member(data, "data")) then Success(Member(data, "data").value)
              else Failure(UNEXPECTED_SHAPE)
  }

  /** Different statuses give different messages. */
  lemma StatusMessageDistinct(a: int, b: int)
    requires StatusMessage(a) == StatusMessage(b)
    ensures a == b
  {
    var prefix := "API-Anfrage fehlgeschlagen mit Status ";
    var sa, sb := IntToString(a), IntToString(b);
    assert StatusMessage(a) == prefix + sa && StatusMessage(b) == prefix + sb;
    assert sa == (prefix + sa)[|prefix|..];
    assert sb == (prefix + sb)[|prefix|..];
    if a < 0 {
      assert sa[1..] == NatToString(-a) && sb[1..] == NatToString(-b);
      NatToStringInjective(-a, -b);
    } else {
      NatToStringInjective(a, b);
    }
  }
}
