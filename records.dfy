/** The record shapes the views work on (the interfaces of types/customer.ts and
    types/order.ts, every optional property an `Option`), and the dotted-path
    property lookup the views use for properties outside those interfaces. */
module Records {
  import opened Js
  import opened Text

  datatype Address = Address(street: Option<string>, zipcode: Option<string>, city: Option<string>)

  datatype Communication = Communication(typeName: Option<string>, value: Option<string>)

  datatype ContactPerson = ContactPerson(personId: Option<string>, firstName: Option<string>, lastName: Option<string>)

  /** An entry of `contactFor`: a company (or person) the contact belongs to. */
  datatype Company = Company(
    id: Option<string>,
    contactNumber: Option<string>,
    customerId: Option<string>,
    companyName: Option<string>,
    personFirstName: Option<string>,
    locationName: Option<string>,
    addresses: Option<seq<Address>>,
    communications: Option<seq<Communication>>,
    contactPersons: Option<seq<ContactPerson>>)

  /** A contact as the customer views receive it. `address` and `status` are not
      part of the declared interface; the views read them by property path, so
      they are carried as whatever JSON value the record held. */
  datatype Customer = Customer(
    id: Option<string>,
    contactNumber: Option<string>,
    customerId: Option<string>,
    customerNumber: Option<string>,
    isCompany: Option<bool>,
    isPerson: Option<bool>,
    isLocation: Option<bool>,
    isCustomer: Option<bool>,
    personSalutation: Option<string>,
    personFirstName: Option<string>,
    personLastName: Option<string>,
    firstName: Option<string>,
    lastName: Option<string>,
    companyName: Option<string>,
    locationName: Option<string>,
    activation: Option<string>,
    contactPersons: Option<seq<ContactPerson>>,
    contactFor: Option<seq<Company>>,
    addresses: Option<seq<Address>>,
    communications: Option<seq<Communication>>,
    address: Option<Json>,
    status: Option<Json>)

  /** A truthy optional flag. */
  predicate IsSet(flag: Option<bool>) {
    flag == Some(true)
  }

  /** `startDate`/`endDate`: a timestamp, a date text, or null. */
  datatype DateValue = DateNumber(millis: int) | DateText(text: string) | NoDate

  datatype OrderCustomer = OrderCustomer(companyName: Option<string>)

  /** An order. `postalAddress` is not part of the declared interface and is read
      by property path. Numbers are integers. */
  datatype Order = Order(
    id: Option<string>,
    customer: Option<OrderCustomer>,
    title: Option<string>,
    status: string,
    jobNumber: Option<string>,
    startDate: DateValue,
    endDate: DateValue,
    overallPriceValue: Option<int>,
    postalAddress: Option<Json>)

  /** The browser facilities the views call and this model does not define:
      `a.localeCompare(b)`, `new Date(text).getTime()` and `decodeHtmlEntities`. */
  datatype Locale = Locale(
    compare: (string, string) -> int,
    parseDate: string -> int,
    decode: string -> string)

  /** A property value used as text (`(v || '').toLowerCase()`): a string as is,
      anything falsy as ''. */
  function TextOf(v: Option<Json>): (r: string)
    ensures Present(v) && v.value.JStr? ==> r == v.value.s
    ensures !Present(v) ==> r == ""
  {
    if Present(v) && v.value.JStr? then v.value.s else ""
  }

  // ---------------------------------------------------------------------------
  // Property paths

  /** The value reached by following `parts` from `v` (None is `undefined`):
      each step stops with `undefined` when the current value is undefined or
      null, otherwise reads the property. */
  function Lookup(v: Option<Json>, parts: seq<string>): Option<Json>
    decreases parts
  {
    if parts == [] then v
    else if v.None? || v.value.JNull? then None
    else Lookup(Member(v.value, parts[0]), parts[1..])
  }

  /** `getCustomerProperty` / `getOrderProperty`: splits the path on '.' and walks it. */
  method GetProperty(root: Option<Json>, path: string) returns (value: Option<Json>)
    ensures value == Lookup(root, Split(path, '.'))
  {
    var parts := Split(path, '.');
    value := root;
    var i := 0;
    while i < |parts|
      invariant 0 <= i <= |parts|
      invariant Lookup(value, parts[i..]) == Lookup(root, parts)
    {
      if value.None? || value.value.JNull? {
        LookupUndefined(value, parts[i..]);
        return None;
      }
      assert parts[i..][1..] == parts[i + 1..];
      value := Member(value.value, parts[i]);
      i := i + 1;
    }
  }

  /** From undefined or null, any non-empty path gives undefined. */
  lemma LookupUndefined(v: Option<Json>, parts: seq<string>)
    requires v.None? || v.value.JNull?
    ensures parts != [] ==> Lookup(v, parts) == None
    ensures parts == [] ==> Lookup(v, parts) == v
  {
  }

  /** Walking `p + q` is walking `p`, then `q` from where `p` ended. */
  lemma {:induction false} LookupAppend(v: Option<Json>, p: seq<string>, q: seq<string>)
    ensures Lookup(v, p + q) == Lookup(Lookup(v, p), q)
    decreases p
  {
    if p == [] {
      assert p + q == q;
    } else if v.None? || v.value.JNull? {
      assert (p + q)[0] == p[0];
      LookupUndefined(None, q);
    } else {
      assert (p + q)[1..] == p[1..] + q;
      LookupAppend(Member(v.value, p[0]), p[1..], q);
    }
  }

  /** An undefined or null value part-way along the path makes the whole lookup
      undefined. */
  lemma StopsAtUndefined(v: Option<Json>, p: seq<string>, q: seq<string>)
    requires q != []
    requires var w := Lookup(v, p); w.None? || w.value.JNull?
    ensures Lookup(v, p + q) == None
  {
    LookupAppend(v, p, q);
    LookupUndefined(Lookup(v, p), q);
  }

  /** A path through nested objects reaches the innermost value. */
  lemma LookupNested(outer: map<string, Json>, key: string, inner: map<string, Json>, leaf: string)
    requires key in outer && outer[key] == JObj(inner) && leaf in inner
    ensures Lookup(Some(JObj(outer)), [key, leaf]) == Some(inner[leaf])
  {
    var path := [key, leaf];
    assert path[1..] == [leaf] && path[0] == key;
    assert Lookup(Some(JObj(outer)), path) == Lookup(Some(outer[key]), [leaf]);
    assert [leaf][1..] == [] && [leaf][0] == leaf;
    assert Lookup(Some(JObj(inner)), [leaf]) == Lookup(Member(JObj(inner), leaf), []);
  }
}
