/** JavaScript values and the few language rules the application code relies on:
    truthiness, property reads, `String(v)` coercion and object spread.
    Foreign built-ins (JSON.parse, JSON.stringify, atob, engine error texts) are
    not defined here; they are supplied as an `Engine` of function values. */
module Js {

  datatype Option<+T> = None | Some(value: T) {
    function GetOr(default: T): T {
      match this
      case Some(v) => v
      case None => default
    }
  }

  datatype Result<+T, +E> = Success(value: T) | Failure(error: E)

  /** A decoded JSON value. Numbers are modelled by integers. */
  datatype Json =
    | JNull
    | JBool(b: bool)
    | JNum(n: int)
    | JStr(s: string)
    | JArr(items: seq<Json>)
    | JObj(fields: map<string, Json>)

  /** JavaScript truthiness of a JSON value. */
  predicate Truthy(v: Json) {
    match v
    case JNull => false
    case JBool(b) => b
    case JNum(n) => n != 0
    case JStr(s) => s != ""
    case JArr(_) => true
    case JObj(_) => true
  }

  /** Truthiness of a value that may be `undefined` (None). */
  predicate Present(v: Option<Json>) {
    v.Some? && Truthy(v.value)
  }

  /** `v[key]` for a named property: only objects have own named properties here. */
  function Member(v: Json, key: string): (r: Option<Json>)
    ensures r.Some? <==> v.JObj? && key in v.fields
  {
    if v.JObj? && key in v.fields then Some(v.fields[key]) else None
  }

  /** `a || b` on possibly-undefined values: the first truthy one, else the last. */
  function Or(a: Option<Json>, b: Option<Json>): Option<Json> {
    if Present(a) then a else b
  }

  function Digit(d: nat): (c: char)
    requires d < 10
    ensures '0' <= c <= '9'
  {
    ('0' as int + d) as char
  }

  /** Decimal rendering of a natural number, most significant digit first. */
  function NatToString(n: nat): (r: string)
    ensures |r| >= 1 && (n < 10 <==> |r| == 1)
    ensures forall i :: 0 <= i < |r| ==> '0' <= r[i] <= '9'
  {
    if n < 10 then [Digit(n)] else NatToString(n / 10) + [Digit(n % 10)]
  }

  lemma {:induction false} NatToStringInjective(a: nat, b: nat)
    requires NatToString(a) == NatToString(b)
    ensures a == b
  {
    var sa, sb := NatToString(a), NatToString(b);
    if a >= 10 {
      assert sa[..|sa| - 1] == NatToString(a / 10);
      assert sb[..|sb| - 1] == NatToString(b / 10);
      NatToStringInjective(a / 10, b / 10);
      assert Digit(a % 10) == sa[|sa| - 1] == sb[|sb| - 1] == Digit(b % 10);
    } else {
      assert Digit(a) == sa[0] == sb[0] == Digit(b);
    }
  }

  function IntToString(i: int): (r: string)
    ensures r != "" && (r[0] == '-' <==> i < 0)
  {
    if i < 0 then "-" + NatToString(-i) else NatToString(i)
  }

  function JoinComma(parts: seq<string>): string {
    if parts == [] then "" else if |parts| == 1 then parts[0] else parts[0] + "," + JoinComma(parts[1..])
  }

  /** `String(v)`, as used by template literals and `localStorage.setItem`. */
  function Display(v: Json): string {
    match v
    case JNull => "null"
    case JBool(b) => if b then "true" else "false"
    case JNum(n) => IntToString(n)
    case JStr(s) => s
    case JArr(items) =>
      JoinComma(seq(|items|, i requires 0 <= i < |items| =>
        if items[i].JNull? then "" else Display(items[i])))
    case JObj(_) => "[object Object]"
  }

  /** The own enumerable properties an object spread `{...v}` copies out of `v`. */
  function SpreadEntries(v: Json): (m: map<string, Json>)
    ensures v.JObj? ==> m == v.fields
    ensures v.JNull? || v.JBool? || v.JNum? ==> m == map[]
  {
    match v
    case JObj(fields) => fields
    case JArr(items) =>
      assert forall i: nat, j: nat :: NatToString(i) == NatToString(j) ==> i == j by {
        forall i: nat, j: nat | NatToString(i) == NatToString(j) ensures i == j { NatToStringInjective(i, j); }
      }
      map i | 0 <= i < |items| :: NatToString(i) := items[i]
    case JStr(s) =>
      assert forall i: nat, j: nat :: NatToString(i) == NatToString(j) ==> i == j by {
        forall i: nat, j: nat | NatToString(i) == NatToString(j) ensures i == j { NatToStringInjective(i, j); }
      }
      map i | 0 <= i < |s| :: NatToString(i) := JStr([s[i]])
    case _ => map[]
  }

  /** The foreign built-ins the application calls, as total functions. */
  datatype Engine = Engine(
    parse: string -> Result<Json, string>,   // JSON.parse: the value or the SyntaxError message
    stringify: Json -> string,                // JSON.stringify
    atob: string -> Result<string, string>,   // atob: the decoded text or the error message
    nullAccess: string -> string,             // message of the TypeError raised when property k is read from null
    bodyUsed: string)                         // message of the TypeError raised when a consumed response body is read again

  /** What JSON.parse and JSON.stringify are known to satisfy: parsing undoes
      stringifying, and a stringified value is never the empty text. */
  ghost predicate FaithfulJson(e: Engine) {
    (forall j :: e.parse(e.stringify(j)) == Success(j)) &&
    (forall j :: e.stringify(j) != "")
  }
}
