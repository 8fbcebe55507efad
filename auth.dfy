/** src/lib/auth.ts: the identity-provider constants, the user shape, the default
    context, the login URL, the authenticated fetch helper and the local
    clean-up of the persisted session. */
module Auth {
  import opened Js
  import opened Text
  import Http

  const AUTHELIA_URL := "https://auth.lsz.company"
  const CLIENT_ID := "lsz-crm"
  const REDIRECT_URI := "https://dev-crm.lsz.company/oauth/callback"
  const SCOPES: seq<string> := ["openid", "profile", "groups", "email"]

  /** The three localStorage keys that together persist a session. */
  const ACCESS_TOKEN_KEY := "accessToken"
  const ID_TOKEN_KEY := "idToken"
  const USER_INFO_KEY := "userInfo"
  const AUTH_KEYS: set<string> := {ACCESS_TOKEN_KEY, ID_TOKEN_KEY, USER_INFO_KEY}

  /** The signed-in user: the identity claims spread into one object together
      with `accessToken`, `idToken` and `isAuthenticated`. */
  type User = map<string, Json>

  /** `user?.isAuthenticated` is truthy. */
  predicate IsAuthenticated(user: Option<User>) {
    user.Some? && "isAuthenticated" in user.value && Truthy(user.value["isAuthenticated"])
  }

  /** The browser's localStorage: string values under string keys. */
  class Storage {
    var items: map<string, string>

    constructor (initial: map<string, string>)
      ensures items == initial
    {
      items := initial;
    }

    /** `getItem`: the stored string, or null. */
    function GetItem(key: string): (r: Option<string>)
      reads this
      ensures r.Some? <==> key in items
      ensures r.Some? ==> r.value == items[key]
    {
      if key in items then Some(items[key]) else None
    }

    method SetItem(key: string, value: string)
      modifies this
      ensures items == old(items)[key := value]
    {
      items := items[key := value];
    }

    method RemoveItem(key: string)
      modifies this
      ensures items == old(items) - {key}
    {
      items := items - {key};
    }
  }

  /** `clearAuthData`: removes the three session keys and nothing else. */
  method ClearAuthData(storage: Storage)
    modifies storage
    ensures storage.items == old(storage.items) - AUTH_KEYS
    ensures forall k :: k in AUTH_KEYS ==> storage.GetItem(k).None?
    ensures forall k :: k !in AUTH_KEYS ==> storage.GetItem(k) == old(storage.GetItem(k))
  {
    storage.RemoveItem(ACCESS_TOKEN_KEY);
    storage.RemoveItem(ID_TOKEN_KEY);
    storage.RemoveItem(USER_INFO_KEY);
  }

  /** `localLogout`: clears the session keys, then sends the browser to `/`. */
  method LocalLogout(storage: Storage) returns (location: string)
    modifies storage
    ensures storage.items == old(storage.items) - AUTH_KEYS
    ensures location == "/"
  {
    ClearAuthData(storage);
    location := "/";
  }

  /** What the auth context hands to its consumers, with `getAccessToken()` evaluated. */
  datatype AuthContextValue = AuthContextValue(
    user: Option<User>, isLoading: bool, error: Option<string>, accessToken: Option<Json>)

  /** The value consumers see when no provider is mounted above them. */
  function DefaultContext(): AuthContextValue {
    AuthContextValue(None, true, None, None)
  }

  // ---------------------------------------------------------------------------
  // The authorization URL

  /** Characters the application/x-www-form-urlencoded serializer leaves alone. */
  predicate IsUrlSafe(c: char) {
    ('a' <= c <= 'z') || ('A' <= c <= 'Z') || ('0' <= c <= '9') || c == '*' || c == '-' || c == '.' || c == '_'
  }

  /** The UTF-8 bytes of one character (a Unicode scalar value). */
  function Utf8(c: char): (bytes: seq<nat>)
    ensures 1 <= |bytes| <= 4
    ensures forall i :: 0 <= i < |bytes| ==> bytes[i] < 256
  {
    var n := c as int;
    var q1 := n / 64;
    var q2 := q1 / 64;
    var q3 := q2 / 64;
    if n < 0x80 then [n]
    else if n < 0x800 then [0xC0 + q1, 0x80 + n % 64]
    else if n < 0x10000 then [0xE0 + q2, 0x80 + q1 % 64, 0x80 + n % 64]
    else [0xF0 + q3, 0x80 + q2 % 64, 0x80 + q1 % 64, 0x80 + n % 64]
  }

  /** Upper-case hexadecimal digit. */
  function HexDigit(k: nat): (c: char)
    requires k < 16
    ensures ('0' <= c <= '9') || ('A' <= c <= 'F')
  {
    if k < 10 then ('0' as int + k) as char else ('A' as int + k - 10) as char
  }

  function PercentEncode(bytes: seq<nat>): (r: string)
    requires forall i :: 0 <= i < |bytes| ==> bytes[i] < 256
    ensures |r| == 3 * |bytes|
    ensures forall c :: c in r ==> c == '%' || ('0' <= c <= '9') || ('A' <= c <= 'F')
  {
    if bytes == [] then ""
    else ['%', HexDigit(bytes[0] / 16), HexDigit(bytes[0] % 16)] + PercentEncode(bytes[1..])
  }

  function EncodeChar(c: char): string {
    if IsUrlSafe(c) then [c] else if c == ' ' then "+" else PercentEncode(Utf8(c))
  }

  /** The form-urlencoded serialization of one name or value. */
  function FormEncode(s: string): string {
    if s == [] then "" else EncodeChar(s[0]) + FormEncode(s[1..])
  }

  /** One serialized `name=value` pair. */
  function Field(param: (string, string)): string {
    FormEncode(param.0) + "=" + FormEncode(param.1)
  }

  function Fields(params: seq<(string, string)>): seq<string> {
    seq(|params|, i requires 0 <= i < |params| => Field(params[i]))
  }

  /** `URLSearchParams.toString()`: `name=value` pairs joined by `&`. */
  function SerializeParams(params: seq<(string, string)>): string {
    Join(Fields(params), "&")
  }

  /** The query parameters of the authorization request, in order. */
  function AuthParams(state: string): seq<(string, string)> {
    [("client_id", CLIENT_ID),
     ("redirect_uri", REDIRECT_URI),
     ("response_type", "code"),
     ("scope", Join(SCOPES, " ")),
     ("state", state)]
  }

  const AUTHORIZE_PREFIX := AUTHELIA_URL + "/api/oidc/authorize?"

  /** `getAutheliaAuthUrl`, with the random `state` as a parameter. */
  function AuthUrl(state: string): string {
    AUTHORIZE_PREFIX + SerializeParams(AuthParams(state))
  }

  // ---------------------------------------------------------------------------
  // The receiving side: the application/x-www-form-urlencoded parser, used as
  // the reference the serializer is checked against.

  function HexValue(c: char): Option<nat> {
    if '0' <= c <= '9' then Some(c as int - '0' as int)
    else if 'A' <= c <= 'F' then Some(c as int - 'A' as int + 10)
    else if 'a' <= c <= 'f' then Some(c as int - 'a' as int + 10)
    else None
  }

  /** Reads `n` consecutive `%XX` escapes from the front of `s`. */
  function ReadBytes(s: string, n: nat): (r: Option<seq<nat>>)
    ensures r.Some? ==> |r.value| == n && 3 * n <= |s|
  {
    if n == 0 then Some([])
    else if |s| < 3 || s[0] != '%' || HexValue(s[1]).None? || HexValue(s[2]).None? then None
    else match ReadBytes(s[3..], n - 1)
      case None => None
      case Some(rest) => Some([16 * HexValue(s[1]).value + HexValue(s[2]).value] + rest)
  }

  /** How many bytes a UTF-8 sequence with this lead byte has (0: not a lead byte). */
  function Utf8Length(lead: nat): nat {
    if lead < 0x80 then 1
    else if 0xC0 <= lead < 0xE0 then 2
    else if 0xE0 <= lead < 0xF0 then 3
    else if 0xF0 <= lead < 0xF8 then 4
    else 0
  }

  predicate IsContinuation(b: nat) {
    0x80 <= b < 0xC0
  }

  /** The character one complete UTF-8 sequence stands for. */
  function DecodeUtf8(bytes: seq<nat>): Option<char> {
    if |bytes| == 0 || Utf8Length(bytes[0]) != |bytes| then None
    else if exists i :: 1 <= i < |bytes| && !IsContinuation(bytes[i]) then None
    else
      var v :=
        if |bytes| == 1 then bytes[0]
        else if |bytes| == 2 then (bytes[0] - 0xC0) * 64 + (bytes[1] - 0x80)
        else if |bytes| == 3 then (bytes[0] - 0xE0) * 4096 + (bytes[1] - 0x80) * 64 + (bytes[2] - 0x80)
        else (bytes[0] - 0xF0) * 262144 + (bytes[1] - 0x80) * 4096 + (bytes[2] - 0x80) * 64 + (bytes[3] - 0x80);
      if (0 <= v < 0xD800) || (0xE000 <= v < 0x110000) then Some(v as char) else None
  }

  function Prepend(c: char, r: Option<string>): Option<string> {
    match r
    case None => None
    case Some(t) => Some([c] + t)
  }

  /** Decodes one name or value: `+` is a space, `%XX` escapes are UTF-8. */
  function FormDecode(s: string): Option<string>
    decreases |s|
  {
    if s == [] then Some("")
    else if s[0] == '%' then
      match ReadBytes(s, 1)
      case None => None
      case Some(lead) =>
        var n := Utf8Length(lead[0]);
        if n == 0 then None
        else match ReadBytes(s, n)
          case None => None
          case Some(bytes) =>
            match DecodeUtf8(bytes)
            case None => None
            case Some(c) => Prepend(c, FormDecode(s[3 * n..]))
    else Prepend(if s[0] == '+' then ' ' else s[0], FormDecode(s[1..]))
  }

  /** One `name=value` field: split at the first `=`, a field without one has an empty value. */
  function ParseField(f: string): Option<(string, string)> {
    var name := if '=' in f then f[..IndexOf(f, '=')] else f;
    var value := if '=' in f then f[IndexOf(f, '=') + 1..] else "";
    match FormDecode(name)
    case None => None
    case Some(n) =>
      match FormDecode(value)
      case None => None
      case Some(v) => Some((n, v))
  }

  /** Parses the `&`-separated fields, skipping empty ones. */
  function ParseFields(fields: seq<string>): Option<seq<(string, string)>> {
    if fields == [] then Some([])
    else if fields[0] == "" then ParseFields(fields[1..])
    else match ParseField(fields[0])
      case None => None
      case Some(p) =>
        match ParseFields(fields[1..])
        case None => None
        case Some(ps) => Some([p] + ps)
  }

  function ParseQuery(q: string): Option<seq<(string, string)>> {
    ParseFields(Split(q, '&'))
  }

  // ---------------------------------------------------------------------------
  // Lemmas about the authorization URL

  lemma ScopeIsSpaceJoined()
    ensures Join(SCOPES, " ") == "openid profile groups email"
  {
    assert SCOPES[1..] == ["profile", "groups", "email"];
    assert SCOPES[1..][1..] == ["groups", "email"];
    assert SCOPES[1..][1..][1..] == ["email"];
  }

  /** URL-safe text passes through the serializer unchanged. */
  lemma {:induction false} FormEncodeSafe(s: string)
    requires forall i :: 0 <= i < |s| ==> IsUrlSafe(s[i])
    ensures FormEncode(s) == s
  {
    if s != [] {
      FormEncodeSafe(s[1..]);
      assert s == [s[0]] + s[1..];
    }
  }

  /** The serializer never emits the separators `&` and `=`. */
  lemma {:induction false} FormEncodeNoSeparators(s: string)
    ensures '&' !in FormEncode(s) && '=' !in FormEncode(s)
  {
    if s != [] {
      FormEncodeNoSeparators(s[1..]);
    }
  }

  lemma HexRoundTrip(k: nat)
    requires k < 16
    ensures HexValue(HexDigit(k)) == Some(k)
  {
  }

  /** The escapes written for some bytes are read back as those bytes. */
  lemma {:induction false} ReadPercentEncoded(bytes: seq<nat>, rest: string, k: nat)
    requires forall i :: 0 <= i < |bytes| ==> bytes[i] < 256
    requires k <= |bytes|
    ensures ReadBytes(PercentEncode(bytes) + rest, k) == Some(bytes[..k])
  {
    if k > 0 {
      var s := PercentEncode(bytes) + rest;
      var b := bytes[0];
      HexRoundTrip(b / 16);
      HexRoundTrip(b % 16);
      assert s[0] == '%' && s[1] == HexDigit(b / 16) && s[2] == HexDigit(b % 16);
      assert s[3..] == PercentEncode(bytes[1..]) + rest;
      ReadPercentEncoded(bytes[1..], rest, k - 1);
      assert bytes[..k] == [b] + bytes[1..][..k - 1];
    }
  }

  /** Decoding the UTF-8 bytes of a character gives the character back. */
  lemma Utf8RoundTrip(c: char)
    ensures Utf8Length(Utf8(c)[0]) == |Utf8(c)|
    ensures DecodeUtf8(Utf8(c)) == Some(c)
  {
    var n := c as int;
    var bytes := Utf8(c);
    if n < 0x80 {
    } else if n < 0x800 {
      Utf8TwoBytes(n);
    } else if n < 0x10000 {
      Utf8ThreeBytes(n);
    } else {
      Utf8FourBytes(n);
    }
  }

  lemma Utf8TwoBytes(n: int)
    requires 0x80 <= n < 0x800
    ensures var b0, b1 := 0xC0 + n / 64, 0x80 + n % 64;
      0xC0 <= b0 < 0xE0 && IsContinuation(b1) && (b0 - 0xC0) * 64 + (b1 - 0x80) == n
  {
  }

  lemma Utf8ThreeBytes(n: int)
    requires 0x800 <= n < 0x10000
    ensures var b0, b1, b2 := 0xE0 + n / 64 / 64, 0x80 + n / 64 % 64, 0x80 + n % 64;
      0xE0 <= b0 < 0xF0 && IsContinuation(b1) && IsContinuation(b2) &&
      (b0 - 0xE0) * 4096 + (b1 - 0x80) * 64 + (b2 - 0x80) == n
  {
    var q1 := n / 64;
    assert n == 64 * q1 + n % 64;
    assert q1 == 64 * (q1 / 64) + q1 % 64;
  }

  lemma Utf8FourBytes(n: int)
    requires 0x10000 <= n < 0x110000
    ensures var b0, b1, b2, b3 := 0xF0 + n / 64 / 64 / 64, 0x80 + n / 64 / 64 % 64, 0x80 + n / 64 % 64, 0x80 + n % 64;
      0xF0 <= b0 < 0xF8 && IsContinuation(b1) && IsContinuation(b2) && IsContinuation(b3) &&
      (b0 - 0xF0) * 262144 + (b1 - 0x80) * 4096 + (b2 - 0x80) * 64 + (b3 - 0x80) == n
  {
    var q1 := n / 64;
    var q2 := q1 / 64;
    assert n == 64 * q1 + n % 64;
    assert q1 == 64 * q2 + q1 % 64;
    assert q2 == 64 * (q2 / 64) + q2 % 64;
  }

  /** Decoding the serialization of one character, followed by anything. */
  lemma DecodeEncodedChar(c: char, rest: string)
    ensures FormDecode(EncodeChar(c) + rest) == Prepend(c, FormDecode(rest))
  {
    var s := EncodeChar(c) + rest;
    if IsUrlSafe(c) || c == ' ' {
      assert s[0] == (if c == ' ' then '+' else c) && s[1..] == rest;
    } else {
      var bytes := Utf8(c);
      Utf8RoundTrip(c);
      ReadPercentEncoded(bytes, rest, 1);
      ReadPercentEncoded(bytes, rest, |bytes|);
      assert bytes[..1] == [bytes[0]] && bytes[..|bytes|] == bytes;
      assert s[3 * |bytes|..] == rest;
    }
  }

  /** Round trip: the parser recovers every string the serializer was given. */
  lemma {:induction false} FormDecodeEncode(s: string)
    ensures FormDecode(FormEncode(s)) == Some(s)
  {
    if s != [] {
      FormDecodeEncode(s[1..]);
      DecodeEncodedChar(s[0], FormEncode(s[1..]));
      assert s == [s[0]] + s[1..];
    }
  }

  lemma {:induction false} IndexOfAfter(a: string, b: string, sep: char)
    requires sep !in a
    ensures sep in a + [sep] + b && IndexOf(a + [sep] + b, sep) == |a|
  {
    var s := a + [sep] + b;
    assert s[|a|] == sep;
    var i := IndexOf(s, sep);
    assert forall j :: 0 <= j < |a| ==> s[j] == a[j];
    assert s[..|a| + 1][|a|] == sep;
    assert i <= |a| by {
      assert forall j :: |a| < j <= |s| ==> s[..j][|a|] == sep;
    }
  }

  lemma {:induction false} SplitAfterSeparator(a: string, b: string, sep: char)
    requires sep !in a
    ensures Split(a + [sep] + b, sep) == [a] + Split(b, sep)
  {
    var s := a + [sep] + b;
    IndexOfAfter(a, b, sep);
    assert s[..|a|] == a;
    assert s[|a| + 1..] == b;
  }

  /** Splitting the serialized query on `&` gives back one `name=value` field per parameter, in order. */
  lemma {:induction false} QueryFields(params: seq<(string, string)>)
    requires params != []
    ensures Split(SerializeParams(params), '&') == Fields(params)
  {
    var fields := Fields(params);
    FormEncodeNoSeparators(params[0].0);
    FormEncodeNoSeparators(params[0].1);
    assert '&' !in fields[0];
    if |params| > 1 {
      QueryFields(params[1..]);
      assert fields[1..] == Fields(params[1..]);
      assert SerializeParams(params) == fields[0] + "&" + SerializeParams(params[1..]);
      SplitAfterSeparator(fields[0], SerializeParams(params[1..]), '&');
    }
  }

  /** Each serialized field parses back into its name and value. */
  lemma ParseOneField(p: (string, string))
    ensures Field(p) != "" && ParseField(Field(p)) == Some(p)
  {
    var name, value := FormEncode(p.0), FormEncode(p.1);
    FormEncodeNoSeparators(p.0);
    IndexOfAfter(name, value, '=');
    assert Field(p) == name + ['='] + value;
    assert Field(p)[..|name|] == name;
    assert Field(p)[|name| + 1..] == value;
    FormDecodeEncode(p.0);
    FormDecodeEncode(p.1);
  }

  lemma FieldsTail(params: seq<(string, string)>)
    requires params != []
    ensures Fields(params)[0] == Field(params[0]) && Fields(params)[1..] == Fields(params[1..])
  {
  }

  lemma ParseFieldsCons(fields: seq<string>, p: (string, string), ps: seq<(string, string)>)
    requires fields != [] && fields[0] != ""
    requires ParseField(fields[0]) == Some(p) && ParseFields(fields[1..]) == Some(ps)
    ensures ParseFields(fields) == Some([p] + ps)
  {
  }

  lemma {:induction false} ParseAllFields(params: seq<(string, string)>)
    ensures ParseFields(Fields(params)) == Some(params)
  {
    if params != [] {
      var f := Fields(params);
      ParseOneField(params[0]);
      ParseAllFields(params[1..]);
      FieldsTail(params);
      ParseFieldsCons(f, params[0], params[1..]);
      assert params == [params[0]] + params[1..];
    }
  }

  /** The identity provider reads back exactly the parameters that were serialized, in order. */
  lemma ParseSerialized(params: seq<(string, string)>)
    requires params != []
    ensures ParseQuery(SerializeParams(params)) == Some(params)
  {
    QueryFields(params);
    ParseAllFields(params);
  }

  /** The login URL targets the authorize endpoint, and its query carries client_id,
      redirect_uri, response_type=code, the four scopes separated by spaces, and
      the state, each recovered exactly by the receiving parser. */
  lemma AuthUrlQuery(state: string)
    ensures AUTHORIZE_PREFIX <= AuthUrl(state)
    ensures ParseQuery(AuthUrl(state)[|AUTHORIZE_PREFIX|..]) == Some(AuthParams(state))
    ensures AuthParams(state)[3] == ("scope", "openid profile groups email")
    ensures AuthParams(state)[2] == ("response_type", "code")
    ensures AuthParams(state)[4] == ("state", state)
  {
    ScopeIsSpaceJoined();
    assert AuthUrl(state)[|AUTHORIZE_PREFIX|..] == SerializeParams(AuthParams(state));
    ParseSerialized(AuthParams(state));
  }

  // ---------------------------------------------------------------------------
  // fetchWithAuth

  /** `fetchWithAuth`: the request carries the caller's headers with
      `Authorization: Bearer <token>` added (and replacing the caller's) when a
      non-empty token is stored; the response is handed back whatever its
      status (401 and 403 included) and a transport failure is passed on. */
  method FetchWithAuth(storage: Storage, headers: map<string, string>, fetched: Result<Http.Response, string>)
    returns (sent: map<string, string>, result: Result<Http.Response, string>)
    ensures Filled(storage.GetItem(ACCESS_TOKEN_KEY)) ==>
      sent == headers["Authorization" := "Bearer " + storage.items[ACCESS_TOKEN_KEY]]
    ensures !Filled(storage.GetItem(ACCESS_TOKEN_KEY)) ==> sent == headers
    ensures forall k :: k in headers && k != "Authorization" ==> k in sent && sent[k] == headers[k]
    ensures fetched.Success? ==> result.Success? && result.value == fetched.value
    ensures fetched.Failure? ==> result == fetched
  {
    var accessToken := storage.GetItem(ACCESS_TOKEN_KEY);
    var authHeader: map<string, string> := if Filled(accessToken) then map["Authorization" := "Bearer " + accessToken.value] else map[];
    sent := headers + authHeader;
    result := fetched;
  }
}
