/** src/lib/authprovider.tsx: the session machine behind the auth context.
    The provider holds the signed-in user, a loading flag, an error message and
    the set of authorization codes already handled; it reads and writes the
    three session keys of localStorage. Network calls are inputs (`Http.Outcome`),
    and the requests the provider sends are recorded in a ghost log. */
module AuthProvider {
  import opened Js
  import opened Text
  import Http
  import opened Auth

  const TOKEN_ENDPOINT := AUTHELIA_URL + "/api/oidc/token"
  const USERINFO_ENDPOINT := AUTHELIA_URL + "/api/oidc/userinfo"
  const LOGOUT_URL := "https://auth.lsz.company/logout"

  const PARSE_FAILED := "Konnte Antwort nicht parsen: "
  const LOGIN_FAILED := "Anmeldung fehlgeschlagen: "
  const USERINFO_FAILED := "Benutzerinformationen konnten nicht abgerufen werden: "
  const UNKNOWN_ERROR := "Unbekannter Fehler"
  const MISSING_TOKENS := "Ungültige Antwort vom Authentifizierungsserver: Fehlende Token"
  const USERINFO_UNPARSABLE := "Konnte Benutzerinformationen nicht parsen"
  const USERINFO_INVALID := "Ungültige Benutzerinformationen erhalten"
  const DEFAULT_ERROR := "Anmeldung fehlgeschlagen"
  const STATUS_CHECK_FAILED := "Authentifizierungsstatus konnte nicht geprüft werden"

  // ---------------------------------------------------------------------------
  // Decoding responses

  /** The text branch of `safeJsonParse`: blank text is `{}`, anything else goes to JSON.parse. */
  function ParseBodyText(text: Result<string, string>, e: Engine): Result<Json, string> {
    match text
    case Failure(m) => Failure(PARSE_FAILED + m)
    case Success(t) =>
      if Trim(t) == "" then Success(JObj(map[]))
      else match e.parse(t)
        case Success(v) => Success(v)
        case Failure(m) => Failure(PARSE_FAILED + m)
  }

  /** `safeJsonParse`: `response.json()`, and when that fails, `response.text()`
      on the same (by then consumed) response. */
  function SafeJsonParse(r: Http.Response, e: Engine): Result<Json, string> {
    match Http.ReadJson(r, false, e)
    case Success(v) => Success(v)
    case Failure(_) => ParseBodyText(Http.ReadText(r, true, e), e)
  }

  /** Once `response.json()` has consumed a body, the text fallback of `safeJsonParse`
      is rejected: the result is the decoded body or the body-already-used message.
      A null body is never consumed, so there the fallback reads the empty text and
      yields an empty object. */
  lemma SafeJsonParseOutcome(r: Http.Response, e: Engine)
    ensures r.json.Success? ==> SafeJsonParse(r, e) == r.json
    ensures r.json.Failure? && !Http.NullBodyStatus(r.status) ==>
      SafeJsonParse(r, e) == Failure(PARSE_FAILED + e.bodyUsed)
    ensures Http.NullBodyStatus(r.status) ==> SafeJsonParse(r, e) == Success(JObj(map[]))
  {
    if Http.NullBodyStatus(r.status) {
      assert Text.Trim("") == "";
    }
  }

  /** The `error_description || error` of a decoded error body, when one is truthy. */
  function ErrorField(errorData: Json): Option<Json> {
    Or(Member(errorData, "error_description"), Member(errorData, "error"))
  }

  /** The message thrown for a non-OK token or user-info response, after `prefix`:
      the error fields of the decoded body, else the body text read afterwards. */
  function FailureMessage(prefix: string, r: Http.Response, e: Engine): string {
    var errorData := match SafeJsonParse(r, e) case Success(v) => v case Failure(_) => JNull;
    if Truthy(errorData) && Present(ErrorField(errorData)) then
      prefix + Display(ErrorField(errorData).value)
    else
      prefix + (match Http.ReadText(r, true, e) case Success(t) => t case Failure(_) => UNKNOWN_ERROR)
  }

  /** A non-OK response is reported as `prefix` followed by its `error_description`,
      else its `error`, when the body decodes as JSON and one of them is truthy;
      otherwise as `prefix` + "Unbekannter Fehler", because the body was already
      consumed; a null body (a 304, say) is reported as `prefix` alone. */
  lemma FailureMessageShape(prefix: string, r: Http.Response, e: Engine)
    ensures var d := r.json;
      (d.Success? && Present(Member(d.value, "error_description")) ==>
        FailureMessage(prefix, r, e) == prefix + Display(d.value.fields["error_description"])) &&
      (d.Success? && !Present(Member(d.value, "error_description")) && Present(Member(d.value, "error")) ==>
        FailureMessage(prefix, r, e) == prefix + Display(d.value.fields["error"])) &&
      (!(d.Success? && (Present(Member(d.value, "error_description")) || Present(Member(d.value, "error")))) &&
        !Http.NullBodyStatus(r.status) ==>
        FailureMessage(prefix, r, e) == prefix + UNKNOWN_ERROR)
    ensures Http.NullBodyStatus(r.status) ==> FailureMessage(prefix, r, e) == prefix
  {
    SafeJsonParseOutcome(r, e);
    if Http.NullBodyStatus(r.status) {
      assert prefix + "" == prefix;
    }
  }

  /** Number of own enumerable keys (`Object.keys(v).length`) of an object or array. */
  function KeyCount(v: Json): nat {
    match v
    case JObj(fields) => |fields|
    case JArr(items) => |items|
    case _ => 0
  }

  const PLACEHOLDER_CLAIMS := JObj(map["sub" := JStr("unknown"), "name" := JStr("Unbekannter Benutzer")])

  /** The text branch of user-info decoding: a text starting with "eyJ" is read as a
      compact token (the second dot-separated segment, base64-decoded, then parsed);
      any other text is parsed as JSON. Every failure becomes one message. */
  function UserInfoFromText(text: Result<string, string>, e: Engine): (r: Result<Json, string>)
    ensures r.Failure? ==> r.error == USERINFO_UNPARSABLE
  {
    match text
    case Failure(_) => Failure(USERINFO_UNPARSABLE)
    case Success(t) =>
      if StartsWith(t, "eyJ") then
        var parts := Split(t, '.');
        var segment := if |parts| > 1 then parts[1] else "undefined";
        match e.atob(segment)
        case Failure(_) => Failure(USERINFO_UNPARSABLE)
        case Success(payload) =>
          match e.parse(payload)
          case Success(v) => Success(v)
          case Failure(_) => Failure(USERINFO_UNPARSABLE)
      else
        match e.parse(t)
        case Success(v) => Success(v)
        case Failure(_) => Failure(USERINFO_UNPARSABLE)
  }

  /** The checks after decoding: claims must be a truthy object (arrays included);
      claims without keys are replaced by a placeholder user. */
  function CheckClaims(v: Json): (r: Result<Json, string>)
    ensures r.Success? <==> v.JObj? || v.JArr?
    ensures r.Success? ==> KeyCount(r.value) >= 1
    ensures r.Success? && KeyCount(v) >= 1 ==> r.value == v
    ensures r.Failure? ==> r.error == USERINFO_INVALID
  {
    if !Truthy(v) || !(v.JObj? || v.JArr?) then Failure(USERINFO_INVALID)
    else if KeyCount(v) == 0 then Success(PLACEHOLDER_CLAIMS)
    else Success(v)
  }

  /** Decoding a successful user-info response: `clone().json()` first (a copy, so
      the original body stays unread), then the text of the original. */
  function DecodeUserInfo(r: Http.Response, e: Engine): (claims: Result<Json, string>)
    ensures claims.Success? ==> (claims.value.JObj? || claims.value.JArr?) && KeyCount(claims.value) >= 1
    ensures claims.Failure? ==> claims.error == USERINFO_UNPARSABLE || claims.error == USERINFO_INVALID
  {
    var decoded := match Http.ReadJson(r, false, e)
      case Success(v) => Success(v)
      case Failure(_) => UserInfoFromText(Http.ReadText(r, false, e), e);
    match decoded
    case Failure(m) => Failure(m)
    case Success(v) => CheckClaims(v)
  }

  /** A decoded `{}` yields the placeholder user. */
  lemma EmptyClaimsGetPlaceholder(r: Http.Response, e: Engine)
    requires r.json == Success(JObj(map[]))
    ensures DecodeUserInfo(r, e) == Success(PLACEHOLDER_CLAIMS)
  {
  }

  /** An empty body is not `{}`: JSON.parse("") rejects it, and decoding fails. */
  lemma EmptyBodyFails(r: Http.Response, e: Engine)
    requires r.json.Failure? && r.text == Success("")
    requires e.parse("").Failure?
    ensures DecodeUserInfo(r, e) == Failure(USERINFO_UNPARSABLE)
  {
  }

  /** The second `sep`-separated segment of `h sep payload rest`, where `rest` is
      empty or starts a further segment. */
  lemma SecondSegment(h: string, payload: string, rest: string, sep: char)
    requires sep !in h && sep !in payload && (rest == [] || rest[0] == sep)
    ensures var parts := Split(h + [sep] + payload + rest, sep); |parts| > 1 && parts[1] == payload
  {
    var tail := payload + rest;
    var t := h + [sep] + payload + rest;
    assert t == h + [sep] + tail;
    SplitAfterSeparator(h, tail, sep);
    assert Split(t, sep) == [h] + Split(tail, sep);
    FirstSegment(payload, rest, sep);
  }

  /** The first `sep`-separated segment of `payload rest`. */
  lemma FirstSegment(payload: string, rest: string, sep: char)
    requires sep !in payload && (rest == [] || rest[0] == sep)
    ensures Split(payload + rest, sep)[0] == payload
  {
    if rest == [] {
      assert payload + rest == payload;
    } else {
      assert payload + rest == payload + [sep] + rest[1..];
      SplitAfterSeparator(payload, rest[1..], sep);
    }
  }

  /** The compact-token branch: when JSON decoding fails and the text starts with
      "eyJ", the claims come from the base64-decoded second segment. */
  lemma CompactTokenClaims(r: Http.Response, e: Engine, header: string, payload: string, rest: string)
    requires r.json.Failure? && '.' !in header && '.' !in payload
    requires r.text == Success("eyJ" + header + "." + payload + rest)
    requires rest == [] || rest[0] == '.'
    ensures DecodeUserInfo(r, e) ==
      match e.atob(payload)
      case Failure(_) => Failure(USERINFO_UNPARSABLE)
      case Success(p) =>
        match e.parse(p)
        case Failure(_) => Failure(USERINFO_UNPARSABLE)
        case Success(v) => CheckClaims(v)
  {
    var h := "eyJ" + header;
    var t := h + ['.'] + payload + rest;
    assert '.' !in h;
    assert r.text.value == t;
    assert StartsWith(t, "eyJ") by {
      assert t[..3] == "eyJ";
    }
    SecondSegment(h, payload, rest, '.');
  }

  /** A text that does not itself start with "eyJ" is parsed as JSON even when it
      contains a token further in, so "header.eyJ…" is not decoded as a token. */
  lemma OnlyLeadingTokenDecoded(r: Http.Response, e: Engine)
    requires r.json.Failure? && r.text.Success? && !StartsWith(r.text.value, "eyJ")
    ensures DecodeUserInfo(r, e) ==
      match e.parse(r.text.value)
      case Failure(_) => Failure(USERINFO_UNPARSABLE)
      case Success(v) => CheckClaims(v)
  {
  }

  // ---------------------------------------------------------------------------
  // The code exchange

  /** The requests the provider sends. */
  datatype Request = TokenRequest(code: string) | UserInfoRequest(authorization: string)

  /** The form body of the token request. */
  function TokenParams(code: string): seq<(string, string)> {
    [("grant_type", "authorization_code"), ("code", code), ("redirect_uri", REDIRECT_URI)]
  }

  function TokenBody(code: string): string {
    SerializeParams(TokenParams(code))
  }

  /** The token endpoint reads back the grant type, the exact code and the redirect URI. */
  lemma TokenBodyCarriesCode(code: string)
    ensures ParseQuery(TokenBody(code)) == Some(TokenParams(code))
    ensures TokenParams(code)[1] == ("code", code)
  {
    ParseSerialized(TokenParams(code));
  }

  /** What a successful exchange yields. */
  datatype Session = Session(accessToken: Json, idToken: Json, claims: Json)

  datatype Exchanged = Exchanged(sent: seq<Request>, outcome: Result<Session, string>)

  /** The exchange of `code` for tokens and claims, as the requests it sends and the
      session it yields or the message of the error it throws. */
  function Exchange(code: string, tokenCall: Http.Outcome, userInfoCall: Http.Outcome, e: Engine): (x: Exchanged)
    ensures 1 <= |x.sent| <= 2 && x.sent[0] == TokenRequest(code)
    ensures |x.sent| == 2 ==> x.sent[1].UserInfoRequest?
    ensures x.outcome.Success? ==>
      |x.sent| == 2 && Truthy(x.outcome.value.accessToken) && Truthy(x.outcome.value.idToken) &&
      x.sent[1] == UserInfoRequest("Bearer " + Display(x.outcome.value.accessToken)) &&
      (x.outcome.value.claims.JObj? || x.outcome.value.claims.JArr?) && KeyCount(x.outcome.value.claims) >= 1
  {
    var sent := [TokenRequest(code)];
    match Http.FetchWithTimeout(TOKEN_ENDPOINT, tokenCall)
    case Failure(m) => Exchanged(sent, Failure(m))
    case Success(response) =>
      if !response.ok then Exchanged(sent, Failure(FailureMessage(LOGIN_FAILED, response, e)))
      else match SafeJsonParse(response, e)
        case Failure(m) => Exchanged(sent, Failure(m))
        case Success(data) =>
          if data.JNull? then Exchanged(sent, Failure(e.nullAccess("access_token")))
          else
            var accessToken := Member(data, "access_token");
            var idToken := Member(data, "id_token");
            if !Present(accessToken) || !Present(idToken) then Exchanged(sent, Failure(MISSING_TOKENS))
            else
              var sent' := sent + [UserInfoRequest("Bearer " + Display(accessToken.value))];
              match Http.FetchWithTimeout(USERINFO_ENDPOINT, userInfoCall)
              case Failure(m) => Exchanged(sent', Failure(m))
              case Success(userInfoResponse) =>
                if !userInfoResponse.ok then
                  Exchanged(sent', Failure(FailureMessage(USERINFO_FAILED, userInfoResponse, e)))
                else match DecodeUserInfo(userInfoResponse, e)
                  case Failure(m) => Exchanged(sent', Failure(m))
                  case Success(claims) => Exchanged(sent', Success(Session(accessToken.value, idToken.value, claims)))
  }

  /** A token response without a truthy `access_token` or `id_token` fails with the
      missing-token message, and the user-info endpoint is not called. */
  lemma MissingTokensStopExchange(code: string, response: Http.Response, userInfoCall: Http.Outcome, e: Engine)
    requires response.ok && response.json.Success? && !response.json.value.JNull?
    requires !Present(Member(response.json.value, "access_token")) || !Present(Member(response.json.value, "id_token"))
    ensures Exchange(code, Http.Arrived(response), userInfoCall, e) == Exchanged([TokenRequest(code)], Failure(MISSING_TOKENS))
  {
  }

  /** An OK token response without a body (204 or 205) decodes as an empty object,
      so it fails with the missing-token message and the user-info endpoint is not called. */
  lemma NullBodyTokenResponse(code: string, response: Http.Response, userInfoCall: Http.Outcome, e: Engine)
    requires response.ok && Http.NullBodyStatus(response.status)
    ensures Exchange(code, Http.Arrived(response), userInfoCall, e) == Exchanged([TokenRequest(code)], Failure(MISSING_TOKENS))
  {
    SafeJsonParseOutcome(response, e);
  }

  /** A non-OK token response without a body (a 304) fails with the bare login prefix. */
  lemma NullBodyTokenError(code: string, response: Http.Response, userInfoCall: Http.Outcome, e: Engine)
    requires !response.ok && Http.NullBodyStatus(response.status)
    ensures Exchange(code, Http.Arrived(response), userInfoCall, e) == Exchanged([TokenRequest(code)], Failure(LOGIN_FAILED))
  {
    FailureMessageShape(LOGIN_FAILED, response, e);
  }

  /** A non-OK token response fails with the login prefix and sends nothing further. */
  lemma TokenErrorStopsExchange(code: string, response: Http.Response, userInfoCall: Http.Outcome, e: Engine)
    requires !response.ok
    ensures Exchange(code, Http.Arrived(response), userInfoCall, e) ==
      Exchanged([TokenRequest(code)], Failure(FailureMessage(LOGIN_FAILED, response, e)))
    ensures Contains(FailureMessage(LOGIN_FAILED, response, e), LOGIN_FAILED)
  {
    ContainsAt(FailureMessage(LOGIN_FAILED, response, e), LOGIN_FAILED, 0);
  }

  /** A token response that decodes to `d` with both tokens truthy leads to exactly
      one user-info request, carrying `Bearer <access_token>`. */
  function UserInfoSent(code: string, d: Json): seq<Request>
    requires Present(Member(d, "access_token"))
  {
    [TokenRequest(code), UserInfoRequest("Bearer " + Display(Member(d, "access_token").value))]
  }

  /** A non-OK user-info response fails with the user-info prefix and the same
      message rule as the token endpoint (see `FailureMessageShape`). */
  lemma UserInfoErrorStopsExchange(code: string, response: Http.Response, d: Json, info: Http.Response, e: Engine)
    requires response.ok && SafeJsonParse(response, e) == Success(d) && !d.JNull?
    requires Present(Member(d, "access_token")) && Present(Member(d, "id_token"))
    requires !info.ok
    ensures Exchange(code, Http.Arrived(response), Http.Arrived(info), e) ==
      Exchanged(UserInfoSent(code, d), Failure(FailureMessage(USERINFO_FAILED, info, e)))
    ensures Contains(FailureMessage(USERINFO_FAILED, info, e), USERINFO_FAILED)
  {
    ContainsAt(FailureMessage(USERINFO_FAILED, info, e), USERINFO_FAILED, 0);
  }

  /** A user-info request that runs out of time fails with a message naming the
      user-info endpoint, after both requests were sent. */
  lemma UserInfoTimeoutNamesEndpoint(code: string, response: Http.Response, d: Json, e: Engine)
    requires response.ok && SafeJsonParse(response, e) == Success(d) && !d.JNull?
    requires Present(Member(d, "access_token")) && Present(Member(d, "id_token"))
    ensures var x := Exchange(code, Http.Arrived(response), Http.DeadlinePassed, e);
      x.sent == UserInfoSent(code, d) && x.outcome.Failure? && Contains(x.outcome.error, USERINFO_ENDPOINT)
  {
  }

  /** A successful exchange carries the token response's own `access_token` and
      `id_token` and the decoded user-info claims; and whenever both responses
      succeed this far, the exchange succeeds. */
  lemma SuccessfulExchange(code: string, response: Http.Response, d: Json, info: Http.Response, e: Engine)
    requires response.ok && SafeJsonParse(response, e) == Success(d) && !d.JNull?
    requires Present(Member(d, "access_token")) && Present(Member(d, "id_token"))
    requires info.ok && DecodeUserInfo(info, e).Success?
    ensures Exchange(code, Http.Arrived(response), Http.Arrived(info), e) ==
      Exchanged(UserInfoSent(code, d),
                Success(Session(Member(d, "access_token").value, Member(d, "id_token").value, DecodeUserInfo(info, e).value)))
  {
  }

  /** Conversely, every successful exchange arose that way: from an OK token
      response decoding to an object with both tokens, and an OK user-info
      response whose decoded claims are the session's. */
  lemma ExchangeSuccessSources(code: string, tokenCall: Http.Outcome, userInfoCall: Http.Outcome, e: Engine)
    requires Exchange(code, tokenCall, userInfoCall, e).outcome.Success?
    ensures tokenCall.Arrived? && tokenCall.response.ok && userInfoCall.Arrived? && userInfoCall.response.ok
    ensures var s := Exchange(code, tokenCall, userInfoCall, e).outcome.value;
      var d := SafeJsonParse(tokenCall.response, e);
      d.Success? && Member(d.value, "access_token") == Some(s.accessToken) && Member(d.value, "id_token") == Some(s.idToken) &&
      DecodeUserInfo(userInfoCall.response, e) == Success(s.claims)
  {
  }

  /** A token request that runs out of time fails with a message naming the token endpoint. */
  lemma TokenTimeoutNamesEndpoint(code: string, userInfoCall: Http.Outcome, e: Engine)
    ensures var x := Exchange(code, Http.DeadlinePassed, userInfoCall, e);
      x.sent == [TokenRequest(code)] && x.outcome.Failure? && Contains(x.outcome.error, TOKEN_ENDPOINT)
  {
  }

  /** The error example: a 400 token response whose body decodes to
      `{"error":"invalid_grant","error_description":"code expired"}`, whatever its raw
      text, ends the exchange with "Anmeldung fehlgeschlagen: code expired". */
  lemma ExpiredCodeMessage(code: string, text: string, userInfoCall: Http.Outcome, e: Engine)
    ensures var body := JObj(map["error" := JStr("invalid_grant"), "error_description" := JStr("code expired")]);
      var response := Http.RawResponse(false, 400, Success(body), Success(text));
      Exchange(code, Http.Arrived(response), userInfoCall, e).outcome == Failure("Anmeldung fehlgeschlagen: code expired")
  {
    var body := JObj(map["error" := JStr("invalid_grant"), "error_description" := JStr("code expired")]);
    var response: Http.Response := Http.RawResponse(false, 400, Success(body), Success(text));
    FailureMessageShape(LOGIN_FAILED, response, e);
    assert Exchange(code, Http.Arrived(response), userInfoCall, e).outcome == Failure(FailureMessage(LOGIN_FAILED, response, e));
    assert Display(JStr("code expired")) == "code expired";
    assert LOGIN_FAILED + "code expired" == "Anmeldung fehlgeschlagen: code expired";
  }

  // ---------------------------------------------------------------------------
  // The user object and what is persisted

  /** `{...claims, accessToken, idToken, isAuthenticated: true}`: token fields override same-named claims. */
  function SessionUser(s: Session): (u: User)
    ensures var claims := SpreadEntries(s.claims);
      u.Keys == claims.Keys + {"accessToken", "idToken", "isAuthenticated"} &&
      u["accessToken"] == s.accessToken && u["idToken"] == s.idToken && u["isAuthenticated"] == JBool(true) &&
      forall k :: k in claims && k != "accessToken" && k != "idToken" && k != "isAuthenticated" ==> u[k] == claims[k]
  {
    WithTokens(SpreadEntries(s.claims), s.accessToken, s.idToken)
  }

  /** `{...claims, accessToken, idToken, isAuthenticated: true}` over the spread claims. */
  function WithTokens(claims: map<string, Json>, accessToken: Json, idToken: Json): User {
    claims["accessToken" := accessToken]["idToken" := idToken]["isAuthenticated" := JBool(true)]
  }

  /** The three `setItem` calls of a successful exchange. */
  function Persist(items: map<string, string>, s: Session, e: Engine): (stored: map<string, string>)
    ensures stored.Keys == items.Keys + AUTH_KEYS
    ensures stored[ACCESS_TOKEN_KEY] == Display(s.accessToken) && stored[ID_TOKEN_KEY] == Display(s.idToken)
    ensures stored[USER_INFO_KEY] == e.stringify(s.claims)
    ensures forall k :: k in items && k !in AUTH_KEYS ==> stored[k] == items[k]
  {
    items[ACCESS_TOKEN_KEY := Display(s.accessToken)][ID_TOKEN_KEY := Display(s.idToken)][USER_INFO_KEY := e.stringify(s.claims)]
  }

  /** What `checkAuthStatus` finds in the store. */
  datatype Restored = Restored(user: User) | NoSession | Corrupt

  function Lookup(items: map<string, string>, key: string): Option<string> {
    if key in items then Some(items[key]) else None
  }

  /** A user is restored only when all three keys hold non-empty values and the
      stored claims parse; unparsable claims make the store corrupt. */
  function Restore(items: map<string, string>, e: Engine): (r: Restored)
    ensures r.Restored? || r.Corrupt? <==>
      Filled(Lookup(items, ACCESS_TOKEN_KEY)) && Filled(Lookup(items, ID_TOKEN_KEY)) && Filled(Lookup(items, USER_INFO_KEY))
    ensures r.Corrupt? <==> r != NoSession && e.parse(items[USER_INFO_KEY]).Failure?
    ensures r.Restored? ==> IsAuthenticated(Some(r.user))
  {
    var accessToken := Lookup(items, ACCESS_TOKEN_KEY);
    var idToken := Lookup(items, ID_TOKEN_KEY);
    var userInfo := Lookup(items, USER_INFO_KEY);
    if Filled(accessToken) && Filled(idToken) && Filled(userInfo) then
      match e.parse(userInfo.value)
      case Failure(_) => Corrupt
      case Success(userData) =>
        Restored(WithTokens(SpreadEntries(userData), JStr(accessToken.value), JStr(idToken.value)))
    else NoSession
  }

  /** Reloading after a successful exchange restores the same user, when the tokens
      are non-empty strings and JSON.parse inverts JSON.stringify. */
  lemma PersistThenRestore(items: map<string, string>, s: Session, e: Engine)
    requires FaithfulJson(e)
    requires s.accessToken.JStr? && s.accessToken.s != "" && s.idToken.JStr? && s.idToken.s != ""
    ensures Restore(Persist(items, s, e), e) == Restored(SessionUser(s))
  {
    var stored := Persist(items, s, e);
    assert Lookup(stored, ACCESS_TOKEN_KEY) == Some(s.accessToken.s);
    assert Lookup(stored, ID_TOKEN_KEY) == Some(s.idToken.s);
    assert e.parse(stored[USER_INFO_KEY]) == Success(s.claims);
  }

  /** How the three `setItem` calls after a successful exchange go: all succeed, or
      the first `written` succeed and the next one throws `message` (a full or
      disabled store). */
  datatype StorageWrites = AllWritten | ThrowsAfter(written: WriteCount, message: string) {
    function Count(): nat {
      if AllWritten? then 3 else written
    }
  }

  type WriteCount = n: nat | n < 3

  /** The store after the first `n` of the three `setItem` calls. */
  function PersistFirst(items: map<string, string>, s: Session, e: Engine, n: nat): (stored: map<string, string>)
    ensures n >= 3 ==> stored == Persist(items, s, e)
    ensures items.Keys <= stored.Keys <= items.Keys + AUTH_KEYS
    ensures forall k :: k in items && k !in AUTH_KEYS ==> stored[k] == items[k]
    ensures n >= 1 ==> Lookup(stored, ACCESS_TOKEN_KEY) == Some(Display(s.accessToken))
    ensures n < 1 ==> Lookup(stored, ACCESS_TOKEN_KEY) == Lookup(items, ACCESS_TOKEN_KEY)
    ensures n >= 2 ==> Lookup(stored, ID_TOKEN_KEY) == Some(Display(s.idToken))
    ensures n < 2 ==> Lookup(stored, ID_TOKEN_KEY) == Lookup(items, ID_TOKEN_KEY)
    ensures n < 3 ==> Lookup(stored, USER_INFO_KEY) == Lookup(items, USER_INFO_KEY)
  {
    if n == 0 then items
    else if n == 1 then items[ACCESS_TOKEN_KEY := Display(s.accessToken)]
    else if n == 2 then items[ACCESS_TOKEN_KEY := Display(s.accessToken)][ID_TOKEN_KEY := Display(s.idToken)]
    else Persist(items, s, e)
  }

  /** A store that held no session still holds none after an interrupted write. */
  lemma InterruptedFirstLogin(items: map<string, string>, s: Session, e: Engine, n: nat)
    requires n < 3 && USER_INFO_KEY !in items
    ensures Restore(PersistFirst(items, s, e, n), e) == NoSession
  {
    assert Lookup(PersistFirst(items, s, e, n), USER_INFO_KEY) == None;
  }

  /** When the third write fails over an earlier session, the next `checkAuthStatus`
      restores a user with the new tokens and the earlier session's claims. */
  lemma StaleClaimsAfterInterruptedWrite(items: map<string, string>, s: Session, e: Engine, claims: Json)
    requires Display(s.accessToken) != "" && Display(s.idToken) != ""
    requires USER_INFO_KEY in items && items[USER_INFO_KEY] != "" && e.parse(items[USER_INFO_KEY]) == Success(claims)
    ensures Restore(PersistFirst(items, s, e, 2), e) ==
      Restored(WithTokens(SpreadEntries(claims), JStr(Display(s.accessToken)), JStr(Display(s.idToken))))
  {
    var stored := PersistFirst(items, s, e, 2);
    assert Lookup(stored, USER_INFO_KEY) == Some(items[USER_INFO_KEY]);
  }

  /** The outcome `handleCallback` settles with: the exchange's, unless a write of a
      successful session throws. */
  function Finish(outcome: Result<Session, string>, writes: StorageWrites): Result<Session, string> {
    if outcome.Success? && writes.ThrowsAfter? then Failure(writes.message) else outcome
  }

  /** The store after `handleCallback`: only a successful exchange writes to it. */
  function StoredAfter(items: map<string, string>, outcome: Result<Session, string>, writes: StorageWrites, e: Engine)
    : map<string, string>
  {
    if outcome.Success? then PersistFirst(items, outcome.value, e, writes.Count()) else items
  }

  /** Where the provider sends the browser. */
  datatype Location = Home | ProviderLogout | Authorize(state: string)

  function Href(l: Location): string {
    match l
    case Home => "/"
    case ProviderLogout => LOGOUT_URL
    case Authorize(state) => AuthUrl(state)
  }

  /** The value of `result.settled` when `handleCallback` returns. */
  datatype Settled = Resolved | Rejected(message: string)

  // ---------------------------------------------------------------------------
  // The provider

  class Provider {
    var user: Option<User>
    var isLoading: bool
    var error: Option<string>
    var processedCodes: set<string>
    const storage: Storage
    const engine: Engine
    /** Every request sent so far, in order. */
    ghost var requests: seq<Request>
    /** Every place the provider sent the browser to, in order. */
    ghost var navigations: seq<Location>

    /** No code is sent to the token endpoint twice, and each one sent is recorded as processed. */
    ghost predicate Valid()
      reads this
    {
      CodesOnce(requests, processedCodes)
    }

    /** The provider as mounted: no user yet, loading, no error, no codes seen. */
    constructor (storage: Storage, engine: Engine)
      ensures this.storage == storage && this.engine == engine
      ensures user == None && isLoading && error == None && processedCodes == {}
      ensures requests == [] && navigations == []
      ensures Valid()
    {
      this.storage := storage;
      this.engine := engine;
      user := None;
      isLoading := true;
      error := None;
      processedCodes := {};
      requests := [];
      navigations := [];
    }

    /** `getAccessToken`: the user's token when truthy, else the stored one. */
    function GetAccessToken(): (token: Option<Json>)
      reads this, storage
      ensures user.Some? && "accessToken" in user.value && Truthy(user.value["accessToken"]) ==>
        token == Some(user.value["accessToken"])
      ensures !(user.Some? && "accessToken" in user.value && Truthy(user.value["accessToken"])) ==>
        (token.Some? <==> ACCESS_TOKEN_KEY in storage.items) &&
        (token.Some? ==> token.value == JStr(storage.items[ACCESS_TOKEN_KEY]))
    {
      if user.Some? && "accessToken" in user.value && Truthy(user.value["accessToken"]) then
        Some(user.value["accessToken"])
      else match storage.GetItem(ACCESS_TOKEN_KEY)
        case Some(t) => Some(JStr(t))
        case None => None
    }

    /** The value handed to context consumers. */
    function Context(): (c: AuthContextValue)
      reads this, storage
      ensures c.user == user && c.isLoading == isLoading && c.error == error && c.accessToken == GetAccessToken()
    {
      AuthContextValue(user, isLoading, error, GetAccessToken())
    }

    /** `checkAuthStatus`, run once on mount. `readFails` says whether reading the
        store throws, in which case the `catch` block reports it and clears the user. */
    method CheckAuthStatus(readFails: bool)
      modifies this, storage
      ensures !isLoading
      ensures processedCodes == old(processedCodes) && requests == old(requests) && navigations == old(navigations)
      ensures readFails ==> error == Some(STATUS_CHECK_FAILED) && user == None && storage.items == old(storage.items)
      ensures !readFails ==> error == None
      ensures !readFails ==> var r := Restore(old(storage.items), engine);
        (r.Restored? ==> user == Some(r.user) && storage.items == old(storage.items)) &&
        (r.NoSession? ==> user == None && storage.items == old(storage.items)) &&
        (r.Corrupt? ==> user == old(user) && storage.items == old(storage.items) - AUTH_KEYS)
    {
      isLoading := true;
      error := None;
      if readFails {
        error := Some(STATUS_CHECK_FAILED);
        user := None;
        isLoading := false;
        return;
      }
      var accessToken := storage.GetItem(ACCESS_TOKEN_KEY);
      var idToken := storage.GetItem(ID_TOKEN_KEY);
      var userInfo := storage.GetItem(USER_INFO_KEY);
      if Filled(accessToken) && Filled(idToken) && Filled(userInfo) {
        var userData := engine.parse(userInfo.value);
        if userData.Success? {
          user := Some(WithTokens(SpreadEntries(userData.value), JStr(accessToken.value), JStr(idToken.value)));
        } else {
          ClearAuthData(storage);
        }
      } else {
        user := None;
      }
      isLoading := false;
    }

    /** `login`: sends the browser to the authorization URL built with `state`. */
    method Login(state: string)
      modifies this
      ensures navigations == old(navigations) + [Authorize(state)]
      ensures user == old(user) && isLoading == old(isLoading) && error == old(error)
      ensures processedCodes == old(processedCodes) && requests == old(requests)
    {
      navigations := navigations + [Authorize(state)];
    }

    /** `logout`. `redirectFails` says whether assigning the logout URL throws, in which
        case the catch block clears again and sends the browser to `/`. */
    method Logout(redirectFails: bool)
      modifies this, storage
      ensures storage.items == old(storage.items) - AUTH_KEYS
      ensures user == None && error == old(error)
      ensures !redirectFails ==> isLoading && navigations == old(navigations) + [ProviderLogout]
      ensures redirectFails ==> !isLoading && navigations == old(navigations) + [Home]
      ensures processedCodes == old(processedCodes) && requests == old(requests)
    {
      isLoading := true;
      ClearAuthData(storage);
      user := None;
      if !redirectFails {
        navigations := navigations + [ProviderLogout];
      } else {
        ClearAuthData(storage);
        user := None;
        navigations := navigations + [Home];
        isLoading := false;
      }
    }

    /** The body of the `try` in `handleCallback`, up to the point where the session is
        known: each `throw` ends it with the message of the thrown error. It runs only
        for a code already marked as processed, so no request leaves for an unmarked code. */
    method RunExchange(code: string, tokenCall: Http.Outcome, userInfoCall: Http.Outcome)
      returns (session: Result<Session, string>)
      requires code in processedCodes
      modifies this
      ensures var x := Exchange(code, tokenCall, userInfoCall, engine);
        requests == old(requests) + x.sent && session == x.outcome
      ensures user == old(user) && isLoading == old(isLoading) && error == old(error)
      ensures processedCodes == old(processedCodes) && navigations == old(navigations)
    {
      requests := requests + [TokenRequest(code)];
      var tokenResponse := Http.FetchWithTimeout(TOKEN_ENDPOINT, tokenCall);
      if tokenResponse.Failure? {
        return Failure(tokenResponse.error);
      }
      var response := tokenResponse.value;
      if !response.ok {
        return Failure(FailureMessage(LOGIN_FAILED, response, engine));
      }
      var tokenData := SafeJsonParse(response, engine);
      if tokenData.Failure? {
        return Failure(tokenData.error);
      }
      if tokenData.value.JNull? {
        return Failure(engine.nullAccess("access_token"));
      }
      var accessToken := Member(tokenData.value, "access_token");
      var idToken := Member(tokenData.value, "id_token");
      if !Present(accessToken) || !Present(idToken) {
        return Failure(MISSING_TOKENS);
      }
      requests := requests + [UserInfoRequest("Bearer " + Display(accessToken.value))];
      var userInfoResponse := Http.FetchWithTimeout(USERINFO_ENDPOINT, userInfoCall);
      if userInfoResponse.Failure? {
        return Failure(userInfoResponse.error);
      }
      if !userInfoResponse.value.ok {
        return Failure(FailureMessage(USERINFO_FAILED, userInfoResponse.value, engine));
      }
      var userInfo := DecodeUserInfo(userInfoResponse.value, engine);
      if userInfo.Failure? {
        return Failure(userInfo.error);
      }
      session := Success(Session(accessToken.value, idToken.value, userInfo.value));
    }

    /** The three `setItem` calls after a successful exchange, up to the one that
        throws: `thrown` is its message. */
    method StoreSession(s: Session, writes: StorageWrites) returns (thrown: Option<string>)
      modifies storage
      ensures storage.items == PersistFirst(old(storage.items), s, engine, writes.Count())
      ensures writes.AllWritten? <==> thrown.None?
      ensures writes.ThrowsAfter? ==> thrown == Some(writes.message)
    {
      if writes.ThrowsAfter? && writes.written == 0 {
        return Some(writes.message);
      }
      storage.SetItem(ACCESS_TOKEN_KEY, Display(s.accessToken));
      if writes.ThrowsAfter? && writes.written == 1 {
        return Some(writes.message);
      }
      storage.SetItem(ID_TOKEN_KEY, Display(s.idToken));
      if writes.ThrowsAfter? {
        return Some(writes.message);
      }
      storage.SetItem(USER_INFO_KEY, engine.stringify(s.claims));
      thrown := None;
    }

    /** The end of `handleCallback` once the exchange is over: on success the three
        `setItem` calls, the user and the way home; on failure, or when a write throws
        (the `catch`), the error and no user, with whatever was written left in the
        store; in both cases (the `finally`) loading ends. */
    method Settle(session: Result<Session, string>, writes: StorageWrites) returns (settled: Settled)
      modifies this, storage
      ensures !isLoading && processedCodes == old(processedCodes) && requests == old(requests)
      ensures storage.items == StoredAfter(old(storage.items), session, writes, engine)
      ensures var f := Finish(session, writes);
        (f.Success? ==>
          settled == Resolved && user == Some(SessionUser(f.value)) && error == old(error) &&
          navigations == old(navigations) + [Home]) &&
        (f.Failure? ==>
          settled == Rejected(f.error) && user == None &&
          error == Some(OrElse(Some(f.error), DEFAULT_ERROR)) && navigations == old(navigations))
    {
      var failure := if session.Failure? then Some(session.error) else None;
      if session.Success? {
        var s := session.value;
        failure := StoreSession(s, writes);
        if failure.None? {
          user := Some(SessionUser(s));
          navigations := navigations + [Home];
          settled := Resolved;
        }
      }
      if failure.Some? {
        error := Some(OrElse(failure, DEFAULT_ERROR));
        user := None;
        settled := Rejected(failure.value);
      }
      isLoading := false;
    }

    /** `handleCallback`: a code already seen only navigates home; a fresh code is
        exchanged. */
    method HandleCallback(code: string, tokenCall: Http.Outcome, userInfoCall: Http.Outcome, writes: StorageWrites)
      returns (settled: Settled)
      requires Valid()
      modifies this, storage
      ensures Valid()
      ensures code in old(processedCodes) ==>
        settled == Resolved && navigations == old(navigations) + [Home] &&
        user == old(user) && isLoading == old(isLoading) && error == old(error) &&
        processedCodes == old(processedCodes) && requests == old(requests) && storage.items == old(storage.items)
      ensures code !in old(processedCodes) ==>
        var x := Exchange(code, tokenCall, userInfoCall, engine);
        var f := Finish(x.outcome, writes);
        processedCodes == old(processedCodes) + {code} && requests == old(requests) + x.sent && !isLoading &&
        storage.items == StoredAfter(old(storage.items), x.outcome, writes, engine) &&
        (f.Success? ==>
          settled == Resolved && user == Some(SessionUser(f.value)) && error == None &&
          navigations == old(navigations) + [Home]) &&
        (f.Failure? ==>
          settled == Rejected(f.error) && user == None &&
          error == Some(OrElse(Some(f.error), DEFAULT_ERROR)) && navigations == old(navigations))
    {
      if code in processedCodes {
        navigations := navigations + [Home];
        return Resolved;
      }
      settled := HandleFreshCode(code, tokenCall, userInfoCall, writes);
    }

    /** The part of `handleCallback` after the duplicate check: the code is marked as
        processed before anything is sent, then exchanged. Success writes the three
        keys and sets the user; a failed exchange writes nothing; a failure either way
        clears the user, records the error and re-throws. */
    method HandleFreshCode(code: string, tokenCall: Http.Outcome, userInfoCall: Http.Outcome, writes: StorageWrites)
      returns (settled: Settled)
      requires Valid() && code !in processedCodes
      modifies this, storage
      ensures Valid()
      ensures var x := Exchange(code, tokenCall, userInfoCall, engine);
        var f := Finish(x.outcome, writes);
        processedCodes == old(processedCodes) + {code} && requests == old(requests) + x.sent && !isLoading &&
        storage.items == StoredAfter(old(storage.items), x.outcome, writes, engine) &&
        (f.Success? ==>
          settled == Resolved && user == Some(SessionUser(f.value)) && error == None &&
          navigations == old(navigations) + [Home]) &&
        (f.Failure? ==>
          settled == Rejected(f.error) && user == None &&
          error == Some(OrElse(Some(f.error), DEFAULT_ERROR)) && navigations == old(navigations))
    {
      ghost var before, processed := requests, processedCodes;
      processedCodes := processedCodes + {code};
      isLoading := true;
      error := None;
      ghost var x := Exchange(code, tokenCall, userInfoCall, engine);
      var session := RunExchange(code, tokenCall, userInfoCall);
      ExchangeKeepsValid(before, processed, x.sent, code);
      settled := Settle(session, writes);
    }
  }

  /** Every code sent to the token endpoint is among `processed`, and none is sent twice. */
  ghost predicate CodesOnce(requests: seq<Request>, processed: set<string>) {
    (forall i :: 0 <= i < |requests| && requests[i].TokenRequest? ==> requests[i].code in processed) &&
    (forall i, j :: 0 <= i < j < |requests| && requests[i].TokenRequest? && requests[j].TokenRequest? ==>
      requests[i].code != requests[j].code)
  }

  /** Appending the requests of one exchange of a fresh code, and marking that code
      processed, keeps every code sent once. */
  lemma ExchangeKeepsValid(before: seq<Request>, processed: set<string>, sent: seq<Request>, code: string)
    requires CodesOnce(before, processed) && code !in processed
    requires 1 <= |sent| <= 2 && sent[0] == TokenRequest(code)
    requires |sent| == 2 ==> sent[1].UserInfoRequest?
    ensures CodesOnce(before + sent, processed + {code})
  {
    var all := before + sent;
    forall i | 0 <= i < |all| && all[i].TokenRequest? ensures all[i].code in processed + {code} {
      if i < |before| {
        assert all[i] == before[i];
      }
    }
    forall i, j | 0 <= i < j < |all| && all[i].TokenRequest? && all[j].TokenRequest?
      ensures all[i].code != all[j].code
    {
      if j < |before| {
        assert all[i] == before[i] && all[j] == before[j];
      } else {
        assert j == |before| && all[j] == TokenRequest(code);
        assert all[i] == before[i];
      }
    }
  }

  /** After a successful exchange the user is authenticated and `getAccessToken` serves the new token. */
  lemma SessionUserAuthenticated(s: Session)
    requires Truthy(s.accessToken)
    ensures IsAuthenticated(Some(SessionUser(s)))
    ensures var u := SessionUser(s); "accessToken" in u && Truthy(u["accessToken"]) && u["accessToken"] == s.accessToken
  {
  }

  /** The callback effect delivering the same code twice: the second delivery sends
      nothing, whatever the network would have answered. */
  method DeliverTwice(p: Provider, code: string, tokenCall: Http.Outcome, userInfoCall: Http.Outcome,
                      tokenCall': Http.Outcome, userInfoCall': Http.Outcome,
                      writes: StorageWrites, writes': StorageWrites)
    returns (first: Settled, second: Settled)
    requires p.Valid() && code !in p.processedCodes
    modifies p, p.storage
    ensures p.Valid() && second == Resolved && code in p.processedCodes
    ensures p.requests == old(p.requests) + Exchange(code, tokenCall, userInfoCall, p.engine).sent
  {
    first := p.HandleCallback(code, tokenCall, userInfoCall, writes);
    second := p.HandleCallback(code, tokenCall', userInfoCall', writes');
  }
}
