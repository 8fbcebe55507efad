/** The `/oauth/callback` page: reads the query string the identity provider
    redirected back with and either shows an error or hands the code to the
    auth provider's `handleCallback`. */
module OAuthCallback {
  import opened Js
  import opened Text
  import Http
  import opened AuthProvider

  const PROVIDER_REPORTED := "Authentifizierung fehlgeschlagen"
  const NO_CODE := "Kein Autorisierungscode erhalten"
  const UNKNOWN_LOGIN_ERROR := "Unbekannter Fehler bei der Anmeldung"

  /** `searchParams.get(name)`: the value, or null when the parameter is absent. */
  function Param(query: map<string, string>, name: string): (r: Option<string>)
    ensures r.Some? <==> name in query
    ensures r.Some? ==> r.value == query[name]
  {
    if name in query then Some(query[name]) else None
  }

  /** The component's state: the error shown, whether the spinner is shown, and
      (ghost) every code it passed to `handleCallback`. */
  class CallbackView {
    var error: Option<string>
    var isProcessing: bool
    ghost var delivered: seq<string>

    /** The state on mount: no error, processing. */
    constructor ()
      ensures error == None && isProcessing && delivered == []
    {
      error := None;
      isProcessing := true;
      delivered := [];
    }

    /** `processCallback`: an `error` parameter wins over `code`; without a code
        nothing is sent; otherwise the code is handed to `handleCallback` and a
        rejection is shown. Only error paths stop the spinner. */
    method ProcessCallback(query: map<string, string>, provider: Provider,
                           tokenCall: Http.Outcome, userInfoCall: Http.Outcome, writes: StorageWrites)
      requires provider.Valid()
      modifies this, provider, provider.storage
      ensures provider.Valid()
      ensures Filled(Param(query, "error")) ==>
        error == Some(OrElse(Param(query, "error_description"), PROVIDER_REPORTED)) && !isProcessing &&
        delivered == old(delivered) && unchanged(provider, provider.storage)
      ensures !Filled(Param(query, "error")) && !Filled(Param(query, "code")) ==>
        error == Some(NO_CODE) && !isProcessing &&
        delivered == old(delivered) && unchanged(provider, provider.storage)
      ensures !Filled(Param(query, "error")) && Filled(Param(query, "code")) ==>
        var code := query["code"];
        var x := Exchange(code, tokenCall, userInfoCall, provider.engine);
        var f := Finish(x.outcome, writes);
        delivered == old(delivered) + [code] &&
        (code in old(provider.processedCodes) ==>
          provider.requests == old(provider.requests) &&
          error == old(error) && isProcessing == old(isProcessing)) &&
        (code !in old(provider.processedCodes) ==>
          provider.requests == old(provider.requests) + x.sent &&
          (f.Success? ==> error == old(error) && isProcessing == old(isProcessing)) &&
          (f.Failure? ==>
            error == Some(OrElse(Some(f.error), UNKNOWN_LOGIN_ERROR)) && !isProcessing))
    {
      var code := Param(query, "code");
      var reported := Param(query, "error");
      var description := Param(query, "error_description");
      if Filled(reported) {
        error := Some(OrElse(description, PROVIDER_REPORTED));
        isProcessing := false;
        return;
      }
      if !Filled(code) {
        error := Some(NO_CODE);
        isProcessing := false;
        return;
      }
      delivered := delivered + [code.value];
      var settled := provider.HandleCallback(code.value, tokenCall, userInfoCall, writes);
      if settled.Rejected? {
        error := Some(OrElse(Some(settled.message), UNKNOWN_LOGIN_ERROR));
        isProcessing := false;
      }
    }
  }

  /** Mounting the page runs `processCallback` once: afterwards the spinner is
      shown exactly when no error is, and at most one code was delivered, the
      query's own. */
  method Mount(query: map<string, string>, provider: Provider,
               tokenCall: Http.Outcome, userInfoCall: Http.Outcome, writes: StorageWrites) returns (view: CallbackView)
    requires provider.Valid()
    modifies provider, provider.storage
    ensures fresh(view) && provider.Valid()
    ensures view.isProcessing <==> view.error.None?
    ensures |view.delivered| <= 1
    ensures view.delivered != [] ==> "code" in query && view.delivered == [query["code"]]
  {
    view := new CallbackView();
    view.ProcessCallback(query, provider, tokenCall, userInfoCall, writes);
  }
}
