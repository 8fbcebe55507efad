# coderocket-crm, modelled in Dafny

This project models the core of coderocket-crm, a React CRM front end.

The primary core is the browser-side OpenID Connect session (Authorization Code flow) against an Authelia identity provider:

- the `AuthProvider` state (`user`, `isLoading`, `error`, the set of processed authorization codes and the three localStorage keys);
- restoring a session from localStorage;
- the code exchange, including its error-message ladder and the decoding of the user-info response;
- logout;
- the authorization URL;
- the `fetchWithAuth` header merge;
- the OAuth callback view;
- the route guard.

The secondary cores are the data rules inside the data and view layer:

- the classification of API responses and the normalisation of customers from their first `contactFor` company;
- the customer list with its PM2 record and its search;
- the order and customer dashboards, including filter, sort and sort state;
- the display-name chains of the customer card and the details dialog;
- the contact-detail loading records;
- the header initials;
- the customer and order statistics.

Each source file becomes one module:

| module | source file |
|---|---|
| `Auth` | `src/lib/auth.ts` |
| `AuthProvider` | `src/lib/authprovider.tsx` |
| `OAuthCallback` | `src/components/OAuthCallback.tsx` |
| `App` | `src/App.tsx` |
| `Api` | `src/lib/api.ts` |
| `CustomerList` | `src/components/CustomerList.tsx` |
| `OrderDashboard` | `src/components/OrderDashboard.tsx` |
| `CustomerDashboard` | `src/components/CustomerDashboard.tsx` |
| `CustomerCard` | `src/components/CustomerCard.tsx` |
| `CustomerDetails` | `src/components/CustomerDetailsDialog.tsx` |
| `Header` | `src/components/Header.tsx` |
| `CustomerStats` | `src/components/CustomerStats.tsx` |
| `OrderStats` | `src/components/OrderStats.tsx` |

Shared modules hold what several of them use:

- `Js`: JSON values, truthiness, property reads, `String(v)`, object spread, and the foreign built-ins as parameters.
- `Http`: the outcomes of `fetch`.
- `Text`: trim, ASCII case mapping, `includes`, `split`, `join`.
- `Seqs`: filter, count, and a stable sort.
- `Records`: the record shapes of `src/types`, and the dotted-path property lookup.
- `Names`: the name and communication helpers shared by the card and the dialog.
- `Dashboard`: the sort and view state shared by both dashboards.

State that the source changes in place becomes a class:

- the provider (`AuthProvider.Provider`);
- localStorage (`Auth.Storage`);
- the callback view;
- the customer list view;
- the dashboards' sort and view state;
- the dialog's contact loader.

Loops become methods proved against a specification function. Examples are the PM2 scan, the customer normalisation, `getCustomerProperty`, the city set, and the start of the contact loads. Everything else is functions and lemmas.

Network calls are inputs. Each is an `Http.Outcome`: a response arrived, the deadline passed, or another error occurred. A response carries its status, the result of `response.json()` and the result of `response.text()`.

A response body can be read only once. After `json()` has failed on a response with a body, the `text()` that `safeJsonParse` and the error ladder fall back on always rejects, so a failed token request ends in `"Anmeldung fehlgeschlagen: Unbekannter Fehler"` unless its JSON body names an error. The exception is a response with a null body status (101, 103, 204, 205 or 304 in the Fetch standard): its body is never marked as used, so the text fallback reads `""`. An OK 204 or 205 token response therefore decodes as `{}` and fails with the missing-token message, and a 304 ends in the bare `"Anmeldung fehlgeschlagen: "`.

## Model

| member | source | states |
|---|---|---|
| Auth.Storage.constructor | src/lib/auth.ts:69 | the store starts with the given items |
| Auth.Storage.GetItem | src/lib/auth.ts:69 | `getItem` yields the stored string exactly when the key is present, otherwise null |
| Auth.Storage.SetItem | src/lib/authprovider.tsx:237-239 | `setItem` writes that key and leaves all others as they were |
| Auth.Storage.RemoveItem | src/lib/auth.ts:100-102 | `removeItem` removes that key and nothing else |
| Auth.ClearAuthData | src/lib/auth.ts:99-103 | `accessToken`, `idToken` and `userInfo` are gone afterwards; every other key keeps its value |
| Auth.LocalLogout | src/lib/auth.ts:106-110 | the three session keys are removed, then the browser goes to `/` |
| Auth.ScopeIsSpaceJoined | src/lib/auth.ts:52 | the scope is `"openid profile groups email"` |
| Auth.FormEncodeSafe | src/lib/auth.ts:48-54 | URL-safe text passes through the form-urlencoded serializer unchanged |
| Auth.FormEncodeNoSeparators | src/lib/auth.ts:48-54 | a serialized name or value never contains `&` or `=` |
| Auth.Utf8RoundTrip | src/lib/auth.ts:48-54 | the UTF-8 bytes the serializer escapes decode back to the character |
| Auth.FormDecodeEncode | src/lib/auth.ts:48-54 | decoding a serialized name or value gives back exactly the original string |
| Auth.QueryFields | src/lib/auth.ts:48-56 | splitting the serialized query on `&` gives one `name=value` field per parameter, in order |
| Auth.ParseSerialized | src/lib/auth.ts:48-56 | parsing `URLSearchParams.toString()` recovers every parameter, in order |
| Auth.AuthUrlQuery | src/lib/auth.ts:47-57 | the URL is the authorize endpoint followed by a query that parses back to exactly `client_id`, `redirect_uri`, `response_type=code`, `scope`, `state`, in this order; `state` is the given value |
| Auth.FetchWithAuth | src/lib/auth.ts:66-96 | `Authorization: Bearer <token>` is added only when a token is stored, and it overrides the caller's `Authorization` entry; the caller's other entries are kept; any response, 401 and 403 included, is returned; a failure is re-thrown |
| Http.ReadJson | src/lib/authprovider.tsx:41 | `json()` yields the body's JSON, or the "body used" failure once a body was consumed; a null body always rejects and is never marked as used |
| Http.ReadText | src/lib/authprovider.tsx:45 | `text()` yields the body's text, or the "body used" failure once a body was consumed; a null body reads as `""` every time |
| Http.FetchWithTimeout | src/lib/authprovider.tsx:17-35 | an arrived response is returned; a passed deadline fails with a message naming the URL; any other error passes through |
| AuthProvider.SafeJsonParseOutcome | src/lib/authprovider.tsx:38-60 | a parsable JSON body is returned as is; a null body gives `{}` (its text is blank); otherwise the result is the failure `"Konnte Antwort nicht parsen: "` plus the body-used message |
| AuthProvider.FailureMessageShape | src/lib/authprovider.tsx:156-164 | the message is the prefix plus `error_description`, else `error`, else `"Unbekannter Fehler"`; for a null body it is the prefix alone |
| AuthProvider.UserInfoFromText | src/lib/authprovider.tsx:199-221 | every failure on the text path is `"Konnte Benutzerinformationen nicht parsen"` |
| AuthProvider.CheckClaims | src/lib/authprovider.tsx:224-234 | claims are accepted exactly when they are an object or array; an empty one is replaced by the placeholder; anything else fails with `"Ungültige Benutzerinformationen erhalten"` |
| AuthProvider.DecodeUserInfo | src/lib/authprovider.tsx:193-234 | decoded claims are a non-empty object or array; the only failures are the message of the text path and the message of the claims check |
| AuthProvider.EmptyClaimsGetPlaceholder | src/lib/authprovider.tsx:229-234 | a decoded `{}` becomes `{sub: 'unknown', name: 'Unbekannter Benutzer'}` |
| AuthProvider.EmptyBodyFails | src/lib/authprovider.tsx:216 | an empty body whose JSON read fails goes to `JSON.parse("")` and fails; it gets no placeholder |
| AuthProvider.CompactTokenClaims | src/lib/authprovider.tsx:204-213 | for text starting with `eyJ`, the claims are the JSON of the base64-decoded second dot-separated segment; failures become the text-path message |
| AuthProvider.OnlyLeadingTokenDecoded | src/lib/authprovider.tsx:204-217 | text that does not start with `eyJ` is parsed as JSON directly |
| AuthProvider.TokenBodyCarriesCode | src/lib/authprovider.tsx:137-141 | the token request body parses back to `grant_type=authorization_code`, the code and the redirect URI |
| AuthProvider.Exchange | src/lib/authprovider.tsx:132-234 | the token request is always sent first; the user-info request is sent only after it, at most once; a success carries truthy tokens and non-empty claims, and its user-info request carries `Bearer <access token>`; where the session comes from and the user-info failures are stated by the lemmas below |
| AuthProvider.MissingTokensStopExchange | src/lib/authprovider.tsx:169-173 | a token body without `access_token` or `id_token` fails with `"Ungültige Antwort vom Authentifizierungsserver: Fehlende Token"`; user-info is never requested |
| AuthProvider.TokenErrorStopsExchange | src/lib/authprovider.tsx:156-164 | a non-OK token response fails with the `"Anmeldung fehlgeschlagen: "` message; user-info is never requested |
| AuthProvider.TokenTimeoutNamesEndpoint | src/lib/authprovider.tsx:147-154 | a token request past its deadline fails with a message naming the token endpoint |
| AuthProvider.UserInfoErrorStopsExchange | src/lib/authprovider.tsx:176-190 | after a token response with both tokens, a non-OK user-info response fails with `"Benutzerinformationen konnten nicht abgerufen werden: "` followed by the message rule of `FailureMessageShape`; exactly the token request and one user-info request with `Bearer <access_token>` are sent |
| AuthProvider.UserInfoTimeoutNamesEndpoint | src/lib/authprovider.tsx:176-180 | a user-info request past its deadline fails with a message naming the user-info endpoint, after both requests were sent |
| AuthProvider.SuccessfulExchange | src/lib/authprovider.tsx:167-246 | with both tokens in the token response and decodable claims from an OK user-info response, the exchange succeeds with exactly that `access_token`, that `id_token` and those claims |
| AuthProvider.ExchangeSuccessSources | src/lib/authprovider.tsx:147-246 | every successful exchange had an OK token response whose decoded `access_token` and `id_token` are the session's, and an OK user-info response whose decoded claims are the session's |
| AuthProvider.NullBodyTokenResponse | src/lib/authprovider.tsx:156-173 | an OK 204 or 205 token response fails with the missing-token message; user-info is never requested |
| AuthProvider.NullBodyTokenError | src/lib/authprovider.tsx:156-164 | a non-OK token response without a body (304) fails with `"Anmeldung fehlgeschlagen: "` and nothing after it |
| AuthProvider.ExpiredCodeMessage | src/lib/authprovider.tsx:158-159 | an `invalid_grant` body with description "code expired" gives `"Anmeldung fehlgeschlagen: code expired"` |
| AuthProvider.SessionUser | src/lib/authprovider.tsx:241-246 | the user is the claims plus both tokens plus `isAuthenticated: true`; the token fields override same-named claims |
| AuthProvider.SessionUserAuthenticated | src/lib/authprovider.tsx:116-118 | the session user is authenticated and `getAccessToken` reads its access token |
| AuthProvider.Persist | src/lib/authprovider.tsx:237-239 | all three keys are written: the two tokens as strings and `userInfo` as the serialized claims; other keys are unchanged |
| AuthProvider.Restore | src/lib/authprovider.tsx:81-100 | a session is restored only when all three keys are non-empty and `userInfo` parses; then the user is authenticated |
| AuthProvider.PersistFirst | src/lib/authprovider.tsx:237-239 | after the first `n` writes, exactly the first `n` auth keys hold the new values and every other key is as before; all three writes give `Persist` |
| AuthProvider.InterruptedFirstLogin | src/lib/authprovider.tsx:76-239 | a store without `userInfo` whose writes stop before the third still restores no session |
| AuthProvider.StaleClaimsAfterInterruptedWrite | src/lib/authprovider.tsx:76-239 | when only the third write fails over an earlier session, the next status check restores the new tokens with the earlier claims |
| AuthProvider.PersistThenRestore | src/lib/authprovider.tsx:237-246 | restoring what a successful callback stored gives back the same user |
| AuthProvider.Provider.constructor | src/lib/authprovider.tsx:63-66 | the provider mounts with no user, loading, no error and no processed codes |
| AuthProvider.Provider.GetAccessToken | src/lib/authprovider.tsx:116-118 | the user's `accessToken` when it is truthy; otherwise (no user, or no truthy token) the stored `accessToken`, or null when none is stored |
| AuthProvider.Provider.Context | src/lib/authprovider.tsx:287-296 | the context carries user, isLoading, error and the current access token |
| AuthProvider.Provider.CheckAuthStatus | src/lib/authprovider.tsx:76-107 | restores the user from a complete store; clears the three keys and keeps the user on a corrupt `userInfo`; sets no user without a session; when reading the store throws, reports `"Authentifizierungsstatus konnte nicht geprüft werden"` with no user and an unchanged store; ends not loading, with no error unless the read threw |
| AuthProvider.Provider.Login | src/lib/authprovider.tsx:110-113 | navigates to the authorization URL for the given state and changes nothing else |
| AuthProvider.Provider.Logout | src/lib/authprovider.tsx:261-285 | on both paths, clears the three keys and nulls the user, leaving `error` untouched; the normal path goes to the provider's logout and stays loading; the error path goes to `/` and stops loading |
| AuthProvider.Provider.RunExchange | src/lib/authprovider.tsx:132-234 | runs only for a code already marked as processed; records exactly the exchange's requests and returns its outcome; user, error and loading are untouched |
| AuthProvider.Provider.StoreSession | src/lib/authprovider.tsx:237-239 | the writes before the one that throws take effect and the rest do not; the thrown message is returned; with no failure the store becomes `Persist` of the old store |
| AuthProvider.Provider.Settle | src/lib/authprovider.tsx:236-257 | on success with all writes done: stores the session, sets the user and goes to `/`; on a failed exchange: the store is not written; on a failed exchange or a throwing write: error is the message or `"Anmeldung fehlgeschlagen"`, user is null, the writes made so far stay, nothing navigates, and the failure is re-thrown; loading ends in every case |
| AuthProvider.Provider.HandleCallback | src/lib/authprovider.tsx:121-258 | an already processed code sends nothing, changes nothing and goes to `/`; a fresh code is added to the processed codes before its requests and is never removed; the call then settles as above, a throwing write included |
| AuthProvider.Provider.HandleFreshCode | src/lib/authprovider.tsx:129-258 | for a fresh code: adds it to the processed codes, sends the exchange's requests and settles, a throwing write included |
| AuthProvider.ExchangeKeepsValid | src/lib/authprovider.tsx:123-130 | every token request's code is processed, and no two token requests carry the same code |
| AuthProvider.DeliverTwice | src/lib/authprovider.tsx:123-130 | delivering the same code twice sends its token request only once; the second call resolves without a request |
| OAuthCallback.Param | src/components/OAuthCallback.tsx:20-22 | `searchParams.get` yields the parameter exactly when it is present |
| OAuthCallback.CallbackView.constructor | src/components/OAuthCallback.tsx:12-13 | the view starts processing with no error |
| OAuthCallback.CallbackView.ProcessCallback | src/components/OAuthCallback.tsx:18-53 | an `error` parameter wins and reports `error_description` or `"Authentifizierung fehlgeschlagen"` without calling `handleCallback`; a missing code reports `"Kein Autorisierungscode erhalten"`; otherwise the code is handed over once; a rejection (of the exchange or of a store write) reports its message or `"Unbekannter Fehler bei der Anmeldung"`; every error path stops processing and success keeps it |
| OAuthCallback.Mount | src/components/OAuthCallback.tsx:17-57 | one mount hands over at most one code, the query's own; the view is processing exactly when it has no error |
| App.Guard | src/App.tsx:63-82 | while loading, the loading view; otherwise the children exactly when the user is authenticated, else a redirect to `/login` |
| App.DropTrailingSlashes | src/App.tsx:88-94 | removes exactly the trailing slashes of a path |
| App.OnlyRootGuarded | src/App.tsx:85-97 | only `/` is guarded; `/login` and `/oauth/callback` render whatever the session; a path that is none of the three, up to letter case and trailing slashes, matches nothing |
| App.RoutesIgnoreCaseAndTrailingSlash | src/App.tsx:88-94 | an added trailing slash or a lower-cased path renders the same page |
| App.DefaultContextLoads | src/lib/auth.ts:33-41 | without a provider, the default context keeps the guard loading |
| App.SessionOpensApp | src/App.tsx:77-81 | a user built by a successful callback passes the guard |
| App.LoggedOutRedirects | src/App.tsx:77-79 | once loading has ended, `/` redirects every unauthenticated visitor (no user, or `isAuthenticated` missing or falsy) to `/login` |
| Api.SpreadList | src/lib/api.ts:144 | spreading an array gives the same items; spreading a string gives one one-character string per character; the length is kept |
| Api.FetchOrders | src/lib/api.ts:9-57 | `[]` on a failed request, a non-OK status, an unreadable, empty or blank body, or an unparsable body; otherwise the parsed value unchanged |
| Api.FetchCustomers | src/lib/api.ts:60-175 | a non-empty result comes only from an OK response whose non-blank body parses to an array that normalises; such an array gives exactly its normalised records |
| Api.CustomersNeedArray | src/lib/api.ts:161-164 | a parsed body that is not an array gives `[]` |
| Api.FetchContactDetails | src/lib/api.ts:178-239 | returns `data.data` exactly when the request succeeds, the body is not blank, it parses, and `data.success` and `data.data` are truthy; a non-OK status fails with `"API-Anfrage fehlgeschlagen mit Status <n>"`; a blank body fails with the empty-response message |
| Api.StatusMessageDistinct | src/lib/api.ts:203 | different statuses give different messages |
| Api.Rewrite | src/lib/api.ts:117-155 | a rewritten record always holds `communications` and `addresses` |
| Api.RewriteRecord | src/lib/api.ts:117-155 | the step-by-step rewrite of one record equals `Rewrite` |
| Api.AddressesStep | src/lib/api.ts:123-125 | the `let addresses` update equals `BackfillAddresses` |
| Api.CompanyNameStep | src/lib/api.ts:128-130 | the company-name update equals `BackfillCompanyName` |
| Api.FlagsStep | src/lib/api.ts:133-140 | the flag update equals `BackfillFlags` |
| Api.CommunicationsStep | src/lib/api.ts:143-147 | the communications update equals `BackfillCommunications` |
| Api.Normalised | src/lib/api.ts:109-158 | a normalised record is an object holding `communications` and `addresses` |
| Api.NormaliseCustomer | src/lib/api.ts:109-158 | the map callback equals `Normalised` |
| Api.NormaliseList | src/lib/api.ts:109-158 | normalisation keeps length and order, and succeeds exactly when every record normalises |
| Api.NameStepKeeps | src/lib/api.ts:128-130 | the company-name step changes no other field |
| Api.FlagStepKeeps | src/lib/api.ts:133-140 | the flag step changes no field but the two flags |
| Api.FlagStepRaises | src/lib/api.ts:133-140 | a flag is either unchanged or set to true, and only for a record with `isCustomer` and neither flag |
| Api.NameStepResult | src/lib/api.ts:128-130 | the company name is unchanged, or it was missing or blank and is now the primary's trimmed name |
| Api.RewriteKeepsOtherFields | src/lib/api.ts:111 | the rewrite copies every field except `companyName`, `isCompany`, `isPerson`, `communications` and `addresses` |
| Api.NormalisedKeepsOtherFields | src/lib/api.ts:111 | the same, for a whole customer |
| Api.RewriteFlags | src/lib/api.ts:133-140 | within the rewrite, flags are only ever raised to true, and only for an unflagged customer |
| Api.FlagsOnlyRaised | src/lib/api.ts:133-140 | the same, for a whole customer |
| Api.RewriteAddresses | src/lib/api.ts:117-125 | addresses are the record's own, or the primary's non-empty list when the record's own list is empty |
| Api.AddressesBackfilled | src/lib/api.ts:117-125 | the same, for a whole customer |
| Api.RewriteCommunications | src/lib/api.ts:143-147 | communications are the record's own, or a copy of the primary's non-empty list when the record's own list is empty |
| Api.CommunicationsBackfilled | src/lib/api.ts:143-147 | the same, for a whole customer |
| Api.RewriteCompanyName | src/lib/api.ts:128-130 | the company name is filled from the primary, trimmed, only when missing or blank |
| Api.CompanyNameBackfilled | src/lib/api.ts:128-130 | the same, for a whole customer |
| Api.NormalisedListsAreArrays | src/lib/api.ts:150-154 | with list-valued or missing inputs, both output fields are lists |
| Api.NormalisedWithoutContactFor | src/lib/api.ts:151-155 | without `contactFor`, only the two lists are set, each to its own value or `[]` |
| CustomerList.Pm2In | src/components/CustomerList.tsx:30-50 | a company of the `contactFor` list whose name contains "PM2 Veranstaltungstechnik" and which has an id; none exactly when the list holds no such company |
| CustomerList.FirstPm2 | src/components/CustomerList.tsx:28-52 | the PM2 company is taken from some customer's `contactFor`; there is none exactly when no customer has one |
| CustomerList.FirstPm2PicksEarliest | src/components/CustomerList.tsx:35 | the earliest customer with a PM2 company decides; later matches are ignored |
| CustomerList.FromCompany | src/components/CustomerList.tsx:36-47 | the record has the company's id, name and customer id, `isCompany` and `isCustomer` true, `isPerson` false, and contact number `"KO-0282"` when the company has none |
| CustomerList.FindPm2 | src/components/CustomerList.tsx:24-52 | the nested scan yields the record built from the earliest PM2 company |
| CustomerList.ValidCustomers | src/components/CustomerList.tsx:55-69 | at most one contact more than were loaded |
| CustomerList.ValidCustomersShown | src/components/CustomerList.tsx:55-64 | every listed contact is a company or person customer or a PM2 company; each is loaded or is the PM2 record |
| CustomerList.ValidCustomersKeepsOrder | src/components/CustomerList.tsx:55-69 | the list starts with exactly the shown contacts in loaded order; a loaded contact is listed exactly when the rule shows it |
| CustomerList.Pm2AlwaysListed | src/components/CustomerList.tsx:67-69 | with a PM2 record, some listed contact has its id; the record is appended exactly when no shown contact has that id |
| CustomerList.NoPm2NoExtra | src/components/CustomerList.tsx:67-69 | without a PM2 company the list is exactly the shown contacts |
| CustomerList.Searched | src/components/CustomerList.tsx:88-134 | the search never lengthens the list |
| CustomerList.SearchedExactly | src/components/CustomerList.tsx:89-131 | a blank term shows every customer; otherwise the result is an order-preserving sub-list holding exactly the customers whose company name, trimmed full name, contact number, customer id, any address field or any communication value contains the lower-cased term |
| CustomerList.NarrowingSearch | src/components/CustomerList.tsx:94-131 | typing more characters keeps an order-preserving sub-list of the previous result |
| CustomerList.NarrowMatch | src/components/CustomerList.tsx:94-131 | a customer that matches a longer term matches its prefix |
| CustomerList.CustomerListView.constructor | src/components/CustomerList.tsx:11-14 | no customers, empty search, loading, no error, and the shown list agrees with the search |
| CustomerList.CustomerListView.Load | src/components/CustomerList.tsx:18-81 | the customers become the valid customers, the shown list is the current search applied to them, and loading ends with no error |
| CustomerList.CustomerListView.SetSearchTerm | src/components/CustomerList.tsx:88-138 | the term is stored, the shown list is the search over the unchanged customers |
| CustomerList.CustomerListView.ClearSearch | src/components/CustomerList.tsx:140-142 | the whole list is shown again |
| Dashboard.Flip | src/components/OrderDashboard.tsx:126 | the direction always changes |
| Dashboard.Other | src/components/OrderDashboard.tsx:141-143 | the view mode always changes |
| Dashboard.ToggleTwice | src/components/OrderDashboard.tsx:141-143 | two toggles restore the view mode |
| Dashboard.NextSort | src/components/OrderDashboard.tsx:124-131 | the key becomes the chosen one; the same key flips the direction and a new key starts ascending |
| Dashboard.SameKeyTwice | src/components/OrderDashboard.tsx:124-131 | choosing the same key twice restores the state |
| Dashboard.NewKeyThenAgain | src/components/OrderDashboard.tsx:124-131 | a new key chosen twice ends descending |
| Dashboard.ViewState.constructor | src/components/OrderDashboard.tsx:23-26 | the given key and direction, shown as cards |
| Dashboard.ViewState.HandleSortChange | src/components/OrderDashboard.tsx:124-131 | the state follows `NextSort`; the view mode is kept |
| Dashboard.ViewState.ToggleViewMode | src/components/OrderDashboard.tsx:141-143 | the view mode switches and the sort is kept |
| Dashboard.NumericSortOrders | src/components/OrderDashboard.tsx:88-92 | a numeric-key sort is ordered by key, ascending or descending as chosen |
| Dashboard.AsList | src/components/OrderDashboard.tsx:49 | an array is kept; any other value is wrapped into a one-element list |
| OrderDashboard.NewViewState | src/components/OrderDashboard.tsx:23-26 | the dashboard mounts sorted by date, descending, as cards |
| OrderDashboard.LoadedOrders | src/components/OrderDashboard.tsx:42-62 | a failed or non-OK fetch shows no orders; a non-array result is shown as one order |
| OrderDashboard.FailureShowsNoOrders | src/components/OrderDashboard.tsx:42-62 | a failed request, a non-OK status or an unreadable body shows no orders |
| OrderDashboard.FilteredOrders | src/components/OrderDashboard.tsx:68-85 | filtering never lengthens the list |
| OrderDashboard.FilteredOrdersExactly | src/components/OrderDashboard.tsx:68-85 | an order-preserving sub-list holding exactly the orders whose status matches (`all` matches any) and that match the search; with a status filter, every shown order has that status |
| OrderDashboard.AllWithoutSearchShowsEverything | src/components/OrderDashboard.tsx:70-73 | filter `all` with an empty search shows every order |
| OrderDashboard.SearchIgnoresCase | src/components/OrderDashboard.tsx:75 | searching for a term and for its lower-cased form select the same orders |
| OrderDashboard.NarrowingSearch | src/components/OrderDashboard.tsx:73-84 | typing more characters keeps an order-preserving sub-list |
| OrderDashboard.SortedOrders | src/components/OrderDashboard.tsx:87-122 | sorting keeps the length |
| OrderDashboard.SortedOrdersPermute | src/components/OrderDashboard.tsx:87 | the sorted list is a permutation of the filtered list |
| OrderDashboard.DescendingSwaps | src/components/OrderDashboard.tsx:87-122 | for every column, descending compares the pair the other way round |
| OrderDashboard.DateSortOrders | src/components/OrderDashboard.tsx:88-92 | by date the result is ordered by start time, with a missing start date counting as 0 |
| OrderDashboard.PriceSortOrders | src/components/OrderDashboard.tsx:114-120 | by price the result is ordered by price, with a missing price counting as 0 |
| OrderDashboard.UnknownColumnKeepsOrder | src/components/OrderDashboard.tsx:121 | an unknown column keeps the filtered order |
| OrderDashboard.EditOrder | src/components/OrderDashboard.tsx:146-157 | the edit URL, ending in the id, opens exactly when the order has an id; otherwise the error toast `"Keine Auftrags-ID gefunden"` |
| OrderDashboard.EditTargetsDistinct | src/components/OrderDashboard.tsx:149 | different ids open different URLs |
| CustomerDashboard.NewViewState | src/components/CustomerDashboard.tsx:19-22 | the dashboard mounts sorted by name, ascending, as cards |
| CustomerDashboard.LoadedCustomers | src/components/CustomerDashboard.tsx:38-58 | the list is what `fetchCustomers` delivers; a failed request shows none |
| CustomerDashboard.AddressField | src/components/CustomerDashboard.tsx:76-78 | a missing address gives `""`; an object address gives its field's text |
| CustomerDashboard.NonObjectAddressIsEmpty | src/components/CustomerDashboard.tsx:76-78 | an address that is not an object has no city or zip code |
| CustomerDashboard.SearchFields | src/components/CustomerDashboard.tsx:70-88 | six texts are searched |
| CustomerDashboard.FilteredCustomers | src/components/CustomerDashboard.tsx:64-89 | filtering never lengthens the list |
| CustomerDashboard.FilteredCustomersExactly | src/components/CustomerDashboard.tsx:64-89 | an order-preserving sub-list holding exactly the matching customers; an empty search keeps all |
| CustomerDashboard.MissingFieldsNeverMatch | src/components/CustomerDashboard.tsx:70-88 | a customer without any searched field never matches a non-empty term |
| CustomerDashboard.NarrowingSearch | src/components/CustomerDashboard.tsx:64-89 | typing more characters keeps an order-preserving sub-list |
| CustomerDashboard.NameKey | src/components/CustomerDashboard.tsx:93-94 | the company name when it is filled; otherwise first and last name joined by a space |
| CustomerDashboard.SortedCustomers | src/components/CustomerDashboard.tsx:91-119 | sorting keeps the length |
| CustomerDashboard.SortedCustomersPermute | src/components/CustomerDashboard.tsx:91 | the sorted list is a permutation of the filtered list |
| CustomerDashboard.DescendingSwaps | src/components/CustomerDashboard.tsx:91-119 | for every column, descending compares the pair the other way round |
| CustomerDashboard.CompanyNameDecides | src/components/CustomerDashboard.tsx:92-97 | by name, a customer with a company name compares the same whatever its person names |
| CustomerDashboard.UnknownColumnKeepsOrder | src/components/CustomerDashboard.tsx:118 | an unknown column keeps the filtered order |
| Names.FullName | src/components/CustomerCard.tsx:21-23 | the trimmed `"first last"` |
| Names.Decoded | src/components/CustomerCard.tsx:27 | decoded and trimmed |
| Names.PrimaryName | src/components/CustomerCard.tsx:46-54 | a trimmed name; the order of its sources is stated by `Names.PrimaryNamePrecedence` |
| Names.PrimaryNamePrecedence | src/components/CustomerCard.tsx:46-54 | the first `contactFor` entry is named by its company name, else its first name, else its location name, else ""; a found name is unaffected by the later sources |
| Names.FallbackName | src/components/CustomerCard.tsx:31-55 | the fallback chain gives a trimmed name; its order is stated by `Names.FallbackNamePrecedence` and `CustomerCard.FallbackPrefersPersonNames` |
| Names.FallbackNamePrecedence | src/components/CustomerCard.tsx:38-55 | without person names: the company name, else the location name, else the first `contactFor` entry's name, else ""; a found name is unaffected by the later sources |
| Names.OrPlaceholder | src/components/CustomerCard.tsx:59-61 | a found name is kept; none becomes `"Unbenannter Kontakt"` |
| Names.TypeLabel | src/components/CustomerCard.tsx:87-89 | `isCompany` before `isPerson` before `isLocation` before `"Kontakt"`, each label exactly under its condition |
| Names.ContactByType | src/components/CustomerCard.tsx:72-74 | the first communication with that type; none exactly when no entry has it |
| Names.FirstOfTypes | src/components/CustomerCard.tsx:76-78 | none exactly when no type of the chain is found |
| Names.FirstOfTypesPicksFirst | src/components/CustomerCard.tsx:77 | the first type of the chain that is found decides |
| Names.FirstOfTypesFound | src/components/CustomerCard.tsx:77 | the result is a communication of the customer whose type is in the chain |
| Names.FirstOfTypesPrefix | src/components/CustomerCard.tsx:77 | extending a chain does not change a result already found |
| CustomerCard.CardName | src/components/CustomerCard.tsx:17-56 | the chain gives a trimmed name; its cases are stated by the card lemmas below |
| CustomerCard.DisplayName | src/components/CustomerCard.tsx:17-61 | the shown name is never empty |
| CustomerCard.PersonCustomerName | src/components/CustomerCard.tsx:20-23 | a person customer's name depends only on the person names, preferred over first and last name |
| CustomerCard.CompanyCustomerName | src/components/CustomerCard.tsx:26-27 | a company customer that is not a person shows its decoded, trimmed company name, whatever its person names |
| CustomerCard.FallbackOrder | src/components/CustomerCard.tsx:38-59 | a card with no person names is titled by the company name, else the location name, else the first `contactFor` entry's company name, first name or location name, else the placeholder |
| CustomerCard.FallbackPrefersPersonNames | src/components/CustomerCard.tsx:31-36 | otherwise person names win over company, location and `contactFor` |
| CustomerCard.PlaceholderOnlyWhenNameless | src/components/CustomerCard.tsx:59-61 | the placeholder appears exactly when the chain found nothing |
| CustomerCard.CardId | src/components/CustomerCard.tsx:64 | `customerId`, else `contactNumber`, else `""` |
| CustomerCard.BusinessPhone | src/components/CustomerCard.tsx:77 | a communication whose type is in `tel_business`, `phone_business`, `phone`, `mobile`; none exactly when no entry has one |
| CustomerCard.ContactPersonsLabel | src/components/CustomerCard.tsx:138 | starts with the count; ends in "en" exactly when the count is not 1 |
| CustomerDetails.DialogName | src/components/CustomerDetailsDialog.tsx:59-105 | the chain gives a trimmed name; its branches are stated by the dialog lemmas below |
| CustomerDetails.PersonTitle | src/components/CustomerDetailsDialog.tsx:73-77 | a person that is not a company is titled by the trimmed "first last" (each part the person field, else the plain `firstName` or `lastName`), whatever its company, location and `contactFor` names; for a person customer this is the card's title |
| CustomerDetails.DisplayName | src/components/CustomerDetailsDialog.tsx:59-110 | the shown name is never empty |
| CustomerDetails.CompanyPrefersPersonFirstName | src/components/CustomerDetailsDialog.tsx:62-66 | for a company, a non-blank person first name wins over the company name |
| CustomerDetails.NamelessCompanyIsUnnamed | src/components/CustomerDetailsDialog.tsx:62-71 | a company without either name shows `"Unbenannter Kontakt"` |
| CustomerDetails.AgreesWithCard | src/components/CustomerDetailsDialog.tsx:79-105 | a contact that is neither company nor person gets the card's name |
| CustomerDetails.WithSalutation | src/components/CustomerDetailsDialog.tsx:187-190 | the name ends the title; a salutation is prefixed exactly when `isPerson` holds and the salutation is non-empty |
| CustomerDetails.HeaderId | src/components/CustomerDetailsDialog.tsx:199 | the first non-empty of `customerId`, `contactNumber`, `customerNumber`, in that order; empty exactly when all three are |
| CustomerDetails.StatusLabel | src/components/CustomerDetailsDialog.tsx:253 | "Aktiv" exactly when `activation`, defaulting to `"active"`, is `"active"`; otherwise "Inaktiv" |
| CustomerDetails.PhoneAgreesWithCard | src/components/CustomerDetailsDialog.tsx:142 | the dialog's business phone is the card's; they differ only where the card falls back to `mobile` |
| CustomerDetails.Started | src/components/CustomerDetailsDialog.tsx:150-153 | every started id has a person id, no cached details and no load in flight |
| CustomerDetails.StartedCoversGuard | src/components/CustomerDetailsDialog.tsx:150-153 | every contact person that passes the guard is started |
| CustomerDetails.FailedLoadIsRetried | src/components/CustomerDetailsDialog.tsx:166-176 | after a failed load, the id passes the guard again |
| CustomerDetails.LoadedDetailsStop | src/components/CustomerDetailsDialog.tsx:155-158 | after a successful load, the id no longer passes the guard |
| CustomerDetails.InFlightNotRestarted | src/components/CustomerDetailsDialog.tsx:152-153 | an id that is loading does not pass the guard |
| CustomerDetails.MarkLoading | src/components/CustomerDetailsDialog.tsx:153 | the started ids are marked loading; other entries are unchanged |
| CustomerDetails.ContactLoader.constructor | src/components/CustomerDetailsDialog.tsx:41-43 | the three records start empty |
| CustomerDetails.ContactLoader.StartLoads | src/components/CustomerDetailsDialog.tsx:149-180 | an open dialog with contact persons starts exactly the guarded ids and marks them loading; details and errors are unchanged |
| CustomerDetails.ContactLoader.Finish | src/components/CustomerDetailsDialog.tsx:156-176 | success stores the details and removes that id's error; failure stores null and `"Fehler beim Laden der Kontaktdetails: <msg>"`; loading ends; other ids are unchanged |
| Records.GetProperty | src/components/CustomerDetailsDialog.tsx:46-56 | the loop equals the path lookup |
| Records.LookupUndefined | src/components/CustomerDetailsDialog.tsx:51 | null or undefined with a segment left gives undefined |
| Records.LookupAppend | src/components/CustomerDetailsDialog.tsx:50-53 | looking up a longer path continues from the value at its prefix |
| Records.StopsAtUndefined | src/components/CustomerDetailsDialog.tsx:50-53 | once an intermediate value is null or undefined, the result is undefined |
| Records.LookupNested | src/components/CustomerDetailsDialog.tsx:46-56 | a two-segment path reads the nested property |
| Header.Claim | src/components/Header.tsx:29 | `user?.[key]` is present exactly when there is a user with that claim |
| Header.Prefix2 | src/components/Header.tsx:29 | `substring(0, 2)` is a prefix of at most two characters |
| Header.FirstOrUndefined | src/components/Header.tsx:33 | the first character, or "undefined" for an empty word |
| Header.InitialsAsWritten | src/components/Header.tsx:28-34 | with no name and no `sub`, the initials are "U" |
| Header.ShortCases | src/components/Header.tsx:29-32 | without a name, and with a one-word name, the initials have one or two characters |
| Header.TwoWordInitials | src/components/Header.tsx:33 | non-empty first and last words give their two initials, upper-cased |
| Header.MenuLabel | src/components/Header.tsx:100 | `name`, else `sub` |
| Header.InitialsFollowLabel | src/components/Header.tsx:29 | without a name, the initials are the upper-cased start of the menu label |
| Header.TrailingSpaceName | src/components/Header.tsx:31-33 | as written, a word plus one space gives its initial followed by "UNDEFINED", and a single space throws; the intended initials use the word's first two letters, or `sub` |
| Header.MaxAsWritten | src/components/Header.tsx:31-33 | as written, the name "Max " gives "MUNDEFINED" |
| Header.Words | src/components/Header.tsx:31 | the non-empty words of a name |
| Header.SubInitials | src/components/Header.tsx:29 | one or two characters |
| Header.Initials | src/components/Header.tsx:28-34 | the intended initials always have one or two characters |
| Header.InitialsAgree | src/components/Header.tsx:28-34 | without empty words, the initials as written equal the intended ones |
| Header.MaxIntended | src/components/Header.tsx:31-33 | the intended initials for "Max " are "MA" |
| CustomerStats.PersonsAndCompaniesPartition | src/components/CustomerStats.tsx:24-25 | persons plus companies is the total |
| CustomerStats.ActiveAtMostTotal | src/components/CustomerStats.tsx:28 | at most every contact is active |
| CustomerStats.ActiveAllIff | src/components/CustomerStats.tsx:28 | every contact is active exactly when all have status `"active"` |
| CustomerStats.CityOf | src/components/CustomerStats.tsx:33-35 | a contributed city is truthy and comes from a present address |
| CustomerStats.UniqueCities | src/components/CustomerStats.tsx:31-37 | the set holds exactly the truthy cities of the contacts; its size is at most the number of contacts |
| CustomerStats.CountCaption | src/components/CustomerStats.tsx:60-62 | the "none" text appears exactly for a zero count; otherwise the share is formed over a non-zero total |
| CustomerStats.PersonCaption | src/components/CustomerStats.tsx:60-62 | "Keine Personen" exactly when there are no persons; a share is over all contacts |
| CustomerStats.CompanyCaption | src/components/CustomerStats.tsx:75-77 | "Keine Unternehmen" exactly when there are no companies; a share is over all contacts |
| CustomerStats.SomeCaptionHasShare | src/components/CustomerStats.tsx:60-77 | with at least one contact, at least one caption is a share, and two shares add up to the total |
| OrderStats.ToTimestamp | src/components/OrderStats.tsx:12-16 | null is 0 and a number is itself |
| OrderStats.OrderFigures | src/components/OrderStats.tsx:19-38 | active and completed counts are at most the total |
| OrderStats.OverdueAreActive | src/components/OrderStats.tsx:24-27 | overdue orders are an order-preserving sub-list of the active ones, and no more |
| OrderStats.UpcomingAreActive | src/components/OrderStats.tsx:30-33 | upcoming orders are an order-preserving sub-list of the active ones, and no more |
| OrderStats.CompletedAndActiveDisjoint | src/components/OrderStats.tsx:36-38 | no order is both completed and active, so active plus completed is at most the total |
| OrderStats.NoEndDateIsOverdue | src/components/OrderStats.tsx:24-27 | an active order without an end date is overdue exactly when `now` is positive |
| OrderStats.TimestampMatchesSortKey | src/components/OrderStats.tsx:12-16 | the timestamp equals the dashboard's date sort key, except for an empty date text |

## Left out

- Timers: the abort timer of `fetchWithTimeout` and the processing-time counter of the callback view are not modelled. A passed deadline is an input outcome.
- Network, `JSON.parse`, `JSON.stringify`, `atob`, `response.json()` and `response.text()` are parameters (`Js.Engine`, `Http.Outcome`, `Http.Response`). They are not implementations.
- `generateRandomState` uses `Math.random`, so the `state` is an arbitrary input string. The callback never checks it, and neither does the model.
- Navigation (`window.location.href`, `navigate`, `window.open`) is recorded as a target. Logging and toasts are left out, and so is the dashboards' refresh toast.
- The callback view's buttons that return to the login page or continue to `/` only navigate, so they are not modelled.
- React rendering, hooks and effect scheduling are not modelled. State is held in class fields, and an effect is a method call.
- `decodeHtmlEntities`, `localeCompare` and `new Date(s).getTime()` are functions held by `Records.Locale`. `NaN` from an unparsable date is not modelled: a parsed date is an integer.
- Prices, timestamps and counts are integers. Floating point, and the rounded percentages of the statistics captions (`Math.round`), are left out: a caption carries its part and total.
- `toLowerCase` and `toUpperCase` map ASCII letters only. `trim` removes the white space and line terminators of ECMAScript: ASCII white space, U+00A0, U+1680, U+2000-U+200A, U+2028, U+2029, U+202F, U+205F, U+3000 and U+FEFF.
- JavaScript strings are sequences of UTF-16 code units, while a Dafny `char` is a Unicode scalar value. On characters outside the Basic Multilingual Plane, `.length`, `[0]` and `substring(0, 2)` count and cut differently from the model (a surrogate half in JavaScript, a whole character here).
- `v.length` is read only from arrays and strings. An object with its own `length` property counts as having no length, where the source would try to spread it and throw a TypeError.
- Where the views call `toLowerCase` on a value that is not a string, JavaScript throws. The model reads such a value as `""` or as "no match".
- The cast of parsed JSON to the typed records (`as Customer[]`, `as Order[]`) is not modelled. The views work on `Records.Customer` and `Records.Order`.
- The catch blocks of `loadCustomers` and of the dashboards' `fetchData` are unreachable under the typed records of the previous line, because the fetch functions never throw. With ill-typed data, such as a `companyName` that is not a string (its `includes` throws) or a non-empty `contactFor` that is not an array (its `forEach` throws), JavaScript would reach the one in `loadCustomers`, which reports `"Fehler beim Laden der Kunden. Bitte versuchen Sie es später erneut."`. They are not modelled.
- The contact lookups of the details dialog that only feed rendering (`emailPrivate`, `phonePrivate`, `fax`, `website`) are not modelled; the business phone is.
- `testApiConnection` only logs and is not modelled.
- CustomerList.Searched: the search term is lower-cased but not trimmed, as in the source. Only the blank check trims.
- CustomerStats.CountCaption: requires the count to be at most the total, which holds for both counts (see `PersonsAndCompaniesPartition`).
- `JSON.stringify` of the claims is taken not to throw: they come from `JSON.parse` or `atob`, so they hold no cycles or BigInts.
- Auth.FetchWithAuth: the caller's headers are taken as a plain record with exact-case names. A `Headers` instance or an array of pairs, whose entries the object spread drops, is not modelled, nor a lower-case `authorization` entry, which fetch would merge with the added `Authorization`.
- App.Route: the path is compared as given, after lower-casing and dropping trailing slashes. The percent-decoding react-router applies first is not modelled, and the base name is taken to be empty.
- Concurrent interleavings of two callbacks are not modelled. The code checks and adds a processed code before its first `await`, so sequential calls suffice.

## Findings

| source | as written | input that shows it | evidently intended | confidence | as-written member | corrected member |
|---|---|---|---|---|---|---|
| src/components/Header.tsx:31-33 | `getInitials` splits the name on single spaces and takes `[0]` of the first and last pieces. An empty piece contributes the text "undefined", and two empty pieces make `NaN.toUpperCase()` throw | name `"Max "` shows "MUNDEFINED"; name `" "` throws a TypeError | the initials of the non-empty words: "MA" for `"Max "` | not executed | Header.MaxAsWritten | Header.MaxIntended |
