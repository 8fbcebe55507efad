/** The application shell: the route table and the guard in front of the
    authenticated part. */
module App {
  import opened Js
  import opened Auth
  import AuthProvider
  import Text

  /** What `ProtectedRoute` renders. */
  datatype Guarded = Loading | RedirectToLogin | Children

  /** `ProtectedRoute`: the spinner while loading, a redirect to `/login` unless
      the user is authenticated, otherwise the children. */
  function Guard(isLoading: bool, user: Option<User>): (v: Guarded)
    ensures v == Loading <==> isLoading
    ensures v == RedirectToLogin <==> !isLoading && !IsAuthenticated(user)
    ensures v == Children <==> !isLoading && IsAuthenticated(user)
  {
    if isLoading then Loading
    else if !IsAuthenticated(user) then RedirectToLogin
    else Children
  }

  /** The element a route renders. */
  datatype Page = LoginPage | CallbackPage | Protected(view: Guarded)

  /** The path without its trailing slashes: the slashes that may end a path
      matched by a route. */
  function DropTrailingSlashes(path: string): (r: string)
    ensures |r| <= |path| && r == path[..|r|]
    ensures r == [] || r[|r| - 1] != '/'
    ensures forall i :: |r| <= i < |path| ==> path[i] == '/'
  {
    if path != [] && path[|path| - 1] == '/' then DropTrailingSlashes(path[..|path| - 1]) else path
  }

  /** What a route pattern is compared with: react-router's `<Routes>` matches
      without regard to letter case and accepts trailing slashes. The three
      patterns hold ASCII letters only, so ASCII lower-casing is that comparison. */
  function RoutePath(path: string): string {
    Text.Lower(DropTrailingSlashes(path))
  }

  /** `AppContent`: the three routes; any other path matches none. */
  function Route(path: string, isLoading: bool, user: Option<User>): Option<Page> {
    var p := RoutePath(path);
    if p == "/login" then Some(LoginPage)
    else if p == "/oauth/callback" then Some(CallbackPage)
    else if p == "" then Some(Protected(Guard(isLoading, user)))
    else None
  }

  /** The login and callback routes render the same page whatever the session;
      only `/` is guarded; a path that is none of the three, up to case and
      trailing slashes, matches nothing. */
  lemma OnlyRootGuarded(path: string, isLoading: bool, user: Option<User>, isLoading': bool, user': Option<User>)
    ensures RoutePath(path) == "/login" || RoutePath(path) == "/oauth/callback" ==>
      Route(path, isLoading, user) == Route(path, isLoading', user') && !Route(path, isLoading, user).value.Protected?
    ensures RoutePath(path) == "" ==> Route(path, isLoading, user) == Some(Protected(Guard(isLoading, user)))
    ensures Route(path, isLoading, user).Some? <==> RoutePath(path) in {"/login", "/oauth/callback", ""}
  {
  }

  /** A slash is no letter, so lower-casing keeps the trailing slashes where they are. */
  lemma {:induction false} LowerDropCommute(path: string)
    ensures DropTrailingSlashes(Text.Lower(path)) == Text.Lower(DropTrailingSlashes(path))
  {
    var l := Text.Lower(path);
    if path != [] && path[|path| - 1] == '/' {
      assert l[|l| - 1] == '/';
      assert l[..|l| - 1] == Text.Lower(path[..|path| - 1]);
      LowerDropCommute(path[..|path| - 1]);
    } else if path != [] {
      assert l[|l| - 1] != '/';
    }
  }

  /** Letter case and trailing slashes do not change the page: `/LOGIN` and
      `/login/` show the login page, and `//` is `/`. */
  lemma RoutesIgnoreCaseAndTrailingSlash(path: string, isLoading: bool, user: Option<User>)
    ensures Route(path + "/", isLoading, user) == Route(path, isLoading, user)
    ensures Route(Text.Lower(path), isLoading, user) == Route(path, isLoading, user)
  {
    assert (path + "/")[..|path|] == path;
    LowerDropCommute(path);
    Text.LowerIdempotent(DropTrailingSlashes(path));
  }

  /** The default context (no provider mounted) keeps `/` on the spinner. */
  lemma DefaultContextLoads()
    ensures var c := DefaultContext(); Guard(c.isLoading, c.user) == Loading
  {
  }

  /** Once `handleCallback` has succeeded, `/` renders the application. */
  lemma SessionOpensApp(s: AuthProvider.Session)
    ensures Guard(false, Some(AuthProvider.SessionUser(s))) == Children
  {
  }

  /** Once loading has ended, `/` redirects every visitor who is not authenticated:
      no user (after `logout` or a failed callback), or a user whose
      `isAuthenticated` is missing or falsy. */
  lemma LoggedOutRedirects(user: Option<User>)
    requires !IsAuthenticated(user)
    ensures Route("/", false, user) == Some(Protected(RedirectToLogin))
    ensures Route("/", false, None) == Some(Protected(RedirectToLogin))
  {
  }
}
