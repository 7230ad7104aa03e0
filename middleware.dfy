/**
 * The route-protection middleware: three path classes (public, admin,
 * protected), the role of a signed-in user, and the cascade of early returns
 * that turns one request into pass-through, the `pong` health answer, or a
 * redirect.
 *
 * The authentication lookup is an input (`Auth`), the encoding of the path
 * into the `redirectTo` query parameter is the parameter `encode`, and a
 * redirect carries the location string the middleware resolves against the
 * request URL. Which log record is written is part of the outcome.
 */
module Middleware {
  import opened Wrappers
  import opened JsStrings

  const PublicRoutes: seq<string> := ["/", "/login", "/register", "/ping", "/about", "/privacy", "/terms"]
  const AdminRoutes: seq<string> := ["/admin"]

  /** Paths the middleware lets through before looking at the session. */
  const SystemPrefixes: seq<string> :=
    ["/api/auth", "/_next", "/favicon.ico", "/sitemap.xml", "/robots.txt", "/images/", "/icons/", "/.well-known/"]
  /** The regular expression `\.(js|map|json)$`, as three suffixes. */
  const StaticSuffixes: seq<string> := [".js", ".map", ".json"]

  /** One entry of the public list: `/` matches only itself, every other entry is a prefix. */
  predicate PublicEntryMatches(route: string, pathname: string) {
    if route == "/" then pathname == "/" else StartsWith(pathname, route)
  }

  /** `isPublicRoute`: some entry of the public list matches; every public path is absolute. */
  predicate IsPublicRoute(pathname: string)
    ensures IsPublicRoute(pathname) ==> StartsWith(pathname, "/")
  {
    exists i :: 0 <= i < |PublicRoutes| && PublicEntryMatches(PublicRoutes[i], pathname)
  }

  /** `isAdminRoute`: the path starts with `/admin`. */
  predicate IsAdminRoute(pathname: string)
    ensures IsAdminRoute(pathname) <==> StartsWith(pathname, "/admin")
  {
    assert AdminRoutes[0] == "/admin";
    exists i :: 0 <= i < |AdminRoutes| && StartsWith(pathname, AdminRoutes[i])
  }

  /** `isProtectedRoute`: neither public nor admin; the chat pages and the API are protected. */
  predicate IsProtectedRoute(pathname: string)
    ensures StartsWith(pathname, "/chat") || StartsWith(pathname, "/api/") ==> IsProtectedRoute(pathname)
  {
    ProtectedPrefixes(pathname);
    !IsPublicRoute(pathname) && !IsAdminRoute(pathname)
  }

  /** The system and static-file test: only absolute paths and script, source-map or JSON files skip the session. */
  predicate SkipsSessionCheck(pathname: string)
    ensures SkipsSessionCheck(pathname) ==>
      StartsWith(pathname, "/") || EndsWith(pathname, ".js") || EndsWith(pathname, ".map") || EndsWith(pathname, ".json")
  {
    || (exists i :: 0 <= i < |SystemPrefixes| && StartsWith(pathname, SystemPrefixes[i]))
    || (exists i :: 0 <= i < |StaticSuffixes| && EndsWith(pathname, StaticSuffixes[i]))
  }

  /** The session check is skipped exactly for the eight system prefixes and the three static suffixes. */
  lemma SkipsSessionCheckIff(p: string)
    ensures SkipsSessionCheck(p) <==>
      || StartsWith(p, "/api/auth") || StartsWith(p, "/_next") || StartsWith(p, "/favicon.ico")
      || StartsWith(p, "/sitemap.xml") || StartsWith(p, "/robots.txt") || StartsWith(p, "/images/")
      || StartsWith(p, "/icons/") || StartsWith(p, "/.well-known/")
      || EndsWith(p, ".js") || EndsWith(p, ".map") || EndsWith(p, ".json")
  {
    assert SystemPrefixes[0] == "/api/auth" && SystemPrefixes[1] == "/_next";
    assert SystemPrefixes[2] == "/favicon.ico" && SystemPrefixes[3] == "/sitemap.xml";
    assert SystemPrefixes[4] == "/robots.txt" && SystemPrefixes[5] == "/images/";
    assert SystemPrefixes[6] == "/icons/" && SystemPrefixes[7] == "/.well-known/";
    assert StaticSuffixes[0] == ".js" && StaticSuffixes[1] == ".map" && StaticSuffixes[2] == ".json";
  }

  /** A signed-in user; `metadataRole` is `user_metadata.role` when it is a string. */
  datatype User = User(id: string, email: Option<string>, metadataRole: Option<string>)

  datatype Role = Admin | RegularUser

  function GetUserRole(user: Option<User>): (r: Role)
    ensures r == Admin <==> user.Some? && user.value.metadataRole == Some("admin")
    ensures user.None? ==> r == RegularUser
  {
    if user.Some? && user.value.metadataRole == Some("admin") then Admin else RegularUser
  }

  /** The result of the session lookup: an error flag and the user, if any. */
  datatype Auth = Auth(error: bool, user: Option<User>)

  /** The request: its pathname and its `redirectTo` search parameter. */
  datatype Request = Request(pathname: string, redirectTo: Option<string>)

  datatype Response = Next | Plain(status: nat, body: string) | Redirect(location: string)

  datatype LogRecord = NoLog | SessionExpired | PermissionDenied

  datatype Outcome = Outcome(response: Response, log: LogRecord)

  const Pong: Response := Plain(200, "pong")

  function LoginRedirect(encodedPath: string): string {
    "/login?redirectTo=" + encodedPath
  }

  /** The whole middleware, from the pathname check to the final pass-through. */
  function Decide(req: Request, auth: Auth, encode: string -> string): (o: Outcome)
    ensures o.response.Plain? <==> StartsWith(req.pathname, "/ping")
    ensures o.response.Plain? ==> o == Outcome(Pong, NoLog)
    ensures o.response == Next ==>
      SkipsSessionCheck(req.pathname) || IsPublicRoute(req.pathname) || (!auth.error && auth.user.Some?)
  {
    var p := req.pathname;
    if StartsWith(p, "/ping") then Outcome(Pong, NoLog)
    else if SkipsSessionCheck(p) then Outcome(Next, NoLog)
    else if auth.error then
      if !IsPublicRoute(p) then
        Outcome(Redirect(LoginRedirect(encode(p)) + "&error=session_error"), SessionExpired)
      else Outcome(Next, NoLog)
    else if auth.user.None? then
      if IsPublicRoute(p) then Outcome(Next, NoLog)
      else if IsProtectedRoute(p) || IsAdminRoute(p) then Outcome(Redirect(LoginRedirect(encode(p))), NoLog)
      else Outcome(Redirect("/login"), NoLog)
    else
      var role := GetUserRole(auth.user);
      if p == "/login" || p == "/register" then
        if req.redirectTo.Some? && req.redirectTo.value != ""
           && req.redirectTo.value != "/login" && req.redirectTo.value != "/register"
        then Outcome(Redirect(req.redirectTo.value), NoLog)
        else Outcome(Redirect("/chat"), NoLog)
      else if IsAdminRoute(p) && role != Admin then Outcome(Redirect("/"), PermissionDenied)
      else Outcome(Next, NoLog)
  }

  // ---------------------------------------------------------------- path classes

  /** `/` is public only on exact match; every other public entry matches by prefix. */
  lemma PublicRouteIff(p: string)
    ensures IsPublicRoute(p) <==>
      || p == "/" || StartsWith(p, "/login") || StartsWith(p, "/register") || StartsWith(p, "/ping")
      || StartsWith(p, "/about") || StartsWith(p, "/privacy") || StartsWith(p, "/terms")
  {
    if StartsWith(p, "/login") { assert PublicEntryMatches(PublicRoutes[1], p); }
    if StartsWith(p, "/register") { assert PublicEntryMatches(PublicRoutes[2], p); }
    if StartsWith(p, "/ping") { assert PublicEntryMatches(PublicRoutes[3], p); }
    if StartsWith(p, "/about") { assert PublicEntryMatches(PublicRoutes[4], p); }
    if StartsWith(p, "/privacy") { assert PublicEntryMatches(PublicRoutes[5], p); }
    if StartsWith(p, "/terms") { assert PublicEntryMatches(PublicRoutes[6], p); }
    if p == "/" { assert PublicEntryMatches(PublicRoutes[0], p); }
  }

  /** Prefix matching makes sub-paths and longer names public, and nothing else under `/`. */
  lemma PublicRouteExamples()
    ensures IsPublicRoute("/login/x") && IsPublicRoute("/aboutus") && IsPublicRoute("/")
    ensures !IsPublicRoute("/chat") && !IsPublicRoute("//") && !IsPublicRoute("")
  {
    PublicRouteIff("/login/x");
    PublicRouteIff("/aboutus");
    PublicRouteIff("/");
    PublicRouteIff("/chat");
    DistinctPrefixes("/chat", "/chat", "/ping", 1);
    PublicRouteIff("//");
    PublicRouteIff("");
  }

  /** Paths under `/chat` and `/api/` are neither public nor admin paths. */
  lemma ProtectedPrefixes(p: string)
    ensures StartsWith(p, "/chat") || StartsWith(p, "/api/") ==> !IsPublicRoute(p) && !IsAdminRoute(p)
  {
    if StartsWith(p, "/chat") || StartsWith(p, "/api/") {
      PublicRouteIff(p);
      var q := if StartsWith(p, "/chat") then "/chat" else "/api/";
      DistinctPrefixes(p, q, "/login", 1);
      DistinctPrefixes(p, q, "/register", 1);
      DistinctPrefixes(p, q, "/ping", 1);
      DistinctPrefixes(p, q, "/about", if q == "/chat" then 1 else 2);
      DistinctPrefixes(p, q, "/privacy", 1);
      DistinctPrefixes(p, q, "/terms", 1);
      DistinctPrefixes(p, q, "/admin", if q == "/chat" then 1 else 2);
    }
  }

  /** Two prefixes that differ at some index cannot both start the same path. */
  lemma DistinctPrefixes(p: string, a: string, b: string, k: nat)
    requires k < |a| && k < |b| && a[k] != b[k]
    ensures !(StartsWith(p, a) && StartsWith(p, b))
  {
  }

  /** No public route is an admin route. */
  lemma PublicAdminDisjoint(p: string)
    ensures !(IsPublicRoute(p) && IsAdminRoute(p))
  {
    PublicRouteIff(p);
    var admin := "/admin";
    DistinctPrefixes(p, admin, "/login", 1);
    DistinctPrefixes(p, admin, "/register", 1);
    DistinctPrefixes(p, admin, "/ping", 1);
    DistinctPrefixes(p, admin, "/about", 2);
    DistinctPrefixes(p, admin, "/privacy", 1);
    DistinctPrefixes(p, admin, "/terms", 1);
  }

  /** Every pathname is in exactly one of the three classes. */
  lemma RouteClassesPartition(p: string)
    ensures IsPublicRoute(p) || IsAdminRoute(p) || IsProtectedRoute(p)
    ensures !(IsPublicRoute(p) && IsAdminRoute(p))
    ensures !(IsPublicRoute(p) && IsProtectedRoute(p))
    ensures !(IsAdminRoute(p) && IsProtectedRoute(p))
  {
    PublicAdminDisjoint(p);
  }

  // ---------------------------------------------------------------- the cascade

  /** Any path under `/ping` is answered `pong` with status 200, whatever the session. */
  lemma PingAnsweredFirst(req: Request, auth: Auth, encode: string -> string)
    requires StartsWith(req.pathname, "/ping")
    ensures Decide(req, auth, encode) == Outcome(Plain(200, "pong"), NoLog)
  {
  }

  /** System prefixes and `.js`/`.map`/`.json` files pass without looking at the session. */
  lemma SystemPathsPassWithoutSession(req: Request, auth: Auth, auth': Auth, encode: string -> string)
    requires !StartsWith(req.pathname, "/ping") && SkipsSessionCheck(req.pathname)
    ensures Decide(req, auth, encode) == Decide(req, auth', encode) == Outcome(Next, NoLog)
  {
  }

  /** On a session error a non-public path goes to the login page with `error=session_error`; a public one passes. */
  lemma SessionErrorOutcome(req: Request, auth: Auth, encode: string -> string)
    requires !StartsWith(req.pathname, "/ping") && !SkipsSessionCheck(req.pathname)
    requires auth.error
    ensures var o := Decide(req, auth, encode);
      if IsPublicRoute(req.pathname) then o == Outcome(Next, NoLog)
      else o == Outcome(Redirect("/login?redirectTo=" + encode(req.pathname) + "&error=session_error"), SessionExpired)
  {
  }

  /**
   * Without a user the request passes iff the path is public; otherwise it is
   * sent to the login page with the path as `redirectTo`. The bare `/login`
   * fallback is never taken.
   */
  lemma SignedOutOutcome(req: Request, auth: Auth, encode: string -> string)
    requires !StartsWith(req.pathname, "/ping") && !SkipsSessionCheck(req.pathname)
    requires !auth.error && auth.user.None?
    ensures var o := Decide(req, auth, encode);
      && (o.response == Next <==> IsPublicRoute(req.pathname))
      && (!IsPublicRoute(req.pathname) ==> o.response == Redirect("/login?redirectTo=" + encode(req.pathname)))
      && o.response != Redirect("/login")
      && o.log == NoLog
  {
    RouteClassesPartition(req.pathname);
  }

  /**
   * A signed-in user on exactly `/login` or `/register` is sent to `redirectTo`
   * when it is non-empty and not one of those two pages, and to `/chat` otherwise.
   */
  lemma SignedInOnAuthPage(req: Request, auth: Auth, encode: string -> string)
    requires req.pathname == "/login" || req.pathname == "/register"
    requires !auth.error && auth.user.Some?
    ensures var o := Decide(req, auth, encode);
      o.log == NoLog &&
      match req.redirectTo
      case Some(t) => o.response == (if t != "" && t != "/login" && t != "/register" then Redirect(t) else Redirect("/chat"))
      case None => o.response == Redirect("/chat")
  {
    AuthPagesReachSessionCheck(req.pathname);
  }

  /** `/login` and `/register` are neither the health check nor paths that skip the session check. */
  lemma AuthPagesReachSessionCheck(p: string)
    requires p == "/login" || p == "/register"
    ensures !StartsWith(p, "/ping") && !SkipsSessionCheck(p)
  {
    DistinctPrefixes(p, p, "/ping", 1);
    DistinctPrefixes(p, p, "/api/auth", 1);
    DistinctPrefixes(p, p, "/_next", 1);
    DistinctPrefixes(p, p, "/favicon.ico", 1);
    DistinctPrefixes(p, p, "/sitemap.xml", 1);
    DistinctPrefixes(p, p, "/robots.txt", if p == "/login" then 1 else 2);
    DistinctPrefixes(p, p, "/images/", 1);
    DistinctPrefixes(p, p, "/icons/", 1);
    DistinctPrefixes(p, p, "/.well-known/", 1);
  }

  /** Elsewhere a signed-in non-admin is sent home from admin paths; everything else passes. */
  lemma SignedInElsewhere(req: Request, auth: Auth, encode: string -> string)
    requires !StartsWith(req.pathname, "/ping") && !SkipsSessionCheck(req.pathname)
    requires req.pathname != "/login" && req.pathname != "/register"
    requires !auth.error && auth.user.Some?
    ensures var o := Decide(req, auth, encode);
      if IsAdminRoute(req.pathname) && auth.user.value.metadataRole != Some("admin")
      then o == Outcome(Redirect("/"), PermissionDenied)
      else o == Outcome(Next, NoLog)
  {
  }

  /**
   * A signed-in user is redirected only to `/chat`, to `/` or to the request's
   * own `redirectTo`: the middleware never builds a login redirect for them,
   * and never sends them to the bare `/login` or `/register`.
   */
  lemma SignedInNeverSentToLogin(req: Request, auth: Auth, encode: string -> string)
    requires !auth.error && auth.user.Some?
    ensures var o := Decide(req, auth, encode);
      o.response.Redirect? ==>
        o.response.location in {"/chat", "/"} || Some(o.response.location) == req.redirectTo
    ensures Decide(req, auth, encode).response != Redirect("/login")
    ensures Decide(req, auth, encode).response != Redirect("/register")
  {
  }

  /**
   * The guard on `redirectTo` compares whole strings only, so a target that is
   * itself a login page with a query (or `/login/`) is followed: a signed-in
   * user on `/login` can be sent to the login page again.
   */
  lemma SignedInLoginRedirectHonoured(user: User, encode: string -> string)
    ensures var target := "/login?redirectTo=x";
      var o := Decide(Request("/login", Some(target)), Auth(false, Some(user)), encode);
      o.response == Redirect(target) && StartsWith(o.response.location, "/login")
    ensures Decide(Request("/register", Some("/login/")), Auth(false, Some(user)), encode).response == Redirect("/login/")
  {
    AuthPagesReachSessionCheck("/login");
    AuthPagesReachSessionCheck("/register");
  }

  /**
   * An admin path is passed through only for a signed-in admin, or when it is
   * one of the paths that skip the session check (for instance a `.json` file
   * under `/admin`).
   */
  lemma AdminPathsPassOnlyForAdmins(req: Request, auth: Auth, encode: string -> string)
    requires IsAdminRoute(req.pathname)
    requires Decide(req, auth, encode).response == Next
    ensures SkipsSessionCheck(req.pathname) || (!auth.error && GetUserRole(auth.user) == Admin)
  {
    PublicAdminDisjoint(req.pathname);
    DistinctPrefixes(req.pathname, "/admin", "/ping", 1);
  }

  /** A log record is written exactly when access is refused for a session error or a missing role. */
  lemma LoggedOnlyOnRefusal(req: Request, auth: Auth, encode: string -> string)
    ensures var o := Decide(req, auth, encode);
      (o.log != NoLog ==> o.response.Redirect?)
      && (o.log == SessionExpired <==> o.response.Redirect? && auth.error)
      && (o.log == PermissionDenied ==> IsAdminRoute(req.pathname) && GetUserRole(auth.user) == RegularUser)
  {
  }
}
