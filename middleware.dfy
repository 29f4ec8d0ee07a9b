/**
 * The Next.js edge middleware of the frontend: for every page request it decides whether to
 * let the request through or to redirect it, and which cookies the response sets.
 */
module Middleware {
  import opened Wrappers
  import opened Strings

  /**
   * The parts of a `NextRequest` the middleware reads. `query` maps each search parameter
   * to its first value (what `searchParams.get` returns); header names are lower-cased.
   */
  datatype Request = Request(
    pathname: string,
    href: string,
    cookies: map<string, string>,
    headers: map<string, string>,
    query: map<string, string>)

  /** The environment flags it reads, by truthiness. */
  datatype Flags = Flags(
    genericOAuth: bool,   // POSTIZ_GENERIC_OAUTH
    isGeneral: bool)      // IS_GENERAL

  /** What the `/user/join-org` call gives back: the parsed `id` field, or an exception. */
  datatype JoinReply = Joined(id: Option<string>) | JoinFailed

  datatype Lifetime = MaxAge(seconds: int) | ExpiresAfter(milliseconds: int)

  /** A `response.cookies.set(name, value, ...)`; the security options are not modelled. */
  datatype CookieUpdate = CookieUpdate(name: string, value: string, lifetime: Lifetime)

  /** Where a redirect points: a path and its search parameters. */
  datatype Location = Location(pathname: string, query: map<string, string>)

  datatype Response =
    | Next(language: Option<string>)       // NextResponse.next(), with the language header if one was chosen
    | Redirect(location: Location, cookies: seq<CookieUpdate>)

  /** Fifteen minutes, the lifetime of the `org` and `showorg` cookies. */
  const OrgCookieLifetime := 15 * 60 * 1000

  /** `s` is a non-empty string: JavaScript truthiness of a string. */
  predicate Truthy(s: Option<string>)
  {
    s.Some? && s.value != ""
  }

  function Lookup(m: map<string, string>, key: string): Option<string>
  {
    if key in m then Some(m[key]) else None
  }

  /**
   * Whether the request carries a credential: an `auth` cookie, an `auth` header or a
   * `loggedAuth` query parameter, tried in that order. A present cookie counts even when
   * its value is empty (the cookie object is truthy); a header or query value counts only
   * when it is non-empty.
   */
  predicate Authenticated(req: Request)
  {
    "auth" in req.cookies || Truthy(Lookup(req.headers, "auth")) || Truthy(Lookup(req.query, "loggedAuth"))
  }

  /** Paths served without any check. */
  predicate IsStaticPath(path: string)
  {
    StartsWith(path, "/uploads/") || StartsWith(path, "/p/") || StartsWith(path, "/icons/")
    || StartsWith(path, "/_next/") || StartsWith(path, "/api/")
  }

  lemma PrefixChars(s: string, p: string)
    ensures StartsWith(s, p) ==> forall k :: 0 <= k < |p| ==> s[k] == p[k]
  {
    if StartsWith(s, p) {
      forall k | 0 <= k < |p| ensures s[k] == p[k] { assert s[..|p|][k] == s[k]; }
    }
  }

  /** How the path prefixes the middleware tests relate to each other. */
  lemma PathFacts(path: string)
    ensures StartsWith(path, "/auth") ==> !IsStaticPath(path) && !StartsWith(path, "/modal/")
    ensures StartsWith(path, "/auth/logout") ==> StartsWith(path, "/auth")
    ensures StartsWith(path, "/modal/") ==> !IsStaticPath(path)
    ensures path == "/" ==> !IsStaticPath(path) && !StartsWith(path, "/auth") && !StartsWith(path, "/modal/")
  {
    PrefixChars(path, "/auth");
    PrefixChars(path, "/auth/logout");
    PrefixChars(path, "/uploads/");
    PrefixChars(path, "/p/");
    PrefixChars(path, "/icons/");
    PrefixChars(path, "/_next/");
    PrefixChars(path, "/api/");
    PrefixChars(path, "/modal/");
    if StartsWith(path, "/auth/logout") {
      assert path[..5] == "/auth";
    }
    if StartsWith(path, "/auth") {
      assert path[1] == 'a' && path[2] == 'u';
    }
    if StartsWith(path, "/modal/") {
      assert path[1] == 'm';
    }
  }

  /** The `provider` search parameter added on the way to `/auth`, if any. */
  function ProviderHint(href: string, flags: Flags): Option<string>
  {
    if Contains(href, "google") then Some(AsciiUpper("google"))
    else if Contains(href, "settings") then Some(AsciiUpper(if flags.genericOAuth then "generic" else "github"))
    else None
  }

  /** The provider names the redirect carries, in upper case. */
  lemma ProviderNames()
    ensures AsciiUpper("google") == "GOOGLE" && AsciiUpper("generic") == "GENERIC" && AsciiUpper("github") == "GITHUB"
  {
    UpperName("google", "GOOGLE");
    UpperName("generic", "GENERIC");
    UpperName("github", "GITHUB");
  }

  /** `u` is the upper case of a lower-case name `s`. */
  lemma UpperName(s: string, u: string)
    requires |s| == |u| && forall k :: 0 <= k < |s| ==> 'a' <= s[k] <= 'z' && u[k] as int == s[k] as int - 32
    ensures AsciiUpper(s) == u
  {
  }

  /** The redirect an unauthenticated visitor of a page gets. */
  function LoginRedirect(req: Request, flags: Flags): Location
  {
    match ProviderHint(req.href, flags)
    case None => Location("/auth", req.query)
    case Some(p) => Location("/auth", req.query["provider" := p])
  }

  /**
   * `middleware(request)`. `language` is what `acceptLanguage.get` chose (an external
   * library) and `joinOrg` answers the `/user/join-org` call for an organisation id.
   */
  function Decide(req: Request, flags: Flags, language: Option<string>, joinOrg: string -> JoinReply): (r: Response)
    ensures r.Next? ==> r.language == (if Truthy(language) then language else None)
    ensures r.Next? <==>
      || IsStaticPath(req.pathname)
      || (Authenticated(req) && !StartsWith(req.pathname, "/auth") && req.pathname != "/" && !Truthy(Lookup(req.query, "org")))
      || (!Authenticated(req) && StartsWith(req.pathname, "/auth") && !StartsWith(req.pathname, "/auth/logout")
          && !Truthy(Lookup(req.query, "org")))
    ensures r.Redirect? ==> |r.cookies| <= 1
  {
    PathFacts(req.pathname);
    var auth := Authenticated(req);
    var org := Lookup(req.query, "org");
    var top := Next(if Truthy(language) then language else None);
    if IsStaticPath(req.pathname) then top
    else if StartsWith(req.pathname, "/modal/") && !auth then
      Redirect(Location("/auth/login-required", map[]), [])
    else if StartsWith(req.pathname, "/auth/logout") then
      Redirect(Location("/auth/login", map[]), [CookieUpdate("auth", "", MaxAge(-1))])
    else if !StartsWith(req.pathname, "/auth") && !auth then
      Redirect(LoginRedirect(req, flags), [])
    else if StartsWith(req.pathname, "/auth") && auth then
      Redirect(Location("/", req.query), [])
    else if StartsWith(req.pathname, "/auth") && !auth && Truthy(org) then
      Redirect(Location("/", map[]), [CookieUpdate("org", org.value, ExpiresAfter(OrgCookieLifetime))])
    else if Truthy(org) && auth then
      match joinOrg(org.value)
      case JoinFailed => Redirect(Location("/auth/logout", map[]), [])
      case Joined(id) =>
        Redirect(Location("/", req.query["added" := "true"] - {"org"}),
                 if Truthy(id) then [CookieUpdate("showorg", id.value, ExpiresAfter(OrgCookieLifetime))] else [])
    else if req.pathname == "/" then
      Redirect(Location(if flags.isGeneral then "/launches" else "/analytics", req.query), [])
    else top
  }

  /** Static paths pass through, whatever the credentials. */
  lemma StaticPathsPassThrough(req: Request, flags: Flags, language: Option<string>, joinOrg: string -> JoinReply)
    requires IsStaticPath(req.pathname)
    ensures Decide(req, flags, language, joinOrg) == Next(if Truthy(language) then language else None)
  {
  }

  /** A modal without credentials asks for a login, before the logout and login rules apply. */
  lemma ModalNeedsLogin(req: Request, flags: Flags, language: Option<string>, joinOrg: string -> JoinReply)
    requires StartsWith(req.pathname, "/modal/") && !Authenticated(req)
    ensures Decide(req, flags, language, joinOrg) == Redirect(Location("/auth/login-required", map[]), [])
  {
    PathFacts(req.pathname);
  }

  /** Logging out always lands on the login page and expires the `auth` cookie. */
  lemma LogoutClearsAuth(req: Request, flags: Flags, language: Option<string>, joinOrg: string -> JoinReply)
    requires StartsWith(req.pathname, "/auth/logout")
    ensures Decide(req, flags, language, joinOrg)
      == Redirect(Location("/auth/login", map[]), [CookieUpdate("auth", "", MaxAge(-1))])
  {
    PathFacts(req.pathname);
  }

  /**
   * An unauthenticated visit of any other page goes to `/auth`, keeping its search
   * parameters, with a `provider` hint when the address mentions google or settings.
   */
  lemma AnonymousVisitorsGoToAuth(req: Request, flags: Flags, language: Option<string>, joinOrg: string -> JoinReply)
    requires !Authenticated(req) && !IsStaticPath(req.pathname) && !StartsWith(req.pathname, "/auth")
    requires !StartsWith(req.pathname, "/modal/")
    ensures var r := Decide(req, flags, language, joinOrg);
      && r.Redirect? && r.cookies == [] && r.location.pathname == "/auth"
      && r.location.query == (if Contains(req.href, "google") then req.query["provider" := "GOOGLE"]
                              else if Contains(req.href, "settings") then
                                req.query["provider" := if flags.genericOAuth then "GENERIC" else "GITHUB"]
                              else req.query)
  {
    PathFacts(req.pathname);
    ProviderNames();
    assert Decide(req, flags, language, joinOrg) == Redirect(LoginRedirect(req, flags), []);
  }

  /** A signed-in user on an `/auth` page is sent home, with the query kept. */
  lemma SignedInUsersLeaveAuth(req: Request, flags: Flags, language: Option<string>, joinOrg: string -> JoinReply)
    requires Authenticated(req) && StartsWith(req.pathname, "/auth") && !StartsWith(req.pathname, "/auth/logout")
    ensures Decide(req, flags, language, joinOrg) == Redirect(Location("/", req.query), [])
  {
    PathFacts(req.pathname);
  }

  /** An invitation seen before login is kept for fifteen minutes in an `org` cookie. */
  lemma InvitationRemembered(req: Request, flags: Flags, language: Option<string>, joinOrg: string -> JoinReply)
    requires !Authenticated(req) && StartsWith(req.pathname, "/auth") && !StartsWith(req.pathname, "/auth/logout")
    requires Truthy(Lookup(req.query, "org"))
    ensures Decide(req, flags, language, joinOrg)
      == Redirect(Location("/", map[]), [CookieUpdate("org", req.query["org"], ExpiresAfter(15 * 60 * 1000))])
  {
    PathFacts(req.pathname);
  }

  /**
   * A signed-in user with an invitation joins the organisation and goes home with
   * `added=true` and without `org`; `showorg` is set only when an id came back, and a
   * failing call logs the user out.
   */
  lemma InvitationAccepted(req: Request, flags: Flags, language: Option<string>, joinOrg: string -> JoinReply)
    requires Authenticated(req) && !IsStaticPath(req.pathname) && !StartsWith(req.pathname, "/auth")
    requires Truthy(Lookup(req.query, "org"))
    ensures var r := Decide(req, flags, language, joinOrg);
      match joinOrg(req.query["org"])
      case JoinFailed => r == Redirect(Location("/auth/logout", map[]), [])
      case Joined(id) =>
        && r.Redirect? && r.location.pathname == "/"
        && r.location.query.Keys == req.query.Keys - {"org"} + {"added"}
        && r.location.query["added"] == "true"
        && (forall k :: k in req.query && k != "org" && k != "added" ==> k in r.location.query && r.location.query[k] == req.query[k])
        && (r.cookies != [] <==> Truthy(id))
        && (Truthy(id) ==> r.cookies == [CookieUpdate("showorg", id.value, ExpiresAfter(15 * 60 * 1000))])
  {
    PathFacts(req.pathname);
  }

  /** The home page leads to the dashboard the deployment is configured for. */
  lemma RootGoesToDashboard(req: Request, flags: Flags, language: Option<string>, joinOrg: string -> JoinReply)
    requires req.pathname == "/" && Authenticated(req) && !Truthy(Lookup(req.query, "org"))
    ensures Decide(req, flags, language, joinOrg)
      == Redirect(Location(if flags.isGeneral then "/launches" else "/analytics", req.query), [])
  {
  }

  /** Only a signed-in user with an invitation reaches the `join-org` call. */
  lemma JoinOrgOnlyWhenInvited(req: Request, flags: Flags, language: Option<string>, f: string -> JoinReply, g: string -> JoinReply)
    requires !Authenticated(req) || !Truthy(Lookup(req.query, "org"))
    ensures Decide(req, flags, language, f) == Decide(req, flags, language, g)
  {
  }

  /** Without credentials, the only pages reachable are the static ones and the `/auth` pages. */
  lemma AnonymousStaysOnPublicPages(req: Request, flags: Flags, language: Option<string>, joinOrg: string -> JoinReply)
    requires !Authenticated(req)
    requires Decide(req, flags, language, joinOrg).Next?
    ensures IsStaticPath(req.pathname) || StartsWith(req.pathname, "/auth")
  {
  }
}
