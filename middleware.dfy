/** The routing decision of middleware.ts. `getToken` is an input that failed, found nothing or
    found a token; `encodeURIComponent` is the `encode` parameter. A redirect carries its
    location as written, before it is resolved against the request URL. */
module Middleware {
  import opened Strings
  import opened Collections
  import opened Constants

  /** The JWT claims the decision reads. */
  datatype Token = Token(role: Option<string>, email: Option<string>)

  datatype TokenResult = TokenError | NoToken | Found(token: Token)

  /** `new Response('pong', { status: 200 })`, `NextResponse.next()` or a redirect. */
  datatype Response = Pong | Next | Redirect(location: string)

  const GuestPath := "/api/auth/guest"

  /** The routes reachable without a token. */
  predicate IsAuthRoute(pathname: string)
  {
    StartsWith(pathname, "/api/auth") || StartsWith(pathname, "/login")
    || StartsWith(pathname, "/register") || StartsWith(pathname, "/forgot-password")
    || StartsWith(pathname, "/reset-password")
  }

  function GuestRedirect(url: string, encode: string -> string): string
  {
    GuestPath + "?redirectUrl=" + encode(url)
  }

  function LoginRedirect(url: string, encode: string -> string): string
  {
    "/login?callbackUrl=" + encode(url)
  }

  /** The login and register pages are authentication routes, not `/ping`. */
  lemma LoginPagesAreAuthRoutes()
    ensures !StartsWith("/login", "/ping") && IsAuthRoute("/login")
    ensures !StartsWith("/register", "/ping") && IsAuthRoute("/register")
    ensures !StartsWith(GuestPath, "/ping") && IsAuthRoute(GuestPath)
  {
    assert "/login"[1] != "/ping"[1];
    assert "/register"[1] != "/ping"[1];
    assert GuestPath[1] != "/ping"[1];
    assert GuestPath[..9] == "/api/auth";
  }

  /** `token?.email ?? ''` tested against the guest pattern. */
  predicate IsGuest(t: Token)
  {
    IsGuestEmail(if t.email.Some? then t.email.value else "")
  }

  /** `middleware`, as written. */
  function Middleware(pathname: string, url: string, token: TokenResult,
                      encode: string -> string): (r: Response)
    ensures r != Redirect("/")
  {
    if StartsWith(pathname, "/ping") then Pong
    else if IsAuthRoute(pathname) then Next
    else
      match token
      case TokenError => Redirect(GuestRedirect(url, encode))
      case NoToken => Redirect(GuestRedirect(url, encode))
      case Found(t) =>
        if StartsWith(pathname, "/admin") then
          if t.role.None? || t.role.value == "" || t.role.value != "admin" then
            Redirect(LoginRedirect(url, encode))
          else Next
        else if !IsGuest(t) && (pathname == "/login" || pathname == "/register") then Redirect("/")
        else Next
  }

  /** `/ping` answers before anything else is looked at. */
  lemma PingAnswered(pathname: string, url: string, token: TokenResult, encode: string -> string)
    requires StartsWith(pathname, "/ping")
    ensures Middleware(pathname, url, token, encode) == Pong
  {
  }

  /** The authentication routes pass through whatever the token. */
  lemma AuthRoutesPassThrough(pathname: string, url: string, token: TokenResult,
                              encode: string -> string)
    requires !StartsWith(pathname, "/ping") && IsAuthRoute(pathname)
    ensures Middleware(pathname, url, token, encode) == Next
  {
  }

  /** Without a token, or when reading it fails, the visitor is sent to guest sign-in with the
      requested URL, encoded. */
  lemma MissingTokenSignsInGuest(pathname: string, url: string, token: TokenResult,
                                 encode: string -> string)
    requires !StartsWith(pathname, "/ping") && !IsAuthRoute(pathname) && !token.Found?
    ensures Middleware(pathname, url, token, encode) == Redirect(GuestRedirect(url, encode))
  {
  }

  /** The admin area admits exactly the tokens whose role is `admin`; others go to the login
      page with the requested URL as callback. */
  lemma AdminGate(pathname: string, url: string, t: Token, encode: string -> string)
    requires !IsAuthRoute(pathname) && StartsWith(pathname, "/admin")
    ensures Middleware(pathname, url, Found(t), encode) ==
      if t.role == Some("admin") then Next else Redirect(LoginRedirect(url, encode))
  {
    assert !StartsWith(pathname, "/ping") by {
      assert pathname[1] == 'a';
    }
  }

  /** Every other request that carries a token passes through unchanged. */
  lemma OtherRequestsPassThrough(pathname: string, url: string, t: Token, encode: string -> string)
    requires !StartsWith(pathname, "/ping") && !IsAuthRoute(pathname) && !StartsWith(pathname, "/admin")
    ensures Middleware(pathname, url, Found(t), encode) == Next
  {
  }

  /** The guest sign-in target is itself reachable without a token, so the redirect does not
      loop; so is the login page that the admin gate sends to. */
  lemma RedirectTargetsPassThrough(url: string, token: TokenResult, encode: string -> string)
    ensures Middleware(GuestPath, url, token, encode) == Next
    ensures Middleware("/login", url, token, encode) == Next
  {
    LoginPagesAreAuthRoutes();
  }

  /** A signed-in, non-guest user who opens `/login` is let through to the login page, where
      the intended decision sends them home. */
  lemma SignedInUserReachesLogin(url: string, encode: string -> string)
    ensures Middleware("/login", url, Found(Token(Some("user"), Some("alice@example.com"))), encode) == Next
    ensures MiddlewareIntended("/login", url, Found(Token(Some("user"), Some("alice@example.com"))), encode)
         == Redirect("/")
  {
    LoginPagesAreAuthRoutes();
    AddressIsNotGuest("alice@example.com", 5);
  }

  // ---------------------------------------------------------------------
  // The redirect evidently intended for signed-in users at the login and register pages

  /** `middleware` with the home redirect of signed-in, non-guest users at exactly `/login`
      and `/register` taking effect; visitors without a token, and guests, still reach both. */
  function MiddlewareIntended(pathname: string, url: string, token: TokenResult,
                              encode: string -> string): (r: Response)
    ensures (pathname == "/login" || pathname == "/register") && token.Found? && !IsGuest(token.token)
      ==> r == Redirect("/")
  {
    LoginPagesAreAuthRoutes();
    if StartsWith(pathname, "/ping") then Pong
    else if pathname == "/login" || pathname == "/register" then
      if token.Found? && !IsGuest(token.token) then Redirect("/") else Next
    else Middleware(pathname, url, token, encode)
  }

  /** At `/login` and `/register`, only signed-in non-guests are redirected, and to home. */
  lemma IntendedLoginPage(pathname: string, url: string, token: TokenResult, encode: string -> string)
    requires pathname == "/login" || pathname == "/register"
    ensures MiddlewareIntended(pathname, url, token, encode) ==
      if token.Found? && !IsGuest(token.token) then Redirect("/") else Next
  {
    LoginPagesAreAuthRoutes();
  }

  /** Everywhere else the intended decision is the written one. */
  lemma IntendedAgreesElsewhere(pathname: string, url: string, token: TokenResult,
                                encode: string -> string)
    requires pathname != "/login" && pathname != "/register"
    ensures MiddlewareIntended(pathname, url, token, encode) == Middleware(pathname, url, token, encode)
  {
  }
}
