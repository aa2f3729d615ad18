/** The access gate that runs before every request (middleware.ts): from the
    request path and the decoded session token it decides whether the request
    proceeds or is redirected. */
module Middleware {
  import opened Base

  /** The claims of the session token that the gate reads. `None` is a claim
      that is absent or null. */
  datatype Token = Token(role: Option<string>, tenantStatus: Option<string>)

  datatype Decision = Next | Redirect(location: string)

  /** Which `return` statement of the gate produced the decision. */
  datatype Exit =
    | PublicRoute          // public prefix or the home page
    | NotLoggedIn          // no token
    | AdminDenied          // /admin without SUPER_ADMIN
    | AdminAllowed         // /admin as SUPER_ADMIN
    | PaymentPageException // the `pathname === "/payment-required"` test
    | PaymentRequired      // tenant not ACTIVE
    | Subscribed           // tenant ACTIVE

  const PublicRoutes: seq<string> :=
    ["/login", "/register", "/api/webhooks", "/payment-required", "/api/auth"]

  predicate IsPublic(pathname: string) {
    (exists i :: 0 <= i < |PublicRoutes| && PublicRoutes[i] <= pathname) || pathname == "/"
  }

  /** `(token as any).tenantStatus || "PENDING"`. */
  function EffectiveStatus(t: Token): (s: string)
    ensures Truthy(t.tenantStatus) ==> s == t.tenantStatus.value
    ensures !Truthy(t.tenantStatus) ==> s == "PENDING"
  {
    if Truthy(t.tenantStatus) then t.tenantStatus.value else "PENDING"
  }

  /** The chain of early returns, reporting which one was taken. */
  function Route(pathname: string, token: Option<Token>): (r: Exit)
  {
    if IsPublic(pathname) then PublicRoute
    else if token.None? then NotLoggedIn
    else if "/admin" <= pathname then
      (if token.value.role != Some("SUPER_ADMIN") then AdminDenied else AdminAllowed)
    else if EffectiveStatus(token.value) != "ACTIVE" then
      (if pathname == "/payment-required" then PaymentPageException else PaymentRequired)
    else Subscribed
  }

  function Outcome(e: Exit): (r: Decision) {
    match e
    case PublicRoute => Next
    case NotLoggedIn => Redirect("/login")
    case AdminDenied => Redirect("/dashboard")
    case AdminAllowed => Next
    case PaymentPageException => Next
    case PaymentRequired => Redirect("/payment-required")
    case Subscribed => Next
  }

  /** The gate. Total: every request proceeds or is sent to one of three pages. */
  function Gate(pathname: string, token: Option<Token>): (d: Decision)
    ensures d in {Next, Redirect("/login"), Redirect("/dashboard"), Redirect("/payment-required")}
  {
    Outcome(Route(pathname, token))
  }

  /** Public paths proceed whatever the token says. */
  lemma PublicPathsProceed(pathname: string, token: Option<Token>)
    requires IsPublic(pathname)
    ensures Gate(pathname, token) == Next
  {
  }

  lemma PublicPrefixesProceed(pathname: string, token: Option<Token>)
    requires "/login" <= pathname || "/register" <= pathname || "/api/webhooks" <= pathname
             || "/payment-required" <= pathname || "/api/auth" <= pathname || pathname == "/"
    ensures Gate(pathname, token) == Next
  {
    assert IsPublic(pathname) by {
      if "/login" <= pathname { assert PublicRoutes[0] <= pathname; }
      else if "/register" <= pathname { assert PublicRoutes[1] <= pathname; }
      else if "/api/webhooks" <= pathname { assert PublicRoutes[2] <= pathname; }
      else if "/payment-required" <= pathname { assert PublicRoutes[3] <= pathname; }
      else if "/api/auth" <= pathname { assert PublicRoutes[4] <= pathname; }
    }
  }

  /** Any other path without a token goes to the login page. */
  lemma NoTokenGoesToLogin(pathname: string)
    requires !IsPublic(pathname)
    ensures Gate(pathname, None) == Redirect("/login")
  {
  }

  /** Under /admin only the role matters: SUPER_ADMIN proceeds, anyone else is
      sent to /dashboard, and the tenant status is never consulted. */
  lemma AdminByRoleOnly(pathname: string, t: Token, status: Option<string>)
    requires !IsPublic(pathname) && "/admin" <= pathname
    ensures Gate(pathname, Some(t)) == (if t.role == Some("SUPER_ADMIN") then Next else Redirect("/dashboard"))
    ensures Gate(pathname, Some(t)) == Gate(pathname, Some(t.(tenantStatus := status)))
  {
  }

  /** A missing or empty status claim behaves exactly like "PENDING". */
  lemma MissingStatusIsPending(pathname: string, role: Option<string>, status: Option<string>)
    requires !Truthy(status)
    ensures Gate(pathname, Some(Token(role, status))) == Gate(pathname, Some(Token(role, Some("PENDING"))))
  {
  }

  /** Elsewhere only an ACTIVE tenant proceeds; TRIAL (expired or not),
      PENDING, SUSPENDED and every other value are sent to /payment-required. */
  lemma OnlyActiveProceeds(pathname: string, t: Token)
    requires !IsPublic(pathname) && !("/admin" <= pathname)
    ensures Gate(pathname, Some(t)) == Next <==> EffectiveStatus(t) == "ACTIVE"
    ensures Gate(pathname, Some(t)) != Next ==> Gate(pathname, Some(t)) == Redirect("/payment-required")
  {
    PaymentExceptionUnreachable(pathname, Some(t));
  }

  /** A TRIAL tenant is sent to /payment-required, trial expiry is not read. */
  lemma TrialIsRedirected(role: Option<string>)
    ensures Gate("/dashboard", Some(Token(role, Some("TRIAL")))) == Redirect("/payment-required")
  {
    DashboardNotPublic();
  }

  /** A SUPER_ADMIN, whose token carries no tenant status, is still gated
      outside /admin: the dashboard sends them to /payment-required. */
  lemma SuperAdminGatedOutsideAdmin()
    ensures Gate("/dashboard", Some(Token(Some("SUPER_ADMIN"), None))) == Redirect("/payment-required")
    ensures Gate("/admin", Some(Token(Some("SUPER_ADMIN"), None))) == Next
  {
    DashboardNotPublic();
    AdminNotPublic();
  }

  lemma DashboardNotPublic()
    ensures !IsPublic("/dashboard") && !("/admin" <= "/dashboard")
  {
    assert "/admin"[1] != "/dashboard"[1];
    forall i | 0 <= i < |PublicRoutes| ensures !(PublicRoutes[i] <= "/dashboard") {
      assert PublicRoutes[i][1] != "/dashboard"[1];
    }
  }

  lemma AdminNotPublic()
    ensures !IsPublic("/admin")
  {
    forall i | 0 <= i < |PublicRoutes| ensures !(PublicRoutes[i] <= "/admin") {
      assert PublicRoutes[i][1] != "/admin"[1] || PublicRoutes[i][2] != "/admin"[2];
    }
  }

  /** The `pathname === "/payment-required"` exception can never be taken:
      that path is public by prefix and has already proceeded. */
  lemma PaymentExceptionUnreachable(pathname: string, token: Option<Token>)
    ensures Route(pathname, token) != PaymentPageException
  {
    if pathname == "/payment-required" {
      assert PublicRoutes[3] <= pathname;
    }
  }
}
