/** Credential sign-in and the session claims (lib/auth.ts): the `authorize`
    guard chain over the user table, and the `jwt` and `session` callbacks
    that copy the claims into the token and onto the session user. Password
    hashing is the abstract relation `matches(plain, hash)`. */
module Auth {
  import opened Base
  import opened Db
  import Middleware

  /** The submitted form; `None` when the credentials object is absent. */
  datatype Credentials = Credentials(email: Option<string>, password: Option<string>)

  /** The object `authorize` returns. */
  datatype SignedInUser = SignedInUser(
    id: string,
    email: string,
    name: Option<string>,
    role: Option<string>,
    tenantId: Option<string>,
    tenantStatus: Option<string>,
    trialEndsAt: Option<int>)

  datatype AuthResult = Authorized(user: SignedInUser) | Failed(message: string)

  const MissingFields: string := "Email e senha são obrigatórios"
  const InvalidCredentials: string := "Credenciais inválidas"

  predicate CredentialsGiven(c: Option<Credentials>) {
    c.Some? && Truthy(c.value.email) && Truthy(c.value.password)
  }

  /** `include: { tenant: true }`. */
  function TenantOf(u: UserRow, tenants: map<string, TenantRow>): (r: Option<TenantRow>) {
    if u.tenantId.Some? && u.tenantId.value in tenants then Some(tenants[u.tenantId.value]) else None
  }

  /** `user.tenant?.subscriptionStatus || null`. */
  function StatusClaim(t: Option<TenantRow>): (r: Option<string>) {
    if t.Some? && t.value.subscriptionStatus != "" then Some(t.value.subscriptionStatus) else None
  }

  /** `user.tenant?.trialEndsAt || null` (a date object is always truthy). */
  function TrialClaim(t: Option<TenantRow>): (r: Option<int>) {
    if t.Some? then t.value.trialEndsAt else None
  }

  /** There is a user with this email whose stored hash accepts the password. */
  predicate PasswordAccepted(users: seq<UserRow>, email: string, password: string, matches: (string, string) -> bool) {
    var u := UserByEmail(users, email);
    u.Some? && Truthy(u.value.password) && matches(password, u.value.password.value)
  }

  function Authorize(credentials: Option<Credentials>, users: seq<UserRow>, tenants: map<string, TenantRow>,
                     matches: (string, string) -> bool): (r: AuthResult)
    ensures r == Failed(MissingFields) <==> !CredentialsGiven(credentials)
    ensures r == Failed(InvalidCredentials) <==>
      CredentialsGiven(credentials)
      && !PasswordAccepted(users, credentials.value.email.value, credentials.value.password.value, matches)
    ensures r.Failed? ==> r.message == MissingFields || r.message == InvalidCredentials
    ensures r.Authorized? ==>
      var u := UserByEmail(users, credentials.value.email.value).value;
      var t := TenantOf(u, tenants);
      && r.user == SignedInUser(u.id, u.email, u.name, u.role, u.tenantId, StatusClaim(t), TrialClaim(t))
      && u.email == credentials.value.email.value
  {
    if !CredentialsGiven(credentials) then Failed(MissingFields)
    else
      var c := credentials.value;
      var found := UserByEmail(users, c.email.value);
      if found.None? || !Truthy(found.value.password) then Failed(InvalidCredentials)
      else if !matches(c.password.value, found.value.password.value) then Failed(InvalidCredentials)
      else
        var u := found.value;
        var t := TenantOf(u, tenants);
        Authorized(SignedInUser(u.id, u.email, u.name, u.role, u.tenantId, StatusClaim(t), TrialClaim(t)))
  }

  /** An unknown email, a user without a password and a wrong password are
      indistinguishable to the caller. */
  lemma InvalidCredentialsIndistinguishable(email: string, password: string, users: seq<UserRow>,
                                            tenants: map<string, TenantRow>, matches: (string, string) -> bool)
    requires email != "" && password != ""
    requires !EmailTaken(users, email)
             || !Truthy(UserByEmail(users, email).value.password)
             || !matches(password, UserByEmail(users, email).value.password.value)
    ensures Authorize(Some(Credentials(Some(email), Some(password))), users, tenants, matches) == Failed(InvalidCredentials)
  {
  }

  /** The claims the gate reads from a token. */
  function GateClaims(u: SignedInUser): (r: Middleware.Token) {
    Middleware.Token(u.role, u.tenantStatus)
  }

  /** A user signed in without a tenant (a SUPER_ADMIN) carries no status claim,
      so the gate sends them to /payment-required on the dashboard. */
  lemma SignedInWithoutTenantIsGated(credentials: Option<Credentials>, users: seq<UserRow>,
                                     tenants: map<string, TenantRow>, matches: (string, string) -> bool)
    requires Authorize(credentials, users, tenants, matches).Authorized?
    requires Authorize(credentials, users, tenants, matches).user.tenantId.None?
    ensures Middleware.Gate("/dashboard", Some(GateClaims(Authorize(credentials, users, tenants, matches).user)))
            == Middleware.Redirect("/payment-required")
  {
    var u := Authorize(credentials, users, tenants, matches).user;
    assert u.tenantStatus == None;
    Middleware.SuperAdminGatedOutsideAdmin();
    Middleware.MissingStatusIsPending("/dashboard", u.role, None);
    Middleware.TrialIsRedirected(u.role);
    Middleware.DashboardNotPublic();
  }

  /** The signed token; NextAuth's own claims are not modelled. */
  class JwtToken {
    var id: Option<string>
    var role: Option<string>
    var tenantId: Option<string>
    var tenantStatus: Option<string>
    var trialEndsAt: Option<int>

    constructor ()
      ensures id == None && role == None && tenantId == None && tenantStatus == None && trialEndsAt == None
    {
      id, role, tenantId, tenantStatus, trialEndsAt := None, None, None, None, None;
    }

    /** The `jwt` callback: copies the five claims when a user has just
        signed in, and otherwise returns the token unchanged. */
    method Jwt(user: Option<SignedInUser>)
      modifies this
      ensures user.Some? ==>
        && id == Some(user.value.id) && role == user.value.role && tenantId == user.value.tenantId
        && tenantStatus == user.value.tenantStatus && trialEndsAt == user.value.trialEndsAt
      ensures user.None? ==>
        && id == old(id) && role == old(role) && tenantId == old(tenantId)
        && tenantStatus == old(tenantStatus) && trialEndsAt == old(trialEndsAt)
    {
      if user.Some? {
        id := Some(user.value.id);
        role := user.value.role;
        tenantId := user.value.tenantId;
        tenantStatus := user.value.tenantStatus;
        trialEndsAt := user.value.trialEndsAt;
      }
    }

    function Claims(): (r: Middleware.Token)
      reads this
    {
      Middleware.Token(role, tenantStatus)
    }
  }

  class SessionUser {
    var id: Option<string>
    var role: Option<string>
    var tenantId: Option<string>
    var tenantStatus: Option<string>
    var trialEndsAt: Option<int>

    constructor ()
      ensures id == None && role == None && tenantId == None && tenantStatus == None && trialEndsAt == None
    {
      id, role, tenantId, tenantStatus, trialEndsAt := None, None, None, None, None;
    }
  }

  class Session {
    var user: SessionUser?

    constructor (user: SessionUser?)
      ensures this.user == user
    {
      this.user := user;
    }
  }

  /** The `session` callback: copies the five token claims onto
      `session.user` when there is one; the session itself is not replaced. */
  method SessionCallback(session: Session, token: JwtToken)
    modifies session.user
    ensures session.user == old(session.user)
    ensures session.user != null ==>
      && session.user.id == token.id && session.user.role == token.role
      && session.user.tenantId == token.tenantId && session.user.tenantStatus == token.tenantStatus
      && session.user.trialEndsAt == token.trialEndsAt
  {
    if session.user != null {
      var u := session.user;
      u.id := token.id;
      u.role := token.role;
      u.tenantId := token.tenantId;
      u.tenantStatus := token.tenantStatus;
      u.trialEndsAt := token.trialEndsAt;
    }
  }

  /** Sign-in followed by the `jwt` callback hands the gate exactly the role
      and status that `authorize` derived. */
  method SignInToken(credentials: Option<Credentials>, users: seq<UserRow>, tenants: map<string, TenantRow>,
                     matches: (string, string) -> bool) returns (token: JwtToken?)
    ensures Authorize(credentials, users, tenants, matches).Failed? <==> token == null
    ensures token != null ==> token.Claims() == GateClaims(Authorize(credentials, users, tenants, matches).user)
  {
    var r := Authorize(credentials, users, tenants, matches);
    if r.Failed? {
      return null;
    }
    token := new JwtToken();
    token.Jwt(Some(r.user));
  }
}
