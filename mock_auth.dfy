/** The sign-in and registration form of the mock app (components/Auth.tsx).
    Sign-in looks up the first tenant whose address matches, letter case
    aside, and then checks the password and the status in that order; the
    role is the platform owner's only for the address "admin@saas.com".
    Registration needs all four fields and an address not yet known, letter
    case aside, and yields a PENDING tenant on the PRO plan. The clock and
    the current date are parameters. */
module MockAuth {
  import opened Base
  import opened Text
  import opened Mock

  const UserNotFound: string := "Usuário não encontrado."
  const WrongPassword: string := "Senha incorreta."
  const UnderReview: string := "Sua conta ainda está em análise. Aguarde a aprovação do administrador."
  const AccountSuspended: string := "Esta conta foi suspensa. Entre em contato com o suporte."
  const AllRequired: string := "Todos os campos são obrigatórios."
  const EmailInUse: string := "Este email já está cadastrado."
  const RegisteredNotice: string := "Cadastro realizado com sucesso! Sua conta está aguardando aprovação do administrador."
  const OwnerEmail: string := "admin@saas.com"

  predicate SameEmail(t: Tenant, email: string) {
    LowerStr(t.email) == LowerStr(email)
  }

  /** `loadedTenants.find(...)`: the position of the first tenant whose
      address matches. */
  function FindByEmail(tenants: seq<Tenant>, email: string): (r: Option<nat>)
    ensures r.Some? ==> r.value < |tenants| && SameEmail(tenants[r.value], email)
    ensures r.Some? ==> forall k :: 0 <= k < r.value ==> !SameEmail(tenants[k], email)
    ensures r.None? <==> forall k :: 0 <= k < |tenants| ==> !SameEmail(tenants[k], email)
  {
    if tenants == [] then None
    else if SameEmail(tenants[0], email) then Some(0)
    else
      match FindByEmail(tenants[1..], email)
      case None => None
      case Some(k) => Some(k + 1)
  }

  datatype LoginResult = LoginError(message: string) | LoggedIn(user: Tenant, role: Role)

  /** `handleLoginSubmit`'s decision; `LoggedIn` is the call of `onLogin`. */
  function Login(tenants: seq<Tenant>, email: string, password: string): (r: LoginResult)
    ensures r == LoginError(UserNotFound) <==> FindByEmail(tenants, email).None?
    ensures r == LoginError(WrongPassword) <==>
      FindByEmail(tenants, email).Some? && tenants[FindByEmail(tenants, email).value].password != Some(password)
    ensures r == LoginError(UnderReview) <==>
      && FindByEmail(tenants, email).Some?
      && tenants[FindByEmail(tenants, email).value].password == Some(password)
      && tenants[FindByEmail(tenants, email).value].status == Pending
    ensures r == LoginError(AccountSuspended) <==>
      && FindByEmail(tenants, email).Some?
      && tenants[FindByEmail(tenants, email).value].password == Some(password)
      && tenants[FindByEmail(tenants, email).value].status == Suspended
    ensures r.LoggedIn? <==>
      && FindByEmail(tenants, email).Some?
      && tenants[FindByEmail(tenants, email).value].password == Some(password)
      && tenants[FindByEmail(tenants, email).value].status == Active
    ensures r.LoggedIn? ==>
      && r.user == tenants[FindByEmail(tenants, email).value]
      && (r.role == SuperAdmin <==> r.user.email == OwnerEmail)
      && (r.role != SuperAdmin ==> r.role == ClinicAdmin)
  {
    match FindByEmail(tenants, email)
    case None => LoginError(UserNotFound)
    case Some(i) =>
      var user := tenants[i];
      if user.password != Some(password) then LoginError(WrongPassword)
      else if user.status == Pending then LoginError(UnderReview)
      else if user.status == Suspended then LoginError(AccountSuspended)
      else
        assert user.status == Active;
        LoggedIn(user, if user.email == OwnerEmail then SuperAdmin else ClinicAdmin)
  }

  /** Only the first matching tenant is tried: a later one with the same
      address and the right password cannot sign in. */
  lemma FirstMatchShadowsLater(a: Tenant, b: Tenant, email: string, password: string)
    requires SameEmail(a, email) && SameEmail(b, email)
    requires a.password != Some(password) && b.password == Some(password) && b.status == Active
    ensures Login([a, b], email, password) == LoginError(WrongPassword)
  {
  }

  /** The owner's role needs the stored address exactly: a capitalised copy
      of it signs in as a clinic. */
  lemma OwnerRoleNeedsExactAddress(t: Tenant, password: string)
    requires t.email == "Admin@saas.com" && t.password == Some(password) && t.status == Active
    ensures Login([t], OwnerEmail, password) == LoggedIn(t, ClinicAdmin)
  {
    assert LowerStr(t.email) == LowerStr(OwnerEmail) by {
      assert LowerStr(t.email)[0] == 'a';
      assert LowerStr(t.email)[1..] == t.email[1..] == OwnerEmail[1..] == LowerStr(OwnerEmail)[1..];
    }
  }

  /** The address typed at sign-in may be in any letter case. */
  lemma {:induction false} FindIgnoresCase(tenants: seq<Tenant>, email: string)
    ensures FindByEmail(tenants, email) == FindByEmail(tenants, LowerStr(email))
  {
    LowerStrIdempotent(email);
    if tenants != [] {
      FindIgnoresCase(tenants[1..], email);
    }
  }

  lemma SignInIgnoresCase(tenants: seq<Tenant>, email: string, password: string)
    ensures Login(tenants, email, password) == Login(tenants, LowerStr(email), password)
  {
    FindIgnoresCase(tenants, email);
  }

  predicate AllFilled(name: string, clinicName: string, email: string, password: string) {
    name != "" && clinicName != "" && email != "" && password != ""
  }

  datatype RegisterResult = RegisterError(message: string) | Registered(tenant: Tenant)

  /** The new tenant: id "t-" and the timestamp, the form's fields, plan PRO,
      status PENDING and the current date. */
  function Applicant(name: string, clinicName: string, email: string, password: string, now: nat, today: string): (r: Tenant) {
    Tenant("t-" + Decimal(now), clinicName, name, email, Some(password), "PRO", Pending, None, today)
  }

  /** `handleRegisterSubmit`'s decision; `Registered` is the call of `onRegister`. */
  function Register(tenants: seq<Tenant>, name: string, clinicName: string, email: string, password: string,
                    now: nat, today: string): (r: RegisterResult)
    ensures r == RegisterError(AllRequired) <==> !AllFilled(name, clinicName, email, password)
    ensures r == RegisterError(EmailInUse) <==>
      AllFilled(name, clinicName, email, password) && FindByEmail(tenants, email).Some?
    ensures r.Registered? <==> AllFilled(name, clinicName, email, password) && FindByEmail(tenants, email).None?
    ensures r.Registered? ==>
      && r.tenant == Applicant(name, clinicName, email, password, now, today)
      && r.tenant.status == Pending && r.tenant.plan == "PRO"
  {
    if !AllFilled(name, clinicName, email, password) then RegisterError(AllRequired)
    else if FindByEmail(tenants, email).Some? then RegisterError(EmailInUse)
    else Registered(Applicant(name, clinicName, email, password, now, today))
  }

  /** A tenant appended after others that do not share its address is the
      one found for it. */
  lemma FindAppended(tenants: seq<Tenant>, t: Tenant, email: string)
    requires FindByEmail(tenants, email).None? && SameEmail(t, email)
    ensures FindByEmail(tenants + [t], email) == Some(|tenants|)
  {
    var all := tenants + [t];
    assert forall k :: 0 <= k < |tenants| ==> all[k] == tenants[k];
    assert all[|tenants|] == t;
  }

  /** Whoever registers, once added to the list, is told at sign-in that the
      account is under review. */
  lemma RegisteredAccountAwaitsApproval(tenants: seq<Tenant>, name: string, clinicName: string, email: string,
                                        password: string, now: nat, today: string)
    requires Register(tenants, name, clinicName, email, password, now, today).Registered?
    ensures var t := Register(tenants, name, clinicName, email, password, now, today).tenant;
      Login(tenants + [t], email, password) == LoginError(UnderReview)
  {
    var t := Register(tenants, name, clinicName, email, password, now, today).tenant;
    FindAppended(tenants, t, email);
  }

  /** The form's state. */
  class AuthForm {
    var isLogin: bool
    var error: string
    var success: string
    var email: string
    var password: string
    var name: string
    var clinicName: string

    constructor ()
      ensures isLogin && error == "" && success == ""
      ensures email == "" && password == "" && name == "" && clinicName == ""
    {
      isLogin, error, success := true, "", "";
      email, password, name, clinicName := "", "", "", "";
    }

    /** `handleLoginSubmit`: clears both messages, then shows the decision's
        error, if any; the typed fields stay. */
    method LoginSubmit(tenants: seq<Tenant>) returns (r: LoginResult)
      modifies this
      ensures r == Login(tenants, old(email), old(password))
      ensures error == (if r.LoginError? then r.message else "") && success == ""
      ensures isLogin == old(isLogin) && email == old(email) && password == old(password)
      ensures name == old(name) && clinicName == old(clinicName)
    {
      error := "";
      success := "";
      r := Login(tenants, email, password);
      if r.LoginError? {
        error := r.message;
      }
    }

    /** `handleRegisterSubmit`: clears the error; on success shows the notice,
        switches to sign-in and empties the four fields. */
    method RegisterSubmit(tenants: seq<Tenant>, now: nat, today: string) returns (r: RegisterResult)
      modifies this
      ensures r == Register(tenants, old(name), old(clinicName), old(email), old(password), now, today)
      ensures r.RegisterError? ==>
        && error == r.message && success == old(success) && isLogin == old(isLogin)
        && email == old(email) && password == old(password) && name == old(name) && clinicName == old(clinicName)
      ensures r.Registered? ==>
        && error == "" && success == RegisteredNotice && isLogin
        && email == "" && password == "" && name == "" && clinicName == ""
    {
      error := "";
      r := Register(tenants, name, clinicName, email, password, now, today);
      if r.RegisterError? {
        error := r.message;
        return;
      }
      success := RegisteredNotice;
      isLogin := true;
      name := "";
      clinicName := "";
      email := "";
      password := "";
    }
  }
}
