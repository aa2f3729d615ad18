/** The clinic self-registration route (app/api/register/route.ts): four
    required fields, a password of at least 6 characters, an e-mail address
    that is lower-cased both for the duplicate lookup and for storage, a slug
    ending in a base-36 timestamp, and one transaction that inserts a PENDING
    tenant together with its CLINIC_ADMIN user. The clock, the generated row
    ids and the password hash are parameters. */
module Register {
  import opened Base
  import opened Text
  import opened Db
  import Slug
  import Auth

  /** The fields read from the JSON body; `None` when a field is absent. */
  datatype RegisterBody = RegisterBody(
    name: Option<string>,
    clinicName: Option<string>,
    email: Option<string>,
    password: Option<string>)

  /** 201 with the new tenant's id, 400 with a message, or 500. */
  datatype Reply = Created(tenantId: string) | BadRequest(error: string) | ServerError(error: string)

  const AllRequired: string := "Todos os campos são obrigatórios"
  const PasswordTooShort: string := "A senha deve ter no mínimo 6 caracteres"
  const EmailInUse: string := "Este email já está cadastrado"
  const RegisterFailed: string := "Erro ao realizar cadastro"

  const MinPasswordLength: nat := 6

  predicate AllGiven(b: RegisterBody) {
    Truthy(b.name) && Truthy(b.clinicName) && Truthy(b.email) && Truthy(b.password)
  }

  /** The three guards in their order; `None` when the body passes them all.
      Each message is returned exactly when every earlier guard passed and
      its own fails. */
  function Rejection(b: RegisterBody, users: seq<UserRow>): (r: Option<string>)
    ensures r == Some(AllRequired) <==> !AllGiven(b)
    ensures r == Some(PasswordTooShort) <==> AllGiven(b) && Utf16Length(b.password.value) < MinPasswordLength
    ensures r == Some(EmailInUse) <==>
      AllGiven(b) && Utf16Length(b.password.value) >= MinPasswordLength && EmailTaken(users, LowerStr(b.email.value))
    ensures r.None? <==>
      AllGiven(b) && Utf16Length(b.password.value) >= MinPasswordLength && !EmailTaken(users, LowerStr(b.email.value))
  {
    if !AllGiven(b) then Some(AllRequired)
    else if Utf16Length(b.password.value) < MinPasswordLength then Some(PasswordTooShort)
    else if UserByEmail(users, LowerStr(b.email.value)).Some? then Some(EmailInUse)
    else None
  }

  /** The tenant row: status PENDING, no trial end and no customer id. */
  function NewTenant(b: RegisterBody, tenantId: string, now: nat): (r: TenantRow)
    requires AllGiven(b)
  {
    TenantRow(tenantId, b.clinicName.value, Slug.RegisterSlug(b.clinicName.value, now), "PENDING", None, None)
  }

  /** The user row: lower-cased e-mail, the hash, role CLINIC_ADMIN, linked to the tenant. */
  function NewUser(b: RegisterBody, userId: string, tenantId: string, hashed: string): (r: UserRow)
    requires AllGiven(b)
  {
    UserRow(userId, LowerStr(b.email.value), b.name, Some(hashed), Some("CLINIC_ADMIN"), Some(tenantId))
  }

  /** `POST`. A body that is not JSON is a 500 (None). A body rejected by a
      guard is a 400 and writes nothing; otherwise the tenant and its user
      are inserted together, or, when a unique constraint would be broken,
      neither is and the reply is 500. */
  method Post(db: Database, body: Option<RegisterBody>, now: nat, tenantId: string, userId: string, hashed: string)
    returns (reply: Reply)
    requires db.Valid()
    modifies db
    ensures db.Valid()
    ensures db.products == old(db.products) && db.batches == old(db.batches)
    ensures db.subscriptions == old(db.subscriptions)
    ensures body.None? ==> reply == ServerError(RegisterFailed)
    ensures body.Some? && Rejection(body.value, old(db.users)).Some? ==>
      reply == BadRequest(Rejection(body.value, old(db.users)).value)
    ensures reply.Created? <==>
      && body.Some? && Rejection(body.value, old(db.users)).None?
      && CanInsert(old(db.tenants), old(db.users), NewTenant(body.value, tenantId, now),
                   NewUser(body.value, userId, tenantId, hashed))
    ensures (body.Some? && Rejection(body.value, old(db.users)).None?
             && !CanInsert(old(db.tenants), old(db.users), NewTenant(body.value, tenantId, now),
                           NewUser(body.value, userId, tenantId, hashed)))
      ==> reply == ServerError(RegisterFailed)
    ensures reply.Created? ==>
      && reply.tenantId == tenantId
      && db.tenants == old(db.tenants)[tenantId := NewTenant(body.value, tenantId, now)]
      && db.users == old(db.users) + [NewUser(body.value, userId, tenantId, hashed)]
    ensures !reply.Created? ==> db.tenants == old(db.tenants) && db.users == old(db.users)
  {
    if body.None? {
      return ServerError(RegisterFailed);
    }
    var b := body.value;
    var rejected := Rejection(b, db.users);
    if rejected.Some? {
      return BadRequest(rejected.value);
    }
    var ok := db.InsertTenantWithUser(NewTenant(b, tenantId, now), NewUser(b, userId, tenantId, hashed));
    if !ok {
      return ServerError(RegisterFailed);
    }
    return Created(tenantId);
  }

  /** A successful registration creates one PENDING tenant and one
      CLINIC_ADMIN user linked to it, whose stored e-mail has no capital
      letter and whose slug is the clinic name's prefix and a timestamp. */
  lemma RegisteredRows(b: RegisterBody, tenantId: string, userId: string, hashed: string, now: nat)
    requires AllGiven(b)
    ensures var t := NewTenant(b, tenantId, now);
      var u := NewUser(b, userId, tenantId, hashed);
      && t.id == tenantId && t.subscriptionStatus == "PENDING" && t.name == b.clinicName.value
      && u.role == Some("CLINIC_ADMIN") && u.tenantId == Some(t.id)
      && LowerStr(u.email) == u.email
      && Slug.InSlugAlphabet(t.slug)
      && FromRadix(t.slug[|Slug.RegisterPrefix(b.clinicName.value)| + 1..], 36) == now
  {
    LowerStrIdempotent(b.email.value);
  }

  /** The guard counts UTF-16 code units: six characters of any kind pass,
      five up to U+FFFF are refused, and three above U+FFFF pass. */
  lemma SixCharactersAccepted(b: RegisterBody, users: seq<UserRow>)
    requires AllGiven(b)
    ensures var p := b.password.value;
      && (|p| >= 6 ==> Rejection(b, users) != Some(PasswordTooShort))
      && (|p| == 5 && (forall i :: 0 <= i < |p| ==> p[i] as int <= 0xFFFF) ==> Rejection(b, users) == Some(PasswordTooShort))
      && (|p| == 3 && (forall i :: 0 <= i < |p| ==> p[i] as int > 0xFFFF) ==> Rejection(b, users) != Some(PasswordTooShort))
  {
  }

  /** Once an address is stored, every address that differs from it only in
      letter case is refused: the lookup lower-cases like the insert does. */
  lemma CaseVariantRefused(users: seq<UserRow>, first: RegisterBody, second: RegisterBody, userId: string,
                           tenantId: string, hashed: string)
    requires AllGiven(first) && AllGiven(second) && |second.password.value| >= MinPasswordLength
    requires LowerStr(first.email.value) == LowerStr(second.email.value)
    ensures Rejection(second, users + [NewUser(first, userId, tenantId, hashed)]) == Some(EmailInUse)
  {
    var all := users + [NewUser(first, userId, tenantId, hashed)];
    assert all[|users|].email == LowerStr(second.email.value);
  }

  /** Sign-in looks the address up exactly as typed, so a user who
      registered as "A@b" is stored as "a@b" and cannot sign in as "A@b". */
  lemma MixedCaseSignInFails(userId: string, tenantId: string, hashed: string, password: string,
                             tenants: map<string, TenantRow>, matches: (string, string) -> bool)
    requires password != ""
    ensures var b := RegisterBody(Some("N"), Some("C"), Some("A@b"), Some(password));
      Auth.Authorize(Some(Auth.Credentials(Some("A@b"), Some(password))),
                     [NewUser(b, userId, tenantId, hashed)], tenants, matches)
      == Auth.Failed(Auth.InvalidCredentials)
  {
    var b := RegisterBody(Some("N"), Some("C"), Some("A@b"), Some(password));
    assert LowerStr("A@b") == "a@b";
    var users := [NewUser(b, userId, tenantId, hashed)];
    assert !EmailTaken(users, "A@b");
  }
}
