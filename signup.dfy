/** The signup route (app/api/signup/route.ts), whose validation, slug rule
    and transaction the signup server action (actions/signup.ts) repeats
    line for line: three required fields, a password of at least 8
    characters, a duplicate check on the e-mail address exactly as given,
    `generateSlug` with a decimal timestamp appended once on a collision, and
    one transaction inserting a PENDING tenant and its user. */
module Signup {
  import opened Base
  import opened Text
  import opened Db
  import Slug

  /** The fields read from the body; `ownerName` is optional. */
  datatype SignupData = SignupData(
    clinicName: Option<string>,
    email: Option<string>,
    password: Option<string>,
    ownerName: Option<string>)

  datatype Reply = Success | BadRequest(error: string) | ServerError(error: string)

  const AllRequired: string := "Todos os campos são obrigatórios"
  const PasswordTooShort: string := "A senha deve ter no mínimo 8 caracteres"
  const EmailInUse: string := "Este email já está cadastrado"
  const CreateFailed: string := "Erro ao criar conta. Tente novamente."

  const MinPasswordLength: nat := 8

  /** `!email || !password || !clinicName` fails; the owner's name is not required. */
  predicate AllGiven(d: SignupData) {
    Truthy(d.email) && Truthy(d.password) && Truthy(d.clinicName)
  }

  /** The guards in their order; `None` when the data passes them all. */
  function Rejection(d: SignupData, users: seq<UserRow>): (r: Option<string>)
    ensures r == Some(AllRequired) <==> !AllGiven(d)
    ensures r == Some(PasswordTooShort) <==> AllGiven(d) && Utf16Length(d.password.value) < MinPasswordLength
    ensures r == Some(EmailInUse) <==>
      AllGiven(d) && Utf16Length(d.password.value) >= MinPasswordLength && EmailTaken(users, d.email.value)
    ensures r.None? <==>
      AllGiven(d) && Utf16Length(d.password.value) >= MinPasswordLength && !EmailTaken(users, d.email.value)
  {
    if !AllGiven(d) then Some(AllRequired)
    else if Utf16Length(d.password.value) < MinPasswordLength then Some(PasswordTooShort)
    else if UserByEmail(users, d.email.value).Some? then Some(EmailInUse)
    else None
  }

  /** The slug collision rule: `generateSlug(clinicName)`, and when a tenant
      already has that slug, the same followed by "-" and `Date.now()` in
      decimal. The new slug is not looked up again. */
  function UniqueSlug(clinicName: string, tenants: map<string, TenantRow>, now: nat): (r: string)
    ensures !SlugTaken(tenants, Slug.GenerateSlug(clinicName)) ==> r == Slug.GenerateSlug(clinicName)
    ensures SlugTaken(tenants, Slug.GenerateSlug(clinicName)) ==>
      && |r| > |Slug.GenerateSlug(clinicName)| + 1
      && r[..|Slug.GenerateSlug(clinicName)| + 1] == Slug.GenerateSlug(clinicName) + "-"
      && r[|Slug.GenerateSlug(clinicName)| + 1..] == Decimal(now)
  {
    var slug := Slug.GenerateSlug(clinicName);
    if SlugTaken(tenants, slug) then
      var r := slug + "-" + Decimal(now);
      assert r[..|slug| + 1] == slug + "-";
      r
    else slug
  }

  /** The chosen slug is always in `[a-z0-9-]` with no "--"; it has no dash
      at either end unless the clinic name has no letter or digit at all and
      its empty slug was taken, in which case it is "-" and the timestamp. */
  lemma UniqueSlugShape(clinicName: string, tenants: map<string, TenantRow>, now: nat)
    ensures var r := UniqueSlug(clinicName, tenants, now);
      && Slug.InSlugAlphabet(r) && Slug.NoDoubleDash(r)
      && (Slug.NoEdgeDash(r) <==> !(SlugTaken(tenants, Slug.GenerateSlug(clinicName)) && Slug.GenerateSlug(clinicName) == []))
  {
    var slug := Slug.GenerateSlug(clinicName);
    if SlugTaken(tenants, slug) {
      SuffixShape(slug, Decimal(now));
    }
  }

  /** A slug, "-" and a run of decimal digits. */
  lemma SuffixShape(slug: string, digits: string)
    requires Slug.InSlugAlphabet(slug) && Slug.NoDoubleDash(slug) && Slug.NoEdgeDash(slug)
    requires |digits| >= 1 && forall i :: 0 <= i < |digits| ==> '0' <= digits[i] <= '9'
    ensures var r := slug + "-" + digits;
      && Slug.InSlugAlphabet(r) && Slug.NoDoubleDash(r)
      && (Slug.NoEdgeDash(r) <==> slug != [])
  {
    var r := slug + "-" + digits;
    assert forall i :: |slug| < i < |r| ==> r[i] == digits[i - |slug| - 1];
    assert forall i :: 0 <= i < |slug| ==> r[i] == slug[i];
    assert r[|slug|] == '-';
    assert r[|r| - 1] == digits[|digits| - 1];
    if slug != [] {
      assert r[0] == slug[0];
    }
  }

  /** A suffixed slug may itself be taken; the insert then breaks the slug
      constraint and the route answers 500. */
  lemma SuffixedSlugCanClash(clinicName: string, tenants: map<string, TenantRow>, now: nat)
    requires SlugTaken(tenants, Slug.GenerateSlug(clinicName))
    requires SlugTaken(tenants, Slug.GenerateSlug(clinicName) + "-" + Decimal(now))
    ensures SlugTaken(tenants, UniqueSlug(clinicName, tenants, now))
  {
    var slug := Slug.GenerateSlug(clinicName);
    assert UniqueSlug(clinicName, tenants, now) == slug + "-" + Decimal(now);
  }

  /** The tenant row: status PENDING, no trial end and no customer id. */
  function NewTenant(d: SignupData, tenantId: string, slug: string): (r: TenantRow)
    requires AllGiven(d)
  {
    TenantRow(tenantId, d.clinicName.value, slug, "PENDING", None, None)
  }

  /** The user row: the e-mail address as given and no role, so the column
      default applies. */
  function NewUser(d: SignupData, userId: string, tenantId: string, hashed: string): (r: UserRow)
    requires AllGiven(d)
  {
    UserRow(userId, d.email.value, d.ownerName, Some(hashed), None, Some(tenantId))
  }

  /** The validation, the slug rule and the transaction, shared by the route
      and the action: `rejected` is the first failing guard's message, and
      `ok` says whether the two rows were inserted. */
  method Create(db: Database, d: SignupData, now: nat, tenantId: string, userId: string, hashed: string)
    returns (rejected: Option<string>, ok: bool)
    requires db.Valid()
    modifies db
    ensures db.Valid()
    ensures db.products == old(db.products) && db.batches == old(db.batches)
    ensures db.subscriptions == old(db.subscriptions)
    ensures rejected == Rejection(d, old(db.users))
    ensures ok <==> rejected.None? && CanInsert(old(db.tenants), old(db.users),
      NewTenant(d, tenantId, UniqueSlug(d.clinicName.value, old(db.tenants), now)),
      NewUser(d, userId, tenantId, hashed))
    ensures ok ==>
      && db.tenants == old(db.tenants)[tenantId := NewTenant(d, tenantId, UniqueSlug(d.clinicName.value, old(db.tenants), now))]
      && db.users == old(db.users) + [NewUser(d, userId, tenantId, hashed)]
    ensures !ok ==> db.tenants == old(db.tenants) && db.users == old(db.users)
  {
    rejected := Rejection(d, db.users);
    if rejected.Some? {
      return rejected, false;
    }
    var slug := Slug.GenerateSlug(d.clinicName.value);
    if SlugTaken(db.tenants, slug) {
      slug := slug + "-" + Decimal(now);
    }
    ok := db.InsertTenantWithUser(NewTenant(d, tenantId, slug), NewUser(d, userId, tenantId, hashed));
  }

  /** `POST` of app/api/signup/route.ts: a body that is not JSON or a failed
      transaction is a 500, a rejected body a 400, and success `{success: true}`. */
  method Post(db: Database, body: Option<SignupData>, now: nat, tenantId: string, userId: string, hashed: string)
    returns (reply: Reply)
    requires db.Valid()
    modifies db
    ensures db.Valid()
    ensures db.products == old(db.products) && db.batches == old(db.batches)
    ensures db.subscriptions == old(db.subscriptions)
    ensures body.None? ==> reply == ServerError(CreateFailed) && db.tenants == old(db.tenants) && db.users == old(db.users)
    ensures body.Some? && Rejection(body.value, old(db.users)).Some? ==>
      reply == BadRequest(Rejection(body.value, old(db.users)).value)
    ensures reply == Success <==>
      && body.Some? && Rejection(body.value, old(db.users)).None?
      && CanInsert(old(db.tenants), old(db.users),
           NewTenant(body.value, tenantId, UniqueSlug(body.value.clinicName.value, old(db.tenants), now)),
           NewUser(body.value, userId, tenantId, hashed))
    ensures (body.Some? && Rejection(body.value, old(db.users)).None?
             && !CanInsert(old(db.tenants), old(db.users),
                  NewTenant(body.value, tenantId, UniqueSlug(body.value.clinicName.value, old(db.tenants), now)),
                  NewUser(body.value, userId, tenantId, hashed)))
      ==> reply == ServerError(CreateFailed)
    ensures reply == Success ==>
      && db.tenants == old(db.tenants)[tenantId := NewTenant(body.value, tenantId, UniqueSlug(body.value.clinicName.value, old(db.tenants), now))]
      && db.users == old(db.users) + [NewUser(body.value, userId, tenantId, hashed)]
    ensures reply != Success ==> db.tenants == old(db.tenants) && db.users == old(db.users)
  {
    if body.None? {
      return ServerError(CreateFailed);
    }
    var rejected, ok := Create(db, body.value, now, tenantId, userId, hashed);
    if rejected.Some? {
      return BadRequest(rejected.value);
    }
    if !ok {
      return ServerError(CreateFailed);
    }
    return Success;
  }

  /** The duplicate check compares addresses exactly: an address that
      differs from a stored one only in letter case passes it. */
  lemma CaseVariantAccepted(stored: UserRow, d: SignupData)
    requires stored.email == "A@b" && d.email == Some("a@b")
    requires Truthy(d.password) && Utf16Length(d.password.value) >= MinPasswordLength && Truthy(d.clinicName)
    ensures Rejection(d, [stored]) == None
  {
    assert !EmailTaken([stored], "a@b");
  }

  /** The guard counts UTF-16 code units: seven characters up to U+FFFF are
      refused, eight characters of any kind pass, and so do seven when one of
      them lies above U+FFFF; four such characters alone already pass. */
  lemma EightCharactersRequired(d: SignupData, users: seq<UserRow>)
    requires AllGiven(d)
    ensures var p := d.password.value;
      && (|p| == 7 && (forall i :: 0 <= i < |p| ==> p[i] as int <= 0xFFFF) ==> Rejection(d, users) == Some(PasswordTooShort))
      && (|p| >= 8 ==> Rejection(d, users) != Some(PasswordTooShort))
      && (|p| == 7 && (exists i :: 0 <= i < |p| && p[i] as int > 0xFFFF) ==> Rejection(d, users) != Some(PasswordTooShort))
      && (|p| == 4 && (forall i :: 0 <= i < |p| ==> p[i] as int > 0xFFFF) ==> Rejection(d, users) != Some(PasswordTooShort))
  {
  }
}
