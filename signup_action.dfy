/** The signup server action (actions/signup.ts): the same validation, slug
    rule and transaction as the signup route, returned as `{ error }` or as a
    redirect to the payment page. */
module SignupAction {
  import opened Base
  import opened Db
  import opened Signup
  import Middleware

  /** `{ error }`, or the `redirect` that ends the action. */
  datatype Outcome = Error(message: string) | Redirect(location: string)

  const WelcomePath: string := "/payment-required?welcome=true"

  /** `signupAction`: the first failing guard returns its message and writes
      nothing; a failed transaction returns an error, persists nothing and
      does not redirect; success inserts the PENDING tenant and its user and
      redirects to the payment page. */
  method Action(db: Database, d: SignupData, now: nat, tenantId: string, userId: string, hashed: string)
    returns (outcome: Outcome)
    requires db.Valid()
    modifies db
    ensures db.Valid()
    ensures db.products == old(db.products) && db.batches == old(db.batches)
    ensures db.subscriptions == old(db.subscriptions)
    ensures Rejection(d, old(db.users)).Some? ==> outcome == Error(Rejection(d, old(db.users)).value)
    ensures outcome == Redirect(WelcomePath) <==>
      && Rejection(d, old(db.users)).None?
      && CanInsert(old(db.tenants), old(db.users),
           NewTenant(d, tenantId, UniqueSlug(d.clinicName.value, old(db.tenants), now)),
           NewUser(d, userId, tenantId, hashed))
    ensures outcome.Redirect? ==>
      && outcome.location == WelcomePath
      && db.tenants == old(db.tenants)[tenantId := NewTenant(d, tenantId, UniqueSlug(d.clinicName.value, old(db.tenants), now))]
      && db.users == old(db.users) + [NewUser(d, userId, tenantId, hashed)]
    ensures outcome.Error? ==> db.tenants == old(db.tenants) && db.users == old(db.users)
    ensures outcome.Error? && Rejection(d, old(db.users)).None? ==> outcome.message == CreateFailed
  {
    var rejected, ok := Create(db, d, now, tenantId, userId, hashed);
    if rejected.Some? {
      return Error(rejected.value);
    }
    if !ok {
      return Error(CreateFailed);
    }
    return Redirect(WelcomePath);
  }

  /** The redirect's path, "/payment-required", is public, so the gate lets
      the new user reach it whatever the session holds. */
  lemma WelcomePageIsPublic(token: Option<Middleware.Token>)
    ensures Middleware.Gate(WelcomePath[..17], token) == Middleware.Next
  {
    assert WelcomePath[..17] == "/payment-required";
    Middleware.PublicPrefixesProceed(WelcomePath[..17], token);
  }
}
