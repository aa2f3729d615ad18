/** The relational store behind the route handlers, held in memory: one field
    per table. Row identifiers (cuid values the database generates) are
    passed in by the callers; a row that would break a unique constraint
    makes the database throw, which the handlers turn into an error reply. */
module Db {
  import opened Base

  datatype TenantRow = TenantRow(
    id: string,
    name: string,
    slug: string,
    subscriptionStatus: string,
    trialEndsAt: Option<int>,
    mercadoPagoCustomerId: Option<string>)

  /** `role` is `None` when the creating code sets no role and the column
      default applies. */
  datatype UserRow = UserRow(
    id: string,
    email: string,
    name: Option<string>,
    password: Option<string>,
    role: Option<string>,
    tenantId: Option<string>)

  /** `price` in integer cents; `createdAt` in milliseconds. */
  datatype ProductRow = ProductRow(
    id: string,
    tenantId: string,
    name: string,
    description: Option<string>,
    price: int,
    imageUrl: Option<string>,
    sku: Option<string>,
    category: string,
    unit: string,
    minStockLevel: int,
    createdAt: int)

  /** `expirationDate` in milliseconds; costs in integer cents. */
  datatype BatchRow = BatchRow(
    id: string,
    tenantId: string,
    productId: string,
    lotCode: Option<string>,
    quantity: int,
    expirationDate: int,
    totalCost: Option<int>,
    unitCost: Option<int>)

  /** The append-only billing log; `amount` in integer cents. */
  datatype SubscriptionRow = SubscriptionRow(
    mercadoPagoId: string,
    amount: int,
    status: string,
    tenantId: string)

  predicate EmailTaken(users: seq<UserRow>, email: string) {
    exists i :: 0 <= i < |users| && users[i].email == email
  }

  predicate UserIdTaken(users: seq<UserRow>, id: string) {
    exists i :: 0 <= i < |users| && users[i].id == id
  }

  predicate SlugTaken(tenants: map<string, TenantRow>, slug: string) {
    exists id :: id in tenants && tenants[id].slug == slug
  }

  /** `findUnique({ where: { email } })`: the user with that email, if any. */
  function UserByEmail(users: seq<UserRow>, email: string): (r: Option<UserRow>)
    ensures r.None? <==> !EmailTaken(users, email)
    ensures r.Some? ==> r.value in users && r.value.email == email
  {
    if users == [] then None
    else if users[0].email == email then Some(users[0])
    else
      var r := UserByEmail(users[1..], email);
      assert forall i :: 1 <= i < |users| ==> users[i] == users[1..][i - 1];
      r
  }

  /** Whether the tenant and its first user can be inserted together without
      breaking a unique constraint (tenant id, slug, user id, email). */
  predicate CanInsert(tenants: map<string, TenantRow>, users: seq<UserRow>, t: TenantRow, u: UserRow) {
    t.id !in tenants && !SlugTaken(tenants, t.slug) && !UserIdTaken(users, u.id) && !EmailTaken(users, u.email)
  }

  class Database {
    var tenants: map<string, TenantRow>
    var users: seq<UserRow>
    var products: seq<ProductRow>
    var batches: seq<BatchRow>
    var subscriptions: seq<SubscriptionRow>

    /** The unique constraints: tenants are keyed by their id, slugs are
        unique, and user ids and emails are unique. */
    ghost predicate Valid()
      reads this
    {
      && (forall id :: id in tenants ==> tenants[id].id == id)
      && (forall a, b :: a in tenants && b in tenants && a != b ==> tenants[a].slug != tenants[b].slug)
      && (forall i, j :: 0 <= i < j < |users| ==> users[i].email != users[j].email && users[i].id != users[j].id)
    }

    constructor ()
      ensures Valid()
      ensures tenants == map[] && users == [] && products == [] && batches == [] && subscriptions == []
    {
      tenants, users, products, batches, subscriptions := map[], [], [], [], [];
    }

    /** `$transaction`: inserts the tenant and its user together, or neither
        when a unique constraint would be broken. */
    method InsertTenantWithUser(t: TenantRow, u: UserRow) returns (ok: bool)
      requires Valid()
      modifies this
      ensures Valid()
      ensures ok == CanInsert(old(tenants), old(users), t, u)
      ensures ok ==> tenants == old(tenants)[t.id := t] && users == old(users) + [u]
      ensures !ok ==> tenants == old(tenants) && users == old(users)
      ensures products == old(products) && batches == old(batches) && subscriptions == old(subscriptions)
    {
      ok := CanInsert(tenants, users, t, u);
      if ok {
        tenants := tenants[t.id := t];
        users := users + [u];
      }
    }

    /** `product.create`, with its nested first batch when there is one. */
    method InsertProduct(p: ProductRow, first: Option<BatchRow>)
      requires Valid()
      modifies this
      ensures Valid()
      ensures products == old(products) + [p]
      ensures batches == old(batches) + (if first.Some? then [first.value] else [])
      ensures tenants == old(tenants) && users == old(users) && subscriptions == old(subscriptions)
    {
      products := products + [p];
      if first.Some? {
        batches := batches + [first.value];
      }
    }

    /** `batch.create`. */
    method InsertBatch(b: BatchRow)
      requires Valid()
      modifies this
      ensures Valid()
      ensures batches == old(batches) + [b]
      ensures tenants == old(tenants) && users == old(users) && products == old(products)
      ensures subscriptions == old(subscriptions)
    {
      batches := batches + [b];
    }
  }
}
