/** The batches route (app/api/batches/route.ts). POST adds one batch to a
    product of the session's tenant; a product that does not exist and one
    that belongs to another tenant give the same 404. GET lists the batches
    whose product belongs to the session's tenant, soonest expiry first. */
module Batches {
  import opened Base
  import opened Db

  /** The fields read from the JSON body: the product id, the quantity and
      the expiration date as a millisecond timestamp. */
  datatype BatchBody = BatchBody(productId: Option<string>, quantity: Option<int>, expirationDate: Option<int>)

  datatype CreateReply =
    | Unauthorized
    | BadRequest(error: string)
    | NotFound(error: string)
    | Created(batch: BatchRow)
    | ServerError(error: string)

  /** `select: { id: true, name: true, category: true }` on the batch's product. */
  datatype ProductSummary = ProductSummary(id: string, name: string, category: string)

  /** A listed batch with its product's summary. */
  datatype ListedBatch = ListedBatch(batch: BatchRow, product: ProductSummary)

  datatype ListReply = NotAuthorized | Listed(batches: seq<ListedBatch>)

  const FieldsRequired: string := "Produto, quantidade e data de validade são obrigatórios"
  const ProductNotFound: string := "Produto não encontrado"
  const CreateFailed: string := "Erro ao criar lote"

  /** `!productId || !quantity || !expirationDate`: a quantity of 0 is refused. */
  predicate Acceptable(b: BatchBody) {
    Truthy(b.productId) && TruthyNum(b.quantity) && b.expirationDate.Some?
  }

  /** `product.findFirst({ where: { id, tenantId } })` finds a row. */
  predicate OwnedBy(products: seq<ProductRow>, productId: string, tenantId: string) {
    exists i :: 0 <= i < |products| && products[i].id == productId && products[i].tenantId == tenantId
  }

  /** The created row: no lot code and no costs. */
  function NewBatch(b: BatchBody, id: string, tenantId: string): (r: BatchRow)
    requires Acceptable(b)
    ensures r.id == id && r.tenantId == tenantId && r.productId == b.productId.value
    ensures r.quantity == b.quantity.value && r.quantity != 0 && r.expirationDate == b.expirationDate.value
    ensures r.lotCode.None? && r.totalCost.None? && r.unitCost.None?
  {
    BatchRow(id, tenantId, b.productId.value, None, b.quantity.value, b.expirationDate.value, None, None)
  }

  /** `POST`: 401 without a session tenant, 500 for a body that is not JSON,
      400 for a missing field, 404 unless the product is the session
      tenant's, otherwise 201 and exactly one batch appended. */
  method Post(db: Database, session: Option<string>, body: Option<BatchBody>, id: string)
    returns (reply: CreateReply)
    requires db.Valid()
    modifies db
    ensures db.Valid()
    ensures db.tenants == old(db.tenants) && db.users == old(db.users) && db.products == old(db.products)
    ensures db.subscriptions == old(db.subscriptions)
    ensures reply == Unauthorized <==> !Truthy(session)
    ensures Truthy(session) && body.None? ==> reply == ServerError(CreateFailed)
    ensures Truthy(session) && body.Some? && !Acceptable(body.value) ==> reply == BadRequest(FieldsRequired)
    ensures reply == NotFound(ProductNotFound) <==>
      Truthy(session) && body.Some? && Acceptable(body.value)
      && !OwnedBy(db.products, body.value.productId.value, session.value)
    ensures reply.Created? <==>
      Truthy(session) && body.Some? && Acceptable(body.value)
      && OwnedBy(db.products, body.value.productId.value, session.value)
    ensures reply.Created? ==>
      reply.batch == NewBatch(body.value, id, session.value) && db.batches == old(db.batches) + [reply.batch]
    ensures !reply.Created? ==> db.batches == old(db.batches)
  {
    if !Truthy(session) {
      return Unauthorized;
    }
    if body.None? {
      return ServerError(CreateFailed);
    }
    var b := body.value;
    if !Acceptable(b) {
      return BadRequest(FieldsRequired);
    }
    if !OwnedBy(db.products, b.productId.value, session.value) {
      return NotFound(ProductNotFound);
    }
    var batch := NewBatch(b, id, session.value);
    db.InsertBatch(batch);
    return Created(batch);
  }

  /** `where: { product: { tenantId } }`: the batch's product is one of the
      tenant's; the batch's own tenant column is not consulted. */
  predicate ProductOfTenant(products: seq<ProductRow>, tenantId: string, b: BatchRow) {
    OwnedBy(products, b.productId, tenantId)
  }

  /** The batches of the tenant's products, `orderBy: { expirationDate: "asc" }`. */
  function TenantBatches(batches: seq<BatchRow>, products: seq<ProductRow>, tenantId: string): (r: seq<BatchRow>)
    ensures multiset(r) == multiset(Filter(batches, (b: BatchRow) => ProductOfTenant(products, tenantId, b)))
    ensures forall i, j :: 0 <= i < j < |r| ==> r[i].expirationDate <= r[j].expirationDate
  {
    SortBy(Filter(batches, (b: BatchRow) => ProductOfTenant(products, tenantId, b)), (b: BatchRow) => b.expirationDate)
  }

  /** A batch is listed exactly when it is stored and its product belongs to
      the session's tenant. */
  lemma TenantBatchesScoped(batches: seq<BatchRow>, products: seq<ProductRow>, tenantId: string, b: BatchRow)
    ensures b in TenantBatches(batches, products, tenantId) <==> b in batches && ProductOfTenant(products, tenantId, b)
  {
    var keep := (x: BatchRow) => ProductOfTenant(products, tenantId, x);
    var kept := Filter(batches, keep);
    FilterMembers(batches, keep);
    assert b in TenantBatches(batches, products, tenantId) <==> b in multiset(kept);
    if b in batches && keep(b) {
      var i :| 0 <= i < |batches| && batches[i] == b;
      assert b in kept;
    }
  }

  function Summary(p: ProductRow): (r: ProductSummary) {
    ProductSummary(p.id, p.name, p.category)
  }

  /** The first of the tenant's products with that id. */
  function FirstOwned(products: seq<ProductRow>, productId: string, tenantId: string): (r: nat)
    requires OwnedBy(products, productId, tenantId)
    ensures r < |products| && products[r].id == productId && products[r].tenantId == tenantId
    ensures forall k :: 0 <= k < r ==> !(products[k].id == productId && products[k].tenantId == tenantId)
  {
    if products[0].id == productId && products[0].tenantId == tenantId then 0
    else
      assert OwnedBy(products[1..], productId, tenantId) by {
        var i :| 0 <= i < |products| && products[i].id == productId && products[i].tenantId == tenantId;
        assert products[1..][i - 1] == products[i];
      }
      1 + FirstOwned(products[1..], productId, tenantId)
  }

  /** The listed batch carries the summary of its own product, one of the
      tenant's. */
  predicate Joined(products: seq<ProductRow>, tenantId: string, l: ListedBatch) {
    exists k :: 0 <= k < |products| && products[k].id == l.batch.productId && products[k].tenantId == tenantId
      && l.product == Summary(products[k])
  }

  /** `include: { product: ... }` on one listed batch. */
  function WithProduct(b: BatchRow, products: seq<ProductRow>, tenantId: string): (r: ListedBatch)
    requires ProductOfTenant(products, tenantId, b)
    ensures r.batch == b && Joined(products, tenantId, r)
  {
    ListedBatch(b, Summary(products[FirstOwned(products, b.productId, tenantId)]))
  }

  /** `GET`: the tenant's batches, soonest expiry first, each with its
      product's id, name and category. */
  function Get(session: Option<string>, batches: seq<BatchRow>, products: seq<ProductRow>): (r: ListReply)
    ensures r.NotAuthorized? <==> !Truthy(session)
    ensures r.Listed? ==> |r.batches| == |TenantBatches(batches, products, session.value)|
    ensures r.Listed? ==> forall i :: 0 <= i < |r.batches| ==>
      r.batches[i].batch == TenantBatches(batches, products, session.value)[i]
      && Joined(products, session.value, r.batches[i])
  {
    if !Truthy(session) then NotAuthorized
    else
      var listed := TenantBatches(batches, products, session.value);
      assert forall i :: 0 <= i < |listed| ==> ProductOfTenant(products, session.value, listed[i]) by {
        forall i | 0 <= i < |listed| ensures ProductOfTenant(products, session.value, listed[i]) {
          TenantBatchesScoped(batches, products, session.value, listed[i]);
        }
      }
      Listed(seq(|listed|, i requires 0 <= i < |listed| => WithProduct(listed[i], products, session.value)))
  }

  /** A missing product and another tenant's product are answered alike. */
  lemma ForeignProductLooksMissing(products: seq<ProductRow>, b: BatchBody, tenantId: string, other: string)
    requires Acceptable(b) && other != tenantId
    requires forall i :: 0 <= i < |products| && products[i].id == b.productId.value ==> products[i].tenantId == other
    ensures !OwnedBy(products, b.productId.value, tenantId)
  {
  }
}
