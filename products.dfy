/** The products route (app/api/products/route.ts). Both handlers are scoped
    to the tenant in the session: GET lists that tenant's products, newest
    first; POST validates the body, fills in defaults, and creates the
    product, together with a first batch when the body carries a positive
    quantity and an expiration date. The tenant always comes from the
    session, never from the body. */
module Products {
  import opened Base
  import opened Db

  /** The fields read from the JSON body; `None` when absent. Prices and
      costs are integer cents, the expiration date a millisecond timestamp. */
  datatype ProductBody = ProductBody(
    name: Option<string>,
    description: Option<string>,
    price: Option<int>,
    imageUrl: Option<string>,
    sku: Option<string>,
    category: Option<string>,
    unit: Option<string>,
    minStockLevel: Option<int>,
    lotCode: Option<string>,
    quantity: Option<int>,
    expirationDate: Option<int>,
    totalCost: Option<int>,
    unitCost: Option<int>)

  /** A listed product with `include: { batches: true }`. */
  datatype ListedProduct = ListedProduct(product: ProductRow, batches: seq<BatchRow>)

  datatype ListReply = Unauthorized | Listed(products: seq<ListedProduct>)

  datatype CreateReply =
    | NotAuthorized
    | BadRequest(error: string)
    | Created(product: ProductRow)
    | ServerError(error: string)

  const NameAndPriceRequired: string := "Nome e preço são obrigatórios"
  const CreateFailed: string := "Erro ao criar produto"

  const DefaultCategory: string := "Geral"
  const DefaultUnit: string := "unidade"
  const DefaultMinStockLevel: int := 5

  /** `where: { tenantId }, orderBy: { createdAt: "desc" }`. */
  function TenantProducts(products: seq<ProductRow>, tenantId: string): (r: seq<ProductRow>)
    ensures multiset(r) == multiset(Filter(products, (p: ProductRow) => p.tenantId == tenantId))
    ensures forall i, j :: 0 <= i < j < |r| ==> r[i].createdAt >= r[j].createdAt
  {
    SortBy(Filter(products, (p: ProductRow) => p.tenantId == tenantId), (p: ProductRow) => -p.createdAt)
  }

  /** The listing holds exactly the session tenant's products, each as often
      as it is stored. */
  lemma {:induction false} TenantProductsScoped(products: seq<ProductRow>, tenantId: string, p: ProductRow)
    ensures p in TenantProducts(products, tenantId) <==> p in products && p.tenantId == tenantId
  {
    var kept := Filter(products, (q: ProductRow) => q.tenantId == tenantId);
    FilterMembers(products, (q: ProductRow) => q.tenantId == tenantId);
    assert p in TenantProducts(products, tenantId) <==> p in multiset(kept);
    if p in products && p.tenantId == tenantId {
      var i :| 0 <= i < |products| && products[i] == p;
      assert p in kept;
    }
  }

  /** A product with its batches: exactly the stored batches that name it,
      in table order. */
  function WithBatches(p: ProductRow, batches: seq<BatchRow>): (r: ListedProduct)
    ensures r.product == p
    ensures forall b :: b in r.batches <==> b in batches && b.productId == p.id
    ensures IsSubsequence(r.batches, batches)
  {
    var keep := (b: BatchRow) => b.productId == p.id;
    FilterMembers(batches, keep);
    assert forall b :: b in Filter(batches, keep) <==> b in batches && keep(b) by {
      forall b ensures b in Filter(batches, keep) <==> b in batches && keep(b) {
        FilterIn(batches, keep, b);
      }
    }
    ListedProduct(p, Filter(batches, keep))
  }

  /** `GET`: the session tenant's products, newest first, each with its batches. */
  function Get(session: Option<string>, products: seq<ProductRow>, batches: seq<BatchRow>): (r: ListReply)
    ensures r.Unauthorized? <==> !Truthy(session)
    ensures r.Listed? ==> |r.products| == |TenantProducts(products, session.value)|
    ensures r.Listed? ==> forall i :: 0 <= i < |r.products| ==>
      r.products[i] == WithBatches(TenantProducts(products, session.value)[i], batches)
  {
    if !Truthy(session) then Unauthorized
    else
      var listed := TenantProducts(products, session.value);
      Listed(seq(|listed|, i requires 0 <= i < |listed| => WithBatches(listed[i], batches)))
  }

  /** `!name || price === undefined`: a price of 0 is accepted. */
  predicate Acceptable(b: ProductBody) {
    Truthy(b.name) && b.price.Some?
  }

  /** `quantity && quantity > 0 && expirationDate`. */
  predicate HasFirstBatch(b: ProductBody) {
    TruthyNum(b.quantity) && b.quantity.value > 0 && b.expirationDate.Some?
  }

  /** `productData`: the body's fields, the three defaults for falsy values,
      and the session's tenant. */
  function NewProduct(b: ProductBody, id: string, tenantId: string, now: int): (p: ProductRow)
    requires Acceptable(b)
    ensures p.id == id && p.tenantId == tenantId && p.name == b.name.value && p.price == b.price.value
    ensures p.category == (if Truthy(b.category) then b.category.value else DefaultCategory)
    ensures p.unit == (if Truthy(b.unit) then b.unit.value else DefaultUnit)
    ensures p.minStockLevel == (if TruthyNum(b.minStockLevel) then b.minStockLevel.value else DefaultMinStockLevel)
  {
    ProductRow(id, tenantId, b.name.value, b.description, b.price.value, b.imageUrl, b.sku,
               if Truthy(b.category) then b.category.value else DefaultCategory,
               if Truthy(b.unit) then b.unit.value else DefaultUnit,
               if TruthyNum(b.minStockLevel) then b.minStockLevel.value else DefaultMinStockLevel,
               now)
  }

  /** `productData.batches.create`. */
  function FirstBatch(b: ProductBody, batchId: string, productId: string, tenantId: string): (r: Option<BatchRow>)
    ensures r.Some? <==> HasFirstBatch(b)
    ensures r.Some? ==>
      && r.value.tenantId == tenantId && r.value.productId == productId
      && r.value.quantity == b.quantity.value && r.value.quantity > 0
      && r.value.expirationDate == b.expirationDate.value
  {
    if HasFirstBatch(b) then
      Some(BatchRow(batchId, tenantId, productId, b.lotCode, b.quantity.value, b.expirationDate.value,
                    b.totalCost, b.unitCost))
    else None
  }

  /** An explicit minimum stock level of 0 is falsy and becomes 5. */
  lemma ZeroMinimumBecomesFive(b: ProductBody, id: string, tenantId: string, now: int)
    requires Acceptable(b) && b.minStockLevel == Some(0)
    ensures NewProduct(b, id, tenantId, now).minStockLevel == 5
  {
  }

  /** `POST`: 401 without a session tenant, 500 for a body that is not JSON,
      400 without a name or a price, otherwise 201 with the new product. The
      product is appended to the product table and, when the body has one,
      its first batch to the batch table; nothing else changes. */
  method Post(db: Database, session: Option<string>, body: Option<ProductBody>, id: string, batchId: string, now: int)
    returns (reply: CreateReply)
    requires db.Valid()
    modifies db
    ensures db.Valid()
    ensures db.tenants == old(db.tenants) && db.users == old(db.users) && db.subscriptions == old(db.subscriptions)
    ensures reply == NotAuthorized <==> !Truthy(session)
    ensures Truthy(session) && body.None? ==> reply == ServerError(CreateFailed)
    ensures Truthy(session) && body.Some? && !Acceptable(body.value) ==> reply == BadRequest(NameAndPriceRequired)
    ensures reply.Created? <==> Truthy(session) && body.Some? && Acceptable(body.value)
    ensures reply.Created? ==>
      var first := FirstBatch(body.value, batchId, id, session.value);
      && reply.product == NewProduct(body.value, id, session.value, now)
      && db.products == old(db.products) + [reply.product]
      && db.batches == old(db.batches) + (if first.Some? then [first.value] else [])
    ensures !reply.Created? ==> db.products == old(db.products) && db.batches == old(db.batches)
  {
    if !Truthy(session) {
      return NotAuthorized;
    }
    if body.None? {
      return ServerError(CreateFailed);
    }
    var b := body.value;
    if !Acceptable(b) {
      return BadRequest(NameAndPriceRequired);
    }
    var product := NewProduct(b, id, session.value, now);
    var first := FirstBatch(b, batchId, id, session.value);
    db.InsertProduct(product, first);
    return Created(product);
  }
}
