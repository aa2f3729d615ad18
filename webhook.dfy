/** The payment-provider notification handler
    (app/api/webhooks/mercadopago/route.ts). The body names an event type and
    the id of the object concerned; the handler fetches that object from the
    provider (here the fetched response is an input) and, depending on its
    status, activates or suspends the tenant named in its external reference
    and, for an approved payment, appends a record to the subscription log.
    Money is in integer cents. */
module Webhook {
  import opened Base
  import opened Db

  /** `body.data`; `id` is the rendering of `data.id`, `None` when absent. */
  datatype EventData = EventData(id: Option<string>)

  /** The parsed request body: `type` and `data`. */
  datatype Event = Event(eventType: Option<string>, data: Option<EventData>)

  /** The fields of a fetched payment or preapproval that the handler reads:
      `status`, `external_reference`, the payer id (`payer.id` of a payment,
      `payer_id` of a preapproval) rendered as a string, and the payment's
      `transaction_amount`. */
  datatype Payload = Payload(
    status: Option<string>,
    externalReference: Option<string>,
    payerId: Option<string>,
    transactionAmount: Option<int>)

  /** The follow-up fetch: a response that is not ok, one whose body is not an
      object, or the decoded object. */
  datatype Fetch = NotOk | Unreadable | Fetched(payload: Payload)

  datatype Reply = Received | ServerError(error: string)

  const FetchPaymentFailed: string := "Failed to fetch payment"
  const FetchPreapprovalFailed: string := "Failed to fetch preapproval"
  const ProcessingFailed: string := "Webhook processing failed"

  /** The two tables the handler touches. */
  datatype Store = Store(tenants: map<string, TenantRow>, log: seq<SubscriptionRow>)

  /** `x?.toString() || null`. */
  function CustomerId(payerId: Option<string>): (r: Option<string>) {
    if Truthy(payerId) then payerId else None
  }

  function SetStatus(tenants: map<string, TenantRow>, id: string, status: string): (r: map<string, TenantRow>)
    requires id in tenants
  {
    tenants[id := tenants[id].(subscriptionStatus := status)]
  }

  function Activate(tenants: map<string, TenantRow>, id: string, payerId: Option<string>): (r: map<string, TenantRow>)
    requires id in tenants
  {
    tenants[id := tenants[id].(subscriptionStatus := "ACTIVE", mercadoPagoCustomerId := CustomerId(payerId))]
  }

  /** The `type === "payment"` block. The tenant update is a statement of its
      own and stays applied when the subscription insert that follows throws
      (a missing payment id or amount). */
  function OnPayment(s: Store, data: Option<EventData>, fetched: Fetch): (Reply, Store) {
    if data.None? then (ServerError(ProcessingFailed), s)
    else if fetched.NotOk? then (ServerError(FetchPaymentFailed), s)
    else if fetched.Unreadable? then (ServerError(ProcessingFailed), s)
    else
      var p := fetched.payload;
      if p.status != Some("approved") || !Truthy(p.externalReference) then (Received, s)
      else
        var id := p.externalReference.value;
        if id !in s.tenants then (ServerError(ProcessingFailed), s)
        else
          var tenants := Activate(s.tenants, id, p.payerId);
          if data.value.id.None? || p.transactionAmount.None? then (ServerError(ProcessingFailed), Store(tenants, s.log))
          else
            var record := SubscriptionRow(data.value.id.value, p.transactionAmount.value, "ACTIVE", id);
            (Received, Store(tenants, s.log + [record]))
  }

  /** The `type === "subscription_preapproval"` block. */
  function OnPreapproval(s: Store, data: Option<EventData>, fetched: Fetch): (Reply, Store) {
    if data.None? then (ServerError(ProcessingFailed), s)
    else if fetched.NotOk? then (ServerError(FetchPreapprovalFailed), s)
    else if fetched.Unreadable? then (ServerError(ProcessingFailed), s)
    else
      var p := fetched.payload;
      var activates := p.status == Some("authorized") || p.status == Some("active");
      var suspends := p.status == Some("cancelled") || p.status == Some("paused");
      if !(activates || suspends) || !Truthy(p.externalReference) then (Received, s)
      else
        var id := p.externalReference.value;
        if id !in s.tenants then (ServerError(ProcessingFailed), s)
        else if activates then (Received, Store(Activate(s.tenants, id, p.payerId), s.log))
        else (Received, Store(SetStatus(s.tenants, id, "SUSPENDED"), s.log))
  }

  /** Id, name, slug and trial end of a tenant row: what the handler never changes. */
  predicate SameIdentity(a: TenantRow, b: TenantRow) {
    a.id == b.id && a.name == b.name && a.slug == b.slug && a.trialEndsAt == b.trialEndsAt
  }

  /** `POST`. A body that cannot be read is a 500 like every exception. The
      handler never adds or removes a tenant, never changes a tenant's
      identity, treats the log as append-only and appends at most one record;
      a 500 from the follow-up fetch changes nothing. */
  function Handle(s: Store, body: Option<Event>, fetched: Fetch): (r: (Reply, Store))
    ensures r.1.tenants.Keys == s.tenants.Keys
    ensures forall k :: k in s.tenants ==> SameIdentity(s.tenants[k], r.1.tenants[k])
    ensures s.log <= r.1.log && |r.1.log| <= |s.log| + 1
    ensures r.0 == ServerError(FetchPaymentFailed) || r.0 == ServerError(FetchPreapprovalFailed) ==> r.1 == s
    ensures |r.1.log| == |s.log| + 1 ==> r.0 == Received && r.1.log[|s.log|].status == "ACTIVE"
  {
    if body.None? then (ServerError(ProcessingFailed), s)
    else if body.value.eventType == Some("payment") then OnPayment(s, body.value.data, fetched)
    else if body.value.eventType == Some("subscription_preapproval") then OnPreapproval(s, body.value.data, fetched)
    else (Received, s)
  }

  /** An approved payment with a reference to an existing tenant activates it
      and appends exactly one ACTIVE record with the payment id and amount. */
  lemma ApprovedPaymentActivates(s: Store, paymentId: string, p: Payload)
    requires p.status == Some("approved") && Truthy(p.externalReference)
    requires p.externalReference.value in s.tenants && p.transactionAmount.Some?
    ensures var r := Handle(s, Some(Event(Some("payment"), Some(EventData(Some(paymentId))))), Fetched(p));
      var id := p.externalReference.value;
      && r.0 == Received
      && r.1.tenants == s.tenants[id := r.1.tenants[id]]
      && r.1.tenants[id].subscriptionStatus == "ACTIVE"
      && r.1.log == s.log + [SubscriptionRow(paymentId, p.transactionAmount.value, "ACTIVE", id)]
  {
  }

  /** A payment with another status, or without a reference, changes nothing. */
  lemma OtherPaymentsChangeNothing(s: Store, data: EventData, p: Payload)
    requires p.status != Some("approved") || !Truthy(p.externalReference)
    ensures Handle(s, Some(Event(Some("payment"), Some(data))), Fetched(p)) == (Received, s)
  {
  }

  /** An authorized or active preapproval activates the tenant and appends no
      record. */
  lemma PreapprovalActivates(s: Store, data: EventData, p: Payload)
    requires p.status == Some("authorized") || p.status == Some("active")
    requires Truthy(p.externalReference) && p.externalReference.value in s.tenants
    ensures var r := Handle(s, Some(Event(Some("subscription_preapproval"), Some(data))), Fetched(p));
      var id := p.externalReference.value;
      && r == (Received, Store(r.1.tenants, s.log))
      && r.1.tenants == s.tenants[id := r.1.tenants[id]]
      && r.1.tenants[id].subscriptionStatus == "ACTIVE"
  {
  }

  /** A cancelled or paused preapproval suspends the tenant, and only its
      status changes. */
  lemma PreapprovalSuspends(s: Store, data: EventData, p: Payload)
    requires p.status == Some("cancelled") || p.status == Some("paused")
    requires Truthy(p.externalReference) && p.externalReference.value in s.tenants
    ensures var id := p.externalReference.value;
      Handle(s, Some(Event(Some("subscription_preapproval"), Some(data))), Fetched(p))
      == (Received, Store(s.tenants[id := s.tenants[id].(subscriptionStatus := "SUSPENDED")], s.log))
  {
  }

  /** Any other preapproval status changes nothing. */
  lemma OtherPreapprovalsChangeNothing(s: Store, data: EventData, p: Payload)
    requires p.status !in {Some("authorized"), Some("active"), Some("cancelled"), Some("paused")}
    ensures Handle(s, Some(Event(Some("subscription_preapproval"), Some(data))), Fetched(p)) == (Received, s)
  {
  }

  /** A follow-up fetch that is not ok answers 500 and changes nothing. */
  lemma FailedFetchChangesNothing(s: Store, eventType: string, data: EventData)
    requires eventType == "payment" || eventType == "subscription_preapproval"
    ensures Handle(s, Some(Event(Some(eventType), Some(data))), NotOk)
      == (ServerError(if eventType == "payment" then FetchPaymentFailed else FetchPreapprovalFailed), s)
  {
  }

  /** Every other event type is acknowledged and ignored, whatever was fetched. */
  lemma OtherEventsIgnored(s: Store, e: Event, fetched: Fetch)
    requires e.eventType != Some("payment") && e.eventType != Some("subscription_preapproval")
    ensures Handle(s, Some(e), fetched) == (Received, s)
  {
  }

  /** A reference to a tenant that does not exist makes the update throw: 500
      and nothing changes. */
  lemma UnknownTenantFails(s: Store, e: Event, p: Payload)
    requires Truthy(p.externalReference) && p.externalReference.value !in s.tenants
    ensures Handle(s, Some(e), Fetched(p)).1 == s
  {
  }

  /** Delivering the same approved payment twice leaves the tenant as after
      the first delivery but logs two identical records: there is no
      de-duplication. */
  lemma {:induction false} ReplayedPaymentLogsTwice(s: Store, paymentId: string, p: Payload)
    requires p.status == Some("approved") && Truthy(p.externalReference)
    requires p.externalReference.value in s.tenants && p.transactionAmount.Some?
    ensures var e := Some(Event(Some("payment"), Some(EventData(Some(paymentId)))));
      var once := Handle(s, e, Fetched(p));
      var twice := Handle(once.1, e, Fetched(p));
      var record := SubscriptionRow(paymentId, p.transactionAmount.value, "ACTIVE", p.externalReference.value);
      && twice.0 == Received
      && twice.1.tenants == once.1.tenants
      && twice.1.log == s.log + [record, record]
  {
    var e := Some(Event(Some("payment"), Some(EventData(Some(paymentId)))));
    var once := Handle(s, e, Fetched(p));
    ApprovedPaymentActivates(s, paymentId, p);
    ApprovedPaymentActivates(once.1, paymentId, p);
    var id := p.externalReference.value;
    assert once.1.tenants[id] == Activate(s.tenants, id, p.payerId)[id];
  }

  /** On activation the customer id becomes the payer id, or null when the
      payer id is absent or empty; suspension keeps the stored one. */
  lemma CustomerIdOnActivation(s: Store, eventType: string, data: EventData, p: Payload)
    requires Truthy(p.externalReference) && p.externalReference.value in s.tenants
    requires eventType == "payment" || eventType == "subscription_preapproval"
    requires Handle(s, Some(Event(Some(eventType), Some(data))), Fetched(p)).0 == Received
    ensures var t := Handle(s, Some(Event(Some(eventType), Some(data))), Fetched(p)).1.tenants[p.externalReference.value];
      var old_t := s.tenants[p.externalReference.value];
      && (t.subscriptionStatus == "ACTIVE" && t != old_t ==>
            t.mercadoPagoCustomerId == (if Truthy(p.payerId) then p.payerId else None))
      && (t.subscriptionStatus == "SUSPENDED" ==> t.mercadoPagoCustomerId == old_t.mercadoPagoCustomerId)
  {
  }

  /** The handler run against the database: the same branches as `Handle`,
      performed as updates of the tenant table and appends to the log. */
  method Post(db: Database, body: Option<Event>, fetched: Fetch) returns (reply: Reply)
    requires db.Valid()
    modifies db
    ensures db.Valid()
    ensures (reply, Store(db.tenants, db.subscriptions)) == Handle(Store(old(db.tenants), old(db.subscriptions)), body, fetched)
    ensures db.users == old(db.users) && db.products == old(db.products) && db.batches == old(db.batches)
  {
    if body.None? {
      return ServerError(ProcessingFailed);
    }
    var e := body.value;
    if e.eventType == Some("payment") {
      if e.data.None? {
        return ServerError(ProcessingFailed);
      }
      if fetched.NotOk? {
        return ServerError(FetchPaymentFailed);
      }
      if fetched.Unreadable? {
        return ServerError(ProcessingFailed);
      }
      var p := fetched.payload;
      if p.status == Some("approved") && Truthy(p.externalReference) {
        var id := p.externalReference.value;
        if id !in db.tenants {
          return ServerError(ProcessingFailed);
        }
        UpdateKeepsValid(db.tenants, id, "ACTIVE", CustomerId(p.payerId));
        db.tenants := Activate(db.tenants, id, p.payerId);
        if e.data.value.id.None? || p.transactionAmount.None? {
          return ServerError(ProcessingFailed);
        }
        db.subscriptions := db.subscriptions + [SubscriptionRow(e.data.value.id.value, p.transactionAmount.value, "ACTIVE", id)];
      }
    }
    if e.eventType == Some("subscription_preapproval") {
      if e.data.None? {
        return ServerError(ProcessingFailed);
      }
      if fetched.NotOk? {
        return ServerError(FetchPreapprovalFailed);
      }
      if fetched.Unreadable? {
        return ServerError(ProcessingFailed);
      }
      var p := fetched.payload;
      if (p.status == Some("authorized") || p.status == Some("active")) && Truthy(p.externalReference) {
        var id := p.externalReference.value;
        if id !in db.tenants {
          return ServerError(ProcessingFailed);
        }
        UpdateKeepsValid(db.tenants, id, "ACTIVE", CustomerId(p.payerId));
        db.tenants := Activate(db.tenants, id, p.payerId);
      }
      if (p.status == Some("cancelled") || p.status == Some("paused")) && Truthy(p.externalReference) {
        var id := p.externalReference.value;
        if id !in db.tenants {
          return ServerError(ProcessingFailed);
        }
        UpdateKeepsValid(db.tenants, id, "SUSPENDED", db.tenants[id].mercadoPagoCustomerId);
        db.tenants := SetStatus(db.tenants, id, "SUSPENDED");
      }
    }
    return Received;
  }

  /** Changing a tenant's status and customer id keeps the tenant table keyed
      by id with unique slugs. */
  lemma UpdateKeepsValid(tenants: map<string, TenantRow>, id: string, status: string, customer: Option<string>)
    requires id in tenants
    requires forall k :: k in tenants ==> tenants[k].id == k
    requires forall a, b :: a in tenants && b in tenants && a != b ==> tenants[a].slug != tenants[b].slug
    ensures var u := tenants[id := tenants[id].(subscriptionStatus := status, mercadoPagoCustomerId := customer)];
      && (forall k :: k in u ==> u[k].id == k)
      && (forall a, b :: a in u && b in u && a != b ==> u[a].slug != u[b].slug)
  {
  }
}
