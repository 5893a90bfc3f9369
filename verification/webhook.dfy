/**
 * The provider's webhook endpoint: three guards in a fixed order (signature
 * header, signing secret, signature verification), then a static table from
 * event type to handler, with the asymmetric error policy: a failing
 * purchase recorder is swallowed and acknowledged, a failing catalog
 * handler reaches the outer catch and answers 500.
 */
module WebhookRoute {
  import opened Wrappers
  import opened Values
  import opened Provider
  import opened Schema
  import Sync

  /** The raw body and the `stripe-signature` header, if sent. */
  datatype WebhookRequest = WebhookRequest(body: string, signature: Option<string>)

  datatype Body = Received | ErrorMessage(error: string)

  datatype Response = Response(status: int, body: Body)

  /** What one delivery answers and the store it leaves. */
  datatype Delivery = Delivery(response: Response, store: Store)

  /**
   * The endpoint's surroundings: the configured signing secret, the
   * provider library's `constructEvent` (the event, or None when it throws),
   * and what the synchroniser reaches.
   */
  datatype Env = Env(
    webhookSecret: Option<string>,
    constructEvent: (string, string, string) -> Option<Event>,
    backend: Sync.Backend)

  datatype Handler =
    | RecordPurchase
    | LogPaymentSucceeded
    | LogPaymentFailed
    | OnProductUpsert
    | OnProductDelete
    | OnPriceUpsert
    | OnPriceDelete
    | LogUnhandled

  /** The `switch` over `event.type`. */
  function HandlerFor(kind: string): (h: Handler)
    ensures h == RecordPurchase <==> kind == "checkout.session.completed"
    ensures h == LogPaymentSucceeded <==> kind == "payment_intent.succeeded"
    ensures h == LogPaymentFailed <==> kind == "payment_intent.payment_failed"
    ensures h == OnProductUpsert <==> kind == "product.created" || kind == "product.updated"
    ensures h == OnProductDelete <==> kind == "product.deleted"
    ensures h == OnPriceUpsert <==> kind == "price.created" || kind == "price.updated"
    ensures h == OnPriceDelete <==> kind == "price.deleted"
  {
    match kind
    case "checkout.session.completed" => RecordPurchase
    case "payment_intent.succeeded" => LogPaymentSucceeded
    case "payment_intent.payment_failed" => LogPaymentFailed
    case "product.created" => OnProductUpsert
    case "product.updated" => OnProductUpsert
    case "product.deleted" => OnProductDelete
    case "price.created" => OnPriceUpsert
    case "price.updated" => OnPriceUpsert
    case "price.deleted" => OnPriceDelete
    case _ => LogUnhandled
  }

  const CatalogKinds: set<string> :=
    {"product.created", "product.updated", "product.deleted", "price.created", "price.updated", "price.deleted"}

  predicate IsCatalogHandler(h: Handler) {
    h.OnProductUpsert? || h.OnProductDelete? || h.OnPriceUpsert? || h.OnPriceDelete?
  }

  /** Exactly the six catalog event types reach a catalog handler. */
  lemma CatalogKindsReachCatalogHandlers(kind: string)
    ensures IsCatalogHandler(HandlerFor(kind)) <==> kind in CatalogKinds
  {
  }

  /** The store a handler leaves, and whether it threw past its own catch. */
  datatype Handled = Handled(store: Store, threw: bool)

  function Settle<T>(e: Sync.Effect<T>): (h: Handled)
    ensures h.store == e.store && (h.threw <==> e.result.Failure?)
  {
    Handled(e.store, e.result.Failure?)
  }

  /**
   * Run one handler on the event payload. The purchase recorder's failures
   * are caught and logged; the log-only handlers change nothing; a catalog
   * handler handed a payload of the wrong shape fails.
   */
  function RunHandler(h: Handler, obj: EventObject, s: Store, b: Sync.Backend): (r: Handled)
    ensures !IsCatalogHandler(h) ==> !r.threw
    ensures !h.RecordPurchase? && !IsCatalogHandler(h) ==> r.store == s
    ensures r.threw ==> IsCatalogHandler(h)
    ensures Valid(s) ==> Valid(r.store)
  {
    match h
    case RecordPurchase =>
      if obj.SessionObject? then Handled(Sync.CreateUserPurchase(s, obj.session, b.dbUp).store, false)
      else Handled(s, false)
    case LogPaymentSucceeded => Handled(s, false)
    case LogPaymentFailed => Handled(s, false)
    case LogUnhandled => Handled(s, false)
    case OnProductUpsert =>
      if obj.ProductObject? then Settle(Sync.SyncProduct(s, obj.product, b.dbUp)) else Handled(s, true)
    case OnProductDelete =>
      if obj.ProductObject? then Settle(Sync.DeleteProduct(s, obj.product.id, b.dbUp)) else Handled(s, true)
    case OnPriceUpsert =>
      if obj.PriceObject? then Settle(Sync.SyncPrice(s, obj.price, b)) else Handled(s, true)
    case OnPriceDelete =>
      if obj.PriceObject? then Settle(Sync.DeletePrice(s, obj.price.id, b.dbUp)) else Handled(s, true)
  }

  /** The event, when both headers' guards pass and `constructEvent` accepts. */
  function Verified(req: WebhookRequest, env: Env): (r: Option<Event>)
    ensures r.Some? ==> Truthy(req.signature) && Truthy(env.webhookSecret)
    ensures Truthy(req.signature) && Truthy(env.webhookSecret) ==>
      r == env.constructEvent(req.body, req.signature.value, env.webhookSecret.value)
  {
    if !Truthy(req.signature) || !Truthy(env.webhookSecret) then None
    else env.constructEvent(req.body, req.signature.value, env.webhookSecret.value)
  }

  const MissingSignature: Response := Response(400, ErrorMessage("Missing signature"))
  const MissingSecret: Response := Response(500, ErrorMessage("Missing webhook secret"))
  const InvalidSignature: Response := Response(400, ErrorMessage("Invalid signature"))
  const ProcessingFailed: Response := Response(500, ErrorMessage("Webhook processing failed"))
  const Acknowledged: Response := Response(200, Received)

  /** `POST /api/webhooks/stripe`. */
  function Post(req: WebhookRequest, env: Env, s: Store): (d: Delivery)
    ensures d.response in {Acknowledged, MissingSignature, MissingSecret, InvalidSignature, ProcessingFailed}
    ensures !Truthy(req.signature) ==> d == Delivery(MissingSignature, s)
    ensures Truthy(req.signature) && !Truthy(env.webhookSecret) ==> d == Delivery(MissingSecret, s)
    ensures Truthy(req.signature) && Truthy(env.webhookSecret) && Verified(req, env).None? ==>
      d == Delivery(InvalidSignature, s)
    ensures Verified(req, env).Some? ==>
      var h := RunHandler(HandlerFor(Verified(req, env).value.kind), Verified(req, env).value.data, s, env.backend);
      d == Delivery(if h.threw then ProcessingFailed else Acknowledged, h.store)
    ensures Valid(s) ==> Valid(d.store)
  {
    if !Truthy(req.signature) then Delivery(MissingSignature, s)
    else if !Truthy(env.webhookSecret) then Delivery(MissingSecret, s)
    else match env.constructEvent(req.body, req.signature.value, env.webhookSecret.value)
      case None => Delivery(InvalidSignature, s)
      case Some(event) =>
        var h := RunHandler(HandlerFor(event.kind), event.data, s, env.backend);
        Delivery(if h.threw then ProcessingFailed else Acknowledged, h.store)
  }

  /** The status is a total function of the guard outcomes and the handler's failure. */
  lemma StatusFromGuards(req: WebhookRequest, env: Env, s: Store)
    ensures var d := Post(req, env, s);
      && (d.response.status == 400 <==>
            !Truthy(req.signature) || (Truthy(env.webhookSecret) && Verified(req, env).None?))
      && (d.response.status == 500 <==>
            (Truthy(req.signature) && !Truthy(env.webhookSecret))
            || (Verified(req, env).Some?
                && IsCatalogHandler(HandlerFor(Verified(req, env).value.kind))
                && RunHandler(HandlerFor(Verified(req, env).value.kind), Verified(req, env).value.data,
                              s, env.backend).threw))
      && (d.response.status == 200 <==> d.response.body == Received)
  {
  }

  /** A rejected delivery touches nothing and is never acknowledged. */
  lemma RejectedDeliveryChangesNothing(req: WebhookRequest, env: Env, s: Store)
    requires Verified(req, env).None?
    ensures Post(req, env, s).store == s
    ensures Post(req, env, s).response.status in {400, 500}
  {
  }

  /** A completed checkout is acknowledged even when recording the purchase fails. */
  lemma CheckoutCompletedIsAcknowledged(req: WebhookRequest, env: Env, s: Store, session: CheckoutSession)
    requires Verified(req, env) == Some(Event("checkout.session.completed", SessionObject(session)))
    ensures Post(req, env, s).response == Acknowledged
    ensures Post(req, env, s).store == Sync.CreateUserPurchase(s, session, env.backend.dbUp).store
    ensures Sync.CreateUserPurchase(s, session, env.backend.dbUp).result.Failure? ==>
      Post(req, env, s) == Delivery(Acknowledged, s)
  {
  }

  /** The two payment-intent events and every unlisted type change nothing and are acknowledged. */
  lemma LogOnlyEventsChangeNothing(req: WebhookRequest, env: Env, s: Store)
    requires Verified(req, env).Some?
    requires Verified(req, env).value.kind !in CatalogKinds
    requires Verified(req, env).value.kind != "checkout.session.completed"
    ensures Post(req, env, s) == Delivery(Acknowledged, s)
  {
  }

  /** `product.created` and `product.updated` run `syncProduct`; its failure answers 500. */
  lemma ProductEventsSyncProduct(req: WebhookRequest, env: Env, s: Store, p: Product)
    requires Verified(req, env) == Some(Event("product.created", ProductObject(p)))
          || Verified(req, env) == Some(Event("product.updated", ProductObject(p)))
    ensures var r := Sync.SyncProduct(s, p, env.backend.dbUp);
      Post(req, env, s) == Delivery(if r.result.Failure? then ProcessingFailed else Acknowledged, r.store)
  {
  }

  /** `product.deleted` runs `deleteProduct` on the product's id; its failure answers 500. */
  lemma ProductDeletedDeletesProduct(req: WebhookRequest, env: Env, s: Store, p: Product)
    requires Verified(req, env) == Some(Event("product.deleted", ProductObject(p)))
    ensures var r := Sync.DeleteProduct(s, p.id, env.backend.dbUp);
      Post(req, env, s) == Delivery(if r.result.Failure? then ProcessingFailed else Acknowledged, r.store)
  {
  }

  /** `price.created` and `price.updated` run `syncPrice`; its failure answers 500. */
  lemma PriceEventsSyncPrice(req: WebhookRequest, env: Env, s: Store, price: Price)
    requires Verified(req, env) == Some(Event("price.created", PriceObject(price)))
          || Verified(req, env) == Some(Event("price.updated", PriceObject(price)))
    ensures var r := Sync.SyncPrice(s, price, env.backend);
      Post(req, env, s) == Delivery(if r.result.Failure? then ProcessingFailed else Acknowledged, r.store)
  {
  }

  /** `price.deleted` runs `deletePrice` on the price's id; its failure answers 500. */
  lemma PriceDeletedDeletesPrice(req: WebhookRequest, env: Env, s: Store, price: Price)
    requires Verified(req, env) == Some(Event("price.deleted", PriceObject(price)))
    ensures var r := Sync.DeletePrice(s, price.id, env.backend.dbUp);
      Post(req, env, s) == Delivery(if r.result.Failure? then ProcessingFailed else Acknowledged, r.store)
  {
  }

  /**
   * A completed checkout for user `u1` and price `pi_1` (whose product row
   * is stored) records one purchase row carrying the session's values.
   */
  lemma CompletedCheckoutRecordsPurchase(req: WebhookRequest, env: Env, product: ProductRow, item: ProductItemRow)
    requires env.backend.dbUp
    requires item.id == "pi_1" && item.productId == product.id
    requires Verified(req, env) == Some(Event("checkout.session.completed", SessionObject(
      CheckoutSession("cs_test_1", Some("pi_test_1"), Some("cus_1"), Some(2999), Some("usd"),
                      map["userId" := "u1", "priceId" := "pi_1", "itemId" := "prod_1"]))))
    ensures var s := Store(map[product.id := product], map["pi_1" := item], map[]);
      var d := Post(req, env, s);
      && d.response == Acknowledged
      && d.store.purchases == map[PurchaseKey("u1", "pi_1") := UserPurchaseRow(
           "u1", "pi_1", "prod_1", Some("pi_test_1"), Some("cs_test_1"), Some("cus_1"),
           2999, Some("usd"), Some("completed"))]
  {
  }

  /** Redelivering an event answers the same and leaves the same store. */
  lemma PostIdempotent(req: WebhookRequest, env: Env, s: Store)
    ensures Post(req, env, Post(req, env, s).store) == Post(req, env, s)
  {
    var ev := Verified(req, env);
    if ev.Some? {
      var obj := ev.value.data;
      var b := env.backend;
      match HandlerFor(ev.value.kind)
      case RecordPurchase =>
        if obj.SessionObject? {
          Sync.CreateUserPurchaseIdempotent(s, obj.session, b.dbUp);
        }
      case OnProductUpsert =>
        if obj.ProductObject? {
          Sync.SyncProductIdempotent(s, obj.product, b.dbUp);
        }
      case OnProductDelete =>
        if obj.ProductObject? {
          Sync.DeleteIdempotent(s, obj.product.id, b.dbUp);
        }
      case OnPriceUpsert =>
        if obj.PriceObject? {
          Sync.SyncPriceIdempotent(s, obj.price, b);
        }
      case OnPriceDelete =>
        if obj.PriceObject? {
          Sync.DeleteIdempotent(s, obj.price.id, b.dbUp);
        }
      case _ =>
    }
  }

  /**
   * The store after the provider delivers a sequence of requests, in order.
   * Each delivery carries the environment it met: database availability,
   * the provider catalog and the secret may change between deliveries.
   */
  function DeliverAll(ds: seq<(WebhookRequest, Env)>, s: Store): (r: Store)
    ensures Valid(s) ==> Valid(r)
    decreases |ds|
  {
    if ds == [] then s
    else DeliverAll(ds[1..], Post(ds[0].0, ds[0].1, s).store)
  }

  /** Deliveries that start from an empty store leave a valid one. */
  lemma DeliveriesFromEmptyStoreStayValid(ds: seq<(WebhookRequest, Env)>)
    ensures Valid(DeliverAll(ds, EmptyStore))
  {
    EmptyStoreValid();
  }

  /**
   * Retrying a delivery right away, under the environment it met, changes
   * nothing further, whatever the environments of the other deliveries.
   */
  lemma {:induction false} RedeliveryIsHarmless(ds: seq<(WebhookRequest, Env)>, i: nat, s: Store)
    requires i < |ds|
    ensures DeliverAll(ds[..i + 1] + [ds[i]] + ds[i + 1..], s) == DeliverAll(ds, s)
    decreases i
  {
    var dup := ds[..i + 1] + [ds[i]] + ds[i + 1..];
    if i == 0 {
      var s1 := Post(ds[0].0, ds[0].1, s).store;
      PostIdempotent(ds[0].0, ds[0].1, s);
      assert dup[1..] == [ds[0]] + ds[1..];
      assert ([ds[0]] + ds[1..])[1..] == ds[1..];
      assert DeliverAll(dup[1..], s1) == DeliverAll(ds[1..], Post(ds[0].0, ds[0].1, s1).store);
      assert ds == [ds[0]] + ds[1..];
    } else {
      var s1 := Post(ds[0].0, ds[0].1, s).store;
      var tail := ds[1..];
      RedeliveryIsHarmless(tail, i - 1, s1);
      assert dup[0] == ds[0];
      assert dup[1..] == tail[..i] + [tail[i - 1]] + tail[i..];
    }
  }

  /** While the database is down, no delivery writes anything, whatever its event. */
  lemma OutageLeavesNoTrace(req: WebhookRequest, env: Env, s: Store)
    requires !env.backend.dbUp
    ensures Post(req, env, s).store == s
  {
  }

  /**
   * An attempt made during an outage is forgotten: the deliveries after it
   * end in the store they would have reached without it.
   */
  lemma AttemptDuringOutageIsForgotten(d: (WebhookRequest, Env), ds: seq<(WebhookRequest, Env)>, s: Store)
    requires !d.1.backend.dbUp
    ensures DeliverAll([d] + ds, s) == DeliverAll(ds, s)
  {
    OutageLeavesNoTrace(d.0, d.1, s);
    assert ([d] + ds)[1..] == ds;
  }
}
