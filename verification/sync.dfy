/**
 * The catalog and purchase synchroniser: builds store records from
 * provider objects and writes them with keyed upserts and deletes.
 * Every operation returns the store it leaves behind together with its
 * value or the failure it throws; a failure after an earlier write (the
 * product pre-sync of a price) keeps that write.
 */
module Sync {
  import opened Wrappers
  import opened Values
  import opened Provider
  import opened Schema
  import Db

  /** What a synchroniser operation can throw. */
  datatype SyncError =
    | StoreFailure(error: Db.StoreError)
    | ProductRetrievalFailed(productId: string)
    | MalformedFeatures(text: string)

  /** The store after an operation, and the operation's value or failure. */
  datatype Effect<T> = Effect(store: Store, result: Result<T, SyncError>)

  /**
   * What the synchroniser reaches outside the store: the provider's products
   * (what `products.retrieve` can return), `JSON.parse` (a partial parser),
   * and whether the database answers during this invocation.
   */
  datatype Backend = Backend(
    catalog: map<string, Product>,
    parseJson: string -> Option<Json>,
    dbUp: bool)

  /** The provider returns a product under its own id. */
  predicate CatalogConsistent(catalog: map<string, Product>) {
    forall k :: k in catalog ==> catalog[k].id == k
  }

  /** The `products` record for a provider product. */
  function ProductRecord(p: Product): (r: ProductRow)
    ensures r.id == p.id && r.name == p.name
    ensures r.customId.Some? <==> "custom_id" in p.metadata && p.metadata["custom_id"] != ""
    ensures r.customId.Some? ==> r.customId.value == p.metadata["custom_id"]
    ensures r.description.Some? <==> Truthy(p.description)
    ensures r.description.Some? ==> r.description == p.description
    ensures r.icon.Some? <==> |p.images| > 0 && p.images[0] != ""
    ensures r.icon.Some? ==> r.icon.value == p.images[0]
  {
    ProductRow(
      p.id,
      OrNull(Lookup(p.metadata, "custom_id")),
      p.name,
      OrNull(p.description),
      if |p.images| > 0 then OrNull(Some(p.images[0])) else None)
  }

  /** The icon comes from the first image only; an `icon` metadata entry is ignored. */
  lemma IconIgnoresMetadata(p: Product, md: Metadata)
    ensures ProductRecord(p.(metadata := md)).icon == ProductRecord(p).icon
  {
  }

  /** `syncProduct`: upsert the product's record on conflict `id`. */
  function SyncProduct(s: Store, p: Product, up: bool): (e: Effect<ProductRow>)
    ensures e.result.Success? <==> up
    ensures e.result.Success? ==> e.result.value == ProductRecord(p)
    ensures e.result.Success? ==> Upserted(s.products, e.store.products, p.id, ProductRecord(p))
    ensures e.store.productItems == s.productItems && e.store.purchases == s.purchases
    ensures e.result.Failure? ==> e.store == s && e.result.error == StoreFailure(Db.Unavailable)
    ensures Valid(s) ==> Valid(e.store)
  {
    match Db.UpsertProduct(s, ProductRecord(p), up)
    case Success(s') => Effect(s', Success(ProductRecord(p)))
    case Failure(err) => Effect(s, Failure(StoreFailure(err)))
  }

  /** The stored row does not depend on what was stored before: overwrite, no merge. */
  lemma SyncProductOverwrites(s1: Store, s2: Store, p: Product)
    ensures SyncProduct(s1, p, true).store.products[p.id] == SyncProduct(s2, p, true).store.products[p.id]
  {
  }

  /** Syncing the same product twice leaves what syncing it once leaves. */
  lemma SyncProductIdempotent(s: Store, p: Product, up: bool)
    ensures SyncProduct(SyncProduct(s, p, up).store, p, up) == SyncProduct(s, p, up)
  {
  }

  /** `features`: absent or empty metadata gives `[]`; otherwise `JSON.parse`, which may throw. */
  function Features(md: Metadata, parseJson: string -> Option<Json>): (r: Result<Json, SyncError>)
    ensures !Truthy(Lookup(md, "features")) ==> r == Success(JArray([]))
    ensures Truthy(Lookup(md, "features")) ==>
      (r.Failure? <==> parseJson(md["features"]).None?)
    ensures Truthy(Lookup(md, "features")) && r.Success? ==> r.value == parseJson(md["features"]).value
    ensures r.Failure? ==> r.error == MalformedFeatures(md["features"])
  {
    if !Truthy(Lookup(md, "features")) then Success(JArray([]))
    else match parseJson(md["features"])
      case Some(j) => Success(j)
      case None => Failure(MalformedFeatures(md["features"]))
  }

  /** The `product_items` record for a provider price, or the failure of its `features` parse. */
  function PriceRecord(price: Price, parseJson: string -> Option<Json>): (r: Result<ProductItemRow, SyncError>)
    ensures r.Success? <==> Features(price.metadata, parseJson).Success?
    ensures r.Failure? ==> r.error.MalformedFeatures?
    ensures r.Success? ==> r.value.id == price.id && r.value.productId == RefId(price.product)
    ensures r.Success? ==> r.value.features == Some(Features(price.metadata, parseJson).value)
    ensures r.Success? ==> (r.value.name == if Truthy(price.nickname) then price.nickname.value else "Price for " + price.id)
    ensures r.Success? ==> r.value.price == (if price.unitAmount.Some? then price.unitAmount.value else 0)
    ensures r.Success? ==>
      r.value.popular == Some("popular" in price.metadata && price.metadata["popular"] == "true")
    ensures r.Success? ==> r.value.currency == Some(price.currency)
    ensures r.Success? ==> (r.value.recurringInterval.Some? <==>
      price.recurring.Some? && price.recurring.value.interval != "")
    ensures r.Success? && r.value.recurringInterval.Some? ==>
      r.value.recurringInterval.value == price.recurring.value.interval
    ensures r.Success? ==> r.value.customId == OrNull(Lookup(price.metadata, "custom_id"))
    ensures r.Success? ==> r.value.description == OrNull(Lookup(price.metadata, "description"))
  {
    var features :- Features(price.metadata, parseJson);
    Success(ProductItemRow(
      price.id,
      OrNull(Lookup(price.metadata, "custom_id")),
      RefId(price.product),
      OrElse(price.nickname, "Price for " + price.id),
      OrZero(price.unitAmount),
      OrNull(Lookup(price.metadata, "description")),
      Some(features),
      Some(Lookup(price.metadata, "popular") == Some("true")),
      Some(price.currency),
      OrNull(if price.recurring.Some? then Some(price.recurring.value.interval) else None)))
  }

  /** The second half of `syncPrice`: build the price record and upsert it on conflict `id`. */
  function StorePrice(s: Store, price: Price, b: Backend): (e: Effect<ProductItemRow>)
    ensures e.result.Success? <==>
      PriceRecord(price, b.parseJson).Success? && b.dbUp && RefId(price.product) in s.products
    ensures e.result.Success? ==> e.result.value == PriceRecord(price, b.parseJson).value
    ensures e.result.Success? ==> Upserted(s.productItems, e.store.productItems, price.id, e.result.value)
    ensures e.result.Failure? ==> e.store == s
    ensures e.store.products == s.products && e.store.purchases == s.purchases
    ensures Valid(s) ==> Valid(e.store)
  {
    match PriceRecord(price, b.parseJson)
    case Failure(f) => Effect(s, Failure(f))
    case Success(row) =>
      match Db.UpsertProductItem(s, row, b.dbUp)
      case Success(s') => Effect(s', Success(row))
      case Failure(err) => Effect(s, Failure(StoreFailure(err)))
  }

  /**
   * `syncPrice`: when the price names its product by id, retrieve that
   * product and sync it first; then store the price.
   */
  function SyncPrice(s: Store, price: Price, b: Backend): (e: Effect<ProductItemRow>)
    ensures price.product.ExpandedProduct? ==>
      (e.result.Success? <==>
         PriceRecord(price, b.parseJson).Success? && b.dbUp && price.product.product.id in s.products)
    ensures price.product.ProductId? ==>
      var pid := price.product.id;
      (e.result.Success? <==>
         && pid in b.catalog && b.dbUp && PriceRecord(price, b.parseJson).Success?
         && (b.catalog[pid].id == pid || pid in s.products))
    ensures e.result.Success? ==> PriceRecord(price, b.parseJson) == Success(e.result.value)
    ensures e.result.Success? ==> Upserted(s.productItems, e.store.productItems, price.id, e.result.value)
    ensures e.result.Success? ==> e.result.value.productId in e.store.products
    ensures e.result.Failure? ==> e.store.productItems == s.productItems
    ensures price.product.ExpandedProduct? ==> e.store.products == s.products
    ensures !b.dbUp ==> e.store == s
    ensures price.product.ProductId? && price.product.id in b.catalog && !b.dbUp ==>
      e.result == Failure(StoreFailure(Db.Unavailable))
    ensures price.product.ProductId? && price.product.id !in b.catalog ==>
      e == Effect(s, Failure(ProductRetrievalFailed(price.product.id)))
    ensures price.product.ProductId? && price.product.id in b.catalog && b.dbUp ==>
      var p := b.catalog[price.product.id];
      Upserted(s.products, e.store.products, p.id, ProductRecord(p))
    ensures e.store.purchases == s.purchases
    ensures Valid(s) ==> Valid(e.store)
  {
    match price.product
    case ProductId(pid) =>
      if pid !in b.catalog then Effect(s, Failure(ProductRetrievalFailed(pid)))
      else
        var pre := SyncProduct(s, b.catalog[pid], b.dbUp);
        if pre.result.Failure? then Effect(pre.store, Failure(pre.result.error))
        else StorePrice(pre.store, price, b)
    case ExpandedProduct(_) => StorePrice(s, price, b)
  }

  /**
   * A price that names a retrievable product by id is stored whatever the
   * store held before: its product row is created first.
   */
  lemma SyncPriceCreatesProductFirst(s: Store, price: Price, b: Backend)
    requires price.product.ProductId? && price.product.id in b.catalog
    requires CatalogConsistent(b.catalog) && b.dbUp
    requires PriceRecord(price, b.parseJson).Success?
    ensures SyncPrice(s, price, b).result.Success?
    ensures price.product.id in SyncPrice(s, price, b).store.products
    ensures SyncPrice(s, price, b).store.productItems[price.id].productId == price.product.id
  {
    var pid := price.product.id;
    var pre := SyncProduct(s, b.catalog[pid], true);
    assert pid in pre.store.products;
  }

  /** Without the pre-sync the same price would be refused by the foreign key. */
  lemma PreSyncIsNeeded(s: Store, price: Price, b: Backend)
    requires price.product.ProductId? && price.product.id !in s.products
    ensures StorePrice(s, price, b).result.Failure?
  {
  }

  /** Malformed `features` fails the price but keeps the product pre-sync. */
  lemma MalformedFeaturesKeepsPreSync(s: Store, price: Price, b: Backend)
    requires price.product.ProductId? && price.product.id in b.catalog && b.dbUp
    requires Truthy(Lookup(price.metadata, "features"))
    requires b.parseJson(price.metadata["features"]).None?
    ensures SyncPrice(s, price, b) ==
      Effect(SyncProduct(s, b.catalog[price.product.id], true).store,
             Failure(MalformedFeatures(price.metadata["features"])))
  {
  }

  /** Syncing the same price twice leaves what syncing it once leaves. */
  lemma SyncPriceIdempotent(s: Store, price: Price, b: Backend)
    ensures SyncPrice(SyncPrice(s, price, b).store, price, b) == SyncPrice(s, price, b)
  {
    match price.product
    case ProductId(pid) =>
      if pid in b.catalog {
        SyncProductIdempotent(s, b.catalog[pid], b.dbUp);
      }
    case ExpandedProduct(_) =>
  }

  /** `deleteProduct`: delete the row with this id, if any. */
  function DeleteProduct(s: Store, id: string, up: bool): (e: Effect<()>)
    ensures e.result.Success? <==> up && !Db.ProductReferenced(s, id)
    ensures e.result.Success? ==> Removed(s.products, e.store.products, id)
    ensures e.result.Failure? ==> e.store == s && e.result.error.StoreFailure?
    ensures e.store.productItems == s.productItems && e.store.purchases == s.purchases
    ensures Valid(s) ==> Valid(e.store)
  {
    match Db.DeleteProduct(s, id, up)
    case Success(s') => Effect(s', Success(()))
    case Failure(err) => Effect(s, Failure(StoreFailure(err)))
  }

  /** `deletePrice`: delete the `product_items` row with this id, if any. */
  function DeletePrice(s: Store, id: string, up: bool): (e: Effect<()>)
    ensures e.result.Success? <==> up && !Db.PriceItemReferenced(s, id)
    ensures e.result.Success? ==> Removed(s.productItems, e.store.productItems, id)
    ensures e.result.Failure? ==> e.store == s && e.result.error.StoreFailure?
    ensures e.store.products == s.products && e.store.purchases == s.purchases
    ensures Valid(s) ==> Valid(e.store)
  {
    match Db.DeleteProductItem(s, id, up)
    case Success(s') => Effect(s', Success(()))
    case Failure(err) => Effect(s, Failure(StoreFailure(err)))
  }

  /** Deleting an id that is not stored succeeds and changes nothing. */
  lemma DeleteMissingIsNoop(s: Store, id: string)
    requires Valid(s)
    ensures id !in s.products ==> DeleteProduct(s, id, true) == Effect(s, Success(()))
    ensures id !in s.productItems ==> DeletePrice(s, id, true) == Effect(s, Success(()))
  {
    if id !in s.products {
      Db.DeleteAbsentProductIsNoop(s, id);
    }
    if id !in s.productItems {
      Db.DeleteAbsentPriceItemIsNoop(s, id);
    }
  }

  /** A second delete of the same id repeats the first one's outcome. */
  lemma DeleteIdempotent(s: Store, id: string, up: bool)
    ensures DeleteProduct(DeleteProduct(s, id, up).store, id, up) == DeleteProduct(s, id, up)
    ensures DeletePrice(DeletePrice(s, id, up).store, id, up) == DeletePrice(s, id, up)
  {
    var p := DeleteProduct(s, id, up);
    if p.result.Success? {
      assert p.store.products - {id} == p.store.products;
    }
    var q := DeletePrice(s, id, up);
    if q.result.Success? {
      assert q.store.productItems - {id} == q.store.productItems;
    }
  }

  /** The purchase payload a completed session yields. */
  function PurchaseRecord(session: CheckoutSession): (r: PurchaseInsert)
    ensures r.userId == Lookup(session.metadata, "userId")
    ensures r.productItemId == Lookup(session.metadata, "priceId")
    ensures r.stripeProductId == Lookup(session.metadata, "itemId")
    ensures r.stripePaymentIntentId == session.paymentIntent
    ensures r.stripeCustomerId == session.customer
    ensures r.stripeSessionId == Some(session.id)
    ensures r.amountPaid == if session.amountTotal.Some? then session.amountTotal.value else 0
    ensures r.currency == Some(if Truthy(session.currency) then session.currency.value else "usd")
    ensures r.paymentStatus == Some("completed")
  {
    PurchaseInsert(
      Lookup(session.metadata, "userId"),
      Lookup(session.metadata, "priceId"),
      Lookup(session.metadata, "itemId"),
      session.paymentIntent,
      Some(session.id),
      session.customer,
      OrZero(session.amountTotal),
      Some(OrElse(session.currency, "usd")),
      Some("completed"))
  }

  /** The two metadata entries the recorder checks before writing. */
  predicate HasRequiredMetadata(session: CheckoutSession) {
    Truthy(Lookup(session.metadata, "userId")) && Truthy(Lookup(session.metadata, "priceId"))
  }

  /** The key a session's purchase is stored under. */
  function SessionKey(session: CheckoutSession): PurchaseKey
    requires HasRequiredMetadata(session)
  {
    PurchaseKey(session.metadata["userId"], session.metadata["priceId"])
  }

  /**
   * `createUserPurchase`: null without touching the store when the user or
   * price id is missing; otherwise upsert on `(user_id, product_item_id)`,
   * rethrowing a store error.
   */
  function CreateUserPurchase(s: Store, session: CheckoutSession, up: bool): (e: Effect<Option<UserPurchaseRow>>)
    ensures !HasRequiredMetadata(session) ==> e == Effect(s, Success(None))
    ensures HasRequiredMetadata(session) ==> e.result != Success(None)
    ensures HasRequiredMetadata(session) ==>
      (e.result.Success? <==> up && "itemId" in session.metadata && session.metadata["priceId"] in s.productItems)
    ensures !up && HasRequiredMetadata(session) ==> e.result == Failure(StoreFailure(Db.Unavailable))
    ensures e.result.Success? && e.result.value.Some? ==>
      var row := e.result.value.value;
      && HasRequiredMetadata(session)
      && KeyOf(row) == SessionKey(session)
      && Db.PurchaseRowOf(PurchaseRecord(session)) == Some(row)
      && Upserted(s.purchases, e.store.purchases, SessionKey(session), row)
    ensures up && HasRequiredMetadata(session) && "itemId" !in session.metadata ==>
      e.result.Failure? && e.result.error == StoreFailure(Db.NotNullViolation("stripe_product_id"))
    ensures HasRequiredMetadata(session) && session.metadata["priceId"] !in s.productItems ==>
      e.result.Failure?
    ensures e.result.Failure? ==> e.store == s && e.result.error.StoreFailure?
    ensures e.store.products == s.products && e.store.productItems == s.productItems
    ensures Valid(s) ==> Valid(e.store)
  {
    var record := PurchaseRecord(session);
    if !Truthy(record.userId) || !Truthy(record.productItemId) then Effect(s, Success(None))
    else match Db.UpsertPurchase(s, record, up)
      case Success(s') => Effect(s', Success(Db.PurchaseRowOf(record)))
      case Failure(err) => Effect(s, Failure(StoreFailure(err)))
  }

  /** A session whose purchase the store accepts. */
  predicate Recordable(s: Store, session: CheckoutSession) {
    HasRequiredMetadata(session) && "itemId" in session.metadata
    && session.metadata["priceId"] in s.productItems
  }

  /**
   * Two completed sessions for the same user and price leave exactly one
   * row under their key, carrying the second session's values.
   */
  lemma SecondPurchaseOverwritesFirst(s: Store, first: CheckoutSession, second: CheckoutSession)
    requires Recordable(s, first) && Recordable(s, second)
    requires SessionKey(first) == SessionKey(second)
    ensures var s2 := CreateUserPurchase(CreateUserPurchase(s, first, true).store, second, true).store;
      && s2.purchases.Keys == s.purchases.Keys + {SessionKey(second)}
      && s2.purchases[SessionKey(second)] == Db.PurchaseRowOf(PurchaseRecord(second)).value
      && s2.purchases[SessionKey(second)].amountPaid == PurchaseRecord(second).amountPaid
  {
    var e1 := CreateUserPurchase(s, first, true);
    assert e1.result.Success?;
    var e2 := CreateUserPurchase(e1.store, second, true);
    assert e2.result.Success?;
  }

  /** Recording the same session twice leaves what recording it once leaves. */
  lemma CreateUserPurchaseIdempotent(s: Store, session: CheckoutSession, up: bool)
    ensures CreateUserPurchase(CreateUserPurchase(s, session, up).store, session, up).store ==
            CreateUserPurchase(s, session, up).store
  {
  }
}
