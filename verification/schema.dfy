/**
 * The three tables of the backing store (`products`, `product_items`,
 * `user_purchases`), their rows, and the invariants the primary keys,
 * the purchase uniqueness constraint and the two foreign keys impose.
 * Generated timestamps and the purchase row's generated `id` are not kept.
 */
module Schema {
  import opened Wrappers
  import opened Provider

  /** A `products` row: `id` and `name` are required, the rest nullable. */
  datatype ProductRow = ProductRow(
    id: string,
    customId: Option<string>,
    name: string,
    description: Option<string>,
    icon: Option<string>)

  /** A `product_items` row (one provider price). */
  datatype ProductItemRow = ProductItemRow(
    id: string,
    customId: Option<string>,
    productId: string,
    name: string,
    price: int,
    description: Option<string>,
    features: Option<Json>,
    popular: Option<bool>,
    currency: Option<string>,
    recurringInterval: Option<string>)

  /** The `(user_id, product_item_id)` uniqueness key of `user_purchases`. */
  datatype PurchaseKey = PurchaseKey(userId: string, productItemId: string)

  /** A `user_purchases` row. */
  datatype UserPurchaseRow = UserPurchaseRow(
    userId: string,
    productItemId: string,
    stripeProductId: string,
    stripePaymentIntentId: Option<string>,
    stripeSessionId: Option<string>,
    stripeCustomerId: Option<string>,
    amountPaid: int,
    currency: Option<string>,
    paymentStatus: Option<string>)

  /**
   * A `user_purchases` insert payload as the recorder builds it: any of the
   * three required string columns may be missing (`undefined`).
   */
  datatype PurchaseInsert = PurchaseInsert(
    userId: Option<string>,
    productItemId: Option<string>,
    stripeProductId: Option<string>,
    stripePaymentIntentId: Option<string>,
    stripeSessionId: Option<string>,
    stripeCustomerId: Option<string>,
    amountPaid: int,
    currency: Option<string>,
    paymentStatus: Option<string>)

  function KeyOf(r: UserPurchaseRow): PurchaseKey {
    PurchaseKey(r.userId, r.productItemId)
  }

  /** The store: each table as a map from its conflict key to its row. */
  datatype Store = Store(
    products: map<string, ProductRow>,
    productItems: map<string, ProductItemRow>,
    purchases: map<PurchaseKey, UserPurchaseRow>)

  const EmptyStore: Store := Store(map[], map[], map[])

  const ProductItemsProductFkey: string := "product_items_product_id_fkey"
  const UserPurchasesProductItemFkey: string := "user_purchases_product_item_id_fkey"

  /** Every row sits under its own key: at most one row per key. */
  predicate KeysConsistent(s: Store) {
    && (forall k :: k in s.products ==> s.products[k].id == k)
    && (forall k :: k in s.productItems ==> s.productItems[k].id == k)
    && (forall k :: k in s.purchases ==> KeyOf(s.purchases[k]) == k)
  }

  /** `product_items.product_id` references `products.id`. */
  predicate PriceItemsReferenceProducts(s: Store) {
    forall k :: k in s.productItems ==> s.productItems[k].productId in s.products
  }

  /** `user_purchases.product_item_id` references `product_items.id`. */
  predicate PurchasesReferencePriceItems(s: Store) {
    forall k :: k in s.purchases ==> s.purchases[k].productItemId in s.productItems
  }

  /**
   * The store's constraints hold; then every purchase leads, through its
   * price row, to a stored product.
   */
  predicate Valid(s: Store)
    ensures Valid(s) ==> forall k :: k in s.purchases ==>
      && s.purchases[k].productItemId in s.productItems
      && s.productItems[s.purchases[k].productItemId].productId in s.products
  {
    KeysConsistent(s) && PriceItemsReferenceProducts(s) && PurchasesReferencePriceItems(s)
  }

  lemma EmptyStoreValid()
    ensures Valid(EmptyStore)
  {
  }

  /** `m'` agrees with `m` on every key other than `k`. */
  ghost predicate AgreeExcept<K, V>(m: map<K, V>, m': map<K, V>, k: K) {
    && (forall x :: x in m && x != k ==> x in m' && m'[x] == m[x])
    && (forall x :: x in m' && x != k ==> x in m)
  }

  /** `m'` is `m` with `v` stored under `k`, inserted or overwriting. */
  ghost predicate Upserted<K, V>(m: map<K, V>, m': map<K, V>, k: K, v: V) {
    k in m' && m'[k] == v && AgreeExcept(m, m', k)
  }

  /** `m'` is `m` without key `k`, whether or not `k` was there. */
  ghost predicate Removed<K, V>(m: map<K, V>, m': map<K, V>, k: K) {
    k !in m' && AgreeExcept(m, m', k)
  }
}
