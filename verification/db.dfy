/**
 * The store's atomic statements: upsert on a conflict target (overwriting
 * every column on conflict) and delete by id. Each either takes effect
 * whole or fails leaving the store untouched. `up` says whether the
 * database answered the call; the foreign keys are enforced with no
 * referential action (NO ACTION: a delete that would leave a referencing
 * row is refused, nothing cascades), and the NOT NULL columns of
 * `user_purchases` reject a payload that lacks them.
 */
module Db {
  import opened Wrappers
  import opened Schema

  datatype StoreError =
    | Unavailable
    | ForeignKeyViolation(constraint: string)
    | NotNullViolation(column: string)

  /** `upsert` into `products` on conflict `id`. */
  function UpsertProduct(s: Store, row: ProductRow, up: bool): (r: Result<Store, StoreError>)
    ensures r.Success? <==> up
    ensures !up ==> r == Failure(Unavailable)
    ensures r.Success? ==> Upserted(s.products, r.value.products, row.id, row)
    ensures r.Success? ==> r.value.productItems == s.productItems && r.value.purchases == s.purchases
    ensures r.Success? && Valid(s) ==> Valid(r.value)
  {
    if !up then Failure(Unavailable)
    else Success(s.(products := s.products[row.id := row]))
  }

  /** `upsert` into `product_items` on conflict `id`; the product must exist. */
  function UpsertProductItem(s: Store, row: ProductItemRow, up: bool): (r: Result<Store, StoreError>)
    ensures r.Success? <==> up && row.productId in s.products
    ensures !up ==> r == Failure(Unavailable)
    ensures up && row.productId !in s.products ==> r == Failure(ForeignKeyViolation(ProductItemsProductFkey))
    ensures r.Success? ==> Upserted(s.productItems, r.value.productItems, row.id, row)
    ensures r.Success? ==> r.value.products == s.products && r.value.purchases == s.purchases
    ensures r.Success? && Valid(s) ==> Valid(r.value)
  {
    if !up then Failure(Unavailable)
    else if row.productId !in s.products then Failure(ForeignKeyViolation(ProductItemsProductFkey))
    else Success(s.(productItems := s.productItems[row.id := row]))
  }

  /** The row a purchase payload becomes, when every required column is present. */
  function PurchaseRowOf(ins: PurchaseInsert): (r: Option<UserPurchaseRow>)
    ensures r.Some? <==> ins.userId.Some? && ins.productItemId.Some? && ins.stripeProductId.Some?
    ensures r.Some? ==> KeyOf(r.value) == PurchaseKey(ins.userId.value, ins.productItemId.value)
    ensures r.Some? ==> r.value.stripeProductId == ins.stripeProductId.value
    ensures r.Some? ==> r.value.amountPaid == ins.amountPaid && r.value.currency == ins.currency
    ensures r.Some? ==> r.value.paymentStatus == ins.paymentStatus && r.value.stripeSessionId == ins.stripeSessionId
    ensures r.Some? ==> r.value.stripePaymentIntentId == ins.stripePaymentIntentId
    ensures r.Some? ==> r.value.stripeCustomerId == ins.stripeCustomerId
  {
    match (ins.userId, ins.productItemId, ins.stripeProductId)
    case (Some(u), Some(p), Some(sp)) =>
      Some(UserPurchaseRow(u, p, sp, ins.stripePaymentIntentId, ins.stripeSessionId,
                           ins.stripeCustomerId, ins.amountPaid, ins.currency, ins.paymentStatus))
    case _ => None
  }

  /** The first required column a purchase payload lacks. */
  function MissingColumn(ins: PurchaseInsert): string
  {
    if ins.userId.None? then "user_id"
    else if ins.productItemId.None? then "product_item_id"
    else "stripe_product_id"
  }

  /**
   * `upsert` into `user_purchases` on conflict `(user_id, product_item_id)`:
   * NOT NULL columns first, then the foreign key to `product_items`.
   */
  function UpsertPurchase(s: Store, ins: PurchaseInsert, up: bool): (r: Result<Store, StoreError>)
    ensures r.Success? <==>
      up && PurchaseRowOf(ins).Some? && PurchaseRowOf(ins).value.productItemId in s.productItems
    ensures !up ==> r == Failure(Unavailable)
    ensures up && PurchaseRowOf(ins).None? ==> r == Failure(NotNullViolation(MissingColumn(ins)))
    ensures r.Success? ==>
      var row := PurchaseRowOf(ins).value;
      Upserted(s.purchases, r.value.purchases, KeyOf(row), row)
    ensures r.Success? ==> r.value.products == s.products && r.value.productItems == s.productItems
    ensures r.Success? && Valid(s) ==> Valid(r.value)
  {
    if !up then Failure(Unavailable)
    else match PurchaseRowOf(ins)
      case None => Failure(NotNullViolation(MissingColumn(ins)))
      case Some(row) =>
        if row.productItemId !in s.productItems then Failure(ForeignKeyViolation(UserPurchasesProductItemFkey))
        else Success(s.(purchases := s.purchases[KeyOf(row) := row]))
  }

  /** Some price row names product `id`. */
  predicate ProductReferenced(s: Store, id: string) {
    exists k :: k in s.productItems && s.productItems[k].productId == id
  }

  /** Some purchase row names price row `id`. */
  predicate PriceItemReferenced(s: Store, id: string) {
    exists k :: k in s.purchases && s.purchases[k].productItemId == id
  }

  /** `delete from products where id = ...`: zero rows matched is not an error. */
  function DeleteProduct(s: Store, id: string, up: bool): (r: Result<Store, StoreError>)
    ensures r.Success? <==> up && !ProductReferenced(s, id)
    ensures !up ==> r == Failure(Unavailable)
    ensures up && ProductReferenced(s, id) ==> r == Failure(ForeignKeyViolation(ProductItemsProductFkey))
    ensures r.Success? ==> Removed(s.products, r.value.products, id)
    ensures r.Success? ==> r.value.productItems == s.productItems && r.value.purchases == s.purchases
    ensures r.Success? && Valid(s) ==> Valid(r.value)
  {
    if !up then Failure(Unavailable)
    else if ProductReferenced(s, id) then Failure(ForeignKeyViolation(ProductItemsProductFkey))
    else Success(s.(products := s.products - {id}))
  }

  /** `delete from product_items where id = ...`: zero rows matched is not an error. */
  function DeleteProductItem(s: Store, id: string, up: bool): (r: Result<Store, StoreError>)
    ensures r.Success? <==> up && !PriceItemReferenced(s, id)
    ensures !up ==> r == Failure(Unavailable)
    ensures up && PriceItemReferenced(s, id) ==> r == Failure(ForeignKeyViolation(UserPurchasesProductItemFkey))
    ensures r.Success? ==> Removed(s.productItems, r.value.productItems, id)
    ensures r.Success? ==> r.value.products == s.products && r.value.purchases == s.purchases
    ensures r.Success? && Valid(s) ==> Valid(r.value)
  {
    if !up then Failure(Unavailable)
    else if PriceItemReferenced(s, id) then Failure(ForeignKeyViolation(UserPurchasesProductItemFkey))
    else Success(s.(productItems := s.productItems - {id}))
  }

  /** In a valid store an absent product has no price rows, so deleting it is a no-op. */
  lemma DeleteAbsentProductIsNoop(s: Store, id: string)
    requires Valid(s) && id !in s.products
    ensures DeleteProduct(s, id, true) == Success(s)
  {
    assert s.products - {id} == s.products;
  }

  /** In a valid store an absent price row has no purchases, so deleting it is a no-op. */
  lemma DeleteAbsentPriceItemIsNoop(s: Store, id: string)
    requires Valid(s) && id !in s.productItems
    ensures DeleteProductItem(s, id, true) == Success(s)
  {
    assert s.productItems - {id} == s.productItems;
  }
}
