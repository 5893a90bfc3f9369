/**
 * The payment provider's objects as the payment path sees them: catalog
 * products and prices, completed checkout sessions, and signed webhook
 * events discriminated by their type string.
 */
module Provider {
  import opened Wrappers

  /** A provider metadata bag: string keys to string values. */
  type Metadata = map<string, string>

  /** A decoded JSON value (numbers are kept as their literal text). */
  datatype Json =
    | JNull
    | JBool(b: bool)
    | JNumber(literal: string)
    | JString(s: string)
    | JArray(items: seq<Json>)
    | JObject(members: map<string, Json>)

  datatype Product = Product(
    id: string,
    name: string,
    description: Option<string>,
    images: seq<string>,
    metadata: Metadata)

  /** A price names its product either by id or as an expanded object. */
  datatype ProductRef = ProductId(id: string) | ExpandedProduct(product: Product)

  datatype Recurring = Recurring(interval: string)

  datatype Price = Price(
    id: string,
    product: ProductRef,
    nickname: Option<string>,
    unitAmount: Option<int>,
    currency: string,
    recurring: Option<Recurring>,
    metadata: Metadata)

  /** A checkout session; a null metadata bag reads like the empty one. */
  datatype CheckoutSession = CheckoutSession(
    id: string,
    paymentIntent: Option<string>,
    customer: Option<string>,
    amountTotal: Option<int>,
    currency: Option<string>,
    metadata: Metadata)

  datatype PaymentIntent = PaymentIntent(id: string)

  /** The loosely typed `event.data.object`. */
  datatype EventObject =
    | SessionObject(session: CheckoutSession)
    | ProductObject(product: Product)
    | PriceObject(price: Price)
    | PaymentIntentObject(intent: PaymentIntent)
    | OtherObject

  /** A verified event: its type string and its payload. */
  datatype Event = Event(kind: string, data: EventObject)

  /** The id a price's product reference names, whichever form it takes. */
  function RefId(r: ProductRef): (id: string)
    ensures r.ProductId? ==> id == r.id
    ensures r.ExpandedProduct? ==> id == r.product.id
  {
    match r
    case ProductId(pid) => pid
    case ExpandedProduct(p) => p.id
  }
}
