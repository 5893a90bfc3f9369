# Payment synchronisation path of a Next.js/Stripe/Supabase storefront

This project models the server-side path that keeps a storefront's database in step with its payment provider. It also proves properties of that model. The path has four parts:

- **Webhook endpoint** (`POST /api/webhooks/stripe`). It checks for the signature header, then for the configured signing secret, then verifies the signature. Next it sends the event to a handler chosen from a fixed table keyed by event type. The error policy is asymmetric: a failing purchase recorder is caught and the delivery still gets 200 `{received: true}`, but a failing catalog handler reaches the outer catch and gets 500.
- **Synchroniser** (`handleStripeProductSync`). It builds `products`, `product_items` and `user_purchases` records from provider objects. It writes them with upserts on their conflict keys, which overwrite on conflict, and with deletes by id. A price that names its product only by id first fetches and syncs that product.
- **Checkout-session creation** (`POST /api/create-checkout-session`). It validates the body (400), authenticates the user (401), picks `subscription` or `payment` mode, and writes the metadata `{itemId, userId, userEmail, priceId}` that the purchase recorder later reads.
- **`getBaseUrl`**. It returns the configured domain if set, else forwarded protocol plus `host` header, else `http://localhost:3000`.

The row datatypes in `Schema` follow the generated table types. A `products` row requires `id` and `name`, and `custom_id`, `description` and `icon` are nullable (lib/database.types.ts:105-113). A `product_items` row has non-null `id`, `name`, `product_id` and numeric `price`, and nullable `features`, `popular`, `currency` and `recurring_interval` (lib/database.types.ts:43-56). A `user_purchases` insert requires `user_id`, `product_item_id`, `stripe_product_id` and `amount_paid` (lib/database.types.ts:139-151). The two foreign keys (lib/database.types.ts:85-92 and 165-172) become the store invariant and the checks in `Db`.

The store is three maps: `products` and `product_items` keyed by id, and `user_purchases` keyed by `(user_id, product_item_id)`. The invariant `Schema.Valid` says three things: every row sits under its own key, every price row names a stored product, and every purchase names a stored price row. Each store statement is atomic. A failing statement leaves the store as it was, but writes made earlier in the same operation stay (the product pre-sync of a price).

Modules: `Wrappers` (Option/Result), `Values` (JavaScript truthiness: `x || d`, `x || null`, `bag?.key`), `Provider` (Stripe objects and events), `Schema` (rows, store, invariants), `Db` (atomic store statements with foreign-key and NOT NULL enforcement), `Sync` (`utils/supabase/webhook.ts`), `WebhookRoute`, `CheckoutRoute`, `BaseUrl`.

Parameters stand in for what the code reaches outside itself:

- `Sync.Backend.catalog`: what `stripe.products.retrieve` can return. A missing id means the call throws.
- `Sync.Backend.parseJson`: `JSON.parse`, as an abstract partial function.
- `Sync.Backend.dbUp`: whether the database answers during this request.
- `WebhookRoute.Env.constructEvent`: the provider's signature check, an opaque function returning the event or nothing.
- `WebhookRoute.Env.webhookSecret`, `CheckoutRoute.Settings`: the environment variables.
- `CheckoutRoute.CheckoutApi`: `prices.retrieve` and `checkout.sessions.create`.
- `CheckoutRoute.AuthResult`: the identity provider's `getUser` answer.

Three behaviours of the code are modelled as written:

- **Malformed `features`.** `JSON.parse` at utils/supabase/webhook.ts:66 has no fallback. So `Sync.Features` fails and the price is not stored. The product pre-sync at utils/supabase/webhook.ts:53-57 has already happened by then.
- **Deleting a referenced row.** The deletes at utils/supabase/webhook.ts:93-96 and 109-112 remove by id only. The ON DELETE rule of the two foreign keys is not in the source (see `Db.DeleteProduct` under "## Left out").
- **Missing `itemId`.** `createUserPurchase` checks only `userId` and `priceId` (utils/supabase/webhook.ts:141). A session without `itemId` therefore reaches the store. There the required column `stripe_product_id` (lib/database.types.ts:139-151) rejects it, and the webhook swallows that failure (app/api/webhooks/stripe/route.ts:120-128).

## Model

| member | source | states |
|---|---|---|
| Db.UpsertProduct | utils/supabase/webhook.ts:32-44 | upsert on `id` stores the row under its id, overwriting, leaves other rows and tables unchanged, keeps `Valid`; fails only when the database does not answer |
| Db.UpsertProductItem | lib/database.types.ts:85-92 | a price row is accepted exactly when its `product_id` names a stored product (else `product_items_product_id_fkey` violation); on success it overwrites only that id and keeps `Valid` |
| Db.PurchaseRowOf | lib/database.types.ts:139-151 | a purchase payload becomes a row exactly when `user_id`, `product_item_id` and `stripe_product_id` are all present; all other columns carry over |
| Db.UpsertPurchase | utils/supabase/webhook.ts:149-161 | upsert on `(user_id, product_item_id)`: succeeds exactly when the database answers, required columns are present and the price row exists; a missing column is a NOT NULL violation; on success exactly the row under that key is replaced and `Valid` holds |
| Db.DeleteProduct | utils/supabase/webhook.ts:93-101 | delete by id succeeds exactly when no price row references the id; it removes that id only, absent or not, and keeps `Valid` |
| Db.DeleteProductItem | utils/supabase/webhook.ts:109-117 | delete of a price row succeeds exactly when no purchase references it; it removes that id only and keeps `Valid` |
| Db.DeleteAbsentProductIsNoop | utils/supabase/webhook.ts:93-96 | in a valid store, deleting an absent product succeeds and returns the store unchanged |
| Db.DeleteAbsentPriceItemIsNoop | utils/supabase/webhook.ts:109-112 | in a valid store, deleting an absent price row succeeds and returns the store unchanged |
| Sync.ProductRecord | utils/supabase/webhook.ts:24-30 | the product record keeps `id` and `name`; `custom_id`, `description` and `icon` are null exactly when the metadata entry, description or first image is missing or empty |
| Sync.IconIgnoresMetadata | utils/supabase/webhook.ts:29 | `icon` comes from the first image; changing the product's metadata never changes it |
| Sync.SyncProduct | utils/supabase/webhook.ts:21-48 | `syncProduct` succeeds exactly when the database answers, returns the record, stores it under `product.id` overwriting any old row, leaves every other row alone; on failure the store is unchanged |
| Sync.SyncProductOverwrites | utils/supabase/webhook.ts:32-37 | the stored product row does not depend on what was stored before (no merge) |
| Sync.SyncProductIdempotent | utils/supabase/webhook.ts:32-37 | syncing the same product twice gives the same store and result as once |
| Sync.Features | utils/supabase/webhook.ts:66 | `features` is `[]` when the metadata entry is absent or empty; otherwise it is the parse, and it fails with `MalformedFeatures` exactly when the parse fails |
| Sync.PriceRecord | utils/supabase/webhook.ts:59-70 | the price record: `product_id` is the reference's id, name is the nickname or `"Price for <id>"`, price is `unit_amount` or 0, `popular` is true exactly when the metadata says `"true"`, `recurring_interval` is the interval or null, `currency` is carried over; fails only on malformed features |
| Sync.StorePrice | utils/supabase/webhook.ts:72-84 | the price upsert succeeds exactly when the record builds, the database answers and the product row exists; on failure the store is unchanged |
| Sync.SyncPrice | utils/supabase/webhook.ts:50-88 | `syncPrice`: a by-id product is retrieved and upserted before the price; it succeeds exactly when the product is retrievable, the database answers, the features parse and the product row then exists; an expanded reference succeeds exactly when its product row is already stored, and its product is never written; retrieval failure touches nothing; with the database down nothing is written and a retrieved product's upsert throws `Unavailable`; price rows change only on success; `Valid` is kept |
| Sync.SyncPriceCreatesProductFirst | utils/supabase/webhook.ts:53-57 | a price naming a retrievable product by id is stored whatever the store held, and its product row exists afterwards |
| Sync.PreSyncIsNeeded | lib/database.types.ts:85-92 | without the pre-sync, a price whose product is not stored is refused |
| Sync.MalformedFeaturesKeepsPreSync | utils/supabase/webhook.ts:53-66 | malformed `features` fails `syncPrice`, leaving exactly the store that the product pre-sync produced |
| Sync.SyncPriceIdempotent | utils/supabase/webhook.ts:53-79 | syncing the same price twice gives the same store and result as once, failures included |
| Sync.DeleteProduct | utils/supabase/webhook.ts:90-104 | `deleteProduct` removes only the given id and keeps the other tables; only a store error throws, leaving the store unchanged |
| Sync.DeletePrice | utils/supabase/webhook.ts:106-120 | `deletePrice` removes only the given id and keeps the other tables; only a store error throws, leaving the store unchanged |
| Sync.DeleteMissingIsNoop | utils/supabase/webhook.ts:90-120 | deleting an id that is not stored succeeds and leaves the store unchanged |
| Sync.DeleteIdempotent | utils/supabase/webhook.ts:90-120 | a repeated delete of the same id has the same outcome as the first |
| Sync.PurchaseRecord | utils/supabase/webhook.ts:126-136 | the purchase payload: user, price row and product id from metadata; `stripe_session_id` is the session id; amount is `amount_total` or 0; currency is the session's or `"usd"`; status is always `"completed"` |
| Sync.CreateUserPurchase | utils/supabase/webhook.ts:122-169 | `createUserPurchase` returns null with no store change exactly when `userId` or `priceId` is missing or empty; otherwise it succeeds exactly when the database answers, `itemId` is present and the price row is stored, and then upserts the row under `(userId, priceId)`; a missing `itemId` is refused by the store; an unavailable database is rethrown; every failure leaves the store unchanged; `Valid` is kept |
| Sync.SecondPurchaseOverwritesFirst | utils/supabase/webhook.ts:149-156 | two purchases with the same key leave one row under that key, carrying the second's values |
| Sync.CreateUserPurchaseIdempotent | utils/supabase/webhook.ts:149-156 | recording the same session twice leaves the same store as once |
| WebhookRoute.HandlerFor | app/api/webhooks/stripe/route.ts:39-98 | the event-type table: `checkout.session.completed` to the recorder, the two payment-intent types to log-only handlers, `product.created`/`updated` to `syncProduct`, `product.deleted` to `deleteProduct`, `price.created`/`updated` to `syncPrice`, `price.deleted` to `deletePrice`, each in both directions, and every other type to the unhandled no-op; the effect of each entry on a delivery is stated by `WebhookRoute.ProductEventsSyncProduct`, `WebhookRoute.ProductDeletedDeletesProduct`, `WebhookRoute.PriceEventsSyncPrice`, `WebhookRoute.PriceDeletedDeletesPrice`, `WebhookRoute.CheckoutCompletedIsAcknowledged` and `WebhookRoute.LogOnlyEventsChangeNothing` |
| Schema.Valid | lib/database.types.ts:85-92 | the store invariant: rows under their own keys, `product_items.product_id` naming a stored product, `user_purchases.product_item_id` naming a stored price row (lib/database.types.ts:165-172); it implies that every purchase leads through its price row to a stored product; every `Db` statement keeps it, and `WebhookRoute.DeliverAll` keeps it over any delivery sequence |
| WebhookRoute.CatalogKindsReachCatalogHandlers | app/api/webhooks/stripe/route.ts:39-98 | exactly the six `product.*`/`price.*` types dispatch to a catalog handler |
| WebhookRoute.RunHandler | app/api/webhooks/stripe/route.ts:39-98 | only catalog handlers can throw; the log-only handlers leave the store unchanged; every handler keeps `Valid` |
| WebhookRoute.Verified | app/api/webhooks/stripe/route.ts:15-36 | an event is obtained only with a non-empty signature and secret; once both are present the outcome is exactly what `constructEvent` returns for body, signature and secret, so every event it accepts goes on to dispatch |
| WebhookRoute.Post | app/api/webhooks/stripe/route.ts:9-108 | guards in order: missing signature gives 400 before the secret is consulted; missing secret gives 500; rejected verification gives 400; each of these leaves the store unchanged; a verified event answers 500 exactly when its handler threw, else 200 `{received: true}`; `Valid` is kept |
| WebhookRoute.StatusFromGuards | app/api/webhooks/stripe/route.ts:9-108 | the status is 400 exactly on a signature guard failure, 500 exactly on a missing secret or a throwing catalog handler, and 200 exactly when the body is `{received: true}` |
| WebhookRoute.RejectedDeliveryChangesNothing | app/api/webhooks/stripe/route.ts:27-36 | an unverified delivery changes nothing and answers 400 or 500 |
| WebhookRoute.CheckoutCompletedIsAcknowledged | app/api/webhooks/stripe/route.ts:111-129 | `checkout.session.completed` always answers 200, stores what `createUserPurchase` stored, and leaves the store unchanged when it threw |
| WebhookRoute.LogOnlyEventsChangeNothing | app/api/webhooks/stripe/route.ts:47-59 | payment-intent events and unknown types answer 200 with no store change |
| WebhookRoute.ProductEventsSyncProduct | app/api/webhooks/stripe/route.ts:61-71 | `product.created`/`product.updated` have the effect of `syncProduct`, answering 500 exactly when it fails |
| WebhookRoute.ProductDeletedDeletesProduct | app/api/webhooks/stripe/route.ts:73-77 | `product.deleted` has the effect of `deleteProduct(id)`, answering 500 exactly when it fails |
| WebhookRoute.PriceEventsSyncPrice | app/api/webhooks/stripe/route.ts:79-89 | `price.created`/`price.updated` have the effect of `syncPrice`, answering 500 exactly when it fails |
| WebhookRoute.PriceDeletedDeletesPrice | app/api/webhooks/stripe/route.ts:91-95 | `price.deleted` has the effect of `deletePrice(id)`, answering 500 exactly when it fails |
| WebhookRoute.CompletedCheckoutRecordsPurchase | utils/supabase/webhook.ts:126-156 | a completed session for `u1`/`pi_1` of 2999 usd yields one purchase row with those values, status `completed` and session `cs_test_1` |
| WebhookRoute.PostIdempotent | app/api/webhooks/stripe/route.ts:38-100 | redelivering any request under the same environment answers the same and leaves the same store |
| WebhookRoute.DeliverAll | app/api/webhooks/stripe/route.ts:9-108 | any sequence of deliveries, each under its own environment (database availability, catalog, secret), keeps the store `Valid` |
| WebhookRoute.DeliveriesFromEmptyStoreStayValid | app/api/webhooks/stripe/route.ts:9-108 | any sequence of deliveries, each under its own environment, starting from an empty store leaves a valid store |
| WebhookRoute.RedeliveryIsHarmless | app/api/webhooks/stripe/route.ts:9-108 | retrying any delivery right after itself under the same environment leaves the final store unchanged, whatever the environments of the other deliveries |
| WebhookRoute.OutageLeavesNoTrace | app/api/webhooks/stripe/route.ts:38-100 | with the database down, a delivery of any event leaves the store as it was |
| WebhookRoute.AttemptDuringOutageIsForgotten | app/api/webhooks/stripe/route.ts:9-108 | an attempt made while the database is down drops out of any delivery sequence: the later deliveries end in the store they reach without it |
| BaseUrl.GetBaseUrl | lib/utils.ts:6-24 | the configured domain wins; otherwise protocol (default `http`) + `://` + host when a host header is present; otherwise `http://localhost:3000` |
| BaseUrl.DomainOutranksHeaders | lib/utils.ts:8-10 | with a domain configured, the result is that domain whatever the request |
| BaseUrl.ProtocolDefaultsToHttp | lib/utils.ts:14 | without `x-forwarded-proto` the URL is `http://` + host |
| BaseUrl.ForwardedProtocolIsUsed | lib/utils.ts:13-19 | a forwarded protocol is kept verbatim in front of `://` and the host |
| BaseUrl.OnlyHostAndProtocolMatter | lib/utils.ts:13-19 | two requests whose `host` and `x-forwarded-proto` headers agree give the same base URL, whatever their other headers |
| CheckoutRoute.ModeFor | app/api/create-checkout-session/route.ts:36-39 | mode is subscription exactly when the price is recurring |
| CheckoutRoute.ModeName | app/api/create-checkout-session/route.ts:39 | the provider strings `"subscription"` and `"payment"` passed as the session's `mode`, one for each mode |
| CheckoutRoute.SessionParamsFor | app/api/create-checkout-session/route.ts:41-58 | the mode's provider string, card payment, one line item (the price, quantity 1), success URL `base + "/success?session_id={CHECKOUT_SESSION_ID}"`, cancel URL `base`, metadata exactly `{itemId, userId, userEmail (email or ""), priceId}` |
| CheckoutRoute.Post | app/api/create-checkout-session/route.ts:7-68 | an unparsable body gives 500; a missing price or item id gives 400 whatever the authentication; then an auth error or absent user gives 401; for an admitted request, a missing secret key, an unknown price or a throwing `createSession` gives 500, and otherwise the answer is 200 with the session's URL and exactly the session parameters built for it; no session exists on any non-200 path |
| CheckoutRoute.CreatedSessionShape | app/api/create-checkout-session/route.ts:39-51 | a created session buys only the requested price, once; its mode is `"subscription"` exactly when the price is recurring and `"payment"` exactly when it is not; its URLs are built from `getBaseUrl` |
| CheckoutRoute.MetadataFeedsRecorder | app/api/create-checkout-session/route.ts:52-57 | a completed session carrying this metadata makes the recorder read back the user, price and item ids; it skips the missing-metadata branch exactly when the user id is non-empty |

## Left out

- Db.DeleteProduct: the ON DELETE rule of the two foreign keys is not in the source, because the generated `Relationships` entries (lib/database.types.ts:85-92, 165-172) never carry one. The model assumes NO ACTION: deleting a product that a price row references, or a price row that a purchase references, is refused, so `product.deleted`/`price.deleted` then answer 500. `Db.DeleteProductItem` makes the same assumption. Under CASCADE these deletes would succeed and remove the referencing rows too.
- Stripe's signature scheme inside `constructEvent`: a foreign library call, modelled as the opaque `Env.constructEvent`. The claims about tampered bodies and wrong secrets are properties of that library.
- `JSON.parse`: modelled as the abstract partial function `Backend.parseJson`. JSON numbers are kept as literal text because floating point is out of scope.
- Network clients, the module-load reads of environment variables (utils/supabase/webhook.ts:6-18 and the route's module-level `getStripe()`), and the lazy client singleton in lib/stripe.ts: I/O and global state, passed in as parameters instead.
- Database availability is one flag per request (`Backend.dbUp`); each delivery of a sequence carries its own. An outage that starts between the product pre-sync and the price upsert of the same request is not modelled. A partial `syncPrice` effect is still covered through malformed features.
- Concurrent deliveries: every store statement is one atomic map update; race-freedom is the database's job.
- Timestamps (`created_at`, `updated_at`, `purchased_at`) and the generated purchase `id`: clock and randomness.
- `console.log`/`console.error` logging, including the "unhandled event" message and the payment-intent handlers' logging; those handlers are modelled as no-ops.
- A verified event whose payload does not match its type tag (the provider never sends one): catalog handlers treat it as a failure, and the purchase and log handlers as a no-op.
- Request body fields of non-string JSON type in checkout creation: the body is modelled as two optional strings, or as unparsable.
- `formatPrice` variants, all UI pages and components, the seeding script, app/api/checkout-session/route.ts and lib/types.ts: floating-point formatting, rendering and SDK glue outside the payment path.
