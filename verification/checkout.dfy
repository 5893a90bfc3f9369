/**
 * `POST /api/create-checkout-session`: validate the body, authenticate the
 * user, choose the session mode from the price, and create a hosted
 * checkout session whose metadata the purchase recorder later reads.
 */
module CheckoutRoute {
  import opened Wrappers
  import opened Values
  import opened Provider
  import BaseUrl
  import Sync

  /** The parsed JSON body's two fields; `body` is None when the body is not JSON. */
  datatype CheckoutBody = CheckoutBody(priceId: Option<string>, itemId: Option<string>)

  datatype CheckoutRequest = CheckoutRequest(body: Option<CheckoutBody>, headers: BaseUrl.Headers)

  datatype User = User(id: string, email: Option<string>)

  /** What the identity provider's `getUser` answers: the user, and whether it reported an error. */
  datatype AuthResult = AuthResult(user: Option<User>, failed: bool)

  /** Server configuration: the provider's secret key and the public domain. */
  datatype Settings = Settings(stripeSecretKey: Option<string>, publicDomain: Option<string>)

  datatype Mode = Subscription | Payment

  datatype LineItem = LineItem(price: string, quantity: int)

  /** The parameters handed to the provider's `checkout.sessions.create`. */
  datatype SessionParams = SessionParams(
    mode: string,
    paymentMethodTypes: seq<string>,
    lineItems: seq<LineItem>,
    successUrl: string,
    cancelUrl: string,
    metadata: Metadata)

  /**
   * The provider calls the route makes: `prices.retrieve` (the prices that
   * exist) and `checkout.sessions.create` (None when it throws, otherwise
   * the created session's nullable `url`).
   */
  datatype CheckoutApi = CheckoutApi(
    prices: map<string, Price>,
    createSession: SessionParams -> Option<Option<string>>)

  datatype Reply = UrlReply(url: Option<string>) | ErrorReply(error: string)

  datatype CheckoutResponse = CheckoutResponse(status: int, reply: Reply)

  /** The response and the session created at the provider, if one was. */
  datatype Outcome = Outcome(response: CheckoutResponse, created: Option<SessionParams>)

  const BadRequest: CheckoutResponse := CheckoutResponse(400, ErrorReply("Price ID and Item ID are required"))
  const Unauthenticated: CheckoutResponse := CheckoutResponse(401, ErrorReply("User not authenticated"))
  const CreationFailed: CheckoutResponse := CheckoutResponse(500, ErrorReply("Error creating checkout session"))

  /** `'subscription'` for a recurring price, `'payment'` for a one-time one. */
  function ModeFor(price: Price): (m: Mode)
    ensures m == Subscription <==> price.recurring.Some?
  {
    if price.recurring.Some? then Subscription else Payment
  }

  function ModeName(m: Mode): (name: string)
    ensures name == "subscription" <==> m == Subscription
    ensures name == "payment" <==> m == Payment
  {
    match m
    case Subscription => "subscription"
    case Payment => "payment"
  }

  /** The session parameters for one price bought by one user. */
  function SessionParamsFor(mode: Mode, priceId: string, itemId: string, user: User, baseUrl: string): (p: SessionParams)
    ensures p.mode == ModeName(mode) && p.paymentMethodTypes == ["card"]
    ensures |p.lineItems| == 1 && p.lineItems[0] == LineItem(priceId, 1)
    ensures p.successUrl == baseUrl + "/success?session_id={CHECKOUT_SESSION_ID}"
    ensures p.cancelUrl == baseUrl
    ensures p.metadata.Keys == {"itemId", "userId", "userEmail", "priceId"}
    ensures p.metadata["itemId"] == itemId && p.metadata["userId"] == user.id
    ensures p.metadata["priceId"] == priceId
    ensures p.metadata["userEmail"] == if Truthy(user.email) then user.email.value else ""
  {
    SessionParams(
      ModeName(mode),
      ["card"],
      [LineItem(priceId, 1)],
      baseUrl + "/success?session_id={CHECKOUT_SESSION_ID}",
      baseUrl,
      map["itemId" := itemId, "userId" := user.id, "userEmail" := OrElse(user.email, ""), "priceId" := priceId])
  }

  /** The request passed validation and authentication. */
  predicate Admitted(req: CheckoutRequest, auth: AuthResult) {
    && req.body.Some? && Truthy(req.body.value.priceId) && Truthy(req.body.value.itemId)
    && !auth.failed && auth.user.Some?
  }

  /** The parameters an admitted request asks the provider for, once its price is known. */
  function ParamsFor(req: CheckoutRequest, auth: AuthResult, settings: Settings, price: Price): SessionParams
    requires Admitted(req, auth)
  {
    SessionParamsFor(
      ModeFor(price), req.body.value.priceId.value, req.body.value.itemId.value, auth.user.value,
      BaseUrl.GetBaseUrl(settings.publicDomain, Some(req.headers)))
  }

  function Post(req: CheckoutRequest, auth: AuthResult, settings: Settings, api: CheckoutApi): (o: Outcome)
    ensures req.body.None? ==> o == Outcome(CreationFailed, None)
    ensures req.body.Some? && !(Truthy(req.body.value.priceId) && Truthy(req.body.value.itemId)) ==>
      o == Outcome(BadRequest, None)
    ensures req.body.Some? && Truthy(req.body.value.priceId) && Truthy(req.body.value.itemId)
            && (auth.failed || auth.user.None?) ==>
      o == Outcome(Unauthenticated, None)
    ensures Admitted(req, auth) && !Truthy(settings.stripeSecretKey) ==> o == Outcome(CreationFailed, None)
    ensures Admitted(req, auth) && Truthy(settings.stripeSecretKey)
            && req.body.value.priceId.value !in api.prices ==>
      o == Outcome(CreationFailed, None)
    ensures Admitted(req, auth) && Truthy(settings.stripeSecretKey)
            && req.body.value.priceId.value in api.prices ==>
      var params := ParamsFor(req, auth, settings, api.prices[req.body.value.priceId.value]);
      o == match api.createSession(params)
           case None => Outcome(CreationFailed, None)
           case Some(url) => Outcome(CheckoutResponse(200, UrlReply(url)), Some(params))
    ensures o.response.status == 200 <==> o.created.Some?
    ensures o.response.status in {200, 400, 401, 500}
    ensures o.created.Some? ==>
      && Admitted(req, auth)
      && req.body.value.priceId.value in api.prices
      && o.created.value == ParamsFor(req, auth, settings, api.prices[req.body.value.priceId.value])
      && Truthy(settings.stripeSecretKey)
      && o.response.reply.UrlReply?
      && api.createSession(o.created.value) == Some(o.response.reply.url)
  {
    match req.body
    case None => Outcome(CreationFailed, None)
    case Some(body) =>
      if !Truthy(body.priceId) || !Truthy(body.itemId) then Outcome(BadRequest, None)
      else if auth.failed || auth.user.None? then Outcome(Unauthenticated, None)
      else if !Truthy(settings.stripeSecretKey) then Outcome(CreationFailed, None)
      else if body.priceId.value !in api.prices then Outcome(CreationFailed, None)
      else
        var params := ParamsFor(req, auth, settings, api.prices[body.priceId.value]);
        match api.createSession(params)
        case None => Outcome(CreationFailed, None)
        case Some(url) => Outcome(CheckoutResponse(200, UrlReply(url)), Some(params))
  }

  /** A created session buys exactly the requested price, once, in the mode its recurrence dictates. */
  lemma CreatedSessionShape(req: CheckoutRequest, auth: AuthResult, settings: Settings, api: CheckoutApi)
    requires Post(req, auth, settings, api).created.Some?
    ensures var p := Post(req, auth, settings, api).created.value;
      var priceId := req.body.value.priceId.value;
      && p.lineItems == [LineItem(priceId, 1)]
      && (p.mode == "subscription" <==> api.prices[priceId].recurring.Some?)
      && (p.mode == "payment" <==> api.prices[priceId].recurring.None?)
      && p.cancelUrl == BaseUrl.GetBaseUrl(settings.publicDomain, Some(req.headers))
      && p.successUrl == p.cancelUrl + "/success?session_id={CHECKOUT_SESSION_ID}"
  {
  }

  /**
   * The metadata written here is what the purchase recorder reads back: a
   * completed session carrying it records the user, the price and the item,
   * and skips the missing-metadata branch exactly when the user id is not empty.
   */
  lemma MetadataFeedsRecorder(
    req: CheckoutRequest, auth: AuthResult, settings: Settings, api: CheckoutApi, completed: CheckoutSession)
    requires Post(req, auth, settings, api).created.Some?
    requires completed.metadata == Post(req, auth, settings, api).created.value.metadata
    ensures var record := Sync.PurchaseRecord(completed);
      && record.userId == Some(auth.user.value.id)
      && record.productItemId == req.body.value.priceId
      && record.stripeProductId == req.body.value.itemId
    ensures Sync.HasRequiredMetadata(completed) <==> auth.user.value.id != ""
  {
  }
}
