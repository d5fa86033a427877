/** Drafts, durable orders and the reconciliation rules of `/create-checkout-session`
    and `/confirm-payment` (src/orders/orders.route.js:127-175 and :272-400).
    The payment gateway is represented by the values it returns. */
module Orders {
  import opened Wrappers
  import opened JsText
  import opened GiftCards
  import opened Pricing
  import opened RequestValues

  const CompletedStatus := "completed"
  const PaidStatus := "paid"
  const UnknownEmail := "غير محدد"
  const NoDescription := "لا يوجد وصف"
  const MetadataSource := "mern-backend"
  const PublishKey := "HGvTMLDssJghr9tlN9gr4DVYt0qyBy"

  /** A product line of a draft or an order. A missing text field is "". */
  datatype OrderItem = OrderItem(
    productId: string, quantity: int, name: string, price: real, image: Option<string>,
    measurements: map<string, string>, category: string, giftCard: Option<GiftCard>)

  /** The body of `/create-checkout-session`; `products` is None when it is not an array. */
  datatype CheckoutRequest = CheckoutRequest(
    products: Option<seq<CartItem>>, email: string, customerName: string, customerPhone: string,
    country: string, wilayat: string, description: string, depositMode: bool,
    giftCard: Option<GiftCard>, gulfCountry: string)

  /** The pending order staged under its reference until payment is confirmed. */
  datatype Draft = Draft(
    orderId: string, products: seq<OrderItem>, amountToCharge: real, shippingFee: real,
    customerName: string, customerPhone: string, country: string, wilayat: string,
    description: string, email: string, status: string, depositMode: bool,
    remainingAmount: real, giftCard: Option<GiftCard>)

  /** A durable order. `shippingFee` is None when the record holds null or nothing. */
  datatype Order = Order(
    orderId: string, products: seq<OrderItem>, amount: real, shippingFee: Option<real>,
    customerName: string, customerPhone: string, country: string, wilayat: string,
    description: string, email: string, status: string, depositMode: bool,
    remainingAmount: real, giftCard: Option<GiftCard>, paymentSessionId: string,
    paidAt: Option<int>)

  /** The metadata bag of a gateway session. A missing key is "" (or None for the fee). */
  datatype Metadata = Metadata(
    email: string, customerName: string, customerPhone: string, country: string,
    wilayat: string, description: string, shippingFee: Option<real>,
    internalOrderId: string, source: string, gulfCountry: string)

  /** What `/create-checkout-session` posts to the gateway. */
  datatype SessionRequest = SessionRequest(
    clientReferenceId: string, mode: string, products: seq<LineItem>,
    successUrl: string, cancelUrl: string, metadata: Metadata)

  /** An entry of the gateway's session list. */
  datatype SessionSummary = SessionSummary(sessionId: string, clientReferenceId: string)

  /** The gateway's session detail; a missing `total_amount` is 0. */
  datatype SessionDetail = SessionDetail(paymentStatus: string, totalAmount: int, metadata: Metadata)

  datatype CheckoutResponse = CheckoutResponse(id: string, paymentLink: string)

  datatype Failure =
    | InvalidCart | NoSessionId | MissingReference | SessionNotFound
    | PaymentNotSuccessful | GatewayFailure | StoreFailure

  /** The HTTP status each failure is answered with. */
  function HttpStatus(f: Failure): (r: int)
    ensures r == 400 <==> f.InvalidCart? || f.MissingReference? || f.PaymentNotSuccessful?
    ensures r == 404 <==> f.SessionNotFound?
    ensures r == 500 <==> f.NoSessionId? || f.GatewayFailure? || f.StoreFailure?
  {
    match f
    case InvalidCart => 400
    case MissingReference => 400
    case PaymentNotSuccessful => 400
    case SessionNotFound => 404
    case NoSessionId => 500
    case GatewayFailure => 500
    case StoreFailure => 500
  }

  /** JavaScript's `a || b` on strings. */
  function Or(a: string, b: string): string {
    if a != "" then a else b
  }

  /** `Array.isArray(products) && products.length > 0`. */
  predicate CartIsValid(products: Option<seq<CartItem>>) {
    products.Some? && |products.value| > 0
  }

  /** `Array.isArray(p.image) ? p.image[0] : p.image`. */
  function FirstImage(image: ImageInput): Option<string> {
    match image
    case NoImage => None
    case Single(url) => Some(url)
    case List(urls) => if |urls| > 0 then Some(urls[0]) else None
  }

  /** Every gift card on an item list is absent or storable. */
  predicate ItemsStored(items: seq<OrderItem>) {
    forall i :: 0 <= i < |items| ==> Stored(items[i].giftCard)
  }

  predicate DraftStored(d: Draft) {
    Stored(d.giftCard) && ItemsStored(d.products)
  }

  predicate OrderStored(o: Order) {
    Stored(o.giftCard) && ItemsStored(o.products)
  }

  /** A cart item as it is staged. */
  function StageItem(p: CartItem): (r: OrderItem)
    ensures Stored(r.giftCard) && r.giftCard == NormalizeGift(p.giftCard)
    ensures r.productId == p.id && r.quantity == p.quantity && r.price == p.price
    ensures r.name == p.name && r.category == p.category && r.measurements == p.measurements
    ensures r.image == FirstImage(p.image)
  {
    NormalizeGiftStored(p.giftCard);
    OrderItem(p.id, p.quantity, p.name, p.price, FirstImage(p.image), p.measurements,
              p.category, NormalizeGift(p.giftCard))
  }

  /** The order payload staged in the cache at checkout. */
  function BuildDraft(req: CheckoutRequest, ref: string, q: Quote): (d: Draft)
    requires req.products.Some?
    ensures DraftStored(d) && d.orderId == ref
    ensures |d.products| == |req.products.value|
    ensures forall i :: 0 <= i < |d.products| ==> d.products[i] == StageItem(req.products.value[i])
    ensures d.amountToCharge == q.amountToCharge && d.remainingAmount == q.remainingAmount
    ensures d.shippingFee == q.shippingFee && d.status == CompletedStatus
    ensures d.country == StoredCountry(req.country, req.gulfCountry)
    ensures d.customerName == req.customerName && d.customerPhone == req.customerPhone
    ensures d.wilayat == req.wilayat && d.description == req.description && d.email == req.email
    ensures d.depositMode == req.depositMode && d.giftCard == NormalizeGift(req.giftCard)
  {
    var cart := req.products.value;
    NormalizeGiftStored(req.giftCard);
    Draft(ref, seq(|cart|, i requires 0 <= i < |cart| => StageItem(cart[i])),
          q.amountToCharge, q.shippingFee, req.customerName, req.customerPhone,
          StoredCountry(req.country, req.gulfCountry), req.wilayat, req.description,
          req.email, CompletedStatus, req.depositMode, q.remainingAmount,
          NormalizeGift(req.giftCard))
  }

  /** The metadata sent with a new session. */
  function CheckoutMetadata(req: CheckoutRequest, ref: string, fee: real): Metadata {
    Metadata(Or(req.email, UnknownEmail), req.customerName, req.customerPhone,
             StoredCountry(req.country, req.gulfCountry), req.wilayat,
             Or(req.description, NoDescription), Some(fee), ref, MetadataSource, "")
  }

  function SessionRequestFor(req: CheckoutRequest, ref: string, q: Quote): SessionRequest {
    SessionRequest(ref, "payment", q.lineItems,
                   "http://localhost:5173/SuccessRedirect?client_reference_id=" + ref,
                   "http://localhost:5173/cancel", CheckoutMetadata(req, ref, q.shippingFee))
  }

  function PaymentLink(sessionId: string): string {
    "https://uatcheckout.thawani.om/pay/" + sessionId + "?key=" + PublishKey
  }

  /** `sessions.find(s => s.client_reference_id === ref)`, as a position. */
  function FirstMatch(sessions: seq<SessionSummary>, ref: string): (r: Option<nat>)
    ensures r.Some? ==> r.value < |sessions| && sessions[r.value].clientReferenceId == ref
    ensures r.Some? ==> forall j :: 0 <= j < r.value ==> sessions[j].clientReferenceId != ref
    ensures r.None? <==> forall j :: 0 <= j < |sessions| ==> sessions[j].clientReferenceId != ref
  {
    if sessions == [] then None
    else if sessions[0].clientReferenceId == ref then Some(0)
    else
      match FirstMatch(sessions[1..], ref)
      case None => None
      case Some(k) => Some(k + 1)
  }

  /** The amount the gateway captured, in rials. */
  function PaidAmount(d: SessionDetail): real {
    d.totalAmount as real / 1000.0
  }

  /** The product list read back from a staged draft. */
  function ProductsFromCache(cached: Option<Draft>): (r: seq<OrderItem>)
    ensures ItemsStored(r)
    ensures |r| == if cached.Some? then |cached.value.products| else 0
    ensures cached.Some? ==> forall i :: 0 <= i < |r| ==>
      r[i] == cached.value.products[i].(giftCard := NormalizeGift(cached.value.products[i].giftCard))
    ensures cached.Some? && ItemsStored(cached.value.products) ==> r == cached.value.products
  {
    if cached.None? then []
    else
      var ps := cached.value.products;
      var r := seq(|ps|, i requires 0 <= i < |ps| =>
        NormalizeGiftStored(ps[i].giftCard);
        ps[i].(giftCard := NormalizeGift(ps[i].giftCard)));
      assert ItemsStored(ps) ==> r == ps by {
        if ItemsStored(ps) {
          forall i | 0 <= i < |ps| ensures r[i] == ps[i] {
            NormalizeStoredIsIdentity(ps[i].giftCard);
          }
        }
      }
      r
  }

  /** The shipping fee of a confirmed order: the metadata's, else the draft's, else
      recomputed from the metadata's country. */
  function ResolveShippingFee(meta: Metadata, cached: Option<Draft>): (r: real)
    ensures meta.shippingFee.Some? ==> r == meta.shippingFee.value
    ensures meta.shippingFee.None? && cached.Some? ==> r == cached.value.shippingFee
    ensures meta.shippingFee.None? && cached.None? ==>
              r == ShippingFee(Trim(meta.country), Trim(meta.gulfCountry))
  {
    if meta.shippingFee.Some? then meta.shippingFee.value
    else if cached.Some? then cached.value.shippingFee
    else ShippingFee(Trim(meta.country), Trim(meta.gulfCountry))
  }

  /** A draft's text field, or "" when there is no draft. */
  function CachedText(cached: Option<Draft>, f: Draft -> string): string {
    if cached.Some? then f(cached.value) else ""
  }

  /** The draft's value when it has one, else the metadata's. */
  predicate DraftFirst(fromDraft: string, fromMeta: string, r: string) {
    (fromDraft != "" ==> r == fromDraft) && (fromDraft == "" ==> r == fromMeta)
  }

  /** The order built when none exists yet: draft values first, metadata second,
      the amount always from the gateway. */
  function NewOrder(ref: string, cached: Option<Draft>, meta: Metadata, paid: real, fee: real): (o: Order)
    ensures o.amount == paid && o.status == CompletedStatus && o.shippingFee == Some(fee)
    ensures cached.None? ==> o.orderId == ref
    ensures cached.Some? && cached.value.orderId == ref ==> o.orderId == ref
    ensures DraftFirst(CachedText(cached, (d: Draft) => d.customerName), meta.customerName, o.customerName)
    ensures DraftFirst(CachedText(cached, (d: Draft) => d.customerPhone), meta.customerPhone, o.customerPhone)
    ensures DraftFirst(CachedText(cached, (d: Draft) => d.country), meta.country, o.country)
    ensures DraftFirst(CachedText(cached, (d: Draft) => d.wilayat), meta.wilayat, o.wilayat)
    ensures DraftFirst(CachedText(cached, (d: Draft) => d.description), meta.description, o.description)
    ensures DraftFirst(CachedText(cached, (d: Draft) => d.email), meta.email, o.email)
    ensures cached.None? ==> o.products == [] && !o.depositMode && o.remainingAmount == 0.0 && o.giftCard == None
    ensures OrderStored(o)
  {
    var c := cached;
    NormalizeGiftStored(if c.Some? then c.value.giftCard else None);
    Order(
      orderId := if c.Some? && c.value.orderId != "" then c.value.orderId else ref,
      products := ProductsFromCache(c),
      amount := paid,
      shippingFee := Some(fee),
      customerName := Or(CachedText(c, (d: Draft) => d.customerName), meta.customerName),
      customerPhone := Or(CachedText(c, (d: Draft) => d.customerPhone), meta.customerPhone),
      country := Or(CachedText(c, (d: Draft) => d.country), meta.country),
      wilayat := Or(CachedText(c, (d: Draft) => d.wilayat), meta.wilayat),
      description := Or(CachedText(c, (d: Draft) => d.description), meta.description),
      email := Or(CachedText(c, (d: Draft) => d.email), meta.email),
      status := CompletedStatus,
      depositMode := c.Some? && c.value.depositMode,
      remainingAmount := if c.Some? then c.value.remainingAmount else 0.0,
      giftCard := NormalizeGift(if c.Some? then c.value.giftCard else None),
      paymentSessionId := "",
      paidAt := None)
  }

  /** `if (!cur && v) cur = v`: a field is filled only while empty. */
  function FillEmpty(cur: string, v: string): (r: string)
    ensures cur != "" ==> r == cur
    ensures r != "" <==> cur != "" || v != ""
    ensures r == cur || r == v
  {
    if cur == "" && v != "" then v else cur
  }

  /** A field that was set is kept; an empty one takes the metadata's value. */
  predicate Filled(before: string, fromMeta: string, after: string) {
    && (before != "" ==> after == before)
    && (before == "" ==> after == fromMeta)
  }

  /** An existing order enriched by a confirmation: payment fields overwritten, identity
      and address fields only filled, products replaced only by a non-empty draft list,
      the fee only set when missing, the gift card only set when the order has none. */
  function Enriched(o: Order, cached: Option<Draft>, meta: Metadata, paid: real, fee: real): (r: Order)
    ensures r.status == CompletedStatus && r.amount == paid
    ensures r.orderId == o.orderId && r.depositMode == o.depositMode && r.remainingAmount == o.remainingAmount
    ensures r.paymentSessionId == o.paymentSessionId && r.paidAt == o.paidAt
    ensures Filled(o.customerName, meta.customerName, r.customerName)
    ensures Filled(o.customerPhone, meta.customerPhone, r.customerPhone)
    ensures Filled(o.country, meta.country, r.country)
    ensures Filled(o.wilayat, meta.wilayat, r.wilayat)
    ensures Filled(o.description, meta.description, r.description)
    ensures Filled(o.email, meta.email, r.email)
    ensures o.shippingFee.Some? ==> r.shippingFee == o.shippingFee
    ensures o.shippingFee.None? ==> r.shippingFee == Some(fee)
    ensures |ProductsFromCache(cached)| == 0 ==> r.products == o.products
    ensures |ProductsFromCache(cached)| > 0 ==> r.products == ProductsFromCache(cached)
    ensures HasGiftValues(o.giftCard) ==> r.giftCard == o.giftCard
    ensures var cg := if cached.Some? then cached.value.giftCard else None;
      && (!HasGiftValues(o.giftCard) && HasGiftValues(cg) ==> r.giftCard == NormalizeGift(cg))
      && (!HasGiftValues(cg) ==> r.giftCard == o.giftCard)
    ensures OrderStored(o) ==> OrderStored(r)
  {
    var fromCache := ProductsFromCache(cached);
    var cachedGift := if cached.Some? then cached.value.giftCard else None;
    NormalizeGiftStored(cachedGift);
    o.(status := CompletedStatus,
       amount := paid,
       customerName := FillEmpty(o.customerName, meta.customerName),
       customerPhone := FillEmpty(o.customerPhone, meta.customerPhone),
       country := FillEmpty(o.country, meta.country),
       wilayat := FillEmpty(o.wilayat, meta.wilayat),
       description := FillEmpty(o.description, meta.description),
       email := FillEmpty(o.email, meta.email),
       shippingFee := if o.shippingFee.None? then Some(fee) else o.shippingFee,
       products := if |fromCache| > 0 then fromCache else o.products,
       giftCard := if !HasGiftValues(o.giftCard) && HasGiftValues(cachedGift)
                   then NormalizeGift(cachedGift) else o.giftCard)
  }

  /** The merge into an existing order as the route performs it, one field at a time. */
  method Enrich(o: Order, cached: Option<Draft>, meta: Metadata, paid: real, fee: real)
    returns (order: Order)
    ensures order == Enriched(o, cached, meta, paid, fee)
  {
    var productsFromCache := ProductsFromCache(cached);
    order := o;
    order := order.(status := CompletedStatus);
    order := order.(amount := paid);
    order := order.(customerName := FillEmpty(order.customerName, meta.customerName));
    order := order.(customerPhone := FillEmpty(order.customerPhone, meta.customerPhone));
    order := order.(country := FillEmpty(order.country, meta.country));
    order := order.(wilayat := FillEmpty(order.wilayat, meta.wilayat));
    order := order.(description := FillEmpty(order.description, meta.description));
    order := order.(email := FillEmpty(order.email, meta.email));
    if order.shippingFee.None? {
      order := order.(shippingFee := Some(fee));
    }
    if |productsFromCache| > 0 {
      order := order.(products := productsFromCache);
    }
    var cachedGift := if cached.Some? then cached.value.giftCard else None;
    if !HasGiftValues(order.giftCard) && HasGiftValues(cachedGift) {
      order := order.(giftCard := NormalizeGift(cachedGift));
    }
  }

  /** The order a paid confirmation saves, given the store and the cache it reads. */
  function Reconciled(orders: map<string, Order>, cache: map<string, Draft>, ref: string,
                      sessionId: string, d: SessionDetail, paidAt: int): Order
  {
    var cached := if ref in cache then Some(cache[ref]) else None;
    var fee := ResolveShippingFee(d.metadata, cached);
    var o := if ref in orders then Enriched(orders[ref], cached, d.metadata, PaidAmount(d), fee)
             else NewOrder(ref, cached, d.metadata, PaidAmount(d), fee);
    o.(paymentSessionId := sessionId, paidAt := Some(paidAt))
  }

  /** Confirming again, with the draft gone and the same gateway answer, saves the same
      order with only the payment time renewed. */
  lemma ReconfirmIsStable(orders: map<string, Order>, cache: map<string, Draft>, ref: string,
                          sessionId: string, d: SessionDetail, t1: int, t2: int)
    ensures var o1 := Reconciled(orders, cache, ref, sessionId, d, t1);
            Reconciled(orders[ref := o1], cache - {ref}, ref, sessionId, d, t2)
              == o1.(paidAt := Some(t2))
  {
  }

  /** A paid confirmation keeps every stored gift card storable. */
  lemma ReconciledStored(orders: map<string, Order>, cache: map<string, Draft>, ref: string,
                         sessionId: string, d: SessionDetail, paidAt: int)
    requires ref in orders ==> OrderStored(orders[ref])
    ensures OrderStored(Reconciled(orders, cache, ref, sessionId, d, paidAt))
  {
  }

  /** A staged draft is carried into the new order unchanged: its products, gift card,
      deposit data and every non-empty identity field. */
  lemma {:induction false} DraftCarriedOver(ref: string, dr: Draft, meta: Metadata, paid: real, fee: real)
    requires DraftStored(dr) && dr.orderId == ref
    ensures var o := NewOrder(ref, Some(dr), meta, paid, fee);
      && o.orderId == ref && o.products == dr.products && o.giftCard == dr.giftCard
      && o.depositMode == dr.depositMode && o.remainingAmount == dr.remainingAmount
      && (dr.customerName != "" ==> o.customerName == dr.customerName)
      && (dr.customerPhone != "" ==> o.customerPhone == dr.customerPhone)
      && (dr.country != "" ==> o.country == dr.country)
      && (dr.wilayat != "" ==> o.wilayat == dr.wilayat)
      && (dr.description != "" ==> o.description == dr.description)
      && (dr.email != "" ==> o.email == dr.email)
  {
    var ps := ProductsFromCache(Some(dr));
    forall i | 0 <= i < |ps| ensures ps[i] == dr.products[i] {
      NormalizeStoredIsIdentity(dr.products[i].giftCard);
    }
    NormalizeStoredIsIdentity(dr.giftCard);
  }

  /** When the draft is lost, the session metadata alone rebuilds the customer and the
      shipping fee, but not the cart, the deposit data or the gift card. */
  lemma MetadataFallback(req: CheckoutRequest, ref: string, fee: real, paid: real)
    ensures var meta := CheckoutMetadata(req, ref, fee);
      var o := NewOrder(ref, None, meta, paid, ResolveShippingFee(meta, None));
      && o.orderId == ref && o.shippingFee == Some(fee)
      && o.customerName == req.customerName && o.customerPhone == req.customerPhone
      && o.country == StoredCountry(req.country, req.gulfCountry) && o.wilayat == req.wilayat
      && o.email == (if req.email != "" then req.email else UnknownEmail)
      && o.description == (if req.description != "" then req.description else NoDescription)
      && o.products == [] && !o.depositMode && o.remainingAmount == 0.0 && o.giftCard == None
  {
  }
}
