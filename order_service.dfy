/** The pending-order cache (`ORDER_CACHE`) and the order collection, with the two
    routes that change them (src/orders/orders.route.js:55-202 and :237-415). */
module OrderService {
  import opened Wrappers
  import opened Pricing
  import opened Orders

  /** The draft staged and the answer given once the gateway has replied to a new session. */
  predicate CheckoutOutcome(req: CheckoutRequest, ref: string, q: Quote, reply: Reply<string>,
                            sent: Option<SessionRequest>, r: Result<CheckoutResponse, Failure>,
                            before: map<string, Draft>, after: map<string, Draft>)
    requires req.products.Some?
  {
    && sent == Some(SessionRequestFor(req, ref, q))
    && match reply
       case Threw =>
         r == Err(GatewayFailure) && after == before[ref := BuildDraft(req, ref, q)]
       case Returned(sessionId) =>
         if sessionId == "" then
           r == Err(NoSessionId) && after == before - {ref}
         else
           r == Ok(CheckoutResponse(sessionId, PaymentLink(sessionId)))
           && after == before[ref := BuildDraft(req, ref, q)]
  }

  /** The gateway reports a paid session for `ref`. */
  predicate PaidSession(ref: string, listing: Reply<seq<SessionSummary>>, detail: Reply<Option<SessionDetail>>) {
    && ref != ""
    && listing.Returned? && FirstMatch(listing.value, ref).Some?
    && detail.Returned? && detail.value.Some? && detail.value.value.paymentStatus == PaidStatus
  }

  class Checkout {
    /** `ORDER_CACHE`: client reference -> staged draft. */
    var cache: map<string, Draft>
    /** The order collection, keyed by `orderId`. */
    var orders: map<string, Order>

    /** Every entry sits under its own reference, and no stored gift card is all blank. */
    ghost predicate Valid()
      reads this
    {
      && (forall k :: k in cache ==> cache[k].orderId == k && DraftStored(cache[k]))
      && (forall k :: k in orders ==> orders[k].orderId == k && OrderStored(orders[k]))
    }

    constructor ()
      ensures Valid() && cache == map[] && orders == map[]
    {
      cache := map[];
      orders := map[];
    }

    /** `/create-checkout-session`, with `ref` the generated reference and `reply` the
        gateway's answer: its session id ("" when it sent none), or a thrown error. */
    method CreateCheckout(req: CheckoutRequest, ref: string, reply: Reply<string>)
      returns (sent: Option<SessionRequest>, r: Result<CheckoutResponse, Failure>)
      requires Valid()
      modifies this
      ensures Valid()
      ensures orders == old(orders)
      ensures !CartIsValid(req.products) ==> sent == None && r == Err(InvalidCart) && cache == old(cache)
      ensures CartIsValid(req.products) ==>
        exists q :: IsQuoteFor(req.products.value, req.country, req.gulfCountry, req.depositMode, q)
                 && CheckoutOutcome(req, ref, q, reply, sent, r, old(cache), cache)
    {
      if !CartIsValid(req.products) {
        return None, Err(InvalidCart);
      }
      var q := ComputeQuote(req.products.value, req.country, req.gulfCountry, req.depositMode);
      var draft := BuildDraft(req, ref, q);
      cache := cache[ref := draft];
      sent := Some(SessionRequestFor(req, ref, q));
      match reply
      case Threw =>
        r := Err(GatewayFailure);
      case Returned(sessionId) =>
        if sessionId == "" {
          cache := cache - {ref};
          r := Err(NoSessionId);
        } else {
          r := Ok(CheckoutResponse(sessionId, PaymentLink(sessionId)));
        }
    }

    /** `/confirm-payment`: `listing` is the gateway's first page of sessions, `detail` its
        answer for the session found, `saved` whether the store accepts the write and
        `paidAt` the current time. */
    method ConfirmPayment(ref: string, listing: Reply<seq<SessionSummary>>,
                          detail: Reply<Option<SessionDetail>>, saved: bool, paidAt: int)
      returns (r: Result<Order, Failure>)
      requires Valid()
      modifies this
      ensures Valid()
      ensures ref == "" ==> r == Err(MissingReference)
      ensures ref != "" && listing.Threw? ==> r == Err(GatewayFailure)
      ensures ref != "" && listing.Returned? && FirstMatch(listing.value, ref).None? ==>
                r == Err(SessionNotFound)
      ensures ref != "" && listing.Returned? && FirstMatch(listing.value, ref).Some? ==>
                (detail.Threw? ==> r == Err(GatewayFailure)) &&
                (detail.Returned? && (detail.value.None? || detail.value.value.paymentStatus != PaidStatus) ==>
                   r == Err(PaymentNotSuccessful))
      ensures PaidSession(ref, listing, detail) && !saved ==> r == Err(StoreFailure)
      ensures r.Err? ==> cache == old(cache) && orders == old(orders)
      ensures r.Ok? <==> PaidSession(ref, listing, detail) && saved
      ensures r.Ok? ==>
        var s := listing.value[FirstMatch(listing.value, ref).value];
        && r.value == Reconciled(old(orders), old(cache), ref, s.sessionId, detail.value.value, paidAt)
        && orders == old(orders)[ref := r.value]
        && cache == old(cache) - {ref}
    {
      if ref == "" {
        return Err(MissingReference);
      }
      if listing.Threw? {
        return Err(GatewayFailure);
      }
      var found := FirstMatch(listing.value, ref);
      if found.None? {
        return Err(SessionNotFound);
      }
      var sessionId := listing.value[found.value].sessionId;
      if detail.Threw? {
        return Err(GatewayFailure);
      }
      if detail.value.None? || detail.value.value.paymentStatus != PaidStatus {
        return Err(PaymentNotSuccessful);
      }
      var session := detail.value.value;
      var meta := session.metadata;
      var paid := PaidAmount(session);
      var cached := if ref in cache then Some(cache[ref]) else None;
      var fee := ResolveShippingFee(meta, cached);

      var order: Order;
      if ref !in orders {
        order := NewOrder(ref, cached, meta, paid, fee);
      } else {
        order := Enrich(orders[ref], cached, meta, paid, fee);
      }
      order := order.(paymentSessionId := sessionId);
      order := order.(paidAt := Some(paidAt));

      assert order == Reconciled(orders, cache, ref, sessionId, session, paidAt);
      if !saved {
        return Err(StoreFailure);
      }
      orders := orders[order.orderId := order];
      cache := cache - {ref};
      r := Ok(order);
    }
  }
}
