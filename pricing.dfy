/** The checkout price calculation of `/create-checkout-session`
    (src/orders/orders.route.js:25-34 and :69-125, :152). Amounts in rials (OMR)
    are `real`; amounts handed to the gateway are whole baisa (1 OMR = 1000 baisa). */
module Pricing {
  import opened Wrappers
  import opened GiftCards
  import opened RequestValues

  const GulfRegion := "دول الخليج"
  const Emirates := "الإمارات"
  const FrenchShaylas := "الشيلات فرنسية"
  const PlainShaylas := "الشيلات سادة"
  const DepositLabel := "دفعة مقدم"
  const ShippingLabel := "رسوم الشحن"
  const DefaultItemName := "منتج"
  const DepositAmount: real := 10.0
  const MinUnitPrice: real := 0.1
  const MinBaisa: int := 100

  /** One entry of the submitted cart. A missing price or quantity is 0;
      a missing name or category is "". */
  datatype CartItem = CartItem(
    id: string, name: string, price: real, quantity: int, category: string,
    image: ImageInput, measurements: map<string, string>, giftCard: Option<GiftCard>)

  /** A line of the gateway session: `{ name, quantity, unit_amount }`, unit_amount in baisa. */
  datatype LineItem = LineItem(name: string, quantity: int, unitAmount: int)

  datatype Quote = Quote(
    subtotalAfterDiscount: real, shippingFee: real, originalTotal: real,
    lineItems: seq<LineItem>, amountToCharge: real, remainingAmount: real)

  function Max(a: int, b: int): int { if a >= b then a else b }
  function MaxR(a: real, b: real): real { if a >= b then a else b }

  /** JavaScript's `Math.round`: the nearest integer, halves rounded up. */
  function Round(x: real): (r: int)
    ensures (r as real) - 0.5 <= x < (r as real) + 0.5
  {
    (x + 0.5).Floor
  }

  /** `toBaisa`: rials to baisa, rounded, never below 100 baisa. */
  function ToBaisa(omr: real): (r: int)
    ensures r >= MinBaisa
    ensures omr * 1000.0 >= 99.5 ==> (r as real) - 0.5 <= omr * 1000.0 < (r as real) + 0.5
    ensures omr * 1000.0 < 99.5 ==> r == MinBaisa
  {
    Max(MinBaisa, Round(omr * 1000.0))
  }

  /** A whole number of baisa, at least 100, survives the trip to rials and back. */
  lemma BaisaRoundTrip(baisa: int)
    requires baisa >= MinBaisa
    ensures ToBaisa(baisa as real / 1000.0) == baisa
  {
    assert (baisa as real / 1000.0) * 1000.0 == baisa as real;
  }

  /** A larger amount never converts to fewer baisa. */
  lemma ToBaisaMonotone(a: real, b: real)
    requires a <= b
    ensures ToBaisa(a) <= ToBaisa(b)
  {
    assert a * 1000.0 + 0.5 <= b * 1000.0 + 0.5;
  }

  predicate IsShayla(category: string) {
    category == FrenchShaylas || category == PlainShaylas
  }

  /** `pairDiscountForProduct`: one rial off per pair of shaylas. */
  function PairDiscount(p: CartItem): (r: int)
    ensures !IsShayla(p.category) ==> r == 0
    ensures IsShayla(p.category) ==> 2 * r <= p.quantity < 2 * r + 2
  {
    if IsShayla(p.category) then p.quantity / 2 else 0
  }

  /** `country === "دول الخليج" ? (gulfCountry === "الإمارات" ? 4 : 5) : 2`. */
  function ShippingFee(country: string, gulfCountry: string): (r: real)
    ensures r == 4.0 <==> country == GulfRegion && gulfCountry == Emirates
    ensures r == 5.0 <==> country == GulfRegion && gulfCountry != Emirates
    ensures r == 2.0 <==> country != GulfRegion
  {
    if country == GulfRegion then (if gulfCountry == Emirates then 4.0 else 5.0) else 2.0
  }

  /** The country that is stored: the chosen Gulf country replaces the Gulf placeholder. */
  function StoredCountry(country: string, gulfCountry: string): (r: string)
    ensures r != country ==> country == GulfRegion && r == gulfCountry && r != ""
    ensures country == GulfRegion && gulfCountry != "" ==> r == gulfCountry
  {
    if country == GulfRegion && gulfCountry != "" then gulfCountry else country
  }

  /** Sum of `price * quantity` over the cart. */
  function Subtotal(cart: seq<CartItem>): real {
    if cart == [] then 0.0 else cart[0].price * cart[0].quantity as real + Subtotal(cart[1..])
  }

  /** Sum of the pair discounts over the cart. */
  function TotalPairDiscount(cart: seq<CartItem>): int {
    if cart == [] then 0 else PairDiscount(cart[0]) + TotalPairDiscount(cart[1..])
  }

  /** Units in the cart that belong to a shayla category. */
  function ShaylaUnits(cart: seq<CartItem>): int {
    if cart == [] then 0
    else (if IsShayla(cart[0].category) then cart[0].quantity else 0) + ShaylaUnits(cart[1..])
  }

  /** A cart without shaylas gets no discount. */
  lemma {:induction false} NoShaylaNoDiscount(cart: seq<CartItem>)
    requires forall i :: 0 <= i < |cart| ==> !IsShayla(cart[i].category)
    ensures TotalPairDiscount(cart) == 0
  {
    if cart != [] {
      NoShaylaNoDiscount(cart[1..]);
    }
  }

  /** With non-negative quantities the discount is non-negative and at most one rial
      per two shayla units. */
  lemma {:induction false} DiscountBound(cart: seq<CartItem>)
    requires forall i :: 0 <= i < |cart| ==> cart[i].quantity >= 0
    ensures 0 <= 2 * TotalPairDiscount(cart) <= ShaylaUnits(cart)
  {
    if cart != [] {
      DiscountBound(cart[1..]);
    }
  }

  /** The gateway line of one cart item: the pair discount is spread over the units and
      the unit price is kept at 0.1 rial or more. */
  function ItemLine(p: CartItem): (r: LineItem)
    ensures r.quantity >= 1 && r.unitAmount >= MinBaisa
    ensures p.quantity >= 1 ==> r.quantity == p.quantity
    ensures p.quantity < 1 ==> r.quantity == 1
    ensures p.name != "" ==> r.name == p.name
    ensures p.name == "" ==> r.name == DefaultItemName
    ensures p.quantity >= 1 && p.price - PairDiscount(p) as real / p.quantity as real < MinUnitPrice ==>
              r.unitAmount == MinBaisa
    ensures p.quantity < 1 ==> r.unitAmount == ToBaisa(MaxR(MinUnitPrice, p.price - PairDiscount(p) as real))
    ensures !IsShayla(p.category) ==> r.unitAmount == ToBaisa(MaxR(MinUnitPrice, p.price))
  {
    var qty := Max(1, p.quantity);
    var unitAfterDiscount := MaxR(MinUnitPrice, p.price - PairDiscount(p) as real / qty as real);
    LineItem(if p.name == "" then DefaultItemName else p.name, qty, ToBaisa(unitAfterDiscount))
  }

  /** Spreading an amount `d` over `q` units and multiplying back gives the total;
      the unit price is at least `m` exactly when the total is at least `m · q`. */
  lemma SpreadDiscount(price: real, d: real, q: real, m: real)
    requires q > 0.0
    ensures (price - d / q) * q == price * q - d
    ensures price * q - d >= m * q ==> price - d / q >= m
  {
    var unit := price - d / q;
    assert (d / q) * q == d;
    assert unit * q == price * q - (d / q) * q;
    if price * q - d >= m * q {
      assert (unit - m) * q >= 0.0;
    }
  }

  /** A unit amount within half a baisa of `1000 · unit`, times `q` units, is within `q / 2`
      baisa of `1000 · total` when `unit · q == total`. */
  lemma ScaleWindow(b: real, unit: real, q: real, total: real)
    requires q > 0.0 && unit * q == total && b - 0.5 <= unit * 1000.0 < b + 0.5
    ensures 1000.0 * total - 0.5 * q < q * b <= 1000.0 * total + 0.5 * q
  {
    var lo := unit * 1000.0 - (b - 0.5);
    var hi := (b + 0.5) - unit * 1000.0;
    assert lo * q >= 0.0;
    assert hi * q > 0.0;
    assert lo * q == 1000.0 * total - q * b + 0.5 * q;
    assert hi * q == q * b + 0.5 * q - 1000.0 * total;
  }

  /** Where the 0.1-rial floor does not bind, a line's unit amount is the baisa of the
      discounted unit price, and that price times the quantity is the discounted total. */
  lemma ItemLineUnit(p: CartItem)
    requires p.quantity >= 1
    requires p.price * p.quantity as real - PairDiscount(p) as real >= MinUnitPrice * p.quantity as real
    ensures var unit := p.price - PairDiscount(p) as real / p.quantity as real;
      && unit >= MinUnitPrice
      && unit * p.quantity as real == p.price * p.quantity as real - PairDiscount(p) as real
      && ItemLine(p) == LineItem(ItemLine(p).name, p.quantity, ToBaisa(unit))
  {
    SpreadDiscount(p.price, PairDiscount(p) as real, p.quantity as real, MinUnitPrice);
  }

  /** Where the 0.1-rial floor does not bind, a line charges the item's discounted total
      to within half a baisa per unit. */
  lemma ItemLineTotal(p: CartItem)
    requires p.quantity >= 1
    requires p.price * p.quantity as real - PairDiscount(p) as real >= MinUnitPrice * p.quantity as real
    ensures var r := ItemLine(p);
      var q := p.quantity as real;
      var exact := 1000.0 * (p.price * q - PairDiscount(p) as real);
      exact - 0.5 * q < (r.quantity * r.unitAmount) as real <= exact + 0.5 * q
  {
    var q := p.quantity as real;
    var d := PairDiscount(p) as real;
    var unit := p.price - d / q;
    ItemLineUnit(p);
    var b := ToBaisa(unit);
    ScaleWindow(b as real, unit, q, p.price * q - d);
    CastProduct(p.quantity, b);
  }

  /** Converting a product of integers to a real multiplies the converted factors. */
  lemma CastProduct(a: int, b: int)
    ensures (a * b) as real == (a as real) * (b as real)
  {
  }

  /** Whether a quote charges the deposit or the full order. */
  predicate DepositQuote(q: Quote) {
    && q.lineItems == [LineItem(DepositLabel, 1, 10000)]
    && q.amountToCharge == DepositAmount
    && q.remainingAmount == MaxR(0.0, q.originalTotal - DepositAmount)
  }

  predicate FullQuote(cart: seq<CartItem>, q: Quote) {
    && |q.lineItems| == |cart| + 1
    && (forall i :: 0 <= i < |cart| ==> q.lineItems[i] == ItemLine(cart[i]))
    && q.lineItems[|cart|] == LineItem(ShippingLabel, 1, ToBaisa(q.shippingFee))
    && q.amountToCharge == q.originalTotal
    && q.remainingAmount == 0.0
  }

  /** What the checkout computes from a cart, a country, a Gulf country and the deposit flag. */
  predicate IsQuoteFor(cart: seq<CartItem>, country: string, gulfCountry: string, depositMode: bool, q: Quote) {
    && q.shippingFee == ShippingFee(country, gulfCountry)
    && q.subtotalAfterDiscount == MaxR(0.0, Subtotal(cart) - TotalPairDiscount(cart) as real)
    && q.originalTotal == q.subtotalAfterDiscount + q.shippingFee
    && (depositMode ==> DepositQuote(q))
    && (!depositMode ==> FullQuote(cart, q))
  }

  /** The inputs determine the quote completely. */
  lemma QuoteDetermined(cart: seq<CartItem>, country: string, gulfCountry: string, depositMode: bool,
                        q1: Quote, q2: Quote)
    requires IsQuoteFor(cart, country, gulfCountry, depositMode, q1)
    requires IsQuoteFor(cart, country, gulfCountry, depositMode, q2)
    ensures q1 == q2
  {
    if !depositMode {
      assert forall i :: 0 <= i < |q1.lineItems| ==> q1.lineItems[i] == q2.lineItems[i];
    }
  }

  /** The price calculation of `/create-checkout-session`. */
  method ComputeQuote(cart: seq<CartItem>, country: string, gulfCountry: string, depositMode: bool)
    returns (q: Quote)
    ensures IsQuoteFor(cart, country, gulfCountry, depositMode, q)
    ensures q.subtotalAfterDiscount >= 0.0
    ensures forall i :: 0 <= i < |q.lineItems| ==>
              q.lineItems[i].quantity >= 1 && q.lineItems[i].unitAmount >= MinBaisa
    ensures q.remainingAmount >= 0.0
    ensures q.amountToCharge + q.remainingAmount >= q.originalTotal
  {
    var shippingFee := ShippingFee(country, gulfCountry);
    var productsSubtotal := Subtotal(cart);
    var totalPairDiscount := TotalPairDiscount(cart);
    var subtotalAfterDiscount := MaxR(0.0, productsSubtotal - totalPairDiscount as real);
    var originalTotal := subtotalAfterDiscount + shippingFee;

    var lineItems: seq<LineItem> := [];
    var amountToCharge: real := 0.0;
    if depositMode {
      lineItems := [LineItem(DepositLabel, 1, ToBaisa(DepositAmount))];
      amountToCharge := DepositAmount;
    } else {
      lineItems := seq(|cart|, i requires 0 <= i < |cart| => ItemLine(cart[i]));
      lineItems := lineItems + [LineItem(ShippingLabel, 1, ToBaisa(shippingFee))];
      amountToCharge := originalTotal;
    }
    var remainingAmount := if depositMode then MaxR(0.0, originalTotal - DepositAmount) else 0.0;
    q := Quote(subtotalAfterDiscount, shippingFee, originalTotal, lineItems, amountToCharge, remainingAmount);
  }

  /** The worked example: a pair of shaylas at 10 rials and one other item at 5 rials,
      shipped within Oman, cost 26 rials, charged as 2 x 9500 + 5000 + 2000 baisa. */
  lemma WorkedExample(a: CartItem, b: CartItem)
    requires a.category == PlainShaylas && a.price == 10.0 && a.quantity == 2
    requires !IsShayla(b.category) && b.price == 5.0 && b.quantity == 1
    ensures Subtotal([a, b]) - TotalPairDiscount([a, b]) as real + ShippingFee("عمان", "") == 26.0
    ensures ItemLine(a).unitAmount == 9500 && ItemLine(b).unitAmount == 5000
    ensures ToBaisa(ShippingFee("عمان", "")) == 2000
  {
    assert [a, b][1..] == [b] && [b][1..] == [];
    assert Subtotal([b]) == 5.0 && TotalPairDiscount([b]) == 0;
    assert Subtotal([a, b]) == 25.0 && TotalPairDiscount([a, b]) == 1;
  }
}
