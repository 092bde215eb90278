// The place-order step of pages/placeorder.tsx: the four prices of the order, the
// payment-method guard run on arrival, and `placeOrderHandler` with the request it sends
// and what it does with the answer.

module PlaceOrder {
  import opened Models
  import opened Store
  import opened Errors
  import CartPage

  // ---------------------------------------------------------------- prices

  /** `round2`: `Math.round(num * 100) / 100`, rounding the cents half up. */
  function Round2(x: real): (r: real)
    ensures x - 0.005 < r <= x + 0.005
    ensures (r * 100.0).Floor as real == r * 100.0
  {
    (x * 100.0 + 0.5).Floor as real / 100.0
  }

  /** An amount already in whole cents rounds to itself, so rounding twice is rounding once. */
  lemma Round2Idempotent(x: real)
    ensures Round2(Round2(x)) == Round2(x)
  {
    var r := Round2(x);
    var n := (r * 100.0).Floor;
    assert r * 100.0 + 0.5 == n as real + 0.5;
    assert (r * 100.0 + 0.5).Floor == n;
  }

  lemma Round2Examples()
    ensures Round2(123.456) == 123.46
    ensures Round2(123.455) == 123.46
    ensures Round2(19.999) == 20.0
    ensures Round2(0.0) == 0.0
  {
    assert (123.456 * 100.0 + 0.5).Floor == 12346;
    assert (123.455 * 100.0 + 0.5).Floor == 12346;
    assert (19.999 * 100.0 + 0.5).Floor == 2000;
    assert (0.0 * 100.0 + 0.5).Floor == 0;
  }

  /** The four amounts of an order. */
  datatype Prices = Prices(itemsPrice: real, shippingPrice: real, taxPrice: real, totalPrice: real)

  /** `itemsPrice`: the rounded sum of price times quantity over the lines. */
  function ItemsPrice(items: seq<CartItem>): real {
    Round2(CartPage.Subtotal(items))
  }

  /** `shippingPrice`: free above 200, 15 otherwise. */
  function ShippingPrice(itemsPrice: real): real {
    if itemsPrice > 200.0 then 0.0 else 15.0
  }

  function TaxPrice(itemsPrice: real): real {
    Round2(itemsPrice * 0.15)
  }

  function TotalPrice(itemsPrice: real, shippingPrice: real, taxPrice: real): real {
    Round2(itemsPrice + shippingPrice + taxPrice)
  }

  /** The prices shown for a cart and sent with its order. */
  function PricesOf(items: seq<CartItem>): Prices {
    var ip := ItemsPrice(items);
    var sp := ShippingPrice(ip);
    var tp := TaxPrice(ip);
    Prices(ip, sp, tp, TotalPrice(ip, sp, tp))
  }

  /** Every amount is a whole number of cents; shipping is free exactly when the rounded
      items price is above 200; the tax is within half a cent of 15 % of the items price,
      and the total within a cent of the items price, the shipping and 15 % tax. */
  lemma PricesFacts(items: seq<CartItem>)
    ensures var p := PricesOf(items);
            p.itemsPrice == Round2(CartPage.Subtotal(items)) &&
            (p.shippingPrice == 0.0 <==> p.itemsPrice > 200.0) &&
            (p.shippingPrice == 15.0 <==> p.itemsPrice <= 200.0) &&
            p.itemsPrice * 0.15 - 0.005 < p.taxPrice <= p.itemsPrice * 0.15 + 0.005 &&
            p.itemsPrice * 1.15 + p.shippingPrice - 0.01 < p.totalPrice <= p.itemsPrice * 1.15 + p.shippingPrice + 0.01 &&
            WholeCents(p.itemsPrice) && WholeCents(p.shippingPrice) && WholeCents(p.taxPrice) && WholeCents(p.totalPrice)
  {
    var p := PricesOf(items);
    assert WholeCents(p.shippingPrice) by {
      if p.shippingPrice == 0.0 {
        assert (0.0 * 100.0).Floor == 0;
      } else {
        assert (15.0 * 100.0).Floor == 1500;
      }
    }
  }

  predicate WholeCents(x: real) {
    (x * 100.0).Floor as real == x * 100.0
  }

  /** An empty cart costs the flat shipping only. */
  lemma EmptyCartPrices()
    ensures PricesOf([]) == Prices(0.0, 15.0, 0.0, 15.0)
  {
    Round2Examples();
    assert (15.0 * 100.0 + 0.5).Floor == 1500;
  }

  /** One line of 180 pays shipping; one line of 250 does not. */
  lemma PriceExamples(x: CartItem)
    requires x.quantity == 2 && x.price == 90.0
    ensures PricesOf([x]) == Prices(180.0, 15.0, 27.0, 222.0)
    ensures PricesOf([x.(price := 125.0)]) == Prices(250.0, 0.0, 37.5, 287.5)
  {
    assert [x][..0] == [];
    assert [x.(price := 125.0)][..0] == [];
    assert CartPage.Subtotal([x]) == 180.0;
    assert (180.0 * 100.0 + 0.5).Floor == 18000;
    assert (27.0 * 100.0 + 0.5).Floor == 2700;
    assert (222.0 * 100.0 + 0.5).Floor == 22200;
    assert CartPage.Subtotal([x.(price := 125.0)]) == 250.0;
    assert (250.0 * 100.0 + 0.5).Floor == 25000;
    assert (37.5 * 100.0 + 0.5).Floor == 3750;
    assert (287.5 * 100.0 + 0.5).Floor == 28750;
  }

  // ---------------------------------------------------------------- the order request

  /** A line of the order: the cart line without its `countInStock` and `slug`. */
  datatype OrderItem = OrderItem(key: string, name: string, price: real, image: string, quantity: int)

  function OrderItemOf(x: CartItem): OrderItem {
    OrderItem(x.key, x.name, x.price, x.image, x.quantity)
  }

  /** Putting back the two dropped fields gives the cart line again: nothing else is lost. */
  lemma OrderItemKeepsTheRest(x: CartItem)
    ensures var o := OrderItemOf(x);
            CartItem(o.key, o.name, x.countInStock, x.slug, o.price, o.image, o.quantity) == x
  {
  }

  /** The `map` over the cart: one order line per cart line, in the same order. */
  function OrderItems(items: seq<CartItem>): (r: seq<OrderItem>)
    ensures |r| == |items|
    ensures forall i :: 0 <= i < |items| ==> r[i] == OrderItemOf(items[i])
  {
    if |items| == 0 then [] else [OrderItemOf(items[0])] + OrderItems(items[1..])
  }

  /** The body posted to the orders endpoint. `paymentMethod` is `None` when the state
      has no value for it, and the serialised body then has no such member. */
  datatype OrderPayload = OrderPayload(
    orderItems: seq<OrderItem>,
    shippingAddress: ShippingAddress,
    paymentMethod: Option<string>,
    prices: Prices)

  /** The request: its body and its `Authorization` header. */
  datatype OrderRequest = OrderRequest(payload: OrderPayload, authorization: string)

  /** `state.cart.paymentMethod`: the state has no such field, so it is always undefined. */
  function StatePaymentMethod(s: State): Option<string> {
    None
  }

  /** The request `placeOrderHandler` sends from a state. */
  function RequestOf(s: State): (req: OrderRequest)
    ensures |req.payload.orderItems| == |s.cart.cartItems|
    ensures forall i :: 0 <= i < |s.cart.cartItems| ==>
              req.payload.orderItems[i] == OrderItemOf(s.cart.cartItems[i])
    ensures req.payload.shippingAddress == s.cart.shippingAddress
    ensures req.payload.paymentMethod == StatePaymentMethod(s)
    ensures req.payload.prices == PricesOf(s.cart.cartItems)
  {
    OrderRequest(
      OrderPayload(OrderItems(s.cart.cartItems), s.cart.shippingAddress, StatePaymentMethod(s), PricesOf(s.cart.cartItems)),
      Authorization(s.userInfo))
  }

  // ---------------------------------------------------------------- the checkout flow as written

  /** No state carries a payment method, so the arrival guard redirects every time. */
  lemma GuardAlwaysRedirects(s: State)
    ensures !Truthy(StatePaymentMethod(s))
  {
  }

  /** A successful order on a non-empty cart leaves the lines in the state (the clear action
      is a no-op) while the cookie holding them is gone: a reload would show an empty cart. */
  lemma SuccessBreaksPersistence(s: State, jar: CookieJar)
    requires Persisted(s, jar) && |s.cart.cartItems| > 0
    ensures Reduce(s, CartClear).cart.cartItems == s.cart.cartItems
    ensures !Persisted(Reduce(s, CartClear), jar - {CART_ITEMS_COOKIE})
  {
    assert InitialState(jar - {CART_ITEMS_COOKIE}).cart.cartItems == [];
  }

  // ---------------------------------------------------------------- the screen

  class PlaceOrderScreen {
    var loading: bool

    constructor ()
      ensures !loading
    {
      loading := false;
    }

    /** The arrival effect: without a payment method the page goes back to the payment step,
        which, since the state never carries one, happens on every arrival. */
    method OnArrive(s: Session)
      modifies s
      ensures s.pushed == old(s.pushed) + [Href("/payment")]
      ensures !Truthy(StatePaymentMethod(old(s.state))) ==> s.pushed == old(s.pushed) + [Href("/payment")]
      ensures Truthy(StatePaymentMethod(old(s.state))) ==> s.pushed == old(s.pushed)
      ensures s.state == old(s.state) && s.cookies == old(s.cookies)
      ensures s.notices == old(s.notices) && s.query == old(s.query)
    {
      GuardAlwaysRedirects(s.state);
      if !Truthy(StatePaymentMethod(s.state)) {
        s.Push(Href("/payment"));
        return;
      }
    }

    /** `placeOrderHandler` with the endpoint's answer: the id of the new order, or the error. */
    method PlaceOrderHandler(s: Session, reply: Reply<string>) returns (request: OrderRequest)
      modifies this, s
      ensures request == RequestOf(old(s.state))
      ensures !loading
      ensures s.query == old(s.query)
      ensures reply.Ok? ==>
                s.state == Reduce(old(s.state), CartClear) &&
                s.cookies == old(s.cookies) - {CART_ITEMS_COOKIE} &&
                s.pushed == old(s.pushed) + [Href("/order/" + reply.data)] &&
                s.notices == old(s.notices)
      ensures reply.Failed? ==>
                s.state == old(s.state) && s.cookies == old(s.cookies) && s.pushed == old(s.pushed) &&
                s.notices == old(s.notices) + [Notice(GetError(reply.error), Error)]
    {
      loading := true;
      request := RequestOf(s.state);
      match reply
      case Ok(id) =>
        loading := false;
        s.Dispatch(CartClear);
        s.RemoveCookie(CART_ITEMS_COOKIE);
        s.Push(Href("/order/" + id));
      case Failed(err) =>
        loading := false;
        s.Notify(GetError(err), Error);
    }
  }
}
