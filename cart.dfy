// The shopping-cart page of pages/cart.tsx: changing a line's quantity after a fresh
// stock check, removing a line, the quantity selector and the subtotal line.

module CartPage {
  import opened Models
  import opened Store

  /** The units in the cart: `cartItems.reduce((a, c) => a + c.quantity, 0)`, summed left to right. */
  function ItemCount(items: seq<CartItem>): int
    decreases |items|
  {
    if |items| == 0 then 0 else ItemCount(items[..|items| - 1]) + items[|items| - 1].quantity
  }

  /** What one line costs. */
  function LineAmount(x: CartItem): real {
    x.quantity as real * x.price
  }

  /** The amount of the cart: `cartItems.reduce((a, c) => a + c.quantity * c.price, 0)`. */
  function Subtotal(items: seq<CartItem>): real
    decreases |items|
  {
    if |items| == 0 then 0.0 else Subtotal(items[..|items| - 1]) + LineAmount(items[|items| - 1])
  }

  /** Both sums split over a concatenation of carts. */
  lemma {:induction false} SumsAppend(a: seq<CartItem>, b: seq<CartItem>)
    ensures ItemCount(a + b) == ItemCount(a) + ItemCount(b)
    ensures Subtotal(a + b) == Subtotal(a) + Subtotal(b)
    decreases |b|
  {
    if |b| == 0 {
      assert a + b == a;
    } else {
      var b' := b[..|b| - 1];
      assert (a + b)[..|a + b| - 1] == a + b';
      assert (a + b)[|a + b| - 1] == b[|b| - 1];
      SumsAppend(a, b');
    }
  }

  /** Overwriting one line changes each sum by exactly that line's difference. */
  lemma SumsUpdate(items: seq<CartItem>, i: nat, x: CartItem)
    requires i < |items|
    ensures ItemCount(items[i := x]) == ItemCount(items) - items[i].quantity + x.quantity
    ensures Subtotal(items[i := x]) == Subtotal(items) - LineAmount(items[i]) + LineAmount(x)
  {
    var front, back := items[..i], items[i + 1..];
    assert items == front + [items[i]] + back;
    assert items[i := x] == front + [x] + back;
    SumsAppend(front + [items[i]], back);
    SumsAppend(front + [x], back);
    SumsAppend(front, [items[i]]);
    SumsAppend(front, [x]);
    assert ItemCount([x]) == x.quantity by { assert [x][..0] == []; }
    assert ItemCount([items[i]]) == items[i].quantity by { assert [items[i]][..0] == []; }
    assert Subtotal([x]) == LineAmount(x) by { assert [x][..0] == []; }
    assert Subtotal([items[i]]) == LineAmount(items[i]) by { assert [items[i]][..0] == []; }
  }

  /** The line `updateCartHandler` dispatches: every field of the line as it is in the cart,
      its old `countInStock` included, with only the quantity replaced. */
  function UpdatedLine(item: CartItem, quantity: int): CartItem {
    CartItem(item.key, item.name, item.countInStock, item.slug, item.price, item.image, quantity)
  }

  /** An accepted quantity change on a cart with distinct keys changes the unit count and the
      amount by exactly the change of that line, and keeps the line count. */
  lemma AcceptedUpdateSums(items: seq<CartItem>, i: nat, quantity: int)
    requires DistinctKeys(items) && i < |items|
    ensures var r := AddItem(items, UpdatedLine(items[i], quantity));
            |r| == |items| &&
            ItemCount(r) == ItemCount(items) + quantity - items[i].quantity &&
            Subtotal(r) == Subtotal(items) + (quantity - items[i].quantity) as real * items[i].price
  {
    var line := UpdatedLine(items[i], quantity);
    AddItemDistinctIsUpdate(items, i, line);
    UpdateLineSums(items, i, quantity);
  }

  /** Overwriting the quantity of line `i` shifts the sums by the quantity's change. */
  lemma UpdateLineSums(items: seq<CartItem>, i: nat, quantity: int)
    requires i < |items|
    ensures ItemCount(items[i := UpdatedLine(items[i], quantity)]) == ItemCount(items) + quantity - items[i].quantity
    ensures Subtotal(items[i := UpdatedLine(items[i], quantity)])
            == Subtotal(items) + (quantity - items[i].quantity) as real * items[i].price
  {
    var line := UpdatedLine(items[i], quantity);
    SumsUpdate(items, i, line);
    LineAmountDelta(items[i], quantity);
  }

  lemma LineAmountDelta(item: CartItem, quantity: int)
    ensures LineAmount(UpdatedLine(item, quantity))
            == LineAmount(item) + (quantity - item.quantity) as real * item.price
  {
    var p, q0, q1 := item.price, item.quantity as real, quantity as real;
    assert q1 * p == q0 * p + (q1 - q0) * p;
  }

  /** After an accepted change every line under the key holds the chosen quantity, which the
      fetched stock covers, and the stock snapshot the line already had. */
  lemma AcceptedUpdateWithinStock(items: seq<CartItem>, item: CartItem, quantity: int, fetchedStock: int)
    requires quantity <= fetchedStock
    ensures forall x :: x in AddItem(items, UpdatedLine(item, quantity)) && x.key == item.key ==>
              x.quantity == quantity <= fetchedStock && x.countInStock == item.countInStock
  {
    AddItemStoresPayload(items, UpdatedLine(item, quantity));
  }

  /** The values the quantity selector offers for a line: 1 up to its `countInStock`, in order.
      `Array(n)` throws a `RangeError` for a negative `n`, so a negative stock snapshot gives
      no options at all: the render fails. */
  function QuantityOptions(countInStock: int): (r: Option<seq<int>>)
    ensures r.None? <==> countInStock < 0
    ensures r.Some? ==> |r.value| == countInStock
    ensures r.Some? ==> forall i :: 0 <= i < |r.value| ==> r.value[i] == i + 1
    ensures r.Some? ==> forall v :: v in r.value <==> 1 <= v <= countInStock
    decreases countInStock
  {
    if countInStock < 0 then None
    else if countInStock == 0 then Some([])
    else Some(QuantityOptions(countInStock - 1).value + [countInStock])
  }

  /** `updateCartHandler(item, quantity)` once the product's stock has been fetched. */
  method UpdateCartHandler(s: Session, item: CartItem, quantity: int, fetchedStock: int)
    modifies s
    ensures fetchedStock < quantity ==>
              s.state == old(s.state) && s.cookies == old(s.cookies) &&
              s.notices == old(s.notices) + [Notice("Sorry. item is out of stock", Error)]
    ensures fetchedStock >= quantity ==>
              s.state == Reduce(old(s.state), CartAddItem(UpdatedLine(item, quantity))) &&
              s.cookies == old(s.cookies)[CART_ITEMS_COOKIE := ItemsJson(s.state.cart.cartItems)] &&
              s.notices == old(s.notices) + [Notice(item.name + " updated in the cart", Success)]
    ensures s.pushed == old(s.pushed) && s.query == old(s.query)
    ensures Persisted(old(s.state), old(s.cookies)) ==> Persisted(s.state, s.cookies)
  {
    if fetchedStock < quantity {
      s.Notify("Sorry. item is out of stock", Error);
      return;
    }
    ghost var before, jar := s.state, s.cookies;
    var line := UpdatedLine(item, quantity);
    s.Dispatch(CartAddItem(line));
    if Persisted(before, jar) {
      CartDispatchPersists(before, jar, CartAddItem(line));
    }
    s.Notify(item.name + " updated in the cart", Success);
  }

  /** `removeItemHandler(item)`: the line is dispatched for removal by its key. */
  method RemoveItemHandler(s: Session, item: CartItem)
    modifies s
    ensures s.state == Reduce(old(s.state), CartRemoveItem(item))
    ensures s.cookies == old(s.cookies)[CART_ITEMS_COOKIE := ItemsJson(s.state.cart.cartItems)]
    ensures s.pushed == old(s.pushed) && s.notices == old(s.notices) && s.query == old(s.query)
    ensures Persisted(old(s.state), old(s.cookies)) ==> Persisted(s.state, s.cookies)
  {
    ghost var before, jar := s.state, s.cookies;
    s.Dispatch(CartRemoveItem(item));
    if Persisted(before, jar) {
      CartDispatchPersists(before, jar, CartRemoveItem(item));
    }
  }

  /** The Checkout button. */
  method CheckoutHandler(s: Session)
    modifies s
    ensures s.pushed == old(s.pushed) + [Href("/shipping")]
    ensures s.state == old(s.state) && s.cookies == old(s.cookies) && s.notices == old(s.notices)
    ensures s.query == old(s.query)
  {
    s.Push(Href("/shipping"));
  }
}
