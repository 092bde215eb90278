// The home page of pages/index.tsx: `addToCartHandler`, which asks for one more unit of a
// listed product than the cart holds, checks the product's fetched stock and either
// rejects with a notice or dispatches the new line and goes to the cart.

module Home {
  import opened Models
  import opened Store
  import CartPage

  /** The quantity asked for: one more than the line already under the product's id, or 1. */
  function DesiredQuantity(items: seq<CartItem>, productId: string): (q: int)
    ensures HasKey(items, productId) ==> q == FindByKey(items, productId).value.quantity + 1
    ensures !HasKey(items, productId) ==> q == 1
  {
    match FindByKey(items, productId)
    case Some(existing) => existing.quantity + 1
    case None => 1
  }

  /** The line dispatched for a listed product: its id as the key, the listing's own
      `countInStock`, the thumbnail URL built for its image, and the chosen quantity. */
  function AddPayload(product: Product, thumbnail: string, quantity: int): CartItem {
    CartItem(product.id, product.name, product.countInStock, product.slug, product.price, thumbnail, quantity)
  }

  /** In a cart with distinct keys the desired quantity is the quantity of the one line under the id, plus one. */
  lemma DesiredQuantityOfLine(items: seq<CartItem>, i: nat)
    requires DistinctKeys(items) && i < |items|
    ensures DesiredQuantity(items, items[i].key) == items[i].quantity + 1
  {
    forall j | 0 <= j < i ensures items[j].key != items[i].key {
    }
    FindByKeyFirst(items, items[i].key, i);
  }

  /** After an accepted add every line under the product's id is the payload: its quantity is the
      desired one, which the fetched stock covers, and its `countInStock` is the listing's figure. */
  lemma AcceptedAddWithinStock(items: seq<CartItem>, product: Product, thumbnail: string, fetchedStock: int)
    requires DesiredQuantity(items, product.id) <= fetchedStock
    ensures forall x :: x in AddItem(items, AddPayload(product, thumbnail, DesiredQuantity(items, product.id)))
                          && x.key == product.id ==>
              x.quantity == DesiredQuantity(items, product.id) <= fetchedStock &&
              x.countInStock == product.countInStock
  {
    AddItemStoresPayload(items, AddPayload(product, thumbnail, DesiredQuantity(items, product.id)));
  }

  /** An accepted add on a cart with distinct keys puts exactly one more unit in the cart:
      a new product appends a line of one unit, a known one raises its line by one. */
  lemma AcceptedAddCountsOneMore(items: seq<CartItem>, product: Product, thumbnail: string)
    requires DistinctKeys(items)
    ensures CartPage.ItemCount(AddItem(items, AddPayload(product, thumbnail, DesiredQuantity(items, product.id))))
            == CartPage.ItemCount(items) + 1
  {
    var q := DesiredQuantity(items, product.id);
    var line := AddPayload(product, thumbnail, q);
    if HasKey(items, product.id) {
      var i :| 0 <= i < |items| && items[i].key == product.id;
      DesiredQuantityOfLine(items, i);
      AddItemDistinctIsUpdate(items, i, line);
      CartPage.SumsUpdate(items, i, line);
    } else {
      CartPage.SumsAppend(items, [line]);
      assert [line][..0] == [];
    }
  }

  /** `addToCartHandler(product)` once the product's stock has been fetched; `thumbnail` is the
      URL the image builder returns for the product's image. */
  method AddToCartHandler(s: Session, product: Product, thumbnail: string, fetchedStock: int)
    modifies s
    ensures var q := DesiredQuantity(old(s.state.cart.cartItems), product.id);
            fetchedStock < q ==>
              s.state == old(s.state) && s.cookies == old(s.cookies) && s.pushed == old(s.pushed) &&
              s.notices == old(s.notices) + [Notice("Sorry. Product is out of stock", Error)]
    ensures var q := DesiredQuantity(old(s.state.cart.cartItems), product.id);
            fetchedStock >= q ==>
              s.state == Reduce(old(s.state), CartAddItem(AddPayload(product, thumbnail, q))) &&
              s.cookies == old(s.cookies)[CART_ITEMS_COOKIE := ItemsJson(s.state.cart.cartItems)] &&
              s.notices == old(s.notices) + [Notice(product.name + " added to the cart", Success)] &&
              s.pushed == old(s.pushed) + [Href("/cart")]
    ensures s.query == old(s.query)
    ensures Persisted(old(s.state), old(s.cookies)) ==> Persisted(s.state, s.cookies)
  {
    var quantity := DesiredQuantity(s.state.cart.cartItems, product.id);
    if fetchedStock < quantity {
      s.Notify("Sorry. Product is out of stock", Error);
      return;
    }
    ghost var before, jar := s.state, s.cookies;
    var line := AddPayload(product, thumbnail, quantity);
    s.Dispatch(CartAddItem(line));
    if Persisted(before, jar) {
      CartDispatchPersists(before, jar, CartAddItem(line));
    }
    s.Notify(product.name + " added to the cart", Success);
    s.Push(Href("/cart"));
  }
}
