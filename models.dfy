// Records of the storefront's data model: the shapes declared in models/cartItem.ts,
// models/product.ts and models/order.ts, plus the user and shipping-address records
// that the store and the checkout pages pass around.

module Models {

  datatype Option<T> = None | Some(value: T)

  /** An optional text that is present and not empty: what a JavaScript test of it accepts. */
  predicate Truthy(o: Option<string>) {
    o.Some? && o.value != ""
  }

  /** One line of the shopping cart. `key` is the product's document id (`_key`);
      `countInStock` is the stock figure copied in when the line was added. */
  datatype CartItem = CartItem(
    key: string,
    name: string,
    countInStock: int,
    slug: string,
    price: real,
    image: string,
    quantity: int)

  /** A catalog product as the listing pages receive it; `slug` is its `slug.current`. */
  datatype Product = Product(
    id: string,
    title: string,
    name: string,
    price: real,
    image: string,
    description: string,
    slug: string,
    brand: string,
    category: string,
    rating: real,
    numReviews: int,
    countInStock: int)

  /** The five-field address saved by the shipping step. A field the source leaves
      undefined (the `{}` address) is the empty string here: both are falsy there. */
  datatype ShippingAddress = ShippingAddress(
    fullName: string,
    address: string,
    city: string,
    postalCode: string,
    country: string)

  /** The `{}` address of an empty cart. */
  const NO_ADDRESS := ShippingAddress("", "", "", "", "")

  /** The signed-in user record returned by the login, register and profile endpoints. */
  datatype User = User(id: string, name: string, email: string, isAdmin: bool, token: string)

  /** An order document as the order-history endpoint returns it (dates as text). */
  datatype Order = Order(
    id: string,
    orderItems: seq<CartItem>,
    shippingAddress: ShippingAddress,
    paymentMethod: string,
    itemsPrice: real,
    taxPrice: real,
    shippingPrice: real,
    totalPrice: real,
    createdAt: string,
    paidAt: string,
    deliveredAt: string,
    isPaid: bool,
    isDelivered: bool)
}
