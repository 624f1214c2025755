/**
 * The entities the client receives from the backend. Prices and amounts are integers (minor
 * units), so every sum and product is exact; dates are kept as the server's strings.
 */
module Domain {
  import opened Wrappers

  datatype User = User(
    id: string, username: string, email: string, contact: Option<int>,
    isAdmin: bool, isBlocked: bool, createdAt: string, updatedAt: string)

  /** The product snapshot a cart line carries. */
  datatype ProductRef = ProductRef(id: string, productName: string, price: int, image: string, stockAvailable: int)

  datatype CartItem = CartItem(
    id: string, userId: string, product: ProductRef, quantity: int, createdAt: string, updatedAt: string)

  datatype Review = Review(rating: int, comment: string)

  /** A catalogue product; `isActive` is None when the server sent no such field. */
  datatype Product = Product(
    id: string, productName: string, price: int, category: string, description: string,
    image: string, stockAvailable: int, isActive: Option<bool>, reviews: seq<Review>)

  /** The customer an order refers to; None when the server could not populate the reference. */
  datatype Customer = Customer(id: string, username: string, email: string)

  datatype OrderLine = OrderLine(productId: string, productName: string, price: int, image: string, quantity: int)

  datatype Order = Order(
    id: string, customer: Option<Customer>, lines: seq<OrderLine>, totalAmount: int,
    paymentMode: string, status: string, shippingAddress: string, deliveryDate: Option<string>)

  /** `user?._id` is truthy: a user is present and has a non-empty id. */
  predicate SignedIn(user: Option<User>) {
    user.Some? && user.value.id != ""
  }

  /** `user?._id`: the id of the present user, or undefined. */
  function UserIdOf(user: Option<User>): (r: Option<string>)
    ensures r.Some? <==> user.Some?
    ensures user.Some? ==> r == Some(user.value.id)
  {
    match user
    case Some(u) => Some(u.id)
    case None => None
  }
}
