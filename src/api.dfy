/**
 * The REST boundary of the client. The transport itself (URLs, headers, HTTP status handling) is
 * not modelled: every call the client makes is recorded as a Request value, and the backend's
 * answer to it is handed to the model as a Reply.
 */
module Api {
  import opened Wrappers

  /** A reply: the decoded body of a 2xx response, or the error a failed call throws. */
  datatype Reply<T> = Ok(body: T) | Failed(message: string)

  /** The fields the registration form sends. */
  datatype Registration = Registration(username: string, email: string, password: string, contact: Option<int>)

  /** A new order as checkout sends it: no item list and no total, the backend derives both from the cart. */
  datatype OrderPayload = OrderPayload(userId: Option<string>, paymentMode: string, shippingAddress: string, status: string)

  /**
   * A product as the admin forms send it. Price and stock are the form's texts, to be read by
   * parseFloat and parseInt (that numeric conversion is not part of this model).
   */
  datatype ProductPayload = ProductPayload(
    productName: string, priceText: string, category: string, description: string,
    image: string, stockText: string, isActive: bool)

  /** Every server call the modelled code issues. */
  datatype Request =
    | LoginCall(email: string, password: string)
    | RegisterCall(registration: Registration)
    | GetCart(userId: string)
    | AddToCart(userId: string, productId: string, quantity: int)
    | UpdateCart(cartId: string, quantity: int)
    | DeleteCart(cartId: string)
    | CreateOrder(order: OrderPayload)
    | GetProducts
    | CreateProduct(userId: string, product: ProductPayload)
    | UpdateProduct(productId: string, product: ProductPayload)
    | DeleteProduct(productId: string)
    | GetUsers
    | UpdateUser(userId: string, isBlocked: bool)
    | GetAllOrders
    | GetUserOrders(userId: string)
    | UpdateOrder(orderId: string, status: string)
}
