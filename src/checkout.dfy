/**
 * The checkout dialog (CheckoutModal): address and payment-mode state, and placing the order,
 * which clears the cart mirror and then refetches it.
 */
module Checkout {
  import opened Wrappers
  import opened Api
  import opened Domain
  import opened Text
  import Cart

  /** The order checkout sends: the user's id, the chosen payment mode, the address as typed, status pending. */
  function OrderFor(user: Option<User>, paymentMode: string, shippingAddress: string): (o: OrderPayload)
    ensures o.status == "pending"
    ensures o.userId == UserIdOf(user)
    ensures o.paymentMode == paymentMode && o.shippingAddress == shippingAddress
  {
    OrderPayload(UserIdOf(user), paymentMode, shippingAddress, "pending")
  }

  class CheckoutModal {
    const cart: Cart.CartMirror
    var isLoading: bool
    var paymentMode: string
    var shippingAddress: string

    /** Payment mode starts as cash on delivery and the address empty. */
    constructor (cart: Cart.CartMirror)
      ensures this.cart == cart
      ensures !isLoading && paymentMode == "cod" && shippingAddress == ""
    {
      this.cart := cart;
      isLoading := false;
      paymentMode := "cod";
      shippingAddress := "";
    }

    /** The address text area's change handler. */
    method SetShippingAddress(text: string)
      modifies this
      ensures shippingAddress == text && paymentMode == old(paymentMode) && isLoading == old(isLoading)
    {
      shippingAddress := text;
    }

    /** The payment radio group's change handler. */
    method SetPaymentMode(mode: string)
      modifies this
      ensures paymentMode == mode && shippingAddress == old(shippingAddress) && isLoading == old(isLoading)
    {
      paymentMode := mode;
    }

    /**
     * `handlePlaceOrder`. A blank address (empty after trim) is refused before anything happens.
     * Otherwise the order is sent; on success the cart is cleared, then refetched, then the dialog
     * asks to close; on failure nothing else happens. Loading ends false after either outcome.
     */
    method PlaceOrder(createReply: Reply<()>, fetchReply: Reply<Option<seq<CartItem>>>)
      returns (calls: seq<Request>, closed: bool)
      requires cart.Valid()
      modifies this, cart
      ensures cart.Valid()
      ensures paymentMode == old(paymentMode) && shippingAddress == old(shippingAddress)
      ensures Trim(old(shippingAddress)) == [] ==>
        calls == [] && !closed && isLoading == old(isLoading) && cart.items == old(cart.items)
      ensures Trim(old(shippingAddress)) != [] ==> !isLoading && |calls| >= 1
      ensures Trim(old(shippingAddress)) != [] ==>
        calls[0] == CreateOrder(OrderFor(cart.session.user, old(paymentMode), old(shippingAddress)))
      ensures Trim(old(shippingAddress)) != [] && createReply.Ok? ==>
        closed && calls[1..] == Cart.FetchCalls(cart.session.user)
        && cart.items == Cart.Fetched([], cart.session.user, fetchReply)
      ensures Trim(old(shippingAddress)) != [] && createReply.Ok? && fetchReply.Failed? ==> cart.items == []
      ensures Trim(old(shippingAddress)) != [] && createReply.Failed? ==>
        !closed && |calls| == 1 && cart.items == old(cart.items)
      ensures cart.isLoading ==
        (if Trim(old(shippingAddress)) != [] && createReply.Ok? && SignedIn(cart.session.user) then false
         else old(cart.isLoading))
    {
      calls, closed := [], false;
      if Trim(shippingAddress) == [] {
        return;
      }
      isLoading := true;
      calls := [CreateOrder(OrderFor(cart.session.user, paymentMode, shippingAddress))];
      if createReply.Ok? {
        cart.Clear();
        var more := cart.Fetch(fetchReply);
        calls := calls + more;
        closed := true;
      }
      isLoading := false;
    }
  }

  /** An address of spaces, tabs and line breaks only is refused like an empty one: no call is made and the dialog stays open. */
  method BlankAddressRefused(modal: CheckoutModal, createReply: Reply<()>, fetchReply: Reply<Option<seq<CartItem>>>)
    returns (calls: seq<Request>, closed: bool)
    requires modal.cart.Valid() && Blank(modal.shippingAddress)
    modifies modal, modal.cart
    ensures calls == [] && !closed && modal.cart.items == old(modal.cart.items)
  {
    TrimEmptyIffBlank(modal.shippingAddress);
    calls, closed := modal.PlaceOrder(createReply, fetchReply);
  }
}
