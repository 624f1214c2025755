/**
 * The product dialog (ProductModal): the product's details, a quantity stepper held between 1 and
 * the stock, and adding the chosen quantity to the cart.
 */
module ProductModal {
  import opened Wrappers
  import opened Api
  import opened Domain
  import opened Catalog
  import Cart

  /** At most three reviews are listed, the first three. */
  function ListedReviews(reviews: seq<Review>): (r: seq<Review>)
    ensures |r| == Min(3, |reviews|)
    ensures r == reviews[..|r|]
  {
    reviews[..Min(3, |reviews|)]
  }

  datatype ModalView = ModalView(
    lowStock: bool, outOfStock: bool, stars: seq<bool>, reviewCount: nat,
    addDisabled: bool, listed: seq<Review>, listedStars: seq<seq<bool>>)

  /** The stars of one listed review: filled below its own rating. */
  function ReviewStarRow(r: Review): (row: seq<bool>)
    ensures |row| == 5 && forall i :: 0 <= i < 5 ==> row[i] == (i < r.rating)
  {
    StarRow(r.rating)
  }

  function View(p: Product): (v: ModalView)
    ensures v.lowStock <==> 0 < p.stockAvailable < 10
    ensures v.outOfStock <==> p.stockAvailable == 0
    ensures v.addDisabled <==> p.stockAvailable == 0
    ensures v.stars == ProductStars(p) && v.reviewCount == |p.reviews|
    ensures |v.listed| <= 3 && v.listed == ListedReviews(p.reviews)
    ensures |v.listedStars| == |v.listed|
    ensures forall i :: 0 <= i < |v.listed| ==> v.listedStars[i] == ReviewStarRow(v.listed[i])
  {
    var listed := ListedReviews(p.reviews);
    ModalView(LowStock(p.stockAvailable), OutOfStock(p.stockAvailable), ProductStars(p), |p.reviews|,
              AddDisabled(p), listed, Map(ReviewStarRow, listed))
  }

  class ProductDialog {
    const product: Product
    const cart: Cart.CartMirror
    var quantity: int

    /** The chosen quantity never drops below 1 nor rises above the stock (or 1, when stock is below 1). */
    ghost predicate Valid()
      reads this
    {
      1 <= quantity <= Max(1, product.stockAvailable)
    }

    constructor (product: Product, cart: Cart.CartMirror)
      ensures Valid() && this.product == product && this.cart == cart && quantity == 1
    {
      this.product := product;
      this.cart := cart;
      quantity := 1;
    }

    /** The minus button is disabled at quantity 1 or below. */
    predicate DecrementDisabled()
      reads this
    {
      quantity <= 1
    }

    /** The plus button is disabled once the quantity reaches the stock. */
    predicate IncrementDisabled()
      reads this
    {
      quantity >= product.stockAvailable
    }

    /** One more, only while below the stock. */
    method Increment()
      requires Valid()
      modifies this
      ensures Valid()
      ensures quantity == if old(quantity) < product.stockAvailable then old(quantity) + 1 else old(quantity)
      ensures quantity == old(quantity) <==> old(IncrementDisabled())
    {
      if quantity < product.stockAvailable {
        quantity := quantity + 1;
      }
    }

    /** One fewer, only while above 1. */
    method Decrement()
      requires Valid()
      modifies this
      ensures Valid()
      ensures quantity == if old(quantity) > 1 then old(quantity) - 1 else old(quantity)
      ensures quantity == old(quantity) <==> old(DecrementDisabled())
    {
      if quantity > 1 {
        quantity := quantity - 1;
      }
    }

    /** "Total: price × quantity" under the stepper. */
    function DisplayedTotal(): (t: int)
      reads this
      ensures product.price >= 0 && Valid() ==> t >= product.price
    {
      product.price * quantity
    }

    /**
     * The add button: the chosen quantity of this product goes to the cart mirror, and the dialog
     * asks to close. The add is not awaited, so closing does not depend on its outcome.
     */
    method AddToCart(addReply: Reply<()>, fetchReply: Reply<Option<seq<CartItem>>>)
      returns (calls: seq<Request>, closed: bool)
      requires Valid() && cart.Valid()
      modifies cart
      ensures cart.Valid() && closed
      ensures SignedIn(cart.session.user) ==>
        calls == [Request.AddToCart(cart.session.user.value.id, product.id, quantity)]
          + (if addReply.Ok? then Cart.FetchCalls(cart.session.user) else [])
      ensures !SignedIn(cart.session.user) ==> calls == [] && cart.items == old(cart.items)
      ensures SignedIn(cart.session.user) ==>
        cart.items == (if addReply.Ok? then Cart.Fetched(old(cart.items), cart.session.user, fetchReply) else old(cart.items))
      ensures cart.isLoading == (if addReply.Ok? && SignedIn(cart.session.user) then false else old(cart.isLoading))
    {
      calls := cart.Add(product.id, quantity, addReply, fetchReply);
      closed := true;
    }
  }

  /** Any run of stepper presses keeps the quantity within 1 and max(1, stock). */
  method PressSteppers(dialog: ProductDialog, presses: seq<bool>)
    requires dialog.Valid()
    modifies dialog
    ensures dialog.Valid()
    ensures 1 <= dialog.quantity <= Max(1, dialog.product.stockAvailable)
  {
    var i := 0;
    while i < |presses|
      invariant 0 <= i <= |presses|
      invariant dialog.Valid()
    {
      if presses[i] {
        dialog.Increment();
      } else {
        dialog.Decrement();
      }
      i := i + 1;
    }
  }
}
