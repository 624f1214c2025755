/** The product card of the catalogue grid (ProductCard): stateless, it renders a product and adds one unit. */
module ProductCard {
  import opened Wrappers
  import opened Api
  import opened Domain
  import opened Catalog
  import Cart

  datatype CardView = CardView(
    lowStock: bool, outOfStock: bool, stars: seq<bool>, reviewCount: nat, addDisabled: bool)

  function Card(p: Product): (v: CardView)
    ensures v.lowStock <==> 0 < p.stockAvailable < 10
    ensures v.outOfStock <==> p.stockAvailable == 0
    ensures !(v.lowStock && v.outOfStock)
    ensures v.addDisabled <==> p.stockAvailable == 0
    ensures v.stars == ProductStars(p) && v.reviewCount == |p.reviews|
  {
    CardView(LowStock(p.stockAvailable), OutOfStock(p.stockAvailable), ProductStars(p), |p.reviews|, AddDisabled(p))
  }

  /** The card's add button: always one unit of the product. */
  method AddToCart(cart: Cart.CartMirror, p: Product, addReply: Reply<()>, fetchReply: Reply<Option<seq<CartItem>>>)
    returns (calls: seq<Request>)
    requires cart.Valid()
    modifies cart
    ensures cart.Valid()
    ensures SignedIn(cart.session.user) ==>
      calls == [Request.AddToCart(cart.session.user.value.id, p.id, 1)] + (if addReply.Ok? then Cart.FetchCalls(cart.session.user) else [])
    ensures !SignedIn(cart.session.user) ==> calls == [] && cart.items == old(cart.items)
    ensures SignedIn(cart.session.user) ==>
      cart.items == (if addReply.Ok? then Cart.Fetched(old(cart.items), cart.session.user, fetchReply) else old(cart.items))
    ensures cart.isLoading == (if addReply.Ok? && SignedIn(cart.session.user) then false else old(cart.isLoading))
  {
    calls := cart.Add(p.id, 1, addReply, fetchReply);
  }
}
