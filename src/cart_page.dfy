/**
 * The cart page (CartPage): a pure rendering of the cart mirror, with quantity steppers whose
 * enabled actions send updates that stay within 1 and the product's stock.
 */
module CartPage {
  import opened Wrappers
  import opened Api
  import opened Domain
  import opened Text
  import Cart

  /** Pressing minus: `Math.max(1, q - 1)` sent for the line, or nothing when the button is disabled (q <= 1). */
  function DecrementAction(item: CartItem): (r: Option<Request>)
    ensures r.Some? <==> item.quantity > 1
    ensures r.Some? ==> r.value.UpdateCart? && r.value.cartId == item.id
    ensures r.Some? ==> 1 <= r.value.quantity < item.quantity
  {
    if item.quantity <= 1 then None else Some(UpdateCart(item.id, Max(1, item.quantity - 1)))
  }

  /** Pressing plus: `q + 1` sent for the line, or nothing when the button is disabled (q >= stock). */
  function IncrementAction(item: CartItem): (r: Option<Request>)
    ensures r.Some? <==> item.quantity < item.product.stockAvailable
    ensures r.Some? ==> r.value.UpdateCart? && r.value.cartId == item.id
    ensures r.Some? ==> item.quantity < r.value.quantity <= item.product.stockAvailable
  {
    if item.quantity >= item.product.stockAvailable then None else Some(UpdateCart(item.id, item.quantity + 1))
  }

  /** A line kept between 1 and its stock stays there when the server applies any enabled stepper action. */
  lemma SteppersKeepBounds(item: CartItem, r: Request)
    requires 1 <= item.quantity <= item.product.stockAvailable
    requires DecrementAction(item) == Some(r) || IncrementAction(item) == Some(r)
    ensures 1 <= r.quantity <= item.product.stockAvailable
  {
  }

  datatype LineView = LineView(
    item: CartItem, subtotal: int, decrement: Option<Request>, increment: Option<Request>, remove: Request)

  /** The summary card: subtotal, tax shown as 0, and total (shipping is shown as free). */
  datatype Summary = Summary(subtotal: int, tax: int, total: int)

  datatype Page =
    | LoadingCart
    | EmptyCart
    | Filled(countLabel: string, lines: seq<LineView>, summary: Summary)

  /** One card per line, in the mirror's order. */
  function Lines(items: seq<CartItem>): (r: seq<LineView>)
    ensures |r| == |items|
    ensures forall i :: 0 <= i < |items| ==>
      r[i].item == items[i] && r[i].subtotal == items[i].product.price * items[i].quantity
      && r[i].decrement == DecrementAction(items[i]) && r[i].increment == IncrementAction(items[i])
      && r[i].remove == DeleteCart(items[i].id)
  {
    if items == [] then []
    else
      var item := items[0];
      [LineView(item, Cart.LineAmount(item), DecrementAction(item), IncrementAction(item), DeleteCart(item.id))]
      + Lines(items[1..])
  }

  function SumSubtotals(lines: seq<LineView>): int {
    if lines == [] then 0 else SumSubtotals(lines[..|lines| - 1]) + lines[|lines| - 1].subtotal
  }

  /** The line subtotals on the page add up to the mirror's totalAmount shown in the summary. */
  lemma {:induction false} SubtotalsAddUp(items: seq<CartItem>)
    ensures SumSubtotals(Lines(items)) == Cart.Total(items)
  {
    if items != [] {
      var n := |items| - 1;
      SubtotalsAddUp(items[..n]);
      var a, b := Lines(items), Lines(items[..n]);
      assert a[..n] == b;
    }
  }

  /** The page for the mirror's state: loading first, then the empty view, then the lines and summary. */
  function Render(items: seq<CartItem>, isLoading: bool): (p: Page)
    ensures p == LoadingCart <==> isLoading
    ensures p == EmptyCart <==> !isLoading && items == []
    ensures p.Filled? ==> p.summary == Summary(Cart.Total(items), 0, Cart.Total(items))
    ensures p.Filled? ==> p.lines == Lines(items) && |p.lines| == |items|
    ensures p.Filled? ==> SumSubtotals(p.lines) == p.summary.total
    ensures p.Filled? ==> p.countLabel == CountLabel(|items|)
  {
    if isLoading then LoadingCart
    else if |items| == 0 then EmptyCart
    else
      SubtotalsAddUp(items);
      Filled(CountLabel(|items|), Lines(items), Summary(Cart.Total(items), 0, Cart.Total(items)))
  }

  /** The page of a mirror. */
  function CartPageOf(cart: Cart.CartMirror): (p: Page)
    reads cart
    ensures p == LoadingCart <==> cart.isLoading
    ensures p == EmptyCart <==> !cart.isLoading && cart.items == []
    ensures p.Filled? ==> p.lines == Lines(cart.items) && p.summary.total == cart.TotalAmount()
  {
    Render(cart.items, cart.isLoading)
  }
}
