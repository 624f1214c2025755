/** The customer's own order list (OrdersPage). */
module OrdersPage {
  import opened Wrappers
  import opened Api
  import opened Domain
  import opened Sync
  import opened Text
  import opened OrderDisplay
  import Auth

  datatype LineView = LineView(productName: string, quantity: int, unitPrice: int, subtotal: int)

  function LineViews(lines: seq<OrderLine>): (r: seq<LineView>)
    ensures |r| == |lines|
    ensures forall i :: 0 <= i < |lines| ==>
      r[i] == LineView(lines[i].productName, lines[i].quantity, lines[i].price, LineSubtotal(lines[i]))
  {
    if lines == [] then []
    else [LineView(lines[0].productName, lines[0].quantity, lines[0].price, LineSubtotal(lines[0]))] + LineViews(lines[1..])
  }

  /** The "Delivery Information" block shows only for a truthy delivery date. */
  predicate ShowsDelivery(o: Order) {
    o.deliveryDate.Some? && o.deliveryDate.value != ""
  }

  datatype OrderCard = OrderCard(
    number: string, payment: string, color: BadgeColor, status: string, total: int,
    itemCount: string, lines: seq<LineView>, address: string, delivery: Option<string>)

  function CardOf(o: Order): (c: OrderCard)
    ensures c.number == OrderIdDisplay(o.id) && |c.number| == Min(8, |o.id|)
    ensures c.payment == PaymentModeDisplay(o.paymentMode)
    ensures c.status == StatusDisplay(o.status) && c.color == StatusColor(c.status)
    ensures c.total == o.totalAmount && c.itemCount == CountLabel(|o.lines|)
    ensures c.lines == LineViews(o.lines)
    ensures |c.lines| == |o.lines| && forall i :: 0 <= i < |o.lines| ==> c.lines[i].subtotal == o.lines[i].price * o.lines[i].quantity
    ensures c.address == o.shippingAddress
    ensures c.delivery.Some? <==> ShowsDelivery(o)
    ensures c.delivery.Some? ==> c.delivery == o.deliveryDate
  {
    StatusDisplayKeepsColor(o.status);
    OrderCard(
      OrderIdDisplay(o.id), PaymentModeDisplay(o.paymentMode), StatusColor(o.status), StatusDisplay(o.status),
      o.totalAmount, CountLabel(|o.lines|), LineViews(o.lines), o.shippingAddress,
      if ShowsDelivery(o) then o.deliveryDate else None)
  }

  datatype PageView = LoadingOrders | NoOrdersYet | MyOrders(cards: seq<OrderCard>)

  class OrderList {
    const session: Auth.SessionStore
    var orders: seq<Order>
    var isLoading: bool

    constructor (session: Auth.SessionStore)
      ensures this.session == session && orders == [] && isLoading
    {
      this.session := session;
      orders := [];
      isLoading := true;
    }

    /**
     * fetchOrders: without a signed-in user it returns at once, leaving even the loading flag as
     * it was; otherwise the user's orders replace the list on success and are kept on failure.
     */
    method Fetch(reply: Reply<Option<seq<Order>>>) returns (calls: seq<Request>)
      modifies this
      ensures !SignedIn(session.user) ==> calls == [] && orders == old(orders) && isLoading == old(isLoading)
      ensures SignedIn(session.user) ==>
        calls == [GetUserOrders(session.user.value.id)] && orders == Reconciled(old(orders), reply) && !isLoading
    {
      calls := [];
      if !SignedIn(session.user) {
        return;
      }
      isLoading := true;
      calls := [GetUserOrders(session.user.value.id)];
      orders := Reconciled(orders, reply);
      isLoading := false;
    }

    function View(): (v: PageView)
      reads this
      ensures isLoading <==> v == LoadingOrders
      ensures v == NoOrdersYet <==> !isLoading && orders == []
      ensures v.MyOrders? ==> v.cards == Map(CardOf, orders) && |v.cards| == |orders|
    {
      if isLoading then LoadingOrders else if orders == [] then NoOrdersYet else MyOrders(Map(CardOf, orders))
    }
  }

  /** Mounted without a signed-in user, the page never leaves its loading state. */
  method MountSignedOut(session: Auth.SessionStore, reply: Reply<Option<seq<Order>>>) returns (page: OrderList)
    requires !SignedIn(session.user)
    ensures page.View() == LoadingOrders
  {
    page := new OrderList(session);
    var calls := page.Fetch(reply);
  }
}
