/** The admin's order table (OrderManagement): a mirror of every order with a status selector. */
module OrderAdmin {
  import opened Wrappers
  import opened Api
  import opened Domain
  import opened Sync
  import opened Text
  import opened OrderDisplay

  datatype OrderRow = OrderRow(
    number: string, customerName: string, customerEmail: string, itemCount: string,
    total: int, payment: string, color: BadgeColor, status: string, options: seq<string>)

  /** One row of the table, every cell through the shared display rules. */
  function RowOf(o: Order): (r: OrderRow)
    ensures |r.number| == Min(8, |o.id|) && r.number == OrderIdDisplay(o.id)
    ensures r.customerName == CustomerName(o) && r.customerEmail == CustomerEmail(o)
    ensures r.itemCount == CountLabel(|o.lines|) && r.total == o.totalAmount
    ensures r.payment == PaymentModeDisplay(o.paymentMode)
    ensures r.color == StatusColor(r.status) && r.status == StatusDisplay(o.status)
    ensures r.options == ["pending", "completed"]
  {
    StatusDisplayKeepsColor(o.status);
    OrderRow(
      OrderIdDisplay(o.id), CustomerName(o), CustomerEmail(o), CountLabel(|o.lines|),
      o.totalAmount, PaymentModeDisplay(o.paymentMode), StatusColor(o.status), StatusDisplay(o.status),
      StatusOptions())
  }

  datatype TableView = LoadingOrders | NoOrders | Rows(rows: seq<OrderRow>)

  class OrderManagement {
    var orders: seq<Order>
    var isLoading: bool

    constructor ()
      ensures orders == [] && isLoading
    {
      orders := [];
      isLoading := true;
    }

    /** fetchOrders: a successful reply replaces the list, a failed one keeps it; loading ends. */
    method Fetch(reply: Reply<Option<seq<Order>>>) returns (calls: seq<Request>)
      modifies this
      ensures calls == [GetAllOrders]
      ensures orders == Reconciled(old(orders), reply) && !isLoading
    {
      isLoading := true;
      calls := [GetAllOrders];
      orders := Reconciled(orders, reply);
      isLoading := false;
    }

    /** handleStatusUpdate: an accepted update is followed by a refetch, a refused one changes nothing. */
    method UpdateStatus(orderId: string, newStatus: string, updateReply: Reply<()>, fetchReply: Reply<Option<seq<Order>>>)
      returns (calls: seq<Request>)
      modifies this
      ensures |calls| >= 1 && calls[0] == UpdateOrder(orderId, newStatus)
      ensures updateReply.Ok? ==>
        calls == [UpdateOrder(orderId, newStatus), GetAllOrders] &&
        orders == Reconciled(old(orders), fetchReply) && !isLoading
      ensures updateReply.Failed? ==>
        calls == [UpdateOrder(orderId, newStatus)] && orders == old(orders) && isLoading == old(isLoading)
    {
      calls := [UpdateOrder(orderId, newStatus)];
      if updateReply.Ok? {
        var fetched := Fetch(fetchReply);
        calls := calls + fetched;
      }
    }

    function View(): (v: TableView)
      reads this
      ensures isLoading <==> v == LoadingOrders
      ensures v == NoOrders <==> !isLoading && orders == []
      ensures v.Rows? ==> v.rows == Map(RowOf, orders)
    {
      if isLoading then LoadingOrders else if orders == [] then NoOrders else Rows(Map(RowOf, orders))
    }
  }

  /** Choosing an option of the selector sends one of the two offered statuses. */
  method ChooseOption(admin: OrderManagement, o: Order, choice: nat, updateReply: Reply<()>, fetchReply: Reply<Option<seq<Order>>>)
    returns (calls: seq<Request>)
    requires choice < 2
    modifies admin
    ensures |calls| >= 1 && calls[0] == UpdateOrder(o.id, StatusOptions()[choice])
    ensures calls[0].status == "pending" || calls[0].status == "completed"
    ensures StatusColor(calls[0].status) != Muted
  {
    StatusOptionsColored();
    calls := admin.UpdateStatus(o.id, RowOf(o).options[choice], updateReply, fetchReply);
  }
}
