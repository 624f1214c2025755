/**
 * How an order is displayed, identically on the customer's order list (OrdersPage) and on the
 * admin's order table (OrderManagement): status badge colour and text, payment mode, order number.
 */
module OrderDisplay {
  import opened Wrappers
  import opened Domain
  import opened Text

  datatype BadgeColor = Warning | Success | Muted

  /** getStatusColor: decided on the lower-cased status, so the stored case does not matter. */
  function StatusColor(status: string): (c: BadgeColor)
    ensures c == Warning <==> Lower(status) == "pending"
    ensures c == Success <==> Lower(status) == "completed"
    ensures c == Muted <==> Lower(status) != "pending" && Lower(status) != "completed"
  {
    var key := Lower(status);
    if key == "pending" then Warning else if key == "completed" then Success else Muted
  }

  /** Upper-casing a status, or any part of it, does not change its colour. */
  lemma StatusColorIgnoresCase(status: string)
    ensures StatusColor(Upper(status)) == StatusColor(status)
  {
    LowerOfUpper(status);
  }

  /** getPaymentModeDisplay: cash on delivery exactly for the mode "cod", online payment for anything else. */
  function PaymentModeDisplay(mode: string): (r: string)
    ensures r == "Cash on Delivery" <==> mode == "cod"
    ensures r == "Online Payment" <==> mode != "cod"
  {
    if mode == "cod" then "Cash on Delivery" else "Online Payment"
  }

  /** `status.charAt(0).toUpperCase() + status.slice(1)`: the first character capitalised, the rest as is. */
  function StatusDisplay(status: string): (r: string)
    ensures |r| == |status|
    ensures status != [] ==> r[0] == UpperChar(status[0]) && r[1..] == status[1..]
    ensures status == [] ==> r == []
  {
    if status == [] then [] else [UpperChar(status[0])] + status[1..]
  }

  /** The capitalised text keeps the badge colour of the stored status. */
  lemma {:induction false} StatusDisplayKeepsColor(status: string)
    ensures StatusColor(StatusDisplay(status)) == StatusColor(status)
  {
    var d := StatusDisplay(status);
    var a, b := Lower(d), Lower(status);
    forall i | 0 <= i < |status| ensures a[i] == b[i] {
      if i == 0 {
        var c := status[0];
        if 'a' <= c <= 'z' {
          assert UpperChar(c) as int == c as int - 32;
        }
      } else {
        assert d[i] == d[1..][i - 1];
      }
    }
    assert a == b;
  }

  /** `id.slice(-8).toUpperCase()`: the last eight characters (all of a shorter id), upper-cased. */
  function OrderIdDisplay(id: string): (r: string)
    ensures |r| == Min(8, |id|)
    ensures forall i :: 0 <= i < |r| ==> r[i] == UpperChar(id[|id| - |r| + i])
  {
    Upper(id[|id| - Min(8, |id|)..])
  }

  /** The displayed number is its own display: short enough and upper-cased already. */
  lemma OrderIdDisplayIdempotent(id: string)
    ensures OrderIdDisplay(OrderIdDisplay(id)) == OrderIdDisplay(id)
  {
    var d := OrderIdDisplay(id);
    assert d[|d| - Min(8, |d|)..] == d;
    UpperIdempotent(id[|id| - Min(8, |id|)..]);
  }

  /** Two ids that end in the same eight characters display the same number. */
  lemma OrderIdDisplaySuffix(a: string, b: string)
    requires |a| >= 8 && |b| >= 8 && a[|a| - 8..] == b[|b| - 8..]
    ensures OrderIdDisplay(a) == OrderIdDisplay(b)
  {
  }

  /** The statuses the admin's selector offers. */
  function StatusOptions(): seq<string> {
    ["pending", "completed"]
  }

  /** Each offered status has its own colour, not the muted fallback. */
  lemma StatusOptionsColored()
    ensures StatusColor(StatusOptions()[0]) == Warning && StatusColor(StatusOptions()[1]) == Success
  {
    var pending, completed := StatusOptions()[0], StatusOptions()[1];
    LowerOfLowerCase(pending);
    LowerOfLowerCase(completed);
  }

  /** Each offered status displays as its selector label. */
  lemma StatusOptionsLabels()
    ensures StatusDisplay(StatusOptions()[0]) == "Pending" && StatusDisplay(StatusOptions()[1]) == "Completed"
  {
    var pending, completed := StatusOptions()[0], StatusOptions()[1];
    assert UpperChar('p') == 'P' && UpperChar('c') == 'C';
    assert pending[1..] == "ending" && completed[1..] == "ompleted";
  }

  /** `price * quantity` of one ordered line. */
  function LineSubtotal(line: OrderLine): (r: int)
    ensures line.quantity == 1 ==> r == line.price
    ensures line.price >= 0 && line.quantity >= 0 ==> r >= 0
  {
    line.price * line.quantity
  }

  /** `order.userid?.username || 'Unknown'`: an unpopulated customer or an empty name shows as unknown. */
  function CustomerName(o: Order): (r: string)
    ensures o.customer.Some? && o.customer.value.username != "" ==> r == o.customer.value.username
    ensures o.customer.None? || o.customer.value.username == "" ==> r == "Unknown"
  {
    if o.customer.Some? && o.customer.value.username != "" then o.customer.value.username else "Unknown"
  }

  /** `order.userid?.email || 'No email'`. */
  function CustomerEmail(o: Order): (r: string)
    ensures o.customer.Some? && o.customer.value.email != "" ==> r == o.customer.value.email
    ensures o.customer.None? || o.customer.value.email == "" ==> r == "No email"
  {
    if o.customer.Some? && o.customer.value.email != "" then o.customer.value.email else "No email"
  }
}
