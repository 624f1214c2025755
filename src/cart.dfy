/**
 * The cart mirror (CartContext): a client-side copy of the signed-in user's server cart. It makes
 * no local edits: every mutation is a server call followed by a full refetch, and the only local
 * changes are emptying it (clearCart, or the session going away).
 */
module Cart {
  import opened Wrappers
  import opened Api
  import opened Domain
  import opened Sync
  import Auth

  /** One line's amount, price × quantity. */
  function LineAmount(item: CartItem): (r: int)
    ensures item.quantity == 1 ==> r == item.product.price
    ensures item.product.price >= 0 && item.quantity >= 0 ==> r >= 0
  {
    item.product.price * item.quantity
  }

  /** `cartItems.reduce((total, item) => total + price * quantity, 0)`, folded from the left. */
  function Total(items: seq<CartItem>): (t: int)
    ensures items == [] ==> t == 0
    ensures |items| == 1 ==> t == LineAmount(items[0])
  {
    if items == [] then 0 else Total(items[..|items| - 1]) + LineAmount(items[|items| - 1])
  }

  lemma {:induction false} TotalAppend(a: seq<CartItem>, b: seq<CartItem>)
    ensures Total(a + b) == Total(a) + Total(b)
  {
    if b == [] {
      assert a + b == a;
    } else {
      var last := |b| - 1;
      assert (a + b)[..|a + b| - 1] == a + b[..last];
      TotalAppend(a, b[..last]);
    }
  }

  /** Taking one line out of a cart lowers its total by that line's amount. */
  lemma {:induction false} TotalRemoveAt(b: seq<CartItem>, k: nat)
    requires k < |b|
    ensures Total(b) == Total(b[..k] + b[k + 1..]) + LineAmount(b[k])
  {
    var left, x, right := b[..k], b[k], b[k + 1..];
    assert b == (left + [x]) + right;
    TotalAppend(left + [x], right);
    TotalAppend(left, [x]);
    TotalAppend(left, right);
    assert Total([x]) == LineAmount(x) by {
      assert [x][..0] == [];
    }
  }

  lemma {:induction false} MultisetRemoveAt(b: seq<CartItem>, k: nat)
    requires k < |b|
    ensures multiset(b[..k] + b[k + 1..]) == multiset(b) - multiset{b[k]}
  {
    assert b == b[..k] + [b[k]] + b[k + 1..];
  }

  /** The total of a cart is the sum of its lines, read in any order: the server's line order does not matter. */
  lemma {:induction false} TotalPermutation(a: seq<CartItem>, b: seq<CartItem>)
    requires multiset(a) == multiset(b)
    ensures Total(a) == Total(b)
  {
    if a == [] {
      assert |b| == |multiset(b)| == 0;
    } else {
      var x := a[|a| - 1];
      assert x in multiset(b);
      var k :| 0 <= k < |b| && b[k] == x;
      MultisetRemoveAt(a, |a| - 1);
      MultisetRemoveAt(b, k);
      assert a[..|a| - 1] + a[|a|..] == a[..|a| - 1];
      TotalPermutation(a[..|a| - 1], b[..k] + b[k + 1..]);
      TotalRemoveAt(b, k);
    }
  }

  /** With no negative prices or quantities the total is never negative. */
  lemma {:induction false} TotalNonNegative(items: seq<CartItem>)
    requires forall i :: 0 <= i < |items| ==> items[i].product.price >= 0 && items[i].quantity >= 0
    ensures Total(items) >= 0
  {
    if items != [] {
      TotalNonNegative(items[..|items| - 1]);
      var last := items[|items| - 1];
      assert last.product.price * last.quantity >= 0;
    }
  }

  /** The calls a fetch makes for the given session: one cart request, or none without a user id. */
  function FetchCalls(user: Option<User>): (calls: seq<Request>)
    ensures SignedIn(user) ==> calls == [GetCart(user.value.id)]
    ensures !SignedIn(user) ==> calls == []
  {
    if SignedIn(user) then [GetCart(user.value.id)] else []
  }

  /** The lines a fetch leaves: the server's cart when signed in, the old lines otherwise. */
  function Fetched(prev: seq<CartItem>, user: Option<User>, reply: Reply<Option<seq<CartItem>>>): (r: seq<CartItem>)
    ensures !SignedIn(user) || reply.Failed? ==> r == prev
    ensures SignedIn(user) && reply.Ok? ==> r == reply.body.GetOr([])
  {
    if SignedIn(user) then Reconciled(prev, reply) else prev
  }

  class CartMirror {
    /** The session the cart is bound to (the `useAuth()` of the provider). */
    const session: Auth.SessionStore
    var items: seq<CartItem>
    var isLoading: bool
    /** The last cart the server returned. */
    ghost var lastReply: seq<CartItem>

    /** The mirror either is empty or holds exactly the last cart the server returned: it never edits lines locally. */
    ghost predicate Valid()
      reads this
    {
      items == [] || items == lastReply
    }

    constructor (session: Auth.SessionStore)
      ensures Valid() && this.session == session
      ensures items == [] && !isLoading
    {
      this.session := session;
      items := [];
      isLoading := false;
      lastReply := [];
    }

    /** `cartCount`: the number of lines, whatever their quantities. */
    function CartCount(): (n: nat)
      reads this
      ensures n == |items|
      ensures n == 0 <==> items == []
    {
      |items|
    }

    /** `totalAmount`, computed afresh from the lines on every read. */
    function TotalAmount(): (t: int)
      reads this
      ensures items == [] ==> t == 0
      ensures (forall i :: 0 <= i < |items| ==> items[i].product.price >= 0 && items[i].quantity >= 0) ==> t >= 0
    {
      if forall i :: 0 <= i < |items| ==> items[i].product.price >= 0 && items[i].quantity >= 0 then
        TotalNonNegative(items);
        Total(items)
      else
        Total(items)
    }

    /** Replace the lines with the server's cart; a no-op without a signed-in user, and a failed call keeps the lines. */
    method Fetch(reply: Reply<Option<seq<CartItem>>>) returns (calls: seq<Request>)
      requires Valid()
      modifies this
      ensures Valid()
      ensures calls == FetchCalls(session.user)
      ensures items == Fetched(old(items), session.user, reply)
      ensures isLoading == (if SignedIn(session.user) then false else old(isLoading))
      ensures lastReply == (if SignedIn(session.user) && reply.Ok? then items else old(lastReply))
    {
      calls := [];
      if !SignedIn(session.user) {
        return;
      }
      isLoading := true;
      calls := [GetCart(session.user.value.id)];
      if reply.Ok? {
        items := Reconciled(items, reply);
        lastReply := items;
      }
      isLoading := false;
    }

    /**
     * Ask the server to add a product, then refetch. Without a signed-in user no call is made and
     * nothing changes; a failed add is not followed by a fetch.
     */
    method Add(productId: string, quantity: int, addReply: Reply<()>, fetchReply: Reply<Option<seq<CartItem>>>)
      returns (calls: seq<Request>)
      requires Valid()
      modifies this
      ensures Valid()
      ensures !SignedIn(session.user) ==> calls == [] && items == old(items) && isLoading == old(isLoading)
      ensures SignedIn(session.user) ==>
        calls == [AddToCart(session.user.value.id, productId, quantity)] + (if addReply.Ok? then FetchCalls(session.user) else [])
      ensures SignedIn(session.user) ==>
        items == (if addReply.Ok? then Fetched(old(items), session.user, fetchReply) else old(items))
      ensures isLoading == (if addReply.Ok? && SignedIn(session.user) then false else old(isLoading))
    {
      if !SignedIn(session.user) {
        calls := [];
        return;
      }
      calls := [AddToCart(session.user.value.id, productId, quantity)];
      if addReply.Ok? {
        var more := Fetch(fetchReply);
        calls := calls + more;
      }
    }

    /**
     * Ask the server to set a line's quantity, then refetch. The call is made whether or not anyone
     * is signed in; only the refetch is guarded by the session.
     */
    method Update(cartId: string, quantity: int, updateReply: Reply<()>, fetchReply: Reply<Option<seq<CartItem>>>)
      returns (calls: seq<Request>)
      requires Valid()
      modifies this
      ensures Valid()
      ensures calls == [UpdateCart(cartId, quantity)] + (if updateReply.Ok? then FetchCalls(session.user) else [])
      ensures items == (if updateReply.Ok? then Fetched(old(items), session.user, fetchReply) else old(items))
      ensures isLoading == (if updateReply.Ok? && SignedIn(session.user) then false else old(isLoading))
    {
      calls := [UpdateCart(cartId, quantity)];
      if updateReply.Ok? {
        var more := Fetch(fetchReply);
        calls := calls + more;
      }
    }

    /** Ask the server to delete a line, then refetch; as for Update, the call itself is not session-guarded. */
    method Remove(cartId: string, deleteReply: Reply<()>, fetchReply: Reply<Option<seq<CartItem>>>)
      returns (calls: seq<Request>)
      requires Valid()
      modifies this
      ensures Valid()
      ensures calls == [DeleteCart(cartId)] + (if deleteReply.Ok? then FetchCalls(session.user) else [])
      ensures items == (if deleteReply.Ok? then Fetched(old(items), session.user, fetchReply) else old(items))
      ensures isLoading == (if deleteReply.Ok? && SignedIn(session.user) then false else old(isLoading))
    {
      calls := [DeleteCart(cartId)];
      if deleteReply.Ok? {
        var more := Fetch(fetchReply);
        calls := calls + more;
      }
    }

    /** Empty the mirror locally, without contacting the server. */
    method Clear()
      requires Valid()
      modifies this
      ensures Valid() && items == [] && isLoading == old(isLoading)
    {
      items := [];
    }

    /** The effect run when the session's user id changes: fetch for a user, empty the cart for none. */
    method SessionChanged(reply: Reply<Option<seq<CartItem>>>) returns (calls: seq<Request>)
      requires Valid()
      modifies this
      ensures Valid()
      ensures calls == FetchCalls(session.user)
      ensures SignedIn(session.user) ==> items == Fetched(old(items), session.user, reply)
      ensures !SignedIn(session.user) ==> items == []
      ensures isLoading == (if SignedIn(session.user) then false else old(isLoading))
    {
      if SignedIn(session.user) {
        calls := Fetch(reply);
      } else {
        calls := [];
        items := [];
      }
    }
  }

  /** Signing out empties the cart, whatever it held. */
  method LogoutEmptiesCart(cart: CartMirror, reply: Reply<Option<seq<CartItem>>>)
    requires cart.Valid() && cart.session.Valid()
    modifies cart, cart.session
    ensures cart.session.user == None && cart.items == []
  {
    cart.session.Logout();
    var _ := cart.SessionChanged(reply);
  }
}
