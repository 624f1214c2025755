/** The admin's product table (ProductManagement): a mirror of the catalogue with delete and edit. */
module ProductAdmin {
  import opened Wrappers
  import opened Api
  import opened Domain
  import opened Sync
  import Catalog

  /** What one table row shows of a product's stock and status. */
  datatype ProductRow = ProductRow(stockBadgeDefault: bool, activeBadgeDefault: bool, statusLabel: string)

  function RowOf(p: Product): (r: ProductRow)
    ensures r.stockBadgeDefault <==> p.stockAvailable > 10
    ensures r.activeBadgeDefault <==> p.isActive != Some(false)
    ensures r.statusLabel == (if p.isActive == Some(false) then "Inactive" else "Active")
  {
    var active := Catalog.IsActive(p);
    ProductRow(p.stockAvailable > 10, active, if active then "Active" else "Inactive")
  }

  datatype TableView = LoadingProducts | NoProducts | Rows(rows: seq<ProductRow>)

  function Table(products: seq<Product>, isLoading: bool): (v: TableView)
    ensures isLoading <==> v == LoadingProducts
    ensures v == NoProducts <==> !isLoading && products == []
    ensures v.Rows? ==> v.rows == Map(RowOf, products) && |v.rows| == |products| > 0
  {
    if isLoading then LoadingProducts
    else if products == [] then NoProducts
    else Rows(Map(RowOf, products))
  }

  class ProductManagement {
    var products: seq<Product>
    var selected: Option<Product>
    var editorOpen: bool
    var isLoading: bool

    /** The edit dialog is open exactly while a product is selected. */
    ghost predicate Valid()
      reads this
    {
      editorOpen <==> selected.Some?
    }

    /** Mounting starts in the loading state, before the first fetch. */
    constructor ()
      ensures Valid() && products == [] && selected == None && !editorOpen && isLoading
    {
      products := [];
      selected := None;
      editorOpen := false;
      isLoading := true;
    }

    /** fetchProducts: a successful reply replaces the list, a failed one keeps it; loading ends. */
    method Fetch(reply: Reply<Option<seq<Product>>>) returns (calls: seq<Request>)
      requires Valid()
      modifies this
      ensures Valid()
      ensures calls == [GetProducts]
      ensures products == Reconciled(old(products), reply) && !isLoading
      ensures selected == old(selected) && editorOpen == old(editorOpen)
    {
      isLoading := true;
      calls := [GetProducts];
      products := Reconciled(products, reply);
      isLoading := false;
    }

    /**
     * handleDelete: a declined confirmation does nothing. A confirmed delete that the server
     * accepts is followed by a refetch; one it refuses leaves the list as it was.
     */
    method Delete(productId: string, confirmed: bool, deleteReply: Reply<()>, fetchReply: Reply<Option<seq<Product>>>)
      returns (calls: seq<Request>)
      requires Valid()
      modifies this
      ensures Valid()
      ensures !confirmed ==> calls == [] && products == old(products) && isLoading == old(isLoading)
      ensures confirmed && deleteReply.Ok? ==>
        calls == [DeleteProduct(productId), GetProducts] &&
        products == Reconciled(old(products), fetchReply) && !isLoading
      ensures confirmed && deleteReply.Failed? ==>
        calls == [DeleteProduct(productId)] && products == old(products) && isLoading == old(isLoading)
      ensures selected == old(selected) && editorOpen == old(editorOpen)
    {
      calls := [];
      if !confirmed {
        return;
      }
      calls := [DeleteProduct(productId)];
      if deleteReply.Ok? {
        var fetched := Fetch(fetchReply);
        calls := calls + fetched;
      }
    }

    /** handleEdit: select the product and open the dialog on it. */
    method Edit(p: Product)
      modifies this
      ensures Valid() && selected == Some(p) && editorOpen
      ensures products == old(products) && isLoading == old(isLoading)
    {
      selected := Some(p);
      editorOpen := true;
    }

    /** The dialog's own close: deselect and close, nothing fetched. */
    method CloseEditor()
      modifies this
      ensures Valid() && selected == None && !editorOpen
      ensures products == old(products) && isLoading == old(isLoading)
    {
      editorOpen := false;
      selected := None;
    }

    /** handleProductUpdated: refetch, close the dialog and clear the selection. */
    method ProductUpdated(fetchReply: Reply<Option<seq<Product>>>) returns (calls: seq<Request>)
      requires Valid()
      modifies this
      ensures Valid() && selected == None && !editorOpen
      ensures calls == [GetProducts] && products == Reconciled(old(products), fetchReply) && !isLoading
    {
      calls := Fetch(fetchReply);
      editorOpen := false;
      selected := None;
    }

    /** The table the page renders for the current list and loading flag. */
    function View(): (v: TableView)
      reads this
      ensures isLoading <==> v == LoadingProducts
      ensures v == NoProducts <==> !isLoading && products == []
      ensures v.Rows? ==> v.rows == Map(RowOf, products) && |v.rows| == |products| > 0
    {
      Table(products, isLoading)
    }
  }
}
