/** The admin's edit-product dialog (EditProductModal). */
module EditProduct {
  import opened Wrappers
  import opened Api
  import opened Domain
  import opened Text
  import opened ProductForm
  import Catalog

  /** The edit form: the six texts and the active switch. */
  datatype EditForm = EditForm(text: FormText, isActive: bool)

  /**
   * The form a product opens with: every field copied from the product, the numbers as their
   * decimal text (which reads back as the same number), and the switch on unless the product is
   * explicitly inactive.
   */
  function FormFor(p: Product): (r: EditForm)
    ensures Get(r.text, ProductName) == p.productName && Get(r.text, Category) == p.category
    ensures Get(r.text, Description) == p.description && Get(r.text, Image) == p.image
    ensures IsNumeral(Get(r.text, Price)) && NumeralValue(Get(r.text, Price)) == p.price
    ensures IsNumeral(Get(r.text, Stock)) && NumeralValue(Get(r.text, Stock)) == p.stockAvailable
    ensures r.isActive == Catalog.IsActive(p)
  {
    EditForm(
      FormText(p.productName, IntToString(p.price), p.category, p.description, p.image, IntToString(p.stockAvailable)),
      p.isActive != Some(false))
  }

  class EditProductDialog {
    const product: Product
    var form: EditForm
    var isLoading: bool

    /** Opening the dialog on a product runs the effect that fills the form from it. */
    constructor (product: Product)
      ensures this.product == product && form == FormFor(product) && !isLoading
    {
      this.product := product;
      form := FormFor(product);
      isLoading := false;
    }

    /** handleChange: the named text field takes the typed value; the switch and the other fields are kept. */
    method HandleChange(f: Field, value: string)
      modifies this
      ensures form.text == Set(old(form.text), f, value) && form.isActive == old(form.isActive)
      ensures isLoading == old(isLoading)
    {
      form := form.(text := Set(form.text, f, value));
    }

    /** handleSwitchChange: only the active flag changes. */
    method HandleSwitchChange(checked: bool)
      modifies this
      ensures form.isActive == checked && form.text == old(form.text)
      ensures isLoading == old(isLoading)
    {
      form := form.(isActive := checked);
    }

    /**
     * handleSubmit: the form is sent as an update of this product; `updated` (the call of
     * onProductUpdated) happens only when the server accepted it, and loading ends either way.
     */
    method HandleSubmit(reply: Reply<()>) returns (calls: seq<Request>, updated: bool)
      modifies this
      ensures calls == [UpdateProduct(product.id, PayloadOf(old(form).text, old(form).isActive))]
      ensures updated <==> reply.Ok?
      ensures form == old(form) && !isLoading
    {
      isLoading := true;
      calls := [UpdateProduct(product.id, PayloadOf(form.text, form.isActive))];
      match reply {
        case Ok(_) => {
          updated := true;
        }
        case Failed(_) => {
          updated := false;
        }
      }
      isLoading := false;
    }
  }

  /** Saving a form nobody edited sends the product's own name, texts and active state back. */
  method SaveUnedited(p: Product, reply: Reply<()>) returns (calls: seq<Request>, updated: bool)
    ensures |calls| == 1 && calls[0].UpdateProduct? && calls[0].productId == p.id
    ensures IsNumeral(calls[0].product.priceText) && NumeralValue(calls[0].product.priceText) == p.price
    ensures IsNumeral(calls[0].product.stockText) && NumeralValue(calls[0].product.stockText) == p.stockAvailable
    ensures calls[0].product.productName == p.productName
    ensures calls[0].product.isActive == Catalog.IsActive(p)
    ensures updated <==> reply.Ok?
  {
    var dialog := new EditProductDialog(p);
    calls, updated := dialog.HandleSubmit(reply);
  }
}
