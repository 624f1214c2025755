/**
 * The text fields the admin product forms hold (AddProductModal and EditProductModal): one record
 * of six strings, changed one named field at a time.
 */
module ProductForm {
  import opened Wrappers
  import opened Api

  /** The form fields, one per input of the form. */
  datatype Field = ProductName | Price | Category | Description | Image | Stock

  datatype FormText = FormText(
    productName: string, price: string, category: string, description: string, image: string, stock: string)

  /** The `name` attribute each input carries. */
  function FieldName(f: Field): string {
    match f
    case ProductName => "productname"
    case Price => "price"
    case Category => "category"
    case Description => "description"
    case Image => "image"
    case Stock => "stock_available"
  }

  /** The field an input name designates, if any. */
  function FieldNamed(name: string): (r: Option<Field>)
    ensures r.Some? ==> FieldName(r.value) == name
  {
    if name == "productname" then Some(ProductName)
    else if name == "price" then Some(Price)
    else if name == "category" then Some(Category)
    else if name == "description" then Some(Description)
    else if name == "image" then Some(Image)
    else if name == "stock_available" then Some(Stock)
    else None
  }

  /** Every input name leads back to its field, so no two inputs write the same field. */
  lemma FieldNamesRoundTrip(f: Field)
    ensures FieldNamed(FieldName(f)) == Some(f)
  {
  }

  lemma FieldNamesDistinct(f: Field, g: Field)
    ensures FieldName(f) == FieldName(g) <==> f == g
  {
    FieldNamesRoundTrip(f);
    FieldNamesRoundTrip(g);
  }

  function Get(form: FormText, f: Field): string {
    match f
    case ProductName => form.productName
    case Price => form.price
    case Category => form.category
    case Description => form.description
    case Image => form.image
    case Stock => form.stock
  }

  /** `{...prev, [name]: value}`: the named field takes the value, every other field is kept. */
  function Set(form: FormText, f: Field, value: string): (r: FormText)
    ensures Get(r, f) == value
    ensures forall g :: g != f ==> Get(r, g) == Get(form, g)
  {
    match f
    case ProductName => form.(productName := value)
    case Price => form.(price := value)
    case Category => form.(category := value)
    case Description => form.(description := value)
    case Image => form.(image := value)
    case Stock => form.(stock := value)
  }

  /** Two forms agreeing on every field are the same form. */
  lemma FieldsDetermineForm(a: FormText, b: FormText)
    requires forall g :: Get(a, g) == Get(b, g)
    ensures a == b
  {
    assert Get(a, ProductName) == Get(b, ProductName);
    assert Get(a, Price) == Get(b, Price);
    assert Get(a, Category) == Get(b, Category);
    assert Get(a, Description) == Get(b, Description);
    assert Get(a, Image) == Get(b, Image);
    assert Get(a, Stock) == Get(b, Stock);
  }

  /** Writing back what a field holds changes nothing. */
  lemma SetOwnValue(form: FormText, f: Field)
    ensures Set(form, f, Get(form, f)) == form
  {
    FieldsDetermineForm(Set(form, f, Get(form, f)), form);
  }

  /** A second write to the same field overrides the first. */
  lemma SetOverrides(form: FormText, f: Field, v: string, w: string)
    ensures Set(Set(form, f, v), f, w) == Set(form, f, w)
  {
    FieldsDetermineForm(Set(Set(form, f, v), f, w), Set(form, f, w));
  }

  /** Writes to different fields commute. */
  lemma SetsCommute(form: FormText, f: Field, g: Field, v: string, w: string)
    requires f != g
    ensures Set(Set(form, f, v), g, w) == Set(Set(form, g, w), f, v)
  {
    FieldsDetermineForm(Set(Set(form, f, v), g, w), Set(Set(form, g, w), f, v));
  }

  /** The empty form the add dialog starts from and resets to. */
  function Blank(): (r: FormText)
    ensures forall g :: Get(r, g) == ""
  {
    FormText("", "", "", "", "", "")
  }

  /** The payload `{...formData, price, stock_available}` with the given active flag. */
  function PayloadOf(form: FormText, isActive: bool): (p: ProductPayload)
    ensures p.productName == Get(form, ProductName) && p.priceText == Get(form, Price)
    ensures p.category == Get(form, Category) && p.description == Get(form, Description)
    ensures p.image == Get(form, Image) && p.stockText == Get(form, Stock)
    ensures p.isActive == isActive
  {
    ProductPayload(form.productName, form.price, form.category, form.description, form.image, form.stock, isActive)
  }
}
