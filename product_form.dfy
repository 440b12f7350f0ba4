/** The product form (ProductForm.tsx): the field values it starts from and
    the record `handleSubmit` passes to `onSave`. The form works on text
    fields; prices and the stock adjustment are read with `Number(...) || 0`. */
module ProductForm {

  import opened Types
  import opened Text

  /** The first category of the form's list ("all"), its default. */
  const DefaultCategory: string := "T\U{1EA5}t c\U{1EA3}"

  /** The form state. `stock` is the read-only current stock, `newStock` the
      signed adjustment typed next to it. */
  datatype Form = Form(
    name: string,
    brand: string,
    category: string,
    description: string,
    purchasePrice: string,
    sellingPrice: string,
    stock: int,
    newStock: string,
    imageUrl: string)

  /** What `onSave` receives: a product without `id` and `createdAt`, which
      the caller assigns. */
  datatype ProductData = ProductData(
    name: string,
    brand: string,
    category: string,
    description: string,
    purchasePrice: int,
    sellingPrice: int,
    stock: int,
    imageUrl: string)

  /** JavaScript's `s || fallback` on strings: the empty string is falsy. */
  function OrElse(s: string, fallback: string): string {
    if s != "" then s else fallback
  }

  /** The `useState` initialisers: empty fields for a new product, the fields
      of `initial` when editing one. The adjustment always starts at "0". */
  function InitialForm(initial: Option<Product>): (f: Form)
    ensures initial.None? ==>
      && f.name == "" && f.imageUrl == "" && f.brand == "" && f.description == ""
      && f.purchasePrice == "" && f.sellingPrice == ""
      && f.stock == 0 && f.newStock == "0" && f.category == DefaultCategory
    ensures initial.Some? ==>
      && f.name == initial.value.name && f.description == initial.value.description
      && f.imageUrl == initial.value.imageUrl && f.stock == initial.value.stock
      && f.newStock == "0"
      && f.brand == initial.value.brand.GetOr("")
      && f.category == OrElse(initial.value.category.GetOr(""), DefaultCategory)
      && ParseNumber(f.purchasePrice) == Some(initial.value.purchasePrice)
      && ParseNumber(f.sellingPrice) == Some(initial.value.sellingPrice)
  {
    match initial
    case None => Form("", "", DefaultCategory, "", "", "", 0, "0", "")
    case Some(p) =>
      ParseNumberRoundTrip(p.purchasePrice);
      ParseNumberRoundTrip(p.sellingPrice);
      Form(p.name, p.brand.GetOr(""), OrElse(p.category.GetOr(""), DefaultCategory), p.description,
           IntToString(p.purchasePrice), IntToString(p.sellingPrice), p.stock, "0", p.imageUrl)
  }

  /** `handleSubmit`: refused (`None`, nothing saved) without a name or an
      image; otherwise the saved stock is the current stock plus the signed
      adjustment, and text that is not a number counts as 0. */
  function Submit(f: Form): (r: Option<ProductData>)
    ensures r.None? <==> f.name == "" || f.imageUrl == ""
    ensures r.Some? ==>
      && r.value.name == f.name && r.value.imageUrl == f.imageUrl
      && r.value.brand == f.brand && r.value.category == f.category
      && r.value.description == f.description
    ensures r.Some? ==> r.value.stock == f.stock + NumberOrZero(f.newStock)
    ensures r.Some? && ParseNumber(f.newStock).None? ==> r.value.stock == f.stock
    ensures r.Some? ==>
      r.value.purchasePrice == NumberOrZero(f.purchasePrice) && r.value.sellingPrice == NumberOrZero(f.sellingPrice)
    ensures r.Some? && ParseNumber(f.purchasePrice).None? ==> r.value.purchasePrice == 0
    ensures r.Some? && ParseNumber(f.sellingPrice).None? ==> r.value.sellingPrice == 0
  {
    if f.name == "" || f.imageUrl == "" then None
    else Some(ProductData(
      f.name, f.brand, f.category, f.description,
      NumberOrZero(f.purchasePrice), NumberOrZero(f.sellingPrice),
      f.stock + NumberOrZero(f.newStock), f.imageUrl))
  }

  /** A fresh form has neither name nor image, so it cannot be saved as it is. */
  lemma BlankFormIsRefused()
    ensures Submit(InitialForm(None)).None?
  {
  }

  /** Price fields left blank save the price 0. */
  lemma BlankPricesSaveZero(f: Form)
    requires f.name != "" && f.imageUrl != ""
    requires IsBlank(f.purchasePrice) && IsBlank(f.sellingPrice)
    ensures Submit(f).Some? && Submit(f).value.purchasePrice == 0 && Submit(f).value.sellingPrice == 0
  {
  }

  /** The adjustment has no lower bound: typing "-n" takes n off the stock,
      and below zero when the stock is smaller than n. */
  lemma AdjustmentCanGoNegative(f: Form, n: nat)
    requires f.name != "" && f.imageUrl != "" && f.newStock == IntToString(0 - n as int)
    ensures Submit(f).Some? && Submit(f).value.stock == f.stock - n
    ensures f.stock < n ==> Submit(f).value.stock < 0
  {
    ParseNumberRoundTrip(0 - n as int);
  }
}
