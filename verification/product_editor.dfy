/** `useAdminProductEditor` (and the same two handlers on the admin products
    page): opening the edit modal fills the form from the product, closing
    it clears the product and resets the form.
 */
module ProductEditor {
  import opened Wrappers
  import opened Entities

  /** `b.toString()`. */
  function EncodeBool(b: bool): (r: string)
    ensures r == "true" <==> b
    ensures r == "false" <==> !b
  {
    if b then "true" else "false"
  }

  /** `s === 'true'`, as the submit handlers read a radio value. */
  function DecodeBool(s: string): (r: bool)
    ensures r <==> s == "true"
  {
    s == "true"
  }

  /** Encoding a flag for the form and decoding it on submit gives the flag
      back. */
  lemma BoolRoundTrip(b: bool)
    ensures DecodeBool(EncodeBool(b)) == b
  {
  }

  /** The values `reset(...)` puts in the form. The file input is not among
      them, so it starts with no file. */
  function EditForm(p: Product): (f: ProductForm)
    ensures f.name == p.name && f.price == p.price && f.productType == p.productType
    ensures f.subType == p.subType && f.brand == p.brand && f.stock == p.stock
    ensures f.description == p.description
    ensures f.isWireless == EncodeBool(p.isWireless) && f.isRGB == EncodeBool(p.isRGB)
    ensures f.imgPath == []
  {
    ProductForm(p.name, p.price, p.productType, p.subType, p.brand,
                EncodeBool(p.isWireless), EncodeBool(p.isRGB), [], p.stock, p.description)
  }

  /** The editor: the product being edited (`null` when the modal is
      closed), the form values, and the default values a bare `reset()`
      restores. `None` stands for the empty values `useForm()` starts with;
      `reset(values)` makes `values` the new defaults as well. */
  datatype Editor = Editor(editing: Option<Product>, form: Option<ProductForm>, defaults: Option<ProductForm>)

  /** `openEdit(p)`. */
  function OpenEdit(e: Editor, p: Product): (r: Editor)
    ensures r.editing == Some(p)
    ensures r.form.Some? && r.form.value == EditForm(p)
    ensures r.defaults == r.form
  {
    Editor(Some(p), Some(EditForm(p)), Some(EditForm(p)))
  }

  /** `closeModal()`: `editing` is cleared and the form goes back to the
      current defaults. */
  function CloseModal(e: Editor): (r: Editor)
    ensures r.editing.None?
    ensures r.form == e.defaults && r.defaults == e.defaults
  {
    e.(editing := None, form := e.defaults)
  }

  /** Opening a product and submitting the untouched form gives back the
      product's flags, whatever the modal held before. */
  lemma OpenEditDecodes(e: Editor, p: Product)
    ensures DecodeBool(OpenEdit(e, p).form.value.isWireless) == p.isWireless
    ensures DecodeBool(OpenEdit(e, p).form.value.isRGB) == p.isRGB
  {
    BoolRoundTrip(p.isWireless);
    BoolRoundTrip(p.isRGB);
  }

  /** Closing after opening `p` leaves `p`'s values in the form (they became
      the defaults), closing twice is closing once, and whatever a closed
      modal still holds is overwritten by the next `openEdit`. */
  lemma CloseModalKeepsOpenedValues(e: Editor, p: Product, q: Product)
    ensures CloseModal(OpenEdit(e, p)).form == Some(EditForm(p))
    ensures CloseModal(OpenEdit(e, p)).editing.None?
    ensures CloseModal(CloseModal(e)) == CloseModal(e)
    ensures OpenEdit(CloseModal(OpenEdit(e, p)), q) == OpenEdit(e, q)
  {
  }
}
