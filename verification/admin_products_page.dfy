/** The admin products page (`AdminProductPage`), which carries its own
    copies of the delete, edit and save handlers. The endpoints, payloads
    and list changes are those of `useAdminProductActions`; what differs is the page
    state around them: a successful save only sets `editing` to null and
    leaves the form values in place.
 */
module AdminProductsPage {
  import opened Wrappers
  import opened Entities
  import opened ProductActions
  import ProductEditor
  import Lists

  /** The page state: the product list, the loading flag and the editor. */
  datatype PageState = PageState(products: seq<Product>, loading: bool, editor: ProductEditor.Editor)

  const Initial: PageState := PageState([], true, ProductEditor.Editor(None, None, None))

  /** The load on mount: the fetched items, or the initial empty list. */
  function Load(fetch: Net<seq<Product>>): (r: PageState)
    ensures !r.loading && r.editor == Initial.editor
    ensures fetch.Failed? ==> r.products == []
    ensures fetch.Ok? ==> r.products == fetch.value
  {
    Initial.(products := if fetch.Ok? then fetch.value else [], loading := false)
  }

  /** `handleDelete(prod)`: only products with the deleted id leave the
      list, and only once every request succeeded. */
  function HandleDelete(s: PageState, prod: Product, confirmed: bool,
                        deleteImages: Net<()>, deleteProduct: Net<()>): (r: (seq<Request>, PageState))
    ensures !confirmed ==> r == ([], s)
    ensures r.1.editor == s.editor && r.1.loading == s.loading
    ensures !DeleteSucceeds(prod, confirmed, deleteImages, deleteProduct) ==> r.1.products == s.products
    ensures DeleteSucceeds(prod, confirmed, deleteImages, deleteProduct) ==>
      (forall p :: p in r.1.products ==> p in s.products && p.id != prod.id) &&
      (forall p :: p in s.products && p.id != prod.id ==> p in r.1.products)
    ensures (exists ps :: DeleteImages(ps) in r.0) <==> confirmed && HasImages(prod)
  {
    var out := HandleDeleteProduct(s.products, prod, confirmed, deleteImages, deleteProduct);
    (out.requests, s.(products := out.products))
  }

  /** `openEdit(prod)`. */
  function OpenEdit(s: PageState, p: Product): (r: PageState)
    ensures r.editor.editing == Some(p)
    ensures r.editor.form == Some(ProductEditor.EditForm(p))
    ensures r.products == s.products
  {
    s.(editor := ProductEditor.OpenEdit(s.editor, p))
  }

  /** The modal's rules: every field but the files and the description is
      required, and price and stock are at least 0. */
  function FormValid(f: ProductForm): (ok: bool)
    ensures ok ==> f.price >= 0 && f.stock >= 0
  {
    && f.name != "" && f.productType != "" && f.subType != "" && f.brand != ""
    && f.isWireless != "" && f.isRGB != ""
    && f.price >= 0 && f.stock >= 0
  }

  /** The form `openEdit` fills passes the rules exactly when the product
      has a name, type, sub-type and brand and a non-negative price and
      stock: the encoded flags are never empty. */
  lemma OpenedProductValid(p: Product)
    ensures FormValid(ProductEditor.EditForm(p)) <==>
      p.name != "" && p.productType != "" && p.subType != "" && p.brand != "" && p.price >= 0 && p.stock >= 0
  {
  }

  /** "Save": `handleSubmit(onSubmit)` with the form values `f`. */
  function Save(s: PageState, f: ProductForm,
                upload: Net<Option<seq<string>>>, deleteOld: Net<()>, patch: Net<()>): (r: (seq<Request>, PageState))
    ensures !FormValid(f) || s.editor.editing.None? ==> r == ([], s)
    ensures r.1.editor.form == s.editor.form
    ensures r.1.editor.editing.None? <==> s.editor.editing.None? || (UpdateSucceeds(f, upload, deleteOld, patch) && FormValid(f))
    ensures !(FormValid(f) && UpdateSucceeds(f, upload, deleteOld, patch)) ==> r.1.products == s.products
  {
    if !FormValid(f) then ([], s)
    else
      var out := HandleUpdateProduct(s.products, f, s.editor.editing, upload, deleteOld, patch);
      if out.closed then (out.requests, s.(products := out.products, editor := s.editor.(editing := None)))
      else (out.requests, s)
  }

  /** A valid save sends what the hook sends and leaves the same list; the
      page differs from the hook only in not resetting the form. */
  lemma SaveMatchesHook(s: PageState, f: ProductForm,
                        upload: Net<Option<seq<string>>>, deleteOld: Net<()>, patch: Net<()>)
    requires FormValid(f) && s.editor.editing.Some?
    ensures var out := HandleUpdateProduct(s.products, f, s.editor.editing, upload, deleteOld, patch);
      Save(s, f, upload, deleteOld, patch).0 == out.requests &&
      Save(s, f, upload, deleteOld, patch).1.products == out.products
    ensures UpdateSucceeds(f, upload, deleteOld, patch) ==>
      Save(s, f, upload, deleteOld, patch).1.editor == s.editor.(editing := None)
  {
  }

  /** A form with a negative price or stock is never sent. */
  lemma NegativeValuesRejected(s: PageState, f: ProductForm,
                               upload: Net<Option<seq<string>>>, deleteOld: Net<()>, patch: Net<()>)
    requires f.price < 0 || f.stock < 0
    ensures Save(s, f, upload, deleteOld, patch) == ([], s)
  {
  }

  /** The edit round trip: opening a product and saving the untouched form
      with a successful PATCH writes back the same flags. */
  lemma EditRoundTripFlags(s: PageState, p: Product, i: nat)
    requires i < |s.products| && s.products[i].id == p.id
    requires FormValid(ProductEditor.EditForm(p))
    ensures var t := OpenEdit(s, p);
      var r := Save(t, t.editor.form.value, Failed, Failed, Ok(()));
      r.1.products[i].isWireless == p.isWireless && r.1.products[i].isRGB == p.isRGB
  {
    ProductEditor.BoolRoundTrip(p.isWireless);
    ProductEditor.BoolRoundTrip(p.isRGB);
  }
}
