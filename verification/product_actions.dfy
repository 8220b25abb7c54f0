/** `useAdminProductActions`: deleting a product (its images first) and
    saving the edit modal (new images uploaded, old ones deleted, then the
    PATCH), each followed by the matching change to the local product list.
 */
module ProductActions {
  import opened Wrappers
  import opened Text
  import opened Entities
  import opened ProductEditor
  import Lists

  /** The PATCH body. `imgPath` is present only when new files were chosen. */
  datatype Payload = Payload(
    name: string,
    price: int,
    productType: string,
    subType: string,
    brand: string,
    isWireless: bool,
    isRGB: bool,
    stock: int,
    description: string,
    imgPath: Option<seq<string>>)

  /** The requests the admin client sends, in order. */
  datatype Request =
    | DeleteImages(paths: seq<string>)
    | DeleteProduct(id: string)
    | UploadImages(files: seq<File>)
    | PatchProduct(id: string, payload: Payload)

  /** `prod.imgPath?.length` is truthy. */
  predicate HasImages(p: Product) {
    p.imgPath.Some? && |p.imgPath.value| > 0
  }

  /** A confirmed delete whose requests all succeeded. */
  predicate DeleteSucceeds(prod: Product, confirmed: bool, deleteImages: Net<()>, deleteProduct: Net<()>) {
    confirmed && (!HasImages(prod) || deleteImages.Ok?) && deleteProduct.Ok?
  }

  datatype DeleteOutcome = DeleteOutcome(requests: seq<Request>, products: seq<Product>)

  /** `handleDeleteProduct(prod)`: `confirmed` is the dialog's answer,
      `deleteImages` and `deleteProduct` the two requests' outcomes. */
  function HandleDeleteProduct(products: seq<Product>, prod: Product, confirmed: bool,
                               deleteImages: Net<()>, deleteProduct: Net<()>): (r: DeleteOutcome)
    ensures !confirmed ==> r.requests == [] && r.products == products
    ensures (exists ps :: DeleteImages(ps) in r.requests) <==> confirmed && HasImages(prod)
    ensures HasImages(prod) && confirmed ==> r.requests[0] == DeleteImages(prod.imgPath.value)
    ensures DeleteProduct(prod.id) in r.requests <==> confirmed && (!HasImages(prod) || deleteImages.Ok?)
    ensures !DeleteSucceeds(prod, confirmed, deleteImages, deleteProduct) ==> r.products == products
    ensures DeleteSucceeds(prod, confirmed, deleteImages, deleteProduct) ==>
      (forall p :: p in r.products ==> p in products && p.id != prod.id) &&
      (forall p :: p in products && p.id != prod.id ==> p in r.products)
  {
    if !confirmed then DeleteOutcome([], products)
    else
      var first := if HasImages(prod) then [DeleteImages(prod.imgPath.value)] else [];
      if HasImages(prod) && deleteImages.Failed? then DeleteOutcome(first, products)
      else
        var requests := first + [DeleteProduct(prod.id)];
        if deleteProduct.Failed? then DeleteOutcome(requests, products)
        else DeleteOutcome(requests, Lists.RemoveKey(products, ProductId, prod.id))
  }

  /** A successful delete keeps the other products in their order. */
  lemma DeleteKeepsOrder(a: seq<Product>, b: seq<Product>, prod: Product, deleteImages: Net<()>)
    requires !HasImages(prod) || deleteImages.Ok?
    ensures HandleDeleteProduct(a + b, prod, true, deleteImages, Ok(())).products
         == HandleDeleteProduct(a, prod, true, deleteImages, Ok(())).products
          + HandleDeleteProduct(b, prod, true, deleteImages, Ok(())).products
  {
    Lists.RemoveKeyKeepsOrder(a, b, ProductId, prod.id);
  }

  /** The payload built from the form, before any image is attached. */
  function BasePayload(f: ProductForm): (r: Payload)
    ensures r.isWireless <==> f.isWireless == "true"
    ensures r.isRGB <==> f.isRGB == "true"
    ensures f.description.None? ==> r.description == ""
    ensures f.description.Some? ==> r.description == f.description.value
    ensures r.name == f.name && r.price == f.price && r.stock == f.stock
    ensures r.productType == f.productType && r.subType == f.subType && r.brand == f.brand
    ensures r.imgPath.None?
  {
    Payload(f.name, f.price, f.productType, f.subType, f.brand,
            DecodeBool(f.isWireless), DecodeBool(f.isRGB), f.stock, OrEmpty(f.description), None)
  }

  /** The payload that is PATCHed: the base, plus the uploaded paths
      (`image_urls || []`) when new files were chosen. */
  function UpdatePayload(f: ProductForm, uploaded: Option<seq<string>>): (r: Payload)
    ensures r.imgPath.Some? <==> |f.imgPath| > 0
    ensures |f.imgPath| > 0 ==> r.imgPath.value == uploaded.GetOr([])
    ensures r.(imgPath := None) == BasePayload(f)
  {
    var base := BasePayload(f);
    if |f.imgPath| > 0 then base.(imgPath := Some(uploaded.GetOr([]))) else base
  }

  /** `{ ...p, ...payload }`: the payload's fields override the product's;
      the rest survive. */
  function Merge(p: Product, pl: Payload): (r: Product)
    ensures r.id == p.id && r.rating == p.rating && r.totalOrder == p.totalOrder
    ensures r.name == pl.name && r.price == pl.price && r.productType == pl.productType
    ensures r.subType == pl.subType && r.brand == pl.brand && r.stock == pl.stock
    ensures r.isWireless == pl.isWireless && r.isRGB == pl.isRGB
    ensures r.description == Some(pl.description)
    ensures pl.imgPath.None? ==> r.imgPath == p.imgPath
    ensures pl.imgPath.Some? ==> r.imgPath == pl.imgPath
  {
    p.(name := pl.name, price := pl.price, productType := pl.productType, subType := pl.subType,
       brand := pl.brand, isWireless := pl.isWireless, isRGB := pl.isRGB, stock := pl.stock,
       description := Some(pl.description),
       imgPath := if pl.imgPath.Some? then pl.imgPath else p.imgPath)
  }

  function MergeWith(pl: Payload): Product -> Product {
    (p: Product) => Merge(p, pl)
  }

  /** The requests' outcomes all succeeded: the upload and the old-image
      delete (both only sent with new files) and the PATCH. */
  predicate UpdateSucceeds(f: ProductForm, upload: Net<Option<seq<string>>>, deleteOld: Net<()>, patch: Net<()>) {
    (|f.imgPath| == 0 || (upload.Ok? && deleteOld.Ok?)) && patch.Ok?
  }

  datatype UpdateOutcome = UpdateOutcome(requests: seq<Request>, products: seq<Product>, closed: bool)

  /** `handleUpdateProduct(data, editing)`; `closed` says `closeModal()`
      ran. */
  function HandleUpdateProduct(products: seq<Product>, f: ProductForm, editing: Option<Product>,
                               upload: Net<Option<seq<string>>>, deleteOld: Net<()>, patch: Net<()>): (r: UpdateOutcome)
    ensures editing.None? ==> r == UpdateOutcome([], products, false)
    ensures r.closed <==> editing.Some? && UpdateSucceeds(f, upload, deleteOld, patch)
    ensures !r.closed ==> r.products == products
    ensures |r.products| == |products|
    ensures r.closed ==> forall i :: 0 <= i < |products| && products[i].id == editing.value.id ==>
      r.products[i] == Merge(products[i], UpdatePayload(f, if upload.Ok? then upload.value else None))
    ensures r.closed ==> forall i :: 0 <= i < |products| && products[i].id != editing.value.id ==>
      r.products[i] == products[i]
    ensures (exists fs :: UploadImages(fs) in r.requests) ==> |f.imgPath| > 0
    ensures editing.Some? && |f.imgPath| > 0 ==> |r.requests| >= 1 && r.requests[0] == UploadImages(f.imgPath)
    ensures editing.Some? && |f.imgPath| > 0 && upload.Ok? ==>
      |r.requests| >= 2 && r.requests[1] == DeleteImages(editing.value.imgPath.GetOr([]))
    ensures (exists ps :: DeleteImages(ps) in r.requests) <==> editing.Some? && |f.imgPath| > 0 && upload.Ok?
    ensures (exists id, pl :: PatchProduct(id, pl) in r.requests) <==>
      editing.Some? && (|f.imgPath| == 0 || (upload.Ok? && deleteOld.Ok?))
    ensures editing.Some? && (|f.imgPath| == 0 || (upload.Ok? && deleteOld.Ok?)) ==>
      r.requests[|r.requests| - 1]
        == PatchProduct(editing.value.id, UpdatePayload(f, if upload.Ok? then upload.value else None))
  {
    if editing.None? then UpdateOutcome([], products, false)
    else
      var id := editing.value.id;
      if |f.imgPath| > 0 then
        var up := UploadImages(f.imgPath);
        if upload.Failed? then UpdateOutcome([up], products, false)
        else
          var del := DeleteImages(editing.value.imgPath.GetOr([]));
          if deleteOld.Failed? then UpdateOutcome([up, del], products, false)
          else
            var pl := UpdatePayload(f, upload.value);
            var requests := [up, del, PatchProduct(id, pl)];
            if patch.Failed? then UpdateOutcome(requests, products, false)
            else UpdateOutcome(requests, Lists.UpdateKey(products, ProductId, id, MergeWith(pl)), true)
      else
        var pl := UpdatePayload(f, None);
        var requests := [PatchProduct(id, pl)];
        if patch.Failed? then UpdateOutcome(requests, products, false)
        else UpdateOutcome(requests, Lists.UpdateKey(products, ProductId, id, MergeWith(pl)), true)
  }

  /** Saving without new files keeps the edited product's images, id,
      rating and order count, and sends no image request. */
  lemma UpdateWithoutFilesKeepsImages(products: seq<Product>, f: ProductForm, editing: Product,
                                      upload: Net<Option<seq<string>>>, deleteOld: Net<()>, i: nat)
    requires |f.imgPath| == 0
    requires i < |products| && products[i].id == editing.id
    ensures var r := HandleUpdateProduct(products, f, Some(editing), upload, deleteOld, Ok(()));
      r.products[i].imgPath == products[i].imgPath &&
      r.products[i].id == products[i].id &&
      r.products[i].rating == products[i].rating &&
      r.products[i].totalOrder == products[i].totalOrder &&
      r.requests == [PatchProduct(editing.id, BasePayload(f))]
  {
  }

  /** Saving the form exactly as `openEdit` filled it changes only the
      description (made present) of the edited product. */
  lemma UnchangedFormRewritesProduct(p: Product, pl: Payload)
    requires pl.imgPath.None?
    requires pl.name == p.name && pl.price == p.price && pl.productType == p.productType
    requires pl.subType == p.subType && pl.brand == p.brand && pl.stock == p.stock
    requires pl.isWireless == p.isWireless && pl.isRGB == p.isRGB
    requires Some(pl.description) == p.description
    ensures Merge(p, pl) == p
  {
  }
}
