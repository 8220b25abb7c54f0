/** The create-product page (`CreateProductPage.onSubmit`): upload the
    images, then create the product with the returned URLs. The
    description textarea is not registered with the form, so the submitted
    values never carry a description.
 */
module ProductCreate {
  import opened Wrappers
  import opened Text
  import opened Entities
  import opened ProductEditor
  import AdminProductsPage

  /** The rules checked before submit: every registered field is required,
      price and stock are at least 0, and at least one image is chosen. */
  function FormValid(f: ProductForm): (ok: bool)
    ensures ok <==> AdminProductsPage.FormValid(f) && |f.imgPath| >= 1
  {
    && f.name != "" && f.productType != "" && f.subType != "" && f.brand != ""
    && f.isWireless != "" && f.isRGB != ""
    && f.price >= 0 && f.stock >= 0
    && |f.imgPath| >= 1
  }

  /** What `handleSubmit` passes on: the registered fields only, so the
      description is always missing whatever the textarea shows. */
  function Submitted(f: ProductForm): (d: ProductForm)
    ensures d.description.None?
    ensures d.(description := f.description) == f
  {
    f.(description := None)
  }

  datatype ProductPayload = ProductPayload(
    name: string,
    price: int,
    productType: string,
    subType: string,
    brand: string,
    isWireless: bool,
    isRGB: bool,
    imgPath: seq<string>,
    stock: int,
    description: string)

  /** `productPayload`. */
  function BuildPayload(d: ProductForm, imageUrls: seq<string>): (r: ProductPayload)
    ensures r.isWireless <==> d.isWireless == "true"
    ensures r.isRGB <==> d.isRGB == "true"
    ensures r.imgPath == imageUrls
    ensures r.price == d.price && r.stock == d.stock
    ensures r.name == d.name && r.productType == d.productType && r.subType == d.subType && r.brand == d.brand
    ensures d.description.None? ==> r.description == ""
  {
    ProductPayload(d.name, d.price, d.productType, d.subType, d.brand,
                   DecodeBool(d.isWireless), DecodeBool(d.isRGB), imageUrls, d.stock,
                   OrEmpty(d.description))
  }

  datatype Request = UploadImages(files: seq<File>) | CreateProduct(product: ProductPayload)

  datatype Outcome = Outcome(requests: seq<Request>, reset: bool)

  /** One press of "Create Product" with the form showing `f`. */
  function Submit(f: ProductForm, upload: Net<seq<string>>, create: Net<()>): (r: Outcome)
    ensures !FormValid(f) ==> r == Outcome([], false)
    ensures FormValid(f) ==> 1 <= |r.requests| <= 2 && r.requests[0] == UploadImages(f.imgPath)
    ensures |r.requests| == 2 <==> FormValid(f) && upload.Ok?
    ensures |r.requests| == 2 ==> r.requests[1] == CreateProduct(BuildPayload(Submitted(f), upload.value))
    ensures r.reset <==> FormValid(f) && upload.Ok? && create.Ok?
  {
    if !FormValid(f) then Outcome([], false)
    else
      var d := Submitted(f);
      var up := UploadImages(d.imgPath);
      if upload.Failed? then Outcome([up], false)
      else
        var cp := CreateProduct(BuildPayload(d, upload.value));
        Outcome([up, cp], create.Ok?)
  }

  /** Whatever is typed in the description box, the product is created with
      an empty description. */
  lemma DescriptionAlwaysEmpty(f: ProductForm, upload: Net<seq<string>>, create: Net<()>)
    requires FormValid(f) && upload.Ok?
    ensures Submit(f, upload, create).requests[1].product.description == ""
  {
  }
}
