/** The create-auction page (`CreateAuctionPage.onSubmit`): upload the
    images, create the auction product with the returned URLs, then create
    the auction for that product. Each request's outcome is a parameter.
 */
module AuctionCreate {
  import opened Wrappers
  import opened Entities
  import opened AuctionValidation
  import opened Text
  import opened ProductEditor

  /** `IAuctionFormData` as the form holds it. Selects and radios hold
      strings ("" when nothing is chosen); the date pickers hold `None`
      until a date is picked; the prices are read with `valueAsNumber`. */
  datatype Form = Form(
    name: string,
    brand: string,
    productType: string,
    subType: string,
    isWireless: string,
    isRGB: string,
    startPrice: int,
    buyOutPrice: int,
    startAuctionDate: Option<int>,
    endAuctionDate: Option<int>,
    imgPath: seq<File>,
    description: Option<string>)

  /** The rules react-hook-form checks before it calls `onSubmit`: every
      field but the description is required, both prices are at least 0,
      the dates pass their validators (run at `now`) and at least one image
      is chosen. */
  function FormValid(f: Form, now: int): (ok: bool)
    ensures ok ==> f.startAuctionDate.Some? && f.endAuctionDate.Some?
    ensures ok ==> now < f.startAuctionDate.value < f.endAuctionDate.value
  {
    && f.name != "" && f.brand != "" && f.productType != "" && f.subType != ""
    && f.isWireless != "" && f.isRGB != ""
    && f.startPrice >= 0 && f.buyOutPrice >= 0
    && f.startAuctionDate.Some?
    && ValidateStartDate(f.startAuctionDate.value, f.endAuctionDate, now) == Accept
    && f.endAuctionDate.Some?
    && ValidateEndDate(f.endAuctionDate.value, f.startAuctionDate, now) == Accept
    && |f.imgPath| >= 1
  }

  datatype ProductPayload = ProductPayload(
    name: string,
    brand: string,
    productType: string,
    subType: string,
    isWireless: bool,
    isRGB: bool,
    imgPath: seq<string>,
    description: string)

  datatype AuctionPayload = AuctionPayload(
    productId: string,
    sellerId: Option<string>,
    startPrice: int,
    buyOutPrice: int,
    startAuctionDate: Option<int>,
    endAuctionDate: Option<int>)

  /** The auction product built from the form and the uploaded URLs. */
  function BuildProductPayload(f: Form, imageUrls: seq<string>): (r: ProductPayload)
    ensures r.isWireless <==> f.isWireless == "true"
    ensures r.isRGB <==> f.isRGB == "true"
    ensures r.imgPath == imageUrls
    ensures f.description.None? ==> r.description == ""
    ensures f.description.Some? ==> r.description == f.description.value
    ensures r.name == f.name && r.brand == f.brand && r.productType == f.productType && r.subType == f.subType
  {
    ProductPayload(f.name, f.brand, f.productType, f.subType,
                   DecodeBool(f.isWireless), DecodeBool(f.isRGB),
                   imageUrls, OrEmpty(f.description))
  }

  /** The auction built from the form, the new product's id and the signed-in
      user's id (`user?.id`). */
  function BuildAuctionPayload(f: Form, productId: string, seller: Option<User>): (r: AuctionPayload)
    ensures r.productId == productId
    ensures r.sellerId.Some? <==> seller.Some?
    ensures seller.Some? ==> r.sellerId.value == seller.value.id
    ensures r.startPrice == f.startPrice && r.buyOutPrice == f.buyOutPrice
    ensures r.startAuctionDate == f.startAuctionDate && r.endAuctionDate == f.endAuctionDate
  {
    AuctionPayload(productId, if seller.Some? then Some(seller.value.id) else None,
                   f.startPrice, f.buyOutPrice, f.startAuctionDate, f.endAuctionDate)
  }

  /** The requests the page sends, in order. */
  datatype Request =
    | UploadImages(files: seq<File>)
    | CreateProduct(product: ProductPayload)
    | CreateAuction(auction: AuctionPayload)

  datatype Alert = NoAlert | Created | CreationFailed

  /** What one press of "Create Auction" does: the requests sent, the alert
      shown, and whether the form was reset. */
  datatype Outcome = Outcome(requests: seq<Request>, alert: Alert, reset: bool)

  /** `handleSubmit(onSubmit)`. `upload` answers with the image URLs,
      `product` with the new product's id, `auction` with nothing of use. */
  function Submit(f: Form, now: int, seller: Option<User>,
                  upload: Net<seq<string>>, product: Net<string>, auction: Net<()>): (r: Outcome)
    ensures !FormValid(f, now) ==> r == Outcome([], NoAlert, false)
    ensures FormValid(f, now) ==> 1 <= |r.requests| <= 3 && r.requests[0] == UploadImages(f.imgPath)
    ensures r.reset <==> r.alert == Created
    ensures r.reset <==> FormValid(f, now) && upload.Ok? && product.Ok? && auction.Ok?
    ensures |r.requests| >= 2 ==> upload.Ok? && r.requests[1] == CreateProduct(BuildProductPayload(f, upload.value))
    ensures |r.requests| == 3 ==> product.Ok? && r.requests[2] == CreateAuction(BuildAuctionPayload(f, product.value, seller))
    ensures FormValid(f, now) && !r.reset ==> r.alert == CreationFailed
  {
    if !FormValid(f, now) then Outcome([], NoAlert, false)
    else
      var up := UploadImages(f.imgPath);
      if upload.Failed? then Outcome([up], CreationFailed, false)
      else
        var cp := CreateProduct(BuildProductPayload(f, upload.value));
        if product.Failed? then Outcome([up, cp], CreationFailed, false)
        else
          var ca := CreateAuction(BuildAuctionPayload(f, product.value, seller));
          if auction.Failed? then Outcome([up, cp, ca], CreationFailed, false)
          else Outcome([up, cp, ca], Created, true)
  }

  /** A failed step sends nothing after it. */
  lemma FailureStopsPipeline(f: Form, now: int, seller: Option<User>,
                             upload: Net<seq<string>>, product: Net<string>, auction: Net<()>)
    requires FormValid(f, now)
    ensures upload.Failed? ==> |Submit(f, now, seller, upload, product, auction).requests| == 1
    ensures upload.Ok? && product.Failed? ==> |Submit(f, now, seller, upload, product, auction).requests| == 2
    ensures upload.Ok? && product.Ok? ==> |Submit(f, now, seller, upload, product, auction).requests| == 3
  {
  }

  /** A submitted form names an auction with non-negative prices, at least
      one image, and dates with now < start < end. */
  lemma SubmittedFormIsSane(f: Form, now: int)
    requires FormValid(f, now)
    ensures f.startPrice >= 0 && f.buyOutPrice >= 0 && |f.imgPath| >= 1
    ensures now < f.startAuctionDate.value < f.endAuctionDate.value
  {
    BothAcceptOrdersDates(f.startAuctionDate.value, f.endAuctionDate.value, now);
  }
}
