/** The records the client receives from the API and keeps in page state. */
module Entities {
  import opened Wrappers
  import opened AuctionStatus

  /** A product (`IProduct`). Prices and counts are whole numbers here. */
  datatype Product = Product(
    id: string,
    name: string,
    price: int,
    productType: string,
    subType: string,
    brand: string,
    isWireless: bool,
    isRGB: bool,
    imgPath: Option<seq<string>>,
    stock: int,
    rating: Option<int>,
    description: Option<string>,
    totalOrder: Option<int>)

  /** The product an auction sells, as the auction list shows it. */
  datatype AuctionProduct = AuctionProduct(name: string, imgPath: seq<string>)

  /** An auction, with the fields the client reads. Dates are timestamps. */
  datatype Auction = Auction(
    id: int,
    startPrice: int,
    buyOutPrice: int,
    startAuctionDate: int,
    endAuctionDate: int,
    auctionStatus: Status,
    product: AuctionProduct)

  /** A user account (`IUser`). */
  datatype User = User(
    id: string,
    username: string,
    email: string,
    imgPath: string,
    coins: int,
    createdAt: string,
    role: string,
    address: string,
    phone: string,
    bank: string,
    accountNumber: string,
    accountName: string)

  /** A file chosen in a file input; only its identity matters here. */
  datatype File = File(name: string)

  /** The product form (`IProductFormData`): the radio buttons hold the
      strings "true"/"false"; an empty file list means no new file. */
  datatype ProductForm = ProductForm(
    name: string,
    price: int,
    productType: string,
    subType: string,
    brand: string,
    isWireless: string,
    isRGB: string,
    imgPath: seq<File>,
    stock: int,
    description: Option<string>)

  function ProductId(p: Product): string { p.id }
  function AuctionId(a: Auction): int { a.id }
  function UserId(u: User): string { u.id }
}
