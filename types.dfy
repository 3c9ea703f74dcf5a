/** The records of the storefront. Prices and margins are whole rupees. An optional
    property (`password?`, `margin?`) is an Option; None stands for the key being absent. */
module Types {
  import opened Optional

  datatype Product = Product(id: int, name: string, description: string, price: int, imageUrls: seq<string>)

  /** A product as the listing form hands it over, before the store gives it an id. */
  datatype ProductData = ProductData(name: string, description: string, price: int, imageUrls: seq<string>)

  /** A stored account. `username` is optional here because records written by older versions
      of the app may lack it; the load-time migration fills it in from `phone`. */
  datatype UserProfile = UserProfile(
    name: string,
    username: Option<string>,
    phone: string,
    profilePic: string,
    upiId: string,
    password: Option<string>)

  datatype SavedAccount = SavedAccount(id: int, name: string, phone: string, upiId: string)

  datatype Address = Address(
    name: string,
    phone: string,
    houseNo: string,
    area: string,
    city: string,
    pinCode: string,
    state: string)

  datatype OrderType = Buy | Resell

  datatype Order = Order(
    id: int,
    product: Product,
    finalPrice: int,
    orderDate: string,
    shippingAddress: Address,
    orderType: OrderType,
    margin: Option<int>)

  /** What the checkout dialog asks the store to record. */
  datatype OrderRequest = OrderRequest(
    product: Product,
    finalPrice: int,
    address: Address,
    orderType: OrderType,
    margin: Option<int>)
}
