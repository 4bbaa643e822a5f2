/** The backend's rows and requests as the views see them, and the outcome
    of one request. Amounts of money are whole integers (paise). */
module Records {
  import opened Wrappers
  import opened Json

  /** A row of `/farmers/{id}/products` or `/retailer/{aadhar}/available-products`. */
  datatype Product = Product(
    id: int,
    name: string,
    productName: string,
    category: string,
    price: int,
    quantity: int,
    inStock: bool,
    farmerName: string)

  /** The add-product form: the four text inputs, sent as they are typed. */
  datatype ProductForm = ProductForm(name: string, category: string, price: string, quantity: string)

  /** A row of `/farmers/{id}/product-profit-analysis`. */
  datatype ProfitRow = ProfitRow(
    productName: string,
    marketRatePerUnit: int,
    soldPricePerUnit: int,
    quantitySold: int,
    profitOrLoss: int,
    transactionDate: string)

  /** A row of `/retailers/{aadhar}/purchase-analysis`. */
  datatype PurchaseRow = PurchaseRow(
    productName: string,
    category: string,
    totalPurchaseAmount: int,
    marketPricePerUnit: int,
    purchasePricePerUnit: int)

  /** The outcome of one request: the response body, or a failure carrying
      the message field of the error body when there is one. */
  datatype Reply<T> = Ok(data: T) | Failed(message: Option<string>)

  /** The sign-in form: mobile number and password. */
  datatype Credentials = Credentials(mobileNumber: string, password: string)

  /** The requests the views send. A path segment taken from the session
      user is the property read, None when the record lacks it. */
  datatype Request =
    | LoginFarmer(credentials: Credentials)
    | LoginRetailer(credentials: Credentials)
    | ListFarmerProducts(farmerId: Option<Json>)
    | ListAvailableProducts(aadhar: Option<Json>)
    | AddProduct(farmerId: Option<Json>, form: ProductForm)
    | UpdateProduct(farmerId: Option<Json>, productId: int, product: Product)
    | DeleteProduct(farmerId: Option<Json>, productId: int)
    | MarkSoldOut(farmerId: Option<Json>, productId: int)
    | Purchase(productId: int, retailerId: Option<Json>, quantity: Option<int>, paymentType: string)
    | ProfitAnalysis(farmerId: Option<Json>, category: string, productName: string)
    | PurchaseAnalysis(aadhar: Option<Json>)

  /** The two roles the backend issues. */
  const FarmerRole := "farmer"
  const RetailerRole := "retailer"

  /** `user && user.key` is truthy. */
  predicate HasField(user: Json, key: string)
    ensures HasField(user, key) ==> user.JObject? && Get(user, key).Some?
    ensures user.JNull? ==> !HasField(user, key)
  {
    Truthy(user) && Present(Get(user, key))
  }

  /** Reading `user.key` throws a TypeError exactly when `user` is null. */
  predicate Throws(user: Json)
    ensures Throws(user) ==> !Truthy(user)
  {
    user.JNull?
  }
}
