/** The product list: the farmer's own products or the products a retailer
    can buy, the add/edit/delete/sold-out/purchase handlers, and the
    purchase validator. Dialog answers and replies are inputs. */
module ProductList {
  import opened Wrappers
  import opened Chars
  import opened Json
  import opened JsNumber
  import opened Records

  const FetchFailed := "Failed to fetch products."
  const AddFailed := "Failed to add product."
  const UpdateFailed := "Failed to update product."
  const DeleteFailed := "Failed to delete product."
  const SoldOutFailed := "Failed to mark product as sold out."
  const PurchaseFailed := "Failed to complete purchase."

  const Added := "Product added successfully!"
  const Updated := "Product updated successfully!"
  const Deleted := "Product deleted successfully!"
  const MarkedSoldOut := "Product marked as sold out!"
  const Purchased := "Purchase successful!"

  const InvalidQuantityAlert := "Please enter a valid positive number for quantity."
  const InsufficientStockAlert := "Insufficient stock."
  const PaymentRequiredAlert := "Payment type is required."
  const PurchaseErrorAlert := "An error occurred during purchase."

  const EmptyForm := ProductForm("", "", "", "")

  // ---------------------------------------------------------------------------
  // Pure rules

  /** The request `fetchProducts` sends: the farmer's own products in farmer
      mode when the user has an id, otherwise the available products when the
      user has an aadhar number, otherwise none. */
  function FetchRequest(forFarmer: bool, user: Json): (r: Option<Request>)
    ensures forFarmer && HasField(user, "id") ==> r == Some(ListFarmerProducts(Get(user, "id")))
    ensures !(forFarmer && HasField(user, "id")) && HasField(user, "aadhar") ==>
      r == Some(ListAvailableProducts(Get(user, "aadhar")))
    ensures r.None? <==> !(forFarmer && HasField(user, "id")) && !HasField(user, "aadhar")
  {
    if forFarmer && HasField(user, "id") then Some(ListFarmerProducts(Get(user, "id")))
    else if HasField(user, "aadhar") then Some(ListAvailableProducts(Get(user, "aadhar")))
    else None
  }

  function AsSeq(r: Option<Request>): (s: seq<Request>)
    ensures r.None? ==> s == []
    ensures r.Some? ==> s == [r.value]
  {
    if r.Some? then [r.value] else []
  }

  datatype QuantityCheck = InvalidQuantity | InsufficientStock | QuantityOk(quantity: Option<int>)

  /** The checks on the quantity answer, in order. The answer is rejected
      when the dialog was cancelled, when `Number()` reads it as NaN, or when
      parseInt reads an integer that is not positive; then when the integer
      read exceeds the stock. NaN compares false, so an answer parseInt cannot
      read but `Number()` can (the empty answer) passes with no quantity. */
  function CheckQuantity(answer: Option<string>, available: int): (r: QuantityCheck)
    ensures answer.None? ==> r == InvalidQuantity
    ensures answer.Some? && IsNaN(answer.value) ==> r == InvalidQuantity
    ensures r.QuantityOk? ==> answer.Some? && !IsNaN(answer.value) && r.quantity == ParseInt(answer.value)
    ensures r.QuantityOk? && r.quantity.Some? ==> 1 <= r.quantity.value <= available
    ensures r == InsufficientStock <==>
      answer.Some? && !IsNaN(answer.value) && ParseInt(answer.value).Some? &&
      ParseInt(answer.value).value > 0 && ParseInt(answer.value).value > available
    ensures (answer.Some? && !IsNaN(answer.value) &&
             (ParseInt(answer.value).None? || 1 <= ParseInt(answer.value).value <= available)) ==>
      r == QuantityOk(ParseInt(answer.value))
  {
    if answer.None? || IsNaN(answer.value) then InvalidQuantity
    else
      var q := ParseInt(answer.value);
      if q.Some? && q.value <= 0 then InvalidQuantity
      else if q.Some? && q.value > available then InsufficientStock
      else QuantityOk(q)
  }

  /** Every whole number from 1 to the stock, typed in decimal, is accepted as itself. */
  lemma AcceptsUpToStock(n: int, available: int)
    requires 1 <= n <= available
    ensures CheckQuantity(Some(IntToString(n)), available) == QuantityOk(Some(n))
  {
    ParseIntOfDecimal(n);
    DecimalIsNumeric(n);
  }

  /** A positive number above the stock is refused as insufficient stock. */
  lemma RefusesAboveStock(n: int, available: int)
    requires n >= 1 && n > available
    ensures CheckQuantity(Some(IntToString(n)), available) == InsufficientStock
  {
    ParseIntOfDecimal(n);
    DecimalIsNumeric(n);
  }

  /** Zero and negative numbers are refused as invalid, whatever the stock. */
  lemma RefusesNonPositive(n: int, available: int)
    requires n <= 0
    ensures CheckQuantity(Some(IntToString(n)), available) == InvalidQuantity
  {
    ParseIntOfDecimal(n);
  }

  /** An answer of white space only, the empty one included, passes both
      checks and goes on with no quantity, whatever the stock. */
  lemma BlankAnswerPasses(w: string, available: int)
    requires forall i :: 0 <= i < |w| ==> IsStrWhiteSpace(w[i])
    ensures CheckQuantity(Some(w), available) == QuantityOk(None)
  {
    WhiteSpaceIsNumeric(w);
  }

  /** So does an answer that is a point followed by digits, such as ".5". */
  lemma FractionAnswerPasses(ds: string, available: int)
    requires ds != [] && AllInRadix(ds, 10)
    ensures CheckQuantity(Some("." + ds), available) == QuantityOk(None)
  {
    PointFractionIsNumeric(ds);
  }

  /** The empty answer, the case the prompt returns when OK is pressed on an empty field. */
  lemma EmptyAnswerPasses(available: int)
    ensures CheckQuantity(Some(""), available) == QuantityOk(None)
  {
    BlankAnswerPasses("", available);
  }

  /** A payment answer is accepted when it is truthy: a cancelled dialog
      and an empty answer are refused, any other text is taken. */
  predicate PaymentGiven(answer: Option<string>)
    ensures answer.None? ==> !PaymentGiven(answer)
    ensures answer == Some("") ==> !PaymentGiven(answer)
    ensures answer.Some? && |answer.value| > 0 ==> PaymentGiven(answer)
  {
    answer.Some? && answer.value != ""
  }

  /** The alert after a failed purchase request: the backend's error message when it is truthy. */
  function PurchaseAlert(message: Option<string>): (a: string)
    ensures a != ""
    ensures message.Some? && message.value != "" ==> a == message.value
    ensures message.None? || message.value == "" ==> a == PurchaseErrorAlert
  {
    if message.Some? && message.value != "" then message.value else PurchaseErrorAlert
  }

  datatype Action = EditButton | DeleteButton | SoldOutButton | BuyButton

  /** The buttons on a product's row: Edit and Delete for the farmer, with
      Mark Sold Out only while the product is in stock with a positive
      quantity; Buy for the retailer. */
  function RowActions(forFarmer: bool, p: Product): (r: seq<Action>)
    ensures SoldOutButton in r <==> forFarmer && p.inStock && p.quantity > 0
    ensures BuyButton in r <==> !forFarmer
    ensures EditButton in r <==> forFarmer
    ensures DeleteButton in r <==> forFarmer
    ensures forFarmer ==> r[..2] == [EditButton, DeleteButton]
    ensures !forFarmer ==> r == [BuyButton]
  {
    if forFarmer then [EditButton, DeleteButton] + (if p.inStock && p.quantity > 0 then [SoldOutButton] else [])
    else [BuyButton]
  }

  /** The name shown for a product: `name`, or `product_name` when `name` is empty. */
  function DisplayName(p: Product): (s: string)
    ensures p.name != "" ==> s == p.name
    ensures p.name == "" ==> s == p.productName
  {
    if p.name != "" then p.name else p.productName
  }

  datatype Row = Row(name: string, product: Product, actions: seq<Action>)
  datatype Body = NoProducts | Table(rows: seq<Row>)
  datatype Screen =
    | LoadingScreen
    | ErrorScreen(message: string)
    | ListScreen(canAdd: bool, banner: Option<string>, body: Body, addForm: Option<ProductForm>, editForm: Option<Product>)

  function Rows(forFarmer: bool, ps: seq<Product>): (rows: seq<Row>)
    ensures |rows| == |ps|
    ensures forall i :: 0 <= i < |ps| ==>
      rows[i] == Row(DisplayName(ps[i]), ps[i], RowActions(forFarmer, ps[i]))
  {
    seq(|ps|, i requires 0 <= i < |ps| => Row(DisplayName(ps[i]), ps[i], RowActions(forFarmer, ps[i])))
  }

  // ---------------------------------------------------------------------------
  // The view

  class ProductListView {
    const forFarmer: bool
    var products: seq<Product>
    var loading: bool
    var error: Option<string>
    var showAddProductModal: bool
    var newProduct: ProductForm
    var editingProduct: Option<Product>
    var showSuccess: bool
    var successMessage: string

    constructor (forFarmer: bool)
      ensures this.forFarmer == forFarmer
      ensures products == [] && loading && error == None && !showAddProductModal
      ensures newProduct == EmptyForm && editingProduct == None && !showSuccess && successMessage == ""
    {
      this.forFarmer := forFarmer;
      products := [];
      loading := true;
      error := None;
      showAddProductModal := false;
      newProduct := EmptyForm;
      editingProduct := None;
      showSuccess := false;
      successMessage := "";
    }

    /** What the view shows: the loading text while loading, then a truthy
        error, then the list (or "No products found.") with the success
        banner and whichever form is open. */
    function Render(): (s: Screen)
      reads this
      ensures loading <==> s == LoadingScreen
      ensures s.ErrorScreen? <==> !loading && error.Some? && error.value != ""
      ensures s.ErrorScreen? ==> s.message == error.value
      ensures s.ListScreen? ==> (s.body == NoProducts <==> products == [])
      ensures s.ListScreen? && s.body.Table? ==> s.body.rows == Rows(forFarmer, products)
      ensures s.ListScreen? ==> s.canAdd == forFarmer && (s.banner.Some? <==> showSuccess)
    {
      if loading then LoadingScreen
      else if error.Some? && error.value != "" then ErrorScreen(error.value)
      else
        ListScreen(forFarmer,
                   if showSuccess then Some(successMessage) else None,
                   if products == [] then NoProducts else Table(Rows(forFarmer, products)),
                   if showAddProductModal then Some(newProduct) else None,
                   editingProduct)
    }

    twostate predicate FormsKept()
      reads this
    {
      showAddProductModal == old(showAddProductModal) && newProduct == old(newProduct) &&
      editingProduct == old(editingProduct)
    }

    twostate predicate BannerKept()
      reads this
    {
      showSuccess == old(showSuccess) && successMessage == old(successMessage)
    }

    /** The effect of starting `fetchProducts` for `user`. */
    twostate predicate FetchStarted(user: Json)
      reads this
    {
      error == None &&
      (FetchRequest(forFarmer, user).Some? ==> loading && products == old(products)) &&
      (FetchRequest(forFarmer, user).None? ==> !loading && products == [])
    }

    /** A handler that failed: its error is set and the list is kept. */
    twostate predicate FailedWith(message: string)
      reads this
    {
      error == Some(message) && products == old(products) && loading == old(loading) &&
      FormsKept() && BannerKept()
    }

    /** `fetchProducts` up to its request: loading starts and the error is
        cleared; with no request to send the list becomes empty and loading
        ends at once. */
    method StartFetch(user: Json) returns (sent: Option<Request>)
      modifies this
      ensures sent == FetchRequest(forFarmer, user)
      ensures FetchStarted(user) && FormsKept() && BannerKept()
    {
      loading := true;
      error := None;
      sent := FetchRequest(forFarmer, user);
      if sent.None? {
        products := [];
        loading := false;
      }
    }

    /** The rest of `fetchProducts`, when the reply arrives: the list is
        replaced on success, kept with an error on failure, and loading ends
        either way. */
    method FinishFetch(reply: Reply<seq<Product>>)
      modifies this
      ensures !loading
      ensures reply.Ok? ==> products == reply.data && error == old(error)
      ensures reply.Failed? ==> products == old(products) && error == Some(FetchFailed)
      ensures FormsKept() && BannerKept()
    {
      match reply {
        case Ok(data) => products := data;
        case Failed(_) => error := Some(FetchFailed);
      }
      loading := false;
    }

    method OpenAddProduct()
      modifies this
      ensures showAddProductModal && newProduct == old(newProduct) && editingProduct == old(editingProduct)
      ensures products == old(products) && loading == old(loading) && error == old(error) && BannerKept()
    {
      showAddProductModal := true;
    }

    method CancelAddProduct()
      modifies this
      ensures !showAddProductModal && newProduct == old(newProduct) && editingProduct == old(editingProduct)
      ensures products == old(products) && loading == old(loading) && error == old(error) && BannerKept()
    {
      showAddProductModal := false;
    }

    /** The Edit button: the product's row is copied into the edit form. */
    method StartEdit(p: Product)
      modifies this
      ensures editingProduct == Some(p) && showAddProductModal == old(showAddProductModal)
      ensures newProduct == old(newProduct)
      ensures products == old(products) && loading == old(loading) && error == old(error) && BannerKept()
    {
      editingProduct := Some(p);
    }

    method CancelEdit()
      modifies this
      ensures editingProduct == None && showAddProductModal == old(showAddProductModal)
      ensures newProduct == old(newProduct)
      ensures products == old(products) && loading == old(loading) && error == old(error) && BannerKept()
    {
      editingProduct := None;
    }

    /** Submitting the add form: the form is posted for the user's id; on
        success the banner is set, the modal closes, the form is reset and the
        list is fetched again. Reading the id of a null user throws before
        anything is sent. */
    method SubmitNewProduct(user: Json, reply: Reply<()>) returns (sent: seq<Request>)
      modifies this
      ensures Throws(user) ==> sent == [] && FailedWith(AddFailed)
      ensures !Throws(user) && reply.Failed? ==>
        sent == [AddProduct(Get(user, "id"), old(newProduct))] && FailedWith(AddFailed)
      ensures !Throws(user) && reply.Ok? ==>
        sent == [AddProduct(Get(user, "id"), old(newProduct))] + AsSeq(FetchRequest(forFarmer, user)) &&
        successMessage == Added && showSuccess && !showAddProductModal && newProduct == EmptyForm &&
        editingProduct == old(editingProduct) && FetchStarted(user)
    {
      error := None;
      if Throws(user) {
        error := Some(AddFailed);
        return [];
      }
      sent := [AddProduct(Get(user, "id"), newProduct)];
      if reply.Failed? {
        error := Some(AddFailed);
        return;
      }
      successMessage := Added;
      showSuccess := true;
      showAddProductModal := false;
      newProduct := EmptyForm;
      var refresh := StartFetch(user);
      sent := sent + AsSeq(refresh);
    }

    /** Submitting the edit form: the edited product is patched; on success
        the banner is set, the form closes and the list is fetched again. */
    method SubmitUpdate(user: Json, reply: Reply<()>) returns (sent: seq<Request>)
      requires editingProduct.Some?
      modifies this
      ensures Throws(user) ==> sent == [] && FailedWith(UpdateFailed)
      ensures !Throws(user) && reply.Failed? ==>
        sent == [UpdateProduct(Get(user, "id"), old(editingProduct).value.id, old(editingProduct).value)] &&
        FailedWith(UpdateFailed)
      ensures !Throws(user) && reply.Ok? ==>
        sent == [UpdateProduct(Get(user, "id"), old(editingProduct).value.id, old(editingProduct).value)] +
                AsSeq(FetchRequest(forFarmer, user)) &&
        successMessage == Updated && showSuccess && editingProduct == None &&
        showAddProductModal == old(showAddProductModal) && newProduct == old(newProduct) && FetchStarted(user)
    {
      error := None;
      if Throws(user) {
        error := Some(UpdateFailed);
        return [];
      }
      var p := editingProduct.value;
      sent := [UpdateProduct(Get(user, "id"), p.id, p)];
      if reply.Failed? {
        error := Some(UpdateFailed);
        return;
      }
      successMessage := Updated;
      showSuccess := true;
      editingProduct := None;
      var refresh := StartFetch(user);
      sent := sent + AsSeq(refresh);
    }

    /** The Delete button, after the confirmation dialog. */
    method DeleteProductAction(user: Json, productId: int, confirmed: bool, reply: Reply<()>)
        returns (sent: seq<Request>)
      modifies this
      ensures !confirmed ==> sent == [] && unchanged(this)
      ensures confirmed && Throws(user) ==> sent == [] && FailedWith(DeleteFailed)
      ensures confirmed && !Throws(user) && reply.Failed? ==>
        sent == [DeleteProduct(Get(user, "id"), productId)] && FailedWith(DeleteFailed)
      ensures confirmed && !Throws(user) && reply.Ok? ==>
        sent == [DeleteProduct(Get(user, "id"), productId)] + AsSeq(FetchRequest(forFarmer, user)) &&
        successMessage == Deleted && showSuccess && FormsKept() && FetchStarted(user)
    {
      sent := [];
      if !confirmed {
        return;
      }
      error := None;
      if Throws(user) {
        error := Some(DeleteFailed);
        return;
      }
      sent := [DeleteProduct(Get(user, "id"), productId)];
      if reply.Failed? {
        error := Some(DeleteFailed);
        return;
      }
      successMessage := Deleted;
      showSuccess := true;
      var refresh := StartFetch(user);
      sent := sent + AsSeq(refresh);
    }

    /** The Mark Sold Out button, after the confirmation dialog. */
    method MarkSoldOutAction(user: Json, productId: int, confirmed: bool, reply: Reply<()>)
        returns (sent: seq<Request>)
      modifies this
      ensures !confirmed ==> sent == [] && unchanged(this)
      ensures confirmed && Throws(user) ==> sent == [] && FailedWith(SoldOutFailed)
      ensures confirmed && !Throws(user) && reply.Failed? ==>
        sent == [MarkSoldOut(Get(user, "id"), productId)] && FailedWith(SoldOutFailed)
      ensures confirmed && !Throws(user) && reply.Ok? ==>
        sent == [MarkSoldOut(Get(user, "id"), productId)] + AsSeq(FetchRequest(forFarmer, user)) &&
        successMessage == MarkedSoldOut && showSuccess && FormsKept() && FetchStarted(user)
    {
      sent := [];
      if !confirmed {
        return;
      }
      error := None;
      if Throws(user) {
        error := Some(SoldOutFailed);
        return;
      }
      sent := [MarkSoldOut(Get(user, "id"), productId)];
      if reply.Failed? {
        error := Some(SoldOutFailed);
        return;
      }
      successMessage := MarkedSoldOut;
      showSuccess := true;
      var refresh := StartFetch(user);
      sent := sent + AsSeq(refresh);
    }

    /** The Buy button. The quantity answer is checked against the
        product's stock and then the payment answer; a refused answer raises
        an alert and changes nothing. Otherwise one purchase request is sent
        for the user's aadhar number with the quantity parseInt read. */
    method PurchaseAction(user: Json, product: Product, quantityAnswer: Option<string>,
                          paymentAnswer: Option<string>, reply: Reply<()>)
        returns (alert: Option<string>, sent: seq<Request>)
      modifies this
      ensures CheckQuantity(quantityAnswer, product.quantity) == InvalidQuantity ==>
        alert == Some(InvalidQuantityAlert) && sent == [] && unchanged(this)
      ensures CheckQuantity(quantityAnswer, product.quantity) == InsufficientStock ==>
        alert == Some(InsufficientStockAlert) && sent == [] && unchanged(this)
      ensures CheckQuantity(quantityAnswer, product.quantity).QuantityOk? && !PaymentGiven(paymentAnswer) ==>
        alert == Some(PaymentRequiredAlert) && sent == [] && unchanged(this)
      ensures CheckQuantity(quantityAnswer, product.quantity).QuantityOk? && PaymentGiven(paymentAnswer) ==>
        var q := CheckQuantity(quantityAnswer, product.quantity).quantity;
        var request := Purchase(product.id, Get(user, "aadhar"), q, paymentAnswer.value);
        (Throws(user) ==> sent == [] && alert == Some(PurchaseErrorAlert) && FailedWith(PurchaseFailed)) &&
        (!Throws(user) && reply.Failed? ==>
          sent == [request] && alert == Some(PurchaseAlert(reply.message)) && FailedWith(PurchaseFailed)) &&
        (!Throws(user) && reply.Ok? ==>
          sent == [request] + AsSeq(FetchRequest(forFarmer, user)) && alert == None &&
          successMessage == Purchased && showSuccess && FormsKept() && FetchStarted(user))
    {
      sent := [];
      var check := CheckQuantity(quantityAnswer, product.quantity);
      if check == InvalidQuantity {
        return Some(InvalidQuantityAlert), [];
      }
      if check == InsufficientStock {
        return Some(InsufficientStockAlert), [];
      }
      if !PaymentGiven(paymentAnswer) {
        return Some(PaymentRequiredAlert), [];
      }
      error := None;
      if Throws(user) {
        error := Some(PurchaseFailed);
        return Some(PurchaseErrorAlert), [];
      }
      sent := [Purchase(product.id, Get(user, "aadhar"), check.quantity, paymentAnswer.value)];
      if reply.Failed? {
        error := Some(PurchaseFailed);
        return Some(PurchaseAlert(reply.message)), sent;
      }
      successMessage := Purchased;
      showSuccess := true;
      alert := None;
      var refresh := StartFetch(user);
      sent := sent + AsSeq(refresh);
    }
  }

  // ---------------------------------------------------------------------------
  // Runs of the view

  /** A farmer whose product list comes back empty sees "No products found.", not an error. */
  method EmptyListShowsNoProducts(user: Json) returns (v: ProductListView, sent: Option<Request>)
    requires HasField(user, "id")
    ensures fresh(v) && sent == Some(ListFarmerProducts(Get(user, "id")))
    ensures v.Render() == ListScreen(true, None, NoProducts, None, None)
  {
    v := new ProductListView(true);
    sent := v.StartFetch(user);
    v.FinishFetch(Ok([]));
  }

  /** A failed fetch shows its error and keeps the list it had. */
  method FailedRefreshKeepsList(v: ProductListView, user: Json, message: Option<string>)
      returns (sent: Option<Request>)
    requires FetchRequest(v.forFarmer, user).Some?
    modifies v
    ensures v.products == old(v.products)
    ensures v.Render() == ErrorScreen(FetchFailed)
  {
    sent := v.StartFetch(user);
    v.FinishFetch(Failed(message));
  }

  /** Buying the whole stock is accepted: exactly one purchase request for
      that quantity is sent, followed by the refresh. */
  method BuyWholeStock(v: ProductListView, user: Json, p: Product, payment: string)
      returns (alert: Option<string>, sent: seq<Request>)
    requires !Throws(user) && p.quantity >= 1 && payment != ""
    modifies v
    ensures alert == None && |sent| >= 1
    ensures sent[0] == Purchase(p.id, Get(user, "aadhar"), Some(p.quantity), payment)
    ensures v.showSuccess && v.successMessage == Purchased
  {
    AcceptsUpToStock(p.quantity, p.quantity);
    alert, sent := v.PurchaseAction(user, p, Some(IntToString(p.quantity)), Some(payment), Ok(()));
  }
}
