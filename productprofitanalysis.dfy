/** The farmer's profit table for one product, picked by category and then by name. */
module ProductProfitAnalysis {
  import opened Wrappers
  import opened Json
  import opened Records
  import opened Categories

  const SelectBoth := "Please select a category and a product."
  const AnalysisFailed := "Failed to fetch profit analysis."

  datatype Mark = Profit | Loss

  /** A row is shown as a profit when its profit or loss is zero or more. */
  function MarkOf(row: ProfitRow): (m: Mark)
    ensures m == Profit <==> row.profitOrLoss >= 0
  {
    if row.profitOrLoss >= 0 then Profit else Loss
  }

  datatype TableRow = TableRow(row: ProfitRow, mark: Mark)

  function Table(rows: seq<ProfitRow>): (t: seq<TableRow>)
    ensures |t| == |rows| && forall i :: 0 <= i < |rows| ==> t[i] == TableRow(rows[i], MarkOf(rows[i]))
  {
    seq(|rows|, i requires 0 <= i < |rows| => TableRow(rows[i], MarkOf(rows[i])))
  }

  datatype Screen = Screen(
    categoryOptions: seq<string>,
    productOptions: seq<string>,
    productPickerEnabled: bool,
    analyzeEnabled: bool,
    error: Option<string>,
    table: Option<seq<TableRow>>)

  class ProductProfitAnalysisView {
    var analysis: seq<ProfitRow>
    var loading: bool
    var error: Option<string>
    var categories: seq<string>
    var products: seq<Product>
    var selectedCategory: string
    var selectedProduct: string

    constructor ()
      ensures analysis == [] && !loading && error == None
      ensures categories == [] && products == [] && selectedCategory == "" && selectedProduct == ""
    {
      analysis := [];
      loading := false;
      error := None;
      categories := [];
      products := [];
      selectedCategory := "";
      selectedProduct := "";
    }

    /** The products effect: for a user with an id, the farmer's products and
        their distinct categories are loaded; a failure is swallowed. */
    method LoadProducts(user: Json, reply: Reply<seq<Product>>) returns (sent: Option<Request>)
      modifies this
      ensures !HasField(user, "id") ==> sent == None && unchanged(this)
      ensures HasField(user, "id") ==> sent == Some(ListFarmerProducts(Get(user, "id")))
      ensures HasField(user, "id") && reply.Ok? ==>
        products == reply.data && categories == ProductCategories(reply.data)
      ensures HasField(user, "id") && reply.Failed? ==> unchanged(this)
      ensures analysis == old(analysis) && loading == old(loading) && error == old(error)
      ensures selectedCategory == old(selectedCategory) && selectedProduct == old(selectedProduct)
    {
      sent := None;
      if HasField(user, "id") {
        sent := Some(ListFarmerProducts(Get(user, "id")));
        if reply.Ok? {
          categories := ProductCategories(reply.data);
          products := reply.data;
        }
      }
    }

    /** Picking a category clears the product picked. */
    method SelectCategory(c: string)
      modifies this
      ensures selectedCategory == c && selectedProduct == ""
      ensures analysis == old(analysis) && loading == old(loading) && error == old(error)
      ensures categories == old(categories) && products == old(products)
    {
      selectedCategory := c;
      selectedProduct := "";
    }

    method SelectProduct(name: string)
      modifies this
      ensures selectedProduct == name && selectedCategory == old(selectedCategory)
      ensures analysis == old(analysis) && loading == old(loading) && error == old(error)
      ensures categories == old(categories) && products == old(products)
    {
      selectedProduct := name;
    }

    /** `handleAnalysis` up to its request. Without both picks the error is
        set and nothing is sent. Otherwise loading starts and the error
        clears; reading the id of a null user throws, which ends in the
        failure message with loading over. */
    method StartAnalysis(user: Json) returns (sent: Option<Request>)
      modifies this
      ensures selectedCategory == "" || selectedProduct == "" ==>
        sent == None && error == Some(SelectBoth) && loading == old(loading) && analysis == old(analysis)
      ensures selectedCategory != "" && selectedProduct != "" && Throws(user) ==>
        sent == None && error == Some(AnalysisFailed) && !loading && analysis == old(analysis)
      ensures selectedCategory != "" && selectedProduct != "" && !Throws(user) ==>
        sent == Some(ProfitAnalysis(Get(user, "id"), selectedCategory, selectedProduct)) &&
        error == None && loading && analysis == old(analysis)
      ensures categories == old(categories) && products == old(products)
      ensures selectedCategory == old(selectedCategory) && selectedProduct == old(selectedProduct)
    {
      if selectedCategory == "" || selectedProduct == "" {
        error := Some(SelectBoth);
        return None;
      }
      loading := true;
      error := None;
      if Throws(user) {
        error := Some(AnalysisFailed);
        loading := false;
        return None;
      }
      sent := Some(ProfitAnalysis(Get(user, "id"), selectedCategory, selectedProduct));
    }

    /** The rest of `handleAnalysis`: the reply becomes the analysis as it
        is, a failure sets the error and keeps the analysis, and loading ends. */
    method FinishAnalysis(reply: Reply<seq<ProfitRow>>)
      modifies this
      ensures !loading
      ensures reply.Ok? ==> analysis == reply.data && error == old(error)
      ensures reply.Failed? ==> analysis == old(analysis) && error == Some(AnalysisFailed)
      ensures categories == old(categories) && products == old(products)
      ensures selectedCategory == old(selectedCategory) && selectedProduct == old(selectedProduct)
    {
      match reply {
        case Ok(rows) => analysis := rows;
        case Failed(_) => error := Some(AnalysisFailed);
      }
      loading := false;
    }

    /** The pickers, the button (disabled while loading), a truthy error,
        and the table exactly when the analysis has rows. */
    function Render(): (s: Screen)
      reads this
      ensures s.categoryOptions == categories
      ensures s.productOptions == ProductNames(FilteredProducts(products, selectedCategory))
      ensures s.productPickerEnabled <==> selectedCategory != ""
      ensures s.analyzeEnabled <==> !loading
      ensures s.error.Some? <==> error.Some? && error.value != ""
      ensures s.error.Some? ==> s.error.value == error.value
      ensures s.table.Some? <==> analysis != []
      ensures s.table.Some? ==> s.table.value == Table(analysis)
    {
      Screen(categories, ProductNames(FilteredProducts(products, selectedCategory)), selectedCategory != "",
             !loading, if error.Some? && error.value != "" then error else None,
             if |analysis| > 0 then Some(Table(analysis)) else None)
    }
  }

  /** An analysis that succeeds shows the reply's rows, clears an earlier error, and ends loading. */
  method AnalyseAndShow(v: ProductProfitAnalysisView, user: Json, rows: seq<ProfitRow>) returns (s: Screen)
    requires v.selectedCategory != "" && v.selectedProduct != "" && !Throws(user)
    modifies v
    ensures s.error == None && s.analyzeEnabled
    ensures rows != [] ==> s.table == Some(Table(rows))
    ensures rows == [] ==> s.table == None
  {
    var sent := v.StartAnalysis(user);
    v.FinishAnalysis(Ok(rows));
    s := v.Render();
  }
}
