/** The farmer's bar chart of market rate against sold price per unit for
    one product, picked by category and then by name. */
module FarmerMarketPriceGraph {
  import opened Wrappers
  import opened Json
  import opened Records
  import opened Categories
  import opened Charts

  const SelectBoth := "Please select both a category and a product."
  const GraphFailed := "Failed to fetch profit analysis for graph."
  const MarketSeries := "Market Price per Unit"
  const SoldSeries := "Sold Price per Unit"

  /** The chart of some sales: labelled by transaction date, with the
      market rate and the sold price of the same sale at the same index. */
  function ProfitChart(rows: seq<ProfitRow>): (c: Chart)
    ensures Aligned(c) && |c.labels| == |rows| && |c.series| == 2
    ensures c.series[0].name == MarketSeries && c.series[1].name == SoldSeries
    ensures forall i :: 0 <= i < |rows| ==>
      c.labels[i] == rows[i].transactionDate &&
      c.series[0].data[i] == rows[i].marketRatePerUnit &&
      c.series[1].data[i] == rows[i].soldPricePerUnit
  {
    Chart(seq(|rows|, i requires 0 <= i < |rows| => rows[i].transactionDate),
          [Series(MarketSeries, seq(|rows|, i requires 0 <= i < |rows| => rows[i].marketRatePerUnit)),
           Series(SoldSeries, seq(|rows|, i requires 0 <= i < |rows| => rows[i].soldPricePerUnit))])
  }

  datatype Screen = Screen(
    categoryOptions: seq<string>,
    productOptions: seq<string>,
    productPickerEnabled: bool,
    generateEnabled: bool,
    error: Option<string>,
    chart: Option<Chart>)

  class FarmerMarketPriceGraphView {
    var chartData: Option<Chart>
    var loading: bool
    var error: Option<string>
    var categories: seq<string>
    var products: seq<Product>
    var selectedCategory: string
    var selectedProduct: string

    constructor ()
      ensures chartData == None && !loading && error == None
      ensures categories == [] && products == [] && selectedCategory == "" && selectedProduct == ""
    {
      chartData := None;
      loading := false;
      error := None;
      categories := [];
      products := [];
      selectedCategory := "";
      selectedProduct := "";
    }

    /** The products effect: for a user with an id, the farmer's products and
        their distinct categories are loaded; a failure is swallowed. */
    method LoadProducts(user: Json, reply: Reply<seq<Product>>) returns (sent: Option<Request>)
      modifies this
      ensures !HasField(user, "id") ==> sent == None && unchanged(this)
      ensures HasField(user, "id") ==> sent == Some(ListFarmerProducts(Get(user, "id")))
      ensures HasField(user, "id") && reply.Ok? ==>
        products == reply.data && categories == ProductCategories(reply.data)
      ensures HasField(user, "id") && reply.Failed? ==> unchanged(this)
      ensures chartData == old(chartData) && loading == old(loading) && error == old(error)
      ensures selectedCategory == old(selectedCategory) && selectedProduct == old(selectedProduct)
    {
      sent := None;
      if HasField(user, "id") {
        sent := Some(ListFarmerProducts(Get(user, "id")));
        if reply.Ok? {
          categories := ProductCategories(reply.data);
          products := reply.data;
        }
      }
    }

    /** Picking a category clears the product picked. */
    method SelectCategory(c: string)
      modifies this
      ensures selectedCategory == c && selectedProduct == ""
      ensures chartData == old(chartData) && loading == old(loading) && error == old(error)
      ensures categories == old(categories) && products == old(products)
    {
      selectedCategory := c;
      selectedProduct := "";
    }

    method SelectProduct(name: string)
      modifies this
      ensures selectedProduct == name && selectedCategory == old(selectedCategory)
      ensures chartData == old(chartData) && loading == old(loading) && error == old(error)
      ensures categories == old(categories) && products == old(products)
    {
      selectedProduct := name;
    }

    function Filtered(): seq<Product>
      reads this
    {
      FilteredProducts(products, selectedCategory)
    }

    /** `handleGenerateGraph` up to its request. Without both picks the
        error is set and nothing else happens. Otherwise loading starts and
        the error clears; reading the id of a null user throws, which ends in
        the failure message with loading over. */
    method StartGenerate(user: Json) returns (sent: Option<Request>)
      modifies this
      ensures selectedCategory == "" || selectedProduct == "" ==>
        sent == None && error == Some(SelectBoth) && loading == old(loading) && chartData == old(chartData)
      ensures selectedCategory != "" && selectedProduct != "" && Throws(user) ==>
        sent == None && error == Some(GraphFailed) && !loading && chartData == old(chartData)
      ensures selectedCategory != "" && selectedProduct != "" && !Throws(user) ==>
        sent == Some(ProfitAnalysis(Get(user, "id"), selectedCategory, selectedProduct)) &&
        error == None && loading && chartData == old(chartData)
      ensures categories == old(categories) && products == old(products)
      ensures selectedCategory == old(selectedCategory) && selectedProduct == old(selectedProduct)
    {
      if selectedCategory == "" || selectedProduct == "" {
        error := Some(SelectBoth);
        return None;
      }
      loading := true;
      error := None;
      if Throws(user) {
        error := Some(GraphFailed);
        loading := false;
        return None;
      }
      sent := Some(ProfitAnalysis(Get(user, "id"), selectedCategory, selectedProduct));
    }

    /** The rest of `handleGenerateGraph`: a non-empty reply is charted, an
        empty one clears the chart, a failure sets the error and keeps the
        chart, and loading ends. */
    method FinishGenerate(reply: Reply<seq<ProfitRow>>)
      modifies this
      ensures !loading
      ensures reply.Ok? && reply.data != [] ==> chartData == Some(ProfitChart(reply.data)) && error == old(error)
      ensures reply.Ok? && reply.data == [] ==> chartData == None && error == old(error)
      ensures reply.Failed? ==> chartData == old(chartData) && error == Some(GraphFailed)
      ensures categories == old(categories) && products == old(products)
      ensures selectedCategory == old(selectedCategory) && selectedProduct == old(selectedProduct)
    {
      match reply {
        case Ok(rows) =>
          if |rows| > 0 {
            chartData := Some(ProfitChart(rows));
          } else {
            chartData := None;
          }
        case Failed(_) =>
          error := Some(GraphFailed);
      }
      loading := false;
    }

    /** The pickers, the button (disabled while loading), a truthy error and the chart. */
    function Render(): (s: Screen)
      reads this
      ensures s.categoryOptions == categories
      ensures s.productOptions == ProductNames(FilteredProducts(products, selectedCategory))
      ensures s.productPickerEnabled <==> selectedCategory != ""
      ensures s.generateEnabled <==> !loading
      ensures s.error.Some? <==> error.Some? && error.value != ""
      ensures s.error.Some? ==> s.error.value == error.value
      ensures s.chart == chartData
    {
      Screen(categories, ProductNames(Filtered()), selectedCategory != "", !loading,
             if error.Some? && error.value != "" then error else None, chartData)
    }
  }

  /** Right after a category is picked no product is, so generating asks for both picks first. */
  method PickCategoryThenGenerate(v: FarmerMarketPriceGraphView, user: Json, c: string) returns (sent: Option<Request>)
    modifies v
    ensures sent == None && v.error == Some(SelectBoth)
  {
    v.SelectCategory(c);
    sent := v.StartGenerate(user);
  }
}
