/** The retailer's bar chart of market price against purchase price per unit, one bar pair per purchase. */
module RetailerMarketPriceGraph {
  import opened Wrappers
  import opened Json
  import opened Records
  import opened Charts

  const FetchFailed := "Failed to fetch purchase analysis for graph."
  const MarketSeries := "Market Price per Unit"
  const PurchaseSeries := "Purchase Price per Unit"

  /** The chart of some purchase rows: labelled by product name, with the
      market and purchase prices of the same row at the same index. */
  function PriceChart(rows: seq<PurchaseRow>): (c: Chart)
    ensures Aligned(c) && |c.labels| == |rows| && |c.series| == 2
    ensures c.series[0].name == MarketSeries && c.series[1].name == PurchaseSeries
    ensures forall i :: 0 <= i < |rows| ==>
      c.labels[i] == rows[i].productName &&
      c.series[0].data[i] == rows[i].marketPricePerUnit &&
      c.series[1].data[i] == rows[i].purchasePricePerUnit
  {
    Chart(seq(|rows|, i requires 0 <= i < |rows| => rows[i].productName),
          [Series(MarketSeries, seq(|rows|, i requires 0 <= i < |rows| => rows[i].marketPricePerUnit)),
           Series(PurchaseSeries, seq(|rows|, i requires 0 <= i < |rows| => rows[i].purchasePricePerUnit))])
  }

  /** The chart keeps row order: the chart of two row lists one after the other is the two charts one after the other. */
  lemma PriceChartAppend(a: seq<PurchaseRow>, b: seq<PurchaseRow>)
    ensures PriceChart(a + b).labels == PriceChart(a).labels + PriceChart(b).labels
    ensures PriceChart(a + b).series[0].data == PriceChart(a).series[0].data + PriceChart(b).series[0].data
    ensures PriceChart(a + b).series[1].data == PriceChart(a).series[1].data + PriceChart(b).series[1].data
  {
    var ab := PriceChart(a + b);
    var ca := PriceChart(a);
    var cb := PriceChart(b);
    assert forall i :: 0 <= i < |a| ==> (a + b)[i] == a[i];
    assert forall i :: |a| <= i < |a| + |b| ==> (a + b)[i] == b[i - |a|];
    assert ab.labels == ca.labels + cb.labels;
    assert ab.series[0].data == ca.series[0].data + cb.series[0].data;
    assert ab.series[1].data == ca.series[1].data + cb.series[1].data;
  }

  datatype Screen = Loading | ErrorText(message: string) | BarChart(chart: Chart) | NoData

  class RetailerMarketPriceGraphView {
    var chartData: Option<Chart>
    var loading: bool
    var error: Option<string>

    constructor ()
      ensures chartData == None && loading && error == None
    {
      chartData := None;
      loading := true;
      error := None;
    }

    /** `fetchPurchaseAnalysis`: only a user with an aadhar number asks for
        the rows. A non-empty reply is charted; an empty one leaves the chart
        as it was; a failure sets the error. Loading ends after any request. */
    method Fetch(user: Json, reply: Reply<seq<PurchaseRow>>) returns (sent: Option<Request>)
      modifies this
      ensures !HasField(user, "aadhar") ==> sent == None && unchanged(this)
      ensures HasField(user, "aadhar") ==> sent == Some(PurchaseAnalysis(Get(user, "aadhar"))) && !loading
      ensures HasField(user, "aadhar") && reply.Ok? && reply.data != [] ==>
        chartData == Some(PriceChart(reply.data)) && error == old(error)
      ensures HasField(user, "aadhar") && reply.Ok? && reply.data == [] ==>
        chartData == old(chartData) && error == old(error)
      ensures HasField(user, "aadhar") && reply.Failed? ==>
        chartData == old(chartData) && error == Some(FetchFailed)
    {
      sent := None;
      if HasField(user, "aadhar") {
        sent := Some(PurchaseAnalysis(Get(user, "aadhar")));
        match reply {
          case Ok(rows) =>
            if |rows| > 0 {
              chartData := Some(PriceChart(rows));
            }
          case Failed(_) =>
            error := Some(FetchFailed);
        }
        loading := false;
      }
    }

    /** Loading first, then a truthy error, then the chart or the "no data" text. */
    function Render(): (s: Screen)
      reads this
      ensures loading <==> s == Loading
      ensures s.ErrorText? <==> !loading && error.Some? && error.value != ""
      ensures s.ErrorText? ==> s.message == error.value
      ensures s.BarChart? <==> !loading && !(error.Some? && error.value != "") && chartData.Some?
      ensures s.BarChart? ==> s.chart == chartData.value
      ensures s == NoData <==> !loading && !(error.Some? && error.value != "") && chartData.None?
    {
      if loading then Loading
      else if error.Some? && error.value != "" then ErrorText(error.value)
      else if chartData.Some? then BarChart(chartData.value)
      else NoData
    }
  }

  /** A retailer with no purchases sees "no data"; one without an aadhar number keeps seeing the loading text. */
  method FirstLoad(user: Json, rows: seq<PurchaseRow>) returns (s: Screen)
    ensures !HasField(user, "aadhar") ==> s == Loading
    ensures HasField(user, "aadhar") && rows == [] ==> s == NoData
    ensures HasField(user, "aadhar") && rows != [] ==> s == BarChart(PriceChart(rows))
  {
    var v := new RetailerMarketPriceGraphView();
    var sent := v.Fetch(user, Ok(rows));
    s := v.Render();
  }
}
