/** The bar and pie chart data the dashboard views build: labels, and one
    or more named series of values, one value per label. */
module Charts {
  datatype Series = Series(name: string, data: seq<int>)
  datatype Chart = Chart(labels: seq<string>, series: seq<Series>)

  /** Every series has one value per label. */
  predicate Aligned(c: Chart)
  {
    forall s :: s in c.series ==> |s.data| == |c.labels|
  }
}
