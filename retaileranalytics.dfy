/** The retailer's analytics panel: the number of purchases, the amount
    spent, and the amount spent per category, shown as a pie chart. */
module RetailerAnalytics {
  import opened Wrappers
  import opened Json
  import opened Records
  import opened Categories
  import opened Charts

  const FetchFailed := "Failed to fetch analytics data."
  const PieSeriesName := "Amount Spent"

  /** A JavaScript object with string keys: the keys in insertion order and their values. */
  datatype Dict = Dict(keys: seq<string>, values: map<string, int>)

  predicate WellFormed(d: Dict)
  {
    NoDuplicates(d.keys) && (forall k :: k in d.values ==> k in d.keys) && (forall k :: k in d.keys ==> k in d.values)
  }

  /** The category column of the purchase rows. */
  function CategoryColumn(rows: seq<PurchaseRow>): (cs: seq<string>)
    ensures |cs| == |rows| && forall i :: 0 <= i < |rows| ==> cs[i] == rows[i].category
  {
    seq(|rows|, i requires 0 <= i < |rows| => rows[i].category)
  }

  /** The amount spent over all rows. */
  function TotalAmount(rows: seq<PurchaseRow>): (total: int)
    ensures rows == [] ==> total == 0
    ensures (forall i :: 0 <= i < |rows| ==> rows[i].totalPurchaseAmount >= 0) ==> total >= 0
  {
    if rows == [] then 0 else TotalAmount(rows[..|rows| - 1]) + rows[|rows| - 1].totalPurchaseAmount
  }

  /** The amount spent on one category. */
  function CategoryTotal(rows: seq<PurchaseRow>, category: string): int
  {
    if rows == [] then 0
    else
      var last := rows[|rows| - 1];
      CategoryTotal(rows[..|rows| - 1], category) + (if last.category == category then last.totalPurchaseAmount else 0)
  }

  /** One step of the category reduce: the row's amount is added to its
      category, which is created at the end when it is new. */
  function AddRow(d: Dict, row: PurchaseRow): Dict
  {
    var c := row.category;
    if c in d.values then Dict(d.keys, d.values[c := d.values[c] + row.totalPurchaseAmount])
    else Dict(d.keys + [c], d.values[c := row.totalPurchaseAmount])
  }

  /** `categorySpending`: the categories in order of first purchase, each
      with the amount spent on it. */
  function Spending(rows: seq<PurchaseRow>): (d: Dict)
    ensures WellFormed(d)
    ensures d.keys == Dedup(CategoryColumn(rows))
    ensures forall k :: k in d.values ==> d.values[k] == CategoryTotal(rows, k)
  {
    if rows == [] then Dict([], map[])
    else
      var init, last := rows[..|rows| - 1], rows[|rows| - 1];
      var d := Spending(init);
      SplitLast(rows);
      AddRowStep(init, last, d);
      AddRow(d, last)
  }

  lemma SplitLast(rows: seq<PurchaseRow>)
    requires rows != []
    ensures rows == rows[..|rows| - 1] + [rows[|rows| - 1]]
  {
  }

  /** Adding one more row to the dictionary of the rows before it gives the
      dictionary of all the rows. */
  lemma AddRowStep(init: seq<PurchaseRow>, last: PurchaseRow, d: Dict)
    requires WellFormed(d) && d.keys == Dedup(CategoryColumn(init))
    requires forall k :: k in d.values ==> d.values[k] == CategoryTotal(init, k)
    ensures WellFormed(AddRow(d, last))
    ensures AddRow(d, last).keys == Dedup(CategoryColumn(init + [last]))
    ensures forall k :: k in AddRow(d, last).values ==> AddRow(d, last).values[k] == CategoryTotal(init + [last], k)
  {
    AddRowWellFormed(d, last);
    ColumnSnoc(init, last);
    DedupSnoc(CategoryColumn(init), last.category);
    if last.category !in d.values {
      CategoryTotalAbsent(init, last.category);
    }
    AddRowTotals(init, last, d);
  }

  lemma AddRowWellFormed(d: Dict, row: PurchaseRow)
    requires WellFormed(d)
    ensures WellFormed(AddRow(d, row))
  {
    var c := row.category;
    if c !in d.values {
      var ks := d.keys + [c];
      forall i, j | 0 <= i < j < |ks|
        ensures ks[i] != ks[j]
      {
        if j == |d.keys| {
          assert d.keys[i] in d.keys;
        } else {
          assert ks[i] == d.keys[i] && ks[j] == d.keys[j];
        }
      }
    }
  }

  lemma ColumnSnoc(init: seq<PurchaseRow>, last: PurchaseRow)
    ensures CategoryColumn(init + [last]) == CategoryColumn(init) + [last.category]
  {
  }

  lemma DedupSnoc<T(!new)>(xs: seq<T>, x: T)
    ensures Dedup(xs + [x]) == if x in Dedup(xs) then Dedup(xs) else Dedup(xs) + [x]
  {
    assert (xs + [x])[..|xs|] == xs;
  }

  lemma AddRowTotals(init: seq<PurchaseRow>, last: PurchaseRow, d: Dict)
    requires forall k :: k in d.values ==> d.values[k] == CategoryTotal(init, k)
    requires last.category !in d.values ==> CategoryTotal(init, last.category) == 0
    ensures forall k :: k in AddRow(d, last).values ==> AddRow(d, last).values[k] == CategoryTotal(init + [last], k)
  {
    var rows := init + [last];
    assert rows[..|rows| - 1] == init;
    assert rows[|rows| - 1] == last;
  }

  /** A category nobody bought from has total zero. */
  lemma {:induction false} CategoryTotalAbsent(rows: seq<PurchaseRow>, category: string)
    requires category !in CategoryColumn(rows)
    ensures CategoryTotal(rows, category) == 0
  {
    if rows != [] {
      var init := rows[..|rows| - 1];
      assert CategoryColumn(rows)[..|rows| - 1] == CategoryColumn(init);
      assert CategoryColumn(rows)[|rows| - 1] == rows[|rows| - 1].category;
      CategoryTotalAbsent(init, category);
    }
  }

  /** The reduce callback: a missing category is first created at zero, then the row's
      amount is added to it. (The source also resets a category whose total is zero, to
      the same zero, which changes nothing.) */
  method AddToCategory(acc: Dict, row: PurchaseRow) returns (next: Dict)
    ensures next == AddRow(acc, row)
  {
    next := acc;
    var c := row.category;
    if c !in next.values {
      next := Dict(next.keys + [c], next.values[c := 0]);
    }
    next := Dict(next.keys, next.values[c := next.values[c] + row.totalPurchaseAmount]);
  }

  /** The reduce as it runs: the accumulator is updated row by row, in row order. */
  method CategorySpending(rows: seq<PurchaseRow>) returns (acc: Dict)
    ensures acc == Spending(rows)
  {
    acc := Dict([], map[]);
    var i := 0;
    while i < |rows|
      invariant 0 <= i <= |rows|
      invariant acc == Spending(rows[..i])
    {
      acc := AddToCategory(acc, rows[i]);
      SpendingStep(rows, i);
      i := i + 1;
    }
    assert rows[..|rows|] == rows;
  }

  lemma SpendingStep(rows: seq<PurchaseRow>, i: nat)
    requires i < |rows|
    ensures Spending(rows[..i + 1]) == AddRow(Spending(rows[..i]), rows[i])
  {
    assert rows[..i + 1][..i] == rows[..i];
  }

  /** `Object.values` of a well-formed dictionary, in key order. */
  function Values(d: Dict): (vs: seq<int>)
    requires WellFormed(d)
    ensures |vs| == |d.keys| && forall i :: 0 <= i < |vs| ==> vs[i] == d.values[d.keys[i]]
  {
    seq(|d.keys|, i requires 0 <= i < |d.keys| => d.values[d.keys[i]])
  }

  function Sum(xs: seq<int>): int
  {
    if xs == [] then 0 else xs[0] + Sum(xs[1..])
  }

  /** The amounts of a list of categories, summed. */
  function SumTotals(keys: seq<string>, rows: seq<PurchaseRow>): int
  {
    if keys == [] then 0 else CategoryTotal(rows, keys[0]) + SumTotals(keys[1..], rows)
  }

  /** Adding a row adds its amount to the sum over distinct categories once, if its category is listed. */
  lemma {:induction false} SumTotalsStep(keys: seq<string>, init: seq<PurchaseRow>, row: PurchaseRow)
    requires NoDuplicates(keys)
    ensures SumTotals(keys, init + [row]) ==
      SumTotals(keys, init) + (if row.category in keys then row.totalPurchaseAmount else 0)
  {
    var rows := init + [row];
    assert rows[..|rows| - 1] == init;
    if keys != [] {
      assert NoDuplicates(keys[1..]);
      SumTotalsStep(keys[1..], init, row);
      if row.category == keys[0] {
        assert row.category !in keys[1..];
      }
    }
  }

  lemma {:induction false} SumTotalsAppend(keys: seq<string>, k: string, rows: seq<PurchaseRow>)
    ensures SumTotals(keys + [k], rows) == SumTotals(keys, rows) + CategoryTotal(rows, k)
  {
    if keys != [] {
      assert (keys + [k])[1..] == keys[1..] + [k];
      SumTotalsAppend(keys[1..], k, rows);
    } else {
      assert [k][1..] == [];
    }
  }

  /** Summing the per-category amounts over the categories bought gives the total spent. */
  lemma {:induction false} SpendingAddsUp(rows: seq<PurchaseRow>)
    ensures SumTotals(Spending(rows).keys, rows) == TotalAmount(rows)
  {
    if rows != [] {
      var init := rows[..|rows| - 1];
      var last := rows[|rows| - 1];
      assert rows == init + [last];
      var before := Spending(init).keys;
      SpendingAddsUp(init);
      SumTotalsStep(before, init, last);
      if last.category !in Spending(init).values {
        SumTotalsAppend(before, last.category, rows);
        assert last.category !in CategoryColumn(init);
        CategoryTotalAbsent(init, last.category);
      }
    }
  }

  lemma {:induction false} SumValues(d: Dict, rows: seq<PurchaseRow>, from: nat)
    requires WellFormed(d) && from <= |d.keys|
    requires forall k :: k in d.values ==> d.values[k] == CategoryTotal(rows, k)
    ensures Sum(Values(d)[from..]) == SumTotals(d.keys[from..], rows)
    decreases |d.keys| - from
  {
    if from < |d.keys| {
      SumValues(d, rows, from + 1);
      assert Values(d)[from..][1..] == Values(d)[from + 1..];
      assert d.keys[from..][1..] == d.keys[from + 1..];
    }
  }

  // ---------------------------------------------------------------------------
  // The panel

  datatype Analytics = Analytics(totalProductsPurchased: nat, totalAmountSpent: int, categorySpending: Dict)

  /** The figures computed from the purchase rows. */
  method Summarize(rows: seq<PurchaseRow>) returns (a: Analytics)
    ensures a.totalProductsPurchased == |rows|
    ensures a.totalAmountSpent == TotalAmount(rows)
    ensures a.categorySpending == Spending(rows)
  {
    var spending := CategorySpending(rows);
    a := Analytics(|rows|, TotalAmount(rows), spending);
  }

  /** The pie chart: one slice per category, labelled with its name and sized by its amount. */
  function Pie(d: Dict): (c: Chart)
    requires WellFormed(d)
    ensures Aligned(c) && c.labels == d.keys
    ensures c.series == [Series(PieSeriesName, Values(d))]
  {
    Chart(d.keys, [Series(PieSeriesName, Values(d))])
  }

  /** The slices of the pie drawn for some rows are exactly the amount spent
      per category, and together they make up the total spent. */
  lemma PieOfRows(rows: seq<PurchaseRow>)
    ensures var c := Pie(Spending(rows));
      c.labels == Dedup(CategoryColumn(rows)) &&
      (forall i :: 0 <= i < |c.labels| ==> c.series[0].data[i] == CategoryTotal(rows, c.labels[i])) &&
      Sum(c.series[0].data) == TotalAmount(rows)
  {
    var d := Spending(rows);
    SumValues(d, rows, 0);
    assert Values(d)[0..] == Values(d) && d.keys[0..] == d.keys;
    SpendingAddsUp(rows);
  }

  datatype Screen = Loading | ErrorText(message: string) | NoData | Summary(purchases: nat, spent: int, pie: Chart)

  class RetailerAnalyticsView {
    var analytics: Option<Analytics>
    var loading: bool
    var error: Option<string>

    /** Stored figures always carry a well-formed spending object. */
    predicate Valid()
      reads this
    {
      analytics.Some? ==> WellFormed(analytics.value.categorySpending)
    }

    constructor ()
      ensures analytics == None && loading && error == None
      ensures Valid()
    {
      analytics := None;
      loading := true;
      error := None;
    }

    /** `fetchAnalytics`: only a user with an aadhar number asks for the
        purchase rows; the rows are summarised on success, the error is set
        on failure, and loading ends either way. Without one, nothing
        changes, so the loading text stays until a user with one appears. */
    method Fetch(user: Json, reply: Reply<seq<PurchaseRow>>) returns (sent: Option<Request>)
      modifies this
      ensures !HasField(user, "aadhar") ==> sent == None && unchanged(this)
      ensures HasField(user, "aadhar") ==> sent == Some(PurchaseAnalysis(Get(user, "aadhar"))) && !loading
      ensures HasField(user, "aadhar") && reply.Ok? ==>
        analytics == Some(Analytics(|reply.data|, TotalAmount(reply.data), Spending(reply.data))) &&
        error == old(error)
      ensures HasField(user, "aadhar") && reply.Failed? ==>
        analytics == old(analytics) && error == Some(FetchFailed)
      ensures old(Valid()) ==> Valid()
    {
      sent := None;
      if HasField(user, "aadhar") {
        sent := Some(PurchaseAnalysis(Get(user, "aadhar")));
        match reply {
          case Ok(rows) =>
            var a := Summarize(rows);
            analytics := Some(a);
          case Failed(_) =>
            error := Some(FetchFailed);
        }
        loading := false;
      }
    }

    predicate ShowsData()
      reads this
    {
      !loading && !(error.Some? && error.value != "") && analytics.Some?
    }

    /** What the panel shows: loading, then a truthy error, then "no data", then the figures and the pie. */
    function Render(): (s: Screen)
      requires Valid()
      reads this
      ensures loading <==> s == Loading
      ensures s.ErrorText? <==> !loading && error.Some? && error.value != ""
      ensures s.ErrorText? ==> s.message == error.value
      ensures s == NoData <==> !loading && !(error.Some? && error.value != "") && analytics.None?
      ensures s.Summary? <==> ShowsData()
      ensures s.Summary? ==> (s.purchases == analytics.value.totalProductsPurchased &&
        s.spent == analytics.value.totalAmountSpent && s.pie == Pie(analytics.value.categorySpending))
    {
      if loading then Loading
      else if error.Some? && error.value != "" then ErrorText(error.value)
      else if analytics.Some? then
        var a := analytics.value;
        Summary(a.totalProductsPurchased, a.totalAmountSpent, Pie(a.categorySpending))
      else NoData
    }
  }

  /** A retailer whose purchases load sees a pie whose slices add up to the total spent. */
  method LoadedPanelAddsUp(user: Json, rows: seq<PurchaseRow>) returns (v: RetailerAnalyticsView, s: Screen)
    requires HasField(user, "aadhar")
    ensures fresh(v) && s.Summary? && s.purchases == |rows| && s.spent == TotalAmount(rows)
    ensures s.pie == Pie(Spending(rows))
    ensures Sum(s.pie.series[0].data) == s.spent
  {
    v := new RetailerAnalyticsView();
    var sent := v.Fetch(user, Ok(rows));
    s := v.Render();
    PieOfRows(rows);
  }
}
