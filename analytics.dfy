/** The category pie chart (analytics.jsx): it fetches the per-category
    totals once, after mounting, projects them into the chart's labels and
    data, and drops a reply that settles after it has been unmounted. */
module AnalyticsChart {
  import opened Values

  /** One entry of the `data` array of GET /analytics/group-by-category. */
  datatype CategoryTotal = CategoryTotal(category: string, totalAmount: real)

  /** One chart.js dataset; `datasetLabel` is its `label` field (`label` is a
      reserved word in Dafny). */
  datatype Dataset = Dataset(datasetLabel: string, data: seq<real>, backgroundColor: seq<string>, hoverOffset: int)

  /** The object passed to setChartData. */
  datatype ChartData = ChartData(labels: seq<string>, datasets: seq<Dataset>)

  /** What the component renders. */
  datatype Display = Loading | Pie(chart: ChartData)

  const DatasetLabel := "Expenses by Category"
  const Palette: seq<string> := ["#FF6384", "#36A2EB", "#FFCE56", "#4BC0C0", "#9966FF"]

  /** `data.data.map((item) => item.category)`. */
  function Categories(items: seq<CategoryTotal>): (r: seq<string>)
    ensures |r| == |items|
    ensures forall i :: 0 <= i < |items| ==> r[i] == items[i].category
  {
    if items == [] then [] else [items[0].category] + Categories(items[1..])
  }

  /** `data.data.map((item) => item.total_amount)`. */
  function Totals(items: seq<CategoryTotal>): (r: seq<real>)
    ensures |r| == |items|
    ensures forall i :: 0 <= i < |items| ==> r[i] == items[i].totalAmount
  {
    if items == [] then [] else [items[0].totalAmount] + Totals(items[1..])
  }

  /** The chart built from a reply: one dataset, labels and data parallel to
      the reply's entries, in the reply's order. */
  function ToChartData(items: seq<CategoryTotal>): (c: ChartData)
    ensures |c.datasets| == 1
    ensures c.datasets[0].datasetLabel == DatasetLabel && c.datasets[0].backgroundColor == Palette
    ensures |c.labels| == |items| && |c.datasets[0].data| == |items|
    ensures forall i :: 0 <= i < |items| ==>
              c.labels[i] == items[i].category && c.datasets[0].data[i] == items[i].totalAmount
  {
    ChartData(Categories(items), [Dataset(DatasetLabel, Totals(items), Palette, 4)])
  }

  /** Pairs parallel labels and amounts back into entries. */
  function Zip(labels: seq<string>, amounts: seq<real>): seq<CategoryTotal>
    requires |labels| == |amounts|
  {
    if labels == [] then [] else [CategoryTotal(labels[0], amounts[0])] + Zip(labels[1..], amounts[1..])
  }

  /** The projection loses nothing: the reply can be read back from the chart. */
  lemma {:induction false} ProjectionIsLossless(items: seq<CategoryTotal>)
    ensures Zip(Categories(items), Totals(items)) == items
  {
    if items != [] {
      assert Categories(items)[1..] == Categories(items[1..]);
      assert Totals(items)[1..] == Totals(items[1..]);
      ProjectionIsLossless(items[1..]);
    }
  }

  /** Two replies give the same chart exactly when they are the same reply. */
  lemma ProjectionIsInjective(a: seq<CategoryTotal>, b: seq<CategoryTotal>)
    ensures ToChartData(a) == ToChartData(b) <==> a == b
  {
  }

  class Analytics {
    /** The `chartData` state slot. */
    var chartData: Option<ChartData>
    /** The `isMounted` variable captured by the effect's closures. */
    var isMounted: bool
    /** How many times the effect has started the fetch. */
    var fetchesStarted: nat

    function View(): Display
      reads this
    {
      match chartData
      case None => Loading
      case Some(c) => Pie(c)
    }

    /** Mounting: `chartData` starts as null and the effect, whose dependency
        list is empty, runs once and starts the fetch. */
    constructor Mount()
      ensures chartData == None && isMounted && fetchesStarted == 1
      ensures View() == Loading
    {
      chartData := None;
      isMounted := true;
      fetchesStarted := 1;
    }

    /** A re-render by the parent. The component declares no props, so the
        `refreshTrigger` the parent passes is ignored, and the empty
        dependency list keeps the effect from running again. */
    method Rerender(refreshTrigger: int)
      ensures chartData == old(chartData) && isMounted == old(isMounted)
      ensures fetchesStarted == old(fetchesStarted)
    {
    }

    /** The effect's cleanup, run on unmount. */
    method Unmount()
      modifies this
      ensures !isMounted
      ensures chartData == old(chartData) && fetchesStarted == old(fetchesStarted)
    {
      isMounted := false;
    }

    /** The fetch settles: on a reply with a `data` array, and only while
        mounted, the chart is set; a failure is only logged. */
    method Receive(reply: Outcome<seq<CategoryTotal>>)
      modifies this
      ensures old(isMounted) && reply.Success? ==>
                chartData == Some(ToChartData(reply.value)) && View() == Pie(ToChartData(reply.value))
      ensures !old(isMounted) || reply.Failure? ==> chartData == old(chartData)
      ensures isMounted == old(isMounted) && fetchesStarted == old(fetchesStarted)
    {
      if isMounted {
        match reply
        case Success(items) =>
          chartData := Some(ToChartData(items));
        case Failure =>
      }
    }
  }

  /** A reply that arrives after unmounting changes nothing. */
  method StaleReplyIsDropped(a: Analytics, reply: Outcome<seq<CategoryTotal>>)
    modifies a
    ensures a.chartData == old(a.chartData) && !a.isMounted
  {
    a.Unmount();
    a.Receive(reply);
  }

  /** A parent re-render in between leaves the loading placeholder up
      until the single fetch succeeds; then the projected reply shows. */
  method MountRenderReceive(refreshTrigger: int, items: seq<CategoryTotal>) returns (a: Analytics, before: Display)
    ensures before == Loading
    ensures a.View() == Pie(ToChartData(items)) && a.fetchesStarted == 1
  {
    a := new Analytics.Mount();
    a.Rerender(refreshTrigger);
    before := a.View();
    a.Receive(Success(items));
  }
}
