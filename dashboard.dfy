/** `ChartsDashboard` and the view choice of `App` (frontend/src/App.jsx):
    when the uploader is shown instead of the dashboard, and what each chart
    card shows (its heading, its data, its themed layout). */
module Dashboard {
  import opened Wrappers
  import opened Decimal
  import opened JsValues
  import opened Theme

  /** The TypeError `charts.map(…)` raises when `charts` is not an array. */
  const MapNotFunctionMessage := "charts.map is not a function"

  /** `!charts || charts.length === 0`: the condition under which `App` shows
      the uploader and `ChartsDashboard` renders nothing. */
  predicate ShowsUploader(charts: JVal)
    ensures !Truthy(charts) ==> ShowsUploader(charts)
    ensures charts.JArr? ==> (ShowsUploader(charts) <==> charts.items == [])
    ensures charts.JStr? ==> (ShowsUploader(charts) <==> charts.s == "")
    ensures (charts.JBool? || charts.JNum?) ==> (ShowsUploader(charts) <==> !Truthy(charts))
  {
    !Truthy(charts) ||
    match PropOf(charts, "length")
    case Some(JNum(m, _)) => m == 0
    case _ => false
  }

  /** On a chart list, the uploader is shown exactly when the list is empty;
      on an envelope-less object, exactly when it carries a zero `length`. */
  lemma ShowsUploaderOnLists(xs: seq<JVal>, m: map<string, JVal>)
    ensures ShowsUploader(JArr(xs)) <==> xs == []
    ensures ShowsUploader(JObj(m)) <==> ("length" in m && m["length"].JNum? && m["length"].mantissa == 0)
  {
  }

  /** The fallback heading of the card at position `index`. */
  function ChartLabel(index: nat): (r: string)
    ensures |r| > 6 && r[..6] == "Chart "
    ensures IsCanonical(r[6..]) && ReadDecimal(r[6..]) == index + 1
  {
    ReadNatToString(index + 1);
    assert ("Chart " + NatToString(index + 1))[6..] == NatToString(index + 1);
    "Chart " + NatToString(index + 1)
  }

  /** `chart.layout?.title?.text || \`Chart ${index + 1}\``. Reading `layout`
      off a null chart throws; every other shape falls back to the label. */
  function CardTitle(chart: JVal, index: nat): (r: Completion<JVal>)
    ensures r.Throw? <==> chart.JNull?
    ensures r.Throw? ==> r.message == NullReadMessage("layout")
    ensures r.Normal? && r.value != JStr(ChartLabel(index)) ==>
              chart.JObj? && "layout" in chart.fields &&
              chart.fields["layout"].JObj? && "title" in chart.fields["layout"].fields &&
              !chart.fields["layout"].fields["title"].JNull? &&
              PropOf(chart.fields["layout"].fields["title"], "text") == Some(r.value) &&
              Truthy(r.value)
  {
    match Access(chart, "layout")
    case Throw(msg) => Throw(msg)
    case Normal(layout) =>
      Normal(Or(OptAccess(OptAccess(layout, "title"), "text"), JStr(ChartLabel(index))))
  }

  /** A truthy `layout.title.text` is the heading. */
  lemma TitleGiven(chart: JVal, index: nat, text: JVal)
    requires chart.JObj? && "layout" in chart.fields
    requires chart.fields["layout"].JObj? && "title" in chart.fields["layout"].fields
    requires chart.fields["layout"].fields["title"].JObj?
    requires Get(chart.fields["layout"].fields["title"].fields, "text") == Some(text)
    requires Truthy(text)
    ensures CardTitle(chart, index) == Normal(text)
  {
  }

  /** A chart card as handed to the renderer: its heading, its series passed
      through untouched, and its themed layout. */
  datatype Card = Card(heading: JVal, data: Option<JVal>, layout: map<string, JVal>)

  /** One card of the grid. Only a null chart fails, on reading its layout. */
  function RenderCard(chart: JVal, index: nat): (r: Completion<Card>)
    ensures r.Throw? <==> chart.JNull?
    ensures r.Normal? ==> Normal(r.value.heading) == CardTitle(chart, index)
    ensures r.Normal? ==> r.value.data == PropOf(chart, "data")
    ensures r.Normal? ==> r.value.layout == MergeLayout(Spread(PropOf(chart, "layout")))
  {
    match CardTitle(chart, index)
    case Throw(msg) => Throw(msg)
    case Normal(heading) =>
      Normal(Card(heading, PropOf(chart, "data"), ThemedLayout(PropOf(chart, "layout"))))
  }

  /** Evaluation of `xs.map(f)` once each call's completion is known: the
      calls run in index order, so the first one that throws aborts the rest. */
  function Collect<T>(cs: seq<Completion<T>>): (r: Completion<seq<T>>)
    ensures r.Normal? ==> |r.value| == |cs|
    ensures r.Throw? <==> exists i :: 0 <= i < |cs| && cs[i].Throw?
    ensures r.Throw? ==> exists i :: 0 <= i < |cs| && cs[i].Throw? && cs[i].message == r.message
  {
    if cs == [] then Normal([])
    else
      match cs[0]
      case Throw(msg) => Throw(msg)
      case Normal(v) =>
        match Collect(cs[1..])
        case Throw(msg) => Throw(msg)
        case Normal(rest) => Normal([v] + rest)
  }

  /** When no call throws, `map` returns every result, in order. */
  lemma {:induction false} CollectNormal<T>(cs: seq<Completion<T>>)
    requires forall i :: 0 <= i < |cs| ==> cs[i].Normal?
    ensures Collect(cs).Normal? && |Collect(cs).value| == |cs|
    ensures forall i :: 0 <= i < |cs| ==> Collect(cs).value[i] == cs[i].value
  {
    if cs != [] {
      CollectNormal(cs[1..]);
      var rest := Collect(cs[1..]).value;
      assert Collect(cs).value == [cs[0].value] + rest;
    }
  }

  /** When some call throws, so does `map`, with the message of the first
      call that throws. */
  lemma {:induction false} CollectThrows<T>(cs: seq<Completion<T>>, j: nat)
    requires j < |cs| && cs[j].Throw?
    requires forall i :: 0 <= i < j ==> cs[i].Normal?
    ensures Collect(cs) == Throw(cs[j].message)
  {
    if j > 0 {
      CollectThrows(cs[1..], j - 1);
    }
  }

  /** The completion of the `map` callback for every chart of the list. */
  function CardCompletions(xs: seq<JVal>): (cs: seq<Completion<Card>>)
    ensures |cs| == |xs| && forall i :: 0 <= i < |xs| ==> cs[i] == RenderCard(xs[i], i)
  {
    seq(|xs|, i requires 0 <= i < |xs| => RenderCard(xs[i], i))
  }

  /** `ChartsDashboard`: nothing when the uploader condition holds, a card per
      chart for a list, a TypeError when `charts` is no array. A list throws
      exactly when it holds a null chart, and then on reading its layout. */
  function RenderDashboard(charts: JVal): (r: Completion<seq<Card>>)
    ensures ShowsUploader(charts) ==> r == Normal([])
    ensures !ShowsUploader(charts) && !charts.JArr? ==> r == Throw(MapNotFunctionMessage)
    ensures charts.JArr? ==> (r.Throw? <==> exists i :: 0 <= i < |charts.items| && charts.items[i].JNull?)
    ensures charts.JArr? && r.Throw? ==> r.message == NullReadMessage("layout")
    ensures charts.JArr? && r.Normal? ==> |r.value| == |charts.items|
  {
    if ShowsUploader(charts) then Normal([])
    else
      match charts
      case JArr(xs) => Collect(CardCompletions(xs))
      case _ => Throw(MapNotFunctionMessage)
  }

  /** A list of non-null charts renders one card per chart (none for the
      empty list), each at its own index (what a card holds is
      `RenderCard`'s contract). */
  lemma DashboardShowsEveryChart(xs: seq<JVal>)
    requires forall i :: 0 <= i < |xs| ==> !xs[i].JNull?
    ensures RenderDashboard(JArr(xs)).Normal?
    ensures |RenderDashboard(JArr(xs)).value| == |xs|
    ensures forall i :: 0 <= i < |xs| ==>
              RenderCard(xs[i], i).Normal? && RenderDashboard(JArr(xs)).value[i] == RenderCard(xs[i], i).value
  {
    var cs := CardCompletions(xs);
    CollectNormal(cs);
    if xs == [] {
      assert RenderDashboard(JArr(xs)) == Normal([]);
      return;
    }
    assert !ShowsUploader(JArr(xs));
    assert RenderDashboard(JArr(xs)) == Collect(cs);
    var cards := Collect(cs).value;
    forall i | 0 <= i < |xs|
      ensures RenderCard(xs[i], i).Normal? && cards[i] == RenderCard(xs[i], i).value
    {
      assert cs[i] == RenderCard(xs[i], i);
    }
  }

  /** The first null chart makes the whole grid throw: no other chart is
      shown either. */
  lemma NullChartAbortsDashboard(xs: seq<JVal>, j: nat)
    requires j < |xs| && xs[j].JNull?
    requires forall i :: 0 <= i < j ==> !xs[i].JNull?
    ensures RenderDashboard(JArr(xs)) == Throw(NullReadMessage("layout"))
  {
    var cs := CardCompletions(xs);
    assert RenderDashboard(JArr(xs)) == Collect(cs);
    CollectThrows(cs, j);
  }
}
