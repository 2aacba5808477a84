/** The dashboard's fixed visual theme and how it is laid over each chart's
    own layout (frontend/src/App.jsx, the `layout` prop of `Plot`). */
module Theme {
  import opened Wrappers
  import opened Decimal
  import opened JsValues

  const Transparent := "rgba(0,0,0,0)"
  const GridColor := "rgba(255,255,255,0.06)"
  const ZeroLineColor := "rgba(255,255,255,0.03)"
  const FontColor := "#e6eefc"
  const FontFamily := "Inter, sans-serif"

  /** The top-level layout keys the theme controls. */
  const LayoutOverrideKeys: set<string> :=
    {"autosize", "paper_bgcolor", "plot_bgcolor", "font", "xaxis", "yaxis"}

  /** The per-axis keys the theme controls. */
  const AxisOverrideKeys: set<string> := {"gridcolor", "zerolinecolor"}

  const ThemeFont := JObj(map["color" := JStr(FontColor), "family" := JStr(FontFamily)])

  /** `{...axis, gridcolor: …, zerolinecolor: …}` */
  function MergeAxis(axis: Option<JVal>): (r: map<string, JVal>)
    ensures r.Keys == Spread(axis).Keys + AxisOverrideKeys
    ensures r["gridcolor"] == JStr(GridColor) && r["zerolinecolor"] == JStr(ZeroLineColor)
    ensures forall k :: k in Spread(axis) && k !in AxisOverrideKeys ==> r[k] == Spread(axis)[k]
  {
    Spread(axis) + map["gridcolor" := JStr(GridColor), "zerolinecolor" := JStr(ZeroLineColor)]
  }

  /** The keys the theme writes after the caller's layout has been copied,
      given the caller's two axis objects as read from that layout. */
  function Overrides(xaxis: Option<JVal>, yaxis: Option<JVal>): (r: map<string, JVal>)
    ensures r.Keys == LayoutOverrideKeys
    ensures r["autosize"] == JBool(true) && r["font"] == ThemeFont
    ensures r["paper_bgcolor"] == JStr(Transparent) && r["plot_bgcolor"] == JStr(Transparent)
    ensures r["xaxis"] == JObj(MergeAxis(xaxis)) && r["yaxis"] == JObj(MergeAxis(yaxis))
  {
    map[
      "autosize" := JBool(true),
      "paper_bgcolor" := JStr(Transparent),
      "plot_bgcolor" := JStr(Transparent),
      "font" := ThemeFont,
      "xaxis" := JObj(MergeAxis(xaxis)),
      "yaxis" := JObj(MergeAxis(yaxis))
    ]
  }

  /** The theme merged into a caller layout given as a string-keyed map:
      caller keys outside the override set are kept with their values,
      `autosize` is forced on, both backgrounds are transparent, the font is
      replaced wholesale and each axis is merged key by key. */
  function MergeLayout(layout: map<string, JVal>): (r: map<string, JVal>)
    ensures r.Keys == layout.Keys + LayoutOverrideKeys
    ensures forall k :: k in layout && k !in LayoutOverrideKeys ==> r[k] == layout[k]
    ensures r["autosize"] == JBool(true)
    ensures r["paper_bgcolor"] == JStr(Transparent) && r["plot_bgcolor"] == JStr(Transparent)
    ensures r["font"] == ThemeFont
    ensures r["xaxis"] == JObj(MergeAxis(Get(layout, "xaxis")))
    ensures r["yaxis"] == JObj(MergeAxis(Get(layout, "yaxis")))
  {
    layout + Overrides(Get(layout, "xaxis"), Get(layout, "yaxis"))
  }

  /** The layout handed to the renderer, exactly as the source writes it:
      `{...chart.layout, …, xaxis: {...chart.layout?.xaxis, …}, …}`, where the
      layout may be missing, null or of any JSON shape. Whatever that shape,
      the result is the map merge of its spread copy; in particular a
      missing or null layout is treated as the empty map. */
  function ThemedLayout(layout: Option<JVal>): (r: map<string, JVal>)
    ensures r == MergeLayout(Spread(layout))
    ensures (layout.None? || layout == Some(JNull)) ==> r == MergeLayout(map[])
  {
    Spread(layout) + Overrides(OptAccess(layout, "xaxis"), OptAccess(layout, "yaxis"))
  }

  /** Every caller axis key other than the two grid colours survives the
      merge with its value (an axis title, an explicit range). */
  lemma AxisKeysSurvive(layout: map<string, JVal>, axisKey: string, k: string)
    requires axisKey in {"xaxis", "yaxis"}
    requires axisKey in layout && layout[axisKey].JObj?
    requires k in layout[axisKey].fields && k !in AxisOverrideKeys
    ensures MergeLayout(layout)[axisKey].JObj?
    ensures k in MergeLayout(layout)[axisKey].fields
    ensures MergeLayout(layout)[axisKey].fields[k] == layout[axisKey].fields[k]
  {
  }

  /** Merging into an already themed axis changes nothing. */
  lemma MergeAxisIdempotent(axis: Option<JVal>)
    ensures MergeAxis(Some(JObj(MergeAxis(axis)))) == MergeAxis(axis)
  {
  }

  /** Theming an already themed layout yields the same layout. */
  lemma MergeLayoutIdempotent(layout: map<string, JVal>)
    ensures MergeLayout(MergeLayout(layout)) == MergeLayout(layout)
  {
    var once := MergeLayout(layout);
    MergeAxisIdempotent(Get(layout, "xaxis"));
    MergeAxisIdempotent(Get(layout, "yaxis"));
    assert Overrides(Get(once, "xaxis"), Get(once, "yaxis"))
        == Overrides(Get(layout, "xaxis"), Get(layout, "yaxis"));
    assert once + Overrides(Get(layout, "xaxis"), Get(layout, "yaxis")) == once;
  }
}
