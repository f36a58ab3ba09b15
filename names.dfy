/** The printable names of the plot types (include/blot_names.h). */
module BlotNames {

  import opened BlotTypes

  /** blot_plot_type_to_string: "scatter", "line" or "bar" for the three plot
      types, NULL (None) for every other value, BLOT_PLOT_TYPE_MAX included. */
  function PlotTypeToString(plotType: nat): (r: Option<string>)
    ensures r.Some? <==> ValidPlotType(plotType)
    ensures plotType == SCATTER ==> r == Some("scatter")
    ensures plotType == LINE ==> r == Some("line")
    ensures plotType == BAR ==> r == Some("bar")
  {
    if plotType == SCATTER then Some("scatter")
    else if plotType == LINE then Some("line")
    else if plotType == BAR then Some("bar")
    else None
  }

  /** The plot type a name stands for (the inverse of PlotTypeToString). */
  function PlotTypeFromString(name: string): (r: Option<nat>)
  {
    if name == "scatter" then Some(SCATTER)
    else if name == "line" then Some(LINE)
    else if name == "bar" then Some(BAR)
    else None
  }

  /** Every valid plot type has a name that reads back as itself, so the
      names of distinct types differ. */
  lemma PlotTypeNamesRoundTrip(plotType: nat)
    requires ValidPlotType(plotType)
    ensures PlotTypeToString(plotType).Some?
    ensures PlotTypeFromString(PlotTypeToString(plotType).value) == Some(plotType)
  {
  }

  /** The mapping is injective on the plot types it names. */
  lemma PlotTypeNamesInjective(a: nat, b: nat)
    requires PlotTypeToString(a).Some? && PlotTypeToString(a) == PlotTypeToString(b)
    ensures a == b
  {
    PlotTypeNamesRoundTrip(a);
    PlotTypeNamesRoundTrip(b);
  }
}
