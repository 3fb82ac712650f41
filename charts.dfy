/**
 * The lazily built charts: which slide carries which chart, the guard that
 * makes building a chart happen at most once, and the datasets the charts
 * draw. The charting library is seen only through its handles.
 */
module Charts {
  import opened Wrappers

  /** The keys of `this.charts`. */
  datatype ChartName = MarketGrowth | RevenueDistribution | StartupCosts

  /** A chart object returned by the library; only its identity matters here. */
  datatype Handle = Handle(id: nat)

  /** `initializeSlideCharts`: the chart, if any, that entering a slide builds. */
  function ChartFor(slide: int): (r: Option<ChartName>)
    ensures r == Some(MarketGrowth) <==> slide == 3
    ensures r == Some(RevenueDistribution) <==> slide == 5
    ensures r == Some(StartupCosts) <==> slide == 8
    ensures r == None <==> slide != 3 && slide != 5 && slide != 8
  {
    if slide == 3 then Some(MarketGrowth)
    else if slide == 5 then Some(RevenueDistribution)
    else if slide == 8 then Some(StartupCosts)
    else None
  }

  /**
   * The chart map after a `create*Chart` call for `name`. `surfaces` are the
   * charts whose canvas is on the page; `attempt` is what the library's
   * constructor yields should it be reached: a handle, or `None` when it
   * throws (the error is logged and swallowed).
   */
  function Created(charts: map<ChartName, Handle>, surfaces: set<ChartName>,
                   name: ChartName, attempt: Option<Handle>): (r: map<ChartName, Handle>)
    ensures name !in surfaces || name in charts || attempt == None ==> r == charts
    ensures name in surfaces && name !in charts && attempt.Some? ==>
              r.Keys == charts.Keys + {name} && r[name] == attempt.value
    ensures forall other :: other != name && other in charts ==> other in r && r[other] == charts[other]
    ensures forall other :: other != name && other in r ==> other in charts
  {
    if name !in surfaces || name in charts then charts
    else match attempt
      case None => charts
      case Some(h) => charts[name := h]
  }

  /** `initializeSlideCharts` followed by the constructor it dispatches to. */
  function InitCharts(charts: map<ChartName, Handle>, surfaces: set<ChartName>,
                      slide: int, attempt: Option<Handle>): map<ChartName, Handle>
  {
    match ChartFor(slide)
    case None => charts
    case Some(name) => Created(charts, surfaces, name, attempt)
  }

  /**
   * Once a chart exists, a second construction of it changes nothing,
   * whatever the library would yield; a construction that left no handle
   * (no canvas, or the library threw) left the map as it was.
   */
  lemma CreateIsIdempotent(charts: map<ChartName, Handle>, surfaces: set<ChartName>,
                           name: ChartName, first: Option<Handle>, second: Option<Handle>)
    ensures var once := Created(charts, surfaces, name, first);
            && (name in once ==> Created(once, surfaces, name, second) == once)
            && (name !in once ==> once == charts)
  {
  }

  /**
   * Entering a slide builds at most one chart, only for slides 3, 5 and 8,
   * only on a canvas that is present, and never replaces a handle; once the
   * slide's chart exists, entering the slide again builds nothing new.
   */
  lemma InitChartsFacts(charts: map<ChartName, Handle>, surfaces: set<ChartName>,
                        slide: int, first: Option<Handle>, second: Option<Handle>)
    ensures var once := InitCharts(charts, surfaces, slide, first);
            && charts.Keys <= once.Keys
            && (forall name :: name in charts ==> once[name] == charts[name])
            && (slide != 3 && slide != 5 && slide != 8 ==> once == charts)
            && (charts.Keys <= surfaces ==> once.Keys <= surfaces)
            && |once.Keys - charts.Keys| <= 1
            && (forall name :: ChartFor(slide) == Some(name) && name in once ==>
                  InitCharts(once, surfaces, slide, second) == once)
  {
  }

  // The datasets below are the literals embedded in the three chart
  // constructors. The chart model above does not pass them to the library (a
  // handle is opaque), so what follows are facts about those literals only.

  /** The sum of a dataset's values. */
  function Sum(s: seq<int>): int
  {
    if s == [] then 0 else s[0] + Sum(s[1..])
  }

  /** Market size in hundredths of a billion US dollars, years 2023 to 2030 (line chart). */
  const MarketGrowthData: seq<int> := [635, 676, 719, 765, 814, 866, 921, 979]

  /** Share of revenue in percent per opening period (doughnut chart). */
  const RevenueShares: seq<int> := [30, 25, 12, 12, 8, 10, 3]

  /** Start-up cost amounts in ringgit, and their shares in percent (pie chart). */
  const StartupAmounts: seq<int> := [350000, 180000, 80000, 60000, 30000]
  const StartupShares: seq<int> := [50, 26, 11, 9, 4]

  /**
   * `part` as a percentage of `whole`, rounded to the nearest whole percent.
   * The controller never computes this (its percentages are written out);
   * it serves only as a consistency check on the start-up cost literals.
   */
  function RoundedPercent(part: nat, whole: nat): nat
    requires whole > 0
  {
    (200 * part + whole) / (2 * whole)
  }

  /**
   * The embedded datasets are consistent: the market series rises every year
   * and stays within the y axis (6 to 10 billion); both share charts add up
   * to 100%; the five start-up shares are the amounts' shares rounded.
   */
  lemma DatasetFacts()
    ensures |MarketGrowthData| == 8
    ensures forall i :: 0 < i < |MarketGrowthData| ==> MarketGrowthData[i - 1] < MarketGrowthData[i]
    ensures forall i :: 0 <= i < |MarketGrowthData| ==> 600 <= MarketGrowthData[i] <= 1000
    ensures Sum(RevenueShares) == 100
    ensures |StartupAmounts| == |StartupShares| == 5 && Sum(StartupShares) == 100
    ensures Sum(StartupAmounts) == 700000
    ensures forall i :: 0 <= i < 5 ==> StartupShares[i] == RoundedPercent(StartupAmounts[i], 700000)
  {
  }
}
