/**
 * The shared state behind the Series handles: SeriesDataPriv (a named
 * dataset that gnuplot keeps, shared by every series drawn from it) and
 * SeriesPriv (one series' attributes and change flags).
 */
module Records {
  import opened Wrappers
  import opened Values

  /** SeriesDataPriv, minus its id: buffers are stored at the index equal to their id. */
  datatype SeriesData = SeriesData(empty: bool, dirty: bool)

  /** A fresh buffer: nothing appended yet. `dirty` is not initialised by the library; false is chosen. */
  const NewData := SeriesData(empty := true, dirty := false)

  /** SeriesPriv: the id of its (possibly shared) buffer, its presentation attributes and its flags. */
  datatype SeriesState = SeriesState(
    dataId: nat,
    title: string,
    plotStyle: PlotStyle,
    color: Option<Color>,
    lineWidth: Double,
    pointType: Option<PointType>,
    pointSize: Double,
    smooth: Option<Smooth>,
    axes: AxesPair,
    dirty: bool,
    axesDirty: bool,
    removed: bool)

  /**
   * The state SeriesPriv's constructor leaves: points style, line width and
   * point size 1, axes x1y1 with axesDirty set. `dirty` and `removed` are not
   * initialised by the library; false is chosen for both.
   */
  function NewSeries(dataId: nat, title: string): (s: SeriesState)
    ensures s.dataId == dataId && s.title == title && s.axes == X1Y1
    ensures s.axesDirty && !s.dirty && !s.removed
    ensures s.color.None? && s.pointType.None? && s.smooth.None?
    ensures s.plotStyle == Points && s.lineWidth == Double("1") && s.pointSize == Double("1")
  {
    SeriesState(dataId, title, Points, None, Double("1"), None, Double("1"), None, X1Y1,
                dirty := false, axesDirty := true, removed := false)
  }
}
