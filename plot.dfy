/**
 * The Series and Plot handles of gnuplotxx over one plot's state: the
 * change-only setters, series creation and removal, the append/clear
 * protocol with its print-target cursor, and update.
 *
 * A Series handle is modelled as the index of its SeriesPriv in the plot's
 * `states`; every handle passed in belongs to this plot.
 */
module Gnuplot {
  import opened Wrappers
  import opened Text
  import opened Values
  import opened Records
  import opened Commands
  import opened Engine

  /**
   * The gnuplot child seen through its input pipe: the texts it has
   * accepted so far, and how many more writes it accepts (None: all of
   * them; Some(n): n more, after which every write fails).
   */
  class Process {
    var received: seq<string>
    var remaining: Option<nat>

    constructor(capacity: Option<nat>)
      ensures received == [] && remaining == capacity
    {
      received := [];
      remaining := capacity;
    }

    /** Writes the whole of t, or fails and writes nothing. */
    method Write(t: string) returns (ok: bool)
      modifies this
      ensures ok == Accepts(old(remaining), 1)
      ensures received == old(received) + Accepted([t], old(remaining))
      ensures remaining == if ok then Spent(old(remaining), 1) else old(remaining)
    {
      ok := Accepts(remaining, 1);
      if ok {
        received := received + [t];
        remaining := Spent(remaining, 1);
      }
    }
  }

  /** The texts of a sequence of update commands. */
  function Texts(cmds: seq<Command>): (ts: seq<string>)
    requires forall i :: 0 <= i < |cmds| ==> CommandOk(cmds[i])
    ensures |ts| == |cmds|
  {
    if cmds == [] then [] else [Rendering(cmds[0])] + Texts(cmds[1..])
  }

  /** What the batched append writes: the prologue travels with the first batch. */
  function BatchWrites(prologue: string, batches: seq<string>): seq<string>
  {
    if batches == [] then [] else [prologue + batches[0]] + batches[1..]
  }

  class Plot {
    const gp: Process
    var title: string
    var font: string
    var fontSize: int
    var position: Option<(int, int)>
    var size: Option<(nat, nat)>
    /** One range per axis slot: X1, Y1, X2, Y2. */
    const ranges: array<Range>
    var nextDataId: nat
    var activeDataId: int
    /** The plot's series list, as handles into `states`. */
    var series: seq<nat>
    /** Every SeriesPriv created on this plot, by handle. */
    var states: seq<SeriesState>
    /** Every SeriesDataPriv created on this plot, by id. */
    var buffers: seq<SeriesData>
    var dirty: bool
    var rangesDirty: bool

    function Model(): PlotModel
      reads this, ranges
    {
      PlotModel(title, font, fontSize, position, size, ranges[..], nextDataId, activeDataId,
                series, states, buffers, dirty, rangesDirty)
    }

    predicate Valid()
      reads this, ranges
    {
      ranges.Length == 4 && WellFormed(Model())
    }

    /** Plot(title): font Sans at 9 points, no print target yet, every range automatic. */
    constructor(title: string, gp: Process)
      ensures Valid() && fresh(ranges) && this.gp == gp
      ensures Model() == PlotModel(title, "Sans", 9, None, None, [DefaultRange, DefaultRange, DefaultRange, DefaultRange],
                                   0, -1, [], [], [], false, false)
    {
      this.gp := gp;
      this.title := title;
      font := "Sans";
      fontSize := 9;
      position := None;
      size := None;
      ranges := new Range[4](_ => DefaultRange);
      nextDataId := 0;
      activeDataId := -1;
      series := [];
      states := [];
      buffers := [];
      dirty := false;
      rangesDirty := false;
    }

    // ------------------------------------------------------ series setters

    method SetSeriesTitle(h: nat, title: string)
      requires Valid() && h < |states|
      modifies this`states
      ensures Valid()
      ensures old(states[h].title) == title ==> states == old(states)
      ensures old(states[h].title) != title ==> states == old(states)[h := old(states[h]).(title := title, dirty := true)]
    {
      if states[h].title != title {
        states := states[h := states[h].(title := title, dirty := true)];
      }
    }

    method SetSeriesStyle(h: nat, plotStyle: PlotStyle)
      requires Valid() && h < |states|
      modifies this`states
      ensures Valid()
      ensures old(states[h].plotStyle) == plotStyle ==> states == old(states)
      ensures old(states[h].plotStyle) != plotStyle ==>
        states == old(states)[h := old(states[h]).(plotStyle := plotStyle, dirty := true)]
    {
      if states[h].plotStyle != plotStyle {
        states := states[h := states[h].(plotStyle := plotStyle, dirty := true)];
      }
    }

    method SetSeriesColor(h: nat, color: Option<Color>)
      requires Valid() && h < |states|
      modifies this`states
      ensures Valid()
      ensures old(states[h].color) == color ==> states == old(states)
      ensures old(states[h].color) != color ==> states == old(states)[h := old(states[h]).(color := color, dirty := true)]
    {
      if states[h].color != color {
        states := states[h := states[h].(color := color, dirty := true)];
      }
    }

    method SetSeriesLineWidth(h: nat, lineWidth: Double)
      requires Valid() && h < |states|
      modifies this`states
      ensures Valid()
      ensures old(states[h].lineWidth) == lineWidth ==> states == old(states)
      ensures old(states[h].lineWidth) != lineWidth ==>
        states == old(states)[h := old(states[h]).(lineWidth := lineWidth, dirty := true)]
    {
      if states[h].lineWidth != lineWidth {
        states := states[h := states[h].(lineWidth := lineWidth, dirty := true)];
      }
    }

    method SetSeriesPointType(h: nat, pointType: Option<PointType>)
      requires Valid() && h < |states|
      modifies this`states
      ensures Valid()
      ensures old(states[h].pointType) == pointType ==> states == old(states)
      ensures old(states[h].pointType) != pointType ==>
        states == old(states)[h := old(states[h]).(pointType := pointType, dirty := true)]
    {
      if states[h].pointType != pointType {
        states := states[h := states[h].(pointType := pointType, dirty := true)];
      }
    }

    method SetSeriesPointSize(h: nat, pointSize: Double)
      requires Valid() && h < |states|
      modifies this`states
      ensures Valid()
      ensures old(states[h].pointSize) == pointSize ==> states == old(states)
      ensures old(states[h].pointSize) != pointSize ==>
        states == old(states)[h := old(states[h]).(pointSize := pointSize, dirty := true)]
    {
      if states[h].pointSize != pointSize {
        states := states[h := states[h].(pointSize := pointSize, dirty := true)];
      }
    }

    method SetSeriesSmooth(h: nat, smooth: Option<Smooth>)
      requires Valid() && h < |states|
      modifies this`states
      ensures Valid()
      ensures old(states[h].smooth) == smooth ==> states == old(states)
      ensures old(states[h].smooth) != smooth ==> states == old(states)[h := old(states[h]).(smooth := smooth, dirty := true)]
    {
      if states[h].smooth != smooth {
        states := states[h := states[h].(smooth := smooth, dirty := true)];
      }
    }

    /** Moving a series to other axes also marks its axes as changed. */
    method SetSeriesAxes(h: nat, axes: AxesPair)
      requires Valid() && h < |states|
      modifies this`states
      ensures Valid()
      ensures old(states[h].axes) == axes ==> states == old(states)
      ensures old(states[h].axes) != axes ==>
        states == old(states)[h := old(states[h]).(axes := axes, dirty := true, axesDirty := true)]
    {
      if states[h].axes != axes {
        states := states[h := states[h].(axes := axes, dirty := true, axesDirty := true)];
      }
    }

    // -------------------------------------------------------- plot setters

    method SetTitle(title: string)
      requires Valid()
      modifies this`title, this`dirty
      ensures Valid() && this.title == title
      ensures dirty == (old(dirty) || old(this.title) != title)
    {
      if this.title != title {
        this.title := title;
        dirty := true;
      }
    }

    method SetFont(font: string)
      requires Valid()
      modifies this`font, this`dirty
      ensures Valid() && this.font == font
      ensures dirty == (old(dirty) || old(this.font) != font)
    {
      if this.font != font {
        this.font := font;
        dirty := true;
      }
    }

    method SetFontAndSize(font: string, fontSize: int)
      requires Valid()
      modifies this`font, this`fontSize, this`dirty
      ensures Valid() && this.font == font && this.fontSize == fontSize
      ensures dirty == (old(dirty) || old(this.font) != font || old(this.fontSize) != fontSize)
    {
      if this.font != font || this.fontSize != fontSize {
        this.font := font;
        this.fontSize := fontSize;
        dirty := true;
      }
    }

    method SetFontSize(fontSize: int)
      requires Valid()
      modifies this`fontSize, this`dirty
      ensures Valid() && this.fontSize == fontSize
      ensures dirty == (old(dirty) || old(this.fontSize) != fontSize)
    {
      if this.fontSize != fontSize {
        this.fontSize := fontSize;
        dirty := true;
      }
    }

    method SetPosition(position: Option<(int, int)>)
      requires Valid()
      modifies this`position, this`dirty
      ensures Valid() && this.position == position
      ensures dirty == (old(dirty) || old(this.position) != position)
    {
      if this.position != position {
        this.position := position;
        dirty := true;
      }
    }

    method SetPositionXY(x: int, y: int)
      requires Valid()
      modifies this`position, this`dirty
      ensures Valid() && position == Some((x, y))
      ensures dirty == (old(dirty) || old(position) != Some((x, y)))
    {
      SetPosition(Some((x, y)));
    }

    method SetSize(size: Option<(nat, nat)>)
      requires Valid()
      modifies this`size, this`dirty
      ensures Valid() && this.size == size
      ensures dirty == (old(dirty) || old(this.size) != size)
    {
      if this.size != size {
        this.size := size;
        dirty := true;
      }
    }

    /** size(width, height): the ints become the unsigned halves of the size pair. */
    method SetSizeWH(width: int, height: int)
      requires Valid()
      requires -0x8000_0000 <= width < 0x8000_0000 && -0x8000_0000 <= height < 0x8000_0000
      modifies this`size, this`dirty
      ensures Valid() && size == Some((ToUnsigned(width), ToUnsigned(height)))
      ensures dirty == (old(dirty) || old(size) != Some((ToUnsigned(width), ToUnsigned(height))))
    {
      SetSize(Some((ToUnsigned(width), ToUnsigned(height))));
    }

    /** range(axis): the range of the axis' slot. */
    function RangeOf(axis: Axis): Range
      requires Valid()
      reads this, ranges
    {
      ranges[AxisIndex(axis)]
    }

    /**
     * range(axis, r): afterwards range(axis) is r and the other three axes
     * keep theirs; a change marks the plot and its ranges dirty.
     */
    method SetRange(axis: Axis, r: Range)
      requires Valid()
      modifies ranges, this`dirty, this`rangesDirty
      ensures Valid() && RangeOf(axis) == r
      ensures forall b :: b != axis ==> RangeOf(b) == old(RangeOf(b))
      ensures dirty == (old(dirty) || old(RangeOf(axis)) != r)
      ensures rangesDirty == (old(rangesDirty) || old(RangeOf(axis)) != r)
    {
      var i := AxisIndex(axis);
      if ranges[i] != r {
        ranges[i] := r;
        dirty := true;
        rangesDirty := true;
      }
      forall b | b != axis ensures AxisIndex(b) != i {
        AxisIndexBijective(b, 0);
        AxisIndexBijective(axis, 0);
      }
    }

    method SetRangeMinMax(axis: Axis, min: RangeValue, max: RangeValue)
      requires Valid()
      modifies ranges, this`dirty, this`rangesDirty
      ensures Valid() && RangeOf(axis) == Range(min, max)
      ensures forall b :: b != axis ==> RangeOf(b) == old(RangeOf(b))
      ensures dirty == (old(dirty) || old(RangeOf(axis)) != Range(min, max))
      ensures rangesDirty == (old(rangesDirty) || old(RangeOf(axis)) != Range(min, max))
    {
      SetRange(axis, Range(min, max));
    }

    // ---------------------------------------------------- the series list

    /**
     * createSeries(title): a new buffer with the next id, and a new series
     * on it at the end of the list. The id is larger than that of every
     * series created before.
     */
    method CreateSeries(title: string) returns (h: nat)
      requires Valid()
      modifies this`nextDataId, this`buffers, this`states, this`series
      ensures Valid()
      ensures h == old(|states|) && states == old(states) + [NewSeries(old(nextDataId), title)]
      ensures buffers == old(buffers) + [NewData] && nextDataId == old(nextDataId) + 1
      ensures series == old(series) + [h]
      ensures forall k :: 0 <= k < h ==> states[k].dataId < states[h].dataId
    {
      var id := nextDataId;
      nextDataId := nextDataId + 1;
      buffers := buffers + [NewData];
      h := |states|;
      states := states + [NewSeries(id, title)];
      series := series + [h];
    }

    /** createSeries(title, source): a new series at the end of the list, drawing from source's buffer. */
    method CreateSeriesSharing(title: string, source: nat) returns (h: nat)
      requires Valid() && source < |states|
      modifies this`states, this`series
      ensures Valid()
      ensures h == old(|states|) && states == old(states) + [NewSeries(old(states[source].dataId), title)]
      ensures series == old(series) + [h]
      ensures states[h].dataId == states[source].dataId
    {
      h := |states|;
      states := states + [NewSeries(states[source].dataId, title)];
      series := series + [h];
    }

    /** numSeries(): removed series still count until the next update. */
    function NumSeries(): (n: nat)
      reads this
      ensures n == |series|
    {
      |series|
    }

    /** getSeries(index): the series at that position of the list, or none past its end. */
    function GetSeries(index: nat): (r: Option<nat>)
      reads this
      ensures r.Some? <==> index < |series|
      ensures r.Some? ==> r.value == series[index]
    {
      if index < |series| then Some(series[index]) else None
    }

    /** findSeries(title): the first series of the list with that title, removed or not; none if there is none. */
    method FindSeries(title: string) returns (r: Option<nat>)
      requires Valid()
      ensures r.Some? ==> exists i :: 0 <= i < |series| && series[i] == r.value && states[r.value].title == title
                            && forall j :: 0 <= j < i ==> states[series[j]].title != title
      ensures r.None? ==> forall i :: 0 <= i < |series| ==> states[series[i]].title != title
    {
      var i := 0;
      while i < |series|
        invariant 0 <= i <= |series|
        invariant forall j :: 0 <= j < i ==> states[series[j]].title != title
      {
        if states[series[i]].title == title {
          return Some(series[i]);
        }
        i := i + 1;
      }
      return None;
    }

    // --------------------------------------------------- append and clear

    /**
     * The prologue of every append: a `set print` for the series' buffer
     * unless it already is the print target, which it becomes.
     */
    method AppendPrologue(h: nat) returns (buf: string)
      requires Valid() && h < |states|
      modifies this`activeDataId
      ensures Valid() && activeDataId == states[h].dataId
      ensures buf == Prologue(old(activeDataId), states[h].dataId)
    {
      var id := states[h].dataId;
      buf := "";
      if id != activeDataId {
        buf := SetPrint(id);
        activeDataId := id;
      }
    }

    /** The epilogue of every append: the buffer holds data, and has new data. */
    method AppendEpilogue(h: nat)
      requires Valid() && h < |states|
      modifies this`buffers
      ensures Valid()
      ensures buffers == old(buffers)[states[h].dataId := SeriesData(empty := false, dirty := true)]
    {
      var id := states[h].dataId;
      buffers := buffers[id := SeriesData(empty := false, dirty := true)];
    }

    /**
     * append(n1, ..., nk): one write of the prologue and a print command
     * with the numbers; on success every series drawing from the buffer
     * has data. A refused write leaves the buffer as it was, but the print
     * target has moved.
     */
    method Append(h: nat, point: seq<Number>) returns (ok: bool)
      requires Valid() && h < |states| && |point| > 0
      modifies this`activeDataId, this`buffers, gp
      ensures Valid() && activeDataId == states[h].dataId
      ensures var text := Prologue(old(activeDataId), states[h].dataId) + PrintLine(point);
        && ok == Accepts(old(gp.remaining), 1)
        && gp.received == old(gp.received) + Accepted([text], old(gp.remaining))
        && gp.remaining == (if ok then Spent(old(gp.remaining), 1) else old(gp.remaining))
      ensures buffers == if ok then old(buffers)[states[h].dataId := SeriesData(empty := false, dirty := true)]
                         else old(buffers)
      ensures ok ==> forall k :: 0 <= k < |states| && states[k].dataId == states[h].dataId ==>
                       !buffers[states[k].dataId].empty
    {
      var buf := AppendPrologue(h);
      buf := buf + PrintLine(point);
      ok := gp.Write(buf);
      if ok {
        AppendEpilogue(h);
      }
    }

    /** append(tuple): as written, the tuple's fields and a newline, with no print command around them. */
    method AppendTuple(h: nat, point: seq<Number>) returns (ok: bool)
      requires Valid() && h < |states| && |point| > 0
      modifies this`activeDataId, this`buffers, gp
      ensures Valid() && activeDataId == states[h].dataId
      ensures var text := Prologue(old(activeDataId), states[h].dataId) + TupleText(point);
        && ok == Accepts(old(gp.remaining), 1)
        && gp.received == old(gp.received) + Accepted([text], old(gp.remaining))
        && gp.remaining == (if ok then Spent(old(gp.remaining), 1) else old(gp.remaining))
      ensures buffers == if ok then old(buffers)[states[h].dataId := SeriesData(empty := false, dirty := true)]
                         else old(buffers)
    {
      var buf := AppendPrologue(h);
      buf := buf + TupleText(point);
      ok := gp.Write(buf);
      if ok {
        AppendEpilogue(h);
      }
    }

    /**
     * append(first, last) over numbers: one print command with all of them;
     * as written, an empty run still writes a lone closing quote and marks
     * the buffer as holding data.
     */
    method AppendSequence(h: nat, values: seq<Number>) returns (ok: bool)
      requires Valid() && h < |states|
      modifies this`activeDataId, this`buffers, gp
      ensures Valid() && activeDataId == states[h].dataId
      ensures var text := Prologue(old(activeDataId), states[h].dataId) + SequenceLine(values);
        && ok == Accepts(old(gp.remaining), 1)
        && gp.received == old(gp.received) + Accepted([text], old(gp.remaining))
        && gp.remaining == (if ok then Spent(old(gp.remaining), 1) else old(gp.remaining))
      ensures buffers == if ok then old(buffers)[states[h].dataId := SeriesData(empty := false, dirty := true)]
                         else old(buffers)
    {
      var buf := AppendPrologue(h);
      var line := SequenceText(values);
      buf := buf + line;
      ok := gp.Write(buf);
      if ok {
        AppendEpilogue(h);
      }
    }

    /**
     * append(first, last, batchSize) over tuples: nothing at all for an
     * empty run; otherwise the prologue, then one write per batch of
     * batchSize print commands, the prologue travelling with the first
     * batch. A refused write ends the append; the buffer is marked only
     * once every batch got through.
     */
    method AppendBatched(h: nat, points: seq<seq<Number>>, batchSize: nat) returns (ok: bool)
      requires Valid() && h < |states| && batchSize > 0
      modifies this`activeDataId, this`buffers, gp
      ensures Valid()
      ensures activeDataId == if points == [] then old(activeDataId) else states[h].dataId
      ensures var writes := BatchWrites(Prologue(old(activeDataId), states[h].dataId), Batches(points, batchSize));
        && ok == Accepts(old(gp.remaining), |writes|)
        && gp.received == old(gp.received) + Accepted(writes, old(gp.remaining))
        && gp.remaining == Spent(old(gp.remaining), |Accepted(writes, old(gp.remaining))|)
      ensures buffers == if ok && points != [] then old(buffers)[states[h].dataId := SeriesData(empty := false, dirty := true)]
                         else old(buffers)
    {
      if points == [] {
        return true;
      }
      var pro := AppendPrologue(h);
      ok := WriteBatches(pro, points, batchSize);
      if ok {
        AppendEpilogue(h);
      }
    }

    /** The write loop of the batched append: one write per batch, stopping at the first refusal. */
    method WriteBatches(pro: string, points: seq<seq<Number>>, batchSize: nat) returns (ok: bool)
      requires batchSize > 0 && points != []
      modifies gp
      ensures var writes := BatchWrites(pro, Batches(points, batchSize));
        && ok == Accepts(old(gp.remaining), |writes|)
        && gp.received == old(gp.received) + Accepted(writes, old(gp.remaining))
        && gp.remaining == Spent(old(gp.remaining), |Accepted(writes, old(gp.remaining))|)
    {
      ghost var rem0 := gp.remaining;
      ghost var recv0 := gp.received;
      ghost var all := Batches(points, batchSize);
      ghost var writes := BatchWrites(pro, all);
      BatchWritesLength(pro, all);
      ghost var k := 0;
      ok := true;
      var rest := points;
      var buf := pro;
      while rest != []
        invariant 0 <= k <= |all| && all[k..] == Batches(rest, batchSize)
        invariant buf == if k == 0 then pro else ""
        invariant Accepts(rem0, k)
        invariant gp.received == recv0 + writes[..k]
        invariant gp.remaining == Spent(rem0, k)
        decreases |rest|
      {
        var n := if |rest| < batchSize then |rest| else batchSize;
        var batch := BatchText(rest[..n]);
        DropOne(all, k, batch, Batches(rest[n..], batchSize));
        BatchWritesAt(pro, all, k);
        assert writes[k] == buf + batch;
        buf := buf + batch;
        SpentStep(rem0, k);
        ok := gp.Write(buf);
        if !ok {
          AcceptedStops(writes, rem0, k);
          return;
        }
        AcceptedAll([buf], Spent(rem0, k));
        Extend(recv0, writes, k);
        buf := "";
        k := k + 1;
        rest := rest[n..];
      }
      assert writes[..k] == writes;
    }

    /** clear(): undefine the buffer's dataset; on success the buffer is empty and has changed. */
    method Clear(h: nat) returns (ok: bool)
      requires Valid() && h < |states|
      modifies this`buffers, gp
      ensures Valid()
      ensures ok == Accepts(old(gp.remaining), 1)
      ensures gp.received == old(gp.received) + Accepted([Undefine(states[h].dataId)], old(gp.remaining))
      ensures gp.remaining == if ok then Spent(old(gp.remaining), 1) else old(gp.remaining)
      ensures buffers == if ok then old(buffers)[states[h].dataId := SeriesData(empty := true, dirty := true)]
                         else old(buffers)
    {
      var id := states[h].dataId;
      ok := gp.Write(Undefine(id));
      if ok {
        buffers := buffers[id := SeriesData(empty := true, dirty := true)];
      }
    }

    /**
     * removeSeries(series): clears the series, then marks it removed and the
     * plot dirty. It stays in the list, and is counted, until the next update.
     */
    method RemoveSeries(h: nat) returns (ok: bool)
      requires Valid() && h < |states|
      modifies this`buffers, this`states, this`dirty, gp
      ensures Valid() && NumSeries() == old(NumSeries())
      ensures ok == Accepts(old(gp.remaining), 1)
      ensures gp.received == old(gp.received) + Accepted([Undefine(old(states[h].dataId))], old(gp.remaining))
      ensures gp.remaining == if ok then Spent(old(gp.remaining), 1) else old(gp.remaining)
      ensures ok ==> && buffers == old(buffers)[old(states[h].dataId) := SeriesData(empty := true, dirty := true)]
                     && states == old(states)[h := old(states[h]).(removed := true)]
                     && dirty
      ensures !ok ==> buffers == old(buffers) && states == old(states) && dirty == old(dirty)
    {
      ok := Clear(h);
      if ok {
        states := states[h := states[h].(removed := true)];
        dirty := true;
      }
    }

    // ---------------------------------------------------------- update

    /**
     * update(): on an empty list, nothing. Otherwise one pass over the list
     * erases removed series and consumes the change flags of live ones; if
     * anything asks for a redraw, the terminal line is written, then (when
     * some series has data) the range block if ranges or axes changed, with
     * the plot command. A refused write ends the update.
     */
    method Update() returns (ok: bool)
      requires Valid()
      modifies this`series, this`states, this`buffers, this`dirty, this`rangesDirty, gp
      ensures Valid()
      ensures var r := UpdateStep(old(Model()), old(gp.remaining));
        && Model() == r.model && ok == r.ok
        && gp.received == old(gp.received) + Texts(r.sent)
        && gp.remaining == Spent(old(gp.remaining), |r.sent|)
    {
      ghost var m := Model();
      UpdateStepWellFormed(m, gp.remaining);
      if series == [] {
        assert gp.received == old(gp.received) + Texts([]);
        return true;
      }
      ok := UpdateList();
    }

    /** update on a non-empty list: the pass over the list, then the writes it calls for. */
    method UpdateList() returns (ok: bool)
      requires Valid() && series != []
      modifies this`series, this`states, this`buffers, this`dirty, this`rangesDirty, gp
      ensures var r := UpdateStep(old(Model()), old(gp.remaining));
        && series == r.model.series && states == r.model.states && buffers == r.model.buffers
        && dirty == r.model.dirty && rangesDirty == r.model.rangesDirty && ok == r.ok
        && gp.received == old(gp.received) + Texts(r.sent)
        && gp.remaining == Spent(old(gp.remaining), |r.sent|)
    {
      ghost var m := Model();
      var redraw, axesDirty, used := Pass();
      assert ranges[..] == m.ranges;
      assert StartScan(m) == Scan([], m.states, m.buffers, m.dirty, false, [false, false, false, false]);
      ghost var sc := ScanAll(StartScan(m), m.series);
      PassCommandsShape(m, sc);
      ghost var sent;
      ok, sent := Redraw(PassCommands(m, sc), redraw, axesDirty, used);
    }

    /**
     * The writes of update once the pass is done: the terminal line if a
     * redraw is due; then, if some listed series has data, the range block
     * when ranges or axes changed, with the plot command. cmds are the
     * commands this is meant to write; sent are those the child accepts.
     */
    method Redraw(ghost cmds: seq<Command>, redraw: bool, axesDirty: bool, used: array<bool>)
      returns (ok: bool, ghost sent: seq<Command>)
      requires ranges.Length == 4 && used.Length == 4
      requires KeysIn(series, |states|) && forall h :: 0 <= h < |states| ==> states[h].dataId < |buffers|
      requires redraw == (cmds != []) && |cmds| <= 2 && forall i :: 0 <= i < |cmds| ==> CommandOk(cmds[i])
      requires cmds != [] ==> cmds[0] == Terminal(title, font, fontSize, position, size)
      requires cmds != [] ==> (|cmds| == 1 <==> Rendered(states, buffers, series) == [])
      requires |cmds| == 2 ==>
        cmds[1] == Draw(ranges[..], used[..], rangesDirty || axesDirty, Clauses(states, Rendered(states, buffers, series)))
      modifies this`dirty, this`rangesDirty, gp
      ensures |sent| <= |cmds| && forall i :: 0 <= i < |sent| ==> CommandOk(sent[i])
      ensures sent == Accepted(cmds, old(gp.remaining)) && ok == (sent == cmds)
      ensures gp.received == old(gp.received) + Texts(sent) && gp.remaining == Spent(old(gp.remaining), |sent|)
      ensures dirty == (old(dirty) && |sent| < 2) && rangesDirty == (old(rangesDirty) && sent == [])
    {
      ghost var recv, rem := gp.received, gp.remaining;
      sent := [];
      if !redraw {
        assert gp.received == recv + Texts(sent);
        return true, sent;
      }
      var term := TerminalLine(title, font, fontSize, position, size);
      ok := gp.Write(term);
      if !ok {
        AcceptedStops(cmds, rem, 0);
        assert Accepted([term], rem) == [];
        assert gp.received == recv + Texts(sent);
        return;
      }
      sent := [cmds[0]];
      AcceptedAll([term], rem);
      assert Texts(sent) == [term];
      ghost var rest;
      ok, rest := DrawStep(cmds[1..], axesDirty, used);
      AcceptedCons(cmds, rem);
      SpentAdd(rem, 1, |rest|);
      sent := [cmds[0]] + rest;
      TextsCons(cmds[0], rest);
      Associate(recv, [term], Texts(rest));
    }

    /**
     * The second write of update: the draw step when a series holds data.
     * rest is the draw command when there is one, sent what the child accepts.
     */
    method DrawStep(ghost rest: seq<Command>, axesDirty: bool, used: array<bool>)
      returns (ok: bool, ghost sent: seq<Command>)
      requires ranges.Length == 4 && used.Length == 4
      requires KeysIn(series, |states|) && forall h :: 0 <= h < |states| ==> states[h].dataId < |buffers|
      requires |rest| <= 1 && (rest == [] <==> Rendered(states, buffers, series) == [])
      requires forall i :: 0 <= i < |rest| ==> CommandOk(rest[i])
      requires rest != [] ==>
        rest[0] == Draw(ranges[..], used[..], rangesDirty || axesDirty, Clauses(states, Rendered(states, buffers, series)))
      modifies this`dirty, this`rangesDirty, gp
      ensures sent == Accepted(rest, old(gp.remaining)) && ok == (sent == rest)
      ensures forall i :: 0 <= i < |sent| ==> CommandOk(sent[i])
      ensures gp.received == old(gp.received) + Texts(sent) && gp.remaining == Spent(old(gp.remaining), |sent|)
      ensures dirty == (old(dirty) && sent == []) && !rangesDirty
    {
      var text, first := DrawText(axesDirty, used);
      if first {
        assert gp.received == old(gp.received) + Texts([]);
        return true, [];
      }
      TextsOne(rest, text);
      ok, sent := SendDraw(rest, text);
    }

    /** Writes the draw step's text; only its acceptance clears the plot's dirty flag. */
    method SendDraw(ghost rest: seq<Command>, text: string) returns (ok: bool, ghost sent: seq<Command>)
      requires |rest| == 1 && CommandOk(rest[0]) && Texts(rest) == [text]
      modifies this`dirty, gp
      ensures sent == Accepted(rest, old(gp.remaining)) && ok == (sent == rest) && (sent == [] || sent == rest)
      ensures gp.received == old(gp.received) + Texts(sent) && gp.remaining == Spent(old(gp.remaining), |sent|)
      ensures dirty == (old(dirty) && sent == [])
    {
      ghost var rem := gp.remaining;
      ok := gp.Write(text);
      if !ok {
        AcceptedStops(rest, rem, 0);
        assert Accepted([text], rem) == [];
        assert gp.received == old(gp.received) + Texts([]);
        return false, [];
      }
      dirty := false;
      AcceptedAll([text], rem);
      AcceptedAll(rest, rem);
      sent := rest;
    }

    /**
     * The text of the draw step: the range and tics block when ranges or
     * axes changed (which clears the range flag), then the plot command;
     * first says that no series holds data, so nothing is drawn.
     */
    method DrawText(axesDirty: bool, used: array<bool>) returns (text: string, first: bool)
      requires ranges.Length == 4 && used.Length == 4
      requires KeysIn(series, |states|) && forall h :: 0 <= h < |states| ==> states[h].dataId < |buffers|
      modifies this`rangesDirty
      ensures !rangesDirty && first == (Rendered(states, buffers, series) == [])
      ensures text == PlotText(old(ranges[..]), old(used[..]), old(rangesDirty) || axesDirty,
        Clauses(states, Rendered(states, buffers, series)))
    {
      var list, sts, bufs := series, states, buffers;
      text := "";
      if rangesDirty || axesDirty {
        text := RangeBlockText(used);
        rangesDirty := false;
      }
      var line;
      line, first := PlotLine(sts, bufs, list);
      Associate(text, line, "\n");
      text := text + line + "\n";
    }

    /**
     * update's loop over the list: erases removed series in place, and for
     * each series whose buffer holds data consumes its change flags and
     * those of its buffer, noting the axis slots of series whose axes changed.
     */
    method Pass() returns (redraw: bool, axesDirty: bool, used: array<bool>)
      requires Valid()
      modifies this`series, this`states, this`buffers
      ensures fresh(used)
      ensures var sc := ScanAll(Scan([], old(states), old(buffers), old(dirty), false, [false, false, false, false]), old(series));
        && series == sc.kept && states == sc.states && buffers == sc.buffers
        && redraw == sc.dirty && axesDirty == sc.axesDirty && used[..] == sc.used
    {
      used := new bool[4](_ => false);
      var list, sts, bufs;
      list, sts, bufs, redraw, axesDirty := ScanList(series, states, buffers, dirty, used);
      series, states, buffers := list, sts, bufs;
    }

    /** update's loop on the values of the list, the arena and the axis slots it fills in. */
    static method ScanList(keys: seq<nat>, states: seq<SeriesState>, buffers: seq<SeriesData>, dirty: bool, used: array<bool>)
      returns (list: seq<nat>, sts: seq<SeriesState>, bufs: seq<SeriesData>, redraw: bool, axesDirty: bool)
      requires used.Length == 4 && used[..] == [false, false, false, false]
      requires ScanOk(Scan([], states, buffers, dirty, false, used[..])) && KeysIn(keys, |states|)
      modifies used
      ensures Scan(list, sts, bufs, redraw, axesDirty, used[..])
           == ScanAll(Scan([], states, buffers, dirty, false, [false, false, false, false]), keys)
    {
      ghost var acc0 := Scan([], states, buffers, dirty, false, [false, false, false, false]);
      ghost var j := 0;
      list, sts, bufs := keys, states, buffers;
      redraw := dirty;
      axesDirty := false;
      var i: nat := 0;
      while i < |list|
        invariant ScanOk(acc0) && KeysIn(keys, |acc0.states|) && j <= |keys| && KeysIn(keys[..j], |acc0.states|)
        invariant i <= |list| && list[i..] == keys[j..] && used.Length == 4
        invariant Scan(list[..i], sts, bufs, redraw, axesDirty, used[..]) == ScanAll(acc0, keys[..j])
        decreases |keys| - j
      {
        list, i, sts, bufs, redraw, axesDirty := PassStep(acc0, keys, j, list, i, sts, bufs, redraw, axesDirty, used);
        j := j + 1;
      }
      assert keys[..j] == keys;
    }

    /** One turn of update's loop, stated against the functional pass over the first j keys. */
    static method PassStep(ghost acc0: Scan, ghost keys: seq<nat>, ghost j: nat, list: seq<nat>, i: nat,
                           sts: seq<SeriesState>, bufs: seq<SeriesData>, redraw: bool, axesDirty: bool, used: array<bool>)
      returns (list': seq<nat>, i': nat, sts': seq<SeriesState>, bufs': seq<SeriesData>, redraw': bool, axesDirty': bool)
      requires ScanOk(acc0) && KeysIn(keys, |acc0.states|) && j <= |keys| && KeysIn(keys[..j], |acc0.states|)
      requires i < |list| && list[i..] == keys[j..] && used.Length == 4
      requires Scan(list[..i], sts, bufs, redraw, axesDirty, used[..]) == ScanAll(acc0, keys[..j])
      modifies used
      ensures j + 1 <= |keys| && KeysIn(keys[..j + 1], |acc0.states|)
      ensures i' <= |list'| && list'[i'..] == keys[j + 1..]
      ensures Scan(list'[..i'], sts', bufs', redraw', axesDirty', used[..]) == ScanAll(acc0, keys[..j + 1])
    {
      assert |keys[j..]| == |list| - i > 0;
      ScanStep(acc0, keys, j);
      assert list[i] == keys[j..][0] == keys[j];
      list', i', sts', bufs', redraw', axesDirty' := VisitSeries(list, i, sts, bufs, redraw, axesDirty, used);
      assert keys[j..][1..] == keys[j + 1..];
    }

    /**
     * One step of update's loop at position i of the list: a removed series
     * is erased there; a series whose buffer holds data has its change flags
     * and its buffer's consumed and, when its axes changed, marks their slots.
     */
    static method VisitSeries(list: seq<nat>, i: nat, sts: seq<SeriesState>, bufs: seq<SeriesData>,
                              redraw: bool, axesDirty: bool, used: array<bool>)
      returns (list': seq<nat>, i': nat, sts': seq<SeriesState>, bufs': seq<SeriesData>, redraw': bool, axesDirty': bool)
      requires i < |list| && used.Length == 4
      requires ScanOk(Scan(list[..i], sts, bufs, redraw, axesDirty, used[..])) && list[i] < |sts|
      modifies used
      ensures i' <= |list'| && list'[i'..] == list[i + 1..]
      ensures Scan(list'[..i'], sts', bufs', redraw', axesDirty', used[..])
           == Visit(Scan(list[..i], sts, bufs, redraw, axesDirty, old(used[..])), list[i])
    {
      var k := list[i];
      var s := sts[k];
      list', i', sts', bufs', redraw', axesDirty' := list, i, sts, bufs, redraw, axesDirty;
      if s.removed {
        list' := list[..i] + list[i + 1..];
        redraw' := true;
        assert list'[..i] == list[..i];
        assert list'[i..] == list[i + 1..];
      } else {
        var id := s.dataId;
        if !bufs[id].empty {
          redraw' := redraw || s.dirty || bufs[id].dirty;
          bufs' := bufs[id := bufs[id].(dirty := false)];
          if s.axesDirty {
            used[AxisIndex(XAxis(s.axes.x))] := true;
            used[AxisIndex(YAxis(s.axes.y))] := true;
            axesDirty' := true;
          }
          sts' := sts[k := WithFlags(s, false, false)];
        }
        i' := i + 1;
        assert list[..i + 1] == list[..i] + [k];
      }
    }

    /** The range block of an update, axis by axis in canonical order. */
    method RangeBlockText(used: array<bool>) returns (t: string)
      requires ranges.Length == 4 && used.Length == 4
      ensures t == RangeBlock(ranges[..], used[..])
    {
      ghost var blocks := AxisBlocks(ranges[..], used[..]);
      t := "";
      var i := 0;
      while i < 4
        invariant 0 <= i <= 4 && t == Concat(blocks[..i])
      {
        var a := CanonicalAxes[i];
        var index := AxisIndex(a);
        var block := AxisBlock(a, ranges[index], used[index]);
        TakeOne(blocks, i);
        ConcatSnoc(blocks[..i], block);
        t := t + block;
        i := i + 1;
      }
      assert blocks[..4] == blocks;
    }

    /**
     * The plot command of an update without its newline: `plot ` and the
     * clauses of the listed series whose buffers hold data, comma-separated;
     * first tells whether there was none.
     */
    static method PlotLine(states: seq<SeriesState>, buffers: seq<SeriesData>, series: seq<nat>) returns (t: string, first: bool)
      requires KeysIn(series, |states|) && forall h :: 0 <= h < |states| ==> states[h].dataId < |buffers|
      ensures first == (Rendered(states, buffers, series) == [])
      ensures t == "plot " + Join(Clauses(states, Rendered(states, buffers, series)), ",")
    {
      t := "plot ";
      first := true;
      ghost var drawn: seq<nat> := [];
      var i := 0;
      while i < |series|
        invariant i <= |series| && KeysIn(series[..i], |states|)
        invariant drawn == Rendered(states, buffers, series[..i]) && first == (drawn == [])
        invariant t == "plot " + Join(Clauses(states, drawn), ",")
      {
        t, first, drawn := PlotStep(states, buffers, series, i, t, first, drawn);
        i := i + 1;
      }
      assert series[..i] == series;
    }

    /** One turn of the plot command's loop: series[i] adds its clause when its buffer holds data. */
    static method PlotStep(states: seq<SeriesState>, buffers: seq<SeriesData>, series: seq<nat>, i: nat,
                           t: string, first: bool, ghost drawn: seq<nat>)
      returns (t': string, first': bool, ghost drawn': seq<nat>)
      requires KeysIn(series, |states|) && forall h :: 0 <= h < |states| ==> states[h].dataId < |buffers|
      requires i < |series| && KeysIn(series[..i], |states|)
      requires drawn == Rendered(states, buffers, series[..i]) && first == (drawn == [])
      requires t == "plot " + Join(Clauses(states, drawn), ",")
      ensures KeysIn(series[..i + 1], |states|)
      ensures drawn' == Rendered(states, buffers, series[..i + 1]) && first' == (drawn' == [])
      ensures t' == "plot " + Join(Clauses(states, drawn'), ",")
    {
      RenderedStep(states, buffers, series, i);
      var k := series[i];
      t', first', drawn' := t, first, drawn;
      if !buffers[states[k].dataId].empty {
        ClausesSnoc(states, drawn, k);
        t' := AddClause(t, first, Clauses(states, drawn), states[k]);
        first' := false;
        drawn' := drawn + [k];
      }
    }
  }

  /** Adds the clause of series s to a plot command holding the clauses cs. */
  method AddClause(t: string, first: bool, ghost cs: seq<string>, s: SeriesState) returns (t': string)
    requires first == (cs == []) && t == "plot " + Join(cs, ",")
    ensures t' == "plot " + Join(cs + [SeriesClause(s)], ",")
  {
    var clause := SeriesClause(s);
    JoinStep(t, cs, clause, first);
    t' := t;
    if !first {
      t' := t' + ",";
    }
    t' := t' + clause;
  }

  lemma JoinStep(t: string, cs: seq<string>, c: string, first: bool)
    requires first == (cs == []) && t == "plot " + Join(cs, ",")
    ensures (if first then t else t + ",") + c == "plot " + Join(cs + [c], ",")
  {
    if !first {
      JoinSnoc(cs, c, ",");
      Associate("plot ", Join(cs, ","), "," + c);
      Associate("plot " + Join(cs, ","), ",", c);
    } else {
      assert cs + [c] == [c];
    }
  }

  lemma RenderedStep(states: seq<SeriesState>, buffers: seq<SeriesData>, keys: seq<nat>, i: nat)
    requires KeysIn(keys, |states|) && i < |keys|
    requires forall h :: 0 <= h < |states| ==> states[h].dataId < |buffers|
    ensures KeysIn(keys[..i], |states|) && KeysIn(keys[..i + 1], |states|)
    ensures buffers[states[keys[i]].dataId].empty ==>
      Rendered(states, buffers, keys[..i + 1]) == Rendered(states, buffers, keys[..i])
    ensures !buffers[states[keys[i]].dataId].empty ==>
      Rendered(states, buffers, keys[..i + 1]) == Rendered(states, buffers, keys[..i]) + [keys[i]]
  {
    assert keys[..i + 1][..i] == keys[..i];
    var r := Rendered(states, buffers, keys[..i]);
    assert r + [] == r;
  }

  lemma ClausesSnoc(states: seq<SeriesState>, keys: seq<nat>, k: nat)
    requires KeysIn(keys, |states|) && k < |states|
    ensures KeysIn(keys + [k], |states|)
    ensures Clauses(states, keys + [k]) == Clauses(states, keys) + [SeriesClause(states[k])]
  {
  }

  /** The print command of append(first, last) over numbers, built one number at a time. */
  method SequenceText(values: seq<Number>) returns (t: string)
    ensures t == SequenceLine(values)
  {
    t := "";
    if |values| > 0 {
      t := "print \"" + NumberText(values[0]);
      FieldsSnoc([], values[0]);
      assert values[..1] == [values[0]];
      var i := 1;
      while i < |values|
        invariant 1 <= i <= |values|
        invariant t == "print \"" + Fields(values[..i])
      {
        FieldsSnoc(values[..i], values[i]);
        assert values[..i + 1] == values[..i] + [values[i]];
        t := t + " " + NumberText(values[i]);
        i := i + 1;
      }
      assert values[..i] == values;
    }
    t := t + "\"\n";
  }

  /** The print lines of one batch of the batched append, one point at a time. */
  method BatchText(batch: seq<seq<Number>>) returns (t: string)
    ensures t == BatchedLines(batch)
  {
    t := "";
    var i := 0;
    while i < |batch|
      invariant 0 <= i <= |batch|
      invariant t == BatchedLines(batch[..i])
    {
      BatchedLinesAppend(batch[..i], [batch[i]]);
      assert batch[..i + 1] == batch[..i] + [batch[i]];
      t := t + BatchedLine(batch[i]);
      i := i + 1;
    }
    assert batch[..i] == batch;
  }

  lemma DropOne<T>(s: seq<T>, k: nat, x: T, rest: seq<T>)
    requires k < |s| && s[k..] == [x] + rest
    ensures s[k] == x && s[k + 1..] == rest
  {
    assert s[k] == s[k..][0];
    assert s[k + 1..] == s[k..][1..];
  }

  /** A prefix of k + 1 writes is the prefix of k followed by the next one. */
  lemma Extend<T>(r: seq<T>, s: seq<T>, k: nat)
    requires k < |s|
    ensures r + s[..k + 1] == r + s[..k] + [s[k]]
  {
    assert s[..k + 1] == s[..k] + [s[k]];
  }

  lemma Associate<T>(a: seq<T>, b: seq<T>, c: seq<T>)
    ensures (a + b) + c == a + (b + c)
  {
  }

  lemma TextsOne(cmds: seq<Command>, t: string)
    requires |cmds| == 1 && CommandOk(cmds[0]) && Rendering(cmds[0]) == t
    ensures Texts(cmds) == [t]
  {
  }

  lemma TextsCons(c: Command, cmds: seq<Command>)
    requires CommandOk(c) && forall i :: 0 <= i < |cmds| ==> CommandOk(cmds[i])
    ensures Texts([c] + cmds) == [Rendering(c)] + Texts(cmds)
  {
    assert ([c] + cmds)[1..] == cmds;
  }

  /** The first write accepted, the rest meet the capacity it leaves. */
  lemma AcceptedCons<T>(cmds: seq<T>, remaining: Option<nat>)
    requires cmds != [] && Accepts(remaining, 1)
    ensures Accepted(cmds, remaining) == [cmds[0]] + Accepted(cmds[1..], Spent(remaining, 1))
  {
  }

  lemma SpentAdd(remaining: Option<nat>, k: nat, n: nat)
    requires Accepts(remaining, k) && Accepts(Spent(remaining, k), n)
    ensures Accepts(remaining, k + n) && Spent(Spent(remaining, k), n) == Spent(remaining, k + n)
  {
  }

  lemma TakeOne<T>(s: seq<T>, k: nat)
    requires k < |s|
    ensures s[..k + 1] == s[..k] + [s[k]]
  {
  }

  /** When every write is accepted, the child receives all of them. */
  lemma AcceptedAll<T>(cmds: seq<T>, remaining: Option<nat>)
    requires Accepts(remaining, |cmds|)
    ensures Accepted(cmds, remaining) == cmds
  {
  }

  /** One more accepted write after k of them is the same as k + 1 accepted writes. */
  lemma SpentStep(remaining: Option<nat>, k: nat)
    requires Accepts(remaining, k)
    ensures Accepts(Spent(remaining, k), 1) == Accepts(remaining, k + 1)
    ensures Accepts(remaining, k + 1) ==> Spent(Spent(remaining, k), 1) == Spent(remaining, k + 1)
  {
  }

  /** The writes of a refused run: exactly the k the child accepted. */
  lemma AcceptedStops<T>(cmds: seq<T>, remaining: Option<nat>, k: nat)
    requires k < |cmds| && Accepts(remaining, k) && !Accepts(remaining, k + 1)
    ensures Accepted(cmds, remaining) == cmds[..k]
  {
  }

  lemma BatchWritesLength(pro: string, all: seq<string>)
    ensures |BatchWrites(pro, all)| == |all|
  {
  }

  lemma BatchWritesAt(pro: string, all: seq<string>, k: nat)
    requires k < |all|
    ensures |BatchWrites(pro, all)| == |all|
    ensures BatchWrites(pro, all)[k] == if k == 0 then pro + all[0] else all[k]
  {
  }

}
