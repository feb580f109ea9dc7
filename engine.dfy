/**
 * The state-synchronisation engine of Plot::update as functions of a plot
 * snapshot: the compaction/aggregation pass over the series list, the text
 * it writes, and what it leaves behind.
 */
module Engine {
  import opened Wrappers
  import opened Text
  import opened Values
  import opened Records
  import opened Commands

  /**
   * A snapshot of PlotPriv (without the child process and the scratch
   * buffer) together with the series and data objects it reaches: `states`
   * holds every SeriesPriv ever created on the plot, indexed by handle;
   * `buffers` every SeriesDataPriv, indexed by its id; `series` is the
   * plot's list of handles, in insertion order.
   */
  datatype PlotModel = PlotModel(
    title: string,
    font: string,
    fontSize: int,
    position: Option<(int, int)>,
    size: Option<(nat, nat)>,
    ranges: seq<Range>,
    nextDataId: nat,
    activeDataId: int,
    series: seq<nat>,
    states: seq<SeriesState>,
    buffers: seq<SeriesData>,
    dirty: bool,
    rangesDirty: bool)

  predicate Distinct(keys: seq<nat>)
  {
    forall i, j :: 0 <= i < j < |keys| ==> keys[i] != keys[j]
  }

  /**
   * The plot's invariants: four range slots; ids are handed out 0, 1, 2, ...
   * so the next id is the number of buffers; every series refers to an
   * existing buffer; the list holds existing series, each once; the print
   * target is none (-1) or an existing buffer.
   */
  predicate WellFormed(m: PlotModel)
  {
    && |m.ranges| == 4
    && m.nextDataId == |m.buffers|
    && (forall h :: 0 <= h < |m.states| ==> m.states[h].dataId < |m.buffers|)
    && (forall i :: 0 <= i < |m.series| ==> m.series[i] < |m.states|)
    && Distinct(m.series)
    && (m.activeDataId == -1 || 0 <= m.activeDataId < m.nextDataId)
  }

  // ------------------------------------------------------ the series pass

  /** The running values of update's loop over the series list. */
  datatype Scan = Scan(
    kept: seq<nat>,
    states: seq<SeriesState>,
    buffers: seq<SeriesData>,
    dirty: bool,
    axesDirty: bool,
    used: seq<bool>)

  predicate ScanOk(acc: Scan)
  {
    && |acc.used| == 4
    && KeysIn(acc.kept, |acc.states|)
    && forall h :: 0 <= h < |acc.states| ==> acc.states[h].dataId < |acc.buffers|
  }

  predicate KeysIn(keys: seq<nat>, n: nat)
  {
    forall i :: 0 <= i < |keys| ==> keys[i] < n
  }

  /** A series is live when it is not removed and its buffer holds data. */
  predicate Live(states: seq<SeriesState>, buffers: seq<SeriesData>, k: nat)
    requires k < |states| && states[k].dataId < |buffers|
  {
    !states[k].removed && !buffers[states[k].dataId].empty
  }

  /** A series asks for a redraw when it was removed, or is live with a changed attribute or new data. */
  predicate Wants(states: seq<SeriesState>, buffers: seq<SeriesData>, k: nat)
    requires k < |states| && states[k].dataId < |buffers|
  {
    states[k].removed || (Live(states, buffers, k) && (states[k].dirty || buffers[states[k].dataId].dirty))
  }

  /** The axis slots a pair occupies. */
  predicate InSlot(p: AxesPair, j: nat)
  {
    j == AxisIndex(XAxis(p.x)) || j == AxisIndex(YAxis(p.y))
  }

  /** The presentation attributes and tombstone of s, with its two change flags set to d and a. */
  function WithFlags(s: SeriesState, d: bool, a: bool): SeriesState
  {
    s.(dirty := d, axesDirty := a)
  }

  /** One step of update's loop: erase a removed series, consume the flags of a live one. */
  function Visit(acc: Scan, k: nat): (r: Scan)
    requires ScanOk(acc) && k < |acc.states|
    ensures ScanOk(r) && |r.states| == |acc.states| && |r.buffers| == |acc.buffers|
    ensures forall h :: 0 <= h < |r.states| ==>
      r.states[h] == WithFlags(acc.states[h], r.states[h].dirty, r.states[h].axesDirty)
    ensures forall d :: 0 <= d < |r.buffers| ==> r.buffers[d].empty == acc.buffers[d].empty
  {
    var s := acc.states[k];
    if s.removed then acc.(dirty := true)
    else if acc.buffers[s.dataId].empty then acc.(kept := acc.kept + [k])
    else
      var d := acc.buffers[s.dataId];
      var used := if s.axesDirty
        then acc.used[AxisIndex(XAxis(s.axes.x)) := true][AxisIndex(YAxis(s.axes.y)) := true]
        else acc.used;
      Scan(acc.kept + [k],
           acc.states[k := WithFlags(s, false, false)],
           acc.buffers[s.dataId := d.(dirty := false)],
           acc.dirty || s.dirty || d.dirty,
           acc.axesDirty || s.axesDirty,
           used)
  }

  /** update's loop over the whole list. Only the change flags of series and buffers ever change. */
  function ScanAll(acc: Scan, keys: seq<nat>): (r: Scan)
    requires ScanOk(acc) && KeysIn(keys, |acc.states|)
    ensures ScanOk(r) && |r.states| == |acc.states| && |r.buffers| == |acc.buffers|
    ensures forall h :: 0 <= h < |r.states| ==>
      r.states[h] == WithFlags(acc.states[h], r.states[h].dirty, r.states[h].axesDirty)
    ensures forall d :: 0 <= d < |r.buffers| ==> r.buffers[d].empty == acc.buffers[d].empty
    decreases |keys|
  {
    if keys == [] then acc else Visit(ScanAll(acc, keys[..|keys| - 1]), keys[|keys| - 1])
  }

  /** The loop's starting values: the plot's dirty flag, nothing erased, no axis used. */
  function StartScan(m: PlotModel): (acc: Scan)
    requires WellFormed(m)
    ensures ScanOk(acc)
  {
    Scan([], m.states, m.buffers, m.dirty, false, [false, false, false, false])
  }

  // -------------------------------------------- reference definitions

  /** The keys whose series are not removed, in their original order. */
  function Survivors(states: seq<SeriesState>, keys: seq<nat>): (r: seq<nat>)
    requires KeysIn(keys, |states|)
    ensures |r| <= |keys| && KeysIn(r, |states|)
    decreases |keys|
  {
    if keys == [] then []
    else Survivors(states, keys[..|keys| - 1]) + (if states[keys[|keys| - 1]].removed then [] else [keys[|keys| - 1]])
  }

  /** The keys whose buffers hold data, in their original order: the series the plot command draws. */
  function Rendered(states: seq<SeriesState>, buffers: seq<SeriesData>, keys: seq<nat>): (r: seq<nat>)
    requires KeysIn(keys, |states|) && forall h :: 0 <= h < |states| ==> states[h].dataId < |buffers|
    ensures |r| <= |keys| && KeysIn(r, |states|)
    decreases |keys|
  {
    if keys == [] then []
    else
      var k := keys[|keys| - 1];
      Rendered(states, buffers, keys[..|keys| - 1]) + (if buffers[states[k].dataId].empty then [] else [k])
  }

  /** Some live key of keys feeds buffer d. */
  predicate Feeds(states: seq<SeriesState>, buffers: seq<SeriesData>, keys: seq<nat>, d: nat)
    requires KeysIn(keys, |states|) && forall h :: 0 <= h < |states| ==> states[h].dataId < |buffers|
  {
    exists i :: 0 <= i < |keys| && Live(states, buffers, keys[i]) && states[keys[i]].dataId == d
  }

  /** Some key of keys asks for a redraw. */
  predicate AnyWants(states: seq<SeriesState>, buffers: seq<SeriesData>, keys: seq<nat>)
    requires KeysIn(keys, |states|) && forall h :: 0 <= h < |states| ==> states[h].dataId < |buffers|
  {
    exists i :: 0 <= i < |keys| && Wants(states, buffers, keys[i])
  }

  /** Some live key of keys has axesDirty set and occupies slot j. */
  predicate MarksSlot(states: seq<SeriesState>, buffers: seq<SeriesData>, keys: seq<nat>, j: nat)
    requires KeysIn(keys, |states|) && forall h :: 0 <= h < |states| ==> states[h].dataId < |buffers|
  {
    exists i :: 0 <= i < |keys| && Live(states, buffers, keys[i]) && states[keys[i]].axesDirty
                && InSlot(states[keys[i]].axes, j)
  }

  /** Some live key of keys has axesDirty set. */
  predicate AnyAxesDirty(states: seq<SeriesState>, buffers: seq<SeriesData>, keys: seq<nat>)
    requires KeysIn(keys, |states|) && forall h :: 0 <= h < |states| ==> states[h].dataId < |buffers|
  {
    exists i :: 0 <= i < |keys| && Live(states, buffers, keys[i]) && states[keys[i]].axesDirty
  }

  // ------------------------------------------------ what the pass does

  /** The loop after j + 1 keys is one more visit after j keys. */
  lemma ScanStep(acc: Scan, keys: seq<nat>, j: nat)
    requires ScanOk(acc) && KeysIn(keys, |acc.states|) && j < |keys|
    ensures KeysIn(keys[..j], |acc.states|) && KeysIn(keys[..j + 1], |acc.states|)
    ensures ScanAll(acc, keys[..j + 1]) == Visit(ScanAll(acc, keys[..j]), keys[j])
  {
    assert keys[..j + 1][..j] == keys[..j];
  }


  predicate ScanInput(acc: Scan, keys: seq<nat>)
  {
    ScanOk(acc) && KeysIn(keys, |acc.states|) && Distinct(keys)
  }

  lemma DistinctPrefix(keys: seq<nat>)
    requires |keys| > 0 && Distinct(keys)
    ensures Distinct(keys[..|keys| - 1]) && keys[|keys| - 1] !in keys[..|keys| - 1]
  {
  }

  /** The pass keeps exactly the series that are not removed, in list order. */
  lemma {:induction false} ScanKept(acc: Scan, keys: seq<nat>)
    requires ScanInput(acc, keys)
    ensures ScanAll(acc, keys).kept == acc.kept + Survivors(acc.states, keys)
    decreases |keys|
  {
    if keys != [] {
      var init, k := keys[..|keys| - 1], keys[|keys| - 1];
      DistinctPrefix(keys);
      ScanKept(acc, init);
      var r0 := ScanAll(acc, init);
      assert r0.states[k].removed == acc.states[k].removed;
      var tail := if acc.states[k].removed then [] else [k];
      assert acc.kept + Survivors(acc.states, init) + tail == acc.kept + (Survivors(acc.states, init) + tail);
    }
  }

  /** The pass clears both change flags of every live series of the list, and touches no other series. */
  lemma {:induction false} ScanStates(acc: Scan, keys: seq<nat>)
    requires ScanInput(acc, keys)
    ensures forall h :: 0 <= h < |acc.states| ==>
      (ScanAll(acc, keys).states[h] ==
       if h in keys && Live(acc.states, acc.buffers, h) then WithFlags(acc.states[h], false, false) else acc.states[h])
    decreases |keys|
  {
    if keys != [] {
      var init, k := keys[..|keys| - 1], keys[|keys| - 1];
      DistinctPrefix(keys);
      ScanStates(acc, init);
      var r0 := ScanAll(acc, init);
      assert r0.states[k] == acc.states[k];
      assert r0.buffers[acc.states[k].dataId].empty == acc.buffers[acc.states[k].dataId].empty;
      forall h | 0 <= h < |acc.states|
        ensures ScanAll(acc, keys).states[h] == if h in keys && Live(acc.states, acc.buffers, h) then WithFlags(acc.states[h], false, false) else acc.states[h]
      {
        assert h in keys <==> h in init || h == k;
      }
    }
  }

  // Feeds, AnyWants, MarksSlot and AnyAxesDirty over a list with one more key.

  lemma SnocFeeds(states: seq<SeriesState>, buffers: seq<SeriesData>, keys: seq<nat>)
    requires |keys| > 0 && KeysIn(keys, |states|) && forall h :: 0 <= h < |states| ==> states[h].dataId < |buffers|
    ensures var init, k := keys[..|keys| - 1], keys[|keys| - 1];
      forall d :: Feeds(states, buffers, keys, d) <==>
        Feeds(states, buffers, init, d) || (Live(states, buffers, k) && states[k].dataId == d)
  {
    var init, k := keys[..|keys| - 1], keys[|keys| - 1];
    assert forall i :: 0 <= i < |init| ==> init[i] == keys[i];
  }

  lemma SnocWants(states: seq<SeriesState>, buffers: seq<SeriesData>, keys: seq<nat>)
    requires |keys| > 0 && KeysIn(keys, |states|) && forall h :: 0 <= h < |states| ==> states[h].dataId < |buffers|
    ensures var init, k := keys[..|keys| - 1], keys[|keys| - 1];
      AnyWants(states, buffers, keys) <==> AnyWants(states, buffers, init) || Wants(states, buffers, k)
  {
    var init, k := keys[..|keys| - 1], keys[|keys| - 1];
    assert forall i :: 0 <= i < |init| ==> init[i] == keys[i];
  }

  lemma SnocMarks(states: seq<SeriesState>, buffers: seq<SeriesData>, keys: seq<nat>)
    requires |keys| > 0 && KeysIn(keys, |states|) && forall h :: 0 <= h < |states| ==> states[h].dataId < |buffers|
    ensures var init, k := keys[..|keys| - 1], keys[|keys| - 1];
      forall j :: MarksSlot(states, buffers, keys, j) <==>
        MarksSlot(states, buffers, init, j) || (Live(states, buffers, k) && states[k].axesDirty && InSlot(states[k].axes, j))
  {
    var init, k := keys[..|keys| - 1], keys[|keys| - 1];
    assert forall i :: 0 <= i < |init| ==> init[i] == keys[i];
  }

  lemma SnocAxes(states: seq<SeriesState>, buffers: seq<SeriesData>, keys: seq<nat>)
    requires |keys| > 0 && KeysIn(keys, |states|) && forall h :: 0 <= h < |states| ==> states[h].dataId < |buffers|
    ensures var init, k := keys[..|keys| - 1], keys[|keys| - 1];
      AnyAxesDirty(states, buffers, keys) <==> AnyAxesDirty(states, buffers, init) || (Live(states, buffers, k) && states[k].axesDirty)
  {
    var init, k := keys[..|keys| - 1], keys[|keys| - 1];
    assert forall i :: 0 <= i < |init| ==> init[i] == keys[i];
  }

  /** The pass clears the dirty flag of exactly the buffers that some live series of the list draws from. */
  lemma {:induction false} ScanBuffers(acc: Scan, keys: seq<nat>)
    requires ScanInput(acc, keys)
    ensures forall d :: 0 <= d < |acc.buffers| ==>
      (ScanAll(acc, keys).buffers[d] ==
       if Feeds(acc.states, acc.buffers, keys, d) then acc.buffers[d].(dirty := false) else acc.buffers[d])
    decreases |keys|
  {
    if keys != [] {
      var init, k := keys[..|keys| - 1], keys[|keys| - 1];
      DistinctPrefix(keys);
      ScanBuffers(acc, init);
      ScanStates(acc, init);
      SnocFeeds(acc.states, acc.buffers, keys);
      var r0 := ScanAll(acc, init);
      var r := ScanAll(acc, keys);
      assert r == Visit(r0, k);
      assert r0.states[k] == acc.states[k];
      var e := acc.states[k].dataId;
      assert r0.buffers[e].empty == acc.buffers[e].empty;
      var live := Live(acc.states, acc.buffers, k);
      assert live ==> r.buffers == r0.buffers[e := r0.buffers[e].(dirty := false)];
      assert !live ==> r.buffers == r0.buffers;
      forall d | 0 <= d < |acc.buffers|
        ensures r.buffers[d] ==
          if Feeds(acc.states, acc.buffers, keys, d) then acc.buffers[d].(dirty := false) else acc.buffers[d]
      {
      }
    }
  }

  /**
   * The pass asks for a redraw exactly when the plot was already dirty or some
   * series of the list was removed or is live with a changed attribute or new data.
   */
  lemma {:induction false} ScanDirty(acc: Scan, keys: seq<nat>)
    requires ScanInput(acc, keys)
    ensures ScanAll(acc, keys).dirty == (acc.dirty || AnyWants(acc.states, acc.buffers, keys))
    decreases |keys|
  {
    if keys != [] {
      var init, k := keys[..|keys| - 1], keys[|keys| - 1];
      DistinctPrefix(keys);
      ScanDirty(acc, init);
      ScanStates(acc, init);
      ScanBuffers(acc, init);
      SnocWants(acc.states, acc.buffers, keys);
      var r0 := ScanAll(acc, init);
      assert r0.states[k] == acc.states[k];
      var e := acc.states[k].dataId;
      if Live(acc.states, acc.buffers, k) && acc.buffers[e].dirty && !r0.buffers[e].dirty {
        // an earlier series sharing the buffer consumed its flag, and asked for the redraw then
        FedWants(acc.states, acc.buffers, init, e);
      }
    }
  }

  /** A live series of keys that draws from a changed buffer wants a redraw. */
  lemma FedWants(states: seq<SeriesState>, buffers: seq<SeriesData>, keys: seq<nat>, d: nat)
    requires KeysIn(keys, |states|) && forall h :: 0 <= h < |states| ==> states[h].dataId < |buffers|
    requires d < |buffers| && Feeds(states, buffers, keys, d) && buffers[d].dirty
    ensures AnyWants(states, buffers, keys)
  {
    var i :| 0 <= i < |keys| && Live(states, buffers, keys[i]) && states[keys[i]].dataId == d;
    assert Wants(states, buffers, keys[i]);
  }

  /** The pass reports changed axes exactly when some live series of the list has axesDirty set. */
  lemma {:induction false} ScanAxesDirty(acc: Scan, keys: seq<nat>)
    requires ScanInput(acc, keys)
    ensures ScanAll(acc, keys).axesDirty == (acc.axesDirty || AnyAxesDirty(acc.states, acc.buffers, keys))
    decreases |keys|
  {
    if keys != [] {
      var init, k := keys[..|keys| - 1], keys[|keys| - 1];
      DistinctPrefix(keys);
      ScanAxesDirty(acc, init);
      ScanStates(acc, init);
      SnocAxes(acc.states, acc.buffers, keys);
      var r0 := ScanAll(acc, init);
      assert r0.states[k] == acc.states[k];
      assert r0.buffers[acc.states[k].dataId].empty == acc.buffers[acc.states[k].dataId].empty;
    }
  }

  /** The pass marks exactly the axis slots that live series of the list with axesDirty set occupy. */
  lemma {:induction false} ScanUsed(acc: Scan, keys: seq<nat>)
    requires ScanInput(acc, keys)
    ensures forall j :: 0 <= j < 4 ==>
      (ScanAll(acc, keys).used[j] == (acc.used[j] || MarksSlot(acc.states, acc.buffers, keys, j)))
    decreases |keys|
  {
    if keys != [] {
      var init, k := keys[..|keys| - 1], keys[|keys| - 1];
      DistinctPrefix(keys);
      ScanUsed(acc, init);
      ScanStates(acc, init);
      SnocMarks(acc.states, acc.buffers, keys);
      var r0 := ScanAll(acc, init);
      var s := acc.states[k];
      assert r0.states[k] == s;
      assert r0.buffers[s.dataId].empty == acc.buffers[s.dataId].empty;
      var r := ScanAll(acc, keys);
      assert r == Visit(r0, k);
      if Live(acc.states, acc.buffers, k) && s.axesDirty {
        assert r.used == r0.used[AxisIndex(XAxis(s.axes.x)) := true][AxisIndex(YAxis(s.axes.y)) := true];
      } else {
        assert r.used == r0.used;
      }
    }
  }

  // ------------------------------------------------------------- update

  /** Whether a child process that accepts `remaining` more writes (None: any number) accepts n of them. */
  predicate Accepts(remaining: Option<nat>, n: nat)
  {
    remaining.None? || n <= remaining.value
  }

  /**
   * The two writes update makes, as values: the terminal line, and the
   * optional range block together with the plot command.
   */
  datatype Command =
    | Terminal(title: string, font: string, fontSize: int, position: Option<(int, int)>, size: Option<(nat, nat)>)
    | Draw(ranges: seq<Range>, used: seq<bool>, changed: bool, clauses: seq<string>)

  predicate CommandOk(c: Command)
  {
    c.Draw? ==> |c.ranges| == 4 && |c.used| == 4
  }

  /** The text a command is written as. */
  function Rendering(c: Command): string
    requires CommandOk(c)
  {
    match c
    case Terminal(title, font, fontSize, position, size) => TerminalLine(title, font, fontSize, position, size)
    case Draw(ranges, used, changed, clauses) => PlotText(ranges, used, changed, clauses)
  }

  /** The part of the writes `cmds` a child that accepts `remaining` more writes takes, in order. */
  function Accepted<T>(cmds: seq<T>, remaining: Option<nat>): (r: seq<T>)
    ensures |r| <= |cmds| && r == cmds[..|r|]
    ensures Accepts(remaining, |r|)
    ensures |r| < |cmds| ==> !Accepts(remaining, |r| + 1)
  {
    if Accepts(remaining, |cmds|) then cmds else cmds[..remaining.value]
  }

  /** The child's remaining capacity after n accepted writes. */
  function Spent(remaining: Option<nat>, n: nat): Option<nat>
    requires Accepts(remaining, n)
  {
    match remaining
    case None => None
    case Some(c) => Some(c - n)
  }

  /** The plot after update, the commands the child accepted, and whether no write failed. */
  datatype UpdateResult = UpdateResult(model: PlotModel, sent: seq<Command>, ok: bool)

  /** The plot-command clauses of the given series, in order. */
  function Clauses(states: seq<SeriesState>, keys: seq<nat>): seq<string>
    requires KeysIn(keys, |states|)
  {
    seq(|keys|, i requires 0 <= i < |keys| => SeriesClause(states[keys[i]]))
  }

  /** update's second write: the range block, when ranges or axes changed, then the plot command. */
  function PlotText(ranges: seq<Range>, used: seq<bool>, changed: bool, clauses: seq<string>): string
    requires |ranges| == 4 && |used| == 4
  {
    (if changed then RangeBlock(ranges, used) else "") + PlotCommand(clauses)
  }

  // --------------------------------------- update against the references

  /** The four axis slots some live series with changed axes occupies, slot by slot. */
  function UsedSlots(m: PlotModel): (used: seq<bool>)
    requires WellFormed(m)
    ensures |used| == 4
  {
    seq(4, j requires 0 <= j < 4 => MarksSlot(m.states, m.buffers, m.series, j))
  }

  /** The series of the plot that the plot command draws: those of the list that are live, in order. */
  function Drawn(m: PlotModel): seq<nat>
    requires WellFormed(m)
  {
    Rendered(m.states, m.buffers, Survivors(m.states, m.series))
  }

  lemma SurvivorsIn(states: seq<SeriesState>, keys: seq<nat>)
    requires KeysIn(keys, |states|)
    ensures KeysIn(Survivors(states, keys), |states|)
    ensures forall k :: k in Survivors(states, keys) <==> k in keys && !states[k].removed
    decreases |keys|
  {
    if keys != [] {
      SurvivorsIn(states, keys[..|keys| - 1]);
      assert keys == keys[..|keys| - 1] + [keys[|keys| - 1]];
    }
  }

  /** Rendered ignores the change flags: it reads only the buffers' emptiness. */
  lemma {:induction false} RenderedIgnoresFlags(states: seq<SeriesState>, buffers: seq<SeriesData>,
                                                 states': seq<SeriesState>, buffers': seq<SeriesData>, keys: seq<nat>)
    requires KeysIn(keys, |states|) && |states'| == |states| && |buffers'| == |buffers|
    requires forall h :: 0 <= h < |states| ==> states[h].dataId < |buffers|
    requires forall h :: 0 <= h < |states| ==> states'[h].dataId == states[h].dataId
    requires forall d :: 0 <= d < |buffers| ==> buffers'[d].empty == buffers[d].empty
    ensures Rendered(states', buffers', keys) == Rendered(states, buffers, keys)
    decreases |keys|
  {
    if keys != [] {
      RenderedIgnoresFlags(states, buffers, states', buffers', keys[..|keys| - 1]);
    }
  }

  /** The clause of a series ignores its change flags. */
  lemma ClausesIgnoreFlags(states: seq<SeriesState>, states': seq<SeriesState>, keys: seq<nat>)
    requires KeysIn(keys, |states|) && |states'| == |states|
    requires forall h :: 0 <= h < |states| ==> states'[h] == WithFlags(states[h], states'[h].dirty, states'[h].axesDirty)
    ensures Clauses(states', keys) == Clauses(states, keys)
  {
    forall i | 0 <= i < |keys| ensures SeriesClause(states'[keys[i]]) == SeriesClause(states[keys[i]]) {
      var h := keys[i];
      ClauseIgnoresFlags(states[h], states'[h].dirty, states'[h].axesDirty);
    }
  }

  lemma ClauseIgnoresFlags(s: SeriesState, d: bool, a: bool)
    ensures SeriesClause(WithFlags(s, d, a)) == SeriesClause(s)
  {
    OptionsIgnoreFlags(s, d, a, 0);
  }

  lemma {:induction false} OptionsIgnoreFlags(s: SeriesState, d: bool, a: bool, slot: nat)
    ensures OptionsFrom(WithFlags(s, d, a), slot) == OptionsFrom(s, slot)
    decreases OptionSlots - slot
  {
    if slot < OptionSlots {
      OptionsIgnoreFlags(s, d, a, slot + 1);
      var t := WithFlags(s, d, a);
      assert SeriesOption(t, slot) == SeriesOption(s, slot) by {
        assert t.title == s.title && t.plotStyle == s.plotStyle && t.color == s.color;
        assert t.lineWidth == s.lineWidth && t.pointType == s.pointType && t.pointSize == s.pointSize;
        assert t.smooth == s.smooth && t.axes == s.axes;
      }
    }
  }

  lemma RenderedIn(states: seq<SeriesState>, buffers: seq<SeriesData>, keys: seq<nat>)
    requires KeysIn(keys, |states|) && forall h :: 0 <= h < |states| ==> states[h].dataId < |buffers|
    ensures KeysIn(Rendered(states, buffers, keys), |states|)
    ensures forall k :: k in Rendered(states, buffers, keys) <==> k in keys && !buffers[states[k].dataId].empty
    decreases |keys|
  {
    if keys != [] {
      RenderedIn(states, buffers, keys[..|keys| - 1]);
      assert keys == keys[..|keys| - 1] + [keys[|keys| - 1]];
    }
  }

  /** The plot command draws exactly the live series of the list, each once. */
  lemma DrawnAreLive(m: PlotModel)
    requires WellFormed(m)
    ensures forall k :: k in Drawn(m) <==> k in m.series && Live(m.states, m.buffers, k)
  {
    SurvivorsIn(m.states, m.series);
    RenderedIn(m.states, m.buffers, Survivors(m.states, m.series));
  }

  lemma SurvivorsDistinct(states: seq<SeriesState>, keys: seq<nat>)
    requires KeysIn(keys, |states|) && Distinct(keys)
    ensures Distinct(Survivors(states, keys))
    decreases |keys|
  {
    if keys != [] {
      var init := keys[..|keys| - 1];
      DistinctPrefix(keys);
      SurvivorsDistinct(states, init);
      SurvivorsIn(states, init);
    }
  }

  /** Filtering a second time, with the same tombstones, changes nothing. */
  lemma {:induction false} SurvivorsStable(states: seq<SeriesState>, states': seq<SeriesState>, keys: seq<nat>)
    requires KeysIn(keys, |states|) && |states'| == |states|
    requires forall h :: 0 <= h < |states| ==> states'[h].removed == states[h].removed
    ensures Survivors(states', Survivors(states, keys)) == Survivors(states, keys)
    decreases |keys|
  {
    if keys != [] {
      var init, k := keys[..|keys| - 1], keys[|keys| - 1];
      var s0 := Survivors(states, init);
      SurvivorsStable(states, states', init);
      if !states[k].removed {
        var s1 := s0 + [k];
        assert s1[..|s1| - 1] == s0 && s1[|s1| - 1] == k;
        assert Survivors(states', s1) == Survivors(states', s0) + [k];
        assert Survivors(states, keys) == s1;
      } else {
        assert Survivors(states, keys) == s0 + [];
        assert s0 + [] == s0;
      }
    }
  }

  /** The series states after the pass: both change flags of each live series of the list cleared. */
  function Consumed(m: PlotModel): (states: seq<SeriesState>)
    requires WellFormed(m)
    ensures |states| == |m.states|
  {
    seq(|m.states|, h requires 0 <= h < |m.states| =>
      if h in m.series && Live(m.states, m.buffers, h) then WithFlags(m.states[h], false, false) else m.states[h])
  }

  /** The buffers after the pass: the dirty flag of each buffer a live series of the list draws from cleared. */
  function Drained(m: PlotModel): (buffers: seq<SeriesData>)
    requires WellFormed(m)
    ensures |buffers| == |m.buffers|
  {
    seq(|m.buffers|, d requires 0 <= d < |m.buffers| =>
      if Feeds(m.states, m.buffers, m.series, d) then m.buffers[d].(dirty := false) else m.buffers[d])
  }

  /** The pass over the plot's own list leaves the state the reference definitions describe. */
  lemma PassState(m: PlotModel)
    requires WellFormed(m)
    ensures var sc := ScanAll(StartScan(m), m.series);
      && sc.kept == Survivors(m.states, m.series)
      && sc.states == Consumed(m)
      && sc.buffers == Drained(m)
  {
    var acc := StartScan(m);
    ScanKept(acc, m.series);
    ScanStates(acc, m.series);
    ScanBuffers(acc, m.series);
  }

  /** The pass over the plot's own list computes the flags the reference definitions describe. */
  lemma PassOutput(m: PlotModel)
    requires WellFormed(m)
    ensures var sc := ScanAll(StartScan(m), m.series);
      && sc.dirty == (m.dirty || AnyWants(m.states, m.buffers, m.series))
      && sc.axesDirty == AnyAxesDirty(m.states, m.buffers, m.series)
      && sc.used == UsedSlots(m)
  {
    var acc := StartScan(m);
    var sc := ScanAll(acc, m.series);
    ScanDirty(acc, m.series);
    ScanAxesDirty(acc, m.series);
    ScanUsed(acc, m.series);
    assert sc.used == UsedSlots(m);
  }

  /** The series the pass keeps with data are those the plot draws, and so are their clauses. */
  lemma PassClauses(m: PlotModel)
    requires WellFormed(m)
    ensures var sc := ScanAll(StartScan(m), m.series);
      && Rendered(sc.states, sc.buffers, sc.kept) == Drawn(m)
      && Clauses(sc.states, Rendered(sc.states, sc.buffers, sc.kept)) == Clauses(m.states, Drawn(m))
  {
    var acc := StartScan(m);
    var sc := ScanAll(acc, m.series);
    ScanKept(acc, m.series);
    assert [] + Survivors(m.states, m.series) == Survivors(m.states, m.series);
    RenderedIgnoresFlags(m.states, m.buffers, sc.states, sc.buffers, sc.kept);
    ClausesIgnoreFlags(m.states, sc.states, Rendered(m.states, m.buffers, sc.kept));
  }

  /**
   * The commands update means to write, in order, read off the plot directly:
   * none when the list is empty or nothing asks for a redraw; otherwise the
   * terminal line, then, when some series is drawn, the range block (only
   * when ranges or some drawn series' axes changed) followed by the plot command.
   */
  function Intended(m: PlotModel): (cmds: seq<Command>)
    requires WellFormed(m)
    ensures |cmds| <= 2 && forall i :: 0 <= i < |cmds| ==> CommandOk(cmds[i])
  {
    if m.series == [] || !(m.dirty || AnyWants(m.states, m.buffers, m.series)) then []
    else
      var term := Terminal(m.title, m.font, m.fontSize, m.position, m.size);
      if Drawn(m) == [] then [term]
      else
        var changed := m.rangesDirty || AnyAxesDirty(m.states, m.buffers, m.series);
        [term, Draw(m.ranges, UsedSlots(m), changed, Clauses(m.states, Drawn(m)))]
  }

  /**
   * Plot::update: nothing at all on an empty list; otherwise removed series
   * are erased from the list and the change flags of live series and their
   * buffers consumed, whatever happens next; then the intended commands are
   * written in order while the child accepts them. Writing the terminal line
   * drops the range flag (even when no plot command follows); only writing
   * the plot command clears the plot's dirty flag. A refused write ends the
   * update.
   */
  function UpdateEffect(m: PlotModel, remaining: Option<nat>): (r: UpdateResult)
    requires WellFormed(m)
    ensures |r.sent| <= 2 && forall i :: 0 <= i < |r.sent| ==> CommandOk(r.sent[i])
    ensures Accepts(remaining, |r.sent|)
    ensures !r.ok ==> !Accepts(remaining, |r.sent| + 1)
  {
    var cmds := Intended(m);
    var sent := Accepted(cmds, remaining);
    var m' := m.(series := Survivors(m.states, m.series), states := Consumed(m), buffers := Drained(m),
                 dirty := m.dirty && |sent| < 2, rangesDirty := m.rangesDirty && sent == []);
    UpdateResult(m', sent, sent == cmds)
  }

  /** On an empty list update does nothing at all: no write, and the plot as it was. */
  lemma UpdateOfEmptyList(m: PlotModel, remaining: Option<nat>)
    requires WellFormed(m) && m.series == []
    ensures UpdateEffect(m, remaining) == UpdateResult(m, [], true)
  {
    assert Consumed(m) == m.states;
    assert Drained(m) == m.buffers;
  }

  /**
   * The commands as the loop of update arrives at them: none unless the pass
   * asked for a redraw; otherwise the terminal line, then, when a kept series
   * holds data, the draw step built from the pass's flags, used slots and
   * kept list.
   */
  function PassCommands(m: PlotModel, sc: Scan): (cmds: seq<Command>)
    requires WellFormed(m) && ScanOk(sc)
    ensures |cmds| <= 2 && forall i :: 0 <= i < |cmds| ==> CommandOk(cmds[i])
  {
    if !sc.dirty then []
    else
      var term := Terminal(m.title, m.font, m.fontSize, m.position, m.size);
      var drawn := Rendered(sc.states, sc.buffers, sc.kept);
      if drawn == [] then [term]
      else [term, Draw(m.ranges, sc.used, m.rangesDirty || sc.axesDirty, Clauses(sc.states, drawn))]
  }

  /** The shape of the commands of a pass, term by term, as the writes of update produce them. */
  lemma PassCommandsShape(m: PlotModel, sc: Scan)
    requires WellFormed(m) && ScanOk(sc)
    ensures var cmds := PassCommands(m, sc);
      && (cmds != [] <==> sc.dirty)
      && (cmds != [] ==> cmds[0] == Terminal(m.title, m.font, m.fontSize, m.position, m.size))
      && (cmds != [] ==> (|cmds| == 1 <==> Rendered(sc.states, sc.buffers, sc.kept) == []))
      && (|cmds| == 2 ==>
            cmds[1] == Draw(m.ranges, sc.used, m.rangesDirty || sc.axesDirty,
                            Clauses(sc.states, Rendered(sc.states, sc.buffers, sc.kept))))
  {
  }

  /**
   * update as its loop computes it: nothing on an empty list; otherwise the
   * pass's list, states and buffers, and the commands the pass calls for,
   * written while the child accepts them.
   */
  function UpdateStep(m: PlotModel, remaining: Option<nat>): (r: UpdateResult)
    requires WellFormed(m)
  {
    if m.series == [] then UpdateResult(m, [], true)
    else
      var sc := ScanAll(StartScan(m), m.series);
      var cmds := PassCommands(m, sc);
      var sent := Accepted(cmds, remaining);
      UpdateResult(m.(series := sc.kept, states := sc.states, buffers := sc.buffers,
                      dirty := m.dirty && |sent| < 2, rangesDirty := m.rangesDirty && sent == []),
                   sent, sent == cmds)
  }

  /** On a non-empty list the pass calls for exactly the commands the plot itself calls for. */
  lemma PassCommandsIntended(m: PlotModel)
    requires WellFormed(m) && m.series != []
    ensures PassCommands(m, ScanAll(StartScan(m), m.series)) == Intended(m)
  {
    PassOutput(m);
    PassClauses(m);
  }

  /** The loop's update is update as the reference definitions describe it. */
  lemma UpdateStepIsEffect(m: PlotModel, remaining: Option<nat>)
    requires WellFormed(m)
    ensures UpdateStep(m, remaining) == UpdateEffect(m, remaining)
  {
    if m.series == [] {
      UpdateOfEmptyList(m, remaining);
    } else {
      PassCommandsIntended(m);
      PassState(m);
    }
  }

  /** The loop's update keeps the plot's invariants and writes only well-formed commands. */
  lemma UpdateStepWellFormed(m: PlotModel, remaining: Option<nat>)
    requires WellFormed(m)
    ensures var r := UpdateStep(m, remaining);
      WellFormed(r.model) && forall i :: 0 <= i < |r.sent| ==> CommandOk(r.sent[i])
  {
    UpdateStepIsEffect(m, remaining);
    UpdatePreservesWellFormed(m, remaining);
  }

  /** update keeps the plot's invariants. */
  lemma UpdatePreservesWellFormed(m: PlotModel, remaining: Option<nat>)
    requires WellFormed(m)
    ensures WellFormed(UpdateEffect(m, remaining).model)
  {
    SurvivorsDistinct(m.states, m.series);
  }

  /** m' is m after a pass: tombstones erased, the flags the pass consumes consumed. */
  predicate Passed(m: PlotModel, m': PlotModel)
    requires WellFormed(m)
  {
    && WellFormed(m')
    && m'.series == Survivors(m.states, m.series)
    && m'.states == Consumed(m)
    && m'.buffers == Drained(m)
  }

  lemma UpdatePasses(m: PlotModel, remaining: Option<nat>)
    requires WellFormed(m)
    ensures Passed(m, UpdateEffect(m, remaining).model)
  {
    UpdatePreservesWellFormed(m, remaining);
  }

  /** After a pass, no series left in the list is a tombstone or has an unconsumed change. */
  lemma PassedLeavesNoChange(m: PlotModel, m': PlotModel)
    requires WellFormed(m) && Passed(m, m')
    ensures Survivors(m'.states, m'.series) == m'.series
    ensures !AnyWants(m'.states, m'.buffers, m'.series)
  {
    SurvivorsIn(m.states, m.series);
    SurvivorsStable(m.states, m'.states, m.series);
    forall i | 0 <= i < |m'.series| ensures !Wants(m'.states, m'.buffers, m'.series[i]) {
      var k := m'.series[i];
      if Live(m'.states, m'.buffers, k) {
        var j :| 0 <= j < |m.series| && m.series[j] == k;
        assert Feeds(m.states, m.buffers, m.series, m.states[k].dataId);
      }
    }
  }

  /** After a pass, a second pass finds every series flag it would clear already clear. */
  lemma PassedLeavesSeriesClean(m: PlotModel, m': PlotModel)
    requires WellFormed(m) && Passed(m, m')
    ensures Consumed(m') == m'.states
  {
    SurvivorsIn(m.states, m.series);
    forall h | 0 <= h < |m'.states| ensures Consumed(m')[h] == m'.states[h] {
    }
  }

  /** After a pass, a second pass finds every buffer flag it would clear already clear. */
  lemma PassedLeavesBuffersClean(m: PlotModel, m': PlotModel)
    requires WellFormed(m) && Passed(m, m')
    ensures Drained(m') == m'.buffers
  {
    forall d | 0 <= d < |m'.buffers| ensures Drained(m')[d] == m'.buffers[d] {
      PassedLeavesBufferClean(m, m', d);
    }
  }

  lemma PassedLeavesBufferClean(m: PlotModel, m': PlotModel, d: nat)
    requires WellFormed(m) && Passed(m, m') && d < |m'.buffers|
    ensures Drained(m')[d] == m'.buffers[d]
  {
    if Feeds(m'.states, m'.buffers, m'.series, d) {
      var i :| 0 <= i < |m'.series| && Live(m'.states, m'.buffers, m'.series[i]) && m'.states[m'.series[i]].dataId == d;
      var k := m'.series[i];
      SurvivorsIn(m.states, m.series);
      assert k in m.series;
      var j :| 0 <= j < |m.series| && m.series[j] == k;
      assert m'.states[k].removed == m.states[k].removed && m'.states[k].dataId == m.states[k].dataId;
      assert m'.buffers[d].empty == m.buffers[d].empty;
      assert Live(m.states, m.buffers, m.series[j]) && m.states[m.series[j]].dataId == d;
      assert Feeds(m.states, m.buffers, m.series, d);
    }
  }

  /**
   * After an update whose plot command got through, a second update (with
   * no change in between) writes nothing and changes nothing.
   */
  lemma UpdateIdempotent(m: PlotModel, remaining: Option<nat>, remaining': Option<nat>)
    requires WellFormed(m)
    requires UpdateEffect(m, remaining).ok && |UpdateEffect(m, remaining).sent| == 2
    ensures var m' := UpdateEffect(m, remaining).model;
      WellFormed(m') && UpdateEffect(m', remaining') == UpdateResult(m', [], true)
  {
    var m' := UpdateEffect(m, remaining).model;
    UpdatePasses(m, remaining);
    PassedLeavesNoChange(m, m');
    PassedLeavesSeriesClean(m, m');
    PassedLeavesBuffersClean(m, m');
  }

  /** The plot command draws exactly the live series of the list, each once, in list order. */
  lemma DrawnDistinct(m: PlotModel)
    requires WellFormed(m)
    ensures Distinct(Drawn(m))
  {
    SurvivorsDistinct(m.states, m.series);
    RenderedDistinct(m.states, m.buffers, Survivors(m.states, m.series));
  }

  lemma RenderedDistinct(states: seq<SeriesState>, buffers: seq<SeriesData>, keys: seq<nat>)
    requires KeysIn(keys, |states|) && Distinct(keys)
    requires forall h :: 0 <= h < |states| ==> states[h].dataId < |buffers|
    ensures Distinct(Rendered(states, buffers, keys))
    decreases |keys|
  {
    if keys != [] {
      DistinctPrefix(keys);
      RenderedDistinct(states, buffers, keys[..|keys| - 1]);
      RenderedIn(states, buffers, keys[..|keys| - 1]);
    }
  }

  /**
   * As written, only series whose axes changed since the last update mark
   * their axes as used: when no live series has changed axes, every tics
   * line of the range block unsets the tics, whatever axes the series sit on.
   */
  lemma TicsFollowChangedAxes(m: PlotModel)
    requires WellFormed(m)
    ensures forall j :: 0 <= j < 4 && UsedSlots(m)[j] ==> AnyAxesDirty(m.states, m.buffers, m.series)
    ensures !AnyAxesDirty(m.states, m.buffers, m.series) ==> UsedSlots(m) == [false, false, false, false]
  {
    forall j | 0 <= j < 4 && UsedSlots(m)[j] ensures AnyAxesDirty(m.states, m.buffers, m.series) {
      var i :| 0 <= i < |m.series| && Live(m.states, m.buffers, m.series[i]) && m.states[m.series[i]].axesDirty
               && InSlot(m.states[m.series[i]].axes, j);
    }
  }

  /**
   * As written, a range change is lost when the terminal line goes out but no
   * series has data: the range flag is dropped although no range block was written.
   */
  lemma RangesDroppedWithoutPlot(m: PlotModel, remaining: Option<nat>)
    requires WellFormed(m) && m.series != [] && m.dirty && m.rangesDirty && Drawn(m) == [] && Accepts(remaining, 1)
    ensures var r := UpdateEffect(m, remaining);
      && r.ok && r.sent == [Terminal(m.title, m.font, m.fontSize, m.position, m.size)]
      && !r.model.rangesDirty && r.model.dirty
  {
  }

  /**
   * As written, a refused write still consumes the change flags: once the
   * terminal line is refused, an update of a plot that was not itself dirty
   * leaves nothing for the next update to redraw, even when the child
   * accepts everything again.
   */
  lemma RefusedUpdateLosesChanges(m: PlotModel, remaining': Option<nat>)
    requires WellFormed(m) && !m.dirty
    ensures var r := UpdateEffect(m, Some(0));
      WellFormed(r.model) && r.sent == [] && UpdateEffect(r.model, remaining').sent == []
  {
    var m' := UpdateEffect(m, Some(0)).model;
    UpdatePasses(m, Some(0));
    PassedLeavesNoChange(m, m');
  }
}
