# gnuplotxx state synchronisation, in Dafny

gnuplotxx is a header-only C++ library that drives a `gnuplot` child process
through its standard input. A `Plot` owns a list of `Series`. Every series
draws from a named gnuplot dataset (`$_<id>`), and a dataset can be shared by
several series. Setters change only what differs, and they mark the plot or
series as dirty. `append` streams data points into the dataset as `print`
commands, after redirecting gnuplot's `print` output with `set print $_<id>
append` when that dataset is not already the target. `clear` and
`removeSeries` undefine the dataset. `update()` compacts the list, consumes
the change flags, and writes at most two texts: the terminal line, then the
optional range/tics block together with the `plot` command.

This project models that engine (`include/gnuplotxx.h`) and proves what it
does:

- `text.dfy` (module `Text`): fmt's `{}` for integers, and joining and
  splitting texts, with their inverses.
- `values.dfy` (module `Values`): colours, the style and smoothing enums and
  their keyword tables, axes and their slots, and range values. Each comes
  with its textual form and a reader for it.
- `records.dfy` (module `Records`): `SeriesDataPriv` and `SeriesPriv` as
  values.
- `commands.dfy` (module `Commands`): every command text the library writes,
  and the lemmas that say what gnuplot reads back from it.
- `engine.dfy` (module `Engine`): `update` as functions of a plot snapshot.
  This covers the compaction pass (`Scan`/`Visit`/`ScanAll`), reference
  definitions read directly off the plot (`Survivors`, `Consumed`, `Drained`,
  `Drawn`, `UsedSlots`, `Intended`, `UpdateEffect`), and their equivalence.
- `plot.dfy` (module `Gnuplot`): the imperative handles. Class `Process` is
  the child's pipe. Class `Plot` holds the fields of `PlotPriv`; the
  per-axis ranges are an array. Every `SeriesPriv` and `SeriesDataPriv` of
  the plot lives in an arena (`states` by handle, `buffers` by id). The
  setters, append family, clear, remove and update are methods, with loops
  where the source has loops.

The child process is a `Process` object. It records the texts it accepted
and how many more writes it will accept (`None`: any number). A refused
write stands for `writeAll` failing, which makes the library throw
`std::system_error`. The model returns `ok == false` at the point of the
throw, and keeps every state change made before it.

## Model

| member | source | states |
|---|---|---|
| Values.Red | include/gnuplotxx.h:65 | red() is bits 16-23 of the packed colour, in 0..255 |
| Values.Green | include/gnuplotxx.h:66 | green() is bits 8-15, in 0..255 |
| Values.Blue | include/gnuplotxx.h:67 | blue() is bits 0-7, in 0..255 |
| Values.Alpha | include/gnuplotxx.h:68 | alpha() is bits 24-31, in 0..255 |
| Values.Rgba | include/gnuplotxx.h:69 | rgba() is the packed value as a signed 32-bit int; it is negative exactly when alpha >= 128 |
| Values.Fade | include/gnuplotxx.h:71-73 | fade(a) keeps red, green and blue and sets alpha to the low byte of a |
| Values.ChannelsRoundTrip | include/gnuplotxx.h:58-60 | the four-channel constructor followed by the channel getters gives back each channel in 0..255 |
| Values.PointTypeNumbers | include/gnuplotxx.h:273-290 | point types map to distinct gnuplot `pointtype` numbers 1..15 (Star is Asterisk) |
| Values.StyleKeywordRoundTrip | include/gnuplotxx.h:310-316 | the plot-style table is total, and each keyword names its style and no other |
| Values.SmoothKeywordRoundTrip | include/gnuplotxx.h:318-326 | the smoothing table is total, and each keyword names its smoothing and no other |
| Values.AxisIndex | include/gnuplotxx.h:421-439 | axisIndex maps each axis to a slot below 4 |
| Values.AxisIndexBijective | include/gnuplotxx.h:421-439 | axisIndex is a bijection from the four axes onto the slots 0..3 |
| Values.CanonicalAxesAreSlots | include/gnuplotxx.h:1341-1343 | update's axis order X1, Y1, X2, Y2 visits slot i at step i |
| Values.AxisTextRoundTrip | include/gnuplotxx.h:449-488 | an axis prints as x, y, x2 or y2, and each name reads back as its axis |
| Values.AxesTextRoundTrip | include/gnuplotxx.h:490-497 | an axes pair prints with the wide spec as x1y1..x2y2, and each name reads back as its pair |
| Values.RangeTextBounds | include/gnuplotxx.h:510-551 | "[min:max]" splits back at its colon into the two bounds; a bound prints as "*" exactly when it is Auto |
| Values.RangeValueFree | include/gnuplotxx.h:531-540 | a range value's text has no colon, and is "*" exactly for Auto |
| Values.LimitTextPieces | include/gnuplotxx.h:510-529 | a limit prints as its two ends separated by a single '<' |
| Values.LimitValueTextPlain | include/gnuplotxx.h:510-519 | a limit end's text is non-empty and has no ':' or '<' |
| Values.ToUnsigned | include/gnuplotxx.h:1195 | size(int, int) turns each int into an unsigned by adding 2^32 to negatives |
| Text.IntToStringRoundTrip | include/gnuplotxx.h:1082-1083 | every integer fmt prints reads back unchanged |
| Text.IntToStringInjective | include/gnuplotxx.h:1082-1083 | distinct integers print as distinct texts, so distinct ids name distinct datasets |
| Text.SplitJoin | include/gnuplotxx.h:1362-1363 | joining fields free of the separator is undone by splitting at it |
| Records.NewSeries | include/gnuplotxx.h:611-614 | a new series is drawn with points, line width and point size 1, on x1y1, with its axes changed and no colour, point type or smoothing |
| Commands.Prologue | include/gnuplotxx.h:1075-1088 | the prologue of an append is empty exactly when the buffer already is the print target |
| Commands.DatasetNameRoundTrip | include/gnuplotxx.h:1367-1368 | `$_<id>` names exactly dataset id |
| Commands.SetPrintRoundTrip | include/gnuplotxx.h:1081-1085 | the `set print` line redirects to exactly the buffer it was built for |
| Commands.UndefineRoundTrip | include/gnuplotxx.h:1055 | the `undefine` line discards exactly the buffer it was built for |
| Commands.FieldsSnoc | include/gnuplotxx.h:1010-1014 | the fields grow one space-separated number at a time |
| Commands.FieldsShape | include/gnuplotxx.h:834-841 | the fields of a point split at spaces back into the numbers' texts, and hold no quote or newline |
| Commands.PrintLineRoundTrip | include/gnuplotxx.h:982-992 | append(n1..nk) writes one print command from which gnuplot reads exactly the point's values, in order |
| Commands.BatchedLineBreaksQuote | include/gnuplotxx.h:1034-1036 | the batched append's line breaks before its closing quote, so it is not a one-line print |
| Commands.TupleTextIsNotPrint | include/gnuplotxx.h:994-1002 | the single-tuple append writes bare fields and a newline, with no print command |
| Commands.SequenceLineShape | include/gnuplotxx.h:1004-1019 | the number-run append writes the same line as the variadic one, or a lone quote for an empty run |
| Commands.RangeBlockLines | include/gnuplotxx.h:1340-1354 | the range block reads as the range line then the tics line of slots 0..3, each with its own range and usage |
| Commands.TerminalLineRoundTrip | include/gnuplotxx.h:1317-1331 | the terminal line opens with `set terminal qt enhanced title "`, is one line ended by its single newline, and reads back as the title, font, font size, window position and window size it was built from, the position present exactly when set and likewise the size (given a title and font without quotes or newlines, and a font without commas) |
| Commands.WindowRoundTrip | include/gnuplotxx.h:1321-1329 | the window options read back as the optional position followed by the optional size they were written from |
| Commands.SeriesOption | include/gnuplotxx.h:1367-1391 | of the seven option slots only colour, point type and smoothing are ever empty, each exactly when that attribute is unset |
| Commands.SeriesOptions | include/gnuplotxx.h:1367-1391 | the options are the quoted title followed by the words of the style, colour, width, point, smoothing and axes options in that order, each after one space |
| Commands.SeriesClauseRoundTrip | include/gnuplotxx.h:1367-1391 | a clause reads back as its dataset and title, `with` and a keyword naming the style, `linecolor rgb` with the rgba number exactly when a colour is set, the line width, `pointtype` with the ordinal plus one and the point size exactly when a point type is set, `smooth` with a keyword naming the smoothing exactly when set, and `axes` with a name that reads back to the axes pair, in that order (given a title without quotes and plain number texts) |
| Commands.SeriesClauseNamesDataset | include/gnuplotxx.h:1367-1368 | a plot clause opens with the dataset name as its own word |
| Commands.PlotCommandClauses | include/gnuplotxx.h:1356-1396 | the plot command is "plot ", the comma-joined clauses and a newline, and splitting at commas gives back the clauses |
| Commands.BatchesCoverAll | include/gnuplotxx.h:1032-1042 | the batches together hold every point's line in order, and there are ceil(n / batchSize) of them |
| Commands.BatchedLinesAppend | include/gnuplotxx.h:1032-1037 | the batched lines of two runs are the lines of each run, concatenated |
| Engine.ScanAll | include/gnuplotxx.h:1294-1314 | the pass changes only the two change flags of series and the dirty flag of buffers, and keeps every buffer's emptiness |
| Engine.ScanKept | include/gnuplotxx.h:1296-1300 | the pass appends to the kept list exactly the non-removed series of the list, in order |
| Engine.ScanStates | include/gnuplotxx.h:1302-1311 | the pass clears both change flags of exactly the live series of the list |
| Engine.ScanBuffers | include/gnuplotxx.h:1303-1304 | the pass clears the dirty flag of exactly the buffers a live series of the list draws from |
| Engine.ScanDirty | include/gnuplotxx.h:1291-1303 | the pass asks for a redraw exactly when the plot was dirty, or a listed series was removed or is live with changes in it or its buffer |
| Engine.ScanAxesDirty | include/gnuplotxx.h:1306-1311 | the pass reports changed axes exactly when a live listed series has axesDirty set |
| Engine.ScanUsed | include/gnuplotxx.h:1306-1308 | the pass marks exactly the slots occupied by live listed series whose axes changed |
| Engine.Accepted | include/gnuplotxx.h:1332-1334 | the commands the child takes form a prefix of those offered, all of them when it accepts that many |
| Engine.PassState | include/gnuplotxx.h:1294-1314 | the pass leaves the list, series and buffers that Survivors, Consumed and Drained describe |
| Engine.PassOutput | include/gnuplotxx.h:1291-1314 | the pass's redraw, axes and slot results are those AnyWants, AnyAxesDirty and UsedSlots describe |
| Engine.PassClauses | include/gnuplotxx.h:1356-1393 | the series the plot command draws after the pass are Drawn(m), with the same clauses |
| Engine.DrawnAreLive | include/gnuplotxx.h:1358-1360 | the plot command draws exactly the live series of the list |
| Engine.DrawnDistinct | include/gnuplotxx.h:1358-1393 | the plot command draws each series at most once |
| Engine.ClausesIgnoreFlags | include/gnuplotxx.h:1304-1309 | consuming the change flags does not alter any plot clause |
| Engine.UpdateEffect | include/gnuplotxx.h:1280-1404 | update writes at most two well-formed commands, the child accepts every one written, and a failed update means the child refused the next one |
| Engine.UpdateOfEmptyList | include/gnuplotxx.h:1285-1286 | on an empty list update writes nothing and changes nothing |
| Engine.PassCommandsIntended | include/gnuplotxx.h:1316-1402 | the commands the loop arrives at are the ones Intended reads off the plot |
| Engine.UpdateStepIsEffect | include/gnuplotxx.h:1280-1404 | the loop's update equals the reference UpdateEffect on every plot and child |
| Engine.UpdatePreservesWellFormed | include/gnuplotxx.h:1280-1404 | update keeps the plot's invariants |
| Engine.UpdateStepWellFormed | include/gnuplotxx.h:1280-1404 | the loop's update keeps the invariants and writes only well-formed commands |
| Engine.UpdatePasses | include/gnuplotxx.h:1294-1314 | whatever the child accepts, the plot after update is the plot after one pass |
| Engine.PassedLeavesNoChange | include/gnuplotxx.h:1294-1314 | after a pass no listed series is removed or has an unconsumed change |
| Engine.PassedLeavesSeriesClean | include/gnuplotxx.h:1302-1311 | a second pass would find every series flag already clear |
| Engine.PassedLeavesBuffersClean | include/gnuplotxx.h:1303-1304 | a second pass would find every buffer flag already clear |
| Engine.UpdateIdempotent | include/gnuplotxx.h:1280-1404 | after an update whose plot command went through, a second update writes nothing and changes nothing |
| Engine.TicsFollowChangedAxes | include/gnuplotxx.h:1306-1308 | only series whose axes changed mark slots, so with no axis change every tics line unsets |
| Engine.RangesDroppedWithoutPlot | include/gnuplotxx.h:1340-1402 | with no series holding data, the terminal line goes out and the range change is dropped unwritten |
| Engine.RefusedUpdateLosesChanges | include/gnuplotxx.h:1302-1334 | a refused terminal line still consumes the series' change flags, so the next update writes nothing |
| Gnuplot.Process.Write | include/gnuplotxx.h:672-690 | a write is accepted whole or not at all, and uses up one accepted write |
| Gnuplot.Plot.constructor | include/gnuplotxx.h:810-831 | a new plot has font Sans at 9 points, no print target, automatic ranges, and no series |
| Gnuplot.Plot.SetSeriesTitle | include/gnuplotxx.h:870-877 | a new title replaces the old and marks the series dirty; the same title changes nothing |
| Gnuplot.Plot.SetSeriesStyle | include/gnuplotxx.h:884-891 | the same for the plot style |
| Gnuplot.Plot.SetSeriesColor | include/gnuplotxx.h:898-905 | the same for the colour |
| Gnuplot.Plot.SetSeriesLineWidth | include/gnuplotxx.h:912-919 | the same for the line width |
| Gnuplot.Plot.SetSeriesPointType | include/gnuplotxx.h:926-933 | the same for the point type |
| Gnuplot.Plot.SetSeriesPointSize | include/gnuplotxx.h:940-947 | the same for the point size |
| Gnuplot.Plot.SetSeriesSmooth | include/gnuplotxx.h:954-961 | the same for the smoothing |
| Gnuplot.Plot.SetSeriesAxes | include/gnuplotxx.h:968-975 | new axes also mark the series' axes as changed |
| Gnuplot.Plot.SetTitle | include/gnuplotxx.h:1118-1125 | the title is set, and the plot becomes dirty exactly when it changed |
| Gnuplot.Plot.SetFont | include/gnuplotxx.h:1132-1139 | the same for the font |
| Gnuplot.Plot.SetFontAndSize | include/gnuplotxx.h:1141-1149 | font and size are set, and the plot becomes dirty when either changed |
| Gnuplot.Plot.SetFontSize | include/gnuplotxx.h:1156-1163 | the same for the font size |
| Gnuplot.Plot.SetPosition | include/gnuplotxx.h:1170-1177 | the same for the window position |
| Gnuplot.Plot.SetPositionXY | include/gnuplotxx.h:1179 | position(x, y) sets the position to (x, y) |
| Gnuplot.Plot.SetSize | include/gnuplotxx.h:1186-1193 | the same for the window size |
| Gnuplot.Plot.SetSizeWH | include/gnuplotxx.h:1195 | size(w, h) sets the size to the unsigned conversions of w and h |
| Gnuplot.Plot.SetRange | include/gnuplotxx.h:1202-1210 | range(axis) becomes r and the other axes keep theirs; a change marks the plot and its ranges dirty |
| Gnuplot.Plot.SetRangeMinMax | include/gnuplotxx.h:1212-1214 | range(axis, min, max) is range(axis, {min, max}) |
| Gnuplot.Plot.CreateSeries | include/gnuplotxx.h:1221-1231 | a new buffer with the next id and a new series on it at the end of the list; its id exceeds every earlier one |
| Gnuplot.Plot.CreateSeriesSharing | include/gnuplotxx.h:1233-1242 | a new series at the end of the list, drawing from the source's buffer |
| Gnuplot.Plot.NumSeries | include/gnuplotxx.h:1244-1248 | the length of the list, removed series included |
| Gnuplot.Plot.GetSeries | include/gnuplotxx.h:1250-1257 | the series at that position, or none exactly when the index is past the end |
| Gnuplot.Plot.FindSeries | include/gnuplotxx.h:1259-1268 | the first listed series with that title, or none exactly when no listed series has it |
| Gnuplot.Plot.AppendPrologue | include/gnuplotxx.h:1075-1088 | writes `set print` unless the buffer is the print target, which it becomes |
| Gnuplot.Plot.AppendEpilogue | include/gnuplotxx.h:1090-1095 | the buffer holds data and has new data; nothing else changes |
| Gnuplot.Plot.Append | include/gnuplotxx.h:982-992 | one write of prologue and print line; on success every series sharing the buffer has data |
| Gnuplot.Plot.AppendTuple | include/gnuplotxx.h:994-1002 | one write of prologue and bare tuple fields; the buffer is marked only on success |
| Gnuplot.Plot.AppendSequence | include/gnuplotxx.h:1004-1019 | one write of prologue and the number run's line; the buffer is marked only on success |
| Gnuplot.Plot.AppendBatched | include/gnuplotxx.h:1021-1045 | nothing for an empty run; otherwise one write per batch, the first carrying the prologue, stopping at the first refusal |
| Gnuplot.Plot.WriteBatches | include/gnuplotxx.h:1032-1042 | the child receives the longest prefix of the batch writes it accepts |
| Gnuplot.Plot.Clear | include/gnuplotxx.h:1047-1064 | undefines the dataset; on success the buffer is empty and changed |
| Gnuplot.Plot.RemoveSeries | include/gnuplotxx.h:1270-1278 | clears, then marks the series removed and the plot dirty; it stays counted until the next update |
| Gnuplot.Plot.Update | include/gnuplotxx.h:1280-1404 | the new plot, the texts received and the writes used are those of UpdateStep, equal to UpdateEffect by Engine.UpdateStepIsEffect |
| Gnuplot.Plot.UpdateList | include/gnuplotxx.h:1288-1404 | on a non-empty list, each changed field and each write is that of UpdateStep |
| Gnuplot.Plot.Redraw | include/gnuplotxx.h:1316-1402 | writes the accepted prefix of the pass's commands; the plot stays dirty unless both went through |
| Gnuplot.Plot.DrawStep | include/gnuplotxx.h:1336-1402 | the second write goes out only when a series has data; the range flag is cleared either way |
| Gnuplot.Plot.SendDraw | include/gnuplotxx.h:1395-1402 | the plot command's write, which alone clears the plot's dirty flag |
| Gnuplot.Plot.DrawText | include/gnuplotxx.h:1336-1396 | the second text is the range block when ranges or axes changed, then the plot command |
| Gnuplot.Plot.Pass | include/gnuplotxx.h:1291-1314 | the loop leaves the list, states, buffers and flags that ScanAll computes |
| Gnuplot.Plot.ScanList | include/gnuplotxx.h:1294-1314 | the loop over values equals ScanAll |
| Gnuplot.Plot.VisitSeries | include/gnuplotxx.h:1295-1313 | one turn of the loop equals one Visit |
| Gnuplot.Plot.RangeBlockText | include/gnuplotxx.h:1341-1352 | the loop builds RangeBlock of the ranges and used slots |
| Gnuplot.Plot.PlotLine | include/gnuplotxx.h:1356-1393 | the loop builds "plot " and the comma-joined clauses of the series with data; first says whether there were none |
| Gnuplot.SequenceText | include/gnuplotxx.h:1010-1016 | the loop builds SequenceLine of the run |
| Gnuplot.BatchText | include/gnuplotxx.h:1033-1037 | the inner loop builds the print lines of one batch |

## Left out

- The `Process` machinery is replaced by the `Process` class: fork, exec,
  the pipes, epoll, `dup2`, the EINTR retry wrappers, and the partial-write
  loop of `writeAll`. A write either delivers its whole text or fails. The
  count of accepted writes stands for the child going away.
- Exceptions are not modelled as control flow. A `std::system_error` from a
  refused write becomes `ok == false` at that point, and every state change
  made before it is kept, as in the source.
- Doubles are not computed. A `double` is identified by the text fmt prints
  for it, and equality of doubles is equality of those texts. The
  `Color(double, ...)` and `fade(double)` roundings are not modelled.
- The concepts and tuple metaprogramming (`IsNumber`, `TupleLikeOfNumbers`)
  are not modelled; a point is a sequence of numbers.
- Gnuplot.Plot.Append and Gnuplot.Plot.AppendTuple require a non-empty
  point: the C++ templates accept no empty call.
- Gnuplot.Plot.AppendBatched requires batchSize > 0: with 0 the source
  writes the prologue buffer once and then writes empty texts forever.
- The `Colors` palette constants, the ChaiScript bindings
  (`gnuplotxx-chaiscript.h`) and the demos are not part of this model.
- The getters are reads of the class fields. `Series::operator bool` and
  default-constructed (empty) handles are not modelled: every handle passed
  in refers to a series of this plot.
- Gnuplot.Plot.CreateSeriesSharing requires the source series to belong to
  the same plot. Sharing a dataset across plots is not modelled.
- nextDataId is an unbounded `nat`. The source's `int` would overflow after
  2^31 series.
- Titles and fonts are written unescaped, as in the source. No lemma claims
  gnuplot reads them back when they contain a quote.
- Fields the library leaves uninitialised take fixed values: `nextDataId`
  0; the plot's `dirty` and `rangesDirty` false; a series' `dirty` and
  `removed` false; a buffer's `dirty` false; and update's `axisUsed` array
  all false.
- Update follows the code. Series and buffer flags are consumed in the pass,
  before any write, and `rangesDirty` is cleared when the range block is
  built, even if no plot command follows. Engine.RangesDroppedWithoutPlot
  and Engine.RefusedUpdateLosesChanges state those consequences.
- The scratch `buf` of `PlotPriv` is a local string in each method, since
  every operation clears it before use.
- Gnuplot.Plot.UpdateList states the fields it changes one by one. The
  other fields are outside its `modifies` clause, and Gnuplot.Plot.Update
  states the whole new model.
