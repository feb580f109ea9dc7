/**
 * The gnuplot commands the library writes: redirecting `print` to a
 * dataset, the data lines themselves, undefining a dataset, the terminal
 * line, the range/tics block and the plot command.
 */
module Commands {
  import opened Wrappers
  import opened Text
  import opened Values
  import opened Records

  // ------------------------------------------------- dataset commands

  /** The name gnuplot knows buffer id by: `$_<id>`. */
  function DatasetName(id: nat): string { "$_" + IntToString(id) }

  /** Redirects gnuplot's `print` output to the end of dataset id. */
  function SetPrint(id: nat): string { "set print " + DatasetName(id) + " append\n" }

  /** Discards dataset id. */
  function Undefine(id: nat): string { "undefine " + DatasetName(id) + "\n" }

  /** What an append writes before its data: a `set print` unless id is already the print target. */
  function Prologue(activeDataId: int, id: nat): (t: string)
    ensures t == "" <==> activeDataId == id
  {
    if id != activeDataId then SetPrint(id) else ""
  }

  /** The dataset id a `$_<id>` name refers to, if any. */
  function DatasetOfName(t: string): Option<nat>
  {
    if |t| >= 2 && t[..2] == "$_" then
      match ParseInt(t[2..])
      case Some(i) => if i >= 0 then Some(i) else None
      case None => None
    else None
  }

  /** The dataset a `set print ... append` line redirects to, if the line has that shape. */
  function SetPrintTarget(line: string): Option<nat>
  {
    var pre, post := "set print ", " append\n";
    if |line| >= |pre| + |post| && line[..|pre|] == pre && line[|line| - |post|..] == post
    then DatasetOfName(line[|pre|..|line| - |post|])
    else None
  }

  /** The dataset an `undefine` line discards, if the line has that shape. */
  function UndefineTarget(line: string): Option<nat>
  {
    var pre := "undefine ";
    if |line| >= |pre| + 1 && line[..|pre|] == pre && line[|line| - 1] == '\n'
    then DatasetOfName(line[|pre|..|line| - 1])
    else None
  }

  lemma DatasetNameRoundTrip(id: nat)
    ensures DatasetOfName(DatasetName(id)) == Some(id)
  {
    var t := DatasetName(id);
    assert t[2..] == IntToString(id);
    IntToStringRoundTrip(id);
  }

  /** A `set print` line names exactly the buffer it was built for. */
  lemma SetPrintRoundTrip(id: nat)
    ensures SetPrintTarget(SetPrint(id)) == Some(id)
  {
    var line := SetPrint(id);
    assert line[|"set print "|..|line| - |" append\n"|] == DatasetName(id);
    DatasetNameRoundTrip(id);
  }

  /** An `undefine` line names exactly the buffer it was built for. */
  lemma UndefineRoundTrip(id: nat)
    ensures UndefineTarget(Undefine(id)) == Some(id)
  {
    var line := Undefine(id);
    assert line[|"undefine "|..|line| - 1] == DatasetName(id);
    DatasetNameRoundTrip(id);
  }

  // ----------------------------------------------------------- data lines

  /** The texts of the numbers of one point. */
  function NumberTexts(point: seq<Number>): (ts: seq<string>)
    ensures |ts| == |point|
  {
    seq(|point|, i requires 0 <= i < |point| => NumberText(point[i]))
  }

  /** The numbers of one point separated by single spaces (appendHelper over numbers). */
  function Fields(point: seq<Number>): string
  {
    Join(NumberTexts(point), " ")
  }

  /** The line append(Ns... args) writes for one point: `print "<v0> <v1> ..."`. */
  function PrintLine(point: seq<Number>): string
  {
    "print \"" + Fields(point) + "\"\n"
  }

  /** appendHelper over a tuple-like point: the fields, then a newline. */
  function TupleText(point: seq<Number>): string
  {
    Fields(point) + "\n"
  }

  /** The line the batched append writes for one point: the tuple text wrapped as a print. */
  function BatchedLine(point: seq<Number>): string
  {
    "print \"" + TupleText(point) + "\"\n"
  }

  /** The line append(first, last) writes for a run of numbers. */
  function SequenceLine(values: seq<Number>): string
  {
    (if |values| > 0 then "print \"" + Fields(values) else "") + "\"\n"
  }

  /**
   * The values of a well-formed one-line print command `print "<fields>"`
   * followed by a newline: the fields, which contain no quote and no newline.
   */
  function PrintedFields(line: string): Option<seq<string>>
  {
    var pre, post := "print \"", "\"\n";
    if |line| >= |pre| + |post| && line[..|pre|] == pre && line[|line| - |post|..] == post then
      var body := line[|pre|..|line| - |post|];
      if Free(body, '"') && Free(body, '\n') then Some(Split(body, ' ')) else None
    else None
  }

  predicate PlainPoint(point: seq<Number>)
  {
    forall i :: 0 <= i < |point| ==> PlainNumber(point[i])
  }

  lemma PlainTextFree(t: string)
    requires PlainNumberText(t)
    ensures Free(t, ' ') && Free(t, '"') && Free(t, '\n') && Free(t, ',') && t[0] != 'p'
  {
    PlainFree(t, ' ');
    PlainFree(t, '"');
    PlainFree(t, '\n');
    PlainFree(t, ',');
  }

  lemma {:induction false} JoinFree(parts: seq<string>, sep: string, c: char)
    requires Free(sep, c)
    requires forall i :: 0 <= i < |parts| ==> Free(parts[i], c)
    ensures Free(Join(parts, sep), c)
    decreases |parts|
  {
    if |parts| > 1 {
      JoinFree(parts[1..], sep, c);
    }
  }

  /** Fields grows one space-separated number at a time, as append(first, last) writes them. */
  lemma FieldsSnoc(point: seq<Number>, n: Number)
    ensures Fields([n]) == NumberText(n)
    ensures point != [] ==> Fields(point + [n]) == Fields(point) + " " + NumberText(n)
  {
    assert NumberTexts([n]) == [NumberText(n)];
    if point != [] {
      assert NumberTexts(point + [n]) == NumberTexts(point) + [NumberText(n)];
      JoinSnoc(NumberTexts(point), NumberText(n), " ");
    }
  }

  lemma FieldsShape(point: seq<Number>)
    requires |point| > 0 && PlainPoint(point)
    ensures Free(Fields(point), '"') && Free(Fields(point), '\n')
    ensures Fields(point)[0] != 'p' && |Fields(point)| > 0
    ensures Split(Fields(point), ' ') == NumberTexts(point)
  {
    var ts := NumberTexts(point);
    forall i | 0 <= i < |ts|
      ensures Free(ts[i], ' ') && Free(ts[i], '"') && Free(ts[i], '\n') && ts[i][0] != 'p'
    {
      NumberTextPlain(point[i]);
      PlainTextFree(ts[i]);
    }
    JoinFree(ts, " ", '"');
    JoinFree(ts, " ", '\n');
    SplitJoin(ts, ' ');
    if |ts| > 1 {
      assert Fields(point) == ts[0] + " " + Join(ts[1..], " ");
    }
  }

  /**
   * The line of append(Ns...) is a single print command from which gnuplot
   * reads exactly the values of the point, in order.
   */
  lemma PrintLineRoundTrip(point: seq<Number>)
    requires |point| > 0 && PlainPoint(point)
    ensures PrintedFields(PrintLine(point)) == Some(NumberTexts(point))
  {
    FieldsShape(point);
    var line := PrintLine(point);
    assert line[|"print \""|..|line| - |"\"\n"|] == Fields(point);
  }

  /**
   * As written, the batched append's line breaks before its closing quote:
   * it is not a one-line print command, and its first line is an unclosed
   * string `print "<fields>`.
   */
  lemma BatchedLineBreaksQuote(point: seq<Number>)
    requires |point| > 0 && PlainPoint(point)
    ensures BatchedLine(point) == "print \"" + Fields(point) + "\n" + "\"\n"
    ensures PrintedFields(BatchedLine(point)) == None
  {
    FieldsShape(point);
    var line := BatchedLine(point);
    var body := line[|"print \""|..|line| - |"\"\n"|];
    assert body == Fields(point) + "\n";
    assert body[|body| - 1] == '\n';
  }

  /**
   * As written, the single-tuple append writes the bare fields without the
   * `print "` prefix: the line is not a print command at all.
   */
  lemma TupleTextIsNotPrint(point: seq<Number>)
    requires |point| > 0 && PlainPoint(point)
    ensures TupleText(point) == Fields(point) + "\n"
    ensures PrintedFields(TupleText(point)) == None
  {
    FieldsShape(point);
    var t := TupleText(point);
    assert t[0] == Fields(point)[0];
  }

  /**
   * The number-sequence append writes the same print command as the
   * variadic one for a non-empty run; for an empty run it writes only the
   * closing quote and newline.
   */
  lemma SequenceLineShape(values: seq<Number>)
    ensures |values| > 0 ==> SequenceLine(values) == PrintLine(values)
    ensures |values| == 0 ==> SequenceLine(values) == "\"\n"
  {
  }

  // ------------------------------------------------------- update commands

  /** A window position or size as the terminal line writes it: `a,b`. */
  function PairText(a: int, b: int): string { IntToString(a) + "," + IntToString(b) }

  /** The fixed opening of the terminal line, up to the title's opening quote. */
  const TerminalHead := "set terminal qt enhanced title \""

  /** The terminal line: title, font and size, and the window position and size when set. */
  function TerminalLine(title: string, font: string, fontSize: int,
                        position: Option<(int, int)>, size: Option<(nat, nat)>): string
  {
    TerminalHead + TerminalBody(title, font, fontSize, position, size) + "\n"
  }

  /** The terminal line between its head and its newline: the quoted font and size follow the title. */
  function TerminalBody(title: string, font: string, fontSize: int,
                        position: Option<(int, int)>, size: Option<(nat, nat)>): string
  {
    title + "\" font \"" + font + "," + IntToString(fontSize) + "\"" + WindowText(position, size)
  }

  /** The window options of the terminal line: ` position x,y` and then ` size w,h`, each when set. */
  function WindowText(position: Option<(int, int)>, size: Option<(nat, nat)>): string
  {
    PositionText(position) + SizeText(size)
  }

  function PositionText(position: Option<(int, int)>): string
  {
    match position
    case Some((x, y)) => " position " + PairText(x, y)
    case None => ""
  }

  function SizeText(size: Option<(nat, nat)>): string
  {
    match size
    case Some((w, h)) => " size " + PairText(w, h)
    case None => ""
  }

  /** What a terminal line sets, as gnuplot reads it back. */
  datatype TerminalSettings = TerminalSettings(
    title: string, font: string, fontSize: int, position: Option<(int, int)>, size: Option<(nat, nat)>)

  /** The two integers of an `a,b` text, if it has that shape. */
  function ReadPair(t: string): Option<(int, int)>
  {
    var parts := Split(t, ',');
    if |parts| == 2 && ParseInt(parts[0]).Some? && ParseInt(parts[1]).Some?
    then Some((ParseInt(parts[0]).value, ParseInt(parts[1]).value))
    else None
  }

  /** An optional `position x,y` at the head of the words, and the words after it. */
  function ReadPosition(words: seq<string>): (Option<(int, int)>, seq<string>)
  {
    if |words| >= 2 && words[0] == "position" && ReadPair(words[1]).Some?
    then (ReadPair(words[1]), words[2..])
    else (None, words)
  }

  /** An optional `size w,h` of two non-negative integers at the head of the words, and the words after it. */
  function ReadSize(words: seq<string>): (Option<(nat, nat)>, seq<string>)
  {
    if |words| >= 2 && words[0] == "size" && ReadPair(words[1]).Some?
       && ReadPair(words[1]).value.0 >= 0 && ReadPair(words[1]).value.1 >= 0
    then (Some((ReadPair(words[1]).value.0, ReadPair(words[1]).value.1)), words[2..])
    else (None, words)
  }

  /** The window options after the font: a position when present, then a size when present, and nothing else. */
  function ReadWindow(t: string): Option<(Option<(int, int)>, Option<(nat, nat)>)>
  {
    var words := Split(t, ' ');
    if words[0] != "" then None
    else
      var position := ReadPosition(words[1..]);
      var size := ReadSize(position.1);
      if size.1 == [] then Some((position.0, size.0)) else None
  }

  /**
   * The settings of a one-line terminal command: the fixed head, the quoted
   * title, the quoted `font,size`, the window options, and a single newline
   * that ends the text.
   */
  function ReadTerminal(line: string): Option<TerminalSettings>
  {
    var head := TerminalHead;
    if |line| > |head| && line[..|head|] == head && line[|line| - 1] == '\n' && Free(line[..|line| - 1], '\n') then
      var parts := Split(line[|head|..|line| - 1], '"');
      if |parts| == 4 && parts[1] == " font " then
        var fontParts := Split(parts[2], ',');
        if |fontParts| == 2 && ParseInt(fontParts[1]).Some? then
          match ReadWindow(parts[3])
          case Some(window) =>
            Some(TerminalSettings(parts[0], fontParts[0], ParseInt(fontParts[1]).value, window.0, window.1))
          case None => None
        else None
      else None
    else None
  }

  /** An integer's text holds no separator of the terminal line or of a plot clause. */
  lemma IntTextFree(i: int)
    ensures Free(IntToString(i), ',') && Free(IntToString(i), ' ')
    ensures Free(IntToString(i), '"') && Free(IntToString(i), '\n')
  {
    IntToStringChars(i);
  }

  lemma PairRoundTrip(a: int, b: int)
    ensures ReadPair(PairText(a, b)) == Some((a, b))
  {
    IntTextFree(a);
    IntTextFree(b);
    SplitAppend(IntToString(a), IntToString(b), ',');
    SplitFree(IntToString(b), ',');
    IntToStringRoundTrip(a);
    IntToStringRoundTrip(b);
  }

  lemma PairFree(a: int, b: int)
    ensures Free(PairText(a, b), ' ') && Free(PairText(a, b), '"') && Free(PairText(a, b), '\n')
  {
    IntTextFree(a);
    IntTextFree(b);
    FreeAppend(IntToString(a), ",", ' ');
    FreeAppend(IntToString(a) + ",", IntToString(b), ' ');
    FreeAppend(IntToString(a), ",", '"');
    FreeAppend(IntToString(a) + ",", IntToString(b), '"');
    FreeAppend(IntToString(a), ",", '\n');
    FreeAppend(IntToString(a) + ",", IntToString(b), '\n');
  }

  /** The words of the window options, each of which the text puts after one space. */
  function WindowWords(position: Option<(int, int)>, size: Option<(nat, nat)>): seq<string>
  {
    PositionWords(position) + SizeWords(size)
  }

  function PositionWords(position: Option<(int, int)>): seq<string>
  {
    match position
    case Some((x, y)) => ["position", PairText(x, y)]
    case None => []
  }

  function SizeWords(size: Option<(nat, nat)>): seq<string>
  {
    match size
    case Some((w, h)) => ["size", PairText(w, h)]
    case None => []
  }

  lemma PositionSpaced(position: Option<(int, int)>, c: char)
    requires c in " \"\n"
    ensures PositionText(position) == Spaced(PositionWords(position))
    ensures forall i :: 0 <= i < |PositionWords(position)| ==> Free(PositionWords(position)[i], c)
  {
    match position
    case Some((x, y)) => SpacedPair("position", PairText(x, y)); PairFree(x, y);
    case None =>
  }

  lemma SizeSpaced(size: Option<(nat, nat)>, c: char)
    requires c in " \"\n"
    ensures SizeText(size) == Spaced(SizeWords(size))
    ensures forall i :: 0 <= i < |SizeWords(size)| ==> Free(SizeWords(size)[i], c)
  {
    match size
    case Some((w, h)) => SpacedPair("size", PairText(w, h)); PairFree(w, h);
    case None =>
  }

  lemma WindowSpaced(position: Option<(int, int)>, size: Option<(nat, nat)>, c: char)
    requires c in " \"\n"
    ensures WindowText(position, size) == Spaced(WindowWords(position, size))
    ensures forall i :: 0 <= i < |WindowWords(position, size)| ==> Free(WindowWords(position, size)[i], c)
  {
    PositionSpaced(position, c);
    SizeSpaced(size, c);
    SpacedAppend(PositionWords(position), SizeWords(size));
  }

  lemma WindowFree(position: Option<(int, int)>, size: Option<(nat, nat)>)
    ensures Free(WindowText(position, size), '"') && Free(WindowText(position, size), '\n')
  {
    WindowSpaced(position, size, '"');
    WindowSpaced(position, size, '\n');
    SpacedFree(WindowWords(position, size), '"');
    SpacedFree(WindowWords(position, size), '\n');
  }

  lemma PositionRoundTrip(position: Option<(int, int)>, rest: seq<string>)
    requires rest == [] || rest[0] == "size"
    ensures ReadPosition(PositionWords(position) + rest) == (position, rest)
  {
    match position
    case Some((x, y)) =>
      PairRoundTrip(x, y);
      var words := ["position", PairText(x, y)] + rest;
      assert words[0] == "position" && words[1] == PairText(x, y) && words[2..] == rest;
    case None =>
      assert PositionWords(position) + rest == rest;
      assert rest != [] ==> rest[0] != "position";
  }

  lemma SizeRoundTrip(size: Option<(nat, nat)>)
    ensures ReadSize(SizeWords(size)) == (size, [])
  {
    match size
    case Some((w, h)) => PairRoundTrip(w, h);
    case None =>
  }

  /** The window options read back as the position and size they were written from. */
  lemma WindowRoundTrip(position: Option<(int, int)>, size: Option<(nat, nat)>)
    ensures ReadWindow(WindowText(position, size)) == Some((position, size))
  {
    var words := WindowWords(position, size);
    WindowSpaced(position, size, ' ');
    SplitSpaced("", words);
    assert "" + Spaced(words) == WindowText(position, size);
    assert ([""] + words)[1..] == PositionWords(position) + SizeWords(size);
    PositionRoundTrip(position, SizeWords(size));
    SizeRoundTrip(size);
  }

  /** Two words, each after one space. */
  lemma SpacedPair(a: string, b: string)
    ensures Spaced([a, b]) == " " + a + " " + b
  {
    assert [a, b][1..] == [b];
    assert [b][1..] == [];
    assert Spaced([b]) == " " + b + Spaced([]);
  }

  lemma TerminalBodySplits(title: string, font: string, fontSize: int,
                           position: Option<(int, int)>, size: Option<(nat, nat)>)
    requires Free(title, '"') && Free(font, '"')
    ensures Split(TerminalBody(title, font, fontSize, position, size), '"')
            == [title, " font ", font + "," + IntToString(fontSize), WindowText(position, size)]
  {
    var fs := font + "," + IntToString(fontSize);
    var win := WindowText(position, size);
    WindowFree(position, size);
    IntTextFree(fontSize);
    FreeAppend(font, ",", '"');
    FreeAppend(font + ",", IntToString(fontSize), '"');
    var q := "\" font \"";
    var p := title + ['"'] + " font " + ['"'];
    assert q == ['"'] + (" font " + ['"']);
    AppendAssoc(title, ['"'], " font ", ['"']);
    AppendAssoc(['"'], " font ", ['"'], ['"']);
    assert title + q == p;
    AppendAssoc(p, font, ",", IntToString(fontSize));
    AppendAssoc(font, ",", IntToString(fontSize), "");
    assert TerminalBody(title, font, fontSize, position, size) == p + fs + ['"'] + win;
    SplitFour(title, " font ", fs, win, '"');
  }

  lemma TerminalBodyOneLine(title: string, font: string, fontSize: int,
                            position: Option<(int, int)>, size: Option<(nat, nat)>)
    requires Free(title, '\n') && Free(font, '\n')
    ensures Free(TerminalBody(title, font, fontSize, position, size), '\n')
  {
    var n := IntToString(fontSize);
    WindowFree(position, size);
    IntTextFree(fontSize);
    FreeAppend(title, "\" font \"", '\n');
    FreeAppend(title + "\" font \"", font, '\n');
    FreeAppend(title + "\" font \"" + font, ",", '\n');
    FreeAppend(title + "\" font \"" + font + ",", n, '\n');
    FreeAppend(title + "\" font \"" + font + "," + n, "\"", '\n');
    FreeAppend(title + "\" font \"" + font + "," + n + "\"", WindowText(position, size), '\n');
  }

  lemma TerminalHeadOneLine()
    ensures Free(TerminalHead, '\n')
  {
  }

  /** The terminal reader takes a line apart as the pieces of its body say. */
  lemma ReadTerminalPieces(body: string, title: string, fontText: string, window: string,
                           font: string, sizeText: string)
    requires Free(body, '\n') && Split(body, '"') == [title, " font ", fontText, window]
    requires Split(fontText, ',') == [font, sizeText] && ParseInt(sizeText).Some?
    requires ReadWindow(window).Some?
    ensures ReadTerminal(TerminalHead + body + "\n")
            == Some(TerminalSettings(title, font, ParseInt(sizeText).value,
                                     ReadWindow(window).value.0, ReadWindow(window).value.1))
  {
    var line := TerminalHead + body + "\n";
    assert line[..|TerminalHead|] == TerminalHead;
    assert line[|TerminalHead|..|line| - 1] == body;
    assert line[..|line| - 1] == TerminalHead + body;
    TerminalHeadOneLine();
    FreeAppend(TerminalHead, body, '\n');
  }

  /**
   * A terminal line opens with `set terminal qt enhanced title "`, is a single
   * line ended by its one newline, and reads back as the title, font, font
   * size, window position and window size it was written from: the position
   * is there exactly when one is set, and so is the size.
   */
  lemma TerminalLineRoundTrip(title: string, font: string, fontSize: int,
                              position: Option<(int, int)>, size: Option<(nat, nat)>)
    requires Free(title, '"') && Free(title, '\n')
    requires Free(font, '"') && Free(font, '\n') && Free(font, ',')
    ensures var line := TerminalLine(title, font, fontSize, position, size);
      && line[..|TerminalHead|] == TerminalHead
      && ReadTerminal(line) == Some(TerminalSettings(title, font, fontSize, position, size))
  {
    var body := TerminalBody(title, font, fontSize, position, size);
    var n := IntToString(fontSize);
    TerminalBodyOneLine(title, font, fontSize, position, size);
    TerminalBodySplits(title, font, fontSize, position, size);
    WindowRoundTrip(position, size);
    IntTextFree(fontSize);
    SplitAppend(font, n, ',');
    SplitFree(n, ',');
    IntToStringRoundTrip(fontSize);
    ReadTerminalPieces(body, title, font + "," + n, WindowText(position, size), font, n);
    assert (TerminalHead + body + "\n")[..|TerminalHead|] == TerminalHead;
  }

  /** The range line of one axis, without its newline. */
  function RangeLine(a: Axis, r: Range): string { "set " + AxisText(a) + "range " + RangeText(r) }

  /** The tics line of one axis, without its newline: default scale if used, otherwise unset. */
  function TicsLine(a: Axis, used: bool): string
  {
    if used then "set " + AxisText(a) + "tics scale default" else "unset " + AxisText(a) + "tics"
  }

  /** The range and tics lines of the axis in slot i, each ending in a newline. */
  function AxisBlock(a: Axis, r: Range, used: bool): string
  {
    RangeLine(a, r) + "\n" + TicsLine(a, used) + "\n"
  }

  /** For X1, Y1, X2, Y2 in turn, the axis' range line and tics line, with the slot's range and usage. */
  function AxisBlocks(ranges: seq<Range>, used: seq<bool>): (blocks: seq<string>)
    requires |ranges| == 4 && |used| == 4
    ensures |blocks| == 4
  {
    seq(4, i requires 0 <= i < 4 =>
      AxisBlock(CanonicalAxes[i], ranges[AxisIndex(CanonicalAxes[i])], used[AxisIndex(CanonicalAxes[i])]))
  }

  /** The range block: the four axis blocks in canonical order. */
  function RangeBlock(ranges: seq<Range>, used: seq<bool>): string
    requires |ranges| == 4 && |used| == 4
  {
    Concat(AxisBlocks(ranges, used))
  }

  /** The eight lines of a range block, slot by slot. */
  function SlotLines(ranges: seq<Range>, used: seq<bool>): (lines: seq<string>)
    requires |ranges| == 4 && |used| == 4
    ensures |lines| == 8
  {
    seq(8, j requires 0 <= j < 8 =>
      if j % 2 == 0 then RangeLine(AxisAt(j / 2), ranges[j / 2]) else TicsLine(AxisAt(j / 2), used[j / 2]))
  }

  predicate PlainRanges(ranges: seq<Range>)
  {
    forall i :: 0 <= i < |ranges| ==> PlainDoubles(ranges[i])
  }

  lemma RangeTextNoNewline(r: Range)
    requires PlainDoubles(r)
    ensures Free(RangeText(r), '\n')
  {
    RangeValueNoNewline(r.min);
    RangeValueNoNewline(r.max);
  }

  lemma RangeValueNoNewline(v: RangeValue)
    requires v.RangeDouble? ==> PlainNumberText(v.d.text)
    requires v.Limit? ==> LimitPlain(v.lower) && LimitPlain(v.upper)
    ensures Free(RangeValueText(v), '\n')
  {
    match v
    case Auto =>
    case RangeInt(i) => IntTextPlain(i); PlainFree(IntToString(i), '\n');
    case RangeDouble(d) => PlainFree(d.text, '\n');
    case Limit(lower, upper) =>
      LimitNoNewline(lower);
      LimitNoNewline(upper);
      FreeAppend(LimitValueText(lower), "<", '\n');
      FreeAppend(LimitValueText(lower) + "<", LimitValueText(upper), '\n');
  }

  lemma LimitNoNewline(v: LimitValue)
    requires LimitPlain(v)
    ensures Free(LimitValueText(v), '\n')
  {
    match v
    case LimitAuto =>
    case LimitInt(i) => IntTextPlain(i); PlainFree(IntToString(i), '\n');
    case LimitDouble(d) => PlainFree(d.text, '\n');
  }

  /**
   * Read line by line, the range block is the range line then the tics line
   * of slot 0, 1, 2 and 3 in turn, each slot with its own range and usage.
   */
  lemma RangeBlockLines(ranges: seq<Range>, used: seq<bool>)
    requires |ranges| == 4 && |used| == 4 && PlainRanges(ranges)
    ensures Split(RangeBlock(ranges, used), '\n') == SlotLines(ranges, used) + [""]
  {
    var lines := SlotLines(ranges, used);
    forall j | 0 <= j < 8 ensures Free(lines[j], '\n') {
      SlotLineFree(ranges, used, j);
    }
    var blocks := AxisBlocks(ranges, used);
    forall i | 0 <= i < 4 ensures blocks[i] == lines[2 * i] + "\n" + lines[2 * i + 1] + "\n" {
      AxisBlockIsSlot(ranges, used, i);
    }
    ConcatPairs(blocks, lines);
    SplitLines(lines);
  }

  lemma SlotLineFree(ranges: seq<Range>, used: seq<bool>, j: nat)
    requires |ranges| == 4 && |used| == 4 && PlainRanges(ranges) && j < 8
    ensures Free(SlotLines(ranges, used)[j], '\n')
  {
    var a := AxisAt(j / 2);
    AxisTextRoundTrip(a);
    var name := AxisText(a);
    assert Free(name, '\n');
    if j % 2 == 0 {
      RangeTextNoNewline(ranges[j / 2]);
      FreeAppend("set " + name, "range ", '\n');
      FreeAppend("set " + name + "range ", RangeText(ranges[j / 2]), '\n');
    } else {
      FreeAppend("set " + name, "tics scale default", '\n');
      FreeAppend("unset " + name, "tics", '\n');
    }
  }

  lemma AxisBlockIsSlot(ranges: seq<Range>, used: seq<bool>, i: nat)
    requires |ranges| == 4 && |used| == 4 && i < 4
    ensures AxisBlocks(ranges, used)[i]
         == SlotLines(ranges, used)[2 * i] + "\n" + SlotLines(ranges, used)[2 * i + 1] + "\n"
  {
    CanonicalAxesAreSlots(i);
    AxisIndexBijective(CanonicalAxes[i], i);
    assert (2 * i) / 2 == i && (2 * i + 1) / 2 == i;
  }

  /** The text of lines, each followed by a newline. */
  function Lines(lines: seq<string>): string
  {
    if lines == [] then "" else lines[0] + "\n" + Lines(lines[1..])
  }

  lemma {:induction false} ConcatPairs(blocks: seq<string>, lines: seq<string>)
    requires |lines| == 2 * |blocks|
    requires forall i :: 0 <= i < |blocks| ==> blocks[i] == lines[2 * i] + "\n" + lines[2 * i + 1] + "\n"
    ensures Concat(blocks) == Lines(lines)
    decreases |blocks|
  {
    if blocks != [] {
      ConcatPairs(blocks[1..], lines[2..]);
      assert lines[1..][1..] == lines[2..];
    }
  }

  lemma {:induction false} SplitLines(lines: seq<string>)
    requires forall j :: 0 <= j < |lines| ==> Free(lines[j], '\n')
    ensures Split(Lines(lines), '\n') == lines + [""]
    decreases |lines|
  {
    if lines != [] {
      SplitLines(lines[1..]);
      SplitAppend(lines[0], Lines(lines[1..]), '\n');
      assert [lines[0]] + lines[1..] == lines;
    }
  }

  /** One series' part of the plot command: its dataset, then its title and drawing options. */
  function SeriesClause(s: SeriesState): string
  {
    DatasetName(s.dataId) + " " + SeriesOptions(s)
  }

  /**
   * The title and drawing options of a series, in the order the plot command
   * gives them: the quoted title, then the words of the options, each after
   * one space.
   */
  function SeriesOptions(s: SeriesState): (o: string)
    ensures o == "title \"" + s.title + "\"" + Spaced(ClauseWords(s))
  {
    OptionsSpaced(s);
    OptionsFrom(s, 0)
  }

  /** The number of option slots of a plot clause. */
  const OptionSlots := 7

  /** The options of a series from slot onwards. */
  function OptionsFrom(s: SeriesState, slot: nat): string
    decreases OptionSlots - slot
  {
    if slot >= OptionSlots then "" else SeriesOption(s, slot) + OptionsFrom(s, slot + 1)
  }

  /**
   * One slot of the options: the title, the style, the colour when one is
   * set, the line width, the point type and size when a point type is set,
   * the smoothing when one is set, and the axes. Only the three optional
   * slots are ever empty, each exactly when its attribute is unset.
   */
  function SeriesOption(s: SeriesState, slot: nat): (o: string)
    ensures o == "" <==> (slot == 2 && s.color.None?) || (slot == 4 && s.pointType.None?)
                         || (slot == 5 && s.smooth.None?)
  {
    if slot == 0 then TitleOption(s)
    else if slot == 1 then StyleOption(s)
    else if slot == 2 then ColorOption(s)
    else if slot == 3 then WidthOption(s)
    else if slot == 4 then PointOption(s)
    else if slot == 5 then SmoothOption(s)
    else AxesOption(s)
  }

  function TitleOption(s: SeriesState): string { "title \"" + s.title + "\"" }

  function StyleOption(s: SeriesState): string { " with " + StyleKeyword(s.plotStyle) }

  function ColorOption(s: SeriesState): string
  {
    match s.color
    case Some(c) => " linecolor rgb " + IntToString(Rgba(c))
    case None => ""
  }

  function WidthOption(s: SeriesState): string { " linewidth " + s.lineWidth.text }

  function PointOption(s: SeriesState): string
  {
    match s.pointType
    case Some(p) => " pointtype " + IntToString(PointTypeOrdinal(p) + 1) + " pointsize " + s.pointSize.text
    case None => ""
  }

  function SmoothOption(s: SeriesState): string
  {
    match s.smooth
    case Some(m) => " smooth " + SmoothKeyword(m)
    case None => ""
  }

  function AxesOption(s: SeriesState): string { " axes " + AxesText(s.axes) }

  // ----------------------------------------------- reading a clause back

  /** What a plot clause tells gnuplot about one series. */
  datatype ClauseReading = ClauseReading(
    dataId: nat, title: string, style: PlotStyle, color: Option<int>, lineWidth: string,
    point: Option<(int, string)>, smooth: Option<Smooth>, axes: AxesPair)

  /**
   * What the clause of s is meant to tell gnuplot: its dataset and title, its
   * style, its colour as the signed rgba number when one is set, its line
   * width, gnuplot's point type number (the ordinal plus one) with the point
   * size when a point type is set, its smoothing when one is set, and its axes.
   */
  function IntendedReading(s: SeriesState): ClauseReading
  {
    ClauseReading(
      s.dataId, s.title, s.plotStyle,
      match s.color case Some(c) => Some(Rgba(c)) case None => None,
      s.lineWidth.text,
      match s.pointType case Some(p) => Some((PointTypeOrdinal(p) + 1, s.pointSize.text)) case None => None,
      s.smooth, s.axes)
  }

  /** An optional `linecolor rgb <n>` at the head of the words, and the words after it. */
  function ReadColorWords(words: seq<string>): (Option<int>, seq<string>)
  {
    if |words| >= 3 && words[0] == "linecolor" && words[1] == "rgb" && ParseInt(words[2]).Some?
    then (ParseInt(words[2]), words[3..])
    else (None, words)
  }

  /** An optional `pointtype <n> pointsize <size>` at the head of the words, and the words after it. */
  function ReadPointWords(words: seq<string>): (Option<(int, string)>, seq<string>)
  {
    if |words| >= 4 && words[0] == "pointtype" && ParseInt(words[1]).Some? && words[2] == "pointsize"
    then (Some((ParseInt(words[1]).value, words[3])), words[4..])
    else (None, words)
  }

  /** An optional `smooth <keyword>` at the head of the words, and the words after it. */
  function ReadSmoothWords(words: seq<string>): (Option<Smooth>, seq<string>)
  {
    if |words| >= 2 && words[0] == "smooth" && SmoothOfKeyword(words[1]).Some?
    then (SmoothOfKeyword(words[1]), words[2..])
    else (None, words)
  }

  /**
   * The options after the title, in the one order gnuplot is given them:
   * `with` and a style, an optional colour, `linewidth` and a width, an
   * optional point type and size, an optional smoothing, and `axes` with a
   * pair, which ends the clause.
   */
  function ReadOptionWords(dataId: nat, title: string, words: seq<string>): Option<ClauseReading>
  {
    if |words| < 2 || words[0] != "with" || StyleOfKeyword(words[1]).None? then None
    else
      var color := ReadColorWords(words[2..]);
      var width := color.1;
      if |width| < 2 || width[0] != "linewidth" then None
      else
        var point := ReadPointWords(width[2..]);
        var smooth := ReadSmoothWords(point.1);
        var axes := smooth.1;
        if |axes| == 2 && axes[0] == "axes" && AxesOfText(axes[1]).Some? then
          Some(ClauseReading(dataId, title, StyleOfKeyword(words[1]).value, color.0, width[1],
                             point.0, smooth.0, AxesOfText(axes[1]).value))
        else None
  }

  /** A clause `$_<id> title "<title>"` followed by its options, as gnuplot reads it. */
  function ReadClause(clause: string): Option<ClauseReading>
  {
    var parts := Split(clause, '"');
    if |parts| == 3 then
      var head := Split(parts[0], ' ');
      var words := Split(parts[2], ' ');
      if |head| == 3 && head[1] == "title" && head[2] == "" && DatasetOfName(head[0]).Some? && words[0] == ""
      then ReadOptionWords(DatasetOfName(head[0]).value, parts[1], words[1..])
      else None
    else None
  }

  // The words of each option slot after the title; the clause puts each word after one space.

  function StyleWords(s: SeriesState): seq<string> { ["with", StyleKeyword(s.plotStyle)] }

  function ColorWords(s: SeriesState): seq<string>
  {
    match s.color
    case Some(c) => ["linecolor", "rgb", IntToString(Rgba(c))]
    case None => []
  }

  function WidthWords(s: SeriesState): seq<string> { ["linewidth", s.lineWidth.text] }

  function PointWords(s: SeriesState): seq<string>
  {
    match s.pointType
    case Some(p) => ["pointtype", IntToString(PointTypeOrdinal(p) + 1), "pointsize", s.pointSize.text]
    case None => []
  }

  function SmoothWords(s: SeriesState): seq<string>
  {
    match s.smooth
    case Some(m) => ["smooth", SmoothKeyword(m)]
    case None => []
  }

  function AxesWords(s: SeriesState): seq<string> { ["axes", AxesText(s.axes)] }

  /** The words of all options after the title, slot by slot. */
  function ClauseWords(s: SeriesState): seq<string>
  {
    StyleWords(s) + (ColorWords(s) + (WidthWords(s) + (PointWords(s) + (SmoothWords(s) + AxesWords(s)))))
  }

  lemma SpacedTriple(a: string, b: string, c: string)
    ensures Spaced([a, b, c]) == " " + a + " " + b + " " + c
  {
    assert [a, b, c][1..] == [b, c];
    SpacedPair(b, c);
  }

  lemma SpacedQuad(a: string, b: string, c: string, d: string)
    ensures Spaced([a, b, c, d]) == " " + a + " " + b + " " + c + " " + d
  {
    assert [a, b, c, d][1..] == [b, c, d];
    SpacedTriple(b, c, d);
  }

  lemma ColorSpaced(s: SeriesState)
    ensures ColorOption(s) == Spaced(ColorWords(s))
  {
    match s.color
    case Some(c) => RgbSpaced(Rgba(c));
    case None =>
  }

  lemma RgbSpaced(n: int)
    ensures " linecolor rgb " + IntToString(n) == Spaced(["linecolor", "rgb", IntToString(n)])
  {
    SpacedTriple("linecolor", "rgb", IntToString(n));
  }

  lemma PointSpaced(s: SeriesState)
    ensures PointOption(s) == Spaced(PointWords(s))
  {
    match s.pointType
    case Some(p) => PointNumberSpaced(PointTypeOrdinal(p) + 1, s.pointSize.text);
    case None =>
  }

  lemma PointNumberSpaced(n: int, size: string)
    ensures " pointtype " + IntToString(n) + " pointsize " + size
         == Spaced(["pointtype", IntToString(n), "pointsize", size])
  {
    SpacedQuad("pointtype", IntToString(n), "pointsize", size);
  }

  lemma SmoothSpaced(s: SeriesState)
    ensures SmoothOption(s) == Spaced(SmoothWords(s))
  {
    match s.smooth
    case Some(m) => SpacedPair("smooth", SmoothKeyword(m));
    case None =>
  }

  lemma FixedSpaced(s: SeriesState)
    ensures StyleOption(s) == Spaced(StyleWords(s))
    ensures WidthOption(s) == Spaced(WidthWords(s))
    ensures AxesOption(s) == Spaced(AxesWords(s))
  {
    SpacedPair("with", StyleKeyword(s.plotStyle));
    SpacedPair("linewidth", s.lineWidth.text);
    SpacedPair("axes", AxesText(s.axes));
  }

  /** The options after the title are the clause words, each after one space. */
  lemma OptionsSpaced(s: SeriesState)
    ensures OptionsFrom(s, 1) == Spaced(ClauseWords(s))
  {
    var r6 := AxesWords(s);
    var r5 := SmoothWords(s) + r6;
    var r4 := PointWords(s) + r5;
    var r3 := WidthWords(s) + r4;
    var r2 := ColorWords(s) + r3;
    FixedSpaced(s);
    assert OptionsFrom(s, 6) == Spaced(r6) by { assert OptionsFrom(s, 7) == ""; }
    SmoothSpaced(s);
    SpacedAppend(SmoothWords(s), r6);
    assert OptionsFrom(s, 5) == Spaced(r5);
    PointSpaced(s);
    SpacedAppend(PointWords(s), r5);
    assert OptionsFrom(s, 4) == Spaced(r4);
    SpacedAppend(WidthWords(s), r4);
    assert OptionsFrom(s, 3) == Spaced(r3);
    ColorSpaced(s);
    SpacedAppend(ColorWords(s), r3);
    assert OptionsFrom(s, 2) == Spaced(r2);
    SpacedAppend(StyleWords(s), r2);
  }

  /** The double texts of a series are plain numbers, so no option word holds a space or a quote. */
  predicate PlainSeries(s: SeriesState)
  {
    PlainNumberText(s.lineWidth.text) && PlainNumberText(s.pointSize.text)
  }

  lemma StyleKeywordAlnum(p: PlotStyle)
    ensures Alnum(StyleKeyword(p))
  {
  }

  lemma SmoothKeywordAlnum(m: Smooth)
    ensures Alnum(SmoothKeyword(m))
  {
  }

  lemma AxesTextAlnum(p: AxesPair)
    ensures Alnum(AxesText(p))
  {
    AxesTextRoundTrip(p);
  }

  lemma AlnumFree(t: string, c: char)
    requires Alnum(t) && (c == ' ' || c == '"')
    ensures Free(t, c)
  {
  }

  lemma ColorWordsFree(s: SeriesState, c: char)
    requires c == ' ' || c == '"'
    ensures AllFree(ColorWords(s), c)
  {
    match s.color
    case Some(col) => RgbWordsFree(Rgba(col), c);
    case None =>
  }

  lemma RgbWordsFree(n: int, c: char)
    requires c == ' ' || c == '"'
    ensures AllFree(["linecolor", "rgb", IntToString(n)], c)
  {
    IntTextFree(n);
    assert Free("linecolor", c) && Free("rgb", c);
  }

  lemma PointWordsFree(s: SeriesState, c: char)
    requires PlainSeries(s) && (c == ' ' || c == '"')
    ensures AllFree(PointWords(s), c)
  {
    match s.pointType
    case Some(p) =>
      IntTextFree(PointTypeOrdinal(p) + 1);
      PlainFree(s.pointSize.text, c);
      assert Free("pointtype", c) && Free("pointsize", c);
    case None =>
  }

  lemma SmoothWordsFree(s: SeriesState, c: char)
    requires c == ' ' || c == '"'
    ensures AllFree(SmoothWords(s), c)
  {
    match s.smooth
    case Some(m) =>
      SmoothKeywordAlnum(m);
      AlnumFree(SmoothKeyword(m), c);
      assert Free("smooth", c);
    case None =>
  }

  lemma FixedWordsFree(s: SeriesState, c: char)
    requires PlainSeries(s) && (c == ' ' || c == '"')
    ensures AllFree(StyleWords(s), c) && AllFree(WidthWords(s), c) && AllFree(AxesWords(s), c)
  {
    StyleKeywordAlnum(s.plotStyle);
    AlnumFree(StyleKeyword(s.plotStyle), c);
    PlainFree(s.lineWidth.text, c);
    AxesTextAlnum(s.axes);
    AlnumFree(AxesText(s.axes), c);
    assert Free("with", c) && Free("linewidth", c) && Free("axes", c);
  }

  /** No word of a plain series' clause holds a space or a quote. */
  lemma ClauseWordsFree(s: SeriesState, c: char)
    requires PlainSeries(s) && (c == ' ' || c == '"')
    ensures AllFree(ClauseWords(s), c)
  {
    FixedWordsFree(s, c);
    ColorWordsFree(s, c);
    PointWordsFree(s, c);
    SmoothWordsFree(s, c);
    AllFreeAppend(SmoothWords(s), AxesWords(s), c);
    AllFreeAppend(PointWords(s), SmoothWords(s) + AxesWords(s), c);
    AllFreeAppend(WidthWords(s), PointWords(s) + (SmoothWords(s) + AxesWords(s)), c);
    AllFreeAppend(ColorWords(s), WidthWords(s) + (PointWords(s) + (SmoothWords(s) + AxesWords(s))), c);
    AllFreeAppend(StyleWords(s), ColorWords(s) + (WidthWords(s) + (PointWords(s) + (SmoothWords(s) + AxesWords(s)))), c);
  }

  lemma ReadColorOf(s: SeriesState, rest: seq<string>)
    requires |rest| > 0 && rest[0] == "linewidth"
    ensures ReadColorWords(ColorWords(s) + rest) == (IntendedReading(s).color, rest)
  {
    match s.color
    case Some(c) => ReadRgb(Rgba(c), rest);
    case None => assert ColorWords(s) + rest == rest;
  }

  lemma ReadRgb(n: int, rest: seq<string>)
    requires |rest| > 0 && rest[0] == "linewidth"
    ensures ReadColorWords(["linecolor", "rgb", IntToString(n)] + rest) == (Some(n), rest)
  {
    IntToStringRoundTrip(n);
    var words := ["linecolor", "rgb", IntToString(n)] + rest;
    assert words[..3] == ["linecolor", "rgb", IntToString(n)] && words[3..] == rest;
  }

  lemma ReadPointOf(s: SeriesState, rest: seq<string>)
    requires |rest| > 0 && (rest[0] == "smooth" || rest[0] == "axes")
    ensures ReadPointWords(PointWords(s) + rest) == (IntendedReading(s).point, rest)
  {
    match s.pointType
    case Some(p) =>
      IntToStringRoundTrip(PointTypeOrdinal(p) + 1);
      var words := ["pointtype", IntToString(PointTypeOrdinal(p) + 1), "pointsize", s.pointSize.text] + rest;
      assert words[..4] == ["pointtype", IntToString(PointTypeOrdinal(p) + 1), "pointsize", s.pointSize.text];
      assert words[4..] == rest;
    case None =>
      assert PointWords(s) + rest == rest;
  }

  lemma ReadSmoothOf(s: SeriesState, rest: seq<string>)
    requires |rest| > 0 && rest[0] == "axes"
    ensures ReadSmoothWords(SmoothWords(s) + rest) == (s.smooth, rest)
  {
    match s.smooth
    case Some(m) =>
      SmoothKeywordRoundTrip(m);
      var words := ["smooth", SmoothKeyword(m)] + rest;
      assert words[..2] == ["smooth", SmoothKeyword(m)] && words[2..] == rest;
    case None =>
      assert SmoothWords(s) + rest == rest;
  }

  /** The option words of a series read back as what its clause is meant to say. */
  lemma ReadOptionsOf(s: SeriesState)
    ensures ReadOptionWords(s.dataId, s.title, ClauseWords(s)) == Some(IntendedReading(s))
  {
    var w6 := AxesWords(s);
    var w5 := SmoothWords(s) + w6;
    var w4 := PointWords(s) + w5;
    var w3 := WidthWords(s) + w4;
    var w2 := ColorWords(s) + w3;
    var w1 := StyleWords(s) + w2;
    StyleKeywordRoundTrip(s.plotStyle);
    AxesTextRoundTrip(s.axes);
    assert w1[2..] == w2;
    ReadColorOf(s, w3);
    assert w3[2..] == w4;
    ReadPointOf(s, w5);
    ReadSmoothOf(s, w6);
  }

  /** The plot command: the clauses joined by commas. */
  function PlotCommand(clauses: seq<string>): string
  {
    "plot " + Join(clauses, ",") + "\n"
  }

  /** The clause of a series opens with the name of the dataset it draws from, as its own word. */
  lemma SeriesClauseNamesDataset(s: SeriesState)
    ensures var words := Split(SeriesClause(s), ' ');
      words[0] == DatasetName(s.dataId) && DatasetOfName(words[0]) == Some(s.dataId)
  {
    var name := DatasetName(s.dataId);
    assert Free(name, ' ') by {
      assert name == "$_" + NatToString(s.dataId);
    }
    SplitAppend(name, SeriesOptions(s), ' ');
    DatasetNameRoundTrip(s.dataId);
  }

  /** The clause reader takes a clause apart as its pieces say. */
  lemma ReadClausePieces(clause: string, head: string, title: string, options: string,
                         name: string, id: nat, words: seq<string>)
    requires Split(clause, '"') == [head, title, options]
    requires Split(head, ' ') == [name, "title", ""] && DatasetOfName(name) == Some(id)
    requires Split(options, ' ') == [""] + words
    ensures ReadClause(clause) == ReadOptionWords(id, title, words)
  {
    assert ([""] + words)[1..] == words;
  }

  lemma DatasetNameFree(id: nat)
    ensures Free(DatasetName(id), ' ') && Free(DatasetName(id), '"')
  {
    IntTextFree(id);
    FreeAppend("$_", IntToString(id), ' ');
    FreeAppend("$_", IntToString(id), '"');
  }

  /**
   * The clause of a plain series whose title holds no quote reads back as
   * what it is meant to tell gnuplot: its dataset and title; `with` and a
   * keyword naming its style; `linecolor rgb` with the rgba number exactly
   * when a colour is set; its line width; `pointtype` with the ordinal plus
   * one, and the point size, exactly when a point type is set; `smooth` with
   * a keyword naming the smoothing exactly when one is set; and, last,
   * `axes` with the name of its axes pair, in that order.
   */
  lemma SeriesClauseRoundTrip(s: SeriesState)
    requires Free(s.title, '"') && PlainSeries(s)
    ensures ReadClause(SeriesClause(s)) == Some(IntendedReading(s))
  {
    var name := DatasetName(s.dataId);
    var words := ClauseWords(s);
    ClauseSplits(s);
    ClauseHeadSplits(s.dataId);
    ClauseWordsFree(s, ' ');
    SplitSpaced("", words);
    assert "" + Spaced(words) == Spaced(words);
    DatasetNameRoundTrip(s.dataId);
    ReadClausePieces(SeriesClause(s), name + " title ", s.title, Spaced(words), name, s.dataId, words);
    ReadOptionsOf(s);
  }

  /** A clause splits at its quotes into the dataset part, the title and the options. */
  lemma ClauseSplits(s: SeriesState)
    requires Free(s.title, '"') && PlainSeries(s)
    ensures Split(SeriesClause(s), '"') == [DatasetName(s.dataId) + " title ", s.title, Spaced(ClauseWords(s))]
  {
    DatasetNameFree(s.dataId);
    ClauseWordsFree(s, '"');
    SpacedFree(ClauseWords(s), '"');
    TitledSplits(DatasetName(s.dataId), s.title, Spaced(ClauseWords(s)));
  }

  lemma TitledSplits(name: string, title: string, options: string)
    requires Free(name, '"') && Free(title, '"') && Free(options, '"')
    ensures Split(name + " " + ("title \"" + title + "\"" + options), '"') == [name + " title ", title, options]
  {
    var head := name + " title ";
    FreeAppend(name, " title ", '"');
    assert name + " " + ("title \"" + title + "\"" + options) == head + ['"'] + title + ['"'] + options by {
      AppendAssoc(name, " ", "title \"" + title + "\"", options);
      AppendAssoc(name, " ", "title \"" + title, "\"");
      AppendAssoc(name, " ", "title \"", title);
      AppendAssoc(name, " ", "title ", ['"']);
    }
    SplitThree(head, title, options, '"');
  }

  lemma ClauseHeadSplits(id: nat)
    ensures Split(DatasetName(id) + " title ", ' ') == [DatasetName(id), "title", ""]
  {
    var name := DatasetName(id);
    DatasetNameFree(id);
    assert name + " title " == name + [' '] + "title" + [' '] + "";
    SplitThree(name, "title", "", ' ');
  }

  /**
   * The plot command is "plot " and a newline around the clauses joined by
   * commas: when no clause holds a comma, splitting the middle at commas
   * gives back the clauses, in order.
   */
  lemma PlotCommandClauses(clauses: seq<string>)
    requires |clauses| > 0 && forall i :: 0 <= i < |clauses| ==> Free(clauses[i], ',')
    ensures var c := PlotCommand(clauses);
      |c| >= 6 && c[..5] == "plot " && c[|c| - 1] == '\n' && Split(c[5..|c| - 1], ',') == clauses
  {
    var c := PlotCommand(clauses);
    assert c[5..|c| - 1] == Join(clauses, ",");
    SplitJoin(clauses, ',');
  }

  // ------------------------------------------------------ batched append

  /** The print lines of the batched append for the given points, in order. */
  function BatchedLines(points: seq<seq<Number>>): string
    decreases |points|
  {
    if points == [] then "" else BatchedLine(points[0]) + BatchedLines(points[1..])
  }

  /**
   * What append(first, last, batchSize) writes after its prologue: one text
   * per batch of batchSize points, the last batch holding the rest.
   */
  function Batches(points: seq<seq<Number>>, batchSize: nat): (texts: seq<string>)
    requires batchSize > 0
    decreases |points|
  {
    if points == [] then []
    else
      var n := if |points| < batchSize then |points| else batchSize;
      [BatchedLines(points[..n])] + Batches(points[n..], batchSize)
  }

  lemma {:induction false} BatchedLinesAppend(a: seq<seq<Number>>, b: seq<seq<Number>>)
    ensures BatchedLines(a + b) == BatchedLines(a) + BatchedLines(b)
    decreases |a|
  {
    if a != [] {
      assert (a + b)[1..] == a[1..] + b;
      BatchedLinesAppend(a[1..], b);
      calc {
        BatchedLines(a + b);
        BatchedLine(a[0]) + BatchedLines(a[1..] + b);
        BatchedLine(a[0]) + (BatchedLines(a[1..]) + BatchedLines(b));
        (BatchedLine(a[0]) + BatchedLines(a[1..])) + BatchedLines(b);
      }
    } else {
      assert a + b == b;
    }
  }

  /**
   * Batching changes only where the writes are cut: together the batches
   * hold the print line of every point, in order, and their number is the
   * least k with k * batchSize >= the number of points.
   */
  lemma {:induction false} BatchesCoverAll(points: seq<seq<Number>>, batchSize: nat)
    requires batchSize > 0
    ensures Concat(Batches(points, batchSize)) == BatchedLines(points)
    ensures |points| <= |Batches(points, batchSize)| * batchSize < |points| + batchSize
    decreases |points|
  {
    if points != [] {
      var n := if |points| < batchSize then |points| else batchSize;
      var rest := points[n..];
      BatchesCoverAll(rest, batchSize);
      assert points == points[..n] + rest;
      BatchedLinesAppend(points[..n], rest);
      var k := |Batches(rest, batchSize)|;
      assert (k + 1) * batchSize == k * batchSize + batchSize;
      if n < batchSize {
        assert rest == [];
      }
    }
  }
}
