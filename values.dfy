/**
 * The value layer of gnuplotxx: colours, the style enumerations and their
 * keyword tables, axes and axis slots, range limits, and the text each of
 * them is rendered as in a gnuplot command.
 */
module Values {
  import opened Wrappers
  import opened Text

  // ---------------------------------------------------------------- Color

  /**
   * A colour packed into one 32-bit int: alpha in bits 24-31, then red,
   * green and blue. `bits` is the two's-complement bit pattern of the int;
   * two colours are equal exactly when their ints are.
   */
  datatype Color = Color(bits: bv32)

  /** Color(int r, int g, int b, int a = 0); each argument is given as the bit pattern of the C++ int. */
  function MakeColor(r: bv32, g: bv32, b: bv32, a: bv32): Color
  {
    Color((a << 24) | (r << 16) | (g << 8) | b)
  }

  /** Color(): black, fully opaque in the library's convention (alpha 0). */
  const DefaultColor := MakeColor(0, 0, 0, 0)

  function Red(c: Color): (v: int)
    ensures 0 <= v < 256
  {
    ((c.bits >> 16) & 0xff) as int
  }

  function Green(c: Color): (v: int)
    ensures 0 <= v < 256
  {
    ((c.bits >> 8) & 0xff) as int
  }

  function Blue(c: Color): (v: int)
    ensures 0 <= v < 256
  {
    (c.bits & 0xff) as int
  }

  function Alpha(c: Color): (v: int)
    ensures 0 <= v < 256
  {
    ((c.bits >> 24) & 0xff) as int
  }

  /** rgba(): the packed value read as a signed 32-bit int. */
  function Rgba(c: Color): (v: int)
    ensures -0x8000_0000 <= v < 0x8000_0000
    ensures (v < 0) == (Alpha(c) >= 128)
  {
    if c.bits < 0x8000_0000 then c.bits as int else c.bits as int - 0x1_0000_0000
  }

  /** fade(int a): the same colour with alpha replaced by the low byte of a. */
  function Fade(c: Color, a: bv32): (f: Color)
    ensures Red(f) == Red(c) && Green(f) == Green(c) && Blue(f) == Blue(c)
    ensures Alpha(f) == (a & 0xff) as int
  {
    Color((c.bits & 0xffffff) | ((a & 0xff) << 24))
  }

  /** Each channel given in 0..255 is read back unchanged. */
  lemma ChannelsRoundTrip(r: bv32, g: bv32, b: bv32, a: bv32)
    requires r < 256 && g < 256 && b < 256 && a < 256
    ensures Red(MakeColor(r, g, b, a)) == r as int
    ensures Green(MakeColor(r, g, b, a)) == g as int
    ensures Blue(MakeColor(r, g, b, a)) == b as int
    ensures Alpha(MakeColor(r, g, b, a)) == a as int
  {
  }

  // ----------------------------------------------------- enumerations

  datatype PlotStyle = Points | Dots | Lines | LinesPoints | Steps | FSteps | HiSteps | Impulses | Boxes

  datatype PointType =
    | Cross | X | Asterisk | Box | FilledBox | Circle | FilledCircle | Triangle | FilledTriangle
    | UpsideDownTriangle | FilledUpsideDownTriangle | Diamond | FilledDiamond | Pentagon | FilledPentagon

  /** PointType::Star is another name of PointType::Asterisk. */
  const Star := Asterisk

  datatype Smooth =
    | Unique | Frequency | FNormal | Cumulative | CNormal | Bins | KDensity | CSplines | ACSplines
    | MCSplines | Bezier | SBezier | Unwrap

  /** The underlying value of a PointType enumerator (Star shares Asterisk's). */
  function PointTypeOrdinal(p: PointType): nat
  {
    match p
    case Cross => 0
    case X => 1
    case Asterisk => 2
    case Box => 3
    case FilledBox => 4
    case Circle => 5
    case FilledCircle => 6
    case Triangle => 7
    case FilledTriangle => 8
    case UpsideDownTriangle => 9
    case FilledUpsideDownTriangle => 10
    case Diamond => 11
    case FilledDiamond => 12
    case Pentagon => 13
    case FilledPentagon => 14
  }

  /** The gnuplot `pointtype` number of a point type: its ordinal plus one. */
  lemma PointTypeNumbers(p: PointType, q: PointType)
    ensures 1 <= PointTypeOrdinal(p) + 1 <= 15
    ensures PointTypeOrdinal(p) == PointTypeOrdinal(q) ==> p == q
  {
  }

  /** The plot-style lookup table, total over PlotStyle. */
  function StyleKeyword(s: PlotStyle): string
  {
    match s
    case Points => "points"
    case Dots => "dots"
    case Lines => "lines"
    case LinesPoints => "linespoints"
    case Steps => "steps"
    case FSteps => "fsteps"
    case HiSteps => "histeps"
    case Impulses => "impulses"
    case Boxes => "boxes"
  }

  /** The smoothing lookup table, total over Smooth. */
  function SmoothKeyword(s: Smooth): string
  {
    match s
    case Unique => "unique"
    case Frequency => "frequency"
    case FNormal => "fnormal"
    case Cumulative => "cumulative"
    case CNormal => "cnormal"
    case Bins => "bins"
    case KDensity => "kdensity"
    case CSplines => "csplines"
    case ACSplines => "acsplines"
    case MCSplines => "mcsplines"
    case Bezier => "bezier"
    case SBezier => "sbezier"
    case Unwrap => "unwrap"
  }

  /** The style a gnuplot `with` keyword names, if any. */
  function StyleOfKeyword(k: string): Option<PlotStyle>
  {
    if k == "points" then Some(Points)
    else if k == "dots" then Some(Dots)
    else if k == "lines" then Some(Lines)
    else if k == "linespoints" then Some(LinesPoints)
    else if k == "steps" then Some(Steps)
    else if k == "fsteps" then Some(FSteps)
    else if k == "histeps" then Some(HiSteps)
    else if k == "impulses" then Some(Impulses)
    else if k == "boxes" then Some(Boxes)
    else None
  }

  /** The smoothing a gnuplot `smooth` keyword names, if any. */
  function SmoothOfKeyword(k: string): Option<Smooth>
  {
    if k == "unique" then Some(Unique)
    else if k == "frequency" then Some(Frequency)
    else if k == "fnormal" then Some(FNormal)
    else if k == "cumulative" then Some(Cumulative)
    else if k == "cnormal" then Some(CNormal)
    else if k == "bins" then Some(Bins)
    else if k == "kdensity" then Some(KDensity)
    else if k == "csplines" then Some(CSplines)
    else if k == "acsplines" then Some(ACSplines)
    else if k == "mcsplines" then Some(MCSplines)
    else if k == "bezier" then Some(Bezier)
    else if k == "sbezier" then Some(SBezier)
    else if k == "unwrap" then Some(Unwrap)
    else None
  }

  /** Every style has a keyword, and the keyword names that style and no other. */
  lemma StyleKeywordRoundTrip(s: PlotStyle)
    ensures StyleOfKeyword(StyleKeyword(s)) == Some(s)
  {
  }

  /** Every smoothing has a keyword, and the keyword names that smoothing and no other. */
  lemma SmoothKeywordRoundTrip(s: Smooth)
    ensures SmoothOfKeyword(SmoothKeyword(s)) == Some(s)
  {
  }

  // --------------------------------------------------------------- axes

  datatype Abscissa = X1 | X2
  datatype Ordinate = Y1 | Y2

  /** Axis: std::variant<Abscissa, Ordinate>. */
  datatype Axis = XAxis(x: Abscissa) | YAxis(y: Ordinate)

  /** One abscissa bound to one ordinate. */
  datatype AxesPair = AxesPair(x: Abscissa, y: Ordinate)

  const X1Y1 := AxesPair(X1, Y1)
  const X1Y2 := AxesPair(X1, Y2)
  const X2Y1 := AxesPair(X2, Y1)
  const X2Y2 := AxesPair(X2, Y2)

  /** The slot of an axis in the per-axis arrays: X1, Y1, X2, Y2 are 0, 1, 2, 3. */
  function AxisIndex(a: Axis): (i: nat)
    ensures i < 4
  {
    match a
    case XAxis(x) => if x == X2 then 2 else 0
    case YAxis(y) => if y == Y1 then 1 else 3
  }

  /** The axis stored in slot i. */
  function AxisAt(i: nat): Axis
    requires i < 4
  {
    if i == 0 then XAxis(X1) else if i == 1 then YAxis(Y1) else if i == 2 then XAxis(X2) else YAxis(Y2)
  }

  /** AxisIndex is a bijection between the four axes and the slots 0..3. */
  lemma AxisIndexBijective(a: Axis, i: nat)
    requires i < 4
    ensures AxisAt(AxisIndex(a)) == a
    ensures AxisIndex(AxisAt(i)) == i
  {
  }

  /** The four axes in the order the range block of an update emits them. */
  const CanonicalAxes: seq<Axis> := [XAxis(X1), YAxis(Y1), XAxis(X2), YAxis(Y2)]

  /** The i-th axis of the canonical order is the one stored in slot i. */
  lemma CanonicalAxesAreSlots(i: nat)
    requires i < 4
    ensures |CanonicalAxes| == 4
    ensures AxisIndex(CanonicalAxes[i]) == i
  {
  }

  function AbscissaOrdinal(x: Abscissa): nat { if x == X1 then 0 else 1 }
  function OrdinateOrdinal(y: Ordinate): nat { if y == Y1 then 0 else 1 }

  /**
   * The axis formatter: the letter, then the digit '1' + ordinal when the
   * ordinal is non-zero or the format spec is '2' (wide).
   */
  function AxisLetterText(letter: char, ordinal: nat, wide: bool): string
    requires ordinal < 2
  {
    [letter] + if ordinal > 0 || wide then [('1' as int + ordinal) as char] else []
  }

  /** An axis rendered with the default spec "{}": x, y, x2, y2. */
  function AxisText(a: Axis): string
  {
    match a
    case XAxis(x) => AxisLetterText('x', AbscissaOrdinal(x), false)
    case YAxis(y) => AxisLetterText('y', OrdinateOrdinal(y), false)
  }

  /** An axes pair rendered with the wide spec (":2") on both axes: x1y1, x1y2, x2y1, x2y2. */
  function AxesText(p: AxesPair): string
  {
    AxisLetterText('x', AbscissaOrdinal(p.x), true) + AxisLetterText('y', OrdinateOrdinal(p.y), true)
  }

  /** The axis a range/tics command names, if any. */
  function AxisOfText(t: string): Option<Axis>
  {
    if t == "x" then Some(XAxis(X1))
    else if t == "y" then Some(YAxis(Y1))
    else if t == "x2" then Some(XAxis(X2))
    else if t == "y2" then Some(YAxis(Y2))
    else None
  }

  /** The axes pair an `axes` option names, if any. */
  function AxesOfText(t: string): Option<AxesPair>
  {
    if t == "x1y1" then Some(X1Y1)
    else if t == "x1y2" then Some(X1Y2)
    else if t == "x2y1" then Some(X2Y1)
    else if t == "x2y2" then Some(X2Y2)
    else None
  }

  /** Axis names are x, y, x2, y2, and each names its own axis. */
  lemma AxisTextRoundTrip(a: Axis)
    ensures AxisText(a) in {"x", "y", "x2", "y2"}
    ensures AxisOfText(AxisText(a)) == Some(a)
  {
    match a
    case XAxis(X1) => assert AxisText(a) == "x";
    case XAxis(X2) => assert AxisText(a) == "x2";
    case YAxis(Y1) => assert AxisText(a) == "y";
    case YAxis(Y2) => assert AxisText(a) == "y2";
  }

  /** Axes-pair names are x1y1, x1y2, x2y1, x2y2, and each names its own pair. */
  lemma AxesTextRoundTrip(p: AxesPair)
    ensures AxesText(p) in {"x1y1", "x1y2", "x2y1", "x2y2"}
    ensures AxesOfText(AxesText(p)) == Some(p)
  {
    match p
    case AxesPair(X1, Y1) => assert AxesText(p) == "x1y1";
    case AxesPair(X1, Y2) => assert AxesText(p) == "x1y2";
    case AxesPair(X2, Y1) => assert AxesText(p) == "x2y1";
    case AxesPair(X2, Y2) => assert AxesText(p) == "x2y2";
  }

  // ------------------------------------------------------------- ranges

  /** A C++ double, identified by the text fmt's "{}" renders for it. */
  datatype Double = Double(text: string)

  /** LimitValue: std::variant<AutoType, int, double>. */
  datatype LimitValue = LimitAuto | LimitInt(i: int) | LimitDouble(d: Double)

  /** RangeValue: std::variant<AutoType, int, double, Limit>; a Limit is a pair of LimitValues. */
  datatype RangeValue = Auto | RangeInt(i: int) | RangeDouble(d: Double) | Limit(lower: LimitValue, upper: LimitValue)

  /** Range: the pair (min, max); default-constructed it is (Auto, Auto). */
  datatype Range = Range(min: RangeValue, max: RangeValue)

  const DefaultRange := Range(Auto, Auto)

  /** `Auto < value`: a limit whose lower end is automatic. */
  function AutoBelow(value: Double): RangeValue { Limit(LimitAuto, LimitDouble(value)) }

  /** `value < Auto`: a limit whose upper end is automatic. */
  function AutoAbove(value: Double): RangeValue { Limit(LimitDouble(value), LimitAuto) }

  function LimitValueText(v: LimitValue): string
  {
    match v
    case LimitAuto => "*"
    case LimitInt(i) => IntToString(i)
    case LimitDouble(d) => d.text
  }

  function RangeValueText(v: RangeValue): string
  {
    match v
    case Auto => "*"
    case RangeInt(i) => IntToString(i)
    case RangeDouble(d) => d.text
    case Limit(lower, upper) => LimitValueText(lower) + "<" + LimitValueText(upper)
  }

  /** A range as gnuplot reads it: "[min:max]". */
  function RangeText(r: Range): string
  {
    "[" + RangeValueText(r.min) + ":" + RangeValueText(r.max) + "]"
  }

  /**
   * The text fmt renders for a finite or infinite double: digits, sign,
   * decimal point, exponent, "inf" or "nan"; never a space, quote, colon,
   * bracket or '<'.
   */
  predicate PlainNumberText(t: string)
  {
    |t| > 0 && forall i :: 0 <= i < |t| ==> t[i] in "0123456789.-+einfa"
  }

  predicate PlainDoubles(r: Range)
  {
    && (r.min.RangeDouble? ==> PlainNumberText(r.min.d.text))
    && (r.max.RangeDouble? ==> PlainNumberText(r.max.d.text))
    && (r.min.Limit? ==> LimitPlain(r.min.lower) && LimitPlain(r.min.upper))
    && (r.max.Limit? ==> LimitPlain(r.max.lower) && LimitPlain(r.max.upper))
  }

  predicate LimitPlain(v: LimitValue) { v.LimitDouble? ==> PlainNumberText(v.d.text) }

  /** The two bounds of a "[min:max]" text, if it has that shape. */
  function RangeBounds(t: string): Option<(string, string)>
  {
    if |t| >= 2 && t[0] == '[' && t[|t| - 1] == ']' then
      var parts := Split(t[1..|t| - 1], ':');
      if |parts| == 2 then Some((parts[0], parts[1])) else None
    else None
  }

  /** The pieces of a range value separated by '<'. */
  function LimitPieces(t: string): seq<string> { Split(t, '<') }

  lemma IntTextPlain(i: int)
    ensures PlainNumberText(IntToString(i))
  {
    var s := IntToString(i);
    if i < 0 {
      assert s == "-" + NatToString(-i);
    }
  }

  /** A plain number text contains no character outside its alphabet. */
  lemma PlainFree(t: string, c: char)
    requires PlainNumberText(t) && c !in "0123456789.-+einfa"
    ensures Free(t, c)
  {
  }

  /** A plain number text contains none of the separators of a range, and is not "*". */
  lemma PlainSeparators(t: string)
    requires PlainNumberText(t)
    ensures Free(t, ':') && Free(t, '<') && t != "*"
  {
    assert t[0] != '*';
  }

  lemma LimitValueTextPlain(v: LimitValue)
    requires LimitPlain(v)
    ensures Free(LimitValueText(v), ':') && Free(LimitValueText(v), '<') && |LimitValueText(v)| > 0
  {
    match v
    case LimitAuto =>
    case LimitInt(i) => IntTextPlain(i); PlainSeparators(IntToString(i));
    case LimitDouble(d) => PlainSeparators(d.text);
  }

  /**
   * The bounds of a rendered range can be told apart: the colon separates
   * the text of min from the text of max, and a value renders as "*" exactly
   * when it is Auto.
   */
  lemma RangeTextBounds(r: Range)
    requires PlainDoubles(r)
    ensures RangeBounds(RangeText(r)) == Some((RangeValueText(r.min), RangeValueText(r.max)))
    ensures RangeValueText(r.min) == "*" <==> r.min == Auto
    ensures RangeValueText(r.max) == "*" <==> r.max == Auto
  {
    RangeValueFree(r.min);
    RangeValueFree(r.max);
    var a, b := RangeValueText(r.min), RangeValueText(r.max);
    var t := RangeText(r);
    assert t[1..|t| - 1] == a + [':'] + b;
    SplitAppend(a, b, ':');
    SplitFree(b, ':');
  }

  lemma RangeValueFree(v: RangeValue)
    requires v.RangeDouble? ==> PlainNumberText(v.d.text)
    requires v.Limit? ==> LimitPlain(v.lower) && LimitPlain(v.upper)
    ensures Free(RangeValueText(v), ':')
    ensures RangeValueText(v) == "*" <==> v == Auto
  {
    match v
    case Auto =>
    case RangeInt(i) => IntTextPlain(i); PlainSeparators(IntToString(i));
    case RangeDouble(d) => PlainSeparators(d.text);
    case Limit(lower, upper) =>
      var a, b := LimitValueText(lower), LimitValueText(upper);
      LimitValueTextPlain(lower);
      LimitValueTextPlain(upper);
      FreeAppend(a, "<", ':');
      FreeAppend(a + "<", b, ':');
      assert |a + "<" + b| > 1;
  }

  /** A limit renders as its lower and upper ends separated by a single '<'. */
  lemma LimitTextPieces(lower: LimitValue, upper: LimitValue)
    requires LimitPlain(lower) && LimitPlain(upper)
    ensures LimitPieces(RangeValueText(Limit(lower, upper))) == [LimitValueText(lower), LimitValueText(upper)]
  {
    LimitValueTextPlain(lower);
    LimitValueTextPlain(upper);
    SplitAppend(LimitValueText(lower), LimitValueText(upper), '<');
    SplitFree(LimitValueText(upper), '<');
  }

  // --------------------------------------------------------- data points

  /** One number of a data point: an integer or a double. */
  datatype Number = IntNumber(i: int) | DoubleNumber(d: Double)

  function NumberText(n: Number): string
  {
    match n
    case IntNumber(i) => IntToString(i)
    case DoubleNumber(d) => d.text
  }

  predicate PlainNumber(n: Number) { n.DoubleNumber? ==> PlainNumberText(n.d.text) }

  lemma NumberTextPlain(n: Number)
    requires PlainNumber(n)
    ensures PlainNumberText(NumberText(n))
  {
    if n.IntNumber? { IntTextPlain(n.i); }
  }

  /** pair<unsigned, unsigned> built from two ints: each int is converted modulo 2^32. */
  function ToUnsigned(i: int): (u: nat)
    requires -0x8000_0000 <= i < 0x8000_0000
    ensures u < 0x1_0000_0000
    ensures i >= 0 ==> u == i
    ensures i < 0 ==> u == i + 0x1_0000_0000
  {
    i % 0x1_0000_0000
  }
}
