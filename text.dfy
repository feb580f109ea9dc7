/**
 * The integer rendering and the joining of fields that the library gets from
 * the fmt library's "{}" replacement field, and the inverses used to state
 * that what is written can be read back.
 */
module Text {
  import opened Wrappers

  predicate IsDigit(c: char) { '0' <= c <= '9' }

  predicate AllDigits(s: string) { forall i :: 0 <= i < |s| ==> IsDigit(s[i]) }

  function DigitChar(d: nat): (c: char)
    requires d < 10
    ensures IsDigit(c) && c as int - '0' as int == d
  {
    ('0' as int + d) as char
  }

  /** The decimal digits of n, most significant first, without leading zeros. */
  function NatToString(n: nat): (s: string)
    ensures |s| > 0 && AllDigits(s)
    ensures s[0] == '0' ==> n == 0
    decreases n
  {
    if n < 10 then [DigitChar(n)] else NatToString(n / 10) + [DigitChar(n % 10)]
  }

  /** fmt's "{}" for an integer: a minus sign for negative values, then the digits. */
  function IntToString(i: int): (s: string)
    ensures |s| > 0
    ensures (s[0] == '-') == (i < 0)
  {
    if i < 0 then "-" + NatToString(-i) else NatToString(i)
  }

  /** An integer's text is made of a sign and digits only. */
  lemma IntToStringChars(i: int)
    ensures forall k :: 0 <= k < |IntToString(i)| ==> IntToString(i)[k] == '-' || IsDigit(IntToString(i)[k])
  {
    if i < 0 {
      assert IntToString(i) == "-" + NatToString(-i);
    }
  }

  /** The value of a string of decimal digits. */
  function DigitsValue(s: string): nat
    requires AllDigits(s)
  {
    if s == [] then 0 else DigitsValue(s[..|s| - 1]) * 10 + (s[|s| - 1] as int - '0' as int)
  }

  /** Reads back an integer written by IntToString. */
  function ParseInt(s: string): Option<int>
  {
    if |s| > 1 && s[0] == '-' && AllDigits(s[1..]) then Some(0 - DigitsValue(s[1..]) as int)
    else if |s| > 0 && AllDigits(s) then Some(DigitsValue(s))
    else None
  }

  lemma {:induction false} NatToStringRoundTrip(n: nat)
    ensures DigitsValue(NatToString(n)) == n
    decreases n
  {
    if n >= 10 {
      var s := NatToString(n);
      assert s[..|s| - 1] == NatToString(n / 10);
      NatToStringRoundTrip(n / 10);
    }
  }

  /** Every integer the library renders can be read back unchanged. */
  lemma IntToStringRoundTrip(i: int)
    ensures ParseInt(IntToString(i)) == Some(i)
  {
    NatToStringRoundTrip(if i < 0 then -i else i);
    if i < 0 {
      assert IntToString(i)[1..] == NatToString(-i);
    }
  }

  /** Distinct integers are rendered as distinct texts. */
  lemma IntToStringInjective(i: int, j: int)
    requires IntToString(i) == IntToString(j)
    ensures i == j
  {
    IntToStringRoundTrip(i);
    IntToStringRoundTrip(j);
  }

  /** The parts with sep between each two neighbours (fmt's join). */
  function Join(parts: seq<string>, sep: string): string
  {
    if parts == [] then "" else if |parts| == 1 then parts[0] else parts[0] + sep + Join(parts[1..], sep)
  }

  /** The concatenation of all parts, in order. */
  function Concat(parts: seq<string>): string
  {
    if parts == [] then "" else parts[0] + Concat(parts[1..])
  }

  /** Splits s at every occurrence of the character sep (the inverse of Join). */
  function Split(s: string, sep: char): (parts: seq<string>)
    ensures |parts| > 0
    decreases |s|
  {
    if s == [] then [""]
    else
      var rest := Split(s[1..], sep);
      if s[0] == sep then [""] + rest else [[s[0]] + rest[0]] + rest[1..]
  }

  predicate Free(s: string, c: char) { forall i :: 0 <= i < |s| ==> s[i] != c }

  /** No word holds the character c. */
  predicate AllFree(words: seq<string>, c: char) { forall i :: 0 <= i < |words| ==> Free(words[i], c) }

  lemma AllFreeAppend(a: seq<string>, b: seq<string>, c: char)
    requires AllFree(a, c) && AllFree(b, c)
    ensures AllFree(a + b, c)
  {
    forall i | 0 <= i < |a + b| ensures Free((a + b)[i], c) {
      if i < |a| { assert (a + b)[i] == a[i]; } else { assert (a + b)[i] == b[i - |a|]; }
    }
  }

  /** Lower-case letters and digits only, as in gnuplot's keywords. */
  predicate Alnum(s: string) { forall i :: 0 <= i < |s| ==> 'a' <= s[i] <= 'z' || IsDigit(s[i]) }

  lemma FreeAppend(a: string, b: string, c: char)
    requires Free(a, c) && Free(b, c)
    ensures Free(a + b, c)
  {
    forall i | 0 <= i < |a + b| ensures (a + b)[i] != c {
      if i < |a| { assert (a + b)[i] == a[i]; } else { assert (a + b)[i] == b[i - |a|]; }
    }
  }

  lemma {:induction false} SplitFree(s: string, sep: char)
    requires Free(s, sep)
    ensures Split(s, sep) == [s]
    decreases |s|
  {
    if s != [] {
      SplitFree(s[1..], sep);
      assert [s[0]] + s[1..] == s;
    }
  }

  lemma {:induction false} SplitAppend(a: string, b: string, sep: char)
    requires Free(a, sep)
    ensures Split(a + [sep] + b, sep) == [a] + Split(b, sep)
    decreases |a|
  {
    if a == [] {
      assert a + [sep] + b == [sep] + b;
      assert ([sep] + b)[1..] == b;
    } else {
      assert (a + [sep] + b)[1..] == a[1..] + [sep] + b;
      SplitAppend(a[1..], b, sep);
      assert [a[0]] + a[1..] == a;
    }
  }

  lemma AppendAssoc(a: string, b: string, c: string, d: string)
    ensures a + b + c == a + (b + c)
    ensures a + b + c + d == a + (b + (c + d))
  {
  }

  /** Each word preceded by one space: how gnuplot options follow one another on a line. */
  function Spaced(words: seq<string>): string
  {
    if words == [] then "" else " " + words[0] + Spaced(words[1..])
  }

  lemma {:induction false} SpacedAppend(a: seq<string>, b: seq<string>)
    ensures Spaced(a + b) == Spaced(a) + Spaced(b)
    decreases |a|
  {
    if a != [] {
      assert (a + b)[1..] == a[1..] + b;
      SpacedAppend(a[1..], b);
    } else {
      assert a + b == b;
    }
  }

  lemma {:induction false} SpacedFree(words: seq<string>, c: char)
    requires c != ' ' && forall i :: 0 <= i < |words| ==> Free(words[i], c)
    ensures Free(Spaced(words), c)
    decreases |words|
  {
    if words != [] {
      SpacedFree(words[1..], c);
      FreeAppend(" ", words[0], c);
      FreeAppend(" " + words[0], Spaced(words[1..]), c);
    }
  }

  /** A word followed by space-free words, each after one space, splits back into those words. */
  lemma {:induction false} SplitSpaced(w: string, words: seq<string>)
    requires Free(w, ' ') && forall i :: 0 <= i < |words| ==> Free(words[i], ' ')
    ensures Split(w + Spaced(words), ' ') == [w] + words
    decreases |words|
  {
    if words == [] {
      assert w + Spaced(words) == w;
      SplitFree(w, ' ');
    } else {
      assert w + Spaced(words) == w + [' '] + (words[0] + Spaced(words[1..]));
      SplitAppend(w, words[0] + Spaced(words[1..]), ' ');
      SplitSpaced(words[0], words[1..]);
      assert [words[0]] + words[1..] == words;
    }
  }

  /** Four separator-free fields joined by single separators split back into the four. */
  /** Three separator-free fields joined by single separators split back into the three. */
  lemma SplitThree(a: string, b: string, c: string, sep: char)
    requires Free(a, sep) && Free(b, sep) && Free(c, sep)
    ensures Split(a + [sep] + b + [sep] + c, sep) == [a, b, c]
  {
    var bc := b + [sep] + c;
    SplitAppend(b, c, sep);
    SplitFree(c, sep);
    assert Split(bc, sep) == [b, c];
    SplitAppend(a, bc, sep);
    assert Split(a + [sep] + bc, sep) == [a, b, c];
    AppendAssoc(a + [sep], b, [sep], c);
    AppendAssoc(b, [sep], c, c);
    assert a + [sep] + b + [sep] + c == a + [sep] + bc;
  }

  lemma SplitFour(a: string, b: string, c: string, d: string, sep: char)
    requires Free(a, sep) && Free(b, sep) && Free(c, sep) && Free(d, sep)
    ensures Split(a + [sep] + b + [sep] + c + [sep] + d, sep) == [a, b, c, d]
  {
    var cd := c + [sep] + d;
    var bcd := b + [sep] + cd;
    SplitAppend(c, d, sep);
    SplitFree(d, sep);
    assert Split(cd, sep) == [c, d];
    SplitAppend(b, cd, sep);
    assert Split(bcd, sep) == [b, c, d];
    SplitAppend(a, bcd, sep);
    assert Split(a + [sep] + bcd, sep) == [a, b, c, d];
    AppendAssoc(a + [sep] + b + [sep], c, [sep], d);
    AppendAssoc(c, [sep], d, d);
    AppendAssoc(a + [sep], b, [sep], cd);
    AppendAssoc(b, [sep], cd, cd);
    assert a + [sep] + b + [sep] + c + [sep] + d == a + [sep] + bcd;
  }

  /** Joining fields that do not contain the separator can be undone by splitting. */
  lemma {:induction false} SplitJoin(parts: seq<string>, sep: char)
    requires |parts| > 0
    requires forall i :: 0 <= i < |parts| ==> Free(parts[i], sep)
    ensures Split(Join(parts, [sep]), sep) == parts
    decreases |parts|
  {
    if |parts| == 1 {
      SplitFree(parts[0], sep);
    } else {
      SplitJoin(parts[1..], sep);
      SplitAppend(parts[0], Join(parts[1..], [sep]), sep);
      assert [parts[0]] + parts[1..] == parts;
    }
  }

  lemma {:induction false} ConcatSnoc(parts: seq<string>, p: string)
    ensures Concat(parts + [p]) == Concat(parts) + p
    decreases |parts|
  {
    if parts != [] {
      assert (parts + [p])[1..] == parts[1..] + [p];
      ConcatSnoc(parts[1..], p);
    }
  }

  lemma {:induction false} ConcatAppend(a: seq<string>, b: seq<string>)
    ensures Concat(a + b) == Concat(a) + Concat(b)
    decreases |a|
  {
    if a != [] {
      assert (a + b)[1..] == a[1..] + b;
      ConcatAppend(a[1..], b);
      calc {
        Concat(a + b);
        a[0] + Concat(a[1..] + b);
        a[0] + (Concat(a[1..]) + Concat(b));
        (a[0] + Concat(a[1..])) + Concat(b);
      }
    } else {
      assert a + b == b;
    }
  }

  lemma {:induction false} JoinSnoc(parts: seq<string>, p: string, sep: string)
    requires parts != []
    ensures Join(parts + [p], sep) == Join(parts, sep) + sep + p
    decreases |parts|
  {
    if |parts| > 1 {
      assert (parts + [p])[1..] == parts[1..] + [p];
      JoinSnoc(parts[1..], p, sep);
    }
  }
}
