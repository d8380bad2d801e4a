/** Text pieces of the completion document: wrapping, decimal numbers and hexadecimal strings. */
module PdfText {
  import opened Common

  const LINE_WIDTH := 72

  // ---------------------------------------------------------------- wrapping

  /** The lines of one stripped source line. */
  function Pieces(value: string): seq<string>
    decreases |value|
  {
    if |value| > LINE_WIDTH then [value[..LINE_WIDTH]] + Pieces(value[LINE_WIDTH..]) else [value]
  }

  function Wrapped(lines: seq<string>): seq<string>
    decreases |lines|
  {
    if lines == [] then [] else Wrapped(lines[..|lines| - 1]) + Pieces(Strip(lines[|lines| - 1]))
  }

  /** Cuts each source line after every 72 characters; a blank line stays one empty line. */
  method Wrap(lines: seq<string>) returns (wrapped: seq<string>)
    ensures wrapped == Wrapped(lines)
  {
    wrapped := [];
    for i := 0 to |lines|
      invariant wrapped == Wrapped(lines[..i])
    {
      assert lines[..i + 1][..i] == lines[..i];
      var value := Strip(lines[i]);
      if value == "" {
        wrapped := wrapped + [""];
      } else {
        ghost var before, whole := wrapped, value;
        while |value| > LINE_WIDTH
          invariant wrapped + Pieces(value) == before + Pieces(whole)
        {
          wrapped := wrapped + [value[..LINE_WIDTH]];
          value := value[LINE_WIDTH..];
        }
        wrapped := wrapped + [value];
      }
    }
    assert lines[..|lines|] == lines;
  }

  function Concat(pieces: seq<string>): string
    decreases |pieces|
  {
    if pieces == [] then "" else pieces[0] + Concat(pieces[1..])
  }

  /** The pieces of a line are its characters in order, none is too long, and only the last may be short. */
  lemma {:induction false} PiecesCoverLine(value: string)
    ensures var pieces := Pieces(value);
            && Concat(pieces) == value
            && |pieces| >= 1
            && (forall k :: 0 <= k < |pieces| ==> |pieces[k]| <= LINE_WIDTH)
            && (forall k :: 0 <= k < |pieces| - 1 ==> |pieces[k]| == LINE_WIDTH)
            && (value != "" ==> forall k :: 0 <= k < |pieces| ==> pieces[k] != "")
    decreases |value|
  {
    if |value| > LINE_WIDTH {
      PiecesCoverLine(value[LINE_WIDTH..]);
      assert value == value[..LINE_WIDTH] + value[LINE_WIDTH..];
      assert Pieces(value)[1..] == Pieces(value[LINE_WIDTH..]);
    } else {
      assert Concat([value]) == value + Concat([]);
    }
  }

  lemma {:induction false} WrappedFits(lines: seq<string>)
    ensures forall k :: 0 <= k < |Wrapped(lines)| ==> |Wrapped(lines)[k]| <= LINE_WIDTH
    decreases |lines|
  {
    if lines != [] {
      WrappedFits(lines[..|lines| - 1]);
      PiecesCoverLine(Strip(lines[|lines| - 1]));
    }
  }

  lemma {:induction false} ConcatAppend(first: seq<string>, second: seq<string>)
    ensures Concat(first + second) == Concat(first) + Concat(second)
    decreases |first|
  {
    if first == [] {
      assert first + second == second;
    } else {
      assert (first + second)[1..] == first[1..] + second;
      ConcatAppend(first[1..], second);
    }
  }

  /** All stripped source text, in order. */
  function Stripped(lines: seq<string>): string
    decreases |lines|
  {
    if lines == [] then "" else Stripped(lines[..|lines| - 1]) + Strip(lines[|lines| - 1])
  }

  /** Wrapping loses and reorders nothing. */
  lemma {:induction false} WrappedIsTheText(lines: seq<string>)
    ensures Concat(Wrapped(lines)) == Stripped(lines)
    decreases |lines|
  {
    if lines != [] {
      WrappedIsTheText(lines[..|lines| - 1]);
      PiecesCoverLine(Strip(lines[|lines| - 1]));
      ConcatAppend(Wrapped(lines[..|lines| - 1]), Pieces(Strip(lines[|lines| - 1])));
    }
  }

  // ---------------------------------------------------------- decimal numbers

  function Digit(d: nat): char
    requires d < 10
  {
    ('0' as int + d) as char
  }

  predicate IsDigit(c: char) {
    '0' <= c <= '9'
  }

  function Decimal(n: nat): (digits: string)
    ensures digits != ""
  {
    if n < 10 then [Digit(n)] else Decimal(n / 10) + [Digit(n % 10)]
  }

  predicate AllDigits(s: string) {
    forall i :: 0 <= i < |s| ==> IsDigit(s[i])
  }

  function Number(s: string): nat
    requires AllDigits(s)
    decreases |s|
  {
    if s == "" then 0 else 10 * Number(s[..|s| - 1]) + (s[|s| - 1] as int - '0' as int)
  }

  lemma {:induction false} DecimalReadsBack(n: nat)
    ensures AllDigits(Decimal(n)) && Number(Decimal(n)) == n
  {
    if n >= 10 {
      DecimalReadsBack(n / 10);
      assert Decimal(n)[..|Decimal(n)| - 1] == Decimal(n / 10);
    } else {
      assert Decimal(n)[..0] == "";
    }
  }

  function Power10(k: nat): nat {
    if k == 0 then 1 else 10 * Power10(k - 1)
  }

  lemma {:induction false} DecimalLength(n: nat, k: nat)
    requires k >= 1
    ensures |Decimal(n)| <= k <==> n < Power10(k)
    decreases k
  {
    assert Power10(k) == 10 * Power10(k - 1);
    if k == 1 {
      assert Power10(0) == 1;
    } else if n >= 10 {
      DecimalLength(n / 10, k - 1);
    } else {
      PowerPositive(k - 1);
    }
  }

  lemma {:induction false} PowerPositive(k: nat)
    ensures Power10(k) >= 1
  {
    if k > 0 { PowerPositive(k - 1); }
  }

  function Zeros(n: nat): (s: string)
    ensures |s| == n && forall i :: 0 <= i < n ==> s[i] == '0'
  {
    if n == 0 then "" else Zeros(n - 1) + ['0']
  }

  /** At least ten digits, padded with zeros on the left. */
  function Padded(n: nat): string {
    if |Decimal(n)| < 10 then Zeros(10 - |Decimal(n)|) + Decimal(n) else Decimal(n)
  }

  lemma {:induction false} ZerosInFront(zeros: nat, s: string)
    requires AllDigits(s)
    ensures AllDigits(Zeros(zeros) + s) && Number(Zeros(zeros) + s) == Number(s)
    decreases |s|, zeros
  {
    var all := Zeros(zeros) + s;
    if s != "" {
      ZerosInFront(zeros, s[..|s| - 1]);
      assert all[..|all| - 1] == Zeros(zeros) + s[..|s| - 1];
    } else if zeros > 0 {
      ZerosInFront(zeros - 1, "");
      assert Zeros(zeros - 1) + "" == Zeros(zeros - 1);
      assert all[..|all| - 1] == Zeros(zeros - 1);
    }
  }

  /** A padded number always reads back, and takes ten characters exactly below ten to the tenth. */
  lemma PaddedReadsBack(n: nat)
    ensures AllDigits(Padded(n)) && Number(Padded(n)) == n
    ensures |Padded(n)| == 10 <==> n < Power10(10)
  {
    DecimalReadsBack(n);
    DecimalLength(n, 10);
    if |Decimal(n)| < 10 { ZerosInFront(10 - |Decimal(n)|, Decimal(n)); }
  }

  // ------------------------------------------------------------- hexadecimal

  function HexDigit(d: nat): char
    requires d < 16
  {
    if d < 10 then ('0' as int + d) as char else ('A' as int + d - 10) as char
  }

  function HexValue(c: char): nat {
    if '0' <= c <= '9' then c as int - '0' as int
    else if 'A' <= c <= 'F' then c as int - 'A' as int + 10
    else 0
  }

  function Hex4(unit: nat): (s: string)
    requires unit < 0x10000
    ensures |s| == 4
  {
    var third := unit / 16;
    var second := third / 16;
    [HexDigit(second / 16), HexDigit(second % 16), HexDigit(third % 16), HexDigit(unit % 16)]
  }

  function High(code: nat): (unit: nat)
    requires 0x10000 <= code < 0x110000
    ensures 0xD800 <= unit < 0xDC00
  {
    0xD800 + (code - 0x10000) / 0x400
  }

  function Low(code: nat): (unit: nat)
    ensures 0xDC00 <= unit < 0xE000
  {
    0xDC00 + (code - 0x10000) % 0x400
  }

  lemma PairReadsBack(code: nat)
    requires 0x10000 <= code < 0x110000
    ensures 0x10000 + (High(code) - 0xD800) * 0x400 + (Low(code) - 0xDC00) == code
  {
  }

  /** One character in UTF-16, big endian, as upper-case hexadecimal digits. */
  function HexChar(c: char): (s: string)
    ensures |s| in {4, 8}
  {
    var code := c as int;
    if code < 0x10000 then Hex4(code)
    else Hex4(High(code)) + Hex4(Low(code))
  }

  function HexText(value: string): (s: string)
    decreases |value|
  {
    if value == "" then "" else HexChar(value[0]) + HexText(value[1..])
  }

  function Unit(s: string): nat
    requires |s| >= 4
  {
    HexValue(s[0]) * 4096 + HexValue(s[1]) * 256 + HexValue(s[2]) * 16 + HexValue(s[3])
  }

  /** A reader of UTF-16 digits: one unit, or two for a character beyond the first plane. */
  function ReadHex(s: string): string
    decreases |s|
  {
    if |s| < 4 then ""
    else
      var high := Unit(s);
      if 0xD800 <= high < 0xDC00 && |s| >= 8 && 0xDC00 <= Unit(s[4..]) < 0xE000 then
        [(0x10000 + (high - 0xD800) * 0x400 + (Unit(s[4..]) - 0xDC00)) as char] + ReadHex(s[8..])
      else if 0xD800 <= high < 0xE000 || high > 0xFFFF then ""
      else [high as char] + ReadHex(s[4..])
  }

  lemma UnitOfHex4(unit: nat, rest: string)
    requires unit < 0x10000
    ensures Unit(Hex4(unit) + rest) == unit
  {
    var s := Hex4(unit) + rest;
    var third := unit / 16;
    var second := third / 16;
    HexDigitReadsBack(second / 16);
    HexDigitReadsBack(second % 16);
    HexDigitReadsBack(third % 16);
    HexDigitReadsBack(unit % 16);
    hide HexDigit, HexValue;
    assert s[0] == Hex4(unit)[0] && s[1] == Hex4(unit)[1] && s[2] == Hex4(unit)[2] && s[3] == Hex4(unit)[3];
  }

  lemma HexDigitReadsBack(d: nat)
    requires d < 16
    ensures HexValue(HexDigit(d)) == d
  {
  }

  lemma ReadOneUnit(c: char, rest: string)
    requires c as int < 0x10000
    ensures ReadHex(Hex4(c as int) + rest) == [c] + ReadHex(rest)
  {
    var s := Hex4(c as int) + rest;
    UnitOfHex4(c as int, rest);
    assert s[4..] == rest;
    hide Hex4, Unit;
  }

  lemma ReadTwoUnits(c: char, rest: string)
    requires c as int >= 0x10000
    ensures ReadHex(HexChar(c) + rest) == [c] + ReadHex(rest)
  {
    var code := c as int;
    var high, low := High(code), Low(code);
    var s := Hex4(high) + (Hex4(low) + rest);
    UnitOfHex4(high, Hex4(low) + rest);
    UnitOfHex4(low, rest);
    PairReadsBack(code);
    assert s[4..] == Hex4(low) + rest;
    assert s[8..] == rest;
    assert HexChar(c) + rest == s;
    hide Hex4, Unit, HexChar, High, Low;
  }

  /** The digits of a text decode to the text, so no two lines are drawn alike. */
  lemma {:induction false} HexTextReadsBack(value: string)
    ensures ReadHex(HexText(value)) == value
    decreases |value|
  {
    if value != "" {
      var rest := HexText(value[1..]);
      HexTextReadsBack(value[1..]);
      if value[0] as int < 0x10000 {
        ReadOneUnit(value[0], rest);
      } else {
        ReadTwoUnits(value[0], rest);
      }
      hide ReadHex, Hex4;
    }
  }
}
