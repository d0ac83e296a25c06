/**
 * The fatal-error screen (error_handler.c): the decimal rendering of a line number and the
 * five text lines the handler builds in its 40-character `line_buf` before halting.
 */
module ErrorHandler {
  import opened CStrings

  /** Width of `line_buf`. */
  const LineBufSize: nat := 40

  /** Size of the buffer `_int_to_string_decimal` fills: five digits and a terminator. */
  const DecimalBufSize: nat := 6

  /** One more than the largest u16. */
  const U16Limit: nat := 0x1_0000

  function Pow10(k: nat): (p: nat)
    ensures 1 <= p
  {
    if k == 0 then 1 else 10 * Pow10(k - 1)
  }

  /** The character `d + '0'`. */
  function Digit(d: nat): (c: char)
    requires d < 10
    ensures '0' <= c <= '9'
  {
    ('0' as int + d) as char
  }

  /** The value of a digit character. */
  function DigitValue(c: char): (d: nat)
    requires '0' <= c <= '9'
    ensures d < 10
  {
    c as int - '0' as int
  }

  predicate IsDigits(s: string) {
    forall i :: 0 <= i < |s| ==> '0' <= s[i] <= '9'
  }

  /** The significant digits of `v`, most significant first; none for 0. */
  function Digits(v: nat): (s: string)
    ensures IsDigits(s) && (v == 0 <==> s == [])
  {
    if v == 0 then [] else Digits(v / 10) + [Digit(v % 10)]
  }

  /** The decimal form of `v`: "0" for zero, its significant digits otherwise. */
  function Decimal(v: nat): (s: string)
    ensures IsDigits(s)
  {
    if v == 0 then "0" else Digits(v)
  }

  /** Reading a string of digits back as a base-10 number. */
  function DecimalValue(s: string): nat
    requires IsDigits(s)
  {
    if s == [] then 0 else 10 * DecimalValue(s[..|s| - 1]) + DigitValue(s[|s| - 1])
  }

  function Reversed(s: string): (r: string)
    ensures |r| == |s|
    ensures forall i :: 0 <= i < |s| ==> r[i] == s[|s| - 1 - i]
  {
    if s == [] then [] else Reversed(s[1..]) + [s[0]]
  }

  lemma DigitRoundTrip(d: nat)
    requires d < 10
    ensures DigitValue(Digit(d)) == d
  {
  }

  /** Reading the digits back gives the value. */
  lemma {:induction false} DigitsRoundTrip(v: nat)
    ensures DecimalValue(Digits(v)) == v
    decreases v
  {
    if v != 0 {
      var s := Digits(v);
      assert s[..|s| - 1] == Digits(v / 10);
      DigitsRoundTrip(v / 10);
      DigitRoundTrip(v % 10);
    }
  }

  /** Reading the decimal form back gives the value. */
  lemma DecimalRoundTrip(v: nat)
    ensures DecimalValue(Decimal(v)) == v
  {
    DigitsRoundTrip(v);
  }

  /** `v` has at most `k` significant digits exactly when it is below 10^k. */
  lemma {:induction false} DigitsLength(v: nat, k: nat)
    ensures |Digits(v)| <= k <==> v < Pow10(k)
    decreases v
  {
    if v != 0 && k != 0 {
      DigitsLength(v / 10, k - 1);
    } else if v != 0 {
      assert |Digits(v)| >= 1;
    }
  }

  /** The decimal form of a u16 has one to five characters, and only zero starts with '0'. */
  lemma DecimalShape(v: nat)
    requires v < U16Limit
    ensures 1 <= |Decimal(v)| <= 5
    ensures Decimal(v)[0] == '0' <==> v == 0
  {
    DigitsLength(v, 5);
    if v != 0 {
      LeadingDigit(v);
    }
  }

  /** The first significant digit is never '0'. */
  lemma {:induction false} LeadingDigit(v: nat)
    requires v != 0
    ensures Digits(v)[0] != '0'
    decreases v
  {
    if v / 10 != 0 {
      LeadingDigit(v / 10);
    }
  }

  lemma ReversedSnoc(s: string, c: char)
    ensures Reversed(s + [c]) == [c] + Reversed(s)
  {
    var r, t := Reversed(s + [c]), [c] + Reversed(s);
    assert |r| == |t|;
    forall k | 0 <= k < |r|
      ensures r[k] == t[k]
    {
      if k > 0 {
        assert r[k] == (s + [c])[|s| - k];
      }
    }
  }

  /** The digits not yet produced, followed by the produced ones reversed, are the digits of the value. */
  lemma DigitsSplit(v: nat, d: nat, low: string)
    requires d != 0
    requires Digits(v) == Digits(d) + Reversed(low)
    ensures Digits(v) == Digits(d / 10) + Reversed(low + [Digit(d % 10)])
  {
    var c := Digit(d % 10);
    ReversedSnoc(low, c);
    assert (Digits(d / 10) + [c]) + Reversed(low) == Digits(d / 10) + ([c] + Reversed(low));
  }

  /**
   * `_int_to_string_decimal`: writes the decimal form of the u16 `value` and a terminator at
   * the start of `buffer`. The digits are produced least significant first into a 6-character
   * scratch buffer, then copied out in reverse.
   */
  method IntToStringDecimal(value: nat, buffer: array<char>)
    requires value < U16Limit && DecimalBufSize <= buffer.Length
    modifies buffer
    ensures |Decimal(value)| <= 5
    ensures var s := Decimal(value);
            buffer[..] == s + [NUL] + old(buffer[|s| + 1..])
  {
    if value == 0 {
      WriteZero(buffer);
      return;
    }
    var temp, i := LowDigitsFirst(value);
    CopyReversed(buffer, temp, i);
  }

  /** The zero case: the single digit '0' and a terminator. */
  method WriteZero(buffer: array<char>)
    requires 2 <= buffer.Length
    modifies buffer
    ensures buffer[..] == "0" + [NUL] + old(buffer[2..])
  {
    buffer[0] := '0';
    buffer[1] := NUL;
    assert buffer[..] == "0" + [NUL] + buffer[2..];
  }

  /** The division loop: the digits of `value` least significant first in a fresh 6-character buffer. */
  method LowDigitsFirst(value: nat) returns (temp: array<char>, i: nat)
    requires 0 < value < U16Limit
    ensures fresh(temp) && temp.Length == DecimalBufSize && i == |Decimal(value)| < DecimalBufSize
    ensures Reversed(temp[..i]) == Decimal(value)
  {
    DigitsLength(value, 5);
    temp := new char[DecimalBufSize];
    i := 0;
    var d := value;
    while d > 0
      invariant i + |Digits(d)| == |Digits(value)| <= 5
      invariant Digits(value) == Digits(d) + Reversed(temp[..i])
    {
      DigitsSplit(value, d, temp[..i]);
      temp[i] := Digit(d % 10);
      assert temp[..i + 1] == temp[..i] + [Digit(d % 10)];
      i := i + 1;
      d := d / 10;
    }
  }

  /** The reversing loop: `temp[..i]` backwards, then a terminator, at the start of `buffer`. */
  method CopyReversed(buffer: array<char>, temp: array<char>, i: nat)
    requires i <= temp.Length && i < buffer.Length && buffer != temp
    modifies buffer
    ensures buffer[..] == Reversed(temp[..i]) + [NUL] + old(buffer[i + 1..])
  {
    var j := 0;
    while j < i
      invariant j <= i
      invariant forall k :: 0 <= k < j ==> buffer[k] == temp[i - 1 - k]
      invariant buffer[j..] == old(buffer[j..])
    {
      buffer[j] := temp[i - 1 - j];
      j := j + 1;
    }
    buffer[j] := NUL;
  }

  /** A line of text drawn at tile column `x`, row `y`. */
  datatype TextAt = TextAt(x: nat, y: nat, text: string)

  /**
   * What the error screen shows: the title, then MODULE, FUNC and LINE on consecutive rows, a
   * blank row, and MSG with the message cut to the 34 characters left in `line_buf`.
   */
  function ErrorScreen(moduleName: string, functionName: string, lineNumber: nat, message: string): seq<TextAt> {
    [TextAt(2, 2, "FATAL ERROR!"),
     TextAt(2, 4, "MODULE: " + moduleName),
     TextAt(2, 5, "FUNC: " + functionName),
     TextAt(2, 6, "LINE: " + Decimal(lineNumber)),
     TextAt(2, 8, "MSG: " + Prefix(message, LineBufSize - |"MSG: "| - 1))]
  }

  /** Every line of the error screen fits the 40-character buffer with its terminator. */
  lemma ErrorScreenFits(moduleName: string, functionName: string, lineNumber: nat, message: string)
    requires |moduleName| <= 31 && |functionName| <= 33 && lineNumber < U16Limit
    ensures forall t :: t in ErrorScreen(moduleName, functionName, lineNumber, message) ==> |t.text| < LineBufSize
  {
    DecimalShape(lineNumber);
  }

  /** The message line keeps the whole message when it is at most 34 characters long, and its first 34 otherwise. */
  lemma MessageLine(moduleName: string, functionName: string, lineNumber: nat, message: string)
    ensures var msg := ErrorScreen(moduleName, functionName, lineNumber, message)[4].text;
            msg <= "MSG: " + message &&
            (|message| <= 34 ==> msg == "MSG: " + message) &&
            (|message| > 34 ==> |msg| == LineBufSize - 1)
  {
  }

  /**
   * error_handler_display_error, up to the halt: builds each line in `line_buf` with strcpy,
   * strcat and strncat and draws it. The strcat calls are unbounded, so the module and
   * function names must leave room for their prefixes.
   */
  method DisplayError(moduleName: string, functionName: string, lineNumber: nat, message: string)
    returns (screen: seq<TextAt>)
    requires NoNul(moduleName) && NoNul(functionName) && NoNul(message)
    requires |moduleName| <= 31 && |functionName| <= 33 && lineNumber < U16Limit
    ensures screen == ErrorScreen(moduleName, functionName, lineNumber, message)
  {
    var yPos := 2;
    var title := TextAt(2, yPos, "FATAL ERROR!");
    yPos := yPos + 2;
    var lineBuf := new char[LineBufSize];

    var moduleLine := PrefixedLine(lineBuf, "MODULE: ", moduleName);
    var moduleAt := TextAt(2, yPos, moduleLine);
    yPos := yPos + 1;

    var functionLine := PrefixedLine(lineBuf, "FUNC: ", functionName);
    var functionAt := TextAt(2, yPos, functionLine);
    yPos := yPos + 1;

    var numberLine := LineNumberLine(lineBuf, lineNumber);
    var numberAt := TextAt(2, yPos, numberLine);
    yPos := yPos + 2;

    var messageLine := MessageLineInto(lineBuf, message);
    var messageAt := TextAt(2, yPos, messageLine);
    screen := [title, moduleAt, functionAt, numberAt, messageAt];
  }

  /** `_int_to_string_decimal` into `line_num_str`, then "LINE: " and that string in `line_buf`. */
  method LineNumberLine(lineBuf: array<char>, lineNumber: nat) returns (text: string)
    requires lineNumber < U16Limit && lineBuf.Length == LineBufSize
    modifies lineBuf
    ensures text == "LINE: " + Decimal(lineNumber)
  {
    var lineNumStr := new char[DecimalBufSize];
    IntToStringDecimal(lineNumber, lineNumStr);
    ghost var digits := Decimal(lineNumber);
    assert lineNumStr[..|digits|] == digits && lineNumStr[|digits|] == NUL;
    CStrOfTerminated(lineNumStr[..], |digits|);
    text := PrefixedLine(lineBuf, "LINE: ", CStr(lineNumStr[..]));
  }

  /** strcpy of `prefix`, then strcat of `s`: the buffer holds and draws `prefix + s`. */
  method PrefixedLine(lineBuf: array<char>, prefix: string, s: string) returns (text: string)
    requires NoNul(prefix) && NoNul(s) && |prefix| + |s| < lineBuf.Length
    modifies lineBuf
    ensures text == prefix + s
  {
    StrCpy(lineBuf, prefix);
    StrCat(lineBuf, s);
    text := CStr(lineBuf[..]);
  }

  /** strcpy of "MSG: ", then strncat of as much of `message` as the 40-character buffer holds. */
  method MessageLineInto(lineBuf: array<char>, message: string) returns (text: string)
    requires NoNul(message) && lineBuf.Length == LineBufSize
    modifies lineBuf
    ensures text == "MSG: " + Prefix(message, LineBufSize - |"MSG: "| - 1)
  {
    StrCpy(lineBuf, "MSG: ");
    var used := StrLen(lineBuf);
    StrNCat(lineBuf, message, LineBufSize - used - 1);
    text := CStr(lineBuf[..]);
  }
}
