/**
 * String helpers shared by the Python scripts and the TypeScript front end:
 * decimal rendering of integers, JavaScript `parseInt`, whitespace trimming
 * (JavaScript `trim` and Python `strip` use different whitespace sets),
 * splitting on one character, ASCII case mapping and the UTF-16 encoding
 * that determines a JavaScript string's `length`.
 */
module Strings {
  import opened Wrappers

  predicate IsDigit(c: char) { '0' <= c <= '9' }

  predicate AllDigits(s: string) { forall i :: 0 <= i < |s| ==> IsDigit(s[i]) }

  function DigitChar(d: nat): (c: char)
    requires d < 10
    ensures IsDigit(c) && c as int - '0' as int == d
  {
    (48 + d) as char
  }

  /** Decimal rendering of a natural number, as `String(n)` and `str(n)` produce it. */
  function NatToString(n: nat): (s: string)
    ensures |s| > 0 && AllDigits(s)
    ensures s[0] == '0' <==> n == 0
    ensures n == 0 ==> s == "0"
  {
    if n < 10 then [DigitChar(n)] else NatToString(n / 10) + [DigitChar(n % 10)]
  }

  /** Decimal rendering of an integer, with a leading minus sign when negative. */
  function IntToString(i: int): (s: string)
    ensures |s| > 0
    ensures s[0] == '-' <==> i < 0
    ensures i >= 0 ==> AllDigits(s)
  {
    if i < 0 then "-" + NatToString(-i) else NatToString(i)
  }

  /** Value of a digit character in radices up to 36, or -1 for any other character. */
  function DigitValue(c: char): (d: int)
    ensures -1 <= d < 36
    ensures IsDigit(c) ==> d == c as int - '0' as int
  {
    if '0' <= c <= '9' then c as int - '0' as int
    else if 'a' <= c <= 'z' then c as int - 'a' as int + 10
    else if 'A' <= c <= 'Z' then c as int - 'A' as int + 10
    else -1
  }

  predicate IsRadixDigit(c: char, radix: nat) { 0 <= DigitValue(c) < radix }

  predicate AllRadixDigits(s: string, radix: nat) { forall i :: 0 <= i < |s| ==> IsRadixDigit(s[i], radix) }

  /** The number a string of radix digits denotes, most significant digit first. */
  function DigitsValue(s: string, radix: nat): nat
    requires AllRadixDigits(s, radix)
  {
    if |s| == 0 then 0 else DigitsValue(s[..|s| - 1], radix) * radix + DigitValue(s[|s| - 1])
  }

  /** The longest prefix of `s` made of radix digits. */
  function RadixDigitPrefix(s: string, radix: nat): (p: string)
    ensures p <= s
    ensures AllRadixDigits(p, radix)
    ensures |p| < |s| ==> !IsRadixDigit(s[|p|], radix)
  {
    if |s| == 0 || !IsRadixDigit(s[0], radix) then "" else [s[0]] + RadixDigitPrefix(s[1..], radix)
  }

  /**
   * JavaScript whitespace and line terminators, as `String.prototype.trim`
   * and `parseInt` skip them: tab, vertical tab, form feed, space, no-break
   * space, byte order mark, the Space_Separator category, and LF, CR, LS, PS.
   */
  predicate IsJsWhitespace(c: char) {
    c == '\t' || c == '\n' || c == '\U{B}' || c == '\U{C}' || c == '\r' || c == ' '
    || c == '\U{A0}' || c == '\U{1680}' || ('\U{2000}' <= c <= '\U{200A}')
    || c == '\U{2028}' || c == '\U{2029}' || c == '\U{202F}' || c == '\U{205F}'
    || c == '\U{3000}' || c == '\U{FEFF}'
  }

  /** The characters Python's `str.strip()` removes when given no argument. */
  predicate IsPyWhitespace(c: char) {
    c == '\t' || c == '\n' || c == '\U{B}' || c == '\U{C}' || c == '\r'
    || ('\U{1C}' <= c <= '\U{1F}') || c == ' ' || c == '\U{85}' || c == '\U{A0}'
    || c == '\U{1680}' || ('\U{2000}' <= c <= '\U{200A}')
    || c == '\U{2028}' || c == '\U{2029}' || c == '\U{202F}' || c == '\U{205F}' || c == '\U{3000}'
  }

  /** `s` without its leading characters that satisfy `ws`. */
  function TrimStart(s: string, ws: char -> bool): (r: string)
    ensures |r| <= |s| && r == s[|s| - |r|..]
    ensures forall i :: 0 <= i < |s| - |r| ==> ws(s[i])
    ensures |r| > 0 ==> !ws(r[0])
  {
    if |s| > 0 && ws(s[0]) then TrimStart(s[1..], ws) else s
  }

  /** `s` without its trailing characters that satisfy `ws`. */
  function TrimEnd(s: string, ws: char -> bool): (r: string)
    ensures |r| <= |s| && r == s[..|r|]
    ensures forall i :: |r| <= i < |s| ==> ws(s[i])
    ensures |r| > 0 ==> !ws(r[|r| - 1])
  {
    if |s| > 0 && ws(s[|s| - 1]) then TrimEnd(s[..|s| - 1], ws) else s
  }

  function Trim(s: string, ws: char -> bool): string {
    TrimEnd(TrimStart(s, ws), ws)
  }

  /** JavaScript `String.prototype.trim`. */
  function JsTrim(s: string): string { Trim(s, IsJsWhitespace) }

  /** Python `str.strip()` with no argument. */
  function PyStrip(s: string): string { Trim(s, IsPyWhitespace) }

  lemma {:induction false} TrimStartOfTrimmed(s: string, ws: char -> bool)
    requires |s| == 0 || !ws(s[0])
    ensures TrimStart(s, ws) == s
  {
  }

  lemma {:induction false} TrimEndKeepsStart(s: string, ws: char -> bool)
    requires |s| == 0 || !ws(s[0])
    ensures var r := TrimEnd(s, ws); |r| == 0 || !ws(r[0])
  {
  }

  /** Trimming a trimmed string changes nothing. */
  lemma TrimIdempotent(s: string, ws: char -> bool)
    ensures Trim(Trim(s, ws), ws) == Trim(s, ws)
  {
    var t := Trim(s, ws);
    TrimEndKeepsStart(TrimStart(s, ws), ws);
    TrimStartOfTrimmed(t, ws);
  }

  /** A trimmed string neither starts nor ends with whitespace. */
  lemma TrimEnds(s: string, ws: char -> bool)
    ensures var t := Trim(s, ws); |t| > 0 ==> !ws(t[0]) && !ws(t[|t| - 1])
  {
    TrimEndKeepsStart(TrimStart(s, ws), ws);
  }

  /** A string that neither starts nor ends with whitespace is its own trim. */
  lemma TrimUnchanged(s: string, ws: char -> bool)
    requires |s| == 0 || (!ws(s[0]) && !ws(s[|s| - 1]))
    ensures Trim(s, ws) == s
  {
    TrimStartOfTrimmed(s, ws);
  }

  predicate StartsWith(s: string, prefix: string) {
    |prefix| <= |s| && s[..|prefix|] == prefix
  }

  /** `s.split(sep)` for a one-character separator, in both JavaScript and Python. */
  function Split(s: string, sep: char): (parts: seq<string>)
    ensures |parts| >= 1
    ensures forall i :: 0 <= i < |parts| ==> sep !in parts[i]
  {
    if |s| == 0 then [""]
    else if s[0] == sep then [""] + Split(s[1..], sep)
    else
      var rest := Split(s[1..], sep);
      [[s[0]] + rest[0]] + rest[1..]
  }

  /** `sep.join(parts)`: the parts with one separator between neighbours. */
  function Join(parts: seq<string>, sep: string): string {
    if |parts| == 0 then ""
    else if |parts| == 1 then parts[0]
    else parts[0] + sep + Join(parts[1..], sep)
  }

  /** Splitting and joining again with the same separator gives back the string. */
  lemma {:induction false} JoinSplit(s: string, sep: char)
    ensures Join(Split(s, sep), [sep]) == s
  {
    if |s| == 0 {
    } else if s[0] == sep {
      JoinSplit(s[1..], sep);
      assert s == [sep] + s[1..];
    } else {
      JoinSplit(s[1..], sep);
      var rest := Split(s[1..], sep);
      if |rest| == 1 {
        assert Split(s, sep) == [[s[0]] + rest[0]];
        assert s == [s[0]] + s[1..];
      } else {
        var parts := Split(s, sep);
        assert parts[1..] == rest[1..];
        assert Join(parts, [sep]) == [s[0]] + rest[0] + [sep] + Join(rest[1..], [sep]);
        assert Join(rest, [sep]) == rest[0] + [sep] + Join(rest[1..], [sep]);
        assert s == [s[0]] + s[1..];
      }
    }
  }

  /** A string without the separator splits into itself alone. */
  lemma {:induction false} SplitWithoutSep(s: string, sep: char)
    requires sep !in s
    ensures Split(s, sep) == [s]
  {
    if |s| > 0 {
      SplitWithoutSep(s[1..], sep);
      assert s == [s[0]] + s[1..];
    }
  }

  /** A separator-free head followed by the separator splits off as one part. */
  lemma {:induction false} SplitAfterHead(a: string, b: string, sep: char)
    requires sep !in a
    ensures Split(a + [sep] + b, sep) == [a] + Split(b, sep)
  {
    var s := a + [sep] + b;
    if |a| == 0 {
      assert s == [sep] + b;
      assert s[1..] == b;
    } else {
      assert s[1..] == a[1..] + [sep] + b;
      SplitAfterHead(a[1..], b, sep);
      assert a == [a[0]] + a[1..];
    }
  }

  /** Joining parts that do not hold the separator and splitting again gives the parts back. */
  lemma {:induction false} SplitJoin(parts: seq<string>, sep: char)
    requires |parts| >= 1
    requires forall i :: 0 <= i < |parts| ==> sep !in parts[i]
    ensures Split(Join(parts, [sep]), sep) == parts
  {
    if |parts| == 1 {
      SplitWithoutSep(parts[0], sep);
    } else {
      SplitJoin(parts[1..], sep);
      SplitAfterHead(parts[0], Join(parts[1..], [sep]), sep);
      assert parts == [parts[0]] + parts[1..];
    }
  }

  /** How often `c` occurs in `s`. */
  function Count(s: string, c: char): nat {
    if |s| == 0 then 0 else (if s[0] == c then 1 else 0) + Count(s[1..], c)
  }

  /** Splitting yields one part more than there are separators. */
  lemma {:induction false} SplitCount(s: string, sep: char)
    ensures |Split(s, sep)| == Count(s, sep) + 1
  {
    if |s| > 0 {
      SplitCount(s[1..], sep);
    }
  }

  /**
   * The last part of a split is the string's tail after its last separator,
   * or the whole string when there is no separator.
   */
  lemma {:induction false} SplitLast(s: string, sep: char)
    ensures var parts := Split(s, sep); var l := parts[|parts| - 1];
      |l| <= |s| && l == s[|s| - |l|..]
      && (sep in s ==> |l| < |s| && s[|s| - |l| - 1] == sep)
      && (sep !in s ==> l == s)
  {
    if |s| > 0 {
      SplitLast(s[1..], sep);
      var rest := Split(s[1..], sep);
      var l := rest[|rest| - 1];
      if s[0] != sep && |rest| == 1 {
        assert sep !in s[1..] by {
          if sep in s[1..] {
            SplitCount(s[1..], sep);
            CountPositive(s[1..], sep);
          }
        }
        assert s == [s[0]] + s[1..];
      } else if s[0] != sep {
        if sep !in s[1..] {
          SplitCount(s[1..], sep);
          CountZero(s[1..], sep);
        }
      } else {
        if sep !in s[1..] {
          assert s[|s| - |l| - 1] == s[0];
        }
      }
    }
  }

  lemma {:induction false} CountPositive(s: string, c: char)
    requires c in s
    ensures Count(s, c) > 0
  {
    if s[0] != c {
      assert c in s[1..] by {
        var i :| 0 <= i < |s| && s[i] == c;
        assert s[1..][i - 1] == c;
      }
      CountPositive(s[1..], c);
    }
  }

  lemma {:induction false} CountZero(s: string, c: char)
    requires c !in s
    ensures Count(s, c) == 0
  {
    if |s| > 0 {
      assert s == [s[0]] + s[1..];
      CountZero(s[1..], c);
    }
  }

  function AsciiLowerChar(c: char): (d: char)
    ensures !('A' <= d <= 'Z')
  {
    if 'A' <= c <= 'Z' then (c as int + 32) as char else c
  }

  function AsciiUpperChar(c: char): (d: char)
    ensures !('a' <= d <= 'z')
  {
    if 'a' <= c <= 'z' then (c as int - 32) as char else c
  }

  /** Lower-casing, restricted to the ASCII letters. */
  function AsciiLower(s: string): (r: string)
    ensures |r| == |s|
    ensures forall i :: 0 <= i < |s| ==> r[i] == AsciiLowerChar(s[i])
  {
    seq(|s|, i requires 0 <= i < |s| => AsciiLowerChar(s[i]))
  }

  /** Upper-casing, restricted to the ASCII letters. */
  function AsciiUpper(s: string): (r: string)
    ensures |r| == |s|
    ensures forall i :: 0 <= i < |s| ==> r[i] == AsciiUpperChar(s[i])
  {
    seq(|s|, i requires 0 <= i < |s| => AsciiUpperChar(s[i]))
  }

  lemma AsciiLowerIdempotent(s: string)
    ensures AsciiLower(AsciiLower(s)) == AsciiLower(s)
  {
  }

  /** The UTF-16 code units of one character: one unit, or a surrogate pair above U+FFFF. */
  function CodeUnits(c: char): (u: seq<int>)
    ensures 1 <= |u| <= 2
    ensures |u| == 1 <==> c as int < 0x10000
    ensures forall i :: 0 <= i < |u| ==> 0 <= u[i] < 0x10000
  {
    var v := c as int;
    if v < 0x10000 then [v] else [0xD800 + (v - 0x10000) / 0x400, 0xDC00 + (v - 0x10000) % 0x400]
  }

  /** The UTF-16 code units of a string, which are what JavaScript strings are made of. */
  function Utf16(s: string): (u: seq<int>)
    ensures |s| <= |u| <= 2 * |s|
    ensures forall i :: 0 <= i < |u| ==> 0 <= u[i] < 0x10000
  {
    if |s| == 0 then [] else CodeUnits(s[0]) + Utf16(s[1..])
  }

  lemma {:induction false} Utf16Append(a: string, b: string)
    ensures Utf16(a + b) == Utf16(a) + Utf16(b)
  {
    if |a| == 0 {
      assert a + b == b;
    } else {
      assert (a + b)[0] == a[0];
      assert (a + b)[1..] == a[1..] + b;
      Utf16Append(a[1..], b);
    }
  }

  /** A JavaScript string's `length`. */
  function JsLength(s: string): nat { |Utf16(s)| }

  lemma {:induction false} JsLengthBmp(s: string)
    requires forall i :: 0 <= i < |s| ==> s[i] as int < 0x10000
    ensures JsLength(s) == |s|
  {
    if |s| > 0 {
      JsLengthBmp(s[1..]);
    }
  }

  /**
   * JavaScript `parseInt(s, 10)` (when `explicitDecimal`) or `parseInt(s)`
   * restricted to its integer results: leading whitespace is skipped, one
   * sign is taken, `parseInt(s)` also accepts a `0x`/`0X` prefix and reads
   * hexadecimal, and the longest run of digits that follows is the value.
   * None stands for NaN, when no digit follows.
   */
  function JsParseInt(s: string, explicitDecimal: bool): Option<int> {
    var t := TrimStart(s, IsJsWhitespace);
    var negative := |t| > 0 && t[0] == '-';
    var u := if |t| > 0 && (t[0] == '-' || t[0] == '+') then t[1..] else t;
    var hex := !explicitDecimal && |u| >= 2 && u[0] == '0' && (u[1] == 'x' || u[1] == 'X');
    var radix := if hex then 16 else 10;
    var w := if hex then u[2..] else u;
    var digits := RadixDigitPrefix(w, radix);
    if |digits| == 0 then None
    else
      var value: int := DigitsValue(digits, radix);
      Some(if negative then -value else value)
  }

  lemma {:induction false} DigitsValueOfNatToString(n: nat)
    ensures AllRadixDigits(NatToString(n), 10)
    ensures DigitsValue(NatToString(n), 10) == n
  {
    var s := NatToString(n);
    assert AllRadixDigits(s, 10) by {
      forall i | 0 <= i < |s| ensures IsRadixDigit(s[i], 10) {
        assert IsDigit(s[i]);
      }
    }
    if n >= 10 {
      DigitsValueOfNatToString(n / 10);
      assert s[..|s| - 1] == NatToString(n / 10);
    }
  }

  lemma {:induction false} RadixDigitPrefixOfDigits(s: string, radix: nat)
    requires AllRadixDigits(s, radix)
    ensures RadixDigitPrefix(s, radix) == s
  {
    if |s| > 0 {
      RadixDigitPrefixOfDigits(s[1..], radix);
      assert s == [s[0]] + s[1..];
    }
  }

  /** Two different numbers never render the same way. */
  lemma NatToStringInjective(a: nat, b: nat)
    requires NatToString(a) == NatToString(b)
    ensures a == b
  {
    DigitsValueOfNatToString(a);
    DigitsValueOfNatToString(b);
  }

  /** `parseInt` reads back what `String` wrote, with or without the explicit radix. */
  lemma ParseIntOfIntToString(i: int, explicitDecimal: bool)
    ensures JsParseInt(IntToString(i), explicitDecimal) == Some(i)
  {
    var s := IntToString(i);
    var n: nat := if i < 0 then -i else i;
    var d := NatToString(n);
    assert !IsJsWhitespace(s[0]);
    TrimStartOfTrimmed(s, IsJsWhitespace);
    var u := if i < 0 then s[1..] else s;
    assert u == d;
    DigitsValueOfNatToString(n);
    RadixDigitPrefixOfDigits(d, 10);
    if !explicitDecimal && |u| >= 2 {
      assert IsDigit(u[1]);
    }
  }
}
