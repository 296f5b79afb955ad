/** Value semantics of the PHP built-ins that the shipping engine relies on:
    `empty()` on strings, ASCII case mapping, `trim`, digit stripping,
    `str_replace` of one character, `strpos(...) !== false`, `implode`,
    integer formatting, `round`, the `(int)` cast and the `(float)` and
    `is_numeric` readings of a string. Numbers are exact reals. */
module Php {

  datatype Option<+T> = None | Some(value: T) {
    function GetOr(default: T): T {
      match this
      case Some(v) => v
      case None => default
    }
  }

  // ---------------------------------------------------------------- strings

  /** `empty($s)` for a string: both "" and "0" are falsy in PHP. */
  predicate EmptyString(s: string) {
    s == "" || s == "0"
  }

  predicate IsDigit(c: char) {
    '0' <= c <= '9'
  }

  predicate AllDigits(s: string) {
    forall i :: 0 <= i < |s| ==> IsDigit(s[i])
  }

  /** `preg_replace('/[^0-9]/', '', s)`: keeps the decimal digits, in order. */
  function DigitsOnly(s: string): (r: string)
    ensures AllDigits(r)
    ensures |r| <= |s|
  {
    if s == [] then []
    else if IsDigit(s[0]) then [s[0]] + DigitsOnly(s[1..])
    else DigitsOnly(s[1..])
  }

  /** `a` can be obtained from `b` by deleting characters. */
  predicate IsSubsequence(a: string, b: string)
    decreases |b|
  {
    if a == [] then true
    else if b == [] then false
    else if a[0] == b[0] then IsSubsequence(a[1..], b[1..])
    else IsSubsequence(a, b[1..])
  }

  lemma {:induction false} DigitsOnlyIsSubsequence(s: string)
    ensures IsSubsequence(DigitsOnly(s), s)
  {
    if s != [] {
      DigitsOnlyIsSubsequence(s[1..]);
      if !IsDigit(s[0]) {
        SubsequenceOfTail(DigitsOnly(s[1..]), s);
      }
    }
  }

  lemma {:induction false} SubsequenceOfTail(a: string, b: string)
    requires b != [] && IsSubsequence(a, b[1..])
    ensures IsSubsequence(a, b)
    decreases |b|, 0
  {
    if a != [] && a[0] == b[0] {
      // a[1..] is a subsequence of b[1..] because a is
      SubsequenceDropHead(a, b[1..]);
    }
  }

  lemma {:induction false} SubsequenceDropHead(a: string, b: string)
    requires a != [] && IsSubsequence(a, b)
    ensures IsSubsequence(a[1..], b)
    decreases |b|, 1
  {
    if a[0] == b[0] {
      if a[1..] != [] {
        SubsequenceOfTail(a[1..], b);
      }
    } else {
      SubsequenceDropHead(a, b[1..]);
      if a[1..] != [] {
        SubsequenceOfTail(a[1..], b);
      }
    }
  }

  /** Stripping non-digits twice is the same as stripping once. */
  lemma {:induction false} DigitsOnlyIdempotent(s: string)
    ensures DigitsOnly(DigitsOnly(s)) == DigitsOnly(s)
  {
    if s != [] {
      DigitsOnlyIdempotent(s[1..]);
      if IsDigit(s[0]) {
        assert DigitsOnly(s) == [s[0]] + DigitsOnly(s[1..]);
        assert ([s[0]] + DigitsOnly(s[1..]))[1..] == DigitsOnly(s[1..]);
      }
    }
  }

  /** Removing the hyphen of two digit groups joined by one gives the two groups. */
  lemma {:induction false} DigitsOnlyHyphen(a: string, b: string)
    requires AllDigits(a) && AllDigits(b)
    ensures DigitsOnly(a + "-" + b) == a + b
    decreases |a|
  {
    var s := a + "-" + b;
    if a == [] {
      assert s[1..] == b;
      DigitsOnlyKeepsDigits(b);
    } else {
      assert s[0] == a[0];
      assert s[1..] == a[1..] + "-" + b;
      DigitsOnlyHyphen(a[1..], b);
      assert a == [a[0]] + a[1..];
    }
  }

  /** A string made of digits only is left as it is. */
  lemma {:induction false} DigitsOnlyKeepsDigits(s: string)
    requires AllDigits(s)
    ensures DigitsOnly(s) == s
  {
    if s != [] {
      DigitsOnlyKeepsDigits(s[1..]);
    }
  }

  function LowerChar(c: char): char {
    if 'A' <= c <= 'Z' then (c as int + 32) as char else c
  }

  function UpperChar(c: char): char {
    if 'a' <= c <= 'z' then (c as int - 32) as char else c
  }

  /** `strtolower` (ASCII only, as in PHP 8). */
  function Lower(s: string): string {
    seq(|s|, i requires 0 <= i < |s| => LowerChar(s[i]))
  }

  /** `strtoupper` (ASCII only, as in PHP 8). */
  function Upper(s: string): string {
    seq(|s|, i requires 0 <= i < |s| => UpperChar(s[i]))
  }

  /** `ucfirst`: the first character upper-cased, the rest untouched. */
  function UcFirst(s: string): (r: string)
    ensures |r| == |s|
    ensures s != [] ==> r[0] == UpperChar(s[0]) && r[1..] == s[1..]
  {
    if s == [] then s else [UpperChar(s[0])] + s[1..]
  }

  lemma LowerIdempotent(s: string)
    ensures Lower(Lower(s)) == Lower(s)
  {
  }

  /** The characters PHP's `trim` removes: " \t\n\r\0\x0B". */
  predicate IsTrimChar(c: char) {
    c == ' ' || c == '\t' || c == '\n' || c == '\r' || c as int == 0 || c as int == 11
  }

  function TrimLeft(s: string): (r: string)
    ensures r == [] || !IsTrimChar(r[0])
    ensures |r| <= |s| && r == s[|s| - |r|..]
  {
    if s != [] && IsTrimChar(s[0]) then TrimLeft(s[1..]) else s
  }

  function TrimRight(s: string): (r: string)
    ensures r == [] || !IsTrimChar(r[|r| - 1])
    ensures |r| <= |s| && r == s[..|r|]
  {
    if s != [] && IsTrimChar(s[|s| - 1]) then TrimRight(s[..|s| - 1]) else s
  }

  /** `trim` with its default character list. */
  function Trim(s: string): string {
    TrimRight(TrimLeft(s))
  }

  /** Every character is one `trim` removes. */
  predicate AllTrimChars(s: string) {
    forall i :: 0 <= i < |s| ==> IsTrimChar(s[i])
  }

  lemma {:induction false} TrimLeftBlanks(pad: string, s: string)
    requires AllTrimChars(pad)
    ensures TrimLeft(pad + s) == TrimLeft(s)
  {
    if pad == [] {
      assert pad + s == s;
    } else {
      assert (pad + s)[0] == pad[0];
      assert (pad + s)[1..] == pad[1..] + s;
      TrimLeftBlanks(pad[1..], s);
    }
  }

  lemma {:induction false} TrimRightBlanks(s: string, pad: string)
    requires AllTrimChars(pad)
    ensures TrimRight(s + pad) == TrimRight(s)
  {
    if pad == [] {
      assert s + pad == s;
    } else {
      assert (s + pad)[|s + pad| - 1] == pad[|pad| - 1];
      assert (s + pad)[..|s + pad| - 1] == s + pad[..|pad| - 1];
      TrimRightBlanks(s, pad[..|pad| - 1]);
    }
  }

  /** Left-trimming a concatenation reaches into the second part only when the
      first part is all padding. */
  lemma {:induction false} TrimLeftAppend(a: string, b: string)
    ensures TrimLeft(a + b) == if TrimLeft(a) == [] then TrimLeft(b) else TrimLeft(a) + b
  {
    if a == [] {
      assert a + b == b;
    } else if IsTrimChar(a[0]) {
      assert (a + b)[0] == a[0];
      assert (a + b)[1..] == a[1..] + b;
      TrimLeftAppend(a[1..], b);
    } else {
      assert (a + b)[0] == a[0];
    }
  }

  /** `trim` ignores any padding added at either end. */
  lemma TrimIgnoresPadding(pre: string, s: string, post: string)
    requires AllTrimChars(pre) && AllTrimChars(post)
    ensures Trim(pre + s + post) == Trim(s)
  {
    assert pre + s + post == pre + (s + post);
    TrimLeftBlanks(pre, s + post);
    TrimLeftAppend(s, post);
    if TrimLeft(s) == [] {
      TrimLeftBlanks(post, []);
      assert post + [] == post;
    } else {
      TrimRightBlanks(TrimLeft(s), post);
    }
  }

  lemma {:induction false} LowerTrimLeft(s: string)
    ensures Lower(TrimLeft(s)) == TrimLeft(Lower(s))
  {
    if s != [] {
      assert Lower(s)[0] == LowerChar(s[0]);
      if IsTrimChar(s[0]) {
        assert Lower(s)[1..] == Lower(s[1..]);
        LowerTrimLeft(s[1..]);
      }
    }
  }

  lemma {:induction false} LowerTrimRight(s: string)
    ensures Lower(TrimRight(s)) == TrimRight(Lower(s))
  {
    if s != [] {
      assert Lower(s)[|s| - 1] == LowerChar(s[|s| - 1]);
      if IsTrimChar(s[|s| - 1]) {
        assert Lower(s)[..|s| - 1] == Lower(s[..|s| - 1]);
        LowerTrimRight(s[..|s| - 1]);
      }
    }
  }

  /** `strtolower` and `trim` commute: lower-casing neither creates nor removes padding. */
  lemma LowerTrim(s: string)
    ensures Lower(Trim(s)) == Trim(Lower(s))
  {
    LowerTrimLeft(s);
    LowerTrimRight(TrimLeft(s));
  }

  lemma {:induction false} UpperTrimLeft(s: string)
    ensures Upper(TrimLeft(s)) == TrimLeft(Upper(s))
  {
    if s != [] {
      assert Upper(s)[0] == UpperChar(s[0]);
      if IsTrimChar(s[0]) {
        assert Upper(s)[1..] == Upper(s[1..]);
        UpperTrimLeft(s[1..]);
      }
    }
  }

  lemma {:induction false} UpperTrimRight(s: string)
    ensures Upper(TrimRight(s)) == TrimRight(Upper(s))
  {
    if s != [] {
      assert Upper(s)[|s| - 1] == UpperChar(s[|s| - 1]);
      if IsTrimChar(s[|s| - 1]) {
        assert Upper(s)[..|s| - 1] == Upper(s[..|s| - 1]);
        UpperTrimRight(s[..|s| - 1]);
      }
    }
  }

  /** `strtoupper` and `trim` commute, as `strtolower` and `trim` do. */
  lemma UpperTrim(s: string)
    ensures Upper(Trim(s)) == Trim(Upper(s))
  {
    UpperTrimLeft(s);
    UpperTrimRight(TrimLeft(s));
  }

  lemma {:induction false} TrimRightKeepsHead(s: string)
    requires s != [] && !IsTrimChar(s[0])
    ensures TrimRight(s) != [] && TrimRight(s)[0] == s[0]
  {
    if IsTrimChar(s[|s| - 1]) {
      TrimRightKeepsHead(s[..|s| - 1]);
    }
  }

  /** A trimmed string neither starts nor ends with a trimmable character. */
  lemma TrimmedHasNoPadding(s: string)
    ensures Trim(s) == [] || (!IsTrimChar(Trim(s)[0]) && !IsTrimChar(Trim(s)[|Trim(s)| - 1]))
  {
    var l := TrimLeft(s);
    if l != [] {
      TrimRightKeepsHead(l);
    }
  }

  /** A string with no padding at either end is its own trim. */
  lemma TrimUnpadded(s: string)
    requires s == [] || (!IsTrimChar(s[0]) && !IsTrimChar(s[|s| - 1]))
    ensures Trim(s) == s
  {
  }

  /** `str_replace(from, to, s)` for single characters. */
  function ReplaceChar(s: string, from: char, to: char): (r: string)
    ensures |r| == |s|
    ensures from != to ==> forall i :: 0 <= i < |r| ==> r[i] != from
  {
    seq(|s|, i requires 0 <= i < |s| => if s[i] == from then to else s[i])
  }

  /** `str_replace(c, '', s)`: every occurrence of `c` deleted. */
  function RemoveChar(s: string, c: char): (r: string)
    ensures c !in r
    ensures |r| <= |s|
  {
    if s == [] then []
    else if s[0] == c then RemoveChar(s[1..], c)
    else [s[0]] + RemoveChar(s[1..], c)
  }

  lemma {:induction false} RemoveCharAbsent(s: string, c: char)
    requires c !in s
    ensures RemoveChar(s, c) == s
    decreases |s|
  {
    if s != [] {
      assert s == [s[0]] + s[1..];
      RemoveCharAbsent(s[1..], c);
    }
  }

  predicate StartsWith(s: string, prefix: string) {
    |prefix| <= |s| && s[..|prefix|] == prefix
  }

  /** `strpos(s, needle) !== false` */
  predicate Contains(s: string, needle: string)
    decreases |s|
  {
    StartsWith(s, needle) || (s != [] && Contains(s[1..], needle))
  }

  /** `implode(sep, parts)` */
  function Join(parts: seq<string>, sep: string): string
    decreases |parts|
  {
    if parts == [] then ""
    else if |parts| == 1 then parts[0]
    else parts[0] + sep + Join(parts[1..], sep)
  }

  /** `array_filter(parts)` without a callback: drops the falsy strings "" and "0". */
  function KeepTruthy(parts: seq<string>): (r: seq<string>)
    ensures forall i :: 0 <= i < |r| ==> !EmptyString(r[i])
    ensures |r| <= |parts|
  {
    if parts == [] then []
    else if EmptyString(parts[0]) then KeepTruthy(parts[1..])
    else [parts[0]] + KeepTruthy(parts[1..])
  }

  /** Joining a non-empty list whose first part is non-empty gives a non-empty string. */
  lemma JoinNonEmpty(parts: seq<string>, sep: string)
    requires parts != [] && parts[0] != ""
    ensures Join(parts, sep) != ""
  {
  }

  /** The kept parts are empty exactly when every part was falsy. */
  lemma {:induction false} KeepTruthyEmpty(parts: seq<string>)
    ensures KeepTruthy(parts) == [] <==> forall i :: 0 <= i < |parts| ==> EmptyString(parts[i])
  {
    if parts != [] {
      KeepTruthyEmpty(parts[1..]);
      if EmptyString(parts[0]) {
        assert forall i :: 1 <= i < |parts| ==> parts[i] == parts[1..][i - 1];
      }
    }
  }

  // ------------------------------------------------------------ integers

  function DigitChar(d: nat): (c: char)
    requires d < 10
    ensures IsDigit(c)
  {
    ('0' as int + d) as char
  }

  function DigitValue(c: char): (d: nat)
    requires IsDigit(c)
    ensures d < 10
  {
    c as int - '0' as int
  }

  /** The decimal representation of a natural number, as `%d` / `(string)` print it. */
  function NatToString(n: nat): (r: string)
    ensures r != [] && AllDigits(r)
    decreases n
  {
    if n < 10 then [DigitChar(n)] else NatToString(n / 10) + [DigitChar(n % 10)]
  }

  function IntToString(i: int): string {
    if i < 0 then "-" + NatToString(-i) else NatToString(i)
  }

  /** The value of a string of decimal digits (the empty string reads as 0). */
  function DigitsValue(s: string): nat
    requires AllDigits(s)
    decreases |s|
  {
    if s == [] then 0 else DigitsValue(s[..|s| - 1]) * 10 + DigitValue(s[|s| - 1])
  }

  /** Reading back a printed number gives the number: printing loses nothing. */
  lemma {:induction false} NatToStringRoundTrip(n: nat)
    ensures DigitsValue(NatToString(n)) == n
    decreases n
  {
    if n >= 10 {
      NatToStringRoundTrip(n / 10);
      var s := NatToString(n);
      assert s[..|s| - 1] == NatToString(n / 10);
    }
  }

  /** Printing is injective: different numbers print differently. */
  lemma NatToStringInjective(m: nat, n: nat)
    requires NatToString(m) == NatToString(n)
    ensures m == n
  {
    NatToStringRoundTrip(m);
    NatToStringRoundTrip(n);
  }

  function Pow10(k: nat): (r: nat)
    ensures r >= 1
  {
    if k == 0 then 1 else 10 * Pow10(k - 1)
  }

  // --------------------------------------------------------------- reals

  function Min(a: real, b: real): real {
    if a <= b then a else b
  }

  function Max(a: real, b: real): real {
    if a >= b then a else b
  }

  /** Rounding to the nearest integer with halves away from zero, as PHP's `round`. */
  function RoundHalfAway(x: real): (n: int)
    ensures x - 0.5 <= n as real <= x + 0.5
  {
    if x >= 0.0 then (x + 0.5).Floor else -((-x + 0.5).Floor)
  }

  /** Whole numbers are left alone. */
  lemma RoundHalfAwayOfInt(n: int)
    ensures RoundHalfAway(n as real) == n
  {
  }

  lemma RoundHalfAwayMonotone(x: real, y: real)
    requires x <= y
    ensures RoundHalfAway(x) <= RoundHalfAway(y)
  {
    if x >= 0.0 {
      FloorMonotone(x + 0.5, y + 0.5);
    } else if y >= 0.0 {
    } else {
      FloorMonotone(-y + 0.5, -x + 0.5);
    }
  }

  lemma FloorMonotone(x: real, y: real)
    requires x <= y
    ensures x.Floor <= y.Floor
  {
  }

  /** `round(x, 2)`: to whole cents, halves away from zero. */
  function Round2(x: real): real {
    RoundHalfAway(x * 100.0) as real / 100.0
  }

  /** `round(x, 1)` */
  function Round1(x: real): real {
    RoundHalfAway(x * 10.0) as real / 10.0
  }

  /** Rounding to cents moves a value by at most half a cent. */
  lemma Round2Close(x: real)
    ensures x - 0.005 <= Round2(x) <= x + 0.005
  {
    var n := RoundHalfAway(x * 100.0);
    assert x * 100.0 - 0.5 <= n as real <= x * 100.0 + 0.5;
  }

  /** Rounding to tenths moves a value by at most 0.05. */
  lemma Round1Close(x: real)
    ensures x - 0.05 <= Round1(x) <= x + 0.05
  {
    var n := RoundHalfAway(x * 10.0);
    assert x * 10.0 - 0.5 <= n as real <= x * 10.0 + 0.5;
  }

  /** Rounding to cents is monotone. */
  lemma Round2Monotone(x: real, y: real)
    requires x <= y
    ensures Round2(x) <= Round2(y)
  {
    RoundHalfAwayMonotone(x * 100.0, y * 100.0);
  }

  /** Scaling a non-negative amount by a factor of at least one never lowers it. */
  lemma ScaleUp(x: real, m: real)
    requires x >= 0.0 && m >= 1.0
    ensures x <= x * m
  {
    assert x * m - x == x * (m - 1.0);
    assert x * (m - 1.0) >= 0.0;
  }

  lemma Round2NonNegative(x: real)
    requires x >= 0.0
    ensures Round2(x) >= 0.0
  {
  }

  /** The `(int)` cast of a float: truncation toward zero. */
  function TruncToInt(x: real): (n: int)
    ensures x >= 0.0 ==> 0 <= n && n as real <= x < n as real + 1.0
    ensures x < 0.0 ==> n <= 0 && n as real - 1.0 < x <= n as real
  {
    if x >= 0.0 then x.Floor else -((-x).Floor)
  }

  // ----------------------------------------------- numeric strings

  /** The whitespace PHP skips in front of (and, for `is_numeric`, after) a number. */
  predicate IsNumberSpace(c: char) {
    c == ' ' || c == '\t' || c == '\n' || c == '\r' || c as int == 11 || c as int == 12
  }

  function SkipNumberSpace(s: string): (r: string)
    ensures |r| <= |s|
  {
    if s != [] && IsNumberSpace(s[0]) then SkipNumberSpace(s[1..]) else s
  }

  /** The longest prefix of decimal digits. */
  function LeadingDigits(s: string): (r: string)
    ensures AllDigits(r) && |r| <= |s| && r == s[..|r|]
  {
    if s != [] && IsDigit(s[0]) then [s[0]] + LeadingDigits(s[1..]) else []
  }

  /** The digit run stops at the first non-digit. */
  lemma {:induction false} LeadingDigitsStops(a: string, rest: string)
    requires AllDigits(a) && (rest == [] || !IsDigit(rest[0]))
    ensures LeadingDigits(a + rest) == a
    decreases |a|
  {
    if a == [] {
      assert a + rest == rest;
    } else {
      assert (a + rest)[1..] == a[1..] + rest;
      LeadingDigitsStops(a[1..], rest);
    }
  }

  predicate IsSign(c: char) {
    c == '+' || c == '-'
  }

  /** The `(float)` cast of a string: the leading decimal number after optional
      whitespace and sign, or 0 when there is none. */
  function ToFloat(s: string): real {
    var t := SkipNumberSpace(s);
    if t != [] && t[0] == '-' then -Magnitude(t[1..])
    else if t != [] && t[0] == '+' then Magnitude(t[1..])
    else Magnitude(t)
  }

  /** The value of the leading unsigned decimal "digits[.digits]" of a string. */
  function Magnitude(u: string): real {
    var intPart := LeadingDigits(u);
    var rest := u[|intPart|..];
    var fracPart := if rest != [] && rest[0] == '.' then LeadingDigits(rest[1..]) else [];
    DecimalValue(intPart, fracPart)
  }

  /** The number written "intPart.fracPart". */
  function DecimalValue(intPart: string, fracPart: string): real
    requires AllDigits(intPart) && AllDigits(fracPart)
  {
    DigitsValue(intPart) as real + DigitsValue(fracPart) as real / Pow10(|fracPart|) as real
  }

  /** A plain decimal "a.b" is read as a + b / 10^|b|. */
  lemma ToFloatDecimal(a: string, b: string)
    requires a != [] && AllDigits(a) && AllDigits(b)
    ensures ToFloat(a + "." + b) == DecimalValue(a, b)
  {
    var s := a + "." + b;
    assert s == a + ("." + b) && s[0] == a[0];
    assert SkipNumberSpace(s) == s;
    MagnitudeDecimal(a, b);
  }

  lemma MagnitudeDecimal(a: string, b: string)
    requires AllDigits(a) && AllDigits(b)
    ensures Magnitude(a + "." + b) == DecimalValue(a, b)
  {
    var s := a + "." + b;
    assert s == a + ("." + b);
    LeadingDigitsStops(a, "." + b);
    assert s[|a|..] == "." + b;
    assert ("." + b)[1..] == b + [];
    LeadingDigitsStops(b, []);
  }

  /** An optional exponent `e`/`E`, optional sign, at least one digit. */
  function ExponentLength(s: string): (n: nat)
    ensures n <= |s|
  {
    if s != [] && (s[0] == 'e' || s[0] == 'E') then
      var t := if |s| > 1 && IsSign(s[1]) then s[2..] else s[1..];
      var ds := LeadingDigits(t);
      if ds == [] then 0 else |s| - |t| + |ds|
    else 0
  }

  predicate AllNumberSpace(s: string) {
    forall i :: 0 <= i < |s| ==> IsNumberSpace(s[i])
  }

  /** `is_numeric` on a string (PHP 8): optional leading whitespace, optional sign,
      digits with an optional decimal point (at least one digit), optional exponent,
      optional trailing whitespace. */
  predicate IsNumeric(s: string) {
    var t := SkipNumberSpace(s);
    var u := if t != [] && IsSign(t[0]) then t[1..] else t;
    var intPart := LeadingDigits(u);
    var rest := u[|intPart|..];
    var fracPart := if rest != [] && rest[0] == '.' then LeadingDigits(rest[1..]) else [];
    var afterMantissa := if rest != [] && rest[0] == '.' then rest[1 + |fracPart|..] else rest;
    (intPart != [] || fracPart != [])
    && AllNumberSpace(afterMantissa[ExponentLength(afterMantissa)..])
  }

  // ----------------------------------------------- worked evaluations

  /** `str_replace(',', '.', str_replace('.', '', "1.234,56"))` is "1234.56". */
  lemma BrazilianThousandsExample()
    ensures ReplaceChar(RemoveChar("1.234,56", '.'), ',', '.') == "1234" + "." + "56"
  {
    RemoveThousandsPoint();
  }

  lemma RemoveThousandsPoint()
    ensures RemoveChar("1.234,56", '.') == "1234,56"
  {
    assert "1.234,56"[1..] == ".234,56";
    RemoveLeadingPoint();
  }

  lemma RemoveLeadingPoint()
    ensures RemoveChar(".234,56", '.') == "234,56"
  {
    assert ".234,56"[1..] == "234,56";
    RemoveCharAbsent("234,56", '.');
  }

  lemma BrazilianCommaExample()
    ensures ReplaceChar(RemoveChar("18,50", '.'), ',', '.') == "18" + "." + "50"
    ensures ReplaceChar(RemoveChar("0,00", '.'), ',', '.') == "0" + "." + "00"
  {
    RemoveCharAbsent("18,50", '.');
    RemoveCharAbsent("0,00", '.');
  }

  lemma DigitsValueExamples()
    ensures DigitsValue("1234") == 1234 && DigitsValue("56") == 56
    ensures DigitsValue("18") == 18 && DigitsValue("50") == 50 && DigitsValue("00") == 0
  {
    assert "1234"[..3] == "123" && "123"[..2] == "12" && "12"[..1] == "1";
    assert "56"[..1] == "5" && "18"[..1] == "1" && "50"[..1] == "5" && "00"[..1] == "0";
  }

  lemma DecimalValueExamples()
    ensures DecimalValue("1234", "56") == 1234.56
    ensures DecimalValue("18", "50") == 18.5
    ensures DecimalValue("0", "00") == 0.0
  {
    DigitsValueExamples();
    assert Pow10(2) == 100;
  }

  /** One blank on each side of an unpadded word is trimmed away. */
  lemma TrimPadded(w: string)
    requires w != [] && !IsTrimChar(w[0]) && !IsTrimChar(w[|w| - 1])
    ensures Trim(" " + w + " ") == w
  {
    var p := " " + w + " ";
    assert p[1..] == w + " ";
    assert TrimLeft(p) == TrimLeft(w + " ");
    assert (w + " ")[0] == w[0];
    assert TrimLeft(w + " ") == w + " ";
    assert (w + " ")[..|w|] == w;
    assert TrimRight(w + " ") == TrimRight(w);
    TrimUnpadded(w);
  }

  /** The default origin CEP of the carrier, cleaned to its digits. */
  lemma DigitsOnlyCepExample()
    ensures DigitsOnly("38400-000") == "38400000"
  {
    CepParts();
    DigitsOnlyHyphen("38400", "000");
  }

  lemma CepParts()
    ensures "38400" + "-" + "000" == "38400-000"
    ensures "38400" + "000" == "38400000"
    ensures AllDigits("38400") && AllDigits("000")
  {
  }

  lemma UpperExample()
    ensures Upper("mg") == "MG"
  {
  }

  /** `strtoupper(trim(...))` of a few state codes. */
  lemma UpperTrimExample()
    ensures Upper(Trim(" mg ")) == "MG"
  {
    assert " mg " == " " + "mg" + " ";
    TrimPadded("mg");
    UpperExample();
  }

  lemma UpperTrimUnchanged(code: string)
    requires code == "SP" || code == "XX"
    ensures Upper(Trim(code)) == code
  {
    TrimUnpadded(code);
  }
}
