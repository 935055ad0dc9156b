/**
 * The few JavaScript string and number primitives the components rely on:
 * `String.prototype.trim`, `toLowerCase`, `includes`, the `\d` and `\s`
 * character classes, `Number(s)`/`isNaN`, `parseInt(s)` and `n.toString()`.
 * `Number` reads decimal literals, with or without a fractional part, as
 * real numbers; exponents and hexadecimal, binary or octal literals are not
 * modelled. `parseInt` reads decimal and `0x` hexadecimal integers.
 */
module JsStrings {
  import opened Common

  // ---------------------------------------------------------------- characters

  /** ECMAScript WhiteSpace and LineTerminator: what `trim` strips and what `\s` matches. */
  predicate IsWhitespace(c: char) {
    || c == ' ' || c == '\t' || c == '\n' || c == '\U{B}' || c == '\U{C}' || c == '\r'
    || c == '\U{A0}' || c == '\U{1680}' || ('\U{2000}' <= c <= '\U{200A}')
    || c == '\U{2028}' || c == '\U{2029}' || c == '\U{202F}' || c == '\U{205F}'
    || c == '\U{3000}' || c == '\U{FEFF}'
  }

  /** The `\d` class: ASCII decimal digits only. */
  predicate IsDigit(c: char) {
    '0' <= c <= '9'
  }

  /** Every character is a decimal digit (true of ""). */
  predicate DigitsOnly(s: string) {
    forall i :: 0 <= i < |s| ==> IsDigit(s[i])
  }

  /** No character is whitespace. */
  predicate NoWhitespace(s: string) {
    forall i :: 0 <= i < |s| ==> !IsWhitespace(s[i])
  }

  // ---------------------------------------------------------------- trim

  /** Drops leading whitespace: what is left is empty or starts with a non-space. */
  function TrimStart(s: string): (r: string)
    ensures |r| <= |s|
    ensures r == [] || !IsWhitespace(r[0])
    decreases |s|
  {
    if |s| > 0 && IsWhitespace(s[0]) then TrimStart(s[1..]) else s
  }

  /** What `TrimStart` leaves is a suffix, and only whitespace was dropped. */
  lemma {:induction false} TrimStartFacts(s: string)
    ensures TrimStart(s) == s[|s| - |TrimStart(s)|..]
    ensures forall i :: 0 <= i < |s| - |TrimStart(s)| ==> IsWhitespace(s[i])
    decreases |s|
  {
    if |s| > 0 && IsWhitespace(s[0]) {
      TrimStartFacts(s[1..]);
      var r := TrimStart(s);
      assert s[1..][|s| - 1 - |r|..] == s[|s| - |r|..];
      forall i | 0 <= i < |s| - |r| ensures IsWhitespace(s[i]) {
        if i > 0 {
          assert s[i] == s[1..][i - 1];
        }
      }
    }
  }

  /** Drops trailing whitespace: what is left is empty or ends with a non-space. */
  function TrimEnd(s: string): (r: string)
    ensures |r| <= |s|
    ensures r == [] || !IsWhitespace(r[|r| - 1])
    decreases |s|
  {
    if |s| > 0 && IsWhitespace(s[|s| - 1]) then TrimEnd(s[..|s| - 1]) else s
  }

  /** What `TrimEnd` leaves is a prefix, and only whitespace was dropped. */
  lemma {:induction false} TrimEndFacts(s: string)
    ensures TrimEnd(s) == s[..|TrimEnd(s)|]
    ensures forall i :: |TrimEnd(s)| <= i < |s| ==> IsWhitespace(s[i])
    decreases |s|
  {
    if |s| > 0 && IsWhitespace(s[|s| - 1]) {
      TrimEndFacts(s[..|s| - 1]);
      var r := TrimEnd(s);
      assert s[..|s| - 1][..|r|] == s[..|r|];
      forall i | |r| <= i < |s| ensures IsWhitespace(s[i]) {
        if i < |s| - 1 {
          assert s[i] == s[..|s| - 1][i];
        }
      }
    }
  }

  /**
   * `s.trim()`: whitespace dropped at both ends. What is left is a slice of
   * `s` (see `TrimSlice`) that neither starts nor ends with whitespace.
   */
  function Trim(s: string): (r: string)
    ensures |r| <= |s|
    ensures r == [] || (!IsWhitespace(r[0]) && !IsWhitespace(r[|r| - 1]))
  {
    var t := TrimStart(s);
    TrimStartFacts(s);
    TrimEndFacts(t);
    var r := TrimEnd(t);
    assert r != [] ==> r[0] == t[0];
    r
  }

  /** The trimmed string is the slice of `s` at some offset, with only whitespace around it. */
  lemma TrimSlice(s: string)
    ensures exists k :: TrimmedAt(s, Trim(s), k)
  {
    var t := TrimStart(s);
    TrimStartFacts(s);
    TrimEndFacts(t);
    var r := Trim(s);
    var k := |s| - |t|;
    assert r == s[k..k + |r|];
    forall i | k + |r| <= i < |s| ensures IsWhitespace(s[i]) {
      assert s[i] == t[i - k];
    }
    assert TrimmedAt(s, r, k);
  }

  /** `r` is the slice of `s` that starts at `k`, and everything outside it is whitespace. */
  predicate TrimmedAt(s: string, r: string, k: int) {
    && 0 <= k && k + |r| <= |s| && r == s[k..k + |r|]
    && (forall i :: 0 <= i < k ==> IsWhitespace(s[i]))
    && (forall i :: k + |r| <= i < |s| ==> IsWhitespace(s[i]))
  }

  /** A string trims to "" exactly when it is all whitespace (the `!x.trim()` test of the forms). */
  lemma TrimEmptyIffBlank(s: string)
    ensures Trim(s) == "" <==> forall i :: 0 <= i < |s| ==> IsWhitespace(s[i])
  {
    TrimSlice(s);
    var r := Trim(s);
    var k :| TrimmedAt(s, r, k);
    if r == "" {
      forall i | 0 <= i < |s| ensures IsWhitespace(s[i]) {
        if i >= k { assert k + |r| <= i; }
      }
    } else {
      assert s[k] == r[0];
    }
  }

  /** A string without whitespace is its own trim. */
  lemma TrimOfNoWhitespace(s: string)
    requires NoWhitespace(s)
    ensures Trim(s) == s
  {
    if s != [] {
      assert !IsWhitespace(s[0]) && !IsWhitespace(s[|s| - 1]);
      assert TrimStart(s) == s;
    }
  }

  /** Trimming twice is trimming once. */
  lemma TrimIdempotent(s: string)
    ensures Trim(Trim(s)) == Trim(s)
  {
    var r := Trim(s);
    if r != [] {
      assert !IsWhitespace(r[0]) && !IsWhitespace(r[|r| - 1]);
      assert TrimStart(r) == r;
    }
  }

  // ---------------------------------------------------------------- toLowerCase

  /**
   * `toLowerCase` on one character, for the ASCII letters and the basic
   * Cyrillic capitals (U+0400..U+042F); every other character is kept.
   */
  function LowerChar(c: char): (d: char)
    ensures 'A' <= c <= 'Z' ==> 'a' <= d <= 'z'
    ensures '\U{400}' <= c <= '\U{42F}' ==> '\U{430}' <= d <= '\U{45F}'
    ensures ('A' <= c <= 'Z' || '\U{400}' <= c <= '\U{42F}') ==> !('A' <= d <= 'Z') && !('\U{400}' <= d <= '\U{42F}')
    ensures !('A' <= c <= 'Z') && !('\U{400}' <= c <= '\U{42F}') ==> d == c
  {
    if 'A' <= c <= 'Z' then (c as int + 32) as char
    else if '\U{410}' <= c <= '\U{42F}' then (c as int + 32) as char
    else if '\U{400}' <= c <= '\U{40F}' then (c as int + 80) as char
    else c
  }

  /** `s.toLowerCase()`: same length, lowered character by character. */
  function ToLower(s: string): (r: string)
    ensures |r| == |s|
    ensures forall i :: 0 <= i < |s| ==> r[i] == LowerChar(s[i])
    decreases |s|
  {
    if s == [] then [] else [LowerChar(s[0])] + ToLower(s[1..])
  }

  /** Lowering a lowered string changes nothing more. */
  lemma ToLowerIdempotent(s: string)
    ensures ToLower(ToLower(s)) == ToLower(s)
  {
    var l := ToLower(s);
    assert forall i :: 0 <= i < |l| ==> LowerChar(l[i]) == l[i];
  }

  // ---------------------------------------------------------------- includes

  /** `t` occurs in `s` starting at index `i`. */
  predicate OccursAt(s: string, t: string, i: int) {
    0 <= i && i + |t| <= |s| && s[i..i + |t|] == t
  }

  /** `s.includes(t)`, searching from the left: every string includes "", and nothing includes a longer string. */
  function Includes(s: string, t: string): (found: bool)
    ensures t == [] ==> found
    ensures found ==> |t| <= |s|
    decreases |s|
  {
    (|t| <= |s| && s[..|t|] == t) || (|s| > 0 && Includes(s[1..], t))
  }

  /** `Includes` holds exactly when `t` occurs somewhere in `s`. */
  lemma {:induction false} IncludesIffOccurs(s: string, t: string)
    ensures Includes(s, t) <==> exists i :: OccursAt(s, t, i)
    decreases |s|
  {
    if |t| <= |s| && s[..|t|] == t {
      assert OccursAt(s, t, 0);
    } else if |s| > 0 {
      IncludesIffOccurs(s[1..], t);
      if Includes(s[1..], t) {
        var i :| OccursAt(s[1..], t, i);
        assert s[1..][i..i + |t|] == s[i + 1..i + 1 + |t|];
        assert OccursAt(s, t, i + 1);
      } else {
        forall i | OccursAt(s, t, i) ensures false {
          assert i != 0;
          assert s[i..i + |t|] == s[1..][i - 1..i - 1 + |t|];
          assert OccursAt(s[1..], t, i - 1);
        }
      }
    } else {
      forall i | OccursAt(s, t, i) ensures false {
      }
    }
  }

  // ---------------------------------------------------------------- numbers

  /** The value of a string of decimal digits ("" is 0). */
  function DigitsValue(s: string): (n: nat)
    requires DigitsOnly(s)
    decreases |s|
  {
    if s == [] then 0 else DigitsValue(s[..|s| - 1]) * 10 + (s[|s| - 1] as int - '0' as int)
  }

  /** The index of the first `c` in `s`, or `|s|` when there is none. */
  function FirstIndex(s: string, c: char): (k: nat)
    ensures k <= |s|
    ensures forall m :: 0 <= m < k ==> s[m] != c
    ensures k < |s| ==> s[k] == c
    decreases |s|
  {
    if s == [] then 0
    else if s[0] == c then 0
    else
      var k := FirstIndex(s[1..], c);
      assert forall m :: 1 <= m < k + 1 ==> s[m] == s[1..][m - 1];
      k + 1
  }

  /** Ten to the power `n`. */
  function Pow10(n: nat): (p: nat)
    ensures p >= 1
  {
    if n == 0 then 1 else 10 * Pow10(n - 1)
  }

  /**
   * An unsigned decimal literal without exponent: digits, optionally a dot
   * and more digits, with at least one digit on some side of the dot
   * (`12`, `12.`, `12.5`, `.5`).
   */
  predicate IsDecimal(b: string) {
    var i := FirstIndex(b, '.');
    && DigitsOnly(b[..i])
    && (i < |b| ==> DigitsOnly(b[i + 1..]))
    && (if i < |b| then |b| > 1 else |b| > 0)
  }

  /** The value of a decimal literal: the whole part plus the digits after the dot scaled down. */
  function DecimalValue(b: string): (v: real)
    requires IsDecimal(b)
    ensures v >= 0.0
  {
    var i := FirstIndex(b, '.');
    var whole := DigitsValue(b[..i]) as real;
    if i == |b| then whole
    else
      var fraction := DigitsValue(b[i + 1..]) as real;
      var scale := Pow10(|b| - i - 1) as real;
      QuotientNonNegative(fraction, scale);
      whole + fraction / scale
  }

  /** A non-negative number divided by a positive one is non-negative. */
  lemma QuotientNonNegative(x: real, y: real)
    requires x >= 0.0 && y > 0.0
    ensures x / y >= 0.0
  {
    assert (x / y) * y == x;
  }

  /** `a.b` with digit strings `a` and `b`, not both empty, is worth `a` plus `b` over ten to the length of `b`. */
  lemma DecimalValueOfFraction(a: string, b: string)
    requires DigitsOnly(a) && DigitsOnly(b) && |a| + |b| > 0
    ensures IsDecimal(a + "." + b)
    ensures DecimalValue(a + "." + b) == DigitsValue(a) as real + DigitsValue(b) as real / Pow10(|b|) as real
  {
    var s := a + "." + b;
    assert FirstIndex(s, '.') == |a| by {
      assert forall m :: 0 <= m < |a| ==> s[m] == a[m];
      assert s[|a|] == '.';
    }
    assert s[..|a|] == a;
    assert s[|a| + 1..] == b;
  }

  /** A string of digits is a decimal literal whose value is that of its digits. */
  lemma DigitsAreDecimal(b: string)
    requires b != "" && DigitsOnly(b)
    ensures IsDecimal(b) && DecimalValue(b) == DigitsValue(b) as real
  {
    assert FirstIndex(b, '.') == |b|;
    assert b[..|b|] == b;
  }

  /**
   * `Number(s)` on a string, with `None` for NaN: whitespace around the
   * literal is ignored, a blank string is 0, and one optional sign may
   * precede a decimal literal.
   */
  function ParseNumber(s: string): (r: Option<real>)
    ensures Trim(s) == "" ==> r == Some(0.0)
    ensures r.Some? && r.value < 0.0 ==> Trim(s)[0] == '-'
  {
    var t := Trim(s);
    if t == "" then Some(0.0)
    else if IsDecimal(t) then Some(DecimalValue(t))
    else if |t| > 1 && (t[0] == '-' || t[0] == '+') && IsDecimal(t[1..]) then
      Some(if t[0] == '-' then -DecimalValue(t[1..]) else DecimalValue(t[1..]))
    else None
  }

  /** A (trimmed) run of digits reads as its decimal value. */
  lemma ParseNumberOfDigits(s: string)
    requires Trim(s) != "" && DigitsOnly(Trim(s))
    ensures ParseNumber(s) == Some(DigitsValue(Trim(s)) as real)
  {
    DigitsAreDecimal(Trim(s));
  }

  /** A character other than a digit, a dot or a sign inside the trimmed text makes `Number` NaN. */
  lemma ParseNumberRejectsOtherChars(s: string, k: int)
    requires 0 <= k < |Trim(s)|
    requires !IsDigit(Trim(s)[k]) && Trim(s)[k] != '.' && Trim(s)[k] != '-' && Trim(s)[k] != '+'
    ensures ParseNumber(s).None?
  {
    var t := Trim(s);
    if IsDecimal(t) {
      DecimalHasOnlyDigitsAndDot(t);
    }
    if k > 0 {
      assert t[k] == t[1..][k - 1];
      if IsDecimal(t[1..]) {
        DecimalHasOnlyDigitsAndDot(t[1..]);
      }
    }
  }

  /** Every character of a decimal literal is a digit or the dot. */
  lemma DecimalHasOnlyDigitsAndDot(b: string)
    requires IsDecimal(b)
    ensures forall k :: 0 <= k < |b| ==> IsDigit(b[k]) || b[k] == '.'
  {
    var i := FirstIndex(b, '.');
    forall k | 0 <= k < |b| ensures IsDigit(b[k]) || b[k] == '.' {
      if k < i {
        assert b[..i][k] == b[k];
      } else if k > i {
        assert b[i + 1..][k - i - 1] == b[k];
      }
    }
  }

  /** The value of a digit character in any radix up to 36 (`0-9`, then `a-z` or `A-Z`); 36 for any other character. */
  function CharValue(c: char): (v: nat)
    ensures v <= 36
    ensures v < 10 <==> IsDigit(c)
    ensures IsDigit(c) ==> v == c as int - '0' as int
  {
    if '0' <= c <= '9' then c as int - '0' as int
    else if 'a' <= c <= 'z' then c as int - 'a' as int + 10
    else if 'A' <= c <= 'Z' then c as int - 'A' as int + 10
    else 36
  }

  /** Every character of `s` is a digit of `radix`. */
  predicate AllRadixDigits(s: string, radix: nat) {
    forall k :: 0 <= k < |s| ==> CharValue(s[k]) < radix
  }

  /** The value of a string of digits of `radix`, most significant first ("" is 0). */
  function RadixValue(s: string, radix: nat): nat
    requires AllRadixDigits(s, radix)
    decreases |s|
  {
    if s == [] then 0 else RadixValue(s[..|s| - 1], radix) * radix + CharValue(s[|s| - 1])
  }

  /** The longest prefix of `s` made of digits of `radix`: what `parseInt` reads. */
  function LeadingRun(s: string, radix: nat): (r: string)
    ensures |r| <= |s| && r == s[..|r|] && AllRadixDigits(r, radix)
    ensures |r| < |s| ==> CharValue(s[|r|]) >= radix
    decreases |s|
  {
    if |s| > 0 && CharValue(s[0]) < radix then [s[0]] + LeadingRun(s[1..], radix) else []
  }

  /** When every character is a digit of the radix, the whole string is read. */
  lemma {:induction false} LeadingRunOfDigits(s: string, radix: nat)
    requires AllRadixDigits(s, radix)
    ensures LeadingRun(s, radix) == s
    decreases |s|
  {
    if s != [] {
      assert AllRadixDigits(s[1..], radix) by {
        forall k | 0 <= k < |s| - 1 ensures CharValue(s[1..][k]) < radix {
          assert s[1..][k] == s[k + 1];
        }
      }
      LeadingRunOfDigits(s[1..], radix);
    }
  }

  /** Radix 10 reads a decimal string as its decimal value. */
  lemma {:induction false} RadixTenIsDecimal(s: string)
    requires DigitsOnly(s)
    ensures AllRadixDigits(s, 10) && RadixValue(s, 10) == DigitsValue(s)
    decreases |s|
  {
    if s != [] {
      RadixTenIsDecimal(s[..|s| - 1]);
    }
  }

  /**
   * The digits `parseInt` reads once whitespace and sign are skipped: a
   * `0x`/`0X` prefix selects radix 16, otherwise radix 10, and as many
   * digits of the radix as follow are read; `None` when there are none.
   */
  function ParseUnsigned(rest: string): (r: Option<nat>)
    ensures r.Some? ==> |rest| > 0 && IsDigit(rest[0])
  {
    var hex := |rest| >= 2 && rest[0] == '0' && (rest[1] == 'x' || rest[1] == 'X');
    var radix := if hex then 16 else 10;
    var d := LeadingRun(if hex then rest[2..] else rest, radix);
    if d == [] then None
    else
      assert !hex ==> d[0] == rest[0];
      Some(RadixValue(d, radix))
  }

  /** `parseInt` once leading whitespace is gone: one optional sign, then `ParseUnsigned`. */
  function ParseSigned(t: string): (r: Option<int>)
    ensures r.Some? ==> |t| > 0 && (IsDigit(t[0]) || (|t| > 1 && IsDigit(t[1])))
  {
    var signed := |t| > 0 && (t[0] == '-' || t[0] == '+');
    var rest := if signed then t[1..] else t;
    match ParseUnsigned(rest)
    case None => None
    case Some(v) =>
      var n: int := v;
      Some(if signed && t[0] == '-' then -n else n)
  }

  /**
   * `parseInt(s)` without a radix, with `None` for NaN: leading whitespace
   * is skipped and `ParseSigned` reads the rest; text after the digits is
   * ignored.
   */
  function ParseInt(s: string): (r: Option<int>)
    ensures r.Some? ==> exists k :: 0 <= k < |s| && IsDigit(s[k])
  {
    var t := TrimStart(s);
    var r := ParseSigned(t);
    if r.Some? then
      assert exists k :: 0 <= k < |s| && IsDigit(s[k]) by {
        TrimStartFacts(s);
        var k := if IsDigit(t[0]) then 0 else 1;
        assert s[|s| - |t| + k] == t[k];
      }
      r
    else r
  }

  /** Leading whitespace in front of a non-space is exactly what `TrimStart` drops. */
  lemma {:induction false} TrimStartOfWhitespacePrefix(ws: string, rest: string)
    requires forall k :: 0 <= k < |ws| ==> IsWhitespace(ws[k])
    requires rest == [] || !IsWhitespace(rest[0])
    ensures TrimStart(ws + rest) == rest
    decreases |ws|
  {
    if ws == [] {
      assert ws + rest == rest;
    } else {
      assert (ws + rest)[1..] == ws[1..] + rest;
      TrimStartOfWhitespacePrefix(ws[1..], rest);
    }
  }

  /** Reading digits stops at the first character that is not a digit of the radix. */
  lemma {:induction false} LeadingRunStops(d: string, tail: string, radix: nat)
    requires AllRadixDigits(d, radix)
    requires tail == [] || CharValue(tail[0]) >= radix
    ensures LeadingRun(d + tail, radix) == d
    decreases |d|
  {
    if d == [] {
      assert d + tail == tail;
    } else {
      assert (d + tail)[1..] == d[1..] + tail;
      assert AllRadixDigits(d[1..], radix) by {
        forall k | 0 <= k < |d| - 1 ensures CharValue(d[1..][k]) < radix {
          assert d[1..][k] == d[k + 1];
        }
      }
      LeadingRunStops(d[1..], tail, radix);
    }
  }

  /** Decimal digits, not a lone `0` before `x` or `X`, are read up to the first non-digit. */
  lemma ParseUnsignedDecimal(d: string, tail: string)
    requires d != [] && DigitsOnly(d)
    requires tail == [] || !IsDigit(tail[0])
    requires !(d == "0" && tail != [] && (tail[0] == 'x' || tail[0] == 'X'))
    ensures ParseUnsigned(d + tail) == Some(DigitsValue(d))
  {
    var body := d + tail;
    assert !(|body| >= 2 && body[0] == '0' && (body[1] == 'x' || body[1] == 'X')) by {
      if |d| >= 2 {
        assert body[1] == d[1] && IsDigit(d[1]);
      } else if |body| >= 2 && body[0] == '0' {
        assert d == "0" && body[1] == tail[0];
      }
    }
    RadixTenIsDecimal(d);
    LeadingRunStops(d, tail, 10);
  }

  /** Leading whitespace in front of a non-space does not change what `parseInt` reads. */
  lemma ParseIntSkipsWhitespace(ws: string, rest: string)
    requires forall k :: 0 <= k < |ws| ==> IsWhitespace(ws[k])
    requires rest == [] || !IsWhitespace(rest[0])
    ensures ParseInt(ws + rest) == ParseSigned(rest)
  {
    TrimStartOfWhitespacePrefix(ws, rest);
  }

  /** Text that starts with a digit is read unsigned. */
  lemma ParseSignedOfUnsigned(t: string)
    requires |t| > 0 && IsDigit(t[0])
    ensures ParseSigned(t) == match ParseUnsigned(t) case None => None case Some(v) => Some(v as int)
  {
  }

  /** A leading `-` negates what follows it and a leading `+` keeps it. */
  lemma ParseSignedOfSign(sign: char, body: string)
    requires sign == '-' || sign == '+'
    ensures ParseSigned([sign] + body) == match ParseUnsigned(body)
      case None => None
      case Some(v) => Some(if sign == '-' then -(v as int) else v as int)
  {
    assert ([sign] + body)[1..] == body;
  }

  /** Decimal digits are read up to the first non-digit. */
  lemma ParseSignedDigits(d: string, tail: string)
    requires d != [] && DigitsOnly(d)
    requires tail == [] || !IsDigit(tail[0])
    requires !(d == "0" && tail != [] && (tail[0] == 'x' || tail[0] == 'X'))
    ensures ParseSigned(d + tail) == Some(DigitsValue(d) as int)
  {
    ParseUnsignedDecimal(d, tail);
    ParseSignedOfUnsigned(d + tail);
  }

  /** After a sign, decimal digits are read up to the first non-digit and negated for `-`. */
  lemma ParseSignedSignDigits(sign: char, d: string, tail: string)
    requires sign == '-' || sign == '+'
    requires d != [] && DigitsOnly(d)
    requires tail == [] || !IsDigit(tail[0])
    requires !(d == "0" && tail != [] && (tail[0] == 'x' || tail[0] == 'X'))
    ensures ParseSigned([sign] + (d + tail)) == Some(if sign == '-' then -(DigitsValue(d) as int) else DigitsValue(d) as int)
  {
    ParseUnsignedDecimal(d, tail);
    ParseSignedOfSign(sign, d + tail);
  }

  /** Regrouping the text `ws + sign + rest` around a sign of at most one character. */
  lemma RegroupSigned(ws: string, sign: string, d: string, tail: string)
    requires |sign| <= 1
    ensures ws + sign + d + tail == ws + (sign + (d + tail))
    ensures sign == [] ==> sign + (d + tail) == d + tail
    ensures |sign| == 1 ==> sign + (d + tail) == [sign[0]] + (d + tail)
  {
  }

  /**
   * `parseInt` skips leading whitespace and one sign, reads the decimal
   * digits that follow and ignores the rest of the text (`" 12abc"` is 12),
   * unless the digits are a lone `0` followed by `x` or `X`.
   */
  lemma ParseIntSkipsAndStops(ws: string, sign: string, d: string, tail: string)
    requires forall k :: 0 <= k < |ws| ==> IsWhitespace(ws[k])
    requires sign == "" || sign == "-" || sign == "+"
    requires d != [] && DigitsOnly(d)
    requires tail == [] || !IsDigit(tail[0])
    requires !(d == "0" && tail != [] && (tail[0] == 'x' || tail[0] == 'X'))
    ensures ParseInt(ws + sign + d + tail) == Some(if sign == "-" then -(DigitsValue(d) as int) else DigitsValue(d) as int)
  {
    RegroupSigned(ws, sign, d, tail);
    var rest := sign + (d + tail);
    assert rest[0] == (if sign == "" then d[0] else sign[0]);
    ParseIntSkipsWhitespace(ws, rest);
    if sign == "" {
      ParseSignedDigits(d, tail);
    } else {
      assert (sign == "-") == (sign[0] == '-');
      ParseSignedSignDigits(sign[0], d, tail);
    }
  }

  /** A `0x` literal reads as its hexadecimal value. */
  lemma ParseIntReadsHex(h: string)
    requires h != [] && AllRadixDigits(h, 16)
    ensures ParseInt("0x" + h) == Some(RadixValue(h, 16))
  {
    var s := "0x" + h;
    ParseIntSkipsWhitespace([], s);
    assert [] + s == s;
    assert s[2..] == h;
    LeadingRunOfDigits(h, 16);
    assert ParseUnsigned(s) == Some(RadixValue(h, 16));
  }

  /** The decimal digits of a natural number, most significant first. */
  function NatToString(n: nat): (r: string)
    ensures |r| > 0 && DigitsOnly(r)
    ensures DigitsValue(r) == n
    decreases n
  {
    var last := ['0' + ((n % 10) as char)];
    if n < 10 then last
    else
      var r := NatToString(n / 10) + last;
      assert r[..|r| - 1] == NatToString(n / 10);
      r
  }

  /** `n.toString()` for an integer. */
  function IntToString(n: int): (r: string)
    ensures |r| > 0
    ensures NoWhitespace(r)
  {
    if n < 0 then "-" + NatToString(-n) else NatToString(n)
  }

  /** `Number(n.toString())` gives `n` back. */
  lemma ParseNumberOfIntToString(n: int)
    ensures ParseNumber(IntToString(n)) == Some(n as real)
  {
    var r := IntToString(n);
    TrimOfNoWhitespace(r);
    if n < 0 {
      assert r[1..] == NatToString(-n);
      assert !IsDigit(r[0]);
      assert FirstIndex(r, '.') == 1 + FirstIndex(r[1..], '.') by {
        assert r[0] != '.';
      }
      DigitsAreDecimal(r[1..]);
      if IsDecimal(r) {
        DecimalHasOnlyDigitsAndDot(r);
      }
    } else {
      ParseNumberOfDigits(r);
    }
  }

  /** `parseInt(n.toString())` gives `n` back. */
  lemma ParseIntOfIntToString(n: int)
    ensures ParseInt(IntToString(n)) == Some(n)
  {
    if n < 0 {
      var d := NatToString(-n);
      assert IntToString(n) == "" + "-" + d + "" by {
        assert IntToString(n) == "-" + d;
      }
      ParseIntSkipsAndStops("", "-", d, "");
    } else {
      var d := NatToString(n);
      assert IntToString(n) == "" + "" + d + "" by {
        assert IntToString(n) == d;
      }
      ParseIntSkipsAndStops("", "", d, "");
    }
  }
}
