/** Character and string helpers shared by the model: the ECMAScript whitespace set used by
    `String.prototype.trim` and the regular-expression class `\s`, decimal rendering and parsing,
    `split` on one separator character, case folding, prefix and substring tests, and the
    code-unit order that `<` uses on strings. */
module Text {
  import opened Values

  /** The characters ECMAScript counts as WhiteSpace or LineTerminator: what `trim` strips and
      what `\s` matches in a regular expression. */
  predicate IsWhitespace(c: char) {
    c == ' ' || c == '\t' || c == '\n' || c == '\r' || c == '\U{B}' || c == '\U{C}'
    || c == '\U{A0}' || c == '\U{1680}' || ('\U{2000}' <= c <= '\U{200A}')
    || c == '\U{2028}' || c == '\U{2029}' || c == '\U{202F}' || c == '\U{205F}'
    || c == '\U{3000}' || c == '\U{FEFF}'
  }

  predicate IsDigit(c: char) {
    '0' <= c <= '9'
  }

  predicate AllDigits(s: string) {
    forall i :: 0 <= i < |s| ==> IsDigit(s[i])
  }

  // ---------------------------------------------------------------------------------------
  // trim

  /** `s` with its leading whitespace removed. */
  function TrimStart(s: string): (r: string)
    ensures |r| <= |s| && r == s[|s| - |r|..]
    ensures r == [] || !IsWhitespace(r[0])
    ensures forall i :: 0 <= i < |s| - |r| ==> IsWhitespace(s[i])
  {
    if s == [] || !IsWhitespace(s[0]) then s else TrimStart(s[1..])
  }

  /** `s` with its trailing whitespace removed. */
  function TrimEnd(s: string): (r: string)
    ensures |r| <= |s| && r == s[..|r|]
    ensures r == [] || !IsWhitespace(r[|r| - 1])
    ensures forall i :: |r| <= i < |s| ==> IsWhitespace(s[i])
  {
    if s == [] || !IsWhitespace(s[|s| - 1]) then s else TrimEnd(s[..|s| - 1])
  }

  /** `String.prototype.trim`: `s` without its leading and trailing whitespace; it neither
      starts nor ends with whitespace. */
  function Trim(s: string): (r: string)
    ensures r == [] || (!IsWhitespace(r[0]) && !IsWhitespace(r[|r| - 1]))
  {
    var t := TrimStart(s);
    var r := TrimEnd(t);
    if r == [] then r
    else
      assert r[0] == t[0];
      r
  }

  /** The trimmed string is the slice of `s` that starts after its leading whitespace. */
  lemma {:induction false} TrimIsSlice(s: string)
    ensures var k := |s| - |TrimStart(s)|; k + |Trim(s)| <= |s| && Trim(s) == s[k..k + |Trim(s)|]
  {
    var t := TrimStart(s);
    var r := TrimEnd(t);
    assert r == Trim(s);
    SliceOfSuffix(s, |s| - |t|, |r|);
  }

  /** A prefix of a suffix is a slice. */
  lemma {:induction false} SliceOfSuffix(s: string, k: nat, n: nat)
    requires k + n <= |s|
    ensures s[k..][..n] == s[k..k + n]
  {
  }

  /** Whether `s` is all whitespace, so that `s.trim()` is the falsy "". */
  predicate Blank(s: string) {
    forall i :: 0 <= i < |s| ==> IsWhitespace(s[i])
  }

  /** The trimmed string is empty exactly when every character is whitespace. */
  lemma {:induction false} TrimEmptyIff(s: string)
    ensures Trim(s) == [] <==> Blank(s)
  {
    var t := TrimStart(s);
    TrimIsSlice(s);
    if Trim(s) == [] {
      assert TrimEnd(t) == [];
      assert t == [];
    } else {
      var r := Trim(s);
      var k := |s| - |t|;
      assert s[k] == r[0] && !IsWhitespace(s[k]);
    }
  }

  /** A string that neither starts nor ends with whitespace is its own trim. */
  lemma {:induction false} TrimUnpadded(s: string)
    requires s == [] || (!IsWhitespace(s[0]) && !IsWhitespace(s[|s| - 1]))
    ensures Trim(s) == s
  {
    assert TrimStart(s) == s;
    assert TrimEnd(s) == s;
  }

  /** Leading whitespace before a string that starts with a non-whitespace character is
      exactly what `TrimStart` removes. */
  lemma {:induction false} TrimStartPadded(p: string, u: string)
    requires forall i :: 0 <= i < |p| ==> IsWhitespace(p[i])
    requires u != [] && !IsWhitespace(u[0])
    ensures TrimStart(p + u) == u
  {
    if p == [] {
      assert p + u == u;
    } else {
      assert (p + u)[1..] == p[1..] + u;
      TrimStartPadded(p[1..], u);
    }
  }

  /** Trailing whitespace after a string that ends with a non-whitespace character is
      exactly what `TrimEnd` removes. */
  lemma {:induction false} TrimEndPadded(u: string, q: string)
    requires forall i :: 0 <= i < |q| ==> IsWhitespace(q[i])
    requires u != [] && !IsWhitespace(u[|u| - 1])
    ensures TrimEnd(u + q) == u
  {
    if q == [] {
      assert u + q == u;
    } else {
      assert (u + q)[..|u + q| - 1] == u + q[..|q| - 1];
      TrimEndPadded(u, q[..|q| - 1]);
    }
  }

  /** `trim` removes whitespace padding on both sides and nothing else. */
  lemma {:induction false} TrimPadded(p: string, t: string, q: string)
    requires forall i :: 0 <= i < |p| ==> IsWhitespace(p[i])
    requires forall i :: 0 <= i < |q| ==> IsWhitespace(q[i])
    requires t != [] && !IsWhitespace(t[0]) && !IsWhitespace(t[|t| - 1])
    ensures Trim(p + t + q) == t
  {
    assert p + t + q == p + (t + q);
    TrimStartPadded(p, t + q);
    TrimEndPadded(t, q);
  }

  // ---------------------------------------------------------------------------------------
  // decimal numbers

  function DigitChar(d: nat): (c: char)
    requires d < 10
    ensures IsDigit(c) && DigitValue(c) == d
  {
    ['0', '1', '2', '3', '4', '5', '6', '7', '8', '9'][d]
  }

  function DigitValue(c: char): (d: nat)
    requires IsDigit(c)
    ensures d < 10
  {
    (c as int - '0' as int) as nat
  }

  /** `Number.prototype.toString()` on a non-negative integer: its decimal digits, with no
      leading zero except for zero itself. */
  function Decimal(n: nat): (r: string)
    ensures |r| >= 1 && AllDigits(r)
    ensures r[0] == '0' ==> n == 0
    ensures n < 10 <==> |r| == 1
    decreases n
  {
    if n < 10 then [DigitChar(n)] else Decimal(n / 10) + [DigitChar(n % 10)]
  }

  /** The value of a string of decimal digits, most significant first. */
  function DigitsValue(s: string): (n: nat)
    requires AllDigits(s)
  {
    if s == [] then 0 else DigitsValue(s[..|s| - 1]) * 10 + DigitValue(s[|s| - 1])
  }

  /** Reading back what `Decimal` writes gives the number again. */
  lemma {:induction false} DecimalRoundTrip(n: nat)
    ensures DigitsValue(Decimal(n)) == n
    decreases n
  {
    var r := Decimal(n);
    if n >= 10 {
      DecimalRoundTrip(n / 10);
      assert r[..|r| - 1] == Decimal(n / 10);
    }
  }

  /** Two numbers with the same decimal text are equal. */
  lemma {:induction false} DecimalInjective(m: nat, n: nat)
    requires Decimal(m) == Decimal(n)
    ensures m == n
  {
    DecimalRoundTrip(m);
    DecimalRoundTrip(n);
  }

  /** `padStart(2, '0')`: a one-character string gets one leading zero. */
  function PadTwo(s: string): (r: string)
    ensures |s| >= 2 ==> r == s
    ensures |s| < 2 ==> |r| == 2 && r[2 - |s|..] == s && forall i :: 0 <= i < 2 - |s| ==> r[i] == '0'
  {
    if |s| >= 2 then s else seq(2 - |s|, _ => '0') + s
  }

  /** The integer's decimal text as `String(n)` writes it, with a '-' for negatives. */
  function IntString(n: int): (r: string)
    ensures |r| >= 1
  {
    if n < 0 then ['-'] + Decimal(-n) else Decimal(n)
  }

  /** The longest prefix of `s` made of decimal digits. */
  function LeadingDigits(s: string): (r: string)
    ensures |r| <= |s| && r == s[..|r|] && AllDigits(r)
    ensures |r| < |s| ==> !IsDigit(s[|r|])
  {
    if s == [] || !IsDigit(s[0]) then []
    else
      var rest := LeadingDigits(s[1..]);
      assert ([s[0]] + rest)[1..] == rest;
      [s[0]] + rest
  }

  /** `parseInt(s)` with no radix: leading whitespace is skipped, one sign is read, then a
      "0x" or "0X" prefix switches to base sixteen; the longest run of digits of the base is
      read, and the result is `None` (NaN) when that run is empty. */
  function ParseInt(s: string): (r: Option<int>)
  {
    var t := TrimStart(s);
    if t != [] && t[0] == '-' then Negated(Magnitude(t[1..]))
    else if t != [] && t[0] == '+' then Magnitude(t[1..])
    else Magnitude(t)
  }

  /** A '-' in front: the value negated, NaN staying NaN. */
  function Negated(m: Option<int>): (r: Option<int>)
    ensures r.Some? <==> m.Some?
    ensures r.Some? ==> r.value == -m.value
  {
    match m
    case Some(v) => Some(-v)
    case None => None
  }

  /** The text starts with the prefix that selects base sixteen. */
  predicate HexPrefixed(s: string) {
    |s| >= 2 && s[0] == '0' && (s[1] == 'x' || s[1] == 'X')
  }

  /** What follows the sign: a hexadecimal run after "0x", a decimal run otherwise. */
  function Magnitude(s: string): (r: Option<int>)
    ensures r.Some? ==> r.value >= 0
  {
    if HexPrefixed(s) then HexPrefix(s[2..]) else UnsignedPrefix(s)
  }

  /** The value of the leading run of digits, `None` when there is none. */
  function UnsignedPrefix(s: string): (r: Option<int>)
    ensures r.Some? ==> r.value >= 0
  {
    var digits := LeadingDigits(s);
    if digits == [] then None else Some(DigitsValue(digits))
  }

  /** A string of digits is its own leading run. */
  lemma {:induction false} LeadingDigitsAll(s: string)
    requires AllDigits(s)
    ensures LeadingDigits(s) == s
  {
  }

  /** Without whitespace or sign in front, `parseInt` reads the leading digits, in base
      sixteen after a "0x" prefix. */
  lemma {:induction false} ParseIntUnsigned(s: string)
    requires s != [] && IsDigit(s[0])
    ensures !HexPrefixed(s) ==> ParseInt(s) == UnsignedPrefix(s)
    ensures HexPrefixed(s) ==> ParseInt(s) == HexPrefix(s[2..])
  {
    assert TrimStart(s) == s;
  }

  /** Text that starts with anything but whitespace, a sign or a digit is NaN. */
  lemma {:induction false} ParseIntNoDigits(s: string)
    requires s != [] && !IsDigit(s[0]) && !IsWhitespace(s[0]) && s[0] != '-' && s[0] != '+'
    ensures ParseInt(s).None?
  {
    assert TrimStart(s) == s;
  }

  /** A leading '-' negates what the rest reads as, in either base. */
  lemma {:induction false} ParseIntNegative(d: string)
    requires d != [] && IsDigit(d[0])
    ensures ParseInt(['-'] + d) == Negated(ParseInt(d))
  {
    var s := ['-'] + d;
    assert s[0] == '-' && !IsWhitespace(s[0]);
    assert TrimStart(s) == s;
    assert s[1..] == d;
    assert TrimStart(d) == d;
  }

  /** `parseInt` reads back what `String` writes for every integer. */
  lemma {:induction false} ParseIntRoundTrip(n: int)
    ensures ParseInt(IntString(n)) == Some(n)
  {
    var m: nat := if n < 0 then -n else n;
    var d := Decimal(m);
    DecimalRoundTrip(m);
    LeadingDigitsAll(d);
    assert !HexPrefixed(d);
    assert UnsignedPrefix(d) == Some(m);
    ParseIntUnsigned(d);
    if n < 0 {
      ParseIntNegative(d);
    }
  }

  /** The leading run of digits ends at the first character that is not a digit. */
  lemma {:induction false} LeadingDigitsBefore(d: string, tail: string)
    requires AllDigits(d)
    requires tail == [] || !IsDigit(tail[0])
    ensures LeadingDigits(d + tail) == d
  {
    if d == [] {
      assert d + tail == tail;
    } else {
      assert (d + tail)[1..] == d[1..] + tail;
      LeadingDigitsBefore(d[1..], tail);
      assert d == [d[0]] + d[1..];
    }
  }

  /** `parseInt` stops at the first character that is not a digit, unless the text is a
      lone "0" followed by 'x' or 'X', which starts a hexadecimal number. */
  lemma {:induction false} ParseIntStopsAtNonDigit(d: string, tail: string)
    requires |d| >= 1 && AllDigits(d)
    requires tail == [] || !IsDigit(tail[0])
    ensures !HexPrefixed(d + tail) ==> ParseInt(d + tail) == Some(DigitsValue(d))
    ensures HexPrefixed(d + tail) ==> d == "0" && ParseInt(d + tail) == HexPrefix(tail[1..])
  {
    var s := d + tail;
    assert s[0] == d[0];
    ParseIntUnsigned(s);
    LeadingDigitsBefore(d, tail);
    if HexPrefixed(s) {
      assert |d| == 1 by { assert !IsDigit(s[1]); }
      assert s[2..] == tail[1..];
    }
  }

  // ---------------------------------------------------------------------------------------
  // hexadecimal numbers

  predicate IsHexDigit(c: char) {
    IsDigit(c) || 'a' <= c <= 'f' || 'A' <= c <= 'F'
  }

  predicate AllHexDigits(s: string) {
    forall i :: 0 <= i < |s| ==> IsHexDigit(s[i])
  }

  /** The value of one hexadecimal digit; letters of either case count from ten. */
  function HexDigitValue(c: char): (d: nat)
    requires IsHexDigit(c)
    ensures d < 16
    ensures IsDigit(c) ==> d == DigitValue(c)
    ensures !IsDigit(c) ==> d >= 10
  {
    if IsDigit(c) then DigitValue(c)
    else if 'a' <= c <= 'f' then (c as int - 'a' as int + 10) as nat
    else (c as int - 'A' as int + 10) as nat
  }

  /** The value of a string of hexadecimal digits, most significant first. */
  function HexValue(s: string): (n: nat)
    requires AllHexDigits(s)
  {
    if s == [] then 0 else HexValue(s[..|s| - 1]) * 16 + HexDigitValue(s[|s| - 1])
  }

  /** The longest prefix of `s` made of hexadecimal digits. */
  function LeadingHexDigits(s: string): (r: string)
    ensures |r| <= |s| && r == s[..|r|] && AllHexDigits(r)
    ensures |r| < |s| ==> !IsHexDigit(s[|r|])
  {
    if s == [] || !IsHexDigit(s[0]) then []
    else
      var rest := LeadingHexDigits(s[1..]);
      assert ([s[0]] + rest)[1..] == rest;
      [s[0]] + rest
  }

  /** The value of the leading run of hexadecimal digits, `None` when there is none. */
  function HexPrefix(s: string): (r: Option<int>)
    ensures r.Some? ==> r.value >= 0
  {
    var digits := LeadingHexDigits(s);
    if digits == [] then None else Some(HexValue(digits))
  }

  /** The leading hexadecimal run ends at the first character that is not a hex digit. */
  lemma {:induction false} LeadingHexDigitsBefore(h: string, tail: string)
    requires AllHexDigits(h)
    requires tail == [] || !IsHexDigit(tail[0])
    ensures LeadingHexDigits(h + tail) == h
  {
    if h == [] {
      assert h + tail == tail;
    } else {
      assert (h + tail)[1..] == h[1..] + tail;
      LeadingHexDigitsBefore(h[1..], tail);
      assert h == [h[0]] + h[1..];
    }
  }

  /** After "0x" or "0X", `parseInt` reads hexadecimal digits up to the first character
      that is not one. */
  lemma {:induction false} ParseIntHex(x: char, h: string, tail: string)
    requires x == 'x' || x == 'X'
    requires |h| >= 1 && AllHexDigits(h)
    requires tail == [] || !IsHexDigit(tail[0])
    ensures ParseInt(['0', x] + h + tail) == Some(HexValue(h))
  {
    var s := ['0', x] + h + tail;
    assert HexPrefixed(s);
    ParseIntUnsigned(s);
    assert s[2..] == h + tail;
    LeadingHexDigitsBefore(h, tail);
  }

  /** A "0x" with no hexadecimal digit after it is NaN, not zero. */
  lemma {:induction false} ParseIntHexWithoutDigits(x: char, tail: string)
    requires x == 'x' || x == 'X'
    requires tail == [] || !IsHexDigit(tail[0])
    ensures ParseInt(['0', x] + tail).None?
  {
    var s := ['0', x] + tail;
    ParseIntUnsigned(s);
    assert s[2..] == tail;
  }

  /** "0x1A" is 26 and "0X1f" is 31. */
  lemma {:induction false} ParseIntHexExamples()
    ensures ParseInt("0x1A") == Some(26)
    ensures ParseInt("0X1f") == Some(31)
  {
    assert "0x1A" == ['0', 'x'] + "1A" + [];
    assert HexValue("1A") == 26 by { assert "1A"[..1] == "1"; }
    ParseIntHex('x', "1A", []);
    assert "0X1f" == ['0', 'X'] + "1f" + [];
    assert HexValue("1f") == 31 by { assert "1f"[..1] == "1"; }
    ParseIntHex('X', "1f", []);
  }

  /** A '-' in front of "0x" negates the hexadecimal number that follows. */
  lemma {:induction false} ParseIntNegativeHex(x: char, h: string, tail: string)
    requires x == 'x' || x == 'X'
    requires |h| >= 1 && AllHexDigits(h)
    requires tail == [] || !IsHexDigit(tail[0])
    ensures ParseInt(['-', '0', x] + h + tail) == Some(-(HexValue(h) as int))
  {
    var s := ['-', '0', x] + h + tail;
    var d := ['0', x] + h + tail;
    assert s == ['-'] + d;
    ParseIntHex(x, h, tail);
    ParseIntNegative(d);
  }

  /** "-0x1" is -1. */
  lemma {:induction false} ParseIntSignedHexExample()
    ensures ParseInt("-0x1") == Some(-1)
  {
    assert "-0x1" == ['-', '0', 'x'] + "1" + [];
    ParseIntNegativeHex('x', "1", []);
  }

  /** "0xg" is NaN. */
  lemma {:induction false} ParseIntEmptyHexExample()
    ensures ParseInt("0xg").None?
  {
    assert "0xg" == ['0', 'x'] + "g";
    ParseIntHexWithoutDigits('x', "g");
  }

  // ---------------------------------------------------------------------------------------
  // split on one separator character

  /** The index of the first occurrence of `c` in `s`. */
  function FirstIndex(s: string, c: char): (i: nat)
    requires c in s
    ensures i < |s| && s[i] == c && c !in s[..i]
  {
    if s[0] == c then 0 else 1 + FirstIndex(s[1..], c)
  }

  /** `s.split(c)` for a one-character separator: the pieces between the separators, in order. */
  function Split(s: string, c: char): (r: seq<string>)
    ensures |r| >= 1
    ensures forall k :: 0 <= k < |r| ==> c !in r[k]
    decreases |s|
  {
    if c !in s then [s]
    else
      var i := FirstIndex(s, c);
      [s[..i]] + Split(s[i + 1..], c)
  }

  /** `pieces.join(c)`. */
  function Join(pieces: seq<string>, c: char): (r: string)
    requires |pieces| >= 1
  {
    if |pieces| == 1 then pieces[0] else pieces[0] + [c] + Join(pieces[1..], c)
  }

  /** Splitting and joining again on the same separator gives back the original string. */
  lemma {:induction false} SplitJoin(s: string, c: char)
    ensures Join(Split(s, c), c) == s
    decreases |s|
  {
    if c in s {
      var i := FirstIndex(s, c);
      var rest := Split(s[i + 1..], c);
      var pieces := [s[..i]] + rest;
      assert Split(s, c) == pieces;
      assert pieces[0] == s[..i] && pieces[1..] == rest;
      SplitJoin(s[i + 1..], c);
      assert Join(pieces, c) == s[..i] + [c] + s[i + 1..];
      assert s == s[..i] + [c] + s[i + 1..];
    }
  }

  /** The last piece of `s.split(c)`, i.e. what `pop()` returns. */
  function LastPiece(s: string, c: char): (r: string)
  {
    var pieces := Split(s, c);
    pieces[|pieces| - 1]
  }

  /** The last piece holds no separator and ends `s`; when `s` holds the separator it is the
      text after the last one, otherwise it is all of `s`. */
  lemma {:induction false} LastPieceIsSuffix(s: string, c: char)
    ensures var r := LastPiece(s, c);
      && c !in r && |r| <= |s| && s[|s| - |r|..] == r
      && (c in s ==> |r| < |s| && s[|s| - |r| - 1] == c)
      && (c !in s ==> r == s)
    decreases |s|
  {
    if c in s {
      var i := FirstIndex(s, c);
      var rest := s[i + 1..];
      LastPieceIsSuffix(rest, c);
      assert LastPiece(s, c) == LastPiece(rest, c);
    }
  }

  /** The position of the first occurrence of `c` in `p + [c] + r` is `|p|` when `p` does
      not hold `c`. */
  lemma {:induction false} FirstIndexAfterPrefix(p: string, c: char, r: string)
    requires c !in p
    ensures c in p + [c] + r && FirstIndex(p + [c] + r, c) == |p|
  {
    var s := p + [c] + r;
    assert s[|p|] == c;
    var i := FirstIndex(s, c);
    assert forall j :: 0 <= j < |p| ==> s[j] == p[j];
  }

  /** The last `c`-piece of `p + [c] + r` is `r` when `r` does not hold `c`. */
  lemma {:induction false} LastPieceAfterSeparator(p: string, c: char, r: string)
    requires c !in r
    ensures LastPiece(p + [c] + r, c) == r
  {
    var s := p + [c] + r;
    var x := LastPiece(s, c);
    LastPieceIsSuffix(s, c);
    assert c in s by { assert s[|p|] == c; }
    assert forall j :: |p| < j < |s| ==> s[j] == r[j - |p| - 1];
    assert forall j :: |s| - |x| <= j < |s| ==> s[j] == x[j - |s| + |x|];
    assert forall k :: 0 <= k < |x| ==> x[k] != c;
    assert forall k :: 0 <= k < |r| ==> r[k] != c;
    assert s[|p|] == c;
    assert |x| <= |r|;
    assert |x| >= |r|;
    assert s[|s| - |r|..] == r;
  }

  // ---------------------------------------------------------------------------------------
  // prefix, substring, case folding

  predicate StartsWith(s: string, prefix: string) {
    |prefix| <= |s| && s[..|prefix|] == prefix
  }

  predicate OccursAt(s: string, sub: string, i: int) {
    0 <= i <= |s| - |sub| && s[i..i + |sub|] == sub
  }

  /** `s.includes(sub)`. */
  predicate Contains(s: string, sub: string) {
    exists i | 0 <= i <= |s| - |sub| :: OccursAt(s, sub, i)
  }

  /** `toLowerCase` on one character, for the ASCII capitals and the Latin-1 capitals
      (U+00C0 to U+00DE, except the multiplication sign U+00D7). */
  function LowerChar(c: char): (r: char)
    ensures ('A' <= c <= 'Z') ==> r as int == c as int + 32
    ensures ('\U{C0}' <= c <= '\U{DE}' && c != '\U{D7}') ==> r as int == c as int + 32
    ensures !('A' <= c <= 'Z') && !('\U{C0}' <= c <= '\U{DE}' && c != '\U{D7}') ==> r == c
  {
    if 'A' <= c <= 'Z' || ('\U{C0}' <= c <= '\U{DE}' && c != '\U{D7}') then
      (c as int + 32) as char
    else c
  }

  function Lower(s: string): (r: string)
    ensures |r| == |s| && forall i :: 0 <= i < |s| ==> r[i] == LowerChar(s[i])
  {
    seq(|s|, i requires 0 <= i < |s| => LowerChar(s[i]))
  }

  // ---------------------------------------------------------------------------------------
  // string order

  /** The order `<` uses on two strings: compare character codes from the left; a proper
      prefix comes first. */
  predicate Less(a: string, b: string)
    decreases |a|
  {
    if a == [] then b != []
    else if b == [] then false
    else if a[0] != b[0] then a[0] < b[0]
    else Less(a[1..], b[1..])
  }

  lemma {:induction false} LessIrreflexive(a: string)
    ensures !Less(a, a)
    decreases |a|
  {
    if a != [] { LessIrreflexive(a[1..]); }
  }

  lemma {:induction false} LessAsymmetric(a: string, b: string)
    requires Less(a, b)
    ensures !Less(b, a)
    decreases |a|
  {
    if a != [] && b != [] && a[0] == b[0] { LessAsymmetric(a[1..], b[1..]); }
  }

  lemma {:induction false} LessTransitive(a: string, b: string, c: string)
    requires Less(a, b) && Less(b, c)
    ensures Less(a, c)
    decreases |a|
  {
    if a != [] && a[0] == b[0] && b[0] == c[0] { LessTransitive(a[1..], b[1..], c[1..]); }
  }

  /** Two different strings are always ordered one way or the other. */
  lemma {:induction false} LessTotal(a: string, b: string)
    requires a != b
    ensures Less(a, b) || Less(b, a)
    decreases |a|
  {
    if a != [] && b != [] && a[0] == b[0] {
      assert a == [a[0]] + a[1..] && b == [b[0]] + b[1..];
      LessTotal(a[1..], b[1..]);
    }
  }
}
