/** Python's `int(s)` / `int(s, 16)` on strings, `str(n)` and `format(n, 'X')`.
    Parsing follows CPython: surrounding whitespace is stripped, one sign is
    allowed, base 16 accepts a `0x`/`0X` prefix that may be followed by one
    underscore, and single underscores may separate digits. */
module PyInt {
  import opened Py

  /** The characters `int()` strips around a number: the ASCII space and
      `\t\n\v\f\r`, and the non-ASCII characters `str.isspace()` accepts.
      The ASCII separators U+001C..U+001F count as space for `isspace()` but
      are not stripped, so a number next to one does not parse. */
  predicate IsSpace(c: char)
  {
    var n := c as int;
    n == 0x20 || 0x09 <= n <= 0x0D || n == 0x85 || n == 0xA0
    || n == 0x1680 || 0x2000 <= n <= 0x200A || n == 0x2028 || n == 0x2029
    || n == 0x202F || n == 0x205F || n == 0x3000
  }

  /** The digit value of an ASCII letter or digit (either case), 36 for anything else. */
  function DigitValue(c: char): (d: nat)
    ensures d <= 36
  {
    if '0' <= c <= '9' then c as int - '0' as int
    else if 'a' <= c <= 'z' then c as int - 'a' as int + 10
    else if 'A' <= c <= 'Z' then c as int - 'A' as int + 10
    else 36
  }

  predicate IsDigit(c: char, base: nat)
  {
    DigitValue(c) < base
  }

  /** The upper-case digit character for `d`, as `format(d, 'X')` writes it. */
  function DigitChar(d: nat): (c: char)
    requires d < 16
    ensures DigitValue(c) == d
    ensures '0' <= c <= '9' || 'A' <= c <= 'F'
  {
    if d < 10 then ('0' as int + d) as char else ('A' as int + d - 10) as char
  }

  /** A digit as `str` and `format(_, 'X')` write it: `0`-`9` or upper-case `A`-`F`. */
  predicate UpperHexChar(c: char)
  {
    '0' <= c <= '9' || 'A' <= c <= 'F'
  }

  /** The two bases the modelled code uses. */
  predicate IsBase(base: nat)
  {
    base == 10 || base == 16
  }

  /** `n * base`, written with a literal factor for each base. */
  function Scale(n: nat, base: nat): nat
    requires IsBase(base)
  {
    if base == 10 then 10 * n else 16 * n
  }

  /** The digits of `n` in `base`, most significant first, without leading zeros. */
  function DigitsOf(n: nat, base: nat): (r: string)
    requires IsBase(base)
    ensures |r| > 0 && forall i :: 0 <= i < |r| ==> IsDigit(r[i], base)
    ensures forall i :: 0 <= i < |r| ==> UpperHexChar(r[i])
    ensures n == 0 ==> r == "0"
    ensures n > 0 ==> r[0] != '0'
    ensures |r| == 1 || r[0] != '0'
    decreases n
  {
    if n < base then [DigitChar(n)] else DigitsOf(n / base, base) + [DigitChar(n % base)]
  }

  /** The number a string of digits denotes in `base`. */
  function ValueOfDigits(s: string, base: nat): nat
    requires IsBase(base)
    requires forall i :: 0 <= i < |s| ==> IsDigit(s[i], base)
    decreases |s|
  {
    if s == [] then 0 else Scale(ValueOfDigits(s[..|s| - 1], base), base) + DigitValue(s[|s| - 1])
  }

  /** `str(n)` for base 10, `format(n, 'X')` for base 16: a minus sign for
      negative numbers, then the digits of the magnitude. */
  function FormatInt(n: int, base: nat): (r: string)
    requires IsBase(base)
    ensures |r| > 0
    ensures forall i :: 0 <= i < |r| ==> r[i] == '-' || IsDigit(r[i], base)
    ensures (r[0] == '-') <==> n < 0
    ensures forall i :: 0 < i < |r| ==> r[i] != '-'
    ensures forall i :: 0 <= i < |r| ==> r[i] == '-' || UpperHexChar(r[i])
    ensures n < 0 ==> r[1..] == DigitsOf(-n, base)
    ensures n >= 0 ==> r == DigitsOf(n, base)
  {
    if n < 0 then "-" + DigitsOf(-n, base) else DigitsOf(n, base)
  }

  function StripLeft(s: string): (r: string)
    ensures |r| <= |s|
  {
    if |s| > 0 && IsSpace(s[0]) then StripLeft(s[1..]) else s
  }

  function StripRight(s: string): (r: string)
    ensures |r| <= |s|
  {
    if |s| > 0 && IsSpace(s[|s| - 1]) then StripRight(s[..|s| - 1]) else s
  }

  /** The digit part of an integer literal: digits, where a single underscore
      may stand between two digits, or first when `leadingUnderscore` (right
      after a `0x` prefix). */
  predicate WellFormedDigits(s: string, base: nat, leadingUnderscore: bool)
  {
    |s| > 0 && forall i :: 0 <= i < |s| ==> DigitOrSeparator(s, i, base, leadingUnderscore)
  }

  predicate DigitOrSeparator(s: string, i: nat, base: nat, leadingUnderscore: bool)
    requires i < |s|
  {
    IsDigit(s[i], base) ||
    (s[i] == '_' && i + 1 < |s| && IsDigit(s[i + 1], base) &&
     (if i == 0 then leadingUnderscore else IsDigit(s[i - 1], base)))
  }

  /** The string with its underscores dropped. */
  function Ungrouped(s: string): (r: string)
    ensures |r| <= |s|
    ensures forall i :: 0 <= i < |r| ==> r[i] != '_' && r[i] in s
  {
    if s == [] then []
    else if s[0] == '_' then Ungrouped(s[1..])
    else [s[0]] + Ungrouped(s[1..])
  }

  lemma UngroupedDigits(s: string, base: nat, lead: bool)
    requires WellFormedDigits(s, base, lead)
    ensures forall i :: 0 <= i < |Ungrouped(s)| ==> IsDigit(Ungrouped(s)[i], base)
  {
    forall i | 0 <= i < |Ungrouped(s)|
      ensures IsDigit(Ungrouped(s)[i], base)
    {
      var c := Ungrouped(s)[i];
      assert c in s;
      var j :| 0 <= j < |s| && s[j] == c;
      assert DigitOrSeparator(s, j, base, lead);
    }
  }

  /** `int(s, base)` for base 10 or 16 on a string: the value, or None where
      Python raises ValueError. */
  function ParseInt(s: string, base: nat): (r: Option<int>)
    requires IsBase(base)
    ensures (forall i :: 0 <= i < |s| ==> IsSpace(s[i])) ==> r.None?
  {
    StripBlank(s);
    ParseSigned(StripRight(StripLeft(s)), base)
  }

  /** A string of whitespace only strips to nothing. */
  lemma {:induction false} StripBlank(s: string)
    ensures (forall i :: 0 <= i < |s| ==> IsSpace(s[i])) ==> StripLeft(s) == []
    decreases |s|
  {
    if |s| > 0 && forall i :: 0 <= i < |s| ==> IsSpace(s[i]) {
      assert forall i :: 0 <= i < |s[1..]| ==> IsSpace(s[1..][i]) by {
        forall i | 0 <= i < |s[1..]| ensures IsSpace(s[1..][i]) {
          assert s[1..][i] == s[i + 1];
        }
      }
      StripBlank(s[1..]);
    }
  }

  /** The stripped text: an optional sign, then the number. */
  function ParseSigned(t: string, base: nat): (r: Option<int>)
    requires IsBase(base)
  {
    if |t| > 0 && t[0] == '-' then
      match ParseUnsigned(t[1..], base)
      case Some(n) => Some(0 - n)
      case None => None
    else if |t| > 0 && t[0] == '+' then ParseUnsigned(t[1..], base)
    else ParseUnsigned(t, base)
  }

  /** The number after the sign: base 16 allows a `0x` or `0X` prefix. */
  function ParseUnsigned(u: string, base: nat): (r: Option<nat>)
    requires IsBase(base)
  {
    if base == 16 && |u| >= 2 && u[0] == '0' && (u[1] == 'x' || u[1] == 'X') then
      ParseDigits(u[2..], base, true)
    else
      ParseDigits(u, base, false)
  }

  function ParseDigits(body: string, base: nat, leadingUnderscore: bool): (r: Option<nat>)
    requires IsBase(base)
  {
    if WellFormedDigits(body, base, leadingUnderscore) then
      UngroupedDigits(body, base, leadingUnderscore);
      Some(ValueOfDigits(Ungrouped(body), base))
    else
      None
  }

  /** Reading back the digits of `n` gives `n`. */
  lemma {:induction false} ValueOfDigitsOf(n: nat, base: nat)
    requires IsBase(base)
    ensures ValueOfDigits(DigitsOf(n, base), base) == n
    decreases n
  {
    if n < base {
      assert DigitsOf(n, base)[..0] == [];
    } else {
      var q, d := n / base, n % base;
      var ds := DigitsOf(q, base) + [DigitChar(d)];
      assert DigitsOf(n, base) == ds;
      assert ValueOfDigits(ds, base) == Scale(q, base) + d by {
        ValueOfDigitsOf(q, base);
        ValueOfDigitsSnoc(DigitsOf(q, base), DigitChar(d), base);
      }
    }
  }

  lemma ValueOfDigitsSnoc(a: string, c: char, base: nat)
    requires IsBase(base)
    requires forall i :: 0 <= i < |a| ==> IsDigit(a[i], base)
    requires IsDigit(c, base)
    ensures ValueOfDigits(a + [c], base) == Scale(ValueOfDigits(a, base), base) + DigitValue(c)
  {
    assert (a + [c])[..|a|] == a;
  }

  lemma UngroupedPlain(s: string)
    requires forall i :: 0 <= i < |s| ==> s[i] != '_'
    ensures Ungrouped(s) == s
  {
  }

  /** A non-empty run of digits parses to the number it denotes, leading
      zeros included. */
  lemma ParseDigitString(ds: string, base: nat)
    requires IsBase(base)
    requires |ds| > 0 && forall i :: 0 <= i < |ds| ==> IsDigit(ds[i], base)
    ensures ParseInt(ds, base) == Some(ValueOfDigits(ds, base))
  {
    NoSpaceAtEnds(ds);
    assert ParseUnsigned(ds, base) == Some(ValueOfDigits(ds, base)) by {
      ParseDigitsPlain(ds, base);
    }
  }

  lemma ParseDigitsPlain(ds: string, base: nat)
    requires IsBase(base)
    requires |ds| > 0 && forall i :: 0 <= i < |ds| ==> IsDigit(ds[i], base)
    ensures ParseUnsigned(ds, base) == Some(ValueOfDigits(ds, base))
  {
    assert !IsDigit('x', base) && !IsDigit('X', base);
    assert WellFormedDigits(ds, base, false) by {
      forall i | 0 <= i < |ds| ensures DigitOrSeparator(ds, i, base, false) {}
    }
    UngroupedPlain(ds);
  }

  /** `int(format(n, 'X'), 16) == n` and `int(str(n)) == n` for every integer. */
  lemma FormatIntParses(n: int, base: nat)
    requires IsBase(base)
    ensures ParseInt(FormatInt(n, base), base) == Some(n)
  {
    var m: nat := if n < 0 then -n else n;
    ValueOfDigitsOf(m, base);
    if n >= 0 {
      ParseDigitString(DigitsOf(m, base), base);
    } else {
      var s := FormatInt(n, base);
      assert s[1..] == DigitsOf(m, base);
      ParseNegative(s, base);
    }
  }

  /** A minus sign followed by digits parses to the negated value. */
  lemma ParseNegative(s: string, base: nat)
    requires IsBase(base)
    requires |s| > 1 && s[0] == '-' && forall i :: 1 <= i < |s| ==> IsDigit(s[i], base)
    ensures ParseInt(s, base) == Some(0 - ValueOfDigits(s[1..], base))
  {
    var ds := s[1..];
    assert forall i :: 0 <= i < |ds| ==> IsDigit(ds[i], base) by {
      forall i | 0 <= i < |ds| ensures IsDigit(ds[i], base) {
        assert ds[i] == s[i + 1];
      }
    }
    ParseDigitsPlain(ds, base);
    DigitNotSpace(s[|s| - 1], base);
    ParseMinus(s, base, ValueOfDigits(ds, base));
  }

  /** A minus sign, then text that parses to `v`, with nothing to strip. */
  lemma ParseMinus(t: string, base: nat, v: nat)
    requires IsBase(base)
    requires |t| > 0 && t[0] == '-' && !IsSpace(t[|t| - 1])
    requires ParseUnsigned(t[1..], base) == Some(v)
    ensures ParseInt(t, base) == Some(0 - v)
  {
    NoSpaceAtEnds(t);
  }

  lemma DigitNotSpace(c: char, base: nat)
    requires IsBase(base) && IsDigit(c, base)
    ensures !IsSpace(c)
  {
  }

  /** A string that neither starts nor ends with whitespace is not stripped. */
  lemma NoSpaceAtEnds(s: string)
    requires |s| > 0 && !IsSpace(s[0]) && !IsSpace(s[|s| - 1])
    ensures StripRight(StripLeft(s)) == s
  {
  }

  /** `int()` strips ordinary whitespace around the digits: `int('\t5 ')` is 5. */
  lemma StripsWhitespace()
    ensures ParseInt("\t5 ", 10) == Some(5)
  {
    assert StripLeft("\t5 ") == "5 " by {
      assert "\t5 "[1..] == "5 ";
    }
    assert StripRight("5 ") == "5" by {
      assert "5 "[..1] == "5";
    }
    ParseOneChar('5');
  }

  /** The ASCII separators U+001C..U+001F are not stripped: `int('\x1c5')`,
      `int('5\x1f')` and `int('\x1c5', 16)` raise ValueError. */
  lemma SeparatorsNotStripped()
    ensures ParseInt("\U{1C}5", 10) == None
    ensures ParseInt("5\U{1F}", 10) == None
    ensures ParseInt("\U{1C}5", 16) == None
  {
    assert ParseInt("\U{1C}5", 10) == None by {
      assert !DigitOrSeparator("\U{1C}5", 0, 10, false);
    }
    assert ParseInt("5\U{1F}", 10) == None by {
      assert !DigitOrSeparator("5\U{1F}", 1, 10, false);
    }
    assert ParseInt("\U{1C}5", 16) == None by {
      assert !DigitOrSeparator("\U{1C}5", 0, 16, false);
    }
  }

  /** A one-character string parses in base 10 exactly when it is an ASCII
      digit, to that digit's value. */
  lemma ParseOneChar(c: char)
    ensures ParseInt([c], 10) == if '0' <= c <= '9' then Some(c as int - '0' as int) else None
  {
    if IsSpace(c) {
      assert StripLeft([c]) == StripLeft([c][1..]);
      assert [c][1..] == [];
    } else {
      assert StripLeft([c]) == [c];
      assert StripRight([c]) == [c];
      if '0' <= c <= '9' {
        ParseDigitString([c], 10);
        assert [c][..0] == [];
      } else if c == '-' || c == '+' {
        assert [c][1..] == [];
      } else {
        assert !DigitOrSeparator([c], 0, 10, false);
      }
    }
  }

  /** `base` to the power `k`. */
  function Pow(base: nat, k: nat): (r: nat)
    requires IsBase(base)
    ensures r >= 1
  {
    if k == 0 then 1 else Scale(Pow(base, k - 1), base)
  }

  lemma {:induction false} PowMonotone(base: nat, j: nat, k: nat)
    requires IsBase(base) && j <= k
    ensures Pow(base, j) <= Pow(base, k)
    decreases k
  {
    if j < k {
      PowMonotone(base, j, k - 1);
    }
  }

  /** `k` digits denote less than `base` to the power `k`. */
  lemma {:induction false} ValueOfDigitsBound(s: string, base: nat)
    requires IsBase(base)
    requires forall i :: 0 <= i < |s| ==> IsDigit(s[i], base)
    ensures ValueOfDigits(s, base) < Pow(base, |s|)
    decreases |s|
  {
    if s != [] {
      ValueOfDigitsBound(s[..|s| - 1], base);
    }
  }

  /** `int(s, base)` of a string of `k` characters lies strictly between
      minus `base` to the power `k - 1` (one character is the sign) and
      `base` to the power `k`. */
  lemma ParseIntBound(s: string, base: nat)
    requires IsBase(base)
    requires ParseInt(s, base).Some?
    ensures ParseInt(s, base).value < Pow(base, |s|)
    ensures |s| > 0 && ParseInt(s, base).value + Pow(base, |s| - 1) > 0
  {
    var t := StripRight(StripLeft(s));
    assert ParseInt(s, base) == ParseSigned(t, base);
    ParseSignedBound(t, base);
    PowMonotone(base, |t|, |s|);
    PowMonotone(base, |t| - 1, |s| - 1);
  }

  lemma ParseSignedBound(t: string, base: nat)
    requires IsBase(base)
    requires ParseSigned(t, base).Some?
    ensures ParseSigned(t, base).value < Pow(base, |t|)
    ensures |t| > 0 && ParseSigned(t, base).value + Pow(base, |t| - 1) > 0
  {
    if |t| > 0 && (t[0] == '-' || t[0] == '+') {
      ParseUnsignedBound(t[1..], base);
      PowMonotone(base, |t| - 1, |t|);
    } else {
      ParseUnsignedBound(t, base);
      PowMonotone(base, |t| - 1, |t|);
    }
  }

  lemma ParseUnsignedBound(u: string, base: nat)
    requires IsBase(base)
    requires ParseUnsigned(u, base).Some?
    ensures |u| > 0 && ParseUnsigned(u, base).value < Pow(base, |u|)
  {
    var body := if base == 16 && |u| >= 2 && u[0] == '0' && (u[1] == 'x' || u[1] == 'X') then u[2..] else u;
    var ds := Ungrouped(body);
    UngroupedDigits(body, base, base == 16 && |u| >= 2 && u[0] == '0' && (u[1] == 'x' || u[1] == 'X'));
    ValueOfDigitsBound(ds, base);
    PowMonotone(base, |ds|, |u|);
  }

  /** `int(s, base)` as Python evaluates it on a string: the number, or
      ValueError. */
  function ParseStr(s: string, base: nat): (r: Result<int>)
    requires IsBase(base)
    ensures r.Ok? <==> ParseInt(s, base).Some?
    ensures r.Ok? ==> r.value == ParseInt(s, base).value
    ensures r.Raise? ==> r.error == ValueError
  {
    match ParseInt(s, base)
    case Some(n) => Ok(n)
    case None => Raise(ValueError)
  }

  /** `int(v)` on a value from a reply: numbers convert (a float truncates
      toward zero, a bool is 0 or 1), strings parse in base 10, and `None`
      or a list raises TypeError. */
  function IntOf(v: Value): (r: Result<int>)
    ensures v.Int? ==> r == Ok(v.i)
    ensures v.Bool? ==> r == Ok(if v.b then 1 else 0)
    ensures v.Float? && v.x >= 0.0 ==> r.Ok? && r.value as real <= v.x < r.value as real + 1.0
    ensures v.Float? && v.x < 0.0 ==> r.Ok? && r.value as real - 1.0 < v.x <= r.value as real
    ensures v.Str? ==> r == ParseStr(v.s, 10)
    ensures (v.Null? || v.List?) <==> r == Raise(TypeError)
  {
    match v
    case Int(i) => Ok(i)
    case Bool(b) => Ok(if b then 1 else 0)
    case Float(x) => Ok(if x >= 0.0 then x.Floor else -((-x).Floor))
    case Str(s) => ParseStr(s, 10)
    case _ => Raise(TypeError)
  }

  /** `int(v, 16)`: with an explicit base only a string is accepted. */
  function IntOfHex(v: Value): (r: Result<int>)
    ensures v.Str? ==> r == ParseStr(v.s, 16)
    ensures !v.Str? <==> r == Raise(TypeError)
  {
    match v
    case Str(s) => ParseStr(s, 16)
    case _ => Raise(TypeError)
  }
}
