/** Decimal integer literals as CPython's `int(s)` reads them and `str(n)`
    writes them: surrounding whitespace is ignored, one optional sign, then
    ASCII digits with single underscores allowed between digits, at most
    4300 of them. */
module Numerals {
  import opened Wrappers
  import opened Text

  /** The whitespace `int()` skips around a literal: the ASCII space, tab,
      line feed, vertical tab, form feed and carriage return, and every
      non-ASCII `str.isspace()` character (which `int()` first turns into a
      space). The ASCII separators U+001C..U+001F are `str.isspace()` but are
      not skipped. */
  predicate IsIntSpace(c: char) {
    IsSpace(c) && !('\U{1c}' <= c <= '\U{1f}')
  }

  /** CPython's default limit on the digits of a decimal conversion
      (`sys.int_info.default_max_str_digits`); `int()` and `str()` raise
      ValueError beyond it. */
  const MaxStrDigits: nat := 4300

  predicate IsDigit(c: char) {
    '0' <= c <= '9'
  }

  function DigitValue(c: char): nat
    requires IsDigit(c)
  {
    (c as int) - ('0' as int)
  }

  function DigitChar(d: nat): (c: char)
    requires d < 10
    ensures IsDigit(c) && DigitValue(c) == d
  {
    ('0' as int + d) as char
  }

  /** The digit part of a literal: digits, where an underscore may stand
      between two digits (so no leading, trailing or doubled underscore). */
  predicate IsDigitGroup(s: string) {
    && |s| > 0
    && IsDigit(s[0])
    && IsDigit(s[|s| - 1])
    && (forall i :: 0 <= i < |s| ==> IsDigit(s[i]) || s[i] == '_')
    && (forall i :: 0 <= i < |s| - 1 && s[i] == '_' ==> IsDigit(s[i + 1]))
  }

  /** The digits of `s` in order, underscores dropped. */
  function Digits(s: string): (r: string)
    ensures |r| <= |s|
    ensures (forall i :: 0 <= i < |s| ==> IsDigit(s[i])) ==> r == s
  {
    if s == [] then []
    else if s[|s| - 1] == '_' then Digits(s[..|s| - 1])
    else Digits(s[..|s| - 1]) + [s[|s| - 1]]
  }

  /** The value of a string of decimal digits, most significant first. */
  function Value(s: string): nat
    requires forall i :: 0 <= i < |s| ==> IsDigit(s[i])
  {
    if s == [] then 0 else 10 * Value(s[..|s| - 1]) + DigitValue(s[|s| - 1])
  }

  lemma DigitsAreDigits(s: string)
    requires forall i :: 0 <= i < |s| ==> IsDigit(s[i]) || s[i] == '_'
    ensures forall i :: 0 <= i < |Digits(s)| ==> IsDigit(Digits(s)[i])
  {
    if s != [] {
      DigitsAreDigits(s[..|s| - 1]);
    }
  }

  /** The magnitude written by an unsigned literal, if it is one and its
      digits (underscores not counted) are within the limit. */
  function ParseUnsigned(body: string): (r: Option<nat>)
    ensures r.Some? <==> IsDigitGroup(body) && |Digits(body)| <= MaxStrDigits
  {
    if IsDigitGroup(body) && |Digits(body)| <= MaxStrDigits then
      DigitsAreDigits(body);
      Some(Value(Digits(body)))
    else None
  }

  /** The value of an already stripped literal with an optional sign. */
  function ParseSigned(t: string): (r: Option<int>)
    ensures r.Some? <==> (if |t| > 0 && (t[0] == '-' || t[0] == '+') then ParseUnsigned(t[1..]).Some?
                          else ParseUnsigned(t).Some?)
  {
    if |t| > 0 && (t[0] == '-' || t[0] == '+') then
      match ParseUnsigned(t[1..])
      case Some(m) => Some(if t[0] == '-' then -(m as int) else m)
      case None => None
    else
      match ParseUnsigned(t)
      case Some(m) => Some(m)
      case None => None
  }

  /** Python's `int(s)` for base 10: None where Python raises ValueError. */
  function ParseInt(s: string): Option<int> {
    ParseSigned(StripBy(s, IsIntSpace))
  }

  /** Python's `str(n)` for a non-negative integer. */
  function FormatNat(n: nat): (s: string)
    ensures |s| > 0
    ensures forall i :: 0 <= i < |s| ==> IsDigit(s[i])
  {
    if n < 10 then [DigitChar(n)] else FormatNat(n / 10) + [DigitChar(n % 10)]
  }

  /** Python's `str(n)`. */
  function FormatInt(n: int): string {
    if n < 0 then "-" + FormatNat(-n) else FormatNat(n)
  }

  lemma {:induction false} ValueOfFormat(n: nat)
    ensures Value(FormatNat(n)) == n
  {
    if n >= 10 {
      var s := FormatNat(n);
      assert s[..|s| - 1] == FormatNat(n / 10);
      ValueOfFormat(n / 10);
    }
  }

  /** The number of decimal digits `str` writes for the magnitude of `n`. */
  function DigitCount(n: int): nat {
    |FormatNat(if n < 0 then -n else n)|
  }

  /** Reading back what `str` wrote gives the same integer: a dimension
      written as `str(n)` is accepted by `int()` as `n`. Beyond the digit
      limit `str(n)` itself raises, so there is nothing to read back. */
  lemma ParseFormatRoundTrip(n: int)
    requires DigitCount(n) <= MaxStrDigits
    ensures ParseInt(FormatInt(n)) == Some(n)
  {
    FormatIsStripped(n);
    SignedRoundTrip(n);
  }

  lemma SignedRoundTrip(n: int)
    requires DigitCount(n) <= MaxStrDigits
    ensures ParseSigned(FormatInt(n)) == Some(n)
  {
    var s := FormatInt(n);
    if n < 0 {
      var m: nat := -n;
      UnsignedRoundTrip(m);
      assert s == "-" + FormatNat(m);
      assert s[1..] == FormatNat(m);
    } else {
      var m: nat := n;
      UnsignedRoundTrip(m);
      assert s == FormatNat(m);
      assert IsDigit(s[0]);
    }
  }

  /** `str(n)` has no whitespace to strip. */
  lemma FormatIsStripped(n: int)
    ensures StripBy(FormatInt(n), IsIntSpace) == FormatInt(n)
  {
    var s := FormatInt(n);
    var digits := FormatNat(if n < 0 then -n else n);
    assert IsDigit(s[|s| - 1]) by {
      assert s[|s| - 1] == digits[|digits| - 1];
    }
    assert s[0] == '-' || IsDigit(s[0]);
    StripKeepsTrimmed(s, IsIntSpace);
  }

  lemma UnsignedRoundTrip(m: nat)
    requires |FormatNat(m)| <= MaxStrDigits
    ensures ParseUnsigned(FormatNat(m)) == Some(m)
  {
    var digits := FormatNat(m);
    ValueOfFormat(m);
    assert IsDigitGroup(digits);
    assert Digits(digits) == digits;
  }

  /** Surrounding whitespace of the kind `int()` skips does not change what
      it reads. */
  lemma ParseIgnoresSurroundingSpace(s: string, pre: string, post: string)
    requires AllIn(pre, IsIntSpace) && AllIn(post, IsIntSpace)
    ensures ParseInt(pre + s + post) == ParseInt(s)
  {
    StripAbsorbsSpace(s, pre, post, IsIntSpace);
  }

  /** A leading ASCII separator (U+001C..U+001F) is whitespace to `strip()`
      but not to `int()`: `int("\x1c768")` raises ValueError, whatever
      follows the separator. */
  lemma SeparatorRejected(c: char, rest: string)
    requires '\U{1c}' <= c <= '\U{1f}'
    ensures ParseInt([c] + rest) == None
  {
    var s := [c] + rest;
    assert !IsIntSpace(c) && !IsDigit(c) && c != '-' && c != '+';
    StripKeepsFirst(s, IsIntSpace);
    var t := StripBy(s, IsIntSpace);
    assert t[0] == c && !IsDigitGroup(t);
  }

  /** A `+` sign changes nothing. */
  lemma PlusSignIgnored(d: string)
    requires IsDigitGroup(d)
    ensures ParseSigned("+" + d) == ParseSigned(d)
  {
    assert ("+" + d)[1..] == d;
  }

  /** A `-` sign negates the value, and is accepted exactly when the digits
      are. */
  lemma MinusSignNegates(d: string)
    requires IsDigitGroup(d)
    ensures ParseSigned("-" + d).Some? <==> ParseSigned(d).Some?
    ensures ParseSigned(d).Some? ==> ParseSigned("-" + d) == Some(-ParseSigned(d).value)
  {
    assert ("-" + d)[1..] == d;
  }

  /** A leading zero changes nothing, as long as it does not push the digit
      count over the limit. */
  lemma LeadingZeroIgnored(d: string)
    requires IsDigitGroup(d) && |Digits(d)| < MaxStrDigits
    ensures ParseUnsigned("0" + d) == ParseUnsigned(d)
  {
    var z := "0" + d;
    ZeroPrefixIsDigitGroup(d);
    DigitsOfZeroPrefix(d);
    DigitsAreDigits(d);
    ValueOfLeadingZero(Digits(d));
    assert ParseUnsigned(z) == Some(Value(Digits(z)));
  }

  lemma ZeroPrefixIsDigitGroup(d: string)
    requires IsDigitGroup(d)
    ensures IsDigitGroup("0" + d)
  {
    var z := "0" + d;
    assert forall i :: 1 <= i < |z| ==> z[i] == d[i - 1];
    assert z[|z| - 1] == d[|d| - 1];
  }

  lemma DigitsOfZeroPrefix(d: string)
    ensures Digits("0" + d) == "0" + Digits(d)
  {
    DigitsAppend("0", d);
    assert "0"[..0] == [];
  }

  /** An underscore between two digit groups changes nothing. */
  lemma UnderscoreIgnored(a: string, b: string)
    requires IsDigitGroup(a) && IsDigitGroup(b)
    ensures ParseUnsigned(a + "_" + b) == ParseUnsigned(a + b)
  {
    UnderscoreJoinIsDigitGroup(a, b);
    JoinIsDigitGroup(a, b);
    DigitsAppend(a + "_", b);
    DigitsAppend(a, "_");
    DigitsAppend(a, b);
    assert "_"[..0] == [];
    assert Digits(a + "_" + b) == Digits(a + b);
  }

  lemma UnderscoreJoinIsDigitGroup(a: string, b: string)
    requires IsDigitGroup(a) && IsDigitGroup(b)
    ensures IsDigitGroup(a + "_" + b)
  {
    var u := a + "_" + b;
    assert forall i :: 0 <= i < |a| ==> u[i] == a[i];
    assert forall i :: |a| < i < |u| ==> u[i] == b[i - |a| - 1];
    forall i | 0 <= i < |u| - 1 && u[i] == '_'
      ensures IsDigit(u[i + 1])
    {
      if i < |a| - 1 {
        assert u[i + 1] == a[i + 1];
      } else if i == |a| {
        assert u[i + 1] == b[0];
      } else if i > |a| {
        assert u[i + 1] == b[i - |a|];
      }
    }
  }

  lemma JoinIsDigitGroup(a: string, b: string)
    requires IsDigitGroup(a) && IsDigitGroup(b)
    ensures IsDigitGroup(a + b)
  {
    var j := a + b;
    assert forall i :: 0 <= i < |a| ==> j[i] == a[i];
    assert forall i :: |a| <= i < |j| ==> j[i] == b[i - |a|];
    forall i | 0 <= i < |j| - 1 && j[i] == '_'
      ensures IsDigit(j[i + 1])
    {
      if i < |a| - 1 {
        assert j[i + 1] == a[i + 1];
      } else if i >= |a| {
        assert j[i + 1] == b[i - |a| + 1];
      }
    }
  }

  /** Dropping underscores works piecewise. */
  lemma {:induction false} DigitsAppend(x: string, y: string)
    ensures Digits(x + y) == Digits(x) + Digits(y)
  {
    if y == [] {
      assert x + y == x;
    } else {
      var xy := x + y;
      var y' := y[..|y| - 1];
      var last := y[|y| - 1];
      assert xy[..|xy| - 1] == x + y';
      assert xy[|xy| - 1] == last;
      DigitsAppend(x, y');
      if last == '_' {
        assert Digits(y) == Digits(y');
      } else {
        assert Digits(y) == Digits(y') + [last];
        assert Digits(xy) == Digits(x + y') + [last];
      }
    }
  }

  lemma {:induction false} ValueOfLeadingZero(s: string)
    requires forall i :: 0 <= i < |s| ==> IsDigit(s[i])
    ensures Value("0" + s) == Value(s)
  {
    if s == [] {
      assert ("0" + s)[..0] == [];
    } else {
      var z := "0" + s;
      assert z[..|z| - 1] == "0" + s[..|s| - 1];
      assert z[|z| - 1] == s[|s| - 1];
      ValueOfLeadingZero(s[..|s| - 1]);
    }
  }
}
