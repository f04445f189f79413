/**
 The two pieces of JavaScript string behaviour the application relies on:
 `String.prototype.trim`, used by the chat input's send gate, and
 `Number.prototype.toFixed(2)`, used by the edge function's confirmation
 messages. Amounts are integer cents, so `toFixed(2)` is exact here.
 */
module Text {
  import opened Wrappers

  /** The characters `trim` removes: the WhiteSpace and LineTerminator
      productions of ECMA-262 (sections 12.2 and 12.3), i.e. tab, line feed,
      vertical tab, form feed, carriage return, the Unicode space separators,
      the line and paragraph separators and the byte-order mark. */
  predicate IsSpace(c: char) {
    var n := c as int;
    || (0x09 <= n <= 0x0D)
    || n == 0x20 || n == 0xA0 || n == 0x1680
    || (0x2000 <= n <= 0x200A)
    || n == 0x2028 || n == 0x2029 || n == 0x202F || n == 0x205F
    || n == 0x3000 || n == 0xFEFF
  }

  /** Every character of `s` from `lo` up to (not including) `hi` is white space. */
  predicate SpaceBetween(s: string, lo: int, hi: int)
    requires 0 <= lo && hi <= |s|
  {
    forall m :: lo <= m < hi ==> IsSpace(s[m])
  }

  /** True when `s` holds at least one character `trim` keeps. */
  predicate HasVisible(s: string) {
    exists i :: 0 <= i < |s| && !IsSpace(s[i])
  }

  /** `s` starts and ends with a character `trim` keeps (or is empty). */
  predicate Trimmed(s: string) {
    |s| == 0 || (!IsSpace(s[0]) && !IsSpace(s[|s| - 1]))
  }

  /** The first position at or after `i` that `trim` keeps, or `|s|`. */
  function StartFrom(s: string, i: nat): (k: nat)
    requires i <= |s|
    ensures i <= k <= |s|
    ensures SpaceBetween(s, i, k)
    ensures k < |s| ==> !IsSpace(s[k])
    decreases |s| - i
  {
    if i == |s| || !IsSpace(s[i]) then i else StartFrom(s, i + 1)
  }

  /** The position just after the last character in `[lo, j)` that `trim`
      keeps, or `lo`. */
  function EndBefore(s: string, lo: nat, j: nat): (k: nat)
    requires lo <= j <= |s|
    ensures lo <= k <= j
    ensures SpaceBetween(s, k, j)
    ensures k > lo ==> !IsSpace(s[k - 1])
    decreases j
  {
    if j == lo || !IsSpace(s[j - 1]) then j else EndBefore(s, lo, j - 1)
  }

  /** `String.prototype.trim`: `s` is white space, then the result, then
      white space, and the result neither starts nor ends with white space. */
  function Trim(s: string): (r: string)
    ensures Trimmed(r)
    ensures exists i, j :: 0 <= i <= j <= |s| && r == s[i..j] && SpaceBetween(s, 0, i) && SpaceBetween(s, j, |s|)
    ensures r == [] <==> !HasVisible(s)
  {
    var i := StartFrom(s, 0);
    var j := EndBefore(s, i, |s|);
    assert j == i ==> SpaceBetween(s, 0, |s|);
    s[i..j]
  }

  /** Trimming is idempotent. */
  lemma TrimIdempotent(s: string)
    ensures Trim(Trim(s)) == Trim(s)
  {
    var r := Trim(s);
    if |r| > 0 {
      assert StartFrom(r, 0) == 0;
      assert EndBefore(r, 0, |r|) == |r|;
      assert r[0..|r|] == r;
    }
  }

  // ---------------------------------------------------------------------
  // toFixed(2) on integer cents, and its inverse

  predicate IsDigit(c: char) {
    '0' <= c <= '9'
  }

  function DigitChar(d: nat): (c: char)
    requires d < 10
    ensures IsDigit(c) && (c as int) - ('0' as int) == d
  {
    ((('0' as int) + d) as char)
  }

  function DigitValue(c: char): int
  {
    (c as int) - ('0' as int)
  }

  /** Decimal numeral of `n` without leading zeros. */
  function Numeral(n: nat): (s: string)
    ensures |s| > 0
    ensures forall i :: 0 <= i < |s| ==> IsDigit(s[i])
    ensures s[0] == '0' <==> n == 0
    ensures n == 0 ==> s == "0"
  {
    if n < 10 then [DigitChar(n)] else Numeral(n / 10) + [DigitChar(n % 10)]
  }

  /** Value of a string of decimal digits, read left to right. */
  function NumeralValue(s: string): int
  {
    if |s| == 0 then 0 else NumeralValue(s[..|s| - 1]) * 10 + DigitValue(s[|s| - 1])
  }

  lemma {:induction false} NumeralRoundTrip(n: nat)
    ensures NumeralValue(Numeral(n)) == n
  {
    if n >= 10 {
      var s := Numeral(n);
      assert s[..|s| - 1] == Numeral(n / 10);
      NumeralRoundTrip(n / 10);
    }
  }

  /** `(cents / 100).toFixed(2)`: an optional minus sign, the integer part,
      a dot and exactly two digits of cents. */
  function FormatCents(cents: int): (s: string)
    ensures |s| >= 4 && s[|s| - 3] == '.'
    ensures IsDigit(s[|s| - 2]) && IsDigit(s[|s| - 1])
    ensures (s[0] == '-') <==> cents < 0
    ensures var k := if cents < 0 then 1 else 0;
      k < |s| - 3 && (forall i :: k <= i < |s| - 3 ==> IsDigit(s[i])) && (s[k] == '0' ==> k + 1 == |s| - 3)
  {
    var m: nat := if cents < 0 then -cents else cents;
    (if cents < 0 then "-" else "") + Numeral(m / 100) + "." + [DigitChar(m / 10 % 10), DigitChar(m % 10)]
  }

  predicate AllDigits(s: string) {
    forall i :: 0 <= i < |s| ==> IsDigit(s[i])
  }

  /** Reads back an unsigned amount: digits, a dot and exactly two digits. */
  function ParseUnsignedCents(s: string): (r: Option<int>)
  {
    if |s| < 4 || s[|s| - 3] != '.' || !IsDigit(s[|s| - 2]) || !IsDigit(s[|s| - 1]) || !AllDigits(s[..|s| - 3]) then None
    else Some(NumeralValue(s[..|s| - 3]) * 100 + DigitValue(s[|s| - 2]) * 10 + DigitValue(s[|s| - 1]))
  }

  /** Reads back a string of the shape `FormatCents` produces. */
  function ParseCents(s: string): (r: Option<int>)
  {
    if |s| > 0 && s[0] == '-' then
      match ParseUnsignedCents(s[1..])
      case Some(m) => Some(-m)
      case None => None
    else
      match ParseUnsignedCents(s)
      case Some(m) => Some(m)
      case None => None
  }

  /** The three decimal places of a magnitude in cents recombine to it. */
  lemma CentsDigits(m: nat)
    ensures (m / 100) * 100 + (m / 10 % 10) * 10 + m % 10 == m
  {
    var q := m / 10;
    assert m == q * 10 + m % 10;
    assert q == (q / 10) * 10 + q % 10;
    assert q / 10 == m / 100;
  }

  lemma ParseUnsignedShape(num: string, d1: nat, d0: nat)
    requires |num| > 0 && AllDigits(num) && d1 < 10 && d0 < 10
    ensures var r := ParseUnsignedCents(num + "." + [DigitChar(d1), DigitChar(d0)]);
      r.Some? && r.value == NumeralValue(num) * 100 + d1 * 10 + d0
  {
    var s := num + "." + [DigitChar(d1), DigitChar(d0)];
    assert s == num + ['.', DigitChar(d1), DigitChar(d0)];
    assert s[..|s| - 3] == num;
    assert AllDigits(s[..|s| - 3]);
    assert DigitValue(s[|s| - 2]) == d1;
    assert DigitValue(s[|s| - 1]) == d0;
    assert ParseUnsignedCents(s).Some?;
    assert ParseUnsignedCents(s).value == NumeralValue(s[..|s| - 3]) * 100 + DigitValue(s[|s| - 2]) * 10 + DigitValue(s[|s| - 1]);
  }

  lemma UnsignedRoundTrip(m: nat)
    ensures ParseUnsignedCents(Numeral(m / 100) + "." + [DigitChar(m / 10 % 10), DigitChar(m % 10)]) == Some(m)
  {
    var q, d1, d0 := m / 100, m / 10 % 10, m % 10;
    var num := Numeral(q);
    ParseUnsignedShape(num, d1, d0);
    NumeralRoundTrip(q);
    assert NumeralValue(num) == q;
    CentsDigits(m);
    assert q * 100 + d1 * 10 + d0 == m;
  }

  /** Formatting to two decimals loses nothing: the amount can be read back. */
  lemma FormatCentsRoundTrip(cents: int)
    ensures ParseCents(FormatCents(cents)) == Some(cents)
  {
    var m: nat := if cents < 0 then -cents else cents;
    var u := Numeral(m / 100) + "." + [DigitChar(m / 10 % 10), DigitChar(m % 10)];
    UnsignedRoundTrip(m);
    if cents < 0 {
      assert FormatCents(cents) == "-" + u;
      assert ("-" + u)[1..] == u;
    } else {
      assert FormatCents(cents) == u;
      assert u[0] == Numeral(m / 100)[0];
    }
  }

  /** `s` holds no space character. */
  predicate NoSpace(s: string) {
    forall i :: 0 <= i < |s| ==> s[i] != ' '
  }

  /** A formatted amount is one word: sign, digits and a dot only. */
  lemma FormatCentsNoSpace(cents: int)
    ensures NoSpace(FormatCents(cents))
  {
    var s := FormatCents(cents);
    var k := if cents < 0 then 1 else 0;
    forall i | 0 <= i < |s|
      ensures s[i] != ' '
    {
      if i < k {
        assert s[i] == '-';
      } else if i < |s| - 3 {
        assert IsDigit(s[i]);
      }
    }
  }

  /** The position of the first space at or after `i`, or `|s|`. */
  function FirstSpace(s: string, i: nat): (k: nat)
    requires i <= |s|
    ensures i <= k <= |s|
    decreases |s| - i
  {
    if i == |s| then |s| else if s[i] == ' ' then i else FirstSpace(s, i + 1)
  }

  lemma {:induction false} FirstSpaceAt(s: string, i: nat, k: nat)
    requires i <= k < |s| && s[k] == ' '
    requires forall m :: i <= m < k ==> s[m] != ' '
    ensures FirstSpace(s, i) == k
    decreases k - i
  {
    if i < k {
      FirstSpaceAt(s, i + 1, k);
    }
  }

  /** A word after a common prefix and before a space is determined by the
      text, whatever follows the space. */
  lemma SplitAtSpace(p: string, x: string, y: string, q: string, r: string)
    requires NoSpace(x) && NoSpace(y)
    requires |q| > 0 && q[0] == ' ' && |r| > 0 && r[0] == ' '
    requires (p + x) + q == (p + y) + r
    ensures x == y
  {
    var s := (p + x) + q;
    var t := (p + y) + r;
    FirstSpaceAt(s, |p|, |p| + |x|);
    FirstSpaceAt(t, |p|, |p| + |y|);
    assert x == s[|p|..|p| + |x|];
    assert y == t[|p|..|p| + |y|];
  }

  /** Distinct amounts are shown as distinct texts. */
  lemma FormatCentsInjective(a: int, b: int)
    requires FormatCents(a) == FormatCents(b)
    ensures a == b
  {
    FormatCentsRoundTrip(a);
    FormatCentsRoundTrip(b);
  }
}
