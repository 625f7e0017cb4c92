/** Decimal rendering of integers as JavaScript's `String(n)` and
    `padStart(2, '0')` produce it, the digit-string value of such a
    rendering, and lexicographic string order. JavaScript compares strings
    (in `a < b` and in the default `Array.prototype.sort`) by UTF-16 code
    units, while Dafny's characters compare by code point; the two orders
    differ only when a character above U+FFFF meets one in U+E000..U+FFFF,
    so they agree on the digit-and-hyphen strings of date keys. */
module Text {

  predicate IsDigit(c: char) {
    '0' <= c <= '9'
  }

  predicate AllDigits(s: string) {
    forall i :: 0 <= i < |s| ==> IsDigit(s[i])
  }

  function DigitChar(d: nat): (c: char)
    requires d < 10
    ensures IsDigit(c) && c as int - '0' as int == d
  {
    ('0' as int + d) as char
  }

  function Pow10(k: nat): (p: nat)
    ensures p >= 1
  {
    if k == 0 then 1 else 10 * Pow10(k - 1)
  }

  /** The number a string of decimal digits denotes, most significant digit first. */
  function DigitsValue(s: string): nat
    requires AllDigits(s)
  {
    if s == [] then 0
    else DigitsValue(s[..|s| - 1]) * 10 + (s[|s| - 1] as int - '0' as int)
  }

  /** `String(n)` for a non-negative integer: its shortest decimal digits. */
  function NatToString(n: nat): (s: string)
    ensures 1 <= |s| && AllDigits(s)
  {
    if n < 10 then [DigitChar(n)] else NatToString(n / 10) + [DigitChar(n % 10)]
  }

  /** `String(n)` for any integer: a minus sign before the digits of a negative one. */
  function IntToString(n: int): string {
    if n < 0 then "-" + NatToString(-n) else NatToString(n)
  }

  /** `s.padStart(2, '0')`. */
  function PadStart2(s: string): string {
    if |s| == 0 then "00" else if |s| == 1 then "0" + s else s
  }

  /** Lexicographic order by code point: the first differing character
      decides, and a proper prefix comes first. On strings of digits and
      hyphens this is JavaScript's `a < b`. */
  predicate LexLess(a: string, b: string) {
    if a == [] then b != []
    else if b == [] then false
    else if a[0] != b[0] then a[0] < b[0]
    else LexLess(a[1..], b[1..])
  }

  /** Rendering a number and reading it back gives the number. */
  lemma {:induction false} NatToStringValue(n: nat)
    ensures DigitsValue(NatToString(n)) == n
  {
    var s := NatToString(n);
    if n >= 10 {
      NatToStringValue(n / 10);
      var p := NatToString(n / 10);
      assert s[..|s| - 1] == p;
    }
  }

  /** Rendering is injective. */
  lemma NatToStringInjective(m: nat, n: nat)
    ensures NatToString(m) == NatToString(n) <==> m == n
  {
    NatToStringValue(m);
    NatToStringValue(n);
  }

  /** The number of digits of the small numbers a date key is made of. */
  lemma NatToStringLength(n: nat)
    ensures n < 10 ==> |NatToString(n)| == 1
    ensures 10 <= n < 100 ==> |NatToString(n)| == 2
    ensures 100 <= n < 1000 ==> |NatToString(n)| == 3
    ensures 1000 <= n < 10000 ==> |NatToString(n)| == 4
  {
    if n >= 10 {
      NatToStringLength(n / 10);
    }
  }

  /** A leading zero does not change the value of a digit string. */
  lemma {:induction false} LeadingZeroValue(s: string)
    requires AllDigits(s)
    ensures AllDigits("0" + s) && DigitsValue("0" + s) == DigitsValue(s)
  {
    if s != [] {
      var t := "0" + s;
      assert t[..|t| - 1] == "0" + s[..|s| - 1];
      LeadingZeroValue(s[..|s| - 1]);
    }
  }

  /** Zero-padding a number below 100 gives exactly two digits denoting it. */
  lemma PadStart2Value(n: nat)
    requires n < 100
    ensures |PadStart2(NatToString(n))| == 2
    ensures AllDigits(PadStart2(NatToString(n)))
    ensures DigitsValue(PadStart2(NatToString(n))) == n
  {
    NatToStringLength(n);
    NatToStringValue(n);
    if n < 10 {
      LeadingZeroValue(NatToString(n));
    }
  }

  /** A digit string's value splits into its first digit and the rest. */
  lemma {:induction false} DigitsValueFront(s: string)
    requires AllDigits(s) && |s| >= 1
    ensures DigitsValue(s) == (s[0] as int - '0' as int) * Pow10(|s| - 1) + DigitsValue(s[1..])
  {
    if |s| > 1 {
      var init := s[..|s| - 1];
      DigitsValueFront(init);
      assert init[1..] == s[1..][..|s| - 2];
      var x := s[0] as int - '0' as int;
      var last := s[|s| - 1] as int - '0' as int;
      var p := Pow10(|s| - 2);
      var v := DigitsValue(init[1..]);
      assert DigitsValue(init) == x * p + v;
      assert DigitsValue(s[1..]) == v * 10 + last;
      ShiftDigit(x, p, v, last);
    }
  }

  lemma ShiftDigit(x: int, p: int, v: int, last: int)
    ensures (x * p + v) * 10 + last == x * (10 * p) + (v * 10 + last)
  {
  }

  /** A digit string of length k denotes a number below 10^k. */
  lemma {:induction false} DigitsValueBound(s: string)
    requires AllDigits(s)
    ensures DigitsValue(s) < Pow10(|s|)
  {
    if s != [] {
      DigitsValueBound(s[..|s| - 1]);
      assert DigitsValue(s[..|s| - 1]) + 1 <= Pow10(|s| - 1);
      assert DigitsValue(s) < (DigitsValue(s[..|s| - 1]) + 1) * 10;
    }
  }

  lemma MulMonotone(a: int, b: int, p: nat)
    requires a <= b
    ensures a * p <= b * p
  {
  }

  /** A smaller first digit makes a smaller number, whatever the other digits. */
  lemma FirstDigitDecides(a: string, b: string)
    requires AllDigits(a) && AllDigits(b) && |a| == |b| >= 1 && a[0] < b[0]
    ensures DigitsValue(a) < DigitsValue(b)
  {
    DigitsValueFront(a);
    DigitsValueFront(b);
    DigitsValueBound(a[1..]);
    var p := Pow10(|a| - 1);
    var x, y := a[0] as int - '0' as int, b[0] as int - '0' as int;
    MulMonotone(x + 1, y, p);
    assert DigitsValue(a) < x * p + p;
  }

  /** For digit strings of equal length, string order is numeric order. */
  lemma {:induction false} DigitsOrder(a: string, b: string)
    requires AllDigits(a) && AllDigits(b) && |a| == |b|
    ensures LexLess(a, b) <==> DigitsValue(a) < DigitsValue(b)
  {
    if a != [] {
      if a[0] == b[0] {
        DigitsValueFront(a);
        DigitsValueFront(b);
        DigitsOrder(a[1..], b[1..]);
      } else if a[0] < b[0] {
        FirstDigitDecides(a, b);
      } else {
        FirstDigitDecides(b, a);
      }
    }
  }

  /** For strings of equal length, exactly one of a < b, a == b, b < a holds. */
  lemma {:induction false} LexTrichotomy(a: string, b: string)
    requires |a| == |b|
    ensures a != b <==> LexLess(a, b) || LexLess(b, a)
    ensures !(LexLess(a, b) && LexLess(b, a))
  {
    if a != [] {
      LexTrichotomy(a[1..], b[1..]);
      if a[0] == b[0] && a[1..] == b[1..] {
        assert a == [a[0]] + a[1..] && b == [b[0]] + b[1..];
      }
    }
  }

  /** Comparing two strings that start with equal-length blocks compares the
      blocks first and the remainders only on a tie. */
  lemma {:induction false} LexLessAppend(a: string, x: string, b: string, y: string)
    requires |a| == |b|
    ensures LexLess(a + x, b + y) <==> LexLess(a, b) || (a == b && LexLess(x, y))
  {
    if a != [] {
      assert (a + x)[1..] == a[1..] + x;
      assert (b + y)[1..] == b[1..] + y;
      LexLessAppend(a[1..], x, b[1..], y);
      if a[0] == b[0] && a[1..] == b[1..] {
        assert a == [a[0]] + a[1..] && b == [b[0]] + b[1..];
      }
    } else {
      assert a + x == x && b + y == y;
    }
  }
}
