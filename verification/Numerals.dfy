/** Printing numbers as text and reading them back. */
module Numerals {

  /** The value of a digit in bases up to sixteen; letters count in either case. */
  function DigitValue(c: char): (d: int)
    ensures -1 <= d < 16
  {
    if '0' <= c <= '9' then (c as int) - ('0' as int)
    else if 'a' <= c <= 'f' then (c as int) - ('a' as int) + 10
    else if 'A' <= c <= 'F' then (c as int) - ('A' as int) + 10
    else -1
  }

  predicate IsDigit(c: char, base: nat) {
    0 <= DigitValue(c) < base
  }

  predicate AllDigits(s: string, base: nat) {
    forall i :: 0 <= i < |s| ==> IsDigit(s[i], base)
  }

  /** A number with one more digit at its end. */
  function Extended(n: nat, base: nat, d: nat): nat { n * base + d }

  /** The number a string of digits stands for. */
  function Parse(s: string, base: nat): nat
    requires AllDigits(s, base)
  {
    if s == [] then 0 else Extended(Parse(s[..|s| - 1], base), base, DigitValue(s[|s| - 1]))
  }

  function Digit(d: nat, upper: bool): (c: char)
    requires d < 16
    ensures DigitValue(c) == d
  {
    if d < 10 then ('0' as int + d) as char
    else if upper then ('A' as int + d - 10) as char
    else ('a' as int + d - 10) as char
  }

  lemma Shrinks(n: nat, base: nat)
    requires 2 <= base <= n
    ensures n / base < n
  {
    assert n == n / base * base + n % base;
  }

  /** The digits of a number without leading zeros; zero is a single digit. */
  function Print(n: nat, base: nat, upper: bool): (s: string)
    requires 2 <= base <= 16
    ensures s != [] && AllDigits(s, base)
    decreases n
  {
    if n < base then [Digit(n, upper)]
    else
      Shrinks(n, base);
      Print(n / base, base, upper) + [Digit(n % base, upper)]
  }

  lemma ParseAppend(s: string, d: nat, base: nat, upper: bool)
    requires AllDigits(s, base) && d < base <= 16
    ensures AllDigits(s + [Digit(d, upper)], base)
    ensures Parse(s + [Digit(d, upper)], base) == Extended(Parse(s, base), base, d)
  {
    hide Digit, DigitValue, Extended;
    assert (s + [Digit(d, upper)])[..|s|] == s;
  }

  lemma DivMod(n: nat, base: nat)
    requires base > 0
    ensures Extended(n / base, base, n % base) == n && Extended(0, base, n) == n
  {
  }

  lemma {:induction false} ParsePrint(n: nat, base: nat, upper: bool)
    requires 2 <= base <= 16
    ensures Parse(Print(n, base, upper), base) == n
    decreases n
  {
    hide Digit, DigitValue, Extended, Parse;
    DivMod(n, base);
    if n < base {
      ParseAppend([], n, base, upper);
      ParseNothing(base);
      assert [] + [Digit(n, upper)] == [Digit(n, upper)];
    } else {
      Shrinks(n, base);
      ParsePrint(n / base, base, upper);
      ParseAppend(Print(n / base, base, upper), n % base, base, upper);
    }
  }

  lemma ParseNothing(base: nat)
    ensures Parse([], base) == 0
  {
  }

  /** An integer in decimal, with a minus sign when it is negative. */
  function Decimal(n: int): string {
    if n < 0 then "-" + Print(-n, 10, false) else Print(n, 10, false)
  }

  function Power(base: nat, digits: nat): (p: nat)
    requires base > 0
    ensures p > 0
  {
    if digits == 0 then 1 else base * Power(base, digits - 1)
  }

  lemma PowerStep(base: nat, digits: nat)
    requires base > 0 && digits > 0
    ensures Power(base, digits) == base * Power(base, digits - 1)
  {
  }

  /** A number below a power of the base has no more digits than the power says. */
  lemma {:induction false} PrintLength(n: nat, base: nat, upper: bool, digits: nat)
    requires 2 <= base <= 16 && digits > 0 && n < Power(base, digits)
    ensures |Print(n, base, upper)| <= digits
    decreases digits
  {
    if n >= base {
      Quotient(n, base, Power(base, digits - 1));
      PrintLength(n / base, base, upper, digits - 1);
    }
  }

  lemma Quotient(n: nat, base: nat, p: nat)
    requires base > 0 && n < base * p
    ensures n / base < p
  {
  }

  // ----- places

  /** The digit of a number at a place, counted from the last. */
  function Place(n: nat, base: nat, i: nat): nat
    requires base > 0
  {
    n / Power(base, i) % base
  }

  lemma Nested(q: nat, r: nat, y: nat, a: nat, b: nat)
    requires y < a && r < b
    ensures (q * b + r) * a + y == q * (a * b) + (r * a + y) && r * a + y < a * b
  {
    calc {
      (q * b + r) * a;
      q * b * a + r * a;
      q * (a * b) + r * a;
    }
    var gap := b - 1 - r;
    calc {
      a * b;
      (r + 1 + gap) * a;
      r * a + a + gap * a;
    }
    assert gap * a >= 0;
  }

  lemma DivDivOf(n: nat, a: nat, b: nat, x: nat, y: nat, q: nat, r: nat)
    requires y < a && r < b && n == x * a + y && x == q * b + r
    ensures a * b > 0 && n / (a * b) == q
  {
    Nested(q, r, y, a, b);
    Quotients(n, a * b, q, r * a + y);
  }

  lemma Divided(n: nat, a: nat)
    requires a > 0
    ensures n == n / a * a + n % a
  {
  }

  lemma DivDiv(n: nat, a: nat, b: nat)
    requires a > 0 && b > 0
    ensures a * b > 0 && n / (a * b) == n / a / b
  {
    var x := n / a;
    var q := x / b;
    Divided(n, a);
    Divided(x, b);
    DivDivOf(n, a, b, x, n % a, q, x % b);
  }

  lemma Multiples(q: nat, q': nat, d: nat)
    requires q < q'
    ensures q * d + d <= q' * d
  {
    assert q' * d == q * d + (q' - q) * d;
    assert (q' - q) * d == d + (q' - q - 1) * d;
  }

  lemma Quotients(x: nat, d: nat, q: nat, r: nat)
    requires d > 0 && x == q * d + r && r < d
    ensures x / d == q && x % d == r
  {
    var q', r' := x / d, x % d;
    assert x == q' * d + r';
    if q < q' {
      Multiples(q, q', d);
    } else if q > q' {
      Multiples(q', q, d);
    }
  }

  lemma PlaceNext(n: nat, base: nat, i: nat)
    requires base > 0
    ensures Place(n, base, i + 1) == Place(n / base, base, i) && Place(n, base, 0) == n % base
  {
    DivDiv(n, base, Power(base, i));
  }

  lemma PlaceBelow(n: nat, base: nat, i: nat)
    requires base > 0
    ensures Place(n, base, i) < base
  {
  }

  lemma {:induction false} PrintedPlaces(n: nat, base: nat, upper: bool, i: nat)
    requires 2 <= base <= 16 && i < |Print(n, base, upper)|
    ensures Place(n, base, i) < base
    ensures var s := Print(n, base, upper); s[|s| - 1 - i] == Digit(Place(n, base, i), upper)
    decreases n
  {
    hide Digit, DigitValue, Place, IsDigit;
    PlaceBelow(n, base, i);
    PlaceNext(n, base, if i == 0 then 0 else i - 1);
    if n >= base {
      Shrinks(n, base);
      if i > 0 {
        PrintedPlaces(n / base, base, upper, i - 1);
      }
    } else {
      SmallMod(n, base);
    }
  }

  lemma SmallMod(n: nat, base: nat)
    requires n < base
    ensures n % base == n
  {
  }

  lemma DigitIs(d: nat, upper: bool)
    requires d < 16
    ensures Digit(d, upper) == (if upper then "0123456789ABCDEF" else "0123456789abcdef")[d]
  {
  }

  /** What is printed, digit by digit. */
  lemma PrintedDigits(n: nat, base: nat, upper: bool, i: nat)
    requires 2 <= base <= 16 && i < |Print(n, base, upper)|
    ensures Place(n, base, i) < base
    ensures var s := Print(n, base, upper);
            s[|s| - 1 - i] == (if upper then "0123456789ABCDEF" else "0123456789abcdef")[Place(n, base, i)]
  {
    hide *;
    PlaceBelow(n, base, i);
    PrintedPlaces(n, base, upper, i);
    DigitIs(Place(n, base, i), upper);
  }

  /** Only zero begins with a zero. */
  lemma {:induction false} NoLeadingZero(n: nat, base: nat, upper: bool)
    requires 2 <= base <= 16
    ensures Print(n, base, upper)[0] == '0' <==> n == 0
    decreases n
  {
    if n >= base {
      Shrinks(n, base);
      assert n / base > 0;
      NoLeadingZero(n / base, base, upper);
    }
  }

  /** All digits are printed. */
  lemma {:induction false} PrintCovers(n: nat, base: nat, upper: bool)
    requires 2 <= base <= 16
    ensures n < Power(base, |Print(n, base, upper)|)
    decreases n
  {
    hide Digit;
    var s := Print(n, base, upper);
    PowerStep(base, |s|);
    if n >= base {
      Shrinks(n, base);
      PrintCovers(n / base, base, upper);
      Covered(n, base, Power(base, |s| - 1));
    } else {
      assert Power(base, 0) == 1;
    }
  }

  lemma Covered(n: nat, base: nat, p: nat)
    requires base > 0 && n / base < p
    ensures n < base * p
  {
    Divided(n, base);
    assert n / base + 1 <= p;
    assert base * (n / base + 1) <= base * p;
  }
}
