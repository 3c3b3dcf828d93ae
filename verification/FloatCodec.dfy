/** How a positive float travels as two words. Arithmetic is on reals, each result passed through a
    rounding function of which only this is known: it leaves the numbers a binary32 can represent alone
    (IEEE 754-2019, section 3.4) and takes 2^32 - 1 to 2^32. */
module FloatCodec {
  import opened FlightVarTypes

  function Pow2(e: int): (p: real)
    ensures p > 0.0
    decreases if e >= 0 then e else -e
  {
    if e == 0 then 1.0 else if e > 0 then 2.0 * Pow2(e - 1) else Pow2(e + 1) / 2.0
  }

  function Scaled(m: int, e: int): real {
    m as real * Pow2(e)
  }

  /** At most 24 significant bits, and an exponent in range. */
  predicate InRange(m: int, e: int) {
    -0x100_0000 < m < 0x100_0000 && -149 <= e <= 104
  }

  ghost predicate Representable(x: real) {
    exists m, e :: InRange(m, e) && x == Scaled(m, e)
  }

  ghost predicate IsRounding(round: real -> real) {
    (forall x :: Representable(x) ==> round(x) == x) && round(4294967295.0) == 4294967296.0
  }

  function Ldexp(sig: real, exp: int): real {
    sig * Pow2(exp)
  }

  /** The result of frexp: x is sig times a power of two. */
  predicate IsFrexp(x: real, sig: real, exp: int) {
    0.5 <= sig < 1.0 && x == Ldexp(sig, exp)
  }

  /** The number that is converted to an unsigned word, which only a number not negative can be. */
  function Converted(sig: real, round: real -> real): real {
    round(round(sig - 0.5) * round(4294967295.0))
  }

  /** The words written for a number split by frexp. */
  function SignificandWord(sig: real, round: real -> real): dword {
    2 * Converted(sig, round).Floor % 0x1_0000_0000
  }

  function ExponentWord(exp: int): dword {
    exp % 0x1_0000_0000
  }

  function Signed(d: dword): int {
    if d < 0x8000_0000 then d else d - 0x1_0000_0000
  }

  /** The significand read from its word. */
  function SignificandOf(d: dword, round: real -> real): real
    requires round(4294967295.0) != 0.0
  {
    round(round(round(round(d as real) * 0.5) / round(4294967295.0)) + 0.5)
  }

  function FromWords(significand: dword, exponent: dword, round: real -> real): real
    requires round(4294967295.0) != 0.0
  {
    round(Ldexp(SignificandOf(significand, round), Signed(exponent)))
  }

  lemma {:induction false} Pow2Add(a: int, b: nat)
    ensures Pow2(a + b) == Pow2(a) * Pow2(b)
  {
    if b > 0 {
      Pow2Add(a, b - 1);
      Pow2Next(a + b - 1);
      Pow2Next(b - 1);
      hide Pow2;
      TwiceInside(Pow2(a), Pow2(b - 1));
    } else {
      assert Pow2(b) == 1.0;
    }
  }

  lemma TwiceInside(x: real, y: real)
    ensures x * (2.0 * y) == 2.0 * (x * y)
  {
  }

  lemma Scales(a: real, b: real, p: real)
    requires p > 0.0
    ensures a < b ==> a * p < b * p
    ensures a <= b ==> a * p <= b * p
  {
  }

  lemma Pow2Next(e: int)
    ensures Pow2(e + 1) == 2.0 * Pow2(e)
  {
  }

  lemma {:induction false} Pow2Grows(a: int, b: int)
    requires a < b
    ensures 2.0 * Pow2(a) <= Pow2(b)
    decreases b - a
  {
    Pow2Next(b - 1);
    if a < b - 1 {
      Pow2Grows(a, b - 1);
    }
  }

  /** A number can be split in one way only. */
  lemma FrexpIsUnique(x: real, sig: real, exp: int, sig': real, exp': int)
    requires IsFrexp(x, sig, exp) && IsFrexp(x, sig', exp')
    ensures sig == sig' && exp == exp'
  {
    hide Pow2;
    var p, p' := Pow2(exp), Pow2(exp');
    if exp < exp' {
      Pow2Grows(exp, exp');
      SmallerExponent(sig, p, sig', p');
    } else if exp' < exp {
      Pow2Grows(exp', exp);
      SmallerExponent(sig', p', sig, p);
    } else {
      Cancels(sig, sig', p);
    }
  }

  lemma Cancels(a: real, b: real, p: real)
    requires p > 0.0 && a * p == b * p
    ensures a == b
  {
    Scales(a, b, p);
    Scales(b, a, p);
  }

  lemma SmallerExponent(sig: real, p: real, sig': real, p': real)
    requires sig < 1.0 && 0.5 <= sig' && 0.0 < p && 2.0 * p <= p'
    ensures sig * p < sig' * p'
  {
    Scales(sig, 1.0, p);
    Scales(0.5, sig', p');
  }

  /** The bits of a significand shifted up until the highest is set. */
  lemma {:induction false} Normalized(m: int, e: int) returns (k: int, exp: int)
    requires 0 < m < 0x100_0000
    ensures 0x80_0000 <= k < 0x100_0000
    ensures e + 24 - (if m < 0x80_0000 then 0x80_0000 - m else 0) <= exp <= e + 24
    ensures Scaled(m, e) == Scaled(k, exp - 24)
    decreases 0x100_0000 - m
  {
    if m >= 0x80_0000 {
      return m, e + 24;
    }
    k, exp := Normalized(2 * m, e - 1);
    Pow2Next(e - 1);
  }

  lemma Halves()
    ensures Pow2(-1) == 0.5 && Pow2(8) == 256.0 && Pow2(9) == 512.0 && Pow2(24) == 16777216.0
    ensures Pow2(-24) * 16777216.0 == 1.0
  {
    Pow2Add(-24, 24);
    Pow2Add(0, 8);
    assert Pow2(4) == 16.0;
    Pow2Add(4, 4);
    Pow2Add(8, 8);
    Pow2Add(16, 8);
  }

  lemma Represented(m: int, e: int, round: real -> real)
    requires IsRounding(round) && InRange(m, e)
    ensures round(Scaled(m, e)) == Scaled(m, e)
  {
  }

  lemma LargestRounds(round: real -> real)
    requires IsRounding(round)
    ensures round(4294967295.0) == 4294967296.0
  {
  }

  /** The word of a significand with 24 bits: the bits below the first, moved up by nine. The word of an
      exponent is its two's complement. */
  lemma WordsAre(k: int, exp: int, round: real -> real)
    requires IsRounding(round) && 0x80_0000 <= k < 0x100_0000 && -0x8000_0000 <= exp < 0x8000_0000
    ensures SignificandWord(k as real / 16777216.0, round) == 512 * (k - 0x80_0000)
    ensures ExponentWord(exp) == if exp >= 0 then exp else exp + 0x1_0000_0000
  {
    Halves();
    hide Pow2, IsRounding, SignificandOf;
    LargestRounds(round);
    var j := k - 0x80_0000;
    Represented(j, -24, round);
    Represented(j, 8, round);
    assert Pow2(-24) == 1.0 / 16777216.0;
    assert Scaled(j, -24) == j as real / 16777216.0;
    assert k as real / 16777216.0 - 0.5 == j as real / 16777216.0;
    assert j as real / 16777216.0 * 4294967296.0 == Scaled(j, 8);
  }

  /** No step of the encoding or the decoding of a significand rounds anything but 2^32 - 1. */
  lemma SignificandExact(k: int, round: real -> real)
    requires IsRounding(round) && 0x80_0000 <= k < 0x100_0000
    ensures round(4294967295.0) == 4294967296.0
    ensures var sig := k as real / 16777216.0; SignificandOf(SignificandWord(sig, round), round) == sig
  {
    Halves();
    WordsAre(k, 0, round);
    hide Pow2, IsRounding, SignificandOf, SignificandWord;
    LargestRounds(round);
    var j := k - 0x80_0000;
    Represented(j, -24, round);
    Represented(j, 8, round);
    Represented(j, 9, round);
    Represented(k, -24, round);
    assert Pow2(-24) == 1.0 / 16777216.0;
    assert Scaled(j, -24) == j as real / 16777216.0;
    assert Scaled(k, -24) == k as real / 16777216.0;
    DecodesExactly(j, round);
  }

  lemma DecodesExactly(j: int, round: real -> real)
    requires 0 <= j < 0x80_0000 && round(4294967295.0) == 4294967296.0
    requires round((512 * j) as real) == (512 * j) as real && round((256 * j) as real) == (256 * j) as real
    requires round(j as real / 16777216.0) == j as real / 16777216.0
    requires round((j + 0x80_0000) as real / 16777216.0) == (j + 0x80_0000) as real / 16777216.0
    ensures SignificandOf(512 * j, round) == (j + 0x80_0000) as real / 16777216.0
  {
    assert (512 * j) as real * 0.5 == (256 * j) as real;
    assert (256 * j) as real / 4294967296.0 == j as real / 16777216.0;
    assert j as real / 16777216.0 + 0.5 == (j + 0x80_0000) as real / 16777216.0;
  }

  lemma Downscaled(k: real, q: real, p: real)
    requires p == q * 16777216.0
    ensures k * q == k / 16777216.0 * p
  {
    calc {
      k / 16777216.0 * p;
      k / 16777216.0 * (16777216.0 * q);
      k / 16777216.0 * 16777216.0 * q;
      k * q;
    }
  }

  lemma NormalizedIsFrexp(k: int, exp: int)
    requires 0x80_0000 <= k < 0x100_0000
    ensures IsFrexp(Scaled(k, exp - 24), k as real / 16777216.0, exp)
  {
    Halves();
    Pow2Add(exp - 24, 24);
    Downscaled(k as real, Pow2(exp - 24), Pow2(exp));
  }

  lemma WordsBack(x: real, sig: real, exp: int, round: real -> real)
    requires round(4294967295.0) != 0.0 && SignificandOf(SignificandWord(sig, round), round) == sig
    requires x == Ldexp(sig, exp) && round(x) == x && -0x8000_0000 <= exp < 0x8000_0000
    ensures FromWords(SignificandWord(sig, round), ExponentWord(exp), round) == x
  {
    hide SignificandWord, SignificandOf, Ldexp;
    assert Signed(ExponentWord(exp)) == exp;
  }

  /** Every positive binary32 number, normal or not, is read back as it was written. */
  lemma FloatRoundTrip(m: int, e: int, sig: real, exp: int, round: real -> real)
    requires IsRounding(round) && InRange(m, e) && 0 < m
    requires IsFrexp(Scaled(m, e), sig, exp)
    ensures round(4294967295.0) != 0.0
    ensures FromWords(SignificandWord(sig, round), ExponentWord(exp), round) == Scaled(m, e)
  {
    hide Pow2, IsRounding, SignificandWord, FromWords, ExponentWord;
    LargestRounds(round);
    Represented(m, e, round);
    var k, exp' := Normalized(m, e);
    NormalizedIsFrexp(k, exp');
    FrexpIsUnique(Scaled(m, e), sig, exp, k as real / 16777216.0, exp');
    SignificandExact(k, round);
    WordsBack(Scaled(m, e), sig, exp, round);
  }

  // ----- numbers that are not positive

  /** What frexp gives for any number: the sign goes with the significand, and zero has none. */
  predicate IsSignedFrexp(x: real, sig: real, exp: int) {
    if x == 0.0 then sig == 0.0
    else if x > 0.0 then IsFrexp(x, sig, exp)
    else IsFrexp(-x, -sig, exp)
  }

  ghost predicate IsMonotone(round: real -> real) {
    forall x, y :: x <= y ==> round(x) <= round(y)
  }

  lemma SmallNumbers(round: real -> real)
    requires IsRounding(round)
    ensures round(0.0) == 0.0 && round(-0.5) == -0.5 && round(-2147483648.0) == -2147483648.0
  {
    Halves();
    assert Pow2(0) == 1.0 && Pow2(7) == 128.0 by {
      Pow2Next(7);
    }
    Represented(0, 0, round);
    Represented(-1, -1, round);
    Represented(-0x80_0000, 8, round);
  }

  /** Only positive numbers can be encoded: the number converted is negative exactly for the others. */
  lemma PositiveExactly(x: real, sig: real, exp: int, round: real -> real)
    requires IsRounding(round) && IsMonotone(round) && IsSignedFrexp(x, sig, exp)
    ensures Converted(sig, round) >= 0.0 <==> x > 0.0
  {
    hide Pow2, Ldexp, IsRounding;
    SmallNumbers(round);
    LargestRounds(round);
    var diff := round(sig - 0.5);
    if x > 0.0 {
      assert diff >= 0.0;
      assert diff * 4294967296.0 >= 0.0;
    } else {
      assert diff <= -0.5;
      assert diff * 4294967296.0 <= -2147483648.0;
    }
  }
}
