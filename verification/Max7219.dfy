/** The driver of a chain of MAX7219 display chips: every command is shifted through all chips, and each
    latches the word that ends up in it. */
module Max7219 {
  import opened FlightVarTypes
  import Numerals

  // ----- the chips

  const NOOP: byte := 0
  const DIGIT0: byte := 1
  const DECODE_MODE: byte := 9
  const REGISTERS := 16

  /** The registers of each chip. */
  type Chips = seq<seq<byte>>

  predicate AreChips(chips: Chips, n: nat) {
    |chips| == n && forall k :: 0 <= k < n ==> |chips[k]| == REGISTERS
  }

  /** The bytes in the shift registers, the one shifted in last first. */
  function Shift(bytes: seq<byte>, b: byte): (shifted: seq<byte>)
    ensures |shifted| == |bytes|
  {
    if bytes == [] then [] else [b] + bytes[..|bytes| - 1]
  }

  function ShiftAll(bytes: seq<byte>, pushed: seq<byte>): (shifted: seq<byte>)
    ensures |shifted| == |bytes|
    decreases |pushed|
  {
    if pushed == [] then bytes else Shift(ShiftAll(bytes, pushed[..|pushed| - 1]), pushed[|pushed| - 1])
  }

  /** The word in chip k: a register and the data for it. */
  function Register(bytes: seq<byte>, k: nat): byte
    requires 2 * k + 1 < |bytes|
  {
    bytes[2 * k + 1] % 16
  }

  function LatchOne(regs: seq<byte>, register: byte, data: byte): seq<byte>
    requires |regs| == REGISTERS && register < 16
  {
    if register == NOOP then regs else regs[register := data]
  }

  function Latch(chips: Chips, bytes: seq<byte>): (latched: Chips)
    requires AreChips(chips, |chips|) && |bytes| == 2 * |chips|
    ensures AreChips(latched, |chips|)
  {
    seq(|chips|, k requires 0 <= k < |chips| => LatchOne(chips[k], Register(bytes, k), bytes[2 * k]))
  }

  // ----- a command

  function Zeros(n: nat): seq<byte> { seq(n, _ => 0) }

  /** The number of words before the command; it is passed as a byte. */
  function Before(n: nat, chip: byte): byte
    requires chip < n
  {
    (n - chip - 1) % 0x100
  }

  /** What a command for a chip shifts out. */
  function Shifted(n: nat, chip: byte, register: byte, data: byte): seq<byte>
    requires chip < n
  {
    Zeros(2 * Before(n, chip)) + [register, data] + Zeros(2 * chip)
  }

  lemma ShiftAt(bytes: seq<byte>, b: byte, i: nat)
    requires i < |bytes|
    ensures Shift(bytes, b)[i] == if i == 0 then b else bytes[i - 1]
  {
  }

  lemma {:induction false} ShiftAllAt(bytes: seq<byte>, pushed: seq<byte>, i: nat)
    requires i < |bytes|
    ensures ShiftAll(bytes, pushed)[i] == if i < |pushed| then pushed[|pushed| - 1 - i] else bytes[i - |pushed|]
    decreases |pushed|
  {
    if pushed != [] {
      var n := |pushed| - 1;
      ShiftAllStep(bytes, pushed);
      ShiftAt(ShiftAll(bytes, pushed[..n]), pushed[n], i);
      hide Shift, ShiftAll;
      if i > 0 {
        ShiftAllAt(bytes, pushed[..n], i - 1);
        assert i <= n ==> pushed[..n][n - i] == pushed[n - i];
      }
    }
  }

  lemma ShiftAllStep(bytes: seq<byte>, pushed: seq<byte>)
    requires pushed != []
    ensures ShiftAll(bytes, pushed) == Shift(ShiftAll(bytes, pushed[..|pushed| - 1]), pushed[|pushed| - 1])
  {
  }

  /** The chips after a command, with the bytes left in the shift registers by earlier ones. */
  function AfterCommand(chips: Chips, bytes: seq<byte>, chip: byte, register: byte, data: byte): Chips
    requires AreChips(chips, |chips|) && |bytes| == 2 * |chips| && chip < |chips|
  {
    Latch(chips, ShiftAll(bytes, Shifted(|chips|, chip, register, data)))
  }

  /** A command reaches the chip it is for and no other, whatever was left in the shift registers. */
  ghost predicate Addresses(n: nat, chip: byte)
    requires chip < n
  {
    forall chips: Chips, bytes: seq<byte>, register: byte, data: byte ::
      AreChips(chips, n) && |bytes| == 2 * n && register < 16 ==>
        AfterCommand(chips, bytes, chip, register, data) == chips[chip := LatchOne(chips[chip], register, data)]
  }

  lemma ShiftedAt(n: nat, chip: byte, register: byte, data: byte, i: nat)
    requires chip < n && n - chip <= 0x100 && i < 2 * n
    ensures var pushed, first := Shifted(n, chip, register, data), 2 * (n - chip - 1);
            |pushed| == 2 * n && pushed[i] == if i == first then register else if i == first + 1 then data else 0
  {
    assert Before(n, chip) == n - chip - 1;
  }

  /** The word that ends up in chip k. */
  lemma WordIn(n: nat, bytes: seq<byte>, chip: byte, register: byte, data: byte, k: nat)
    requires |bytes| == 2 * n && chip < n && k < n && n - chip <= 0x100
    ensures var shifted := ShiftAll(bytes, Shifted(n, chip, register, data));
            if k == chip as int then shifted[2 * k + 1] == register && shifted[2 * k] == data
            else shifted[2 * k + 1] == 0
  {
    hide ShiftAll, Shifted;
    var pushed := Shifted(n, chip, register, data);
    ShiftedAt(n, chip, register, data, 2 * n - 1 - 2 * k);
    ShiftedAt(n, chip, register, data, 2 * n - 2 - 2 * k);
    ShiftAllAt(bytes, pushed, 2 * k);
    ShiftAllAt(bytes, pushed, 2 * k + 1);
  }

  lemma CommandReaches(chips: Chips, bytes: seq<byte>, chip: byte, register: byte, data: byte)
    requires AreChips(chips, |chips|) && |bytes| == 2 * |chips| && chip < |chips| && register < 16
    requires |chips| - chip <= 0x100
    ensures AfterCommand(chips, bytes, chip, register, data) == chips[chip := LatchOne(chips[chip], register, data)]
  {
    hide ShiftAll, Shifted;
    forall k | 0 <= k < |chips|
      ensures AfterCommand(chips, bytes, chip, register, data)[k] ==
              if k == chip as int then LatchOne(chips[chip], register, data) else chips[k]
    {
      WordIn(|chips|, bytes, chip, register, data, k);
    }
  }

  /** With too many words to fit the byte that counts them, fewer words than there are chips are shifted,
      and the last chip latches what an earlier command left behind. */
  lemma CommandGoesAstray(n: nat, chip: byte)
    requires chip < n && n - chip > 0x100
    ensures !Addresses(n, chip)
  {
    var chips: Chips, bytes: seq<byte> := seq(n, _ => Zeros(REGISTERS)), seq(2 * n, _ => 1);
    var pushed := Shifted(n, chip, NOOP, 0);
    ShiftAllAt(bytes, pushed, 2 * (n - 1));
    ShiftAllAt(bytes, pushed, 2 * (n - 1) + 1);
    assert |pushed| < 2 * (n - 1);
    var after := AfterCommand(chips, bytes, chip, NOOP, 0);
    assert after[n - 1] == LatchOne(chips[n - 1], 1, 1);
    assert after[n - 1][1] == 1 && chips[n - 1][1] == 0;
  }

  /** A chip is addressed correctly exactly when it is among the last 256 of the chain. */
  lemma AddressesExactly(n: nat, chip: byte)
    requires chip < n
    ensures Addresses(n, chip) <==> n - chip <= 0x100
  {
    if n - chip > 0x100 {
      CommandGoesAstray(n, chip);
    } else {
      forall chips: Chips, bytes: seq<byte>, register: byte, data: byte |
        AreChips(chips, n) && |bytes| == 2 * n && register < 16
        ensures AfterCommand(chips, bytes, chip, register, data) == chips[chip := LatchOne(chips[chip], register, data)]
      {
        CommandReaches(chips, bytes, chip, register, data);
      }
    }
  }

  /** What a command changes: one register of one chip, and nothing when the register is that of the no-op. */
  lemma CommandChanges(chips: Chips, bytes: seq<byte>, chip: byte, register: byte, data: byte, k: nat, r: nat)
    requires AreChips(chips, |chips|) && |bytes| == 2 * |chips| && chip < |chips| && register < 16
    requires |chips| - chip <= 0x100 && k < |chips| && r < 16
    ensures AreChips(AfterCommand(chips, bytes, chip, register, data), |chips|)
    ensures AfterCommand(chips, bytes, chip, register, data)[k][r] ==
            if k == chip as int && r == register as int && register != 0 then data else chips[k][r]
  {
    CommandReaches(chips, bytes, chip, register, data);
    hide AfterCommand;
  }

  // ----- numbers

  /** The register a digit is written to. The position is cut to a byte, and whatever is beyond the eighth
      digit falls on the register after it. */
  function RegisterOf(position: nat): byte {
    DIGIT0 + Clamped(position % 0x100)
  }

  function Clamped(digit: byte): byte { if digit > 8 then 8 else digit }

  /** The registers of a chip after n digits of a number are written, the last first. */
  function WriteDigits(regs: seq<byte>, num: nat, from: nat, n: nat): seq<byte>
    requires |regs| == REGISTERS
    decreases n
  {
    if n == 0 then regs
    else WriteDigits(LatchOne(regs, RegisterOf(from + n - 1), num % 10), num / 10, from, n - 1)
  }

  /** The number the digits show. */
  function Shown(regs: seq<byte>, from: nat, n: nat): nat
    requires |regs| == REGISTERS && from + n <= 8
  {
    if n == 0 then 0 else Shown(regs, from, n - 1) * 10 + regs[DIGIT0 + from + n - 1]
  }

  lemma {:induction false} WriteDigitsElsewhere(regs: seq<byte>, num: nat, from: nat, n: nat, r: nat)
    requires |regs| == REGISTERS && from + n <= 8 && r < REGISTERS && !(DIGIT0 + from <= r < DIGIT0 + from + n)
    ensures |WriteDigits(regs, num, from, n)| == REGISTERS && WriteDigits(regs, num, from, n)[r] == regs[r]
    decreases n
  {
    if n > 0 {
      WriteDigitsElsewhere(LatchOne(regs, RegisterOf(from + n - 1), num % 10), num / 10, from, n - 1, r);
    }
  }

  function Remaining(num: nat, p: nat): nat
    requires p > 0
  {
    num % p
  }

  lemma ModTen(num: nat, p: nat)
    requires p > 0
    ensures Remaining(num, 10 * p) == Remaining(num / 10, p) * 10 + num % 10
  {
    var q, r := num / 10 / p, num / 10 % p;
    assert num == 10 * (num / 10) + num % 10;
    assert num / 10 == q * p + r;
    var rest := r * 10 + num % 10;
    assert num == q * (10 * p) + rest by {
      assert 10 * (q * p) == q * (10 * p);
    }
    assert 0 <= rest < 10 * p;
    Numerals.Quotients(num, 10 * p, q, rest);
  }

  /** A number written over digits that exist shows up modulo a power of ten. */
  lemma {:induction false} NumberIsShown(regs: seq<byte>, num: nat, from: nat, n: nat)
    requires |regs| == REGISTERS && from + n <= 8
    ensures |WriteDigits(regs, num, from, n)| == REGISTERS
    ensures Shown(WriteDigits(regs, num, from, n), from, n) == Remaining(num, Numerals.Power(10, n))
    decreases n
  {
    if n > 0 {
      var last := LatchOne(regs, RegisterOf(from + n - 1), num % 10);
      assert last[DIGIT0 + from + n - 1] == num % 10;
      hide LatchOne, RegisterOf, Remaining, Numerals.Power;
      NumberIsShown(last, num / 10, from, n - 1);
      WriteDigitsElsewhere(last, num / 10, from, n - 1, DIGIT0 + from + n - 1);
      ModTen(num, Numerals.Power(10, n - 1));
      Numerals.PowerStep(10, n);
    } else {
      assert Remaining(num, 1) == 0;
    }
  }

  /** Each digit, in its place. */
  lemma {:induction false} DigitsAre(regs: seq<byte>, num: nat, from: nat, n: nat, i: nat)
    requires |regs| == REGISTERS && from + n <= 8 && i < n
    ensures |WriteDigits(regs, num, from, n)| == REGISTERS
    ensures WriteDigits(regs, num, from, n)[1 + from + i] == Numerals.Place(num, 10, n - 1 - i)
    decreases n
  {
    var last := LatchOne(regs, RegisterOf(from + n - 1), num % 10);
    if i == n - 1 {
      WriteDigitsElsewhere(last, num / 10, from, n - 1, 1 + from + i);
      Numerals.PlaceNext(num, 10, 0);
    } else {
      DigitsAre(last, num / 10, from, n - 1, i);
      Numerals.PlaceNext(num, 10, n - 2 - i);
    }
  }

  /** Some position of a number is not one of the eight digits. */
  predicate Overflows(from: byte, digits: byte) {
    digits > 0 && from + digits > 8
  }

  /** Only the registers of digits are written exactly when the number does not go beyond the eighth. */
  lemma OnlyDigitsExactly(from: byte, digits: byte)
    ensures (forall i :: from <= i < from + digits ==> DIGIT0 <= RegisterOf(i) < DECODE_MODE)
            <==> !Overflows(from, digits)
  {
    if Overflows(from, digits) {
      var i: nat := if from + digits > 0xff then 0xff else from + digits - 1;
      assert RegisterOf(i) == DECODE_MODE;
    }
  }

  // ----- the driver

  /** Whether a digit is decoded; the ninth never is. */
  predicate Decodes(mode: bv8, digit: byte) {
    digit < 8 && (mode >> digit) & 1 == 1
  }

  class Driver {
    const n: nat
    var bytes: seq<byte>
    var chips: Chips
    var decodeMode: seq<bv8>
    ghost var sent: seq<byte> // all that has been shifted out

    predicate Valid()
      reads this
    {
      AreChips(chips, n) && |bytes| == 2 * n && |decodeMode| == n
    }

    constructor (n: nat, bytes: seq<byte>, chips: Chips)
      requires AreChips(chips, n) && |bytes| == 2 * n
      ensures Valid() && this.n == n && this.bytes == bytes && this.chips == chips && sent == []
    {
      this.n, this.bytes, this.chips, decodeMode, sent := n, bytes, chips, seq(n, _ => 0), [];
    }

    method ShiftOut(b: byte)
      modifies this`bytes, this`sent
      ensures bytes == Shift(old(bytes), b) && sent == old(sent) + [b]
    {
      bytes, sent := Shift(bytes, b), sent + [b];
    }

    method SerialWriteNoop(times: byte)
      modifies this`bytes, this`sent
      ensures bytes == ShiftAll(old(bytes), Zeros(2 * times)) && sent == old(sent) + seq(2 * times, _ => 0)
    {
      hide Shift;
      for i := 0 to times
        invariant bytes == ShiftAll(old(bytes), Zeros(2 * i)) && sent == old(sent) + seq(2 * i, _ => 0)
      {
        TwoMore(old(bytes), 2 * i);
        ShiftOut(0);
        ShiftOut(0);
      }
    }

    method SerialWrite(data: word, chip: byte)
      requires Valid() && chip < n
      modifies this`bytes, this`chips, this`sent
      ensures Valid() && chips == AfterCommand(old(chips), old(bytes), chip, data / 0x100, data % 0x100)
      ensures sent == old(sent) + seq(2 * ((n - chip - 1) % 0x100), _ => 0) + [data / 0x100, data % 0x100]
                      + seq(2 * chip, _ => 0)
    {
      hide Shift, Latch;
      SerialWriteNoop((n - chip - 1) % 0x100);
      ghost var before := Zeros(2 * Before(n, chip));
      ShiftOut(data / 0x100);
      ShiftOut(data % 0x100);
      SerialWriteNoop(chip);
      ShiftParts(old(bytes), before, data / 0x100, data % 0x100, Zeros(2 * chip));
      chips := Latch(chips, bytes);
    }

    method WriteRegister(register: byte, data: byte, chip: byte)
      requires Valid() && chip < n
      modifies this`bytes, this`chips, this`sent
      ensures Valid() && chips == AfterCommand(old(chips), old(bytes), chip, register, data)
      ensures sent == old(sent) + seq(2 * ((n - chip - 1) % 0x100), _ => 0) + [register, data] + seq(2 * chip, _ => 0)
    {
      SerialWrite(register as int * 0x100 + data, chip);
    }

    method SetDigit(chip: byte, digit: byte, value: byte, dotPoint: bool)
      requires Valid() && chip < n
      modifies this`bytes, this`chips, this`sent
      ensures Valid()
      ensures var dotted := dotPoint && Decodes(decodeMode[chip], Clamped(digit)) && value < 0x80;
              var v := if dotted then value + 0x80 else value;
              && chips == AfterCommand(old(chips), old(bytes), chip, RegisterOf(digit), v)
              && sent == old(sent) + seq(2 * ((n - chip - 1) % 0x100), _ => 0)
                         + [if digit > 8 then 9 else digit + 1, v] + seq(2 * chip, _ => 0)
    {
      hide Decodes, AfterCommand;
      var d := Clamped(digit);
      var v := value;
      if Decodes(decodeMode[chip], d) && dotPoint && value < 0x80 {
        v := value + 0x80;
      }
      WriteRegister(DIGIT0 + d, v, chip);
    }

    /** Writes the digits of a number from the last to the first. */
    method WriteInt(chip: byte, num: dword, from: byte, digits: byte)
      requires Valid() && chip < n
      modifies this`bytes, this`chips, this`sent
      ensures Valid()
      ensures n - chip <= 0x100 ==>
                chips == old(chips)[chip := WriteDigits(old(chips[chip]), num, from, digits)]
    {
      hide AfterCommand, RegisterOf;
      ghost var was := chips;
      var left, i := num, from + digits - 1;
      while i >= from
        invariant from - 1 <= i < from + digits && Valid()
        invariant n - chip <= 0x100 ==>
                    && chips == was[chip := chips[chip]]
                    && WriteDigits(chips[chip], left, from, i + 1 - from) == WriteDigits(was[chip], num, from, digits)
      {
        PositionIsByte(i);
        ghost var chips0, bytes0 := chips, bytes;
        SetDigit(chip, i % 0x100, left % 10, false);
        if n - chip <= 0x100 {
          CommandReaches(chips0, bytes0, chip, RegisterOf(i), left % 10);
        }
        left, i := left / 10, i - 1;
      }
    }
  }

  lemma PositionIsByte(i: nat)
    ensures RegisterOf(i % 0x100) == RegisterOf(i) && RegisterOf(i) < 16
  {
  }

  lemma TwoMore(bytes: seq<byte>, n: nat)
    ensures ShiftAll(bytes, Zeros(n + 2)) == Shift(Shift(ShiftAll(bytes, Zeros(n)), 0), 0)
  {
    hide Shift;
    assert Zeros(n + 2)[..n + 1] == Zeros(n + 1) && Zeros(n + 1)[..n] == Zeros(n);
  }

  lemma {:induction false} ShiftAllAppend(bytes: seq<byte>, a: seq<byte>, b: seq<byte>)
    ensures ShiftAll(bytes, a + b) == ShiftAll(ShiftAll(bytes, a), b)
    decreases |b|
  {
    hide Shift;
    if b == [] {
      assert a + b == a;
    } else {
      assert (a + b)[..|a + b| - 1] == a + b[..|b| - 1];
      ShiftAllAppend(bytes, a, b[..|b| - 1]);
    }
  }

  lemma ShiftParts(bytes: seq<byte>, before: seq<byte>, register: byte, data: byte, after: seq<byte>)
    ensures ShiftAll(bytes, before + [register, data] + after) ==
            ShiftAll(Shift(Shift(ShiftAll(bytes, before), register), data), after)
  {
    hide Shift;
    ShiftAllAppend(bytes, before + [register, data], after);
    ShiftAllAppend(bytes, before, [register, data]);
    var x := ShiftAll(bytes, before);
    assert [register, data][..1] == [register] && [register][..0] == [];
    assert ShiftAll(x, [register]) == Shift(ShiftAll(x, []), register);
    assert ShiftAll(x, [register, data]) == Shift(ShiftAll(x, [register]), data);
  }
}
