/** The 32-bit cyclic redundancy check (section 8 of RFC 1952), bit by bit. */
module Crc32 {
  import opened PowersOfTwo

  const WORD := 0x1_0000_0000
  const POLYNOMIAL := 0xEDB8_8320
  const BURST := 32

  /** A 32-bit unsigned integer. */
  type Word = x: int | 0 <= x < WORD
  type Byte = x: int | 0 <= x < 256

  /** Bitwise exclusive or. */
  function Xor(a: nat, b: nat): nat {
    if a == 0 then b
    else if b == 0 then a
    else (if a % 2 == b % 2 then 0 else 1) + 2 * Xor(a / 2, b / 2)
  }

  // ---------------------------------------------------------------- exclusive or

  lemma {:induction false} XorUnfolds(a: nat, b: nat)
    ensures Xor(a, b) == (if a % 2 == b % 2 then 0 else 1) + 2 * Xor(a / 2, b / 2)
  {
    if a == 0 {
      assert Xor(a / 2, b / 2) == b / 2;
    } else if b == 0 {
      assert Xor(a / 2, b / 2) == a / 2;
    }
  }

  lemma {:induction false} XorHalves(a: nat, b: nat)
    ensures Xor(a, b) == (if a % 2 == b % 2 then 0 else 1) + 2 * Xor(a / 2, b / 2)
    ensures Xor(a, b) % 2 == (if a % 2 == b % 2 then 0 else 1) && Xor(a, b) / 2 == Xor(a / 2, b / 2)
  {
    hide Xor;
    XorUnfolds(a, b);
  }

  lemma {:induction false} XorCommutes(a: nat, b: nat)
    ensures Xor(a, b) == Xor(b, a)
  {
    if a != 0 && b != 0 { XorCommutes(a / 2, b / 2); }
  }

  lemma {:induction false} XorAssociates(a: nat, b: nat, c: nat)
    ensures Xor(a, Xor(b, c)) == Xor(Xor(a, b), c)
    decreases a + b + c
  {
    if a + b + c > 0 {
      hide Xor;
      XorAssociates(a / 2, b / 2, c / 2);
      XorHalves(b, c);
      XorHalves(a, b);
      XorHalves(a, Xor(b, c));
      XorHalves(Xor(a, b), c);
    }
  }

  lemma {:induction false} XorSelf(a: nat)
    ensures Xor(a, a) == 0
  {
    if a != 0 { XorSelf(a / 2); }
  }

  lemma {:induction false} XorZero(a: nat)
    ensures Xor(a, 0) == a && Xor(0, a) == a
  {
  }

  lemma {:induction false} XorCancels(a: nat, b: nat)
    ensures Xor(a, Xor(a, b)) == b
  {
    hide Xor;
    XorAssociates(a, a, b);
    XorSelf(a);
    XorZero(b);
  }

  lemma {:induction false} XorFits(a: nat, b: nat, k: nat)
    requires a < Power(k) && b < Power(k)
    ensures Xor(a, b) < Power(k)
    decreases k
  {
    if k > 0 { XorFits(a / 2, b / 2, k - 1); }
  }

  /** A top bit in one word alone stays. */
  lemma {:induction false} XorTop(a: nat, b: nat, k: nat)
    requires a < Power(k) <= b
    ensures Power(k) <= Xor(a, b)
    decreases k
  {
    if k > 0 && a != 0 { XorTop(a / 2, b / 2, k - 1); }
  }

  lemma {:induction false} WordPower()
    ensures Power(32) == WORD && Power(31) == WORD / 2
  {
    assert Power(4) == 16;
    PowerOfBoth(4, 4);
    PowerOfBoth(8, 8);
    PowerOfBoth(16, 16);
  }

  lemma {:induction false} XorIsWord(a: Word, b: Word)
    ensures 0 <= Xor(a, b) < WORD
  {
    WordPower();
    XorFits(a, b, 32);
  }

  // ---------------------------------------------------------------- the check

  /** One turn of the inner loop. */
  function BitStep(c: Word): Word {
    XorIsWord(c / 2, POLYNOMIAL);
    if c % 2 == 1 then Xor(c / 2, POLYNOMIAL) else c / 2
  }

  function BitSteps(n: nat, c: Word): Word {
    if n == 0 then c else BitSteps(n - 1, BitStep(c))
  }

  function Mixed(c: Word, b: Word): Word {
    XorIsWord(c, b);
    Xor(c, b)
  }

  /** The register after a message. */
  function Register(s: seq<Byte>, c: Word): Word {
    if s == [] then c else Register(s[1..], BitSteps(8, Mixed(c, s[0])))
  }

  /** All 32 bits flipped. */
  function Inverse(c: Word): Word {
    WORD - 1 - c
  }

  function Crc(s: seq<Byte>, crc: Word): Word {
    Inverse(Register(s, Inverse(crc)))
  }

  /** `generate_crc32`. */
  method Generate(str: seq<Byte>, crc: Word) returns (r: Word)
    ensures r == Crc(str, crc)
  {
    hide Xor;
    var value: Word := Inverse(crc);
    ghost var all := Register(str, value);
    assert str[0..] == str;
    for i := 0 to |str|
      invariant all == Register(str[i..], value)
    {
      assert str[i..][1..] == str[i + 1..];
      value := Mixed(value, str[i]);
      ghost var shifted := BitSteps(8, value);
      for j := 0 to 8
        invariant shifted == BitSteps(8 - j, value)
      {
        if value % 2 == 1 {
          value := Mixed(value / 2, POLYNOMIAL);
        } else {
          value := value / 2;
        }
      }
    }
    return Inverse(value);
  }

  /** A message can be checked in pieces, each continuing from the result of the one before. */
  lemma {:induction false} CrcContinues(a: seq<Byte>, b: seq<Byte>, crc: Word)
    ensures Crc(a + b, crc) == Crc(b, Crc(a, crc))
  {
    RegisterOfBoth(a, b, Inverse(crc));
  }

  lemma {:induction false} RegisterOfBoth(a: seq<Byte>, b: seq<Byte>, c: Word)
    ensures Register(a + b, c) == Register(b, Register(a, c))
  {
    hide BitSteps, Mixed;
    if a == [] {
      assert a + b == b;
    } else {
      assert (a + b)[1..] == a[1..] + b;
      RegisterOfBoth(a[1..], b, BitSteps(8, Mixed(c, a[0])));
    }
  }

  // ---------------------------------------------------------------- the bit step

  /** The bit step respects exclusive or. */
  lemma {:induction false} BitStepLinear(a: Word, b: Word)
    ensures BitStep(Mixed(a, b)) == Mixed(BitStep(a), BitStep(b))
  {
    hide Xor;
    var x, y := a / 2, b / 2;
    XorHalves(a, b);
    XorAssociates(x, y, POLYNOMIAL);
    XorAssociates(x, POLYNOMIAL, y);
    XorCommutes(POLYNOMIAL, y);
    XorAssociates(Xor(x, POLYNOMIAL), POLYNOMIAL, y);
    XorAssociates(x, POLYNOMIAL, POLYNOMIAL);
    XorSelf(POLYNOMIAL);
    XorZero(x);
  }

  /** The bit step is a bijection on 32-bit words. */
  lemma {:induction false} BitStepInvertible(c: Word)
    ensures Unstep(BitStep(c)) == c && BitStep(Unstep(c)) == c
  {
    hide Xor;
    WordPower();
    XorCommutes(c / 2, POLYNOMIAL);
    XorCancels(POLYNOMIAL, c / 2);
    XorTop(c / 2, POLYNOMIAL, 31);
    XorCommutes(c, POLYNOMIAL);
    XorCommutes(Unmixed(c), POLYNOMIAL);
    XorCancels(POLYNOMIAL, c);
    XorCommutes(Xor(c / 2, POLYNOMIAL), POLYNOMIAL);
    if c >= WORD / 2 { UnmixedFits(c); }
  }

  function Unmixed(d: Word): nat {
    Xor(d, POLYNOMIAL)
  }

  /** Both words have the top bit, so their difference does not. */
  lemma {:induction false} UnmixedFits(d: Word)
    requires WORD / 2 <= d
    ensures Unmixed(d) < WORD / 2
  {
    WordPower();
    XorTopTop(d, POLYNOMIAL, 31);
  }

  lemma {:induction false} XorTopTop(a: nat, b: nat, k: nat)
    requires Power(k) <= a < 2 * Power(k) && Power(k) <= b < 2 * Power(k)
    ensures Xor(a, b) < Power(k)
    decreases k
  {
    if k > 0 { XorTopTop(a / 2, b / 2, k - 1); }
  }

  /** The step backwards. */
  function Unstep(d: Word): Word {
    if WORD / 2 <= d then
      UnmixedFits(d);
      2 * Unmixed(d) + 1
    else 2 * d
  }

  lemma {:induction false} BitStepsInjective(n: nat, a: Word, b: Word)
    requires BitSteps(n, a) == BitSteps(n, b)
    ensures a == b
  {
    hide BitStep, Unstep;
    if n > 0 {
      BitStepsInjective(n - 1, BitStep(a), BitStep(b));
      BitStepInvertible(a);
      BitStepInvertible(b);
    }
  }

  // ---------------------------------------------------------------- messages as bits

  function FromBit(bit: bool): Word {
    if bit then 1 else 0
  }

  function BitRegister(bits: seq<bool>, c: Word): Word {
    if bits == [] then c else BitRegister(bits[1..], BitStep(Mixed(c, FromBit(bits[0]))))
  }

  /** Bits as a number, the first one lowest. */
  function Number(bits: seq<bool>): nat {
    if bits == [] then 0 else FromBit(bits[0]) + 2 * Number(bits[1..])
  }

  lemma {:induction false} NumberFits(bits: seq<bool>)
    ensures Number(bits) < Power(|bits|)
  {
    if bits != [] { NumberFits(bits[1..]); }
  }

  lemma {:induction false} NumberBelow(bits: seq<bool>)
    ensures |bits| < BURST ==> Number(bits) < WORD / 2
    ensures |bits| <= BURST ==> Number(bits) < WORD
  {
    NumberFits(bits);
    WordPower();
    if |bits| < BURST { PowerGrows(|bits|, 31); }
    if |bits| <= BURST { PowerGrows(|bits|, 32); }
  }

  lemma {:induction false} NumberInjective(a: seq<bool>, b: seq<bool>)
    requires |a| == |b| && Number(a) == Number(b)
    ensures a == b
  {
    if a != [] {
      NumberInjective(a[1..], b[1..]);
      assert a == [a[0]] + a[1..] && b == [b[0]] + b[1..];
    }
  }

  lemma {:induction false} AddLowBit(bit: bool, w: nat)
    ensures Xor(FromBit(bit), 2 * w) == FromBit(bit) + 2 * w
  {
    XorHalves(FromBit(bit), 2 * w);
    XorZero(w);
  }

  lemma {:induction false} DoubledStep(w: nat)
    requires w < WORD / 2
    ensures BitStep(2 * w) == w
  {
  }

  /** Up to 32 bits enter the register as if all at once. */
  lemma {:induction false} BitsEnterTogether(bits: seq<bool>, c: Word)
    requires |bits| <= BURST && Number(bits) < WORD
    ensures BitRegister(bits, c) == BitSteps(|bits|, Mixed(c, Number(bits)))
  {
    hide BitStep, Xor;
    if bits == [] {
      XorZero(c);
    } else {
      var bit, w := FromBit(bits[0]), Number(bits[1..]);
      NumberBelow(bits[1..]);
      BitsEnterTogether(bits[1..], BitStep(Mixed(c, bit)));
      AddLowBit(bits[0], w);
      XorAssociates(c, bit, 2 * w);
      BitStepLinear(Mixed(c, bit), 2 * w);
      DoubledStep(w);
    }
  }

  /** Different bits, no more than 32 of them, leave different registers. */
  lemma {:induction false} BurstChanges(a: seq<bool>, b: seq<bool>, c: Word)
    requires |a| == |b| <= BURST && BitRegister(a, c) == BitRegister(b, c)
    ensures a == b
  {
    hide BitRegister, BitSteps, Number, Xor;
    NumberBelow(a);
    NumberBelow(b);
    BitsEnterTogether(a, c);
    BitsEnterTogether(b, c);
    BitStepsInjective(|a|, Mixed(c, Number(a)), Mixed(c, Number(b)));
    XorCancels(c, Number(a));
    XorCancels(c, Number(b));
    NumberInjective(a, b);
  }

  /** What follows never brings different registers together again. */
  lemma {:induction false} BitRegisterInjective(bits: seq<bool>, c: Word, d: Word)
    requires BitRegister(bits, c) == BitRegister(bits, d)
    ensures c == d
  {
    hide BitStep, Unstep, Xor;
    if bits != [] {
      var w := FromBit(bits[0]);
      BitRegisterInjective(bits[1..], BitStep(Mixed(c, w)), BitStep(Mixed(d, w)));
      BitStepInvertible(Mixed(c, w));
      BitStepInvertible(Mixed(d, w));
      XorCommutes(c, w);
      XorCommutes(d, w);
      XorCancels(w, c);
      XorCancels(w, d);
    }
  }

  lemma {:induction false} BitRegisterOfBoth(a: seq<bool>, b: seq<bool>, c: Word)
    ensures BitRegister(a + b, c) == BitRegister(b, BitRegister(a, c))
  {
    hide BitStep, Mixed;
    if a == [] {
      assert a + b == b;
    } else {
      assert (a + b)[1..] == a[1..] + b;
      BitRegisterOfBoth(a[1..], b, BitStep(Mixed(c, FromBit(a[0]))));
    }
  }

  // ---------------------------------------------------------------- bytes as bits

  /** The k lowest bits, lowest first. */
  function LowBits(b: nat, k: nat): (r: seq<bool>)
    ensures |r| == k
  {
    if k == 0 then [] else [b % 2 == 1] + LowBits(b / 2, k - 1)
  }

  function Bits(s: seq<Byte>): (r: seq<bool>)
    ensures |r| == 8 * |s|
  {
    if s == [] then [] else LowBits(s[0], 8) + Bits(s[1..])
  }

  lemma {:induction false} LowBitsNumber(b: nat, k: nat)
    requires b < Power(k)
    ensures Number(LowBits(b, k)) == b
  {
    if k > 0 {
      LowBitsNumber(b / 2, k - 1);
      assert LowBits(b, k)[1..] == LowBits(b / 2, k - 1);
    }
  }

  lemma {:induction false} ByteNumber(b: Byte)
    ensures Number(LowBits(b, 8)) == b
  {
    assert Power(8) == 256 by { PowerOfBoth(4, 4); }
    LowBitsNumber(b, 8);
  }

  /** Eight turns after the byte is mixed in are one turn after each bit is. */
  lemma {:induction false} RegisterIsBitwise(s: seq<Byte>, c: Word)
    ensures Register(s, c) == BitRegister(Bits(s), c)
  {
    hide BitSteps, BitRegister, Mixed, LowBits;
    if s == [] {
      assert BitRegister([], c) == c by { NoBits(c); }
    } else {
      ByteNumber(s[0]);
      BitsEnterTogether(LowBits(s[0], 8), c);
      RegisterIsBitwise(s[1..], BitSteps(8, Mixed(c, s[0])));
      BitRegisterOfBoth(LowBits(s[0], 8), Bits(s[1..]), c);
    }
  }

  lemma {:induction false} NoBits(c: Word)
    ensures BitRegister([], c) == c
  {
  }

  lemma {:induction false} BitsInjective(a: seq<Byte>, b: seq<Byte>)
    requires |a| == |b| && Bits(a) == Bits(b)
    ensures a == b
  {
    hide LowBits;
    if a != [] {
      ByteNumber(a[0]);
      ByteNumber(b[0]);
      assert LowBits(a[0], 8) == Bits(a)[..8] && LowBits(b[0], 8) == Bits(b)[..8];
      assert Bits(a[1..]) == Bits(a)[8..] && Bits(b[1..]) == Bits(b)[8..];
      BitsInjective(a[1..], b[1..]);
      assert a == [a[0]] + a[1..] && b == [b[0]] + b[1..];
    }
  }

  /** Messages that differ only within 32 consecutive bits, wherever these lie, have different checks. */
  lemma {:induction false} BurstIsDetected(s: seq<Byte>, t: seq<Byte>, from: nat, to: nat, crc: Word)
    requires |s| == |t| && from <= to <= 8 * |s| && to - from <= BURST
    requires Bits(s)[..from] == Bits(t)[..from] && Bits(s)[to..] == Bits(t)[to..]
    ensures Crc(s, crc) == Crc(t, crc) <==> s == t
  {
    hide Register, BitRegister, Bits;
    var c := Inverse(crc);
    RegisterIsBitwise(s, c);
    RegisterIsBitwise(t, c);
    var head, tail := Bits(s)[..from], Bits(s)[to..];
    var a, b := Bits(s)[from..to], Bits(t)[from..to];
    assert Bits(s) == head + (a + tail) && Bits(t) == head + (b + tail);
    BitRegisterOfBoth(head, a + tail, c);
    BitRegisterOfBoth(head, b + tail, c);
    var d := BitRegister(head, c);
    BitRegisterOfBoth(a, tail, d);
    BitRegisterOfBoth(b, tail, d);
    if Crc(s, crc) == Crc(t, crc) {
      BitRegisterInjective(tail, BitRegister(a, d), BitRegister(b, d));
      BurstChanges(a, b, d);
      BitsInjective(s, t);
    }
  }

  lemma {:induction false} BitsOfBoth(a: seq<Byte>, b: seq<Byte>)
    ensures Bits(a + b) == Bits(a) + Bits(b)
  {
    hide LowBits;
    if a == [] {
      assert a + b == b;
    } else {
      assert (a + b)[1..] == a[1..] + b;
      BitsOfBoth(a[1..], b);
    }
  }

  /** In particular, messages that differ only within four consecutive bytes. */
  lemma {:induction false} FourBytesAreDetected(head: seq<Byte>, a: seq<Byte>, b: seq<Byte>, tail: seq<Byte>, crc: Word)
    requires |a| == |b| <= 4
    ensures Crc(head + a + tail, crc) == Crc(head + b + tail, crc) <==> a == b
  {
    hide Bits, Crc;
    var s, t := head + a + tail, head + b + tail;
    BitsOfBoth(head + a, tail);
    BitsOfBoth(head + b, tail);
    BitsOfBoth(head, a);
    BitsOfBoth(head, b);
    BurstIsDetected(s, t, 8 * |head|, 8 * (|head| + |a|), crc);
    assert s[|head|..|head| + |a|] == a && t[|head|..|head| + |a|] == b;
  }

  // ---------------------------------------------------------------- the generator and the residue

  lemma {:induction false} BitStepsUnfold(n: nat, c: Word)
    ensures n > 0 ==> BitSteps(n, c) == BitSteps(n - 1, BitStep(c))
    ensures BitSteps(0, c) == c
  {
  }

  /** A single bit is shifted out whole. */
  lemma {:induction false} OneShifts(n: nat)
    requires n <= 8
    ensures Power(n) < WORD && BitSteps(n + 1, Power(n)) == BitStep(1)
  {
    hide Xor, BitStep, BitSteps;
    PowerGrows(n, 8);
    PowerOfBoth(4, 4);
    assert Power(4) == 16;
    BitStepsUnfold(n + 1, Power(n));
    if n == 0 {
      BitStepsUnfold(0, BitStep(1));
    } else {
      OneShifts(n - 1);
      DoubledStep(Power(n - 1));
    }
  }

  /** Seven zeros and a one, sent into an empty register, leave the generator x^32 + x^26 + x^23 + x^22 +
      x^16 + x^12 + x^11 + x^10 + x^8 + x^7 + x^5 + x^4 + x^2 + x + 1, the coefficient of x^k in bit
      31 - k; and the check is its complement. */
  lemma {:induction false} GeneratorIsLeft()
    ensures Register([0x80], 0) == 0xEDB8_8320 && Crc([0x80], 0xFFFF_FFFF) == 0x1247_7CDF
  {
    hide Xor, BitSteps;
    XorZero(0x80);
    XorZero(POLYNOMIAL);
    assert [0x80][1..] == [];
    assert Power(7) == 0x80 by { PowerOfBoth(3, 4); }
    OneShifts(7);
  }

  lemma {:induction false} NumberOfBoth(a: seq<bool>, b: seq<bool>)
    ensures Number(a + b) == Number(a) + Power(|a|) * Number(b)
  {
    if a == [] {
      assert a + b == b;
    } else {
      assert (a + b)[1..] == a[1..] + b;
      NumberOfBoth(a[1..], b);
      Doubled(Power(|a| - 1), Number(b));
    }
  }

  lemma {:induction false} Doubled(p: nat, n: nat)
    ensures 2 * (p * n) == (2 * p) * n
  {
  }

  /** The bytes of a word, lowest first. */
  function Little(w: Word): seq<Byte> {
    [w % 256, w / 256 % 256, w / 0x1_0000 % 256, w / 0x100_0000]
  }

  lemma {:induction false} ByteFirst(b: Byte, rest: seq<Byte>)
    ensures Number(Bits([b] + rest)) == b + 256 * Number(Bits(rest))
  {
    hide LowBits, Number;
    assert ([b] + rest)[1..] == rest;
    ByteNumber(b);
    NumberOfBoth(LowBits(b, 8), Bits(rest));
    assert Power(8) == 256 by { PowerOfBoth(4, 4); }
  }

  lemma {:induction false} LittleNumber(w: Word)
    ensures Number(Bits(Little(w))) == w
  {
    hide LowBits, Bits, Number;
    var a, b, c := w / 256, w / 0x1_0000, w / 0x100_0000;
    var little := Little(w);
    assert little == [w % 256] + [a % 256, b % 256, c];
    assert [a % 256, b % 256, c] == [a % 256] + [b % 256, c] && [b % 256, c] == [b % 256] + [c] && [c] == [c] + [];
    ByteFirst(c, []);
    ByteFirst(b % 256, [c]);
    ByteFirst(a % 256, [b % 256, c]);
    ByteFirst(w % 256, [a % 256, b % 256, c]);
    NothingIsZero();
    Quarters(w);
  }

  lemma {:induction false} Quarters(w: Word)
    ensures var a, b, c := w / 256, w / 0x1_0000, w / 0x100_0000;
            && 0 <= c < 256 && w == w % 256 + 256 * (a % 256 + 256 * (b % 256 + 256 * c))
  {
    var a, b, c := w / 256, w / 0x1_0000, w / 0x100_0000;
    assert b == a / 256 && c == b / 256;
    assert a == a % 256 + 256 * b && b == b % 256 + 256 * c;
  }

  lemma {:induction false} NothingIsZero()
    ensures Number(Bits([])) == 0
  {
  }

  lemma {:induction false} XorComplement(a: nat, k: nat)
    requires a < Power(k)
    ensures Xor(a, Power(k) - 1 - a) == Power(k) - 1
    decreases k
  {
    if k > 0 {
      hide Xor;
      XorComplement(a / 2, k - 1);
      XorHalves(a, Power(k) - 1 - a);
    } else {
      XorZero(0);
    }
  }

  /** A message with its check behind it, lowest byte first, always has the same check, whatever the
      message and the value it was started from: a receiver compares with a constant. */
  lemma {:induction false} ResidueIsConstant(s: seq<Byte>, crc: Word)
    ensures Crc(s + Little(Crc(s, crc)), crc) == Inverse(BitSteps(32, WORD - 1))
  {
    hide Xor, BitStep, BitSteps, Bits, Number, Little;
    var r := Register(s, Inverse(crc));
    var tail := Little(Inverse(r));
    RegisterOfBoth(s, tail, Inverse(crc));
    RegisterIsBitwise(tail, r);
    LittleNumber(Inverse(r));
    assert |Bits(tail)| == 32 by { FourBytes(Inverse(r)); }
    BitsEnterTogether(Bits(tail), r);
    WordPower();
    XorComplement(r, 32);
  }

  lemma {:induction false} FourBytes(w: Word)
    ensures |Bits(Little(w))| == 32
  {
    hide LowBits;
  }
}
