/**
 * The page checksum of RFC 3533, section 6: the bit-serial CRC with generator 0x04c11db7, the
 * byte-at-a-time form that looks its feedback up in a table, and the corruption the checksum detects.
 */
module OggChecksum {

  /** The 32 bits of the checksum register. */
  datatype Word = Word(bits: bv32)

  const ZERO := Word(0)

  function Xor(a: Word, b: Word): Word {
    Word(a.bits ^ b.bits)
  }

  function Shift(r: Word): Word {
    Word(r.bits << 1)
  }

  function ShiftByte(r: Word): Word {
    Word(r.bits << 8)
  }

  predicate Top(r: Word) {
    r.bits & 0x80000000 != 0
  }

  function Feedback(top: bool): Word {
    Word(if top then 0x04c11db7 else 0)
  }

  // ---- The definition, bit by bit ----

  /** Shifting one message bit into the register, the most significant bit leaving. */
  function BitIn(r: Word, bit: bool): Word {
    Xor(Shift(r), Feedback(Top(r) != bit))
  }

  /** Shifting in the first n bits of v, most significant first. */
  function BitsIn(bitIn: (Word, bool) -> Word, r: Word, v: bv8, n: nat): Word
    decreases n
  {
    if n == 0 then r else BitsIn(bitIn, bitIn(r, v & 0x80 != 0), v << 1, n - 1)
  }

  /** The checksum of a message continued from r. */
  function Crc(r: Word, bytes: seq<bv8>): Word
    decreases bytes
  {
    if bytes == [] then r else Crc(BitsIn(BitIn, r, bytes[0], 8), bytes[1..])
  }

  // ---- Iterating a step ----

  function Iterate<T>(f: T -> T, x: T, n: nat): T
    decreases n
  {
    if n == 0 then x else Iterate(f, f(x), n - 1)
  }

  lemma {:induction false} IterateCompose<T>(f: T -> T, x: T, m: nat, n: nat)
    ensures Iterate(f, Iterate(f, x, m), n) == Iterate(f, x, m + n)
    decreases m
  {
    if m > 0 {
      IterateCompose(f, f(x), m - 1, n);
    }
  }

  ghost predicate Additive(f: Word -> Word) {
    forall a, b :: f(Xor(a, b)) == Xor(f(a), f(b))
  }

  lemma {:induction false} IterateAdditive(f: Word -> Word, x: Word, y: Word, n: nat)
    requires Additive(f)
    ensures Iterate(f, Xor(x, y), n) == Xor(Iterate(f, x, n), Iterate(f, y, n))
    decreases n
  {
    if n > 0 {
      assert f(Xor(x, y)) == Xor(f(x), f(y));
      IterateAdditive(f, f(x), f(y), n - 1);
    }
  }

  ghost predicate Injective(f: Word -> Word) {
    forall a, b :: f(a) == f(b) ==> a == b
  }

  lemma {:induction false} IterateInjective(f: Word -> Word, x: Word, y: Word, n: nat)
    requires Injective(f) && Iterate(f, x, n) == Iterate(f, y, n)
    ensures x == y
    decreases n
  {
    if n > 0 {
      IterateInjective(f, f(x), f(y), n - 1);
    }
  }

  /** While no bit leaves, the register only shifts. */
  ghost predicate Shifting(f: Word -> Word) {
    forall a {:trigger Top(a)} :: !Top(a) ==> f(a) == Shift(a)
  }

  predicate TopByteClear(r: Word) {
    r.bits & 0xFF000000 == 0
  }

  predicate TopNibbleClear(r: Word) {
    r.bits & 0xF0000000 == 0
  }

  lemma FourTops(r: Word, a: Word, b: Word, c: Word)
    requires TopNibbleClear(r) && a == Shift(r) && b == Shift(a) && c == Shift(b)
    ensures !Top(r) && !Top(a) && !Top(b) && !Top(c)
  {
  }

  lemma FourBits(r: Word, a: Word, b: Word, c: Word, d: Word)
    requires a == Shift(r) && b == Shift(a) && c == Shift(b) && d == Shift(c)
    ensures d.bits == r.bits << 4
  {
  }

  lemma IterateFour(f: Word -> Word, r: Word) returns (d: Word)
    requires Shifting(f) && TopNibbleClear(r)
    ensures d == Iterate(f, r, 4) && d.bits == r.bits << 4
  {
    var a := Shift(r);
    var b := Shift(a);
    var c := Shift(b);
    d := Shift(c);
    FourTops(r, a, b, c);
    FourBits(r, a, b, c, d);
    assert Iterate(f, f(f(r)), 2) == f(f(f(f(r))));
  }

  lemma NibblesClear(r: Word)
    requires TopByteClear(r)
    ensures TopNibbleClear(r)
  {
  }

  lemma SecondNibbleClear(r: Word, d: Word)
    requires TopByteClear(r) && d.bits == r.bits << 4
    ensures TopNibbleClear(d)
  {
  }

  lemma TwoNibbles(r: Word, d: Word, h: Word, shifted: Word)
    requires d.bits == r.bits << 4 && h.bits == d.bits << 4 && shifted == ShiftByte(r)
    ensures h.bits == shifted.bits
  {
  }

  lemma IterateShift(f: Word -> Word, r: Word)
    requires Shifting(f) && TopByteClear(r)
    ensures Iterate(f, r, 8) == ShiftByte(r)
  {
    NibblesClear(r);
    var d := IterateFour(f, r);
    SecondNibbleClear(r, d);
    var h := IterateFour(f, d);
    TwoNibbles(r, d, h, ShiftByte(r));
    IterateCompose(f, r, 4, 4);
  }

  // ---- One step of the register without input ----

  function BitStep(r: Word): Word {
    Fed(Shift(r), Feedback(true), Top(r))
  }

  lemma TopXor(a: Word, b: Word, c: Word)
    requires c == Xor(a, b)
    ensures Top(a) && Top(b) ==> !Top(c)
    ensures Top(a) && !Top(b) ==> Top(c)
    ensures !Top(a) && Top(b) ==> Top(c)
    ensures !Top(a) && !Top(b) ==> !Top(c)
  {
  }

  lemma ShiftXor(a: Word, b: Word, c: Word)
    requires c == Xor(a, b)
    ensures Shift(c) == Xor(Shift(a), Shift(b))
  {
  }

  lemma XorLast(a: Word, b: Word, p: Word, c: Word, d: Word)
    requires c == Xor(a, b) && d == Xor(a, p)
    ensures Xor(c, p) == Xor(d, b)
  {
  }

  lemma XorAssociates(a: Word, b: Word, p: Word, c: Word, d: Word)
    requires c == Xor(a, b) && d == Xor(b, p)
    ensures Xor(c, p) == Xor(a, d)
  {
  }

  lemma XorBoth(a: Word, b: Word, p: Word, c: Word, d: Word, e: Word)
    requires c == Xor(a, b) && d == Xor(a, p) && e == Xor(b, p)
    ensures c == Xor(d, e)
  {
  }

  function Fed(r: Word, p: Word, top: bool): Word {
    if top then Xor(r, p) else r
  }

  lemma FeedbackXor(a: Word, b: Word, c: Word, p: Word, topA: bool, topB: bool, topC: bool)
    requires c == Xor(a, b) && topC == (topA != topB)
    ensures Fed(c, p, topC) == Xor(Fed(a, p, topA), Fed(b, p, topB))
  {
    if topA && topB {
      XorBoth(a, b, p, c, Xor(a, p), Xor(b, p));
    } else if topA {
      XorLast(a, b, p, c, Xor(a, p));
    } else if topB {
      XorAssociates(a, b, p, c, Xor(b, p));
    }
  }

  lemma TopXorIff(a: Word, b: Word, c: Word)
    requires c == Xor(a, b)
    ensures Top(c) == (Top(a) != Top(b))
  {
    TopXor(a, b, c);
  }

  lemma BitStepOfShift(a: Word, b: Word, c: Word)
    requires Shift(c) == Xor(Shift(a), Shift(b)) && Top(c) == (Top(a) != Top(b))
    ensures BitStep(c) == Xor(BitStep(a), BitStep(b))
  {
    FeedbackXor(Shift(a), Shift(b), Shift(c), Feedback(true), Top(a), Top(b), Top(c));
  }

  lemma BitStepXor(a: Word, b: Word, c: Word)
    requires c == Xor(a, b)
    ensures BitStep(c) == Xor(BitStep(a), BitStep(b))
  {
    TopXorIff(a, b, c);
    ShiftXor(a, b, c);
    BitStepOfShift(a, b, c);
  }

  lemma BitStepLinear()
    ensures Additive(BitStep) && Shifting(BitStep)
  {
    forall a, b ensures BitStep(Xor(a, b)) == Xor(BitStep(a), BitStep(b)) {
      BitStepXor(a, b, Xor(a, b));
    }
  }

  lemma OnlyZeroVanishes(r: Word)
    ensures BitStep(r) == ZERO ==> r == ZERO
  {
  }

  lemma XorZero(a: Word, b: Word)
    ensures Xor(a, b) == ZERO <==> a == b
  {
  }

  lemma BitStepInjective()
    ensures Injective(BitStep)
  {
    forall a, b | BitStep(a) == BitStep(b) ensures a == b {
      BitStepXor(a, b, Xor(a, b));
      XorZero(BitStep(a), BitStep(b));
      OnlyZeroVanishes(Xor(a, b));
      XorZero(a, b);
    }
  }

  /** Eight steps: what the table holds for a byte, and what a byte does to the register. */
  function ByteStep(r: Word): Word {
    Iterate(BitStep, r, 8)
  }

  ghost predicate ByteShifting(g: Word -> Word) {
    forall a {:trigger TopByteClear(a)} :: TopByteClear(a) ==> g(a) == ShiftByte(a)
  }

  lemma ByteStepLinear()
    ensures Additive(ByteStep) && ByteShifting(ByteStep) && Injective(ByteStep)
  {
    BitStepLinear();
    BitStepInjective();
    forall a, b ensures ByteStep(Xor(a, b)) == Xor(ByteStep(a), ByteStep(b)) {
      IterateAdditive(BitStep, a, b, 8);
    }
    forall a | TopByteClear(a) ensures ByteStep(a) == ShiftByte(a) {
      IterateShift(BitStep, a);
    }
    forall a, b | ByteStep(a) == ByteStep(b) ensures a == b {
      IterateInjective(BitStep, a, b, 8);
    }
  }

  // ---- The table form ----

  function Lift(v: bv8): Word {
    Word((v as bv32) << 24)
  }

  /** A byte mixed in at the top of the register. */
  function Mixed(r: Word, v: bv8): Word {
    Xor(r, Lift(v))
  }

  /** The byte leaving the register, mixed with the next one. */
  function Index(r: Word, v: bv8): bv8 {
    (r.bits >> 24) as bv8 ^ v
  }

  /** The fast form, with the table of a step g. */
  function ByteIn(g: Word -> Word, r: Word, v: bv8): Word {
    Xor(ShiftByte(r), g(Lift(Index(r, v))))
  }

  function LowBytes(r: Word): Word {
    Word(r.bits & 0x00FFFFFF)
  }

  lemma MixedJoins(r: Word, v: bv8, x: Word, t: bv8)
    requires x == Mixed(r, v) && t == Index(r, v)
    ensures Xor(Lift(t), LowBytes(x)) == x
  {
  }

  lemma MixedShifts(r: Word, v: bv8, x: Word)
    requires x == Mixed(r, v)
    ensures ShiftByte(LowBytes(x)) == ShiftByte(r)
  {
  }

  lemma LowIsClear(x: Word)
    ensures TopByteClear(LowBytes(x))
  {
  }

  lemma StepOfParts(g: Word -> Word, high: Word, low: Word)
    requires Additive(g) && ByteShifting(g) && TopByteClear(low)
    ensures g(Xor(high, low)) == Xor(ShiftByte(low), g(high))
  {
  }

  lemma ByteInIsStep(g: Word -> Word, r: Word, v: bv8)
    requires Additive(g) && ByteShifting(g)
    ensures ByteIn(g, r, v) == g(Mixed(r, v))
  {
    MixedJoins(r, v, Mixed(r, v), Index(r, v));
    MixedShifts(r, v, Mixed(r, v));
    LowIsClear(Mixed(r, v));
    StepOfParts(g, Lift(Index(r, v)), LowBytes(Mixed(r, v)));
  }

  // ---- The two forms agree ----

  /** A message bit meets the bit leaving the register, as if it had been at its top all along. */
  ghost predicate Feeds(f: Word -> Word, bitIn: (Word, bool) -> Word) {
    forall r, v :: f(Mixed(r, v)) == Mixed(bitIn(r, v & 0x80 != 0), v << 1)
  }

  function Shifted(v: bv8, n: nat): bv8
    decreases n
  {
    if n == 0 then v else Shifted(v << 1, n - 1)
  }

  lemma {:induction false} BitsInAreSteps(f: Word -> Word, bitIn: (Word, bool) -> Word, r: Word, v: bv8, n: nat)
    requires Feeds(f, bitIn)
    ensures Iterate(f, Mixed(r, v), n) == Mixed(BitsIn(bitIn, r, v, n), Shifted(v, n))
    decreases n
  {
    if n > 0 {
      BitsInAreSteps(f, bitIn, bitIn(r, v & 0x80 != 0), v << 1, n - 1);
    }
  }

  lemma ShiftedOut(v: bv8)
    ensures Shifted(v, 8) == 0
  {
  }

  lemma MixedTop(r: Word, v: bv8)
    ensures Top(Mixed(r, v)) <==> Top(r) != (v & 0x80 != 0)
  {
    TopXor(r, Lift(v), Mixed(r, v));
    TopLift(v);
  }

  lemma TopLift(v: bv8)
    ensures Top(Lift(v)) == (v & 0x80 != 0) && Shift(Lift(v)) == Lift(v << 1)
  {
  }

  lemma MixedShift(r: Word, v: bv8)
    ensures Shift(Mixed(r, v)) == Mixed(Shift(r), v << 1)
  {
  }

  lemma MixedZero(r: Word)
    ensures Mixed(r, 0) == r && Xor(r, Feedback(false)) == r
  {
  }

  lemma BitStepFeeds()
    ensures Feeds(BitStep, BitIn)
  {
    forall r, v ensures BitStep(Mixed(r, v)) == Mixed(BitIn(r, v & 0x80 != 0), v << 1) {
      MixedTop(r, v);
      MixedShift(r, v);
      var shifted := Mixed(Shift(r), v << 1);
      XorLast(Shift(r), Lift(v << 1), Feedback(true), shifted, Xor(Shift(r), Feedback(true)));
      MixedZero(Shift(r));
    }
  }

  /** A byte through the table changes the register as its eight bits do. */
  lemma TableMatchesBits(r: Word, v: bv8)
    ensures ByteIn(ByteStep, r, v) == ByteStep(Mixed(r, v)) == BitsIn(BitIn, r, v, 8)
  {
    ByteStepLinear();
    ByteInIsStep(ByteStep, r, v);
    BitStepFeeds();
    BitsInAreSteps(BitStep, BitIn, r, v, 8);
    ShiftedOut(v);
    MixedZero(BitsIn(BitIn, r, v, 8));
  }

  lemma CrcStep(r: Word, bytes: seq<bv8>)
    requires bytes != []
    ensures Crc(r, bytes) == Crc(ByteStep(Mixed(r, bytes[0])), bytes[1..])
  {
    TableMatchesBits(r, bytes[0]);
  }
}
