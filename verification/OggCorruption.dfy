/** What the checksum detects: any corruption of a message confined to four consecutive bytes. */
module OggCorruption {
  import opened OggChecksum

  lemma {:induction false} CrcAppend(r: Word, a: seq<bv8>, b: seq<bv8>)
    ensures Crc(r, a + b) == Crc(Crc(r, a), b)
    decreases a
  {
    if a == [] {
      assert a + b == b;
    } else {
      assert (a + b)[0] == a[0] && (a + b)[1..] == a[1..] + b;
      CrcAppend(BitsIn(BitIn, r, a[0], 8), a[1..], b);
    }
  }

  lemma MixedInjective(r: Word, q: Word, v: bv8)
    requires Mixed(r, v) == Mixed(q, v)
    ensures r == q
  {
  }

  /** The register is never forgotten: different registers stay different over the same bytes. */
  lemma {:induction false} CrcKeepsDifference(r: Word, q: Word, bytes: seq<bv8>)
    requires Crc(r, bytes) == Crc(q, bytes)
    ensures r == q
    decreases bytes
  {
    if bytes == [] {
    } else {
      CrcStep(r, bytes);
      CrcStep(q, bytes);
      CrcKeepsDifference(ByteStep(Mixed(r, bytes[0])), ByteStep(Mixed(q, bytes[0])), bytes[1..]);
      ByteStepLinear();
      MixedInjective(r, q, bytes[0]);
    }
  }

  // ---- Four bytes ----

  function Third(v: bv8): Word {
    Word((v as bv32) << 16)
  }

  function Second(v: bv8): Word {
    Word((v as bv32) << 8)
  }

  function First(v: bv8): Word {
    Word(v as bv32)
  }

  lemma LowerBytes(v: bv8)
    ensures TopByteClear(Third(v)) && ShiftByte(Third(v)) == Lift(v)
    ensures TopByteClear(Second(v)) && ShiftByte(Second(v)) == Third(v)
    ensures TopByteClear(First(v)) && ShiftByte(First(v)) == Second(v)
  {
  }

  lemma Absorbed(g: Word -> Word, x: Word, low: Word)
    requires Additive(g)
    ensures Xor(g(x), g(low)) == g(Xor(x, low))
  {
  }

  /** Four bytes meet the register at once. */
  function Joined(r: Word, a: bv8, b: bv8, c: bv8, d: bv8): Word {
    Xor(Xor(Xor(Mixed(r, a), Third(b)), Second(c)), First(d))
  }

  function FourMixed(r: Word, s: seq<bv8>): Word
    requires |s| == 4
  {
    Joined(r, s[0], s[1], s[2], s[3])
  }

  lemma FourBytes(g: Word -> Word, r: Word, s: seq<bv8>)
    requires Additive(g) && ByteShifting(g) && |s| == 4
    ensures g(Mixed(g(Mixed(g(Mixed(g(Mixed(r, s[0])), s[1])), s[2])), s[3])) == g(g(g(g(FourMixed(r, s)))))
  {
    var a := Mixed(r, s[0]);
    LowerBytes(s[1]);
    LowerBytes(s[2]);
    LowerBytes(s[3]);
    Absorbed(g, a, Third(s[1]));
    var b := Xor(a, Third(s[1]));
    Absorbed(g, g(b), Third(s[2]));
    Absorbed(g, b, Second(s[2]));
    var c := Xor(b, Second(s[2]));
    Absorbed(g, g(g(c)), Third(s[3]));
    Absorbed(g, g(c), Second(s[3]));
    Absorbed(g, c, First(s[3]));
  }

  lemma CrcOfFour(r: Word, s: seq<bv8>)
    requires |s| == 4
    ensures Crc(r, s) ==
      ByteStep(Mixed(ByteStep(Mixed(ByteStep(Mixed(ByteStep(Mixed(r, s[0])), s[1])), s[2])), s[3]))
  {
    var a := ByteStep(Mixed(r, s[0]));
    var b := ByteStep(Mixed(a, s[1]));
    var c := ByteStep(Mixed(b, s[2]));
    CrcStep(r, s);
    CrcStep(a, s[1..]);
    CrcStep(b, s[1..][1..]);
    CrcStep(c, s[1..][1..][1..]);
  }

  /** The bits of four joined bytes, named one byte after the other. */
  ghost predicate JoinedBits(r: bv32, a: bv8, b: bv8, c: bv8, d: bv8, p: bv32, q: bv32, s: bv32, t: bv32) {
    && p == r ^ ((a as bv32) << 24) && q == p ^ ((b as bv32) << 16)
    && s == q ^ ((c as bv32) << 8) && t == s ^ (d as bv32)
  }

  lemma MixedHasBits(r: Word, a: bv8, w: Word)
    requires w == Mixed(r, a)
    ensures w.bits == r.bits ^ ((a as bv32) << 24)
  {
  }

  lemma ThirdHasBits(w: Word, b: bv8, x: Word)
    requires x == Xor(w, Third(b))
    ensures x.bits == w.bits ^ ((b as bv32) << 16)
  {
  }

  lemma SecondHasBits(x: Word, c: bv8, y: Word)
    requires y == Xor(x, Second(c))
    ensures y.bits == x.bits ^ ((c as bv32) << 8)
  {
  }

  lemma FirstHasBits(y: Word, d: bv8, z: Word)
    requires z == Xor(y, First(d))
    ensures z.bits == y.bits ^ (d as bv32)
  {
  }

  lemma JoinedHasBits(r: Word, a: bv8, b: bv8, c: bv8, d: bv8, w: Word, x: Word, y: Word, z: Word)
    requires w == Mixed(r, a) && x == Xor(w, Third(b)) && y == Xor(x, Second(c)) && z == Xor(y, First(d))
    ensures JoinedBits(r.bits, a, b, c, d, w.bits, x.bits, y.bits, z.bits)
  {
    MixedHasBits(r, a, w);
    ThirdHasBits(w, b, x);
    SecondHasBits(x, c, y);
    FirstHasBits(y, d, z);
  }

  lemma JoinedBitsTell(r: bv32, t: bv32, a: bv8, b: bv8, c: bv8, d: bv8, p: bv32, q: bv32, s: bv32,
                       e: bv8, f: bv8, g: bv8, h: bv8, i: bv32, j: bv32, k: bv32)
    requires JoinedBits(r, a, b, c, d, p, q, s, t) && JoinedBits(r, e, f, g, h, i, j, k, t)
    ensures a == e && b == f && c == g && d == h
  {
  }

  lemma JoinedNames(v: Word, r: Word, a: bv8, b: bv8, c: bv8, d: bv8) returns (p: bv32, q: bv32, s: bv32)
    requires v == Joined(r, a, b, c, d)
    ensures JoinedBits(r.bits, a, b, c, d, p, q, s, v.bits)
  {
    var w := Mixed(r, a);
    var x := Xor(w, Third(b));
    var y := Xor(x, Second(c));
    JoinedHasBits(r, a, b, c, d, w, x, y, v);
    p, q, s := w.bits, x.bits, y.bits;
  }

  lemma JoinedTells(v: Word, r: Word, a: bv8, b: bv8, c: bv8, d: bv8, e: bv8, f: bv8, g: bv8, h: bv8)
    requires v == Joined(r, a, b, c, d) && v == Joined(r, e, f, g, h)
    ensures a == e && b == f && c == g && d == h
  {
    var w, x, y := JoinedNames(v, r, a, b, c, d);
    var i, j, k := JoinedNames(v, r, e, f, g, h);
    JoinedBitsTell(r.bits, v.bits, a, b, c, d, w, x, y, e, f, g, h, i, j, k);
  }

  lemma FourMixedInjective(r: Word, s: seq<bv8>, t: seq<bv8>)
    requires |s| == 4 && |t| == 4 && FourMixed(r, s) == FourMixed(r, t)
    ensures s == t
  {
    JoinedTells(FourMixed(r, s), r, s[0], s[1], s[2], s[3], t[0], t[1], t[2], t[3]);
  }

  lemma FourBytesTell(r: Word, s: seq<bv8>, t: seq<bv8>)
    requires |s| == 4 && |t| == 4 && Crc(r, s) == Crc(r, t)
    ensures s == t
  {
    ByteStepLinear();
    CrcOfFour(r, s);
    CrcOfFour(r, t);
    FourBytes(ByteStep, r, s);
    FourBytes(ByteStep, r, t);
    FourMixedInjective(r, s, t);
  }

  /** Four corrupted bytes anywhere in a message always change its checksum. */
  lemma CorruptionTells(r: Word, before: seq<bv8>, s: seq<bv8>, t: seq<bv8>, after: seq<bv8>)
    requires |s| == 4 && |t| == 4 && s != t
    ensures Crc(r, before + s + after) != Crc(r, before + t + after)
  {
    if Crc(r, before + s + after) == Crc(r, before + t + after) {
      CrcAppend(r, before + s, after);
      CrcAppend(r, before + t, after);
      CrcAppend(r, before, s);
      CrcAppend(r, before, t);
      CrcKeepsDifference(Crc(r, before + s), Crc(r, before + t), after);
      FourBytesTell(Crc(r, before), s, t);
      assert false;
    }
  }

  /** So do fewer, in a message of four bytes or more. */
  lemma ShortCorruptionTells(r: Word, before: seq<bv8>, s: seq<bv8>, t: seq<bv8>, after: seq<bv8>)
    requires |s| == |t| <= 4 && s != t && (4 - |s| <= |before| || 4 - |s| <= |after|)
    ensures Crc(r, before + s + after) != Crc(r, before + t + after)
  {
    if 4 - |s| <= |before| {
      var k := |before| - (4 - |s|);
      var a, b := before[..k], before[k..];
      assert before + s + after == a + (b + s) + after && before + t + after == a + (b + t) + after;
      assert (b + s)[|b|..] == s && (b + t)[|b|..] == t;
      CorruptionTells(r, a, b + s, b + t, after);
    } else {
      var a, b := after[..4 - |s|], after[4 - |s|..];
      assert before + s + after == before + (s + a) + b && before + t + after == before + (t + a) + b;
      assert (s + a)[..|s|] == s && (t + a)[..|s|] == t;
      CorruptionTells(r, before, s + a, t + a, b);
    }
  }
}
