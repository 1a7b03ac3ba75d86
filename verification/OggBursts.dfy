/** The checksum detects every burst of up to 32 bits, wherever in a byte it starts. */
module OggBursts {
  import opened OggChecksum
  import opened OggPages

  // ---- Messages as bits ----

  function BitsOf(v: bv8, n: nat): (r: seq<bool>)
    ensures |r| == n
    decreases n
  {
    if n == 0 then [] else [v & 0x80 != 0] + BitsOf(v << 1, n - 1)
  }

  /** The bits of a message, the most significant of each byte first. */
  function Message(bytes: seq<bv8>): (r: seq<bool>)
    ensures |r| == 8 * |bytes|
    decreases bytes
  {
    if bytes == [] then [] else BitsOf(bytes[0], 8) + Message(bytes[1..])
  }

  function Shifted(r: Word, bits: seq<bool>): Word
    decreases bits
  {
    if bits == [] then r else Shifted(BitIn(r, bits[0]), bits[1..])
  }

  lemma {:induction false} ShiftedAppend(r: Word, a: seq<bool>, b: seq<bool>)
    ensures Shifted(r, a + b) == Shifted(Shifted(r, a), b)
    decreases a
  {
    if a == [] {
      assert a + b == b;
    } else {
      assert (a + b)[0] == a[0] && (a + b)[1..] == a[1..] + b;
      ShiftedAppend(BitIn(r, a[0]), a[1..], b);
    }
  }

  lemma {:induction false} BitsInShifts(r: Word, v: bv8, n: nat)
    ensures BitsIn(BitIn, r, v, n) == Shifted(r, BitsOf(v, n))
    decreases n
  {
    if n == 0 {
    } else {
      BitsInShifts(BitIn(r, v & 0x80 != 0), v << 1, n - 1);
      assert BitsOf(v, n)[1..] == BitsOf(v << 1, n - 1);
    }
  }

  lemma {:induction false} CrcShifts(r: Word, bytes: seq<bv8>)
    ensures Crc(r, bytes) == Shifted(r, Message(bytes))
    decreases bytes
  {
    if bytes == [] {
    } else {
      BitsInShifts(r, bytes[0], 8);
      ShiftedAppend(r, BitsOf(bytes[0], 8), Message(bytes[1..]));
      CrcShifts(BitsIn(BitIn, r, bytes[0], 8), bytes[1..]);
    }
  }

  lemma {:induction false} MessageAppend(a: seq<bv8>, b: seq<bv8>)
    ensures Message(a + b) == Message(a) + Message(b)
    decreases a
  {
    if a == [] {
      assert a + b == b;
    } else {
      assert (a + b)[0] == a[0] && (a + b)[1..] == a[1..] + b;
      MessageAppend(a[1..], b);
    }
  }

  predicate Odd(d: Word) {
    d.bits & 1 != 0
  }

  // ---- The same bits keep registers apart ----

  /** The generator is odd: the lowest bit tells whether it was fed back. */
  lemma FeedbackShows(a: Word, f: bool)
    ensures Odd(Xor(Shift(a), Feedback(f))) == f
  {
  }

  lemma ShiftBack(a: Word, b: Word, f: bool)
    requires Xor(Shift(a), Feedback(f)) == Xor(Shift(b), Feedback(f)) && Top(a) == Top(b)
    ensures a == b
  {
  }

  lemma BitInInjective(r: Word, q: Word, bit: bool)
    requires BitIn(r, bit) == BitIn(q, bit)
    ensures r == q
  {
    FeedbackShows(r, Top(r) != bit);
    FeedbackShows(q, Top(q) != bit);
    ShiftBack(r, q, Top(r) != bit);
  }

  lemma {:induction false} ShiftedInjective(r: Word, q: Word, bits: seq<bool>)
    requires Shifted(r, bits) == Shifted(q, bits)
    ensures r == q
    decreases bits
  {
    if bits == [] {
    } else {
      ShiftedInjective(BitIn(r, bits[0]), BitIn(q, bits[0]), bits[1..]);
      BitInInjective(r, q, bits[0]);
    }
  }

  // ---- A burst ----

  /** Some bit of d reaches the top after n shifts. */
  ghost predicate Reaches(d: Word, n: nat) {
    Top(Iterate(Shift, d, n))
  }

  lemma {:induction false} ZeroStays(n: nat)
    ensures Iterate(Shift, ZERO, n) == ZERO
    decreases n
  {
    if n == 0 {
    } else {
      assert Shift(ZERO) == ZERO;
      ZeroStays(n - 1);
    }
  }

  lemma OddReaches(d: Word)
    requires Odd(d)
    ensures Reaches(d, 31)
  {
    var d4 := ShiftFour(d);
    var d8 := ShiftFour(d4);
    var d12 := ShiftFour(d8);
    var d16 := ShiftFour(d12);
    var d20 := ShiftFour(d16);
    var d24 := ShiftFour(d20);
    var d28 := ShiftFour(d24);
    IterateCompose(Shift, d, 4, 4);
    IterateCompose(Shift, d, 8, 4);
    IterateCompose(Shift, d, 12, 4);
    IterateCompose(Shift, d, 16, 4);
    IterateCompose(Shift, d, 20, 4);
    IterateCompose(Shift, d, 24, 4);
    IterateCompose(Shift, d, 28, 3);
  }

  lemma ShiftFour(d: Word) returns (r: Word)
    ensures r == Iterate(Shift, d, 4) && r.bits == d.bits << 4
  {
    var a := Shift(d);
    var b := Shift(a);
    var c := Shift(b);
    r := Shift(c);
    FourBits(d, a, b, c, r);
    assert Iterate(Shift, c, 1) == r && Iterate(Shift, b, 2) == r && Iterate(Shift, a, 3) == r;
  }

  lemma FeedbackIsFed(a: Word, f: bool)
    ensures Xor(a, Feedback(f)) == Fed(a, Feedback(true), f)
  {
  }

  /** The difference of two registers shifts like a register. */
  lemma DifferenceShifts(r: Word, q: Word, b: bool, c: bool)
    ensures Xor(BitIn(r, b), BitIn(q, c)) == Fed(Shift(Xor(r, q)), Feedback(true), (Top(r) != b) != (Top(q) != c))
  {
    var f, g := Top(r) != b, Top(q) != c;
    ShiftXor(r, q, Xor(r, q));
    FeedbackIsFed(Shift(r), f);
    FeedbackIsFed(Shift(q), g);
    FeedbackXor(Shift(r), Shift(q), Shift(Xor(r, q)), Feedback(true), f, g, f != g);
  }

  ghost predicate Apart(r: Word, q: Word, n: nat) {
    Reaches(Xor(r, q), n)
  }

  lemma DifferenceStays(r: Word, q: Word, b: bool, c: bool, n: nat) returns (m: nat)
    requires 0 < n <= 31 && Apart(r, q, n)
    ensures n - 1 <= m <= 31 && Apart(BitIn(r, b), BitIn(q, c), m)
  {
    var d := Xor(r, q);
    DifferenceShifts(r, q, b, c);
    var f := (Top(r) != b) != (Top(q) != c);
    if f {
      FeedbackShows(d, true);
      OddReaches(Xor(Shift(d), Feedback(true)));
      m := 31;
    } else {
      m := n - 1;
    }
  }

  lemma ApartNow(r: Word, q: Word, n: nat)
    requires Apart(r, q, n)
    ensures r != q
  {
    XorZero(r, q);
    ZeroStays(n);
  }

  lemma Next(r: Word, s: seq<bool>) returns (r': Word, s': seq<bool>)
    requires s != []
    ensures r' == BitIn(r, s[0]) && s' == s[1..] && Shifted(r, s) == Shifted(r', s')
  {
    r', s' := BitIn(r, s[0]), s[1..];
  }

  lemma {:induction false} StayApart(r: Word, q: Word, s: seq<bool>, t: seq<bool>, n: nat)
    requires |s| == |t| <= n <= 31 && Apart(r, q, n)
    ensures Shifted(r, s) != Shifted(q, t)
    decreases |s|
  {
    if s == [] {
      ApartNow(r, q, n);
    } else {
      var m := DifferenceStays(r, q, s[0], t[0], n);
      var r', s' := Next(r, s);
      var q', t' := Next(q, t);
      StayApart(r', q', s', t', m);
    }
  }

  /** From one register, different bits of up to 32 lead to different registers. */
  lemma {:induction false} BurstTells(r: Word, s: seq<bool>, t: seq<bool>)
    requires |s| == |t| <= 32 && s != t
    ensures Shifted(r, s) != Shifted(r, t)
    decreases s
  {
    if s[0] == t[0] {
      assert s == [s[0]] + s[1..] && t == [t[0]] + t[1..];
      BurstTells(BitIn(r, s[0]), s[1..], t[1..]);
    } else {
      FirstDiffers(r, s[0], t[0]);
      StayApart(BitIn(r, s[0]), BitIn(r, t[0]), s[1..], t[1..], 31);
    }
  }

  lemma FirstDiffers(r: Word, b: bool, c: bool)
    requires b != c
    ensures Apart(BitIn(r, b), BitIn(r, c), 31)
  {
    DifferenceShifts(r, r, b, c);
    FeedbackShows(Xor(r, r), true);
    OddReaches(Xor(BitIn(r, b), BitIn(r, c)));
  }

  /** Messages that differ only within 32 consecutive bits, from any bit on, have different checksums. */
  lemma BitBurstTells(r: Word, a: seq<bv8>, b: seq<bv8>, x: seq<bool>, s: seq<bool>, t: seq<bool>, y: seq<bool>)
    requires Message(a) == x + s + y && Message(b) == x + t + y
    requires |s| == |t| <= 32 && s != t
    ensures Crc(r, a) != Crc(r, b)
  {
    CrcShifts(r, a);
    CrcShifts(r, b);
    ShiftedAppend(r, x + s, y);
    ShiftedAppend(r, x + t, y);
    ShiftedAppend(r, x, s);
    ShiftedAppend(r, x, t);
    BurstTells(Shifted(r, x), s, t);
    if Crc(r, a) == Crc(r, b) {
      ShiftedInjective(Shifted(r, x + s), Shifted(r, x + t), y);
      assert false;
    }
  }

  /** A page read before is rejected once its payload has suffered a burst of up to 32 bits. */
  lemma BurstIsRejected(
    header: seq<bv8>, segments: seq<bv8>, payload: seq<bv8>, bad: seq<bv8>, rest: seq<bv8>,
    x: seq<bool>, s: seq<bool>, t: seq<bool>, y: seq<bool>)
    requires |header| == HEADER_LENGTH && |segments| == header[26] as nat && |payload| == Size(segments) == |bad|
    requires ReadPage(header + segments + payload + rest, true).Ok?
    requires Message(payload) == x + s + y && Message(bad) == x + t + y && |s| == |t| <= 32 && s != t
    ensures ReadPage(header + segments + bad + rest, true) == Err(ChecksumMismatch, rest)
  {
    ReadsParts(header, segments, payload, rest);
    ReadsParts(header, segments, bad, rest);
    BurstMismatches(header, segments, payload, bad, x, s, t, y);
  }

  lemma BurstMismatches(
    header: seq<bv8>, segments: seq<bv8>, payload: seq<bv8>, bad: seq<bv8>,
    x: seq<bool>, s: seq<bool>, t: seq<bool>, y: seq<bool>)
    requires |header| == HEADER_LENGTH && Matches(header, segments + payload)
    requires Message(payload) == x + s + y && Message(bad) == x + t + y && |s| == |t| <= 32 && s != t
    ensures !Matches(header, segments + bad)
  {
    Regroup(Unsigned(header), segments, payload);
    Regroup(Unsigned(header), segments, bad);
    BurstAfterTells(Unsigned(header) + segments, payload, bad, x, s, t, y);
  }

  lemma Regroup(a: seq<bv8>, b: seq<bv8>, c: seq<bv8>)
    ensures a + (b + c) == a + b + c
  {
  }

  lemma BurstAfterTells(
    front: seq<bv8>, payload: seq<bv8>, bad: seq<bv8>, x: seq<bool>, s: seq<bool>, t: seq<bool>, y: seq<bool>)
    requires Message(payload) == x + s + y && Message(bad) == x + t + y && |s| == |t| <= 32 && s != t
    ensures Crc(ZERO, front + payload) != Crc(ZERO, front + bad)
  {
    Follows(front, payload, x, s, y);
    Follows(front, bad, x, t, y);
    BitBurstTells(ZERO, front + payload, front + bad, Message(front) + x, s, t, y);
  }

  lemma Follows(front: seq<bv8>, payload: seq<bv8>, x: seq<bool>, s: seq<bool>, y: seq<bool>)
    requires Message(payload) == x + s + y
    ensures Message(front + payload) == (Message(front) + x) + s + y
  {
    MessageAppend(front, payload);
  }

  /** So is one whose header has suffered such a burst before its checksum. */
  lemma HeaderBurstIsRejected(
    header: seq<bv8>, bad: seq<bv8>, segments: seq<bv8>, payload: seq<bv8>, rest: seq<bv8>,
    x: seq<bool>, s: seq<bool>, t: seq<bool>, y: seq<bool>)
    requires |header| == |bad| == HEADER_LENGTH && header[22..] == bad[22..]
    requires |segments| == header[26] as nat && |payload| == Size(segments)
    requires ReadPage(header + segments + payload + rest, true).Ok?
    requires Message(header[..22]) == x + s + y && Message(bad[..22]) == x + t + y && |s| == |t| <= 32 && s != t
    ensures ReadPage(bad + segments + payload + rest, true) == Err(ChecksumMismatch, rest)
  {
    assert header[26] == header[22..][4] && bad[26] == bad[22..][4];
    ReadsParts(header, segments, payload, rest);
    ReadsParts(bad, segments, payload, rest);
    HeaderBurstMismatches(header, bad, segments + payload, x, s, t, y);
  }

  lemma HeaderBurstMismatches(
    header: seq<bv8>, bad: seq<bv8>, body: seq<bv8>, x: seq<bool>, s: seq<bool>, t: seq<bool>, y: seq<bool>)
    requires |header| == |bad| == HEADER_LENGTH && header[22..] == bad[22..] && Matches(header, body)
    requires Message(header[..22]) == x + s + y && Message(bad[..22]) == x + t + y && |s| == |t| <= 32 && s != t
    ensures !Matches(bad, body)
  {
    SameChecksum(header, bad);
    var after := [0, 0, 0, 0] + header[26..] + body;
    UnsignedParts(header, body);
    UnsignedParts(bad, body);
    BurstBeforeTells(header[..22], bad[..22], after, x, s, t, y);
  }

  lemma SameChecksum(header: seq<bv8>, bad: seq<bv8>)
    requires |header| == |bad| == HEADER_LENGTH && header[22..] == bad[22..]
    ensures header[22..26] == bad[22..26] && header[26..] == bad[26..]
  {
    assert header[22..26] == header[22..][..4] && bad[22..26] == bad[22..][..4];
    assert header[26..] == header[22..][4..] && bad[26..] == bad[22..][4..];
  }

  lemma UnsignedParts(header: seq<bv8>, body: seq<bv8>)
    requires |header| == HEADER_LENGTH
    ensures Unsigned(header) + body == header[..22] + ([0, 0, 0, 0] + header[26..] + body)
  {
  }

  lemma BurstBeforeTells(
    front: seq<bv8>, bad: seq<bv8>, after: seq<bv8>, x: seq<bool>, s: seq<bool>, t: seq<bool>, y: seq<bool>)
    requires Message(front) == x + s + y && Message(bad) == x + t + y && |s| == |t| <= 32 && s != t
    ensures Crc(ZERO, front + after) != Crc(ZERO, bad + after)
  {
    Precedes(front, after, x, s, y);
    Precedes(bad, after, x, t, y);
    BitBurstTells(ZERO, front + after, bad + after, x, s, t, y + Message(after));
  }

  lemma Precedes(front: seq<bv8>, after: seq<bv8>, x: seq<bool>, s: seq<bool>, y: seq<bool>)
    requires Message(front) == x + s + y
    ensures Message(front + after) == x + s + (y + Message(after))
  {
    MessageAppend(front, after);
  }
}
