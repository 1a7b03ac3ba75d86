/** Ogg pages and the packets their segment tables cut: what reading a stream yields. */
module OggPages {
  import opened OggChecksum
  import opened OggCorruption

  const HEADER_LENGTH := 27

  datatype ReadError = EndOfStream | UnexpectedEnd | ChecksumMismatch

  /** What reading yields, and what is left to read. */
  datatype Read<T> = Ok(value: T, rest: seq<bv8>) | Err(error: ReadError, rest: seq<bv8>)

  datatype Page = Page(
    signature: seq<bv8>, version: bv8, headerType: bv8, granule: seq<bv8>, serial: Word, index: Word,
    segments: seq<bv8>, payload: seq<bv8>)

  function ReadFull(input: seq<bv8>, n: nat): Read<seq<bv8>> {
    if n <= |input| then Ok(input[..n], input[n..])
    else Err(if input == [] then EndOfStream else UnexpectedEnd, [])
  }

  function LittleEndian(b: seq<bv8>): Word
    requires |b| == 4
  {
    Packed(b[0], b[1], b[2], b[3])
  }

  function Packed(b0: bv8, b1: bv8, b2: bv8, b3: bv8): Word {
    Word((b0 as bv32) | ((b1 as bv32) << 8) | ((b2 as bv32) << 16) | ((b3 as bv32) << 24))
  }

  function Size(segments: seq<bv8>): nat
    decreases segments
  {
    if segments == [] then 0 else segments[0] as nat + Size(segments[1..])
  }

  /** The header with its checksum field zeroed. */
  function Unsigned(header: seq<bv8>): (r: seq<bv8>)
    requires |header| == HEADER_LENGTH
    ensures |r| == HEADER_LENGTH
  {
    header[..22] + [0, 0, 0, 0] + header[26..]
  }

  predicate Matches(header: seq<bv8>, body: seq<bv8>)
    requires |header| == HEADER_LENGTH
  {
    LittleEndian(header[22..26]) == Crc(ZERO, Unsigned(header) + body)
  }

  function PageOf(header: seq<bv8>, segments: seq<bv8>, payload: seq<bv8>): Page
    requires |header| == HEADER_LENGTH
  {
    Page(header[..4], header[4], header[5], header[6..14], LittleEndian(header[14..18]), LittleEndian(header[18..22]),
         segments, payload)
  }

  function ReadPage(input: seq<bv8>, check: bool): Read<Page> {
    match ReadFull(input, HEADER_LENGTH)
    case Err(e, rest) => Err(e, rest)
    case Ok(header, afterHeader) =>
      match ReadFull(afterHeader, header[26] as nat)
      case Err(e, rest) => Err(e, rest)
      case Ok(segments, afterTable) =>
        match ReadFull(afterTable, Size(segments))
        case Err(e, rest) => Err(e, rest)
        case Ok(payload, rest) =>
          if check && !Matches(header, segments + payload) then Err(ChecksumMismatch, rest)
          else Ok(PageOf(header, segments, payload), rest)
  }

  /** The bytes with those from i on replaced by t. */
  function Overwritten(bytes: seq<bv8>, i: nat, t: seq<bv8>): (r: seq<bv8>)
    requires i + |t| <= |bytes|
    ensures |r| == |bytes|
  {
    bytes[..i] + t + bytes[i + |t|..]
  }

  /** A page read before is rejected once one to four consecutive bytes of its payload have changed. */
  lemma CorruptPayloadIsRejected(
    header: seq<bv8>, segments: seq<bv8>, payload: seq<bv8>, rest: seq<bv8>, i: nat, t: seq<bv8>)
    requires |header| == HEADER_LENGTH && |segments| == header[26] as nat && |payload| == Size(segments)
    requires ReadPage(header + segments + payload + rest, true).Ok?
    requires i + |t| <= |payload| && |t| <= 4 && payload[i..i + |t|] != t
    ensures ReadPage(header + segments + Overwritten(payload, i, t) + rest, true) == Err(ChecksumMismatch, rest)
  {
    ReadsParts(header, segments, payload, rest);
    ReadsParts(header, segments, Overwritten(payload, i, t), rest);
    CorruptPayloadMismatches(header, segments, payload, i, t);
  }

  lemma CorruptPayloadMismatches(header: seq<bv8>, segments: seq<bv8>, payload: seq<bv8>, i: nat, t: seq<bv8>)
    requires |header| == HEADER_LENGTH && i + |t| <= |payload| && |t| <= 4 && payload[i..i + |t|] != t
    requires Matches(header, segments + payload)
    ensures !Matches(header, segments + Overwritten(payload, i, t))
  {
    var before, s, after := Unsigned(header) + segments + payload[..i], payload[i..i + |t|], payload[i + |t|..];
    assert payload == payload[..i] + s + after;
    assert Unsigned(header) + (segments + payload) == before + s + after;
    assert Unsigned(header) + (segments + Overwritten(payload, i, t)) == before + t + after;
    ShortCorruptionTells(ZERO, before, s, t, after);
  }

  /** So is one with such a change to its header: in the fields before the checksum, or the checksum. */
  lemma CorruptHeaderIsRejected(
    header: seq<bv8>, segments: seq<bv8>, payload: seq<bv8>, rest: seq<bv8>, i: nat, t: seq<bv8>)
    requires |header| == HEADER_LENGTH && |segments| == header[26] as nat && |payload| == Size(segments)
    requires ReadPage(header + segments + payload + rest, true).Ok?
    requires (i + |t| <= 22 && |t| <= 4) || (i == 22 && |t| == 4)
    requires header[i..i + |t|] != t
    ensures ReadPage(Overwritten(header, i, t) + segments + payload + rest, true) == Err(ChecksumMismatch, rest)
  {
    var bad := Overwritten(header, i, t);
    assert bad[26] == header[26];
    ReadsParts(header, segments, payload, rest);
    ReadsParts(bad, segments, payload, rest);
    if i == 22 {
      CorruptChecksumMismatches(header, segments + payload, t);
    } else {
      CorruptHeaderMismatches(header, segments + payload, i, t);
    }
  }

  lemma CorruptHeaderMismatches(header: seq<bv8>, body: seq<bv8>, i: nat, t: seq<bv8>)
    requires |header| == HEADER_LENGTH && i + |t| <= 22 && |t| <= 4 && header[i..i + |t|] != t
    requires Matches(header, body)
    ensures !Matches(Overwritten(header, i, t), body)
  {
    var s, after := header[i..i + |t|], header[i + |t|..22] + [0, 0, 0, 0] + header[26..] + body;
    var bad := Overwritten(header, i, t);
    assert bad[22..26] == header[22..26] && bad[26..] == header[26..];
    assert bad[..22] == header[..i] + t + header[i + |t|..22];
    assert header[..22] == header[..i] + s + header[i + |t|..22];
    assert Unsigned(header) + body == header[..i] + s + after;
    assert Unsigned(bad) + body == header[..i] + t + after;
    ShortCorruptionTells(ZERO, header[..i], s, t, after);
  }

  lemma CorruptChecksumMismatches(header: seq<bv8>, body: seq<bv8>, t: seq<bv8>)
    requires |header| == HEADER_LENGTH && |t| == 4 && header[22..26] != t
    requires Matches(header, body)
    ensures !Matches(Overwritten(header, 22, t), body)
  {
    var bad := Overwritten(header, 22, t);
    assert bad[22..26] == t && Unsigned(bad) == Unsigned(header);
    LittleEndianTells(header[22..26], t);
  }

  lemma LittleEndianTells(a: seq<bv8>, b: seq<bv8>)
    requires |a| == |b| == 4 && a != b
    ensures LittleEndian(a) != LittleEndian(b)
  {
    if LittleEndian(a) == LittleEndian(b) {
      PackedTells(a[0], a[1], a[2], a[3], b[0], b[1], b[2], b[3]);
      assert forall k :: 0 <= k < 4 ==> a[k] == b[k];
      assert false;
    }
  }

  lemma PackedTells(a0: bv8, a1: bv8, a2: bv8, a3: bv8, b0: bv8, b1: bv8, b2: bv8, b3: bv8)
    requires Packed(a0, a1, a2, a3) == Packed(b0, b1, b2, b3)
    ensures a0 == b0 && a1 == b1 && a2 == b2 && a3 == b3
  {
  }

  /** A page whose parts are there is read into them, unless its checksum is wrong. */
  lemma ReadsParts(header: seq<bv8>, segments: seq<bv8>, payload: seq<bv8>, rest: seq<bv8>)
    requires |header| == HEADER_LENGTH && |segments| == header[26] as nat && |payload| == Size(segments)
    ensures ReadPage(header + segments + payload + rest, true) ==
      if Matches(header, segments + payload) then Ok(PageOf(header, segments, payload), rest)
      else Err(ChecksumMismatch, rest)
  {
    var afterHeader := segments + payload + rest;
    assert header + segments + payload + rest == header + afterHeader;
    assert segments + payload + rest == segments + (payload + rest);
    Splits(header, afterHeader);
    Splits(segments, payload + rest);
    Splits(payload, rest);
  }

  lemma Splits(s: seq<bv8>, rest: seq<bv8>)
    ensures ReadFull(s + rest, |s|) == Ok(s, rest)
  {
  }

  // ---- Writing ----

  function BytesOf(w: Word): (r: seq<bv8>)
    ensures |r| == 4
  {
    [(w.bits & 0xFF) as bv8, ((w.bits >> 8) & 0xFF) as bv8, ((w.bits >> 16) & 0xFF) as bv8, (w.bits >> 24) as bv8]
  }

  /** A page whose segments the byte count numbers. */
  ghost predicate IsPage(p: Page, count: bv8) {
    |p.signature| == 4 && |p.granule| == 8 && |p.segments| == count as nat && |p.payload| == Size(p.segments)
  }

  /** The header of a page as section 6 of RFC 3533 lays it out. */
  function HeaderOf(p: Page, count: bv8, checksum: Word): (r: seq<bv8>)
    requires IsPage(p, count)
    ensures |r| == HEADER_LENGTH
  {
    p.signature + [p.version, p.headerType] + p.granule + BytesOf(p.serial) + BytesOf(p.index) +
    BytesOf(checksum) + [count]
  }

  function Encode(p: Page, count: bv8): seq<bv8>
    requires IsPage(p, count)
  {
    HeaderOf(p, count, Crc(ZERO, HeaderOf(p, count, ZERO) + (p.segments + p.payload))) + p.segments + p.payload
  }

  lemma WordRoundTrip(w: Word)
    ensures LittleEndian(BytesOf(w)) == w
  {
  }

  lemma Middle(a: seq<bv8>, b: seq<bv8>, c: seq<bv8>)
    ensures (a + b + c)[|a|..|a| + |b|] == b
  {
  }

  lemma HeaderParts(p: Page, count: bv8, checksum: Word)
    requires IsPage(p, count)
    ensures var h := HeaderOf(p, count, checksum);
      && h[..4] == p.signature && h[4] == p.version && h[5] == p.headerType && h[6..14] == p.granule
      && h[14..18] == BytesOf(p.serial) && h[18..22] == BytesOf(p.index) && h[22..26] == BytesOf(checksum)
      && h[26] == count
  {
    var h := HeaderOf(p, count, checksum);
    var a := p.signature + [p.version, p.headerType];
    var b := a + p.granule;
    var c := b + BytesOf(p.serial);
    var d := c + BytesOf(p.index);
    assert h == a + p.granule + (BytesOf(p.serial) + BytesOf(p.index) + BytesOf(checksum) + [count]);
    Middle(a, p.granule, BytesOf(p.serial) + BytesOf(p.index) + BytesOf(checksum) + [count]);
    assert h == b + BytesOf(p.serial) + (BytesOf(p.index) + BytesOf(checksum) + [count]);
    Middle(b, BytesOf(p.serial), BytesOf(p.index) + BytesOf(checksum) + [count]);
    assert h == c + BytesOf(p.index) + (BytesOf(checksum) + [count]);
    Middle(c, BytesOf(p.index), BytesOf(checksum) + [count]);
    assert h == d + BytesOf(checksum) + [count];
    Middle(d, BytesOf(checksum), [count]);
  }

  lemma ZeroBytes()
    ensures BytesOf(ZERO) == [0, 0, 0, 0]
  {
    assert BytesOf(ZERO)[0] == 0 && BytesOf(ZERO)[1] == 0 && BytesOf(ZERO)[2] == 0 && BytesOf(ZERO)[3] == 0;
  }

  lemma HeaderUnsigned(p: Page, count: bv8, checksum: Word)
    requires IsPage(p, count)
    ensures Unsigned(HeaderOf(p, count, checksum)) == HeaderOf(p, count, ZERO)
  {
    var front := p.signature + [p.version, p.headerType] + p.granule + BytesOf(p.serial) + BytesOf(p.index);
    var h := HeaderOf(p, count, checksum);
    assert h == front + BytesOf(checksum) + [count];
    assert h[..22] == front && h[26..] == [count];
    ZeroBytes();
    assert Unsigned(h) == front + [0, 0, 0, 0] + [count];
    assert HeaderOf(p, count, ZERO) == front + BytesOf(ZERO) + [count];
  }

  lemma HeaderRoundTrip(p: Page, count: bv8, checksum: Word)
    requires IsPage(p, count)
    ensures var h := HeaderOf(p, count, checksum);
      PageOf(h, p.segments, p.payload) == p && LittleEndian(h[22..26]) == checksum && h[26] as nat == |p.segments|
  {
    HeaderParts(p, count, checksum);
    WordRoundTrip(p.serial);
    WordRoundTrip(p.index);
    WordRoundTrip(checksum);
  }

  /** A page written as RFC 3533 says is read back whole, wherever it stands in a stream. */
  lemma PageRoundTrip(p: Page, count: bv8, rest: seq<bv8>)
    requires IsPage(p, count)
    ensures ReadPage(Encode(p, count) + rest, true) == Ok(p, rest)
  {
    var checksum := Crc(ZERO, HeaderOf(p, count, ZERO) + (p.segments + p.payload));
    HeaderRoundTrip(p, count, checksum);
    HeaderUnsigned(p, count, checksum);
    ReadsParts(HeaderOf(p, count, checksum), p.segments, p.payload, rest);
  }

  // ---- Packets ----

  /** The segment after the packet that starts with segment from: after the first short one. */
  function PacketEnd(segments: seq<bv8>, from: nat): (to: nat)
    requires from < |segments|
    ensures from < to <= |segments|
    decreases |segments| - from
  {
    if from + 1 == |segments| || segments[from] != 255 then from + 1 else PacketEnd(segments, from + 1)
  }

  /** The packets of a page from segment from on, as successive reads return them. */
  function Packets(segments: seq<bv8>, payload: seq<bv8>, from: nat): seq<seq<bv8>>
    requires from <= |segments| && |payload| == Size(segments)
    decreases |segments| - from
  {
    if from == |segments| then []
    else
      var to := PacketEnd(segments, from);
      SizeParts(segments, from, to);
      [payload[Size(segments[..from])..Size(segments[..to])]] + Packets(segments, payload, to)
  }

  function Joined(packets: seq<seq<bv8>>): seq<bv8>
    decreases packets
  {
    if packets == [] then [] else packets[0] + Joined(packets[1..])
  }

  lemma {:induction false} SizeAppend(a: seq<bv8>, b: seq<bv8>)
    ensures Size(a + b) == Size(a) + Size(b)
    decreases a
  {
    if a == [] {
      assert a + b == b;
    } else {
      assert (a + b)[1..] == a[1..] + b;
      SizeAppend(a[1..], b);
    }
  }

  lemma SizeParts(segments: seq<bv8>, from: nat, to: nat)
    requires from <= to <= |segments|
    ensures Size(segments[..from]) <= Size(segments[..to]) <= Size(segments)
    ensures Size(segments[..to]) == Size(segments[..from]) + Size(segments[from..to])
  {
    assert segments[..to] == segments[..from] + segments[from..to];
    assert segments == segments[..to] + segments[to..];
    SizeAppend(segments[..from], segments[from..to]);
    SizeAppend(segments[..to], segments[to..]);
  }

  /** Nothing of a page is lost or repeated: its packets, joined, are its payload. */
  lemma {:induction false} PacketsRejoin(segments: seq<bv8>, payload: seq<bv8>, from: nat)
    requires from <= |segments| && |payload| == Size(segments)
    ensures Size(segments[..from]) <= |payload|
    ensures Joined(Packets(segments, payload, from)) == payload[Size(segments[..from])..]
    decreases |segments| - from
  {
    SizeParts(segments, from, |segments|);
    if from == |segments| {
      assert segments[..from] == segments;
    } else {
      var to := PacketEnd(segments, from);
      SizeParts(segments, from, to);
      PacketsRejoin(segments, payload, to);
      assert Packets(segments, payload, from)[1..] == Packets(segments, payload, to);
    }
  }

  /** Every segment of a packet but its last is full; its last is short unless the page ends there. */
  lemma {:induction false} PacketIsOneRun(segments: seq<bv8>, from: nat)
    requires from < |segments|
    ensures var to := PacketEnd(segments, from);
      && (forall k :: from <= k < to - 1 ==> segments[k] == 255)
      && (to < |segments| ==> segments[to - 1] != 255)
    decreases |segments| - from
  {
    if from + 1 < |segments| && segments[from] == 255 {
      PacketIsOneRun(segments, from + 1);
    }
  }
}
