/** The Ogg reader: a position in the stream, the page being cut into packets, the checksum table. */
module OggReader {
  import opened Machine
  import opened OggChecksum
  import opened OggPages
  import opened OggCorruption

  /** What one call returns; a page without segments makes the call index an empty table. */
  datatype PacketResult = Packet(bytes: seq<bv8>) | Failed(error: ReadError) | NoSegments

  /** The byte a table index stands for. */
  function ByteOf(i: nat): bv8
    requires i < 256
  {
    i as bv8
  }

  lemma ByteOfIndex(v: bv8)
    ensures ByteOf(v as nat) == v
  {
  }

  ghost predicate TableOf(table: seq<Word>, n: nat) {
    n <= 256 == |table| && forall i :: 0 <= i < n ==> table[i] == ByteStep(Lift(ByteOf(i)))
  }

  method FillEntry(table: array<Word>, i: nat)
    requires table.Length == 256 && i < 256
    modifies table
    ensures table[..] == old(table[..])[i := ByteStep(Lift(ByteOf(i)))]
  {
    var r := Lift(ByteOf(i));
    for j := 0 to 8
      invariant Iterate(BitStep, r, 8 - j) == ByteStep(Lift(ByteOf(i)))
      invariant table[..] == if j == 0 then old(table[..]) else old(table[..])[i := r]
    {
      if Top(r) {
        r := Xor(Shift(r), Word(0x04c11db7));
      } else {
        r := Shift(r);
      }
      table[i] := r;
    }
  }

  method GenerateChecksumTable() returns (table: array<Word>)
    ensures fresh(table) && TableOf(table[..], 256)
  {
    table := new Word[256](_ => ZERO);
    for i := 0 to 256
      invariant TableOf(table[..], i)
    {
      FillEntry(table, i);
    }
  }

  class OggReader {
    var stream: seq<bv8>
    var page: Option<Page>
    var segment: nat
    var offset: nat
    const doChecksum: bool
    const checksumTable: array<Word>

    ghost predicate Valid()
      reads this, checksumTable
    {
      && TableOf(checksumTable[..], 256)
      && (page.Some? ==> var p := page.value;
        && |p.payload| == Size(p.segments)
        && (segment < |p.segments| || (segment == 0 && p.segments == []))
        && offset == Size(p.segments[..segment]))
    }

    constructor (stream: seq<bv8>, doChecksum: bool)
      ensures Valid() && fresh(checksumTable) && this.stream == stream && this.doChecksum == doChecksum && page.None?
    {
      var table := GenerateChecksumTable();
      this.stream, this.doChecksum, checksumTable := stream, doChecksum, table;
      page, segment, offset := None, 0, 0;
    }

    method ReadFull(n: nat) returns (r: Read<seq<bv8>>)
      modifies this`stream
      ensures r == OggPages.ReadFull(old(stream), n) && stream == r.rest
    {
      if n <= |stream| {
        var taken := stream[..n];
        stream := stream[n..];
        r := Ok(taken, stream);
      } else {
        var error := if |stream| == 0 then EndOfStream else UnexpectedEnd;
        stream := [];
        r := Err(error, []);
      }
    }

    method UpdateChecksum(checksum: Word, v: bv8) returns (r: Word)
      requires TableOf(checksumTable[..], 256)
      ensures r == ByteStep(Mixed(checksum, v))
    {
      var i := Index(checksum, v);
      ByteOfIndex(i);
      TableMatchesBits(checksum, v);
      r := Xor(ShiftByte(checksum), checksumTable[i as nat]);
    }

    /** The checksum of bytes, continued from another. */
    method Update(from: Word, bytes: seq<bv8>) returns (checksum: Word)
      requires TableOf(checksumTable[..], 256)
      ensures checksum == Crc(from, bytes)
    {
      checksum := from;
      for i := 0 to |bytes|
        invariant Crc(checksum, bytes[i..]) == Crc(from, bytes)
      {
        CrcStep(checksum, bytes[i..]);
        assert bytes[i..][1..] == bytes[i + 1..];
        checksum := UpdateChecksum(checksum, bytes[i]);
      }
    }

    /** The header's part of the checksum, its checksum field counted as zero. */
    method HeaderChecksum(header: seq<bv8>) returns (checksum: Word)
      requires |header| == HEADER_LENGTH && TableOf(checksumTable[..], 256)
      ensures checksum == Crc(ZERO, Unsigned(header))
    {
      checksum := ZERO;
      ghost var message := Unsigned(header);
      for i := 0 to HEADER_LENGTH
        invariant Crc(checksum, message[i..]) == Crc(ZERO, message)
      {
        CrcStep(checksum, message[i..]);
        assert message[i..][1..] == message[i + 1..];
        UnsignedAt(header, i);
        if 21 < i < 26 {
          checksum := UpdateChecksum(checksum, 0);
        } else {
          checksum := UpdateChecksum(checksum, header[i]);
        }
      }
    }

    method ChecksumMatches(header: seq<bv8>, segments: seq<bv8>, payload: seq<bv8>) returns (ok: bool)
      requires |header| == HEADER_LENGTH && TableOf(checksumTable[..], 256)
      ensures ok == Matches(header, segments + payload)
    {
      var checksum := HeaderChecksum(header);
      checksum := Update(checksum, segments);
      checksum := Update(checksum, payload);
      CrcAppend(ZERO, Unsigned(header), segments + payload);
      CrcAppend(Crc(ZERO, Unsigned(header)), segments, payload);
      ok := LittleEndian(header[22..26]) == checksum;
    }

    method PayloadSize(segments: seq<bv8>) returns (size: nat)
      ensures size == Size(segments)
    {
      size := 0;
      for i := 0 to |segments|
        invariant size + Size(segments[i..]) == Size(segments)
      {
        assert segments[i..][1..] == segments[i + 1..];
        size := size + segments[i] as nat;
      }
    }

    method ReadPage() returns (r: Read<Page>)
      requires TableOf(checksumTable[..], 256)
      modifies this`stream
      ensures r == OggPages.ReadPage(old(stream), doChecksum) && stream == r.rest
    {
      var header := ReadFull(HEADER_LENGTH);
      if header.Err? {
        return Err(header.error, header.rest);
      }
      var segments := ReadFull(header.value[26] as nat);
      if segments.Err? {
        return Err(segments.error, segments.rest);
      }
      var size := PayloadSize(segments.value);
      var payload := ReadFull(size);
      if payload.Err? {
        return Err(payload.error, payload.rest);
      }
      if doChecksum {
        var ok := ChecksumMatches(header.value, segments.value, payload.value);
        if !ok {
          return Err(ChecksumMismatch, payload.rest);
        }
      }
      r := Ok(PageOf(header.value, segments.value, payload.value), payload.rest);
    }

    /** One packet of the current page, the next page being read when there is none. */
    method ReadPacket() returns (r: PacketResult)
      requires Valid()
      modifies this
      ensures Valid()
      ensures (r, stream, page, segment) == NextPacket(old(stream), old(page), old(segment), doChecksum)
    {
      if page.None? {
        var read := ReadPage();
        if read.Err? {
          return Failed(read.error);
        }
        Turn(read.value);
      }
      if |page.value.segments| == 0 {
        return NoSegments;
      }
      r := CutPacket();
    }

    /** Starts on a page just read. */
    method Turn(next: Page)
      requires Valid() && |next.payload| == Size(next.segments)
      modifies this`page, this`segment, this`offset
      ensures Valid() && page == Some(next) && segment == 0
    {
      page, offset, segment := Some(next), 0, 0;
    }

    /** Moves past the segments of one packet, giving up the page at its end. */
    method SkipPacket() returns (size: nat)
      requires page.Some? && segment < |page.value.segments|
      modifies this`page, this`segment
      ensures var segments := old(page).value.segments;
        && segment == PacketEnd(segments, old(segment))
        && size == Size(segments[old(segment)..segment])
        && page == if segment == |segments| then None else old(page)
    {
      var segments := page.value.segments;
      size := 0;
      while true
        invariant old(segment) <= segment < |segments| && page == old(page)
        invariant size == Size(segments[old(segment)..segment])
        invariant PacketEnd(segments, segment) == PacketEnd(segments, old(segment))
        decreases |segments| - segment
      {
        var segmentSize := segments[segment];
        SizeNext(segments, old(segment), segment);
        size := size + segmentSize as nat;
        segment := segment + 1;
        if segment == |segments| {
          page := None;
          break;
        }
        if segmentSize != 255 {
          break;
        }
      }
    }

    method CutPacket() returns (r: PacketResult)
      requires Valid() && page.Some? && page.value.segments != []
      modifies this`page, this`segment, this`offset
      ensures Valid()
      ensures (r, page, segment) == Cut(old(page).value, old(segment))
    {
      var p := page.value;
      var size := SkipPacket();
      SizeParts(p.segments, old(segment), segment);
      r := Packet(p.payload[offset..offset + size]);
      offset := offset + size;
    }
  }

  lemma UnsignedAt(header: seq<bv8>, i: nat)
    requires |header| == HEADER_LENGTH && i < HEADER_LENGTH
    ensures Unsigned(header)[i] == if 21 < i < 26 then 0 else header[i]
  {
  }

  lemma SizeNext(segments: seq<bv8>, from: nat, k: nat)
    requires from <= k < |segments|
    ensures Size(segments[from..k + 1]) == Size(segments[from..k]) + segments[k] as nat
  {
    assert segments[from..k + 1] == segments[from..k] + [segments[k]];
    SizeAppend(segments[from..k], [segments[k]]);
    assert [segments[k]][1..] == [];
  }

  /** A packet cut from a page, and where that leaves the reader. */
  function Cut(p: Page, segment: nat): (PacketResult, Option<Page>, nat)
    requires segment < |p.segments| && |p.payload| == Size(p.segments)
  {
    var to := PacketEnd(p.segments, segment);
    SizeParts(p.segments, segment, to);
    (Packet(p.payload[Size(p.segments[..segment])..Size(p.segments[..to])]),
     if to == |p.segments| then None else Some(p), to)
  }

  /** Successive cuts return the page's packets, in order and to its end. */
  lemma CutsArePackets(p: Page, segment: nat)
    requires segment < |p.segments| && |p.payload| == Size(p.segments)
    ensures var (r, q, to) := Cut(p, segment);
      && r.Packet? && segment < to <= |p.segments|
      && Packets(p.segments, p.payload, segment) == [r.bytes] + Packets(p.segments, p.payload, to)
      && (q.None? <==> Packets(p.segments, p.payload, to) == [])
  {
  }

  /** What a call returns, with the stream, page and segment it leaves. */
  function NextPacket(stream: seq<bv8>, page: Option<Page>, segment: nat, check: bool):
    (PacketResult, seq<bv8>, Option<Page>, nat)
    requires page.Some? ==> |page.value.payload| == Size(page.value.segments)
    requires page.Some? && page.value.segments != [] ==> segment < |page.value.segments|
  {
    match page
    case Some(p) =>
      if p.segments == [] then (NoSegments, stream, page, segment)
      else var (r, q, s) := Cut(p, segment); (r, stream, q, s)
    case None =>
      match OggPages.ReadPage(stream, check)
      case Err(e, rest) => (Failed(e), rest, None, segment)
      case Ok(p, rest) =>
        if p.segments == [] then (NoSegments, rest, Some(p), 0) else var (r, q, s) := Cut(p, 0); (r, rest, q, s)
  }
}
