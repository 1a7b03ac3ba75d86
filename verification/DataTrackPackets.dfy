/** Data track packets, and splitting frames into them. */
module DataTrackPackets {
  import opened Machine

  type bytes = seq<u8>

  /** The header extensions the SDK understands, carried by every packet of a frame. */
  datatype Extensions = Extensions(userTimestamp: Option<nat>, e2ee: Option<bytes>)

  datatype Marker = Inter | Start | Final | Single

  datatype Packet = Packet(
    handle: u16, timestamp: u32, frameNumber: u16, sequence: u16,
    isStart: bool, isFinal: bool, extensions: Extensions, payload: bytes)
  {
    function Marker(): Marker {
      if isStart && isFinal then Single else if isStart then Start else if isFinal then Final else Inter
    }
  }

  /** The 16-bit number n places after start. */
  function Seq16(start: u16, n: nat): u16 {
    (start + n) % 0x1_0000
  }

  lemma NextSeq16(start: u16, n: nat)
    ensures Add16(Seq16(start, n), 1) == Seq16(start, n + 1)
  {
  }

  lemma Seq16Distance(start: u16, n: nat)
    requires n < 0x1_0000
    ensures Sub16(Seq16(start, n), start) == n
  {
  }

  // ---- Packetizing ----

  function Chunks(payload: bytes, maxSize: nat): (r: seq<bytes>)
    requires maxSize > 0
    decreases |payload|
  {
    if payload == [] then []
    else
      var n := if maxSize < |payload| then maxSize else |payload|;
      [payload[..n]] + Chunks(payload[n..], maxSize)
  }

  function FrameMarker(index: nat, packetCount: nat): Marker {
    if packetCount <= 1 then Single
    else if index == 0 then Start
    else if index == packetCount - 1 then Final
    else Inter
  }

  /** The packet of chunk i of a frame whose first sequence number is start. */
  function PacketOf(header: Packet, start: u16, chunks: seq<bytes>, i: nat): Packet
    requires i < |chunks|
  {
    var marker := FrameMarker(i, |chunks|);
    header.(sequence := Seq16(start, i), payload := chunks[i],
            isStart := marker == Start || marker == Single, isFinal := marker == Final || marker == Single)
  }

  function PacketsOf(header: Packet, start: u16, chunks: seq<bytes>): (r: seq<Packet>)
    ensures |r| == |chunks| && forall i :: 0 <= i < |r| ==> r[i] == PacketOf(header, start, chunks, i)
  {
    seq(|chunks|, i requires 0 <= i < |chunks| => PacketOf(header, start, chunks, i))
  }

  datatype Packetized = Packets(packets: seq<Packet>) | ExtensionsFailed | MTUTooShort

  class Packetizer {
    const handle: u16
    const mtu: int
    var sequence: u16
    var frameNumber: u16

    constructor (handle: u16, mtu: int)
      ensures this.handle == handle && this.mtu == mtu && sequence == 0 && frameNumber == 0
    {
      this.handle, this.mtu := handle, mtu;
      sequence, frameNumber := 0, 0;
    }

    /**
     * The packets of one frame. headerSize is None when an extension cannot be marshalled; neither
     * that nor a header that leaves no room for a payload moves the counters.
     */
    method Packetize(payload: bytes, extensions: Extensions, timestamp: u32, headerSize: Option<nat>)
      returns (r: Packetized)
      modifies this
      ensures r == ExtensionsFailed <==> headerSize.None?
      ensures r == MTUTooShort <==> headerSize.Some? && mtu - headerSize.value <= 0
      ensures !r.Packets? ==> sequence == old(sequence) && frameNumber == old(frameNumber)
      ensures r.Packets? ==>
        var chunks := Chunks(payload, mtu - headerSize.value);
        && frameNumber == Add16(old(frameNumber), 1)
        && sequence == Seq16(old(sequence), |chunks|)
        && r.packets == PacketsOf(
             Packet(handle, timestamp, old(frameNumber), 0, false, false, extensions, []), old(sequence), chunks)
    {
      if headerSize.None? {
        return ExtensionsFailed;
      }
      var maxPayloadSize := mtu - headerSize.value;
      if maxPayloadSize <= 0 {
        return MTUTooShort;
      }
      var header := Packet(handle, timestamp, frameNumber, 0, false, false, extensions, []);
      frameNumber := Add16(frameNumber, 1);
      var chunks := ChunkPayload(payload, maxPayloadSize);
      var out: seq<Packet> := [];
      for i := 0 to |chunks|
        invariant sequence == Seq16(old(sequence), i)
        invariant frameNumber == Add16(old(frameNumber), 1)
        invariant out == PacketsOf(header, old(sequence), chunks)[..i]
      {
        var marker := FrameMarker(i, |chunks|);
        out := out + [header.(sequence := sequence, payload := chunks[i],
                              isStart := marker == Start || marker == Single,
                              isFinal := marker == Final || marker == Single)];
        NextSeq16(old(sequence), i);
        sequence := Add16(sequence, 1);
      }
      return Packets(out);
    }
  }

  method ChunkPayload(payload: bytes, maxSize: nat) returns (chunks: seq<bytes>)
    requires maxSize > 0
    ensures chunks == Chunks(payload, maxSize)
  {
    chunks := [];
    var rest := payload;
    while |rest| > 0
      invariant chunks + Chunks(rest, maxSize) == Chunks(payload, maxSize)
      decreases |rest|
    {
      var n := if maxSize < |rest| then maxSize else |rest|;
      chunks := chunks + [rest[..n]];
      rest := rest[n..];
    }
  }

  function Concat(chunks: seq<bytes>): bytes {
    if chunks == [] then [] else chunks[0] + Concat(chunks[1..])
  }

  /** The chunks are the payload cut up: nonempty, none too long, and nothing lost. */
  lemma {:induction false} ChunksRejoin(payload: bytes, maxSize: nat)
    requires maxSize > 0
    ensures Concat(Chunks(payload, maxSize)) == payload
    ensures forall c :: c in Chunks(payload, maxSize) ==> 0 < |c| <= maxSize
    decreases |payload|
  {
    if payload == [] {
    } else {
      var n := if maxSize < |payload| then maxSize else |payload|;
      ChunksRejoin(payload[n..], maxSize);
      assert payload == payload[..n] + payload[n..];
    }
  }

  /** As many chunks as it takes: the payload's length over theirs, rounded up. */
  lemma {:induction false} ChunkCount(payload: bytes, maxSize: nat)
    requires maxSize > 0
    ensures var n := |Chunks(payload, maxSize)|;
      if payload == [] then n == 0 else n >= 1 && (n - 1) * maxSize < |payload| <= n * maxSize
    decreases |payload|
  {
    if |payload| <= maxSize {
      assert payload != [] ==> Chunks(payload[|payload|..], maxSize) == [];
    } else {
      var rest := payload[maxSize..];
      ChunkCount(rest, maxSize);
      var n := |Chunks(rest, maxSize)|;
      assert (n + 1) * maxSize == n * maxSize + maxSize && n * maxSize == (n - 1) * maxSize + maxSize;
    }
  }
}
