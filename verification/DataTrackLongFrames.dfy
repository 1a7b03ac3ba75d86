/** Frames of more packets than the depacketizer buffers: exactly when a wrong frame can come out. */
module DataTrackLongFrames {
  import opened Machine
  import opened DataTrackPackets
  import opened DataTrackReassembly
  import opened DataTrackRoundTrip

  // ---- Nothing comes out ----

  /** Whatever arrives, unless the numbers wrap short; and then too if every inner packet arrives. */
  lemma LongFrameEmitsNothing(
    d: State, payload: bytes, maxSize: nat, header: Packet, start: u16, items: seq<Item>, maxPartials: int)
    requires maxSize > 0 && |Chunks(payload, maxSize)| > MAX_BUFFER_PACKETS
    requires Inner(items, |Chunks(payload, maxSize)|, header.frameNumber)
    requires !WrapsShort(|Chunks(payload, maxSize)|) || Covers(items, |Chunks(payload, maxSize)|)
    ensures FramesOf(d, payload, maxSize, header, start, items, maxPartials) == []
  {
    FramesAreOwn(d, payload, maxSize, header, start, items, maxPartials);
    BigFrame(d, header, start, Chunks(payload, maxSize), items, maxPartials);
  }

  lemma FramesAreOwn(
    d: State, payload: bytes, maxSize: nat, header: Packet, start: u16, items: seq<Item>, maxPartials: int)
    requires maxSize > 0 && |Chunks(payload, maxSize)| >= 2
    requires Inner(items, |Chunks(payload, maxSize)|, header.frameNumber)
    ensures var packets := PacketsOf(header, start, Chunks(payload, maxSize));
      && Among(packets, items)
      && FramesOf(d, payload, maxSize, header, start, items, maxPartials) == OwnFrames(d, packets, items, maxPartials)
  {
    var packets := PacketsOf(header, start, Chunks(payload, maxSize));
    InnerAmong(items, packets, header.frameNumber);
    FeedArrival(d, packets, items, maxPartials);
  }

  /** What the packets of a payload emit when those items arrive between the first and the last. */
  ghost function FramesOf(
    d: State, payload: bytes, maxSize: nat, header: Packet, start: u16, items: seq<Item>, maxPartials: int): seq<Frame>
    requires maxSize > 0 && |Chunks(payload, maxSize)| >= 2
    requires Inner(items, |Chunks(payload, maxSize)|, header.frameNumber)
  {
    var packets := PacketsOf(header, start, Chunks(payload, maxSize));
    InnerAmong(items, packets, header.frameNumber);
    Feed(d, packets, Arrival(items, |packets|), maxPartials).1
  }

  // ---- A truncated frame comes out ----

  /** The packets of the indices from k up to m. */
  function From(k: nat, m: nat): seq<Item>
    decreases m - k
  {
    if k >= m then [] else [Own(k)] + From(k + 1, m)
  }

  lemma {:induction false} FromInner(k: nat, m: nat, n: nat, frameNumber: u16)
    requires 1 <= k && m < n
    ensures Inner(From(k, m), n, frameNumber) && Openings(From(k, m)) == 0
    ensures forall i: nat :: i in Got(From(k, m)) <==> k <= i < m
    decreases m - k
  {
    if k >= m {
    } else {
      FromInner(k + 1, m, n, frameNumber);
      assert From(k, m)[1..] == From(k + 1, m);
    }
  }

  /** The chunks whose packets arrive: the first m, and the last. */
  function Kept(chunks: seq<bytes>, m: nat): (r: seq<bytes>)
    requires m < |chunks|
    ensures |r| == m + 1
  {
    chunks[..m] + [chunks[|chunks| - 1]]
  }

  /** The same items are fed the same packets. */
  lemma {:induction false} SameFeed(d: State, a: seq<Packet>, b: seq<Packet>, items: seq<Item>, maxPartials: int)
    requires Among(a, items) && Among(b, items)
    requires forall k :: 0 <= k < |items| && items[k].Own? ==> a[items[k].i] == b[items[k].i]
    ensures Feed(d, a, items, maxPartials) == Feed(d, b, items, maxPartials)
    decreases items
  {
    if items == [] {
    } else {
      SameFeed(Push(d, PacketFor(a, items[0]), maxPartials).0, a, b, items[1..], maxPartials);
    }
  }

  /** The packets that arrive are those of a frame of the kept chunks. */
  lemma KeptPackets(header: Packet, start: u16, chunks: seq<bytes>, m: nat)
    requires 1 <= m < |chunks| - 1 && m == (|chunks| - 1) % 0x1_0000
    ensures var a, b := PacketsOf(header, start, chunks), PacketsOf(header, start, Kept(chunks, m));
      (forall i :: 0 <= i < m ==> a[i] == b[i]) && a[|a| - 1] == b[|b| - 1]
  {
    NumberWraps(start, |chunks| - 1);
  }

  lemma FewArrive(d: State, header: Packet, start: u16, chunks: seq<bytes>, m: nat, maxPartials: int)
    requires 1 <= m < |chunks| - 1 && m == (|chunks| - 1) % 0x1_0000 && m < MAX_BUFFER_PACKETS
    requires Among(PacketsOf(header, start, chunks), From(1, m))
    ensures OwnFrames(d, PacketsOf(header, start, chunks), From(1, m), maxPartials)
      == [Frame(Concat(Kept(chunks, m)), header.extensions)]
  {
    var items, kept := From(1, m), Kept(chunks, m);
    FromInner(1, m, m + 1, header.frameNumber);
    KeptPackets(header, start, chunks, m);
    SameOwnFrames(d, PacketsOf(header, start, chunks), PacketsOf(header, start, kept), items, m, maxPartials);
    SmallFrame(d, header, start, kept, items, maxPartials);
  }

  lemma SameOwnFrames(d: State, a: seq<Packet>, b: seq<Packet>, items: seq<Item>, m: nat, maxPartials: int)
    requires |a| >= 2 && |b| == m + 1 >= 2 && Inner(items, m + 1, a[0].frameNumber) && m < |a|
    requires (forall i :: 0 <= i < m ==> a[i] == b[i]) && a[|a| - 1] == b[|b| - 1]
    ensures Among(a, items) && Among(b, items)
    ensures OwnFrames(d, a, items, maxPartials) == OwnFrames(d, b, items, maxPartials)
  {
    forall k | 0 <= k < |items| && items[k].Own? ensures items[k].i < m && a[items[k].i] == b[items[k].i] {
      assert InnerItem(items[k], m + 1, a[0].frameNumber);
    }
    SameFeed(Push(d, a[0], maxPartials).0, a, b, items, maxPartials);
  }

  lemma FirstBegins(d: State, header: Packet, start: u16, chunks: seq<bytes>, maxPartials: int)
    requires |chunks| > 1
    ensures var first := PacketOf(header, start, chunks, 0);
      && first.Marker() == Start
      && var d1 := Push(d, first, maxPartials).0;
         header.frameNumber in d1.partials
         && d1.partials[header.frameNumber] == Partial(start, header.extensions, map[start := chunks[0]])
  {
  }

  /** The last packet has the first one's number: it takes its place. */
  lemma LastReplacesFirst(d: State, header: Packet, start: u16, chunks: seq<bytes>, maxPartials: int)
    requires |chunks| > 1 && (|chunks| - 1) % 0x1_0000 == 0
    ensures OwnFrames(d, PacketsOf(header, start, chunks), [], maxPartials)
      == [Frame(Concat(Kept(chunks, 0)), header.extensions)]
  {
    var packets := PacketsOf(header, start, chunks);
    FirstBegins(d, header, start, chunks, maxPartials);
    LastFields(header, start, chunks);
    LastAlone(Push(d, packets[0], maxPartials).0, header.extensions, chunks[0], packets[|packets| - 1], maxPartials);
    OnlyLastEmits(d, packets, [], maxPartials);
  }

  lemma LastFields(header: Packet, start: u16, chunks: seq<bytes>)
    requires |chunks| > 1 && (|chunks| - 1) % 0x1_0000 == 0
    ensures var last, chunk := PacketOf(header, start, chunks, |chunks| - 1), chunks[|chunks| - 1];
      && last.Marker() == Final && last.sequence == start
      && last.payload == chunk && Concat(Kept(chunks, 0)) == chunk
  {
    var chunk := chunks[|chunks| - 1];
    NumberWraps(start, |chunks| - 1);
    assert Kept(chunks, 0) == [chunk] && Concat([chunk]) == chunk + Concat([chunk][1..]) == chunk;
  }

  lemma LastAlone(d: State, extensions: Extensions, first: bytes, last: Packet, maxPartials: int)
    requires last.Marker() == Final && last.frameNumber in d.partials
    requires d.partials[last.frameNumber] == Partial(last.sequence, extensions, map[last.sequence := first])
    ensures Push(d, last, maxPartials).1.frame == Some(Frame(last.payload, extensions))
  {
    PushFinal(d, last, maxPartials);
    assert map[last.sequence := first][last.sequence := last.payload] == map[last.sequence := last.payload];
    SingleFinalizes(last.frameNumber, Partial(last.sequence, extensions, map[last.sequence := last.payload]));
  }

  lemma SingleFinalizes(n: u16, partial: Partial)
    requires partial.payloads.Keys == {partial.startSequence}
    ensures Finalize(n, partial, partial.startSequence).frame
      == Some(Frame(partial.payloads[partial.startSequence], partial.extensions))
  {
    assert |partial.payloads.Keys| == |partial.payloads| == 1;
  }

  /** The first packets up to the number of the last, and the last, make a frame of those alone. */
  lemma TruncatedComesOut(d: State, payload: bytes, maxSize: nat, header: Packet, start: u16, maxPartials: int)
    requires maxSize > 0 && WrapsShort(|Chunks(payload, maxSize)|)
    ensures var chunks := Chunks(payload, maxSize);
      var m := (|chunks| - 1) % 0x1_0000;
      && Inner(From(1, m), |chunks|, header.frameNumber)
      && FramesOf(d, payload, maxSize, header, start, From(1, m), maxPartials)
         == [Frame(Concat(Kept(chunks, m)), header.extensions)]
  {
    var chunks := Chunks(payload, maxSize);
    var m := (|chunks| - 1) % 0x1_0000;
    FromInner(1, m, |chunks|, header.frameNumber);
    FramesAreOwn(d, payload, maxSize, header, start, From(1, m), maxPartials);
    if m == 0 {
      LastReplacesFirst(d, header, start, chunks, maxPartials);
    } else {
      FewArrive(d, header, start, chunks, m, maxPartials);
    }
  }

  // ---- Exactly when ----

  lemma {:induction false} ConcatParts(a: seq<bytes>, b: seq<bytes>)
    ensures Concat(a + b) == Concat(a) + Concat(b)
  {
    if a == [] {
      assert a + b == b;
    } else {
      assert (a + b)[1..] == a[1..] + b;
      ConcatParts(a[1..], b);
    }
  }

  /** The frame that comes out is shorter than the payload. */
  lemma KeptIsShorter(payload: bytes, maxSize: nat, m: nat)
    requires maxSize > 0 && m + 1 < |Chunks(payload, maxSize)|
    ensures |Concat(Kept(Chunks(payload, maxSize), m))| < |payload|
  {
    var chunks := Chunks(payload, maxSize);
    ChunksRejoin(payload, maxSize);
    var head, lost, last := chunks[..m], chunks[m..|chunks| - 1], [chunks[|chunks| - 1]];
    assert chunks == head + (lost + last);
    ConcatParts(head, lost + last);
    ConcatParts(lost, last);
    ConcatParts(head, last);
    assert lost[0] == chunks[m] && lost[0] in chunks;
  }

  /** A frame comes out although the payload does not. */
  ghost predicate Truncates(
    d: State, payload: bytes, maxSize: nat, header: Packet, start: u16, items: seq<Item>, maxPartials: int)
    requires maxSize > 0 && |Chunks(payload, maxSize)| >= 2
  {
    && Inner(items, |Chunks(payload, maxSize)|, header.frameNumber)
    && var frames := FramesOf(d, payload, maxSize, header, start, items, maxPartials);
      |frames| == 1 && |frames[0].payload| < |payload|
  }

  /**
   * For a payload of more packets than the buffer, from any state: some arrival of its packets, the
   * first one first and the last one last, makes a wrong frame come out if and only if its numbers wrap
   * short.
   */
  lemma LongFrameTruncatesIff(d: State, payload: bytes, maxSize: nat, header: Packet, start: u16, maxPartials: int)
    requires maxSize > 0 && |Chunks(payload, maxSize)| > MAX_BUFFER_PACKETS
    ensures (exists items: seq<Item> :: Truncates(d, payload, maxSize, header, start, items, maxPartials))
      <==> WrapsShort(|Chunks(payload, maxSize)|)
  {
    var n := |Chunks(payload, maxSize)|;
    if WrapsShort(n) {
      var m := (n - 1) % 0x1_0000;
      TruncatedComesOut(d, payload, maxSize, header, start, maxPartials);
      KeptIsShorter(payload, maxSize, m);
      assert Truncates(d, payload, maxSize, header, start, From(1, m), maxPartials);
    } else {
      forall items: seq<Item> | Inner(items, n, header.frameNumber)
        ensures !Truncates(d, payload, maxSize, header, start, items, maxPartials)
      {
        LongFrameEmitsNothing(d, payload, maxSize, header, start, items, maxPartials);
      }
    }
  }

  // ---- Whatever comes out is shorter ----

  ghost predicate AllWithin(payloads: map<u16, bytes>, maxSize: nat) {
    forall s :: s in payloads ==> |payloads[s]| <= maxSize
  }

  /** If the frame is in progress, it holds no more packets than fit, none longer than the chunks. */
  ghost predicate Sized(d: State, n: u16, maxSize: nat) {
    n in d.partials ==> |d.partials[n].payloads| <= MAX_BUFFER_PACKETS && AllWithin(d.partials[n].payloads, maxSize)
  }

  lemma {:induction false} AssembleShort(payloads: map<u16, bytes>, sequence: u16, end: u16, maxSize: nat)
    requires AllWithin(payloads, maxSize)
    ensures var r := Assemble(payloads, sequence, end);
      r.Some? ==> |r.value| <= (Sub16(end, sequence) + 1) * maxSize
    decreases Sub16(end, sequence)
  {
    if sequence == end {
      assert (Sub16(end, sequence) + 1) * maxSize == maxSize;
    } else {
      var next := Add16(sequence, 1);
      AssembleShort(payloads, next, end, maxSize);
      assert Sub16(end, sequence) == Sub16(end, next) + 1;
      assert (Sub16(end, next) + 2) * maxSize == (Sub16(end, next) + 1) * maxSize + maxSize;
    }
  }

  lemma FinalizeShort(n: u16, partial: Partial, end: u16, maxSize: nat)
    requires 0 < |partial.payloads| <= MAX_BUFFER_PACKETS && AllWithin(partial.payloads, maxSize)
    ensures var r := Finalize(n, partial, end);
      r.frame.Some? ==> |r.frame.value.payload| <= MAX_BUFFER_PACKETS * maxSize
  {
    AssembleShort(partial.payloads, partial.startSequence, end, maxSize);
    var span := Sub16(end, partial.startSequence) + 1;
    if Finalize(n, partial, end).frame.Some? {
      assert span == |partial.payloads|;
      TimesGrows(span, MAX_BUFFER_PACKETS, maxSize);
    }
  }

  lemma StartSized(d: State, header: Packet, start: u16, chunks: seq<bytes>, maxSize: nat, maxPartials: int)
    requires |chunks| >= 2 && |chunks[0]| <= maxSize
    ensures Sized(Push(d, PacketOf(header, start, chunks, 0), maxPartials).0, header.frameNumber, maxSize)
  {
  }

  lemma InnerSized(d: State, p: Packet, maxSize: nat, maxPartials: int)
    requires p.Marker() == Inter && |p.payload| <= maxSize && Sized(d, p.frameNumber, maxSize)
    ensures Sized(Push(d, p, maxPartials).0, p.frameNumber, maxSize)
  {
    if p.frameNumber in d.partials {
      AddedKey(d.partials[p.frameNumber].payloads, p.sequence, p.payload);
    }
  }

  lemma {:induction false} FeedSized(
    d: State, header: Packet, start: u16, chunks: seq<bytes>, items: seq<Item>, maxSize: nat, maxPartials: int)
    requires Inner(items, |chunks|, header.frameNumber) && Among(PacketsOf(header, start, chunks), items)
    requires (forall c :: c in chunks ==> |c| <= maxSize) && Sized(d, header.frameNumber, maxSize)
    ensures Sized(Feed(d, PacketsOf(header, start, chunks), items, maxPartials).0, header.frameNumber, maxSize)
    decreases items
  {
    if items == [] {
    } else {
      FirstItem(items, |chunks|, header.frameNumber);
      var p := PacketFor(PacketsOf(header, start, chunks), items[0]);
      ItemSized(d, header, start, chunks, items[0], maxSize, maxPartials);
      FeedSized(Push(d, p, maxPartials).0, header, start, chunks, items[1..], maxSize, maxPartials);
    }
  }

  lemma ItemSized(
    d: State, header: Packet, start: u16, chunks: seq<bytes>, item: Item, maxSize: nat, maxPartials: int)
    requires InnerItem(item, |chunks|, header.frameNumber)
    requires (forall c :: c in chunks ==> |c| <= maxSize) && Sized(d, header.frameNumber, maxSize)
    ensures Sized(
      Push(d, PacketFor(PacketsOf(header, start, chunks), item), maxPartials).0, header.frameNumber, maxSize)
  {
    match item
    case Own(i) => InnerSized(d, PacketOf(header, start, chunks, i), maxSize, maxPartials);
    case Other(q) => OtherNeverAdds(d, q, header.frameNumber, maxPartials);
  }

  lemma LastShort(d: State, p: Packet, maxSize: nat, maxPartials: int)
    requires p.Marker() == Final && |p.payload| <= maxSize && Sized(d, p.frameNumber, maxSize)
    ensures var r := Push(d, p, maxPartials).1;
      r.frame.Some? ==> |r.frame.value.payload| <= MAX_BUFFER_PACKETS * maxSize
  {
    if p.frameNumber in d.partials && |d.partials[p.frameNumber].payloads| < MAX_BUFFER_PACKETS {
      var before := d.partials[p.frameNumber];
      PushFinal(d, p, maxPartials);
      AddedKey(before.payloads, p.sequence, p.payload);
      var full := before.payloads[p.sequence := p.payload];
      assert p.sequence in full;
      FinalizeShort(p.frameNumber, before.(payloads := full), p.sequence, maxSize);
    }
  }

  lemma OwnFramesShort(
    d: State, header: Packet, start: u16, chunks: seq<bytes>, items: seq<Item>, maxSize: nat, maxPartials: int)
    requires |chunks| >= 2 && Inner(items, |chunks|, header.frameNumber) && forall c :: c in chunks ==> |c| <= maxSize
    requires Among(PacketsOf(header, start, chunks), items)
    ensures forall f :: f in OwnFrames(d, PacketsOf(header, start, chunks), items, maxPartials) ==>
      |f.payload| <= MAX_BUFFER_PACKETS * maxSize
  {
    var packets := PacketsOf(header, start, chunks);
    var d1 := Push(d, packets[0], maxPartials).0;
    StartSized(d, header, start, chunks, maxSize, maxPartials);
    InnerEmitsNothing(d1, header, start, chunks, items, maxPartials);
    FeedSized(d1, header, start, chunks, items, maxSize, maxPartials);
    LastShort(Feed(d1, packets, items, maxPartials).0, packets[|packets| - 1], maxSize, maxPartials);
    FirstBegins(d, header, start, chunks, maxPartials);
    OnlyLastEmits(d, packets, items, maxPartials);
  }

  /** Whatever arrives, a frame that comes out of more packets than the buffer is shorter than the payload. */
  lemma LongFramesAreShort(
    d: State, payload: bytes, maxSize: nat, header: Packet, start: u16, items: seq<Item>, maxPartials: int)
    requires maxSize > 0 && |Chunks(payload, maxSize)| > MAX_BUFFER_PACKETS
    requires Inner(items, |Chunks(payload, maxSize)|, header.frameNumber)
    ensures forall f :: f in FramesOf(d, payload, maxSize, header, start, items, maxPartials) ==>
      |f.payload| < |payload|
  {
    LongerThanBuffer(payload, maxSize);
    ChunksRejoin(payload, maxSize);
    FramesAreOwn(d, payload, maxSize, header, start, items, maxPartials);
    OwnFramesShort(d, header, start, Chunks(payload, maxSize), items, maxSize, maxPartials);
  }

  lemma LongerThanBuffer(payload: bytes, maxSize: nat)
    requires maxSize > 0 && |Chunks(payload, maxSize)| > MAX_BUFFER_PACKETS
    ensures MAX_BUFFER_PACKETS * maxSize < |payload|
  {
    ChunkCount(payload, maxSize);
    TimesGrows(MAX_BUFFER_PACKETS, |Chunks(payload, maxSize)| - 1, maxSize);
  }

  lemma TimesGrows(a: nat, b: nat, k: nat)
    requires a <= b
    ensures a * k <= b * k
  {
  }
}
