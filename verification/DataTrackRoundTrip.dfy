/** Which frames the depacketizer emits, and the round trip from the packetizer. */
module DataTrackRoundTrip {
  import opened Machine
  import opened DataTrackPackets
  import opened DataTrackReassembly

  // ---- What a final packet emits ----

  /** The count sequence numbers from start on, around the circle. */
  ghost function Interval(start: u16, count: nat): set<u16> {
    set k | 0 <= k < count :: Seq16(start, k)
  }

  ghost predicate AllStored(payloads: map<u16, bytes>, start: u16, from: nat, to: nat) {
    forall k :: from <= k < to ==> Seq16(start, k) in payloads
  }

  ghost function Stored(payloads: map<u16, bytes>, start: u16, count: nat): (r: seq<bytes>)
    requires AllStored(payloads, start, 0, count)
    ensures |r| == count && forall k :: 0 <= k < count ==> r[k] == payloads[Seq16(start, k)]
  {
    seq(count, k requires 0 <= k < count => payloads[Seq16(start, k)])
  }

  lemma SameSeq16(start: u16, i: nat, j: nat)
    requires i < 0x1_0000 && j < 0x1_0000
    ensures Seq16(start, i) == Seq16(start, j) <==> i == j
  {
  }

  lemma {:induction false} IntervalSize(start: u16, count: nat)
    requires count <= 0x1_0000
    ensures |Interval(start, count)| == count
  {
    if count > 0 {
      IntervalSize(start, count - 1);
      var last := Seq16(start, count - 1);
      forall k | 0 <= k < count - 1 ensures Seq16(start, k) != last {
        SameSeq16(start, k, count - 1);
      }
      assert Interval(start, count) == Interval(start, count - 1) + {last};
    } else {
      assert Interval(start, 0) == {};
    }
  }

  /** Assembling from the k-th number on: everything up to the n-th, or nothing. */
  lemma {:induction false} AssembleFrom(payloads: map<u16, bytes>, start: u16, n: nat, k: nat)
    requires k <= n < 0x1_0000
    ensures var r := Assemble(payloads, Seq16(start, k), Seq16(start, n));
      && (r.Some? <==> AllStored(payloads, start, k, n + 1))
      && (AllStored(payloads, start, 0, n + 1) ==> r == Some(Concat(Stored(payloads, start, n + 1)[k..])))
    decreases n - k
  {
    SameSeq16(start, k, n);
    NextSeq16(start, k);
    if k < n {
      AssembleFrom(payloads, start, n, k + 1);
    }
    if AllStored(payloads, start, 0, n + 1) {
      var all := Stored(payloads, start, n + 1);
      assert all[k..][1..] == all[k+1..];
      assert all[k] + [] == all[k];
    }
  }

  /** Stored packets of the right number fill the interval exactly when none of it is missing. */
  lemma FillsInterval(payloads: map<u16, bytes>, start: u16, count: nat)
    requires count <= 0x1_0000
    ensures payloads.Keys == Interval(start, count) <==> |payloads| == count && AllStored(payloads, start, 0, count)
  {
    IntervalSize(start, count);
    var keys, all := payloads.Keys, Interval(start, count);
    assert |keys| == |payloads|;
    if AllStored(payloads, start, 0, count) && |keys| == |all| {
      assert all <= keys;
      assert |keys - all| == |keys| - |all|;
    }
    if keys == all {
      assert forall k :: 0 <= k < count ==> Seq16(start, k) in all;
    }
  }

  /** How many sequence numbers a frame ending at end spans. */
  function Span(partial: Partial, end: u16): nat {
    Sub16(end, partial.startSequence) + 1
  }

  /**
   * A final packet emits a frame exactly when the stored packets are the numbers from the frame's
   * start to the final one, none missing and none besides, and then their payloads in order.
   */
  lemma FinalizeExact(n: u16, partial: Partial, end: u16)
    requires |partial.payloads| <= MAX_BUFFER_PACKETS
    ensures var r := Finalize(n, partial, end);
      var start, count := partial.startSequence, Span(partial, end);
      var exact := partial.payloads.Keys == Interval(start, count);
      && (r.frame.Some? <==> exact)
      && (exact ==> AllStored(partial.payloads, start, 0, count))
      && (exact ==>
           r == Result(Some(Frame(Concat(Stored(partial.payloads, start, count)), partial.extensions)), None))
      && (!exact ==> r.drop.Some? && r.drop.value.Incomplete? && r.drop.value.frameNumber == n)
  {
    FillsInterval(partial.payloads, partial.startSequence, Span(partial, end));
    AssembleExact(partial, end);
  }

  lemma AssembleExact(partial: Partial, end: u16)
    ensures var start, count := partial.startSequence, Span(partial, end);
      Assemble(partial.payloads, start, end) ==
        if AllStored(partial.payloads, start, 0, count) then Some(Concat(Stored(partial.payloads, start, count)))
        else None
  {
    var start, count := partial.startSequence, Span(partial, end);
    assert end == Seq16(start, count - 1) && start == Seq16(start, 0);
    AssembleFrom(partial.payloads, start, count - 1, 0);
    if AllStored(partial.payloads, start, 0, count) {
      var all := Stored(partial.payloads, start, count);
      assert all[0..] == all;
    }
  }

  // ---- The round trip ----

  /** What arrives: a packet of the frame, by its index, or a packet of another frame. */
  datatype Item = Own(i: nat) | Other(p: Packet)

  predicate Among(packets: seq<Packet>, items: seq<Item>) {
    forall k :: 0 <= k < |items| && items[k].Own? ==> items[k].i < |packets|
  }

  function PacketFor(packets: seq<Packet>, item: Item): Packet
    requires item.Own? ==> item.i < |packets|
  {
    match item
    case Own(i) => packets[i]
    case Other(p) => p
  }

  function Emitted(item: Item, r: Result): seq<Frame> {
    if item.Own? && r.frame.Some? then [r.frame.value] else []
  }

  /** The state after pushing what arrives, and the frames emitted by the frame's own packets. */
  function Feed(d: State, packets: seq<Packet>, items: seq<Item>, maxPartials: int): (State, seq<Frame>)
    requires Among(packets, items)
    decreases items
  {
    if items == [] then (d, [])
    else
      var (d1, r) := Push(d, PacketFor(packets, items[0]), maxPartials);
      var (d2, frames) := Feed(d1, packets, items[1..], maxPartials);
      (d2, Emitted(items[0], r) + frames)
  }

  lemma {:induction false} FeedThenLast(d: State, packets: seq<Packet>, items: seq<Item>, last: nat, maxPartials: int)
    requires Among(packets, items) && last < |packets|
    ensures var (d1, frames) := Feed(d, packets, items, maxPartials);
      Feed(d, packets, items + [Own(last)], maxPartials).1
        == frames + Emitted(Own(last), Push(d1, packets[last], maxPartials).1)
    decreases items
  {
    if items == [] {
      var (d1, r) := Push(d, packets[last], maxPartials);
      assert [] + [Own(last)] == [Own(last)];
      assert Feed(d1, packets, [], maxPartials) == (d1, []);
      assert Feed(d, packets, [Own(last)], maxPartials).1 == Emitted(Own(last), r) + [];
    } else {
      assert (items + [Own(last)])[1..] == items[1..] + [Own(last)];
      FeedThenLast(Push(d, PacketFor(packets, items[0]), maxPartials).0, packets, items[1..], last, maxPartials);
    }
  }

  /** Packets strictly inside a frame of n packets, and packets of frames of other numbers. */
  predicate Inner(items: seq<Item>, n: nat, frameNumber: u16) {
    forall k :: 0 <= k < |items| ==> InnerItem(items[k], n, frameNumber)
  }

  predicate InnerItem(item: Item, n: nat, frameNumber: u16) {
    match item
    case Own(i) => 1 <= i < n - 1
    case Other(p) => p.frameNumber != frameNumber
  }

  lemma InnerAmong(items: seq<Item>, packets: seq<Packet>, frameNumber: u16)
    requires Inner(items, |packets|, frameNumber)
    ensures Among(packets, items)
  {
    forall k | 0 <= k < |items| && items[k].Own? ensures items[k].i < |packets| {
      assert InnerItem(items[k], |packets|, frameNumber);
    }
  }

  function Got(items: seq<Item>): set<nat> {
    if items == [] then {} else (if items[0].Own? then {items[0].i} else {}) + Got(items[1..])
  }

  /** Every inner packet arrives. */
  ghost predicate Covers(items: seq<Item>, n: nat) {
    forall i :: 1 <= i < n - 1 ==> i in Got(items)
  }

  lemma {:induction false} GotInner(items: seq<Item>, n: nat, frameNumber: u16)
    requires Inner(items, n, frameNumber)
    ensures forall i :: i in Got(items) ==> 1 <= i < n - 1
  {
    if items == [] {
    } else {
      assert InnerItem(items[0], n, frameNumber);
      GotInner(items[1..], n, frameNumber);
    }
  }

  lemma FirstItem(items: seq<Item>, n: nat, frameNumber: u16)
    requires Inner(items, n, frameNumber) && items != []
    ensures InnerItem(items[0], n, frameNumber) && Inner(items[1..], n, frameNumber)
    ensures Got(items) == Got([items[0]]) + Got(items[1..])
    ensures Openings(items) == Openings([items[0]]) + Openings(items[1..])
    ensures forall i :: i in Got([items[0]]) ==> i < n - 1
  {
    assert [items[0]][1..] == [];
  }

  lemma GotOneMore(got: set<nat>, items: seq<Item>)
    requires items != []
    ensures got + Got([items[0]]) + Got(items[1..]) == got + Got(items)
  {
    assert [items[0]][1..] == [];
  }

  /** The first packet, what arrives after it, the last packet. */
  function Arrival(items: seq<Item>, n: nat): seq<Item>
    requires n >= 2
  {
    [Own(0)] + items + [Own(n - 1)]
  }

  /** Packets of other frames that may evict one: those that begin a frame, or are one. */
  predicate Opens(item: Item) {
    item.Other? && (item.p.Marker() == Start || item.p.Marker() == Single)
  }

  function Openings(items: seq<Item>): nat {
    if items == [] then 0 else (if Opens(items[0]) then 1 else 0) + Openings(items[1..])
  }

  /** How many of the frames in progress began after frame n. */
  function Newer(order: seq<u16>, n: u16): nat {
    var i := IndexOf(order, n);
    if i < 0 then 0 else |order| - 1 - i
  }

  /** The frame is safe from eviction through opens more packets that may evict. */
  ghost predicate Room(d: State, n: u16, opens: nat, maxPartials: int) {
    opens > 0 ==> Valid(d) && |d.partials| <= maxPartials && Newer(d.order, n) + opens < maxPartials
  }

  // ---- Packets of other frames ----

  lemma IndexOfListed(order: seq<u16>, keys: set<u16>, j: nat)
    requires Lists(order, keys) && j < |order|
    ensures IndexOf(order, order[j]) == j && Newer(order, order[j]) == |order| - 1 - j
  {
  }

  lemma {:induction false} ListsSize(order: seq<u16>, keys: set<u16>)
    requires Lists(order, keys)
    ensures |order| == |keys|
  {
    if order == [] {
      assert keys == {};
    } else {
      ListsRest(order, keys);
      ListsSize(order[1..], keys - {order[0]});
    }
  }

  lemma ListsRest(order: seq<u16>, keys: set<u16>)
    requires Lists(order, keys) && order != []
    ensures Lists(order[1..], keys - {order[0]}) && order[0] in keys
  {
  }

  lemma NewerWithout(order: seq<u16>, keys: set<u16>, n: u16, other: u16)
    requires Lists(order, keys) && n in keys && n != other
    ensures Newer(Without(order, other), n) <= Newer(order, n)
    ensures order != [] && order[0] == other ==> Newer(Without(order, other), n) == Newer(order, n)
  {
    var j, i := IndexOf(order, n), IndexOf(order, other);
    if i >= 0 {
      var rest := Without(order, other);
      assert rest[if j < i then j else j - 1] == n;
      WithoutLists(order, keys, other);
      IndexOfListed(rest, keys - {other}, if j < i then j else j - 1);
    }
  }

  lemma WithoutLists(order: seq<u16>, keys: set<u16>, n: u16)
    requires Lists(order, keys)
    ensures Lists(Without(order, n), keys - {n})
  {
  }

  /** A packet of another frame that may not evict. */
  lemma OtherKeeps(d: State, q: Packet, n: u16, opens: nat, maxPartials: int)
    requires q.frameNumber != n && n in d.partials && !Opens(Other(q)) && Room(d, n, opens, maxPartials)
    ensures var d' := Push(d, q, maxPartials).0;
      n in d'.partials && d'.partials[n] == d.partials[n] && Room(d', n, opens, maxPartials)
  {
    OtherLeaves(d, q, n);
    if opens > 0 {
      PushToPartialKeepsValid(d, q);
      NewerAfterOther(d, q, n);
      FewerPartials(d, q);
    }
  }

  lemma OtherLeaves(d: State, q: Packet, n: u16)
    requires q.frameNumber != n
    ensures var d' := PushToPartial(d, q).0;
      (n in d'.partials <==> n in d.partials) && (n in d.partials ==> d'.partials[n] == d.partials[n])
  {
  }

  lemma NewerAfterOther(d: State, q: Packet, n: u16)
    requires Valid(d) && n in d.partials && q.frameNumber != n
    ensures Newer(PushToPartial(d, q).0.order, n) <= Newer(d.order, n)
  {
    NewerWithout(d.order, d.partials.Keys, n, q.frameNumber);
    assert PushToPartial(d, q).0.order == d.order || PushToPartial(d, q).0.order == Without(d.order, q.frameNumber);
  }

  lemma FewerPartials(d: State, q: Packet)
    ensures |PushToPartial(d, q).0.partials| <= |d.partials|
  {
    var r := PushToPartial(d, q).0.partials;
    assert r.Keys <= d.partials.Keys;
    assert |r.Keys| == |r| && |d.partials.Keys| == |d.partials|;
    assert |d.partials.Keys - r.Keys| == |d.partials.Keys| - |r.Keys|;
  }

  lemma EvictKeeps(d: State, n: u16, opens: nat, maxPartials: int, newFrame: u16)
    requires n in d.partials && opens > 0 && Room(d, n, opens, maxPartials) && |d.partials| >= maxPartials
    ensures var d' := Evict(d, newFrame).0;
      && d.order != [] && Valid(d') && n in d'.partials && d'.partials[n] == d.partials[n]
      && Newer(d'.order, n) == Newer(d.order, n) && |d'.partials| < |d.partials|
  {
    ListsSize(d.order, d.partials.Keys);
    assert |d.partials.Keys| == |d.partials|;
    var j := IndexOf(d.order, n);
    assert j > 0;
    NewerWithout(d.order, d.partials.Keys, n, d.order[0]);
    RemoveKeepsValid(d, d.order[0]);
    assert |(d.partials - {d.order[0]}).Keys| == |d.partials - {d.order[0]}|;
    assert (d.partials - {d.order[0]}).Keys == d.partials.Keys - {d.order[0]};
  }

  lemma MakeRoomKeeps(d: State, n: u16, opens: nat, maxPartials: int, newFrame: u16)
    requires n in d.partials && opens > 0 && Room(d, n, opens, maxPartials)
    ensures var room := MakeRoom(d, maxPartials, newFrame, None).0;
      && Valid(room) && n in room.partials && room.partials[n] == d.partials[n]
      && Newer(room.order, n) == Newer(d.order, n) && |room.partials| < maxPartials
  {
    if |d.partials| >= maxPartials {
      EvictKeeps(d, n, opens, maxPartials, newFrame);
      var (d', evicted) := Evict(d, newFrame);
      assert MakeRoom(d', maxPartials, newFrame, evicted) == (d', evicted);
    }
  }

  lemma BegunKeeps(d: State, q: Packet, n: u16)
    requires Valid(d) && n in d.partials && q.frameNumber != n
    ensures var d' := Begun(d, q);
      && Valid(d') && n in d'.partials && d'.partials[n] == d.partials[n] && |d'.partials| <= |d.partials| + 1
      && Newer(d'.order, n) <= Newer(d.order, n) + 1
  {
    BegunKeepsValid(d, q);
    var j := IndexOf(d.order, n);
    IndexOfListed(Begun(d, q).order, Begun(d, q).partials.Keys, j);
  }

  /** A packet that may evict: the frame has one fewer to fear. */
  lemma OpeningKeeps(d: State, q: Packet, n: u16, opens: nat, maxPartials: int)
    requires q.frameNumber != n && n in d.partials && Opens(Other(q))
    requires opens > 0 && Room(d, n, opens, maxPartials)
    ensures var d' := Push(d, q, maxPartials).0;
      n in d'.partials && d'.partials[n] == d.partials[n] && Room(d', n, opens - 1, maxPartials)
  {
    if q.Marker() == Start {
      MakeRoomKeeps(d, n, opens, maxPartials, q.frameNumber);
      BegunKeeps(MakeRoom(d, maxPartials, q.frameNumber, None).0, q, n);
    } else if |d.partials| >= maxPartials {
      EvictKeeps(d, n, opens, maxPartials, q.frameNumber);
    }
  }

  // ---- The frame's own packets ----

  /** The frame is being assembled and holds the chunks of the indices in got, and nothing else. */
  ghost predicate Holds(d: State, header: Packet, start: u16, chunks: seq<bytes>, got: set<nat>) {
    header.frameNumber in d.partials &&
    HoldsChunks(d.partials[header.frameNumber], header.extensions, start, chunks, got)
  }

  ghost predicate HoldsChunks(
    partial: Partial, extensions: Extensions, start: u16, chunks: seq<bytes>, got: set<nat>)
  {
    && partial.startSequence == start && partial.extensions == extensions
    && (forall i :: i in got ==> HasChunk(partial.payloads, start, chunks, i))
    && (forall s :: s in partial.payloads ==> exists i :: i in got && s == Seq16(start, i))
  }

  ghost predicate HasChunk(payloads: map<u16, bytes>, start: u16, chunks: seq<bytes>, i: nat) {
    i < |chunks| && Seq16(start, i) in payloads && payloads[Seq16(start, i)] == chunks[i]
  }

  lemma HoldsFew(partial: Partial, extensions: Extensions, start: u16, chunks: seq<bytes>, got: set<nat>, n: nat)
    requires HoldsChunks(partial, extensions, start, chunks, got) && n <= 0x1_0000
    requires forall i :: i in got ==> i < n
    ensures |partial.payloads| <= n
  {
    var keys := partial.payloads.Keys;
    assert keys <= Interval(start, n);
    IntervalSize(start, n);
    assert |Interval(start, n) - keys| == n - |keys|;
  }

  lemma StartHolds(d: State, header: Packet, start: u16, chunks: seq<bytes>, maxPartials: int)
    requires |chunks| >= 2
    ensures var (d', r) := Push(d, PacketOf(header, start, chunks, 0), maxPartials);
      r.frame == None && Holds(d', header, start, chunks, {0})
  {
  }

  lemma StoresChunk(partial: Partial, extensions: Extensions, start: u16, chunks: seq<bytes>, got: set<nat>, i: nat)
    requires i < |chunks| <= MAX_BUFFER_PACKETS && HoldsChunks(partial, extensions, start, chunks, got)
    ensures HoldsChunks(partial.(payloads := partial.payloads[Seq16(start, i) := chunks[i]]),
                        extensions, start, chunks, got + {i})
  {
    var payloads := partial.payloads[Seq16(start, i) := chunks[i]];
    forall j | j in got + {i} ensures HasChunk(payloads, start, chunks, j) {
      if j in got {
        assert HasChunk(partial.payloads, start, chunks, j);
        SameSeq16(start, i, j);
      }
    }
    forall s | s in payloads ensures exists j :: j in got + {i} && s == Seq16(start, j) {
      if s != Seq16(start, i) {
        var j :| j in got && s == Seq16(start, j);
      }
    }
  }

  lemma InnerStep(
    d: State, header: Packet, start: u16, chunks: seq<bytes>, got: set<nat>, i: nat, opens: nat, maxPartials: int)
    requires 3 <= |chunks| <= MAX_BUFFER_PACKETS && 1 <= i < |chunks| - 1
    requires Holds(d, header, start, chunks, got) && forall j :: j in got ==> j < |chunks| - 1
    requires Room(d, header.frameNumber, opens, maxPartials)
    ensures var d' := Push(d, PacketOf(header, start, chunks, i), maxPartials).0;
      && Holds(d', header, start, chunks, got + {i})
      && Room(d', header.frameNumber, opens, maxPartials)
  {
    var partial := d.partials[header.frameNumber];
    HoldsFew(partial, header.extensions, start, chunks, got, |chunks| - 1);
    StoresChunk(partial, header.extensions, start, chunks, got, i);
    StoringKeepsRoom(d, PacketOf(header, start, chunks, i), opens, maxPartials);
  }

  lemma StoringKeepsRoom(d: State, p: Packet, opens: nat, maxPartials: int)
    requires p.frameNumber in d.partials && |d.partials[p.frameNumber].payloads| < MAX_BUFFER_PACKETS
    requires p.Marker() == Inter && Room(d, p.frameNumber, opens, maxPartials)
    ensures Room(Push(d, p, maxPartials).0, p.frameNumber, opens, maxPartials)
  {
    if opens > 0 {
      PushToPartialKeepsValid(d, p);
      FewerPartials(d, p);
    }
  }

  /** One arrival between the first packet and the last. */
  lemma ItemStep(
    d: State, header: Packet, start: u16, chunks: seq<bytes>, got: set<nat>, item: Item, opens: nat, maxPartials: int)
    requires 2 <= |chunks| <= MAX_BUFFER_PACKETS && InnerItem(item, |chunks|, header.frameNumber)
    requires Holds(d, header, start, chunks, got) && forall j :: j in got ==> j < |chunks| - 1
    requires opens >= Openings([item]) && Room(d, header.frameNumber, opens, maxPartials)
    ensures var d' := Push(d, PacketFor(PacketsOf(header, start, chunks), item), maxPartials).0;
      && Holds(d', header, start, chunks, got + Got([item]))
      && Room(d', header.frameNumber, opens - Openings([item]), maxPartials)
  {
    match item
    case Own(i) =>
      InnerStep(d, header, start, chunks, got, i, opens, maxPartials);
      assert Got([item]) == {i};
    case Other(q) =>
      assert got + Got([item]) == got;
      if Opens(item) {
        OpeningKeeps(d, q, header.frameNumber, opens, maxPartials);
      } else {
        OtherKeeps(d, q, header.frameNumber, opens, maxPartials);
      }
  }

  /** Only the last packet of a frame may emit it. */
  lemma {:induction false} InnerEmitsNothing(
    d: State, header: Packet, start: u16, chunks: seq<bytes>, items: seq<Item>, maxPartials: int)
    requires Inner(items, |chunks|, header.frameNumber) && Among(PacketsOf(header, start, chunks), items)
    ensures Feed(d, PacketsOf(header, start, chunks), items, maxPartials).1 == []
    decreases items
  {
    if items == [] {
    } else {
      FirstItem(items, |chunks|, header.frameNumber);
      var d1 := Push(d, PacketFor(PacketsOf(header, start, chunks), items[0]), maxPartials).0;
      InnerEmitsNothing(d1, header, start, chunks, items[1..], maxPartials);
    }
  }

  /** Arrival by arrival, what has come is held. */
  ghost predicate AlwaysHolds(
    d: State, header: Packet, start: u16, chunks: seq<bytes>, got: set<nat>, items: seq<Item>, maxPartials: int)
    requires Among(PacketsOf(header, start, chunks), items)
    decreases items
  {
    && Holds(d, header, start, chunks, got)
    && (items != [] ==>
         AlwaysHolds(Push(d, PacketFor(PacketsOf(header, start, chunks), items[0]), maxPartials).0,
               header, start, chunks, got + Got([items[0]]), items[1..], maxPartials))
  }

  lemma {:induction false} InnerHolds(
    d: State, header: Packet, start: u16, chunks: seq<bytes>, got: set<nat>, items: seq<Item>, maxPartials: int)
    requires 2 <= |chunks| <= MAX_BUFFER_PACKETS && Inner(items, |chunks|, header.frameNumber)
    requires Holds(d, header, start, chunks, got) && forall j :: j in got ==> j < |chunks| - 1
    requires Room(d, header.frameNumber, Openings(items), maxPartials)
    ensures AlwaysHolds(d, header, start, chunks, got, items, maxPartials)
    decreases items
  {
    if items == [] {
    } else {
      FirstItem(items, |chunks|, header.frameNumber);
      ItemStep(d, header, start, chunks, got, items[0], Openings(items), maxPartials);
      var d1 := Push(d, PacketFor(PacketsOf(header, start, chunks), items[0]), maxPartials).0;
      InnerHolds(d1, header, start, chunks, got + Got([items[0]]), items[1..], maxPartials);
    }
  }

  lemma {:induction false} FeedHolds(
    d: State, header: Packet, start: u16, chunks: seq<bytes>, got: set<nat>, items: seq<Item>, maxPartials: int)
    requires Among(PacketsOf(header, start, chunks), items)
    requires AlwaysHolds(d, header, start, chunks, got, items, maxPartials)
    ensures AlwaysHolds(Feed(d, PacketsOf(header, start, chunks), items, maxPartials).0,
                  header, start, chunks, got + Got(items), [], maxPartials)
    decreases items
  {
    if items == [] {
      assert got + Got(items) == got;
    } else {
      var d1 := Push(d, PacketFor(PacketsOf(header, start, chunks), items[0]), maxPartials).0;
      FeedHolds(d1, header, start, chunks, got + Got([items[0]]), items[1..], maxPartials);
      GotOneMore(got, items);
    }
  }

  // ---- The last packet ----

  /** With the last chunk stored, the payloads are all the chunks in order. */
  lemma LastCompletes(payloads: map<u16, bytes>, start: u16, chunks: seq<bytes>)
    requires 1 <= |chunks| <= 0x1_0000
    requires forall i: nat :: i < |chunks| - 1 ==> HasChunk(payloads, start, chunks, i)
    requires forall s :: s in payloads ==> exists i :: 0 <= i < |chunks| - 1 && s == Seq16(start, i)
    ensures var full := payloads[Seq16(start, |chunks| - 1) := chunks[|chunks| - 1]];
      && full.Keys == Interval(start, |chunks|)
      && AllStored(full, start, 0, |chunks|) && Stored(full, start, |chunks|) == chunks
  {
    var n := |chunks|;
    var full := payloads[Seq16(start, n - 1) := chunks[n - 1]];
    forall i: nat | i < n ensures HasChunk(full, start, chunks, i) {
      SameSeq16(start, i, n - 1);
      assert i < n - 1 ==> HasChunk(payloads, start, chunks, i);
    }
    FullKeys(full, start, chunks);
    forall i | 0 <= i < n ensures Seq16(start, i) in full && full[Seq16(start, i)] == chunks[i] {
      assert HasChunk(full, start, chunks, i);
    }
  }

  lemma FullKeys(full: map<u16, bytes>, start: u16, chunks: seq<bytes>)
    requires forall i: nat :: i < |chunks| ==> HasChunk(full, start, chunks, i)
    requires forall s :: s in full ==> exists i :: 0 <= i < |chunks| && s == Seq16(start, i)
    ensures full.Keys == Interval(start, |chunks|)
  {
    forall s | s in Interval(start, |chunks|) ensures s in full {
      var i :| 0 <= i < |chunks| && s == Seq16(start, i);
      assert HasChunk(full, start, chunks, i);
    }
  }

  lemma PushFinal(d: State, p: Packet, maxPartials: int)
    requires p.Marker() == Final && p.frameNumber in d.partials
    requires |d.partials[p.frameNumber].payloads| < MAX_BUFFER_PACKETS
    ensures var before := d.partials[p.frameNumber];
      Push(d, p, maxPartials).1
        == Finalize(p.frameNumber, before.(payloads := before.payloads[p.sequence := p.payload]), p.sequence)
  {
  }

  /** Stores the last chunk and finalizes. */
  function Finished(n: u16, before: Partial, start: u16, chunks: seq<bytes>): Result
    requires chunks != []
  {
    var last := Seq16(start, |chunks| - 1);
    Finalize(n, before.(payloads := before.payloads[last := chunks[|chunks| - 1]]), last)
  }

  lemma CompleteEmits(n: u16, before: Partial, extensions: Extensions, start: u16, chunks: seq<bytes>, got: set<nat>)
    requires 2 <= |chunks| <= MAX_BUFFER_PACKETS && HoldsChunks(before, extensions, start, chunks, got)
    requires (forall j :: j in got ==> j < |chunks| - 1) && forall j: nat :: j < |chunks| - 1 ==> j in got
    ensures Finished(n, before, start, chunks).frame == Some(Frame(Concat(chunks), extensions))
  {
    HoldsFew(before, extensions, start, chunks, got, |chunks| - 1);
    LastCompletes(before.payloads, start, chunks);
    var last := Seq16(start, |chunks| - 1);
    AddedKey(before.payloads, last, chunks[|chunks| - 1]);
    CompleteFinalizes(n, before.(payloads := before.payloads[last := chunks[|chunks| - 1]]), chunks);
  }

  lemma CompleteFinalizes(n: u16, partial: Partial, chunks: seq<bytes>)
    requires 1 <= |chunks| <= MAX_BUFFER_PACKETS && |partial.payloads| <= MAX_BUFFER_PACKETS
    requires var start := partial.startSequence;
      && partial.payloads.Keys == Interval(start, |chunks|)
      && AllStored(partial.payloads, start, 0, |chunks|) && Stored(partial.payloads, start, |chunks|) == chunks
    ensures Finalize(n, partial, Seq16(partial.startSequence, |chunks| - 1)).frame
      == Some(Frame(Concat(chunks), partial.extensions))
  {
    Seq16Distance(partial.startSequence, |chunks| - 1);
    FinalizeExact(n, partial, Seq16(partial.startSequence, |chunks| - 1));
  }

  lemma MissingEmitsNothing(
    n: u16, before: Partial, extensions: Extensions, start: u16, chunks: seq<bytes>, got: set<nat>, j: nat)
    requires 2 <= |chunks| <= MAX_BUFFER_PACKETS && HoldsChunks(before, extensions, start, chunks, got)
    requires (forall i :: i in got ==> i < |chunks| - 1) && j < |chunks| - 1 && j !in got
    ensures Finished(n, before, start, chunks).frame == None
  {
    HoldsFew(before, extensions, start, chunks, got, |chunks| - 1);
    NotStored(before, extensions, start, chunks, got, j);
    FinishedIncomplete(n, before, chunks, j);
  }

  lemma FinishedIncomplete(n: u16, before: Partial, chunks: seq<bytes>, j: nat)
    requires j < |chunks| - 1 < MAX_BUFFER_PACKETS && |before.payloads| < MAX_BUFFER_PACKETS
    requires Seq16(before.startSequence, j) !in before.payloads
    ensures Finished(n, before, before.startSequence, chunks).frame == None
  {
    var last := Seq16(before.startSequence, |chunks| - 1);
    AddedKey(before.payloads, last, chunks[|chunks| - 1]);
    SameSeq16(before.startSequence, j, |chunks| - 1);
    IncompleteEmitsNothing(n, before.(payloads := before.payloads[last := chunks[|chunks| - 1]]), |chunks|, j);
  }

  lemma IncompleteEmitsNothing(n: u16, partial: Partial, count: nat, j: nat)
    requires |partial.payloads| <= MAX_BUFFER_PACKETS && j < count <= 0x1_0000
    requires Seq16(partial.startSequence, j) !in partial.payloads
    ensures Finalize(n, partial, Seq16(partial.startSequence, count - 1)).frame == None
  {
    Seq16Distance(partial.startSequence, count - 1);
    assert Seq16(partial.startSequence, j) in Interval(partial.startSequence, count);
    FinalizeExact(n, partial, Seq16(partial.startSequence, count - 1));
  }

  lemma NotStored(partial: Partial, extensions: Extensions, start: u16, chunks: seq<bytes>, got: set<nat>, j: nat)
    requires |chunks| <= MAX_BUFFER_PACKETS && HoldsChunks(partial, extensions, start, chunks, got)
    requires j < |chunks| && j !in got
    ensures Seq16(start, j) !in partial.payloads
  {
    forall i | i in got ensures Seq16(start, i) != Seq16(start, j) {
      assert HasChunk(partial.payloads, start, chunks, i);
      SameSeq16(start, i, j);
    }
  }

  lemma FinalStep(d: State, header: Packet, start: u16, chunks: seq<bytes>, got: set<nat>, maxPartials: int)
    requires 2 <= |chunks| <= MAX_BUFFER_PACKETS && Holds(d, header, start, chunks, got)
    requires forall j :: j in got ==> j < |chunks| - 1
    ensures Push(d, PacketOf(header, start, chunks, |chunks| - 1), maxPartials).1
      == Finished(header.frameNumber, d.partials[header.frameNumber], start, chunks)
  {
    HoldsFew(d.partials[header.frameNumber], header.extensions, start, chunks, got, |chunks| - 1);
    PushFinal(d, PacketOf(header, start, chunks, |chunks| - 1), maxPartials);
  }

  // ---- Frames of more packets than the buffer ----

  /** If the frame is in progress, it holds the first chunks of the indices in got, and no more than fit. */
  ghost predicate HoldsAtLeast(d: State, n: u16, start: u16, got: set<nat>) {
    n in d.partials ==>
      && d.partials[n].startSequence == start && |d.partials[n].payloads| <= MAX_BUFFER_PACKETS
      && forall i :: i in got && i < MAX_BUFFER_PACKETS ==> Seq16(start, i) in d.partials[n].payloads
  }

  lemma StartHoldsAtLeast(d: State, header: Packet, start: u16, chunks: seq<bytes>, maxPartials: int)
    requires |chunks| >= 2
    ensures HoldsAtLeast(Push(d, PacketsOf(header, start, chunks)[0], maxPartials).0, header.frameNumber, start, {0})
  {
  }

  lemma {:induction false} MakeRoomOnlyRemoves(d: State, maxPartials: int, newFrame: u16, drop: Option<Drop>, n: u16)
    ensures var room := MakeRoom(d, maxPartials, newFrame, drop).0;
      n in room.partials ==> n in d.partials && room.partials[n] == d.partials[n]
    decreases |d.order|
  {
    if |d.partials| >= maxPartials && d.order != [] {
      var (d', evicted) := Evict(d, newFrame);
      MakeRoomOnlyRemoves(d', maxPartials, newFrame, if drop.None? then evicted else drop, n);
    }
  }

  lemma OtherNeverAdds(d: State, q: Packet, n: u16, maxPartials: int)
    requires q.frameNumber != n
    ensures var d' := Push(d, q, maxPartials).0; n in d'.partials ==> n in d.partials && d'.partials[n] == d.partials[n]
  {
    MakeRoomOnlyRemoves(d, maxPartials, q.frameNumber, None, n);
    OtherLeaves(d, q, n);
  }

  lemma ItemStepBig(
    d: State, header: Packet, start: u16, chunks: seq<bytes>, got: set<nat>, item: Item, maxPartials: int)
    requires |chunks| >= 2 && InnerItem(item, |chunks|, header.frameNumber)
    requires HoldsAtLeast(d, header.frameNumber, start, got)
    ensures var d' := Push(d, PacketFor(PacketsOf(header, start, chunks), item), maxPartials).0;
      HoldsAtLeast(d', header.frameNumber, start, got + Got([item]))
  {
    match item
    case Own(i) =>
      assert Got([item]) == {i};
      InnerStepBig(d, header, start, chunks, got, i, maxPartials);
    case Other(q) =>
      assert got + Got([item]) == got;
      OtherNeverAdds(d, q, header.frameNumber, maxPartials);
  }

  lemma InnerStepBig(d: State, header: Packet, start: u16, chunks: seq<bytes>, got: set<nat>, i: nat, maxPartials: int)
    requires 1 <= i < |chunks| - 1 && HoldsAtLeast(d, header.frameNumber, start, got)
    ensures var d' := Push(d, PacketOf(header, start, chunks, i), maxPartials).0;
      HoldsAtLeast(d', header.frameNumber, start, got + {i})
  {
    if header.frameNumber in d.partials {
      AddedKey(d.partials[header.frameNumber].payloads, Seq16(start, i), chunks[i]);
    }
  }

  lemma {:induction false} InnerFeedBig(
    d: State, header: Packet, start: u16, chunks: seq<bytes>, got: set<nat>, items: seq<Item>, maxPartials: int)
    requires |chunks| >= 2 && Inner(items, |chunks|, header.frameNumber)
    requires HoldsAtLeast(d, header.frameNumber, start, got)
    ensures HoldsAtLeast(Feed(d, PacketsOf(header, start, chunks), items, maxPartials).0,
                         header.frameNumber, start, got + Got(items))
    decreases items
  {
    if items == [] {
      assert got + Got(items) == got;
    } else {
      FirstItem(items, |chunks|, header.frameNumber);
      ItemStepBig(d, header, start, chunks, got, items[0], maxPartials);
      var d1 := Push(d, PacketFor(PacketsOf(header, start, chunks), items[0]), maxPartials).0;
      InnerFeedBig(d1, header, start, chunks, got + Got([items[0]]), items[1..], maxPartials);
      GotOneMore(got, items);
    }
  }

  /**
   * The numbers of so many packets go around the circle, and the last packet's lies so close after the
   * first's that the buffer could hold all in between.
   */
  predicate WrapsShort(n: nat) {
    n > 0x1_0000 && (n - 1) % 0x1_0000 < MAX_BUFFER_PACKETS
  }

  lemma NumberWraps(start: u16, k: nat)
    ensures Seq16(start, k) == Seq16(start, k % 0x1_0000)
    ensures Sub16(Seq16(start, k), start) == k % 0x1_0000
  {
    Seq16Distance(start, k % 0x1_0000);
  }

  /** A final packet farther from the first than the buffer holds finds numbers missing. */
  lemma FarEndEmitsNothing(n: u16, partial: Partial, k: nat)
    requires |partial.payloads| <= MAX_BUFFER_PACKETS <= k % 0x1_0000
    ensures Finalize(n, partial, Seq16(partial.startSequence, k)).frame == None
  {
    NumberWraps(partial.startSequence, k);
    IntervalSize(partial.startSequence, k % 0x1_0000 + 1);
    FinalizeExact(n, partial, Seq16(partial.startSequence, k));
  }

  lemma FinalBigEmitsNothing(d: State, header: Packet, start: u16, chunks: seq<bytes>, got: set<nat>, maxPartials: int)
    requires |chunks| > MAX_BUFFER_PACKETS && HoldsAtLeast(d, header.frameNumber, start, got)
    requires !WrapsShort(|chunks|) || forall j: nat :: j < |chunks| - 1 ==> j in got
    ensures Push(d, PacketOf(header, start, chunks, |chunks| - 1), maxPartials).1.frame == None
  {
    if header.frameNumber in d.partials {
      var before := d.partials[header.frameNumber];
      if |before.payloads| < MAX_BUFFER_PACKETS {
        var last := Seq16(start, |chunks| - 1);
        PushFinal(d, PacketOf(header, start, chunks, |chunks| - 1), maxPartials);
        AddedKey(before.payloads, last, chunks[|chunks| - 1]);
        if !WrapsShort(|chunks|) {
          FarEndEmitsNothing(header.frameNumber,
                             before.(payloads := before.payloads[last := chunks[|chunks| - 1]]), |chunks| - 1);
        } else {
          FillsBuffer(before.payloads, start, got);
        }
      }
    }
  }

  lemma FillsBuffer(payloads: map<u16, bytes>, start: u16, got: set<nat>)
    requires forall i :: i in got && i < MAX_BUFFER_PACKETS ==> Seq16(start, i) in payloads
    requires forall j: nat :: j < MAX_BUFFER_PACKETS ==> j in got
    ensures |payloads| >= MAX_BUFFER_PACKETS
  {
    IntervalSize(start, MAX_BUFFER_PACKETS);
    assert Interval(start, MAX_BUFFER_PACKETS) <= payloads.Keys;
    assert |payloads.Keys - Interval(start, MAX_BUFFER_PACKETS)| == |payloads| - MAX_BUFFER_PACKETS;
  }

  // ---- The theorem ----

  /** The frame, once begun, is not evicted by the other frames among the items. */
  ghost predicate FewOthers(d: State, first: Packet, items: seq<Item>, maxPartials: int) {
    Openings(items) > 0 ==>
      && Valid(d)
      && Newer(Push(d, first, maxPartials).0.order, first.frameNumber) + Openings(items) < maxPartials
  }

  /** For a frame number not in progress: fewer packets that begin or are other frames than maxPartials. */
  lemma FewOthersIfFresh(d: State, first: Packet, items: seq<Item>, maxPartials: int)
    requires Valid(d) && first.Marker() == Start && first.frameNumber !in d.partials
    ensures FewOthers(d, first, items, maxPartials) <==> Openings(items) == 0 || Openings(items) < maxPartials
  {
    MakeRoomKeepsValid(d, maxPartials, first.frameNumber, None);
    MakeRoomOnlyRemoves(d, maxPartials, first.frameNumber, None, first.frameNumber);
    BeginKeepsValid(d, first, maxPartials);
    var d' := Push(d, first, maxPartials).0;
    IndexOfListed(d'.order, d'.partials.Keys, |d'.order| - 1);
  }

  /**
   * The packets of a frame arrive, the first one first, the last one last, in between its inner ones
   * in any order and number and packets of other frames, too few of which begin to evict it. If it
   * takes no more packets than the buffer, its payload is emitted, once, if and only if every inner
   * packet arrived. If it takes more, nothing is emitted, unless inner packets are lost and its numbers
   * wrap short.
   */
  lemma FrameRoundTrip(
    d: State, payload: bytes, maxSize: nat, header: Packet, start: u16, items: seq<Item>, maxPartials: int)
    requires maxSize > 0 && |Chunks(payload, maxSize)| >= 2
    requires Inner(items, |Chunks(payload, maxSize)|, header.frameNumber)
    requires FewOthers(d, PacketsOf(header, start, Chunks(payload, maxSize))[0], items, maxPartials)
    ensures var n := |Chunks(payload, maxSize)|;
      var frames := Feed(d, PacketsOf(header, start, Chunks(payload, maxSize)), Arrival(items, n), maxPartials).1;
      && (n <= MAX_BUFFER_PACKETS ==> frames == if Covers(items, n) then [Frame(payload, header.extensions)] else [])
      && (n > MAX_BUFFER_PACKETS && (!WrapsShort(n) || Covers(items, n)) ==> frames == [])
  {
    var chunks := Chunks(payload, maxSize);
    ChunksRejoin(payload, maxSize);
    InnerAmong(items, PacketsOf(header, start, chunks), header.frameNumber);
    FeedArrival(d, PacketsOf(header, start, chunks), items, maxPartials);
    if |chunks| <= MAX_BUFFER_PACKETS {
      SmallFrame(d, header, start, chunks, items, maxPartials);
    } else if !WrapsShort(|chunks|) || Covers(items, |chunks|) {
      BigFrame(d, header, start, chunks, items, maxPartials);
    }
  }

  /** What a frame's own packets emit, first to last. */
  function OwnFrames(d: State, packets: seq<Packet>, items: seq<Item>, maxPartials: int): seq<Frame>
    requires |packets| >= 2 && Among(packets, items)
  {
    var (d1, r1) := Push(d, packets[0], maxPartials);
    var (d2, f2) := Feed(d1, packets, items, maxPartials);
    Emitted(Own(0), r1) + f2 + Emitted(Own(0), Push(d2, packets[|packets| - 1], maxPartials).1)
  }

  lemma FeedArrival(d: State, packets: seq<Packet>, items: seq<Item>, maxPartials: int)
    requires |packets| >= 2 && Among(packets, items)
    ensures Feed(d, packets, Arrival(items, |packets|), maxPartials).1 == OwnFrames(d, packets, items, maxPartials)
  {
    var n := |packets|;
    assert Arrival(items, n)[1..] == items + [Own(n - 1)];
    FeedThenLast(Push(d, packets[0], maxPartials).0, packets, items, n - 1, maxPartials);
  }

  lemma OnlyLastEmits(d: State, packets: seq<Packet>, items: seq<Item>, maxPartials: int)
    requires |packets| >= 2 && Among(packets, items) && packets[0].Marker() == Start
    requires var d1 := Push(d, packets[0], maxPartials).0; Feed(d1, packets, items, maxPartials).1 == []
    ensures var d1 := Push(d, packets[0], maxPartials).0;
      var d2 := Feed(d1, packets, items, maxPartials).0;
      OwnFrames(d, packets, items, maxPartials) == Emitted(Own(0), Push(d2, packets[|packets| - 1], maxPartials).1)
  {
  }

  lemma SmallFrame(d: State, header: Packet, start: u16, chunks: seq<bytes>, items: seq<Item>, maxPartials: int)
    requires 2 <= |chunks| <= MAX_BUFFER_PACKETS && Inner(items, |chunks|, header.frameNumber)
    requires FewOthers(d, PacketOf(header, start, chunks, 0), items, maxPartials)
    ensures OwnFrames(d, PacketsOf(header, start, chunks), items, maxPartials)
      == if Covers(items, |chunks|) then [Frame(Concat(chunks), header.extensions)] else []
  {
    var first := PacketOf(header, start, chunks, 0);
    var d1 := Push(d, first, maxPartials).0;
    StartHolds(d, header, start, chunks, maxPartials);
    if Openings(items) > 0 {
      BeginKeepsValid(d, first, maxPartials);
    }
    SmallRest(d1, header, start, chunks, items, maxPartials);
  }

  /** What follows the first packet. */
  lemma SmallRest(d: State, header: Packet, start: u16, chunks: seq<bytes>, items: seq<Item>, maxPartials: int)
    requires 2 <= |chunks| <= MAX_BUFFER_PACKETS && Inner(items, |chunks|, header.frameNumber)
    requires Holds(d, header, start, chunks, {0}) && Room(d, header.frameNumber, Openings(items), maxPartials)
    ensures var packets := PacketsOf(header, start, chunks);
      var (d', frames) := Feed(d, packets, items, maxPartials);
      frames == [] &&
      Push(d', packets[|packets| - 1], maxPartials).1.frame
        == if Covers(items, |packets|) then Some(Frame(Concat(chunks), header.extensions)) else None
  {
    InnerHolds(d, header, start, chunks, {0}, items, maxPartials);
    InnerEmitsNothing(d, header, start, chunks, items, maxPartials);
    FeedHolds(d, header, start, chunks, {0}, items, maxPartials);
    GotInner(items, |chunks|, header.frameNumber);
    var d' := Feed(d, PacketsOf(header, start, chunks), items, maxPartials).0;
    LastEmits(d', header, start, chunks, items, maxPartials);
  }

  lemma LastEmits(d: State, header: Packet, start: u16, chunks: seq<bytes>, items: seq<Item>, maxPartials: int)
    requires 2 <= |chunks| <= MAX_BUFFER_PACKETS && Inner(items, |chunks|, header.frameNumber)
    requires Holds(d, header, start, chunks, {0} + Got(items)) && forall i :: i in Got(items) ==> 1 <= i < |chunks| - 1
    ensures Push(d, PacketOf(header, start, chunks, |chunks| - 1), maxPartials).1.frame
      == if Covers(items, |chunks|) then Some(Frame(Concat(chunks), header.extensions)) else None
  {
    var n, before, got := header.frameNumber, d.partials[header.frameNumber], {0} + Got(items);
    FinalStep(d, header, start, chunks, got, maxPartials);
    if Covers(items, |chunks|) {
      CompleteEmits(n, before, header.extensions, start, chunks, got);
    } else {
      var j :| 1 <= j < |chunks| - 1 && j !in Got(items);
      MissingEmitsNothing(n, before, header.extensions, start, chunks, got, j);
    }
  }

  lemma BigFrame(d: State, header: Packet, start: u16, chunks: seq<bytes>, items: seq<Item>, maxPartials: int)
    requires |chunks| > MAX_BUFFER_PACKETS && Inner(items, |chunks|, header.frameNumber)
    requires !WrapsShort(|chunks|) || Covers(items, |chunks|)
    ensures OwnFrames(d, PacketsOf(header, start, chunks), items, maxPartials) == []
  {
    var packets := PacketsOf(header, start, chunks);
    StartHoldsAtLeast(d, header, start, chunks, maxPartials);
    BigRest(Push(d, packets[0], maxPartials).0, header, start, chunks, items, maxPartials, packets[|packets| - 1]);
    OnlyLastEmits(d, packets, items, maxPartials);
  }

  lemma BigRest(
    d: State, header: Packet, start: u16, chunks: seq<bytes>, items: seq<Item>, maxPartials: int, last: Packet)
    requires |chunks| > MAX_BUFFER_PACKETS && Inner(items, |chunks|, header.frameNumber)
    requires !WrapsShort(|chunks|) || Covers(items, |chunks|)
    requires HoldsAtLeast(d, header.frameNumber, start, {0}) && last == PacketOf(header, start, chunks, |chunks| - 1)
    ensures Feed(d, PacketsOf(header, start, chunks), items, maxPartials).1 == []
    ensures Push(Feed(d, PacketsOf(header, start, chunks), items, maxPartials).0, last, maxPartials).1.frame == None
  {
    InnerEmitsNothing(d, header, start, chunks, items, maxPartials);
    BigLast(d, header, start, chunks, items, maxPartials, last);
  }

  lemma BigLast(
    d: State, header: Packet, start: u16, chunks: seq<bytes>, items: seq<Item>, maxPartials: int, last: Packet)
    requires |chunks| > MAX_BUFFER_PACKETS && Inner(items, |chunks|, header.frameNumber)
    requires !WrapsShort(|chunks|) || Covers(items, |chunks|)
    requires HoldsAtLeast(d, header.frameNumber, start, {0}) && last == PacketOf(header, start, chunks, |chunks| - 1)
    ensures Push(Feed(d, PacketsOf(header, start, chunks), items, maxPartials).0, last, maxPartials).1.frame == None
  {
    InnerFeedBig(d, header, start, chunks, {0}, items, maxPartials);
    if Covers(items, |chunks|) {
      CoversAll(items, |chunks|);
    }
    var d' := Feed(d, PacketsOf(header, start, chunks), items, maxPartials).0;
    FinalBigEmitsNothing(d', header, start, chunks, {0} + Got(items), maxPartials);
  }

  lemma CoversAll(items: seq<Item>, n: nat)
    requires Covers(items, n)
    ensures forall j: nat :: j < n - 1 ==> j in {0} + Got(items)
  {
  }

  /** A payload of one chunk is one self-contained packet; an empty payload is no packet at all. */
  lemma ShortFrameRoundTrip(d: State, payload: bytes, maxSize: nat, header: Packet, start: u16, maxPartials: int)
    requires maxSize > 0 && |Chunks(payload, maxSize)| < 2
    ensures var packets := PacketsOf(header, start, Chunks(payload, maxSize));
      if payload == [] then packets == []
      else |packets| == 1 && Push(d, packets[0], maxPartials).1.frame == Some(Frame(payload, header.extensions))
  {
    var chunks := Chunks(payload, maxSize);
    ChunksRejoin(payload, maxSize);
    if payload != [] {
      assert chunks == [chunks[0]] && chunks[0] + [] == chunks[0];
    }
  }
}
