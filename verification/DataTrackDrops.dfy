/** Which partial frames a packet costs, and what the depacketizer reports of it. */
module DataTrackDrops {
  import opened Machine
  import opened DataTrackPackets
  import opened DataTrackReassembly
  import RT = DataTrackRoundTrip

  // ---- Evicting the oldest ----

  /** d without its k oldest frames. */
  function WithoutOldest(d: State, k: nat): State
    requires k <= |d.order|
  {
    State(map n | n in d.partials && n !in d.order[..k] :: d.partials[n], d.order[k..])
  }

  lemma EvictsOldest(d: State, newFrame: u16) returns (d': State)
    requires Valid(d) && d.order != []
    ensures Evict(d, newFrame) == (d', Some(Interrupted(d.order[0], newFrame)))
    ensures Valid(d') && d' == WithoutOldest(d, 1) && |d'.partials| == |d.partials| - 1
  {
    d' := RemovesOldest(d);
    RemoveKeepsValid(d, d.order[0]);
    RemovedKey(d.partials, d.order[0]);
  }

  lemma RemovesOldest(d: State) returns (d': State)
    requires d.order != []
    ensures d' == Remove(d, d.order[0]) && d' == WithoutOldest(d, 1)
  {
    FirstOff(d.order);
    OneKeyOff(d.partials, d.order[..1], d.order[0]);
    d' := State(d.partials - {d.order[0]}, d.order[1..]);
  }

  lemma FirstOff(order: seq<u16>)
    requires order != []
    ensures Without(order, order[0]) == order[1..] && order[..1] == [order[0]]
  {
    assert IndexOf(order, order[0]) == 0;
  }

  lemma OneKeyOff(m: map<u16, Partial>, keys: seq<u16>, k: u16)
    requires keys == [k]
    ensures m - {k} == map n | n in m && n !in keys :: m[n]
  {
  }

  lemma RemovedKey(m: map<u16, Partial>, k: u16)
    requires k in m
    ensures |m - {k}| == |m| - 1
  {
    assert (m - {k}).Keys == m.Keys - {k};
    assert |m.Keys| == |m| && |(m - {k}).Keys| == |m - {k}|;
  }

  lemma OldestTwice(d: State, b: State, k: nat) returns (sum: nat)
    requires 1 + k <= |d.order| && b == WithoutOldest(d, 1)
    ensures sum == k + 1 && WithoutOldest(b, k) == WithoutOldest(d, sum)
  {
    sum := k + 1;
    assert d.order[..sum] == d.order[..1] + b.order[..k];
  }

  /** How many frames must go for a new one to stay below the limit. */
  function Excess(frames: nat, maxPartials: int): nat {
    if frames < maxPartials then 0 else if maxPartials < 1 then frames else frames - maxPartials + 1
  }

  /** One round of the loop. */
  lemma MakeRoomOnce(d: State, maxPartials: int, newFrame: u16, drop: Option<Drop>)
    returns (d': State, next: Option<Drop>)
    requires Valid(d) && |d.partials| >= maxPartials && d.order != []
    ensures MakeRoom(d, maxPartials, newFrame, drop) == MakeRoom(d', maxPartials, newFrame, next)
    ensures Valid(d') && d' == WithoutOldest(d, 1) && |d'.partials| == |d.partials| - 1
    ensures next == if drop.None? then Some(Interrupted(d.order[0], newFrame)) else drop
  {
    d', next := MakeRoomUnfolds(d, maxPartials, newFrame, drop);
    var evicted := EvictsOldest(d, newFrame);
  }

  lemma MakeRoomUnfolds(d: State, maxPartials: int, newFrame: u16, drop: Option<Drop>)
    returns (d': State, next: Option<Drop>)
    requires |d.partials| >= maxPartials && d.order != []
    ensures d' == Evict(d, newFrame).0
    ensures next == if drop.None? then Some(Interrupted(d.order[0], newFrame)) else drop
    ensures MakeRoom(d, maxPartials, newFrame, drop) == MakeRoom(d', maxPartials, newFrame, next)
  {
    d', next := Evict(d, newFrame).0, if drop.None? then Evict(d, newFrame).1 else drop;
  }

  /** The loop evicts the oldest frames, as many as it must and no more. */
  lemma {:induction false} MakeRoomEvicts(d: State, maxPartials: int, newFrame: u16, drop: Option<Drop>)
    returns (room: State, k: nat)
    requires Valid(d)
    ensures k == Excess(|d.partials|, maxPartials) && k <= |d.order| && room == WithoutOldest(d, k)
    ensures MakeRoom(d, maxPartials, newFrame, drop).0 == room
    decreases |d.order|
  {
    OrderLists(d);
    if |d.partials| < maxPartials || d.order == [] {
      room := NoneOff(d);
      k := 0;
    } else {
      var d', next := MakeRoomOnce(d, maxPartials, newFrame, drop);
      room, k := MakeRoomEvicts(d', maxPartials, newFrame, next);
      k := OldestTwice(d, d', k);
    }
  }

  /** It reports the first. */
  lemma {:induction false} MakeRoomReports(d: State, maxPartials: int, newFrame: u16, drop: Option<Drop>)
    requires Valid(d)
    ensures MakeRoom(d, maxPartials, newFrame, drop).1 == FirstDrop(d, maxPartials, newFrame, drop)
    decreases |d.order|
  {
    if |d.partials| >= maxPartials && d.order != [] {
      var d', next := MakeRoomOnce(d, maxPartials, newFrame, drop);
      MakeRoomReports(d', maxPartials, newFrame, next);
    }
  }

  lemma NoneOff(d: State) returns (room: State)
    ensures room == d == WithoutOldest(d, 0)
  {
    room := d;
  }

  /** The first eviction is reported, unless there was a drop before. */
  function FirstDrop(d: State, maxPartials: int, newFrame: u16, drop: Option<Drop>): Option<Drop> {
    if drop.Some? || |d.partials| < maxPartials || d.order == [] then drop
    else Some(Interrupted(d.order[0], newFrame))
  }

  lemma OrderLists(d: State)
    requires Valid(d)
    ensures |d.order| == |d.partials|
  {
    RT.ListsSize(d.order, d.partials.Keys);
    assert |d.partials.Keys| == |d.partials|;
  }

  // ---- What each packet costs ----

  /**
   * A packet that is a frame comes out at once, and takes no place among the partial frames; but if they
   * are at their limit it costs the oldest.
   */
  lemma SingleCosts(d: State, p: Packet, maxPartials: int)
    requires Valid(d) && p.Marker() == Single
    ensures var (d', r) := Push(d, p, maxPartials);
      && r.frame == Some(Frame(p.payload, p.extensions))
      && if |d.partials| >= maxPartials && d.partials != map[]
         then d.order != [] && d' == WithoutOldest(d, 1) && r.drop == Some(Interrupted(d.order[0], p.frameNumber))
         else d' == d && r.drop == None
  {
    OrderLists(d);
    if |d.partials| >= maxPartials && d.order != [] {
      var d' := EvictsOldest(d, p.frameNumber);
    }
  }

  /**
   * A packet that starts a frame costs the oldest frames over the limit, of which the first is reported;
   * its own begins afresh with that packet alone, last in order unless it had begun before.
   */
  lemma StartCosts(d: State, p: Packet, maxPartials: int) returns (room: State, k: nat)
    requires Valid(d) && p.Marker() == Start
    ensures k == Excess(|d.partials|, maxPartials) && k <= |d.order| && room == WithoutOldest(d, k)
    ensures var (d', r) := Push(d, p, maxPartials);
      && r == Result(None, if k == 0 then None else Some(Interrupted(d.order[0], p.frameNumber)))
      && d'.partials ==
        room.partials[p.frameNumber := Partial(p.sequence, p.extensions, map[p.sequence := p.payload])]
      && d'.order == if p.frameNumber in room.partials then room.order else room.order + [p.frameNumber]
  {
    room, k := MakeRoomEvicts(d, maxPartials, p.frameNumber, None);
    MakeRoomReports(d, maxPartials, p.frameNumber, None);
    OrderLists(d);
  }

  /** The others gone, or what they stored. */
  ghost predicate OnlyTouches(d: State, n: u16, d': State) {
    forall m: u16 :: m != n ==>
      (m in d'.partials <==> m in d.partials) && (m in d.partials ==> d'.partials[m] == d.partials[m])
  }

  /**
   * Any other packet touches only its own frame: unknown, it is reported so; full, the frame goes and is
   * reported; otherwise the packet is stored, and the final one ends the frame, which is emitted or
   * reported incomplete with its counts.
   */
  lemma LaterCosts(d: State, p: Packet, maxPartials: int)
    requires p.Marker() == Inter || p.Marker() == Final
    ensures var (d', r) := Push(d, p, maxPartials); var n := p.frameNumber;
      && OnlyTouches(d, n, d')
      && if n !in d.partials then d' == d && r == Result(None, Some(UnknownFrame(n)))
         else if |d.partials[n].payloads| >= 128 then n !in d'.partials && r == Result(None, Some(BufferFull(n)))
         else if p.Marker() == Inter then
           && r == Result(None, None) && n in d'.partials && d'.order == d.order
           && d'.partials[n] == d.partials[n].(payloads := d.partials[n].payloads[p.sequence := p.payload])
         else n !in d'.partials && (r.frame.Some? <==> r.drop.None?) && (r.drop.Some? ==>
           r.drop == Some(Incomplete(n, |d.partials[n].payloads[p.sequence := p.payload]|,
                                     Add16(Sub16(p.sequence, d.partials[n].startSequence), 1))))
  {
    if p.frameNumber in d.partials && |d.partials[p.frameNumber].payloads| < MAX_BUFFER_PACKETS {
      AddedKey(d.partials[p.frameNumber].payloads, p.sequence, p.payload);
    }
  }

  // ---- What the packets of a frame carry ----

  /**
   * All packets of a frame have its header; the first alone starts it and the last alone ends it; their
   * numbers follow one another around the circle.
   */
  lemma PacketsCarryHeader(header: Packet, start: u16, chunks: seq<bytes>, i: nat)
    requires i < |chunks|
    ensures var p := PacketsOf(header, start, chunks)[i];
      && p.handle == header.handle && p.timestamp == header.timestamp && p.frameNumber == header.frameNumber
      && p.extensions == header.extensions && p.payload == chunks[i]
      && (p.isStart <==> i == 0) && (p.isFinal <==> i == |chunks| - 1)
      && p.sequence == if i == 0 then start else Add16(PacketsOf(header, start, chunks)[i - 1].sequence, 1)
  {
    if i > 0 {
      NextSeq16(start, i - 1);
    }
  }
}
