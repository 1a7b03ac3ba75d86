/**
 * The sample builder in place: a circular array of slots with head and tail indices, where
 * head == tail is the empty builder. Every method is tied to its function on the window.
 */
module SampleRing {
  import opened Circular
  import opened Machine
  import opened SampleWindow
  import opened SampleInvariant

  // ---- Circular sequences ----

  function Inc(n: nat, i: nat): nat {
    if i < n - 1 then i + 1 else 0
  }

  function Dec(n: nat, i: nat): nat
    requires n > 0
  {
    if i > 0 then i - 1 else n - 1
  }

  function RingLen(n: nat, head: nat, tail: nat): nat
    requires head < n && tail < n
  {
    if tail <= head then head - tail else head + n - tail
  }

  predicate Inside(head: nat, tail: nat, i: nat) {
    if tail <= head then tail <= i < head else i >= tail || i < head
  }

  /** The slots from tail to head, oldest first. */
  function Ring(a: seq<Slot>, head: nat, tail: nat): (r: seq<Slot>)
    requires head < |a| && tail < |a|
    ensures |r| == RingLen(|a|, head, tail)
    ensures forall i :: 0 <= i < |r| ==> r[i] == a[At(|a|, tail, i)]
  {
    seq(RingLen(|a|, head, tail), i requires 0 <= i < RingLen(|a|, head, tail) => a[At(|a|, tail, i)])
  }

  ghost predicate ClearOutside(a: seq<Slot>, head: nat, tail: nat) {
    forall i :: 0 <= i < |a| && !Inside(head, tail, i) ==> a[i] == Missing
  }

  lemma RingDropTail(a: seq<Slot>, head: nat, tail: nat)
    requires head < |a| && tail < |a| && head != tail && ClearOutside(a, head, tail)
    ensures Ring(a[tail := Missing], head, Inc(|a|, tail)) == Ring(a, head, tail)[1..]
    ensures ClearOutside(a[tail := Missing], head, Inc(|a|, tail))
  {
  }

  lemma RingSkipTail(a: seq<Slot>, head: nat, tail: nat)
    requires head < |a| && tail < |a| && head != tail && ClearOutside(a, head, tail) && a[tail].Missing?
    ensures Ring(a, head, Inc(|a|, tail)) == Ring(a, head, tail)[1..]
    ensures ClearOutside(a, head, Inc(|a|, tail))
  {
  }

  lemma RingEmpty(a: seq<Slot>, head: nat)
    requires head < |a| && ClearOutside(a, head, head)
    ensures ClearOutside(a, 0, 0) && Ring(a, 0, 0) == [] == Ring(a, head, head)
  {
  }

  lemma RingSet(a: seq<Slot>, head: nat, tail: nat, i: nat, s: Slot)
    requires head < |a| && tail < |a| && i < RingLen(|a|, head, tail) && ClearOutside(a, head, tail)
    ensures Ring(a[At(|a|, tail, i) := s], head, tail) == Ring(a, head, tail)[i := s]
    ensures ClearOutside(a[At(|a|, tail, i) := s], head, tail)
  {
  }

  lemma RingExtendHead(a: seq<Slot>, head: nat, tail: nat, count: nat, s: Slot)
    requires head < |a| && tail < |a| && RingLen(|a|, head, tail) + count + 1 < |a| && ClearOutside(a, head, tail)
    ensures var at := At(|a|, head, count);
      && Ring(a[at := s], Inc(|a|, at), tail) == Ring(a, head, tail) + Gap(count) + [s]
      && ClearOutside(a[at := s], Inc(|a|, at), tail)
      && Inc(|a|, at) != tail
  {
  }

  /** The test of a push for an index outside the occupied slots. */
  predicate Outside(head: nat, tail: nat, index: nat) {
    if tail < head then index < tail || index > head else index < tail && index > head
  }

  lemma OutsideIff(n: nat, head: nat, tail: nat, count: nat, index: nat)
    requires head < n && tail < n && head != tail && 2 <= count < n
    requires index == if head >= count then head - count else head + n - count
    ensures index < n && RingLen(n, head, index) == count
    ensures Outside(head, tail, index) <==> RingLen(n, head, tail) < count
  {
  }

  lemma IndexBehindHead(n: nat, head: nat, tail: nat, count: nat, index: nat)
    requires head < n && tail < n && 2 <= count <= RingLen(n, head, tail)
    requires index == if head >= count then head - count else head + n - count
    ensures index == At(n, tail, RingLen(n, head, tail) - count)
  {
  }

  lemma RingExtendTail(a: seq<Slot>, head: nat, tail: nat, tail': nat)
    requires head < |a| && tail < |a| && tail' < |a| && ClearOutside(a, head, tail)
    requires RingLen(|a|, head, tail') >= RingLen(|a|, head, tail)
    ensures Ring(a, head, tail') == Gap(RingLen(|a|, head, tail') - RingLen(|a|, head, tail)) + Ring(a, head, tail)
    ensures ClearOutside(a, head, tail')
  {
  }

  lemma AppendParts(c: Config, st: State, p: Packet) returns (room: State)
    requires EndsHeld(st.win) && st.win != []
    ensures room == (if |st.win| == c.Cap() then SampleWindow.Drop(st) else st) && EndsHeld(room.win)
    ensures SampleWindow.Append(c, st, p) == SampleWindow.AppendTo(c, room, p)
  {
    room := if |st.win| == c.Cap() then SampleWindow.Drop(st) else st;
  }

  lemma AppendedAfter(c: Config, st: State, p: Packet, start: bool, win: seq<Slot>)
    requires EndsHeld(st.win) && st.win != []
    requires var newest := st.win[|st.win| - 1];
      && start == (newest.end || newest.packet.timestamp != p.timestamp || c.IsStart(p))
      && win == (if start then st.win[|st.win| - 1 := newest.(end := true)] else st.win) + [Held(start, c.IsEnd(p), p)]
    ensures SampleWindow.AppendTo(c, st, p) == st.(win := win)
  {
  }

  lemma FillParts(c: Config, st: State, p: Packet, count: nat) returns (wide: State, filled: State)
    requires 2 <= count && HeadHeld(st.win) && st.win != []
    ensures wide == Widen(st, count) && |wide.win| >= count
    ensures filled == SampleWindow.FillAt(c, wide, |wide.win| - count, p) == SampleWindow.Fill(c, st, p, count)
  {
    wide := Widen(st, count);
    filled := SampleWindow.Fill(c, st, p, count);
  }

  lemma FarIsInserted(c: Config, st: State, p: Packet)
    requires c.InRange() && EndsHeld(st.win) && PlaceOf(c, st.win, p).Far?
    ensures SampleWindow.Insert(c, st, p) == PushEmpty(c, SampleWindow.ReleaseAll(st), p)
  {
  }

  lemma InsertedAhead(c: Config, st: State, p: Packet, count: nat, ok: bool, left: State, r: State)
    requires HeadHeld(st.win) && ok == MakeSpace(c, st, count).Some?
    requires left == if ok then MakeSpace(c, st, count).value else DropAll(st)
    requires r == if ok then left.(win := left.win + Gap(count) + [c.Fresh(p)]) else left
    ensures r == SampleWindow.InsertAhead(c, st, p, count)
  {
  }

  /** The test of the loop that makes room: the sum of both lengths is taken in 16 bits. */
  predicate MustDrop(c: Config, length: nat, count: nat) {
    (length + count + 1) % 0x1_0000 >= c.Cap()
  }

  /** Up to maxLate 0x4000 it never wraps: a packet ahead leaves at most 0x7FFE missing. */
  lemma MustDropIs(c: Config, count: nat)
    requires c.InRange() && count < 0x7FFF
    ensures forall length: nat :: length <= c.Cap() ==> (MustDrop(c, length, count) <==> length + count + 1 >= c.Cap())
  {
  }

  /** The future index of a push: the sum of head and count is taken in 16 bits. */
  function FutureIndex(n: nat, head: nat, count: nat): nat
    requires n > 0
  {
    (head + count) % 0x1_0000 % n
  }

  lemma FutureIndexIs(n: nat, head: nat, count: nat)
    requires head < n && count < n && head + count < 0x1_0000
    ensures FutureIndex(n, head, count) == At(n, head, count)
  {
    AtIsModulo(n, head, count);
  }

  /** Every head and count a push can reach index the right slot exactly when maxLate <= 0x4000. */
  lemma FutureIndexInRange(maxLate: nat)
    requires 2 <= maxLate <= 0x7FFF
    ensures (forall head: nat, count: nat :: head <= 2 * maxLate && 1 <= count <= 2 * maxLate - 3 ==>
              FutureIndexRight(maxLate, head, count))
      <==> maxLate <= 0x4000
  {
    if maxLate > 0x4000 {
      FutureIndexWraps(maxLate);
    } else {
      forall head: nat, count: nat | head <= 2 * maxLate && 1 <= count <= 2 * maxLate - 3
        ensures FutureIndexRight(maxLate, head, count)
      {
        FutureIndexIs(2 * maxLate + 1, head, count);
      }
    }
  }

  predicate FutureIndexRight(maxLate: nat, head: nat, count: nat)
    requires head <= 2 * maxLate && count <= 2 * maxLate
  {
    FutureIndex(2 * maxLate + 1, head, count) == At(2 * maxLate + 1, head, count)
  }

  lemma FutureIndexWraps(maxLate: nat)
    requires 0x4000 < maxLate <= 0x7FFF
    ensures !FutureIndexRight(maxLate, 2 * maxLate, 0x1_0000 - 2 * maxLate)
  {
    var n, count := 2 * maxLate + 1, 0x1_0000 - 2 * maxLate;
    assert (2 * maxLate + count) % 0x1_0000 == 0;
    assert FutureIndex(n, 2 * maxLate, count) == 0;
    assert At(n, 2 * maxLate, count) == 0x1_0000 - n;
  }

  class Builder {
    const config: Config
    const packets: array<Slot>
    var head: nat
    var tail: nat
    var lastSeqnoValid: bool
    var lastSeqno: u16
    var lastTimestampValid: bool
    var lastTimestamp: u32
    /** The packets handed to the release handler, and the number of drop notifications. */
    var released: seq<Packet>
    var drops: nat

    constructor (maxLate: u16, isPartitionHead: seq<u8> -> bool, isPartitionTail: (bool, seq<u8>) -> bool)
      ensures config.maxLate == if maxLate < 2 then 2 else if maxLate > 0x7FFF then 0x7FFF else maxLate
      ensures config.isPartitionHead == isPartitionHead && config.isPartitionTail == isPartitionTail
      ensures fresh(packets) && packets.Length == 2 * config.maxLate + 1 <= 0xFFFF
      ensures config.InRange() ==> Sound() && View() == State([], None, None, [], 0)
    {
      var late := if maxLate < 2 then 2 else if maxLate > 0x7FFF then 0x7FFF else maxLate;
      config := Config(late, isPartitionHead, isPartitionTail);
      packets := new Slot[2 * late + 1](_ => Missing);
      head, tail := 0, 0;
      lastSeqnoValid, lastTimestampValid := false, false;
      lastSeqno, lastTimestamp := 0, 0;
      released, drops := [], 0;
    }

    // ---- The abstract state ----

    ghost predicate Bounds()
      reads `head, `tail, packets
    {
      && config.InRange() && packets.Length == config.Cap() + 1
      && head < packets.Length && tail < packets.Length
      && ClearOutside(packets[..], head, tail)
    }

    /** Indices in range, nothing left in the slots outside, and one representation of empty. */
    ghost predicate Shape()
      reads `head, `tail, packets
    {
      Bounds() && (head == tail ==> head == 0)
    }

    ghost function Win(): seq<Slot>
      requires Bounds()
      reads `head, `tail, packets
    {
      Ring(packets[..], head, tail)
    }

    ghost function View(): State
      requires Bounds()
      reads this, packets
    {
      State(Win(),
            if lastSeqnoValid then Some(lastSeqno) else None,
            if lastTimestampValid then Some(lastTimestamp) else None,
            released,
            drops)
    }

    /** The invariant of the builder: its shape, and check() on the window. */
    ghost predicate Sound()
      reads this, packets
    {
      Shape() && Valid(config, View())
    }

    // ---- Releasing and dropping ----

    method Release(report: bool) returns (ok: bool)
      requires Shape() && HeadHeld(Win())
      modifies this, packets
      ensures Shape() && ok == (old(Win()) != [])
      ensures View() == if ok then SampleWindow.Release(old(View()), report) else old(View())
    {
      if head == tail {
        return false;
      }
      ReleaseTail(report);
      return true;
    }

    method ReleaseTail(report: bool)
      requires Shape() && Win() != [] && HeadHeld(Win())
      modifies this, packets
      ensures Shape() && View() == SampleWindow.Release(old(View()), report)
    {
      ghost var was := View();
      Remember(report);
      Advance();
      ReleaseParts(was, report, View());
    }

    /** Moves the floor to the tail's packet, and hands it to the release handler. */
    method Remember(report: bool)
      requires Shape() && Win() != [] && HeadHeld(Win())
      modifies this`lastSeqno, this`lastSeqnoValid, this`released
      ensures Shape() && lastSeqnoValid && lastSeqno == old(Win())[0].packet.seqno
      ensures released == if report then old(released) + [old(Win())[0].packet] else old(released)
    {
      assert packets[tail] == Win()[0];
      lastSeqnoValid := true;
      lastSeqno := packets[tail].packet.seqno;
      if report {
        released := released + [packets[tail].packet];
      }
    }

    /** Clears the tail slot and moves the tail to the next held one. */
    method Advance()
      requires Shape() && head != tail
      modifies this`head, this`tail, packets
      ensures Shape() && Win() == old(Win())[FirstHeld(old(Win()), 1)..]
    {
      ghost var win := Win();
      ClearTail();
      SkipGap(win);
      Normalise();
    }

    /** The one representation of the empty builder. */
    method Normalise()
      requires Bounds()
      modifies this`head, this`tail
      ensures Shape() && Win() == old(Win())
    {
      if tail == head {
        RingEmpty(packets[..], head);
        head := 0;
        tail := 0;
      }
    }

    method ClearTail()
      requires Bounds() && head != tail
      modifies this`tail, packets
      ensures Bounds() && Win() == old(Win())[1..]
    {
      RingDropTail(packets[..], head, tail);
      ghost var cleared := packets[..][tail := Missing];
      packets[tail] := Missing;
      assert packets[..] == cleared;
      tail := Inc(packets.Length, tail);
    }

    /** The loop of release that moves the tail over missing slots. */
    method SkipGap(ghost win: seq<Slot>)
      requires Bounds() && win != [] && Win() == win[1..]
      modifies this`tail
      ensures Bounds() && Win() == win[FirstHeld(win, 1)..]
    {
      ghost var k := 1;
      while tail != head && packets[tail].Missing?
        invariant Bounds() && 1 <= k <= |win| && Win() == win[k..]
        invariant FirstHeld(win, k) == FirstHeld(win, 1)
        decreases |win| - k
      {
        SkipOne();
        k := k + 1;
      }
      assert tail != head ==> Win()[0] == packets[tail];
    }

    method SkipOne()
      requires Bounds() && tail != head && packets[tail].Missing?
      modifies this`tail
      ensures Bounds() && old(Win())[0].Missing? && Win() == old(Win())[1..]
    {
      assert Win()[0] == packets[tail];
      RingSkipTail(packets[..], head, tail);
      tail := Inc(packets.Length, tail);
    }

    method ReleaseAll()
      requires Shape() && HeadHeld(Win())
      modifies this, packets
      ensures Shape() && View() == SampleWindow.ReleaseAll(old(View()))
    {
      while tail != head
        invariant Shape() && HeadHeld(Win())
        invariant SampleWindow.ReleaseAll(View()) == SampleWindow.ReleaseAll(old(View()))
        decreases |Win()|
      {
        var _ := Release(true);
      }
    }

    method Drop() returns (dropped: bool, ts: u32)
      requires Shape() && HeadHeld(Win())
      modifies this, packets
      ensures Shape() && dropped == (old(Win()) != [])
      ensures View() == if dropped then SampleWindow.Drop(old(View())) else old(View())
      ensures dropped ==> ts == old(Win())[0].packet.timestamp
    {
      if tail == head {
        return false, 0;
      }
      assert packets[tail] == Win()[0];
      ts := packets[tail].packet.timestamp;
      DropFrame(ts);
      return true, ts;
    }

    method DropFrame(ts: u32)
      requires Shape() && Win() != [] && Win()[0].Held? && ts == Win()[0].packet.timestamp
      modifies this, packets
      ensures Shape() && View() == SampleWindow.Drop(old(View()))
    {
      NotifyDropped();
      ReleaseFrame(ts);
      RecordTimestamp(ts);
    }

    method NotifyDropped()
      requires Shape()
      modifies this`drops
      ensures View() == Counted(old(View()))
    {
      drops := drops + 1;
    }

    method RecordTimestamp(ts: u32)
      requires Shape()
      modifies this`lastTimestamp, this`lastTimestampValid
      ensures View() == Stamped(old(View()), ts)
    {
      if !lastTimestampValid {
        lastTimestamp := ts;
        lastTimestampValid := true;
      }
    }

    /** The tail packet goes, and the rest of its frame with it. */
    method ReleaseFrame(ts: u32)
      requires Shape() && Win() != [] && Win()[0].Held?
      modifies this, packets
      ensures Shape() && View() == FrameGone(old(View()), ts)
    {
      var _ := Release(true);
      while tail != head
        invariant Shape() && HeadHeld(Win())
        invariant DropRest(View(), ts) == FrameGone(old(View()), ts)
        decreases |Win()|
      {
        assert Win()[0] == packets[tail];
        if packets[tail].start || packets[tail].packet.timestamp != ts {
          return;
        }
        var _ := Release(true);
      }
    }

    // ---- Pushing ----

    function Newest(): Packet
      requires Bounds() && Win() != [] && Win()[|Win()| - 1].Held?
      reads `head, `tail, packets
    {
      assert packets[Dec(packets.Length, head)] == Win()[|Win()| - 1];
      packets[Dec(packets.Length, head)].packet
    }

    /** The lateness test; true when the packet goes on. */
    method AdvanceFloor(p: Packet) returns (ok: bool)
      requires Shape() && HeadHeld(Win())
      modifies this`lastSeqno, this`lastSeqnoValid
      ensures ok == SampleWindow.AdvanceFloor(config, old(View()), p).Some?
      ensures ok ==> View() == SampleWindow.AdvanceFloor(config, old(View()), p).value
      ensures !ok ==> View() == old(View())
    {
      if !lastSeqnoValid {
        return true;
      }
      var behind := Sub16(lastSeqno, p.seqno);
      if Forward16(behind) {
        if behind > config.maxLate {
          lastSeqnoValid := false;
          return true;
        }
        return false;
      }
      var last := Sub16(p.seqno, config.maxLate);
      if Forward16(Sub16(last, lastSeqno)) {
        if head != tail {
          assert packets[tail] == Win()[0];
          var seqno := Sub16(packets[tail].packet.seqno, 1);
          if Forward16(Sub16(last, seqno)) {
            last := seqno;
          }
        }
        lastSeqno := last;
      }
      return true;
    }

    method StoreFirst(p: Packet)
      requires Shape() && Win() == []
      modifies this`head, this`tail, packets
      ensures Shape() && View() == old(View()).(win := [config.Fresh(p)])
    {
      assert head == 0 && tail == 0;
      packets[0] := config.Fresh(p);
      tail := 0;
      head := 1;
    }

    method SetSlot(index: nat, s: Slot, ghost i: nat)
      requires Bounds() && i < |Win()| && index == At(packets.Length, tail, i)
      modifies packets
      ensures Bounds() && Win() == old(Win())[i := s]
    {
      RingSet(packets[..], head, tail, i, s);
      ghost var stored := packets[..][index := s];
      packets[index] := s;
      assert packets[..] == stored;
    }

    /** Stores a slot count places beyond the head, the slots in between staying missing. */
    method StoreAhead(index: nat, count: nat, s: Slot)
      requires Shape() && |Win()| + count + 1 <= config.Cap() && index == At(packets.Length, head, count)
      modifies this`head, packets
      ensures Shape() && Win() == old(Win()) + Gap(count) + [s]
    {
      RingExtendHead(packets[..], head, tail, count, s);
      ghost var stored := packets[..][index := s];
      packets[index] := s;
      assert packets[..] == stored;
      head := Inc(packets.Length, index);
    }

    /** A packet right after the newest one; a full buffer drops its oldest frame first. */
    method Append(p: Packet)
      requires Shape() && Win() != [] && EndsHeld(Win())
      modifies this, packets
      ensures Shape() && View() == SampleWindow.Append(config, old(View()), p)
    {
      ghost var room := AppendParts(config, View(), p);
      DropIfFull(room);
      AppendTo(p);
    }

    method DropIfFull(ghost room: State)
      requires Shape() && Win() != [] && HeadHeld(Win())
      requires room == if |Win()| == config.Cap() then SampleWindow.Drop(View()) else View()
      modifies this, packets
      ensures Shape() && |Win()| < config.Cap() && View() == room
    {
      if tail == Inc(packets.Length, head) {
        var _, _ := Drop();
      }
    }

    method AppendTo(p: Packet)
      requires Shape() && EndsHeld(Win()) && |Win()| < config.Cap()
      modifies this`head, packets
      ensures Shape() && View() == SampleWindow.AppendTo(config, old(View()), p)
    {
      if tail == head {
        StoreNext(config.Fresh(p));
      } else {
        AppendAfter(p);
      }
    }

    method AppendAfter(p: Packet)
      requires Shape() && EndsHeld(Win()) && 0 < |Win()| < config.Cap()
      modifies this`head, packets
      ensures Shape() && View() == SampleWindow.AppendTo(config, old(View()), p)
    {
      ghost var st := View();
      var start := EndNewest(p);
      StoreNext(Held(start, config.IsEnd(p), p));
      AppendedAfter(config, st, p, start, Win());
    }

    method StoreNext(s: Slot)
      requires Shape() && |Win()| < config.Cap()
      modifies this`head, packets
      ensures Shape() && Win() == old(Win()) + [s]
    {
      StoreAhead(head, 0, s);
      assert old(Win()) + Gap(0) == old(Win());
    }

    /** Whether p starts a frame after the newest packet, which then ends one. */
    method EndNewest(p: Packet) returns (start: bool)
      requires Shape() && EndsHeld(Win()) && Win() != []
      modifies packets
      ensures var newest := old(Win())[|old(Win())| - 1];
        && start == (newest.end || newest.packet.timestamp != p.timestamp || config.IsStart(p))
        && Shape() && Win() == if start then old(Win())[|old(Win())| - 1 := newest.(end := true)] else old(Win())
    {
      var last := Dec(packets.Length, head);
      assert packets[last] == Win()[|Win()| - 1] && last == At(packets.Length, tail, |Win()| - 1);
      start := packets[last].end || packets[last].packet.timestamp != p.timestamp || config.IsStart(p);
      if start {
        SetSlot(last, packets[last].(end := true), |Win()| - 1);
      }
    }

    /** A packet with count missing before it: frames are dropped until both fit. */
    method InsertAhead(p: Packet, count: u16)
      requires Shape() && HeadHeld(Win()) && count < config.Cap() && count < 0x7FFF
      modifies this, packets
      ensures Shape() && View() == SampleWindow.InsertAhead(config, old(View()), p, count)
    {
      ghost var st := View();
      var ok := MakeRoom(count);
      ghost var left := View();
      if ok {
        StoreFuture(p, count);
      }
      InsertedAhead(config, st, p, count, ok, left, View());
    }

    method StoreFuture(p: Packet, count: u16)
      requires Shape() && |Win()| + count + 1 < config.Cap()
      modifies this`head, packets
      ensures Shape() && View() == old(View()).(win := old(Win()) + Gap(count) + [config.Fresh(p)])
    {
      FutureIndexIs(packets.Length, head, count);
      StoreAhead(FutureIndex(packets.Length, head, count), count, config.Fresh(p));
    }

    method MakeRoom(count: u16) returns (ok: bool)
      requires Shape() && HeadHeld(Win()) && count < 0x7FFF
      modifies this, packets
      ensures Shape() && ok == MakeSpace(config, old(View()), count).Some?
      ensures View() == if ok then MakeSpace(config, old(View()), count).value else DropAll(old(View()))
      ensures ok ==> |Win()| + count + 1 < config.Cap()
    {
      MustDropIs(config, count);
      while MustDrop(config, RingLen(packets.Length, head, tail), count)
        invariant Shape() && HeadHeld(Win())
        invariant MakeSpace(config, View(), count) == MakeSpace(config, old(View()), count)
        invariant DropAll(View()) == DropAll(old(View()))
        decreases |Win()|
      {
        var dropped, _ := Drop();
        if !dropped {
          return false;
        }
      }
      return true;
    }

    /** A packet count places back from the head; the tail moves back to it if need be. */
    method Fill(p: Packet, count: u16)
      requires Shape() && Win() != [] && HeadHeld(Win()) && 2 <= count < config.Cap()
      modifies this`tail, this`released, packets
      ensures Shape() && View() == SampleWindow.Fill(config, old(View()), p, count)
    {
      ghost var wide, filled := FillParts(config, View(), p, count);
      FillReached(p, count, wide, filled);
    }

    method FillReached(p: Packet, count: u16, ghost wide: State, ghost filled: State)
      requires Shape() && Win() != [] && 2 <= count < config.Cap()
      requires wide == Widen(View(), count) && count <= |wide.win|
      requires filled == SampleWindow.FillAt(config, wide, |wide.win| - count, p)
      modifies this`tail, this`released, packets
      ensures Shape() && View() == filled
    {
      var index := Reached(count, wide);
      FillAt(p, index, |wide.win| - count, filled);
    }

    /** The slot count places back from the head, the window reaching down to it. */
    method Reached(count: u16, ghost wide: State) returns (index: nat)
      requires Shape() && Win() != [] && 2 <= count < config.Cap() && wide == Widen(View(), count)
      modifies this`tail
      ensures Shape() && View() == wide
      ensures |Win()| >= count && index == At(packets.Length, tail, |Win()| - count)
    {
      index := if head >= count then head - count else head + packets.Length - count;
      Extend(index, count);
    }

    method FillAt(p: Packet, index: nat, ghost at: nat, ghost filled: State)
      requires Shape() && at + 1 < |Win()| && index == At(packets.Length, tail, at)
      requires filled == SampleWindow.FillAt(config, View(), at, p)
      modifies this`released, packets
      ensures Shape() && View() == filled
    {
      assert packets[index] == Win()[at];
      if packets[index].Held? {
        released := released + [p];
      } else {
        Settle(p, index, at);
      }
    }

    /** Moves the tail back to index when it lies outside the occupied slots. */
    method Extend(index: nat, count: u16)
      requires Shape() && Win() != [] && 2 <= count < config.Cap()
      requires index == if head >= count then head - count else head + packets.Length - count
      modifies this`tail
      ensures Shape() && View() == Widen(old(View()), count)
      ensures |Win()| >= count && index == At(packets.Length, tail, |Win()| - count)
    {
      Reach(index, count);
      IndexBehindHead(packets.Length, head, tail, count, index);
    }

    method Reach(index: nat, count: u16)
      requires Shape() && Win() != [] && 2 <= count < config.Cap()
      requires index == if head >= count then head - count else head + packets.Length - count
      modifies this`tail
      ensures Shape() && Win() == Widen(old(View()), count).win
    {
      OutsideIff(packets.Length, head, tail, count, index);
      if Outside(head, tail, index) {
        MoveTail(index);
      }
    }

    method MoveTail(index: nat)
      requires Shape() && Win() != [] && index < packets.Length && RingLen(packets.Length, head, index) > |Win()|
      modifies this`tail
      ensures Shape() && tail == index
      ensures Win() == Gap(RingLen(packets.Length, head, index) - |old(Win())|) + old(Win())
    {
      RingExtendTail(packets[..], head, tail, index);
      tail := index;
    }

    /** Fills the missing slot, setting the flags of both neighbours. */
    method Settle(p: Packet, index: nat, ghost at: nat)
      requires Shape() && at + 1 < |Win()| && index == At(packets.Length, tail, at)
      modifies packets
      ensures Shape() && Win() == SampleWindow.Settle(config, old(Win()), at, p)
    {
      var start := JoinPrevious(p, index, at);
      var end := JoinNext(p, index, at);
      SetSlot(index, Held(start, end, p), at);
    }

    method JoinPrevious(p: Packet, index: nat, ghost at: nat) returns (start: bool)
      requires Shape() && at + 1 < |Win()| && index == At(packets.Length, tail, at)
      modifies packets
      ensures Shape() && Win() == SampleWindow.JoinPrevious(config, old(Win()), at, p)
      ensures start == StartFlag(config, old(Win()), at, p)
    {
      start := config.IsStart(p);
      if index != tail {
        var prev := Dec(packets.Length, index);
        assert packets[prev] == Win()[at - 1];
        if packets[prev].Held? {
          if packets[prev].packet.timestamp != p.timestamp {
            start := true;
          }
          if !start {
            start := packets[prev].end;
          } else {
            SetSlot(prev, packets[prev].(end := true), at - 1);
          }
        }
      }
    }

    method JoinNext(p: Packet, index: nat, ghost at: nat) returns (end: bool)
      requires Shape() && at + 1 < |Win()| && index == At(packets.Length, tail, at)
      modifies packets
      ensures Shape() && Win() == SampleWindow.JoinNext(config, old(Win()), at, p)
      ensures end == EndFlag(config, old(Win()), at, p)
    {
      end := config.IsEnd(p);
      var next := Inc(packets.Length, index);
      assert packets[next] == Win()[at + 1];
      if packets[next].Held? {
        if packets[next].packet.timestamp != p.timestamp {
          end := true;
        }
        if !end {
          end := packets[next].start;
        } else {
          SetSlot(next, packets[next].(start := true), at + 1);
        }
      }
    }

    /**
     * Adds a packet. The invariant survives exactly when the make-space loop does not drain the
     * buffer; a packet too far ahead empties the builder and is pushed again.
     */
    method Push(p: Packet)
      requires Sound()
      modifies this, packets
      ensures Shape() && View() == SampleWindow.Push(config, old(View()), p)
      ensures Sound() <==> !old(Drains(config, View(), p))
      decreases |Win()|, 3
    {
      PushKeepsValid(config, View(), p);
      AdvanceFloorKeepsValid(config, View(), p);
      var accepted := AdvanceFloor(p);
      if accepted {
        Insert(p);
      }
    }

    method Insert(p: Packet)
      requires Shape() && EndsHeld(Win())
      modifies this, packets
      ensures Shape() && View() == SampleWindow.Insert(config, old(View()), p)
      decreases |Win()|, 2
    {
      if head == tail {
        StoreFirst(p);
      } else {
        InsertNear(p);
      }
    }

    /** Stores a packet next to those buffered, or instead of them. */
    method InsertNear(p: Packet)
      requires Shape() && EndsHeld(Win()) && Win() != []
      modifies this, packets
      ensures Shape() && View() == SampleWindow.Insert(config, old(View()), p)
      decreases |Win()|, 1
    {
      var place := PlaceAfter(config, Newest().seqno, p.seqno);
      assert place == PlaceOf(config, Win(), p);
      if place.Far? {
        StartOver(p);
      } else {
        Place(p, place);
      }
    }

    /** Stores a packet near the newest one. */
    method Place(p: Packet, place: Place)
      requires Shape() && EndsHeld(Win()) && Win() != [] && place == PlaceOf(config, Win(), p) && !place.Far?
      modifies this, packets
      ensures Shape() && View() == SampleWindow.Insert(config, old(View()), p)
    {
      match place
      case Next => Append(p);
      case Ahead(count) => InsertAhead(p, count);
      case Behind(count) => Fill(p, count);
      case TooOld =>
    }

    /** A packet beyond the whole buffer: everything is released and the packet pushed again. */
    method StartOver(p: Packet)
      requires Shape() && EndsHeld(Win()) && Win() != [] && PlaceOf(config, Win(), p).Far?
      modifies this, packets
      ensures Shape() && View() == SampleWindow.Insert(config, old(View()), p)
      decreases |Win()|, 0
    {
      FarIsInserted(config, View(), p);
      ReleaseAll();
      PushAgain(p);
    }

    method PushAgain(p: Packet)
      requires Shape() && Win() == []
      modifies this, packets
      ensures Shape() && View() == PushEmpty(config, old(View()), p)
      decreases 0, 4
    {
      Push(p);
    }

    // ---- Popping ----

    /** The scan of a pop for the first end flag, from the tail on. */
    method Scan() returns (scan: Scan)
      requires Shape()
      ensures scan == ScanFrom(Win(), 0)
    {
      var last, k := tail, 0;
      while last != head
        invariant k <= |Win()| && last < packets.Length
        invariant last == if k < |Win()| then At(packets.Length, tail, k) else head
        invariant ScanFrom(Win(), k) == ScanFrom(Win(), 0)
        decreases |Win()| - k
      {
        assert packets[last] == Win()[k];
        if packets[last].Missing? {
          return Hole;
        }
        if packets[last].end {
          return EndAt(k);
        }
        last := Inc(packets.Length, last);
        k := k + 1;
      }
      return Open;
    }

    method Decide(force: bool) returns (decision: Decision)
      requires Shape() && Win() != [] && EndsHeld(Win())
      ensures decision == SampleWindow.Decide(config, View(), force)
    {
      assert packets[tail] == Win()[0];
      if !packets[tail].start {
        var diff := Sub16(Newest().seqno, packets[tail].packet.seqno);
        return if force || diff > config.maxLate then Discard else Wait;
      }
      if !force && lastSeqnoValid && Add16(lastSeqno, 1) != packets[tail].packet.seqno {
        return Wait;
      }
      var scan := Scan();
      match scan
      case Open => return Wait;
      case Hole => return if force then Discard else Wait;
      case EndAt(last) => return Deliver(last);
    }

    /** Takes count held packets from the tail, without telling the release handler. */
    method Take(count: nat) returns (group: seq<Packet>)
      requires Shape() && 0 < count <= |Win()| && forall i :: 0 <= i < count ==> Win()[i].Held?
      modifies this, packets
      ensures Shape() && Taken(old(View()), count, View(), group)
    {
      ghost var st := View();
      group := TakeFirst();
      for i := 1 to count
        invariant Shape() && Taken(st, i, View(), group)
      {
        var next := TakeNext(st, i, group);
        group := group + [next];
      }
    }

    method TakeFirst() returns (group: seq<Packet>)
      requires Shape() && Win() != [] && Win()[0].Held?
      modifies this, packets
      ensures Shape() && Taken(old(View()), 1, View(), group)
    {
      ghost var st := View();
      var first := TakeTail();
      group := [first];
      TakenOne(st, View(), first);
    }

    method TakeNext(ghost st: State, ghost n: nat, ghost group: seq<Packet>) returns (p: Packet)
      requires Shape() && Taken(st, n, View(), group) && n < |st.win| && st.win[n].Held?
      modifies this, packets
      ensures Shape() && Taken(st, n + 1, View(), group + [p])
    {
      TakenNext(st, n, View(), group);
      p := TakeTail();
    }

    method TakeTail() returns (p: Packet)
      requires Shape() && Win() != [] && Win()[0].Held?
      modifies this, packets
      ensures Shape() && View() == SampleWindow.Release(old(View()), false) && p == old(Win())[0].packet
    {
      assert packets[tail] == Win()[0];
      p := packets[tail].packet;
      var _ := Release(false);
    }

    /** A completed group of packets and its timestamp, or none. */
    method PopRtpPackets(force: bool) returns (group: seq<Packet>, ts: u32)
      requires Sound()
      modifies this, packets
      ensures Sound() && View() == Pop(config, old(View()), force).0 && group == Pop(config, old(View()), force).1
      ensures StampedBy(group, ts)
    {
      PopKeepsValid(config, View(), force);
      group, ts := PopGroup(force);
    }

    /** The retry loop of a pop. */
    method PopGroup(force: bool) returns (group: seq<Packet>, ts: u32)
      requires Shape() && EndsHeld(Win())
      modifies this, packets
      ensures Shape() && View() == Pop(config, old(View()), force).0 && group == Pop(config, old(View()), force).1
      ensures StampedBy(group, ts)
    {
      var done := false;
      group, ts := [], 0;
      while !done
        invariant Shape() && EndsHeldOr(done, Win())
        invariant !done ==> Pop(config, View(), force) == Pop(config, old(View()), force)
        invariant done ==> (View(), group) == Pop(config, old(View()), force)
        invariant StampedBy(group, ts)
        decreases !done, |Win()|
      {
        done, group, ts := TryPop(force);
      }
    }

    /** One round of the loop: not done means a frame was dropped and the pop starts again. */
    method TryPop(force: bool) returns (done: bool, group: seq<Packet>, ts: u32)
      requires Shape() && EndsHeld(Win())
      modifies this, packets
      ensures Shape() && Round(config, old(View()), force, done, View(), group)
      ensures StampedBy(group, ts)
    {
      if tail == head {
        return true, [], 0;
      }
      ghost var st := View();
      var decision := Decide(force);
      done, group, ts := Act(decision);
      ActedIsRound(config, st, force, done, View(), group);
    }

    method Act(decision: Decision) returns (done: bool, group: seq<Packet>, ts: u32)
      requires Shape() && EndsHeld(Win()) && Win() != [] && Takeable(decision, Win())
      modifies this, packets
      ensures Shape() && Acted(old(View()), decision, done, View(), group)
      ensures StampedBy(group, ts)
    {
      match decision
      case Wait => return true, [], 0;
      case Discard =>
        var _, _ := Drop();
        return false, [], 0;
      case Deliver(last) =>
        group, ts := TakeFrame(last);
        return true, group, ts;
    }

    method TakeFrame(last: nat) returns (group: seq<Packet>, ts: u32)
      requires Shape() && last < |Win()| && forall i :: 0 <= i <= last ==> Win()[i].Held?
      modifies this, packets
      ensures Shape() && Taken(old(View()), last + 1, View(), group) && StampedBy(group, ts)
    {
      ghost var st := View();
      assert packets[tail] == st.win[0];
      ts := packets[tail].packet.timestamp;
      group := Take(last + 1);
      TakenFirst(st, last + 1, View(), group);
    }
  }

  predicate StampedBy(group: seq<Packet>, ts: u32) {
    group != [] ==> ts == group[0].timestamp
  }

  /** A release, field by field. */
  lemma ReleaseParts(st: State, report: bool, left: State)
    requires st.win != [] && st.win[0].Held?
    requires left.win == st.win[FirstHeld(st.win, 1)..] && left.floor == Some(st.win[0].packet.seqno)
    requires left.released == if report then st.released + [st.win[0].packet] else st.released
    requires left.dropTs == st.dropTs && left.drops == st.drops
    ensures left == SampleWindow.Release(st, report)
  {
  }

  predicate EndsHeldOr(done: bool, win: seq<Slot>) {
    done || EndsHeld(win)
  }

  predicate Takeable(decision: Decision, win: seq<Slot>) {
    decision.Deliver? ==> decision.last < |win| && forall i :: 0 <= i <= decision.last ==> win[i].Held?
  }

  /** What acting on a decision does. */
  ghost predicate Acted(st: State, decision: Decision, done: bool, left: State, group: seq<Packet>)
    requires st.win != [] && st.win[0].Held?
  {
    match decision
    case Wait => done && left == st && group == []
    case Discard => !done && left == SampleWindow.Drop(st) && group == []
    case Deliver(last) => done && Taken(st, last + 1, left, group)
  }

  /** A round of a pop ends it, or leaves a shorter window from which it ends the same. */
  ghost predicate Round(c: Config, st: State, force: bool, done: bool, left: State, group: seq<Packet>)
    requires EndsHeld(st.win)
  {
    if done then (left, group) == Pop(c, st, force)
    else EndsHeld(left.win) && Pop(c, left, force) == Pop(c, st, force) && |left.win| < |st.win|
  }

  lemma ActedIsRound(c: Config, st: State, force: bool, done: bool, left: State, group: seq<Packet>)
    requires EndsHeld(st.win) && st.win != [] && Acted(st, SampleWindow.Decide(c, st, force), done, left, group)
    ensures Round(c, st, force, done, left, group)
  {
  }

  /** n held packets were taken from st: what is left, and what was taken. */
  ghost predicate Taken(st: State, n: nat, left: State, group: seq<Packet>) {
    && 0 < n <= |st.win| && (forall i :: 0 <= i < n ==> st.win[i].Held?)
    && left == Cut(st, n - 1) && group == Group(st.win, n)
  }

  lemma TakenOne(st: State, left: State, p: Packet)
    requires st.win != [] && st.win[0].Held? && left == SampleWindow.Release(st, false) && p == st.win[0].packet
    ensures Taken(st, 1, left, [p])
  {
  }

  lemma TakenFirst(st: State, n: nat, left: State, group: seq<Packet>)
    requires Taken(st, n, left, group)
    ensures group != [] && group[0] == st.win[0].packet
  {
  }

  lemma TakenNext(st: State, n: nat, left: State, group: seq<Packet>)
    requires Taken(st, n, left, group) && n < |st.win| && st.win[n].Held?
    ensures left.win != [] && left.win[0] == st.win[n]
    ensures Taken(st, n + 1, SampleWindow.Release(left, false), group + [st.win[n].packet])
  {
    CutAgain(st, n);
    OneMoreTaken(st.win, n);
  }

  lemma OneMoreTaken(win: seq<Slot>, n: nat)
    requires n < |win| && forall i :: 0 <= i <= n ==> win[i].Held?
    ensures Group(win, n + 1) == Group(win, n) + [win[n].packet]
  {
  }

  lemma CutAgain(st: State, n: nat)
    requires 0 < n < |st.win| && st.win[n - 1].Held? && st.win[n].Held?
    ensures var left := Cut(st, n - 1);
      left.win == st.win[n..] && SampleWindow.Release(left, false) == Cut(st, n)
  {
    assert FirstHeld(st.win, n) == n;
    FirstHeldShift(st.win, n, 1);
  }
}
