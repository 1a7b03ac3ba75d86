/** After a drain: which calls go on to read the packet missing at the tail, and which do not. */
module SampleDrained {
  import opened Machine
  import opened SampleWindow
  import opened SampleInvariant

  /** What a call comes to that may read the packet in the tail slot: none is there, or its value. */
  datatype Read<T> = Nil | Value(value: T)

  /** The lateness test, reading the tail's number only where the code does. */
  function LateTest(c: Config, st: State, p: Packet): Read<Option<State>> {
    if st.floor.None? then Value(Some(st))
    else
      var behind := Sub16(st.floor.value, p.seqno);
      if Forward16(behind) then Value(if behind > c.maxLate then Some(st.(floor := None)) else None)
      else
        var last := (p.seqno - c.maxLate) % 0x1_0000;
        if !Forward16(Sub16(last, st.floor.value)) then Value(Some(st))
        else if st.win == [] then Value(Some(st.(floor := Some(last))))
        else if st.win[0].Missing? then Nil
        else
          var beforeTail := Sub16(st.win[0].packet.seqno, 1);
          Value(Some(st.(floor := Some(if Forward16(Sub16(last, beforeTail)) then beforeTail else last))))
  }

  /** A push reads the tail in the lateness test, when it drops a frame, and when it releases everything. */
  predicate PushReadsNil(c: Config, st: State, p: Packet)
    requires st.win != [] && st.win[|st.win| - 1].Held?
  {
    match LateTest(c, st, p)
    case Nil => true
    case Value(None) => false
    case Value(Some(_)) =>
      st.win[0].Missing? &&
      match PlaceOf(c, st.win, p)
      case Next => |st.win| == c.Cap()
      case Ahead(count) => |st.win| + count + 1 >= c.Cap()
      case Far => true
      case _ => false
  }

  /** A pop reads the tail's number if the tail slot starts no frame; the flag of a missing one is not set. */
  predicate PopReadsNil(win: seq<Slot>) {
    win != [] && !(win[0].Held? && win[0].start) && win[0].Missing?
  }

  /** While the tail is held no call reads one that is not there. */
  lemma HeldTailIsThere(c: Config, st: State, p: Packet)
    requires c.Allowed() && EndsHeld(st.win) && st.win != []
    ensures LateTest(c, st, p) == Value(AdvanceFloor(c, st, p)) && !PushReadsNil(c, st, p) && !PopReadsNil(st.win)
  {
  }

  /** What a drain leaves: count missing slots and the packet, the floor just before them. */
  lemma DrainLeaves(c: Config, st: State, p: Packet) returns (count: u16)
    requires Valid(c, st) && Drains(c, st, p)
    ensures var r := Push(c, st, p);
      && 0 < count && count + 1 < c.Cap() && r.win == Gap(count) + [c.Fresh(p)]
      && r.floor == Some(Newest(st.win).seqno) && p.seqno == Add16(Newest(st.win).seqno, count + 1)
  {
    var moved := AdvanceFloor(c, st, p).value;
    AdvanceFloorKeepsValid(c, st, p);
    count := PlaceOf(c, st.win, p).count;
    MakeSpaceDrains(c, moved, count);
    MakeSpaceKeepsValid(c, moved, count);
    assert [] + Gap(count) + [c.Fresh(p)] == Gap(count) + [c.Fresh(p)];
  }

  /**
   * The packets q whose push reads the missing tail, by their distance from the floor: those from
   * maxLate to half the circle after it, another copy of the newest, and those so late that the stream
   * is reset and they count as ahead of the newest.
   */
  predicate MeetsTail(c: Config, floor: u16, length: nat, q: u16) {
    var after := Sub16(q, floor);
    || c.maxLate <= after <= 0x8000
    || after == length
    || (after > 0x8000 && 0x1_0000 - after > c.maxLate && 0x1_0000 - after + length > 0x8000)
  }

  /** After a drain every pop reads the missing tail, and a push does exactly for those packets. */
  lemma AfterDrain(c: Config, st: State, p: Packet, q: Packet)
    requires Valid(c, st) && Drains(c, st, p)
    ensures var r := Push(c, st, p);
      && PopReadsNil(r.win) && r.win[|r.win| - 1].Held?
      && (PushReadsNil(c, r, q) <==> MeetsTail(c, Newest(st.win).seqno, |r.win|, q.seqno))
  {
    var count := DrainLeaves(c, st, p);
    var r := Push(c, st, p);
    assert r.win[0] == Missing && r.win[|r.win| - 1] == c.Fresh(p);
    MeetsTailIff(c, r, Newest(st.win).seqno, q);
  }

  lemma MeetsTailIff(c: Config, r: State, floor: u16, q: Packet)
    requires c.InRange() && r.floor == Some(floor) && 2 <= |r.win| < c.Cap()
    requires r.win[0].Missing? && r.win[|r.win| - 1].Held?
    requires Newest(r.win).seqno == Add16(floor, |r.win|)
    ensures PushReadsNil(c, r, q) <==> MeetsTail(c, floor, |r.win|, q.seqno)
  {
  }
}
