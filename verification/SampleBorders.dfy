/**
 * Where frames begin and end: the flags in the buffer say what the packets themselves say, so that what
 * is delivered is a frame by the packets alone, unless a reset leaves a flag whose packet is forgotten.
 */
module SampleBorders {
  import opened Machine
  import opened SampleWindow
  import opened SampleInvariant
  import opened SampleDelivery
  import opened SampleOrder
  import opened SampleNumbers
  import opened SampleRuns
  import opened SampleLosses

  /** A border lies between two consecutive packets. */
  predicate Divides(c: Config, a: Packet, b: Packet) {
    c.IsEnd(a) || c.IsStart(b) || a.timestamp != b.timestamp
  }

  predicate BorderAt(c: Config, win: seq<Slot>, i: nat)
    requires 0 < i <= |win|
  {
    i < |win| && win[i-1].Held? && win[i].Held? && Divides(c, win[i-1].packet, win[i].packet)
  }

  predicate EndRight(c: Config, win: seq<Slot>, i: nat)
    requires i < |win|
  {
    win[i].Held? ==> (win[i].end <==> c.IsEnd(win[i].packet) || BorderAt(c, win, i + 1))
  }

  predicate StartRight(c: Config, win: seq<Slot>, i: nat)
    requires 0 < i < |win|
  {
    win[i].Held? ==> (win[i].start <==> c.IsStart(win[i].packet) || BorderAt(c, win, i))
  }

  /** The tail may also start a frame because of the packet before it, which is gone. */
  predicate TailRight(c: Config, win: seq<Slot>, floor: Option<u16>)
    requires win != []
  {
    win[0].Held? ==>
      && (c.IsStart(win[0].packet) ==> win[0].start)
      && (win[0].start ==> c.IsStart(win[0].packet) || floor == Some(Sub16(win[0].packet.seqno, 1)))
  }

  ghost predicate InnerRight(c: Config, win: seq<Slot>) {
    && (forall i :: 0 <= i < |win| ==> EndRight(c, win, i))
    && (forall i :: 0 < i < |win| ==> StartRight(c, win, i))
  }

  /** All flags say what the packets say. */
  ghost predicate Marked(c: Config, st: State) {
    InnerRight(c, st.win) && (st.win != [] ==> TailRight(c, st.win, st.floor))
  }

  // ---- Trimming ----

  lemma SuffixInner(c: Config, win: seq<Slot>, e: nat)
    requires InnerRight(c, win) && e <= |win|
    ensures InnerRight(c, win[e..])
  {
    var r := win[e..];
    forall i | 0 <= i < |r| ensures EndRight(c, r, i) {
      assert EndRight(c, win, e + i);
    }
    forall i | 0 < i < |r| ensures StartRight(c, r, i) {
      assert StartRight(c, win, e + i);
    }
  }

  lemma TrimmedKeepsMarked(c: Config, st: State, st': State, k: nat, e: nat)
    requires Valid(c, st) && InnerRight(c, st.win) && Trimmed(st.win, st', k, e)
    ensures Marked(c, st')
  {
    SuffixInner(c, st.win, e);
    if e < |st.win| {
      assert StartRight(c, st.win, e);
      assert SeqnoAt(st.win, k) && SeqnoAt(st.win, e);
    }
  }

  lemma TrimsKeepMarked(c: Config, st: State, st': State)
    requires Valid(c, st) && Marked(c, st) && Trims(st, st')
    ensures Marked(c, st')
  {
    if st != st' {
      var k: nat, e: nat :| Trimmed(st.win, st', k, e);
      TrimmedKeepsMarked(c, st, st', k, e);
    }
  }

  // ---- Pushing ----

  /** The tail starts a frame only because of the packet before it, which is gone. */
  predicate TailOwes(c: Config, win: seq<Slot>) {
    win != [] && win[0].Held? && win[0].start && !c.IsStart(win[0].packet)
  }

  lemma AdvanceFloorKeepsMarked(c: Config, st: State, p: Packet)
    requires Valid(c, st) && Marked(c, st) && AdvanceFloor(c, st, p).Some?
    ensures (Resets(c, st, p) && TailOwes(c, st.win)) || Marked(c, AdvanceFloor(c, st, p).value)
  {
  }

  lemma SingletonMarked(c: Config, st: State, p: Packet)
    ensures Marked(c, st.(win := [c.Fresh(p)]))
  {
  }

  lemma AppendToKeepsMarked(c: Config, st: State, p: Packet)
    requires Marked(c, st) && EndsHeld(st.win)
    ensures Marked(c, AppendTo(c, st, p))
  {
    if st.win == [] {
      SingletonMarked(c, st, p);
    } else {
      var r := AppendTo(c, st, p);
      var n := |st.win|;
      assert EndRight(c, st.win, n - 1);
      forall i | 0 <= i < |r.win| ensures EndRight(c, r.win, i) {
        assert i < n ==> EndRight(c, st.win, i);
      }
      forall i | 0 < i < |r.win| ensures StartRight(c, r.win, i) {
        assert i < n ==> StartRight(c, st.win, i);
      }
    }
  }

  lemma DropMarks(c: Config, st: State)
    requires Valid(c, st) && InnerRight(c, st.win) && st.win != []
    ensures Marked(c, Drop(st))
  {
    var k, e := DropTrims(st);
    TrimmedKeepsMarked(c, st, Drop(st), k, e);
  }

  lemma AppendKeepsMarked(c: Config, st: State, p: Packet)
    requires Valid(c, st) && InnerRight(c, st.win) && st.win != [] && (|st.win| == c.Cap() || Marked(c, st))
    ensures Marked(c, Append(c, st, p))
  {
    DropMarks(c, st);
    DropKeepsValid(c, st);
    AppendToKeepsMarked(c, if |st.win| == c.Cap() then Drop(st) else st, p);
  }

  lemma AheadKeepsMarked(c: Config, st: State, gap: seq<Slot>, p: Packet)
    requires Marked(c, st) && EndsHeld(st.win) && st.win != []
    requires gap != [] && forall i :: 0 <= i < |gap| ==> gap[i].Missing?
    ensures Marked(c, st.(win := st.win + gap + [c.Fresh(p)]))
  {
    var win := st.win + gap + [c.Fresh(p)];
    var n := |st.win|;
    forall i | 0 <= i < |win| ensures EndRight(c, win, i) {
      assert i < n ==> EndRight(c, st.win, i);
    }
    forall i | 0 < i < |win| ensures StartRight(c, win, i) {
      assert i < n ==> StartRight(c, st.win, i);
    }
  }

  lemma InsertAheadKeepsMarked(c: Config, st: State, p: Packet, count: nat)
    requires Valid(c, st) && InnerRight(c, st.win) && st.win != [] && 0 < count && !NoFrameFits(c, st.win, count)
    requires |st.win| + count + 1 >= c.Cap() || Marked(c, st)
    ensures Marked(c, InsertAhead(c, st, p, count))
  {
    MakeSpaceDrains(c, st, count);
    match MakeSpace(c, st, count)
    case None =>
    case Some(room) =>
      MakeSpaceKeepsValid(c, st, count);
      RoomMarked(c, st, count, room);
      AheadKeepsMarked(c, room, Gap(count), p);
  }

  lemma RoomMarked(c: Config, st: State, count: nat, room: State)
    requires Valid(c, st) && InnerRight(c, st.win) && MakeSpace(c, st, count) == Some(room)
    requires |st.win| + count + 1 >= c.Cap() || Marked(c, st)
    ensures Marked(c, room)
  {
    MakeSpaceTrims(c, st, count);
    if room != st {
      var k: nat, e: nat :| Trimmed(st.win, room, k, e);
      TrimmedKeepsMarked(c, st, room, k, e);
    }
  }

  function Ended(s: Slot, end: bool): Slot {
    if s.Held? && end then s.(end := true) else s
  }

  function Started(s: Slot, start: bool): Slot {
    if s.Held? && start then s.(start := true) else s
  }

  /** Filling a slot, the flags of the neighbours included. */
  lemma SettledSlots(c: Config, win: seq<Slot>, at: nat, p: Packet)
    requires at + 1 < |win| && win[at].Missing?
    ensures var r := Settle(c, win, at, p);
      && (forall i :: 0 <= i < |win| && i != at && i != at - 1 && i != at + 1 ==> r[i] == win[i])
      && r[at] == Held(StartFlag(c, win, at, p), EndFlag(c, win, at, p), p)
      && (at > 0 ==> r[at-1] == Ended(win[at-1], ForcedStart(c, win, at, p)))
      && r[at+1] == Started(win[at+1], ForcedEnd(c, win, at, p))
  {
  }

  lemma SettleKeepsInner(c: Config, win: seq<Slot>, at: nat, p: Packet)
    requires InnerRight(c, win) && at + 1 < |win| && win[at].Missing?
    ensures InnerRight(c, Settle(c, win, at, p))
  {
    var r := Settle(c, win, at, p);
    SettledSlots(c, win, at, p);
    assert at > 0 ==> EndRight(c, win, at - 1);
    assert StartRight(c, win, at + 1);
    forall i | 0 <= i < |r| ensures EndRight(c, r, i) {
      assert EndRight(c, win, i);
    }
    forall i | 0 < i < |r| ensures StartRight(c, r, i) {
      assert StartRight(c, win, i);
    }
  }

  lemma SettleKeepsTail(c: Config, win: seq<Slot>, floor: Option<u16>, at: nat, p: Packet)
    requires at + 1 < |win| && win[at].Missing? && TailRight(c, win, floor) && (at > 0 ==> win[0].Held?)
    ensures TailRight(c, Settle(c, win, at, p), floor)
  {
    SettledSlots(c, win, at, p);
  }

  /** A window extended to the left, its tail not being marked because of a packet gone. */
  lemma WidenKeepsInner(c: Config, win: seq<Slot>, gap: seq<Slot>)
    requires InnerRight(c, win) && win != [] && win[0].Held? && (win[0].start <==> c.IsStart(win[0].packet))
    requires forall i :: 0 <= i < |gap| ==> gap[i].Missing?
    ensures InnerRight(c, gap + win)
  {
    var r := gap + win;
    forall i | 0 <= i < |r| ensures EndRight(c, r, i) {
      assert i >= |gap| ==> EndRight(c, win, i - |gap|);
    }
    forall i | 0 < i < |r| ensures StartRight(c, r, i) {
      assert i > |gap| ==> StartRight(c, win, i - |gap|);
    }
  }

  lemma FillKeepsMarked(c: Config, st: State, p: Packet)
    requires Valid(c, st) && Marked(c, st) && st.win != [] && PlaceOf(c, st.win, p).Behind?
    requires PlaceOf(c, st.win, p).count > |st.win| ==> AfterFloor(p.seqno, st.floor)
    ensures Marked(c, Fill(c, st, p, PlaceOf(c, st.win, p).count))
  {
    var count := PlaceOf(c, st.win, p).count;
    FillCases(c, st, p, count);
    if count > |st.win| {
      LeftwardsKeepsMarked(c, st, p, count);
    } else if st.win[|st.win| - count].Missing? {
      SettleKeepsInner(c, st.win, |st.win| - count, p);
      SettleKeepsTail(c, st.win, st.floor, |st.win| - count, p);
    }
  }

  lemma LeftwardsKeepsMarked(c: Config, st: State, p: Packet, count: u16)
    requires Valid(c, st) && Marked(c, st) && st.win != [] && PlaceOf(c, st.win, p) == Behind(count)
    requires count > |st.win| && AfterFloor(p.seqno, st.floor)
    ensures Marked(c, st.(win := Settle(c, Gap(count - |st.win|) + st.win, 0, p)))
  {
    var gap := Gap(count - |st.win|);
    assert SeqnoAt(st.win, |st.win| - 1);
    assert p.seqno == Sub16(st.win[0].packet.seqno, |gap|);
    WidenKeepsInner(c, st.win, gap);
    SettleKeepsInner(c, gap + st.win, 0, p);
    SettleKeepsTail(c, gap + st.win, st.floor, 0, p);
  }

  /**
   * The packet resets the stream and goes in before the newest one, or is too old to, while the tail starts
   * a frame for a packet that is gone: nothing tells any more where that packet was.
   */
  predicate LeavesBorder(c: Config, st: State, p: Packet)
    requires EndsHeld(st.win)
  {
    && Resets(c, st, p) && TailOwes(c, st.win)
    && (PlaceOf(c, st.win, p).Behind? || PlaceOf(c, st.win, p).TooOld?)
  }

  /** A reset by a packet that is placed after the newest one costs the tail. */
  lemma ResetAheadDrops(c: Config, st: State, p: Packet)
    requires Valid(c, st) && Marked(c, st) && Resets(c, st, p) && TailOwes(c, st.win)
    ensures PlaceOf(c, st.win, p).Next? ==> |st.win| == c.Cap()
    ensures PlaceOf(c, st.win, p).Ahead? ==> |st.win| + PlaceOf(c, st.win, p).count + 1 >= c.Cap()
  {
    assert SeqnoAt(st.win, |st.win| - 1);
  }

  /** A push that does not drain leaves every flag saying what the packets say exactly if it is not one of those. */
  lemma PushKeepsMarkedIff(c: Config, st: State, p: Packet)
    requires Valid(c, st) && Marked(c, st) && !Drains(c, st, p)
    ensures Marked(c, Push(c, st, p)) <==> !LeavesBorder(c, st, p)
  {
    if LeavesBorder(c, st, p) {
      BorderIsLeft(c, st, p);
    } else {
      PushKeepsMarked(c, st, p);
    }
  }

  lemma PushKeepsMarked(c: Config, st: State, p: Packet)
    requires Valid(c, st) && Marked(c, st) && !Drains(c, st, p) && !LeavesBorder(c, st, p)
    ensures Marked(c, Push(c, st, p))
  {
    if AdvanceFloor(c, st, p).Some? {
      var moved := AdvanceFloor(c, st, p).value;
      AdvanceFloorKeepsValid(c, st, p);
      AdvanceFloorKeepsMarked(c, st, p);
      if !Marked(c, moved) {
        ResetAheadDrops(c, st, p);
      }
      match PlaceOf(c, st.win, p)
      case First => SingletonMarked(c, moved, p);
      case Next => AppendKeepsMarked(c, moved, p);
      case Ahead(count) => InsertAheadKeepsMarked(c, moved, p, count);
      case Far => FarKeepsMarked(c, moved, p);
      case Behind(count) =>
        if count > |st.win| {
          ExtendingStaysAfterFloor(c, st, p, moved);
        }
        FillKeepsMarked(c, moved, p);
      case TooOld =>
    }
  }

  lemma BorderIsLeft(c: Config, st: State, p: Packet)
    requires Valid(c, st) && Marked(c, st) && LeavesBorder(c, st, p)
    ensures !Marked(c, Push(c, st, p))
  {
    match PlaceOf(c, st.win, p)
    case Behind(count) =>
      ResetGoesFarBack(c, st, p, count);
      FillCases(c, st.(floor := None), p, count);
      LeftwardsOwes(c, st.win, Gap(count - |st.win|), p);
    case TooOld =>
  }

  /** Such a packet lies before the one that is gone. */
  lemma ResetGoesFarBack(c: Config, st: State, p: Packet, count: u16)
    requires Valid(c, st) && Marked(c, st) && LeavesBorder(c, st, p) && PlaceOf(c, st.win, p) == Behind(count)
    ensures count >= |st.win| + 2
  {
    assert SeqnoAt(st.win, |st.win| - 1);
  }

  lemma LeftwardsOwes(c: Config, win: seq<Slot>, gap: seq<Slot>, p: Packet)
    requires TailOwes(c, win) && |gap| >= 2 && forall i :: 0 <= i < |gap| ==> gap[i].Missing?
    ensures !InnerRight(c, Settle(c, gap + win, 0, p))
  {
    SettledSlots(c, gap + win, 0, p);
    assert !StartRight(c, Settle(c, gap + win, 0, p), |gap|);
  }

  lemma FarKeepsMarked(c: Config, st: State, p: Packet)
    requires Valid(c, st) && PlaceOf(c, st.win, p).Far?
    ensures Marked(c, PushEmpty(c, ReleaseAll(st), p))
  {
    var all := ReleaseAll(st);
    match AdvanceFloor(c, all, p)
    case None =>
    case Some(moved) => SingletonMarked(c, moved, p);
  }

  // ---- Runs ----

  predicate StepLeavesNone(c: Config, st: State, op: Op)
    requires EndsHeld(st.win)
  {
    op.PushOp? ==> !LeavesBorder(c, st, op.p)
  }

  /** No push of the run leaves a border whose packet is forgotten. */
  ghost predicate LeavesNone(c: Config, st: State, ops: seq<Op>)
    requires Inv(c, st) && Undrained(c, st, ops)
    decreases ops
  {
    ops == [] ||
    (StepLeavesNone(c, st, ops[0]) && (StepKeepsInv(c, st, ops[0]); LeavesNone(c, Step(c, st, ops[0]).0, ops[1..])))
  }

  /** Runs without resets are such runs. */
  lemma {:induction false} ResetlessLeavesNone(c: Config, st: State, ops: seq<Op>)
    requires Inv(c, st) && Undrained(c, st, ops) && Resetless(c, st, ops)
    ensures LeavesNone(c, st, ops)
    decreases ops
  {
    if ops == [] {
    } else {
      StepKeepsInv(c, st, ops[0]);
      ResetlessLeavesNone(c, Step(c, st, ops[0]).0, ops[1..]);
    }
  }

  lemma StepKeepsMarked(c: Config, st: State, op: Op)
    requires Inv(c, st) && Marked(c, st) && StepUndrained(c, st, op) && StepLeavesNone(c, st, op)
    ensures Marked(c, Step(c, st, op).0)
  {
    match op
    case PushOp(p) => PushKeepsMarked(c, st, p);
    case PopOp(force) =>
      PopTrims(c, st, force);
      TrimsKeepMarked(c, st, Pop(c, st, force).0);
  }

  lemma {:induction false} RunsKeepMarked(c: Config, st: State, ops: seq<Op>)
    requires Inv(c, st) && Marked(c, st) && Undrained(c, st, ops) && LeavesNone(c, st, ops)
    ensures Marked(c, Final(c, st, ops)) && Inv(c, Final(c, st, ops))
    decreases ops
  {
    if ops == [] {
    } else {
      StepKeepsInv(c, st, ops[0]);
      StepKeepsMarked(c, st, ops[0]);
      RunsKeepMarked(c, Step(c, st, ops[0]).0, ops[1..]);
    }
  }

  /** d is a frame by its packets: borders around it and none inside. */
  ghost predicate FrameByPackets(c: Config, at: State, d: seq<Packet>) {
    && 0 < |d| <= |at.win| && (forall i :: 0 <= i < |d| ==> at.win[i].Held? && at.win[i].packet == d[i])
    && (forall i :: 0 < i < |d| ==> !Divides(c, d[i-1], d[i]))
    && (c.IsEnd(d[|d| - 1]) || BorderAt(c, at.win, |d|))
    && (c.IsStart(d[0]) || at.floor == Some(Sub16(d[0].seqno, 1)))
  }

  lemma DeliveredByPackets(c: Config, at: State, d: seq<Packet>)
    requires Marked(c, at) && IsFrame(at.win, d)
    ensures FrameByPackets(c, at, d)
  {
    forall i | 0 < i < |d| ensures !Divides(c, d[i-1], d[i]) {
      assert EndRight(c, at.win, i - 1);
    }
    assert EndRight(c, at.win, |d| - 1);
  }

  /**
   * In any run from a new builder without a drain or a border left behind, a pop that delivers delivers a
   * frame by its packets: no end, no start and no change of timestamp inside; at its end an end, or a
   * packet behind it that starts or has another timestamp; at its start a start, or a packet before it
   * that is delivered or given up.
   */
  lemma DeliveryIsFrameByPackets(c: Config, ops: seq<Op>, force: bool)
    requires c.InRange() && Undrained(c, EMPTY, ops) && LeavesNone(c, EMPTY, ops)
    ensures var st := Final(c, EMPTY, ops);
      && EndsHeld(st.win)
      && (Pop(c, st, force).1 != [] ==> FrameByPackets(c, Settled(c, st, force), Pop(c, st, force).1))
  {
    RunsKeepMarked(c, EMPTY, ops);
    var st := Final(c, EMPTY, ops);
    if Pop(c, st, force).1 != [] {
      PopDeliversFrame(c, st, force);
      SettledTrims(c, st, force);
      TrimsKeepMarked(c, st, Settled(c, st, force));
      DeliveredByPackets(c, Settled(c, st, force), Pop(c, st, force).1);
    }
  }

  // ---- A border left behind ----

  /** Packets 10 and 11 of one timestamp, the first a frame of its own, then 7, then another 10, no end. */
  predicate LeftBehind(c: Config, p10: Packet, p11: Packet, p7: Packet, q10: Packet) {
    && c.maxLate == 2 && p10.seqno == 10 && p11.seqno == 11 && p7.seqno == 7 && q10.seqno == 10
    && p10.timestamp == p11.timestamp == q10.timestamp
    && c.IsStart(p10) && c.IsEnd(p10) && !c.IsStart(p11) && c.IsStart(q10) && !c.IsEnd(q10)
  }

  lemma TwoThenOne(c: Config, p10: Packet, p11: Packet, p7: Packet, q10: Packet) returns (two: State, one: State)
    requires LeftBehind(c, p10, p11, p7, q10)
    ensures EndsHeld(Push(c, EMPTY, p10).win) && two == Push(c, Push(c, EMPTY, p10), p11) && EndsHeld(two.win)
    ensures Pop(c, two, false) == (one, [p10])
    ensures one == EMPTY.(win := [Held(true, c.IsEnd(p11), p11)], floor := Some(10))
  {
    var first := Push(c, EMPTY, p10);
    assert first.win == [c.Fresh(p10)];
    two := Push(c, first, p11);
    assert two.win == [Held(true, true, p10)] + [Held(true, c.IsEnd(p11), p11)];
    assert Decide(c, two, false) == Deliver(0);
    assert FirstHeld(two.win, 1) == 1 && Group(two.win, 1) == [p10];
    one := Pop(c, two, false).0;
  }

  /**
   * Such a reset does happen: 10 is delivered, 7 resets the stream, and when another 10 comes, not the end of
   * a frame, the flag that 11 has from the first 10 makes it one; a pop delivers it alone.
   */
  lemma BorderLeftExample(c: Config, p10: Packet, p11: Packet, p7: Packet, q10: Packet)
    returns (two: State, one: State, reset: State, end: State)
    requires LeftBehind(c, p10, p11, p7, q10)
    ensures EndsHeld(Push(c, EMPTY, p10).win) && two == Push(c, Push(c, EMPTY, p10), p11) && EndsHeld(two.win)
    ensures Pop(c, two, false) == (one, [p10]) && EndsHeld(one.win)
    ensures LeavesBorder(c, one, p7) && reset == Push(c, one, p7) && EndsHeld(reset.win)
    ensures end == Push(c, reset, q10) && EndsHeld(end.win)
    ensures Pop(c, end, false).1 == [q10] && !c.IsEnd(q10) && !Divides(c, q10, p11)
  {
    two, one := TwoThenOne(c, p10, p11, p7, q10);
    reset := Push(c, one, p7);
    assert reset == one.(floor := None);
    end := Push(c, reset, q10);
    FillCases(c, reset, q10, 2);
    var wide := Gap(1) + reset.win;
    assert wide[0] == Missing && wide[1] == one.win[0];
    SettledSlots(c, wide, 0, q10);
    assert end.win[0] == Held(true, true, q10);
    assert Group(end.win, 1) == [q10];
  }
}
