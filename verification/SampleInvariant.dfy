/** The builder's check() invariant over every push and pop, and exactly when a push breaks it. */
module SampleInvariant {
  import opened Machine
  import opened SampleWindow

  // ---- Trimming the window keeps the invariant ----

  lemma SuffixFitsAgain(c: Config, win: seq<Slot>, floor: Option<u16>, e: nat, k: nat)
    requires Fits(c, win, floor) && k < e < |win| && win[e].Held? && win[k].Held?
    ensures Fits(c, win[e..], Some(win[k].packet.seqno))
  {
    var r := win[e..];
    assert SeqnoAt(win, e) && SeqnoAt(win, k);
    forall i | 0 <= i < |r| ensures SeqnoAt(r, i) {
      assert SeqnoAt(win, e + i);
    }
    forall i | 0 < i < |r| ensures FlagsAt(r, i) {
      assert FlagsAt(win, e + i);
    }
  }

  /** Trimming keeps the newest slot; once it is gone too, the floor is at its packet. */
  ghost predicate KeepsNewest(st: State, st': State)
    requires st.win != [] && st.win[|st.win| - 1].Held?
  {
    if st'.win == [] then st'.floor == Some(Newest(st.win).seqno)
    else st'.win[|st'.win| - 1] == st.win[|st.win| - 1]
  }

  lemma ReleaseKeepsValid(c: Config, st: State, report: bool)
    requires Valid(c, st) && st.win != []
    ensures Valid(c, Release(st, report)) && KeepsNewest(st, Release(st, report))
  {
    CutKeepsValid(c, st, 0);
  }

  lemma CutKeepsValid(c: Config, st: State, last: nat)
    requires Valid(c, st) && last < |st.win| && st.win[last].Held?
    ensures Valid(c, Cut(st, last)) && KeepsNewest(st, Cut(st, last))
  {
    var e := FirstHeld(st.win, last + 1);
    if e < |st.win| {
      SuffixFitsAgain(c, st.win, st.floor, e, last);
    }
  }

  lemma {:induction false} DropRestKeepsValid(c: Config, st: State, ts: u32)
    requires Valid(c, st)
    ensures Valid(c, DropRest(st, ts)) && (st.win != [] ==> KeepsNewest(st, DropRest(st, ts)))
    decreases |st.win|
  {
    if !(st.win == [] || st.win[0].start || st.win[0].packet.timestamp != ts) {
      ReleaseKeepsValid(c, st, true);
      DropRestKeepsValid(c, Release(st, true), ts);
    }
  }

  lemma DropKeepsValid(c: Config, st: State)
    requires Valid(c, st) && st.win != []
    ensures Valid(c, Drop(st)) && KeepsNewest(st, Drop(st))
  {
    var counted := Counted(st);
    ReleaseKeepsValid(c, counted, true);
    DropRestKeepsValid(c, Release(counted, true), st.win[0].packet.timestamp);
  }

  lemma {:induction false} MakeSpaceKeepsValid(c: Config, st: State, count: nat)
    requires Valid(c, st) && st.win != []
    ensures var r := MakeSpace(c, st, count);
      r.Some? ==> Valid(c, r.value) && (r.value == st || KeepsNewest(st, r.value))
    decreases |st.win|
  {
    if |st.win| + count + 1 >= c.Cap() {
      DropKeepsValid(c, st);
      if Drop(st).win != [] {
        MakeSpaceKeepsValid(c, Drop(st), count);
      }
    }
  }

  lemma {:induction false} DropAllKeepsValid(c: Config, st: State)
    requires Valid(c, st)
    ensures Valid(c, DropAll(st))
    decreases |st.win|
  {
    if st.win == [] {
    } else {
      DropKeepsValid(c, st);
      DropAllKeepsValid(c, Drop(st));
    }
  }

  // ---- The lateness test ----

  lemma AdvanceFloorKeepsValid(c: Config, st: State, p: Packet)
    requires Valid(c, st)
    ensures var r := AdvanceFloor(c, st, p); r.Some? ==> Valid(c, r.value)
  {
  }

  /** A packet placed before the tail is still after the floor. */
  lemma ExtendingStaysAfterFloor(c: Config, st: State, p: Packet, st': State)
    requires Valid(c, st) && AdvanceFloor(c, st, p) == Some(st') && st.win != []
    requires PlaceOf(c, st.win, p).Behind? && PlaceOf(c, st.win, p).count > |st.win|
    ensures AfterFloor(p.seqno, st'.floor)
  {
    var count := PlaceOf(c, st.win, p).count;
    assert SeqnoAt(st.win, |st.win| - 1);
    assert p.seqno == Sub16(st.win[0].packet.seqno, count - |st.win|);
  }

  /** A packet the empty builder accepts is after the floor. */
  lemma FirstStaysAfterFloor(c: Config, st: State, p: Packet)
    requires Valid(c, st) && st.win == [] && AdvanceFloor(c, st, p).Some?
    ensures AfterFloor(p.seqno, AdvanceFloor(c, st, p).value.floor)
  {
  }

  // ---- Insertions ----

  lemma SingletonFits(c: Config, s: Slot, floor: Option<u16>)
    requires c.InRange() && s.Held? && AfterFloor(s.packet.seqno, floor)
    ensures Fits(c, [s], floor)
  {
  }

  /** Adding a held slot after the newest one, any gap in between being Missing. */
  lemma ExtendFits(c: Config, win: seq<Slot>, floor: Option<u16>, gap: seq<Slot>, s: Slot)
    requires Fits(c, win, floor) && win != [] && s.Held? && |win| + |gap| < c.Cap()
    requires forall i :: 0 <= i < |gap| ==> gap[i].Missing?
    requires s.packet.seqno == Add16(win[|win| - 1].packet.seqno, |gap| + 1)
    requires gap == [] && win[|win| - 1].packet.timestamp != s.packet.timestamp ==> s.start && win[|win| - 1].end
    ensures Fits(c, win + gap + [s], floor)
  {
    var r := win + gap + [s];
    assert r[|r| - 1] == s && r[..|win|] == win;
    assert SeqnoAt(win, |win| - 1);
    forall i | 0 <= i < |r| ensures SeqnoAt(r, i) {
      assert i < |win| ==> SeqnoAt(win, i);
    }
    forall i | 0 < i < |r| ensures FlagsAt(r, i) {
      assert i < |win| ==> FlagsAt(win, i);
    }
  }

  /** Setting the end flag of the newest slot. */
  lemma ClosingFits(c: Config, win: seq<Slot>, floor: Option<u16>)
    requires Fits(c, win, floor) && win != []
    ensures Fits(c, win[|win| - 1 := win[|win| - 1].(end := true)], floor)
  {
    var r := win[|win| - 1 := win[|win| - 1].(end := true)];
    forall i | 0 <= i < |r| ensures SeqnoAt(r, i) {
      assert SeqnoAt(win, i);
    }
    forall i | 0 < i < |r| ensures FlagsAt(r, i) {
      assert FlagsAt(win, i);
    }
  }

  lemma AppendToKeepsValid(c: Config, st: State, p: Packet)
    requires Valid(c, st) && |st.win| < c.Cap()
    requires st.win == [] ==> AfterFloor(p.seqno, st.floor)
    requires st.win != [] ==> p.seqno == Add16(Newest(st.win).seqno, 1)
    ensures Valid(c, AppendTo(c, st, p))
  {
    if st.win == [] {
      SingletonFits(c, c.Fresh(p), st.floor);
    } else {
      var last := st.win[|st.win| - 1];
      var start := last.end || last.packet.timestamp != p.timestamp || c.IsStart(p);
      var win := st.win;
      if start {
        ClosingFits(c, win, st.floor);
        win := win[|win| - 1 := last.(end := true)];
      }
      ExtendFits(c, win, st.floor, [], Held(start, c.IsEnd(p), p));
      assert win + [] == win;
    }
  }

  lemma AppendKeepsValid(c: Config, st: State, p: Packet)
    requires Valid(c, st) && st.win != [] && PlaceOf(c, st.win, p) == Next
    ensures Valid(c, Append(c, st, p))
  {
    DropKeepsValid(c, st);
    AppendToKeepsValid(c, if |st.win| == c.Cap() then Drop(st) else st, p);
  }

  lemma FillKeepsValid(c: Config, st: State, p: Packet)
    requires Valid(c, st) && PlaceOf(c, st.win, p).Behind? && st.win != []
    requires PlaceOf(c, st.win, p).count > |st.win| ==> AfterFloor(p.seqno, st.floor)
    ensures Valid(c, Fill(c, st, p, PlaceOf(c, st.win, p).count))
  {
    var count := PlaceOf(c, st.win, p).count;
    var win := st.win;
    assert SeqnoAt(win, |win| - 1);
    if count <= |win| {
      var at := |win| - count;
      if win[at].Missing? {
        assert p.seqno == Add16(win[0].packet.seqno, at);
        SettleInside(c, win, st.floor, at, p);
      }
    } else {
      var gap := Gap(count - |win|);
      var longer := gap + win;
      assert longer[|gap|..] == win;
      SettleBefore(c, win, st.floor, gap, p);
    }
  }

  /** Filling a hole of the window. */
  lemma SettleInside(c: Config, win: seq<Slot>, floor: Option<u16>, at: nat, p: Packet)
    requires Fits(c, win, floor) && 0 < at < |win| - 1 && win[at].Missing?
    requires p.seqno == Add16(win[0].packet.seqno, at)
    ensures Fits(c, Settle(c, win, at, p), floor)
  {
    var r := Settle(c, win, at, p);
    SettleSlots(c, win, at, p);
    forall i | 0 <= i < |r| ensures SeqnoAt(r, i) {
      assert SeqnoAt(win, i);
    }
    assert FlagsRight(r) by {
      SettleFlags(c, win, at, p);
    }
  }

  /** Extending the window to the left, down to the packet filled in. */
  lemma SettleBefore(c: Config, win: seq<Slot>, floor: Option<u16>, gap: seq<Slot>, p: Packet)
    requires Fits(c, win, floor) && win != [] && gap != [] && |gap| + |win| < c.Cap()
    requires forall i :: 0 <= i < |gap| ==> gap[i] == Missing
    requires p.seqno == Sub16(win[0].packet.seqno, |gap|) && AfterFloor(p.seqno, floor)
    ensures Fits(c, Settle(c, gap + win, 0, p), floor)
  {
    var longer := gap + win;
    var r := Settle(c, longer, 0, p);
    SettleSlots(c, longer, 0, p);
    assert FlagsRight(longer) by {
      forall i | 0 < i < |longer| ensures FlagsAt(longer, i) {
        assert i > |gap| ==> FlagsAt(win, i - |gap|);
      }
    }
    assert FlagsRight(r) by {
      SettleFlags(c, longer, 0, p);
    }
    forall i | 0 <= i < |r| ensures SeqnoAt(r, i) {
      assert i >= |gap| ==> SeqnoAt(win, i - |gap|);
    }
  }

  /** Filling a slot changes that slot, and no packet elsewhere. */
  lemma SettleSlots(c: Config, win: seq<Slot>, at: nat, p: Packet)
    requires at + 1 < |win|
    ensures var r := Settle(c, win, at, p);
      && r[at].Held? && r[at].packet == p
      && forall i :: 0 <= i < |win| && i != at ==>
        && r[i].Held? == win[i].Held?
        && (win[i].Held? ==> r[i].packet == win[i].packet && (win[i].start ==> r[i].start) && (win[i].end ==> r[i].end))
  {
  }

  lemma SettleFlags(c: Config, win: seq<Slot>, at: nat, p: Packet)
    requires at + 1 < |win| && win[at].Missing? && FlagsRight(win)
    ensures FlagsRight(Settle(c, win, at, p))
  {
    var r := Settle(c, win, at, p);
    SettleSlots(c, win, at, p);
    forall i | 0 < i < |r| ensures FlagsAt(r, i) {
      assert FlagsAt(win, i);
    }
  }

  // ---- When the make-space loop drains the buffer ----

  /** The nearest held slot before i. */
  ghost function PrevHeld(win: seq<Slot>, i: nat): (j: nat)
    requires 0 < i <= |win| && win[0].Held?
    ensures j < i && win[j].Held? && forall k :: j < k < i ==> win[k].Missing?
  {
    if win[i-1].Held? then i - 1 else PrevHeld(win, i - 1)
  }

  /** Slot b is where dropping a frame stops: it is marked as a start, or its timestamp is new. */
  ghost predicate FrameStart(win: seq<Slot>, b: nat)
    requires HeadHeld(win)
  {
    0 < b < |win| && win[b].Held?
    && (win[b].start || win[b].packet.timestamp != win[PrevHeld(win, b)].packet.timestamp)
  }

  lemma SuffixFrameStarts(win: seq<Slot>, e: nat, b: nat)
    requires HeadHeld(win) && e < |win| && win[e].Held?
    ensures FrameStart(win[e..], b) <==> b > 0 && FrameStart(win, e + b)
  {
  }

  lemma {:induction false} FirstHeldShift(win: seq<Slot>, d: nat, from: nat)
    requires d + from <= |win|
    ensures d + FirstHeld(win[d..], from) == FirstHeld(win, d + from)
    decreases |win| - from
  {
  }

  lemma ReleaseAt(win: seq<Slot>, st: State, d: nat) returns (e: nat)
    requires d < |win| && st.win == win[d..] && win[d].Held?
    ensures d < e <= |win| && Release(st, true).win == win[e..] && HeadHeld(win[e..])
    ensures forall k :: d < k < e ==> win[k].Missing?
  {
    FirstHeldShift(win, d, 1);
    e := FirstHeld(win, d + 1);
  }

  lemma NoStartWithin(win: seq<Slot>, d: nat, d': nat)
    requires HeadHeld(win) && 0 < d < d' <= |win| && win[d].Held?
    requires !win[d].start && win[d].packet.timestamp == win[PrevHeld(win, d)].packet.timestamp
    requires forall k :: d < k < d' ==> win[k].Missing?
    ensures PrevHeld(win, d') == d && forall b :: d <= b < d' ==> !FrameStart(win, b)
  {
  }

  lemma {:induction false} DropRestCut(win: seq<Slot>, st: State, d: nat, ts: u32) returns (e: nat)
    requires HeadHeld(win) && 0 < d <= |win| && st.win == win[d..] && HeadHeld(st.win)
    requires ts == win[PrevHeld(win, d)].packet.timestamp
    ensures d <= e <= |win| && DropRest(st, ts).win == win[e..]
    ensures forall b :: d <= b < e ==> !FrameStart(win, b)
    ensures e < |win| ==> FrameStart(win, e)
    decreases |st.win|
  {
    if st.win != [] && !win[d].start && win[d].packet.timestamp == ts {
      var d' := ReleaseAt(win, st, d);
      NoStartWithin(win, d, d');
      e := DropRestCut(win, Release(st, true), d', ts);
    } else {
      e := d;
    }
  }

  /** Dropping a frame removes exactly the slots before the first frame start. */
  lemma DropCutsAtFrameStart(st: State) returns (e: nat)
    requires st.win != [] && st.win[0].Held?
    ensures 0 < e <= |st.win| && Drop(st).win == st.win[e..]
    ensures forall b :: 0 < b < e ==> !FrameStart(st.win, b)
    ensures e < |st.win| ==> FrameStart(st.win, e)
  {
    var counted := Counted(st);
    var d := ReleaseAt(st.win, counted, 0);
    assert PrevHeld(st.win, d) == 0;
    e := DropRestCut(st.win, Release(counted, true), d, st.win[0].packet.timestamp);
  }

  /** No frame start is close enough to the head for count missing packets to fit behind it. */
  ghost predicate NoFrameFits(c: Config, win: seq<Slot>, count: nat)
    requires HeadHeld(win)
  {
    && count + 1 < c.Cap() <= |win| + count + 1
    && forall b :: FrameStart(win, b) ==> |win| - b + count + 1 >= c.Cap()
  }

  lemma {:induction false} MakeSpaceDrains(c: Config, st: State, count: nat)
    requires HeadHeld(st.win) && st.win != []
    ensures MakeSpace(c, st, count).Some? && MakeSpace(c, st, count).value.win == [] <==> NoFrameFits(c, st.win, count)
    decreases |st.win|
  {
    var win := st.win;
    if |win| + count + 1 >= c.Cap() {
      var e := DropCutsAtFrameStart(st);
      if e < |win| {
        MakeSpaceDrains(c, Drop(st), count);
        SuffixFits(c, win, e, count);
      }
    }
  }

  lemma SuffixFits(c: Config, win: seq<Slot>, e: nat, count: nat)
    requires HeadHeld(win) && FrameStart(win, e) && |win| + count + 1 >= c.Cap()
    requires forall b :: 0 < b < e ==> !FrameStart(win, b)
    ensures NoFrameFits(c, win, count) <==> |win| - e + count + 1 >= c.Cap() && NoFrameFits(c, win[e..], count)
  {
    forall b: nat ensures FrameStart(win[e..], b) <==> b > 0 && FrameStart(win, e + b) {
      SuffixFrameStarts(win, e, b);
    }
    if |win| - e + count + 1 >= c.Cap() && NoFrameFits(c, win[e..], count) {
      forall b: nat | FrameStart(win, b) ensures |win| - b + count + 1 >= c.Cap() {
        assert b > e ==> FrameStart(win[e..], b - e);
      }
    }
    if NoFrameFits(c, win, count) {
      forall b: nat | FrameStart(win[e..], b) ensures |win[e..]| - b + count + 1 >= c.Cap() {
        assert FrameStart(win, e + b);
      }
    }
  }

  lemma InsertAheadKeepsValid(c: Config, st: State, p: Packet)
    requires Valid(c, st) && st.win != [] && PlaceOf(c, st.win, p).Ahead?
    ensures Valid(c, InsertAhead(c, st, p, PlaceOf(c, st.win, p).count))
      <==> !NoFrameFits(c, st.win, PlaceOf(c, st.win, p).count)
  {
    var count := PlaceOf(c, st.win, p).count;
    MakeSpaceDrains(c, st, count);
    match MakeSpace(c, st, count)
    case None => DropAllKeepsValid(c, st);
    case Some(room) =>
      if room.win == [] {
        GapFirstDoesNotFit(c, room.floor, count, c.Fresh(p));
      } else {
        RoomFits(c, st, p, count, room);
      }
  }

  lemma RoomFits(c: Config, st: State, p: Packet, count: nat, room: State)
    requires Valid(c, st) && st.win != [] && MakeSpace(c, st, count) == Some(room) && room.win != []
    requires 0 < count < c.Cap() && p.seqno == Add16(Newest(st.win).seqno, count + 1)
    ensures Fits(c, room.win + Gap(count) + [c.Fresh(p)], room.floor)
  {
    MakeSpaceKeepsValid(c, st, count);
    StoredFits(c, room, p, count);
  }

  lemma StoredFits(c: Config, room: State, p: Packet, count: nat)
    requires Valid(c, room) && room.win != [] && 0 < count && |room.win| + count + 1 < c.Cap()
    requires p.seqno == Add16(Newest(room.win).seqno, count + 1)
    ensures Fits(c, room.win + Gap(count) + [c.Fresh(p)], room.floor)
  {
    ExtendFits(c, room.win, room.floor, Gap(count), c.Fresh(p));
  }

  lemma GapFirstDoesNotFit(c: Config, floor: Option<u16>, count: nat, s: Slot)
    requires count > 0
    ensures !Fits(c, [] + Gap(count) + [s], floor)
  {
  }

  /**
   * The guard of the branch that fails: the packet is accepted, lies count packets ahead of the
   * newest one, count fits the buffer, but no buffered frame fits beside the gap.
   */
  ghost predicate Drains(c: Config, st: State, p: Packet)
    requires Valid(c, st)
  {
    && AdvanceFloor(c, st, p).Some?
    && PlaceOf(c, st.win, p).Ahead?
    && NoFrameFits(c, st.win, PlaceOf(c, st.win, p).count)
  }

  /** A push keeps the invariant exactly when it does not drain the buffer. */
  lemma PushKeepsValid(c: Config, st: State, p: Packet)
    requires Valid(c, st)
    ensures Valid(c, Push(c, st, p)) <==> !Drains(c, st, p)
  {
    AdvanceFloorKeepsValid(c, st, p);
    match AdvanceFloor(c, st, p)
    case None =>
    case Some(moved) =>
      match PlaceOf(c, st.win, p)
      case First =>
        FirstStaysAfterFloor(c, st, p);
        SingletonFits(c, c.Fresh(p), moved.floor);
      case Next => AppendKeepsValid(c, moved, p);
      case Ahead(count) => InsertAheadKeepsValid(c, moved, p);
      case Far =>
        var all := ReleaseAll(moved);
        if AdvanceFloor(c, all, p).Some? {
          FirstStaysAfterFloor(c, all, p);
          SingletonFits(c, c.Fresh(p), AdvanceFloor(c, all, p).value.floor);
        }
      case Behind(count) =>
        if count > |st.win| {
          ExtendingStaysAfterFloor(c, st, p, moved);
        }
        FillKeepsValid(c, moved, p);
      case TooOld =>
  }

  // ---- Popping ----

  lemma {:induction false} PopKeepsValid(c: Config, st: State, force: bool)
    requires Valid(c, st)
    ensures Valid(c, Pop(c, st, force).0)
    decreases |st.win|
  {
    if st.win == [] {
    } else {
      match Decide(c, st, force)
      case Wait =>
      case Discard =>
        DropKeepsValid(c, st);
        PopKeepsValid(c, Drop(st), force);
      case Deliver(last) =>
        CutKeepsValid(c, st, last);
    }
  }
}
