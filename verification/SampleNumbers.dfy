/**
 * Extended sequence numbers: every accepted packet is numbered from the pushes alone, and the window
 * is proved to hold each packet at its number while the floor only moves up.
 */
module SampleNumbers {
  import opened Machine
  import opened SampleWindow
  import opened SampleInvariant
  import opened SampleDelivery
  import opened SampleOrder

  /** An accepted packet with its extended sequence number. */
  datatype Entry = Entry(number: int, packet: Packet)

  /** How far b lies ahead of a, negative if it lies behind; half the circle counts as ahead. */
  function Distance(a: u16, b: u16): int {
    if Sub16(b, a) <= 0x8000 then Sub16(b, a) else Sub16(b, a) - 0x1_0000
  }

  /** The number of a packet, given the highest number so far. */
  function Extended(top: Option<int>, p: Packet): (r: int)
    ensures r % 0x1_0000 == p.seqno
  {
    if top.None? then p.seqno else top.value + Distance(top.value % 0x1_0000, p.seqno)
  }

  function Raised(top: Option<int>, number: int): Option<int> {
    if top.Some? && top.value > number then top else Some(number)
  }

  /**
   * The packets a push discards without a trace: refused as late, too old for the buffer, one that
   * needs the whole buffer as its gap, or the newest packet over again.
   */
  predicate Ignored(c: Config, st: State, p: Packet)
    requires c.InRange() && EndsHeld(st.win)
  {
    AdvanceFloor(c, st, p).None? || Unplaced(c, st.win, p)
  }

  predicate Unplaced(c: Config, win: seq<Slot>, p: Packet)
    requires EndsHeld(win)
  {
    match PlaceOf(c, win, p)
    case TooOld => true
    case Ahead(count) => count + 1 >= c.Cap()
    case Far => p.seqno == Newest(win).seqno
    case _ => false
  }

  /** top numbers the newest packet buffered, or the floor once the buffer is empty. */
  ghost predicate Numbered(st: State, top: Option<int>)
    requires EndsHeld(st.win)
  {
    && (top.None? <==> st.win == [] && st.floor.None?)
    && (st.win != [] ==> top.value % 0x1_0000 == Newest(st.win).seqno)
    && (st.win == [] && st.floor.Some? ==> top.value % 0x1_0000 == st.floor.value)
  }

  ghost function Base(st: State, top: Option<int>): int
    requires top.Some?
  {
    top.value - |st.win| + 1
  }

  /** The packet is buffered in the slot of its number. */
  ghost predicate Holds(st: State, top: Option<int>, e: Entry) {
    top.Some? &&
    var i := e.number - Base(st, top);
    0 <= i < |st.win| && st.win[i].Held? && st.win[i].packet == e.packet
  }

  /** The number of the floor: the one below the buffered packets that is congruent to it. */
  ghost function FloorAt(st: State, top: Option<int>): int
    requires HeadHeld(st.win) && top.Some? && st.floor.Some?
  {
    if st.win == [] then top.value else Base(st, top) - Sub16(st.win[0].packet.seqno, st.floor.value)
  }

  /** The floor does not move back, and the window holds nothing new but e. */
  ghost predicate Rises(st: State, top: Option<int>, st': State, top': Option<int>, e: Option<Entry>) {
    && EndsHeld(st.win) && Numbered(st, top)
    && EndsHeld(st'.win) && Numbered(st', top')
    && (st.floor.Some? ==> st'.floor.Some? && FloorAt(st, top) <= FloorAt(st', top'))
    && forall x :: Holds(st', top', x) ==> Holds(st, top, x) || e == Some(x)
  }

  lemma TrimmedRises(c: Config, st: State, top: Option<int>, st': State, k: nat, e: nat)
    requires Valid(c, st) && Numbered(st, top) && Trimmed(st.win, st', k, e)
    ensures Rises(st, top, st', top, None)
    ensures FloorAt(st', top) == Base(st, top) + k
  {
    assert SeqnoAt(st.win, k) && SeqnoAt(st.win, |st.win| - 1);
    if e < |st.win| {
      assert SeqnoAt(st.win, e);
    } else {
      assert k == |st.win| - 1;
    }
  }

  lemma TrimsRises(c: Config, st: State, top: Option<int>, st': State)
    requires Valid(c, st) && Numbered(st, top) && Trims(st, st')
    ensures Rises(st, top, st', top, None)
  {
    if st != st' {
      var k: nat, e: nat :| Trimmed(st.win, st', k, e);
      TrimmedRises(c, st, top, st', k, e);
    }
  }

  // ---- Pushing ----

  /** Moving the floor towards the tail of a buffer that is not empty. */
  lemma AdvanceRises(c: Config, st: State, top: Option<int>, p: Packet)
    requires Valid(c, st) && Numbered(st, top) && st.win != []
    requires AdvanceFloor(c, st, p).Some? && !Resets(c, st, p)
    ensures Rises(st, top, AdvanceFloor(c, st, p).value, top, None)
  {
  }

  lemma FirstRises(c: Config, st: State, top: Option<int>, p: Packet)
    requires Valid(c, st) && Numbered(st, top) && st.win == []
    requires AdvanceFloor(c, st, p).Some? && !Resets(c, st, p)
    ensures var e := Extended(top, p);
      Rises(st, top, PushEmpty(c, st, p), Raised(top, e), Some(Entry(e, p)))
  {
  }

  lemma AppendToRises(c: Config, st: State, top: Option<int>, p: Packet)
    requires Valid(c, st) && Numbered(st, top) && top.Some? && p.seqno == Add16(top.value % 0x1_0000, 1)
    ensures Rises(st, top, AppendTo(c, st, p), Raised(top, Extended(top, p)), Some(Entry(top.value + 1, p)))
    ensures Extended(top, p) == top.value + 1
  {
  }

  lemma RoomRises(c: Config, st: State, top: Option<int>, p: Packet, count: nat)
    requires Valid(c, st) && Numbered(st, top) && st.win != [] && count < 0x8000
    requires p.seqno == Add16(Newest(st.win).seqno, count + 1) && Forward16(Sub16(p.seqno, Newest(st.win).seqno))
    ensures var e := Extended(top, p);
      Rises(st, top, st.(win := st.win + Gap(count) + [c.Fresh(p)]), Raised(top, e), Some(Entry(e, p)))
  {
  }

  lemma FillRises(c: Config, st: State, top: Option<int>, p: Packet)
    requires Valid(c, st) && Numbered(st, top) && PlaceOf(c, st.win, p).Behind? && st.win != []
    requires PlaceOf(c, st.win, p).count > |st.win| ==> AfterFloor(p.seqno, st.floor)
    ensures var e := Extended(top, p);
      Rises(st, top, Fill(c, st, p, PlaceOf(c, st.win, p).count), Raised(top, e), Some(Entry(e, p)))
  {
    var count := PlaceOf(c, st.win, p).count;
    BehindNumber(c, st, top, p);
    FillCases(c, st, p, count);
    if count > |st.win| {
      LeftwardsRises(c, st, top, p, Gap(count - |st.win|));
    } else {
      InsideRises(c, st, top, p, |st.win| - count);
    }
  }

  lemma FillCases(c: Config, st: State, p: Packet, count: nat)
    requires 2 <= count && HeadHeld(st.win) && st.win != []
    ensures Fill(c, st, p, count) ==
      if count > |st.win| then st.(win := Settle(c, Gap(count - |st.win|) + st.win, 0, p))
      else FillAt(c, st, |st.win| - count, p)
  {
  }

  lemma BehindNumber(c: Config, st: State, top: Option<int>, p: Packet)
    requires Valid(c, st) && Numbered(st, top) && PlaceOf(c, st.win, p).Behind? && st.win != []
    ensures var count := PlaceOf(c, st.win, p).count;
      && Extended(top, p) == top.value - count + 1 <= top.value
      && (count > |st.win| ==> p.seqno == Sub16(st.win[0].packet.seqno, count - |st.win|))
  {
    assert SeqnoAt(st.win, |st.win| - 1);
  }

  lemma InsideRises(c: Config, st: State, top: Option<int>, p: Packet, at: nat)
    requires Valid(c, st) && Numbered(st, top) && at + 1 < |st.win|
    ensures Rises(st, top, FillAt(c, st, at, p), top, Some(Entry(Base(st, top) + at, p)))
  {
    if st.win[at].Missing? {
      SettleSlots(c, st.win, at, p);
    }
  }

  lemma LeftwardsRises(c: Config, st: State, top: Option<int>, p: Packet, gap: seq<Slot>)
    requires Valid(c, st) && Numbered(st, top) && st.win != []
    requires 0 < |gap| < 0x8000 && forall i :: 0 <= i < |gap| ==> gap[i] == Missing
    requires p.seqno == Sub16(st.win[0].packet.seqno, |gap|) && AfterFloor(p.seqno, st.floor)
    ensures Rises(st, top, st.(win := Settle(c, gap + st.win, 0, p)), top, Some(Entry(Base(st, top) - |gap|, p)))
  {
    var st' := st.(win := Settle(c, gap + st.win, 0, p));
    SettleSlots(c, gap + st.win, 0, p);
    assert st'.floor.Some? ==> FloorAt(st', top) == FloorAt(st, top);
    forall x ensures Holds(st', top, x) ==> Holds(st, top, x) || x == Entry(Base(st, top) - |gap|, p) {
      LeftwardsHolds(c, st, top, p, gap, x);
    }
  }

  lemma LeftwardsHolds(c: Config, st: State, top: Option<int>, p: Packet, gap: seq<Slot>, x: Entry)
    requires top.Some? && st.win != [] && gap != [] && forall i :: 0 <= i < |gap| ==> gap[i] == Missing
    ensures Holds(st.(win := Settle(c, gap + st.win, 0, p)), top, x) ==>
      Holds(st, top, x) || x == Entry(Base(st, top) - |gap|, p)
  {
    SettleSlots(c, gap + st.win, 0, p);
  }

  lemma RisesTwice(st1: State, top1: Option<int>, st2: State, st3: State, top3: Option<int>, e: Option<Entry>)
    requires Rises(st1, top1, st2, top1, None) && Rises(st2, top1, st3, top3, e)
    ensures Rises(st1, top1, st3, top3, e)
  {
  }

  /** Over any push that neither drains nor resets, the floor's number does not fall. */
  lemma PushRises(c: Config, st: State, top: Option<int>, p: Packet)
    requires Inv(c, st) && Numbered(st, top) && !Drains(c, st, p) && !Resets(c, st, p)
    ensures var e := Extended(top, p);
      if Ignored(c, st, p) then Rises(st, top, Push(c, st, p), top, None)
      else Rises(st, top, Push(c, st, p), Raised(top, e), Some(Entry(e, p)))
  {
    if AdvanceFloor(c, st, p).Some? {
      if st.win == [] {
        FirstRises(c, st, top, p);
      } else {
        var moved := AdvanceFloor(c, st, p).value;
        AdvanceFloorKeepsValid(c, st, p);
        AdvanceRises(c, st, top, p);
        PlacedRises(c, st, top, moved, p);
      }
    }
  }

  lemma PlacedRises(c: Config, st: State, top: Option<int>, moved: State, p: Packet)
    requires Valid(c, st) && st.win != [] && !Drains(c, st, p) && AdvanceFloor(c, st, p) == Some(moved)
    requires Valid(c, moved) && Rises(st, top, moved, top, None)
    ensures var e := Extended(top, p);
      if Unplaced(c, st.win, p) then Rises(st, top, Insert(c, moved, p), top, None)
      else Rises(st, top, Insert(c, moved, p), Raised(top, e), Some(Entry(e, p)))
  {
    var e := Extended(top, p);
    var r := Insert(c, moved, p);
    match PlaceOf(c, st.win, p)
    case Next =>
      AppendRises(c, moved, top, p);
      RisesTwice(st, top, moved, r, Raised(top, e), Some(Entry(e, p)));
    case Ahead(count) =>
      AheadRises(c, moved, top, p, count);
      if count + 1 < c.Cap() {
        RisesTwice(st, top, moved, r, Raised(top, e), Some(Entry(e, p)));
      } else {
        RisesTwice(st, top, moved, r, top, None);
      }
    case Far =>
      FarRises(c, moved, top, p);
      if p.seqno == Newest(st.win).seqno {
        RisesTwice(st, top, moved, r, top, None);
      } else {
        RisesTwice(st, top, moved, r, Raised(top, e), Some(Entry(e, p)));
      }
    case Behind(count) =>
      if count > |st.win| {
        ExtendingStaysAfterFloor(c, st, p, moved);
      }
      FillRises(c, moved, top, p);
      RisesTwice(st, top, moved, r, Raised(top, e), Some(Entry(e, p)));
    case TooOld =>
  }

  lemma AppendRises(c: Config, st: State, top: Option<int>, p: Packet)
    requires Valid(c, st) && Numbered(st, top) && st.win != [] && PlaceOf(c, st.win, p) == Next
    ensures var e := Extended(top, p);
      Rises(st, top, Append(c, st, p), Raised(top, e), Some(Entry(e, p)))
  {
    var e := Extended(top, p);
    AppendToRises(c, st, top, p);
    if |st.win| == c.Cap() {
      DropRises(c, st, top);
      AppendToRises(c, Drop(st), top, p);
      RisesTwice(st, top, Drop(st), Append(c, st, p), Raised(top, e), Some(Entry(e, p)));
    }
  }

  lemma DropRises(c: Config, st: State, top: Option<int>)
    requires Valid(c, st) && Numbered(st, top) && st.win != []
    ensures Valid(c, Drop(st)) && Rises(st, top, Drop(st), top, None)
  {
    DropIsTrim(st);
    DropKeepsValid(c, st);
    TrimsRises(c, st, top, Drop(st));
  }

  lemma AheadRises(c: Config, st: State, top: Option<int>, p: Packet, count: u16)
    requires Valid(c, st) && Numbered(st, top) && st.win != [] && PlaceOf(c, st.win, p) == Ahead(count)
    requires !NoFrameFits(c, st.win, count)
    ensures var e := Extended(top, p);
      if count + 1 >= c.Cap() then Rises(st, top, InsertAhead(c, st, p, count), top, None)
      else Rises(st, top, InsertAhead(c, st, p, count), Raised(top, e), Some(Entry(e, p)))
  {
    match MakeSpace(c, st, count)
    case None =>
      NoRoom(c, st, count);
      DropAllTrims(st);
      TrimsRises(c, st, top, DropAll(st));
    case Some(room) =>
      MadeRises(c, st, top, p, count, room);
  }

  lemma {:induction false} NoRoom(c: Config, st: State, count: nat)
    requires HeadHeld(st.win)
    ensures MakeSpace(c, st, count).None? <==> count + 1 >= c.Cap()
    decreases |st.win|
  {
    if st.win != [] && |st.win| + count + 1 >= c.Cap() {
      NoRoom(c, Drop(st), count);
    }
  }

  lemma MadeRises(c: Config, st: State, top: Option<int>, p: Packet, count: u16, room: State)
    requires Valid(c, st) && Numbered(st, top) && st.win != [] && PlaceOf(c, st.win, p) == Ahead(count)
    requires !NoFrameFits(c, st.win, count) && MakeSpace(c, st, count) == Some(room)
    ensures var e := Extended(top, p);
      && count + 1 < c.Cap()
      && Rises(st, top, InsertAhead(c, st, p, count), Raised(top, e), Some(Entry(e, p)))
  {
    var e := Extended(top, p);
    MakeSpaceTrims(c, st, count);
    MakeSpaceKeepsValid(c, st, count);
    MakeSpaceDrains(c, st, count);
    TrimsRises(c, st, top, room);
    RoomRises(c, room, top, p, count);
    RisesTwice(st, top, room, InsertAhead(c, st, p, count), Raised(top, e), Some(Entry(e, p)));
  }

  lemma FarRises(c: Config, st: State, top: Option<int>, p: Packet)
    requires Valid(c, st) && Numbered(st, top) && PlaceOf(c, st.win, p).Far?
    ensures var e := Extended(top, p);
      if p.seqno == Newest(st.win).seqno then Rises(st, top, PushEmpty(c, ReleaseAll(st), p), top, None)
      else Rises(st, top, PushEmpty(c, ReleaseAll(st), p), Raised(top, e), Some(Entry(e, p)))
  {
    var e := Extended(top, p);
    var empty := ReleaseAll(st);
    ReleaseAllFloor(c, st);
    ReleaseAllTrims(st);
    TrimsRises(c, st, top, empty);
    if p.seqno == Newest(st.win).seqno {
      assert PushEmpty(c, empty, p) == empty;
    } else {
      AheadOfFloor(c, empty, p);
      FirstRises(c, empty, top, p);
      RisesTwice(st, top, empty, PushEmpty(c, empty, p), Raised(top, e), Some(Entry(e, p)));
    }
  }

  lemma AheadOfFloor(c: Config, st: State, p: Packet)
    requires c.InRange() && st.win == [] && st.floor.Some? && 0 < Sub16(p.seqno, st.floor.value) < 0x8000
    ensures AdvanceFloor(c, st, p).Some? && !Resets(c, st, p)
  {
  }
}
