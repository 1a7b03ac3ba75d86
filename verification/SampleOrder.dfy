/**
 * The distance between the floor and the buffer over any push and pop, and the lateness up to which
 * the floor only climbs in serial order.
 */
module SampleOrder {
  import opened Machine
  import opened SampleWindow
  import opened SampleInvariant
  import opened SampleDelivery

  // ---- How far the buffer runs ahead of the floor ----

  /** The tail is less than the capacity ahead of the floor. */
  ghost predicate Near(c: Config, st: State) {
    st.win != [] && st.win[0].Held? && st.floor.Some? ==>
      Sub16(st.win[0].packet.seqno, st.floor.value) < c.Cap()
  }

  ghost predicate Inv(c: Config, st: State) {
    Valid(c, st) && Near(c, st)
  }

  /** Distances from a floor to the window's slots, without wrapping. */
  lemma TrimmedNear(c: Config, st: State, st': State, k: nat, e: nat)
    requires Inv(c, st) && Trimmed(st.win, st', k, e)
    ensures Near(c, st')
    ensures st.floor.Some? ==> Sub16(st'.floor.value, st.floor.value) < 2 * c.Cap()
    ensures st.floor.Some? && 2 * c.Cap() <= 0x8000 ==>
      Sub16(st'.floor.value, st.floor.value) == Sub16(st.win[0].packet.seqno, st.floor.value) + k
  {
    assert SeqnoAt(st.win, k);
    if e < |st.win| {
      assert SeqnoAt(st.win, e);
    }
  }

  lemma AdvanceFloorNear(c: Config, st: State, p: Packet)
    requires Inv(c, st) && AdvanceFloor(c, st, p).Some?
    ensures Inv(c, AdvanceFloor(c, st, p).value)
    ensures var st' := AdvanceFloor(c, st, p).value;
      st.floor.Some? && st'.floor.Some? ==> Sub16(st'.floor.value, st.floor.value) < 0x8000
  {
  }

  lemma FirstNear(c: Config, st: State, p: Packet)
    requires Valid(c, st) && st.win == [] && AdvanceFloor(c, st, p).Some?
    ensures Near(c, AdvanceFloor(c, st, p).value.(win := [c.Fresh(p)]))
  {
  }

  // ---- Every loop of the builder only trims ----

  ghost predicate Trims(st: State, st': State) {
    st' == st || exists k: nat, e: nat :: Trimmed(st.win, st', k, e)
  }

  lemma TrimsTwice(a: State, b: State, d: State)
    requires Trims(a, b) && Trims(b, d)
    ensures Trims(a, d)
  {
    if a != b && b != d {
      var k1: nat, e1: nat :| Trimmed(a.win, b, k1, e1);
      var k2: nat, e2: nat :| Trimmed(b.win, d, k2, e2);
      TrimmedTwice(a.win, b, d, k1, e1, k2, e2);
    }
  }

  lemma DropIsTrim(st: State)
    requires st.win != [] && st.win[0].Held?
    ensures Trims(st, Drop(st))
  {
    var k, e := DropTrims(st);
  }

  lemma {:induction false} MakeSpaceTrims(c: Config, st: State, count: nat)
    requires HeadHeld(st.win)
    ensures MakeSpace(c, st, count).Some? ==> Trims(st, MakeSpace(c, st, count).value)
    decreases |st.win|
  {
    if st.win != [] && |st.win| + count + 1 >= c.Cap() {
      DropIsTrim(st);
      MakeSpaceTrims(c, Drop(st), count);
      if MakeSpace(c, st, count).Some? {
        TrimsTwice(st, Drop(st), MakeSpace(c, st, count).value);
      }
    }
  }

  lemma {:induction false} DropAllTrims(st: State)
    requires HeadHeld(st.win)
    ensures Trims(st, DropAll(st))
    decreases |st.win|
  {
    if st.win == [] {
    } else {
      DropIsTrim(st);
      DropAllTrims(Drop(st));
      TrimsTwice(st, Drop(st), DropAll(st));
    }
  }

  lemma {:induction false} ReleaseAllTrims(st: State)
    requires HeadHeld(st.win)
    ensures Trims(st, ReleaseAll(st))
    decreases |st.win|
  {
    if st.win == [] {
    } else {
      var e := ReleaseTrims(st);
      ReleaseAllTrims(Release(st, true));
      TrimsTwice(st, Release(st, true), ReleaseAll(st));
    }
  }

  lemma {:induction false} PopTrims(c: Config, st: State, force: bool)
    requires EndsHeld(st.win)
    ensures Trims(st, Pop(c, st, force).0)
    decreases |st.win|
  {
    if st.win == [] {
    } else {
      match Decide(c, st, force)
      case Wait =>
      case Discard =>
        DropIsTrim(st);
        PopTrims(c, Drop(st), force);
        TrimsTwice(st, Drop(st), Pop(c, st, force).0);
      case Deliver(last) =>
        var e := CutTrims(st, last);
    }
  }

  lemma TrimsNear(c: Config, st: State, st': State)
    requires Inv(c, st) && Trims(st, st')
    ensures Near(c, st') && (st.floor.Some? ==> st'.floor.Some?)
  {
    if st != st' {
      var k: nat, e: nat :| Trimmed(st.win, st', k, e);
      TrimmedNear(c, st, st', k, e);
    }
  }

  /** A push that drains nothing keeps the tail near the floor. */
  lemma PushKeepsInv(c: Config, st: State, p: Packet)
    requires Inv(c, st) && !Drains(c, st, p)
    ensures Inv(c, Push(c, st, p))
  {
    PushKeepsValid(c, st, p);
    if AdvanceFloor(c, st, p).Some? {
      AdvanceFloorNear(c, st, p);
      var moved := AdvanceFloor(c, st, p).value;
      match PlaceOf(c, st.win, p)
      case First => FirstNear(c, st, p);
      case Next => AppendNear(c, moved, p);
      case Ahead(count) =>
        if MakeSpace(c, moved, count).Some? {
          MakeSpaceTrims(c, moved, count);
          MakeSpaceDrains(c, moved, count);
          TrimsNear(c, moved, MakeSpace(c, moved, count).value);
        }
      case Far =>
        if AdvanceFloor(c, ReleaseAll(moved), p).Some? {
          FirstNear(c, ReleaseAll(moved), p);
        }
      case Behind(count) =>
        if count > |st.win| {
          ExtendingStaysAfterFloor(c, st, p, moved);
          ExtendingIsNearer(c, moved, p);
        }
      case TooOld =>
    }
  }

  lemma AppendToNear(c: Config, st: State, p: Packet)
    requires EndsHeld(st.win) && Near(c, st)
    requires st.win == [] && st.floor.Some? ==> p.seqno == Add16(st.floor.value, 1)
    requires 1 < c.Cap()
    ensures Near(c, AppendTo(c, st, p))
  {
  }

  lemma AppendNear(c: Config, st: State, p: Packet)
    requires Inv(c, st) && st.win != [] && PlaceOf(c, st.win, p) == Next
    ensures Near(c, Append(c, st, p))
  {
    DropIsTrim(st);
    TrimsNear(c, st, Drop(st));
    DropKeepsValid(c, st);
    AppendToNear(c, if |st.win| == c.Cap() then Drop(st) else st, p);
  }

  lemma ExtendingIsNearer(c: Config, st: State, p: Packet)
    requires Inv(c, st) && st.win != [] && PlaceOf(c, st.win, p).Behind?
    requires PlaceOf(c, st.win, p).count > |st.win| && AfterFloor(p.seqno, st.floor)
    ensures Near(c, Fill(c, st, p, PlaceOf(c, st.win, p).count))
  {
    var count := PlaceOf(c, st.win, p).count;
    assert SeqnoAt(st.win, |st.win| - 1);
    assert p.seqno == Sub16(st.win[0].packet.seqno, count - |st.win|);
    SettleSlots(c, Gap(count - |st.win|) + st.win, 0, p);
  }

  lemma PopKeepsInv(c: Config, st: State, force: bool)
    requires Inv(c, st)
    ensures Inv(c, Pop(c, st, force).0)
  {
    PopKeepsValid(c, st, force);
    PopTrims(c, st, force);
    TrimsNear(c, st, Pop(c, st, force).0);
  }

  // ---- The floor in serial order ----

  /** A stream reset: the packet is so late that the floor is forgotten. */
  predicate Resets(c: Config, st: State, p: Packet) {
    st.floor.Some? && Forward16(Sub16(st.floor.value, p.seqno)) && Sub16(st.floor.value, p.seqno) > c.maxLate
  }

  ghost predicate Climbs(st: State, st': State) {
    st.floor.Some? ==> st'.floor.Some? && Sub16(st'.floor.value, st.floor.value) < 0x8000
  }

  /** The largest lateness for which the newest packet always stays serially after the floor. */
  predicate Serial(c: Config) {
    c.maxLate <= 0x2000
  }

  lemma TrimsClimb(c: Config, st: State, st': State)
    requires Inv(c, st) && Serial(c) && Trims(st, st')
    ensures Climbs(st, st')
  {
    if st != st' {
      var k: nat, e: nat :| Trimmed(st.win, st', k, e);
      TrimmedNear(c, st, st', k, e);
    }
  }

  /** Moving the floor towards the tail, then trimming. */
  lemma AdvanceThenTrimClimbs(c: Config, st: State, p: Packet, st': State)
    requires Inv(c, st) && Serial(c) && !Resets(c, st, p) && AdvanceFloor(c, st, p).Some?
    requires Trims(AdvanceFloor(c, st, p).value, st')
    ensures Climbs(st, st')
  {
    AdvanceFloorNear(c, st, p);
    var moved := AdvanceFloor(c, st, p).value;
    if st' != moved && st.floor.Some? {
      var k: nat, e: nat :| Trimmed(moved.win, st', k, e);
      TrimmedNear(c, moved, st', k, e);
    }
  }

  lemma PushClimbs(c: Config, st: State, p: Packet)
    requires Inv(c, st) && Serial(c) && !Resets(c, st, p)
    ensures Climbs(st, Push(c, st, p))
  {
    if AdvanceFloor(c, st, p).Some? {
      AdvanceFloorNear(c, st, p);
      var moved := AdvanceFloor(c, st, p).value;
      AdvanceThenTrimClimbs(c, st, p, moved);
      match PlaceOf(c, st.win, p)
      case First =>
      case Next =>
        DropIsTrim(moved);
        AdvanceThenTrimClimbs(c, st, p, Drop(moved));
      case Ahead(count) =>
        MakeSpaceTrims(c, moved, count);
        DropAllTrims(moved);
        AdvanceThenTrimClimbs(c, st, p, InsertAheadRoom(c, moved, count));
      case Far => FarClimbs(c, st, p);
      case Behind(count) =>
      case TooOld =>
    }
  }

  function InsertAheadRoom(c: Config, st: State, count: nat): State
    requires HeadHeld(st.win)
  {
    match MakeSpace(c, st, count)
    case None => DropAll(st)
    case Some(room) => room
  }

  lemma FarClimbs(c: Config, st: State, p: Packet)
    requires Inv(c, st) && Serial(c) && !Resets(c, st, p)
    requires AdvanceFloor(c, st, p).Some? && PlaceOf(c, st.win, p).Far?
    ensures Climbs(st, PushEmpty(c, ReleaseAll(AdvanceFloor(c, st, p).value), p))
  {
    var moved := AdvanceFloor(c, st, p).value;
    AdvanceFloorKeepsValid(c, st, p);
    ReleaseAllFloor(c, moved);
    if st.floor.Some? {
      NewestAfterFloor(c, st);
      PushEmptyFloor(c, ReleaseAll(moved), p, st.floor.value);
    }
  }

  lemma NewestAfterFloor(c: Config, st: State)
    requires Inv(c, st) && Serial(c) && st.win != [] && st.floor.Some?
    ensures Sub16(Newest(st.win).seqno, st.floor.value) < 0x8000
  {
    assert SeqnoAt(st.win, |st.win| - 1);
  }

  lemma PushEmptyFloor(c: Config, st: State, p: Packet, floor: u16)
    requires c.InRange() && st.win == [] && st.floor.Some? && Sub16(st.floor.value, floor) < 0x8000
    requires p.seqno != st.floor.value ==> c.Cap() < Sub16(p.seqno, st.floor.value) < 0x8000
    requires !Forward16(Sub16(floor, p.seqno)) || p.seqno == st.floor.value
    ensures PushEmpty(c, st, p).floor.Some? && Sub16(PushEmpty(c, st, p).floor.value, floor) < 0x8000
  {
  }

  lemma {:induction false} ReleaseAllFloor(c: Config, st: State)
    requires Valid(c, st) && st.win != []
    ensures ReleaseAll(st).floor == Some(Newest(st.win).seqno)
    decreases |st.win|
  {
    ReleaseKeepsValid(c, st, true);
    if Release(st, true).win != [] {
      ReleaseAllFloor(c, Release(st, true));
    }
  }

  lemma PopClimbs(c: Config, st: State, force: bool)
    requires Inv(c, st) && Serial(c)
    ensures Climbs(st, Pop(c, st, force).0)
  {
    PopTrims(c, st, force);
    TrimsClimb(c, st, Pop(c, st, force).0);
  }
}
