/** What becomes of every packet pushed, and the pushes on which the builder goes wrong. */
module SampleLosses {
  import opened Machine
  import opened SampleWindow
  import opened SampleInvariant
  import opened SampleDelivery
  import opened SampleOrder
  import opened SampleNumbers
  import opened SampleRuns

  // ---- Conservation, counted for one packet value x ----

  function Copies(win: seq<Slot>, x: Packet): nat {
    if win == [] then 0
    else (if win[0].Held? && win[0].packet == x then 1 else 0) + Copies(win[1..], x)
  }

  function Copy(p: Packet, x: Packet): nat {
    if p == x then 1 else 0
  }

  /** Copies of x reported released so far or still buffered. */
  function Account(st: State, x: Packet): nat {
    multiset(st.released)[x] + Copies(st.win, x)
  }

  lemma {:induction false} CopiesConcat(a: seq<Slot>, b: seq<Slot>, x: Packet)
    ensures Copies(a + b, x) == Copies(a, x) + Copies(b, x)
  {
    if a == [] {
      assert a + b == b;
    } else {
      assert (a + b)[1..] == a[1..] + b;
      CopiesConcat(a[1..], b, x);
    }
  }

  lemma {:induction false} CopiesOfGap(gap: seq<Slot>, x: Packet)
    requires forall i :: 0 <= i < |gap| ==> gap[i].Missing?
    ensures Copies(gap, x) == 0
  {
    if gap == [] {
    } else {
      CopiesOfGap(gap[1..], x);
    }
  }

  lemma {:induction false} CopiesSkip(win: seq<Slot>, from: nat, x: Packet)
    requires from <= |win|
    ensures Copies(win[FirstHeld(win, from)..], x) == Copies(win[from..], x)
    decreases |win| - from
  {
    if from < |win| && win[from].Missing? {
      assert win[from..][1..] == win[from+1..];
      CopiesSkip(win, from + 1, x);
    }
  }

  /** The same packets in the same slots; the flags may differ. */
  ghost predicate SamePackets(a: seq<Slot>, b: seq<Slot>) {
    |a| == |b| && forall i :: 0 <= i < |a| ==> a[i].Held? == b[i].Held? && (a[i].Held? ==> a[i].packet == b[i].packet)
  }

  lemma {:induction false} CopiesSame(a: seq<Slot>, b: seq<Slot>, x: Packet)
    requires SamePackets(a, b)
    ensures Copies(a, x) == Copies(b, x)
  {
    if a == [] {
    } else {
      CopiesSame(a[1..], b[1..], x);
    }
  }

  lemma {:induction false} CopiesDelivered(win: seq<Slot>, n: nat, x: Packet)
    requires n <= |win| && forall i :: 0 <= i < n ==> win[i].Held?
    ensures multiset(Group(win, n))[x] == Copies(win[..n], x)
  {
    if n > 0 {
      CopiesDelivered(win, n - 1, x);
      assert Group(win, n) == Group(win, n - 1) + [win[n-1].packet];
      assert win[..n] == win[..n-1] + [win[n-1]];
      CopiesConcat(win[..n-1], [win[n-1]], x);
      assert Copies([win[n-1]], x) == Copy(win[n-1].packet, x);
    }
  }

  // ---- Trimming ----

  lemma ReleaseConserves(st: State, x: Packet)
    requires st.win != [] && st.win[0].Held?
    ensures Account(Release(st, true), x) == Account(st, x)
  {
    CopiesSkip(st.win, 1, x);
  }

  lemma {:induction false} DropRestConserves(st: State, ts: u32, x: Packet)
    requires HeadHeld(st.win)
    ensures Account(DropRest(st, ts), x) == Account(st, x)
    decreases |st.win|
  {
    if !(st.win == [] || st.win[0].start || st.win[0].packet.timestamp != ts) {
      ReleaseConserves(st, x);
      DropRestConserves(Release(st, true), ts, x);
    }
  }

  lemma DropConserves(st: State, x: Packet)
    requires st.win != [] && st.win[0].Held?
    ensures Account(Drop(st), x) == Account(st, x)
  {
    var counted := Counted(st);
    ReleaseConserves(counted, x);
    DropRestConserves(Release(counted, true), st.win[0].packet.timestamp, x);
  }

  lemma {:induction false} DropAllConserves(st: State, x: Packet)
    requires HeadHeld(st.win)
    ensures Account(DropAll(st), x) == Account(st, x)
    decreases |st.win|
  {
    if st.win == [] {
    } else {
      DropConserves(st, x);
      DropAllConserves(Drop(st), x);
    }
  }

  lemma {:induction false} ReleaseAllConserves(st: State, x: Packet)
    requires HeadHeld(st.win)
    ensures Account(ReleaseAll(st), x) == Account(st, x)
    decreases |st.win|
  {
    if st.win == [] {
    } else {
      ReleaseConserves(st, x);
      ReleaseAllConserves(Release(st, true), x);
    }
  }

  lemma {:induction false} MakeSpaceConserves(c: Config, st: State, count: nat, x: Packet)
    requires HeadHeld(st.win)
    ensures MakeSpace(c, st, count).Some? ==> Account(MakeSpace(c, st, count).value, x) == Account(st, x)
    decreases |st.win|
  {
    if st.win != [] && |st.win| + count + 1 >= c.Cap() {
      DropConserves(st, x);
      MakeSpaceConserves(c, Drop(st), count, x);
    }
  }

  // ---- Pushing ----

  lemma CopiesAdded(win: seq<Slot>, closed: seq<Slot>, s: Slot, x: Packet)
    requires SamePackets(closed, win) && s.Held?
    ensures Copies(closed + [s], x) == Copies(win, x) + Copy(s.packet, x)
  {
    CopiesSame(closed, win, x);
    CopiesConcat(closed, [s], x);
    assert Copies([s], x) == Copy(s.packet, x);
  }

  lemma AppendToConserves(c: Config, st: State, p: Packet, x: Packet)
    requires EndsHeld(st.win)
    ensures Account(AppendTo(c, st, p), x) == Account(st, x) + Copy(p, x)
  {
    if st.win == [] {
      assert Copies([c.Fresh(p)], x) == Copy(p, x);
    } else {
      var last := st.win[|st.win| - 1];
      var start := last.end || last.packet.timestamp != p.timestamp || c.IsStart(p);
      var closed := if start then st.win[|st.win| - 1 := last.(end := true)] else st.win;
      CopiesAdded(st.win, closed, Held(start, c.IsEnd(p), p), x);
    }
  }

  lemma AppendConserves(c: Config, st: State, p: Packet, x: Packet)
    requires st.win != [] && EndsHeld(st.win)
    ensures Account(Append(c, st, p), x) == Account(st, x) + Copy(p, x)
  {
    DropConserves(st, x);
    AppendToConserves(c, if |st.win| == c.Cap() then Drop(st) else st, p, x);
  }

  lemma InsertAheadConserves(c: Config, st: State, p: Packet, count: nat, x: Packet)
    requires HeadHeld(st.win)
    ensures Account(InsertAhead(c, st, p, count), x) == Account(st, x) + if count + 1 >= c.Cap() then 0 else Copy(p, x)
  {
    NoRoom(c, st, count);
    MakeSpaceConserves(c, st, count, x);
    DropAllConserves(st, x);
    if MakeSpace(c, st, count).Some? {
      CopiesAhead(MakeSpace(c, st, count).value.win, count, c.Fresh(p), x);
    }
  }

  lemma CopiesAhead(win: seq<Slot>, count: nat, s: Slot, x: Packet)
    requires s.Held?
    ensures Copies(win + Gap(count) + [s], x) == Copies(win, x) + Copy(s.packet, x)
  {
    CopiesConcat(win + Gap(count), [s], x);
    CopiesConcat(win, Gap(count), x);
    CopiesOfGap(Gap(count), x);
    assert Copies([s], x) == Copy(s.packet, x);
  }

  lemma FillConserves(c: Config, st: State, p: Packet, count: nat, x: Packet)
    requires 2 <= count && HeadHeld(st.win) && st.win != []
    ensures Account(Fill(c, st, p, count), x) == Account(st, x) + Copy(p, x)
  {
    var wide := Widen(st, count);
    WidenConserves(st, count, x);
    FillAtConserves(c, wide, |wide.win| - count, p, x);
    assert Fill(c, st, p, count) == FillAt(c, wide, |wide.win| - count, p);
  }

  lemma WidenConserves(st: State, count: nat, x: Packet)
    ensures Account(Widen(st, count), x) == Account(st, x)
  {
    if count > |st.win| {
      CopiesConcat(Gap(count - |st.win|), st.win, x);
      CopiesOfGap(Gap(count - |st.win|), x);
    }
  }

  lemma FillAtConserves(c: Config, st: State, at: nat, p: Packet, x: Packet)
    requires at + 1 < |st.win|
    ensures Account(FillAt(c, st, at, p), x) == Account(st, x) + Copy(p, x)
  {
    if st.win[at].Missing? {
      SettleConserves(c, st.win, at, p, x);
    }
  }

  lemma SettleConserves(c: Config, win: seq<Slot>, at: nat, p: Packet, x: Packet)
    requires at + 1 < |win| && win[at].Missing?
    ensures Copies(Settle(c, win, at, p), x) == Copies(win, x) + Copy(p, x)
  {
    var r := Settle(c, win, at, p);
    SettleSlots(c, win, at, p);
    CopiesSame(r[..at], win[..at], x);
    CopiesSame(r[at+1..], win[at+1..], x);
    CopiesAround(r, at, x);
    CopiesAround(win, at, x);
  }

  lemma CopiesAround(win: seq<Slot>, at: nat, x: Packet)
    requires at < |win|
    ensures Copies(win, x) == Copies(win[..at], x) + Copies(win[at+1..], x)
      + if win[at].Held? then Copy(win[at].packet, x) else 0
  {
    CopiesConcat(win[..at], win[at..], x);
    assert win == win[..at] + win[at..];
  }

  lemma PushEmptyConserves(c: Config, st: State, p: Packet, x: Packet)
    requires c.InRange() && st.win == []
    ensures Account(PushEmpty(c, st, p), x) == Account(st, x) + if AdvanceFloor(c, st, p).None? then 0 else Copy(p, x)
  {
    assert Copies([c.Fresh(p)], x) == Copy(p, x);
  }

  /** After everything was released only a second copy of the newest packet is late. */
  lemma FarIsLate(c: Config, st: State, p: Packet)
    requires Valid(c, st) && PlaceOf(c, st.win, p).Far?
    ensures AdvanceFloor(c, ReleaseAll(st), p).None? <==> p.seqno == Newest(st.win).seqno
  {
    ReleaseAllFloor(c, st);
  }

  lemma FarConserves(c: Config, st: State, p: Packet, x: Packet)
    requires Valid(c, st) && PlaceOf(c, st.win, p).Far?
    ensures Account(PushEmpty(c, ReleaseAll(st), p), x)
      == Account(st, x) + if p.seqno == Newest(st.win).seqno then 0 else Copy(p, x)
  {
    FarIsLate(c, st, p);
    ReleaseAllConserves(st, x);
    PushEmptyConserves(c, ReleaseAll(st), p, x);
  }

  /** A push accounts for its packet exactly once, and neither loses nor copies any other. */
  lemma PushConserves(c: Config, st: State, p: Packet, x: Packet)
    requires Valid(c, st)
    ensures Account(Push(c, st, p), x) == Account(st, x) + if Ignored(c, st, p) then 0 else Copy(p, x)
  {
    if AdvanceFloor(c, st, p).Some? {
      AdvanceFloorKeepsValid(c, st, p);
      InsertConserves(c, AdvanceFloor(c, st, p).value, p, x);
    }
  }

  lemma InsertConserves(c: Config, st: State, p: Packet, x: Packet)
    requires Valid(c, st)
    ensures Account(Insert(c, st, p), x) == Account(st, x) + if Unplaced(c, st.win, p) then 0 else Copy(p, x)
  {
    match PlaceOf(c, st.win, p)
    case First => assert Copies([c.Fresh(p)], x) == Copy(p, x);
    case Next => AppendConserves(c, st, p, x);
    case Ahead(count) => InsertAheadConserves(c, st, p, count, x);
    case Far => FarConserves(c, st, p, x);
    case Behind(count) => FillConserves(c, st, p, count, x);
    case TooOld =>
  }

  // ---- Popping, and whole runs ----

  /** What a pop delivers leaves the buffer, and nothing else does unreported. */
  lemma {:induction false} PopConserves(c: Config, st: State, force: bool, x: Packet)
    requires Valid(c, st)
    ensures var (st', d) := Pop(c, st, force); multiset(d)[x] + Account(st', x) == Account(st, x)
    decreases |st.win|
  {
    if st.win == [] {
    } else {
      match Decide(c, st, force)
      case Wait =>
      case Discard =>
        DropConserves(st, x);
        DropKeepsValid(c, st);
        assert Pop(c, st, force) == Pop(c, Drop(st), force);
        PopConserves(c, Drop(st), force, x);
      case Deliver(last) =>
        assert Pop(c, st, force) == (Cut(st, last), Group(st.win, last + 1));
        DeliveryConserves(st, last, x);
    }
  }

  lemma DeliveryConserves(st: State, last: nat, x: Packet)
    requires last < |st.win| && forall i :: 0 <= i <= last ==> st.win[i].Held?
    ensures multiset(Group(st.win, last + 1))[x] + Account(Cut(st, last), x) == Account(st, x)
  {
    CutConserves(st.win, last, x);
  }

  lemma CutConserves(win: seq<Slot>, last: nat, x: Packet)
    requires last < |win| && forall i :: 0 <= i <= last ==> win[i].Held?
    ensures multiset(Group(win, last + 1))[x] + Copies(win[FirstHeld(win, last + 1)..], x) == Copies(win, x)
  {
    CopiesDelivered(win, last + 1, x);
    CopiesSkip(win, last + 1, x);
    CopiesConcat(win[..last+1], win[last+1..], x);
    assert win == win[..last+1] + win[last+1..];
  }

  function AcceptedNow(c: Config, st: State, op: Op, x: Packet): nat
    requires c.InRange() && EndsHeld(st.win)
  {
    if op.PushOp? && !Ignored(c, st, op.p) then Copy(op.p, x) else 0
  }

  lemma StepConserves(c: Config, st: State, op: Op, x: Packet)
    requires Valid(c, st)
    ensures var (st', d) := Step(c, st, op);
      multiset(d)[x] + Account(st', x) == Account(st, x) + AcceptedNow(c, st, op, x)
  {
    match op
    case PushOp(p) => PushConserves(c, st, p, x);
    case PopOp(force) => PopConserves(c, st, force, x);
  }

  /** How often a run's pushes of x were accepted. */
  ghost function Accepted(c: Config, st: State, ops: seq<Op>, x: Packet): nat
    requires Inv(c, st) && Undrained(c, st, ops)
    decreases ops
  {
    if ops == [] then 0
    else
      StepKeepsInv(c, st, ops[0]);
      AcceptedNow(c, st, ops[0], x) + Accepted(c, Step(c, st, ops[0]).0, ops[1..], x)
  }

  ghost function Final(c: Config, st: State, ops: seq<Op>): State
    requires Inv(c, st) && Undrained(c, st, ops)
    decreases ops
  {
    if ops == [] then st
    else
      StepKeepsInv(c, st, ops[0]);
      Final(c, Step(c, st, ops[0]).0, ops[1..])
  }

  /**
   * Over a run that drains nothing, stream resets or not: every accepted packet is delivered, released
   * or still buffered, once each.
   */
  lemma {:induction false} RunConserves(c: Config, st: State, ops: seq<Op>, x: Packet)
    requires Inv(c, st) && Undrained(c, st, ops)
    ensures multiset(Delivered(c, st, ops))[x] + Account(Final(c, st, ops), x)
      == Account(st, x) + Accepted(c, st, ops, x)
    decreases ops
  {
    if ops == [] {
    } else {
      var (st', d) := Step(c, st, ops[0]);
      StepKeepsInv(c, st, ops[0]);
      StepConserves(c, st, ops[0], x);
      RunConserves(c, st', ops[1..], x);
      assert multiset(d + Delivered(c, st', ops[1..]))[x] == multiset(d)[x] + multiset(Delivered(c, st', ops[1..]))[x];
    }
  }

  /** So no packet is delivered more often than it was accepted, even across resets. */
  lemma DeliveredAsAccepted(c: Config, ops: seq<Op>, x: Packet)
    requires c.InRange() && Undrained(c, EMPTY, ops)
    ensures multiset(Delivered(c, EMPTY, ops))[x] <= Accepted(c, EMPTY, ops, x)
  {
    RunConserves(c, EMPTY, ops, x);
  }

  // ---- Pushes that go wrong ----

  /**
   * A second copy of the newest buffered packet, unless refused as late, empties the whole buffer,
   * and is lost itself.
   */
  lemma DuplicateOfNewestEmptiesBuffer(c: Config, st: State, p: Packet)
    requires Inv(c, st) && st.win != [] && p.seqno == Newest(st.win).seqno && AdvanceFloor(c, st, p).Some?
    ensures Push(c, st, p).win == [] && Ignored(c, st, p)
    ensures forall x :: multiset(Push(c, st, p).released)[x] == Account(st, x)
  {
    AdvanceFloorKeepsValid(c, st, p);
    var moved := AdvanceFloor(c, st, p).value;
    ReleaseAllFloor(c, moved);
    forall x ensures Account(ReleaseAll(moved), x) == Account(st, x) {
      ReleaseAllConserves(moved, x);
    }
  }

  /**
   * A second copy of a buffered packet leaves the buffer as it is exactly when it is not one of the
   * newest packet, or is refused as late; up to maxLate 0x2000 none is refused.
   */
  lemma DuplicateIsHarmlessIff(c: Config, st: State, p: Packet, i: nat)
    requires Inv(c, st) && i < |st.win| && st.win[i].Held? && p.seqno == st.win[i].packet.seqno
    ensures Push(c, st, p).win == st.win <==> i < |st.win| - 1 || AdvanceFloor(c, st, p).None?
    ensures Serial(c) ==> AdvanceFloor(c, st, p).Some?
  {
    assert SeqnoAt(st.win, i);
    if AdvanceFloor(c, st, p).Some? {
      if i == |st.win| - 1 {
        DuplicateOfNewestEmptiesBuffer(c, st, p);
      } else {
        OlderDuplicateStays(c, st, p, i);
      }
    }
  }

  lemma OlderDuplicateStays(c: Config, st: State, p: Packet, i: nat)
    requires Valid(c, st) && i < |st.win| - 1 && st.win[i].Held? && p.seqno == st.win[i].packet.seqno
    ensures Push(c, st, p).win == st.win
  {
    DuplicatePlace(c, st.win, st.floor, p, i);
  }

  lemma DuplicatePlace(c: Config, win: seq<Slot>, floor: Option<u16>, p: Packet, i: nat)
    requires Fits(c, win, floor) && i < |win| - 1 && win[i].Held? && p.seqno == win[i].packet.seqno
    ensures PlaceOf(c, win, p) == if |win| - i < c.Cap() then Behind(|win| - i) else TooOld
  {
    assert SeqnoAt(win, i) && SeqnoAt(win, |win| - 1);
  }

  /** With maxLate 2, pushing 10 and then 13 leaves an empty slot at the tail. */
  lemma DrainExample(c: Config, p10: Packet, p13: Packet)
    requires c.maxLate == 2 && p10.seqno == 10 && p13.seqno == 13
    ensures Valid(c, EMPTY) && Valid(c, Push(c, EMPTY, p10))
    ensures Push(c, Push(c, EMPTY, p10), p13).win == [Missing, Missing, c.Fresh(p13)]
  {
    var one := Push(c, EMPTY, p10);
    PushKeepsValid(c, EMPTY, p10);
    assert one.win == [c.Fresh(p10)];
    assert PlaceOf(c, one.win, p13) == Ahead(2);
    assert Drop(one).win == [];
    assert MakeSpace(c, one, 2) == Some(Drop(one));
    assert [] + Gap(2) + [c.Fresh(p13)] == [Missing, Missing, c.Fresh(p13)];
  }

  /** While Serial holds the packet after the newest one is never refused and never a reset. */
  lemma NextIsTimely(c: Config, st: State, p: Packet)
    requires Inv(c, st) && Serial(c) && st.win != [] && p.seqno == Add16(Newest(st.win).seqno, 1)
    ensures !Ignored(c, st, p) && !Resets(c, st, p)
  {
    assert SeqnoAt(st.win, |st.win| - 1);
  }

  /** Packets 0, Cap - 2 and 0x8000, the first of another frame than the second. */
  predicate HalfCircle(c: Config, p0: Packet, p1: Packet, p2: Packet) {
    && p0.seqno == 0 && p1.seqno == c.Cap() - 2 && p2.seqno == 0x8000
    && p0.timestamp != p1.timestamp
  }

  ghost predicate PushedInTurn(c: Config, p0: Packet, p1: Packet, p2: Packet, st: State) {
    && Valid(c, EMPTY)
    && Valid(c, Push(c, EMPTY, p0))
    && Valid(c, Push(c, Push(c, EMPTY, p0), p1))
    && st == Push(c, Push(c, Push(c, EMPTY, p0), p1), p2)
  }

  /** Beyond maxLate 0x2000 three pushes leave the newest packet half the circle ahead of the floor. */
  lemma HalfCircleAhead(c: Config, p0: Packet, p1: Packet, p2: Packet) returns (st: State)
    requires c.InRange() && !Serial(c) && HalfCircle(c, p0, p1, p2)
    ensures PushedInTurn(c, p0, p1, p2, st) && Inv(c, st)
    ensures st.floor == Some(0) && st.win == [c.Fresh(p1)] + Gap(0x8001 - c.Cap()) + [c.Fresh(p2)]
  {
    var one := Push(c, EMPTY, p0);
    var two := SecondPush(c, p0, p1, one);
    st := ThirdPush(c, p0, p1, p2, two);
  }

  lemma SecondPush(c: Config, p0: Packet, p1: Packet, one: State) returns (two: State)
    requires c.InRange() && !Serial(c) && p0.seqno == 0 && p1.seqno == c.Cap() - 2
    requires one == State([c.Fresh(p0)], None, None, [], 0)
    ensures Valid(c, one) && two == Push(c, one, p1) && Inv(c, two)
    ensures two == one.(win := [c.Fresh(p0)] + Gap(c.Cap() - 3) + [c.Fresh(p1)])
  {
    two := Push(c, one, p1);
    PushKeepsInv(c, one, p1);
  }

  lemma ThirdPush(c: Config, p0: Packet, p1: Packet, p2: Packet, two: State) returns (st: State)
    requires c.InRange() && !Serial(c) && HalfCircle(c, p0, p1, p2) && Inv(c, two)
    requires two.floor.None? && two.win == [c.Fresh(p0)] + Gap(c.Cap() - 3) + [c.Fresh(p1)]
    ensures st == Push(c, two, p2) && Inv(c, st) && st.floor == Some(0)
    ensures st.win == [c.Fresh(p1)] + Gap(0x8001 - c.Cap()) + [c.Fresh(p2)]
  {
    ThirdPlace(c, p0, p1, p2, two);
    st := Push(c, two, p2);
    PushKeepsInv(c, two, p2);
  }

  /** The third packet is placed ahead, once the first frame has made room. */
  lemma ThirdPlace(c: Config, p0: Packet, p1: Packet, p2: Packet, two: State)
    requires c.InRange() && !Serial(c) && HalfCircle(c, p0, p1, p2) && Inv(c, two)
    requires two.floor.None? && two.win == [c.Fresh(p0)] + Gap(c.Cap() - 3) + [c.Fresh(p1)]
    ensures PlaceOf(c, two.win, p2) == Ahead(0x8001 - c.Cap()) && !Drains(c, two, p2)
    ensures MakeSpace(c, two, 0x8001 - c.Cap()) == Some(Drop(two))
    ensures Drop(two).win == [c.Fresh(p1)] && Drop(two).floor == Some(0)
  {
    assert two.win[|two.win| - 1] == c.Fresh(p1) && two.win[0] == c.Fresh(p0);
    assert PrevHeld(two.win, |two.win| - 1) == 0;
    assert FrameStart(two.win, |two.win| - 1);
    RoomAfterFirst(c, two, p1, 0x8001 - c.Cap());
  }

  lemma RoomAfterFirst(c: Config, two: State, p1: Packet, count: nat)
    requires Valid(c, two) && two.win != [] && two.win[|two.win| - 1] == c.Fresh(p1)
    requires two.win[0].packet.timestamp != p1.timestamp && |two.win| == c.Cap() - 1 && 0 < count < c.Cap() - 2
    requires forall i :: 0 < i < |two.win| - 1 ==> two.win[i].Missing?
    ensures MakeSpace(c, two, count) == Some(Drop(two))
    ensures Drop(two).win == [c.Fresh(p1)] && Drop(two).floor == Some(two.win[0].packet.seqno)
  {
    DropsFirst(c, two, p1);
    assert MakeSpace(c, Drop(two), count) == Some(Drop(two));
  }

  lemma DropsFirst(c: Config, st: State, p1: Packet)
    requires Valid(c, st) && |st.win| > 1 && st.win[|st.win| - 1] == c.Fresh(p1)
    requires st.win[0].packet.timestamp != p1.timestamp
    requires forall i :: 0 < i < |st.win| - 1 ==> st.win[i].Missing?
    ensures Drop(st).win == [c.Fresh(p1)] && Drop(st).floor == Some(st.win[0].packet.seqno)
  {
    var e := FirstHeld(st.win, 1);
    assert e == |st.win| - 1;
  }

  lemma DuplicateMovesFloor(c: Config, st: State, p: Packet)
    requires Valid(c, st) && st.win != [] && p.seqno == Newest(st.win).seqno && AdvanceFloor(c, st, p).Some?
    ensures Push(c, st, p).floor == Some(p.seqno)
  {
    AdvanceFloorKeepsValid(c, st, p);
    ReleaseAllFloor(c, AdvanceFloor(c, st, p).value);
  }

  lemma ForcedPopDropsLast(c: Config, st: State, p: Packet)
    requires st.win == [c.Fresh(p)] && !c.IsStart(p)
    ensures Pop(c, st, true).1 == [] && Pop(c, st, true).0.floor == Some(p.seqno)
  {
    assert Release(Counted(st), true).win == [];
    assert Drop(st).win == [];
  }

  lemma ForcedPopDropsBoth(c: Config, st: State, p1: Packet, p2: Packet, gap: nat)
    requires st.win == [c.Fresh(p1)] + Gap(gap) + [c.Fresh(p2)] && !c.IsStart(p1) && !c.IsStart(p2)
    ensures Pop(c, st, true).1 == [] && Pop(c, st, true).0.floor == Some(p2.seqno)
  {
    assert st.win[0] == c.Fresh(p1) && st.win[gap + 1] == c.Fresh(p2);
    var counted := Counted(st);
    assert FirstHeld(counted.win, 1) == gap + 1;
    assert Release(counted, true).win == [c.Fresh(p2)];
    if p1.timestamp == p2.timestamp {
      var second := Release(Release(counted, true), true);
      assert second.win == [] && second.floor == Some(p2.seqno);
      assert DropRest(Release(counted, true), p1.timestamp) == DropRest(second, p1.timestamp) == second;
      assert Drop(st).win == [] && Drop(st).floor == second.floor;
    } else {
      ForcedPopDropsLast(c, Drop(st), p2);
    }
  }

  /**
   * In that state the next packet resets the stream, a second copy of the newest packet moves the
   * floor backwards, and so does a forced pop when neither packet starts a frame.
   */
  lemma BeyondSerial(c: Config, p0: Packet, p1: Packet, p2: Packet, next: Packet) returns (st: State)
    requires c.InRange() && !Serial(c) && HalfCircle(c, p0, p1, p2) && next.seqno == 0x8001
    ensures PushedInTurn(c, p0, p1, p2, st) && Inv(c, st)
    ensures Resets(c, st, next)
    ensures !Resets(c, st, p2) && !Drains(c, st, p2) && !Climbs(st, Push(c, st, p2))
    ensures !c.IsStart(p1) && !c.IsStart(p2) ==> !Climbs(st, Pop(c, st, true).0)
  {
    st := HalfCircleAhead(c, p0, p1, p2);
    DuplicateMovesFloor(c, st, p2);
    if !c.IsStart(p1) && !c.IsStart(p2) {
      ForcedPopDropsBoth(c, st, p1, p2, 0x8001 - c.Cap());
    }
  }
}
