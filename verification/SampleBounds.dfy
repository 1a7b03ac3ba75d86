/** Beyond the bounds: runs of a new builder that reach the states in which it goes wrong. */
module SampleBounds {
  import opened Machine
  import opened SampleWindow
  import opened SampleInvariant
  import opened SampleRuns
  import R = SampleRing
  import C = Circular

  // ---- A forced pop ----

  /** One push of a packet that starts a frame and does not end it: a forced pop leaves it there. */
  lemma ForcedPopLeavesPacket(c: Config, p: Packet)
    requires c.InRange() && c.IsStart(p) && !c.IsEnd(p)
    ensures var one := Push(c, EMPTY, p); one.win == [c.Fresh(p)] && Pop(c, one, true) == (one, [])
  {
    var one := Push(c, EMPTY, p);
    assert ScanFrom(one.win, 1) == Open;
  }

  /** Two pushes of frames of one packet each: a forced pop returns the first and leaves the second. */
  lemma ForcedPopLeavesFrame(c: Config, p0: Packet, p1: Packet)
    requires c.InRange() && p1.seqno == Add16(p0.seqno, 1)
    requires c.IsStart(p0) && c.IsEnd(p0) && c.IsStart(p1) && c.IsEnd(p1)
    ensures var one := Push(c, EMPTY, p0);
      && EndsHeld(one.win)
      && var two := Push(c, one, p1);
         && two.win == [c.Fresh(p0), c.Fresh(p1)]
         && Pop(c, two, true) == (two.(win := [c.Fresh(p1)], floor := Some(p0.seqno)), [p0])
  {
    var one := Push(c, EMPTY, p0);
    assert one.win == [c.Fresh(p0)];
    var two := Push(c, one, p1);
    assert two.win == [c.Fresh(p0)] + [c.Fresh(p1)];
    assert Decide(c, two, true) == Deliver(0);
    assert FirstHeld(two.win, 1) == 1;
    assert Group(two.win, 1) == [p0];
  }

  // ---- The 16-bit index ----

  /** Packets 0, 0x7FFF, 0x8000, 0x8001 and 0 again. */
  predicate AroundTheCircle(p0: Packet, p1: Packet, p2: Packet, p3: Packet, p4: Packet) {
    p0.seqno == 0 && p1.seqno == 0x7FFF && p2.seqno == 0x8000 && p3.seqno == 0x8001 && p4.seqno == 0
  }

  lemma FirstTwo(c: Config, p0: Packet, p1: Packet)
    requires c.Allowed() && c.maxLate > 0x4000 && p0.seqno == 0 && p1.seqno == 0x7FFF
    ensures var one := Push(c, EMPTY, p0);
      && EndsHeld(one.win)
      && Push(c, one, p1) == EMPTY.(win := [c.Fresh(p0)] + Gap(0x7FFE) + [c.Fresh(p1)])
  {
    var one := Push(c, EMPTY, p0);
    assert one.win == [c.Fresh(p0)];
    assert PlaceOf(c, one.win, p1) == Ahead(0x7FFE);
    assert MakeSpace(c, one, 0x7FFE) == Some(one);
  }

  /** A push of the next packet while there is room. */
  lemma NextPushed(c: Config, st: State, p: Packet)
    requires c.Allowed() && EndsHeld(st.win) && 0 < |st.win| < c.Cap() && st.floor.None?
    requires p.seqno == Add16(Newest(st.win).seqno, 1)
    ensures var r := Push(c, st, p);
      && |r.win| == |st.win| + 1 && r == st.(win := r.win) && HeadHeld(r.win)
      && r.win[|st.win|].Held? && r.win[|st.win|].packet == p
      && r.win[|st.win| - 1].Held? && r.win[|st.win| - 1].packet == Newest(st.win)
  {
  }

  /** Four pushes fill 0x8002 slots, nothing being released. */
  lemma FourPushed(c: Config, p0: Packet, p1: Packet, p2: Packet, p3: Packet, p4: Packet) returns (st: State)
    requires c.Allowed() && c.maxLate > 0x4000 && AroundTheCircle(p0, p1, p2, p3, p4)
    ensures PushedFour(c, p0, p1, p2, p3, st)
    ensures st == EMPTY.(win := st.win) && |st.win| == 0x8002 && EndsHeld(st.win)
    ensures Newest(st.win) == p3
  {
    FirstTwo(c, p0, p1);
    var two := Push(c, Push(c, EMPTY, p0), p1);
    assert two.win[|two.win| - 1] == c.Fresh(p1);
    NextPushed(c, two, p2);
    var three := Push(c, two, p2);
    NextPushed(c, three, p3);
    st := Push(c, three, p3);
  }

  ghost predicate PushedFour(c: Config, p0: Packet, p1: Packet, p2: Packet, p3: Packet, st: State)
    requires c.Allowed()
  {
    && EndsHeld(Push(c, EMPTY, p0).win)
    && EndsHeld(Push(c, Push(c, EMPTY, p0), p1).win)
    && EndsHeld(Push(c, Push(c, Push(c, EMPTY, p0), p1), p2).win)
    && st == Push(c, Push(c, Push(c, Push(c, EMPTY, p0), p1), p2), p3)
  }

  /** On an array with the window in its first slots, storing in slot 0 loses it: check() fails. */
  ghost predicate StoredOver(c: Config, st: State, p: Packet, a: seq<Slot>)
    requires 0 < |st.win| < c.Cap() + 1
  {
    |a| == c.Cap() + 1 && R.Ring(a, |st.win|, 0) == st.win ==>
      var b := a[0 := c.Fresh(p)];
      R.Ring(b, 1, 0) == [c.Fresh(p)] && !R.ClearOutside(b, 1, 0)
  }

  lemma StoresOver(c: Config, st: State, p: Packet, a: seq<Slot>)
    requires 2 <= |st.win| < c.Cap() + 1 && st.win[|st.win| - 1].Held?
    ensures StoredOver(c, st, p, a)
  {
    if |a| == c.Cap() + 1 && R.Ring(a, |st.win|, 0) == st.win {
      var k := |st.win| - 1;
      assert R.Ring(a, |st.win|, 0)[k] == a[k];
      assert a[0 := c.Fresh(p)][k].Held?;
    }
  }

  /**
   * For every maxLate beyond 0x4000 that the constructor allows: after four pushes into a new builder
   * the sums of the fifth wrap. The loop that makes room drops nothing, and the packet is stored in slot
   * 0, over the first one, instead of 0x7FFE slots past the head; with the head behind it, the other
   * three are left outside the buffer.
   */
  lemma FutureIndexGoesWrong(c: Config, p0: Packet, p1: Packet, p2: Packet, p3: Packet, p4: Packet) returns (st: State)
    requires c.Allowed() && c.maxLate > 0x4000 && AroundTheCircle(p0, p1, p2, p3, p4)
    ensures PushedFour(c, p0, p1, p2, p3, st) && st.floor.None? && st.released == []
    ensures R.RingLen(c.Cap() + 1, |st.win|, 0) == |st.win| && EndsHeld(st.win)
    ensures PlaceOf(c, st.win, p4) == Ahead(0x7FFE)
    ensures !R.MustDrop(c, |st.win|, 0x7FFE) && |st.win| + 0x7FFE + 1 >= c.Cap()
    ensures R.FutureIndex(c.Cap() + 1, |st.win|, 0x7FFE) == 0 != C.At(c.Cap() + 1, |st.win|, 0x7FFE)
    ensures R.Inc(c.Cap() + 1, 0) == 1 && forall a: seq<Slot> :: StoredOver(c, st, p4, a)
  {
    st := FourPushed(c, p0, p1, p2, p3, p4);
    IndexWraps(c.Cap() + 1);
    forall a: seq<Slot> ensures StoredOver(c, st, p4, a) {
      StoresOver(c, st, p4, a);
    }
  }

  lemma IndexWraps(n: nat)
    requires 0x8002 < n < 0x1_0000
    ensures R.FutureIndex(n, 0x8002, 0x7FFE) == 0 != C.At(n, 0x8002, 0x7FFE)
  {
    var sum: nat := (0x8002 + 0x7FFE) % 0x1_0000;
    assert sum == 0;
    SmallMod(sum, n);
  }

  lemma SmallMod(a: nat, n: nat)
    requires a < n
    ensures a % n == a
  {
  }
}
