/** Which packets a push takes, and how the floor follows them, in distances around the circle. */
module SampleLateness {
  import opened Machine
  import opened SampleWindow
  import opened SampleInvariant
  import opened SampleOrder
  import opened SampleNumbers

  /** The packet lies at most maxLate behind the floor, or is the floor's own. */
  predicate Late(c: Config, floor: Option<u16>, p: Packet) {
    floor.Some? && Sub16(floor.value, p.seqno) <= c.maxLate
  }

  /**
   * A packet that no buffer takes: the newest one again, one exactly the capacity ahead of it, or one
   * so far behind it that fewer than two slots of the capacity are left.
   */
  predicate OutOfReach(c: Config, newest: u16, p: Packet) {
    var ahead := Sub16(p.seqno, newest);
    ahead == 0 || ahead == c.Cap() || 0x8000 <= ahead <= 0x1_0001 - c.Cap()
  }

  /**
   * A push discards its packet if and only if it is late or, the buffer not being empty, out of reach;
   * it forgets the floor if and only if the packet is further behind it, up to half the circle.
   */
  lemma IgnoredIff(c: Config, st: State, p: Packet)
    requires Valid(c, st)
    ensures Ignored(c, st, p) <==> Late(c, st.floor, p) || (st.win != [] && OutOfReach(c, Newest(st.win).seqno, p))
    ensures Resets(c, st, p) <==> st.floor.Some? && c.maxLate < Sub16(st.floor.value, p.seqno) < 0x8000
    ensures Resets(c, st, p) ==> AdvanceFloor(c, st, p) == Some(st.(floor := None))
  {
  }

  function Least(a: int, b: int): int {
    if a < b then a else b
  }

  /**
   * A packet ahead of the floor, neither late nor a reset: the floor moves up to maxLate behind the
   * packet, if it is not there yet, but no further than to just before the oldest packet buffered.
   */
  lemma FloorFollows(c: Config, st: State, p: Packet)
    requires Valid(c, st) && st.floor.Some? && !Late(c, st.floor, p) && !Resets(c, st, p)
    ensures AdvanceFloor(c, st, p).Some? && AdvanceFloor(c, st, p).value.floor.Some?
    ensures var ahead := Sub16(p.seqno, st.floor.value);
      var moved := Sub16(AdvanceFloor(c, st, p).value.floor.value, st.floor.value);
      && 0 < ahead <= 0x8000
      && moved == (
           if ahead <= c.maxLate then 0
           else if st.win == [] then ahead - c.maxLate
           else Least(ahead - c.maxLate, Sub16(st.win[0].packet.seqno, st.floor.value) - 1))
  {
  }
}
