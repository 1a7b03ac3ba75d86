/** What the sample builder delivers: whole frames, in order, over every run. */
module SampleDelivery {
  import opened Machine
  import opened SampleWindow
  import opened SampleInvariant

  // ---- Trimming ----

  /** st' has the window win without its first e slots, the last held one among them being slot k. */
  ghost predicate Trimmed(win: seq<Slot>, st': State, k: nat, e: nat) {
    && k < e <= |win| && win[k].Held?
    && (forall i :: k < i < e ==> win[i].Missing?)
    && st'.win == win[e..] && HeadHeld(st'.win)
    && st'.floor == Some(win[k].packet.seqno)
  }

  lemma TrimmedTwice(win: seq<Slot>, b: State, d: State, k1: nat, e1: nat, k2: nat, e2: nat)
    requires Trimmed(win, b, k1, e1) && Trimmed(b.win, d, k2, e2)
    ensures Trimmed(win, d, e1 + k2, e1 + e2)
  {
  }

  lemma CutTrims(st: State, last: nat) returns (e: nat)
    requires last < |st.win| && st.win[last].Held?
    ensures Trimmed(st.win, Cut(st, last), last, e)
  {
    e := FirstHeld(st.win, last + 1);
  }

  lemma ReleaseTrims(st: State) returns (e: nat)
    requires st.win != [] && st.win[0].Held?
    ensures Trimmed(st.win, Release(st, true), 0, e)
  {
    e := CutTrims(st, 0);
  }

  lemma {:induction false} DropRestTrims(win: seq<Slot>, st: State, ts: u32, k1: nat, e1: nat) returns (k: nat, e: nat)
    requires Trimmed(win, st, k1, e1)
    ensures Trimmed(win, DropRest(st, ts), k, e)
    decreases |st.win|
  {
    if st.win == [] || st.win[0].start || st.win[0].packet.timestamp != ts {
      k, e := k1, e1;
    } else {
      var e2 := ReleaseTrims(st);
      TrimmedTwice(win, st, Release(st, true), k1, e1, 0, e2);
      k, e := DropRestTrims(win, Release(st, true), ts, e1, e1 + e2);
    }
  }

  lemma DropTrims(st: State) returns (k: nat, e: nat)
    requires st.win != [] && st.win[0].Held?
    ensures Trimmed(st.win, Drop(st), k, e)
  {
    var counted := Counted(st);
    var e1 := ReleaseTrims(counted);
    k, e := DropRestTrims(st.win, Release(counted, true), st.win[0].packet.timestamp, 0, e1);
  }

  // ---- One delivery ----

  /** The state the pop loop settles in, after dropping the frames it gives up on. */
  function Settled(c: Config, st: State, force: bool): (r: State)
    requires EndsHeld(st.win)
    ensures EndsHeld(r.win)
    ensures r.win != [] ==> Decide(c, r, force) != Discard
    decreases |st.win|
  {
    if st.win != [] && Decide(c, st, force).Discard? then Settled(c, Drop(st), force) else st
  }

  /** A frame: held slots up to the first end flag, with one timestamp and consecutive numbers. */
  ghost predicate IsFrame(win: seq<Slot>, d: seq<Packet>) {
    && 0 < |d| <= |win| && |d| <= 0x1_0000
    && (forall i :: 0 <= i < |d| ==> win[i].Held? && win[i].packet == d[i] && (win[i].end <==> i == |d| - 1))
    && win[0].start
    && (forall i :: 0 <= i < |d| ==> d[i].timestamp == d[0].timestamp && d[i].seqno == Add16(d[0].seqno, i))
  }

  lemma DeliveredIsFrame(c: Config, st: State, force: bool, last: nat)
    requires Valid(c, st) && st.win != [] && Decide(c, st, force) == Deliver(last)
    ensures IsFrame(st.win, Group(st.win, last + 1))
  {
    var win := st.win;
    var d := Group(win, last + 1);
    OneTimestamp(win, last);
    forall i | 0 <= i <= last ensures d[i].seqno == Add16(d[0].seqno, i) {
      assert SeqnoAt(win, i);
    }
  }

  lemma {:induction false} OneTimestamp(win: seq<Slot>, last: nat)
    requires FlagsRight(win) && last < |win|
    requires forall i :: 0 <= i <= last ==> win[i].Held? && (i < last ==> !win[i].end)
    ensures forall i :: 0 <= i <= last ==> win[i].packet.timestamp == win[0].packet.timestamp
  {
    if last > 0 {
      OneTimestamp(win, last - 1);
      assert FlagsAt(win, last);
    }
  }

  /**
   * Delivering d from state at: a whole frame at the tail, strictly after the floor, which moves to
   * the last packet delivered. Without force the frame follows the floor immediately.
   */
  ghost predicate Delivers(c: Config, at: State, force: bool, st': State, d: seq<Packet>) {
    && Valid(c, at)
    && IsFrame(at.win, d)
    && AfterFloor(d[0].seqno, at.floor)
    && (!force && at.floor.Some? ==> d[0].seqno == Add16(at.floor.value, 1))
    && st' == at.(win := at.win[FirstHeld(at.win, |d|)..], floor := Some(d[|d| - 1].seqno))
  }

  lemma DecisionDelivers(c: Config, st: State, force: bool)
    requires Valid(c, st) && st.win != [] && Decide(c, st, force).Deliver?
    ensures var last := Decide(c, st, force).last; Delivers(c, st, force, Cut(st, last), Group(st.win, last + 1))
  {
    var last := Decide(c, st, force).last;
    DeliveredIsFrame(c, st, force, last);
    var d := Group(st.win, last + 1);
    assert d[last] == st.win[last].packet && d[0] == st.win[0].packet;
  }

  /** Every delivery is one frame, taken from the state the loop settles in. */
  lemma {:induction false} PopDeliversFrame(c: Config, st: State, force: bool)
    requires Valid(c, st) && Pop(c, st, force).1 != []
    ensures Delivers(c, Settled(c, st, force), force, Pop(c, st, force).0, Pop(c, st, force).1)
    decreases |st.win|
  {
    if Decide(c, st, force).Deliver? {
      DecisionDelivers(c, st, force);
    } else {
      DropKeepsValid(c, st);
      PopDeliversFrame(c, Drop(st), force);
    }
  }

  // ---- What a forced pop leaves ----

  /** A frame that starts in slot e, with nothing missing from there on and no end. */
  ghost predicate OpenFrame(win: seq<Slot>, e: nat) {
    e < |win| && win[e].Held? && win[e].start && AllOpen(win, e)
  }

  ghost predicate AllOpen(win: seq<Slot>, k: nat) {
    forall i :: k <= i < |win| ==> win[i].Held? && !win[i].end
  }

  /** A frame that starts in slot e and ends in slot k, with nothing missing in between. */
  ghost predicate WholeFrame(win: seq<Slot>, e: nat, k: nat) {
    && e <= k < |win| && win[e].Held? && win[e].start
    && forall i :: e <= i <= k ==> win[i].Held? && (win[i].end <==> i == k)
  }

  ghost predicate NoOpenFrame(win: seq<Slot>) {
    forall e: nat :: !OpenFrame(win, e)
  }

  /** Whatever frame is whole ends with the newest packet. */
  ghost predicate WholeOnlyLast(win: seq<Slot>) {
    forall e: nat, k: nat :: WholeFrame(win, e, k) ==> k == |win| - 1
  }

  lemma {:induction false} ScanIsOpenIff(win: seq<Slot>, k: nat)
    requires k <= |win|
    ensures ScanFrom(win, k).Open? <==> AllOpen(win, k)
    decreases |win| - k
  {
    if k < |win| && win[k].Held? && !win[k].end {
      ScanIsOpenIff(win, k + 1);
    }
  }

  lemma {:induction false} WholeIsScanned(win: seq<Slot>, e: nat, j: nat, k: nat)
    requires WholeFrame(win, e, k) && e <= j <= k
    ensures ScanFrom(win, j) == EndAt(k)
    decreases k - j
  {
    if j == k {
    } else {
      WholeIsScanned(win, e, j + 1, k);
    }
  }

  /** What is found after a cut before the first frame start was there before it. */
  lemma FramesAfter(win: seq<Slot>, cut: nat)
    requires HeadHeld(win) && 0 < cut <= |win|
    requires forall b :: 0 < b < cut ==> !FrameStart(win, b)
    requires !OpenFrame(win, 0) && forall k: nat :: !WholeFrame(win, 0, k)
    ensures NoOpenFrame(win) <==> NoOpenFrame(win[cut..])
    ensures WholeOnlyLast(win) <==> WholeOnlyLast(win[cut..])
  {
    OpenFramesAfter(win, cut);
    WholeFramesAfter(win, cut);
  }

  lemma OpenFramesAfter(win: seq<Slot>, cut: nat)
    requires HeadHeld(win) && 0 < cut <= |win| && !OpenFrame(win, 0)
    requires forall b :: 0 < b < cut ==> !FrameStart(win, b)
    ensures NoOpenFrame(win) <==> NoOpenFrame(win[cut..])
  {
    if e: nat :| OpenFrame(win, e) {
      assert FrameStart(win, e);
      assert OpenFrame(win[cut..], e - cut);
    }
    if e: nat :| OpenFrame(win[cut..], e) {
      assert OpenFrame(win, cut + e);
    }
  }

  lemma WholeFramesAfter(win: seq<Slot>, cut: nat)
    requires HeadHeld(win) && 0 < cut <= |win| && forall k: nat :: !WholeFrame(win, 0, k)
    requires forall b :: 0 < b < cut ==> !FrameStart(win, b)
    ensures WholeOnlyLast(win) <==> WholeOnlyLast(win[cut..])
  {
    if e: nat, k: nat :| WholeFrame(win, e, k) && k != |win| - 1 {
      assert FrameStart(win, e);
      assert WholeFrame(win[cut..], e - cut, k - cut);
    }
    if e: nat, k: nat :| WholeFrame(win[cut..], e, k) && k != |win[cut..]| - 1 {
      assert WholeFrame(win, cut + e, cut + k);
    }
  }

  /**
   * A forced pop, whatever it returns, leaves the buffer empty if and only if the buffer held no frame
   * still open, and no whole frame but one that ends with the newest packet.
   */
  lemma {:induction false} ForcedPopEmptiesIff(c: Config, st: State)
    requires EndsHeld(st.win)
    ensures Pop(c, st, true).0.win == [] <==> NoOpenFrame(st.win) && WholeOnlyLast(st.win)
    decreases |st.win|
  {
    if st.win == [] {
    } else {
      match Decide(c, st, true)
      case Wait =>
        ScanIsOpenIff(st.win, 0);
        assert OpenFrame(st.win, 0);
      case Discard =>
        DiscardedHead(c, st);
        var cut := DropCutsAtFrameStart(st);
        FramesAfter(st.win, cut);
        ForcedPopEmptiesIff(c, Drop(st));
      case Deliver(last) => DeliveredHead(c, st, last);
    }
  }

  lemma DiscardedHead(c: Config, st: State)
    requires EndsHeld(st.win) && st.win != [] && Decide(c, st, true).Discard?
    ensures !OpenFrame(st.win, 0) && forall k: nat :: !WholeFrame(st.win, 0, k)
  {
    ScanIsOpenIff(st.win, 0);
    forall k: nat ensures !WholeFrame(st.win, 0, k) {
      if WholeFrame(st.win, 0, k) {
        WholeIsScanned(st.win, 0, 0, k);
      }
    }
  }

  lemma DeliveredHead(c: Config, st: State, last: nat)
    requires EndsHeld(st.win) && st.win != [] && Decide(c, st, true) == Deliver(last)
    ensures Cut(st, last).win == [] <==> NoOpenFrame(st.win) && WholeOnlyLast(st.win)
  {
    assert WholeFrame(st.win, 0, last);
    if last == |st.win| - 1 {
      forall e: nat ensures !OpenFrame(st.win, e) {
        assert e < |st.win| ==> st.win[last].end;
      }
      forall e: nat, k: nat | WholeFrame(st.win, e, k) ensures k == last {
        assert st.win[k].end;
      }
    } else {
      assert st.win[|st.win| - 1].Held?;
      assert FirstHeld(st.win, last + 1) < |st.win|;
    }
  }
}
