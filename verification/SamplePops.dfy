/** When a pop delivers, and what: exact conditions on the slots for the unforced and the forced pop. */
module SamplePops {
  import opened Machine
  import opened SampleWindow
  import opened SampleInvariant
  import opened SampleDelivery
  import opened SampleDropping

  /** The packets in slots e to k. */
  function PacketsIn(win: seq<Slot>, e: nat, k: nat): seq<Packet>
    requires e <= k < |win| && forall i :: e <= i <= k ==> win[i].Held?
  {
    seq(k - e + 1, i requires 0 <= i < k - e + 1 => win[e + i].packet)
  }

  /** Delivering slots e to k: the packets, and the window and floor that are left. */
  ghost function Delivery(win: seq<Slot>, e: nat, k: nat): (seq<Packet>, seq<Slot>, Option<u16>)
    requires WholeFrame(win, e, k)
  {
    (PacketsIn(win, e, k), win[FirstHeld(win, k + 1)..], Some(win[k].packet.seqno))
  }

  ghost predicate Returns(win: seq<Slot>, e: nat, k: nat, r: (State, seq<Packet>))
    requires WholeFrame(win, e, k)
  {
    (r.1, r.0.win, r.0.floor) == Delivery(win, e, k)
  }

  lemma ReturnsLater(
    win: seq<Slot>, rest: seq<Slot>, n: nat, d: nat, j: nat, e: nat, k: nat, r: (State, seq<Packet>))
    requires n <= |win| && rest == win[n..] && WholeFrame(rest, d, j) && e == n + d && k == n + j
    ensures WholeFrame(win, e, k) && (Returns(rest, d, j, r) ==> Returns(win, e, k, r))
  {
    WholeAfterDrop(win, n, d, j);
    FirstHeldShift(win, n, j + 1);
    assert PacketsIn(rest, d, j) == PacketsIn(win, e, k);
  }

  lemma DeliveryReturns(c: Config, st: State, force: bool, last: nat)
    requires EndsHeld(st.win) && st.win != [] && Decide(c, st, force) == Deliver(last)
    ensures WholeFrame(st.win, 0, last) && Returns(st.win, 0, last, Pop(c, st, force))
  {
    assert Group(st.win, last + 1) == PacketsIn(st.win, 0, last);
  }

  lemma OnlyWholeFrameAtTail(win: seq<Slot>, last: nat, k: nat)
    requires WholeFrame(win, 0, last) && WholeFrame(win, 0, k)
    ensures k == last
  {
    WholeIsScanned(win, 0, 0, last);
    WholeIsScanned(win, 0, 0, k);
  }

  // ---- Without force ----

  ghost predicate NoStartUpTo(win: seq<Slot>, e: nat) {
    e <= |win| && forall j :: 0 <= j < e ==> !(win[j].Held? && win[j].start)
  }

  /** Nothing is missing just before slot e. */
  predicate FollowsOn(st: State, e: nat)
    requires e < |st.win| && st.win[e].Held?
  {
    if e > 0 then st.win[e-1].Held?
    else st.floor.Some? ==> Add16(st.floor.value, 1) == st.win[0].packet.seqno
  }

  /** Whatever begins before slot e lies more than maxLate behind the newest packet. */
  ghost predicate Overdue(c: Config, win: seq<Slot>, e: nat)
    requires HeadHeld(win)
  {
    forall h: nat :: h < e && Head(win, h) ==> |win| - 1 - h > c.maxLate
  }

  /**
   * The frame in slots e to k is whole and nothing is missing before it; no frame starts before it,
   * and the pieces of frames that lie there are overdue.
   */
  ghost predicate Due(c: Config, st: State, e: nat, k: nat)
    requires HeadHeld(st.win)
  {
    WholeFrame(st.win, e, k) && NoStartUpTo(st.win, e) && FollowsOn(st, e) && Overdue(c, st.win, e)
  }

  lemma FollowsAfterDrop(c: Config, st: State, next: State, n: nat, e: nat)
    requires Valid(c, st) && 0 < n && GivesUp(st, next, n) && n + e < |st.win| && st.win[n + e].Held?
    ensures FollowsOn(next, e) <==> FollowsOn(st, n + e)
  {
    if e == 0 {
      var k := PrevHeld(st.win, n);
      assert SeqnoAt(st.win, k) && SeqnoAt(st.win, n);
    }
  }

  lemma OverdueAfterDrop(c: Config, win: seq<Slot>, n: nat, e: nat)
    requires HeadHeld(win) && 0 < n && n + e < |win| && win[n].Held? && Head(win, n) && NoStartBefore(win, n)
    requires |win| - 1 > c.maxLate
    ensures Overdue(c, win[n..], e) <==> Overdue(c, win, n + e)
  {
    forall h: nat | h < e ensures Head(win[n..], h) <==> Head(win, n + h) {
      SuffixFrameStarts(win, n, h);
    }
    if Overdue(c, win[n..], e) {
      forall h: nat | h < n + e && Head(win, h) ensures |win| - 1 - h > c.maxLate {
        assert h >= n ==> Head(win[n..], h - n);
      }
    }
    if Overdue(c, win, n + e) {
      forall h: nat | h < e && Head(win[n..], h) ensures |win[n..]| - 1 - h > c.maxLate {
        assert Head(win, n + h);
      }
    }
  }

  lemma WholeAfterDrop(win: seq<Slot>, n: nat, e: nat, k: nat)
    requires n <= |win|
    ensures WholeFrame(win[n..], e, k) <==> WholeFrame(win, n + e, n + k)
  {
    if WholeFrame(win, n + e, n + k) {
      forall i | e <= i <= k ensures win[n..][i].Held? && (win[n..][i].end <==> i == k) {
        assert win[n..][i] == win[n + i];
      }
    }
    if WholeFrame(win[n..], e, k) {
      forall i | n + e <= i <= n + k ensures win[i].Held? && (win[i].end <==> i == n + k) {
        assert win[i] == win[n..][i - n];
      }
    }
  }

  lemma NoStartAfterDrop(win: seq<Slot>, n: nat, e: nat)
    requires HeadHeld(win) && n + e <= |win| && win != [] && !win[0].start && NoStartBefore(win, n)
    ensures NoStartUpTo(win[n..], e) <==> NoStartUpTo(win, n + e)
  {
    forall j | 0 <= j < n ensures !(win[j].Held? && win[j].start) {
      assert j > 0 ==> !FrameStart(win, j);
    }
    if NoStartUpTo(win, n + e) {
      assert forall j :: 0 <= j < e ==> win[n..][j] == win[n + j];
    }
    if NoStartUpTo(win[n..], e) {
      assert forall j :: n <= j < n + e ==> win[j] == win[n..][j - n];
    }
  }

  /** A drop changes nothing about what is due. */
  lemma DueAfterDrop(c: Config, st: State, next: State, n: nat, e: nat, k: nat)
    requires Valid(c, st) && st.win != [] && !st.win[0].start && |st.win| - 1 > c.maxLate
    requires 0 < n && GivesUp(st, next, n) && HeadHeld(next.win) && NoStartBefore(st.win, n)
    ensures Due(c, next, e, k) <==> Due(c, st, n + e, n + k)
  {
    WholeAfterDrop(st.win, n, e, k);
    if WholeFrame(next.win, e, k) {
      NoStartAfterDrop(st.win, n, e);
      FollowsAfterDrop(c, st, next, n, e);
      OverdueAfterDrop(c, st.win, n, e);
    }
  }

  lemma DueIsLater(c: Config, st: State, n: nat, e: nat, k: nat)
    requires HeadHeld(st.win) && st.win != [] && !st.win[0].start && NoStartBefore(st.win, n) && Due(c, st, e, k)
    ensures e >= n
  {
    if 0 < e < n {
      assert FrameStart(st.win, e);
      assert false;
    }
  }

  ghost predicate SomethingDue(c: Config, st: State)
    requires HeadHeld(st.win)
  {
    exists e: nat, k: nat :: Due(c, st, e, k)
  }

  /** r is the outcome of delivering what is due in st, and nothing if nothing is. */
  ghost predicate DeliversDue(c: Config, st: State, r: (State, seq<Packet>))
    requires HeadHeld(st.win)
  {
    && (r.1 != [] <==> SomethingDue(c, st))
    && forall e: nat, k: nat :: Due(c, st, e, k) ==> Returns(st.win, e, k, r)
  }

  /** The pop that gives up nothing first. */
  lemma SettledPopIff(c: Config, st: State)
    requires Valid(c, st) && st.win != [] && !Decide(c, st, false).Discard?
    ensures DeliversDue(c, st, Pop(c, st, false))
  {
    assert SeqnoAt(st.win, |st.win| - 1);
    assert Head(st.win, 0);
    forall e: nat, k: nat | Due(c, st, e, k) ensures Decide(c, st, false) == Deliver(k) && e == 0 {
      WholeIsScanned(st.win, e, e, k);
    }
    if Decide(c, st, false).Deliver? {
      var last := Decide(c, st, false).last;
      DeliveryReturns(c, st, false, last);
      assert Due(c, st, 0, last);
    }
  }

  /**
   * An unforced pop delivers if and only if some frame is due, and then delivers that frame: slots e to
   * k, everything before it given up.
   */
  lemma {:induction false} UnforcedPopIff(c: Config, st: State)
    requires Valid(c, st)
    ensures DeliversDue(c, st, Pop(c, st, false))
    decreases |st.win|
  {
    if st.win == [] {
    } else if Decide(c, st, false).Discard? {
      HeadIsLate(c, st);
      var next := PopDiscards(c, st);
      var dropped, n := DropCut(st);
      UnforcedPopIff(c, next);
      DueAfter(c, st, next, n, Pop(c, next, false));
    } else {
      SettledPopIff(c, st);
    }
  }

  lemma HeadIsLate(c: Config, st: State)
    requires Valid(c, st) && st.win != [] && Decide(c, st, false).Discard?
    ensures !st.win[0].start && |st.win| - 1 > c.maxLate
  {
    assert SeqnoAt(st.win, |st.win| - 1);
  }

  lemma PopDiscards(c: Config, st: State) returns (next: State)
    requires Valid(c, st) && st.win != [] && Decide(c, st, false).Discard?
    ensures next == Drop(st) && Valid(c, next) && |next.win| < |st.win|
    ensures Pop(c, st, false) == Pop(c, next, false)
  {
    DropKeepsValid(c, st);
    next := Drop(st);
  }

  lemma DueAfter(c: Config, st: State, next: State, n: nat, r: (State, seq<Packet>))
    requires Valid(c, st) && st.win != [] && !st.win[0].start && |st.win| - 1 > c.maxLate
    requires 0 < n && GivesUp(st, next, n) && HeadHeld(next.win) && NoStartBefore(st.win, n)
    requires DeliversDue(c, next, r)
    ensures DeliversDue(c, st, r)
  {
    forall e: nat, k: nat | Due(c, st, e, k) ensures SomethingDue(c, next) && Returns(st.win, e, k, r) {
      var d, j := DueWasLater(c, st, next, n, e, k);
      ReturnsLater(st.win, next.win, n, d, j, e, k, r);
    }
    if SomethingDue(c, next) {
      var e: nat, k: nat :| Due(c, next, e, k);
      DueAfterDrop(c, st, next, n, e, k);
    }
  }

  lemma DueWasLater(c: Config, st: State, next: State, n: nat, e: nat, k: nat) returns (d: nat, j: nat)
    requires Valid(c, st) && st.win != [] && !st.win[0].start && |st.win| - 1 > c.maxLate
    requires 0 < n && GivesUp(st, next, n) && HeadHeld(next.win) && NoStartBefore(st.win, n)
    requires Due(c, st, e, k)
    ensures Due(c, next, d, j) && e == n + d && k == n + j
  {
    DueIsLater(c, st, n, e, k);
    d, j := e - n, k - n;
    DueAfterDrop(c, st, next, n, d, j);
  }

  // ---- With force ----

  /** The frame in slots e to k is whole, and none before it is. */
  ghost predicate FirstWhole(win: seq<Slot>, e: nat, k: nat) {
    WholeFrame(win, e, k) && forall d: nat, j: nat :: WholeFrame(win, d, j) ==> e <= d
  }

  ghost predicate SomethingWhole(win: seq<Slot>) {
    exists e: nat, k: nat :: WholeFrame(win, e, k)
  }

  ghost predicate DeliversFirst(st: State, r: (State, seq<Packet>)) {
    && (r.1 != [] <==> SomethingWhole(st.win))
    && forall e: nat, k: nat :: FirstWhole(st.win, e, k) ==> Returns(st.win, e, k, r)
  }

  lemma FirstForcedIff(c: Config, st: State)
    requires EndsHeld(st.win) && st.win != [] && !Decide(c, st, true).Discard?
    ensures DeliversFirst(st, Pop(c, st, true))
  {
    if Decide(c, st, true).Deliver? {
      var last := Decide(c, st, true).last;
      DeliveryReturns(c, st, true, last);
      forall e: nat, k: nat | FirstWhole(st.win, e, k) ensures e == 0 && k == last {
        OnlyWholeFrameAtTail(st.win, last, k);
      }
    } else {
      ScanIsOpenIff(st.win, 0);
      forall e: nat, k: nat ensures !WholeFrame(st.win, e, k) {
        if WholeFrame(st.win, e, k) {
          WholeEnds(st.win, e, k);
        }
      }
    }
  }

  lemma WholeEnds(win: seq<Slot>, e: nat, k: nat)
    requires WholeFrame(win, e, k)
    ensures !AllOpen(win, 0)
  {
    assert win[k].end;
  }

  /** A forced pop delivers the first whole frame there is, wherever it lies, and nothing only if there is none. */
  lemma {:induction false} ForcedPopIff(c: Config, st: State)
    requires EndsHeld(st.win)
    ensures DeliversFirst(st, Pop(c, st, true))
    decreases |st.win|
  {
    if st.win == [] {
    } else if Decide(c, st, true).Discard? {
      var n := DropCutsAtFrameStart(st);
      DiscardedHead(c, st);
      ForcedPopIff(c, Drop(st));
      WholeAfter(st, Drop(st), n, Pop(c, Drop(st), true));
    } else {
      FirstForcedIff(c, st);
    }
  }

  lemma WholeAfter(st: State, next: State, n: nat, r: (State, seq<Packet>))
    requires HeadHeld(st.win) && 0 < n <= |st.win| && next.win == st.win[n..] && NoStartBefore(st.win, n)
    requires (forall k: nat :: !WholeFrame(st.win, 0, k)) && DeliversFirst(next, r)
    ensures DeliversFirst(st, r)
  {
    if SomethingWhole(next.win) {
      var e: nat, k: nat :| WholeFrame(next.win, e, k);
      WholeAfterDrop(st.win, n, e, k);
    }
    if SomethingWhole(st.win) {
      var e: nat, k: nat :| WholeFrame(st.win, e, k);
      var d, j := WholeWasLater(st.win, n, e, k);
    }
    forall e: nat, k: nat | FirstWhole(st.win, e, k) ensures Returns(st.win, e, k, r) {
      var d, j := FirstWasLater(st.win, n, e, k);
      ReturnsLater(st.win, next.win, n, d, j, e, k, r);
    }
  }

  lemma WholeWasLater(win: seq<Slot>, n: nat, e: nat, k: nat) returns (d: nat, j: nat)
    requires HeadHeld(win) && 0 < n <= |win| && NoStartBefore(win, n)
    requires (forall k: nat :: !WholeFrame(win, 0, k)) && WholeFrame(win, e, k)
    ensures WholeFrame(win[n..], d, j) && e == n + d && k == n + j
  {
    assert e > 0;
    if e < n {
      assert FrameStart(win, e);
      assert false;
    }
    d, j := e - n, k - n;
    WholeAfterDrop(win, n, d, j);
  }

  lemma FirstWasLater(win: seq<Slot>, n: nat, e: nat, k: nat) returns (d: nat, j: nat)
    requires HeadHeld(win) && 0 < n <= |win| && NoStartBefore(win, n)
    requires (forall k: nat :: !WholeFrame(win, 0, k)) && FirstWhole(win, e, k)
    ensures FirstWhole(win[n..], d, j) && e == n + d && k == n + j
  {
    d, j := WholeWasLater(win, n, e, k);
    forall b: nat, i: nat | WholeFrame(win[n..], b, i) ensures d <= b {
      WholeAfterDrop(win, n, b, i);
    }
  }
}
