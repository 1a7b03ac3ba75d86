/**
 * Giving up frames: what the loops that drop leave, report and count, and that they drop no more than
 * they need to.
 */
module SampleDropping {
  import opened Machine
  import opened SampleWindow
  import opened SampleInvariant
  import opened SampleDelivery
  import opened SampleNumbers

  /** The packets buffered in the first n slots. */
  ghost function HeldIn(win: seq<Slot>, n: nat): seq<Packet>
    requires n <= |win|
  {
    if n == 0 then [] else HeldIn(win, n - 1) + if win[n-1].Held? then [win[n-1].packet] else []
  }

  /** Where frames begin: at the tail and at every frame start. */
  ghost predicate Head(win: seq<Slot>, h: nat)
    requires HeadHeld(win)
  {
    h == 0 || FrameStart(win, h)
  }

  /** How many frames begin in the first n slots. */
  ghost function Heads(win: seq<Slot>, n: nat): nat
    requires HeadHeld(win)
  {
    if n == 0 then 0 else Heads(win, n - 1) + if Head(win, n - 1) then 1 else 0
  }

  /** A place where frames can be cut off: where one begins, or behind the last. */
  ghost predicate Border(win: seq<Slot>, n: nat)
    requires HeadHeld(win)
  {
    n <= |win| && (n < |win| ==> Head(win, n))
  }

  /**
   * The state with the frames in the first n slots given up: their packets reported in order, each
   * frame counted, the first one's timestamp noted, the floor at the last packet gone.
   */
  ghost function GivenUp(st: State, n: nat): State
    requires HeadHeld(st.win) && Border(st.win, n)
  {
    if n == 0 then st
    else
      State(
        st.win[n..],
        Some(st.win[PrevHeld(st.win, n)].packet.seqno),
        if st.dropTs.None? then Some(st.win[0].packet.timestamp) else st.dropTs,
        st.released + HeldIn(st.win, n),
        st.drops + Heads(st.win, n))
  }

  ghost predicate GivesUp(st: State, st': State, n: nat)
    requires HeadHeld(st.win)
  {
    Border(st.win, n) && st' == GivenUp(st, n)
  }

  // ---- Giving up twice ----

  lemma {:induction false} HeldInParts(win: seq<Slot>, n: nat, m: nat)
    requires n + m <= |win|
    ensures HeldIn(win, n + m) == HeldIn(win, n) + HeldIn(win[n..], m)
    decreases m
  {
    if m == 0 {
    } else {
      HeldInParts(win, n, m - 1);
    }
  }

  lemma {:induction false} HeadsParts(win: seq<Slot>, n: nat, m: nat)
    requires HeadHeld(win) && n + m <= |win| && (n < |win| ==> win[n].Held? && Head(win, n))
    ensures HeadHeld(win[n..]) && Heads(win, n + m) == Heads(win, n) + Heads(win[n..], m)
    decreases m
  {
    if m == 0 {
    } else {
      HeadsParts(win, n, m - 1);
      SuffixFrameStarts(win, n, m - 1);
    }
  }

  lemma {:induction false} PrevHeldShift(win: seq<Slot>, n: nat, m: nat)
    requires HeadHeld(win) && 0 < m && n + m <= |win| && win[n].Held?
    ensures n + PrevHeld(win[n..], m) == PrevHeld(win, n + m)
    decreases m
  {
    if win[n + m - 1].Missing? {
      PrevHeldShift(win, n, m - 1);
    }
  }

  /** Field by field. */
  ghost predicate PartsGivenUp(a: State, b: State, n: nat)
    requires HeadHeld(a.win) && 0 < n <= |a.win|
  {
    && b.win == a.win[n..]
    && b.floor == Some(a.win[PrevHeld(a.win, n)].packet.seqno)
    && b.dropTs == (if a.dropTs.None? then Some(a.win[0].packet.timestamp) else a.dropTs)
    && b.released == a.released + HeldIn(a.win, n)
    && b.drops == a.drops + Heads(a.win, n)
  }

  lemma PartsGiveUp(a: State, b: State, n: nat)
    requires HeadHeld(a.win) && 0 < n && Border(a.win, n)
    ensures GivesUp(a, b, n) <==> PartsGivenUp(a, b, n)
  {
  }

  lemma PartsTwice(a: State, b: State, d: State, n: nat, m: nat)
    requires HeadHeld(a.win) && 0 < n && Border(a.win, n) && PartsGivenUp(a, b, n)
    requires HeadHeld(b.win) && 0 < m && Border(b.win, m) && PartsGivenUp(b, d, m)
    ensures PartsGivenUp(a, d, n + m)
  {
    BordersTwice(a.win, b.win, n, m);
    HeldInParts(a.win, n, m);
    HeadsParts(a.win, n, m);
    PrevHeldShift(a.win, n, m);
  }

  lemma GivesUpTwice(a: State, b: State, d: State, n: nat, m: nat) returns (sum: nat)
    requires HeadHeld(a.win) && GivesUp(a, b, n) && HeadHeld(b.win) && GivesUp(b, d, m)
    ensures sum == n + m && GivesUp(a, d, sum)
  {
    sum := n + m;
    if n == 0 || m == 0 {
      assert a == b || b == d;
    } else {
      PartsGiveUp(a, b, n);
      PartsGiveUp(b, d, m);
      BordersTwice(a.win, b.win, n, m);
      PartsTwice(a, b, d, n, m);
      PartsGiveUp(a, d, sum);
    }
  }

  lemma BordersTwice(win: seq<Slot>, rest: seq<Slot>, n: nat, m: nat)
    requires HeadHeld(win) && Border(win, n) && rest == win[n..] && HeadHeld(rest) && Border(rest, m)
    ensures Border(win, n + m) && rest[m..] == win[n + m..]
  {
    if m < |rest| {
      SuffixFrameStarts(win, n, m);
    }
  }

  // ---- One frame ----

  /** Released one by one: the slots before d, all in one frame so far. */
  ghost predicate ReleasedTo(win: seq<Slot>, released: seq<Packet>, st: State, d: nat)
    requires HeadHeld(win)
  {
    && 0 < d <= |win| && st.win == win[d..] && HeadHeld(st.win)
    && st.released == released + HeldIn(win, d)
    && st.floor == Some(win[PrevHeld(win, d)].packet.seqno)
  }

  /** Only missing slots between two held ones. */
  lemma {:induction false} HeldInGap(win: seq<Slot>, d: nat, e: nat)
    requires d <= e <= |win| && forall k :: d <= k < e ==> win[k].Missing?
    ensures HeldIn(win, e) == HeldIn(win, d)
    decreases e
  {
    if d < e {
      HeldInGap(win, d, e - 1);
    }
  }

  lemma {:induction false} PrevHeldGap(win: seq<Slot>, d: nat, e: nat)
    requires d < e <= |win| && win[0].Held? && win[d].Held? && forall k :: d < k < e ==> win[k].Missing?
    ensures PrevHeld(win, e) == d
    decreases e
  {
    if d < e - 1 {
      PrevHeldGap(win, d, e - 1);
    }
  }

  lemma ReleaseOne(win: seq<Slot>, released: seq<Packet>, st: State, d: nat) returns (e: nat)
    requires HeadHeld(win) && d < |win| && win[d].Held? && st.win == win[d..]
    requires st.released == released + HeldIn(win, d)
    ensures d < e && ReleasedTo(win, released, Release(st, true), e)
    ensures forall k :: d < k < e ==> win[k].Missing?
  {
    e := ReleaseAt(win, st, d);
    HeldInGap(win, d + 1, e);
    PrevHeldGap(win, d, e);
    assert HeldIn(win, d + 1) == HeldIn(win, d) + [win[d].packet];
  }

  lemma {:induction false} DropRestReleases(win: seq<Slot>, released: seq<Packet>, st: State, d: nat) returns (e: nat)
    requires HeadHeld(win) && ReleasedTo(win, released, st, d)
    ensures d <= e && ReleasedTo(win, released, DropRest(st, win[PrevHeld(win, d)].packet.timestamp), e)
    ensures forall b :: d <= b < e ==> !FrameStart(win, b)
    ensures e < |win| ==> FrameStart(win, e)
    decreases |st.win|
  {
    var ts := win[PrevHeld(win, d)].packet.timestamp;
    if st.win != [] && !win[d].start && win[d].packet.timestamp == ts {
      var d' := ReleaseOne(win, released, st, d);
      NoStartWithin(win, d, d');
      e := DropRestReleases(win, released, Release(st, true), d');
    } else {
      e := d;
    }
  }

  lemma {:induction false} HeadsOfOne(win: seq<Slot>, n: nat)
    requires HeadHeld(win) && 0 < n <= |win| && forall b :: 0 < b < n ==> !FrameStart(win, b)
    ensures Heads(win, n) == 1
    decreases n
  {
    if n > 1 {
      HeadsOfOne(win, n - 1);
    }
  }

  lemma {:induction false} DropRestOnlyTrims(st: State, ts: u32)
    requires HeadHeld(st.win)
    ensures DropRest(st, ts).drops == st.drops && DropRest(st, ts).dropTs == st.dropTs
    decreases |st.win|
  {
    if !(st.win == [] || st.win[0].start || st.win[0].packet.timestamp != ts) {
      DropRestOnlyTrims(Release(st, true), ts);
    }
  }

  ghost predicate NoStartBefore(win: seq<Slot>, n: nat)
    requires HeadHeld(win)
  {
    forall b :: 0 < b < n ==> !FrameStart(win, b)
  }

  /** Releasing the first frame. */
  lemma FrameReleased(st: State) returns (gone: State, n: nat)
    requires st.win != [] && st.win[0].Held?
    ensures gone == FrameGone(st, st.win[0].packet.timestamp)
    ensures ReleasedTo(st.win, st.released, gone, n) && Border(st.win, n) && NoStartBefore(st.win, n)
    ensures gone.drops == st.drops && gone.dropTs == st.dropTs
  {
    var ts := st.win[0].packet.timestamp;
    var d := ReleaseOne(st.win, st.released, st, 0);
    PrevHeldGap(st.win, 0, d);
    n := DropRestReleases(st.win, st.released, Release(st, true), d);
    DropRestOnlyTrims(Release(st, true), ts);
    gone := FrameGone(st, ts);
  }

  /** One drop gives up exactly the first frame. */
  lemma DropCut(st: State) returns (next: State, n: nat)
    requires st.win != [] && st.win[0].Held?
    ensures next == Drop(st) && 0 < n && GivesUp(st, next, n) && NoStartBefore(st.win, n)
  {
    var gone: State;
    gone, n := FrameReleased(Counted(st));
    HeadsOfOne(st.win, n);
    next := Stamped(gone, st.win[0].packet.timestamp);
    PartsGiveUp(st, next, n);
  }

  // ---- One frame after the other ----

  ghost predicate Dropped(a: State, b: State) {
    a.win != [] && a.win[0].Held? && b == Drop(a)
  }

  ghost predicate Chain(states: seq<State>) {
    |states| > 0 && forall i :: 0 < i < |states| ==> Dropped(states[i-1], states[i])
  }

  lemma ChainAfter(st: State, states: seq<State>) returns (all: seq<State>)
    requires Chain(states) && Dropped(st, states[0])
    ensures Chain(all) && all == [st] + states
  {
    all := [st] + states;
    forall i | 0 < i < |all| ensures Dropped(all[i-1], all[i]) {
      if i > 1 {
        assert Dropped(states[i-2], states[i-1]);
      }
    }
  }

  lemma ChainRest(states: seq<State>)
    requires Chain(states) && |states| > 1
    ensures Dropped(states[0], states[1]) && Chain(states[1..])
  {
    forall i | 0 < i < |states[1..]| ensures Dropped(states[1..][i-1], states[1..][i]) {
      assert Dropped(states[i], states[i+1]);
    }
  }

  /** The window stays longer than limit until the last state. */
  ghost predicate LongUntilLast(states: seq<State>, limit: int) {
    forall i :: 0 <= i < |states| - 1 ==> |states[i].win| > limit
  }

  /** n is the first place, where a frame begins or at the end, where the window is down to limit slots. */
  ghost predicate FirstThatFits(win: seq<Slot>, limit: int, n: nat)
    requires HeadHeld(win)
  {
    && n <= |win| && |win| - n <= limit
    && forall b: nat :: b < n && Head(win, b) ==> |win| - b > limit
  }

  /** rest is win without its first frame, n slots long. */
  ghost predicate OneOff(win: seq<Slot>, rest: seq<Slot>, n: nat) {
    && HeadHeld(win) && HeadHeld(rest) && 0 < n <= |win| && rest == win[n..] && NoStartBefore(win, n)
  }

  lemma OneMoreGivenUp(a: State, b: State, end: State, m: nat) returns (n: nat)
    requires Dropped(a, b) && HeadHeld(b.win) && GivesUp(b, end, m)
    ensures GivesUp(a, end, n)
  {
    var next, first := DropCut(a);
    n := GivesUpTwice(a, next, end, first, m);
  }

  /** A chain gives up the frames between its first window and its last. */
  lemma {:induction false} ChainGivesUp(states: seq<State>) returns (n: nat)
    requires Chain(states) && HeadHeld(states[0].win)
    ensures GivesUp(states[0], states[|states| - 1], n)
    decreases |states|
  {
    if |states| == 1 {
      n := 0;
    } else {
      ChainRest(states);
      var m := ChainGivesUp(states[1..]);
      n := OneMoreGivenUp(states[0], states[1], states[|states| - 1], m);
    }
  }

  /** No border is passed over. */
  lemma {:induction false} ChainFits(states: seq<State>, limit: int, n: nat)
    requires Chain(states) && HeadHeld(states[0].win) && LongUntilLast(states, limit)
    requires |states[|states| - 1].win| + n == |states[0].win| && |states[|states| - 1].win| <= limit
    ensures FirstThatFits(states[0].win, limit, n)
    decreases |states|
  {
    if |states| == 1 {
    } else {
      ChainRest(states);
      var first := FirstOff(states[0], states[1]);
      ChainShortens(states[1..]);
      ChainFits(states[1..], limit, n - first);
      FitsLater(states[0].win, states[1].win, limit, first, n - first);
    }
  }

  lemma {:induction false} ChainShortens(states: seq<State>)
    requires Chain(states)
    ensures |states[|states| - 1].win| <= |states[0].win|
    decreases |states|
  {
    if |states| == 1 {
    } else {
      ChainRest(states);
      var n := FirstOff(states[0], states[1]);
      ChainShortens(states[1..]);
    }
  }

  lemma FirstOff(a: State, b: State) returns (n: nat)
    requires Dropped(a, b)
    ensures OneOff(a.win, b.win, n)
  {
    n := DropCutsAtFrameStart(a);
  }

  lemma FitsLater(win: seq<Slot>, rest: seq<Slot>, limit: int, n: nat, m: nat)
    requires OneOff(win, rest, n) && |win| > limit && FirstThatFits(rest, limit, m)
    ensures FirstThatFits(win, limit, n + m)
  {
    forall b: nat | b < n + m && Head(win, b) ensures |win| - b > limit {
      if b >= n {
        SuffixFrameStarts(win, n, b - n);
        assert Head(rest, b - n);
      }
    }
  }

  // ---- The loops ----

  lemma {:induction false} MakeSpaceChain(c: Config, st: State, count: nat) returns (states: seq<State>)
    requires HeadHeld(st.win) && count + 1 < c.Cap()
    ensures Chain(states) && states[0] == st && LongUntilLast(states, c.Cap() - count - 2)
    ensures MakeSpace(c, st, count) == Some(states[|states| - 1])
    decreases |st.win|
  {
    if |st.win| + count + 1 < c.Cap() {
      states := [st];
    } else {
      var rest := MakeSpaceChain(c, Drop(st), count);
      states := ChainAfter(st, rest);
    }
  }

  /** The make-space loop gives up no more frames than it must for the gap and the packet to fit. */
  lemma MakeSpaceGivesUp(c: Config, st: State, count: nat) returns (room: State, n: nat)
    requires HeadHeld(st.win) && count + 1 < c.Cap()
    ensures MakeSpace(c, st, count) == Some(room) && GivesUp(st, room, n)
    ensures FirstThatFits(st.win, c.Cap() - count - 2, n)
  {
    var states := MakeSpaceChain(c, st, count);
    room := states[|states| - 1];
    n := ChainGivesUp(states);
    ChainFits(states, c.Cap() - count - 2, n);
  }

  lemma {:induction false} DropAllChain(st: State) returns (states: seq<State>)
    requires HeadHeld(st.win)
    ensures Chain(states) && states[0] == st && states[|states| - 1] == DropAll(st)
    decreases |st.win|
  {
    if st.win == [] {
      states := [st];
    } else {
      var rest := DropAllChain(Drop(st));
      states := ChainAfter(st, rest);
    }
  }

  /** A packet that needs the whole buffer as its gap empties it, frame by frame. */
  lemma DropAllGivesUp(st: State) returns (end: State, n: nat)
    requires HeadHeld(st.win)
    ensures end == DropAll(st) && n == |st.win| && GivesUp(st, end, n)
  {
    var states := DropAllChain(st);
    end := states[|states| - 1];
    n := ChainGivesUp(states);
    GivesUpCuts(st, end, n);
  }

  lemma GivesUpCuts(a: State, b: State, n: nat)
    requires HeadHeld(a.win) && GivesUp(a, b, n)
    ensures b.win == a.win[n..]
  {
  }

  lemma {:induction false} SettledChain(c: Config, st: State, force: bool) returns (states: seq<State>)
    requires EndsHeld(st.win)
    ensures Chain(states) && states[0] == st && states[|states| - 1] == Settled(c, st, force)
    decreases |st.win|
  {
    if st.win != [] && Decide(c, st, force).Discard? {
      var rest := SettledChain(c, Drop(st), force);
      states := ChainAfter(st, rest);
    } else {
      states := [st];
    }
  }

  /** Before a pop delivers or waits it has given up whole frames at the tail. */
  lemma SettledGivesUp(c: Config, st: State, force: bool) returns (n: nat)
    requires EndsHeld(st.win)
    ensures GivesUp(st, Settled(c, st, force), n)
  {
    var states := SettledChain(c, st, force);
    n := ChainGivesUp(states);
  }

  // ---- What a push gives up ----

  /** How many slots a packet placed after the newest one takes, and how many may be left beside them. */
  function Taken(place: Place): nat
    requires place.Next? || place.Ahead?
  {
    if place.Ahead? then place.count + 1 else 1
  }

  /** Beside a gap one slot of the capacity stays free. */
  function Limit(c: Config, place: Place): int
    requires place.Next? || place.Ahead?
  {
    if place.Ahead? then c.Cap() - Taken(place) - 1 else c.Cap() - 1
  }

  ghost predicate SamePacket(a: Slot, b: Slot) {
    a.Held? == b.Held? && (a.Held? ==> a.packet == b.packet)
  }

  /** win holds what kept does, then missing slots, then p. */
  ghost predicate Grown(kept: seq<Slot>, win: seq<Slot>, taken: nat, p: Packet) {
    && taken > 0 && |win| == |kept| + taken
    && (forall i :: 0 <= i < |kept| ==> SamePacket(win[i], kept[i]))
    && (forall i :: |kept| <= i < |win| - 1 ==> win[i].Missing?)
    && win[|win| - 1].Held? && win[|win| - 1].packet == p
  }

  lemma AppendGrows(c: Config, st: State, p: Packet) returns (n: nat, kept: State)
    requires Valid(c, st) && st.win != []
    ensures GivesUp(st, kept, n) && FirstThatFits(st.win, c.Cap() - 1, n)
    ensures var r := Append(c, st, p); Grown(kept.win, r.win, 1, p) && r == kept.(win := r.win)
  {
    if |st.win| == c.Cap() {
      kept, n := DropWhenFull(c, st);
    } else {
      n, kept := 0, st;
    }
    AppendToGrows(c, kept, p);
  }

  lemma DropWhenFull(c: Config, st: State) returns (kept: State, n: nat)
    requires Valid(c, st) && |st.win| == c.Cap()
    ensures kept == Drop(st) && EndsHeld(kept.win) && GivesUp(st, kept, n)
    ensures FirstThatFits(st.win, c.Cap() - 1, n)
  {
    DropKeepsValid(c, st);
    kept := Drop(st);
    n := OneGivenUp(st, kept, c.Cap() - 1);
  }

  lemma OneGivenUp(a: State, b: State, limit: int) returns (n: nat)
    requires Dropped(a, b) && HeadHeld(a.win) && |b.win| <= limit < |a.win|
    ensures GivesUp(a, b, n) && FirstThatFits(a.win, limit, n)
  {
    n := ChainGivesUp([a, b]);
    ChainFits([a, b], limit, n);
  }

  lemma AheadGrows(win: seq<Slot>, count: nat, s: Slot)
    requires s.Held?
    ensures Grown(win, win + Gap(count) + [s], count + 1, s.packet)
  {
  }

  lemma AppendToGrows(c: Config, st: State, p: Packet)
    requires EndsHeld(st.win)
    ensures var r := AppendTo(c, st, p); Grown(st.win, r.win, 1, p) && r == st.(win := r.win)
  {
  }

  lemma InsertAheadGrows(c: Config, st: State, p: Packet, count: nat) returns (n: nat, kept: State)
    requires Valid(c, st) && count + 1 < c.Cap()
    ensures GivesUp(st, kept, n) && FirstThatFits(st.win, c.Cap() - count - 2, n)
    ensures var r := InsertAhead(c, st, p, count); Grown(kept.win, r.win, count + 1, p) && r == kept.(win := r.win)
  {
    kept, n := MakeSpaceGivesUp(c, st, count);
    AheadGrows(kept.win, count, c.Fresh(p));
  }

  /**
   * A packet accepted after the newest one: the frames given up are those at the tail, as few as make
   * room for it and the gap before it; everything else stays where it is.
   */
  lemma PushGivesUp(c: Config, st: State, p: Packet) returns (moved: State, n: nat, kept: State)
    requires Valid(c, st) && st.win != [] && !Ignored(c, st, p)
    requires PlaceOf(c, st.win, p).Next? || PlaceOf(c, st.win, p).Ahead?
    ensures AdvanceFloor(c, st, p) == Some(moved) && GivesUp(moved, kept, n)
    ensures FirstThatFits(st.win, Limit(c, PlaceOf(c, st.win, p)), n)
    ensures var r := Push(c, st, p);
      Grown(kept.win, r.win, Taken(PlaceOf(c, st.win, p)), p) && r == kept.(win := r.win)
  {
    moved := AdvanceFloor(c, st, p).value;
    AdvanceFloorKeepsValid(c, st, p);
    match PlaceOf(c, st.win, p)
    case Next => n, kept := AppendGrows(c, moved, p);
    case Ahead(count) => n, kept := InsertAheadGrows(c, moved, p, count);
  }
}
