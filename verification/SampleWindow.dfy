/**
 * The sample builder on values: the occupied part of the ring read off as a sequence, oldest slot
 * first. Each operation of the builder is a function on that window; the class SampleRing.Builder
 * implements them in place on the circular array, and the lemmas here are about what any run of
 * them delivers, keeps and loses.
 */
module SampleWindow {
  import opened Machine

  datatype Packet = Packet(seqno: u16, timestamp: u32, marker: bool, payload: seq<u8>)

  /** A ring slot; a Missing slot is the zero value, whose flags read as false. */
  datatype Slot = Missing | Held(start: bool, end: bool, packet: Packet)

  /** The depacketizer, an arbitrary pair of partition tests, and the lateness bound. */
  datatype Config = Config(
    maxLate: nat,
    isPartitionHead: seq<u8> -> bool,
    isPartitionTail: (bool, seq<u8>) -> bool)
  {
    /** What the constructor makes of any bound it is given. */
    predicate Allowed() {
      2 <= maxLate <= 0x7FFF
    }

    predicate InRange() {
      2 <= maxLate <= 0x4000
    }

    function Cap(): nat {
      2 * maxLate
    }

    predicate IsStart(p: Packet) {
      |p.payload| == 0 || isPartitionHead(p.payload)
    }

    predicate IsEnd(p: Packet) {
      |p.payload| == 0 || isPartitionTail(p.marker, p.payload)
    }

    function Fresh(p: Packet): Slot {
      Held(IsStart(p), IsEnd(p), p)
    }
  }

  /**
   * floor is the last popped or dropped sequence number, None while it is not valid. released is
   * the log of the packets handed to the release handler, drops counts dropped frames, and dropTs
   * is the timestamp recorded for the sample clock.
   */
  datatype State = State(
    win: seq<Slot>,
    floor: Option<u16>,
    dropTs: Option<u32>,
    released: seq<Packet>,
    drops: nat)

  predicate HeadHeld(win: seq<Slot>) {
    win != [] ==> win[0].Held?
  }

  predicate EndsHeld(win: seq<Slot>) {
    win != [] ==> win[0].Held? && win[|win| - 1].Held?
  }

  /** The builder's own invariant, clause by clause, on the window. */
  ghost predicate Check(win: seq<Slot>, floor: Option<u16>) {
    win != [] ==>
      && win[0].Held?
      && win[|win| - 1].Held?
      && AfterFloor(win[0].packet.seqno, floor)
      && |win| <= 0x1_0000
      && Sequential(win)
      && FlagsRight(win)
  }

  predicate AfterFloor(seqno: u16, floor: Option<u16>) {
    floor.Some? ==> 1 <= Sub16(seqno, floor.value) < 0x8000
  }

  ghost predicate Sequential(win: seq<Slot>)
    requires HeadHeld(win) && |win| <= 0x1_0000
  {
    forall i :: 0 <= i < |win| ==> SeqnoAt(win, i)
  }

  ghost predicate SeqnoAt(win: seq<Slot>, i: nat)
    requires HeadHeld(win) && i < |win| <= 0x1_0000
  {
    win[i].Held? ==> win[i].packet.seqno == Add16(win[0].packet.seqno, i)
  }

  /** Between neighbours of different timestamps the flags are set. */
  ghost predicate FlagsRight(win: seq<Slot>) {
    forall i :: 0 < i < |win| ==> FlagsAt(win, i)
  }

  ghost predicate FlagsAt(win: seq<Slot>, i: nat)
    requires 0 < i < |win|
  {
    (win[i].Held? && win[i-1].Held? && win[i].packet.timestamp != win[i-1].packet.timestamp) ==>
      win[i].start && win[i-1].end
  }

  ghost predicate Fits(c: Config, win: seq<Slot>, floor: Option<u16>) {
    c.InRange() && |win| <= c.Cap() && Check(win, floor)
  }

  ghost predicate Valid(c: Config, st: State) {
    Fits(c, st.win, st.floor)
  }

  // ---- Releasing and dropping ----

  predicate SameLast(r: seq<Slot>, win: seq<Slot>) {
    r != [] ==> win != [] && r[|r| - 1] == win[|win| - 1]
  }

  /** The first held slot from index from on, or the end of the window. */
  function FirstHeld(win: seq<Slot>, from: nat): (e: nat)
    requires from <= |win|
    ensures from <= e <= |win| && (e < |win| ==> win[e].Held?)
    ensures forall k :: from <= k < e ==> win[k].Missing?
    decreases |win| - from
  {
    if from < |win| && win[from].Missing? then FirstHeld(win, from + 1) else from
  }

  /** Removing the slots up to the held slot last, and the gap after it. */
  function Cut(st: State, last: nat): (r: State)
    requires last < |st.win| && st.win[last].Held?
    ensures HeadHeld(r.win) && |r.win| < |st.win| && SameLast(r.win, st.win)
  {
    st.(win := st.win[FirstHeld(st.win, last + 1)..], floor := Some(st.win[last].packet.seqno))
  }

  function Release(st: State, report: bool): (r: State)
    requires st.win != [] && st.win[0].Held?
    ensures HeadHeld(r.win) && |r.win| < |st.win| && SameLast(r.win, st.win)
  {
    var r := Cut(st, 0);
    if report then r.(released := st.released + [st.win[0].packet]) else r
  }

  function ReleaseAll(st: State): (r: State)
    requires HeadHeld(st.win)
    ensures r.win == []
    decreases |st.win|
  {
    if st.win == [] then st else ReleaseAll(Release(st, true))
  }

  function DropRest(st: State, ts: u32): (r: State)
    requires HeadHeld(st.win)
    ensures HeadHeld(r.win) && |r.win| <= |st.win| && SameLast(r.win, st.win)
    decreases |st.win|
  {
    if st.win == [] || st.win[0].start || st.win[0].packet.timestamp != ts then st
    else DropRest(Release(st, true), ts)
  }

  function Drop(st: State): (r: State)
    requires st.win != [] && st.win[0].Held?
    ensures HeadHeld(r.win) && |r.win| < |st.win| && SameLast(r.win, st.win)
  {
    var ts := st.win[0].packet.timestamp;
    Stamped(FrameGone(Counted(st), ts), ts)
  }

  function FrameGone(st: State, ts: u32): (r: State)
    requires st.win != [] && st.win[0].Held?
    ensures HeadHeld(r.win) && |r.win| < |st.win| && SameLast(r.win, st.win)
  {
    DropRest(Release(st, true), ts)
  }

  function Counted(st: State): State {
    st.(drops := st.drops + 1)
  }

  /** The timestamp of the first frame dropped seeds the sample clock. */
  function Stamped(st: State, ts: u32): State {
    if st.dropTs.None? then st.(dropTs := Some(ts)) else st
  }

  // ---- Pushing ----

  /** The lateness test at the top of a push; None refuses the packet. */
  function AdvanceFloor(c: Config, st: State, p: Packet): (r: Option<State>)
    requires c.Allowed() && HeadHeld(st.win)
    ensures r.Some? ==> r.value.win == st.win && r.value == st.(floor := r.value.floor)
  {
    if st.floor.None? then Some(st)
    else
      var behind := Sub16(st.floor.value, p.seqno);
      if Forward16(behind) then
        if behind > c.maxLate then Some(st.(floor := None)) else None
      else
        var last := Sub16(p.seqno, c.maxLate);
        if !Forward16(Sub16(last, st.floor.value)) then Some(st)
        else if st.win == [] then Some(st.(floor := Some(last)))
        else
          var beforeTail := Sub16(st.win[0].packet.seqno, 1);
          Some(st.(floor := Some(if Forward16(Sub16(last, beforeTail)) then beforeTail else last)))
  }

  function Newest(win: seq<Slot>): Packet
    requires win != [] && win[|win| - 1].Held?
  {
    win[|win| - 1].packet
  }

  function Append(c: Config, st: State, p: Packet): State
    requires st.win != [] && EndsHeld(st.win)
  {
    AppendTo(c, if |st.win| == c.Cap() then Drop(st) else st, p)
  }

  function AppendTo(c: Config, st: State, p: Packet): State
    requires EndsHeld(st.win)
  {
    if st.win == [] then st.(win := [c.Fresh(p)])
    else
      var last := st.win[|st.win| - 1];
      var start := last.end || last.packet.timestamp != p.timestamp || c.IsStart(p);
      var win := if start then st.win[|st.win| - 1 := last.(end := true)] else st.win;
      st.(win := win + [Held(start, c.IsEnd(p), p)])
  }

  function MakeSpace(c: Config, st: State, count: nat): (r: Option<State>)
    requires HeadHeld(st.win)
    ensures r.Some? ==> HeadHeld(r.value.win) && |r.value.win| <= |st.win| && |r.value.win| + count + 1 < c.Cap()
    decreases |st.win|
  {
    if |st.win| + count + 1 < c.Cap() then Some(st)
    else if st.win == [] then None
    else MakeSpace(c, Drop(st), count)
  }

  function Gap(n: nat): (r: seq<Slot>)
    ensures |r| == n && forall i :: 0 <= i < n ==> r[i] == Missing
  {
    seq(n, _ => Missing)
  }

  /** When the make-space loop runs out of frames the packet is lost with them. */
  function InsertAhead(c: Config, st: State, p: Packet, count: nat): State
    requires HeadHeld(st.win)
  {
    match MakeSpace(c, st, count)
    case None => DropAll(st)
    case Some(room) => room.(win := room.win + Gap(count) + [c.Fresh(p)])
  }

  function DropAll(st: State): (r: State)
    requires HeadHeld(st.win)
    ensures r.win == []
    decreases |st.win|
  {
    if st.win == [] then st else DropAll(Drop(st))
  }

  /** Fills the slot count places back from the head, extending the window to it if necessary. */
  function Fill(c: Config, st: State, p: Packet, count: nat): State
    requires 2 <= count && HeadHeld(st.win) && st.win != []
  {
    var wide := Widen(st, count);
    FillAt(c, wide, |wide.win| - count, p)
  }

  function Widen(st: State, count: nat): State {
    if count <= |st.win| then st else st.(win := Gap(count - |st.win|) + st.win)
  }

  function FillAt(c: Config, st: State, at: nat, p: Packet): State
    requires at + 1 < |st.win|
  {
    if st.win[at].Held? then st.(released := st.released + [p])
    else st.(win := Settle(c, st.win, at, p))
  }

  /** Sets the slot and the flags of both neighbours. */
  function Settle(c: Config, win: seq<Slot>, at: nat, p: Packet): (r: seq<Slot>)
    requires at + 1 < |win|
    ensures |r| == |win|
  {
    var win1 := JoinPrevious(c, win, at, p);
    var win2 := JoinNext(c, win1, at, p);
    win2[at := Held(StartFlag(c, win, at, p), EndFlag(c, win1, at, p), p)]
  }

  predicate Differs(s: Slot, p: Packet) {
    s.Held? && s.packet.timestamp != p.timestamp
  }

  predicate ForcedStart(c: Config, win: seq<Slot>, at: nat, p: Packet)
    requires at < |win|
  {
    c.IsStart(p) || (at > 0 && Differs(win[at-1], p))
  }

  predicate StartFlag(c: Config, win: seq<Slot>, at: nat, p: Packet)
    requires at < |win|
  {
    ForcedStart(c, win, at, p) || (at > 0 && win[at-1].Held? && win[at-1].end)
  }

  function JoinPrevious(c: Config, win: seq<Slot>, at: nat, p: Packet): (r: seq<Slot>)
    requires at < |win|
    ensures |r| == |win|
  {
    if at > 0 && win[at-1].Held? && ForcedStart(c, win, at, p) then win[at-1 := win[at-1].(end := true)] else win
  }

  predicate ForcedEnd(c: Config, win: seq<Slot>, at: nat, p: Packet)
    requires at + 1 < |win|
  {
    c.IsEnd(p) || Differs(win[at+1], p)
  }

  predicate EndFlag(c: Config, win: seq<Slot>, at: nat, p: Packet)
    requires at + 1 < |win|
  {
    ForcedEnd(c, win, at, p) || (win[at+1].Held? && win[at+1].start)
  }

  function JoinNext(c: Config, win: seq<Slot>, at: nat, p: Packet): (r: seq<Slot>)
    requires at + 1 < |win|
    ensures |r| == |win|
  {
    if win[at+1].Held? && ForcedEnd(c, win, at, p) then win[at+1 := win[at+1].(start := true)] else win
  }

  /** Placement relative to the newest buffered packet; far says the gap exceeds the buffer. */
  datatype Place = First | Next | Ahead(count: u16) | Far | Behind(count: u16) | TooOld

  function PlaceOf(c: Config, win: seq<Slot>, p: Packet): Place
    requires win != [] ==> win[|win| - 1].Held?
  {
    if win == [] then First else PlaceAfter(c, Newest(win).seqno, p.seqno)
  }

  function PlaceAfter(c: Config, newest: u16, seqno: u16): Place {
    if seqno == Add16(newest, 1) then Next
    else if Forward16(Sub16(seqno, newest)) then
      var count := Sub16(Sub16(seqno, newest), 1);
      if count >= c.Cap() then Far else Ahead(count)
    else
      var count := Add16(Sub16(newest, seqno), 1);
      if count >= c.Cap() then TooOld else Behind(count)
  }

  function Push(c: Config, st: State, p: Packet): State
    requires c.Allowed() && EndsHeld(st.win)
  {
    match AdvanceFloor(c, st, p)
    case None => st
    case Some(moved) => Insert(c, moved, p)
  }

  function Insert(c: Config, st: State, p: Packet): State
    requires c.Allowed() && EndsHeld(st.win)
  {
    match PlaceOf(c, st.win, p)
    case First => st.(win := [c.Fresh(p)])
    case Next => Append(c, st, p)
    case Ahead(count) => InsertAhead(c, st, p, count)
    case Far => PushEmpty(c, ReleaseAll(st), p)
    case Behind(count) => Fill(c, st, p, count)
    case TooOld => st
  }

  function PushEmpty(c: Config, st: State, p: Packet): State
    requires c.Allowed() && st.win == []
  {
    match AdvanceFloor(c, st, p)
    case None => st
    case Some(st) => st.(win := [c.Fresh(p)])
  }

  // ---- Popping ----

  datatype Scan = EndAt(last: nat) | Hole | Open

  /** The scan for the first end flag, from slot k on. */
  function ScanFrom(win: seq<Slot>, k: nat): (r: Scan)
    requires k <= |win|
    ensures r.EndAt? ==> k <= r.last < |win| && win[r.last].Held? && win[r.last].end
    ensures r.EndAt? ==> forall i :: k <= i < r.last ==> win[i].Held? && !win[i].end
    decreases |win| - k
  {
    if k == |win| then Open
    else if win[k].Missing? then Hole
    else if win[k].end then EndAt(k)
    else ScanFrom(win, k + 1)
  }

  /** The packets of the first n slots, all held. */
  function Group(win: seq<Slot>, n: nat): (r: seq<Packet>)
    requires n <= |win| && forall i :: 0 <= i < n ==> win[i].Held?
    ensures |r| == n && forall i :: 0 <= i < n ==> r[i] == win[i].packet
  {
    seq(n, i requires 0 <= i < n => win[i].packet)
  }

  /** One decision of the pop loop. */
  datatype Decision = Wait | Discard | Deliver(last: nat)

  function Decide(c: Config, st: State, force: bool): (r: Decision)
    requires st.win != [] && st.win[0].Held? && st.win[|st.win| - 1].Held?
    ensures r.Deliver? ==> r.last < |st.win| && forall i :: 0 <= i <= r.last ==> st.win[i].Held?
  {
    if !st.win[0].start then
      if force || Sub16(Newest(st.win).seqno, st.win[0].packet.seqno) > c.maxLate then Discard else Wait
    else if !force && st.floor.Some? && Add16(st.floor.value, 1) != st.win[0].packet.seqno then Wait
    else
      match ScanFrom(st.win, 0)
      case Open => Wait
      case Hole => if force then Discard else Wait
      case EndAt(last) => Deliver(last)
  }

  /** The group delivered, [] for none, and the state after. */
  function Pop(c: Config, st: State, force: bool): (State, seq<Packet>)
    requires EndsHeld(st.win)
    decreases |st.win|
  {
    if st.win == [] then (st, [])
    else
      match Decide(c, st, force)
      case Wait => (st, [])
      case Discard => Pop(c, Drop(st), force)
      case Deliver(last) => (Cut(st, last), Group(st.win, last + 1))
  }
}
