/** Reassembling data track frames on values: what each push does to the partial frames. */
module DataTrackReassembly {
  import opened Machine
  import opened DataTrackPackets

  const MAX_BUFFER_PACKETS := 128

  datatype Partial = Partial(startSequence: u16, extensions: Extensions, payloads: map<u16, bytes>)

  datatype Frame = Frame(payload: bytes, extensions: Extensions)

  datatype Drop =
    | Interrupted(frameNumber: u16, newFrameNumber: u16)
    | UnknownFrame(frameNumber: u16)
    | BufferFull(frameNumber: u16)
    | Incomplete(frameNumber: u16, received: u16, expected: u16)

  datatype Result = Result(frame: Option<Frame>, drop: Option<Drop>)

  /** partials by frame number, and their frame numbers in insertion order, oldest first. */
  datatype State = State(partials: map<u16, Partial>, order: seq<u16>)

  function IndexOf(order: seq<u16>, n: u16): (i: int)
    ensures -1 <= i < |order| && (i >= 0 ==> order[i] == n) && (i < 0 ==> n !in order)
    ensures forall j :: 0 <= j < i ==> order[j] != n
  {
    if order == [] then -1
    else if order[0] == n then 0
    else var i := IndexOf(order[1..], n); if i < 0 then -1 else i + 1
  }

  function Without(order: seq<u16>, n: u16): seq<u16> {
    var i := IndexOf(order, n);
    if i < 0 then order else order[..i] + order[i+1..]
  }

  function Remove(d: State, n: u16): State {
    State(d.partials - {n}, Without(d.order, n))
  }

  function Evict(d: State, newFrame: u16): (State, Option<Drop>) {
    if d.order == [] then (d, None)
    else (Remove(d, d.order[0]), Some(Interrupted(d.order[0], newFrame)))
  }

  /** The eviction loop of a new frame: the state it leaves, and the first drop. */
  function MakeRoom(d: State, maxPartials: int, newFrame: u16, drop: Option<Drop>): (State, Option<Drop>)
    decreases |d.order|
  {
    if |d.partials| < maxPartials || d.order == [] then (d, drop)
    else
      var (d', evicted) := Evict(d, newFrame);
      assert |d'.order| < |d.order|;
      MakeRoom(d', maxPartials, newFrame, if drop.None? then evicted else drop)
  }

  function BeginPartial(d: State, p: Packet, maxPartials: int): (State, Result) {
    var (room, drop) := MakeRoom(d, maxPartials, p.frameNumber, None);
    (Begun(room, p), Result(None, drop))
  }

  function Begun(d: State, p: Packet): State {
    State(d.partials[p.frameNumber := Partial(p.sequence, p.extensions, map[p.sequence := p.payload])],
          if p.frameNumber in d.partials then d.order else d.order + [p.frameNumber])
  }

  /** The stored payloads from sequence up to end, or None at the first one missing. */
  function Assemble(payloads: map<u16, bytes>, sequence: u16, end: u16): Option<bytes>
    decreases Sub16(end, sequence)
  {
    if sequence !in payloads then None
    else if sequence == end then Some(payloads[sequence])
    else
      match Assemble(payloads, Add16(sequence, 1), end)
      case None => None
      case Some(rest) => Some(payloads[sequence] + rest)
  }

  function Finalize(n: u16, partial: Partial, end: u16): Result {
    var received: u16 := |partial.payloads| % 0x1_0000;
    var expected := Add16(Sub16(end, partial.startSequence), 1);
    if received != expected then Result(None, Some(Incomplete(n, received, expected)))
    else
      match Assemble(partial.payloads, partial.startSequence, end)
      case None => Result(None, Some(Incomplete(n, received, expected)))
      case Some(payload) => Result(Some(Frame(payload, partial.extensions)), None)
  }

  function PushToPartial(d: State, p: Packet): (State, Result) {
    var n := p.frameNumber;
    if n !in d.partials then (d, Result(None, Some(UnknownFrame(n))))
    else if |d.partials[n].payloads| >= MAX_BUFFER_PACKETS then (Remove(d, n), Result(None, Some(BufferFull(n))))
    else
      var partial := d.partials[n].(payloads := d.partials[n].payloads[p.sequence := p.payload]);
      if p.Marker() == Final then (Remove(d, n), Finalize(n, partial, p.sequence))
      else (d.(partials := d.partials[n := partial]), Result(None, None))
  }

  function Push(d: State, p: Packet, maxPartials: int): (State, Result) {
    match p.Marker()
    case Single =>
      var (d', drop) := if |d.partials| >= maxPartials then Evict(d, p.frameNumber) else (d, None);
      (d', Result(Some(Frame(p.payload, p.extensions)), drop))
    case Start => BeginPartial(d, p, maxPartials)
    case Inter => PushToPartial(d, p)
    case Final => PushToPartial(d, p)
  }

  // ---- The invariant of the partial frames ----

  /** order lists the elements of keys, once each. */
  ghost predicate Lists(order: seq<u16>, keys: set<u16>) {
    && (forall i, j :: 0 <= i < j < |order| ==> order[i] != order[j])
    && (forall n :: n in order <==> n in keys)
  }

  /** order lists the keys of partials once each; partials are nonempty, bounded and hold their start. */
  ghost predicate Valid(d: State) {
    && Lists(d.order, d.partials.Keys)
    && (forall n :: n in d.partials ==> Sound(d.partials[n]))
  }

  predicate Sound(partial: Partial) {
    partial.startSequence in partial.payloads && |partial.payloads| <= MAX_BUFFER_PACKETS
  }

  lemma RemoveKeepsValid(d: State, n: u16)
    requires Valid(d)
    ensures Valid(Remove(d, n))
  {
  }

  lemma {:induction false} MakeRoomKeepsValid(d: State, maxPartials: int, newFrame: u16, drop: Option<Drop>)
    requires Valid(d)
    ensures var room := MakeRoom(d, maxPartials, newFrame, drop).0;
      Valid(room) && (|room.partials| < maxPartials || room.partials == map[])
    decreases |d.order|
  {
    if d.order == [] {
      assert forall n :: n !in d.partials;
    } else if |d.partials| >= maxPartials {
      RemoveKeepsValid(d, d.order[0]);
      var (d', evicted) := Evict(d, newFrame);
      MakeRoomKeepsValid(d', maxPartials, newFrame, if drop.None? then evicted else drop);
    }
  }

  /** Every push keeps the invariant; a Start leaves at most maxPartials frames, or the one it began. */
  lemma PushKeepsValid(d: State, p: Packet, maxPartials: int)
    requires Valid(d)
    ensures Valid(Push(d, p, maxPartials).0)
    ensures p.Marker() == Start ==>
      var d' := Push(d, p, maxPartials).0;
      p.frameNumber in d'.partials && |d'.partials| <= if maxPartials < 1 then 1 else maxPartials
  {
    match p.Marker()
    case Single =>
      if |d.partials| >= maxPartials && d.order != [] {
        RemoveKeepsValid(d, d.order[0]);
      }
    case Start => BeginKeepsValid(d, p, maxPartials);
    case Inter => PushToPartialKeepsValid(d, p);
    case Final => PushToPartialKeepsValid(d, p);
  }

  lemma BeginKeepsValid(d: State, p: Packet, maxPartials: int)
    requires Valid(d)
    ensures var d' := BeginPartial(d, p, maxPartials).0;
      Valid(d') && p.frameNumber in d'.partials && |d'.partials| <= if maxPartials < 1 then 1 else maxPartials
  {
    MakeRoomKeepsValid(d, maxPartials, p.frameNumber, None);
    BegunKeepsValid(MakeRoom(d, maxPartials, p.frameNumber, None).0, p);
  }

  lemma BegunKeepsValid(d: State, p: Packet)
    requires Valid(d)
    ensures Valid(Begun(d, p)) && p.frameNumber in Begun(d, p).partials && |Begun(d, p).partials| <= |d.partials| + 1
  {
    var partial := Partial(p.sequence, p.extensions, map[p.sequence := p.payload]);
    AddedKey(d.partials, p.frameNumber, partial);
    assert |partial.payloads| == 1;
    BegunLists(d, p.frameNumber);
    forall n | n in Begun(d, p).partials ensures Sound(Begun(d, p).partials[n]) {
      assert n != p.frameNumber ==> Sound(d.partials[n]);
    }
  }

  lemma BegunLists(d: State, n: u16)
    requires Valid(d)
    ensures Lists(if n in d.partials then d.order else d.order + [n], d.partials.Keys + {n})
  {
    if n !in d.partials {
      ListsOneMore(d.order, d.partials.Keys, n);
    } else {
      assert d.partials.Keys + {n} == d.partials.Keys;
    }
  }

  lemma AddedKey<T>(m: map<u16, T>, k: u16, v: T)
    ensures |m[k := v]| <= |m| + 1 && m[k := v].Keys == m.Keys + {k}
  {
  }

  lemma ListsOneMore(order: seq<u16>, keys: set<u16>, n: u16)
    requires Lists(order, keys) && n !in keys
    ensures Lists(order + [n], keys + {n})
  {
  }

  lemma PushToPartialKeepsValid(d: State, p: Packet)
    requires Valid(d)
    ensures Valid(PushToPartial(d, p).0)
  {
    RemoveKeepsValid(d, p.frameNumber);
    if p.frameNumber in d.partials && |d.partials[p.frameNumber].payloads| < MAX_BUFFER_PACKETS {
      AddedKey(d.partials[p.frameNumber].payloads, p.sequence, p.payload);
    }
  }
}
