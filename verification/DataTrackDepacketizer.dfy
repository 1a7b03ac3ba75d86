/** The depacketizer in place: a map of partial frames and the order they arrived in. */
module DataTrackDepacketizer {
  import opened Machine
  import opened DataTrackPackets
  import opened DataTrackReassembly

  class Depacketizer {
    var partials: map<u16, Partial>
    var order: seq<u16>

    function View(): State
      reads this
    {
      State(partials, order)
    }

    constructor ()
      ensures View() == State(map[], [])
    {
      partials, order := map[], [];
    }

    method Push(p: Packet, maxPartials: int) returns (r: Result)
      modifies this
      ensures (View(), r) == DataTrackReassembly.Push(old(View()), p, maxPartials)
    {
      match p.Marker()
      case Single => r := FrameFromSingle(p, maxPartials);
      case Start => r := BeginPartial(p, maxPartials);
      case _ => r := PushToPartial(p);
    }

    method FrameFromSingle(p: Packet, maxPartials: int) returns (r: Result)
      requires p.Marker() == Single
      modifies this
      ensures (View(), r) == DataTrackReassembly.Push(old(View()), p, maxPartials)
    {
      var drop := None;
      if |partials| >= maxPartials {
        drop := EvictOldest(p.frameNumber);
      }
      return Result(Some(Frame(p.payload, p.extensions)), drop);
    }

    method EvictOldest(newFrame: u16) returns (drop: Option<Drop>)
      modifies this
      ensures (View(), drop) == Evict(old(View()), newFrame)
    {
      if |order| == 0 {
        return None;
      }
      var oldest := order[0];
      Remove(oldest);
      return Some(Interrupted(oldest, newFrame));
    }

    method Remove(n: u16)
      modifies this
      ensures View() == DataTrackReassembly.Remove(old(View()), n)
    {
      partials := partials - {n};
      var i := IndexOf(order, n);
      if i >= 0 {
        order := order[..i] + order[i+1..];
      }
    }

    method BeginPartial(p: Packet, maxPartials: int) returns (r: Result)
      modifies this
      ensures (View(), r) == DataTrackReassembly.BeginPartial(old(View()), p, maxPartials)
    {
      var drop: Option<Drop> := None;
      while |partials| >= maxPartials
        invariant MakeRoom(View(), maxPartials, p.frameNumber, drop)
          == MakeRoom(old(View()), maxPartials, p.frameNumber, None)
        decreases |order|
      {
        var evicted := EvictOldest(p.frameNumber);
        if evicted.None? {
          break;
        }
        if drop.None? {
          drop := evicted;
        }
      }
      assert MakeRoom(View(), maxPartials, p.frameNumber, drop) == (View(), drop);
      if p.frameNumber !in partials {
        order := order + [p.frameNumber];
      }
      partials := partials[p.frameNumber := Partial(p.sequence, p.extensions, map[p.sequence := p.payload])];
      return Result(None, drop);
    }

    method PushToPartial(p: Packet) returns (r: Result)
      modifies this
      ensures (View(), r) == DataTrackReassembly.PushToPartial(old(View()), p)
    {
      var n := p.frameNumber;
      if n !in partials {
        return Result(None, Some(UnknownFrame(n)));
      }
      var partial := partials[n];
      if |partial.payloads| >= MAX_BUFFER_PACKETS {
        Remove(n);
        return Result(None, Some(BufferFull(n)));
      }
      partial := partial.(payloads := partial.payloads[p.sequence := p.payload]);
      if p.Marker() == Final {
        Remove(n);
        r := FinalizeFrame(n, partial, p.sequence);
        return;
      }
      partials := partials[n := partial];
      return Result(None, None);
    }
  }

  method FinalizeFrame(n: u16, partial: Partial, end: u16) returns (r: Result)
    ensures r == Finalize(n, partial, end)
  {
    var received: u16 := |partial.payloads| % 0x1_0000;
    var expected := Add16(Sub16(end, partial.startSequence), 1);
    if received != expected {
      return Result(None, Some(Incomplete(n, received, expected)));
    }
    var payload: bytes, sequence := [], partial.startSequence;
    ghost var whole := Assemble(partial.payloads, partial.startSequence, end);
    assert whole.Some? ==> [] + whole.value == whole.value;
    while sequence in partial.payloads
      invariant whole == After(payload, Assemble(partial.payloads, sequence, end))
      decreases Sub16(end, sequence)
    {
      ghost var before, rest := payload, Assemble(partial.payloads, Add16(sequence, 1), end);
      payload := payload + partial.payloads[sequence];
      if sequence == end {
        return Result(Some(Frame(payload, partial.extensions)), None);
      }
      assert rest.Some? ==> before + (partial.payloads[sequence] + rest.value) == payload + rest.value;
      sequence := Add16(sequence, 1);
    }
    return Result(None, Some(Incomplete(n, received, expected)));
  }

  /** rest behind the bytes collected before it. */
  function After(before: bytes, rest: Option<bytes>): Option<bytes> {
    match rest
    case None => None
    case Some(more) => Some(before + more)
  }
}
