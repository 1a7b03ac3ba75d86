/** The buffer of one subscription's stream: a ring that drops its oldest frame when full. */
module FrameStream {
  import opened Machine
  import opened Circular

  /** What the stream holds, oldest frame first. */
  datatype Queue<T> = Queue(capacity: nat, held: seq<T>, closed: bool)

  function Pushed<T>(q: Queue<T>, frame: T): Queue<T>
    requires q.capacity >= 1
  {
    if q.closed then q
    else q.(held := (if |q.held| == q.capacity then q.held[1..] else q.held) + [frame])
  }

  /** What Next finds without waiting: a frame, the end, or nothing yet. */
  datatype Polled<T> = Frame(frame: T) | EndOfStream | Nothing

  function Poll<T>(q: Queue<T>): Polled<T> {
    if q.held != [] then Frame(q.held[0]) else if q.closed then EndOfStream else Nothing
  }

  function Taken<T>(q: Queue<T>): Queue<T> {
    if q.held != [] then q.(held := q.held[1..]) else q
  }

  datatype Step<T> = Push(frame: T) | Next | Close

  function After<T>(q: Queue<T>, steps: seq<Step<T>>): Queue<T>
    requires q.capacity >= 1
    decreases steps
  {
    if steps == [] then q
    else
      match steps[0]
      case Push(f) => After(Pushed(q, f), steps[1..])
      case Next => After(Taken(q), steps[1..])
      case Close => After(q.(closed := true), steps[1..])
  }

  /** The frames accepted: those pushed before the close. */
  function Accepted<T>(closed: bool, steps: seq<Step<T>>): (r: seq<T>)
    decreases steps
  {
    if steps == [] || closed then []
    else
      match steps[0]
      case Push(f) => [f] + Accepted(false, steps[1..])
      case Next => Accepted(false, steps[1..])
      case Close => []
  }

  /** The places, among the frames accepted, of those that Next returned. */
  function Returned<T>(q: Queue<T>, accepted: nat, steps: seq<Step<T>>): seq<int>
    requires q.capacity >= 1
    decreases steps
  {
    if steps == [] then []
    else
      match steps[0]
      case Push(f) => Returned(Pushed(q, f), if q.closed then accepted else accepted + 1, steps[1..])
      case Next =>
        (if q.held != [] then [accepted - |q.held|] else []) + Returned(Taken(q), accepted, steps[1..])
      case Close => Returned(q.(closed := true), accepted, steps[1..])
  }

  ghost predicate Holds<T>(q: Queue<T>, accepted: seq<T>) {
    && 1 <= q.capacity && |q.held| <= q.capacity && |q.held| <= |accepted|
    && q.held == accepted[|accepted| - |q.held|..]
  }

  lemma PushHolds<T>(q: Queue<T>, accepted: seq<T>, frame: T)
    requires Holds(q, accepted)
    ensures Holds(Pushed(q, frame), if q.closed then accepted else accepted + [frame])
  {
  }

  /** Whatever the reader does, the stream holds the newest frames accepted, in order. */
  lemma {:induction false} HoldsNewest<T>(q: Queue<T>, accepted: seq<T>, steps: seq<Step<T>>)
    requires Holds(q, accepted)
    ensures Holds(After(q, steps), accepted + Accepted(q.closed, steps))
    decreases steps
  {
    if steps == [] {
      assert accepted + [] == accepted;
    } else {
      match steps[0]
      case Push(f) =>
        PushHolds(q, accepted, f);
        HoldsNewest(Pushed(q, f), if q.closed then accepted else accepted + [f], steps[1..]);
        if !q.closed {
          assert (accepted + [f]) + Accepted(false, steps[1..]) == accepted + Accepted(q.closed, steps);
        }
      case Next =>
        HoldsNewest(Taken(q), accepted, steps[1..]);
      case Close =>
        HoldsNewest(q.(closed := true), accepted, steps[1..]);
        assert Accepted(true, steps[1..]) == Accepted(q.closed, steps);
    }
  }

  ghost predicate Increasing(xs: seq<int>, low: int) {
    && (forall i :: 0 <= i < |xs| ==> low <= xs[i])
    && (forall i, j :: 0 <= i < j < |xs| ==> xs[i] < xs[j])
  }

  /** Frames come out in the order they were accepted, none twice. */
  lemma {:induction false} ReturnedInOrder<T>(q: Queue<T>, accepted: nat, steps: seq<Step<T>>)
    requires 1 <= q.capacity && |q.held| <= q.capacity
    ensures Increasing(Returned(q, accepted, steps), accepted - |q.held|)
    decreases steps
  {
    if steps == [] {
    } else {
      match steps[0]
      case Push(f) => ReturnedInOrder(Pushed(q, f), if q.closed then accepted else accepted + 1, steps[1..]);
      case Next => ReturnedInOrder(Taken(q), accepted, steps[1..]);
      case Close => ReturnedInOrder(q.(closed := true), accepted, steps[1..]);
    }
  }

  /** The frames Next returned. */
  function Frames<T>(q: Queue<T>, steps: seq<Step<T>>): seq<T>
    requires q.capacity >= 1
    decreases steps
  {
    if steps == [] then []
    else
      match steps[0]
      case Push(f) => Frames(Pushed(q, f), steps[1..])
      case Next => (if q.held != [] then [q.held[0]] else []) + Frames(Taken(q), steps[1..])
      case Close => Frames(q.(closed := true), steps[1..])
  }

  /** Every frame returned is the accepted frame of its place. */
  lemma {:induction false} FramesAreAccepted<T>(q: Queue<T>, accepted: seq<T>, steps: seq<Step<T>>)
    requires Holds(q, accepted)
    ensures var frames, places := Frames(q, steps), Returned(q, |accepted|, steps);
      var all := accepted + Accepted(q.closed, steps);
      |frames| == |places| && forall i :: 0 <= i < |frames| ==> 0 <= places[i] < |all| && frames[i] == all[places[i]]
    decreases steps
  {
    if steps == [] {
    } else {
      match steps[0]
      case Push(f) =>
        PushHolds(q, accepted, f);
        FramesAreAccepted(Pushed(q, f), if q.closed then accepted else accepted + [f], steps[1..]);
        if !q.closed {
          assert (accepted + [f]) + Accepted(false, steps[1..]) == accepted + Accepted(q.closed, steps);
        }
      case Next =>
        FramesAreAccepted(Taken(q), accepted, steps[1..]);
      case Close =>
        FramesAreAccepted(q.(closed := true), accepted, steps[1..]);
        assert Accepted(true, steps[1..]) == Accepted(q.closed, steps);
    }
  }

  /** How many frames a full buffer gave up for a newer one. */
  function Overwritten<T>(q: Queue<T>, steps: seq<Step<T>>): nat
    requires q.capacity >= 1
    decreases steps
  {
    if steps == [] then 0
    else
      match steps[0]
      case Push(f) =>
        (if !q.closed && |q.held| == q.capacity then 1 else 0) + Overwritten(Pushed(q, f), steps[1..])
      case Next => Overwritten(Taken(q), steps[1..])
      case Close => Overwritten(q.(closed := true), steps[1..])
  }

  /** Every frame accepted is held still, was returned, or was the oldest in a full buffer. */
  lemma {:induction false} FramesAreConserved<T>(q: Queue<T>, steps: seq<Step<T>>)
    requires 1 <= q.capacity && |q.held| <= q.capacity
    ensures |After(q, steps).held| + |Frames(q, steps)| + Overwritten(q, steps)
      == |q.held| + |Accepted(q.closed, steps)|
    decreases steps
  {
    if steps == [] {
    } else {
      match steps[0]
      case Push(f) => FramesAreConserved(Pushed(q, f), steps[1..]);
      case Next => FramesAreConserved(Taken(q), steps[1..]);
      case Close =>
        FramesAreConserved(q.(closed := true), steps[1..]);
        assert Accepted(true, steps[1..]) == [];
    }
  }

  /** Next finds nothing only while nothing is held, and the end only after the close, once nothing is. */
  lemma PollIff<T>(q: Queue<T>)
    ensures Poll(q).Frame? <==> q.held != []
    ensures Poll(q).EndOfStream? <==> q.held == [] && q.closed
    ensures Poll(q).Frame? ==> q.held == [Poll(q).frame] + Taken(q).held
  {
  }

  class Stream<T(0)> {
    var buf: array<T>
    var head: nat
    var n: nat
    var closed: bool
    var ready: bool

    ghost predicate Valid()
      reads this
    {
      0 < buf.Length && head < buf.Length && n <= buf.Length
    }

    ghost function View(): Queue<T>
      requires Valid()
      reads this, buf
    {
      Queue(buf.Length, Held(buf[..], head, n), closed)
    }

    constructor (bufferSize: nat)
      requires bufferSize >= 1
      ensures Valid() && fresh(buf) && View() == Queue(bufferSize, [], false) && !ready
    {
      buf, head, n, closed, ready := new T[bufferSize], 0, 0, false, false;
    }

    method Push(frame: T)
      requires Valid()
      modifies this, buf
      ensures Valid() && buf == old(buf) && View() == Pushed(old(View()), frame)
      ensures ready == (old(ready) || !old(closed))
    {
      if closed {
        return;
      }
      ghost var was := buf[..];
      if n == buf.Length {
        Overwrite(was, head, frame);
        buf[head] := frame;
        assert buf[..] == was[head := frame];
        head := At(buf.Length, head, 1);
      } else {
        Put(was, head, n, frame);
        var slot := At(buf.Length, head, n);
        buf[slot] := frame;
        assert buf[..] == was[slot := frame];
        n := n + 1;
      }
      ready := true;
    }

    /** One look of a call of Next under the lock; it waits if there is nothing yet. */
    method Next() returns (polled: Polled<T>)
      requires Valid()
      modifies this
      ensures Valid() && buf == old(buf) && polled == Poll(old(View())) && View() == Taken(old(View()))
      ensures ready == old(ready)
    {
      if n > 0 {
        Take(buf[..], head, n);
        polled := Frame(buf[head]);
        head := At(buf.Length, head, 1);
        n := n - 1;
      } else if closed {
        polled := EndOfStream;
      } else {
        polled := Nothing;
      }
    }

    /** Whether a call that waits goes on; it takes the token if there is one. */
    method Wake() returns (woken: bool)
      requires Valid()
      modifies this`ready
      ensures Valid() && View() == old(View()) && woken == (old(ready) || closed) && !ready
    {
      woken := ready || closed;
      ready := false;
    }

    method Close()
      requires Valid()
      modifies this`closed
      ensures Valid() && View() == old(View()).(closed := true)
    {
      closed := true;
    }
  }
}
