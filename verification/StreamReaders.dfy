/**
 * Readers waiting on a stream: the calls of Next, each looking under the lock and then receiving from
 * the one-place ready channel, interleaved in any order with the pushes.
 */
module StreamReaders {
  import opened Machine
  import S = FrameStream

  /** A call looks, has found nothing and given up the lock, or is blocked in the receive. */
  datatype Place = Looking | Leaving | Blocked

  /** ready says that the channel holds its token; readers are the calls of Next under way. */
  datatype World<T> = World(queue: S.Queue<T>, ready: bool, readers: map<nat, Place>)

  /** A push hands its token straight to a reader that is blocked, if there is one. */
  datatype Step<T> =
    | Push(frame: T, to: Option<nat>)
    | Close
    | Call(reader: nat)
    | Look(reader: nat)
    | Receive(reader: nat)
    | GiveUp(reader: nat)

  predicate At<T>(w: World<T>, reader: nat, place: Place) {
    reader in w.readers && w.readers[reader] == place
  }

  predicate NoneAt<T>(w: World<T>, place: Place) {
    forall r :: r in w.readers ==> w.readers[r] != place
  }

  predicate Enabled<T>(w: World<T>, step: Step<T>) {
    match step
    case Push(_, to) =>
      if to.Some? then !w.queue.closed && At(w, to.value, Blocked) else w.queue.closed || NoneAt(w, Blocked)
    case Close => true
    case Call(r) => r !in w.readers
    case Look(r) => At(w, r, Looking)
    case Receive(r) => At(w, r, Leaving)
    case GiveUp(r) => At(w, r, Leaving) || At(w, r, Blocked)
  }

  function Move<T>(w: World<T>, reader: nat, place: Place): World<T> {
    w.(readers := w.readers[reader := place])
  }

  function Next<T>(w: World<T>, step: Step<T>): World<T>
    requires w.queue.capacity >= 1 && Enabled(w, step)
  {
    match step
    case Push(f, to) =>
      var pushed := w.(queue := S.Pushed(w.queue, f));
      if w.queue.closed then pushed
      else if to.Some? then Move(pushed, to.value, Looking)
      else pushed.(ready := true)
    case Close =>
      World(w.queue.(closed := true), w.ready,
            map r | r in w.readers :: if w.readers[r] == Blocked then Looking else w.readers[r])
    case Call(r) => Move(w, r, Looking)
    case Look(r) =>
      if S.Poll(w.queue).Nothing? then Move(w, r, Leaving)
      else w.(queue := S.Taken(w.queue), readers := w.readers - {r})
    case Receive(r) =>
      if w.ready then Move(w, r, Looking).(ready := false)
      else Move(w, r, if w.queue.closed then Looking else Blocked)
    case GiveUp(r) => w.(readers := w.readers - {r})
  }

  // ---- A reader left waiting ----

  /**
   * A frame is buffered and a call waits for one, but there is no token, and no call is about to look:
   * nothing the readers do but giving up or calling again ends this.
   */
  ghost predicate Stuck<T>(w: World<T>) {
    && w.queue.held != [] && !w.ready && !w.queue.closed
    && w.readers != map[] && NoneAt(w, Looking)
  }

  /** It lasts: the readers' own steps, short of giving up, lead nowhere else. */
  lemma StuckLasts<T>(w: World<T>, step: Step<T>)
    requires w.queue.capacity >= 1 && Enabled(w, step) && Stuck(w) && (step.Look? || step.Receive?)
    ensures Stuck(Next(w, step)) && Next(w, step).queue == w.queue
  {
    assert step.Receive?;
    assert step.reader in Next(w, step).readers;
  }

  ghost predicate Runs<T>(w: World<T>, steps: seq<Step<T>>)
    requires w.queue.capacity >= 1
    decreases steps
  {
    steps == [] || (Enabled(w, steps[0]) && Runs(Next(w, steps[0]), steps[1..]))
  }

  ghost function After<T>(w: World<T>, steps: seq<Step<T>>): World<T>
    requires w.queue.capacity >= 1 && Runs(w, steps)
    decreases steps
  {
    if steps == [] then w else After(Next(w, steps[0]), steps[1..])
  }

  function Opened<T>(capacity: nat): World<T> {
    World(S.Queue(capacity, [], false), false, map[])
  }

  // ---- One place in the buffer ----

  /** While a frame is buffered there is a token for it, or a call about to look. */
  ghost predicate Noticed<T>(w: World<T>) {
    && |w.queue.held| <= 1
    && (w.queue.held != [] && !w.queue.closed ==> w.ready || !NoneAt(w, Looking))
  }

  lemma StepNotices<T>(w: World<T>, step: Step<T>)
    requires w.queue.capacity == 1 && Enabled(w, step) && Noticed(w)
    ensures Noticed(Next(w, step)) && Next(w, step).queue.capacity == 1
  {
    var v := Next(w, step);
    match step
    case Push(_, to) => assert to.Some? ==> w.queue.closed || At(v, to.value, Looking);
    case Call(r) => assert At(v, r, Looking);
    case Receive(r) =>
      assert w.ready ==> At(v, r, Looking);
      OthersLook(w, v, r);
    case GiveUp(r) => OthersLook(w, v, r);
    case _ =>
  }

  lemma OthersLook<T>(w: World<T>, v: World<T>, r: nat)
    requires !At(w, r, Looking)
    requires forall b :: b in w.readers && b != r ==> b in v.readers && v.readers[b] == w.readers[b]
    ensures !NoneAt(w, Looking) ==> !NoneAt(v, Looking)
  {
  }

  lemma {:induction false} OnePlaceFrom<T>(w: World<T>, steps: seq<Step<T>>)
    requires w.queue.capacity == 1 && Runs(w, steps) && Noticed(w)
    ensures !Stuck(After(w, steps))
    decreases steps
  {
    if steps == [] {
    } else {
      StepNotices(w, steps[0]);
      OnePlaceFrom(Next(w, steps[0]), steps[1..]);
    }
  }

  // ---- One reader ----

  predicate IsOf<T>(step: Step<T>, readers: nat) {
    match step
    case Push(_, _) => true
    case Close => true
    case _ => step.reader < readers
  }

  ghost predicate Of<T>(steps: seq<Step<T>>, readers: nat) {
    forall i :: 0 <= i < |steps| ==> IsOf(steps[i], readers)
  }

  lemma {:induction false} LoneReaderFrom<T>(w: World<T>, steps: seq<Step<T>>)
    requires w.queue.capacity >= 1 && Runs(w, steps) && Of(steps, 1)
    requires !Stuck(w) && w.readers.Keys <= {0}
    ensures !Stuck(After(w, steps))
    decreases steps
  {
    if steps == [] {
    } else {
      LoneStep(w, steps[0]);
      LoneReaderFrom(Next(w, steps[0]), steps[1..]);
    }
  }

  lemma LoneStep<T>(w: World<T>, step: Step<T>)
    requires w.queue.capacity >= 1 && Enabled(w, step) && IsOf(step, 1) && !Stuck(w) && w.readers.Keys <= {0}
    ensures var v := Next(w, step);
      !Stuck(v) && v.readers.Keys <= {0} && v.queue.capacity == w.queue.capacity
  {
    var v := Next(w, step);
    match step
    case Push(_, to) =>
    case Close =>
    case _ => assert step.reader == 0;
  }

  /** A lone reader never waits beside a buffered frame without being woken. */
  lemma LoneReaderIsNeverStuck<T>(capacity: nat, steps: seq<Step<T>>)
    requires capacity >= 1 && Runs(Opened(capacity), steps) && Of(steps, 1)
    ensures !Stuck(After(Opened(capacity), steps))
  {
    LoneReaderFrom(Opened(capacity), steps);
  }

  // ---- Two readers and two places ----

  lemma {:induction false} OneMore<T>(w: World<T>, steps: seq<Step<T>>, step: Step<T>)
    requires w.queue.capacity >= 1 && Runs(w, steps)
    requires After(w, steps).queue.capacity >= 1 && Enabled(After(w, steps), step)
    ensures Runs(w, steps + [step]) && After(w, steps + [step]) == Next(After(w, steps), step)
    decreases steps
  {
    if steps == [] {
      assert [] + [step] == [step];
      assert Runs(Next(w, step), []);
    } else {
      assert (steps + [step])[1..] == steps[1..] + [step];
      OneMore(Next(w, steps[0]), steps[1..], step);
    }
  }

  /** Both readers find nothing and give up the lock; neither is blocked yet. */
  lemma BothLeave<T>(capacity: nat) returns (steps: seq<Step<T>>)
    requires capacity >= 1
    ensures Runs(Opened(capacity), steps) && Of(steps, 2)
    ensures After(Opened(capacity), steps)
      == World(S.Queue(capacity, [], false), false, map[0 := Leaving, 1 := Leaving])
  {
    var w := Opened<T>(capacity);
    OneMore(w, [], Call(0));
    OneMore(w, [] + [Call(0)], Look(0));
    steps := [] + [Call(0)] + [Look(0)];
    assert After(w, steps).readers == map[0 := Leaving];
    OneMore(w, steps, Call(1));
    OneMore(w, steps + [Call(1)], Look(1));
    steps := steps + [Call(1)] + [Look(1)];
    assert After(w, steps).readers == map[0 := Leaving, 1 := Leaving];
  }

  /** Two pushes then leave one token; the reader that receives it takes one frame, the other blocks. */
  lemma TwoReadersCanBeStuck<T>(capacity: nat, first: T, second: T) returns (steps: seq<Step<T>>)
    requires capacity >= 2
    ensures Runs(Opened(capacity), steps) && Of(steps, 2) && Stuck(After(Opened(capacity), steps))
    ensures After(Opened(capacity), steps).readers == map[1 := Blocked]
  {
    var w := Opened<T>(capacity);
    steps := BothLeave(capacity);
    OneMore(w, steps, Push(first, None));
    OneMore(w, steps + [Push(first, None)], Push(second, None));
    steps := steps + [Push(first, None)] + [Push(second, None)];
    assert After(w, steps).queue.held == [first, second];
    OneMore(w, steps, Receive(0));
    OneMore(w, steps + [Receive(0)], Look(0));
    steps := steps + [Receive(0)] + [Look(0)];
    assert After(w, steps).readers == map[1 := Leaving];
    OneMore(w, steps, Receive(1));
    steps := steps + [Receive(1)];
    var end := After(w, steps);
    assert end.readers == map[1 := Blocked] && 1 in end.readers;
  }

  ghost predicate GetsStuck<T>(capacity: nat, readers: nat, steps: seq<Step<T>>) {
    capacity >= 1 && Runs(Opened(capacity), steps) && Of(steps, readers) && Stuck(After(Opened(capacity), steps))
  }

  /**
   * Some run leaves a reader waiting beside a buffered frame if and only if there are two readers and
   * the buffer has two places.
   */
  lemma ReadersGetStuckIff<T(!new)>(capacity: nat, readers: nat, frame: T)
    requires capacity >= 1
    ensures (exists steps: seq<Step<T>> :: GetsStuck(capacity, readers, steps)) <==> capacity >= 2 && readers >= 2
  {
    if capacity >= 2 && readers >= 2 {
      var steps := TwoReadersCanBeStuck(capacity, frame, frame);
      assert GetsStuck(capacity, readers, steps);
    } else {
      forall steps: seq<Step<T>> ensures !GetsStuck(capacity, readers, steps) {
        NeverStuck(capacity, readers, steps);
      }
    }
  }

  lemma NeverStuck<T>(capacity: nat, readers: nat, steps: seq<Step<T>>)
    requires capacity <= 1 || readers <= 1
    ensures !GetsStuck(capacity, readers, steps)
  {
    if capacity >= 1 && Runs(Opened(capacity), steps) && Of(steps, readers) {
      if capacity == 1 {
        OnePlaceFrom(Opened(capacity), steps);
      } else {
        LoneReaderIsNeverStuck(capacity, steps);
      }
    }
  }
}
