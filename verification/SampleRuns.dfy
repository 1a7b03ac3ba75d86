/** Whole runs of the sample builder: order, conservation, and the inputs it mishandles. */
module SampleRuns {
  import opened Machine
  import opened SampleWindow
  import opened SampleInvariant
  import opened SampleDelivery
  import opened SampleOrder
  import opened SampleNumbers

  /** A new builder. */
  const EMPTY: State := State([], None, None, [], 0)

  datatype Op = PushOp(p: Packet) | PopOp(force: bool)

  function Step(c: Config, st: State, op: Op): (State, seq<Packet>)
    requires Valid(c, st)
  {
    match op
    case PushOp(p) => (Push(c, st, p), [])
    case PopOp(force) => Pop(c, st, force)
  }

  ghost predicate StepUndrained(c: Config, st: State, op: Op)
    requires Valid(c, st)
  {
    op.PushOp? ==> !Drains(c, st, op.p)
  }

  predicate StepResetless(c: Config, st: State, op: Op) {
    op.PushOp? ==> !Resets(c, st, op.p)
  }

  lemma StepKeepsInv(c: Config, st: State, op: Op)
    requires Inv(c, st) && StepUndrained(c, st, op)
    ensures Inv(c, Step(c, st, op).0)
  {
    match op
    case PushOp(p) => PushKeepsInv(c, st, p);
    case PopOp(force) => PopKeepsInv(c, st, force);
  }

  /** No push of the run drains the buffer. */
  ghost predicate Undrained(c: Config, st: State, ops: seq<Op>)
    requires Inv(c, st)
    decreases ops
  {
    ops == [] ||
    (StepUndrained(c, st, ops[0]) && (StepKeepsInv(c, st, ops[0]); Undrained(c, Step(c, st, ops[0]).0, ops[1..])))
  }

  /** No push of the run resets the stream. */
  ghost predicate Resetless(c: Config, st: State, ops: seq<Op>)
    requires Inv(c, st) && Undrained(c, st, ops)
    decreases ops
  {
    ops == [] ||
    (StepResetless(c, st, ops[0]) && (StepKeepsInv(c, st, ops[0]); Resetless(c, Step(c, st, ops[0]).0, ops[1..])))
  }

  ghost function Delivered(c: Config, st: State, ops: seq<Op>): seq<Packet>
    requires Inv(c, st) && Undrained(c, st, ops)
    decreases ops
  {
    if ops == [] then []
    else
      StepKeepsInv(c, st, ops[0]);
      Step(c, st, ops[0]).1 + Delivered(c, Step(c, st, ops[0]).0, ops[1..])
  }

  // ---- Order ----

  function TopAfter(c: Config, st: State, top: Option<int>, op: Op): Option<int>
    requires c.InRange() && EndsHeld(st.win)
  {
    if op.PushOp? && !Ignored(c, st, op.p) then Raised(top, Extended(top, op.p)) else top
  }

  function PlacedNow(c: Config, st: State, top: Option<int>, op: Op): seq<Entry>
    requires c.InRange() && EndsHeld(st.win)
  {
    if op.PushOp? && !Ignored(c, st, op.p) then [Entry(Extended(top, op.p), op.p)] else []
  }

  /** The log of the packets a run accepts, each with its extended sequence number. */
  ghost function Placed(c: Config, st: State, top: Option<int>, ops: seq<Op>): seq<Entry>
    requires Inv(c, st) && Undrained(c, st, ops)
    decreases ops
  {
    if ops == [] then []
    else
      StepKeepsInv(c, st, ops[0]);
      PlacedNow(c, st, top, ops[0])
        + Placed(c, Step(c, st, ops[0]).0, TopAfter(c, st, top, ops[0]), ops[1..])
  }

  lemma {:induction false} SettledTrims(c: Config, st: State, force: bool)
    requires EndsHeld(st.win)
    ensures Trims(st, Settled(c, st, force))
    decreases |st.win|
  {
    if st.win != [] && Decide(c, st, force).Discard? {
      DropIsTrim(st);
      SettledTrims(c, Drop(st), force);
      TrimsTwice(st, Drop(st), Settled(c, st, force));
    }
  }

  /** The result of delivering the frame that ends in slot last. */
  ghost predicate DeliveredUpTo(at: State, last: nat, r: (State, seq<Packet>)) {
    && last < |at.win|
    && (forall i :: 0 <= i <= last ==> at.win[i].Held?)
    && r == (Cut(at, last), Group(at.win, last + 1))
  }

  lemma {:induction false} PopFromSettled(c: Config, st: State, force: bool) returns (last: nat)
    requires Valid(c, st) && Pop(c, st, force).1 != []
    ensures Valid(c, Settled(c, st, force)) && DeliveredUpTo(Settled(c, st, force), last, Pop(c, st, force))
    decreases |st.win|
  {
    if Decide(c, st, force).Discard? {
      DropKeepsValid(c, st);
      last := PopFromSettled(c, Drop(st), force);
    } else {
      last := Decide(c, st, force).last;
    }
  }

  ghost predicate Increasing(xs: seq<int>) {
    forall i, j :: 0 <= i < j < |xs| ==> xs[i] < xs[j]
  }

  ghost predicate AllAbove(xs: seq<int>, at: int) {
    forall i :: 0 <= i < |xs| ==> at < xs[i]
  }

  ghost predicate AllUpTo(xs: seq<int>, at: int) {
    forall i :: 0 <= i < |xs| ==> xs[i] <= at
  }

  /** Each packet was buffered at, or is logged with, its number. */
  ghost predicate Accounted(st: State, top: Option<int>, log: seq<Entry>, numbers: seq<int>, d: seq<Packet>) {
    |numbers| == |d| && forall i :: 0 <= i < |d| ==> HeldOrLogged(st, top, log, Entry(numbers[i], d[i]))
  }

  ghost predicate HeldOrLogged(st: State, top: Option<int>, log: seq<Entry>, e: Entry) {
    Holds(st, top, e) || e in log
  }

  /** Delivering d from st: the numbers increase, from above the floor before up to the floor after. */
  ghost predicate Numbering(st: State, st': State, top: Option<int>, numbers: seq<int>, d: seq<Packet>)
    requires EndsHeld(st.win) && EndsHeld(st'.win)
  {
    && Accounted(st, top, [], numbers, d)
    && Increasing(numbers)
    && (d != [] ==> top.Some? && st'.floor.Some? && AllUpTo(numbers, FloorAt(st', top)))
    && (st.floor.Some? && top.Some? ==> AllAbove(numbers, FloorAt(st, top)))
  }

  lemma PopNumbers(c: Config, st: State, top: Option<int>, force: bool) returns (numbers: seq<int>)
    requires Inv(c, st) && Numbered(st, top)
    ensures var (st', d) := Pop(c, st, force); Rises(st, top, st', top, None) && Numbering(st, st', top, numbers, d)
  {
    PopTrims(c, st, force);
    TrimsRises(c, st, top, Pop(c, st, force).0);
    if Pop(c, st, force).1 == [] {
      numbers := [];
    } else {
      numbers := DeliveryNumbers(c, st, top, force);
    }
  }

  lemma DeliveryNumbers(c: Config, st: State, top: Option<int>, force: bool) returns (numbers: seq<int>)
    requires Inv(c, st) && Numbered(st, top) && Pop(c, st, force).1 != []
    ensures var (st', d) := Pop(c, st, force); EndsHeld(st'.win) && Numbering(st, st', top, numbers, d)
  {
    var at := Settled(c, st, force);
    var last := PopFromSettled(c, st, force);
    SettledTrims(c, st, force);
    TrimsRises(c, st, top, at);
    numbers := GroupNumbers(c, at, top, last);
    NumberingFromBefore(st, at, Cut(at, last), top, numbers, Group(at.win, last + 1));
  }

  lemma NumberingFromBefore(st: State, at: State, st': State, top: Option<int>, numbers: seq<int>, d: seq<Packet>)
    requires Rises(st, top, at, top, None) && EndsHeld(st'.win) && Numbering(at, st', top, numbers, d)
    ensures Numbering(st, st', top, numbers, d)
  {
    forall i | 0 <= i < |d| ensures HeldOrLogged(st, top, [], Entry(numbers[i], d[i])) {
      assert HeldOrLogged(at, top, [], Entry(numbers[i], d[i]));
    }
  }

  lemma GroupNumbers(c: Config, at: State, top: Option<int>, last: nat) returns (numbers: seq<int>)
    requires Valid(c, at) && Numbered(at, top) && last < |at.win|
    requires forall i :: 0 <= i <= last ==> at.win[i].Held?
    ensures EndsHeld(Cut(at, last).win)
    ensures Numbering(at, Cut(at, last), top, numbers, Group(at.win, last + 1))
  {
    numbers := seq(last + 1, (i: int) => Base(at, top) + i);
    var e := CutTrims(at, last);
    TrimmedRises(c, at, top, Cut(at, last), last, e);
  }

  /** One step of a run. */
  lemma StepNumbers(c: Config, st: State, top: Option<int>, op: Op) returns (numbers: seq<int>)
    requires Inv(c, st) && StepUndrained(c, st, op) && StepResetless(c, st, op) && Numbered(st, top)
    ensures StepNumbered(c, st, top, op, numbers)
  {
    match op
    case PushOp(p) =>
      numbers := [];
      PushRises(c, st, top, p);
    case PopOp(force) =>
      numbers := PopNumbers(c, st, top, force);
  }

  ghost predicate StepNumbered(c: Config, st: State, top: Option<int>, op: Op, numbers: seq<int>)
    requires Inv(c, st)
  {
    var (st', d) := Step(c, st, op);
    var top' := TopAfter(c, st, top, op);
    && EndsHeld(st'.win) && Numbered(st', top')
    && (st.floor.Some? ==> top.Some? && st'.floor.Some? && FloorAt(st, top) <= FloorAt(st', top'))
    && (forall x :: Holds(st', top', x) ==> HeldOrLogged(st, top, PlacedNow(c, st, top, op), x))
    && Accounted(st, top, [], numbers, d)
    && Increasing(numbers)
    && (st.floor.Some? ==> AllAbove(numbers, FloorAt(st, top)))
    && (d != [] ==> st'.floor.Some? && AllUpTo(numbers, FloorAt(st', top')))
  }

  /**
   * In every run without a drain or a reset, the packets delivered carry strictly increasing extended
   * sequence numbers, all above the floor the run began with, and each packet had its number from
   * the push that placed it: delivery is in order, and no accepted packet is delivered twice.
   */
  lemma {:induction false} DeliveryInOrder(c: Config, st: State, top: Option<int>, ops: seq<Op>)
    returns (numbers: seq<int>)
    requires Inv(c, st) && Undrained(c, st, ops) && Resetless(c, st, ops) && Numbered(st, top)
    ensures Accounted(st, top, Placed(c, st, top, ops), numbers, Delivered(c, st, ops))
    ensures Increasing(numbers)
    ensures st.floor.Some? ==> AllAbove(numbers, FloorAt(st, top))
    decreases ops
  {
    if ops == [] {
      numbers := [];
    } else {
      var (st', d) := Step(c, st, ops[0]);
      var top' := TopAfter(c, st, top, ops[0]);
      StepKeepsInv(c, st, ops[0]);
      var now := StepNumbers(c, st, top, ops[0]);
      var later := DeliveryInOrder(c, st', top', ops[1..]);
      numbers := now + later;
      AccountedJoined(st, top, PlacedNow(c, st, top, ops[0]), now, d,
        st', top', Placed(c, st', top', ops[1..]), later, Delivered(c, st', ops[1..]));
    }
  }

  lemma AccountedJoined(st: State, top: Option<int>, log: seq<Entry>, now: seq<int>, d: seq<Packet>,
    st': State, top': Option<int>, log': seq<Entry>, later: seq<int>, d': seq<Packet>)
    requires Accounted(st, top, [], now, d) && Accounted(st', top', log', later, d')
    requires forall x :: Holds(st', top', x) ==> HeldOrLogged(st, top, log, x)
    ensures Accounted(st, top, log + log', now + later, d + d')
  {
    forall i | 0 <= i < |d + d'|
      ensures HeldOrLogged(st, top, log + log', Entry((now + later)[i], (d + d')[i]))
    {
      if i < |d| {
        assert HeldOrLogged(st, top, [], Entry(now[i], d[i]));
      } else {
        assert HeldOrLogged(st', top', log', Entry(later[i - |d|], d'[i - |d|]));
      }
    }
  }

  /** From the empty builder: what is delivered was pushed, at increasing extended sequence numbers. */
  lemma DeliveryFromEmpty(c: Config, ops: seq<Op>) returns (numbers: seq<int>)
    requires c.InRange() && Undrained(c, EMPTY, ops) && Resetless(c, EMPTY, ops)
    ensures Increasing(numbers) && |numbers| == |Delivered(c, EMPTY, ops)|
    ensures forall i :: 0 <= i < |numbers| ==>
      Entry(numbers[i], Delivered(c, EMPTY, ops)[i]) in Placed(c, EMPTY, None, ops)
  {
    numbers := DeliveryInOrder(c, EMPTY, None, ops);
    forall i | 0 <= i < |numbers|
      ensures Entry(numbers[i], Delivered(c, EMPTY, ops)[i]) in Placed(c, EMPTY, None, ops)
    {
      assert HeldOrLogged(EMPTY, None, Placed(c, EMPTY, None, ops), Entry(numbers[i], Delivered(c, EMPTY, ops)[i]));
    }
  }
}
