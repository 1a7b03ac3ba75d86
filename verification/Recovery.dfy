/**
 * Recovery of a lost connection: disconnects, the worker that resumes or restarts, the first join
 * and closing, as steps that interleave in any order.
 */
module Recovery {
  import opened Machine
  import opened ConnectionState

  const MAX_RECONNECT_COUNT := 10
  const INITIAL_INTERVAL_MS := 300
  const MAX_INTERVAL_MS := 60_000

  /**
   * Where a worker stands: at the loop's test, past it, in an attempt, with an attempt that
   * succeeded, about to ask for a full reconnect, or about to give up.
   */
  datatype Place = AtTest | Chosen | InRestart | InResume | AfterSuccess | Escalating | GivingUp

  /** count is the loop's counter; resumes and restarts are the attempts since the last success. */
  datatype Worker = Worker(place: Place, count: nat, resumes: nat, restarts: nat)

  /**
   * closed is the engine's flag, set before the connection manager is closed; joining says that the
   * first join is under way; gaveUp that the last worker to end gave up; restarts counts all restart
   * attempts.
   */
  datatype World = World(
    conn: Connection, closed: bool, joining: bool, workers: map<nat, Worker>, next: nat, gaveUp: bool, restarts: nat)

  const BEGIN := World(START, false, true, map[], 0, false, 0)

  datatype Step =
    | Disconnect(full: bool, settings: Option<seq<Region>>)
    | JoinEnds(region: Option<Region>)
    | RaiseClosed
    | SetClosed
    | Test(worker: nat)
    | Choose(worker: nat)
    | RestartEnds(worker: nat, region: Option<Region>)
    | ResumeEnds(worker: nat, region: Option<Region>)
    | AskToContinue(worker: nat)
    | Escalate(worker: nat)
    | GiveUp(worker: nat)

  predicate IsAt(w: World, i: nat, place: Place) {
    i in w.workers && w.workers[i].place == place
  }

  predicate Enabled(w: World, step: Step) {
    match step
    case Disconnect(_, _) => true
    case JoinEnds(_) => w.joining
    case RaiseClosed => true
    case SetClosed => w.closed
    case Test(i) => IsAt(w, i, AtTest)
    case Choose(i) => IsAt(w, i, Chosen)
    case RestartEnds(i, _) => IsAt(w, i, InRestart)
    case ResumeEnds(i, _) => IsAt(w, i, InResume)
    case AskToContinue(i) => IsAt(w, i, AfterSuccess)
    case Escalate(i) => IsAt(w, i, Escalating)
    case GiveUp(i) => IsAt(w, i, GivingUp)
  }

  /** The wait after a failed restart, in milliseconds. */
  function Delay(count: nat): nat {
    count * count * INITIAL_INTERVAL_MS
  }

  function Tested(k: Worker, closed: bool): Worker {
    k.(place := if k.count < MAX_RECONNECT_COUNT && !closed then Chosen else GivingUp)
  }

  function ChoseTo(k: Worker, restart: bool): Worker {
    if restart then k.(place := InRestart, restarts := k.restarts + 1)
    else k.(place := InResume, resumes := k.resumes + 1)
  }

  function RestartFailed(k: Worker): Worker {
    if Delay(k.count) > MAX_INTERVAL_MS then k.(place := GivingUp) else k.(place := AtTest, count := k.count + 1)
  }

  function Succeeded(k: Worker): Worker {
    Worker(AfterSuccess, k.count, 0, 0)
  }

  function Moved(w: World, i: nat, k: Worker): World {
    w.(workers := w.workers[i := k])
  }

  function Next(w: World, step: Step): World
    requires Enabled(w, step)
  {
    match step
    case Disconnect(full, settings) =>
      var (c, start) := Requested(w.conn, full, settings);
      if start then
        w.(conn := c, workers := w.workers[w.next := Worker(AtTest, 0, 0, 0)], next := w.next + 1, gaveUp := false)
      else w.(conn := c)
    case JoinEnds(region) =>
      w.(joining := false, conn := if region.Some? then ConnectedTo(w.conn, region.value) else w.conn)
    case RaiseClosed => w.(closed := true)
    case SetClosed => w.(conn := ClosedOff(w.conn))
    case Test(i) => Moved(w, i, Tested(w.workers[i], w.closed))
    case Choose(i) =>
      var restart := w.conn.state == Reconnecting;
      Moved(w, i, ChoseTo(w.workers[i], restart)).(restarts := if restart then w.restarts + 1 else w.restarts)
    case RestartEnds(i, region) =>
      if region.Some? then Moved(w, i, Succeeded(w.workers[i])).(conn := ConnectedTo(w.conn, region.value))
      else Moved(w, i, RestartFailed(w.workers[i]))
    case ResumeEnds(i, region) =>
      if region.Some? then Moved(w, i, Succeeded(w.workers[i])).(conn := Resumed(w.conn, region.value))
      else Moved(w, i, w.workers[i].(place := Escalating))
    case AskToContinue(i) =>
      var (c, goOn) := ConnectionState.Settled(w.conn);
      if goOn then Moved(w, i, Worker(AtTest, 0, 0, 0)).(conn := c)
      else w.(conn := c, workers := w.workers - {i}, gaveUp := false)
    case Escalate(i) =>
      Moved(w, i, w.workers[i].(place := AtTest, count := 0)).(conn := ReconnectRequested(w.conn, None))
    case GiveUp(i) => w.(conn := Stopped(w.conn), workers := w.workers - {i}, gaveUp := true)
  }

  // ---- The invariant ----

  /** A worker holds the slot exactly while it is live, and no two hold it. */
  ghost predicate OneWorker(w: World) {
    && (w.conn.recovering <==> w.workers != map[])
    && (forall i, j :: i in w.workers && j in w.workers ==> i == j)
    && (forall i :: i in w.workers ==> i < w.next)
    && (w.gaveUp ==> w.workers == map[])
  }

  /** What is due is being worked on, unless the last worker gave up. */
  predicate Covered(w: World) {
    NeedsRecovery(w.conn) ==> w.workers != map[] || w.gaveUp
  }

  predicate StateSafe(w: World) {
    && (w.conn.settings.Some? ==> NeedsRecovery(w.conn))
    && (w.conn.state == Connected || NeedsRecovery(w.conn) ==> w.conn.region.Some?)
    && (w.conn.state == Closed ==> w.closed)
    && (w.joining ==> w.conn.state == Initial || w.conn.state == Closed)
    && (w.workers != map[] ==> !w.joining && w.conn.state != Initial)
  }

  /** A worker that has not just succeeded has recovery to do, or the engine is closing. */
  ghost predicate WorkersBusy(w: World) {
    forall i :: i in w.workers ==>
      (w.workers[i].place == AfterSuccess || NeedsRecovery(w.conn) || w.conn.state == Closed)
  }

  /**
   * Between two successes: one resume, before any restart, and ten restarts; one more resume fails on
   * a closed engine.
   */
  predicate Bounded(w: World, k: Worker) {
    match k.place
    case AtTest =>
      || (k.resumes == 0 && k.count == k.restarts == 0)
      || (PastResume(w, k) && k.count == k.restarts <= MAX_RECONNECT_COUNT)
      || Closing(w, k)
    case Chosen =>
      || (k.resumes == 0 && k.count == k.restarts == 0)
      || (PastResume(w, k) && k.count == k.restarts < MAX_RECONNECT_COUNT)
    case InRestart => k.resumes <= 1 && k.restarts == k.count + 1 <= MAX_RECONNECT_COUNT && PastResume(w, k)
    case InResume => k.resumes >= 1 && ((k.resumes == 1 && k.count == k.restarts == 0) || Closing(w, k))
    case Escalating => k.resumes >= 1 && ((k.resumes == 1 && k.count == k.restarts == 0) || Closing(w, k))
    case AfterSuccess => k.resumes == k.restarts == 0
    case GivingUp => Within(w, k)
  }

  /** No resume can follow: a reconnect is due until it succeeds. */
  predicate PastResume(w: World, k: Worker) {
    k.resumes <= 1 && (w.conn.state == Reconnecting || w.conn.state == Closed)
  }

  predicate Closing(w: World, k: Worker) {
    w.conn.state == Closed && Within(w, k)
  }

  predicate Within(w: World, k: Worker) {
    k.restarts <= MAX_RECONNECT_COUNT && (k.resumes <= 1 || (k.resumes == 2 && w.closed))
  }

  ghost predicate WorkersBounded(w: World) {
    forall i :: i in w.workers ==> Bounded(w, w.workers[i])
  }

  ghost predicate Inv(w: World) {
    OneWorker(w) && Covered(w) && StateSafe(w) && WorkersBusy(w) && WorkersBounded(w)
  }

  lemma DisconnectKeepsInv(w: World, full: bool, settings: Option<seq<Region>>)
    requires Inv(w)
    ensures Inv(Next(w, Disconnect(full, settings)))
  {
    var r := Next(w, Disconnect(full, settings));
    assert Requested(w.conn, full, settings).1 ==> w.next in r.workers;
  }

  lemma OutsideKeepsInv(w: World, step: Step)
    requires Inv(w) && Enabled(w, step) && (step.JoinEnds? || step.RaiseClosed? || step.SetClosed?)
    ensures Inv(Next(w, step))
  {
  }

  lemma LoopKeepsInv(w: World, step: Step)
    requires Inv(w) && Enabled(w, step) && (step.Test? || step.Choose?)
    ensures Inv(Next(w, step))
  {
  }

  lemma RestartKeepsInv(w: World, i: nat, region: Option<Region>)
    requires Inv(w) && Enabled(w, RestartEnds(i, region))
    ensures Inv(Next(w, RestartEnds(i, region)))
  {
  }

  lemma ResumeKeepsInv(w: World, i: nat, region: Option<Region>)
    requires Inv(w) && Enabled(w, ResumeEnds(i, region))
    ensures Inv(Next(w, ResumeEnds(i, region)))
  {
  }

  lemma EndKeepsInv(w: World, step: Step)
    requires Inv(w) && Enabled(w, step) && (step.AskToContinue? || step.Escalate? || step.GiveUp?)
    ensures Inv(Next(w, step))
  {
  }

  lemma StepKeepsInv(w: World, step: Step)
    requires Inv(w) && Enabled(w, step)
    ensures Inv(Next(w, step))
  {
    match step
    case Disconnect(full, settings) => DisconnectKeepsInv(w, full, settings);
    case JoinEnds(_) => OutsideKeepsInv(w, step);
    case RaiseClosed => OutsideKeepsInv(w, step);
    case SetClosed => OutsideKeepsInv(w, step);
    case Test(_) => LoopKeepsInv(w, step);
    case Choose(_) => LoopKeepsInv(w, step);
    case RestartEnds(i, region) => RestartKeepsInv(w, i, region);
    case ResumeEnds(i, region) => ResumeKeepsInv(w, i, region);
    case AskToContinue(_) => EndKeepsInv(w, step);
    case Escalate(_) => EndKeepsInv(w, step);
    case GiveUp(_) => EndKeepsInv(w, step);
  }

  // ---- What runs promise ----

  ghost predicate Runs(w: World, steps: seq<Step>)
    decreases steps
  {
    steps == [] || (Enabled(w, steps[0]) && Runs(Next(w, steps[0]), steps[1..]))
  }

  ghost function After(w: World, steps: seq<Step>): World
    requires Runs(w, steps)
    decreases steps
  {
    if steps == [] then w else After(Next(w, steps[0]), steps[1..])
  }

  /** Over any interleaving the invariant holds, and a closed connection stays closed. */
  lemma {:induction false} RunsKeepInv(w: World, steps: seq<Step>)
    requires Inv(w) && Runs(w, steps)
    ensures Inv(After(w, steps))
    ensures w.conn.state == Closed ==> After(w, steps).conn.state == Closed
    ensures w.restarts <= After(w, steps).restarts
    decreases steps
  {
    if steps == [] {
    } else {
      StepKeepsInv(w, steps[0]);
      RunsKeepInv(Next(w, steps[0]), steps[1..]);
    }
  }

  /**
   * Every run: the slot is taken exactly while one worker lives. While recovery is due a worker lives
   * if and only if the last one did not give up; while it is not, only one that has just succeeded,
   * or finds the connection closed. Regions sent by the server are kept only while recovery is due.
   */
  lemma WorkerProtocol(steps: seq<Step>)
    requires Runs(BEGIN, steps)
    ensures var w := After(BEGIN, steps);
      && (w.conn.recovering <==> w.workers != map[])
      && (forall i, j :: i in w.workers && j in w.workers ==> i == j)
      && (NeedsRecovery(w.conn) ==> (w.workers != map[] <==> !w.gaveUp))
      && (forall i :: i in w.workers ==>
           NeedsRecovery(w.conn) || w.workers[i].place == AfterSuccess || w.conn.state == Closed)
      && (w.conn.settings.Some? ==> NeedsRecovery(w.conn))
      && (NeedsRecovery(w.conn) ==> w.conn.region.Some?)
  {
    RunsKeepInv(BEGIN, steps);
  }

  /** A run so far: its steps, and the state they lead to. */
  ghost predicate Reached(from: World, steps: seq<Step>, w: World) {
    Runs(from, steps) && After(from, steps) == w
  }

  lemma {:induction false} Extend(from: World, steps: seq<Step>, w: World, step: Step)
    requires Reached(from, steps, w) && Enabled(w, step)
    ensures Reached(from, steps + [step], Next(w, step))
    decreases steps
  {
    if steps == [] {
      RunsOfOne(w, step);
      assert [] + [step] == [step];
    } else {
      Extend(Next(from, steps[0]), steps[1..], w, step);
      assert (steps + [step])[1..] == steps[1..] + [step];
    }
  }

  /** A state whose only worker is the first. */
  function Solo(conn: Connection, closed: bool, k: Worker): World {
    World(conn, closed, false, map[0 := k], 1, false, 0)
  }

  lemma FirstDisconnect(region: Region, full: bool) returns (steps: seq<Step>)
    ensures Reached(BEGIN, steps, Solo(Lost(region, full), false, Worker(AtTest, 0, 0, 0)))
    ensures RaiseClosed !in steps && SetClosed !in steps
  {
    Extend(BEGIN, [], BEGIN, JoinEnds(Some(region)));
    steps := [] + [JoinEnds(Some(region))];
    var w := Next(BEGIN, JoinEnds(Some(region)));
    Extend(BEGIN, steps, w, Disconnect(full, None));
    steps := steps + [Disconnect(full, None)];
    assert Next(w, Disconnect(full, None)).workers == map[0 := Worker(AtTest, 0, 0, 0)];
  }

  /** The connection to a region, lost. */
  function Lost(region: Region, full: bool): Connection {
    Connection(if full then Reconnecting else Resuming, None, Some(region), true)
  }

  /** Recovery may stay due without a worker: in this run the only one gives up on a closing engine. */
  lemma GivenUpStaysDue(region: Region) returns (steps: seq<Step>, w: World)
    ensures Reached(BEGIN, steps, w) && NeedsRecovery(w.conn) && w.workers == map[]
  {
    steps := FirstDisconnect(region, true);
    var k := Worker(AtTest, 0, 0, 0);
    w := Solo(Lost(region, true), false, k);
    Extend(BEGIN, steps, w, RaiseClosed);
    steps := steps + [RaiseClosed];
    w := Solo(Lost(region, true), true, k);
    Extend(BEGIN, steps, w, Test(0));
    steps := steps + [Test(0)];
    assert Next(w, Test(0)).workers == map[0 := k.(place := GivingUp)];
    w := Next(w, Test(0));
    Extend(BEGIN, steps, w, GiveUp(0));
    steps := steps + [GiveUp(0)];
    w := Next(w, GiveUp(0));
  }

  /** The only worker after so many failed restarts on an open engine. */
  function Failing(region: Region, failed: nat): World {
    Solo(Lost(region, true), false, Worker(AtTest, failed, 0, failed)).(restarts := failed)
  }

  lemma {:induction false} RestartsFail(region: Region, failed: nat) returns (steps: seq<Step>)
    requires failed <= MAX_RECONNECT_COUNT
    ensures Reached(BEGIN, steps, Failing(region, failed)) && RaiseClosed !in steps && SetClosed !in steps
    decreases failed
  {
    if failed == 0 {
      steps := FirstDisconnect(region, true);
    } else {
      steps := RestartsFail(region, failed - 1);
      steps := RestartFails(region, failed - 1, steps);
    }
  }

  /** One round: the test, the choice of a restart, its failure, and a wait within the limit. */
  lemma RestartFails(region: Region, failed: nat, steps: seq<Step>) returns (more: seq<Step>)
    requires failed < MAX_RECONNECT_COUNT && Reached(BEGIN, steps, Failing(region, failed))
    requires RaiseClosed !in steps && SetClosed !in steps
    ensures Reached(BEGIN, more, Failing(region, failed + 1)) && RaiseClosed !in more && SetClosed !in more
  {
    var w := Failing(region, failed);
    Extend(BEGIN, steps, w, Test(0));
    more := steps + [Test(0)];
    w := w.(workers := map[0 := Worker(Chosen, failed, 0, failed)]);
    assert Reached(BEGIN, more, w);
    Extend(BEGIN, more, w, Choose(0));
    more := more + [Choose(0)];
    w := w.(workers := map[0 := Worker(InRestart, failed, 0, failed + 1)], restarts := failed + 1);
    assert Reached(BEGIN, more, w);
    Extend(BEGIN, more, w, RestartEnds(0, None));
    more := more + [RestartEnds(0, None)];
    DelayWithin(failed);
    assert Next(w, RestartEnds(0, None)) == Failing(region, failed + 1);
  }

  lemma DelayWithin(count: nat)
    requires count < MAX_RECONNECT_COUNT
    ensures Delay(count) <= MAX_INTERVAL_MS
  {
    assert count * count <= 9 * count;
  }

  /** Without any closing: ten restarts fail, the worker gives up, and recovery stays due. */
  lemma TenFailuresGiveUp(region: Region) returns (steps: seq<Step>, w: World)
    ensures Reached(BEGIN, steps, w) && RaiseClosed !in steps && SetClosed !in steps && !w.closed
    ensures NeedsRecovery(w.conn) && w.workers == map[] && w.gaveUp && w.restarts == MAX_RECONNECT_COUNT
  {
    steps := RestartsFail(region, MAX_RECONNECT_COUNT);
    w := Failing(region, MAX_RECONNECT_COUNT);
    Extend(BEGIN, steps, w, Test(0));
    steps := steps + [Test(0)];
    w := w.(workers := map[0 := w.workers[0].(place := GivingUp)]);
    assert Reached(BEGIN, steps, w);
    Extend(BEGIN, steps, w, GiveUp(0));
    steps := steps + [GiveUp(0)];
    w := Next(w, GiveUp(0));
  }

  /** Whatever disconnects arrive: at most one resume and ten restarts between successes, on an open engine. */
  lemma AttemptsAreBounded(steps: seq<Step>, i: nat)
    requires Runs(BEGIN, steps) && i in After(BEGIN, steps).workers
    ensures var w := After(BEGIN, steps); var k := w.workers[i];
      && k.restarts <= MAX_RECONNECT_COUNT
      && k.resumes <= (if w.closed then 2 else 1)
      && (k.place == InRestart ==> Delay(k.count) <= MAX_INTERVAL_MS)
  {
    RunsKeepInv(BEGIN, steps);
    var k := After(BEGIN, steps).workers[i];
    if k.place == InRestart {
      assert k.count <= 9;
      assert k.count * k.count <= 9 * k.count;
    }
  }

  lemma FirstResumeFails(region: Region) returns (steps: seq<Step>)
    ensures Reached(BEGIN, steps, Solo(Lost(region, false), false, Worker(Escalating, 0, 1, 0)))
  {
    steps := FirstDisconnect(region, false);
    Extend(BEGIN, steps, Solo(Lost(region, false), false, Worker(AtTest, 0, 0, 0)), Test(0));
    steps := steps + [Test(0)];
    var w := Solo(Lost(region, false), false, Worker(Chosen, 0, 0, 0));
    assert Reached(BEGIN, steps, w);
    Extend(BEGIN, steps, w, Choose(0));
    steps := steps + [Choose(0)];
    w := Solo(Lost(region, false), false, Worker(InResume, 0, 1, 0));
    assert Reached(BEGIN, steps, w);
    Extend(BEGIN, steps, w, ResumeEnds(0, None));
    steps := steps + [ResumeEnds(0, None)];
  }

  /** The second resume does happen: the engine closes between the loop's test and its choice. */
  lemma SecondResumeOnClosing(region: Region) returns (steps: seq<Step>, w: World)
    ensures Reached(BEGIN, steps, w) && IsAt(w, 0, InResume) && w.workers[0].resumes == 2 && w.closed
  {
    steps := FirstResumeFails(region);
    Extend(BEGIN, steps, Solo(Lost(region, false), false, Worker(Escalating, 0, 1, 0)), Escalate(0));
    steps := steps + [Escalate(0)];
    w := Solo(Lost(region, true), false, Worker(AtTest, 0, 1, 0));
    assert Reached(BEGIN, steps, w);
    Extend(BEGIN, steps, w, Test(0));
    steps := steps + [Test(0)];
    w := Solo(Lost(region, true), false, Worker(Chosen, 0, 1, 0));
    assert Reached(BEGIN, steps, w);
    steps, w := ClosesThenChooses(steps, w);
  }

  lemma ClosesThenChooses(steps: seq<Step>, w: World) returns (more: seq<Step>, v: World)
    requires Reached(BEGIN, steps, w) && IsAt(w, 0, Chosen)
    ensures Reached(BEGIN, more, v) && IsAt(v, 0, InResume) && v.workers[0].resumes == w.workers[0].resumes + 1
    ensures v.closed
  {
    Extend(BEGIN, steps, w, RaiseClosed);
    Extend(BEGIN, steps + [RaiseClosed], Next(w, RaiseClosed), SetClosed);
    v := Next(Next(w, RaiseClosed), SetClosed);
    Extend(BEGIN, steps + [RaiseClosed] + [SetClosed], v, Choose(0));
    more, v := steps + [RaiseClosed] + [SetClosed] + [Choose(0)], Next(v, Choose(0));
  }

  /** The worker whose step it is. */
  function Mover(step: Step): Option<nat> {
    match step
    case Test(i) => Some(i)
    case Choose(i) => Some(i)
    case RestartEnds(i, _) => Some(i)
    case ResumeEnds(i, _) => Some(i)
    case AskToContinue(i) => Some(i)
    case Escalate(i) => Some(i)
    case GiveUp(i) => Some(i)
    case _ => None
  }

  predicate Succeeds(step: Step) {
    (step.RestartEnds? || step.ResumeEnds?) && step.region.Some?
  }

  /** Steps a worker can still take before it succeeds or ends. */
  function Rank(k: Worker): int {
    (2 - k.resumes) * 100 + (MAX_RECONNECT_COUNT - k.restarts) * 8 +
    match k.place
    case AtTest => 6
    case Chosen => 5
    case InRestart => 10
    case InResume => 80
    case Escalating => 79
    case AfterSuccess => 0
    case GivingUp => 1
  }

  /**
   * A worker that never succeeds ends: each of its steps takes it nearer, nothing else sets it back,
   * and it has at most 286 steps to go.
   */
  lemma WorkerEnds(w: World, step: Step, i: nat)
    requires Inv(w) && Enabled(w, step) && i in w.workers && w.workers[i].place != AfterSuccess
    ensures 0 < Rank(w.workers[i]) <= 286
    ensures Mover(step) != Some(i) ==> i in Next(w, step).workers && Next(w, step).workers[i] == w.workers[i]
    ensures Mover(step) == Some(i) && !Succeeds(step) ==>
      i !in Next(w, step).workers || Rank(Next(w, step).workers[i]) < Rank(w.workers[i])
  {
  }

  // ---- A reconnect that is asked for ----

  ghost predicate MidRestart(w: World) {
    exists i :: IsAt(w, i, InRestart)
  }

  lemma StepLeavesReconnect(w: World, step: Step)
    requires Inv(w) && Enabled(w, step) && w.conn.state == Reconnecting && !MidRestart(w) && step != SetClosed
    ensures var v := Next(w, step); v.restarts > w.restarts || (v.conn.state == Reconnecting && !MidRestart(v))
    ensures Next(w, step).restarts >= w.restarts
  {
    var v := Next(w, step);
    if v.restarts == w.restarts {
      assert forall i :: IsAt(v, i, InRestart) ==> IsAt(w, i, InRestart);
    }
  }

  /**
   * A reconnect asked for while no restart is under way, during a resume for one, survives: whatever
   * follows, until the engine closes, it is still due or a restart has been attempted since.
   */
  lemma {:induction false} ReconnectSurvives(w: World, steps: seq<Step>)
    requires Inv(w) && Runs(w, steps) && w.conn.state == Reconnecting && !MidRestart(w)
    requires SetClosed !in steps
    ensures After(w, steps).conn.state == Reconnecting || After(w, steps).restarts > w.restarts
    decreases steps
  {
    if steps == [] {
    } else {
      var v := Next(w, steps[0]);
      StepKeepsInv(w, steps[0]);
      StepLeavesReconnect(w, steps[0]);
      assert forall s :: s in steps[1..] ==> s in steps;
      if v.restarts > w.restarts {
        RunsKeepInv(v, steps[1..]);
      } else {
        ReconnectSurvives(v, steps[1..]);
      }
    }
  }

  /** A reconnect asked for during a restart does not: the restart's success takes it for its own. */
  lemma ReconnectDuringRestartIsLost(w: World, i: nat, settings: Option<seq<Region>>, region: Region)
    requires Inv(w) && IsAt(w, i, InRestart) && w.conn.state == Reconnecting
    ensures var steps := [Disconnect(true, settings), RestartEnds(i, Some(region)), AskToContinue(i)];
      Runs(w, steps) && After(w, steps).conn == Connection(Connected, None, Some(region), false) &&
      After(w, steps).restarts == w.restarts
  {
    var steps := [Disconnect(true, settings), RestartEnds(i, Some(region)), AskToContinue(i)];
    RunsOfThree(w, steps[0], steps[1], steps[2]);
  }

  lemma RunsOfThree(w: World, first: Step, second: Step, third: Step)
    requires Enabled(w, first) && Enabled(Next(w, first), second) && Enabled(Next(Next(w, first), second), third)
    ensures Runs(w, [first, second, third])
    ensures After(w, [first, second, third]) == Next(Next(Next(w, first), second), third)
  {
    var v := Next(w, first);
    RunsOfOne(Next(v, second), third);
    assert [second, third][1..] == [third] && [first, second, third][1..] == [second, third];
    assert Runs(v, [second, third]) && After(v, [second, third]) == Next(Next(v, second), third);
  }

  lemma RunsOfOne(w: World, step: Step)
    requires Enabled(w, step)
    ensures Runs(w, [step]) && After(w, [step]) == Next(w, step)
  {
  }

  /** The steps that may change which regions a full reconnect will try. */
  predicate Redirects(step: Step) {
    step.SetClosed? || step.RestartEnds? || (step.Disconnect? && step.full && step.settings.Some?)
  }

  /**
   * Regions sent with a request for a full reconnect are tried by it: no later request without
   * regions, no request to resume and no failed resume replaces them.
   */
  lemma {:induction false} RegionsSurvive(w: World, steps: seq<Step>)
    requires Inv(w) && Runs(w, steps) && w.conn.state == Reconnecting
    requires forall s :: s in steps ==> !Redirects(s)
    ensures After(w, steps).conn == w.conn.(recovering := After(w, steps).conn.recovering)
    decreases steps
  {
    if steps == [] {
    } else {
      StepKeepsInv(w, steps[0]);
      StepKeepsRegions(w, steps[0]);
      assert forall s :: s in steps[1..] ==> s in steps;
      RegionsSurvive(Next(w, steps[0]), steps[1..]);
    }
  }

  lemma StepKeepsRegions(w: World, step: Step)
    requires Inv(w) && Enabled(w, step) && w.conn.state == Reconnecting && !Redirects(step)
    ensures Next(w, step).conn == w.conn.(recovering := Next(w, step).conn.recovering)
  {
  }

  /** After the worker gave up, the next disconnect that leaves recovery due starts a new one. */
  lemma DisconnectRearms(w: World, full: bool, settings: Option<seq<Region>>)
    requires Inv(w) && w.conn.state != Closed && w.conn.state != Initial
    ensures var v := Next(w, Disconnect(full, settings)); NeedsRecovery(v.conn) && v.workers != map[]
  {
    var v := Next(w, Disconnect(full, settings));
    assert Requested(w.conn, full, settings).1 ==> w.next in v.workers;
  }
}
