/** What recovery comes to: successes that settle it, the regions it is given, and how long it waits. */
module RecoveryOutcomes {
  import opened Machine
  import opened ConnectionState
  import opened Recovery

  // ---- Success ----

  /** The worker that asks goes on, its count reset, if recovery is due; otherwise it frees the slot. */
  lemma AskingSettlesIff(w: World, i: nat)
    requires Inv(w) && IsAt(w, i, AfterSuccess)
    ensures var v := Next(w, AskToContinue(i));
      if NeedsRecovery(w.conn) then v.conn == w.conn && v.workers == map[i := Worker(AtTest, 0, 0, 0)]
      else v.conn == w.conn.(recovering := false) && v.workers == map[] && !v.gaveUp
  {
    assert w.workers.Keys == {i};
    assert w.workers - {i} == map[];
  }

  /** An attempt under way, and the state it is made in. */
  predicate Attempts(w: World, i: nat, restart: bool) {
    if restart then IsAt(w, i, InRestart) && w.conn.state == Reconnecting
    else IsAt(w, i, InResume) && w.conn.state == Resuming
  }

  function Ends(i: nat, restart: bool, region: Region): Step {
    if restart then RestartEnds(i, Some(region)) else ResumeEnds(i, Some(region))
  }

  /**
   * A restart, or a resume, that succeeds with nothing else asked for in between ends the recovery:
   * connected to the region it reached, no regions held, the slot free.
   */
  lemma SuccessSettles(w: World, i: nat, restart: bool, region: Region)
    requires Inv(w) && Attempts(w, i, restart)
    ensures Enabled(w, Ends(i, restart, region))
    ensures var u := Next(w, Ends(i, restart, region));
      && Enabled(u, AskToContinue(i))
      && var v := Next(u, AskToContinue(i));
        v.conn == Connection(Connected, None, Some(region), false) && v.workers == map[] && !v.gaveUp
  {
    var u := Next(w, Ends(i, restart, region));
    StepKeepsInv(w, Ends(i, restart, region));
    AskingSettlesIff(u, i);
  }

  /**
   * A resume that succeeds after a full reconnect was asked for does not: the reconnect is due still,
   * with the regions it was given, and the worker goes on to it.
   */
  lemma ResumeYieldsToReconnect(w: World, i: nat, settings: Option<seq<Region>>, region: Region)
    requires Inv(w) && Attempts(w, i, false)
    ensures var steps := [Disconnect(true, settings), ResumeEnds(i, Some(region)), AskToContinue(i)];
      && Runs(w, steps)
      && After(w, steps).conn == Connection(Reconnecting, settings, w.conn.region, true)
      && After(w, steps).workers == map[i := Worker(AtTest, 0, 0, 0)]
  {
    var asked := Next(w, Disconnect(true, settings));
    StepKeepsInv(w, Disconnect(true, settings));
    var u := Next(asked, ResumeEnds(i, Some(region)));
    StepKeepsInv(asked, ResumeEnds(i, Some(region)));
    AskingSettlesIff(u, i);
    RunsOfThree(w, Disconnect(true, settings), ResumeEnds(i, Some(region)), AskToContinue(i));
  }

  // ---- Regions ----

  /** The regions held after a disconnect: those it brings, unless it may not replace those held. */
  function HeldAfter(c: Connection, full: bool, settings: Option<seq<Region>>): Option<seq<Region>> {
    if settings.None? && NeedsRecovery(c) && (!full || c.state == Reconnecting) then c.settings
    else if !full && c.state == Reconnecting then c.settings
    else settings
  }

  /**
   * A disconnect of an open connection asks for what it says, a reconnect outlasting requests to resume,
   * and the regions it brings are held; before the first join or after closing it changes nothing.
   */
  lemma DisconnectAsks(w: World, full: bool, settings: Option<seq<Region>>)
    requires Inv(w)
    ensures var c := Next(w, Disconnect(full, settings)).conn;
      if w.conn.state == Initial || w.conn.state == Closed then c == w.conn
      else
        && c.state == (if full || w.conn.state == Reconnecting then Reconnecting else Resuming)
        && c.settings == HeldAfter(w.conn, full, settings)
        && c.region == w.conn.region && c.recovering
  {
  }

  // ---- Waits ----

  /** The wait between a failed restart and the next, in milliseconds; after the last there is none. */
  function WaitAfter(count: nat): nat {
    if count < MAX_RECONNECT_COUNT - 1 then Delay(count) else 0
  }

  /** How long worker i has waited since its count was last reset. */
  function WaitedAfter(w: World, step: Step, i: nat, waited: nat): nat
    requires Enabled(w, step)
  {
    match step
    case RestartEnds(j, region) =>
      if j == i && region.None? && Delay(w.workers[i].count) <= MAX_INTERVAL_MS
      then waited + WaitAfter(w.workers[i].count) else waited
    case Escalate(j) => if j == i then 0 else waited
    case AskToContinue(j) => if j == i then 0 else waited
    case Disconnect(_, _) => if i == w.next then 0 else waited
    case _ => waited
  }

  ghost function WaitedOver(w: World, steps: seq<Step>, i: nat, waited: nat): nat
    requires Runs(w, steps)
    decreases steps
  {
    if steps == [] then waited else WaitedOver(Next(w, steps[0]), steps[1..], i, WaitedAfter(w, steps[0], i, waited))
  }

  function Sum(n: nat): nat {
    if n == 0 then 0 else Sum(n - 1) + WaitAfter(n - 1)
  }

  predicate HasWaited(w: World, i: nat, waited: nat) {
    i in w.workers ==> waited == Sum(w.workers[i].count)
  }

  lemma StepWaits(w: World, step: Step, i: nat, waited: nat)
    requires Inv(w) && Enabled(w, step) && HasWaited(w, i, waited)
    ensures HasWaited(Next(w, step), i, WaitedAfter(w, step, i, waited))
  {
  }

  lemma {:induction false} RunsWait(w: World, steps: seq<Step>, i: nat, waited: nat)
    requires Inv(w) && Runs(w, steps) && HasWaited(w, i, waited)
    ensures HasWaited(After(w, steps), i, WaitedOver(w, steps, i, waited))
    decreases steps
  {
    if steps == [] {
    } else {
      StepWaits(w, steps[0], i, waited);
      StepKeepsInv(w, steps[0]);
      RunsWait(Next(w, steps[0]), steps[1..], i, WaitedAfter(w, steps[0], i, waited));
    }
  }

  /** Squares, added up. */
  lemma {:induction false} SumIs(n: nat)
    requires n < MAX_RECONNECT_COUNT
    ensures Sum(n) == 50 * (n * (n - 1) * (2 * n - 1))
    decreases n
  {
    if n > 0 {
      SumIs(n - 1);
      NextSquare(n - 1);
    }
  }

  lemma NextSquare(m: int)
    ensures m * (m - 1) * (2 * m - 1) + 6 * (m * m) == (m + 1) * m * (2 * (m + 1) - 1)
  {
    assert m * (m - 1) * (2 * m - 1) == 2 * (m * m * m) - 3 * (m * m) + m;
  }

  /**
   * Whatever disconnects arrive, a worker that has failed n restarts since its count was reset has waited
   * 300 milliseconds times the squares below n; after ten, 61.2 seconds, the tenth being the last.
   */
  lemma WaitsAreBounded(steps: seq<Step>, i: nat)
    requires Runs(BEGIN, steps) && i in After(BEGIN, steps).workers
    ensures var n, waited := After(BEGIN, steps).workers[i].count, WaitedOver(BEGIN, steps, i, 0);
      && n <= 10
      && waited == (if n < 10 then 50 * (n * (n - 1) * (2 * n - 1)) else 61_200)
  {
    RunsWait(BEGIN, steps, i, 0);
    RunsKeepCount(BEGIN, steps, i);
    var n := After(BEGIN, steps).workers[i].count;
    if n < 10 {
      SumIs(n);
    } else {
      SumIs(9);
    }
  }

  /** No attempt is made at a count of ten. */
  predicate CountBounded(w: World, i: nat) {
    i in w.workers ==>
      && w.workers[i].count <= MAX_RECONNECT_COUNT
      && (w.workers[i].place in {Chosen, InRestart, InResume} ==> w.workers[i].count < MAX_RECONNECT_COUNT)
  }

  lemma StepKeepsCount(w: World, step: Step, i: nat)
    requires Enabled(w, step) && CountBounded(w, i)
    ensures CountBounded(Next(w, step), i)
  {
  }

  lemma {:induction false} RunsKeepCount(w: World, steps: seq<Step>, i: nat)
    requires Runs(w, steps) && CountBounded(w, i)
    ensures CountBounded(After(w, steps), i)
    decreases steps
  {
    if steps == [] {
    } else {
      StepKeepsCount(w, steps[0], i);
      RunsKeepCount(Next(w, steps[0]), steps[1..], i);
    }
  }
}
