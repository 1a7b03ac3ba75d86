/**
 * The recovery worker's loop, against an environment that may ask for more recovery, or close the
 * engine, while an attempt is under way. Every run of the loop is a run of the protocol.
 */
module RecoveryWorker {
  import opened Machine
  import opened ConnectionState
  import R = Recovery

  /** What happens between two sections of the worker: the disconnects that arrive, and whether the engine closes. */
  datatype Meanwhile = Meanwhile(disconnects: seq<(bool, Option<seq<Region>>)>, closes: bool)

  /**
   * One round of the loop: what happens between its test and the choice of an attempt, during the
   * attempt, between its end and what follows, the wait included, and before the next test; and how the
   * attempt ends.
   */
  datatype Attempt = Attempt(
    chosen: Meanwhile, during: Meanwhile, ended: Meanwhile, again: Meanwhile, outcome: Option<Region>)

  const QUIET := Meanwhile([], false)

  /** An attempt during which the engine closes. */
  const CLOSING := Attempt(QUIET, Meanwhile([], true), QUIET, QUIET, None)

  class Engine {
    const manager: ConnectionManager
    var closed: bool
    ghost var world: R.World
    ghost var trace: seq<R.Step>

    /** The objects are in the state the protocol has reached. */
    ghost predicate Agrees(from: R.World)
      reads this, manager
    {
      && R.Inv(world) && R.Reached(from, trace, world)
      && world.conn == manager.View() && world.closed == closed
    }

    ghost predicate WorkerAt(i: nat, place: R.Place)
      reads this
    {
      R.IsAt(world, i, place)
    }

    constructor (manager: ConnectionManager, ghost world: R.World)
      requires R.Inv(world) && world.conn == manager.View() && !world.closed
      ensures this.manager == manager && this.world == world && trace == [] && Agrees(world)
    {
      this.manager, this.world, trace, closed := manager, world, [], false;
    }

    /** The protocol takes a step that the objects have taken or are about to take. */
    ghost method Step(from: R.World, step: R.Step)
      requires R.Inv(world) && R.Reached(from, trace, world) && R.Enabled(world, step)
      modifies this`world, this`trace
      ensures R.Inv(world) && R.Reached(from, trace, world)
      ensures world == R.Next(old(world), step) && trace == old(trace) + [step]
    {
      R.Extend(from, trace, world, step);
      R.StepKeepsInv(world, step);
      world, trace := R.Next(world, step), trace + [step];
    }

    method Pass(ghost from: R.World, ghost i: nat, a: Meanwhile)
      requires Agrees(from) && i in world.workers
      modifies this`closed, this`world, this`trace, manager
      ensures Agrees(from) && i in world.workers && world.workers[i] == old(world).workers[i]
      ensures closed == (old(closed) || a.closes)
    {
      for k := 0 to |a.disconnects|
        invariant Agrees(from) && closed == old(closed)
        invariant i in world.workers && world.workers[i] == old(world).workers[i]
      {
        Step(from, R.Disconnect(a.disconnects[k].0, a.disconnects[k].1));
        var _ := manager.RequestRecovery(a.disconnects[k].0, a.disconnects[k].1);
      }
      if a.closes {
        Step(from, R.RaiseClosed);
        closed := true;
        Step(from, R.SetClosed);
        manager.SetClosed();
      }
    }

    /** An attempt that succeeded: whether more recovery is due, the worker ending otherwise. */
    method Settle(ghost from: R.World, ghost i: nat, restart: bool, region: Region, ended: Meanwhile)
      returns (goOn: bool)
      requires Agrees(from) && WorkerAt(i, if restart then R.InRestart else R.InResume)
      modifies this`closed, this`world, this`trace, manager
      ensures Agrees(from) && closed == (old(closed) || ended.closes)
      ensures if goOn then WorkerAt(i, R.AtTest) && world.workers[i].count == 0 else world.workers == map[]
    {
      if restart {
        Step(from, R.RestartEnds(i, Some(region)));
        manager.SetConnected(region);
      } else {
        Step(from, R.ResumeEnds(i, Some(region)));
        var _ := manager.SetResumed(region);
      }
      Pass(from, i, ended);
      Step(from, R.AskToContinue(i));
      goOn := manager.RecoveryWorkerShouldContinue();
    }

    /** A resume that failed makes way for a full reconnect. */
    method EscalateResume(ghost from: R.World, ghost i: nat, ended: Meanwhile)
      requires Agrees(from) && WorkerAt(i, R.InResume)
      modifies this`closed, this`world, this`trace, manager
      ensures Agrees(from) && closed == (old(closed) || ended.closes)
      ensures WorkerAt(i, R.AtTest) && world.workers[i].count == 0
    {
      Step(from, R.ResumeEnds(i, None));
      Pass(from, i, ended);
      Step(from, R.Escalate(i));
      manager.SetReconnecting(None);
    }

    /** Past the loop's test: a restart or a resume is under way. */
    method Choose(ghost from: R.World, ghost i: nat, chosen: Meanwhile) returns (restart: bool)
      requires Agrees(from) && WorkerAt(i, R.AtTest) && world.workers[i].count < R.MAX_RECONNECT_COUNT && !closed
      modifies this`closed, this`world, this`trace, manager
      ensures Agrees(from) && WorkerAt(i, if restart then R.InRestart else R.InResume)
      ensures world.workers[i].count == old(world).workers[i].count && closed == chosen.closes
    {
      Step(from, R.Test(i));
      Pass(from, i, chosen);
      restart := manager.state == Reconnecting;
      Step(from, R.Choose(i));
    }

    method GiveUp(ghost from: R.World, ghost i: nat)
      requires Agrees(from) && WorkerAt(i, R.GivingUp)
      modifies this`world, this`trace, manager
      ensures Agrees(from) && world.workers == map[] && world.gaveUp
    {
      Step(from, R.GiveUp(i));
      manager.StopRecoveryWorker();
    }

    /** One round of the loop: whether the worker ended, and its count otherwise. */
    method Try(ghost from: R.World, ghost i: nat, a: Attempt, reconnectCount: nat) returns (ended: bool, count: nat)
      requires Agrees(from) && WorkerAt(i, R.AtTest) && world.workers[i].count == reconnectCount
      requires reconnectCount < R.MAX_RECONNECT_COUNT && !closed
      modifies this`closed, this`world, this`trace, manager
      ensures Agrees(from) && closed == (a.chosen.closes || a.during.closes || a.ended.closes)
      ensures if ended then world.workers == map[] else WorkerAt(i, R.AtTest) && world.workers[i].count == count
    {
      var restart := Choose(from, i, a.chosen);
      Pass(from, i, a.during);
      if a.outcome.Some? {
        var goOn := Settle(from, i, restart, a.outcome.value, a.ended);
        return !goOn, 0;
      }
      if !restart {
        EscalateResume(from, i, a.ended);
        return false, 0;
      }
      Step(from, R.RestartEnds(i, None));
      Pass(from, i, a.ended);
      if R.Delay(reconnectCount) > R.MAX_INTERVAL_MS {
        GiveUp(from, i);
        return true, 0;
      }
      return false, reconnectCount + 1;
    }

    /**
     * The worker started by a disconnect, one attempt after another, anything happening before, between
     * and after; the engine closes once the attempts run out. It ends with the slot free, having taken
     * only steps of the protocol.
     */
    method Work(ghost from: R.World, ghost i: nat, first: Meanwhile, attempts: seq<Attempt>, last: Meanwhile)
      requires Agrees(from) && WorkerAt(i, R.AtTest) && world.workers[i].count == 0
      modifies this`closed, this`world, this`trace, manager
      ensures Agrees(from) && world.workers == map[] && !manager.recovering
    {
      Pass(from, i, first);
      var reconnectCount, k := 0, 0;
      while reconnectCount < R.MAX_RECONNECT_COUNT && !closed
        invariant Agrees(from) && WorkerAt(i, R.AtTest) && world.workers[i].count == reconnectCount
        invariant k <= |attempts| + 1 && (k == |attempts| + 1 ==> closed)
        decreases |attempts| + 1 - k
      {
        var a := if k < |attempts| then attempts[k] else CLOSING;
        k := k + 1;
        var ended, count := Try(from, i, a, reconnectCount);
        if ended {
          return;
        }
        Pass(from, i, a.again);
        reconnectCount := count;
      }
      Step(from, R.Test(i));
      Pass(from, i, last);
      GiveUp(from, i);
    }
  }
}
