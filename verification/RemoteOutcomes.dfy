/** What packets and waiting calls come to under the manager: each lookup one arrival, each end its reason. */
module RemoteOutcomes {
  import opened Machine
  import opened RemoteManager
  import opened RemoteRouting
  import T = RemoteTrack
  import A = RemoteTrackAnswers

  // ---- Packets ----

  /** A lookup of the handle that finds this track. */
  predicate Finds(w: World, step: Step, id: nat, handle: u16) {
    step == Lookup(handle) && Routes(w, handle, id)
  }

  predicate Arrives(step: Step, id: nat, handle: u16) {
    step.Deliver? && step.id == id && step.handle == handle
  }

  function One(b: bool): nat {
    if b then 1 else 0
  }

  ghost function Found(w: World, steps: seq<Step>, id: nat, handle: u16): nat
    requires Runs(w, steps)
    decreases steps
  {
    if steps == [] then 0
    else One(Finds(w, steps[0], id, handle)) + Found(Next(w, steps[0]), steps[1..], id, handle)
  }

  function Arrived(steps: seq<Step>, id: nat, handle: u16): nat
    decreases steps
  {
    if steps == [] then 0 else One(Arrives(steps[0], id, handle)) + Arrived(steps[1..], id, handle)
  }

  lemma StepCarries(w: World, step: Step, id: nat, handle: u16)
    requires Enabled(w, step)
    ensures w.inFlight[(id, handle)] + One(Finds(w, step, id, handle))
      == Next(w, step).inFlight[(id, handle)] + One(Arrives(step, id, handle))
  {
    if step.Lookup? || step.Deliver? {
      PacketCarries(w, step, id, handle);
    } else {
      OthersCarryNone(w, step);
    }
  }

  lemma PacketCarries(w: World, step: Step, id: nat, handle: u16)
    requires Enabled(w, step) && (step.Lookup? || step.Deliver?)
    ensures w.inFlight[(id, handle)] + One(Finds(w, step, id, handle))
      == Next(w, step).inFlight[(id, handle)] + One(Arrives(step, id, handle))
  {
  }

  lemma OthersCarryNone(w: World, step: Step)
    requires Enabled(w, step) && !step.Lookup? && !step.Deliver?
    ensures Next(w, step).inFlight == w.inFlight
  {
  }

  /** Each lookup that finds a track is followed by one arrival at it, or is in flight still. */
  lemma {:induction false} PacketsArriveOnce(w: World, steps: seq<Step>, id: nat, handle: u16)
    requires Runs(w, steps)
    ensures w.inFlight[(id, handle)] + Found(w, steps, id, handle)
      == After(w, steps).inFlight[(id, handle)] + Arrived(steps, id, handle)
    decreases steps
  {
    if steps == [] {
    } else {
      StepCarries(w, steps[0], id, handle);
      PacketsArriveOnce(Next(w, steps[0]), steps[1..], id, handle);
    }
  }

  // ---- Tracks that end ----

  /** How a step of the manager ends a track, and with which error. */
  function EndedBy(w: World, step: Step): Option<(nat, T.SubscribeError)>
    requires Enabled(w, step)
  {
    match step
    case BeginUnpublish(sid) => Some((w.descriptors[sid], T.Unpublished))
    case EndOne(sid) => Some((w.descriptors[sid], T.Disconnected))
    case _ => None
  }

  /**
   * An unpublished track refuses its waiting calls as unpublished, a manager that shuts down as
   * disconnected; no other track is touched, and no other step of the manager ends one.
   */
  lemma EndsTellWhy(w: World, step: Step)
    requires Enabled(w, step)
    ensures match EndedBy(w, step)
      case Some((id, error)) =>
        && Next(w, step).tracks == w.tracks[id := T.Ended(w.tracks[id], error)]
        && T.Ended(w.tracks[id], error).answers == w.tracks[id].answers + A.Refusals(w.tracks[id].waiters, error)
        && T.Ended(w.tracks[id], error).unpublished
      case None => forall id :: id in w.tracks && !w.tracks[id].unpublished ==>
        id in Next(w, step).tracks && !Next(w, step).tracks[id].unpublished
  {
    if EndedBy(w, step).Some? {
      EndRefuses(w.tracks[w.descriptors[step.sid]], EndedBy(w, step).value.1);
    } else if step.Local? {
      LocalEndsNone(w.tracks[step.id], step.section);
    } else {
      OthersEndNone(w, step);
    }
  }

  lemma EndRefuses(t: T.Track, error: T.SubscribeError)
    ensures T.Ended(t, error).answers == t.answers + A.Refusals(t.waiters, error) && T.Ended(t, error).unpublished
  {
  }

  lemma LocalEndsNone(t: T.Track, section: T.Section)
    requires T.Enabled(t, section) && IsLocal(section)
    ensures T.Run(t, section).unpublished == t.unpublished
  {
  }

  lemma OthersEndNone(w: World, step: Step)
    requires Enabled(w, step) && EndedBy(w, step).None? && !step.Local?
    ensures forall id :: id in w.tracks && !w.tracks[id].unpublished ==>
      id in Next(w, step).tracks && !Next(w, step).tracks[id].unpublished
  {
    if step.BeginActivate? && w.tracks[w.descriptors[step.sid]].subscription == T.Pending {
      var t := w.tracks[w.descriptors[step.sid]];
      T.GrantAllGrows(T.Opened(t, step.handle), t.waiters);
    }
  }
}
