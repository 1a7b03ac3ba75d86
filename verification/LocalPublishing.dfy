/**
 * Publishing local data tracks: the manager's locked sections, the callers waiting for the SFU's
 * answers, and the tracks' own sections, as steps that interleave in any order.
 */
module LocalPublishing {
  import opened Machine

  datatype Result = Accepted | Failed(error: PublishError)

  datatype PublishError = Rejected | ErrUnpublished | ErrDisconnected

  /** Where a Publish call stands. Lost: cancelled, but the answer left first and must be received. */
  datatype Phase =
    | Sending
    | Waiting
    | Lost
    | Withdrawing
    | Done(outcome: Outcome)

  datatype Outcome = Returned(result: Result) | SendError | Cancelled

  datatype TrackState = Published | Republishing | Unpublished

  /** closes counts how often the track's channel was closed. */
  datatype Track = Track(state: TrackState, sid: string, closes: nat)

  /**
   * A handle belongs to one Publish call. sent logs what was put on the call's one-place channel;
   * marking and completing are the tracks some section has looked up and still has to mark
   * unpublished, or complete; owed are the unpublish requests still to be sent.
   */
  datatype World = World(
    given: u16, pending: set<u16>, active: set<u16>,
    calls: map<u16, Phase>, sent: map<u16, seq<Result>>, tracks: map<u16, Track>,
    marking: multiset<u16>, completing: multiset<(u16, string)>, owed: multiset<u16>)

  const START := World(0, {}, {}, map[], map[], map[], multiset{}, multiset{}, multiset{})

  datatype Step =
    | Get
    | SendReturns(handle: u16, ok: bool)
    | Receive(handle: u16)
    | Cancel(handle: u16)
    | ReceiveLost(handle: u16)
    | Withdraw(handle: u16)
    | Unpublish(handle: u16)
    | Resolve(handle: u16, answer: Option<string>)
    | Complete(handle: u16, sid: string)
    | Mark(handle: u16)
    | SendUnpublish(handle: u16)
    | UnpublishResponse(handle: u16)
    | Republish
    | Shutdown

  predicate At(w: World, handle: u16, phase: Phase) {
    handle in w.calls && w.calls[handle] == phase
  }

  /** A received value leaves the channel; here it is only ever the first one sent. */
  predicate HasResult(w: World, handle: u16) {
    handle in w.sent && w.sent[handle] != []
  }

  predicate Enabled(w: World, step: Step) {
    match step
    case Get => w.given < 0xFFFF
    case SendReturns(h, _) => At(w, h, Sending)
    case Receive(h) => At(w, h, Waiting) && HasResult(w, h)
    case Cancel(h) => At(w, h, Waiting)
    case ReceiveLost(h) => At(w, h, Lost) && HasResult(w, h)
    case Withdraw(h) => At(w, h, Withdrawing)
    case Unpublish(h) => h in w.tracks
    case Complete(h, sid) => (h, sid) in w.completing && h in w.tracks
    case Mark(h) => h in w.marking && h in w.tracks
    case SendUnpublish(h) => h in w.owed
    case _ => true
  }

  // ---- The pieces of the sections ----

  function Move(w: World, handle: u16, phase: Phase): World {
    w.(calls := w.calls[handle := phase])
  }

  function SentTo(w: World, handle: u16): (r: seq<Result>) {
    if handle in w.sent then w.sent[handle] else []
  }

  /** Taking a call off the pending table and answering it, under the lock. */
  function Answer(w: World, handle: u16, result: Result): World {
    w.(pending := w.pending - {handle}, sent := w.sent[handle := SentTo(w, handle) + [result]])
  }

  function AnswerAll(w: World, result: Result): World {
    w.(pending := {},
       sent := map h | h in w.sent.Keys + w.pending :: if h in w.pending then SentTo(w, h) + [result] else w.sent[h])
  }

  /** Taking a track off the active table; its state is marked in a later section. */
  function Drop(w: World, handle: u16): World {
    if handle in w.active then w.(active := w.active - {handle}, marking := w.marking + multiset{handle}) else w
  }

  function Marked(t: Track): Track {
    if t.state == Unpublished then t else t.(state := Unpublished, closes := t.closes + 1)
  }

  function Completed(t: Track, sid: string): Track {
    if t.state == Republishing then t.(state := Published, sid := sid) else t
  }

  /** The unpublish request goes out for a track that was still active. */
  function Unpublishing(w: World, handle: u16): World {
    if handle in w.active then Drop(w, handle).(owed := w.owed + multiset{handle}) else w
  }

  function Resolved(w: World, handle: u16, answer: Option<string>): World {
    if handle in w.pending then
      match answer
      case Some(sid) =>
        Answer(w, handle, Accepted).(
        tracks := w.tracks[handle := Track(Published, sid, 0)], active := w.active + {handle})
      case None => Answer(w, handle, Failed(Rejected))
    else if handle in w.active then
      match answer
      case Some(sid) => w.(completing := w.completing + multiset{(handle, sid)})
      case None => Drop(w, handle)
    else if answer.Some? then w.(owed := w.owed + multiset{handle})
    else w
  }

  function Republished(w: World): World {
    AnswerAll(w, Failed(ErrDisconnected)).(
    tracks := map h | h in w.tracks :: if h in w.active then w.tracks[h].(state := Republishing) else w.tracks[h])
  }

  function ShutDown(w: World): World {
    AnswerAll(w, Failed(ErrDisconnected)).(active := {}, marking := w.marking + multiset(w.active))
  }

  /** The answer a cancelled call received too late: an accepted track is unpublished again. */
  function AfterLost(result: Result): Phase {
    if result == Accepted then Withdrawing else Done(Cancelled)
  }

  function Next(w: World, step: Step): World
    requires Enabled(w, step)
  {
    match step
    case Get =>
      var h := w.given + 1;
      Move(w, h, Sending).(given := h, pending := w.pending + {h})
    case SendReturns(h, ok) =>
      if ok then Move(w, h, Waiting) else Move(w, h, Done(SendError)).(pending := w.pending - {h})
    case Receive(h) => Move(w, h, Done(Returned(w.sent[h][0])))
    case Cancel(h) =>
      if h in w.pending then Move(w, h, Done(Cancelled)).(pending := w.pending - {h}) else Move(w, h, Lost)
    case ReceiveLost(h) => Move(w, h, AfterLost(w.sent[h][0]))
    case Withdraw(h) => Unpublishing(Move(w, h, Done(Cancelled)), h)
    case Unpublish(h) => Unpublishing(w, h)
    case Resolve(h, answer) => Resolved(w, h, answer)
    case Complete(h, sid) =>
      w.(tracks := w.tracks[h := Completed(w.tracks[h], sid)], completing := w.completing - multiset{(h, sid)})
    case Mark(h) => w.(tracks := w.tracks[h := Marked(w.tracks[h])], marking := w.marking - multiset{h})
    case SendUnpublish(h) => w.(owed := w.owed - multiset{h})
    case UnpublishResponse(h) => Drop(if h in w.pending then Answer(w, h, Failed(ErrUnpublished)) else w, h)
    case Republish => Republished(w)
    case Shutdown => ShutDown(w)
  }

  // ---- The invariant, one handle at a time ----

  /** Handles are given out in turn, never again; each table holds only handles given out. */
  predicate HandleGiven(w: World, h: u16) {
    && (h in w.calls <==> 1 <= h <= w.given)
    && (h in w.pending || h in w.tracks || h in w.sent ==> h in w.calls)
    && (h in w.active || h in w.marking ==> h in w.tracks)
    && (h in w.pending ==> h !in w.tracks)
  }

  /**
   * A pending call has no answer yet and its caller is still there; a call off the table that may
   * still receive has exactly one.
   */
  predicate OneAnswer(w: World, h: u16) {
    && |SentTo(w, h)| <= 1
    && (h in w.pending ==> |SentTo(w, h)| == 0 && (At(w, h, Sending) || At(w, h, Waiting)))
    && (Receiving(w, h) && h !in w.pending ==> |SentTo(w, h)| == 1)
  }

  predicate Receiving(w: World, h: u16) {
    At(w, h, Sending) || At(w, h, Waiting) || At(w, h, Lost)
  }

  predicate WasAccepted(w: World, h: u16) {
    |SentTo(w, h)| == 1 && SentTo(w, h)[0] == Accepted
  }

  /** A track is made by its acceptance; it leaves the table before it is marked; its channel closes once. */
  predicate TrackSafe(w: World, h: u16) {
    && (h in w.tracks <==> WasAccepted(w, h))
    && (h in w.tracks ==> w.tracks[h].closes == if w.tracks[h].state == Unpublished then 1 else 0)
    && (h in w.tracks && h in w.active ==> w.tracks[h].state != Unpublished && h !in w.marking)
    && (h in w.tracks && h !in w.active ==> w.tracks[h].state == Unpublished || h in w.marking)
  }

  /** A cancelled call leaves no track behind; a call returns the answer it was sent. */
  predicate CallSafe(w: World, h: u16) {
    h in w.calls ==>
      match w.calls[h]
      case Done(Cancelled) => h !in w.active && h !in w.pending
      case Done(Returned(r)) => |SentTo(w, h)| == 1 && SentTo(w, h)[0] == r
      case Withdrawing => h in w.tracks
      case _ => true
  }

  predicate Safe(w: World, h: u16) {
    HandleGiven(w, h) && OneAnswer(w, h) && TrackSafe(w, h) && CallSafe(w, h)
  }

  // ---- Every step keeps every handle safe ----

  lemma SendKeepsSafe(w: World, g: u16, ok: bool, h: u16)
    requires Safe(w, h) && At(w, g, Sending)
    ensures Safe(Next(w, SendReturns(g, ok)), h)
  {
  }

  lemma ReceiveKeepsSafe(w: World, step: Step, h: u16)
    requires Safe(w, h) && Enabled(w, step) && (step.Receive? || step.Cancel? || step.ReceiveLost?)
    ensures Safe(Next(w, step), h)
  {
  }

  lemma GetKeepsSafe(w: World, h: u16)
    requires Safe(w, h) && w.given < 0xFFFF
    ensures Safe(Next(w, Get), h)
  {
  }

  lemma WithdrawKeepsSafe(w: World, g: u16, h: u16)
    requires Safe(w, h) && At(w, g, Withdrawing)
    ensures Safe(Next(w, Withdraw(g)), h)
  {
  }

  lemma UnpublishKeepsSafe(w: World, g: u16, h: u16)
    requires Safe(w, h)
    ensures Safe(Unpublishing(w, g), h)
  {
  }

  lemma AnswerKeepsSafe(w: World, g: u16, answer: Option<string>, h: u16)
    requires Safe(w, h) && g in w.pending
    ensures Safe(Resolved(w, g, answer), h)
  {
  }

  lemma LateAnswerKeepsSafe(w: World, g: u16, answer: Option<string>, h: u16)
    requires Safe(w, h) && g !in w.pending
    ensures Safe(Resolved(w, g, answer), h)
  {
  }

  lemma UnpublishResponseKeepsSafe(w: World, g: u16, h: u16)
    requires Safe(w, h)
    ensures Safe(Next(w, UnpublishResponse(g)), h)
  {
  }

  lemma TrackStepsKeepSafe(w: World, step: Step, h: u16)
    requires Safe(w, h) && Enabled(w, step) && (step.Mark? || step.Complete? || step.SendUnpublish?)
    ensures Safe(Next(w, step), h)
  {
  }

  lemma RepublishKeepsSafe(w: World, h: u16)
    requires Safe(w, h)
    ensures Safe(Republished(w), h)
  {
  }

  lemma ShutdownKeepsSafe(w: World, h: u16)
    requires Safe(w, h)
    ensures Safe(ShutDown(w), h)
  {
  }

  lemma StepKeepsSafe(w: World, step: Step, h: u16)
    requires Safe(w, h) && Enabled(w, step)
    ensures Safe(Next(w, step), h)
  {
    match step
    case Get => GetKeepsSafe(w, h);
    case SendReturns(g, ok) => SendKeepsSafe(w, g, ok, h);
    case Receive(_) => ReceiveKeepsSafe(w, step, h);
    case Cancel(_) => ReceiveKeepsSafe(w, step, h);
    case ReceiveLost(_) => ReceiveKeepsSafe(w, step, h);
    case Withdraw(g) => WithdrawKeepsSafe(w, g, h);
    case Unpublish(g) => UnpublishKeepsSafe(w, g, h);
    case Resolve(g, answer) =>
      if g in w.pending {
        AnswerKeepsSafe(w, g, answer, h);
      } else {
        LateAnswerKeepsSafe(w, g, answer, h);
      }
    case Complete(_, _) => TrackStepsKeepSafe(w, step, h);
    case Mark(_) => TrackStepsKeepSafe(w, step, h);
    case SendUnpublish(_) => TrackStepsKeepSafe(w, step, h);
    case UnpublishResponse(g) => UnpublishResponseKeepsSafe(w, g, h);
    case Republish => RepublishKeepsSafe(w, h);
    case Shutdown => ShutdownKeepsSafe(w, h);
  }

  // ---- What runs promise ----

  ghost predicate Runs(w: World, steps: seq<Step>)
    decreases steps
  {
    steps == [] || (Enabled(w, steps[0]) && Runs(Next(w, steps[0]), steps[1..]))
  }

  ghost function After(w: World, steps: seq<Step>): World
    requires Runs(w, steps)
    decreases steps
  {
    if steps == [] then w else After(Next(w, steps[0]), steps[1..])
  }

  /** What never goes back: an answer sent, a call ended, a track unpublished. */
  ghost predicate Settled(w: World, v: World, h: u16) {
    && SentTo(w, h) <= SentTo(v, h)
    && (h in w.calls ==> h in v.calls && (w.calls[h].Done? ==> v.calls[h] == w.calls[h]))
    && (h in w.tracks ==> h in v.tracks && (w.tracks[h].state == Unpublished ==> v.tracks[h] == w.tracks[h]))
    && (h in w.tracks && h !in w.active ==> h !in v.active)
  }

  lemma CallStepsSettle(w: World, step: Step, h: u16)
    requires Safe(w, h) && Enabled(w, step)
    requires step.Get? || step.SendReturns? || step.Receive? || step.Cancel? || step.ReceiveLost? || step.Withdraw?
    ensures Settled(w, Next(w, step), h)
  {
  }

  lemma StepSettles(w: World, step: Step, h: u16)
    requires Safe(w, h) && Enabled(w, step)
    ensures Settled(w, Next(w, step), h)
  {
    match step
    case Resolve(_, _) => ManagerStepsSettle(w, step, h);
    case Unpublish(_) => ManagerStepsSettle(w, step, h);
    case UnpublishResponse(_) => ManagerStepsSettle(w, step, h);
    case Complete(_, _) => TrackStepsSettle(w, step, h);
    case Mark(_) => TrackStepsSettle(w, step, h);
    case SendUnpublish(_) => TrackStepsSettle(w, step, h);
    case Republish => TrackStepsSettle(w, step, h);
    case Shutdown => TrackStepsSettle(w, step, h);
    case _ => CallStepsSettle(w, step, h);
  }

  lemma ManagerStepsSettle(w: World, step: Step, h: u16)
    requires Safe(w, h) && Enabled(w, step) && (step.Resolve? || step.Unpublish? || step.UnpublishResponse?)
    ensures Settled(w, Next(w, step), h)
  {
  }

  lemma TrackStepsSettle(w: World, step: Step, h: u16)
    requires Safe(w, h) && Enabled(w, step)
    requires step.Complete? || step.Mark? || step.SendUnpublish? || step.Republish? || step.Shutdown?
    ensures Settled(w, Next(w, step), h)
  {
  }

  /**
   * Over any interleaving every handle stays safe, no answer is taken back, no call ends twice,
   * and no unpublished track is revived or its channel closed again.
   */
  lemma {:induction false} RunsKeepInv(w: World, steps: seq<Step>, h: u16)
    requires Safe(w, h) && Runs(w, steps)
    ensures Safe(After(w, steps), h) && Settled(w, After(w, steps), h)
    decreases steps
  {
    if steps == [] {
    } else {
      StepKeepsSafe(w, steps[0], h);
      StepSettles(w, steps[0], h);
      RunsKeepInv(Next(w, steps[0]), steps[1..], h);
    }
  }

  /** The handle given out next belongs to nobody, now or before. */
  lemma HandlesAreFresh(steps: seq<Step>)
    requires Runs(START, steps) && After(START, steps).given < 0xFFFF
    ensures var w := After(START, steps);
      var h: u16 := w.given + 1;
      h !in w.calls && h !in w.pending && h !in w.active && h !in w.tracks && SentTo(w, h) == [] && h !in w.marking
  {
    RunsKeepInv(START, steps, After(START, steps).given + 1);
  }

  /**
   * In every run: a call that lost the race finds its answer waiting; putting an answer on a pending
   * call's channel finds it empty; and once every track taken off the table has been marked, the
   * active tracks are exactly those not unpublished.
   */
  lemma NothingBlocks(steps: seq<Step>, h: u16)
    requires Runs(START, steps)
    ensures var w := After(START, steps);
      && (At(w, h, Lost) ==> Enabled(w, ReceiveLost(h)))
      && (h in w.pending ==> SentTo(w, h) == [])
      && (h in w.tracks && h !in w.marking ==> (h in w.active <==> w.tracks[h].state != Unpublished))
      && (h in w.tracks ==> w.tracks[h].closes <= 1)
      && (h in w.pending ==> h !in w.active)
  {
    RunsKeepInv(START, steps, h);
  }

  /** Every active track has an owner, unless its Publish call failed to send after the answer came. */
  lemma WhoOwnsActive(steps: seq<Step>, h: u16)
    requires Runs(START, steps) && h in After(START, steps).active
    ensures var w := After(START, steps);
      && HasResult(w, h) && w.sent[h][0] == Accepted
      && (At(w, h, Sending) || At(w, h, Waiting) || At(w, h, Lost) || At(w, h, Withdrawing) ||
          At(w, h, Done(Returned(Accepted))) || At(w, h, Done(SendError)))
  {
    RunsKeepInv(START, steps, h);
  }

  // ---- Every acceptance is accounted for ----

  function One(b: bool): nat {
    if b then 1 else 0
  }

  /** The SFU accepts a publication, rather than confirming that an active track is published again. */
  predicate Accepts(w: World, step: Step, h: u16) {
    step.Resolve? && step.handle == h && step.answer.Some? && h !in w.active
  }

  /** The SFU or a shutdown, and not its owner, takes the track off the active table. */
  predicate TakesOff(w: World, step: Step, h: u16) {
    h in w.active && match step
    case Resolve(g, answer) => g == h && answer.None? && h !in w.pending
    case UnpublishResponse(g) => g == h
    case Shutdown => true
    case _ => false
  }

  /** How often a run's steps accept a publication on the handle. */
  ghost function Acceptances(w: World, steps: seq<Step>, h: u16): nat
    requires Runs(w, steps)
    decreases steps
  {
    if steps == [] then 0 else One(Accepts(w, steps[0], h)) + Acceptances(Next(w, steps[0]), steps[1..], h)
  }

  ghost function TakenOff(w: World, steps: seq<Step>, h: u16): nat
    requires Runs(w, steps)
    decreases steps
  {
    if steps == [] then 0 else One(TakesOff(w, steps[0], h)) + TakenOff(Next(w, steps[0]), steps[1..], h)
  }

  /** How often an unpublish request for the handle is sent. */
  function Requests(steps: seq<Step>, h: u16): nat {
    if steps == [] then 0 else One(steps[0] == SendUnpublish(h)) + Requests(steps[1..], h)
  }

  /** One step's entries in the account: accepted and held before, sent, taken off and held after. */
  predicate Balanced(w: World, step: Step, h: u16)
    requires Enabled(w, step)
  {
    One(Accepts(w, step, h)) + One(h in w.active) + w.owed[h] ==
    One(step == SendUnpublish(h)) + One(TakesOff(w, step, h))
      + One(h in Next(w, step).active) + Next(w, step).owed[h]
  }

  lemma AnswerBalances(w: World, step: Step, h: u16)
    requires Safe(w, h) && Enabled(w, step) && (step.Resolve? || step.UnpublishResponse?)
    ensures Balanced(w, step, h)
  {
  }

  lemma UnpublishBalances(w: World, step: Step, h: u16)
    requires Safe(w, h) && Enabled(w, step) && (step.Unpublish? || step.Withdraw? || step.SendUnpublish?)
    ensures Balanced(w, step, h)
  {
  }

  lemma StepBalances(w: World, step: Step, h: u16)
    requires Safe(w, h) && Enabled(w, step)
    ensures Balanced(w, step, h)
  {
    match step
    case Resolve(_, _) => AnswerBalances(w, step, h);
    case UnpublishResponse(_) => AnswerBalances(w, step, h);
    case Unpublish(_) => UnpublishBalances(w, step, h);
    case Withdraw(_) => UnpublishBalances(w, step, h);
    case SendUnpublish(_) => UnpublishBalances(w, step, h);
    case _ =>
  }

  lemma {:induction false} RunConserves(w: World, steps: seq<Step>, h: u16)
    requires Safe(w, h) && Runs(w, steps)
    ensures var v := After(w, steps);
      Acceptances(w, steps, h) + One(h in w.active) + w.owed[h] ==
      Requests(steps, h) + TakenOff(w, steps, h) + One(h in v.active) + v.owed[h]
    decreases steps
  {
    if steps == [] {
    } else {
      StepBalances(w, steps[0], h);
      StepKeepsSafe(w, steps[0], h);
      RunConserves(Next(w, steps[0]), steps[1..], h);
    }
  }

  /** A track is taken off at most once, and not after it left the table. */
  lemma {:induction false} TakenOffOnce(w: World, steps: seq<Step>, h: u16)
    requires Safe(w, h) && Runs(w, steps)
    ensures TakenOff(w, steps, h) <= One(!(h in w.tracks && h !in w.active))
    decreases steps
  {
    if steps == [] {
    } else {
      StepSettles(w, steps[0], h);
      StepKeepsSafe(w, steps[0], h);
      TakenOffOnce(Next(w, steps[0]), steps[1..], h);
    }
  }

  /**
   * In every run, once no unpublish request is owed: each publication the SFU accepted is active
   * still, was answered by an unpublish request, or was taken off by the SFU or a shutdown; if its
   * Publish call was cancelled, it is not active.
   */
  lemma AcceptedIsKeptOrWithdrawn(steps: seq<Step>, h: u16)
    requires Runs(START, steps) && h !in After(START, steps).owed
    ensures var w := After(START, steps);
      && Acceptances(START, steps, h) == One(h in w.active) + Requests(steps, h) + TakenOff(START, steps, h)
      && TakenOff(START, steps, h) <= 1
      && (At(w, h, Done(Cancelled)) ==> h !in w.active)
  {
    RunConserves(START, steps, h);
    TakenOffOnce(START, steps, h);
    RunsKeepInv(START, steps, h);
  }

  // ---- A send that fails late ----

  lemma {:induction false} NeverActiveAgain(w: World, steps: seq<Step>, h: u16)
    requires Safe(w, h) && Runs(w, steps) && h in w.calls && h !in w.pending && h !in w.active
    ensures h !in After(w, steps).active
    decreases steps
  {
    if steps == [] {
    } else {
      var v := Next(w, steps[0]);
      StepKeepsSafe(w, steps[0], h);
      StepSettles(w, steps[0], h);
      StaysOff(w, steps[0], h);
      NeverActiveAgain(v, steps[1..], h);
    }
  }

  lemma StaysOff(w: World, step: Step, h: u16)
    requires Safe(w, h) && Enabled(w, step) && h in w.calls && h !in w.pending && h !in w.active
    ensures h !in Next(w, step).pending && h !in Next(w, step).active
  {
  }

  /** A failed send leaves an active track, then or ever, if and only if it is active as the send returns. */
  lemma FailedSendLeavesTrackIff(before: seq<Step>, after: seq<Step>, h: u16)
    requires Runs(START, before) && At(After(START, before), h, Sending)
    requires Runs(Next(After(START, before), SendReturns(h, false)), after)
    ensures var w := After(START, before);
      var v := Next(w, SendReturns(h, false));
      && At(v, h, Done(SendError)) && (h in v.active <==> h in w.active)
      && (h in After(v, after).active ==> h in w.active)
  {
    var w := After(START, before);
    RunsKeepInv(START, before, h);
    StepKeepsSafe(w, SendReturns(h, false), h);
    if h !in w.active {
      NeverActiveAgain(Next(w, SendReturns(h, false)), after, h);
    }
  }

  /** Such a track: its Publish call returned an error, and nobody has it to unpublish. */
  lemma FailedSendLeavesTrack(sid: string)
    ensures var steps := [Get, Resolve(1, Some(sid)), SendReturns(1, false)];
      && Runs(START, steps)
      && 1 in After(START, steps).active && At(After(START, steps), 1, Done(SendError))
  {
    var steps := [Get, Resolve(1, Some(sid)), SendReturns(1, false)];
    var a := Next(START, Get);
    var b := Next(a, Resolve(1, Some(sid)));
    assert steps[1..] == [Resolve(1, Some(sid)), SendReturns(1, false)];
    assert steps[1..][1..] == [SendReturns(1, false)];
    assert steps[1..][1..][1..] == [];
    assert At(b, 1, Sending);
    assert Runs(b, [SendReturns(1, false)]);
    assert After(b, [SendReturns(1, false)]) == Next(b, SendReturns(1, false));
  }
}
