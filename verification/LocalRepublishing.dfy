/** What a track and its Publish call are told over any interleaving: answers, SIDs and republication. */
module LocalRepublishing {
  import opened Machine
  import opened LocalPublishing

  // ---- Tracks ----

  /** What the steps so far have told a track: whether it is to be published again, and its SID. */
  datatype Told = Told(republishing: bool, sid: string)

  function Tell(w: World, step: Step, h: u16, told: Told): Told {
    match step
    case Resolve(g, answer) => if g == h && h in w.pending && answer.Some? then Told(false, answer.value) else told
    case Republish => if h in w.active then told.(republishing := true) else told
    case Complete(g, sid) => if g == h && told.republishing then Told(false, sid) else told
    case _ => told
  }

  ghost function ToldOver(w: World, steps: seq<Step>, h: u16, told: Told): Told
    requires Runs(w, steps)
    decreases steps
  {
    if steps == [] then told else ToldOver(Next(w, steps[0]), steps[1..], h, Tell(w, steps[0], h, told))
  }

  /** A track not unpublished is in the state, and under the SID, it was told. */
  predicate DoesAsTold(w: World, h: u16, told: Told) {
    h in w.tracks && w.tracks[h].state != Unpublished ==>
      && w.tracks[h].state == (if told.republishing then Republishing else Published)
      && w.tracks[h].sid == told.sid
  }

  lemma StepTells(w: World, step: Step, h: u16, told: Told)
    requires Safe(w, h) && Enabled(w, step) && DoesAsTold(w, h, told)
    ensures DoesAsTold(Next(w, step), h, Tell(w, step, h, told))
  {
    match step
    case Resolve(_, _) => ManagerTells(w, step, h, told);
    case Unpublish(_) => ManagerTells(w, step, h, told);
    case UnpublishResponse(_) => ManagerTells(w, step, h, told);
    case Withdraw(_) => ManagerTells(w, step, h, told);
    case Complete(_, _) => TracksTell(w, step, h, told);
    case Mark(_) => TracksTell(w, step, h, told);
    case Republish => TracksTell(w, step, h, told);
    case _ => OthersTell(w, step, h, told);
  }

  lemma ManagerTells(w: World, step: Step, h: u16, told: Told)
    requires Safe(w, h) && Enabled(w, step) && DoesAsTold(w, h, told)
    requires step.Resolve? || step.Unpublish? || step.UnpublishResponse? || step.Withdraw?
    ensures DoesAsTold(Next(w, step), h, Tell(w, step, h, told))
  {
  }

  lemma TracksTell(w: World, step: Step, h: u16, told: Told)
    requires Safe(w, h) && Enabled(w, step) && DoesAsTold(w, h, told)
    requires step.Complete? || step.Mark? || step.Republish?
    ensures DoesAsTold(Next(w, step), h, Tell(w, step, h, told))
  {
  }

  predicate OfCalls(step: Step) {
    step.Get? || step.SendReturns? || step.Receive? || step.Cancel? || step.ReceiveLost?
  }

  lemma OthersTell(w: World, step: Step, h: u16, told: Told)
    requires Enabled(w, step) && (OfCalls(step) || step.SendUnpublish? || step.Shutdown?)
    ensures Next(w, step).tracks == w.tracks && Tell(w, step, h, told) == told
  {
  }

  lemma {:induction false} RunsTell(w: World, steps: seq<Step>, h: u16, told: Told)
    requires Safe(w, h) && Runs(w, steps) && DoesAsTold(w, h, told)
    ensures DoesAsTold(After(w, steps), h, ToldOver(w, steps, h, told))
    decreases steps
  {
    if steps == [] {
    } else {
      StepTells(w, steps[0], h, told);
      StepKeepsSafe(w, steps[0], h);
      RunsTell(Next(w, steps[0]), steps[1..], h, Tell(w, steps[0], h, told));
    }
  }

  /**
   * In every run an active track is being republished if and only if a Republish found it active after
   * its acceptance and no Complete has come since; otherwise it is published. Its SID is that of the
   * Complete that ended its last republication, or of its acceptance.
   */
  lemma RepublishingIff(steps: seq<Step>, h: u16)
    requires Runs(START, steps) && h in After(START, steps).active
    ensures var w, told := After(START, steps), ToldOver(START, steps, h, Told(false, ""));
      && h in w.tracks
      && (w.tracks[h].state == Republishing <==> told.republishing)
      && (w.tracks[h].state == Published <==> !told.republishing)
      && w.tracks[h].sid == told.sid
  {
    RunsTell(START, steps, h, Told(false, ""));
    RunsKeepInv(START, steps, h);
  }

  // ---- Calls ----

  /** What a step answers the pending call of a handle, and why. */
  function AnswerBy(w: World, step: Step, h: u16): seq<Result> {
    if h !in w.pending then []
    else
      match step
      case Resolve(g, answer) =>
        if g != h then [] else if answer.Some? then [Accepted] else [Failed(Rejected)]
      case UnpublishResponse(g) => if g == h then [Failed(ErrUnpublished)] else []
      case Republish => [Failed(ErrDisconnected)]
      case Shutdown => [Failed(ErrDisconnected)]
      case _ => []
  }

  /** What the steps answer the call, after what they have answered before. */
  ghost function AnswersOver(w: World, steps: seq<Step>, h: u16, before: seq<Result>): seq<Result>
    requires Runs(w, steps)
    decreases steps
  {
    if steps == [] then before
    else AnswersOver(Next(w, steps[0]), steps[1..], h, before + AnswerBy(w, steps[0], h))
  }

  lemma StepAnswers(w: World, step: Step, h: u16)
    requires Enabled(w, step)
    ensures SentTo(Next(w, step), h) == SentTo(w, h) + AnswerBy(w, step, h)
  {
    match step
    case Resolve(_, _) => ManagerAnswers(w, step, h);
    case UnpublishResponse(_) => ManagerAnswers(w, step, h);
    case Republish => AllAnswered(w, h);
    case Shutdown => AllAnswered(w, h);
    case _ =>
      if OfCalls(step) {
        CallsAnswerNone(w, step);
      } else {
        TracksAnswerNone(w, step);
      }
  }

  lemma ManagerAnswers(w: World, step: Step, h: u16)
    requires Enabled(w, step) && (step.Resolve? || step.UnpublishResponse?)
    ensures SentTo(Next(w, step), h) == SentTo(w, h) + AnswerBy(w, step, h)
  {
  }

  lemma AllAnswered(w: World, h: u16)
    ensures SentTo(AnswerAll(w, Failed(ErrDisconnected)), h) ==
      SentTo(w, h) + if h in w.pending then [Failed(ErrDisconnected)] else []
  {
  }

  lemma CallsAnswerNone(w: World, step: Step)
    requires Enabled(w, step) && OfCalls(step)
    ensures Next(w, step).sent == w.sent
  {
  }

  lemma TracksAnswerNone(w: World, step: Step)
    requires Enabled(w, step)
    requires step.Withdraw? || step.Unpublish? || step.Complete? || step.Mark? || step.SendUnpublish?
    ensures Next(w, step).sent == w.sent
  {
    match step
    case Withdraw(g) => UnpublishingAnswersNone(Move(w, g, Done(Cancelled)), g);
    case Unpublish(g) => UnpublishingAnswersNone(w, g);
    case _ => MarkingAnswersNone(w, step);
  }

  lemma UnpublishingAnswersNone(w: World, g: u16)
    ensures Unpublishing(w, g).sent == w.sent
  {
  }

  lemma MarkingAnswersNone(w: World, step: Step)
    requires Enabled(w, step) && (step.Complete? || step.Mark? || step.SendUnpublish?)
    ensures Next(w, step).sent == w.sent
  {
  }

  lemma {:induction false} RunsAnswer(w: World, steps: seq<Step>, h: u16)
    requires Runs(w, steps)
    ensures SentTo(After(w, steps), h) == AnswersOver(w, steps, h, SentTo(w, h))
    decreases steps
  {
    if steps == [] {
    } else {
      StepAnswers(w, steps[0], h);
      RunsAnswer(Next(w, steps[0]), steps[1..], h);
    }
  }

  /**
   * In every run a call is answered at most once, by the first step that answers it: accepted or
   * rejected as the SFU says, unpublished, or disconnected.
   */
  lemma AnswerIsOfItsStep(steps: seq<Step>, h: u16)
    requires Runs(START, steps)
    ensures SentTo(After(START, steps), h) == AnswersOver(START, steps, h, [])
    ensures |AnswersOver(START, steps, h, [])| <= 1
  {
    RunsAnswer(START, steps, h);
    RunsKeepInv(START, steps, h);
  }
}
