/**
 * What Subscribe calls get over any interleaving: every stream handed out stays open until it is closed
 * or the track ends, and every call that waits is answered unless it was cancelled itself.
 */
module RemoteTrackAnswers {
  import opened Machine
  import opened RemoteTrack
  import opened RemoteTrackStreams

  // ---- Streams ----

  /** The streams that a section hands to Subscribe calls. */
  function HandedBy(t: Track, section: Section): set<nat> {
    match section
    case Subscribe(_, hasDecryptor) =>
      if SubscribeOutcome(t, hasDecryptor).Joined? then {SubscribeOutcome(t, hasDecryptor).stream} else {}
    case Activate(handle) => GrantedSince(Activated(t, handle).answers, |t.answers|)
    case _ => {}
  }

  /** The streams granted by the answers from the n-th on. */
  function GrantedSince(answers: seq<(nat, Answer)>, n: nat): set<nat> {
    set i | n <= i < |answers| && answers[i].1.Granted? :: answers[i].1.stream
  }

  /** The streams handed out and not closed since, told from the sections alone; the end closes all. */
  ghost function OpenOver(t: Track, sections: seq<Section>, open: set<nat>): set<nat>
    requires Runs(t, sections)
    decreases sections
  {
    if sections == [] then open
    else
      var now :=
        match sections[0]
        case RemoveStream(s) => open - {s}
        case End(_) => {}
        case _ => open + HandedBy(t, sections[0]);
      OpenOver(Run(t, sections[0]), sections[1..], now)
  }

  lemma {:induction false} GrantAllAdds(t: Track, ws: seq<nat>)
    ensures GrantAll(t, ws).streams == t.streams + GrantedSince(GrantAll(t, ws).answers, |t.answers|)
    decreases ws
  {
    if ws == [] {
    } else {
      var one := AddStream(t).(answers := t.answers + [(ws[0], Granted(t.next))]);
      GrantAllAdds(one, ws[1..]);
      GrantAllAnswers(one, ws[1..]);
      OneMoreGranted(GrantAll(t, ws).answers, |t.answers|, t.next);
    }
  }

  lemma OneMoreGranted(answers: seq<(nat, Answer)>, n: nat, s: nat)
    requires n < |answers| && answers[n].1 == Granted(s)
    ensures GrantedSince(answers, n) == {s} + GrantedSince(answers, n + 1)
  {
  }

  lemma ActivateOpens(t: Track, handle: u16)
    ensures Activated(t, handle).streams == t.streams + HandedBy(t, Activate(handle))
  {
    if t.subscription == Pending {
      GrantAllAdds(Opened(t, handle), t.waiters);
    }
  }

  lemma OtherSectionsOpen(t: Track, section: Section)
    requires Enabled(t, section) && !section.Activate?
    ensures Run(t, section).streams ==
      match section
      case RemoveStream(s) => t.streams - {s}
      case End(_) => {}
      case _ => t.streams + HandedBy(t, section)
  {
  }

  /** The streams open are exactly those handed out and not closed since. */
  lemma {:induction false} StreamsHandedAreOpen(t: Track, sections: seq<Section>)
    requires Runs(t, sections)
    ensures After(t, sections).streams == OpenOver(t, sections, t.streams)
    decreases sections
  {
    if sections == [] {
    } else {
      if sections[0].Activate? {
        ActivateOpens(t, sections[0].handle);
      } else {
        OtherSectionsOpen(t, sections[0]);
      }
      StreamsHandedAreOpen(Run(t, sections[0]), sections[1..]);
    }
  }

  /** A stream that a call joins with is new, and the track is subscribed. */
  lemma JoinedIsNew(t: Track, sections: seq<Section>, hasDecryptor: bool)
    requires t == NewTrack(t.sid, t.usesE2EE) && Runs(t, sections)
    ensures var r := After(t, sections);
      SubscribeOutcome(r, hasDecryptor).Joined? ==>
        r.subscription == Active && SubscribeOutcome(r, hasDecryptor).stream !in r.streams
  {
    NumbersBelow(t, sections);
  }

  lemma {:induction false} NumbersBelow(t: Track, sections: seq<Section>)
    requires Runs(t, sections) && forall s :: s in t.streams ==> s < t.next
    ensures forall s :: s in After(t, sections).streams ==> s < After(t, sections).next
    decreases sections
  {
    if sections == [] {
    } else {
      SectionKeepsBelow(t, sections[0]);
      NumbersBelow(Run(t, sections[0]), sections[1..]);
    }
  }

  lemma SectionKeepsBelow(t: Track, section: Section)
    requires Enabled(t, section) && forall s :: s in t.streams ==> s < t.next
    ensures forall s :: s in Run(t, section).streams ==> s < Run(t, section).next
  {
    if section.Activate? && t.subscription == Pending {
      GrantAllBelow(Opened(t, section.handle), t.waiters);
    }
  }

  lemma {:induction false} GrantAllBelow(t: Track, ws: seq<nat>)
    requires forall s :: s in t.streams ==> s < t.next
    ensures forall s :: s in GrantAll(t, ws).streams ==> s < GrantAll(t, ws).next
    decreases ws
  {
    if ws == [] {
    } else {
      GrantAllBelow(AddStream(t).(answers := t.answers + [(ws[0], Granted(t.next))]), ws[1..]);
    }
  }

  // ---- Answers ----

  /** What a section answers the calls that wait: a stream each, or why not. */
  function NewAnswers(t: Track, section: Section): seq<(nat, Answer)> {
    match section
    case Activate(_) => if t.subscription == Pending then Grants(t.waiters, t.next + 1) else []
    case End(error) => Refusals(t.waiters, error)
    case FailRequest => if t.subscription == Pending then Refusals(t.waiters, SendFailed) else []
    case _ => []
  }

  function Grants(waiters: seq<nat>, first: nat): seq<(nat, Answer)> {
    seq(|waiters|, i requires 0 <= i < |waiters| => (waiters[i], Granted(first + i)))
  }

  function Refusals(waiters: seq<nat>, error: SubscribeError): seq<(nat, Answer)> {
    seq(|waiters|, i requires 0 <= i < |waiters| => (waiters[i], Refused(error)))
  }

  /** A section answers all calls that wait or none, each with a stream of its own or the reason. */
  lemma AnswersTell(t: Track, section: Section)
    requires Inv(t) && Enabled(t, section)
    ensures Run(t, section).answers == t.answers + NewAnswers(t, section)
    ensures NewAnswers(t, section) != [] ==> Run(t, section).waiters == []
  {
    if section.Activate? {
      ActivateAnswers(t, section.handle);
    } else {
      OthersAnswer(t, section);
    }
  }

  lemma ActivateAnswers(t: Track, handle: u16)
    ensures Activated(t, handle).answers == t.answers + NewAnswers(t, Activate(handle))
    ensures t.subscription == Pending ==> Activated(t, handle).waiters == []
  {
    if t.subscription == Pending {
      GrantAllAnswers(Opened(t, handle), t.waiters);
    }
  }

  lemma OthersAnswer(t: Track, section: Section)
    requires Enabled(t, section) && !section.Activate?
    ensures Run(t, section).answers == t.answers + NewAnswers(t, section)
    ensures NewAnswers(t, section) != [] ==> Run(t, section).waiters == []
  {
  }

  /** The calls that came to wait, told from the outcomes of their first section. */
  ghost function CameToWait(t: Track, sections: seq<Section>): set<nat>
    requires Runs(t, sections)
    decreases sections
  {
    if sections == [] then {}
    else WaitsAfter(t, sections[0]) + CameToWait(Run(t, sections[0]), sections[1..])
  }

  function WaitsAfter(t: Track, section: Section): set<nat> {
    if section.Subscribe? && SubscribeOutcome(t, section.hasDecryptor).Waiting?
    then {SubscribeOutcome(t, section.hasDecryptor).waiter} else {}
  }

  /** The call is still on the list, or was answered. */
  predicate Served(t: Track, w: nat) {
    w in t.waiters || w in Answered(t.answers)
  }

  lemma {:induction false} RemoveWaiterKeeps(ws: seq<nat>, w: nat, x: nat)
    requires x in ws && x != w
    ensures x in RemoveWaiter(ws, w)
    decreases ws
  {
    if ws[0] != w && ws[0] != x {
      RemoveWaiterKeeps(ws[1..], w, x);
    }
  }

  lemma SectionServes(t: Track, section: Section, w: nat)
    requires Inv(t) && Enabled(t, section) && section != Cancel(w)
    ensures Served(t, w) || w in WaitsAfter(t, section) ==> Served(Run(t, section), w)
  {
    var r := Run(t, section);
    AnswersTell(t, section);
    AnsweredGrows(t.answers, NewAnswers(t, section));
    if w in t.waiters && w !in r.waiters {
      OnListOrAnswered(t, section, w);
    }
  }

  lemma AnsweredGrows(answers: seq<(nat, Answer)>, more: seq<(nat, Answer)>)
    ensures Answered(answers + more) == Answered(answers) + Answered(more)
  {
  }

  lemma OnListOrAnswered(t: Track, section: Section, w: nat)
    requires Inv(t) && Enabled(t, section) && section != Cancel(w)
    requires w in t.waiters && w !in Run(t, section).waiters
    ensures w in Answered(NewAnswers(t, section))
  {
    if section.Cancel? {
      RemoveWaiterKeeps(t.waiters, section.waiter, w);
    }
    var i :| 0 <= i < |t.waiters| && t.waiters[i] == w;
    assert Answered(NewAnswers(t, section))[i] == w;
  }

  /** A call that waits leaves the list by its answer, or by its own cancelling. */
  lemma {:induction false} CallsAreServed(t: Track, sections: seq<Section>, w: nat)
    requires Inv(t) && Runs(t, sections) && Cancel(w) !in sections
    ensures Served(t, w) || w in CameToWait(t, sections) ==> Served(After(t, sections), w)
    decreases sections
  {
    if sections == [] {
    } else {
      SectionServes(t, sections[0], w);
      RunKeepsInv(t, sections[0]);
      CallsAreServed(Run(t, sections[0]), sections[1..], w);
    }
  }

  /**
   * Over every interleaving: a call that came to wait and was not cancelled is still on the list, the
   * subscription being pending, or has been answered, and exactly once.
   */
  lemma WaitersAreAnswered(t: Track, sections: seq<Section>, w: nat)
    requires t == NewTrack(t.sid, t.usesE2EE) && Runs(t, sections)
    requires w in CameToWait(t, sections) && Cancel(w) !in sections
    ensures var r := After(t, sections);
      && (w in r.waiters <==> w !in Answered(r.answers))
      && (r.subscription != Pending ==> w in Answered(r.answers))
      && multiset(Answered(r.answers))[w] <= 1
  {
    NewTrackInv(t.sid, t.usesE2EE);
    CallsAreServed(t, sections, w);
    RunsKeepInv(t, sections);
    OnceOnly(Answered(After(t, sections).answers), After(t, sections).waiters, w);
  }

  lemma OnceOnly(answered: seq<nat>, waiters: seq<nat>, w: nat)
    requires Distinct(answered + waiters)
    ensures multiset(answered)[w] <= 1 && !(w in waiters && w in answered)
  {
    var all := answered + waiters;
    forall i, j | 0 <= i < |answered| && 0 <= j < |waiters| ensures answered[i] != waiters[j] {
      assert all[i] == answered[i] && all[|answered| + j] == waiters[j];
    }
    forall i, j | 0 <= i < j < |answered| ensures answered[i] != answered[j] {
      assert all[i] == answered[i] && all[j] == answered[j];
    }
    DistinctOnce(answered, w);
  }

  lemma {:induction false} DistinctOnce(xs: seq<nat>, x: nat)
    requires Distinct(xs)
    ensures multiset(xs)[x] <= 1
    decreases xs
  {
    if xs == [] {
    } else {
      assert xs == [xs[0]] + xs[1..];
      DistinctOnce(xs[1..], x);
      assert xs[0] == x ==> x !in xs[1..];
    }
  }

  // ---- Requests ----

  /** No decryptor, no stream: an encrypted track is not even asked for. */
  lemma {:induction false} EncryptedNeedsDecryptor(t: Track, sections: seq<Section>)
    requires t.usesE2EE && t.subscription == Unsubscribed && t.waiters == [] && t.streams == {} && Changes(t) == []
    requires Runs(t, sections) && forall s :: s in sections && s.Subscribe? ==> !s.hasDecryptor
    ensures After(t, sections).answers == t.answers && After(t, sections).streams == {}
    ensures Changes(After(t, sections)) == []
    decreases sections
  {
    if sections == [] {
    } else {
      assert sections[0] in sections;
      assert forall s :: s in sections[1..] ==> s in sections;
      assert AnswerAll([], SendFailed) == [];
      StaysUnsubscribed(t, sections[0]);
      EncryptedNeedsDecryptor(Run(t, sections[0]), sections[1..]);
    }
  }

  lemma StaysUnsubscribed(t: Track, section: Section)
    requires t.usesE2EE && t.subscription == Unsubscribed && t.waiters == [] && t.streams == {} && Changes(t) == []
    requires Enabled(t, section) && (section.Subscribe? ==> !section.hasDecryptor)
    ensures var r := Run(t, section);
      && r.usesE2EE && r.subscription == Unsubscribed && r.waiters == [] && r.streams == {} && Changes(r) == []
      && r.answers == t.answers
  {
  }

  /** The size asked for by the call that opened the subscription at hand, at least one. */
  ghost function SizeOver(t: Track, sections: seq<Section>, size: int): int
    requires Runs(t, sections)
    decreases sections
  {
    if sections == [] then size
    else
      var s := sections[0];
      var opens := s.Subscribe? && t.subscription == Unsubscribed && SubscribeOutcome(t, s.hasDecryptor).Waiting?;
      SizeOver(Run(t, s), sections[1..], if !opens then size else if s.bufferSize >= 1 then s.bufferSize else 1)
  }

  /** The streams granted have the size that the first of the waiting calls asked for. */
  lemma {:induction false} SizeIsOfOpener(t: Track, sections: seq<Section>)
    requires Runs(t, sections)
    ensures After(t, sections).bufferSize == SizeOver(t, sections, t.bufferSize)
    decreases sections
  {
    if sections == [] {
    } else {
      SectionKeepsSize(t, sections[0]);
      SizeIsOfOpener(Run(t, sections[0]), sections[1..]);
    }
  }

  lemma SectionKeepsSize(t: Track, section: Section)
    requires Enabled(t, section)
    ensures Run(t, section).bufferSize ==
      if section.Subscribe? && t.subscription == Unsubscribed && SubscribeOutcome(t, section.hasDecryptor).Waiting?
      then (if section.bufferSize >= 1 then section.bufferSize else 1) else t.bufferSize
  {
    if section.Activate? && t.subscription == Pending {
      GrantAllGrows(Opened(t, section.handle), t.waiters);
    }
  }

  function FailedFirsts(t: Track, section: Section): nat {
    if section == SendReturns(false) && t.sending.Some? && t.sending.value.first then 1 else 0
  }

  /** How many requests of Subscribe calls could not be sent, less those whose call has acted on it. */
  ghost function FailuresOver(t: Track, sections: seq<Section>, failures: int): int
    requires Runs(t, sections)
    decreases sections
  {
    if sections == [] then failures
    else
      FailuresOver(Run(t, sections[0]), sections[1..],
        failures + FailedFirsts(t, sections[0]) - if sections[0].FailRequest? then 1 else 0)
  }

  /** Every failed request is acted on, once. */
  lemma {:induction false} FailuresAreCounted(t: Track, sections: seq<Section>)
    requires Runs(t, sections)
    ensures After(t, sections).failing == FailuresOver(t, sections, t.failing)
    decreases sections
  {
    if sections == [] {
    } else {
      SectionKeepsFailing(t, sections[0]);
      FailuresAreCounted(Run(t, sections[0]), sections[1..]);
    }
  }

  lemma SectionKeepsFailing(t: Track, section: Section)
    requires Enabled(t, section)
    ensures Run(t, section).failing ==
      t.failing + FailedFirsts(t, section) - if section.FailRequest? then 1 else 0
  {
    if section.Activate? && t.subscription == Pending {
      GrantAllGrows(Opened(t, section.handle), t.waiters);
    }
  }

  /** A track republished under another SID asks for its subscription again under that SID. */
  lemma ResubscribesUnderNewSid(t: Track, sid: string)
    requires t.sending.None?
    ensures Enabled(t, Reassign(sid)) && Enabled(Run(t, Reassign(sid)), Resend)
    ensures var r := Run(Run(t, Reassign(sid)), Resend);
      Changes(r) == Changes(t) + if t.subscription != Unsubscribed then [Update(sid, true, false)] else []
  {
  }
}
