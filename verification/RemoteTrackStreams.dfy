/** Subscribe calls cancelled after their answer was sent: what becomes of the stream they were granted. */
module RemoteTrackStreams {
  import opened Machine
  import opened RemoteTrack

  /** The waiters whose call was cancelled, and the streams those calls still have to close. */
  datatype Watch = Watch(cancelled: set<nat>, owed: set<nat>)

  const NOTHING := Watch({}, {})

  function StreamsOf(answers: seq<(nat, Answer)>, waiter: nat): set<nat> {
    set i | 0 <= i < |answers| && answers[i].0 == waiter && answers[i].1.Granted? :: answers[i].1.stream
  }

  /** A cancelled call finds on its channel what it was answered before it left the list. */
  function Watched(t: Track, section: Section, h: Watch): Watch
    requires Enabled(t, section)
  {
    match section
    case Cancel(w) =>
      if w < t.next then Watch(h.cancelled + {w}, h.owed + StreamsOf(t.answers, w)) else h
    case RemoveStream(s) => h.(owed := h.owed - {s})
    case _ => h
  }

  /** What was granted to a cancelled call is closed, or about to be. */
  ghost predicate Accounted(t: Track, h: Watch, i: nat)
    requires i < |t.answers|
  {
    var (w, answer) := t.answers[i];
    answer.Granted? ==>
      answer.stream < t.next && (w in h.cancelled && answer.stream in t.streams ==> answer.stream in h.owed)
  }

  ghost predicate AllAccounted(t: Track, h: Watch) {
    && (forall w :: w in h.cancelled ==> w !in t.waiters && w < t.next)
    && forall i :: 0 <= i < |t.answers| ==> Accounted(t, h, i)
  }

  lemma {:induction false} GrantAllStreams(t: Track, ws: seq<nat>)
    ensures var r := GrantAll(t, ws);
      r.next == t.next + |ws| && forall s :: s in r.streams ==> s in t.streams || s >= t.next
    decreases ws
  {
    if ws == [] {
    } else {
      GrantAllStreams(AddStream(t).(answers := t.answers + [(ws[0], Granted(t.next))]), ws[1..]);
    }
  }

  lemma {:induction false} RemovedIsGone(ws: seq<nat>, w: nat)
    requires Distinct(ws)
    ensures w !in RemoveWaiter(ws, w)
    ensures forall x :: x in RemoveWaiter(ws, w) ==> x in ws
    decreases ws
  {
    if ws == [] {
    } else if ws[0] == w {
      assert forall i :: 0 < i < |ws| ==> ws[i] != ws[0];
    } else {
      RemovedIsGone(ws[1..], w);
    }
  }

  lemma WaitersDistinct(t: Track)
    requires ChannelsSafe(t)
    ensures Distinct(t.waiters) && forall w :: w in t.waiters ==> w < t.next
  {
    var all := Answered(t.answers) + t.waiters;
    assert forall i :: 0 <= i < |t.waiters| ==> t.waiters[i] == all[|t.answers| + i];
  }

  lemma CancelAccounts(t: Track, w: nat, h: Watch)
    requires Inv(t) && AllAccounted(t, h) && Enabled(t, Cancel(w))
    ensures AllAccounted(Cancelled(t, w), Watched(t, Cancel(w), h))
  {
    var r, k := Cancelled(t, w), Watched(t, Cancel(w), h);
    WaitersDistinct(t);
    RemovedIsGone(t.waiters, w);
    forall i | 0 <= i < |r.answers| ensures Accounted(r, k, i) {
      assert Accounted(t, h, i);
      assert t.answers[i].1.Granted? && t.answers[i].0 == w ==> t.answers[i].1.stream in StreamsOf(t.answers, w);
    }
  }

  /** Sections that answer nobody with a stream, and open none but with a fresh number. */
  lemma QuietAccounts(t: Track, r: Track, h: Watch, k: Watch)
    requires AllAccounted(t, h) && k.cancelled == h.cancelled && t.next <= r.next
    requires forall w :: w in r.waiters ==> w in t.waiters || w >= t.next
    requires forall i :: 0 <= i < |r.answers| ==>
      (i < |t.answers| && r.answers[i] == t.answers[i]) || r.answers[i].1.Refused?
    requires forall s :: s in r.streams ==> s in t.streams || s >= t.next
    requires forall s :: s in h.owed && s in r.streams ==> s in k.owed
    ensures AllAccounted(r, k)
  {
    forall i | 0 <= i < |r.answers| ensures Accounted(r, k, i) {
      assert i < |t.answers| ==> Accounted(t, h, i);
    }
  }

  /** The waiters' answers follow the earlier ones, in turn, each with the next number. */
  lemma {:induction false} GrantAllAnswers(t: Track, ws: seq<nat>)
    ensures var r := GrantAll(t, ws);
      && |r.answers| == |t.answers| + |ws| && t.answers <= r.answers
      && forall k :: 0 <= k < |ws| ==> r.answers[|t.answers| + k] == (ws[k], Granted(t.next + k))
    decreases ws
  {
    if ws == [] {
    } else {
      var one := AddStream(t).(answers := t.answers + [(ws[0], Granted(t.next))]);
      GrantAllAnswers(one, ws[1..]);
      var r := GrantAll(t, ws);
      forall k | 0 <= k < |ws| ensures r.answers[|t.answers| + k] == (ws[k], Granted(t.next + k)) {
        if k > 0 {
          assert r.answers[|one.answers| + (k - 1)] == (ws[1..][k - 1], Granted(one.next + (k - 1)));
        } else {
          assert r.answers[|t.answers|] == one.answers[|t.answers|];
        }
      }
    }
  }

  lemma ActivateAccounts(t: Track, handle: u16, h: Watch)
    requires Inv(t) && AllAccounted(t, h) && t.subscription == Pending
    ensures AllAccounted(Activated(t, handle), h)
  {
    var open := Opened(t, handle);
    var r := Activated(t, handle);
    GrantAllAnswers(open, t.waiters);
    GrantAllStreams(open, t.waiters);
    forall i | 0 <= i < |r.answers| ensures Accounted(r, h, i) {
      if i < |t.answers| {
        assert Accounted(t, h, i) && r.answers[i] == t.answers[i];
      } else {
        assert r.answers[|t.answers| + (i - |t.answers|)].0 == t.waiters[i - |t.answers|];
      }
    }
  }

  lemma SectionAccounts(t: Track, section: Section, h: Watch)
    requires Inv(t) && AllAccounted(t, h) && Enabled(t, section)
    ensures AllAccounted(Run(t, section), Watched(t, section, h))
  {
    match section
    case Cancel(w) => CancelAccounts(t, w, h);
    case Activate(handle) =>
      if t.subscription == Pending {
        ActivateAccounts(t, handle, h);
      } else {
        QuietAccounts(t, Run(t, section), h, h);
      }
    case _ => QuietAccounts(t, Run(t, section), h, Watched(t, section, h));
  }

  // ---- Over runs ----

  ghost function WatchedOver(t: Track, sections: seq<Section>, h: Watch): Watch
    requires Runs(t, sections)
    decreases sections
  {
    if sections == [] then h else WatchedOver(Run(t, sections[0]), sections[1..], Watched(t, sections[0], h))
  }

  lemma {:induction false} RunsAccount(t: Track, sections: seq<Section>, h: Watch)
    requires Inv(t) && AllAccounted(t, h) && Runs(t, sections)
    ensures AllAccounted(After(t, sections), WatchedOver(t, sections, h))
    decreases sections
  {
    if sections == [] {
    } else {
      SectionAccounts(t, sections[0], h);
      RunKeepsInv(t, sections[0]);
      RunsAccount(Run(t, sections[0]), sections[1..], Watched(t, sections[0], h));
    }
  }

  /**
   * Over every interleaving: a stream granted to a call that was cancelled, the answer having been
   * first, is closed, or that call is about to close it; once none is, no such stream is open.
   */
  lemma CancelledStreamsClose(begun: Track, sections: seq<Section>, i: nat)
    requires begun == NewTrack(begun.sid, begun.usesE2EE) && Runs(begun, sections)
    requires i < |After(begun, sections).answers| && After(begun, sections).answers[i].1.Granted?
    requires After(begun, sections).answers[i].0 in WatchedOver(begun, sections, NOTHING).cancelled
    ensures var t, h := After(begun, sections), WatchedOver(begun, sections, NOTHING);
      var stream := t.answers[i].1.stream;
      (stream in t.streams ==> stream in h.owed) && (h.owed == {} ==> stream !in t.streams)
  {
    NewTrackInv(begun.sid, begun.usesE2EE);
    RunsAccount(begun, sections, NOTHING);
    assert Accounted(After(begun, sections), WatchedOver(begun, sections, NOTHING), i);
  }
}
