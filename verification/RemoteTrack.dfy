/**
 * One remote data track: the sections its lock protects, as functions on its state. A section that
 * queues a subscription update takes the send lock before it gives up the track's lock, so it runs
 * only while no update is being sent.
 */
module RemoteTrack {
  import opened Machine

  datatype Subscription = Unsubscribed | Pending | Active

  /** A subscription update for the SFU; first marks the request a Subscribe call waits on. */
  datatype Update = Update(sid: string, subscribe: bool, first: bool)

  datatype Answer = Granted(stream: nat) | Refused(error: SubscribeError)

  datatype SubscribeError = Unpublished | EncryptionDisabled | SendFailed | Disconnected

  /**
   * Waiters, streams and packet channels are numbered from one counter. answers logs what was sent
   * on the waiters' one-place channels, closed the packet channels closed, attempted the updates
   * whose send has returned; sending is the update being sent, failing counts the Subscribe calls
   * whose request could not be sent and which have not acted on it yet.
   */
  datatype Track = Track(
    sid: string, usesE2EE: bool,
    subscription: Subscription, waiters: seq<nat>, bufferSize: int, subHandle: u16,
    packets: Option<nat>, streams: set<nat>, unpublished: bool,
    answers: seq<(nat, Answer)>, closed: seq<nat>,
    sending: Option<Update>, attempted: seq<Update>, failing: nat, lost: bool,
    next: nat)

  function NewTrack(sid: string, usesE2EE: bool): Track {
    Track(sid, usesE2EE, Unsubscribed, [], 0, 0, None, {}, false, [], [], None, [], 0, false, 0)
  }

  // ---- The sections ----

  /** What a Subscribe call has in hand when it gives up the lock for the first time. */
  datatype FirstStep = Rejected(error: SubscribeError) | Joined(stream: nat) | Waiting(waiter: nat)

  function AddStream(t: Track): Track {
    t.(streams := t.streams + {t.next}, next := t.next + 1)
  }

  predicate NeedsSendLock(t: Track, section: Section) {
    match section
    case Subscribe(_, hasDecryptor) => !t.unpublished && (t.usesE2EE ==> hasDecryptor) && t.subscription == Unsubscribed
    case Cancel(w) => t.subscription == Pending && RemoveWaiter(t.waiters, w) == []
    case RemoveStream(s) => t.subscription == Active && s in t.streams && t.streams == {s}
    case Resend => t.subscription != Unsubscribed
    case _ => false
  }

  function Queue(t: Track, subscribe: bool, first: bool): Track {
    t.(sending := Some(Update(t.sid, subscribe, first)))
  }

  function SubscribeOutcome(t: Track, hasDecryptor: bool): FirstStep {
    if t.unpublished then Rejected(Unpublished)
    else if t.usesE2EE && !hasDecryptor then Rejected(EncryptionDisabled)
    else if t.subscription == Active then Joined(t.next)
    else Waiting(t.next)
  }

  /** A buffer size that is not positive counts as one. */
  function AtLeastOne(bufferSize: int): int {
    if bufferSize < 1 then 1 else bufferSize
  }

  function Subscribed(t: Track, bufferSize: int, hasDecryptor: bool): Track {
    match SubscribeOutcome(t, hasDecryptor)
    case Rejected(_) => t
    case Joined(_) => AddStream(t)
    case Waiting(w) =>
      var waiting := t.(waiters := t.waiters + [w], next := t.next + 1);
      if t.subscription == Unsubscribed
      then Queue(waiting.(subscription := Pending, bufferSize := AtLeastOne(bufferSize)), true, true)
      else waiting
  }

  /** The send returned: a first request that failed leaves its Subscribe call to fail the subscription. */
  function SendReturned(t: Track, ok: bool): Track
    requires t.sending.Some?
  {
    t.(sending := None, attempted := t.attempted + [t.sending.value], lost := t.lost || !ok,
       failing := if !ok && t.sending.value.first then t.failing + 1 else t.failing)
  }

  function AnswerAll(waiters: seq<nat>, error: SubscribeError): (r: seq<(nat, Answer)>)
    ensures |r| == |waiters| && forall i :: 0 <= i < |r| ==> r[i] == (waiters[i], Refused(error))
  {
    seq(|waiters|, i requires 0 <= i < |waiters| => (waiters[i], Refused(error)))
  }

  function FailPending(t: Track): Track
    requires t.failing > 0
  {
    var acted := t.(failing := t.failing - 1);
    if t.subscription == Pending
    then acted.(subscription := Unsubscribed, answers := t.answers + AnswerAll(t.waiters, SendFailed), waiters := [])
    else acted
  }

  function RemoveWaiter(waiters: seq<nat>, w: nat): seq<nat> {
    if waiters == [] then []
    else if waiters[0] == w then waiters[1..]
    else [waiters[0]] + RemoveWaiter(waiters[1..], w)
  }

  function Cancelled(t: Track, w: nat): Track {
    var removed := t.(waiters := RemoveWaiter(t.waiters, w));
    if t.subscription == Pending && removed.waiters == []
    then Queue(removed.(subscription := Unsubscribed), false, false)
    else removed
  }

  function Deactivate(t: Track): Track {
    if t.packets.Some? then t.(closed := t.closed + [t.packets.value], packets := None) else t
  }

  function StreamRemoved(t: Track, s: nat): Track {
    var removed := t.(streams := t.streams - {s});
    if s in t.streams && removed.streams == {} && t.subscription == Active
    then Queue(Deactivate(removed.(subscription := Unsubscribed)), false, false)
    else removed
  }

  /** The handle of the subscription that leaving ends. */
  function Released(t: Track, s: nat): Option<u16> {
    if t.subscription == Active && t.streams == {s} then Some(t.subHandle) else None
  }

  function Resent(t: Track): Track {
    if t.subscription != Unsubscribed then Queue(t, true, false) else t
  }

  /** Granting a stream to each waiter in turn. */
  function GrantAll(t: Track, waiters: seq<nat>): Track
    decreases waiters
  {
    if waiters == [] then t
    else
      GrantAll(AddStream(t).(answers := t.answers + [(waiters[0], Granted(t.next))]), waiters[1..])
  }

  function Opened(t: Track, handle: u16): Track {
    t.(packets := Some(t.next), next := t.next + 1, subHandle := handle, subscription := Active)
  }

  /** The SFU's answer: a pending subscription opens, an active one moves to the new handle. */
  function Activated(t: Track, handle: u16): Track {
    match t.subscription
    case Unsubscribed => t
    case Active => t.(subHandle := handle)
    case Pending => GrantAll(Opened(t, handle), t.waiters).(waiters := [])
  }

  function Ended(t: Track, error: SubscribeError): Track {
    Deactivate(Left(t, error))
  }

  function Left(t: Track, error: SubscribeError): Track {
    t.(unpublished := true, answers := t.answers + AnswerAll(t.waiters, error), waiters := [],
       streams := {}, subscription := Unsubscribed)
  }

  datatype Section =
    | Subscribe(bufferSize: int, hasDecryptor: bool)
    | SendReturns(ok: bool)
    | FailRequest
    | Cancel(waiter: nat)
    | RemoveStream(stream: nat)
    | Resend
    | Reassign(sid: string)
    | Activate(handle: u16)
    | End(error: SubscribeError)

  predicate Enabled(t: Track, section: Section) {
    && (NeedsSendLock(t, section) ==> t.sending.None?)
    && (section.SendReturns? ==> t.sending.Some?)
    && (section.FailRequest? ==> t.failing > 0)
  }

  function Run(t: Track, section: Section): Track
    requires Enabled(t, section)
  {
    match section
    case Subscribe(bufferSize, hasDecryptor) => Subscribed(t, bufferSize, hasDecryptor)
    case SendReturns(ok) => SendReturned(t, ok)
    case FailRequest => FailPending(t)
    case Cancel(w) => Cancelled(t, w)
    case RemoveStream(s) => StreamRemoved(t, s)
    case Resend => Resent(t)
    case Reassign(sid) => t.(sid := sid)
    case Activate(handle) => Activated(t, handle)
    case End(error) => Ended(t, error)
  }

  // ---- The invariant ----

  ghost predicate Distinct(xs: seq<nat>) {
    forall i, j :: 0 <= i < j < |xs| ==> xs[i] != xs[j]
  }

  ghost predicate Below(xs: seq<nat>, n: nat) {
    forall i :: 0 <= i < |xs| ==> xs[i] < n
  }

  function Answered(answers: seq<(nat, Answer)>): (r: seq<nat>)
    ensures |r| == |answers| && forall i :: 0 <= i < |r| ==> r[i] == answers[i].0
  {
    seq(|answers|, i requires 0 <= i < |answers| => answers[i].0)
  }

  /** Pending exactly while someone waits, active exactly while someone listens and the channel is open. */
  ghost predicate StatesAgree(t: Track) {
    && (t.subscription == Pending <==> t.waiters != [])
    && (t.subscription == Active <==> t.streams != {})
    && (t.subscription == Active <==> t.packets.Some?)
    && (t.unpublished ==> t.subscription == Unsubscribed)
  }

  /** Each waiter is answered at most once and not before it leaves the list; no channel closes twice. */
  ghost predicate ChannelsSafe(t: Track) {
    && Distinct(Answered(t.answers) + t.waiters) && Below(Answered(t.answers) + t.waiters, t.next)
    && Distinct(t.closed + Channels(t.packets)) && Below(t.closed + Channels(t.packets), t.next)
  }

  function Channels(packets: Option<nat>): seq<nat> {
    if packets.Some? then [packets.value] else []
  }

  /** All updates so far, in the order the subscription changed; the wire carries all but the last. */
  function Changes(t: Track): seq<Update> {
    t.attempted + if t.sending.Some? then [t.sending.value] else []
  }

  predicate LastSubscribes(updates: seq<Update>) {
    updates != [] && updates[|updates| - 1].subscribe
  }

  /** While no send failed, the last update says whether a published track is subscribed. */
  ghost predicate WireAgrees(t: Track) {
    && (t.failing > 0 ==> t.lost)
    && (!t.lost && !t.unpublished ==> (LastSubscribes(Changes(t)) <==> t.subscription != Unsubscribed))
  }

  ghost predicate Inv(t: Track) {
    StatesAgree(t) && ChannelsSafe(t) && WireAgrees(t)
  }

  lemma NewTrackInv(sid: string, usesE2EE: bool)
    ensures Inv(NewTrack(sid, usesE2EE))
  {
  }

  lemma {:induction false} RemoveWaiterDistinct(xs: seq<nat>, ws: seq<nat>, w: nat)
    requires Distinct(xs + ws)
    ensures Distinct(xs + RemoveWaiter(ws, w))
    ensures forall x :: x in RemoveWaiter(ws, w) ==> x in ws
    decreases ws
  {
    if ws == [] {
    } else {
      if ws[0] == w {
        assert forall i :: 0 <= i < |xs + ws[1..]| ==> (xs + ws[1..])[i] == (xs + ws)[if i < |xs| then i else i + 1];
      } else {
        assert (xs + [ws[0]]) + ws[1..] == xs + ws;
        RemoveWaiterDistinct(xs + [ws[0]], ws[1..], w);
        assert xs + RemoveWaiter(ws, w) == (xs + [ws[0]]) + RemoveWaiter(ws[1..], w);
      }
    }
  }

  lemma BelowPart(xs: seq<nat>, ys: seq<nat>, n: nat)
    requires Below(ys, n) && forall x :: x in xs ==> x in ys
    ensures Below(xs, n)
  {
    assert forall i :: 0 <= i < |xs| ==> xs[i] in ys;
  }

  /** Granting streams to all waiters answers each once and uses fresh numbers for the streams. */
  lemma {:induction false} GrantAllSafe(t: Track, ws: seq<nat>)
    requires Distinct(Answered(t.answers) + ws) && Below(Answered(t.answers) + ws, t.next)
    requires Distinct(t.closed + Channels(t.packets)) && Below(t.closed + Channels(t.packets), t.next)
    ensures var r := GrantAll(t, ws);
      && r.next == t.next + |ws|
      && r == t.(streams := r.streams, next := r.next, answers := r.answers)
      && (r.streams == {} <==> t.streams == {} && ws == [])
      && Distinct(Answered(r.answers)) && Below(Answered(r.answers), r.next)
      && Answered(r.answers) == Answered(t.answers) + ws
    decreases ws
  {
    if ws == [] {
      assert Answered(t.answers) + [] == Answered(t.answers);
    } else {
      var one := AddStream(t).(answers := t.answers + [(ws[0], Granted(t.next))]);
      assert Answered(one.answers) == Answered(t.answers) + [ws[0]];
      assert Answered(one.answers) + ws[1..] == Answered(t.answers) + ws;
      GrantAllSafe(one, ws[1..]);
    }
  }

  /** Answer i of the log grants the waiter a stream that is open. */
  predicate GrantedTo(t: Track, i: nat, waiter: nat, stream: nat) {
    i < |t.answers| && t.answers[i] == (waiter, Granted(stream)) && stream in t.streams
  }

  /** Each waiter is granted a stream of its own, and all of them are open. */
  lemma {:induction false} GrantAllGrants(t: Track, ws: seq<nat>)
    ensures var r := GrantAll(t, ws);
      t.streams <= r.streams && forall k :: 0 <= k < |ws| ==> GrantedTo(r, |t.answers| + k, ws[k], t.next + k)
    decreases ws
  {
    if ws == [] {
    } else {
      var one := AddStream(t).(answers := t.answers + [(ws[0], Granted(t.next))]);
      GrantAllGrants(one, ws[1..]);
      GrantAllGrows(one, ws[1..]);
      var r := GrantAll(t, ws);
      assert GrantedTo(r, |t.answers|, ws[0], t.next);
      forall k | 0 < k < |ws| ensures GrantedTo(r, |t.answers| + k, ws[k], t.next + k) {
        assert GrantedTo(r, |one.answers| + (k - 1), ws[1..][k - 1], one.next + (k - 1));
      }
    }
  }

  lemma SubscribeKeepsInv(t: Track, bufferSize: int, hasDecryptor: bool)
    requires Inv(t) && Enabled(t, Subscribe(bufferSize, hasDecryptor))
    ensures Inv(Subscribed(t, bufferSize, hasDecryptor))
  {
    if SubscribeOutcome(t, hasDecryptor).Waiting? {
      WaitingKeepsChannels(t);
    }
  }

  lemma WaitingKeepsChannels(t: Track)
    requires ChannelsSafe(t)
    ensures ChannelsSafe(t.(waiters := t.waiters + [t.next], next := t.next + 1))
  {
    var xs := Answered(t.answers) + t.waiters;
    assert Answered(t.answers) + (t.waiters + [t.next]) == xs + [t.next];
  }

  lemma CancelKeepsInv(t: Track, w: nat)
    requires Inv(t) && Enabled(t, Cancel(w))
    ensures Inv(Cancelled(t, w))
  {
    var xs := Answered(t.answers);
    RemoveWaiterDistinct(xs, t.waiters, w);
    var ws := RemoveWaiter(t.waiters, w);
    assert forall x :: x in xs + ws ==> x in xs + t.waiters;
    BelowPart(xs + ws, xs + t.waiters, t.next);
  }

  lemma FailKeepsInv(t: Track)
    requires Inv(t) && t.failing > 0
    ensures Inv(FailPending(t))
  {
    var r := FailPending(t);
    assert Answered(r.answers) + r.waiters == Answered(t.answers) + t.waiters;
  }

  lemma DeactivateKeepsChannels(t: Track)
    requires ChannelsSafe(t)
    ensures ChannelsSafe(Deactivate(t))
  {
  }

  lemma RemoveStreamKeepsInv(t: Track, s: nat)
    requires Inv(t) && Enabled(t, RemoveStream(s))
    ensures Inv(StreamRemoved(t, s))
  {
  }

  lemma ActivateKeepsInv(t: Track, handle: u16)
    requires Inv(t)
    ensures Inv(Activated(t, handle))
  {
    if t.subscription == Pending {
      var open := Opened(t, handle);
      assert open.closed + Channels(open.packets) == (t.closed + Channels(t.packets)) + [t.next];
      GrantAllSafe(open, t.waiters);
      var r := Activated(t, handle);
      assert Answered(r.answers) + r.waiters == Answered(r.answers);
    }
  }

  lemma EndKeepsInv(t: Track, error: SubscribeError)
    requires Inv(t)
    ensures Inv(Ended(t, error))
  {
    DeactivateKeepsChannels(t);
    var r := Ended(t, error);
    assert Answered(r.answers) + r.waiters == Answered(t.answers) + t.waiters;
  }

  lemma SendReturnedKeepsInv(t: Track, ok: bool)
    requires Inv(t) && t.sending.Some?
    ensures Inv(SendReturned(t, ok)) && Changes(SendReturned(t, ok)) == Changes(t)
  {
  }

  /** Every section of every interleaving keeps the invariant. */
  lemma RunKeepsInv(t: Track, section: Section)
    requires Inv(t) && Enabled(t, section)
    ensures Inv(Run(t, section))
  {
    match section
    case Subscribe(bufferSize, hasDecryptor) => SubscribeKeepsInv(t, bufferSize, hasDecryptor);
    case SendReturns(ok) => SendReturnedKeepsInv(t, ok);
    case FailRequest => FailKeepsInv(t);
    case Cancel(w) => CancelKeepsInv(t, w);
    case RemoveStream(s) => RemoveStreamKeepsInv(t, s);
    case Resend =>
    case Reassign(sid) =>
    case Activate(handle) => ActivateKeepsInv(t, handle);
    case End(error) => EndKeepsInv(t, error);
  }

  // ---- What runs promise ----

  ghost predicate Runs(t: Track, sections: seq<Section>)
    decreases sections
  {
    sections == [] || (Enabled(t, sections[0]) && Runs(Run(t, sections[0]), sections[1..]))
  }

  function After(t: Track, sections: seq<Section>): Track
    requires Runs(t, sections)
    decreases sections
  {
    if sections == [] then t else After(Run(t, sections[0]), sections[1..])
  }

  /** How a section shows on the updates queued: at most one more, in the order of the changes. */
  lemma ChangesGrow(t: Track, section: Section)
    requires Enabled(t, section)
    ensures Changes(t) <= Changes(Run(t, section))
    ensures Changes(Run(t, section)) == Changes(t) + Change(t, section)
  {
    match section
    case SendReturns(_) => assert Changes(Run(t, section)) == Changes(t);
    case Activate(handle) =>
      if t.subscription == Pending {
        GrantAllGrows(Opened(t, handle), t.waiters);
      }
    case Subscribe(_, _) => SubscribeChanges(t, section);
    case _ =>
  }

  lemma SubscribeChanges(t: Track, section: Section)
    requires Enabled(t, section) && section.Subscribe?
    ensures Changes(Run(t, section)) == Changes(t) + Change(t, section)
  {
  }

  /** The update a section adds, telling the subscription it leaves. */
  function Change(t: Track, section: Section): seq<Update>
    requires Enabled(t, section)
  {
    if NeedsSendLock(t, section)
    then [Update(t.sid, Run(t, section).subscription != Unsubscribed, section.Subscribe?)] else []
  }

  /**
   * Over any interleaving: the invariant holds, an unpublished track stays so, and the updates
   * queued earlier stay first, so they reach the wire in the order the subscription changed.
   */
  lemma {:induction false} RunsKeepInv(t: Track, sections: seq<Section>)
    requires Inv(t) && Runs(t, sections)
    ensures Inv(After(t, sections))
    ensures t.unpublished ==> After(t, sections).unpublished
    ensures t.answers <= After(t, sections).answers && t.closed <= After(t, sections).closed
    ensures t.attempted <= After(t, sections).attempted
    ensures Changes(t) <= Changes(After(t, sections))
    decreases sections
  {
    if sections == [] {
    } else {
      var r := Run(t, sections[0]);
      RunKeepsInv(t, sections[0]);
      RunGrows(t, sections[0]);
      ChangesGrow(t, sections[0]);
      RunsKeepInv(r, sections[1..]);
    }
  }

  lemma RunGrows(t: Track, section: Section)
    requires Inv(t) && Enabled(t, section)
    ensures var r := Run(t, section);
      t.answers <= r.answers && t.closed <= r.closed && t.attempted <= r.attempted && (t.unpublished ==> r.unpublished)
  {
    if section.Activate? && t.subscription == Pending {
      GrantAllGrows(Opened(t, section.handle), t.waiters);
    }
  }

  lemma {:induction false} GrantAllGrows(t: Track, ws: seq<nat>)
    ensures var r := GrantAll(t, ws);
      t.answers <= r.answers && r == t.(streams := r.streams, next := r.next, answers := r.answers)
    decreases ws
  {
    if ws == [] {
    } else {
      GrantAllGrows(AddStream(t).(answers := t.answers + [(ws[0], Granted(t.next))]), ws[1..]);
    }
  }

  /** At rest, if no send failed, the wire ends with what the track's subscription is. */
  lemma WireTellsSubscription(sid: string, usesE2EE: bool, sections: seq<Section>)
    requires Runs(NewTrack(sid, usesE2EE), sections)
    ensures var t := After(NewTrack(sid, usesE2EE), sections);
      t.sending.None? && !t.lost && !t.unpublished ==>
        (LastSubscribes(t.attempted) <==> t.subscription != Unsubscribed)
  {
    NewTrackInv(sid, usesE2EE);
    RunsKeepInv(NewTrack(sid, usesE2EE), sections);
    var t := After(NewTrack(sid, usesE2EE), sections);
    assert t.sending.None? ==> Changes(t) == t.attempted;
  }

  /** A packet is passed on only to the open channel of the active subscription on its handle, unless it is full. */
  function DeliverTo(t: Track, handle: u16, full: bool): Option<nat> {
    if t.subscription != Active || t.subHandle != handle || full then None else t.packets
  }

  lemma DeliveryIsOpen(t: Track, handle: u16, full: bool)
    requires Inv(t)
    ensures DeliverTo(t, handle, full).Some? <==> t.subscription == Active && t.subHandle == handle && !full
    ensures DeliverTo(t, handle, full).Some? ==> DeliverTo(t, handle, full).value !in t.closed
  {
    var all := t.closed + Channels(t.packets);
    assert t.packets.Some? ==> all[|t.closed|] == t.packets.value;
    assert forall i :: 0 <= i < |t.closed| ==> all[i] == t.closed[i];
  }
}
