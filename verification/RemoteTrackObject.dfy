/** The remote track as an object its sections update in place. */
module RemoteTrackObject {
  import opened Machine
  import Spec = RemoteTrack

  class Track {
    const usesE2EE: bool
    var sid: string
    var unpublished: bool
    var subscription: Spec.Subscription
    var waiters: seq<nat>
    var bufferSize: int
    var subHandle: u16
    var packets: Option<nat>
    var streams: set<nat>
    var sending: Option<Spec.Update>
    var next: nat
    ghost var answers: seq<(nat, Spec.Answer)>
    ghost var closed: seq<nat>
    ghost var attempted: seq<Spec.Update>
    ghost var failing: nat
    ghost var lost: bool

    ghost function View(): Spec.Track
      reads this
    {
      Spec.Track(sid, usesE2EE, subscription, waiters, bufferSize, subHandle, packets, streams, unpublished,
                 answers, closed, sending, attempted, failing, lost, next)
    }

    constructor (sid: string, usesE2EE: bool)
      ensures View() == Spec.NewTrack(sid, usesE2EE)
    {
      this.sid, this.usesE2EE, unpublished, subscription := sid, usesE2EE, false, Spec.Unsubscribed;
      waiters, bufferSize, subHandle, packets, streams := [], 0, 0, None, {};
      sending, next, answers, closed, attempted, failing, lost := None, 0, [], [], [], 0, false;
    }

    // ---- Steps inside a section ----

    method AddStream() returns (stream: nat)
      modifies this
      ensures View() == Spec.AddStream(old(View())) && stream == old(next)
    {
      stream := next;
      streams, next := streams + {stream}, next + 1;
    }

    method RefuseWaiters(error: Spec.SubscribeError)
      modifies this`waiters, this`answers
      ensures waiters == [] && answers == old(answers) + Spec.AnswerAll(old(waiters), error)
    {
      var i := 0;
      while i < |waiters|
        invariant 0 <= i <= |waiters| && waiters == old(waiters)
        invariant answers == old(answers) + Spec.AnswerAll(old(waiters), error)[..i]
      {
        answers := answers + [(waiters[i], Spec.Refused(error))];
        i := i + 1;
      }
      waiters := [];
    }

    method RemoveWaiter(w: nat)
      modifies this`waiters
      ensures waiters == Spec.RemoveWaiter(old(waiters), w)
    {
      for i := 0 to |waiters|
        invariant waiters == old(waiters)
        invariant Spec.RemoveWaiter(waiters, w) == waiters[..i] + Spec.RemoveWaiter(waiters[i..], w)
      {
        if waiters[i] == w {
          waiters := waiters[..i] + waiters[i + 1..];
          assert old(waiters)[i..][1..] == old(waiters)[i + 1..];
          return;
        }
        assert waiters[i..][1..] == waiters[i + 1..];
      }
    }

    method Deactivate()
      modifies this`packets, this`closed
      ensures View() == Spec.Deactivate(old(View()))
    {
      if packets.Some? {
        closed := closed + [packets.value];
        packets := None;
      }
    }

    method Queue(subscribe: bool, first: bool)
      requires sending.None?
      modifies this`sending
      ensures View() == Spec.Queue(old(View()), subscribe, first)
    {
      sending := Some(Spec.Update(sid, subscribe, first));
    }

    // ---- Sections ----

    /** The first section of a Subscribe call. */
    method Subscribe(bufferSize: int, hasDecryptor: bool) returns (step: Spec.FirstStep)
      requires Spec.Enabled(View(), Spec.Subscribe(bufferSize, hasDecryptor))
      modifies this
      ensures View() == Spec.Subscribed(old(View()), bufferSize, hasDecryptor)
      ensures step == Spec.SubscribeOutcome(old(View()), hasDecryptor)
    {
      var size := bufferSize;
      if size < 1 {
        size := 1;
      }
      if unpublished {
        return Spec.Rejected(Spec.Unpublished);
      }
      if usesE2EE && !hasDecryptor {
        return Spec.Rejected(Spec.EncryptionDisabled);
      }
      if subscription == Spec.Active {
        var stream := AddStream();
        return Spec.Joined(stream);
      }
      var waiter := next;
      waiters, next := waiters + [waiter], next + 1;
      if subscription == Spec.Unsubscribed {
        subscription, this.bufferSize := Spec.Pending, size;
        Queue(true, true);
      }
      return Spec.Waiting(waiter);
    }

    /** The send lock is given up once the update has been sent, or could not be. */
    method SendReturns(ok: bool)
      requires sending.Some?
      modifies this
      ensures View() == Spec.SendReturned(old(View()), ok)
    {
      failing := if !ok && sending.value.first then failing + 1 else failing;
      attempted, lost := attempted + [sending.value], lost || !ok;
      sending := None;
    }

    /** A Subscribe call whose request could not be sent fails the pending subscription. */
    method FailRequest()
      requires failing > 0
      modifies this
      ensures View() == Spec.FailPending(old(View()))
    {
      failing := failing - 1;
      if subscription == Spec.Pending {
        subscription := Spec.Unsubscribed;
        RefuseWaiters(Spec.SendFailed);
      }
    }

    /** A Subscribe call whose context ended leaves; the last to leave withdraws the request. */
    method Cancel(waiter: nat)
      requires Spec.Enabled(View(), Spec.Cancel(waiter))
      modifies this
      ensures View() == Spec.Cancelled(old(View()), waiter)
    {
      RemoveWaiter(waiter);
      if subscription == Spec.Pending && |waiters| == 0 {
        subscription := Spec.Unsubscribed;
        Queue(false, false);
      }
    }

    /** The last stream to leave ends the subscription and names the handle to release. */
    method RemoveStream(stream: nat) returns (released: Option<u16>)
      requires Spec.Enabled(View(), Spec.RemoveStream(stream))
      modifies this
      ensures View() == Spec.StreamRemoved(old(View()), stream)
      ensures released == Spec.Released(old(View()), stream)
    {
      released := None;
      if stream in streams {
        streams := streams - {stream};
        if |streams| == 0 && subscription == Spec.Active {
          subscription := Spec.Unsubscribed;
          Deactivate();
          released := Some(subHandle);
          Queue(false, false);
        }
      }
    }

    method Resend()
      requires Spec.Enabled(View(), Spec.Resend)
      modifies this
      ensures View() == Spec.Resent(old(View()))
    {
      if subscription != Spec.Unsubscribed {
        Queue(true, false);
      }
    }

    /** The SFU assigned a handle: reports the handle it replaces, and whether there was a subscription. */
    method Activate(handle: u16) returns (previous: Option<u16>, ok: bool)
      modifies this
      ensures View() == Spec.Activated(old(View()), handle)
      ensures ok == (old(subscription) != Spec.Unsubscribed)
      ensures previous == if old(subscription) == Spec.Active then Some(old(subHandle)) else None
    {
      match subscription
      case Unsubscribed =>
        return None, false;
      case Active =>
        previous, subHandle := Some(subHandle), handle;
        return previous, true;
      case Pending =>
        packets, next, subHandle, subscription := Some(next), next + 1, handle, Spec.Active;
        assert View() == Spec.Opened(old(View()), handle);
        GrantWaiters();
        return None, true;
    }

    method GrantWaiters()
      modifies this
      ensures View() == Spec.GrantAll(old(View()), old(waiters)).(waiters := [])
    {
      var i := 0;
      while i < |waiters|
        invariant 0 <= i <= |waiters| && waiters == old(waiters)
        invariant Spec.GrantAll(View(), waiters[i..]) == Spec.GrantAll(old(View()), old(waiters))
      {
        ghost var before := View();
        ghost var stream := next;
        answers := answers + [(waiters[i], Spec.Granted(stream))];
        var _ := AddStream();
        assert View() == Spec.AddStream(before).(answers := before.answers + [(waiters[i], Spec.Granted(before.next))]);
        assert waiters[i..][1..] == waiters[i + 1..];
        i := i + 1;
      }
      waiters := [];
    }

    /** The track is gone: waiters are refused, streams and the packet channel closed. */
    method End(error: Spec.SubscribeError) returns (handle: u16, wasActive: bool)
      modifies this
      ensures View() == Spec.Ended(old(View()), error)
      ensures handle == old(subHandle) && wasActive == (old(subscription) == Spec.Active)
    {
      handle, wasActive := subHandle, subscription == Spec.Active;
      Leave(error);
      Deactivate();
    }

    method Leave(error: Spec.SubscribeError)
      modifies this
      ensures View() == Spec.Left(old(View()), error)
    {
      unpublished := true;
      RefuseWaiters(error);
      streams, subscription := {}, Spec.Unsubscribed;
    }

    /** The packet channel a packet on the handle goes to, if any. */
    method Deliver(handle: u16, full: bool) returns (channel: Option<nat>)
      ensures channel == Spec.DeliverTo(View(), handle, full)
    {
      if subscription != Spec.Active || subHandle != handle {
        return None;
      }
      channel := if full then None else packets;
    }
  }
}
