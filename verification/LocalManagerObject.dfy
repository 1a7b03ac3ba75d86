/** The local manager and its tracks as objects, updated in place by the sections. */
module LocalManagerObject {
  import opened Machine
  import Spec = LocalPublishing

  class LocalTrack {
    var state: Spec.TrackState
    var sid: string
    ghost var closes: nat

    ghost function View(): Spec.Track
      reads this
    {
      Spec.Track(state, sid, closes)
    }

    constructor (sid: string)
      ensures View() == Spec.Track(Spec.Published, sid, 0)
    {
      state, this.sid, closes := Spec.Published, sid, 0;
    }

    method MarkUnpublished()
      modifies this
      ensures View() == Spec.Marked(old(View()))
    {
      if state == Spec.Unpublished {
        return;
      }
      state := Spec.Unpublished;
      closes := closes + 1;
    }

    method BeginRepublish()
      modifies this`state
      ensures View() == old(View()).(state := Spec.Republishing)
    {
      state := Spec.Republishing;
    }

    method CompleteRepublish(sid: string) returns (ok: bool)
      modifies this
      ensures View() == Spec.Completed(old(View()), sid) && ok == (old(state) == Spec.Republishing)
    {
      if state != Spec.Republishing {
        return false;
      }
      state, this.sid := Spec.Published, sid;
      return true;
    }
  }

  ghost predicate Separate(tracks: map<u16, LocalTrack>) {
    forall a, b :: a in tracks && b in tracks && a != b ==> tracks[a] != tracks[b]
  }

  ghost function Views(tracks: map<u16, LocalTrack>): map<u16, Spec.Track>
    reads tracks.Values
  {
    map h | h in tracks :: tracks[h].View()
  }

  function AllRepublishing(tracks: map<u16, Spec.Track>, active: set<u16>): map<u16, Spec.Track> {
    map h | h in tracks :: if h in active then tracks[h].(state := Spec.Republishing) else tracks[h]
  }

  lemma AnswerOneOfAll(w: Spec.World, h: u16, result: Spec.Result)
    requires h in w.pending
    ensures Spec.AnswerAll(Spec.Answer(w, h, result), result) == Spec.AnswerAll(w, result)
  {
  }

  lemma AnswerNone(w: Spec.World, result: Spec.Result)
    requires w.pending == {}
    ensures Spec.AnswerAll(w, result) == w
  {
  }

  class Manager {
    var given: u16
    var pending: set<u16>
    var active: set<u16>
    var results: map<u16, seq<Spec.Result>>
    var tracks: map<u16, LocalTrack>
    ghost var calls: map<u16, Spec.Phase>
    ghost var marking: multiset<u16>
    ghost var completing: multiset<(u16, string)>
    ghost var owed: multiset<u16>

    ghost predicate Valid()
      reads this
    {
      Separate(tracks) && active <= tracks.Keys
    }

    ghost function View(): Spec.World
      reads this, tracks.Values
    {
      Spec.World(given, pending, active, calls, results, Views(tracks), marking, completing, owed)
    }

    constructor ()
      ensures Valid() && View() == Spec.START
    {
      given, pending, active, results, tracks := 0, {}, {}, map[], map[];
      calls, marking, completing, owed := map[], multiset{}, multiset{}, multiset{};
    }

    /** A Publish call takes the next handle, unless they have run out. */
    method Get() returns (handle: Option<u16>)
      requires Valid()
      modifies this
      ensures Valid() && tracks == old(tracks)
      ensures handle == if old(given) == 0xFFFF then None else Some(old(given) + 1)
      ensures View() == if old(given) == 0xFFFF then old(View()) else Spec.Next(old(View()), Spec.Get)
    {
      if given == 0xFFFF {
        return None;
      }
      given := given + 1;
      pending := pending + {given};
      calls := calls[given := Spec.Sending];
      return Some(given);
    }

    method Answer(h: u16, result: Spec.Result)
      requires Valid()
      modifies this`pending, this`results
      ensures Valid() && View() == Spec.Answer(old(View()), h, result)
    {
      pending := pending - {h};
      results := results[h := (if h in results then results[h] else []) + [result]];
    }

    method Drop(h: u16) returns (wasActive: bool)
      requires Valid()
      modifies this`active, this`marking
      ensures Valid() && View() == Spec.Drop(old(View()), h) && wasActive == (h in old(active))
    {
      wasActive := h in active;
      if wasActive {
        active := active - {h};
        marking := marking + multiset{h};
      }
    }

    /** The section of a Publish call whose request could not be sent. */
    method FailSend(h: u16)
      requires Valid() && Spec.Enabled(View(), Spec.SendReturns(h, false))
      modifies this`pending, this`calls
      ensures Valid() && View() == Spec.Next(old(View()), Spec.SendReturns(h, false))
    {
      pending := pending - {h};
      calls := calls[h := Spec.Done(Spec.SendError)];
    }

    /** The section of a Publish call whose context ended; whether its answer is still to come. */
    method Leave(h: u16) returns (stillPending: bool)
      requires Valid() && Spec.Enabled(View(), Spec.Cancel(h))
      modifies this`pending, this`calls
      ensures Valid() && View() == Spec.Next(old(View()), Spec.Cancel(h)) && stillPending == (h in old(pending))
    {
      stillPending := h in pending;
      pending := pending - {h};
      calls := calls[h := if stillPending then Spec.Done(Spec.Cancelled) else Spec.Lost];
    }

    method Accept(h: u16, sid: string)
      requires Valid() && h !in tracks
      modifies this`tracks, this`active
      ensures Valid() && active == old(active) + {h}
      ensures Views(tracks) == old(Views(tracks))[h := Spec.Track(Spec.Published, sid, 0)]
      ensures forall g :: g in tracks ==> (g in old(tracks) && tracks[g] == old(tracks)[g]) || fresh(tracks[g])
    {
      var track := new LocalTrack(sid);
      tracks := tracks[h := track];
      active := active + {h};
    }

    /** The SFU's answer to a request, under the lock. */
    method Resolve(h: u16, answer: Option<string>)
      requires Valid() && Spec.Safe(View(), h)
      modifies this
      ensures Valid() && View() == Spec.Resolved(old(View()), h, answer)
    {
      if h in pending {
        if answer.Some? {
          Answer(h, Spec.Accepted);
          Accept(h, answer.value);
        } else {
          Answer(h, Spec.Failed(Spec.Rejected));
        }
      } else if h in active {
        if answer.Some? {
          completing := completing + multiset{(h, answer.value)};
        } else {
          var _ := Drop(h);
        }
      } else if answer.Some? {
        owed := owed + multiset{h};
      }
    }

    method HandleUnpublishResponse(h: u16)
      requires Valid()
      modifies this`pending, this`results, this`active, this`marking
      ensures Valid() && View() == Spec.Next(old(View()), Spec.UnpublishResponse(h))
    {
      if h in pending {
        Answer(h, Spec.Failed(Spec.ErrUnpublished));
      }
      var _ := Drop(h);
    }

    /** The section of LocalTrack.Unpublish under the manager's lock. */
    method Unpublish(h: u16)
      requires Valid()
      modifies this`active, this`marking, this`owed
      ensures Valid() && View() == Spec.Unpublishing(old(View()), h)
    {
      var wasActive := Drop(h);
      if wasActive {
        owed := owed + multiset{h};
      }
    }

    method FailPending()
      requires Valid()
      modifies this`pending, this`results
      ensures Valid() && View() == Spec.AnswerAll(old(View()), Spec.Failed(Spec.ErrDisconnected))
    {
      var failed := Spec.Failed(Spec.ErrDisconnected);
      while pending != {}
        invariant Valid()
        invariant Spec.AnswerAll(View(), failed) == Spec.AnswerAll(old(View()), failed)
        decreases |pending|
      {
        var h :| h in pending;
        AnswerOneOfAll(View(), h, failed);
        Answer(h, failed);
      }
      AnswerNone(View(), failed);
    }

    method BeginRepublishAll()
      requires Valid()
      modifies tracks.Values
      ensures Views(tracks) == AllRepublishing(old(Views(tracks)), active)
    {
      var todo := active;
      while todo != {}
        invariant todo <= active
        invariant Views(tracks) == AllRepublishing(old(Views(tracks)), active - todo)
        decreases |todo|
      {
        var h :| h in todo;
        tracks[h].BeginRepublish();
        todo := todo - {h};
      }
      assert active - todo == active;
    }

    /** After a full reconnect: pending calls fail, active tracks wait to be published again. */
    method RepublishTracks()
      requires Valid()
      modifies this`pending, this`results, tracks.Values
      ensures Valid() && View() == Spec.Republished(old(View()))
    {
      FailPending();
      BeginRepublishAll();
    }

    /** The section of Shutdown under the lock. */
    method Shutdown()
      requires Valid()
      modifies this
      ensures Valid() && View() == Spec.ShutDown(old(View()))
    {
      FailPending();
      DropAll();
    }

    method DropAll()
      requires Valid()
      modifies this`active, this`marking
      ensures Valid() && active == {} && marking == old(marking) + multiset(old(active))
    {
      marking := marking + multiset(active);
      active := {};
    }
  }
}
