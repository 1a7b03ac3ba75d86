/** Packets find their track: what the routing table keeps over every interleaving. */
module RemoteRouting {
  import opened Machine
  import opened RemoteManager
  import T = RemoteTrack

  /** A track's own sections never open a subscription or move its handle; closing it leaves a release. */
  lemma LocalOnlyEnds(t: T.Track, section: T.Section)
    requires T.Inv(t) && T.Enabled(t, section) && IsLocal(section)
    ensures var r := T.Run(t, section);
      && r.unpublished == t.unpublished && r.sid == t.sid && r.subHandle == t.subHandle
      && (r.subscription == T.Active ==> t.subscription == T.Active)
      && (t.subscription == T.Active && r.subscription != T.Active ==>
        section.RemoveStream? && T.Released(t, section.stream) == Some(t.subHandle))
  {
  }

  /** Some subscriptions ended, each leaving a release; the tables did not change. */
  ghost predicate OnlyEnds(w: World, v: World) {
    && v.descriptors == w.descriptors && v.subHandles == w.subHandles && v.holder == w.holder
    && v.tracks.Keys == w.tracks.Keys
    && (forall id: nat, handle: u16 :: Uses(v, id, handle) ==> Uses(w, id, handle))
    && (forall id: nat, handle: u16 :: Uses(w, id, handle) ==> Uses(v, id, handle) || (id, handle) in v.releasing)
    && w.releasing <= v.releasing
  }

  lemma LocalOnlyEndsWorld(w: World, id: nat, section: T.Section)
    requires TracksSafe(w) && Enabled(w, Local(id, section))
    ensures OnlyEnds(w, Next(w, Local(id, section)))
  {
    LocalOnlyEnds(w.tracks[id], section);
  }

  lemma EndsKeepStrays(w: World, v: World)
    requires NoStrays(w) && OnlyEnds(w, v)
    ensures NoStrays(v)
  {
    forall handle: u16, id: nat | Routes(v, handle, id) ensures Due(v, handle, id) {
      assert Routes(w, handle, id) && Due(w, handle, id);
    }
  }

  lemma EndsKeepRoutes(w: World, v: World)
    requires HandlesDistinct(w) && Routable(w) && OnlyEnds(w, v)
    ensures HandlesDistinct(v) && Routable(v)
  {
  }

  lemma EndsKeepHolder(w: World, v: World)
    requires HolderKnows(w) && OnlyEnds(w, v)
    requires forall id :: id in w.tracks ==> v.tracks[id].subHandle == w.tracks[id].subHandle
    ensures HolderKnows(v)
  {
    if w.holder.Activating? {
      var id, handle := w.holder.id, w.holder.handle;
      if v.tracks[id].subscription == T.Active {
        assert Uses(v, id, v.tracks[id].subHandle);
      }
    }
  }

  lemma LocalKeepsInv(w: World, id: nat, section: T.Section)
    requires Inv(w) && Enabled(w, Local(id, section))
    ensures Inv(Next(w, Local(id, section)))
  {
    var v := Next(w, Local(id, section));
    T.RunKeepsInv(w.tracks[id], section);
    LocalOnlyEnds(w.tracks[id], section);
    LocalOnlyEndsWorld(w, id, section);
    EndsKeepStrays(w, v);
    EndsKeepRoutes(w, v);
    EndsKeepHolder(w, v);
    LocalKeepsDirectory(w, id, section);
  }

  lemma LocalKeepsDirectory(w: World, id: nat, section: T.Section)
    requires Inv(w) && Enabled(w, Local(id, section))
    ensures Directory(Next(w, Local(id, section)))
  {
    LocalOnlyEnds(w.tracks[id], section);
    var v := Next(w, Local(id, section));
    forall b | b in v.tracks && !v.tracks[b].unpublished ensures Lists(v, v.tracks[b].sid, b) {
      assert Lists(w, w.tracks[b].sid, b);
    }
    forall sid | sid in v.descriptors
      ensures Known(v, sid) && v.tracks[v.descriptors[sid]].sid == sid
      ensures !v.holder.ShuttingDown? ==> !v.tracks[v.descriptors[sid]].unpublished
    {
      assert Known(w, sid);
    }
  }

  /** Routing looks only at which track is active on which handle. */
  lemma SameRouting(w: World, v: World)
    requires HandlesDistinct(w) && Routable(w) && NoStrays(w)
    requires v.subHandles == w.subHandles && v.releasing == w.releasing && v.holder == w.holder == Free
    requires forall id: nat, handle: u16 :: Uses(v, id, handle) <==> Uses(w, id, handle)
    ensures HandlesDistinct(v) && Routable(v) && NoStrays(v)
  {
    assert forall handle: u16, id: nat :: Routes(v, handle, id) <==> Routes(w, handle, id);
    forall handle: u16, id: nat | Routes(v, handle, id) ensures Due(v, handle, id) {
      assert Due(w, handle, id);
    }
  }

  lemma PublishKeepsInv(w: World, id: nat, sid: string, usesE2EE: bool)
    requires Inv(w) && Enabled(w, Publish(id, sid, usesE2EE))
    ensures Inv(Next(w, Publish(id, sid, usesE2EE)))
  {
    PublishKeepsTracks(w, id, sid, usesE2EE);
    SameRouting(w, Next(w, Publish(id, sid, usesE2EE)));
    PublishKeepsDirectory(w, id, sid, usesE2EE);
  }

  lemma PublishKeepsTracks(w: World, id: nat, sid: string, usesE2EE: bool)
    requires TracksSafe(w) && Enabled(w, Publish(id, sid, usesE2EE))
    ensures var v := Next(w, Publish(id, sid, usesE2EE));
      && TracksSafe(v) && v.subHandles == w.subHandles && v.releasing == w.releasing && v.holder == w.holder
      && forall b: nat, handle: u16 :: Uses(v, b, handle) <==> Uses(w, b, handle)
  {
    T.NewTrackInv(sid, usesE2EE);
  }

  lemma PublishKeepsDirectory(w: World, id: nat, sid: string, usesE2EE: bool)
    requires Inv(w) && Enabled(w, Publish(id, sid, usesE2EE))
    ensures Directory(Next(w, Publish(id, sid, usesE2EE)))
  {
  }

  lemma ReassignKeepsInv(w: World, sid: string, newSid: string)
    requires Inv(w) && Enabled(w, Reassign(sid, newSid))
    ensures Inv(Next(w, Reassign(sid, newSid)))
  {
    var id, v := w.descriptors[sid], Next(w, Reassign(sid, newSid));
    T.RunKeepsInv(w.tracks[id], T.Reassign(newSid));
    assert forall b: nat, handle: u16 :: Uses(v, b, handle) <==> Uses(w, b, handle);
    SameRouting(w, v);
    ReassignKeepsDirectory(w, sid, newSid);
  }

  lemma ReassignKeepsDirectory(w: World, sid: string, newSid: string)
    requires Inv(w) && Enabled(w, Reassign(sid, newSid))
    ensures Directory(Next(w, Reassign(sid, newSid)))
  {
  }

  /** The directory looks only at which tracks are published under which SID. */
  lemma SameDirectory(w: World, v: World)
    requires Directory(w) && v.descriptors == w.descriptors && v.tracks.Keys == w.tracks.Keys
    requires v.holder.ShuttingDown? == w.holder.ShuttingDown?
    requires forall id :: id in w.tracks ==>
      v.tracks[id].sid == w.tracks[id].sid && v.tracks[id].unpublished == w.tracks[id].unpublished
    ensures Directory(v)
  {
  }

  lemma ActivatedTrack(t: T.Track, handle: u16)
    requires T.Inv(t) && t.subscription != T.Unsubscribed
    ensures var r := T.Activated(t, handle);
      && T.Inv(r) && r.subscription == T.Active && r.subHandle == handle
      && r.sid == t.sid && r.unpublished == t.unpublished
  {
    T.ActivateKeepsInv(t, handle);
    T.GrantAllGrows(T.Opened(t, handle), t.waiters);
  }

  /** Activation moves one track to the handle, and to no other. */
  lemma BeginActivateUses(w: World, sid: string, handle: u16)
    requires TracksSafe(w) && Enabled(w, BeginActivate(sid, handle))
    requires w.tracks[w.descriptors[sid]].subscription != T.Unsubscribed
    ensures var v, id := Next(w, BeginActivate(sid, handle)), w.descriptors[sid];
      && (forall b: nat, h: u16 :: b != id ==> (Uses(v, b, h) <==> Uses(w, b, h)))
      && (forall h: u16 :: Uses(v, id, h) <==> h == handle)
      && (forall h: u16 :: Uses(w, id, h) <==> v.holder.previous == Some(h))
  {
    ActivatedTrack(w.tracks[w.descriptors[sid]], handle);
  }

  lemma BeginActivateKeepsInv(w: World, sid: string, handle: u16)
    requires Inv(w) && Enabled(w, BeginActivate(sid, handle)) && Assignable(w, BeginActivate(sid, handle))
    ensures Inv(Next(w, BeginActivate(sid, handle)))
  {
    var id := w.descriptors[sid];
    var t := w.tracks[id];
    if t.subscription != T.Unsubscribed {
      var v := Next(w, BeginActivate(sid, handle));
      BeginActivateKeepsTracks(w, sid, handle);
      BeginActivateUses(w, sid, handle);
      BeginActivateKeepsStrays(w, v, id);
      BeginActivateKeepsRoutes(w, v, id);
    }
  }

  lemma BeginActivateKeepsTracks(w: World, sid: string, handle: u16)
    requires TracksSafe(w) && Directory(w) && Enabled(w, BeginActivate(sid, handle))
    requires w.tracks[w.descriptors[sid]].subscription != T.Unsubscribed
    ensures TracksSafe(Next(w, BeginActivate(sid, handle))) && Directory(Next(w, BeginActivate(sid, handle)))
  {
    ActivatedTrack(w.tracks[w.descriptors[sid]], handle);
    SameDirectory(w, Next(w, BeginActivate(sid, handle)));
  }

  lemma BeginActivateKeepsRoutes(w: World, v: World, id: nat)
    requires HandlesDistinct(w) && Routable(w) && w.holder.Free?
    requires v.holder.Activating? && v.holder.id == id && v.subHandles == w.subHandles
    requires forall b: nat, h: u16 :: b != id ==> (Uses(v, b, h) <==> Uses(w, b, h))
    requires forall h: u16 :: Uses(v, id, h) <==> h == v.holder.handle
    requires forall b: nat :: Uses(w, b, v.holder.handle) ==> b == id
    requires v.holder.previous.Some? ==> Uses(w, id, v.holder.previous.value)
    ensures HandlesDistinct(v) && Routable(v) && HolderKnows(v)
  {
    assert Uses(v, id, v.holder.handle);
    assert forall h: u16, b: nat :: Routes(w, h, b) ==> Routes(v, h, b);
  }

  lemma BeginActivateKeepsStrays(w: World, v: World, id: nat)
    requires NoStrays(w) && w.holder.Free? && v.holder.Activating? && v.holder.id == id
    requires v.subHandles == w.subHandles && v.releasing == w.releasing
    requires forall b: nat, h: u16 :: b != id ==> (Uses(v, b, h) <==> Uses(w, b, h))
    requires forall h: u16 :: Uses(w, id, h) ==> v.holder.previous == Some(h)
    ensures NoStrays(v)
  {
    forall h: u16, b: nat | Routes(v, h, b) ensures Due(v, h, b) {
      assert Routes(w, h, b) && Due(w, h, b);
    }
  }

  lemma FinishActivateKeepsInv(w: World)
    requires Inv(w) && w.holder.Activating?
    ensures Inv(Next(w, FinishActivate))
  {
    var v := Next(w, FinishActivate);
    var id, handle, previous := w.holder.id, w.holder.handle, w.holder.previous;
    SameDirectory(w, v);
    assert forall b: nat, h: u16 :: Uses(v, b, h) <==> Uses(w, b, h);
    forall b: nat, h: u16 | Uses(v, b, h) ensures Routes(v, h, b) {
      assert Uses(w, b, h) && (b == id || Routes(w, h, b));
    }
    forall h: u16, b: nat | Routes(v, h, b) ensures Due(v, h, b) {
      if h != handle {
        assert Routes(w, h, b) && Due(w, h, b);
      }
    }
  }

  lemma EndedTrack(t: T.Track, error: T.SubscribeError)
    requires T.Inv(t)
    ensures var r := T.Ended(t, error); T.Inv(r) && r.subscription == T.Unsubscribed && r.unpublished && r.sid == t.sid
  {
    T.EndKeepsInv(t, error);
  }

  lemma BeginUnpublishKeepsInv(w: World, sid: string)
    requires Inv(w) && Enabled(w, BeginUnpublish(sid))
    ensures Inv(Next(w, BeginUnpublish(sid)))
  {
    var id, v := w.descriptors[sid], Next(w, BeginUnpublish(sid));
    var t := w.tracks[id];
    EndedTrack(t, T.Unpublished);
    assert forall b: nat, h: u16 :: Uses(v, b, h) <==> Uses(w, b, h) && b != id;
    assert forall h: u16 :: Uses(w, id, h) <==> v.holder.ended == Some(h);
    BeginUnpublishKeepsRoutes(w, v, id);
    UnpublishKeepsDirectory(w, sid);
  }

  lemma BeginUnpublishKeepsRoutes(w: World, v: World, id: nat)
    requires HandlesDistinct(w) && Routable(w) && NoStrays(w) && w.holder.Free?
    requires v.holder.Ending? && v.subHandles == w.subHandles && v.releasing == w.releasing
    requires forall b: nat, h: u16 :: Uses(v, b, h) <==> Uses(w, b, h) && b != id
    requires forall h: u16 :: Uses(w, id, h) <==> v.holder.ended == Some(h)
    ensures HandlesDistinct(v) && Routable(v) && NoStrays(v) && HolderKnows(v)
  {
    forall h: u16, b: nat | Routes(v, h, b) ensures Due(v, h, b) {
      assert Routes(w, h, b) && Due(w, h, b);
    }
    assert forall b: nat, h: u16 :: Uses(v, b, h) ==> Routes(w, h, b);
  }

  lemma UnpublishKeepsDirectory(w: World, sid: string)
    requires Inv(w) && Enabled(w, BeginUnpublish(sid))
    ensures Directory(Next(w, BeginUnpublish(sid)))
  {
  }

  lemma FinishUnpublishKeepsInv(w: World)
    requires Inv(w) && w.holder.Ending?
    ensures Inv(Next(w, FinishUnpublish))
  {
    var v := Next(w, FinishUnpublish);
    SameDirectory(w, v);
    assert forall b: nat, h: u16 :: Uses(v, b, h) <==> Uses(w, b, h);
    forall b: nat, h: u16 | Uses(v, b, h) ensures Routes(v, h, b) {
      assert Routes(w, h, b);
    }
    forall h: u16, b: nat | Routes(v, h, b) ensures Due(v, h, b) {
      assert Routes(w, h, b) && Due(w, h, b);
    }
  }

  lemma ReleaseKeepsInv(w: World, id: nat, handle: u16)
    requires Inv(w) && Enabled(w, Release(id, handle))
    ensures Inv(Next(w, Release(id, handle)))
  {
    var v := Next(w, Release(id, handle));
    SameDirectory(w, v);
    assert forall b: nat, h: u16 :: Uses(v, b, h) <==> Uses(w, b, h);
    if v.subHandles == w.subHandles {
      KeptByRelease(w, v, id, handle);
    } else {
      RouteReleased(w, v, id, handle);
    }
  }

  /** The call comes to nothing: the handle is routed elsewhere by now, or in use again. */
  lemma KeptByRelease(w: World, v: World, id: nat, handle: u16)
    requires HandlesDistinct(w) && Routable(w) && NoStrays(w) && w.holder.Free?
    requires Routes(w, handle, id) ==> Uses(w, id, handle)
    requires v == w.(releasing := w.releasing - multiset{(id, handle)})
    requires forall b: nat, h: u16 :: Uses(v, b, h) <==> Uses(w, b, h)
    ensures HandlesDistinct(v) && Routable(v) && NoStrays(v) && HolderKnows(v)
  {
    forall h: u16, b: nat | Routes(v, h, b) ensures Due(v, h, b) {
      assert Routes(w, h, b) && Due(w, h, b);
    }
  }

  lemma RouteReleased(w: World, v: World, id: nat, handle: u16)
    requires HandlesDistinct(w) && Routable(w) && NoStrays(w) && w.holder.Free?
    requires Routes(w, handle, id) && !Uses(w, id, handle)
    requires v == w.(subHandles := w.subHandles - {handle}, releasing := w.releasing - multiset{(id, handle)})
    requires forall b: nat, h: u16 :: Uses(v, b, h) <==> Uses(w, b, h)
    ensures HandlesDistinct(v) && Routable(v) && NoStrays(v) && HolderKnows(v)
  {
    forall b: nat, h: u16 | Uses(v, b, h) ensures Routes(v, h, b) {
      assert Routes(w, h, b);
    }
    forall h: u16, b: nat | Routes(v, h, b) ensures Due(v, h, b) {
      assert Routes(w, h, b) && Due(w, h, b);
    }
  }

  lemma BeginShutdownKeepsInv(w: World)
    requires Inv(w) && w.holder.Free?
    ensures Inv(Next(w, BeginShutdown))
  {
    var v := Next(w, BeginShutdown);
    assert forall b: nat, h: u16 :: Uses(v, b, h) <==> Uses(w, b, h);
    forall b: nat, h: u16 | Uses(v, b, h) ensures Routes(v, h, b) {
      assert Routes(w, h, b);
    }
    forall b | b in v.tracks && !v.tracks[b].unpublished ensures Lists(v, v.tracks[b].sid, b) {
      assert Lists(w, w.tracks[b].sid, b);
    }
    forall s | s in v.descriptors ensures Known(v, s) && v.tracks[v.descriptors[s]].sid == s {
      assert Known(w, s);
    }
  }

  lemma EndOneKeepsInv(w: World, sid: string)
    requires Inv(w) && Enabled(w, EndOne(sid))
    ensures Inv(Next(w, EndOne(sid)))
  {
    var v := Next(w, EndOne(sid));
    EndedTrack(w.tracks[w.descriptors[sid]], T.Disconnected);
    assert forall b: nat, h: u16 :: Uses(v, b, h) ==> Uses(w, b, h);
    EndOneKeepsRoutes(w, v);
    forall b | b in v.tracks && !v.tracks[b].unpublished ensures Lists(v, v.tracks[b].sid, b) {
      assert Lists(w, w.tracks[b].sid, b);
    }
    forall s | s in v.descriptors ensures Known(v, s) && v.tracks[v.descriptors[s]].sid == s {
      assert Known(w, s);
    }
  }

  lemma EndOneKeepsRoutes(w: World, v: World)
    requires HandlesDistinct(w) && Routable(w) && v.holder == w.holder == ShuttingDown
    requires v.subHandles == w.subHandles && forall b: nat, h: u16 :: Uses(v, b, h) ==> Uses(w, b, h)
    ensures HandlesDistinct(v) && Routable(v) && NoStrays(v) && HolderKnows(v)
  {
    forall b: nat, h: u16 | Uses(v, b, h) ensures Routes(v, h, b) {
      assert Routes(w, h, b);
    }
  }

  lemma FinishShutdownKeepsInv(w: World)
    requires Inv(w) && Enabled(w, FinishShutdown)
    ensures Inv(Next(w, FinishShutdown))
  {
  }

  lemma PacketKeepsInv(w: World, step: Step)
    requires Inv(w) && Enabled(w, step) && (step.Lookup? || step.Deliver?)
    ensures Inv(Next(w, step))
  {
    PacketKeepsTables(w, step);
    InFlightKeepsInv(w, Next(w, step));
  }

  lemma PacketKeepsTables(w: World, step: Step)
    requires Enabled(w, step) && (step.Lookup? || step.Deliver?)
    ensures Next(w, step) == w.(inFlight := Next(w, step).inFlight)
  {
  }

  lemma InFlightKeepsInv(w: World, v: World)
    requires Inv(w) && v == w.(inFlight := v.inFlight)
    ensures Inv(v)
  {
    SameDirectory(w, v);
    assert forall b: nat, h: u16 :: Uses(v, b, h) <==> Uses(w, b, h);
    PacketKeepsRoutes(w, v);
  }

  lemma PacketKeepsRoutes(w: World, v: World)
    requires HandlesDistinct(w) && Routable(w) && NoStrays(w) && HolderKnows(w)
    requires v == w.(inFlight := v.inFlight)
    requires forall b: nat, h: u16 :: Uses(v, b, h) <==> Uses(w, b, h)
    ensures HandlesDistinct(v) && Routable(v) && NoStrays(v) && HolderKnows(v)
  {
    forall h: u16, b: nat | Routes(v, h, b) ensures Due(v, h, b) {
      assert Routes(w, h, b) && Due(w, h, b);
    }
  }

  /** Every step of every interleaving keeps the routing table in order. */
  lemma StepKeepsInv(w: World, step: Step)
    requires Inv(w) && Enabled(w, step) && Assignable(w, step)
    ensures Inv(Next(w, step))
  {
    match step
    case Local(id, section) => LocalKeepsInv(w, id, section);
    case Publish(id, sid, usesE2EE) => PublishKeepsInv(w, id, sid, usesE2EE);
    case Reassign(sid, newSid) => ReassignKeepsInv(w, sid, newSid);
    case BeginActivate(sid, handle) => BeginActivateKeepsInv(w, sid, handle);
    case FinishActivate => FinishActivateKeepsInv(w);
    case BeginUnpublish(sid) => BeginUnpublishKeepsInv(w, sid);
    case FinishUnpublish => FinishUnpublishKeepsInv(w);
    case Release(id, handle) => ReleaseKeepsInv(w, id, handle);
    case BeginShutdown => BeginShutdownKeepsInv(w);
    case EndOne(sid) => EndOneKeepsInv(w, sid);
    case FinishShutdown => FinishShutdownKeepsInv(w);
    case Lookup(_) => PacketKeepsInv(w, step);
    case Deliver(_, _, _) => PacketKeepsInv(w, step);
  }

  // ---- What runs promise ----

  ghost predicate Runs(w: World, steps: seq<Step>)
    decreases steps
  {
    steps == [] || (Enabled(w, steps[0]) && Runs(Next(w, steps[0]), steps[1..]))
  }

  /** The SFU keeps its promise throughout. */
  ghost predicate Promised(w: World, steps: seq<Step>)
    requires Runs(w, steps)
    decreases steps
  {
    steps == [] || (Assignable(w, steps[0]) && Promised(Next(w, steps[0]), steps[1..]))
  }

  ghost function After(w: World, steps: seq<Step>): World
    requires Runs(w, steps)
    decreases steps
  {
    if steps == [] then w else After(Next(w, steps[0]), steps[1..])
  }

  lemma {:induction false} RunsKeepInv(w: World, steps: seq<Step>)
    requires Inv(w) && Runs(w, steps) && Promised(w, steps)
    ensures Inv(After(w, steps))
    decreases steps
  {
    if steps == [] {
    } else {
      StepKeepsInv(w, steps[0]);
      RunsKeepInv(Next(w, steps[0]), steps[1..]);
    }
  }

  /** The track of an active subscription is found by its handle; what else is found is being released. */
  lemma LookupFindsActive(w: World, handle: u16, id: nat)
    requires Inv(w) && w.holder.Free?
    ensures Uses(w, id, handle) ==> Routes(w, handle, id)
    ensures Routes(w, handle, id) ==> Uses(w, id, handle) || (id, handle) in w.releasing
  {
    assert Routes(w, handle, id) ==> Due(w, handle, id);
  }

  /** A packet in flight is handed on exactly if its track is active on the handle by then, with room for it. */
  lemma HandedIff(w: World, id: nat, handle: u16, full: bool)
    requires TracksSafe(w) && Enabled(w, Deliver(id, handle, full))
    ensures Handed(w, Deliver(id, handle, full)).Some? <==> Uses(w, id, handle) && !full
    ensures forall d :: Handed(w, Deliver(id, handle, full)) == Some(d) ==> OpenChannel(w, id, d)
    ensures Inv(w) && Uses(w, id, handle) ==> OnlyUser(w, id, handle)
  {
    T.DeliveryIsOpen(w.tracks[id], handle, full);
  }

  /** d is the open packet channel of track id. */
  ghost predicate OpenChannel(w: World, id: nat, d: (nat, nat)) {
    d.0 == id && id in w.tracks && w.tracks[id].packets == Some(d.1) && d.1 !in w.tracks[id].closed
  }

  ghost predicate OnlyUser(w: World, id: nat, handle: u16) {
    forall b: nat :: Uses(w, b, handle) ==> b == id
  }

  lemma StepKeepsTracks(w: World, step: Step)
    requires TracksSafe(w) && Enabled(w, step)
    ensures TracksSafe(Next(w, step))
  {
    match step
    case Local(id, section) => T.RunKeepsInv(w.tracks[id], section);
    case Publish(_, sid, usesE2EE) => T.NewTrackInv(sid, usesE2EE);
    case _ => ManagerKeepsTracks(w, step);
  }

  lemma ManagerKeepsTracks(w: World, step: Step)
    requires TracksSafe(w) && Enabled(w, step) && !step.Local? && !step.Publish?
    ensures TracksSafe(Next(w, step))
  {
    match step
    case Reassign(sid, newSid) => T.RunKeepsInv(w.tracks[w.descriptors[sid]], T.Reassign(newSid));
    case BeginActivate(sid, handle) => T.ActivateKeepsInv(w.tracks[w.descriptors[sid]], handle);
    case BeginUnpublish(_) => EndsKeepTracks(w, step);
    case EndOne(_) => EndsKeepTracks(w, step);
    case _ => TablesKeepTracks(w, step);
  }

  lemma EndsKeepTracks(w: World, step: Step)
    requires TracksSafe(w) && Enabled(w, step) && (step.BeginUnpublish? || step.EndOne?)
    ensures TracksSafe(Next(w, step))
  {
    T.EndKeepsInv(w.tracks[w.descriptors[step.sid]], if step.EndOne? then T.Disconnected else T.Unpublished);
  }

  lemma TablesKeepTracks(w: World, step: Step)
    requires Enabled(w, step) && !step.Local? && !step.Publish?
    requires !step.Reassign? && !step.BeginActivate? && !step.BeginUnpublish? && !step.EndOne?
    ensures Next(w, step).tracks == w.tracks
  {
  }

  lemma {:induction false} RunsKeepTracks(w: World, steps: seq<Step>)
    requires TracksSafe(w) && Runs(w, steps)
    ensures TracksSafe(After(w, steps))
    decreases steps
  {
    if steps == [] {
    } else {
      StepKeepsTracks(w, steps[0]);
      RunsKeepTracks(Next(w, steps[0]), steps[1..]);
    }
  }

  /**
   * Whatever handles the SFU assigns: a packet in flight is handed on if and only if the track looked up
   * is active on the handle when it arrives, with room for it, and then on that track's open channel.
   */
  lemma HandedWhateverTheSFU(steps: seq<Step>, id: nat, handle: u16, full: bool)
    requires Runs(START, steps) && Enabled(After(START, steps), Deliver(id, handle, full))
    ensures var w := After(START, steps);
      && (Handed(w, Deliver(id, handle, full)).Some? <==> Uses(w, id, handle) && !full)
      && (forall d :: Handed(w, Deliver(id, handle, full)) == Some(d) ==> OpenChannel(w, id, d))
  {
    RunsKeepTracks(START, steps);
    HandedIff(After(START, steps), id, handle, full);
  }

  /**
   * A packet over any interleaving with an SFU that keeps its promise, looked up after the steps before,
   * handed on after the steps between. The lookup finds the track active on the handle, if there is one;
   * the packet reaches the track found if and only if that track is active on the handle when it arrives,
   * with room for it, and then no other track is.
   */
  lemma PacketReachesItsTrack(before: seq<Step>, between: seq<Step>, handle: u16, id: nat, full: bool)
    requires Runs(START, before) && Promised(START, before) && Enabled(After(START, before), Lookup(handle))
    requires Routes(After(START, before), handle, id)
    requires var found := Next(After(START, before), Lookup(handle)); Runs(found, between) && Promised(found, between)
    requires Enabled(After(Next(After(START, before), Lookup(handle)), between), Deliver(id, handle, full))
    ensures var w := After(START, before);
      && (forall b: nat :: Uses(w, b, handle) ==> b == id)
      && (Uses(w, id, handle) || (id, handle) in w.releasing)
    ensures var v := After(Next(After(START, before), Lookup(handle)), between);
      && (Handed(v, Deliver(id, handle, full)).Some? <==> Uses(v, id, handle) && !full)
      && (forall d :: Handed(v, Deliver(id, handle, full)) == Some(d) ==> OpenChannel(v, id, d))
      && (Uses(v, id, handle) ==> OnlyUser(v, id, handle))
  {
    var w := After(START, before);
    RunsKeepInv(START, before);
    forall b: nat | Uses(w, b, handle) ensures b == id {
      LookupFindsActive(w, handle, b);
    }
    LookupFindsActive(w, handle, id);
    StepKeepsInv(w, Lookup(handle));
    RunsKeepInv(Next(w, Lookup(handle)), between);
    HandedIff(After(Next(w, Lookup(handle)), between), id, handle, full);
  }

  /** Everything the tables and the steps still to come name is a track. */
  ghost predicate IdsKnown(w: World) {
    && (forall sid :: sid in w.descriptors ==> w.descriptors[sid] in w.tracks)
    && (forall handle :: handle in w.subHandles ==> w.subHandles[handle] in w.tracks)
    && (forall p :: p in w.releasing || p in w.inFlight ==> p.0 in w.tracks)
    && (w.holder.Activating? ==> w.holder.id in w.tracks)
  }

  /** A packet in flight can always be delivered: its track is there. */
  lemma {:induction false} RunsKnowIds(w: World, steps: seq<Step>)
    requires IdsKnown(w) && Runs(w, steps)
    ensures IdsKnown(After(w, steps))
    ensures forall p, full :: p in After(w, steps).inFlight ==> Enabled(After(w, steps), Deliver(p.0, p.1, full))
    decreases steps
  {
    if steps == [] {
    } else {
      StepKnowsIds(w, steps[0]);
      RunsKnowIds(Next(w, steps[0]), steps[1..]);
    }
  }

  lemma StepKnowsIds(w: World, step: Step)
    requires IdsKnown(w) && Enabled(w, step)
    ensures IdsKnown(Next(w, step))
  {
    if step.Local? || step.Release? || step.Lookup? || step.Deliver? {
      PendingKnowIds(w, step);
    } else {
      TablesKnowIds(w, step);
    }
  }

  lemma PendingKnowIds(w: World, step: Step)
    requires IdsKnown(w) && Enabled(w, step) && (step.Local? || step.Release? || step.Lookup? || step.Deliver?)
    ensures IdsKnown(Next(w, step))
  {
    if step.Local? || step.Release? {
      ReleasesKnowIds(w, step);
    } else {
      PacketsKnowIds(w, step);
    }
  }

  lemma ReleasesKnowIds(w: World, step: Step)
    requires IdsKnown(w) && Enabled(w, step) && (step.Local? || step.Release?)
    ensures IdsKnown(Next(w, step))
  {
  }

  lemma PacketsKnowIds(w: World, step: Step)
    requires IdsKnown(w) && Enabled(w, step) && (step.Lookup? || step.Deliver?)
    ensures IdsKnown(Next(w, step))
  {
  }

  lemma TablesKnowIds(w: World, step: Step)
    requires IdsKnown(w) && Enabled(w, step) && !(step.Local? || step.Release? || step.Lookup? || step.Deliver?)
    ensures IdsKnown(Next(w, step))
  {
  }

  ghost predicate Leads(w: World, steps: seq<Step>, v: World) {
    Runs(w, steps) && Promised(w, steps) && After(w, steps) == v
  }

  lemma {:induction false} OneMore(w: World, steps: seq<Step>, v: World, step: Step) returns (more: seq<Step>)
    requires Leads(w, steps, v) && Enabled(v, step) && Assignable(v, step)
    ensures Leads(w, more, Next(v, step))
    decreases steps
  {
    if steps == [] {
      more := [step];
    } else {
      var rest := OneMore(Next(w, steps[0]), steps[1..], v, step);
      more := [steps[0]] + rest;
    }
  }

  /** A track in want of its first subscription: the request is sent, waiter 0 waits. */
  function Asking(sid: string): T.Track {
    T.NewTrack(sid, false).(subscription := T.Pending, waiters := [0], bufferSize := 1, next := 1,
    attempted := [T.Update(sid, true, true)])
  }

  function TwoTracks(a: T.Track, b: T.Track): World {
    START.(tracks := map[0 := a, 1 := b], descriptors := map["a" := 0, "b" := 1])
  }

  lemma BothPublished() returns (steps: seq<Step>)
    ensures Leads(START, steps, TwoTracks(T.NewTrack("a", false), T.NewTrack("b", false)))
  {
    steps := OneMore(START, [], START, Publish(0, "a", false));
    var w := Next(START, Publish(0, "a", false));
    steps := OneMore(START, steps, w, Publish(1, "b", false));
    assert Next(w, Publish(1, "b", false)) == TwoTracks(T.NewTrack("a", false), T.NewTrack("b", false));
  }

  lemma AskedTrack(sid: string)
    ensures T.Run(T.Run(T.NewTrack(sid, false), T.Subscribe(1, false)), T.SendReturns(true)) == Asking(sid)
  {
  }

  lemma Asks(steps: seq<Step>, w: World, id: nat, sid: string) returns (more: seq<Step>)
    requires Leads(START, steps, w) && id in w.tracks && w.tracks[id] == T.NewTrack(sid, false)
    ensures Leads(START, more, Put(w, id, Asking(sid)))
  {
    var ask, sent := Local(id, T.Subscribe(1, false)), Local(id, T.SendReturns(true));
    more := OneMore(START, steps, w, ask);
    more := OneMore(START, more, Next(w, ask), sent);
    AskedTrack(sid);
    assert Next(Next(w, ask), sent).tracks == w.tracks[id := Asking(sid)];
  }

  lemma BothAsk() returns (steps: seq<Step>)
    ensures Leads(START, steps, TwoTracks(Asking("a"), Asking("b")))
  {
    steps := BothPublished();
    var w := TwoTracks(T.NewTrack("a", false), T.NewTrack("b", false));
    steps := Asks(steps, w, 0, "a");
    steps := Asks(steps, Put(w, 0, Asking("a")), 1, "b");
    assert Put(Put(w, 0, Asking("a")), 1, Asking("b")) == TwoTracks(Asking("a"), Asking("b"));
  }

  /** The SFU's answer for a waiting track whose handle no track holds. */
  lemma Answers(from: World, steps: seq<Step>, w: World, sid: string, handle: u16) returns (more: seq<Step>)
    requires Leads(from, steps, w) && w.holder.Free? && Known(w, sid)
    requires w.tracks[w.descriptors[sid]].subscription == T.Pending && forall b: nat :: !Uses(w, b, handle)
    ensures Leads(from, more, Assigned(w, sid, handle))
  {
    more := OneMore(from, steps, w, BeginActivate(sid, handle));
    more := OneMore(from, more, Next(w, BeginActivate(sid, handle)), FinishActivate);
  }

  /** Track "a", subscribed on the handle, and "b" waiting. */
  function OneActive(handle: u16): World {
    TwoTracks(T.Activated(Asking("a"), handle), Asking("b")).(subHandles := map[handle := 0])
  }

  lemma FirstActive(handle: u16) returns (steps: seq<Step>)
    ensures Leads(START, steps, OneActive(handle))
  {
    steps := BothAsk();
    var w := TwoTracks(Asking("a"), Asking("b"));
    steps := Answers(START, steps, w, "a", handle);
    assert Assigned(w, "a", handle) == OneActive(handle);
  }

  /** The first track left; a packet for it is in flight. */
  ghost predicate Freed(w: World, handle: u16) {
    && w.holder.Free? && w.descriptors == OneActive(handle).descriptors
    && w.tracks.Keys == {0, 1} && w.tracks[0].subscription == T.Unsubscribed && w.tracks[1] == Asking("b")
    && (0, handle) in w.inFlight
  }

  lemma FirstLeaves(handle: u16, found: World) returns (steps: seq<Step>, freed: World)
    requires found == OneActive(handle).(inFlight := multiset{(0, handle)})
    ensures Leads(found, steps, freed) && Freed(freed, handle)
  {
    var closing, release := Local(0, T.RemoveStream(2)), Release(0, handle);
    FirstActiveTrack(handle);
    FirstCloses(handle, found);
    var closed := Next(found, closing);
    steps := OneMore(found, [], found, closing);
    steps := OneMore(found, steps, closed, release);
    freed := Next(closed, release);
  }

  /** The first track's last stream closes, its release still to come. */
  lemma FirstCloses(handle: u16, found: World)
    requires found == OneActive(handle).(inFlight := multiset{(0, handle)})
    requires Enabled(found, Local(0, T.RemoveStream(2)))
    ensures var w := Next(found, Local(0, T.RemoveStream(2)));
      Freed(w, handle) && (0, handle) in w.releasing && w.subHandles == map[handle := 0]
  {
    FirstActiveTrack(handle);
  }

  lemma FirstActiveTrack(handle: u16)
    ensures var t := T.Activated(Asking("a"), handle);
      t.subscription == T.Active && t.streams == {2} && t.subHandle == handle && t.sending.None?
  {
  }

  /**
   * It is the track found that counts: in this run, a lookup and then the steps between, the packet is
   * dropped although another track is active on its handle when it arrives.
   */
  lemma PacketMissesNewHolder(handle: u16) returns (before: seq<Step>, between: seq<Step>, w: World, v: World)
    ensures Leads(START, before, w) && Routes(w, handle, 0) && Uses(w, 0, handle) && Enabled(w, Lookup(handle))
    ensures Leads(Next(w, Lookup(handle)), between, v) && Enabled(v, Deliver(0, handle, false))
    ensures Handed(v, Deliver(0, handle, false)) == None && Uses(v, 1, handle) && Routes(v, handle, 1)
  {
    before := FirstActive(handle);
    w := OneActive(handle);
    FirstActiveTrack(handle);
    var found := w.(inFlight := multiset{(0, handle)});
    assert Next(w, Lookup(handle)) == found;
    var freed: World;
    between, freed := FirstLeaves(handle, found);
    v := Assigned(freed, "b", handle);
    between := Answers(found, between, freed, "b", handle);
    SecondActive(freed, handle);
  }

  lemma SecondActive(freed: World, handle: u16)
    requires Freed(freed, handle)
    ensures var v := Assigned(freed, "b", handle);
      && v.holder.Free? && v.tracks.Keys == {0, 1} && v.tracks[0] == freed.tracks[0]
      && v.inFlight == freed.inFlight && Uses(v, 1, handle) && Routes(v, handle, 1)
  {
    T.GrantAllGrows(T.Opened(Asking("b"), handle), [0]);
  }

  /** When no release is on its way, the table holds the routes of the active tracks and nothing else. */
  lemma NoRouteLeaks(steps: seq<Step>, handle: u16, id: nat)
    requires Runs(START, steps) && Promised(START, steps)
    requires var w := After(START, steps); w.holder.Free? && w.releasing == multiset{}
    ensures Routes(After(START, steps), handle, id) <==> Uses(After(START, steps), id, handle)
  {
    RunsKeepInv(START, steps);
    assert Routes(After(START, steps), handle, id) ==> Due(After(START, steps), handle, id);
  }

  /** The SFU's promise is needed: assigning a handle keeps every route exactly when no other track holds it. */
  lemma AssignmentKeepsRoutesIff(w: World, sid: string, handle: u16)
    requires Inv(w) && Enabled(w, BeginActivate(sid, handle))
    requires w.tracks[w.descriptors[sid]].subscription != T.Unsubscribed
    ensures var v := Next(Next(w, BeginActivate(sid, handle)), FinishActivate);
      Routable(v) <==> Assignable(w, BeginActivate(sid, handle))
  {
    var u := Next(w, BeginActivate(sid, handle));
    var v := Next(u, FinishActivate);
    BeginActivateUses(w, sid, handle);
    if Assignable(w, BeginActivate(sid, handle)) {
      BeginActivateKeepsInv(w, sid, handle);
      FinishActivateKeepsInv(u);
    } else {
      var b: nat :| Uses(w, b, handle) && b != w.descriptors[sid];
      assert Uses(u, b, handle) && Uses(v, b, handle) && !Routes(v, handle, b);
    }
  }

  /**
   * Exchanging the handles of two tracks in one message loses a route for good: the second track's
   * move forgets the handle that the first has just been given.
   */
  lemma ExchangeLosesRoute(w: World, first: string, second: string, a: u16, b: u16)
    requires Inv(w) && w.holder.Free? && Known(w, first) && Known(w, second) && first != second && a != b
    requires Uses(w, w.descriptors[first], a) && Uses(w, w.descriptors[second], b)
    ensures
      var v := Assigned(Assigned(w, first, b), second, a);
      Uses(v, w.descriptors[first], b) && b !in v.subHandles
  {
  }

  /** One handle of a subscriber handles message. */
  function Assigned(w: World, sid: string, handle: u16): World
    requires w.holder.Free?
  {
    if !Known(w, sid) then w
    else
      var u := Next(w, BeginActivate(sid, handle));
      if u.holder.Activating? then Next(u, FinishActivate) else u
  }

  /** Both tracks active, on two handles. */
  lemma BothActive(a: u16, b: u16) returns (steps: seq<Step>, w: World)
    requires a != b
    ensures Leads(START, steps, w) && w.holder.Free? && w.descriptors == map["a" := 0, "b" := 1]
    ensures w.tracks.Keys == {0, 1} && Uses(w, 0, a) && Uses(w, 1, b)
  {
    steps := FirstActive(a);
    var one := OneActive(a);
    FirstActiveTrack(a);
    steps := Answers(START, steps, one, "b", b);
    w := Assigned(one, "b", b);
    SecondActiveTrack(b);
  }

  lemma SecondActiveTrack(handle: u16)
    ensures var t := T.Activated(Asking("b"), handle); t.subscription == T.Active && t.subHandle == handle
  {
    T.GrantAllGrows(T.Opened(Asking("b"), handle), [0]);
  }

  /** A run after which an exchange of the handles loses the first track's route. */
  lemma ExchangeIsReached(a: u16, b: u16) returns (steps: seq<Step>, w: World)
    requires a != b
    ensures Leads(START, steps, w) && w.holder.Free? && Known(w, "a") && Known(w, "b")
    ensures Uses(w, w.descriptors["a"], a) && Uses(w, w.descriptors["b"], b)
    ensures var v := Assigned(Assigned(w, "a", b), "b", a); Uses(v, w.descriptors["a"], b) && b !in v.subHandles
  {
    steps, w := BothActive(a, b);
    RunsKeepInv(START, steps);
    ExchangeLosesRoute(w, "a", "b", a, b);
  }
}
