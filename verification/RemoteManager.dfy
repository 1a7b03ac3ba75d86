/**
 * The manager of remote data tracks: the table that routes packet handles to tracks, under the
 * interleavings of the tracks' own sections with the manager's.
 */
module RemoteManager {
  import opened Machine
  import T = RemoteTrack

  /** Who holds the manager's lock while a section on a track has run but the tables are not yet updated. */
  datatype Holder =
    | Free
    | Activating(id: nat, handle: u16, previous: Option<u16>)
    | Ending(ended: Option<u16>)
    | ShuttingDown

  /**
   * tracks are all tracks ever made; releasing are the calls of releaseHandle still to come; inFlight
   * are the packets whose track has been looked up by their handle but that have not reached it yet.
   * A delivery finds the track's packet channel full or not.
   */
  datatype World = World(
    tracks: map<nat, T.Track>, descriptors: map<string, nat>, subHandles: map<u16, nat>,
    releasing: multiset<(nat, u16)>, inFlight: multiset<(nat, u16)>, holder: Holder)

  datatype Step =
    | Local(id: nat, section: T.Section)
    | Publish(id: nat, sid: string, usesE2EE: bool)
    | Reassign(sid: string, newSid: string)
    | BeginActivate(sid: string, handle: u16)
    | FinishActivate
    | BeginUnpublish(sid: string)
    | FinishUnpublish
    | Release(id: nat, handle: u16)
    | BeginShutdown
    | EndOne(sid: string)
    | FinishShutdown
    | Lookup(handle: u16)
    | Deliver(id: nat, handle: u16, full: bool)

  const START := World(map[], map[], map[], multiset{}, multiset{}, Free)

  predicate IsLocal(section: T.Section) {
    !section.Activate? && !section.End? && !section.Reassign?
  }

  predicate Known(w: World, sid: string) {
    sid in w.descriptors && w.descriptors[sid] in w.tracks
  }

  predicate Enabled(w: World, step: Step) {
    match step
    case Local(id, section) => id in w.tracks && IsLocal(section) && T.Enabled(w.tracks[id], section)
    case Publish(id, sid, _) => w.holder.Free? && id !in w.tracks && sid !in w.descriptors
    case Reassign(sid, newSid) => w.holder.Free? && Known(w, sid) && newSid !in w.descriptors
    case BeginActivate(sid, _) => w.holder.Free? && Known(w, sid)
    case FinishActivate => w.holder.Activating?
    case BeginUnpublish(sid) => w.holder.Free? && Known(w, sid)
    case FinishUnpublish => w.holder.Ending?
    case Release(id, handle) => w.holder.Free? && id in w.tracks && (id, handle) in w.releasing
    case BeginShutdown => w.holder.Free?
    case EndOne(sid) => w.holder.ShuttingDown? && Known(w, sid)
    case FinishShutdown =>
      w.holder.ShuttingDown? && forall id :: id in w.tracks && id in w.descriptors.Values ==> w.tracks[id].unpublished
    case Lookup(_) => w.holder.Free?
    case Deliver(id, handle, _) => id in w.tracks && (id, handle) in w.inFlight
  }

  function Put(w: World, id: nat, t: T.Track): World {
    w.(tracks := w.tracks[id := t])
  }

  /** What a section of a track leaves for releaseHandle. */
  function Leaves(t: T.Track, id: nat, section: T.Section): multiset<(nat, u16)> {
    if section.RemoveStream? && T.Released(t, section.stream).Some?
    then multiset{(id, T.Released(t, section.stream).value)}
    else multiset{}
  }

  function Routed(table: map<u16, nat>, id: nat, handle: u16, previous: Option<u16>): map<u16, nat> {
    (if previous.Some? then table - {previous.value} else table)[handle := id]
  }

  function Next(w: World, step: Step): World
    requires Enabled(w, step)
  {
    match step
    case Local(id, section) =>
      Put(w, id, T.Run(w.tracks[id], section)).(releasing := w.releasing + Leaves(w.tracks[id], id, section))
    case Publish(id, sid, usesE2EE) =>
      Put(w, id, T.NewTrack(sid, usesE2EE)).(descriptors := w.descriptors[sid := id])
    case Reassign(sid, newSid) =>
      var id := w.descriptors[sid];
      Put(w, id, w.tracks[id].(sid := newSid)).(descriptors := (w.descriptors - {sid})[newSid := id])
    case BeginActivate(sid, handle) =>
      var id := w.descriptors[sid];
      var t := w.tracks[id];
      if t.subscription == T.Unsubscribed then w
      else
        Put(w, id, T.Activated(t, handle)).(
        holder := Activating(id, handle, if t.subscription == T.Active then Some(t.subHandle) else None))
    case FinishActivate =>
      w.(subHandles := Routed(w.subHandles, w.holder.id, w.holder.handle, w.holder.previous), holder := Free)
    case BeginUnpublish(sid) =>
      var id := w.descriptors[sid];
      var t := w.tracks[id];
      Put(w, id, T.Ended(t, T.Unpublished)).(
      descriptors := w.descriptors - {sid},
      holder := Ending(if t.subscription == T.Active then Some(t.subHandle) else None))
    case FinishUnpublish =>
      w.(subHandles := if w.holder.ended.Some? then w.subHandles - {w.holder.ended.value} else w.subHandles,
         holder := Free)
    case Release(id, handle) =>
      var called := w.(releasing := w.releasing - multiset{(id, handle)});
      if handle in w.subHandles && w.subHandles[handle] == id && !Uses(w, id, handle)
      then called.(subHandles := w.subHandles - {handle})
      else called
    case BeginShutdown => w.(holder := ShuttingDown)
    case EndOne(sid) =>
      var id := w.descriptors[sid];
      Put(w, id, T.Ended(w.tracks[id], T.Disconnected))
    case FinishShutdown => w.(descriptors := map[], subHandles := map[], holder := Free)
    case Lookup(handle) =>
      if handle in w.subHandles then w.(inFlight := w.inFlight + multiset{(w.subHandles[handle], handle)}) else w
    case Deliver(id, handle, _) => w.(inFlight := w.inFlight - multiset{(id, handle)})
  }

  /** What a step hands to a track's packet channel: the track and the channel. */
  function Handed(w: World, step: Step): Option<(nat, nat)>
    requires Enabled(w, step)
  {
    if !step.Deliver? then None
    else
      match T.DeliverTo(w.tracks[step.id], step.handle, step.full)
      case None => None
      case Some(channel) => Some((step.id, channel))
  }

  // ---- The invariant ----

  /** The track's active subscription is routed by handle. */
  predicate Uses(w: World, id: nat, handle: u16) {
    id in w.tracks && w.tracks[id].subscription == T.Active && w.tracks[id].subHandle == handle
  }

  ghost predicate TracksSafe(w: World) {
    forall id :: id in w.tracks ==> T.Inv(w.tracks[id])
  }

  /** The directory lists exactly the published tracks, each under its own SID. */
  ghost predicate Directory(w: World) {
    && (forall id :: id in w.tracks && !w.tracks[id].unpublished ==> Lists(w, w.tracks[id].sid, id))
    && (forall sid :: sid in w.descriptors ==> Known(w, sid) && w.tracks[w.descriptors[sid]].sid == sid)
    && (!w.holder.ShuttingDown? ==> forall sid :: Known(w, sid) ==> !w.tracks[w.descriptors[sid]].unpublished)
  }

  predicate Lists(w: World, sid: string, id: nat) {
    sid in w.descriptors && w.descriptors[sid] == id
  }

  ghost predicate HandlesDistinct(w: World) {
    forall a: nat, b: nat, handle: u16 :: Uses(w, a, handle) && Uses(w, b, handle) ==> a == b
  }

  /** Every active track is routable, but for the one being activated. */
  ghost predicate Routable(w: World) {
    forall id: nat, handle: u16 ::
      Uses(w, id, handle) && !(w.holder.Activating? && w.holder.id == id) ==> Routes(w, handle, id)
  }

  predicate Routes(w: World, handle: u16, id: nat) {
    handle in w.subHandles && w.subHandles[handle] == id
  }

  /** Why a route may be there: its track is active on it, or its removal is on the way. */
  ghost predicate Due(w: World, handle: u16, id: nat) {
    || Uses(w, id, handle)
    || (id, handle) in w.releasing
    || (w.holder.Activating? && w.holder.id == id && w.holder.previous == Some(handle))
    || (w.holder.Ending? && w.holder.ended == Some(handle))
    || w.holder.ShuttingDown?
  }

  ghost predicate NoStrays(w: World) {
    forall handle: u16, id: nat :: Routes(w, handle, id) ==> Due(w, handle, id)
  }

  /** What the manager's lock protects while a section holds it half done. */
  ghost predicate HolderKnows(w: World) {
    match w.holder
    case Activating(id, handle, previous) =>
      && id in w.tracks
      && (Uses(w, id, handle) || (id, handle) in w.releasing)
      && (w.tracks[id].subscription == T.Active ==> w.tracks[id].subHandle == handle)
      && (forall b: nat :: Uses(w, b, handle) ==> b == id)
      && (previous.Some? && previous != Some(handle) ==> forall b: nat :: !Uses(w, b, previous.value))
    case Ending(ended) => ended.Some? ==> forall b: nat :: !Uses(w, b, ended.value)
    case _ => true
  }

  ghost predicate Inv(w: World) {
    TracksSafe(w) && Directory(w) && HandlesDistinct(w) && Routable(w) && NoStrays(w) && HolderKnows(w)
  }

  /** What is asked of the SFU: it assigns no handle that another active track holds. */
  ghost predicate Assignable(w: World, step: Step)
    requires Enabled(w, step)
  {
    step.BeginActivate? ==> forall b: nat :: Uses(w, b, step.handle) ==> b == w.descriptors[step.sid]
  }
}
