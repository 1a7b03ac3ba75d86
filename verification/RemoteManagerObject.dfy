/** The remote manager as an object: its two tables, reassigned by the sections its lock protects. */
module RemoteManagerObject {
  import opened Machine
  import Spec = RemoteManager
  import Routing = RemoteRouting
  import T = RemoteTrack
  import O = RemoteTrackObject

  /** A whole subscriber handles message, in the order its entries are met. */
  function AssignAll(w: Spec.World, mapping: seq<(u16, string)>): (r: Spec.World)
    requires w.holder.Free?
    ensures r.holder.Free?
    decreases mapping
  {
    if mapping == [] then w else AssignAll(Routing.Assigned(w, mapping[0].1, mapping[0].0), mapping[1..])
  }

  /** An assignment as one step on the two tables. */
  lemma AssignedTables(w: Spec.World, sid: string, handle: u16)
    requires w.holder.Free? && Spec.Known(w, sid)
    ensures var id, r := w.descriptors[sid], Routing.Assigned(w, sid, handle);
      var t := w.tracks[id];
      var previous := if t.subscription == T.Active then Some(t.subHandle) else None;
      r == if t.subscription == T.Unsubscribed then w
           else Spec.World(w.tracks[id := T.Activated(t, handle)], w.descriptors,
                           Spec.Routed(w.subHandles, id, handle, previous), w.releasing, w.inFlight, Spec.Free)
  {
  }

  /** A track leaving the directory, from its end to the removal of its route. */
  function Unpublished(w: Spec.World, sid: string): Spec.World
    requires w.holder.Free? && Spec.Known(w, sid)
  {
    Spec.Next(Spec.Next(w, Spec.BeginUnpublish(sid)), Spec.FinishUnpublish)
  }

  lemma UnpublishedTables(w: Spec.World, sid: string, tracks: map<nat, T.Track>, subHandles: map<u16, nat>)
    requires w.holder.Free? && Spec.Known(w, sid)
    requires tracks == w.tracks[w.descriptors[sid] := T.Ended(w.tracks[w.descriptors[sid]], T.Unpublished)]
    requires subHandles == WithoutRoute(w.subHandles, w.tracks[w.descriptors[sid]])
    ensures Unpublished(w, sid) == w.(tracks := tracks, descriptors := w.descriptors - {sid}, subHandles := subHandles)
  {
  }

  /** The table without the route of a track's active subscription. */
  function WithoutRoute(subHandles: map<u16, nat>, t: T.Track): map<u16, nat> {
    if t.subscription == T.Active then subHandles - {t.subHandle} else subHandles
  }

  lemma ReleasedTables(w: Spec.World, id: nat, handle: u16, unused: bool, v: Spec.World)
    requires Spec.Enabled(w, Spec.Release(id, handle)) && v == Spec.Next(w, Spec.Release(id, handle))
    requires unused == (Spec.Routes(w, handle, id) && !Spec.Uses(w, id, handle))
    ensures v == Spec.World(
      w.tracks, w.descriptors, if unused then w.subHandles - {handle} else w.subHandles,
      w.releasing - multiset{(id, handle)}, w.inFlight, Spec.Free)
  {
  }

  lemma DeliveredTables(w: Spec.World, id: nat, handle: u16, full: bool, v: Spec.World)
    requires Spec.Enabled(w, Spec.Deliver(id, handle, full))
    requires v == w.(inFlight := w.inFlight - multiset{(id, handle)})
    ensures v == Spec.Next(w, Spec.Deliver(id, handle, full))
  {
  }

  ghost predicate Separate(tracks: map<nat, O.Track>) {
    forall a, b :: a in tracks && b in tracks && a != b ==> tracks[a] != tracks[b]
  }

  ghost function Views(tracks: map<nat, O.Track>): map<nat, T.Track>
    reads tracks.Values
  {
    map id | id in tracks :: tracks[id].View()
  }

  function Received(handed: Option<(nat, nat)>): Option<nat> {
    if handed.Some? then Some(handed.value.1) else None
  }

  class Manager {
    var tracks: map<nat, O.Track>
    var descriptors: map<string, nat>
    var subHandles: map<u16, nat>
    ghost var releasing: multiset<(nat, u16)>
    ghost var inFlight: multiset<(nat, u16)>

    ghost predicate Valid()
      reads this
    {
      Separate(tracks) && descriptors.Values <= tracks.Keys && subHandles.Values <= tracks.Keys
    }

    ghost function View(): Spec.World
      reads this, tracks.Values
    {
      Spec.World(Views(tracks), descriptors, subHandles, releasing, inFlight, Spec.Free)
    }

    constructor ()
      ensures Valid() && View() == Spec.START
    {
      tracks, descriptors, subHandles, releasing, inFlight := map[], map[], map[], multiset{}, multiset{};
    }

    method ActivateTrack(id: nat, handle: u16) returns (previous: Option<u16>, ok: bool)
      requires Valid() && id in tracks
      modifies tracks[id]
      ensures var t := old(Views(tracks))[id];
        && Views(tracks) == old(Views(tracks))[id := T.Activated(t, handle)]
        && ok == (t.subscription != T.Unsubscribed)
        && previous == if t.subscription == T.Active then Some(t.subHandle) else None
    {
      previous, ok := tracks[id].Activate(handle);
    }

    method EndTrack(id: nat) returns (handle: u16, wasActive: bool)
      requires Valid() && id in tracks
      modifies tracks[id]
      ensures var t := old(Views(tracks))[id];
        && Views(tracks) == old(Views(tracks))[id := T.Ended(t, T.Unpublished)]
        && handle == t.subHandle && wasActive == (t.subscription == T.Active)
    {
      handle, wasActive := tracks[id].End(T.Unpublished);
    }

    method UsesHandle(id: nat, handle: u16) returns (uses: bool)
      requires Valid() && id in tracks
      ensures uses == Spec.Uses(View(), id, handle)
    {
      var t := tracks[id];
      uses := t.subscription == T.Active && t.subHandle == handle;
    }

    /** The SFU assigned a handle: the track takes it, the one it replaces is forgotten. */
    method Assign(handle: u16, sid: string)
      requires Valid()
      modifies this`subHandles, tracks.Values
      ensures Valid() && View() == Routing.Assigned(old(View()), sid, handle)
    {
      if sid in descriptors {
        AssignedTables(View(), sid, handle);
        ghost var was := Views(tracks);
        var id := descriptors[sid];
        var previous, ok := ActivateTrack(id, handle);
        assert !ok ==> Views(tracks) == was;
        if ok {
          Route(id, handle, previous);
        }
      }
    }

    method Route(id: nat, handle: u16, previous: Option<u16>)
      requires Valid() && id in tracks
      modifies this`subHandles
      ensures Valid() && subHandles == Spec.Routed(old(subHandles), id, handle, previous)
    {
      if previous.Some? {
        subHandles := subHandles - {previous.value};
      }
      subHandles := subHandles[handle := id];
    }

    method HandleSubscriberHandles(mapping: seq<(u16, string)>)
      requires Valid()
      modifies this`subHandles, tracks.Values
      ensures Valid() && View() == AssignAll(old(View()), mapping)
    {
      var i := 0;
      while i < |mapping|
        invariant 0 <= i <= |mapping| && Valid()
        invariant AssignAll(View(), mapping[i..]) == AssignAll(old(View()), mapping)
      {
        assert mapping[i..][1..] == mapping[i + 1..];
        Assign(mapping[i].0, mapping[i].1);
        i := i + 1;
      }
    }

    /** The call a closed subscription owes: its route goes, unless the track is active on it again. */
    method ReleaseHandle(id: nat, handle: u16)
      requires Valid() && Spec.Enabled(View(), Spec.Release(id, handle))
      modifies this`subHandles, this`releasing
      ensures Valid() && View() == Spec.Next(old(View()), Spec.Release(id, handle))
    {
      ghost var released := Spec.Next(View(), Spec.Release(id, handle));
      var unused := IsUnused(id, handle);
      ReleasedTables(View(), id, handle, unused, released);
      Drop(id, handle, unused, released);
    }

    method Drop(id: nat, handle: u16, unused: bool, ghost released: Spec.World)
      requires Valid() && released == Spec.World(
        Views(tracks), descriptors, if unused then subHandles - {handle} else subHandles,
        releasing - multiset{(id, handle)}, inFlight, Spec.Free)
      modifies this`subHandles, this`releasing
      ensures Valid() && View() == released
    {
      releasing := releasing - multiset{(id, handle)};
      Forget(handle, unused);
    }

    method IsUnused(id: nat, handle: u16) returns (unused: bool)
      requires Valid() && id in tracks
      ensures unused == (Spec.Routes(View(), handle, id) && !Spec.Uses(View(), id, handle))
    {
      unused := false;
      if handle in subHandles && subHandles[handle] == id {
        var uses := UsesHandle(id, handle);
        unused := !uses;
      }
    }

    /** The part of handling a packet under the manager's lock: its track, by its handle. */
    method LookUp(handle: u16) returns (id: Option<nat>)
      requires Valid()
      modifies this`inFlight
      ensures Valid() && View() == Spec.Next(old(View()), Spec.Lookup(handle))
      ensures id == if handle in subHandles then Some(subHandles[handle]) else None
    {
      if handle !in subHandles {
        return None;
      }
      id := Some(subHandles[handle]);
      inFlight := inFlight + multiset{(subHandles[handle], handle)};
    }

    /** The part under the track's own lock, any time later: the packet channel it goes to, if any. */
    method PassOn(id: nat, handle: u16, full: bool) returns (channel: Option<nat>)
      requires Valid() && Spec.Enabled(View(), Spec.Deliver(id, handle, full))
      modifies this`inFlight
      ensures Valid() && View() == Spec.Next(old(View()), Spec.Deliver(id, handle, full))
      ensures channel == Received(Spec.Handed(old(View()), Spec.Deliver(id, handle, full)))
    {
      ghost var was := View();
      channel := DeliverTo(id, handle, full);
      inFlight := inFlight - multiset{(id, handle)};
      DeliveredTables(was, id, handle, full, View());
    }

    method DeliverTo(id: nat, handle: u16, full: bool) returns (channel: Option<nat>)
      requires Valid() && Spec.Enabled(View(), Spec.Deliver(id, handle, full))
      ensures channel == Received(Spec.Handed(View(), Spec.Deliver(id, handle, full)))
    {
      channel := tracks[id].Deliver(handle, full);
    }

    /** A track its publisher no longer lists: it ends, and the route of its subscription goes with it. */
    method Unpublish(sid: string)
      requires Valid() && sid in descriptors
      modifies this`descriptors, this`subHandles, tracks.Values
      ensures Valid() && View() == Unpublished(old(View()), sid)
    {
      ghost var was := View();
      Retire(sid);
      UnpublishedTables(was, sid, Views(tracks), subHandles);
    }

    method Retire(sid: string)
      requires Valid() && sid in descriptors
      modifies this`descriptors, this`subHandles, tracks.Values
      ensures Valid() && descriptors == old(descriptors) - {sid}
      ensures var id := old(descriptors)[sid]; var t := old(Views(tracks))[id];
        && Views(tracks) == old(Views(tracks))[id := T.Ended(t, T.Unpublished)]
        && subHandles == WithoutRoute(old(subHandles), t)
    {
      var id := descriptors[sid];
      descriptors := descriptors - {sid};
      var handle, wasActive := EndTrack(id);
      Forget(handle, wasActive);
    }

    method Forget(handle: u16, wasActive: bool)
      requires Valid()
      modifies this`subHandles
      ensures Valid() && subHandles == if wasActive then old(subHandles) - {handle} else old(subHandles)
    {
      if wasActive {
        subHandles := subHandles - {handle};
      }
    }
  }
}
