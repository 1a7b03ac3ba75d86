/** The connection manager: its state, the setters its lock protects, and the planning of attempts. */
module ConnectionState {
  import opened Machine

  datatype State = Initial | Connected | Resuming | Reconnecting | Closed

  datatype Region = Region(name: string, url: string)

  /** settings are the regions the server sent with its last leave request, if it did. */
  datatype Connection = Connection(
    state: State, settings: Option<seq<Region>>, region: Option<Region>, recovering: bool)

  const START := Connection(Initial, None, None, false)

  predicate NeedsRecovery(c: Connection) {
    c.state == Resuming || c.state == Reconnecting
  }

  function ConnectedTo(c: Connection, region: Region): Connection {
    if c.state == Closed then c else Connection(Connected, None, Some(region), c.recovering)
  }

  function Resumed(c: Connection, region: Region): Connection {
    if c.state == Resuming then ConnectedTo(c, region) else c
  }

  function ResumeRequested(c: Connection, settings: Option<seq<Region>>): Connection {
    match c.state
    case Connected => c.(state := Resuming, settings := settings)
    case Resuming => if settings.Some? then c.(settings := settings) else c
    case _ => c
  }

  function ReconnectRequested(c: Connection, settings: Option<seq<Region>>): Connection {
    if c.state == Closed || c.state == Initial || (c.state == Reconnecting && settings.None?) then c
    else c.(state := Reconnecting, settings := settings)
  }

  /** A disconnect applies its transition and claims the worker slot if it must start the worker. */
  function Requested(c: Connection, full: bool, settings: Option<seq<Region>>): (Connection, bool) {
    var r := if full then ReconnectRequested(c, settings) else ResumeRequested(c, settings);
    if NeedsRecovery(r) && !r.recovering then (r.(recovering := true), true) else (r, false)
  }

  /** A settled worker goes on if more recovery is due; otherwise it gives the slot back. */
  function Settled(c: Connection): (Connection, bool) {
    if NeedsRecovery(c) then (c, true) else (c.(recovering := false), false)
  }

  function Stopped(c: Connection): Connection {
    c.(recovering := false)
  }

  function ClosedOff(c: Connection): Connection {
    c.(state := Closed, settings := None)
  }

  class ConnectionManager {
    var state: State
    var regionSettings: Option<seq<Region>>
    var connectedRegion: Option<Region>
    var recovering: bool

    ghost function View(): Connection
      reads this
    {
      Connection(state, regionSettings, connectedRegion, recovering)
    }

    constructor ()
      ensures View() == START
    {
      state, regionSettings, connectedRegion, recovering := Initial, None, None, false;
    }

    method SetConnected(region: Region)
      modifies this
      ensures View() == ConnectedTo(old(View()), region)
    {
      if state == Closed {
        return;
      }
      regionSettings, connectedRegion := None, Some(region);
      state := Connected;
    }

    method SetResumed(region: Region) returns (done: bool)
      modifies this
      ensures View() == Resumed(old(View()), region) && done == (old(state) == Resuming)
    {
      if state == Closed {
        return false;
      }
      if state != Resuming {
        return false;
      }
      regionSettings, connectedRegion := None, Some(region);
      state := Connected;
      return true;
    }

    method SetResuming(settings: Option<seq<Region>>)
      modifies this
      ensures View() == ResumeRequested(old(View()), settings)
    {
      if state == Closed || state == Reconnecting {
        return;
      }
      if state == Resuming {
        if settings.Some? {
          regionSettings := settings;
        }
        return;
      }
      if state != Connected {
        return;
      }
      regionSettings := settings;
      state := Resuming;
    }

    method SetReconnecting(settings: Option<seq<Region>>)
      modifies this
      ensures View() == ReconnectRequested(old(View()), settings)
    {
      if state == Closed || state == Initial {
        return;
      }
      if state == Reconnecting && settings.None? {
        return;
      }
      regionSettings := settings;
      state := Reconnecting;
    }

    method RequestRecovery(full: bool, settings: Option<seq<Region>>) returns (start: bool)
      modifies this
      ensures (View(), start) == Requested(old(View()), full, settings)
    {
      if full {
        SetReconnecting(settings);
      } else {
        SetResuming(settings);
      }
      if !(state == Resuming || state == Reconnecting) || recovering {
        return false;
      }
      recovering := true;
      return true;
    }

    method RecoveryWorkerShouldContinue() returns (goOn: bool)
      modifies this
      ensures (View(), goOn) == Settled(old(View()))
    {
      if state == Resuming || state == Reconnecting {
        return true;
      }
      recovering := false;
      return false;
    }

    method StopRecoveryWorker()
      modifies this
      ensures View() == Stopped(old(View()))
    {
      recovering := false;
    }

    method SetClosed()
      modifies this
      ensures View() == ClosedOff(old(View()))
    {
      regionSettings := None;
      state := Closed;
    }
  }
}
