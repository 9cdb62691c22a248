/** The tunnel manager's tracked run (core/tunnel/manager.go). The runner behind it is the
    environment: whether a start succeeds is chosen from outside. */
module Tunnel {
  import opened Options
  import opened Session

  /** What the manager tracks: the server and mode of the run it believes is up. */
  datatype Tracked = Idle | Up(serverId: string, mode: ConnectionMode)

  /** `Start`: refused while a run is tracked, otherwise decided by the runner. */
  function Start(t: Tracked, serverId: string, mode: ConnectionMode, runnerOk: bool): (Tracked, bool) {
    if t.Up? || !runnerOk then (t, false) else (Up(serverId, mode), true)
  }

  class Manager {
    var profile: Option<string>
    var mode: Option<ConnectionMode>

    predicate Valid()
      reads this
    {
      profile.Some? <==> mode.Some?
    }

    function View(): Tracked
      requires Valid()
      reads this
    {
      if profile.None? then Idle else Up(profile.value, mode.value)
    }

    constructor ()
      ensures Valid() && View() == Idle
    {
      profile, mode := None, None;
    }

    method StartLocked(serverId: string, m: ConnectionMode, runnerOk: bool) returns (ok: bool)
      requires Valid()
      modifies this
      ensures Valid() && (View(), ok) == Start(old(View()), serverId, m, runnerOk)
      ensures ok <==> old(View()) == Idle && runnerOk
      ensures View() == if ok then Up(serverId, m) else old(View())
    {
      if profile.Some? {
        return false;
      }
      if !runnerOk {
        return false;
      }
      profile := Some(serverId);
      mode := Some(m);
      return true;
    }

    /** Always clears the tracked run, whatever the runner answers. */
    method StopLocked()
      requires Valid()
      modifies this
      ensures Valid() && View() == Idle
    {
      profile, mode := None, None;
    }
  }
}
