/** What the code does not promise once a bounded wait has timed out (core/vpn/service.go). The
    two reachable states below show that `TunnelFollowsTheActiveRun` needs its hypothesis, and
    that a replaced loop does touch the tunnel, whatever the comments beside `runLoop` and
    `stopIfActive` say; `VpnStale` has the exact conditions. */
module VpnRaces {
  import opened Options
  import opened Session
  import opened VpnService
  import opened Tunnel
  import opened VpnSystem

  /** Some run ends in `s`. */
  ghost predicate Reachable(s: Sys) {
    exists ss, acts :: IsRun(ss, acts) && ss[|acts|] == s
  }

  lemma InitReachable()
    ensures Reachable(INIT)
  {
    assert IsRun([INIT], []);
  }

  /** Equality, sequence by sequence. */
  predicate Same(s: Sys, t: Sys) {
    && s.loops == t.loops
    && s.svc.sessions == t.svc.sessions
    && s.svc.(sessions := []) == t.svc.(sessions := [])
    && s.tunnel == t.tunnel && s.api == t.api
  }

  lemma Take(s: Sys, a: Action, s': Sys)
    requires Reachable(s) && Shaped(s) && Step(s, a).Some? && Same(Step(s, a).value, s')
    ensures Reachable(s')
  {
    assert Step(s, a).value == s';
    var ss, acts :| IsRun(ss, acts) && ss[|acts|] == s;
    var more, ss' := acts + [a], ss + [s'];
    assert ss'[0] == ss[0];
    forall i | 0 <= i < |more| ensures Linked(ss'[i], more[i], ss'[i + 1]) {
      if i < |acts| {
        assert more[i] == acts[i] && ss'[i] == ss[i] && ss'[i + 1] == ss[i + 1];
      }
    }
    assert IsRun(ss', more) && ss'[|more|] == s';
  }

  function Next(r: nat): Action { LoopAction(r, Go, 0) }

  function Fresh(id: string): VPNSession { VPNSession(id, VPN, [Connecting], None, None) }

  /** The first run, to `id`, at counter `pc`. */
  function One(state: ConnectionState, active: Option<nat>, sess: VPNSession, pc: Pc, cmd: Option<Command>,
               cancelled: bool, tunnel: Tracked, api: Api): Sys
  {
    Sys(Svc(state, Some(0), active, [sess], true, DEFAULT_MAX_ATTEMPTS),
        [Loop(pc, cmd, cancelled, 0, 0, 0, 0)], tunnel, api)
  }

  lemma ConnectFirst(id: string)
    ensures Reachable(One(Connecting, Some(0), Fresh(id), CallStart, None, false, Idle, Free))
  {
    InitReachable();
    var s1 := INIT.(api := Committing(id, VPN));
    Take(INIT, Connect(id, VPN), s1);
    assert AddState(VPNSession(id, VPN, [], None, None), Connecting) == Fresh(id);
    Take(s1, CommitConnect, One(Connecting, Some(0), Fresh(id), CallStart, None, false, Idle, Free));
  }

  /** A Disconnect whose wait times out, from any point of the first run. */
  lemma ForcedDisconnect(state: ConnectionState, sess: VPNSession, pc: Pc, tunnel: Tracked)
    requires sess.endedAt.None?
    requires Reachable(One(state, Some(0), sess, pc, None, false, tunnel, Free))
    ensures Reachable(One(Disconnected, None, AddState(sess.(endedAt := Some(0)), Disconnected), pc,
                          Some(CmdDisconnect), true, Idle, Free))
  {
    var s0 := One(state, Some(0), sess, pc, None, false, tunnel, Free);
    var s1 := s0.(api := SendDisconnect(0));
    Take(s0, Disconnect, s1);
    var s2 := One(state, Some(0), sess, pc, Some(CmdDisconnect), false, tunnel, AwaitDone(0));
    Take(s1, PostCommand, s2);
    ForcedAfterPost(state, sess, pc, tunnel);
  }

  lemma ForcedAfterPost(state: ConnectionState, sess: VPNSession, pc: Pc, tunnel: Tracked)
    requires sess.endedAt.None?
    requires Reachable(One(state, Some(0), sess, pc, Some(CmdDisconnect), false, tunnel, AwaitDone(0)))
    ensures Reachable(One(Disconnected, None, AddState(sess.(endedAt := Some(0)), Disconnected), pc,
                          Some(CmdDisconnect), true, Idle, Free))
  {
    var closed := AddState(sess.(endedAt := Some(0)), Disconnected);
    var s2 := One(state, Some(0), sess, pc, Some(CmdDisconnect), false, tunnel, AwaitDone(0));
    var s3 := One(state, Some(0), sess, pc, Some(CmdDisconnect), false, tunnel, Forcing);
    Take(s2, DisconnectTimeout, s3);
    var s4 := One(Disconnected, None, closed, pc, Some(CmdDisconnect), true, tunnel, ForceStopping);
    Take(s3, ForceNow(0), s4);
    Take(s4, StopForced, One(Disconnected, None, closed, pc, Some(CmdDisconnect), true, Idle, Free));
  }

  /** Nothing runs, nothing will run, and the tunnel to `id` is up. */
  predicate Abandoned(s: Sys, id: string) {
    && s.svc.active.None? && s.svc.state.Disconnected? && s.api.Free?
    && (forall r :: 0 <= r < |s.loops| ==> s.loops[r].pc.Done?)
    && s.tunnel == Up(id, VPN)
  }

  /** A Disconnect that timed out with the loop about to call Start leaves the tunnel up for good:
      no run is active, every loop is done, nobody will stop it. */
  lemma LeftoverTunnel(id: string)
    ensures exists s :: Reachable(s) && Abandoned(s, id)
  {
    ConnectFirst(id);
    ForcedDisconnect(Connecting, Fresh(id), CallStart, Idle);
    var closed := AddState(Fresh(id).(endedAt := Some(0)), Disconnected);
    var s0 := One(Disconnected, None, closed, CallStart, Some(CmdDisconnect), true, Idle, Free);
    var s1 := One(Disconnected, None, closed, AfterStart(true), Some(CmdDisconnect), true, Up(id, VPN), Free);
    Take(s0, LoopAction(0, RunnerOk, 0), s1);
    var s2 := One(Disconnected, None, closed, Finishing, Some(CmdDisconnect), true, Up(id, VPN), Free);
    Take(s1, Next(0), s2);
    LoopExits(id, closed);
  }

  lemma LoopExits(id: string, closed: VPNSession)
    requires closed.endedAt.Some?
    requires Reachable(One(Disconnected, None, closed, Finishing, Some(CmdDisconnect), true, Up(id, VPN), Free))
    ensures exists s :: Reachable(s) && Abandoned(s, id)
  {
    var s2 := One(Disconnected, None, closed, Finishing, Some(CmdDisconnect), true, Up(id, VPN), Free);
    var s3 := One(Disconnected, None, closed, ClosingDone, Some(CmdDisconnect), true, Up(id, VPN), Free);
    Take(s2, Next(0), s3);
    var s4 := One(Disconnected, None, closed, Done, Some(CmdDisconnect), true, Up(id, VPN), Free);
    Take(s3, Next(0), s4);
    assert Reachable(s4) && Abandoned(s4, id);
  }

  /** The history of a session that connected and was then told to reconnect. */
  function Reconnected(id: string): VPNSession {
    VPNSession(id, VPN, [Connecting, Connected, Reconnecting], None, None)
  }

  lemma ReconnectFirst(id: string)
    ensures Reachable(One(Reconnecting, Some(0), Reconnected(id), CmdStopping, None, false, Up(id, VPN), Free))
  {
    ConnectFirst(id);
    var s0 := One(Connecting, Some(0), Fresh(id), CallStart, None, false, Idle, Free);
    var s1 := One(Connecting, Some(0), Fresh(id), AfterStart(true), None, false, Up(id, VPN), Free);
    Take(s0, LoopAction(0, RunnerOk, 0), s1);
    var s2 := One(Connecting, Some(0), Fresh(id), ToConnected, None, false, Up(id, VPN), Free);
    Take(s1, Next(0), s2);
    var up := Fresh(id).(history := [Connecting, Connected]);
    assert AddState(Fresh(id), Connected) == up;
    var s3 := One(Connected, Some(0), up, Waiting, None, false, Up(id, VPN), Free);
    Take(s2, Next(0), s3);
    ReconnectConnected(id, up);
  }

  lemma ReconnectConnected(id: string, up: VPNSession)
    requires up == Fresh(id).(history := [Connecting, Connected])
    requires Reachable(One(Connected, Some(0), up, Waiting, None, false, Up(id, VPN), Free))
    ensures Reachable(One(Reconnecting, Some(0), Reconnected(id), CmdStopping, None, false, Up(id, VPN), Free))
  {
    var s3 := One(Connected, Some(0), up, Waiting, None, false, Up(id, VPN), Free);
    var s4 := s3.(api := SendReconnect(0));
    Take(s3, Reconnect, s4);
    var s5 := One(Connected, Some(0), up, Waiting, Some(CmdReconnect), false, Up(id, VPN), Free);
    Take(s4, PostCommand, s5);
    var s6 := One(Connected, Some(0), up, CmdToReconnecting, None, false, Up(id, VPN), Free);
    Take(s5, LoopAction(0, TakeCmd, 0), s6);
    assert AddState(up, Reconnecting) == Reconnected(id);
    Take(s6, Next(0), One(Reconnecting, Some(0), Reconnected(id), CmdStopping, None, false, Up(id, VPN), Free));
  }

  /** A loop held up before the Stop of its reconnect command, and replaced in the meantime. */
  function Two(old0: VPNSession, id: string, pc0: Pc, state: ConnectionState, hist: seq<ConnectionState>,
               pc1: Pc, tunnel: Tracked): Sys
  {
    Sys(Svc(state, Some(1), Some(1), [old0, VPNSession(id, VPN, hist, None, None)], true, DEFAULT_MAX_ATTEMPTS),
        [Loop(pc0, Some(CmdDisconnect), true, 0, 0, 0, 0), Loop(pc1, None, false, 0, 0, 0, 0)], tunnel, Free)
  }

  lemma ConnectSecond(old0: VPNSession, id: string)
    requires Reachable(One(Disconnected, None, old0, CmdStopping, Some(CmdDisconnect), true, Idle, Free))
    ensures Reachable(Two(old0, id, CmdStopping, Connected, [Connecting, Connected], Waiting, Up(id, VPN)))
  {
    var s0 := One(Disconnected, None, old0, CmdStopping, Some(CmdDisconnect), true, Idle, Free);
    var s1 := s0.(api := Committing(id, VPN));
    Take(s0, Connect(id, VPN), s1);
    var s2 := Two(old0, id, CmdStopping, Connecting, [Connecting], CallStart, Idle);
    assert AddState(VPNSession(id, VPN, [], None, None), Connecting) == Fresh(id);
    Take(s1, CommitConnect, s2);
    var s3 := Two(old0, id, CmdStopping, Connecting, [Connecting], AfterStart(true), Up(id, VPN));
    Take(s2, LoopAction(1, RunnerOk, 0), s3);
    var s4 := Two(old0, id, CmdStopping, Connecting, [Connecting], ToConnected, Up(id, VPN));
    Take(s3, Next(1), s4);
    assert AddState(Fresh(id), Connected) == Fresh(id).(history := [Connecting, Connected]);
    Take(s4, Next(1), Two(old0, id, CmdStopping, Connected, [Connecting, Connected], Waiting, Up(id, VPN)));
  }

  /** The service is connected to `second`, the manager tracks `first`. */
  predicate Hijacked(s: Sys, first: string, second: string) {
    && s.svc.state.Connected? && s.svc.active == s.svc.session == Some(1)
    && |s.svc.sessions| == 2 && s.svc.sessions[1].serverId == second
    && s.tunnel == Up(first, VPN)
  }

  /** A replaced loop stops the tunnel of the session that replaced it and brings its own server
      back up: the service reports Connected to `second` while the manager tracks `first`. */
  lemma StaleLoopHijacksTunnel(first: string, second: string)
    ensures exists s :: Reachable(s) && Hijacked(s, first, second)
  {
    ReconnectFirst(first);
    ForcedDisconnect(Reconnecting, Reconnected(first), CmdStopping, Up(first, VPN));
    var old0 := AddState(Reconnected(first).(endedAt := Some(0)), Disconnected);
    ConnectSecond(old0, second);
    var s0 := Two(old0, second, CmdStopping, Connected, [Connecting, Connected], Waiting, Up(second, VPN));
    var s1 := Two(old0, second, CallStart, Connected, [Connecting, Connected], Waiting, Idle);
    Take(s0, Next(0), s1);
    var s2 := Two(old0, second, AfterStart(true), Connected, [Connecting, Connected], Waiting, Up(first, VPN));
    Take(s1, LoopAction(0, RunnerOk, 0), s2);
    assert Reachable(s2) && Hijacked(s2, first, second);
  }
}
