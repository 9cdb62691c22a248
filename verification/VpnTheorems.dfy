/** The promises of the connection state machine, over whole runs (core/vpn/service.go). */
module VpnTheorems {
  import opened Options
  import opened Session
  import opened VpnService
  import opened Tunnel
  import opened VpnSystem
  import opened VpnInvariants

  // ---- the service state and the current session agree ----

  /** In every state of every run: the service is connecting, connected or reconnecting exactly
      when the current session is running, and then the session belongs to the active run, has
      not ended, ends its history with the service state, and its server may be neither updated
      nor deleted. */
  lemma LiveExactlyWhenRunning(ss: seq<Sys>, acts: seq<Action>, i: nat)
    requires IsRun(ss, acts) && i < |ss|
    ensures Inv(ss[i])
    ensures var v := ss[i].svc;
      && (Live(v.state) <==> v.session.Some? && Running(v.sessions[v.session.value]))
      && (Live(v.state) ==>
            && v.active.Some? && v.session == v.active
            && v.sessions[v.active.value].endedAt.None?
            && Last(v.sessions[v.active.value].history) == v.state
            && RunningTo(v, v.sessions[v.active.value].serverId))
  {
    RunInv(ss, acts, i);
    var s := ss[i];
    if s.svc.active.Some? {
      assert RunOk(s, s.svc.active.value);
    }
  }

  // ---- a run that lost the service never touches it again ----

  lemma ActiveOnlyAtBirth(s: Sys, a: Action, s': Sys, r: nat)
    requires Inv(s) && Step(s, a) == Some(s')
    requires r < |s.loops| && !IsActive(s, r)
    ensures |s.loops| <= |s'.loops| && !IsActive(s', r)
  {
    if a.LoopAction? {
      LoopStepFrame(s, a.r, a.ch, a.now, s');
      LoopStepEffect(s, a.r, a.ch, a.now, s');
      EffectFrame(s, a.r, a.now);
    }
  }

  lemma InactiveStepOfRun(ss: seq<Sys>, acts: seq<Action>, j: nat, r: nat)
    requires IsRun(ss, acts) && j < |acts|
    requires r < |ss[j].loops| && !IsActive(ss[j], r)
    ensures r < |ss[j + 1].loops| && !IsActive(ss[j + 1], r)
  {
    RunInv(ss, acts, j);
    assert Linked(ss[j], acts[j], ss[j + 1]);
    ActiveOnlyAtBirth(ss[j], acts[j], ss[j + 1], r);
  }

  /** Once a run is not the active one, it is not the active one in any later state. */
  lemma {:induction false} NeverActiveAgain(ss: seq<Sys>, acts: seq<Action>, i: nat, j: nat, r: nat)
    requires IsRun(ss, acts) && i <= j < |ss|
    requires r < |ss[i].loops| && !IsActive(ss[i], r)
    ensures r < |ss[j].loops| && !IsActive(ss[j], r)
    decreases j
  {
    if i == j {
    } else {
      NeverActiveAgain(ss, acts, i, j - 1, r);
      InactiveStepOfRun(ss, acts, j - 1, r);
    }
  }

  /** A step of a loop whose run is not active, whatever its counter, changes neither the service
      state, nor the active run, nor the current session or its contents. */
  lemma StaleLoopIsInert(s: Sys, r: nat, ch: Choice, now: Time, s': Sys)
    requires Inv(s) && !IsActive(s, r) && LoopStep(s, r, ch, now) == Some(s')
    ensures s'.svc.state == s.svc.state
    ensures s'.svc.active == s.svc.active
    ensures s'.svc.session == s.svc.session
    ensures |s'.svc.sessions| == |s.svc.sessions|
    ensures s.svc.session.Some? ==>
      s'.svc.sessions[s.svc.session.value] == s.svc.sessions[s.svc.session.value]
  {
    assert RunOk(s, r);
  }

  /** Both together, over a run: after run `r` lost the service, no step of its loop changes what
      a client of the service can observe. */
  lemma StaleRunIsInert(ss: seq<Sys>, acts: seq<Action>, i: nat, j: nat, r: nat)
    requires IsRun(ss, acts) && i <= j < |acts|
    requires r < |ss[i].loops| && !IsActive(ss[i], r)
    requires acts[j].LoopAction? && acts[j].r == r
    ensures Inv(ss[j]) && Inv(ss[j + 1])
    ensures var v, w := ss[j].svc, ss[j + 1].svc;
      && w.state == v.state && w.active == v.active && w.session == v.session
      && |w.sessions| == |v.sessions|
      && (v.session.Some? ==> w.sessions[v.session.value] == v.sessions[v.session.value])
  {
    NeverActiveAgain(ss, acts, i, j, r);
    RunInv(ss, acts, j);
    RunInv(ss, acts, j + 1);
    assert Linked(ss[j], acts[j], ss[j + 1]);
    StaleLoopIsInert(ss[j], r, acts[j].ch, acts[j].now, ss[j + 1]);
  }

  // ---- session histories ----

  lemma EndedStepFrozen(s: Sys, a: Action, s': Sys, r: nat)
    requires Inv(s) && Step(s, a) == Some(s')
    requires r < |s.loops| && s.svc.sessions[r].endedAt.Some?
    ensures r < |s'.svc.sessions| && s'.svc.sessions[r] == s.svc.sessions[r]
  {
    if a.LoopAction? {
      EndedLoopStepFrozen(s, a.r, a.ch, a.now, s', r);
    }
  }

  lemma EndedLoopStepFrozen(s: Sys, q: nat, ch: Choice, now: Time, s': Sys, r: nat)
    requires Inv(s) && LoopStep(s, q, ch, now) == Some(s')
    requires r < |s.loops| && s.svc.sessions[r].endedAt.Some?
    ensures r < |s'.svc.sessions| && s'.svc.sessions[r] == s.svc.sessions[r]
  {
    assert RunOk(s, q);
  }

  lemma EndedStepOfRun(ss: seq<Sys>, acts: seq<Action>, j: nat, r: nat)
    requires IsRun(ss, acts) && j < |acts|
    requires r < |ss[j].svc.sessions| && ss[j].svc.sessions[r].endedAt.Some?
    ensures r < |ss[j + 1].svc.sessions| && ss[j + 1].svc.sessions[r] == ss[j].svc.sessions[r]
  {
    RunInv(ss, acts, j);
    assert Linked(ss[j], acts[j], ss[j + 1]);
    EndedStepFrozen(ss[j], acts[j], ss[j + 1], r);
  }

  /** An ended session is never written again: neither its end time, nor its history, nor its
      error. */
  lemma {:induction false} EndedForever(ss: seq<Sys>, acts: seq<Action>, i: nat, j: nat, r: nat)
    requires IsRun(ss, acts) && i <= j < |ss|
    requires r < |ss[i].svc.sessions| && ss[i].svc.sessions[r].endedAt.Some?
    ensures r < |ss[j].svc.sessions| && ss[j].svc.sessions[r] == ss[i].svc.sessions[r]
    decreases j
  {
    if i == j {
    } else {
      EndedForever(ss, acts, i, j - 1, r);
      EndedStepOfRun(ss, acts, j - 1, r);
    }
  }

  /** Every session of every run: its history starts with Connecting and never returns to it, no
      two Connected entries are adjacent, Error can only be followed by one final Disconnected,
      Disconnected is final, and a finished loop leaves an ended session behind. */
  lemma HistoriesWellFormed(ss: seq<Sys>, acts: seq<Action>, i: nat, r: nat)
    requires IsRun(ss, acts) && i < |ss| && r < |ss[i].svc.sessions|
    ensures |ss[i].loops| == |ss[i].svc.sessions|
    ensures WellFormed(ss[i].svc.sessions[r].history)
    ensures var h := ss[i].svc.sessions[r].history;
      && h[0].Connecting?
      && (forall a, b :: 0 <= a < b < |h| ==>
            && !h[b].Connecting? && !h[a].Disconnected?
            && (h[a].Error? ==> b == |h| - 1 && h[b].Disconnected?)
            && (b == a + 1 && h[a].Connected? ==> !h[b].Connected?))
    ensures ss[i].loops[r].pc.Done? ==> ss[i].svc.sessions[r].endedAt.Some?
  {
    RunInv(ss, acts, i);
    assert RunOk(ss[i], r);
    var h := ss[i].svc.sessions[r].history;
    forall a, b | 0 <= a < b < |h|
      ensures !h[b].Connecting? && !h[a].Disconnected?
      ensures h[a].Error? ==> b == |h| - 1 && h[b].Disconnected?
      ensures b == a + 1 && h[a].Connected? ==> !h[b].Connected?
    {
      HistoryShape(h, a, b);
    }
  }

  // ---- Disconnect ----

  predicate InDisconnect(api: Api) {
    api.Resetting? || api.SendDisconnect? || api.AwaitDone? || api.Forcing? || api.ForceStopping?
  }

  /** Action `a` lets a Disconnect call return. */
  predicate DisconnectReturns(s: Sys, a: Action, s': Sys) {
    s'.api.Free? && (InDisconnect(s.api) || a.Disconnect?) && !a.LoopAction?
  }

  lemma DoneIsNotActive(s: Sys, q: nat)
    requires Inv(s) && q < |s.loops| && s.loops[q].pc.Done?
    ensures !IsActive(s, q)
  {
    assert RunOk(s, q);
  }

  lemma DisconnectStep(s: Sys, a: Action, s': Sys)
    requires Inv(s) && Step(s, a) == Some(s') && DisconnectReturns(s, a, s')
    ensures s'.svc.active.None?
  {
    if a.RunDone? {
      DoneIsNotActive(s, s.api.run);
    }
  }

  /** However Disconnect returns, with the command dropped, consumed or timed out: no run is
      active, the current session has ended, and the state is Disconnected or Error. */
  lemma DisconnectLeavesNothingActive(ss: seq<Sys>, acts: seq<Action>, i: nat)
    requires IsRun(ss, acts) && i < |acts|
    requires DisconnectReturns(ss[i], acts[i], ss[i + 1])
    ensures Inv(ss[i + 1])
    ensures var v := ss[i + 1].svc;
      && v.active.None?
      && (v.state.Disconnected? || v.state.Error?)
      && (v.session.Some? ==> v.sessions[v.session.value].endedAt.Some?)
  {
    RunInv(ss, acts, i);
    RunInv(ss, acts, i + 1);
    var s, s' := ss[i], ss[i + 1];
    assert Linked(s, acts[i], s');
    DisconnectStep(s, acts[i], s');
    if s'.svc.session.Some? {
      assert RunOk(s', s'.svc.session.value);
    }
  }

  // ---- the tunnel, in runs without timeouts ----

  predicate TimesOut(a: Action) { a.StaleTimeout? || a.DisconnectTimeout? }

  /** Counters at which the manager may track the run of the loop. */
  predicate MayTrack(pc: Pc) {
    match pc
    case AfterStart(ok) => ok
    case ToConnected => true
    case Waiting => true
    case CmdToReconnecting => true
    case CmdStopping => true
    case LostCheck => true
    case StopCheck(c) => c.TunnelLost?
    case Stopping(c) => c.TunnelLost?
    case TearingDown => true
    case TeardownStopping => true
    case _ => false
  }

  /** Counters at which it certainly does. */
  predicate MustTrack(pc: Pc) {
    (pc.AfterStart? && pc.ok) || pc.ToConnected? || pc.Waiting? || pc.CmdToReconnecting? || pc.LostCheck?
  }

  /** The tunnel while run `r` is active. */
  predicate Tracks(s: Sys, r: nat)
    requires Shaped(s) && r < |s.loops|
  {
    && (s.tunnel.Up? ==>
          && MayTrack(s.loops[r].pc)
          && s.tunnel == Up(s.svc.sessions[r].serverId, s.svc.sessions[r].mode))
    && (MustTrack(s.loops[r].pc) ==> s.tunnel.Up?)
  }

  /** Only the active loop is alive, and the tunnel is up only between its Start and its Stop. */
  ghost predicate OneLoop(s: Sys) {
    && Inv(s)
    && (forall r :: 0 <= r < |s.loops| && !IsActive(s, r) ==> s.loops[r].pc.ClosingDone? || s.loops[r].pc.Done?)
    && (s.svc.active.None? ==> s.tunnel.Idle?)
    && (s.svc.active.Some? ==> Tracks(s, s.svc.active.value))
    && (s.api.Committing? ==> s.svc.active.None?)
    && !s.api.Forcing? && !s.api.ForceStopping?
  }

  lemma LoopStepKeepsOneLoop(s: Sys, r: nat, ch: Choice, now: Time, s': Sys)
    requires OneLoop(s) && LoopStep(s, r, ch, now) == Some(s')
    ensures OneLoop(s')
  {
    LoopStepKeepsInv(s, r, ch, now, s');
    LoopStepFrame(s, r, ch, now, s');
    assert RunOk(s, r);
    if IsActive(s, r) {
      ActiveStepTracks(s, r, ch, now, s');
    }
  }

  lemma StepKeepsTunnel(s: Sys, r: nat, ch: Choice, now: Time, s': Sys)
    requires Shaped(s) && LoopStep(s, r, ch, now) == Some(s') && IsActive(s, r) && |s'.loops| == |s.loops|
    requires s.tunnel.Up? ==> MayTrack(s.loops[r].pc)
    requires MustTrack(s.loops[r].pc) ==> s.tunnel.Up?
    ensures s'.tunnel.Up? ==> MayTrack(s'.loops[r].pc)
    ensures s'.tunnel.Up? ==>
      s'.tunnel == s.tunnel || s'.tunnel == Up(s.svc.sessions[r].serverId, s.svc.sessions[r].mode)
    ensures MustTrack(s'.loops[r].pc) ==> s'.tunnel.Up?
  {
  }

  lemma ActiveStepTracks(s: Sys, r: nat, ch: Choice, now: Time, s': Sys)
    requires Shaped(s) && LoopStep(s, r, ch, now) == Some(s') && IsActive(s, r)
    requires Tracks(s, r)
    ensures s.loops[r].pc.Finishing? ==> s'.svc.active.None? && s'.tunnel.Idle?
    ensures !s.loops[r].pc.Finishing? ==> IsActive(s', r) && Shaped(s') && Tracks(s', r)
  {
    LoopStepFrame(s, r, ch, now, s');
    LoopStepEffect(s, r, ch, now, s');
    EffectFrame(s, r, now);
    StepKeepsTunnel(s, r, ch, now, s');
  }

  lemma ApiStepKeepsOneLoop(s: Sys, a: Action, s': Sys)
    requires OneLoop(s) && ApiStep(s, a) == Some(s') && !TimesOut(a)
    ensures OneLoop(s')
  {
    ApiStepKeepsInv(s, a, s');
    if a.StaleDone? {
      DoneIsNotActive(s, s.api.stale);
    }
    if s.api.ReapStop? && s.svc.active.Some? {
      assert RunOk(s, s.svc.active.value);
    }
  }

  lemma {:induction false} RunOneLoop(ss: seq<Sys>, acts: seq<Action>, i: nat)
    requires IsRun(ss, acts) && i < |ss|
    requires forall k :: 0 <= k < i ==> !TimesOut(acts[k])
    ensures OneLoop(ss[i])
  {
    if i == 0 {
    } else {
      RunOneLoop(ss, acts, i - 1);
      var s, a, s' := ss[i - 1], acts[i - 1], ss[i];
      assert Linked(s, a, s');
      if a.LoopAction? {
        LoopStepKeepsOneLoop(s, a.r, a.ch, a.now, s');
      } else {
        ApiStepKeepsOneLoop(s, a, s');
      }
    }
  }

  /** In a run in which no bounded wait has timed out: whenever no run is active the manager
      tracks nothing, whatever it tracks belongs to the active run, and while that run waits
      connected its tunnel is tracked. */
  lemma TunnelFollowsTheActiveRun(ss: seq<Sys>, acts: seq<Action>, i: nat)
    requires IsRun(ss, acts) && i < |ss|
    requires forall k :: 0 <= k < i ==> !TimesOut(acts[k])
    ensures Inv(ss[i])
    ensures ss[i].svc.active.None? ==> ss[i].tunnel.Idle?
    ensures ss[i].svc.active.Some? ==>
      && var r := ss[i].svc.active.value;
      && (ss[i].tunnel.Up? ==>
            ss[i].tunnel == Up(ss[i].svc.sessions[r].serverId, ss[i].svc.sessions[r].mode))
      && (ss[i].loops[r].pc.Waiting? ==> ss[i].tunnel.Up?)
  {
    RunOneLoop(ss, acts, i);
  }
}
