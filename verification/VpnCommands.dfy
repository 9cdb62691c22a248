/** What commands and settings do (core/vpn/service.go): a disconnect is obeyed, a reconnect starts
    over, the settings in force are the last ones set, and a session carries an error exactly when it
    recorded one. */
module VpnCommands {
  import opened Options
  import opened Session
  import opened VpnService
  import opened Tunnel
  import opened VpnSystem
  import opened VpnInvariants
  import opened VpnTheorems

  // ---- settings ----

  function LastAuto(acts: seq<Action>, i: nat): bool
    requires i <= |acts|
  {
    if i == 0 then true else if acts[i - 1].SetAuto? then acts[i - 1].on else LastAuto(acts, i - 1)
  }

  function LastMax(acts: seq<Action>, i: nat): int
    requires i <= |acts|
  {
    if i == 0 then 5 else if acts[i - 1].SetMax? then acts[i - 1].max else LastMax(acts, i - 1)
  }

  lemma SettingsStep(s: Sys, a: Action, s': Sys)
    requires Shaped(s) && Step(s, a) == Some(s')
    ensures s'.svc.auto == if a.SetAuto? then a.on else s.svc.auto
    ensures s'.svc.maxAttempts == if a.SetMax? then a.max else s.svc.maxAttempts
  {
    if a.LoopAction? {
      LoopStepEffect(s, a.r, a.ch, a.now, s');
      EffectFrame(s, a.r, a.now);
    }
  }

  /** Auto-reconnect is on and the limit 5 until set otherwise, and then what was set last. */
  lemma {:induction false} SettingsAreTheLastSet(ss: seq<Sys>, acts: seq<Action>, i: nat)
    requires IsRun(ss, acts) && i < |ss|
    ensures ss[i].svc.auto == LastAuto(acts, i) && ss[i].svc.maxAttempts == LastMax(acts, i)
  {
    if i == 0 {
    } else {
      SettingsAreTheLastSet(ss, acts, i - 1);
      assert Linked(ss[i - 1], acts[i - 1], ss[i]);
      SettingsStep(ss[i - 1], acts[i - 1], ss[i]);
    }
  }

  // ---- commands reach the buffer ----

  /** Disconnect and Reconnect post their command to the run that was active, unless its buffer is
      full; nobody else writes a buffer, and only the loop itself empties it. */
  lemma CommandsPosted(ss: seq<Sys>, acts: seq<Action>, i: nat, q: nat)
    requires IsRun(ss, acts) && i < |acts| && acts[i] == PostCommand && q < |ss[i].loops|
    requires ss[i].api == SendDisconnect(q) || ss[i].api == SendReconnect(q)
    ensures q < |ss[i + 1].loops|
    ensures ss[i + 1].loops[q].cmd ==
      if ss[i].loops[q].cmd.Some? then ss[i].loops[q].cmd
      else Some(if ss[i].api == SendDisconnect(q) then CmdDisconnect else CmdReconnect)
  {
    assert Linked(ss[i], acts[i], ss[i + 1]);
  }

  /** A request picks the active run. */
  lemma RequestsPickTheActive(ss: seq<Sys>, acts: seq<Action>, i: nat, q: nat)
    requires IsRun(ss, acts) && i < |acts| && ss[i].svc.active == Some(q)
    ensures acts[i] == Disconnect ==> ss[i + 1].api == SendDisconnect(q)
    ensures acts[i] == Reconnect && !ss[i].svc.state.Connecting? && !ss[i].svc.state.Disconnected? ==>
      ss[i + 1].api == SendReconnect(q)
    ensures acts[i] == Reconnect && (ss[i].svc.state.Connecting? || ss[i].svc.state.Disconnected?) ==>
      ss[i + 1] == ss[i]
  {
    assert Linked(ss[i], acts[i], ss[i + 1]);
  }

  /** With no run active Disconnect leaves the service disconnected, a stale Error included. */
  lemma DisconnectClearsError(ss: seq<Sys>, acts: seq<Action>, i: nat)
    requires IsRun(ss, acts) && i < |acts|
    ensures acts[i] == Disconnect && ss[i].svc.active.None? ==>
      if ss[i].svc.state.Disconnected? then ss[i + 1] == ss[i] else ss[i + 1].api == Resetting
    ensures acts[i] == Reset ==> ss[i + 1].svc.state.Disconnected? && ss[i + 1].api == Free
    ensures ss[i].api == Resetting && !acts[i].LoopAction? ==> acts[i] == Reset
  {
    assert Linked(ss[i], acts[i], ss[i + 1]);
  }

  // ---- reconnect ----

  /** A reconnect taken while connected: Reconnecting is recorded, the tunnel stopped, and the loop
      starts over with a fresh retry account. */
  lemma ReconnectWhileConnected(s: Sys, r: nat, now: Time, s1: Sys, s2: Sys, s3: Sys)
    requires Shaped(s) && IsActive(s, r) && r < |s.loops|
    requires s.loops[r].pc == Waiting && s.loops[r].cmd == Some(CmdReconnect)
    requires LoopStep(s, r, TakeCmd, now) == Some(s1)
    requires Shaped(s1) && LoopStep(s1, r, Go, now) == Some(s2)
    requires Shaped(s2) && LoopStep(s2, r, Go, now) == Some(s3)
    ensures |s3.loops| == |s.loops| && |s3.svc.sessions| == |s.svc.sessions|
    ensures s3.svc.state == Reconnecting && s3.svc.active == Some(r) && s3.tunnel == Idle
    ensures s3.svc.sessions[r].history == s.svc.sessions[r].history + [Reconnecting]
    ensures s3.loops[r].pc == CallStart && s3.loops[r].attempt == 0 && s3.loops[r].cmd == None
  {
  }

  /** One taken during a backoff cuts the backoff short and changes nothing else. */
  lemma ReconnectDuringBackoff(s: Sys, r: nat, now: Time, s1: Sys, s2: Sys)
    requires Shaped(s) && IsActive(s, r) && r < |s.loops|
    requires s.loops[r].pc == Backing && s.loops[r].cmd == Some(CmdReconnect)
    requires LoopStep(s, r, TakeCmd, now) == Some(s1)
    requires Shaped(s1) && LoopStep(s1, r, Go, now) == Some(s2)
    ensures |s2.loops| == |s.loops| && s2.svc == s.svc && s2.tunnel == s.tunnel
    ensures s2.loops[r] == s.loops[r].(pc := CallStart, cmd := None)
  {
  }

  /** Those steps are there to be taken. */
  lemma ReconnectEnabled(s: Sys, r: nat, now: Time)
    requires Shaped(s) && r < |s.loops| && s.loops[r].cmd.Some?
    ensures s.loops[r].pc == Waiting || s.loops[r].pc == Backing ==> LoopStep(s, r, TakeCmd, now).Some?
    ensures s.loops[r].pc == CmdToReconnecting || s.loops[r].pc == CmdStopping || s.loops[r].pc.BackoffCmd? ==>
      LoopStep(s, r, Go, now).Some?
  {
  }

  // ---- losses ----

  /** A loss seen while connected: the tunnel is stopped and the loop decides whether to retry. */
  lemma LossIsHandled(s: Sys, r: nat, now: Time, s1: Sys, s2: Sys, s3: Sys, s4: Sys)
    requires Shaped(s) && IsActive(s, r) && r < |s.loops| && s.loops[r].pc == Waiting
    requires LoopStep(s, r, LossSeen, now) == Some(s1)
    requires Shaped(s1) && LoopStep(s1, r, Go, now) == Some(s2)
    requires Shaped(s2) && LoopStep(s2, r, Go, now) == Some(s3)
    requires Shaped(s3) && LoopStep(s3, r, Go, now) == Some(s4)
    ensures |s4.loops| == |s.loops| && s4.tunnel == Idle && s4.svc == s.svc
    ensures s4.loops[r] == s.loops[r].(pc := Deciding(TunnelLost))
  {
  }

  /** No loop is ever stuck: until it is done it can take a step by itself, with a timer or a loss to
      wake it where it waits. */
  lemma NoLoopIsStuck(s: Sys, r: nat, now: Time)
    requires Shaped(s) && r < |s.loops| && !s.loops[r].pc.Done?
    ensures s.loops[r].pc.CallStart? ==> LoopStep(s, r, RunnerOk, now).Some? && LoopStep(s, r, RunnerErr, now).Some?
    ensures s.loops[r].pc.Waiting? ==> LoopStep(s, r, LossSeen, now).Some?
    ensures s.loops[r].pc.Backing? ==> LoopStep(s, r, Timer, now).Some?
    ensures !s.loops[r].pc.CallStart? && !s.loops[r].pc.Waiting? && !s.loops[r].pc.Backing? ==>
      LoopStep(s, r, Go, now).Some?
  {
  }

  // ---- disconnect ----

  predicate Exited(pc: Pc) { pc.Finishing? || pc.ClosingDone? || pc.Done? }

  predicate EndsDisconnected(sess: VPNSession) {
    sess.history != [] && Last(sess.history) == Disconnected && sess.endedAt.Some?
  }

  /** A loop that lost the service on its way has a disconnected session. */
  ghost predicate Gone(s: Sys) {
    && Inv(s)
    && forall r :: 0 <= r < |s.loops| && !IsActive(s, r) && !Exited(s.loops[r].pc) ==>
         EndsDisconnected(s.svc.sessions[r])
  }

  lemma EndedStays(s: Sys, a: Action, s': Sys, r: nat)
    requires Inv(s) && Step(s, a) == Some(s') && r < |s.loops| && s.svc.sessions[r].endedAt.Some?
    ensures r < |s'.loops| && r < |s'.svc.sessions| && s'.svc.sessions[r] == s.svc.sessions[r]
  {
    StepKeepsInv(s, a, s');
    EndedStepFrozen(s, a, s', r);
  }

  /** Who loses the service while on its way is closed as disconnected. */
  lemma LosesService(s: Sys, a: Action, s': Sys, r: nat)
    requires Inv(s) && Inv(s') && Step(s, a) == Some(s') && r < |s.loops| <= |s'.loops|
    requires IsActive(s, r) && !IsActive(s', r) && !Exited(s'.loops[r].pc)
    ensures EndsDisconnected(s'.svc.sessions[r])
  {
    assert RunOk(s, r) && RunOk(s', r);
    if a.LoopAction? {
      LoopStepFrame(s, a.r, a.ch, a.now, s');
      LoopStepEffect(s, a.r, a.ch, a.now, s');
      EffectFrame(s, a.r, a.now);
    } else {
      ApiTakesService(s, a, s', r);
    }
  }

  lemma ApiTakesService(s: Sys, a: Action, s': Sys, r: nat)
    requires Inv(s) && Inv(s') && ApiStep(s, a) == Some(s') && r < |s.loops| <= |s'.loops|
    requires IsActive(s, r) && !IsActive(s', r) && !Exited(s'.loops[r].pc)
    ensures EndsDisconnected(s'.svc.sessions[r])
  {
    assert RunOk(s, r);
    assert a.CommitConnect? || a.ForceNow?;
  }

  lemma StepKeepsGone(s: Sys, a: Action, s': Sys)
    requires Gone(s) && Step(s, a) == Some(s')
    ensures Gone(s')
  {
    StepKeepsInv(s, a, s');
    forall r | 0 <= r < |s'.loops| && !IsActive(s', r) && !Exited(s'.loops[r].pc)
      ensures EndsDisconnected(s'.svc.sessions[r])
    {
      LoopsOnlyGrow(s, a, s', r);
      if IsActive(s, r) {
        LosesService(s, a, s', r);
      } else {
        EndedStays(s, a, s', r);
      }
    }
  }

  /** A loop that is not active was there before, and once out it stays out. */
  lemma LoopsOnlyGrow(s: Sys, a: Action, s': Sys, r: nat)
    requires Inv(s) && Step(s, a) == Some(s') && r < |s'.loops| && !IsActive(s', r)
    ensures r < |s.loops| <= |s'.loops|
    ensures Exited(s.loops[r].pc) ==> Exited(s'.loops[r].pc)
  {
    if a.LoopAction? {
      LoopStepFrame(s, a.r, a.ch, a.now, s');
    }
  }

  lemma {:induction false} RunGone(ss: seq<Sys>, acts: seq<Action>, i: nat)
    requires IsRun(ss, acts) && i < |ss|
    ensures Gone(ss[i])
  {
    RunInv(ss, acts, i);
    if i == 0 {
    } else {
      RunGone(ss, acts, i - 1);
      assert Linked(ss[i - 1], acts[i - 1], ss[i]);
      StepKeepsGone(ss[i - 1], acts[i - 1], ss[i]);
    }
  }

  /** A loop that has taken a disconnect: it is on its way out, and its session is or will be closed as
      disconnected. */
  ghost predicate Obeying(s: Sys, r: nat) {
    && Shaped(s) && r < |s.loops|
    && var pc := s.loops[r].pc;
    && (pc == BackoffCmd(CmdDisconnect) || pc.TearingDown? || pc.TeardownStopping? || Exited(pc))
    && (pc.TeardownStopping? || Exited(pc) ==> LastDisconnected(s, r))
  }

  predicate LastDisconnected(s: Sys, r: nat) {
    && r < |s.svc.sessions| && s.svc.sessions[r].history != []
    && Last(s.svc.sessions[r].history) == Disconnected
  }

  /** A history that ends in Disconnected is that of an ended session. */
  lemma DisconnectedHasEnded(s: Sys, r: nat)
    requires Inv(s) && r < |s.loops| && LastDisconnected(s, r)
    ensures s.svc.sessions[r].endedAt.Some?
  {
    assert RunOk(s, r);
  }

  lemma DisconnectedStays(s: Sys, a: Action, s': Sys, r: nat)
    requires Inv(s) && Step(s, a) == Some(s') && r < |s.loops| && LastDisconnected(s, r)
    ensures LastDisconnected(s', r)
  {
    DisconnectedHasEnded(s, r);
    EndedStays(s, a, s', r);
  }

  lemma ObeyStep(s: Sys, r: nat, ch: Choice, now: Time, s': Sys)
    requires Gone(s) && Gone(s') && Obeying(s, r) && LoopStep(s, r, ch, now) == Some(s')
    ensures Obeying(s', r)
  {
    assert RunOk(s, r);
    LoopStepFrame(s, r, ch, now, s');
    if s.loops[r].pc.TeardownStopping? || Exited(s.loops[r].pc) {
      DisconnectedStays(s, LoopAction(r, ch, now), s', r);
    }
  }

  lemma OthersKeepObeying(s: Sys, a: Action, s': Sys, r: nat)
    requires Inv(s) && Inv(s') && Obeying(s, r) && Step(s, a) == Some(s') && !(a.LoopAction? && a.r == r)
    ensures Obeying(s', r)
  {
    OthersKeepCounter(s, a, s', r);
    if s.loops[r].pc.TeardownStopping? || Exited(s.loops[r].pc) {
      DisconnectedStays(s, a, s', r);
    }
  }

  lemma StepKeepsObeying(s: Sys, a: Action, s': Sys, r: nat)
    requires Gone(s) && Gone(s') && Obeying(s, r) && Step(s, a) == Some(s')
    ensures Obeying(s', r)
  {
    if a.LoopAction? && a.r == r {
      ObeyStep(s, r, a.ch, a.now, s');
    } else {
      OthersKeepObeying(s, a, s', r);
    }
  }

  lemma OthersKeepCounter(s: Sys, a: Action, s': Sys, r: nat)
    requires Inv(s) && Step(s, a) == Some(s') && r < |s.loops| && !(a.LoopAction? && a.r == r)
    ensures r < |s'.loops| && s'.loops[r].pc == s.loops[r].pc
  {
    if a.LoopAction? {
      LoopStepFrame(s, a.r, a.ch, a.now, s');
    }
  }

  lemma {:induction false} ObeysEverAfter(ss: seq<Sys>, acts: seq<Action>, i: nat, j: nat, r: nat)
    requires IsRun(ss, acts) && i <= j < |ss| && Obeying(ss[i], r)
    ensures Obeying(ss[j], r)
    decreases j
  {
    if i == j {
    } else {
      ObeysEverAfter(ss, acts, i, j - 1, r);
      RunGone(ss, acts, j - 1);
      RunGone(ss, acts, j);
      assert Linked(ss[j - 1], acts[j - 1], ss[j]);
      StepKeepsObeying(ss[j - 1], acts[j - 1], ss[j], r);
    }
  }

  /** A loop that takes a disconnect, connected or in a backoff, never calls Start again, and when it
      is done its session's last entry is Disconnected. */
  lemma DisconnectIsObeyed(ss: seq<Sys>, acts: seq<Action>, i: nat, j: nat, r: nat)
    requires IsRun(ss, acts) && i < |acts| && acts[i].LoopAction? && acts[i].r == r && acts[i].ch == TakeCmd
    requires r < |ss[i].loops| && ss[i].loops[r].cmd == Some(CmdDisconnect) && i < j < |ss|
    ensures r < |ss[j].loops| && r < |ss[j].svc.sessions|
    ensures !ss[j].loops[r].pc.CallStart?
    ensures ss[j].loops[r].pc.Done? ==> LastDisconnected(ss[j], r)
  {
    RunInv(ss, acts, i);
    RunInv(ss, acts, i + 1);
    assert Linked(ss[i], acts[i], ss[i + 1]);
    ObeysEverAfter(ss, acts, i + 1, j, r);
  }

  // ---- errors ----

  /** A session carries an error exactly when it recorded one. */
  ghost predicate ErrorsRecorded(s: Sys) {
    && Shaped(s)
    && forall r :: 0 <= r < |s.svc.sessions| ==> ErrorMatches(s.svc.sessions[r])
  }

  predicate ErrorMatches(sess: VPNSession) { sess.error.Some? <==> Error in sess.history }

  lemma RecordedMatches(sess: VPNSession, state: ConnectionState, err: Option<SessionError>)
    requires ErrorMatches(sess) && (state == Error ==> err.Some?)
    ensures ErrorMatches(Recorded(sess, state, err))
    ensures state == Error ==> Recorded(sess, state, err).error == err
  {
  }

  lemma ClosedMatches(sess: VPNSession, now: Time)
    requires ErrorMatches(sess)
    ensures ErrorMatches(Closed(sess, Disconnected, None, now)) && ErrorMatches(Ended(sess, now))
  {
  }

  lemma EffectKeepsErrors(s: Sys, q: nat, now: Time, r: nat)
    requires ErrorsRecorded(s) && q < |s.loops| && r < |s.svc.sessions|
    ensures var v := Effect(s, q, now); r < |v.sessions| && ErrorMatches(v.sessions[r])
  {
    assert ErrorMatches(s.svc.sessions[r]);
    ClosedMatches(s.svc.sessions[r], now);
    RecordedMatches(s.svc.sessions[r], Connected, None);
    RecordedMatches(s.svc.sessions[r], Reconnecting, None);
    RecordedMatches(s.svc.sessions[r], Reconnecting, START_FAILED);
    RecordedMatches(s.svc.sessions[r], Reconnecting, LOST);
    RecordedMatches(s.svc.sessions[r], Error, START_FAILED);
    RecordedMatches(s.svc.sessions[r], Error, LOST);
  }

  lemma StepKeepsErrors(s: Sys, a: Action, s': Sys)
    requires Inv(s) && ErrorsRecorded(s) && Step(s, a) == Some(s')
    ensures ErrorsRecorded(s')
  {
    StepKeepsInv(s, a, s');
    if a.LoopAction? {
      LoopStepEffect(s, a.r, a.ch, a.now, s');
      EffectFrame(s, a.r, a.now);
      forall r | 0 <= r < |s'.svc.sessions| ensures ErrorMatches(s'.svc.sessions[r]) {
        EffectKeepsErrors(s, a.r, a.now, r);
      }
    } else {
      forall r | 0 <= r < |s'.svc.sessions| ensures ErrorMatches(s'.svc.sessions[r]) {
        ApiKeepsErrors(s, a, s', r);
      }
    }
  }

  lemma ApiKeepsErrors(s: Sys, a: Action, s': Sys, r: nat)
    requires ErrorsRecorded(s) && ApiStep(s, a) == Some(s') && r < |s'.svc.sessions|
    ensures ErrorMatches(s'.svc.sessions[r])
  {
    if r < |s.svc.sessions| {
      assert ErrorMatches(s.svc.sessions[r]);
      if a.ForceNow? {
        ClosedMatches(s.svc.sessions[r], a.now);
      }
    }
  }

  /** In every state of every run. */
  lemma {:induction false} SessionErrorsExactly(ss: seq<Sys>, acts: seq<Action>, i: nat)
    requires IsRun(ss, acts) && i < |ss|
    ensures ErrorsRecorded(ss[i])
  {
    if i == 0 {
    } else {
      SessionErrorsExactly(ss, acts, i - 1);
      RunInv(ss, acts, i - 1);
      assert Linked(ss[i - 1], acts[i - 1], ss[i]);
      StepKeepsErrors(ss[i - 1], acts[i - 1], ss[i]);
    }
  }

  /** A run that gives up records Error with what made it give up: a lost tunnel or a failed start. */
  lemma GivingUpSaysWhy(ss: seq<Sys>, acts: seq<Action>, i: nat, r: nat)
    requires IsRun(ss, acts) && i < |acts| && acts[i].LoopAction? && acts[i].r == r
    requires r < |ss[i].loops| && r < |ss[i].svc.sessions| && ss[i].loops[r].pc.ToError? && ss[i].svc.active == Some(r)
    ensures r < |ss[i + 1].svc.sessions| && ss[i + 1].svc.state == Error
    ensures ss[i + 1].svc.sessions[r].history == ss[i].svc.sessions[r].history + [Error]
    ensures var why := if ss[i].loops[r].pc.cause.TunnelLost? then "tunnel: connection lost" else "start failed";
      ss[i + 1].svc.sessions[r].error == Some(SessionError("engine", why))
  {
    assert Linked(ss[i], acts[i], ss[i + 1]);
  }
}
