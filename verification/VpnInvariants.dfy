/** What every reachable state of the connection state machine satisfies, and what every run
    of it preserves (core/vpn/service.go). */
module VpnInvariants {
  import opened Options
  import opened Session
  import opened VpnService
  import opened VpnSystem

  // ---- the inductive invariant ----

  /** What the session of the active run looks like while its loop stands at `pc`. */
  predicate ActiveAt(pc: Pc, state: ConnectionState, sess: VPNSession)
    requires sess.history != []
  {
    var last := Last(sess.history);
    var open := sess.endedAt.None? && state == last;
    match pc
    case CallStart => open && (last.Connecting? || last.Reconnecting?)
    case AfterStart(_) => open && (last.Connecting? || last.Reconnecting?)
    case ToConnected => open && (last.Connecting? || last.Reconnecting?)
    case StopCheck(c) => open && Before(c, last)
    case Stopping(c) => open && Before(c, last)
    case Deciding(c) => open && Before(c, last)
    case ToError(c) => open && Before(c, last)
    case ToReconnecting(c) => open && Before(c, last)
    case Waiting => open && last.Connected?
    case CmdToReconnecting => open && last.Connected?
    case LostCheck => open && last.Connected?
    case Backing => open && last.Reconnecting?
    case BackoffCmd(_) => open && last.Reconnecting?
    case BackoffOver => open && last.Reconnecting?
    case CmdStopping => open && last.Reconnecting?
    case TearingDown => open && (last.Connected? || last.Reconnecting?)
    case TeardownStopping => sess.endedAt.Some? && state.Disconnected? && last.Disconnected?
    case Finishing =>
      || (sess.endedAt.Some? && state.Disconnected? && last.Disconnected?)
      || (open && last.Error?)
    case ClosingDone => false
    case Done => false
  }

  /** The last recorded state while a failed start, or a loss, is being handled. */
  predicate Before(c: Cause, last: ConnectionState) {
    if c.TunnelLost? then last.Connected? else last.Connecting? || last.Reconnecting?
  }

  ghost predicate RunOk(s: Sys, r: nat)
    requires Shaped(s) && r < |s.loops|
  {
    var sess := s.svc.sessions[r];
    var pc := s.loops[r].pc;
    && WellFormed(sess.history)
    && (IsActive(s, r) ==> ActiveAt(pc, s.svc.state, sess))
    && (pc.ClosingDone? || pc.Done? ==> sess.endedAt.Some?)
    // A run that lost the service has ended, unless it was replaced on its way out of Error.
    && (!IsActive(s, r) && sess.endedAt.None? ==>
          pc.Finishing? && Last(sess.history).Error? && s.svc.session != Some(r))
  }

  ghost predicate ServiceOk(s: Sys)
    requires Shaped(s)
  {
    && (s.svc.active.Some? ==> s.svc.session == s.svc.active)
    && (s.svc.active.None? ==> !Live(s.svc.state))
    && (s.svc.session.None? ==> s.svc.state.Disconnected?)
  }

  /** What the API thread may rely on between its steps. */
  ghost predicate ApiOk(s: Sys)
    requires Shaped(s)
  {
    match s.api
    case ReapCancel(q, _, _) => !Live(s.svc.state) && (IsActive(s, q) || s.svc.active.None?)
    case ReapStop(q, _, _) => !Live(s.svc.state) && (IsActive(s, q) || s.svc.active.None?)
    case ReapWait(q, _, _) => !Live(s.svc.state) && (IsActive(s, q) || s.svc.active.None?)
    case Committing(_, _) => !Live(s.svc.state)
    case Resetting => s.svc.active.None?
    case SendDisconnect(q) => IsActive(s, q) || s.svc.active.None?
    case AwaitDone(q) => IsActive(s, q) || s.svc.active.None?
    case ForceStopping => s.svc.active.None?
    case _ => true
  }

  ghost predicate Inv(s: Sys) {
    && Shaped(s)
    && ServiceOk(s)
    && ApiOk(s)
    && (forall r :: 0 <= r < |s.loops| ==> RunOk(s, r))
    // A session that nobody runs any more is not live.
    && (s.svc.session.Some? && s.svc.active.None? ==> !Running(s.svc.sessions[s.svc.session.value]))
  }

  // ---- preservation ----

  /** A loop step that only moves the counter of loop `r` between two counters that say the same
      about its session. */
  lemma LoopStepKeepsInv(s: Sys, r: nat, ch: Choice, now: Time, s': Sys)
    requires Inv(s) && LoopStep(s, r, ch, now) == Some(s')
    ensures Inv(s')
  {
    var l := s.loops[r];
    assert RunOk(s, r);
    if IsActive(s, r) && (l.pc.ToConnected? || l.pc.ToError? || l.pc.ToReconnecting? || l.pc.CmdToReconnecting?) {
      TransitionKeepsInv(s, r, ch, now, s');
    } else if l.pc.TearingDown? && IsActive(s, r) {
      TeardownKeepsInv(s, r, ch, now, s');
    } else if l.pc.Finishing? {
      FinishKeepsInv(s, r, ch, now, s');
    } else {
      MoveKeepsInv(s, r, ch, now, s');
    }
  }

  /** What a step of loop `r` leaves alone. */
  lemma LoopStepFrame(s: Sys, r: nat, ch: Choice, now: Time, s': Sys)
    requires Shaped(s) && LoopStep(s, r, ch, now) == Some(s')
    ensures r < |s.loops| == |s'.loops| && s'.api == s.api
    ensures forall q :: 0 <= q < |s.loops| && q != r ==> s'.loops[q] == s.loops[q]
    ensures s'.loops[r].pc.ClosingDone? <==> s.loops[r].pc.Finishing?
    ensures s'.loops[r].pc.Done? ==> s.loops[r].pc.ClosingDone?
  {
  }

  /** What a step of loop `r` writes under the mutex, by its counter alone. */
  function Effect(s: Sys, r: nat, now: Time): Svc
    requires Shaped(s) && r < |s.loops|
  {
    match s.loops[r].pc
    case ToConnected => Transition(s.svc, r, Connected, None)
    case ToError(c) => Transition(s.svc, r, Error, ErrorOf(c))
    case ToReconnecting(c) => Transition(s.svc, r, Reconnecting, ErrorOf(c))
    case CmdToReconnecting => Transition(s.svc, r, Reconnecting, None)
    case TearingDown => Teardown(s.svc, r, Disconnected, None, now)
    case Finishing => Finish(s.svc, r, now)
    case _ => s.svc
  }

  lemma LoopStepEffect(s: Sys, r: nat, ch: Choice, now: Time, s': Sys)
    requires Shaped(s) && LoopStep(s, r, ch, now) == Some(s')
    ensures r < |s.loops| && s'.svc == Effect(s, r, now)
  {
  }

  /** No step of a loop retargets a session, adds one, or makes a run active. */
  lemma EffectFrame(s: Sys, r: nat, now: Time)
    requires Shaped(s) && r < |s.loops|
    ensures var v := Effect(s, r, now);
      && |v.sessions| == |s.svc.sessions| && v.session == s.svc.session
      && v.sessions[r].serverId == s.svc.sessions[r].serverId
      && v.sessions[r].mode == s.svc.sessions[r].mode
      && v.active == (if s.loops[r].pc.Finishing? && IsActive(s, r) then None else s.svc.active)
      && v.auto == s.svc.auto && v.maxAttempts == s.svc.maxAttempts
      && Allocated(v)
  {
  }

  lemma MoveKeepsActive(s: Sys, r: nat, ch: Choice, now: Time, s': Sys)
    requires Shaped(s) && LoopStep(s, r, ch, now) == Some(s') && IsActive(s, r)
    requires s.svc.sessions[r].history != [] && s'.svc == s.svc
    requires !s.loops[r].pc.Finishing?
    requires ActiveAt(s.loops[r].pc, s.svc.state, s.svc.sessions[r])
    ensures ActiveAt(s'.loops[r].pc, s.svc.state, s.svc.sessions[r])
  {
  }

  lemma MoveKeepsInv(s: Sys, r: nat, ch: Choice, now: Time, s': Sys)
    requires Inv(s) && LoopStep(s, r, ch, now) == Some(s')
    requires s'.svc == s.svc
    requires !s.loops[r].pc.Finishing?
    ensures Inv(s')
  {
    LoopStepFrame(s, r, ch, now, s');
    assert RunOk(s, r);
    if IsActive(s, r) {
      MoveKeepsActive(s, r, ch, now, s');
    }
    MoveKeepsRuns(s, r, s');
  }

  lemma MoveKeepsRuns(s: Sys, r: nat, s': Sys)
    requires Inv(s) && r < |s.loops| == |s'.loops| && s'.api == s.api && s'.svc == s.svc
    requires !s.loops[r].pc.Finishing?
    requires forall q :: 0 <= q < |s.loops| && q != r ==> s'.loops[q] == s.loops[q]
    requires IsActive(s, r) ==>
      RunOk(s, r) && ActiveAt(s'.loops[r].pc, s.svc.state, s.svc.sessions[r])
    requires !s'.loops[r].pc.ClosingDone?
    requires s'.loops[r].pc.Done? ==> s.loops[r].pc.ClosingDone?
    ensures Inv(s')
  {
    forall q | 0 <= q < |s'.loops| ensures RunOk(s', q) {
      assert RunOk(s, q);
    }
  }

  lemma TransitionKeepsInv(s: Sys, r: nat, ch: Choice, now: Time, s': Sys)
    requires Inv(s) && LoopStep(s, r, ch, now) == Some(s')
    requires IsActive(s, r)
    requires var pc := s.loops[r].pc; pc.ToConnected? || pc.ToError? || pc.ToReconnecting? || pc.CmdToReconnecting?
    ensures Inv(s')
  {
    assert RunOk(s, r);
    var h := s.svc.sessions[r].history;
    WellFormedAppend(h, s'.svc.state);
    forall q | 0 <= q < |s'.loops| ensures RunOk(s', q) {
      assert RunOk(s, q);
      assert q != r ==> s'.loops[q] == s.loops[q];
    }
  }

  lemma TeardownKeepsInv(s: Sys, r: nat, ch: Choice, now: Time, s': Sys)
    requires Inv(s) && LoopStep(s, r, ch, now) == Some(s')
    requires IsActive(s, r) && s.loops[r].pc.TearingDown?
    ensures Inv(s')
  {
    assert RunOk(s, r);
    WellFormedAppend(s.svc.sessions[r].history, Disconnected);
    forall q | 0 <= q < |s'.loops| ensures RunOk(s', q) {
      assert RunOk(s, q);
      assert q != r ==> s'.loops[q] == s.loops[q];
    }
  }

  lemma FinishKeepsInv(s: Sys, r: nat, ch: Choice, now: Time, s': Sys)
    requires Inv(s) && LoopStep(s, r, ch, now) == Some(s')
    requires s.loops[r].pc.Finishing?
    ensures Inv(s')
  {
    assert RunOk(s, r);
    assert s'.svc.sessions[r].history == s.svc.sessions[r].history;
    forall q | 0 <= q < |s'.loops| ensures RunOk(s', q) {
      assert RunOk(s, q);
      assert q != r ==> s'.loops[q] == s.loops[q];
    }
  }

  lemma ApiStepKeepsInv(s: Sys, a: Action, s': Sys)
    requires Inv(s) && ApiStep(s, a) == Some(s')
    ensures Inv(s')
  {
    if a.CommitConnect? {
      CommitKeepsInv(s, a, s');
    } else if a.ForceNow? {
      ForceKeepsInv(s, a, s');
    } else {
      ApiStepFrame(s, a, s');
      QuietApiKeepsInv(s, s');
    }
  }

  /** An API step that neither commits nor forces leaves every counter, session and pointer as it
      was; only a reset, with no run active, writes the state. */
  lemma ApiStepFrame(s: Sys, a: Action, s': Sys)
    requires Inv(s) && ApiStep(s, a) == Some(s') && !a.CommitConnect? && !a.ForceNow?
    ensures |s'.loops| == |s.loops|
    ensures forall q :: 0 <= q < |s.loops| ==> s'.loops[q].pc == s.loops[q].pc
    ensures s'.svc.active == s.svc.active && s'.svc.session == s.svc.session
    ensures s'.svc.sessions == s.svc.sessions
    ensures s'.svc.state == s.svc.state || (s.svc.active.None? && s'.svc.state.Disconnected?)
    ensures Shaped(s') && ApiOk(s')
  {
  }

  lemma QuietApiKeepsInv(s: Sys, s': Sys)
    requires Inv(s) && Shaped(s') && ApiOk(s')
    requires |s'.loops| == |s.loops|
    requires forall q :: 0 <= q < |s.loops| ==> s'.loops[q].pc == s.loops[q].pc
    requires s'.svc.active == s.svc.active && s'.svc.session == s.svc.session
    requires s'.svc.sessions == s.svc.sessions
    requires s'.svc.state == s.svc.state || (s.svc.active.None? && s'.svc.state.Disconnected?)
    ensures Inv(s')
  {
    forall q | 0 <= q < |s'.loops| ensures RunOk(s', q) {
      assert RunOk(s, q);
    }
  }

  lemma CommitKeepsInv(s: Sys, a: Action, s': Sys)
    requires Inv(s) && ApiStep(s, a) == Some(s') && a.CommitConnect?
    ensures Inv(s')
  {
    forall q | 0 <= q < |s'.loops| ensures RunOk(s', q) {
      if q < |s.loops| {
        assert RunOk(s, q);
        assert s'.svc.sessions[q] == s.svc.sessions[q];
      }
    }
  }

  lemma ForceKeepsInv(s: Sys, a: Action, s': Sys)
    requires Inv(s) && ApiStep(s, a) == Some(s') && a.ForceNow?
    ensures Inv(s')
  {
    if s.svc.active.Some? {
      var r := s.svc.active.value;
      assert RunOk(s, r);
      var sess := s.svc.sessions[r];
      if sess.endedAt.None? {
        WellFormedAppend(sess.history, Disconnected);
      }
    }
    forall q | 0 <= q < |s'.loops| ensures RunOk(s', q) {
      assert RunOk(s, q);
    }
  }

  lemma StepKeepsInv(s: Sys, a: Action, s': Sys)
    requires Inv(s) && Step(s, a) == Some(s')
    ensures Inv(s')
  {
    if a.LoopAction? {
      LoopStepKeepsInv(s, a.r, a.ch, a.now, s');
    } else {
      ApiStepKeepsInv(s, a, s');
    }
  }

  /** The invariant holds in every state of every run. */
  lemma {:induction false} RunInv(ss: seq<Sys>, acts: seq<Action>, i: nat)
    requires IsRun(ss, acts) && i < |ss|
    ensures Inv(ss[i])
  {
    if i == 0 {
    } else {
      RunInv(ss, acts, i - 1);
      assert Linked(ss[i - 1], acts[i - 1], ss[i]);
      StepKeepsInv(ss[i - 1], acts[i - 1], ss[i]);
    }
  }
}
