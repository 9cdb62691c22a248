/** What a replaced loop can still do to the tunnel (core/vpn/service.go): exactly which loops that
    are no longer active can stop it, and which can bring it up. The comments beside `runLoop` and
    `stopIfActive` say none can. */
module VpnStale {
  import opened Options
  import opened Session
  import opened Tunnel
  import opened VpnSystem
  import opened VpnInvariants
  import opened VpnTheorems

  // ---- the conditions ----

  /** A loop on its way to the unconditional Stop of a reconnect command. Once connected it gets
      there only if that command is already in its buffer: nobody posts to a replaced loop. */
  predicate Restarts(l: Loop) {
    || l.pc.CmdToReconnecting? || l.pc.CmdStopping?
    || ((l.pc.ToConnected? || l.pc.Waiting?) && l.cmd == Some(CmdReconnect))
  }

  /** A loop that can still reach a Start call. */
  predicate MayStart(l: Loop) { l.pc.CallStart? || Restarts(l) }

  /** A loop that can still reach a Stop call: its restart, or a Stop whose test it passed while it
      was active. */
  predicate MayStop(l: Loop) { l.pc.Stopping? || l.pc.TeardownStopping? || Restarts(l) }

  predicate Stale(s: Sys, r: nat) { r < |s.loops| && !IsActive(s, r) }

  predicate StaleStopper(s: Sys, q: nat) { Stale(s, q) && MayStop(s.loops[q]) }

  // ---- runs of stale loops ----

  /** Loop `r`, stale in `s`, takes a step to `s'`. */
  ghost predicate StaleStep(s: Sys, a: Action, s': Sys) {
    a.LoopAction? && Stale(s, a.r) && Linked(s, a, s')
  }

  /** Steps of loops that are not active, from `s` on. */
  ghost predicate StaleSteps(s: Sys, ss: seq<Sys>, acts: seq<Action>) {
    && |ss| == |acts| + 1
    && ss[0] == s
    && forall i {:trigger acts[i]} :: 0 <= i < |acts| ==> StaleStep(ss[i], acts[i], ss[i + 1])
  }

  /** The last step is a Start by loop `r` that brings the tunnel up. */
  ghost predicate EndsInStart(ss: seq<Sys>, acts: seq<Action>, r: nat) {
    && |ss| == |acts| + 1 && acts != []
    && var n := |acts|;
    && acts[n - 1].LoopAction? && acts[n - 1].r == r
    && ss[n - 1].tunnel.Idle? && ss[n].tunnel.Up?
  }

  /** Stale loops alone can get to the point where loop `r` brings the tunnel up. */
  ghost predicate CanStart(s: Sys, r: nat) {
    exists ss: seq<Sys>, acts: seq<Action> :: StaleSteps(s, ss, acts) && EndsInStart(ss, acts, r)
  }

  /** Stale loops alone can take the tunnel down. */
  ghost predicate CanStop(s: Sys) {
    exists ss: seq<Sys>, acts: seq<Action> :: StaleSteps(s, ss, acts) && ss[|acts|].tunnel.Idle?
  }

  // ---- nothing else happens ----

  /** One step of a stale loop: nobody becomes active or inactive, nobody gains an ability, and the
      tunnel changes only by somebody who had it. */
  lemma StaleStepFrame(s: Sys, r: nat, ch: Choice, now: Time, s': Sys)
    requires Shaped(s) && LoopStep(s, r, ch, now) == Some(s') && Stale(s, r)
    ensures |s'.loops| == |s.loops| && s'.svc.active == s.svc.active
    ensures MayStart(s'.loops[r]) ==> MayStart(s.loops[r])
    ensures MayStop(s'.loops[r]) ==> MayStop(s.loops[r])
    ensures s.tunnel.Up? && s'.tunnel.Idle? ==> MayStop(s.loops[r])
    ensures s.tunnel.Idle? && s'.tunnel.Up? ==> s.loops[r].pc.CallStart?
  {
    LoopStepFrame(s, r, ch, now, s');
    LoopStepEffect(s, r, ch, now, s');
    EffectFrame(s, r, now);
    StaleMoveStart(s, r, ch, now, s');
    StaleMoveStop(s, r, ch, now, s');
    StaleTouch(s, r, ch, now, s');
  }

  /** Where a stale loop can go. */
  lemma StaleMoveStart(s: Sys, r: nat, ch: Choice, now: Time, s': Sys)
    requires Shaped(s) && LoopStep(s, r, ch, now) == Some(s') && Stale(s, r) && |s'.loops| == |s.loops|
    ensures MayStart(s'.loops[r]) ==> MayStart(s.loops[r])
  {
  }

  lemma StaleMoveStop(s: Sys, r: nat, ch: Choice, now: Time, s': Sys)
    requires Shaped(s) && LoopStep(s, r, ch, now) == Some(s') && Stale(s, r) && |s'.loops| == |s.loops|
    ensures MayStop(s'.loops[r]) ==> MayStop(s.loops[r])
  {
  }

  /** What it does to the tunnel on the way. */
  lemma StaleTouch(s: Sys, r: nat, ch: Choice, now: Time, s': Sys)
    requires Shaped(s) && LoopStep(s, r, ch, now) == Some(s') && Stale(s, r)
    ensures s.tunnel.Up? && s'.tunnel.Idle? ==> MayStop(s.loops[r])
    ensures s.tunnel.Idle? && s'.tunnel.Up? ==> s.loops[r].pc.CallStart?
  {
  }

  /** No stale loop other than those of `s` can stop or start, and the set of stale loops stands. */
  ghost predicate NoMore(s: Sys, t: Sys) {
    && Shaped(t) && |t.loops| == |s.loops| && t.svc.active == s.svc.active
    && forall q :: 0 <= q < |s.loops| && Stale(s, q) ==>
         && (MayStart(t.loops[q]) ==> MayStart(s.loops[q]))
         && (MayStop(t.loops[q]) ==> MayStop(s.loops[q]))
  }

  lemma StaleStepNoMore(s: Sys, t: Sys, a: Action, t': Sys)
    requires NoMore(s, t) && Shaped(t') && StaleStep(t, a, t')
    ensures NoMore(s, t')
  {
    StaleStepFrame(t, a.r, a.ch, a.now, t');
    LoopStepFrame(t, a.r, a.ch, a.now, t');
    forall q | 0 <= q < |s.loops| && Stale(s, q)
      ensures MayStart(t'.loops[q]) ==> MayStart(s.loops[q])
      ensures MayStop(t'.loops[q]) ==> MayStop(s.loops[q])
    {
      if q != a.r {
        assert t'.loops[q] == t.loops[q];
      }
    }
  }

  lemma {:induction false} StaleStepsInv(s: Sys, ss: seq<Sys>, acts: seq<Action>, i: nat)
    requires Inv(s) && StaleSteps(s, ss, acts) && i < |ss|
    ensures Inv(ss[i]) && NoMore(s, ss[i])
  {
    if i == 0 {
    } else {
      StaleStepsInv(s, ss, acts, i - 1);
      var t, a, t' := ss[i - 1], acts[i - 1], ss[i];
      assert StaleStep(t, a, t');
      StepKeepsInv(t, a, t');
      StaleStepNoMore(s, t, a, t');
    }
  }

  /** As long as no stale loop of `s` may stop, a tunnel that is up stays up. */
  lemma {:induction false} StaysUp(s: Sys, ss: seq<Sys>, acts: seq<Action>, i: nat)
    requires Inv(s) && StaleSteps(s, ss, acts) && i < |ss|
    requires s.tunnel.Up? && forall q :: 0 <= q < |s.loops| ==> !StaleStopper(s, q)
    ensures ss[i].tunnel.Up?
  {
    if i == 0 {
    } else {
      StaysUp(s, ss, acts, i - 1);
      StaleStepsInv(s, ss, acts, i - 1);
      var t, a, t' := ss[i - 1], acts[i - 1], ss[i];
      assert StaleStep(t, a, t');
      StaleStepFrame(t, a.r, a.ch, a.now, t');
      assert !StaleStopper(s, a.r);
    }
  }

  /** The condition is necessary. */
  lemma StartNeeds(s: Sys, r: nat, ss: seq<Sys>, acts: seq<Action>)
    requires Inv(s) && StaleSteps(s, ss, acts) && EndsInStart(ss, acts, r)
    ensures Stale(s, r) && MayStart(s.loops[r])
    ensures s.tunnel.Idle? || exists q :: StaleStopper(s, q)
  {
    var n := |acts|;
    StaleStepsInv(s, ss, acts, n - 1);
    assert StaleStep(ss[n - 1], acts[n - 1], ss[n]);
    StaleStepFrame(ss[n - 1], r, acts[n - 1].ch, acts[n - 1].now, ss[n]);
    if s.tunnel.Up? && forall q :: 0 <= q < |s.loops| ==> !StaleStopper(s, q) {
      StaysUp(s, ss, acts, n - 1);
      assert false;
    }
  }

  // ---- and it does happen ----

  lemma FirstStart(s: Sys, r: nat, a: Action, s': Sys)
    requires StaleStep(s, a, s') && CanStart(s', r)
    ensures CanStart(s, r)
  {
    var ss: seq<Sys>, acts: seq<Action> :| StaleSteps(s', ss, acts) && EndsInStart(ss, acts, r);
    var tt, more := [s] + ss, [a] + acts;
    Prepended(s, a, s', ss, acts);
    assert tt[|more|] == ss[|acts|] && tt[|more| - 1] == ss[|acts| - 1];
    assert more[|more| - 1] == acts[|acts| - 1];
    assert StaleSteps(s, tt, more) && EndsInStart(tt, more, r);
  }

  lemma FirstStop(s: Sys, a: Action, s': Sys)
    requires StaleStep(s, a, s') && CanStop(s')
    ensures CanStop(s)
  {
    var ss: seq<Sys>, acts: seq<Action> :| StaleSteps(s', ss, acts) && ss[|acts|].tunnel.Idle?;
    Prepended(s, a, s', ss, acts);
    assert ([s] + ss)[|[a] + acts|] == ss[|acts|];
  }

  lemma Prepended(s: Sys, a: Action, s': Sys, ss: seq<Sys>, acts: seq<Action>)
    requires StaleStep(s, a, s') && StaleSteps(s', ss, acts)
    ensures StaleSteps(s, [s] + ss, [a] + acts)
  {
    var tt, more := [s] + ss, [a] + acts;
    forall i | 0 <= i < |more| ensures StaleStep(tt[i], more[i], tt[i + 1]) {
      if i > 0 {
        assert more[i] == acts[i - 1] && tt[i] == ss[i - 1] && tt[i + 1] == ss[i];
      }
    }
  }

  /** The choice that takes a loop that may start or stop one step closer. */
  function Onward(pc: Pc): Choice {
    match pc case CallStart => RunnerOk case Waiting => TakeCmd case _ => Go
  }

  /** How far such a loop is from its Stop call. */
  function Distance(pc: Pc): nat {
    match pc
    case ToConnected => 3
    case Waiting => 2
    case CmdToReconnecting => 1
    case _ => 0
  }

  /** A loop that restarts comes closer to its Stop, or makes it and is about to call Start. */
  lemma RestartStep(s: Sys, r: nat, s': Sys)
    requires Shaped(s) && Stale(s, r) && Restarts(s.loops[r])
    requires LoopStep(s, r, Onward(s.loops[r].pc), 0) == Some(s')
    ensures Stale(s', r) && |s'.loops| == |s.loops| && s'.svc.active == s.svc.active
    ensures s.loops[r].pc.CmdStopping? ==> s'.tunnel.Idle? && s'.loops[r].pc.CallStart?
    ensures !s.loops[r].pc.CmdStopping? ==>
      Restarts(s'.loops[r]) && Distance(s'.loops[r].pc) < Distance(s.loops[r].pc) && s'.tunnel == s.tunnel
    ensures forall q :: 0 <= q < |s.loops| && q != r ==> s'.loops[q] == s.loops[q]
  {
    LoopStepFrame(s, r, Onward(s.loops[r].pc), 0, s');
    LoopStepEffect(s, r, Onward(s.loops[r].pc), 0, s');
    EffectFrame(s, r, 0);
  }

  lemma RestartEnabled(s: Sys, r: nat)
    requires Shaped(s) && Stale(s, r) && MayStop(s.loops[r])
    ensures LoopStep(s, r, Onward(s.loops[r].pc), 0).Some?
  {
  }

  /** A loop at its Start call, with the tunnel idle. */
  lemma StartsNow(s: Sys, r: nat)
    requires Inv(s) && Stale(s, r) && s.loops[r].pc.CallStart? && s.tunnel.Idle?
    ensures CanStart(s, r)
  {
    var a := LoopAction(r, RunnerOk, 0);
    var s' := StartCall(s, r, true);
    assert LoopStep(s, r, RunnerOk, 0) == Some(s') && s'.tunnel.Up?;
    assert StaleStep(s, a, s');
    assert StaleSteps(s, [s, s'], [a]) && EndsInStart([s, s'], [a], r);
  }

  /** A loop that restarts stops the tunnel and brings it up again. */
  lemma {:induction false} RestartsByItself(s: Sys, r: nat)
    requires Inv(s) && Stale(s, r) && Restarts(s.loops[r])
    ensures CanStart(s, r) && CanStop(s)
    decreases Distance(s.loops[r].pc)
  {
    RestartEnabled(s, r);
    var a := LoopAction(r, Onward(s.loops[r].pc), 0);
    var s' := LoopStep(s, r, a.ch, 0).value;
    RestartStep(s, r, s');
    StepKeepsInv(s, a, s');
    if s.loops[r].pc.CmdStopping? {
      StartsNow(s', r);
      StoppedNow(s');
    } else {
      RestartsByItself(s', r);
    }
    FirstStart(s, r, a, s');
    FirstStop(s, a, s');
  }

  lemma StoppedNow(s: Sys)
    requires s.tunnel.Idle?
    ensures CanStop(s)
  {
    var none: seq<Action> := [];
    assert StaleSteps(s, [s], none) && [s][|none|] == s;
  }

  /** A loop past its test stops the tunnel and touches no other loop. */
  lemma StopStep(s: Sys, q: nat, s': Sys)
    requires Shaped(s) && Stale(s, q) && (s.loops[q].pc.Stopping? || s.loops[q].pc.TeardownStopping?)
    requires LoopStep(s, q, Go, 0) == Some(s')
    ensures s'.tunnel.Idle? && |s'.loops| == |s.loops| && s'.svc.active == s.svc.active
    ensures forall r :: 0 <= r < |s.loops| && r != q ==> s'.loops[r] == s.loops[r]
  {
  }

  lemma {:induction false} StopperStops(s: Sys, q: nat)
    requires Inv(s) && StaleStopper(s, q)
    ensures CanStop(s)
  {
    if Restarts(s.loops[q]) {
      RestartsByItself(s, q);
    } else {
      RestartEnabled(s, q);
      var a := LoopAction(q, Go, 0);
      var s' := LoopStep(s, q, Go, 0).value;
      StopStep(s, q, s');
      StoppedNow(s');
      FirstStop(s, a, s');
    }
  }

  /** Loop `q` clears the way for loop `r`, which is waiting to call Start. */
  lemma {:induction false} StopperLetsStart(s: Sys, q: nat, r: nat)
    requires Inv(s) && StaleStopper(s, q) && Stale(s, r) && s.loops[r].pc.CallStart?
    ensures CanStart(s, r)
    decreases Distance(s.loops[q].pc)
  {
    RestartEnabled(s, q);
    var a := LoopAction(q, Onward(s.loops[q].pc), 0);
    var s' := LoopStep(s, q, a.ch, 0).value;
    StepKeepsInv(s, a, s');
    if Restarts(s.loops[q]) {
      RestartStep(s, q, s');
    } else {
      StopStep(s, q, s');
    }
    assert s'.loops[r] == s.loops[r];
    if s'.tunnel.Idle? {
      StartsNow(s', r);
    } else {
      StopperLetsStart(s', q, r);
    }
    FirstStart(s, r, a, s');
  }

  // ---- the exact conditions ----

  /** In every state: stale loops alone can get loop `r` to bring the tunnel up exactly when `r` is
      stale and may start, and the tunnel is idle or some stale loop may stop it. */
  lemma StartExactly(s: Sys, r: nat)
    requires Inv(s)
    ensures CanStart(s, r) <==>
      Stale(s, r) && MayStart(s.loops[r]) && (s.tunnel.Idle? || exists q :: StaleStopper(s, q))
  {
    if CanStart(s, r) {
      var ss: seq<Sys>, acts: seq<Action> :| StaleSteps(s, ss, acts) && EndsInStart(ss, acts, r);
      StartNeeds(s, r, ss, acts);
    }
    if Stale(s, r) && MayStart(s.loops[r]) {
      if Restarts(s.loops[r]) {
        RestartsByItself(s, r);
      } else if s.tunnel.Idle? {
        StartsNow(s, r);
      } else if q :| StaleStopper(s, q) {
        StopperLetsStart(s, q, r);
      }
    }
  }

  /** And they can take a tunnel down exactly when one of them may stop. */
  lemma StopExactly(s: Sys)
    requires Inv(s) && s.tunnel.Up?
    ensures CanStop(s) <==> exists q :: StaleStopper(s, q)
  {
    if CanStop(s) {
      var ss: seq<Sys>, acts: seq<Action> :| StaleSteps(s, ss, acts) && ss[|acts|].tunnel.Idle?;
      if forall q :: 0 <= q < |s.loops| ==> !StaleStopper(s, q) {
        StaysUp(s, ss, acts, |acts|);
        assert false;
      }
    }
    if q :| StaleStopper(s, q) {
      StopperStops(s, q);
    }
  }

  // ---- what it means for the service ----

  /** A client of the service sees no difference, and no session changes its target. */
  predicate SameService(s: Sys, t: Sys)
    requires Shaped(s) && Shaped(t)
  {
    && t.svc.state == s.svc.state && t.svc.active == s.svc.active && t.svc.session == s.svc.session
    && |t.svc.sessions| == |s.svc.sessions|
    && (s.svc.session.Some? ==> t.svc.sessions[s.svc.session.value] == s.svc.sessions[s.svc.session.value])
    && forall q :: 0 <= q < |s.svc.sessions| ==> Target(t, q) == Target(s, q)
  }

  /** The server and mode of run `q`, as the tunnel manager would track them. */
  function Target(s: Sys, q: nat): Tracked
    requires Shaped(s) && q < |s.svc.sessions|
  {
    Up(s.svc.sessions[q].serverId, s.svc.sessions[q].mode)
  }

  lemma EffectKeepsTargets(s: Sys, r: nat, now: Time)
    requires Shaped(s) && r < |s.loops|
    ensures var v := Effect(s, r, now);
      && |v.sessions| == |s.svc.sessions|
      && forall q :: 0 <= q < |v.sessions| ==>
           v.sessions[q].serverId == s.svc.sessions[q].serverId && v.sessions[q].mode == s.svc.sessions[q].mode
  {
    EffectFrame(s, r, now);
  }

  lemma StaleStepKeepsService(s: Sys, a: Action, s': Sys)
    requires Inv(s) && Inv(s') && StaleStep(s, a, s')
    ensures SameService(s, s')
  {
    StaleLoopIsInert(s, a.r, a.ch, a.now, s');
    LoopStepEffect(s, a.r, a.ch, a.now, s');
    EffectKeepsTargets(s, a.r, a.now);
  }

  lemma SameServiceTransitive(s: Sys, t: Sys, u: Sys)
    requires Shaped(s) && Shaped(t) && Shaped(u) && SameService(s, t) && SameService(t, u)
    ensures SameService(s, u)
  {
    forall q | 0 <= q < |s.svc.sessions| ensures Target(u, q) == Target(s, q) {
      assert Target(t, q) == Target(s, q);
    }
  }

  lemma {:induction false} StaleStepsKeepService(s: Sys, ss: seq<Sys>, acts: seq<Action>, i: nat)
    requires Inv(s) && StaleSteps(s, ss, acts) && i < |ss|
    ensures Inv(ss[i]) && SameService(s, ss[i])
  {
    StaleStepsInv(s, ss, acts, i);
    if i == 0 {
    } else {
      StaleStepsKeepService(s, ss, acts, i - 1);
      assert StaleStep(ss[i - 1], acts[i - 1], ss[i]);
      StaleStepKeepsService(ss[i - 1], acts[i - 1], ss[i]);
      SameServiceTransitive(s, ss[i - 1], ss[i]);
    }
  }

  /** The last step of `acts` is the Start of `r`, and then the manager tracks the server of run `r`
      while the service reports what it reported in `s`. */
  ghost predicate Takeover(s: Sys, ss: seq<Sys>, acts: seq<Action>, r: nat)
    requires Shaped(s)
  {
    && StaleSteps(s, ss, acts) && EndsInStart(ss, acts, r)
    && r < |s.svc.sessions| && Shaped(ss[|acts|])
    && ss[|acts|].tunnel == Target(s, r) && SameService(s, ss[|acts|])
  }

  lemma StartIsTakeover(s: Sys, ss: seq<Sys>, acts: seq<Action>, r: nat)
    requires Inv(s) && StaleSteps(s, ss, acts) && EndsInStart(ss, acts, r)
    ensures Takeover(s, ss, acts, r)
  {
    var n := |acts|;
    StaleStepsKeepService(s, ss, acts, n - 1);
    StaleStepsKeepService(s, ss, acts, n);
    StaleStepsInv(s, ss, acts, n - 1);
    assert StaleStep(ss[n - 1], acts[n - 1], ss[n]);
    StartTracksOwn(ss[n - 1], acts[n - 1], ss[n]);
    assert Target(ss[n - 1], r) == Target(s, r);
  }

  lemma StartTracksOwn(s: Sys, a: Action, s': Sys)
    requires StaleStep(s, a, s') && s.tunnel.Idle? && s'.tunnel.Up?
    ensures s'.tunnel == Target(s, a.r)
  {
  }

  /** In every state of every run, with or without an active run: the server of a replaced run `r`
      can take over the tunnel behind the service's back, by steps of replaced loops alone, exactly
      when `r` may start and the tunnel is idle or some replaced loop may stop it. */
  lemma TakeoverExactly(ss: seq<Sys>, acts: seq<Action>, i: nat, r: nat)
    requires IsRun(ss, acts) && i < |ss|
    ensures Inv(ss[i])
    ensures (exists tt: seq<Sys>, more: seq<Action> :: Takeover(ss[i], tt, more, r)) <==>
      Stale(ss[i], r) && MayStart(ss[i].loops[r]) && (ss[i].tunnel.Idle? || exists q :: StaleStopper(ss[i], q))
  {
    RunInv(ss, acts, i);
    var s := ss[i];
    StartExactly(s, r);
    if CanStart(s, r) {
      var tt: seq<Sys>, more: seq<Action> :| StaleSteps(s, tt, more) && EndsInStart(tt, more, r);
      StartIsTakeover(s, tt, more, r);
    }
    if tt: seq<Sys>, more: seq<Action> :| Takeover(s, tt, more, r) {
      assert CanStart(s, r);
    }
  }

  /** And the tunnel of whoever is active is safe from replaced loops exactly when none may stop. */
  lemma TunnelSafeExactly(ss: seq<Sys>, acts: seq<Action>, i: nat)
    requires IsRun(ss, acts) && i < |ss| && ss[i].tunnel.Up?
    ensures CanStop(ss[i]) <==> exists q :: StaleStopper(ss[i], q)
  {
    RunInv(ss, acts, i);
    StopExactly(ss[i]);
  }

  /** With no run active and the tunnel idle, the loops left behind can get loop `r` to bring the
      tunnel up, with nobody to take it down, exactly when `r` may start. */
  lemma LeftoverExactly(ss: seq<Sys>, acts: seq<Action>, i: nat, r: nat)
    requires IsRun(ss, acts) && i < |ss| && ss[i].svc.active.None? && ss[i].tunnel.Idle?
    ensures CanStart(ss[i], r) <==> r < |ss[i].loops| && MayStart(ss[i].loops[r])
  {
    RunInv(ss, acts, i);
    StartExactly(ss[i], r);
  }

  /** That is the state in which a forced Disconnect returns. */
  lemma ForcedDisconnectLeftover(ss: seq<Sys>, acts: seq<Action>, i: nat, r: nat)
    requires IsRun(ss, acts) && i < |acts| && acts[i].StopForced?
    ensures ss[i + 1].svc.active.None? && ss[i + 1].tunnel.Idle? && ss[i + 1].api.Free?
    ensures CanStart(ss[i + 1], r) <==> r < |ss[i + 1].loops| && MayStart(ss[i + 1].loops[r])
  {
    RunInv(ss, acts, i);
    assert Linked(ss[i], acts[i], ss[i + 1]);
    LeftoverExactly(ss, acts, i + 1, r);
  }
}
