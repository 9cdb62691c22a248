/** How many failures the run loop retries and how long it waits (core/vpn/service.go). */
module VpnRetry {
  import opened Options
  import opened Session
  import opened VpnService
  import opened VpnSystem
  import opened VpnInvariants

  predicate ChangesSettings(a: Action) { a.SetAuto? || a.SetMax? }

  /** A start has failed and the failure has not been charged to `attempt` yet. */
  predicate Uncharged(pc: Pc) {
    match pc
    case AfterStart(ok) => !ok
    case StopCheck(c) => c.StartFailed?
    case Stopping(c) => c.StartFailed?
    case Deciding(c) => c.StartFailed?
    case ToError(c) => c.StartFailed?
    case _ => false
  }

  /** The loop is connected, or is handling what ended a connection. */
  predicate Fresh(pc: Pc) {
    match pc
    case ToConnected => true
    case Waiting => true
    case CmdToReconnecting => true
    case CmdStopping => true
    case LostCheck => true
    case StopCheck(c) => c.TunnelLost?
    case Stopping(c) => c.TunnelLost?
    case Deciding(c) => c.TunnelLost?
    case ToError(c) => c.TunnelLost?
    case _ => false
  }

  predicate Retrying(pc: Pc) {
    || pc.CallStart? || (pc.AfterStart? && pc.ok) || pc.ToReconnecting?
    || pc.Backing? || pc.BackoffCmd? || pc.BackoffOver?
  }

  /** `attempt` counts the consecutive failed starts, plus one when the streak was opened by a
      loss, and is 0 while connected; the backoff spent is that of the attempts charged. */
  ghost predicate Tally(l: Loop) {
    && (Fresh(l.pc) ==> l.attempt == 0 && l.fails == 0 && l.charge == 0)
    && (Uncharged(l.pc) ==> l.attempt + 1 == l.fails + l.charge)
    && (Retrying(l.pc) ==> l.attempt == l.fails + l.charge)
    && l.charge <= 1
    && l.slept == BackoffTotal(l.attempt)
  }

  ghost predicate AllTally(s: Sys) {
    Shaped(s) && forall r :: 0 <= r < |s.loops| ==> Tally(s.loops[r])
  }

  /** The steps that move `attempt` or the history variables. */
  lemma CountingStep(s: Sys, r: nat, ch: Choice, now: Time, s': Sys)
    requires Shaped(s) && r < |s.loops| && Tally(s.loops[r])
    requires var pc := s.loops[r].pc; pc.CallStart? || pc.AfterStart? || pc.Deciding? || pc.CmdStopping?
    requires LoopStep(s, r, ch, now) == Some(s')
    ensures |s'.loops| == |s.loops| && Tally(s'.loops[r])
  {
    var l := s.loops[r];
    assert BackoffTotal(0) == 0;
    assert BackoffTotal(l.attempt + 1) == BackoffTotal(l.attempt) + BackoffNanos(l.attempt);
  }

  /** Every other step only moves the counter, within its group or out of the loop. */
  lemma OtherStep(s: Sys, r: nat, ch: Choice, now: Time, s': Sys)
    requires Shaped(s) && r < |s.loops|
    requires var pc := s.loops[r].pc; !(pc.CallStart? || pc.AfterStart? || pc.Deciding? || pc.CmdStopping?)
    requires LoopStep(s, r, ch, now) == Some(s')
    ensures |s'.loops| == |s.loops|
    ensures var l, l' := s.loops[r], s'.loops[r];
      && l'.attempt == l.attempt && l'.fails == l.fails && l'.charge == l.charge && l'.slept == l.slept
      && (Fresh(l'.pc) ==> Fresh(l.pc))
      && (Uncharged(l'.pc) ==> Uncharged(l.pc))
      && (Retrying(l'.pc) ==> Retrying(l.pc))
  {
  }

  lemma LoopStepTally(s: Sys, r: nat, ch: Choice, now: Time, s': Sys)
    requires Shaped(s) && r < |s.loops| && Tally(s.loops[r])
    requires LoopStep(s, r, ch, now) == Some(s')
    ensures |s'.loops| == |s.loops| && Tally(s'.loops[r])
  {
    var pc := s.loops[r].pc;
    if pc.CallStart? || pc.AfterStart? || pc.Deciding? || pc.CmdStopping? {
      CountingStep(s, r, ch, now, s');
    } else {
      OtherStep(s, r, ch, now, s');
    }
  }

  /** What an API step leaves alone: the counters of every loop there is. New loops start at 0. */
  lemma ApiKeepsCounters(s: Sys, a: Action, s': Sys)
    requires Inv(s) && ApiStep(s, a) == Some(s')
    ensures |s.loops| <= |s'.loops|
    ensures forall q :: 0 <= q < |s.loops| ==>
      s'.loops[q].(cmd := None, cancelled := false) == s.loops[q].(cmd := None, cancelled := false)
    ensures forall q :: |s.loops| <= q < |s'.loops| ==> s'.loops[q] == NEW_LOOP
    ensures !ChangesSettings(a) ==> s'.svc.auto == s.svc.auto && s'.svc.maxAttempts == s.svc.maxAttempts
  {
  }

  lemma StepKeepsTally(s: Sys, a: Action, s': Sys)
    requires Inv(s) && AllTally(s) && Step(s, a) == Some(s')
    ensures AllTally(s')
  {
    StepKeepsInv(s, a, s');
    if a.LoopAction? {
      LoopStepFrame(s, a.r, a.ch, a.now, s');
      LoopStepTally(s, a.r, a.ch, a.now, s');
    } else {
      ApiKeepsCounters(s, a, s');
      assert BackoffTotal(0) == 0;
      assert Tally(NEW_LOOP);
      forall q | 0 <= q < |s'.loops| ensures Tally(s'.loops[q]) {
        if q < |s.loops| {
          SameCounters(s.loops[q], s'.loops[q]);
        }
      }
    }
  }

  lemma SameCounters(l: Loop, l': Loop)
    requires Tally(l) && l'.(cmd := None, cancelled := false) == l.(cmd := None, cancelled := false)
    ensures Tally(l')
  {
    assert l'.pc == l'.(cmd := None, cancelled := false).pc;
    assert l'.slept == l'.(cmd := None, cancelled := false).slept;
  }

  /** Every loop of every run, whenever the settings change. */
  lemma {:induction false} RunTally(ss: seq<Sys>, acts: seq<Action>, i: nat)
    requires IsRun(ss, acts) && i < |ss|
    ensures AllTally(ss[i])
  {
    if i == 0 {
    } else {
      RunTally(ss, acts, i - 1);
      RunInv(ss, acts, i - 1);
      assert Linked(ss[i - 1], acts[i - 1], ss[i]);
      StepKeepsTally(ss[i - 1], acts[i - 1], ss[i]);
    }
  }

  // ---- decisions ----

  /** Loop `r` takes its retry decision in step `i`. */
  ghost predicate Decides(ss: seq<Sys>, acts: seq<Action>, i: nat, r: nat) {
    && IsRun(ss, acts) && i < |acts|
    && acts[i].LoopAction? && acts[i].r == r < |ss[i].loops| && ss[i].loops[r].pc.Deciding?
  }

  lemma DecisionStep(ss: seq<Sys>, acts: seq<Action>, i: nat, r: nat)
    requires Decides(ss, acts, i, r)
    ensures Shaped(ss[i]) && Tally(ss[i].loops[r])
    ensures ss[i + 1] == Decide(ss[i], r, ss[i].loops[r].pc.cause)
  {
    RunTally(ss, acts, i);
    assert Linked(ss[i], acts[i], ss[i + 1]);
  }

  /** Every retry decision of every run, against the settings in force at that moment:
      - a tunnel loss ends in Error exactly when auto-reconnect is off;
      - a failed start ends in Error exactly when auto-reconnect is off or the streak exceeds the
        limit: more than MaxAttempts consecutive failed starts, a loss that opened the streak
        counting as one. */
  lemma RetryDecision(ss: seq<Sys>, acts: seq<Action>, i: nat, r: nat)
    requires Decides(ss, acts, i, r)
    ensures r < |ss[i + 1].loops|
    ensures var l, pc', auto, max := ss[i].loops[r], ss[i + 1].loops[r].pc, ss[i].svc.auto, ss[i].svc.maxAttempts;
      && (pc'.ToError? || pc'.ToReconnecting?)
      && (l.pc.cause.TunnelLost? ==> (pc'.ToError? <==> !auto))
      && (l.pc.cause.StartFailed? ==> (pc'.ToError? <==> !auto || (max > 0 && l.fails + l.charge > max)))
  {
    DecisionStep(ss, acts, i, r);
  }

  /** While a run waits connected it has no failure and no backoff on its account. */
  lemma ConnectedMeansNoFailures(ss: seq<Sys>, acts: seq<Action>, i: nat, r: nat)
    requires IsRun(ss, acts) && i < |ss| && r < |ss[i].loops| && ss[i].loops[r].pc.Waiting?
    ensures ss[i].loops[r].attempt == 0 && ss[i].loops[r].fails == 0 && ss[i].loops[r].slept == 0
  {
    RunTally(ss, acts, i);
    assert Tally(ss[i].loops[r]);
    assert BackoffTotal(0) == 0;
  }

  /** Under the default limit no decision adds more than 16 s of backoff. */
  lemma BackoffStepAtMost16Seconds(ss: seq<Sys>, acts: seq<Action>, i: nat, r: nat)
    requires Decides(ss, acts, i, r) && ss[i].svc.maxAttempts == DEFAULT_MAX_ATTEMPTS
    ensures r < |ss[i + 1].loops|
    ensures 0 <= ss[i + 1].loops[r].slept - ss[i].loops[r].slept <= 16 * SECOND
  {
    DecisionStep(ss, acts, i, r);
    var l := ss[i].loops[r];
    if l.attempt < DEFAULT_MAX_ATTEMPTS {
      DefaultStreakBound(l.attempt);
    }
  }

  // ---- with the settings left alone ----

  ghost predicate Within(l: Loop, max: int) { max > 0 ==> l.attempt <= max }

  /** No settings change between states `b` and `i` of the run. */
  ghost predicate SettingsFixed(acts: seq<Action>, b: nat, i: nat) {
    i <= |acts| && forall k :: b <= k < i ==> !ChangesSettings(acts[k])
  }

  lemma StepKeepsWithin(s: Sys, a: Action, s': Sys, b: nat)
    requires Inv(s) && Step(s, a) == Some(s') && !ChangesSettings(a)
    requires forall r :: b <= r < |s.loops| ==> Within(s.loops[r], s.svc.maxAttempts)
    ensures s'.svc.auto == s.svc.auto && s'.svc.maxAttempts == s.svc.maxAttempts
    ensures forall r :: b <= r < |s'.loops| ==> Within(s'.loops[r], s.svc.maxAttempts)
    ensures |s.loops| <= |s'.loops|
  {
    if a.LoopAction? {
      LoopStepFrame(s, a.r, a.ch, a.now, s');
      LoopStepEffect(s, a.r, a.ch, a.now, s');
      EffectFrame(s, a.r, a.now);
      LoopStepWithin(s, a.r, a.ch, a.now, s');
    } else {
      ApiKeepsCounters(s, a, s');
      forall r | b <= r < |s'.loops| ensures Within(s'.loops[r], s.svc.maxAttempts) {
        if r < |s.loops| {
          assert s'.loops[r].attempt == s'.loops[r].(cmd := None, cancelled := false).attempt;
        }
      }
    }
  }

  lemma LoopStepWithin(s: Sys, r: nat, ch: Choice, now: Time, s': Sys)
    requires Shaped(s) && LoopStep(s, r, ch, now) == Some(s')
    ensures r < |s.loops| == |s'.loops|
    ensures Within(s.loops[r], s.svc.maxAttempts) ==> Within(s'.loops[r], s.svc.maxAttempts)
  {
  }

  /** A loop born after state `b` stays within a limit that is not changed. */
  lemma {:induction false} RunWithin(ss: seq<Sys>, acts: seq<Action>, b: nat, i: nat)
    requires IsRun(ss, acts) && b <= i < |ss| && SettingsFixed(acts, b, i)
    ensures forall r :: |ss[b].loops| <= r < |ss[i].loops| ==> Within(ss[i].loops[r], ss[i].svc.maxAttempts)
    ensures ss[i].svc.auto == ss[b].svc.auto && ss[i].svc.maxAttempts == ss[b].svc.maxAttempts
    decreases i
  {
    if i == b {
    } else {
      RunWithin(ss, acts, b, i - 1);
      RunInv(ss, acts, i - 1);
      assert Linked(ss[i - 1], acts[i - 1], ss[i]);
      StepKeepsWithin(ss[i - 1], acts[i - 1], ss[i], |ss[b].loops|);
    }
  }

  /** For a run born after the settings were last changed (state `b`), "exceeds" is "reaches": a
      failed start ends in Error exactly after MaxAttempts + 1 consecutive failed starts, one fewer
      when a loss opened the streak. */
  lemma StreakLengthUnderFixedSettings(ss: seq<Sys>, acts: seq<Action>, b: nat, i: nat, r: nat)
    requires Decides(ss, acts, i, r) && b <= i && SettingsFixed(acts, b, i) && |ss[b].loops| <= r
    ensures r < |ss[i + 1].loops|
    ensures var l, pc', auto, max := ss[i].loops[r], ss[i + 1].loops[r].pc, ss[b].svc.auto, ss[b].svc.maxAttempts;
      l.pc.cause.StartFailed? ==> (pc'.ToError? <==> !auto || (max > 0 && l.fails + l.charge == max + 1))
  {
    RetryDecision(ss, acts, i, r);
    DecisionStep(ss, acts, i, r);
    RunWithin(ss, acts, b, i);
    assert Within(ss[i].loops[r], ss[i].svc.maxAttempts);
  }

  /** Under the default limit one failure streak of such a run waits at most 31 s in all. */
  lemma StreakWaitsAtMost31Seconds(ss: seq<Sys>, acts: seq<Action>, b: nat, i: nat, r: nat)
    requires IsRun(ss, acts) && b <= i < |ss| && SettingsFixed(acts, b, i)
    requires |ss[b].loops| <= r < |ss[i].loops|
    requires ss[b].svc.maxAttempts == DEFAULT_MAX_ATTEMPTS
    ensures ss[i].loops[r].slept <= 31 * SECOND
  {
    RunTally(ss, acts, i);
    RunWithin(ss, acts, b, i);
    assert Tally(ss[i].loops[r]) && Within(ss[i].loops[r], ss[i].svc.maxAttempts);
    DefaultStreakBound(ss[i].loops[r].attempt);
  }
}
