/** What API requests bring about (core/vpn/service.go): which server and mode a Connect runs, what
    commands make a loop do, which settings are in force, and which error a session carries. */
module VpnRequests {
  import opened Options
  import opened Session
  import opened VpnService
  import opened Tunnel
  import opened VpnSystem
  import opened VpnInvariants

  // ---- a run keeps its server and mode ----

  /** The session of run `r` is for server `id` in mode `m`. */
  predicate For(s: Sys, r: nat, id: string, m: ConnectionMode) {
    r < |s.svc.sessions| && s.svc.sessions[r].serverId == id && s.svc.sessions[r].mode == m
  }

  /** Run `r` has the same target in both. */
  predicate SameTarget(v: Svc, w: Svc, r: nat) {
    && r < |v.sessions| && r < |w.sessions|
    && w.sessions[r].serverId == v.sessions[r].serverId && w.sessions[r].mode == v.sessions[r].mode
  }

  lemma EffectKeepsTarget(s: Sys, q: nat, now: Time, r: nat)
    requires Shaped(s) && q < |s.loops| && r < |s.svc.sessions|
    ensures SameTarget(s.svc, Effect(s, q, now), r)
  {
  }

  lemma ApiKeepsTarget(s: Sys, a: Action, s': Sys, r: nat)
    requires Shaped(s) && ApiStep(s, a) == Some(s') && r < |s.svc.sessions|
    ensures SameTarget(s.svc, s'.svc, r)
  {
  }

  lemma StepKeepsTarget(s: Sys, a: Action, s': Sys, r: nat)
    requires Shaped(s) && Step(s, a) == Some(s') && r < |s.svc.sessions|
    ensures SameTarget(s.svc, s'.svc, r)
  {
    if a.LoopAction? {
      LoopStepEffect(s, a.r, a.ch, a.now, s');
      EffectKeepsTarget(s, a.r, a.now, r);
    } else {
      ApiKeepsTarget(s, a, s', r);
    }
  }

  lemma {:induction false} TargetKept(ss: seq<Sys>, acts: seq<Action>, i: nat, j: nat, r: nat, id: string,
                                      m: ConnectionMode)
    requires IsRun(ss, acts) && i <= j < |ss| && For(ss[i], r, id, m)
    ensures For(ss[j], r, id, m)
    decreases j
  {
    if i == j {
    } else {
      TargetKept(ss, acts, i, j - 1, r, id, m);
      assert Linked(ss[j - 1], acts[j - 1], ss[j]);
      StepKeepsTarget(ss[j - 1], acts[j - 1], ss[j], r);
    }
  }

  // ---- from the request to the run ----

  /** The API thread is inside a Connect for `id` in mode `m`. */
  predicate Requesting(api: Api, id: string, m: ConnectionMode) {
    || (api.ReapCancel? && api.serverId == id && api.mode == m)
    || (api.ReapStop? && api.serverId == id && api.mode == m)
    || (api.ReapWait? && api.serverId == id && api.mode == m)
    || (api.Committing? && api.serverId == id && api.mode == m)
  }

  lemma RequestStays(s: Sys, a: Action, s': Sys, id: string, m: ConnectionMode)
    requires Shaped(s) && Step(s, a) == Some(s') && Requesting(s.api, id, m)
    ensures Requesting(s'.api, id, m) || (a.CommitConnect? && s'.api.Free?)
  {
    if a.LoopAction? {
      LoopStepFrame(s, a.r, a.ch, a.now, s');
    }
  }

  /** The request made in step `i` is the one committed in step `j`: the API thread has not been free
      in between. */
  ghost predicate SameRequest(ss: seq<Sys>, acts: seq<Action>, i: nat, j: nat) {
    && IsRun(ss, acts) && i < j < |acts| && acts[j].CommitConnect?
    && forall k :: i < k <= j ==> !ss[k].api.Free?
  }

  lemma {:induction false} RequestReaches(ss: seq<Sys>, acts: seq<Action>, i: nat, j: nat, k: nat, id: string,
                                          m: ConnectionMode)
    requires SameRequest(ss, acts, i, j) && i < k <= j && Requesting(ss[i + 1].api, id, m)
    ensures Requesting(ss[k].api, id, m)
    decreases k
  {
    if k == i + 1 {
    } else {
      RequestReaches(ss, acts, i, j, k - 1, id, m);
      assert Linked(ss[k - 1], acts[k - 1], ss[k]);
      RequestStays(ss[k - 1], acts[k - 1], ss[k], id, m);
      assert !ss[k].api.Free?;
    }
  }

  /** A fresh run `r` is current and active, for server `id` in mode `m`, connecting, and about to
      call Start. */
  predicate Installed(s: Sys, r: nat, id: string, m: ConnectionMode) {
    && s.svc.active == Some(r) && s.svc.session == Some(r) && s.svc.state == Connecting
    && r < |s.svc.sessions| && r < |s.loops|
    && s.svc.sessions[r].serverId == id && s.svc.sessions[r].mode == m
    && s.svc.sessions[r].history == [Connecting]
    && s.svc.sessions[r].endedAt == None && s.svc.sessions[r].error == None
    && s.loops[r].pc == CallStart && s.loops[r].attempt == 0 && s.loops[r].cmd == None
  }

  lemma CommitInstalls(s: Sys, a: Action, s': Sys, id: string, m: ConnectionMode)
    requires Shaped(s) && a.CommitConnect? && Step(s, a) == Some(s') && Requesting(s.api, id, m)
    ensures Live(s.svc.state) ==> s'.svc == s.svc && s'.loops == s.loops && s'.tunnel == s.tunnel
    ensures !Live(s.svc.state) ==> Installed(s', |s.loops|, id, m)
  {
  }

  /** A successful Start of run `r`, at any later time, puts the tunnel up for its server and mode. */
  ghost predicate StartsFor(ss: seq<Sys>, acts: seq<Action>, j: nat, r: nat, id: string, m: ConnectionMode) {
    && |ss| == |acts| + 1
    && (forall k :: j < k < |ss| ==> For(ss[k], r, id, m))
    && (forall k {:trigger acts[k]} :: j < k < |acts| && StartSucceeds(ss[k], acts[k], ss[k + 1], r) ==>
          ss[k + 1].tunnel == Up(id, m))
  }

  /** Loop `r` returns from Start without an error in this step. */
  predicate StartSucceeds(s: Sys, a: Action, s': Sys, r: nat) {
    && a.LoopAction? && a.r == r && r < |s.loops| && r < |s'.loops|
    && s.loops[r].pc.CallStart? && s'.loops[r].pc == AfterStart(true)
  }

  lemma StartStep(s: Sys, a: Action, s': Sys, r: nat, id: string, m: ConnectionMode)
    requires Shaped(s) && Step(s, a) == Some(s') && For(s, r, id, m) && StartSucceeds(s, a, s', r)
    ensures s.tunnel == Idle && s'.tunnel == Up(id, m)
  {
  }

  lemma InstalledStarts(ss: seq<Sys>, acts: seq<Action>, j: nat, r: nat, id: string, m: ConnectionMode)
    requires IsRun(ss, acts) && j < |acts| && Installed(ss[j + 1], r, id, m)
    ensures StartsFor(ss, acts, j, r, id, m)
  {
    forall k | j < k < |ss| ensures For(ss[k], r, id, m) {
      TargetKept(ss, acts, j + 1, k, r, id, m);
    }
    forall k {:trigger acts[k]} | j < k < |acts| && StartSucceeds(ss[k], acts[k], ss[k + 1], r)
      ensures ss[k + 1].tunnel == Up(id, m)
    {
      assert Linked(ss[k], acts[k], ss[k + 1]);
      StartStep(ss[k], acts[k], ss[k + 1], r, id, m);
    }
  }

  /** What a request ends in: refused without a trace while the state is live, otherwise a fresh run
      for the server and mode that were asked for, which it keeps, and for which it starts. */
  ghost predicate Granted(ss: seq<Sys>, acts: seq<Action>, j: nat, id: string, m: ConnectionMode)
    requires |ss| == |acts| + 1 && j < |acts|
  {
    if Live(ss[j].svc.state) then
      ss[j + 1].svc == ss[j].svc && ss[j + 1].loops == ss[j].loops && ss[j + 1].tunnel == ss[j].tunnel
    else
      Installed(ss[j + 1], |ss[j].loops|, id, m) && StartsFor(ss, acts, j, |ss[j].loops|, id, m)
  }

  lemma RequestGranted(ss: seq<Sys>, acts: seq<Action>, i: nat, j: nat, id: string, m: ConnectionMode)
    requires SameRequest(ss, acts, i, j) && Requesting(ss[i + 1].api, id, m)
    ensures Granted(ss, acts, j, id, m)
  {
    RequestReaches(ss, acts, i, j, j, id, m);
    assert Linked(ss[j], acts[j], ss[j + 1]);
    CommitInstalls(ss[j], acts[j], ss[j + 1], id, m);
    if !Live(ss[j].svc.state) {
      InstalledStarts(ss, acts, j, |ss[j].loops|, id, m);
    }
  }

  /** Connect runs the server and the mode it was called with. */
  lemma ConnectRunsWhatWasAsked(ss: seq<Sys>, acts: seq<Action>, i: nat, j: nat, id: string, m: ConnectionMode)
    requires SameRequest(ss, acts, i, j) && acts[i] == Connect(id, m)
    ensures Granted(ss, acts, j, id, m)
  {
    assert Linked(ss[i], acts[i], ss[i + 1]);
    assert !ss[i + 1].api.Free?;
    RequestGranted(ss, acts, i, j, id, m);
  }

  /** And a Connect on a live state is refused at once. */
  lemma ConnectBusy(ss: seq<Sys>, acts: seq<Action>, i: nat)
    requires IsRun(ss, acts) && i < |acts| && acts[i].Connect? && Live(ss[i].svc.state)
    ensures ss[i + 1] == ss[i]
  {
    assert Linked(ss[i], acts[i], ss[i + 1]);
  }

  /** Reconnect out of Error, with no run left, runs server and mode of the current session again. */
  lemma ReconnectRunsTheSameAgain(ss: seq<Sys>, acts: seq<Action>, i: nat, j: nat, q: nat)
    requires SameRequest(ss, acts, i, j) && acts[i] == Reconnect
    requires ss[i].svc.state.Error? && ss[i].svc.active.None?
    requires ss[i].svc.session == Some(q) && q < |ss[i].svc.sessions|
    ensures Granted(ss, acts, j, ss[i].svc.sessions[q].serverId, ss[i].svc.sessions[q].mode)
  {
    assert Linked(ss[i], acts[i], ss[i + 1]);
    RequestGranted(ss, acts, i, j, ss[i].svc.sessions[q].serverId, ss[i].svc.sessions[q].mode);
  }
}
