/** The state `Service` keeps under its mutex, and the critical sections that change it
    (core/vpn/service.go).

    Run `r` and its session are allocated together by Connect, so both are named by the same
    index: `sessions[r]` is the session of run `r`, and `active == Some(r)` is the pointer test
    `s.active == rs`. */
module VpnService {
  import opened Options
  import opened Session

  datatype Svc = Svc(
    state: ConnectionState,
    session: Option<nat>,
    active: Option<nat>,
    sessions: seq<VPNSession>,
    auto: bool,
    maxAttempts: int)

  const INITIAL: Svc := Svc(Disconnected, None, None, [], true, DEFAULT_MAX_ATTEMPTS)

  const DEFAULT_MAX_ATTEMPTS := 5

  predicate Allocated(v: Svc) {
    && (v.active.Some? ==> v.active.value < |v.sessions|)
    && (v.session.Some? ==> v.session.value < |v.sessions|)
  }

  function Recorded(sess: VPNSession, state: ConnectionState, err: Option<SessionError>): VPNSession {
    var added := AddState(sess, state);
    if state.Error? && err.Some? then added.(error := err) else added
  }

  /** `transition`: a run that is no longer active changes nothing. */
  function Transition(v: Svc, r: nat, state: ConnectionState, err: Option<SessionError>): Svc
    requires r < |v.sessions|
  {
    if v.active != Some(r) then v
    else v.(state := state, sessions := v.sessions[r := Recorded(v.sessions[r], state, err)])
  }

  function Ended(sess: VPNSession, now: Time): VPNSession {
    if sess.endedAt.None? then sess.(endedAt := Some(now)) else sess
  }

  /** End time and a final history entry, unless the session has ended already. */
  function Closed(sess: VPNSession, state: ConnectionState, err: Option<SessionError>, now: Time): VPNSession {
    if sess.endedAt.Some? then sess
    else
      var ended := sess.(endedAt := Some(now), error := if err.Some? then err else sess.error);
      AddState(ended, state)
  }

  /** The locked part of `teardown`. */
  function Teardown(v: Svc, r: nat, state: ConnectionState, err: Option<SessionError>, now: Time): Svc
    requires r < |v.sessions|
  {
    if v.active != Some(r) then v
    else v.(state := state, sessions := v.sessions[r := Closed(v.sessions[r], state, err, now)])
  }

  /** The locked part of `finish`. */
  function Finish(v: Svc, r: nat, now: Time): Svc
    requires r < |v.sessions|
  {
    v.(active := if v.active == Some(r) then None else v.active,
       sessions := v.sessions[r := Ended(v.sessions[r], now)])
  }

  /** The locked part of `forceDisconnect`. */
  function Force(v: Svc, now: Time): Svc
    requires Allocated(v)
  {
    if v.active.None? then v
    else
      var r := v.active.value;
      v.(active := None, state := Disconnected,
         sessions := v.sessions[r := Closed(v.sessions[r], Disconnected, None, now)])
  }

  /** The second locked part of `Connect`: refused while a session is live, otherwise a fresh
      session and run become the current ones. */
  function Commit(v: Svc, serverId: string, mode: ConnectionMode): Svc {
    if Live(v.state) then v
    else
      var sess := AddState(VPNSession(serverId, mode, [], None, None), Connecting);
      v.(state := Connecting, session := Some(|v.sessions|), active := Some(|v.sessions|),
         sessions := v.sessions + [sess])
  }

  predicate RunningTo(v: Svc, serverId: string)
    requires Allocated(v)
  {
    && v.session.Some?
    && Running(v.sessions[v.session.value])
    && v.sessions[v.session.value].serverId == serverId
  }

  predicate ShouldRetry(auto: bool, max: int, attempt: int) {
    auto && (max <= 0 || attempt < max)
  }

  // ---- backoff ----

  const SECOND := 1_000_000_000

  function Pow2(n: nat): nat {
    if n == 0 then 1 else 2 * Pow2(n - 1)
  }

  function BackoffExponent(attempt: int): nat {
    if attempt < 0 then 0 else if attempt > 5 then 5 else attempt
  }

  /** Nanoseconds to wait after failed attempt `attempt`. */
  function BackoffNanos(attempt: int): nat {
    Pow2(BackoffExponent(attempt)) * SECOND
  }

  /** Total wait after attempts 0 .. n-1. */
  function BackoffTotal(n: nat): nat {
    if n == 0 then 0 else BackoffTotal(n - 1) + BackoffNanos(n - 1)
  }

  /** The doubling loop stops at 32 s: the guard `d < 30 s` lets 16 s double once more. */
  method Backoff(attempt: int) returns (d: int)
    ensures d == BackoffNanos(attempt)
    ensures SECOND <= d <= 32 * SECOND
  {
    var a := if attempt < 0 then 0 else attempt;
    d := SECOND;
    var i := 0;
    PowersToFive();
    while i < a && d < 30 * SECOND
      invariant 0 <= i <= a && i <= 5
      invariant d == Pow2(i) * SECOND
    {
      d := d * 2;
      i := i + 1;
    }
  }

  lemma PowersToFive()
    ensures Pow2(0) == 1 && Pow2(1) == 2 && Pow2(2) == 4
    ensures Pow2(3) == 8 && Pow2(4) == 16 && Pow2(5) == 32
  {
    assert Pow2(2) == 2 * Pow2(1);
    assert Pow2(3) == 2 * Pow2(2);
    assert Pow2(4) == 2 * Pow2(3);
    assert Pow2(5) == 2 * Pow2(4);
  }

  /** Five retries wait at most 16 s each and 31 s together. */
  lemma DefaultStreakBound(n: nat)
    requires n <= DEFAULT_MAX_ATTEMPTS
    ensures BackoffTotal(n) <= 31 * SECOND
    ensures n < DEFAULT_MAX_ATTEMPTS ==> BackoffNanos(n) <= 16 * SECOND
  {
    PowersToFive();
    assert BackoffTotal(1) == SECOND;
    assert BackoffTotal(2) == 3 * SECOND;
    assert BackoffTotal(3) == 7 * SECOND;
    assert BackoffTotal(4) == 15 * SECOND;
    assert BackoffTotal(5) == 31 * SECOND;
  }

  // ---- the mutable object ----

  /** What a critical section leaves alone besides state, active run and session `r`. */
  predicate OnlySession(v: Svc, w: Svc, r: nat) {
    && w.session == v.session && w.auto == v.auto && w.maxAttempts == v.maxAttempts
    && |w.sessions| == |v.sessions|
    && (forall q :: 0 <= q < |v.sessions| && q != r ==> w.sessions[q] == v.sessions[q])
    && (r < |v.sessions| ==>
          w.sessions[r].serverId == v.sessions[r].serverId && w.sessions[r].mode == v.sessions[r].mode)
  }

  /** The fields of `Service` under its mutex. Each method is one critical section: its contract says
      what it does field by field, and that this is the function of the same name on `View()`. */
  class Service {
    var state: ConnectionState
    var session: Option<nat>
    var active: Option<nat>
    var sessions: seq<VPNSession>
    var auto: bool
    var maxAttempts: int

    function View(): Svc
      reads this
    {
      Svc(state, session, active, sessions, auto, maxAttempts)
    }

    constructor ()
      ensures View() == INITIAL
    {
      state := Disconnected;
      session, active := None, None;
      sessions := [];
      auto, maxAttempts := true, DEFAULT_MAX_ATTEMPTS;
    }

    method TransitionLocked(r: nat, st: ConnectionState, err: Option<SessionError>)
      requires r < |sessions|
      modifies this
      ensures View() == Transition(old(View()), r, st, err)
      ensures old(active) != Some(r) ==> View() == old(View())
      ensures old(active) == Some(r) ==>
        && state == st && active == Some(r) && OnlySession(old(View()), View(), r)
        && sessions[r].history == old(sessions)[r].history + [st] && sessions[r].endedAt == old(sessions)[r].endedAt
        && (st == Error && err.Some? ==> sessions[r].error == err)
        && (st != Error ==> sessions[r].error == old(sessions)[r].error)
    {
      if active != Some(r) {
        return;
      }
      state := st;
      var sess := AddState(sessions[r], st);
      if st.Error? && err.Some? {
        sess := sess.(error := err);
      }
      sessions := sessions[r := sess];
    }

    method TeardownLocked(r: nat, st: ConnectionState, err: Option<SessionError>, now: Time)
      requires r < |sessions|
      modifies this
      ensures View() == Teardown(old(View()), r, st, err, now)
      ensures old(active) != Some(r) ==> View() == old(View())
      ensures old(active) == Some(r) ==>
        && state == st && active == Some(r) && OnlySession(old(View()), View(), r)
        && (old(sessions)[r].endedAt.Some? ==> sessions[r] == old(sessions)[r])
        && (old(sessions)[r].endedAt.None? ==>
              sessions[r].endedAt == Some(now) && sessions[r].history == old(sessions)[r].history + [st])
    {
      if active != Some(r) {
        return;
      }
      var sess := sessions[r];
      if sess.endedAt.None? {
        sess := sess.(endedAt := Some(now));
        if err.Some? {
          sess := sess.(error := err);
        }
        sess := AddState(sess, st);
      }
      sessions := sessions[r := sess];
      state := st;
    }

    method FinishLocked(r: nat, now: Time)
      requires r < |sessions|
      modifies this
      ensures View() == Finish(old(View()), r, now)
      ensures state == old(state) && OnlySession(old(View()), View(), r)
      ensures active == if old(active) == Some(r) then None else old(active)
      ensures sessions[r].history == old(sessions)[r].history && sessions[r].error == old(sessions)[r].error
      ensures sessions[r].endedAt == if old(sessions)[r].endedAt.Some? then old(sessions)[r].endedAt else Some(now)
    {
      if active == Some(r) {
        active := None;
      }
      var sess := sessions[r];
      if sess.endedAt.None? {
        sess := sess.(endedAt := Some(now));
      }
      sessions := sessions[r := sess];
    }

    method ForceLocked(now: Time)
      requires Allocated(View())
      modifies this
      ensures View() == Force(old(View()), now)
      ensures active == None
      ensures old(active).None? ==> View() == old(View())
      ensures old(active).Some? ==>
        var r := old(active).value;
        && state == Disconnected && OnlySession(old(View()), View(), r)
        && (old(sessions)[r].endedAt.Some? ==> sessions[r] == old(sessions)[r])
        && (old(sessions)[r].endedAt.None? ==>
              sessions[r].endedAt == Some(now) && sessions[r].history == old(sessions)[r].history + [Disconnected])
    {
      if active.None? {
        return;
      }
      var r := active.value;
      active := None;
      state := Disconnected;
      var sess := sessions[r];
      if sess.endedAt.None? {
        sess := AddState(sess.(endedAt := Some(now)), Disconnected);
      }
      sessions := sessions[r := sess];
    }

    method CommitLocked(serverId: string, mode: ConnectionMode) returns (busy: bool)
      modifies this
      ensures busy == Live(old(state))
      ensures View() == Commit(old(View()), serverId, mode)
      ensures busy ==> View() == old(View())
      ensures !busy ==>
        && state == Connecting && session == active == Some(|old(sessions)|)
        && auto == old(auto) && maxAttempts == old(maxAttempts)
        && |sessions| == |old(sessions)| + 1 && sessions[..|old(sessions)|] == old(sessions)
        && var born := sessions[|old(sessions)|];
        && born.serverId == serverId && born.mode == mode && born.history == [Connecting]
        && born.endedAt == None && born.error == None
    {
      if state.Connecting? || state.Connected? || state.Reconnecting? {
        return true;
      }
      var sess := AddState(VPNSession(serverId, mode, [], None, None), Connecting);
      state := Connecting;
      session, active := Some(|sessions|), Some(|sessions|);
      sessions := sessions + [sess];
      return false;
    }
  }
}
