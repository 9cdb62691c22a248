/** The connection state machine as a transition system (core/vpn/service.go).

    One API thread (the transport mutex admits one request at a time) and any number of run
    loops interleave. One action is one critical section, one tunnel call, one channel
    operation or one timer. A `LoopAction` with choice `ch` lets loop `r` take its next step;
    the choice settles what the environment decides: the runner's answer, which ready case a
    select takes, whether the tunnel was lost. */
module VpnSystem {
  import opened Options
  import opened Session
  import opened VpnService
  import opened Tunnel

  datatype Command = CmdDisconnect | CmdReconnect

  datatype Cause = StartFailed | TunnelLost

  /** Where a run loop stands. */
  datatype Pc =
    | CallStart                    // about to call tunnel.Start
    | AfterStart(ok: bool)         // Start returned; isActive check pending
    | ToConnected                  // transition(Connected) pending
    | Waiting                      // select while connected
    | StopCheck(cause: Cause)      // stopIfActive: the locked test
    | Stopping(cause: Cause)       // stopIfActive: the Stop call
    | Deciding(cause: Cause)       // shouldRetry
    | ToError(cause: Cause)        // transitionError pending
    | ToReconnecting(cause: Cause) // transition(Reconnecting) pending, then backoff
    | Backing                      // wait: select during the backoff
    | BackoffCmd(cmd: Command)     // wait: a command was taken, isActive pending
    | BackoffOver                  // wait: the timer fired, isActive pending
    | CmdToReconnecting            // reconnect command: transition(Reconnecting) pending
    | CmdStopping                  // reconnect command: the unconditional Stop
    | LostCheck                    // loss seen, isActive pending
    | TearingDown                  // teardown: the locked part
    | TeardownStopping             // teardown: the Stop call
    | Finishing                    // finish: the locked part
    | ClosingDone                  // finish: close(rs.done)
    | Done

  /** A run loop with its one-slot command buffer and its context. `fails`, `charge` and `slept`
      are history variables: consecutive failed starts, whether the current streak was opened
      by a tunnel loss, and the backoff already spent in it. */
  datatype Loop = Loop(
    pc: Pc,
    cmd: Option<Command>,
    cancelled: bool,
    attempt: nat,
    fails: nat,
    charge: nat,
    slept: nat)

  /** Where the API thread stands. */
  datatype Api =
    | Free
    | ReapCancel(stale: nat, serverId: string, mode: ConnectionMode)
    | ReapStop(stale: nat, serverId: string, mode: ConnectionMode)
    | ReapWait(stale: nat, serverId: string, mode: ConnectionMode)
    | Committing(serverId: string, mode: ConnectionMode)
    | Resetting
    | SendDisconnect(run: nat)
    | AwaitDone(run: nat)
    | Forcing
    | ForceStopping
    | SendReconnect(run: nat)

  datatype Sys = Sys(svc: Svc, loops: seq<Loop>, tunnel: Tracked, api: Api)

  datatype Choice = Go | RunnerOk | RunnerErr | TakeCmd | Timer | CtxDone | LossSeen

  datatype Action =
    | LoopAction(r: nat, ch: Choice, now: Time)
    | Connect(serverId: string, mode: ConnectionMode)
    | CancelStale
    | StopStale
    | StaleDone
    | StaleTimeout
    | CommitConnect
    | Disconnect
    | Reset
    | PostCommand
    | RunDone
    | DisconnectTimeout
    | ForceNow(now: Time)
    | StopForced
    | Reconnect
    | SetAuto(on: bool)
    | SetMax(max: int)

  const INIT: Sys := Sys(INITIAL, [], Idle, Free)

  const NEW_LOOP: Loop := Loop(CallStart, None, false, 0, 0, 0, 0)

  ghost predicate Init(s: Sys) { s == INIT }

  predicate Shaped(s: Sys) {
    && |s.loops| == |s.svc.sessions|
    && Allocated(s.svc)
    && match s.api
       case ReapCancel(q, _, _) => q < |s.loops|
       case ReapStop(q, _, _) => q < |s.loops|
       case ReapWait(q, _, _) => q < |s.loops|
       case SendDisconnect(q) => q < |s.loops|
       case AwaitDone(q) => q < |s.loops|
       case SendReconnect(q) => q < |s.loops|
       case _ => true
  }

  predicate IsActive(s: Sys, r: nat) { s.svc.active == Some(r) }

  function At(s: Sys, r: nat, pc: Pc): Sys
    requires r < |s.loops|
  {
    s.(loops := s.loops[r := s.loops[r].(pc := pc)])
  }

  const LOST: Option<SessionError> := Some(SessionError("engine", "tunnel: connection lost"))
  const START_FAILED: Option<SessionError> := Some(SessionError("engine", "start failed"))

  function ErrorOf(c: Cause): Option<SessionError> {
    match c case StartFailed => START_FAILED case TunnelLost => LOST
  }

  /** `tunnel.Start` by loop `r`: the answer goes to the program counter. */
  function StartCall(s: Sys, r: nat, runnerOk: bool): Sys
    requires Shaped(s) && r < |s.loops|
  {
    var sess := s.svc.sessions[r];
    var (t, ok) := Start(s.tunnel, sess.serverId, sess.mode, runnerOk);
    var l := s.loops[r];
    var l' := l.(pc := AfterStart(ok), fails := if ok then l.fails else l.fails + 1);
    s.(tunnel := t, loops := s.loops[r := l'])
  }

  /** `shouldRetry` and, when it agrees, `attempt++` and the backoff to come. */
  function Decide(s: Sys, r: nat, cause: Cause): Sys
    requires r < |s.loops|
  {
    var l := s.loops[r];
    if !ShouldRetry(s.svc.auto, s.svc.maxAttempts, l.attempt) then At(s, r, ToError(cause))
    else
      var l' := l.(pc := ToReconnecting(cause),
                   attempt := l.attempt + 1,
                   charge := if cause.TunnelLost? then 1 else l.charge,
                   slept := l.slept + BackoffNanos(l.attempt));
      s.(loops := s.loops[r := l'])
  }

  /** Clears the retry streak, as `attempt = 0` does. */
  function Rewound(l: Loop, pc: Pc): Loop {
    l.(pc := pc, attempt := 0, fails := 0, charge := 0, slept := 0)
  }

  function TakeCommand(s: Sys, r: nat, pc: Pc): Sys
    requires r < |s.loops|
  {
    s.(loops := s.loops[r := s.loops[r].(pc := pc, cmd := None)])
  }

  /** One step of run loop `r`, or None when it cannot take that choice. */
  function LoopStep(s: Sys, r: nat, ch: Choice, now: Time): Option<Sys>
    requires Shaped(s)
  {
    if r >= |s.loops| then None else
    var l := s.loops[r];
    match l.pc
    case CallStart =>
      if ch.RunnerOk? || ch.RunnerErr? then Some(StartCall(s, r, ch.RunnerOk?)) else None
    case AfterStart(ok) =>
      if !ch.Go? then None
      else if !IsActive(s, r) then Some(At(s, r, Finishing))
      else if ok then Some(s.(loops := s.loops[r := Rewound(l, ToConnected)]))
      else Some(At(s, r, StopCheck(StartFailed)))
    case ToConnected =>
      if !ch.Go? then None
      else Some(At(s.(svc := Transition(s.svc, r, Connected, None)), r, Waiting))
    case Waiting =>
      if ch.TakeCmd? && l.cmd.Some? then
        Some(TakeCommand(s, r, if l.cmd.value.CmdDisconnect? then TearingDown else CmdToReconnecting))
      else if ch.CtxDone? && l.cancelled then Some(At(s, r, TearingDown))
      else if ch.LossSeen? then Some(At(s, r, LostCheck))
      else None
    case StopCheck(c) =>
      if !ch.Go? then None
      else Some(At(s, r, if IsActive(s, r) then Stopping(c) else Deciding(c)))
    case Stopping(c) =>
      if !ch.Go? then None else Some(At(s.(tunnel := Idle), r, Deciding(c)))
    case Deciding(c) =>
      if !ch.Go? then None else Some(Decide(s, r, c))
    case ToError(c) =>
      if !ch.Go? then None
      else Some(At(s.(svc := Transition(s.svc, r, Error, ErrorOf(c))), r, Finishing))
    case ToReconnecting(c) =>
      if !ch.Go? then None
      else Some(At(s.(svc := Transition(s.svc, r, Reconnecting, ErrorOf(c))), r, Backing))
    case Backing =>
      if ch.TakeCmd? && l.cmd.Some? then Some(TakeCommand(s, r, BackoffCmd(l.cmd.value)))
      else if ch.Timer? then Some(At(s, r, BackoffOver))
      else if ch.CtxDone? && l.cancelled then Some(At(s, r, TearingDown))
      else None
    case BackoffCmd(c) =>
      if !ch.Go? then None
      else if !IsActive(s, r) then Some(At(s, r, Finishing))
      else Some(At(s, r, if c.CmdDisconnect? then TearingDown else CallStart))
    case BackoffOver =>
      if !ch.Go? then None
      else Some(At(s, r, if IsActive(s, r) then CallStart else Finishing))
    case CmdToReconnecting =>
      if !ch.Go? then None
      else Some(At(s.(svc := Transition(s.svc, r, Reconnecting, None)), r, CmdStopping))
    case CmdStopping =>
      if !ch.Go? then None
      else Some(s.(tunnel := Idle, loops := s.loops[r := Rewound(l, CallStart)]))
    case LostCheck =>
      if !ch.Go? then None
      else Some(At(s, r, if IsActive(s, r) then StopCheck(TunnelLost) else Finishing))
    case TearingDown =>
      if !ch.Go? then None
      else if !IsActive(s, r) then Some(At(s, r, Finishing))
      else Some(At(s.(svc := Teardown(s.svc, r, Disconnected, None, now)), r, TeardownStopping))
    case TeardownStopping =>
      if !ch.Go? then None else Some(At(s.(tunnel := Idle), r, Finishing))
    case Finishing =>
      if !ch.Go? then None
      else Some(At(s.(svc := Finish(s.svc, r, now)), r, ClosingDone))
    case ClosingDone =>
      if !ch.Go? then None else Some(At(s, r, Done))
    case Done => None
  }

  /** `sendCmd`: dropped when the buffer is full. */
  function Post(s: Sys, r: nat, c: Command): Sys
    requires r < |s.loops|
  {
    if s.loops[r].cmd.Some? then s else s.(loops := s.loops[r := s.loops[r].(cmd := Some(c))])
  }

  /** The first locked part of `Connect`. */
  function BeginConnect(s: Sys, serverId: string, mode: ConnectionMode): Sys {
    if Live(s.svc.state) then s
    else if s.svc.active.Some? then s.(api := ReapCancel(s.svc.active.value, serverId, mode))
    else s.(api := Committing(serverId, mode))
  }

  function ApiStep(s: Sys, a: Action): Option<Sys>
    requires Shaped(s)
  {
    match (s.api, a)
    case (Free, Connect(id, mode)) => Some(BeginConnect(s, id, mode))
    case (ReapCancel(q, id, mode), CancelStale) =>
      Some(s.(loops := s.loops[q := s.loops[q].(cancelled := true)], api := ReapStop(q, id, mode)))
    case (ReapStop(q, id, mode), StopStale) => Some(s.(tunnel := Idle, api := ReapWait(q, id, mode)))
    case (ReapWait(q, id, mode), StaleDone) =>
      if s.loops[q].pc.Done? then Some(s.(api := Committing(id, mode))) else None
    case (ReapWait(q, id, mode), StaleTimeout) => Some(s.(api := Committing(id, mode)))
    case (Committing(id, mode), CommitConnect) =>
      if Live(s.svc.state) then Some(s.(api := Free))
      else Some(s.(svc := Commit(s.svc, id, mode), loops := s.loops + [NEW_LOOP], api := Free))
    case (Free, Disconnect) =>
      if s.svc.active.Some? then Some(s.(api := SendDisconnect(s.svc.active.value)))
      else if s.svc.state.Disconnected? then Some(s)
      else Some(s.(api := Resetting))
    case (Resetting, Reset) => Some(s.(svc := s.svc.(state := Disconnected), api := Free))
    case (SendDisconnect(q), PostCommand) => Some(Post(s, q, CmdDisconnect).(api := AwaitDone(q)))
    case (AwaitDone(q), RunDone) =>
      if s.loops[q].pc.Done? then Some(s.(api := Free)) else None
    case (AwaitDone(q), DisconnectTimeout) => Some(s.(api := Forcing))
    case (Forcing, ForceNow(now)) =>
      if s.svc.active.None? then Some(s.(api := Free))
      else
        var r := s.svc.active.value;
        Some(s.(svc := Force(s.svc, now),
                loops := s.loops[r := s.loops[r].(cancelled := true)],
                api := ForceStopping))
    case (ForceStopping, StopForced) => Some(s.(tunnel := Idle, api := Free))
    case (Free, Reconnect) =>
      if s.svc.state.Connected? || s.svc.state.Reconnecting? then
        Some(if s.svc.active.Some? then s.(api := SendReconnect(s.svc.active.value)) else s)
      else if s.svc.state.Error? then
        if s.svc.active.Some? then Some(s.(api := SendReconnect(s.svc.active.value)))
        else if s.svc.session.Some? then
          var sess := s.svc.sessions[s.svc.session.value];
          Some(BeginConnect(s, sess.serverId, sess.mode))
        else Some(s)
      else Some(s)
    case (SendReconnect(q), PostCommand) => Some(Post(s, q, CmdReconnect).(api := Free))
    case (Free, SetAuto(on)) => Some(s.(svc := s.svc.(auto := on)))
    case (Free, SetMax(max)) => Some(s.(svc := s.svc.(maxAttempts := max)))
    case _ => None
  }

  function Step(s: Sys, a: Action): Option<Sys>
    requires Shaped(s)
  {
    if a.LoopAction? then LoopStep(s, a.r, a.ch, a.now) else ApiStep(s, a)
  }

  /** A run: states from INIT, each produced from the one before by the action between them. */
  ghost predicate IsRun(ss: seq<Sys>, acts: seq<Action>) {
    && |ss| == |acts| + 1
    && Init(ss[0])
    && forall i {:trigger acts[i]} :: 0 <= i < |acts| ==> Linked(ss[i], acts[i], ss[i + 1])
  }

  ghost predicate Linked(s: Sys, a: Action, s': Sys) {
    Shaped(s) && Step(s, a) == Some(s')
  }
}
