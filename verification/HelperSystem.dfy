/** Client and helper joined by two FIFO streams (core/tunnel/helper_client.go against
    core/tunnel/helperhost/helperhost.go). Requests, timeouts, the reader, close calls and the
    host interleave freely; one action is one critical section, channel or socket operation.

    Each request owns one channel of capacity one, numbered like the request. */
module HelperSystem {
  import opened Options
  import opened HelperHost
  import opened HelperClient

  datatype Kind = ReqConnect | ReqDisconnect | ReqPing

  /** How a request call ends. */
  datatype Outcome = Got(msg: ServerMessage) | TimedOut | Failed

  datatype CallPc =
    | ToSend                        // has its number
    | ToRegister                    // request written
    | Awaiting                      // select in await
    | Leaving(outcome: Outcome)     // deferred delete pending
    | Returned(outcome: Outcome)

  /** A request call and its channel; `sent` counts the messages ever put into the channel. */
  datatype Call = Call(kind: Kind, num: nat, pc: CallPc, buffer: seq<ServerMessage>, sent: nat)

  datatype Reader =
    | Reading
    | Holding(msg: ServerMessage)              // scanned, lock not taken yet
    | Handing(ch: Chan, msg: ServerMessage)    // about to send to a waiter
    | AtEof                                    // close(false) pending
    | Checking                                 // wasIntentional pending
    | Ended

  /** `firstClose` is a history variable: the quit flag of the close call that took effect. */
  datatype Sys = Sys(
    client: Client,
    calls: seq<Call>,
    reader: Reader,
    notify: set<Chan>,              // waiters the effective close still has to notify
    quitDue: bool,                  // its quit message is still to be written
    firstClose: Option<bool>,
    lost: bool,
    up: seq<ClientMessage>,         // client to helper
    down: seq<ServerMessage>,       // helper to client
    host: Host,
    serving: bool,
    panicked: bool)

  datatype Action =
    | NewRequest(kind: Kind)
    | SendRequest(w: nat, ok: bool)
    | RegisterWaiter(w: nat)
    | Receive(w: nat)
    | Timeout(w: nat)
    | Leave(w: nat)
    | Scan
    | ScanEof
    | DeliverHeld
    | HandOver
    | ReaderClose
    | ReaderCheck
    | CloseCall(quit: bool)
    | WriteQuit
    | Notify(w: nat)
    | HostTakes(o: Oracle)
    | HostEof
    | HostLogs

  const INIT: Sys := Sys(DIALED, [], Reading, {}, false, None, false, [], [], NEW_HOST, true, false)

  function Request(k: Kind, n: nat): ClientMessage {
    match k case ReqConnect => ConnectReq(n) case ReqDisconnect => DisconnectReq(n) case ReqPing => PingReq(n)
  }

  function CallAt(s: Sys, w: nat, pc: CallPc): Sys
    requires w < |s.calls|
  {
    s.(calls := s.calls[w := s.calls[w].(pc := pc)])
  }

  /** A channel send: blocks while the buffer is full. */
  function Put(s: Sys, w: nat, m: ServerMessage): Option<Sys>
    requires w < |s.calls|
  {
    var c := s.calls[w];
    if |c.buffer| >= 1 then None
    else Some(s.(calls := s.calls[w := c.(buffer := c.buffer + [m], sent := c.sent + 1)]))
  }

  function CallStep(s: Sys, a: Action): Option<Sys>
    requires a.SendRequest? || a.RegisterWaiter? || a.Receive? || a.Timeout? || a.Leave?
    requires a.w < |s.calls|
  {
    var c := s.calls[a.w];
    match a
    case SendRequest(w, ok) =>
      if !c.pc.ToSend? then None
      else if s.client.closed || !ok then Some(CallAt(s, w, Returned(Failed)))
      else Some(CallAt(s, w, ToRegister).(up := s.up + [Request(c.kind, c.num)]))
    case RegisterWaiter(w) =>
      if !c.pc.ToRegister? then None
      else (match Register(s.client, c.num, w)
            case Refused => Some(CallAt(s, w, Returned(Failed)))
            case Registered(client) => Some(CallAt(s, w, Awaiting).(client := client))
            case Panic => Some(s.(panicked := true)))
    case Receive(w) =>
      if !c.pc.Awaiting? || c.buffer == [] then None
      else Some(s.(calls := s.calls[w := c.(pc := Leaving(Got(c.buffer[0])), buffer := c.buffer[1..])]))
    case Timeout(w) =>
      if !c.pc.Awaiting? then None else Some(CallAt(s, w, Leaving(TimedOut)))
    case Leave(w) =>
      if !c.pc.Leaving? then None
      else Some(CallAt(s, w, Returned(c.pc.outcome)).(client := Unregister(s.client, c.num)))
  }

  /** The locked part of a close call and the work it leaves behind. */
  function CloseStep(s: Sys, quit: bool): Sys {
    var (client, waiters) := Close(s.client, quit);
    if waiters.None? then s
    else s.(client := client, notify := waiters.value, quitDue := quit, firstClose := Some(quit))
  }

  function ReaderStep(s: Sys, a: Action): Option<Sys>
    requires a.Scan? || a.ScanEof? || a.DeliverHeld? || a.HandOver? || a.ReaderClose? || a.ReaderCheck?
  {
    match (s.reader, a)
    case (Reading, Scan) =>
      if s.down == [] then None else Some(s.(reader := Holding(s.down[0]), down := s.down[1..]))
    case (Reading, ScanEof) => Some(s.(reader := AtEof))
    case (Holding(m), DeliverHeld) =>
      if m.Event? then Some(s.(reader := Reading))
      else
        var (client, ch) := Deliver(s.client, m);
        Some(s.(client := client, reader := if ch.None? then Reading else Handing(ch.value, m)))
    case (Handing(ch, m), HandOver) =>
      if ch >= |s.calls| then None
      else
        var put := Put(s, ch, m);
        if put.None? then None else Some(put.value.(reader := Reading))
    case (AtEof, ReaderClose) => Some(CloseStep(s, false).(reader := Checking))
    case (Checking, ReaderCheck) => Some(s.(reader := Ended, lost := s.lost || !s.client.intentional))
    case _ => None
  }

  /** The host handles the message at the head of its stream. */
  function HostStep(s: Sys, o: Oracle): Option<Sys>
    requires HostOk(s.host)
  {
    if !s.serving || s.up == [] then None
    else
      var (h, rs) := Handle(s.host, s.up[0], o);
      Some(s.(host := h, down := s.down + rs, up := s.up[1..], serving := !s.up[0].Quit?))
  }

  function Step(s: Sys, a: Action): Option<Sys>
    requires HostOk(s.host)
  {
    if s.panicked then None else
    match a
    case NewRequest(k) =>
      // A connection is not kept for 2^64 requests: see NumbersRepeatExactly.
      if |s.calls| + 1 >= SEQ_RANGE then None
      else
        var (client, n) := Numbered(s.client);
        Some(s.(client := client, calls := s.calls + [Call(k, n, ToSend, [], 0)]))
    case CloseCall(quit) => Some(CloseStep(s, quit))
    case WriteQuit => if s.quitDue then Some(s.(quitDue := false, up := s.up + [Quit])) else None
    case Notify(w) =>
      if w !in s.notify || w >= |s.calls| then None
      else
        var put := Put(s, w, CLOSED_MESSAGE);
        if put.None? then None else Some(put.value.(notify := s.notify - {w}))
    case HostTakes(o) => HostStep(s, o)
    case HostEof =>
      if s.serving && s.client.closed then Some(s.(host := CloseEngine(s.host), serving := false)) else None
    case HostLogs => Some(s.(down := s.down + [Event]))
    case SendRequest(w, _) => if w < |s.calls| then CallStep(s, a) else None
    case RegisterWaiter(w) => if w < |s.calls| then CallStep(s, a) else None
    case Receive(w) => if w < |s.calls| then CallStep(s, a) else None
    case Timeout(w) => if w < |s.calls| then CallStep(s, a) else None
    case Leave(w) => if w < |s.calls| then CallStep(s, a) else None
    case _ => ReaderStep(s, a)
  }

  ghost predicate Linked(s: Sys, a: Action, s': Sys) {
    HostOk(s.host) && Step(s, a) == Some(s')
  }

  ghost predicate IsRun(ss: seq<Sys>, acts: seq<Action>) {
    && |ss| == |acts| + 1
    && ss[0] == INIT
    && forall i {:trigger acts[i]} :: 0 <= i < |acts| ==> Linked(ss[i], acts[i], ss[i + 1])
  }

  // ---- waiters ----

  /** The channel of call `w` is held by somebody who will put a message into it. */
  predicate Pledged(s: Sys, w: nat) {
    || (s.client.pending.Some? && (w + 1) in s.client.pending.value)
    || (s.reader.Handing? && s.reader.ch == w)
    || w in s.notify
  }

  /** At most one of the three possible holders. */
  predicate OneHolder(s: Sys, w: nat) {
    && (s.client.pending.Some? && (w + 1) in s.client.pending.value ==>
          !(s.reader.Handing? && s.reader.ch == w) && w !in s.notify)
    && (s.reader.Handing? && s.reader.ch == w ==> w !in s.notify)
  }

  /** What request number `n` may be answered with. */
  predicate Answers(m: ServerMessage, n: nat) {
    m == CLOSED_MESSAGE || (m.Response? && m.num == n)
  }

  predicate CallOk(s: Sys, w: nat)
    requires w < |s.calls|
  {
    var c := s.calls[w];
    && c.num == w + 1
    && c.sent <= 1 && |c.buffer| <= c.sent
    && (Pledged(s, w) ==> c.sent == 0 && !c.pc.ToSend? && !c.pc.ToRegister?)
    && (c.pc.ToSend? || c.pc.ToRegister? ==> c.sent == 0)
    && OneHolder(s, w)
    && (forall i :: 0 <= i < |c.buffer| ==> Answers(c.buffer[i], c.num))
    && (c.pc.Leaving? && c.pc.outcome.Got? ==> Answers(c.pc.outcome.msg, c.num))
    && (c.pc.Returned? && c.pc.outcome.Got? ==> Answers(c.pc.outcome.msg, c.num))
    && (c.pc.Returned? ==> !(s.client.pending.Some? && c.num in s.client.pending.value))
  }

  predicate ClientOk(s: Sys) {
    var c := s.client;
    && c.counter == |s.calls| < SEQ_RANGE
    && (c.closed <==> c.pending.None?)
    && (c.closed <==> s.firstClose.Some?)
    && (c.closed ==> c.intentional == s.firstClose.value)
    && (!c.closed ==> s.notify == {} && !s.quitDue)
    && (c.pending.Some? ==>
          forall n :: n in c.pending.value ==> 1 <= n <= |s.calls| && c.pending.value[n] == n - 1)
    && (forall w :: w in s.notify ==> w < |s.calls|)
    && (s.reader.Handing? ==>
          s.reader.ch < |s.calls| && s.reader.msg.Response? && s.reader.msg.num == s.reader.ch + 1)
    && (s.reader.Checking? || s.reader.Ended? ==> c.closed)
    && (s.reader.Ended? ==> (s.lost <==> !c.intentional))
    && (!s.reader.Ended? ==> !s.lost)
  }

  ghost predicate Inv(s: Sys) {
    && HostOk(s.host) && !s.panicked
    && ClientOk(s)
    && forall w :: 0 <= w < |s.calls| ==> CallOk(s, w)
  }

  /** Steps of a call that leave the client's fields alone. */
  lemma PlainCallStepKeepsInv(s: Sys, a: Action, s': Sys)
    requires Inv(s) && (a.SendRequest? || a.Receive? || a.Timeout?)
    requires a.w < |s.calls| && CallStep(s, a) == Some(s')
    ensures Inv(s')
  {
    assert CallOk(s, a.w);
    forall w | 0 <= w < |s'.calls| ensures CallOk(s', w) {
      assert CallOk(s, w);
    }
  }

  lemma RegisterKeepsInv(s: Sys, w: nat, s': Sys)
    requires Inv(s) && w < |s.calls| && CallStep(s, RegisterWaiter(w)) == Some(s')
    ensures Inv(s')
  {
    assert CallOk(s, w);
    forall q | 0 <= q < |s'.calls| ensures CallOk(s', q) {
      assert CallOk(s, q);
    }
  }

  lemma LeaveKeepsInv(s: Sys, w: nat, s': Sys)
    requires Inv(s) && w < |s.calls| && CallStep(s, Leave(w)) == Some(s')
    ensures Inv(s')
  {
    assert CallOk(s, w);
    forall q | 0 <= q < |s'.calls| ensures CallOk(s', q) {
      assert CallOk(s, q);
    }
  }

  lemma DeliverKeepsInv(s: Sys, s': Sys)
    requires Inv(s) && ReaderStep(s, DeliverHeld) == Some(s')
    ensures Inv(s')
  {
    forall w | 0 <= w < |s'.calls| ensures CallOk(s', w) {
      assert CallOk(s, w);
    }
  }

  lemma HandOverKeepsInv(s: Sys, s': Sys)
    requires Inv(s) && ReaderStep(s, HandOver) == Some(s')
    ensures Inv(s')
  {
    assert CallOk(s, s.reader.ch);
    forall w | 0 <= w < |s'.calls| ensures CallOk(s', w) {
      assert CallOk(s, w);
    }
  }

  lemma ReaderCloseKeepsInv(s: Sys, s': Sys)
    requires Inv(s) && ReaderStep(s, ReaderClose) == Some(s')
    ensures Inv(s')
  {
    CloseKeepsInv(s, false);
    var t := CloseStep(s, false);
    forall w | 0 <= w < |s'.calls| ensures CallOk(s', w) {
      assert CallOk(t, w);
    }
  }

  lemma PlainReaderStepKeepsInv(s: Sys, a: Action, s': Sys)
    requires Inv(s) && (a.Scan? || a.ScanEof? || a.ReaderCheck?)
    requires ReaderStep(s, a) == Some(s')
    ensures Inv(s')
  {
    forall w | 0 <= w < |s'.calls| ensures CallOk(s', w) {
      assert CallOk(s, w);
    }
  }

  lemma CloseKeepsInv(s: Sys, quit: bool)
    requires Inv(s)
    ensures Inv(CloseStep(s, quit)) && CloseStep(s, quit).client.closed
    ensures CloseStep(s, quit).reader == s.reader
  {
    var t := CloseStep(s, quit);
    forall w | 0 <= w < |t.calls| ensures CallOk(t, w) {
      assert CallOk(s, w);
    }
  }

  lemma StepKeepsInv(s: Sys, a: Action, s': Sys)
    requires Inv(s) && Step(s, a) == Some(s')
    ensures Inv(s')
  {
    match a {
      case SendRequest(_, _) => PlainCallStepKeepsInv(s, a, s');
      case Receive(_) => PlainCallStepKeepsInv(s, a, s');
      case Timeout(_) => PlainCallStepKeepsInv(s, a, s');
      case RegisterWaiter(w) => RegisterKeepsInv(s, w, s');
      case Leave(w) => LeaveKeepsInv(s, w, s');
      case CloseCall(quit) => CloseKeepsInv(s, quit);
      case HostTakes(o) => HostKeepsInv(s, o, s');
      case DeliverHeld => DeliverKeepsInv(s, s');
      case HandOver => HandOverKeepsInv(s, s');
      case ReaderClose => ReaderCloseKeepsInv(s, s');
      case Scan => PlainReaderStepKeepsInv(s, a, s');
      case ScanEof => PlainReaderStepKeepsInv(s, a, s');
      case ReaderCheck => PlainReaderStepKeepsInv(s, a, s');
      case _ => RestKeepsInv(s, a, s');
    }
  }

  lemma HostKeepsInv(s: Sys, o: Oracle, s': Sys)
    requires Inv(s) && HostStep(s, o) == Some(s')
    ensures Inv(s')
  {
    HandleKeepsOk(s.host, s.up[0], o);
    forall w | 0 <= w < |s'.calls| ensures CallOk(s', w) {
      assert CallOk(s, w);
    }
  }

  lemma RestKeepsInv(s: Sys, a: Action, s': Sys)
    requires Inv(s) && Step(s, a) == Some(s')
    requires a.NewRequest? || a.WriteQuit? || a.Notify? || a.HostEof? || a.HostLogs?
    ensures Inv(s')
  {
    forall w | 0 <= w < |s'.calls| ensures CallOk(s', w) {
      if w < |s.calls| {
        assert CallOk(s, w);
      }
    }
  }

  lemma {:induction false} RunInv(ss: seq<Sys>, acts: seq<Action>, i: nat)
    requires IsRun(ss, acts) && i < |ss|
    ensures Inv(ss[i])
  {
    if i == 0 {
    } else {
      RunInv(ss, acts, i - 1);
      assert Linked(ss[i - 1], acts[i - 1], ss[i]);
      StepKeepsInv(ss[i - 1], acts[i - 1], ss[i]);
    }
  }

  // ---- what the client promises ----

  /** In every interleaving: no write to the nil map happens, the map is nil exactly when the
      client is closed, every waiter channel takes at most one message in its life, and whoever
      is about to send to one finds room, so neither the reader nor a close ever blocks. */
  lemma ChannelsNeverBlock(ss: seq<Sys>, acts: seq<Action>, i: nat)
    requires IsRun(ss, acts) && i < |ss|
    ensures var s := ss[i];
      && HostOk(s.host)
      && !s.panicked
      && (s.client.closed <==> s.client.pending.None?)
      && (forall w :: 0 <= w < |s.calls| ==> s.calls[w].sent <= 1)
      && (s.reader.Handing? ==> Step(s, HandOver).Some?)
      && (forall w :: w in s.notify ==> Step(s, Notify(w)).Some?)
  {
    RunInv(ss, acts, i);
    var s := ss[i];
    forall w | 0 <= w < |s.calls| ensures s.calls[w].sent <= 1 {
      assert CallOk(s, w);
    }
    if s.reader.Handing? {
      assert CallOk(s, s.reader.ch) && Pledged(s, s.reader.ch);
    }
    forall w | w in s.notify ensures Step(s, Notify(w)).Some? {
      assert CallOk(s, w) && Pledged(s, w);
    }
  }

  /** A request call that returned a message returned the response to its own number, or the
      closing notice. */
  lemma AnswerIsYours(ss: seq<Sys>, acts: seq<Action>, i: nat, w: nat)
    requires IsRun(ss, acts) && i < |ss| && w < |ss[i].calls|
    requires ss[i].calls[w].pc.Returned? && ss[i].calls[w].pc.outcome.Got?
    ensures var m := ss[i].calls[w].pc.outcome.msg;
      m == CLOSED_MESSAGE || (m.Response? && m.num == ss[i].calls[w].num)
  {
    RunInv(ss, acts, i);
    assert CallOk(ss[i], w);
  }

  /** Two calls never share a number. */
  lemma NumbersAreUnique(ss: seq<Sys>, acts: seq<Action>, i: nat, v: nat, w: nat)
    requires IsRun(ss, acts) && i < |ss| && v < w < |ss[i].calls|
    ensures ss[i].calls[v].num != ss[i].calls[w].num
  {
    RunInv(ss, acts, i);
    assert CallOk(ss[i], v) && CallOk(ss[i], w);
  }

  lemma FirstCloseStep(s: Sys, a: Action, s': Sys)
    requires Inv(s) && Step(s, a) == Some(s') && s.firstClose.Some?
    ensures s'.firstClose == s.firstClose
  {
  }

  /** The close call that takes effect is the first one, for good. */
  lemma {:induction false} FirstCloseStays(ss: seq<Sys>, acts: seq<Action>, i: nat, j: nat)
    requires IsRun(ss, acts) && i <= j < |ss| && ss[i].firstClose.Some?
    ensures ss[j].firstClose == ss[i].firstClose
    decreases j
  {
    if i == j {
    } else {
      FirstCloseStays(ss, acts, i, j - 1);
      RunInv(ss, acts, j - 1);
      assert Linked(ss[j - 1], acts[j - 1], ss[j]);
      FirstCloseStep(ss[j - 1], acts[j - 1], ss[j]);
    }
  }

  /** Once the reader has ended, loss has been signalled exactly when the first close was not a
      quit; before that it has not been signalled. */
  lemma LostMeansNotQuit(ss: seq<Sys>, acts: seq<Action>, i: nat)
    requires IsRun(ss, acts) && i < |ss|
    ensures ss[i].reader.Ended? ==> ss[i].firstClose.Some? && (ss[i].lost <==> ss[i].firstClose == Some(false))
    ensures !ss[i].reader.Ended? ==> !ss[i].lost
  {
    RunInv(ss, acts, i);
  }

  // ---- both ends agree ----

  function Fold(running: bool, ms: seq<ServerMessage>): bool
    decreases |ms|
  {
    if ms == [] then running else Fold(Observe(running, ms[0]), ms[1..])
  }

  lemma {:induction false} FoldSnoc(running: bool, ms: seq<ServerMessage>, m: ServerMessage)
    ensures Fold(running, ms + [m]) == Observe(Fold(running, ms), m)
    decreases |ms|
  {
    if ms == [] {
      assert [m][1..] == [];
      assert ms + [m] == [m];
    } else {
      assert (ms + [m])[1..] == ms[1..] + [m];
      FoldSnoc(Observe(running, ms[0]), ms[1..], m);
    }
  }

  /** The responses under way, oldest first: the one the reader holds, then the stream. */
  function InFlight(s: Sys): seq<ServerMessage> {
    (if s.reader.Holding? then [s.reader.msg] else []) + s.down
  }

  /** The client's flag once it has read everything under way. */
  function Eventually(s: Sys): bool { Fold(s.client.running, InFlight(s)) }

  /** What the host would have the client believe. */
  predicate HostSays(h: Host) { h.eng.Some? || h.misreported }

  ghost predicate Agree(s: Sys) {
    !s.client.closed && s.serving ==> Eventually(s) == HostSays(s.host)
  }

  lemma HostStepAgrees(s: Sys, o: Oracle, s': Sys)
    requires Inv(s) && Agree(s) && HostStep(s, o) == Some(s') && s'.serving && !s.client.closed
    ensures Eventually(s') == HostSays(s'.host)
  {
    var (h, rs) := Handle(s.host, s.up[0], o);
    if rs == [] {
      assert s'.down == s.down;
    } else {
      assert rs == [rs[0]];
      assert InFlight(s') == InFlight(s) + [rs[0]];
      FoldSnoc(s.client.running, InFlight(s), rs[0]);
    }
  }

  lemma ScanAgrees(s: Sys, s': Sys)
    requires Inv(s) && Agree(s) && ReaderStep(s, Scan) == Some(s')
    ensures InFlight(s') == InFlight(s) && s'.client == s.client && Agree(s')
  {
    assert InFlight(s') == InFlight(s);
  }

  lemma DeliverAgrees(s: Sys, s': Sys)
    requires Inv(s) && Agree(s) && ReaderStep(s, DeliverHeld) == Some(s')
    ensures Agree(s')
  {
    assert InFlight(s)[0] == s.reader.msg && InFlight(s)[1..] == s.down;
    assert InFlight(s') == s.down;
  }

  lemma LogAgrees(s: Sys, s': Sys)
    requires Inv(s) && Agree(s) && Step(s, HostLogs) == Some(s')
    ensures Agree(s')
  {
    assert InFlight(s') == InFlight(s) + [Event];
    FoldSnoc(s.client.running, InFlight(s), Event);
  }

  /** Every other step leaves what agreement is about alone, or ends its scope. */
  lemma OtherStepAgrees(s: Sys, a: Action, s': Sys)
    requires Inv(s) && Agree(s) && Step(s, a) == Some(s')
    requires !a.HostTakes? && !a.Scan? && !a.DeliverHeld? && !a.HostLogs?
    ensures Agree(s')
  {
    if !s'.client.closed && s'.serving {
      assert InFlight(s') == InFlight(s);
    }
  }

  lemma StepAgrees(s: Sys, a: Action, s': Sys)
    requires Inv(s) && Agree(s) && Step(s, a) == Some(s')
    ensures Agree(s')
  {
    if a.HostTakes? {
      if s'.serving && !s.client.closed {
        HostStepAgrees(s, a.o, s');
      }
    } else if a.Scan? {
      ScanAgrees(s, s');
    } else if a.DeliverHeld? {
      DeliverAgrees(s, s');
    } else if a.HostLogs? {
      LogAgrees(s, s');
    } else {
      OtherStepAgrees(s, a, s');
    }
  }

  lemma {:induction false} RunAgrees(ss: seq<Sys>, acts: seq<Action>, i: nat)
    requires IsRun(ss, acts) && i < |ss|
    ensures Agree(ss[i])
  {
    if i > 0 {
      RunAgrees(ss, acts, i - 1);
      RunInv(ss, acts, i - 1);
      assert Linked(ss[i - 1], acts[i - 1], ss[i]);
      StepAgrees(ss[i - 1], acts[i - 1], ss[i]);
    } else {
      assert InFlight(INIT) == [];
    }
  }

  /** While the client is open and the host serves, the flag the client will hold after reading
      the responses under way tells whether the host holds an engine, exactly unless the host's
      last state-bearing answer was lost to a failing engine Close. */
  lemma FlagTellsEngine(ss: seq<Sys>, acts: seq<Action>, i: nat)
    requires IsRun(ss, acts) && i < |ss| && !ss[i].client.closed && ss[i].serving
    ensures Eventually(ss[i]) == ss[i].host.eng.Some? <==> !ss[i].host.misreported
    ensures InFlight(ss[i]) == [] && !ss[i].host.misreported ==>
      ss[i].client.running == ss[i].host.eng.Some?
  {
    RunAgrees(ss, acts, i);
    RunInv(ss, acts, i);
  }

  predicate CloseFails(a: Action) { a.HostTakes? && !a.o.closeOk }

  lemma HonestStep(s: Sys, a: Action, s': Sys)
    requires Inv(s) && Step(s, a) == Some(s') && !CloseFails(a) && !s.host.misreported
    ensures !s'.host.misreported
  {
  }

  /** With engines whose Close never fails, agreement is unconditional. */
  lemma {:induction false} CleanClosesNeverMisreport(ss: seq<Sys>, acts: seq<Action>, i: nat)
    requires IsRun(ss, acts) && i < |ss|
    requires forall k :: 0 <= k < i ==> !CloseFails(acts[k])
    ensures !ss[i].host.misreported
    ensures !ss[i].client.closed && ss[i].serving ==> Eventually(ss[i]) == ss[i].host.eng.Some?
  {
    if i == 0 {
    } else {
      CleanClosesNeverMisreport(ss, acts, i - 1);
      RunInv(ss, acts, i - 1);
      assert Linked(ss[i - 1], acts[i - 1], ss[i]);
      HonestStep(ss[i - 1], acts[i - 1], ss[i]);
    }
    RunAgrees(ss, acts, i);
  }

  // ---- engines ----

  lemma StepKeepsBalance(s: Sys, a: Action, s': Sys)
    requires Inv(s) && Balanced(s.host) && (s.serving || s.host.eng.None?) && Step(s, a) == Some(s')
    ensures Balanced(s'.host) && (s'.serving || s'.host.eng.None?)
  {
    if a.HostTakes? {
      HandleKeepsBalance(s.host, s.up[0], a.o);
    } else if a.HostEof? {
      StopLeavesNothingOpen(s.host);
    }
  }

  /** In every state of every run at most one engine is open, namely the one held; once the host
      no longer serves, every engine that ever started has been closed exactly once. */
  lemma {:induction false} EnginesClosedOnce(ss: seq<Sys>, acts: seq<Action>, i: nat)
    requires IsRun(ss, acts) && i < |ss|
    ensures Balanced(ss[i].host) && (ss[i].serving || ss[i].host.eng.None?)
    ensures !ss[i].serving ==> forall e :: 0 <= e < |ss[i].host.closes| ==> ss[i].host.closes[e] == 1
  {
    if i == 0 {
    } else {
      EnginesClosedOnce(ss, acts, i - 1);
      RunInv(ss, acts, i - 1);
      assert Linked(ss[i - 1], acts[i - 1], ss[i]);
      StepKeepsBalance(ss[i - 1], acts[i - 1], ss[i]);
    }
  }
}
