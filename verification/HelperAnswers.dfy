/** What an answer means (core/tunnel/helper_client.go against core/tunnel/helperhost/helperhost.go):
    whatever a call gets was written by the host while it handled that very request, and says what
    the host then did. */
module HelperAnswers {
  import opened Options
  import opened HelperHost
  import opened HelperClient
  import opened HelperSystem

  // ---- what the host writes ----

  /** The host takes request `m` from its stream and answers `r`. */
  ghost predicate Answers(s: Sys, a: Action, s': Sys, m: ClientMessage, r: ServerMessage) {
    a.HostTakes? && s.up != [] && s.up[0] == m && s'.down == s.down + [r] && HelperSystem.Linked(s, a, s')
  }

  /** Connect: positive exactly when none was held and the engine started; then the host holds it. */
  lemma ConnectAnswer(s: Sys, a: Action, s': Sys, n: nat, r: ServerMessage)
    requires Answers(s, a, s', ConnectReq(n), r)
    ensures r.Response? && r.num == n
    ensures r.ok <==> s.host.eng == None && a.o.startOk
    ensures r.ok ==>
      r.state == SaysConnected && s'.host.eng == Some(|s.host.closes|) && s'.host.closes == s.host.closes + [0]
    ensures !r.ok ==> r.state == NoState && s'.host.eng == s.host.eng && s'.host.closes == s.host.closes
  {
    assert s'.down[|s.down|] == r;
  }

  /** Disconnect: no engine is held afterwards; positive exactly when there was none or it closed
      cleanly. */
  lemma DisconnectAnswer(s: Sys, a: Action, s': Sys, n: nat, r: ServerMessage)
    requires Answers(s, a, s', DisconnectReq(n), r)
    ensures r.Response? && r.num == n && s'.host.eng == None && |s'.host.closes| == |s.host.closes|
    ensures r.ok <==> s.host.eng == None || a.o.closeOk
    ensures r.state == if r.ok then SaysDisconnected else NoState
  {
    assert s'.down[|s.down|] == r;
  }

  /** Ping: always positive, and tells whether an engine is held. */
  lemma PingAnswer(s: Sys, a: Action, s': Sys, n: nat, r: ServerMessage)
    requires Answers(s, a, s', PingReq(n), r)
    ensures r == Response(n, true, if s.host.eng == None then SaysDisconnected else SaysConnected)
    ensures s'.host.eng == s.host.eng && s'.host.closes == s.host.closes
  {
    assert s'.down[|s.down|] == r;
  }

  /** Every request the host takes is answered. */
  lemma EveryRequestIsAnswered(s: Sys, a: Action, s': Sys)
    requires HelperSystem.Linked(s, a, s') && a.HostTakes?
    ensures s.up != []
    ensures s.up[0].ConnectReq? || s.up[0].DisconnectReq? || s.up[0].PingReq? ==>
      s'.down != [] && Answers(s, a, s', s.up[0], s'.down[|s'.down| - 1])
    ensures s.up[0].Quit? || s.up[0].Unknown? ==> s'.down == s.down
  {
  }

  // ---- engines and positive answers ----

  /** The numbers of the connect requests answered positively in the first `i` steps, in order. */
  ghost function Granted(ss: seq<Sys>, acts: seq<Action>, i: nat): seq<nat>
    requires |ss| == |acts| + 1 && i <= |acts|
  {
    if i == 0 then []
    else
      var s, a, s' := ss[i - 1], acts[i - 1], ss[i];
      Granted(ss, acts, i - 1) +
      (if a.HostTakes? && s.up != [] && s.up[0].ConnectReq? && s'.down != [] && Positive(s'.down[|s'.down| - 1])
       then [s.up[0].num] else [])
  }

  predicate Positive(m: ServerMessage) { m.Response? && m.ok }

  /** Engine `e` was started in step `k`, on the request numbered `n`. */
  ghost predicate StartedBy(ss: seq<Sys>, acts: seq<Action>, k: nat, e: nat, n: nat) {
    && |ss| == |acts| + 1 && k < |acts|
    && acts[k].HostTakes? && acts[k].o.startOk && ss[k].up != [] && ss[k].up[0] == ConnectReq(n)
    && |ss[k].host.closes| == e && ss[k + 1].host.closes == ss[k].host.closes + [0] && ss[k + 1].host.eng == Some(e)
  }

  /** A step that answers no connect positively starts no engine. */
  lemma EnginesStep(s: Sys, a: Action, s': Sys)
    requires HelperSystem.Linked(s, a, s')
    ensures !(a.HostTakes? && s.up != [] && s.up[0].ConnectReq?) ==> |s'.host.closes| == |s.host.closes|
  {
  }

  /** Step `k` either starts the next engine and grants its request, or neither. */
  lemma GrantedStep(ss: seq<Sys>, acts: seq<Action>, k: nat)
    requires IsRun(ss, acts) && k < |acts|
    ensures var before, after := Granted(ss, acts, k), Granted(ss, acts, k + 1);
      || (after == before && |ss[k + 1].host.closes| == |ss[k].host.closes|)
      || (exists n :: after == before + [n] && StartedBy(ss, acts, k, |ss[k].host.closes|, n)
                   && |ss[k + 1].host.closes| == |ss[k].host.closes| + 1)
  {
    var s, a, s' := ss[k], acts[k], ss[k + 1];
    assert HelperSystem.Linked(s, a, s');
    EnginesStep(s, a, s');
    if a.HostTakes? && s.up != [] && s.up[0].ConnectReq? {
      EveryRequestIsAnswered(s, a, s');
      var n, r := s.up[0].num, s'.down[|s'.down| - 1];
      ConnectAnswer(s, a, s', n, r);
      if r.ok {
        assert Granted(ss, acts, k + 1) == Granted(ss, acts, k) + [n];
        assert StartedBy(ss, acts, k, |s.host.closes|, n);
      }
    }
  }

  /** Engine `e` was started in one of the first `i` steps, on the request numbered `n`. */
  ghost predicate Started(ss: seq<Sys>, acts: seq<Action>, i: nat, e: nat, n: nat) {
    exists k :: 0 <= k < i && StartedBy(ss, acts, k, e, n)
  }

  lemma StartedStays(ss: seq<Sys>, acts: seq<Action>, i: nat, e: nat, n: nat)
    requires Started(ss, acts, i, e, n)
    ensures Started(ss, acts, i + 1, e, n)
  {
    var k :| 0 <= k < i && StartedBy(ss, acts, k, e, n);
  }

  /** The positive connect answers are as many as the engines ever started, and the e-th of them
      answers the request that started engine e. */
  lemma {:induction false} EnginesAreGranted(ss: seq<Sys>, acts: seq<Action>, i: nat)
    requires IsRun(ss, acts) && i <= |acts|
    ensures |Granted(ss, acts, i)| == |ss[i].host.closes|
    ensures forall e :: 0 <= e < |Granted(ss, acts, i)| ==> Started(ss, acts, i, e, Granted(ss, acts, i)[e])
  {
    if i == 0 {
    } else {
      EnginesAreGranted(ss, acts, i - 1);
      GrantedStep(ss, acts, i - 1);
      var before, after := Granted(ss, acts, i - 1), Granted(ss, acts, i);
      forall e | 0 <= e < |after| ensures Started(ss, acts, i, e, after[e]) {
        NextStarted(ss, acts, i - 1, before, after, e);
      }
    }
  }

  lemma NextStarted(ss: seq<Sys>, acts: seq<Action>, i: nat, before: seq<nat>, after: seq<nat>, e: nat)
    requires forall d :: 0 <= d < |before| ==> Started(ss, acts, i, d, before[d])
    requires e < |after|
    requires after == before || exists n :: after == before + [n] && StartedBy(ss, acts, i, |before|, n)
    ensures Started(ss, acts, i + 1, e, after[e])
  {
    if e < |before| {
      assert after[e] == before[e];
      StartedStays(ss, acts, i, e, before[e]);
    } else {
      assert StartedBy(ss, acts, i, e, after[e]);
    }
  }

  // ---- answers under way ----

  predicate HasGot(c: Call, m: ServerMessage) {
    (c.pc.Leaving? && c.pc.outcome == Got(m)) || (c.pc.Returned? && c.pc.outcome == Got(m))
  }

  /** `m` is on its way to a call, or has arrived. */
  predicate UnderWay(s: Sys, m: ServerMessage) {
    || m in s.down
    || (s.reader.Holding? && s.reader.msg == m)
    || (s.reader.Handing? && s.reader.msg == m)
    || exists w :: 0 <= w < |s.calls| && Holds(s.calls[w], m)
  }

  /** Messages come from the host, from a close, or are events. */
  lemma StepBrings(s: Sys, a: Action, s': Sys, m: ServerMessage)
    requires HelperSystem.Linked(s, a, s') && UnderWay(s', m) && !UnderWay(s, m)
    ensures m.Event? || m == CLOSED_MESSAGE || (a.HostTakes? && s.up != [] && s'.down == s.down + [m])
  {
    match a {
      case HostTakes(o) => HostBrings(s, a, s', m);
      case NewRequest(_) => CallsBring(s, a, s', m);
      case SendRequest(_, _) => CallsBring(s, a, s', m);
      case RegisterWaiter(_) => CallsBring(s, a, s', m);
      case Receive(_) => CallsBring(s, a, s', m);
      case Timeout(_) => CallsBring(s, a, s', m);
      case Leave(_) => CallsBring(s, a, s', m);
      case Notify(_) => NotifyBrings(s, a, s', m);
      case Scan => ReaderBrings(s, a, s', m);
      case ScanEof => ReaderBrings(s, a, s', m);
      case DeliverHeld => ReaderBrings(s, a, s', m);
      case ReaderClose => ReaderBrings(s, a, s', m);
      case ReaderCheck => ReaderBrings(s, a, s', m);
      case HandOver => HandOverBrings(s, a, s', m);
      case _ => OthersBring(s, a, s', m);
    }
  }

  lemma HostBrings(s: Sys, a: Action, s': Sys, m: ServerMessage)
    requires HelperSystem.Linked(s, a, s') && a.HostTakes? && UnderWay(s', m) && !UnderWay(s, m)
    ensures s.up != [] && s'.down == s.down + [m]
  {
    assert s'.calls == s.calls && s'.reader == s.reader;
    assert m in s'.down && m !in s.down;
  }

  predicate Holds(c: Call, m: ServerMessage) { m in c.buffer || HasGot(c, m) }

  lemma CallBrings(s: Sys, a: Action, s': Sys, m: ServerMessage, w: nat)
    requires a.SendRequest? || a.RegisterWaiter? || a.Receive? || a.Timeout? || a.Leave?
    requires a.w < |s.calls| && CallStep(s, a) == Some(s') && w < |s'.calls| && Holds(s'.calls[w], m)
    ensures w < |s.calls| && Holds(s.calls[w], m)
  {
    CallFrame(s, a, s');
    if w == a.w {
      if a.Receive? {
        Received(s, a, s');
        assert s.calls[w].buffer == [s.calls[w].buffer[0]] + s.calls[w].buffer[1..];
      } else {
        CallChanges(s, a, s');
      }
    }
  }

  /** A step of a call changes no other call. */
  lemma CallFrame(s: Sys, a: Action, s': Sys)
    requires a.SendRequest? || a.RegisterWaiter? || a.Receive? || a.Timeout? || a.Leave?
    requires a.w < |s.calls| && CallStep(s, a) == Some(s')
    ensures |s'.calls| == |s.calls|
    ensures forall q :: 0 <= q < |s.calls| && q != a.w ==> s'.calls[q] == s.calls[q]
  {
  }

  lemma Received(s: Sys, a: Action, s': Sys)
    requires a.Receive? && a.w < |s.calls| && CallStep(s, a) == Some(s')
    ensures |s'.calls| == |s.calls|
    ensures var c, c' := s.calls[a.w], s'.calls[a.w];
      c.buffer != [] && c'.buffer == c.buffer[1..] && c'.pc == Leaving(Got(c.buffer[0]))
  {
  }

  /** Without receiving it, a call gets no message. */
  lemma CallChanges(s: Sys, a: Action, s': Sys)
    requires a.SendRequest? || a.RegisterWaiter? || a.Timeout? || a.Leave?
    requires a.w < |s.calls| && CallStep(s, a) == Some(s')
    ensures |s'.calls| == |s.calls|
    ensures s'.calls[a.w].buffer == s.calls[a.w].buffer && NothingNew(s.calls[a.w], s'.calls[a.w])
  {
    if a.SendRequest? {
      SendChanges(s, a, s');
    } else if a.RegisterWaiter? {
      RegisterChanges(s, a, s');
    } else if a.Timeout? {
      TimeoutChanges(s, a, s');
    } else {
      LeaveChanges(s, a, s');
    }
  }

  lemma SendChanges(s: Sys, a: Action, s': Sys)
    requires a.SendRequest? && a.w < |s.calls| && CallStep(s, a) == Some(s')
    ensures |s'.calls| == |s.calls|
    ensures s'.calls[a.w].buffer == s.calls[a.w].buffer && NothingNew(s.calls[a.w], s'.calls[a.w])
  {
  }

  lemma RegisterChanges(s: Sys, a: Action, s': Sys)
    requires a.RegisterWaiter? && a.w < |s.calls| && CallStep(s, a) == Some(s')
    ensures |s'.calls| == |s.calls|
    ensures s'.calls[a.w].buffer == s.calls[a.w].buffer && NothingNew(s.calls[a.w], s'.calls[a.w])
  {
  }

  lemma TimeoutChanges(s: Sys, a: Action, s': Sys)
    requires a.Timeout? && a.w < |s.calls| && CallStep(s, a) == Some(s')
    ensures |s'.calls| == |s.calls|
    ensures s'.calls[a.w].buffer == s.calls[a.w].buffer && NothingNew(s.calls[a.w], s'.calls[a.w])
  {
  }

  lemma LeaveChanges(s: Sys, a: Action, s': Sys)
    requires a.Leave? && a.w < |s.calls| && CallStep(s, a) == Some(s')
    ensures |s'.calls| == |s.calls|
    ensures s'.calls[a.w].buffer == s.calls[a.w].buffer && NothingNew(s.calls[a.w], s'.calls[a.w])
  {
  }

  predicate NothingNew(c: Call, c': Call) {
    || c' == c
    || (c'.pc.Leaving? && c'.pc.outcome == TimedOut)
    || (c'.pc.Returned? && (c'.pc.outcome == Failed || (c.pc.Leaving? && c'.pc.outcome == c.pc.outcome)))
    || (!c'.pc.Leaving? && !c'.pc.Returned?)
  }

  lemma CallsBring(s: Sys, a: Action, s': Sys, m: ServerMessage)
    requires HelperSystem.Linked(s, a, s') && UnderWay(s', m)
    requires a.NewRequest? || a.SendRequest? || a.RegisterWaiter? || a.Receive? || a.Timeout? || a.Leave?
    ensures UnderWay(s, m)
  {
    if w :| 0 <= w < |s'.calls| && Holds(s'.calls[w], m) {
      if a.NewRequest? {
        assert w < |s.calls| && s.calls[w] == s'.calls[w];
      } else {
        CallBrings(s, a, s', m, w);
      }
      assert Holds(s.calls[w], m);
    } else {
      CallsOnly(s, a, s');
    }
  }

  lemma CallsOnly(s: Sys, a: Action, s': Sys)
    requires HelperSystem.Linked(s, a, s')
    requires a.NewRequest? || a.SendRequest? || a.RegisterWaiter? || a.Receive? || a.Timeout? || a.Leave?
    ensures s'.down == s.down && s'.reader == s.reader
  {
  }

  lemma NotifyBrings(s: Sys, a: Action, s': Sys, m: ServerMessage)
    requires HelperSystem.Linked(s, a, s') && a.Notify? && UnderWay(s', m) && !UnderWay(s, m)
    ensures m == CLOSED_MESSAGE
  {
    assert s'.down == s.down && s'.reader == s.reader;
    var w :| 0 <= w < |s'.calls| && Holds(s'.calls[w], m);
    assert w == a.w;
  }

  /** The reader hands a message on, it makes none. */
  lemma ReaderBrings(s: Sys, a: Action, s': Sys, m: ServerMessage)
    requires HelperSystem.Linked(s, a, s') && UnderWay(s', m)
    requires a.Scan? || a.ScanEof? || a.DeliverHeld? || a.ReaderClose? || a.ReaderCheck?
    ensures UnderWay(s, m)
  {
    assert s'.calls == s.calls;
    if a.Scan? {
      assert s.down == [s.down[0]] + s.down[1..];
    }
  }

  lemma HandOverBrings(s: Sys, a: Action, s': Sys, m: ServerMessage)
    requires HelperSystem.Linked(s, a, s') && UnderWay(s', m) && a.HandOver?
    ensures UnderWay(s, m)
  {
    assert s'.down == s.down;
    if w :| 0 <= w < |s'.calls| && Holds(s'.calls[w], m) {
      assert w != s.reader.ch ==> s'.calls[w] == s.calls[w];
      assert w == s.reader.ch ==> m == s.reader.msg || Holds(s.calls[w], m);
    }
  }

  lemma OthersBring(s: Sys, a: Action, s': Sys, m: ServerMessage)
    requires HelperSystem.Linked(s, a, s') && UnderWay(s', m) && !UnderWay(s, m)
    requires a.CloseCall? || a.WriteQuit? || a.HostEof? || a.HostLogs?
    ensures m.Event?
  {
    assert s'.calls == s.calls && s'.reader == s.reader;
  }

  // ---- requests under way ----

  /** A request in the stream is that of the call with its number. */
  predicate Requested(s: Sys, x: ClientMessage) {
    match x
    case ConnectReq(n) => 1 <= n <= |s.calls| && s.calls[n - 1].kind == ReqConnect
    case DisconnectReq(n) => 1 <= n <= |s.calls| && s.calls[n - 1].kind == ReqDisconnect
    case PingReq(n) => 1 <= n <= |s.calls| && s.calls[n - 1].kind == ReqPing
    case Quit => true
    case Unknown => false
  }

  ghost predicate UpRequested(s: Sys) { forall x :: x in s.up ==> Requested(s, x) }

  /** Calls keep their kind. */
  lemma KindsStay(s: Sys, a: Action, s': Sys)
    requires HelperSystem.Linked(s, a, s')
    ensures |s.calls| <= |s'.calls|
    ensures forall w :: 0 <= w < |s.calls| ==> s'.calls[w].kind == s.calls[w].kind
  {
    if a.SendRequest? || a.RegisterWaiter? || a.Receive? || a.Timeout? || a.Leave? {
      CallKeepsKinds(s, a, s');
    } else {
      OthersKeepKinds(s, a, s');
    }
  }

  lemma CallKeepsKinds(s: Sys, a: Action, s': Sys)
    requires HelperSystem.Linked(s, a, s')
    requires a.SendRequest? || a.RegisterWaiter? || a.Receive? || a.Timeout? || a.Leave?
    ensures |s.calls| == |s'.calls|
    ensures forall w :: 0 <= w < |s.calls| ==> s'.calls[w].kind == s.calls[w].kind
  {
  }

  lemma OthersKeepKinds(s: Sys, a: Action, s': Sys)
    requires HelperSystem.Linked(s, a, s')
    requires !(a.SendRequest? || a.RegisterWaiter? || a.Receive? || a.Timeout? || a.Leave?)
    ensures |s.calls| <= |s'.calls|
    ensures forall w :: 0 <= w < |s.calls| ==> s'.calls[w].kind == s.calls[w].kind
  {
  }

  lemma StepKeepsUp(s: Sys, a: Action, s': Sys)
    requires Inv(s) && UpRequested(s) && HelperSystem.Linked(s, a, s')
    ensures UpRequested(s')
  {
    KindsStay(s, a, s');
    forall x | x in s'.up ensures Requested(s', x) {
      UpGrows(s, a, s', x);
      assert Requested(s, x);
    }
  }

  lemma UpGrows(s: Sys, a: Action, s': Sys, x: ClientMessage)
    requires Inv(s) && HelperSystem.Linked(s, a, s') && x in s'.up
    ensures x !in s.up ==> Requested(s, x)
  {
    if a.SendRequest? {
      assert CallOk(s, a.w);
    }
  }

  lemma {:induction false} RunUp(ss: seq<Sys>, acts: seq<Action>, i: nat)
    requires IsRun(ss, acts) && i < |ss|
    ensures UpRequested(ss[i])
  {
    if i == 0 {
    } else {
      RunUp(ss, acts, i - 1);
      RunInv(ss, acts, i - 1);
      assert HelperSystem.Linked(ss[i - 1], acts[i - 1], ss[i]);
      StepKeepsUp(ss[i - 1], acts[i - 1], ss[i]);
    }
  }

  // ---- the promise ----

  /** In step `k` the host wrote `m` in answer to the request of the call with its number. */
  ghost predicate WrittenIn(ss: seq<Sys>, acts: seq<Action>, k: nat, m: ServerMessage) {
    && |ss| == |acts| + 1 && k < |acts| && m.Response? && 1 <= m.num <= |ss[k].calls|
    && Answers(ss[k], acts[k], ss[k + 1], Request(ss[k].calls[m.num - 1].kind, m.num), m)
  }

  lemma WrittenNow(ss: seq<Sys>, acts: seq<Action>, k: nat, m: ServerMessage)
    requires IsRun(ss, acts) && k < |acts| && acts[k].HostTakes? && ss[k].up != [] && ss[k + 1].down == ss[k].down + [m]
    ensures WrittenIn(ss, acts, k, m)
  {
    RunUp(ss, acts, k);
    var s, a, s' := ss[k], acts[k], ss[k + 1];
    assert HelperSystem.Linked(s, a, s');
    var x := s.up[0];
    assert Requested(s, x);
    assert s'.down[|s.down|] == m;
    EveryRequestIsAnswered(s, a, s');
    AnswerNumber(s, a, s', x, m);
  }

  lemma QuitIsNotAnswered(s: Sys, a: Action, s': Sys, m: ServerMessage)
    ensures !Answers(s, a, s', Quit, m)
  {
    assert |s.down + [m]| != |s.down|;
  }

  lemma AnswerNumber(s: Sys, a: Action, s': Sys, x: ClientMessage, m: ServerMessage)
    requires Answers(s, a, s', x, m) && Requested(s, x)
    ensures m.Response? && 1 <= m.num <= |s.calls| && x == Request(s.calls[m.num - 1].kind, m.num)
  {
    QuitIsNotAnswered(s, a, s', m);
    match x {
      case ConnectReq(n) => ConnectAnswer(s, a, s', n, m);
      case DisconnectReq(n) => DisconnectAnswer(s, a, s', n, m);
      case PingReq(n) => PingAnswer(s, a, s', n, m);
      case Quit => assert false;
    }
  }

  /** Every response under way but the closing notice was written for its call. */
  lemma {:induction false} ResponsesAreWritten(ss: seq<Sys>, acts: seq<Action>, i: nat, m: ServerMessage)
    requires IsRun(ss, acts) && i < |ss| && UnderWay(ss[i], m) && m.Response? && m != CLOSED_MESSAGE
    ensures exists k :: 0 <= k < i && WrittenIn(ss, acts, k, m)
  {
    if i == 0 {
    } else {
      var s, a, s' := ss[i - 1], acts[i - 1], ss[i];
      assert HelperSystem.Linked(s, a, s');
      if UnderWay(s, m) {
        ResponsesAreWritten(ss, acts, i - 1, m);
      } else {
        StepBrings(s, a, s', m);
        WrittenNow(ss, acts, i - 1, m);
      }
    }
  }

  lemma {:induction false} KindsKept(ss: seq<Sys>, acts: seq<Action>, k: nat, i: nat, w: nat)
    requires IsRun(ss, acts) && k <= i < |ss| && w < |ss[k].calls|
    ensures w < |ss[i].calls| && ss[i].calls[w].kind == ss[k].calls[w].kind
    decreases i
  {
    if k == i {
    } else {
      KindsKept(ss, acts, k, i - 1, w);
      assert HelperSystem.Linked(ss[i - 1], acts[i - 1], ss[i]);
      KindsStay(ss[i - 1], acts[i - 1], ss[i]);
    }
  }

  /** In step `k`, before state `i`, the host answered request `x` with `m`. */
  ghost predicate AnsweredIn(ss: seq<Sys>, acts: seq<Action>, i: nat, k: nat, x: ClientMessage, m: ServerMessage) {
    k < i && |ss| == |acts| + 1 && k < |acts| && Answers(ss[k], acts[k], ss[k + 1], x, m)
  }

  lemma WrittenAnswers(ss: seq<Sys>, acts: seq<Action>, i: nat, k: nat, m: ServerMessage, c: Call)
    requires IsRun(ss, acts) && k < i < |ss| && WrittenIn(ss, acts, k, m) && m.num == c.num
    requires c.num - 1 < |ss[i].calls| && ss[i].calls[c.num - 1] == c
    ensures AnsweredIn(ss, acts, i, k, Request(c.kind, c.num), m)
  {
    KindsKept(ss, acts, k, i, c.num - 1);
  }

  /** What a call returned with, other than the closing notice, is what the host wrote when it handled
      that call's own request. */
  lemma AnswersAreGenuine(ss: seq<Sys>, acts: seq<Action>, i: nat, w: nat, c: Call, m: ServerMessage)
    requires IsRun(ss, acts) && i < |ss| && w < |ss[i].calls| && ss[i].calls[w] == c
    requires c.pc == Returned(Got(m)) && m != CLOSED_MESSAGE
    ensures exists k :: AnsweredIn(ss, acts, i, k, Request(c.kind, c.num), m)
  {
    RunInv(ss, acts, i);
    assert CallOk(ss[i], w);
    assert Holds(ss[i].calls[w], m);
    ResponsesAreWritten(ss, acts, i, m);
    var k :| 0 <= k < i && WrittenIn(ss, acts, k, m);
    WrittenAnswers(ss, acts, i, k, m, c);
  }

  /** The host was left without an engine when it answered in step `k`. */
  ghost predicate EndedIn(ss: seq<Sys>, acts: seq<Action>, i: nat, k: nat, n: nat, m: ServerMessage) {
    AnsweredIn(ss, acts, i, k, DisconnectReq(n), m) && ss[k + 1].host.eng == None
  }

  /** A connect call that got a positive answer had its own engine started; a disconnect call that got
      one had the host without an engine. The closing notice is never positive. */
  lemma PositiveAnswersMean(ss: seq<Sys>, acts: seq<Action>, i: nat, w: nat, c: Call, m: ServerMessage)
    requires IsRun(ss, acts) && i < |ss| && w < |ss[i].calls| && ss[i].calls[w] == c
    requires c.pc == Returned(Got(m)) && m.Response? && m.ok
    ensures c.kind == ReqConnect ==> exists e :: Started(ss, acts, i, e, c.num)
    ensures c.kind == ReqDisconnect ==> exists k :: EndedIn(ss, acts, i, k, c.num, m)
  {
    AnswersAreGenuine(ss, acts, i, w, c, m);
    var k: nat :| AnsweredIn(ss, acts, i, k, Request(c.kind, c.num), m);
    if c.kind == ReqConnect {
      ConnectAnswer(ss[k], acts[k], ss[k + 1], c.num, m);
      assert StartedBy(ss, acts, k, |ss[k].host.closes|, c.num);
      assert Started(ss, acts, i, |ss[k].host.closes|, c.num);
    } else if c.kind == ReqDisconnect {
      DisconnectAnswer(ss[k], acts[k], ss[k + 1], c.num, m);
      assert EndedIn(ss, acts, i, k, c.num, m);
    }
  }
}
