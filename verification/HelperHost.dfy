/** The privileged helper's serve loop (core/tunnel/helperhost/helperhost.go) and its wire
    messages. Whether an engine starts or closes cleanly is the environment's choice. */
module HelperHost {
  import opened Options

  datatype ClientMessage =
    | ConnectReq(num: nat)
    | DisconnectReq(num: nat)
    | PingReq(num: nat)
    | Quit
    | Unknown

  /** The `state` text of a response: absent, "connected" or "disconnected". */
  datatype Reported = NoState | SaysConnected | SaysDisconnected

  datatype ServerMessage =
    | Response(num: nat, ok: bool, state: Reported)
    | Event

  /** The environment's answers while one message is handled. */
  datatype Oracle = Oracle(startOk: bool, closeOk: bool)

  /** `closes[e]` counts the Close calls on the e-th engine that started; `eng` is the one held.
      `misreported` is a history variable: the last answer that should have carried a state was
      the error of a failed Close. */
  datatype Host = Host(eng: Option<nat>, closes: seq<nat>, misreported: bool)

  const NEW_HOST: Host := Host(None, [], false)

  predicate HostOk(h: Host) {
    && (h.eng.Some? ==> h.eng.value < |h.closes|)
    && (h.misreported ==> h.eng.None?)
  }

  function CloseEngine(h: Host): Host
    requires HostOk(h)
  {
    if h.eng.None? then h
    else h.(eng := None, closes := h.closes[h.eng.value := h.closes[h.eng.value] + 1])
  }

  function HandleConnect(h: Host, n: nat, o: Oracle): (Host, ServerMessage) {
    if h.eng.Some? then (h, Response(n, false, NoState))
    else if !o.startOk then (h, Response(n, false, NoState))
    else (Host(Some(|h.closes|), h.closes + [0], false), Response(n, true, SaysConnected))
  }

  function HandleDisconnect(h: Host, n: nat, o: Oracle): (Host, ServerMessage)
    requires HostOk(h)
  {
    if h.eng.Some? && !o.closeOk then (CloseEngine(h).(misreported := true), Response(n, false, NoState))
    else (CloseEngine(h).(misreported := false), Response(n, true, SaysDisconnected))
  }

  function HandlePing(h: Host, n: nat): (Host, ServerMessage) {
    (h.(misreported := false), Response(n, true, if h.eng.Some? then SaysConnected else SaysDisconnected))
  }

  /** One message other than quit: the new state and the responses written. */
  function Handle(h: Host, m: ClientMessage, o: Oracle): (Host, seq<ServerMessage>)
    requires HostOk(h)
  {
    match m
    case ConnectReq(n) => var (h', r) := HandleConnect(h, n, o); (h', [r])
    case DisconnectReq(n) => var (h', r) := HandleDisconnect(h, n, o); (h', [r])
    case PingReq(n) => var (h', r) := HandlePing(h, n); (h', [r])
    case Quit => (CloseEngine(h), [])
    case Unknown => (h, [])
  }

  lemma HandleKeepsOk(h: Host, m: ClientMessage, o: Oracle)
    requires HostOk(h)
    ensures HostOk(Handle(h, m, o).0)
  {
  }

  // ---- engines are closed exactly once ----

  /** Every engine started so far was closed once, except the one held, which was not closed. */
  predicate Balanced(h: Host) {
    && HostOk(h)
    && forall e :: 0 <= e < |h.closes| ==> h.closes[e] == if h.eng == Some(e) then 0 else 1
  }

  lemma HandleKeepsBalance(h: Host, m: ClientMessage, o: Oracle)
    requires Balanced(h)
    ensures Balanced(Handle(h, m, o).0)
    ensures |h.closes| <= |Handle(h, m, o).0.closes| <= |h.closes| + 1
  {
  }

  lemma StopLeavesNothingOpen(h: Host)
    requires Balanced(h)
    ensures Balanced(CloseEngine(h)) && CloseEngine(h).eng.None?
  {
  }

  // ---- a whole connection ----

  /** The request numbers the loop answers: those before the first quit, in order. */
  function Requests(ms: seq<ClientMessage>): seq<nat> {
    if ms == [] || ms[0].Quit? then []
    else if ms[0].Unknown? then Requests(ms[1..])
    else [ms[0].num] + Requests(ms[1..])
  }

  function Answered(rs: seq<ServerMessage>): seq<nat> {
    if rs == [] then []
    else if rs[0].Event? then Answered(rs[1..])
    else [rs[0].num] + Answered(rs[1..])
  }

  lemma {:induction false} AnsweredConcat(xs: seq<ServerMessage>, ys: seq<ServerMessage>)
    ensures Answered(xs + ys) == Answered(xs) + Answered(ys)
  {
    if xs == [] {
      assert xs + ys == ys;
    } else {
      assert (xs + ys)[1..] == xs[1..] + ys;
      AnsweredConcat(xs[1..], ys);
    }
  }

  lemma {:induction false} RequestsConcat(xs: seq<ClientMessage>, m: ClientMessage)
    requires forall i :: 0 <= i < |xs| ==> !xs[i].Quit?
    ensures Requests(xs + [m]) == Requests(xs) + (if m.Quit? || m.Unknown? then [] else [m.num])
  {
    if xs == [] {
      assert xs + [m] == [m];
      assert Requests([]) == [];
      assert [m][1..] == [];
    } else {
      assert (xs + [m])[1..] == xs[1..] + [m];
      RequestsConcat(xs[1..], m);
    }
  }

  lemma {:induction false} RequestsUntilQuit(ms: seq<ClientMessage>, i: nat)
    requires i < |ms| && ms[i].Quit? && forall k :: 0 <= k < i ==> !ms[k].Quit?
    ensures Requests(ms) == Requests(ms[..i])
  {
    if i == 0 {
    } else {
      assert ms[..i][1..] == ms[1..][..i - 1];
      RequestsUntilQuit(ms[1..], i - 1);
    }
  }

  lemma AnsweredOne(m: ClientMessage, rs: seq<ServerMessage>, h: Host, o: Oracle)
    requires HostOk(h) && rs == Handle(h, m, o).1
    ensures Answered(rs) == if m.Quit? || m.Unknown? then [] else [m.num]
  {
    if !m.Quit? && !m.Unknown? {
      assert rs[1..] == [];
    }
  }

  /** The first `i` messages, none of them a quit, have been answered by `out`. */
  ghost predicate Served(ms: seq<ClientMessage>, i: nat, out: seq<ServerMessage>) {
    && i <= |ms|
    && (forall k :: 0 <= k < i ==> !ms[k].Quit?)
    && Answered(out) == Requests(ms[..i])
    && (forall k :: 0 <= k < |out| ==> out[k].Response?)
  }

  lemma ServedNone(ms: seq<ClientMessage>)
    ensures Served(ms, 0, [])
  {
    assert ms[..0] == [];
  }

  /** One more message, handled in state `h`. */
  lemma ServedNext(h: Host, ms: seq<ClientMessage>, i: nat, o: Oracle, out: seq<ServerMessage>, rs: seq<ServerMessage>)
    requires Balanced(h) && Served(ms, i, out) && i < |ms| && !ms[i].Quit? && rs == Handle(h, ms[i], o).1
    ensures Balanced(Handle(h, ms[i], o).0) && Served(ms, i + 1, out + rs)
  {
    HandleKeepsBalance(h, ms[i], o);
    assert ms[..i + 1] == ms[..i] + [ms[i]];
    RequestsConcat(ms[..i], ms[i]);
    AnsweredConcat(out, rs);
    AnsweredOne(ms[i], rs, h, o);
  }

  /** The helper's `Host`: its engine handle, updated message by message. */
  class Server {
    var eng: Option<nat>
    var closes: seq<nat>
    ghost var misreported: bool

    ghost function View(): Host
      reads this
    {
      Host(eng, closes, misreported)
    }

    constructor ()
      ensures View() == NEW_HOST
    {
      eng, closes, misreported := None, [], false;
    }

    method Connect(n: nat, o: Oracle) returns (r: ServerMessage)
      modifies this
      ensures (View(), r) == HandleConnect(old(View()), n, o)
      ensures r.Response? && r.num == n
      ensures r.ok <==> old(eng).None? && o.startOk
      ensures r.ok ==> eng == Some(|old(closes)|) && closes == old(closes) + [0] && r.state == SaysConnected
      ensures !r.ok ==> eng == old(eng) && closes == old(closes) && r.state == NoState
    {
      if eng.Some? {
        return Response(n, false, NoState);
      }
      if !o.startOk {
        return Response(n, false, NoState);
      }
      eng := Some(|closes|);
      closes := closes + [0];
      misreported := false;
      return Response(n, true, SaysConnected);
    }

    method Disconnect(n: nat, o: Oracle) returns (r: ServerMessage)
      requires HostOk(View())
      modifies this
      ensures (View(), r) == HandleDisconnect(old(View()), n, o)
      ensures r.Response? && r.num == n && eng == None
      ensures r.ok <==> old(eng).None? || o.closeOk
      ensures r.state == if r.ok then SaysDisconnected else NoState
      ensures old(eng).None? ==> closes == old(closes)
      ensures old(eng).Some? ==>
        var e := old(eng).value; closes == old(closes)[e := old(closes)[e] + 1]
    {
      var held := eng;
      eng := None;
      misreported := false;
      if held.None? {
        return Response(n, true, SaysDisconnected);
      }
      closes := closes[held.value := closes[held.value] + 1];
      if !o.closeOk {
        misreported := true;
        return Response(n, false, NoState);
      }
      return Response(n, true, SaysDisconnected);
    }

    method Ping(n: nat) returns (r: ServerMessage)
      modifies this`misreported
      ensures (View(), r) == HandlePing(old(View()), n)
      ensures r == Response(n, true, if eng.Some? then SaysConnected else SaysDisconnected)
    {
      misreported := false;
      return Response(n, true, if eng.Some? then SaysConnected else SaysDisconnected);
    }

    method StopEngine()
      requires HostOk(View())
      modifies this
      ensures View() == CloseEngine(old(View()))
      ensures eng == None && |closes| == |old(closes)|
    {
      var held := eng;
      eng := None;
      if held.Some? {
        closes := closes[held.value := closes[held.value] + 1];
      }
    }

    /** The serve loop over the messages one connection delivers before it ends; `oracle(i)`
        answers for message i. When it returns, by quit or by end of stream:
        - every engine ever started has been closed exactly once and none is held;
        - each connect, disconnect and ping read before a quit got exactly one response carrying
          its number, in request order, and nothing else was answered. */
    method Serve(ms: seq<ClientMessage>, oracle: nat -> Oracle) returns (out: seq<ServerMessage>)
      requires View() == NEW_HOST
      modifies this
      ensures eng.None?
      ensures forall e :: 0 <= e < |closes| ==> closes[e] == 1
      ensures Answered(out) == Requests(ms)
      ensures forall i :: 0 <= i < |out| ==> out[i].Response?
    {
      out := [];
      var i := 0;
      ServedNone(ms);
      while i < |ms|
        invariant Balanced(View())
        invariant Served(ms, i, out)
      {
        ghost var h := View();
        if ms[i].Quit? {
          RequestsUntilQuit(ms, i);
          StopLeavesNothingOpen(h);
          StopEngine();
          return;
        }
        var rs := Dispatch(ms[i], oracle(i));
        ServedNext(h, ms, i, oracle(i), out, rs);
        out := out + rs;
        i := i + 1;
      }
      assert ms[..i] == ms;
      StopLeavesNothingOpen(View());
      StopEngine();
    }

    method Dispatch(m: ClientMessage, o: Oracle) returns (rs: seq<ServerMessage>)
      requires HostOk(View()) && !m.Quit?
      modifies this
      ensures (View(), rs) == Handle(old(View()), m, o)
    {
      match m {
        case ConnectReq(n) => var r := Connect(n, o); return [r];
        case DisconnectReq(n) => var r := Disconnect(n, o); return [r];
        case PingReq(n) => var r := Ping(n); return [r];
        case Unknown => return [];
      }
    }
  }
}
