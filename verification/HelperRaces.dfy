/** What the two ends can disagree about (core/tunnel/helper_client.go against
    core/tunnel/helperhost/helperhost.go): the reachable state below shows that `FlagTellsEngine`
    needs its condition. */
module HelperRaces {
  import opened Options
  import opened HelperHost
  import opened HelperClient
  import opened HelperSystem

  /** Some run ends in `s`. */
  ghost predicate Reachable(s: Sys) {
    exists ss, acts :: IsRun(ss, acts) && ss[|acts|] == s
  }

  lemma Take(s: Sys, a: Action, s': Sys)
    requires Reachable(s) && HostOk(s.host) && Step(s, a) == Some(s')
    ensures Reachable(s')
  {
    var ss, acts :| IsRun(ss, acts) && ss[|acts|] == s;
    var more, ss' := acts + [a], ss + [s'];
    assert ss'[0] == ss[0];
    forall i | 0 <= i < |more| ensures Linked(ss'[i], more[i], ss'[i + 1]) {
      if i < |acts| {
        assert more[i] == acts[i] && ss'[i] == ss[i] && ss'[i + 1] == ss[i + 1];
      }
    }
    assert IsRun(ss', more) && ss'[|more|] == s';
  }

  /** Nothing is under way and no waiter is registered. */
  function Quiet(calls: seq<Call>, running: bool, host: Host): Sys {
    Sys(Client(|calls|, Some(map[]), false, false, running), calls, Reading, {}, false, None, false, [], [], host,
        true, false)
  }

  function Sent(k: Kind, n: nat): Call { Call(k, n, ToRegister, [], 0) }

  /** A request is sent, handled and its answer read before its waiter registers. */
  lemma Exchange(calls: seq<Call>, running: bool, host: Host, k: Kind, o: Oracle, r: ServerMessage)
    requires HostOk(host) && Reachable(Quiet(calls, running, host)) && r.Response? && |calls| + 1 < SEQ_RANGE
    requires Handle(host, Request(k, |calls| + 1), o).1 == [r]
    ensures var after := Handle(host, Request(k, |calls| + 1), o).0;
      Reachable(Quiet(calls + [Sent(k, |calls| + 1)], Observe(running, r), after))
  {
    var n := |calls| + 1;
    var s0 := Quiet(calls, running, host);
    var s1 := s0.(client := s0.client.(counter := n), calls := calls + [Call(k, n, ToSend, [], 0)]);
    Take(s0, NewRequest(k), s1);
    var sent := calls + [Sent(k, n)];
    var s2 := s1.(calls := sent, up := [Request(k, n)]);
    assert s1.calls[|calls| := Sent(k, n)] == sent;
    assert s1.up + [Request(k, n)] == [Request(k, n)];
    Take(s1, SendRequest(|calls|, true), s2);
    AnswerRead(s2, sent, running, host, Request(k, n), o, r);
  }

  lemma AnswerRead(s2: Sys, sent: seq<Call>, running: bool, host: Host, m: ClientMessage, o: Oracle, r: ServerMessage)
    requires s2 == Quiet(sent, running, host).(up := [m]) && Reachable(s2) && HostOk(host) && !m.Quit?
    requires r.Response? && Handle(host, m, o).1 == [r]
    ensures Reachable(Quiet(sent, Observe(running, r), Handle(host, m, o).0))
  {
    var after := Handle(host, m, o).0;
    var s3 := Quiet(sent, running, after).(down := [r]);
    HandleKeepsOk(host, m, o);
    assert [m][1..] == [] && s2.down + [r] == [r];
    Take(s2, HostTakes(o), s3);
    var s4 := Quiet(sent, running, after).(reader := Holding(r));
    assert [r][1..] == [];
    Take(s3, Scan, s4);
    var none: map<nat, Chan> := map[];
    assert none - {r.num} == none;
    Take(s4, DeliverHeld, Quiet(sent, Observe(running, r), after));
  }

  /** The client is open, the host serves, nothing is under way, and the client believes in an engine
      the host has let go. */
  predicate Misled(s: Sys) {
    !s.client.closed && s.serving && s.up == [] && InFlight(s) == [] && s.client.running && s.host.eng.None?
  }

  /** A disconnect whose engine Close fails is answered without a state, so the flag stays set. */
  lemma FailedCloseMisleads()
    ensures exists s :: Reachable(s) && Misled(s)
  {
    assert IsRun([INIT], []);
    assert Quiet([], false, NEW_HOST) == INIT;
    var held := Host(Some(0), [0], false);
    Exchange([], false, NEW_HOST, ReqConnect, Oracle(true, true), Response(1, true, SaysConnected));
    var one := [Sent(ReqConnect, 1)];
    assert [] + one == one && NEW_HOST.closes + [0] == [0];
    Exchange(one, true, held, ReqDisconnect, Oracle(true, false), Response(2, false, NoState));
    var after := Handle(held, Request(ReqDisconnect, 2), Oracle(true, false)).0;
    var end := Quiet(one + [Sent(ReqDisconnect, 2)], true, after);
    assert Reachable(end) && Misled(end);
  }
}
