/** The control client's fields under its mutex and the critical sections that change them
    (core/tunnel/helper_client.go). `pending == None` is Go's nil map: reading it or deleting
    from it is harmless, writing to it panics. */
module HelperClient {
  import opened Options
  import opened HelperHost

  /** A waiter's channel, by number. */
  type Chan = nat

  datatype Client = Client(
    counter: nat,
    pending: Option<map<nat, Chan>>,
    closed: bool,
    intentional: bool,
    running: bool)

  const DIALED: Client := Client(0, Some(map[]), false, false, false)

  /** The message `close` sends to every waiter it finds. */
  const CLOSED_MESSAGE: ServerMessage := Response(0, false, NoState)

  /** The sequence counter is an unsigned 64-bit number. */
  const SEQ_RANGE := 0x1_0000_0000_0000_0000

  function Numbered(c: Client): (Client, nat) {
    var n := (c.counter + 1) % SEQ_RANGE;
    (c.(counter := n), n)
  }

  /** The number of the k-th request since dialling. */
  function NthNumber(c: Client, k: nat): nat
    decreases k
  {
    if k == 0 then c.counter else NthNumber(Numbered(c).0, k - 1)
  }

  lemma WrapOnce(x: nat)
    ensures (x + SEQ_RANGE) % SEQ_RANGE == x % SEQ_RANGE
  {
  }

  lemma {:induction false} WrapMany(x: nat, m: nat)
    ensures (x + m * SEQ_RANGE) % SEQ_RANGE == x % SEQ_RANGE
    decreases m
  {
    if m == 0 {
    } else {
      WrapMany(x, m - 1);
      WrapOnce(x + (m - 1) * SEQ_RANGE);
      assert x + (m - 1) * SEQ_RANGE + SEQ_RANGE == x + m * SEQ_RANGE;
    }
  }

  lemma {:induction false} NthIsModular(c: Client, k: nat)
    requires c.counter < SEQ_RANGE
    ensures NthNumber(c, k) == (c.counter + k) % SEQ_RANGE
    decreases k
  {
    if k == 0 {
    } else {
      var next := Numbered(c).0;
      NthIsModular(next, k - 1);
      if next.counter == 0 {
        WrapOnce(k - 1);
        assert c.counter + k == k - 1 + SEQ_RANGE;
      } else {
        assert next.counter == c.counter + 1;
      }
    }
  }

  /** Equal remainders are a multiple apart. */
  lemma SameRemainder(j: nat, k: nat)
    requires j <= k
    ensures j % SEQ_RANGE == k % SEQ_RANGE <==> (k - j) % SEQ_RANGE == 0
  {
    var m := (k - j) / SEQ_RANGE;
    var r := (k - j) % SEQ_RANGE;
    assert k == j + r + m * SEQ_RANGE;
    WrapMany(j + r, m);
    ShortShift(j, r);
  }

  lemma ShortShift(j: nat, r: nat)
    requires r < SEQ_RANGE
    ensures (j + r) % SEQ_RANGE == j % SEQ_RANGE <==> r == 0
  {
    var q, x := j / SEQ_RANGE, j % SEQ_RANGE;
    assert j + r == x + r + q * SEQ_RANGE;
    WrapMany(x + r, q);
    if x + r >= SEQ_RANGE {
      WrapOnce(x + r - SEQ_RANGE);
    }
  }

  /** Two requests get the same number exactly when a multiple of 2^64 requests lies between them. */
  lemma NumbersRepeatExactly(j: nat, k: nat)
    requires j <= k
    ensures NthNumber(DIALED, j) == NthNumber(DIALED, k) <==> (k - j) % SEQ_RANGE == 0
  {
    NthIsModular(DIALED, j);
    NthIsModular(DIALED, k);
    SameRemainder(j, k);
  }

  datatype Registration = Refused | Registered(client: Client) | Panic

  /** The locked part of `await` that registers a waiter. */
  function Register(c: Client, n: nat, ch: Chan): Registration {
    if c.closed then Refused
    else if c.pending.None? then Panic
    else Registered(c.(pending := Some(c.pending.value[n := ch])))
  }

  /** `delete(c.pending, n)`. */
  function Unregister(c: Client, n: nat): Client {
    if c.pending.None? then c else c.(pending := Some(c.pending.value - {n}))
  }

  /** What a response does to the `running` flag. */
  function Observe(running: bool, m: ServerMessage): bool {
    if m.Event? then running
    else if m.state.SaysDisconnected? then false
    else if m.ok && m.state.SaysConnected? then true
    else running
  }

  function Waiter(c: Client, n: nat): Option<Chan> {
    if c.pending.Some? && n in c.pending.value then Some(c.pending.value[n]) else None
  }

  /** The locked part of `readLoop`: note the state, take the waiter out. */
  function Deliver(c: Client, m: ServerMessage): (Client, Option<Chan>)
    requires m.Response?
  {
    (Unregister(c.(running := Observe(c.running, m)), m.num), Waiter(c, m.num))
  }

  /** The locked part of `close`: the waiters to notify, or None when already closed. */
  function Close(c: Client, quit: bool): (Client, Option<set<Chan>>) {
    if c.closed then (c, None)
    else (c.(closed := true, intentional := quit, running := false, pending := None),
          Some(if c.pending.None? then {} else c.pending.value.Values))
  }

  /** The fields of `helperClient` under its mutex, with one method per critical section. */
  class ControlClient {
    var counter: nat
    var pending: Option<map<nat, Chan>>
    var closed: bool
    var intentional: bool
    var running: bool

    function View(): Client
      reads this
    {
      Client(counter, pending, closed, intentional, running)
    }

    constructor ()
      ensures View() == DIALED
    {
      counter, pending := 0, Some(map[]);
      closed, intentional, running := false, false, false;
    }

    method NextSeq() returns (n: nat)
      modifies this`counter
      ensures (View(), n) == Numbered(old(View()))
    {
      counter := (counter + 1) % SEQ_RANGE;
      return counter;
    }

    method RegisterLocked(n: nat, ch: Chan) returns (ok: bool)
      requires !closed ==> pending.Some?
      modifies this`pending
      ensures ok == !closed
      ensures ok ==> Register(old(View()), n, ch) == Registered(View())
      ensures !ok ==> View() == old(View()) && Register(old(View()), n, ch) == Refused
      ensures ok ==> pending == Some(old(pending).value[n := ch])
    {
      if closed {
        return false;
      }
      pending := Some(pending.value[n := ch]);
      return true;
    }

    method DeliverLocked(m: ServerMessage) returns (ch: Option<Chan>)
      requires m.Response?
      modifies this`running, this`pending
      ensures (View(), ch) == Deliver(old(View()), m)
      ensures m.ok && m.state == SaysConnected ==> running
      ensures m.state == SaysDisconnected ==> !running
      ensures m.state == NoState || (m.state == SaysConnected && !m.ok) ==> running == old(running)
      ensures ch == if old(pending).Some? && m.num in old(pending).value then Some(old(pending).value[m.num]) else None
      ensures pending.Some? ==> m.num !in pending.value
    {
      if m.ok && m.state.SaysConnected? {
        running := true;
      }
      if m.state.SaysDisconnected? {
        running := false;
      }
      ch := None;
      if pending.Some? {
        if m.num in pending.value {
          ch := Some(pending.value[m.num]);
        }
        pending := Some(pending.value - {m.num});
      }
    }

    method CloseLocked(quit: bool) returns (waiters: Option<set<Chan>>)
      modifies this
      ensures (View(), waiters) == Close(old(View()), quit)
      ensures old(closed) ==> View() == old(View()) && waiters == None
      ensures !old(closed) ==> closed && intentional == quit && !running && pending == None && waiters.Some?
      ensures !old(closed) && old(pending).Some? ==> waiters == Some(old(pending).value.Values)
    {
      if closed {
        return None;
      }
      closed := true;
      intentional := quit;
      running := false;
      waiters := Some(if pending.None? then {} else pending.value.Values);
      pending := None;
    }
  }
}
