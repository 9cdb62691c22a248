/** The Android lifecycle queue: connects and disconnects on a single-thread executor, with a
    generation counter that lets a disconnect overtake the connects it follows
    (app/android/app/src/main/kotlin/com/omniproxy/omniproxy/Bridge.kt).

    Callers run on any thread, so every read, write and enqueue is its own action. */
module Lifecycle {

  datatype Task = ConnectTask(stamp: nat) | DisconnectTask

  datatype CoreCall = CoreConnect | CoreDisconnect

  /** The executor thread: idle, past the generation check of a connect, or about to call the core
      for a disconnect. */
  datatype Worker = Idle | Cleared | Disconnecting

  /** `intents`, `submits` and `requests` are the calls under way: the generation an intent has read
      but not yet published, the stamp a submission has read but not yet queued, and the number
      of disconnect requests that bumped the counter and have not queued their task yet.
      `calls` is what the core saw. `intentSince` is a history variable: an intent has read the
      counter since it was last bumped. */
  datatype Sys = Sys(
    count: nat,
    generation: nat,
    queue: seq<Task>,
    worker: Worker,
    intents: multiset<nat>,
    submits: multiset<nat>,
    requests: nat,
    calls: seq<CoreCall>,
    intentSince: bool)

  const INIT: Sys := Sys(0, 0, [], Idle, multiset{}, multiset{}, 0, [], false)

  datatype Action =
    | IntentReads                  // recordConnectIntent reads disconnectCount
    | IntentWrites(g: nat)         // ... and publishes connectGeneration
    | SubmitReads                  // submitConnect reads connectGeneration
    | SubmitQueues(g: nat)         // ... and queues its task
    | RequestBumps                 // submitDisconnect or requestCoreDisconnect bumps the counter
    | RequestQueues                // ... and queues its task
    | Take                         // the executor takes the next task
    | Call                         // and calls the core

  predicate Enabled(s: Sys, a: Action) {
    match a
    case IntentReads => true
    case IntentWrites(g) => g in s.intents
    case SubmitReads => true
    case SubmitQueues(g) => g in s.submits
    case RequestBumps => true
    case RequestQueues => s.requests > 0
    case Take => s.worker.Idle? && s.queue != []
    case Call => !s.worker.Idle?
  }

  function Step(s: Sys, a: Action): Sys
    requires Enabled(s, a)
  {
    match a
    case IntentReads => s.(intents := s.intents + multiset{s.count}, intentSince := true)
    case IntentWrites(g) => s.(intents := s.intents - multiset{g}, generation := g)
    case SubmitReads => s.(submits := s.submits + multiset{s.generation})
    case SubmitQueues(g) => s.(submits := s.submits - multiset{g}, queue := s.queue + [ConnectTask(g)])
    case RequestBumps => s.(count := s.count + 1, requests := s.requests + 1, intentSince := false)
    case RequestQueues => s.(requests := s.requests - 1, queue := s.queue + [DisconnectTask])
    case Take =>
      var rest := s.(queue := s.queue[1..]);
      (match s.queue[0]
       case DisconnectTask => rest.(worker := Disconnecting)
       case ConnectTask(g) => if g != s.count then rest else rest.(worker := Cleared))
    case Call =>
      s.(worker := Idle, calls := s.calls + [if s.worker.Cleared? then CoreConnect else CoreDisconnect])
  }

  ghost predicate Linked(s: Sys, a: Action, s': Sys) { Enabled(s, a) && s' == Step(s, a) }

  ghost predicate IsRun(ss: seq<Sys>, acts: seq<Action>) {
    && |ss| == |acts| + 1
    && ss[0] == INIT
    && forall i {:trigger acts[i]} :: 0 <= i < |acts| ==> Linked(ss[i], acts[i], ss[i + 1])
  }

  // ---- the invariant ----

  /** Every generation anybody holds was read from the counter. */
  ghost predicate Stamped(s: Sys, bound: int) {
    && s.generation <= bound
    && (forall g :: g in s.intents ==> g <= bound)
    && (forall g :: g in s.submits ==> g <= bound)
    && QueueStamped(s.queue, bound)
  }

  predicate LastIsDisconnect(calls: seq<CoreCall>) {
    calls != [] && calls[|calls| - 1].CoreDisconnect?
  }

  /** A disconnect is still to reach the core: being requested, queued, or in the worker's hands. */
  predicate DisconnectDue(s: Sys) {
    s.requests > 0 || DisconnectTask in s.queue || s.worker.Disconnecting?
  }

  /** The last word is, or will be, a disconnect. */
  predicate Due(s: Sys) {
    DisconnectDue(s) || (LastIsDisconnect(s.calls) && !s.worker.Cleared?)
  }

  ghost predicate Inv(s: Sys) {
    && Stamped(s, s.count)
    && (s.count > 0 && !s.intentSince ==>
          && Stamped(s, s.count - 1)
          && Due(s))
  }

  /** No step makes up a generation: stamps stay within a bound the counter read stays within. */
  lemma StepKeepsStamps(s: Sys, a: Action, bound: int)
    requires Enabled(s, a) && Stamped(s, bound)
    requires a.IntentReads? ==> s.count <= bound
    ensures Stamped(Step(s, a), bound)
  {
    PendingKeepStamps(s, a, bound);
    QueueKeepsStamps(s, a, bound);
  }

  lemma PendingKeepStamps(s: Sys, a: Action, bound: int)
    requires Enabled(s, a) && Stamped(s, bound)
    requires a.IntentReads? ==> s.count <= bound
    ensures var s' := Step(s, a);
      && s'.generation <= bound
      && (forall g :: g in s'.intents ==> g <= bound)
      && (forall g :: g in s'.submits ==> g <= bound)
  {
    var s' := Step(s, a);
    forall g | g in s'.intents ensures g <= bound {
      assert g in s.intents || (a.IntentReads? && g == s.count);
    }
    forall g | g in s'.submits ensures g <= bound {
      assert g in s.submits || (a.SubmitReads? && g == s.generation);
    }
  }

  ghost predicate QueueStamped(q: seq<Task>, bound: int) {
    forall i :: 0 <= i < |q| && q[i].ConnectTask? ==> q[i].stamp <= bound
  }

  lemma QueueKeepsStamps(s: Sys, a: Action, bound: int)
    requires Enabled(s, a) && QueueStamped(s.queue, bound)
    requires a.SubmitQueues? ==> a.g <= bound
    ensures QueueStamped(Step(s, a).queue, bound)
  {
    var q := Step(s, a).queue;
    forall i | 0 <= i < |q| && q[i].ConnectTask? ensures q[i].stamp <= bound {
      if a.Take? {
        assert q[i] == s.queue[i + 1];
      } else if i < |s.queue| {
        assert q[i] == s.queue[i];
      }
    }
  }

  lemma StepKeepsDue(s: Sys, a: Action)
    requires Enabled(s, a) && Due(s) && s.count > 0 && Stamped(s, s.count - 1)
    ensures Due(Step(s, a))
  {
    var s' := Step(s, a);
    match a {
      case SubmitQueues(g) =>
        if DisconnectTask in s.queue {
          assert DisconnectTask in s'.queue;
        }
      case RequestQueues =>
        assert s'.queue[|s.queue|] == DisconnectTask;
      case Take =>
        assert s.queue == [s.queue[0]] + s.queue[1..];
      case _ =>
    }
  }

  lemma BumpKeepsInv(s: Sys)
    requires Inv(s)
    ensures Inv(Step(s, RequestBumps))
  {
    StepKeepsStamps(s, RequestBumps, s.count);
  }

  lemma CounterAfter(s: Sys, a: Action)
    requires Enabled(s, a) && !a.RequestBumps?
    ensures Step(s, a).count == s.count && Step(s, a).intentSince == (s.intentSince || a.IntentReads?)
  {
  }

  /** A disconnect that has the last word keeps it. */
  lemma LastWordKept(s: Sys, a: Action)
    requires Enabled(s, a) && s.count > 0 && Stamped(s, s.count - 1) && Due(s) && !a.IntentReads?
    ensures Stamped(Step(s, a), s.count - 1) && Due(Step(s, a))
  {
    StepKeepsStamps(s, a, s.count - 1);
    StepKeepsDue(s, a);
  }

  lemma StepKeepsInv(s: Sys, a: Action)
    requires Inv(s) && Enabled(s, a)
    ensures Inv(Step(s, a))
  {
    if a.RequestBumps? {
      BumpKeepsInv(s);
    } else {
      CounterAfter(s, a);
      StepKeepsStamps(s, a, s.count);
      if s.count > 0 && !s.intentSince && !a.IntentReads? {
        LastWordKept(s, a);
      }
    }
  }

  lemma {:induction false} RunInv(ss: seq<Sys>, acts: seq<Action>, i: nat)
    requires IsRun(ss, acts) && i < |ss|
    ensures Inv(ss[i])
  {
    if i == 0 {
    } else {
      RunInv(ss, acts, i - 1);
      assert Linked(ss[i - 1], acts[i - 1], ss[i]);
      StepKeepsInv(ss[i - 1], acts[i - 1]);
    }
  }

  // ---- the promise ----

  /** Action `b` bumps the counter, and no intent reads it between then and state `i`. */
  ghost predicate LastWordIsDisconnect(acts: seq<Action>, b: nat, i: nat) {
    && b < i <= |acts| && acts[b].RequestBumps?
    && forall k :: b < k < i ==> !acts[k].IntentReads?
  }

  lemma {:induction false} NoIntentSince(ss: seq<Sys>, acts: seq<Action>, b: nat, i: nat)
    requires IsRun(ss, acts) && i < |ss| && LastWordIsDisconnect(acts, b, i)
    ensures ss[i].count > 0 && !ss[i].intentSince
    decreases i
  {
    assert Linked(ss[i - 1], acts[i - 1], ss[i]);
    if b + 1 == i {
    } else {
      NoIntentSince(ss, acts, b, i - 1);
    }
  }

  /** The executor has run dry and every disconnect request has queued its task. */
  predicate Drained(s: Sys) {
    s.queue == [] && s.worker.Idle? && s.requests == 0
  }

  /** For every interleaving: if a disconnect was requested and no connect intent started after it,
      then once the executor has drained the last call the core saw is a disconnect. */
  lemma DisconnectHasTheLastWord(ss: seq<Sys>, acts: seq<Action>, b: nat, i: nat)
    requires IsRun(ss, acts) && i < |ss| && LastWordIsDisconnect(acts, b, i)
    requires Drained(ss[i])
    ensures LastIsDisconnect(ss[i].calls)
  {
    RunInv(ss, acts, i);
    NoIntentSince(ss, acts, b, i);
  }

  /** And no queued or later submitted connect gets past the generation check any more, as long as
      no new intent starts. */
  lemma OlderConnectsAbort(ss: seq<Sys>, acts: seq<Action>, b: nat, i: nat)
    requires IsRun(ss, acts) && i < |acts| && LastWordIsDisconnect(acts, b, i)
    requires acts[i].Take?
    ensures Enabled(ss[i], Take) && !ss[i + 1].worker.Cleared?
  {
    RunInv(ss, acts, i);
    NoIntentSince(ss, acts, b, i);
    assert Linked(ss[i], acts[i], ss[i + 1]);
  }

  // ---- every task reaches the core ----

  /** A connect task goes on to the core exactly when its stamp is still current. */
  lemma TakenConnect(ss: seq<Sys>, acts: seq<Action>, i: nat, g: nat)
    requires IsRun(ss, acts) && i < |acts| && acts[i] == Take && ss[i].queue != [] && ss[i].queue[0] == ConnectTask(g)
    ensures ss[i + 1].queue == ss[i].queue[1..] && ss[i + 1].calls == ss[i].calls
    ensures ss[i + 1].worker == if g == ss[i].count then Cleared else Idle
  {
    assert Linked(ss[i], acts[i], ss[i + 1]);
  }

  /** And what the executor is about to do it does. */
  lemma WorkerCalls(ss: seq<Sys>, acts: seq<Action>, i: nat)
    requires IsRun(ss, acts) && i < |acts|
    ensures acts[i] == Call && ss[i].worker == Cleared ==>
      ss[i + 1].calls == ss[i].calls + [CoreConnect] && ss[i + 1].worker == Idle
    ensures acts[i] == Call && ss[i].worker == Disconnecting ==>
      ss[i + 1].calls == ss[i].calls + [CoreDisconnect] && ss[i + 1].worker == Idle
    ensures acts[i] != Call ==> ss[i + 1].calls == ss[i].calls
    ensures ss[i].worker != Idle && acts[i] != Call ==> ss[i + 1].worker == ss[i].worker
  {
    assert Linked(ss[i], acts[i], ss[i + 1]);
  }

  function CallCount(calls: seq<CoreCall>, c: CoreCall): nat {
    if calls == [] then 0 else CallCount(calls[..|calls| - 1], c) + (if calls[|calls| - 1] == c then 1 else 0)
  }

  /** Tasks of one kind in a queue. */
  function TaskCount(q: seq<Task>, disconnects: bool): nat {
    if q == [] then 0 else (if q[0].DisconnectTask? == disconnects then 1 else 0) + TaskCount(q[1..], disconnects)
  }

  function Requests(acts: seq<Action>, i: nat): nat
    requires i <= |acts|
  {
    if i == 0 then 0 else Requests(acts, i - 1) + (if acts[i - 1].RequestBumps? then 1 else 0)
  }

  function Submitted(acts: seq<Action>, i: nat): nat
    requires i <= |acts|
  {
    if i == 0 then 0 else Submitted(acts, i - 1) + (if acts[i - 1].SubmitQueues? then 1 else 0)
  }

  /** Disconnects on their way: requested, queued, in the worker's hands, or seen by the core. */
  function DisconnectsOf(s: Sys): nat {
    s.requests + TaskCount(s.queue, true) + (if s.worker.Disconnecting? then 1 else 0)
    + CallCount(s.calls, CoreDisconnect)
  }

  function ConnectsOf(s: Sys): nat {
    TaskCount(s.queue, false) + (if s.worker.Cleared? then 1 else 0) + CallCount(s.calls, CoreConnect)
  }

  lemma {:induction false} TaskCountSnoc(q: seq<Task>, t: Task, d: bool)
    ensures TaskCount(q + [t], d) == TaskCount(q, d) + (if t.DisconnectTask? == d then 1 else 0)
  {
    if q == [] {
      assert q + [t] == [t] && [t][1..] == [];
    } else {
      assert (q + [t])[1..] == q[1..] + [t];
      TaskCountSnoc(q[1..], t, d);
    }
  }

  lemma CallCountSnoc(calls: seq<CoreCall>, c: CoreCall, d: CoreCall)
    ensures CallCount(calls + [c], d) == CallCount(calls, d) + (if c == d then 1 else 0)
  {
    assert (calls + [c])[..|calls|] == calls;
  }

  /** No step loses a disconnect; a connect is lost only by a stale stamp. */
  lemma StepConserves(s: Sys, a: Action)
    requires Enabled(s, a)
    ensures DisconnectsOf(Step(s, a)) == DisconnectsOf(s) + (if a.RequestBumps? then 1 else 0)
    ensures !(a.Take? && s.queue[0].ConnectTask? && s.queue[0].stamp != s.count) ==>
      ConnectsOf(Step(s, a)) == ConnectsOf(s) + (if a.SubmitQueues? then 1 else 0)
  {
    match a {
      case SubmitQueues(g) =>
        TaskCountSnoc(s.queue, ConnectTask(g), true);
        TaskCountSnoc(s.queue, ConnectTask(g), false);
      case RequestQueues =>
        TaskCountSnoc(s.queue, DisconnectTask, true);
        TaskCountSnoc(s.queue, DisconnectTask, false);
      case Call =>
        var c := if s.worker.Cleared? then CoreConnect else CoreDisconnect;
        CallCountSnoc(s.calls, c, CoreDisconnect);
        CallCountSnoc(s.calls, c, CoreConnect);
      case _ =>
    }
  }

  lemma DisconnectsStep(s: Sys, a: Action, s': Sys)
    requires Linked(s, a, s')
    ensures DisconnectsOf(s') == DisconnectsOf(s) + (if a.RequestBumps? then 1 else 0)
  {
    StepConserves(s, a);
  }

  lemma {:induction false} DisconnectsConserved(ss: seq<Sys>, acts: seq<Action>, i: nat)
    requires IsRun(ss, acts) && i < |ss|
    ensures DisconnectsOf(ss[i]) == Requests(acts, i)
  {
    if i == 0 {
    } else {
      DisconnectsConserved(ss, acts, i - 1);
      assert Linked(ss[i - 1], acts[i - 1], ss[i]);
      DisconnectsStep(ss[i - 1], acts[i - 1], ss[i]);
    }
  }

  /** Once the executor has drained, the core has seen every disconnect that was requested. */
  lemma EveryDisconnectReaches(ss: seq<Sys>, acts: seq<Action>, i: nat)
    requires IsRun(ss, acts) && i < |ss| && Drained(ss[i])
    ensures CallCount(ss[i].calls, CoreDisconnect) == Requests(acts, i)
  {
    DisconnectsConserved(ss, acts, i);
  }

  lemma {:induction false} ConnectsConserved(ss: seq<Sys>, acts: seq<Action>, i: nat)
    requires IsRun(ss, acts) && i < |ss| && Requests(acts, i) == 0
    ensures ss[i].count == 0 && ConnectsOf(ss[i]) == Submitted(acts, i)
  {
    if i == 0 {
    } else {
      ConnectsConserved(ss, acts, i - 1);
      RunInv(ss, acts, i - 1);
      assert Linked(ss[i - 1], acts[i - 1], ss[i]);
      StepConserves(ss[i - 1], acts[i - 1]);
    }
  }

  /** And as long as none was requested, every connect that was submitted. */
  lemma EveryConnectReaches(ss: seq<Sys>, acts: seq<Action>, i: nat)
    requires IsRun(ss, acts) && i < |ss| && Requests(acts, i) == 0 && Drained(ss[i])
    ensures CallCount(ss[i].calls, CoreConnect) == Submitted(acts, i)
  {
    ConnectsConserved(ss, acts, i);
  }

  // ---- the mutable object ----

  /** The bridge's fields. Each call, taken on its own, is the composition of its actions. */
  class Bridge {
    var disconnectCount: nat
    var connectGeneration: nat
    var queue: seq<Task>
    var calls: seq<CoreCall>

    ghost function View(intentSince: bool): Sys
      reads this
    {
      Sys(disconnectCount, connectGeneration, queue, Idle, multiset{}, multiset{}, 0, calls, intentSince)
    }

    constructor ()
      ensures View(false) == INIT
    {
      disconnectCount, connectGeneration, queue, calls := 0, 0, [], [];
    }

    method RecordConnectIntent(ghost since: bool)
      modifies this`connectGeneration
      ensures View(true) == Step(Step(old(View(since)), IntentReads), IntentWrites(disconnectCount))
    {
      connectGeneration := disconnectCount;
    }

    method SubmitConnect(ghost since: bool)
      modifies this`queue
      ensures View(since) == Step(Step(old(View(since)), SubmitReads), SubmitQueues(connectGeneration))
    {
      queue := queue + [ConnectTask(connectGeneration)];
    }

    /** Both `submitDisconnect` and `requestCoreDisconnect`. */
    method SubmitDisconnect(ghost since: bool)
      modifies this`queue, this`disconnectCount
      ensures View(false) == Step(Step(old(View(since)), RequestBumps), RequestQueues)
    {
      disconnectCount := disconnectCount + 1;
      queue := queue + [DisconnectTask];
    }

    /** The executor runs one task to its end. */
    method RunTask(ghost since: bool)
      requires queue != []
      modifies this`queue, this`calls
      ensures var taken := Step(old(View(since)), Take);
        View(since) == if taken.worker.Idle? then taken else Step(taken, Call)
    {
      var task := queue[0];
      queue := queue[1..];
      match task {
        case ConnectTask(g) =>
          if g != disconnectCount {
            return;
          }
          calls := calls + [CoreConnect];
        case DisconnectTask =>
          calls := calls + [CoreDisconnect];
      }
    }
  }
}
