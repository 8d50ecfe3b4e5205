/**
 The two schedulers of a host, both chains of promises: the lock on a material directory and the
 bounded queue of OAuth commands. A step is what runs between two awaits; steps interleave freely.
*/
module Scheduling {
  import opened Faults

  // ---- The lock: `withProtectedStandardMcpMaterialLock` ----

  datatype Status = Waiting | Running | Released

  // A call. It waits for the promise that it found in the table, if any.
  datatype Call = Call(path: string, previous: Option<nat>, status: Status)

  // Calls in the order they were made, and the table of the last call for each path.
  datatype Lock = Lock(calls: seq<Call>, tails: map<string, nat>)

  predicate Clear(calls: seq<Call>, j: nat)
    requires j <= |calls|
  {
    j < |calls| ==> forall i :: 0 <= i < j && calls[i].path == calls[j].path ==> calls[i].status.Released?
  }

  // It has found the last call before it.
  predicate Chained(calls: seq<Call>, j: nat, p: nat)
    requires j < |calls|
  {
    p < j && calls[p].path == calls[j].path && forall i :: p < i < j ==> calls[i].path != calls[j].path
  }

  ghost predicate CallInv(calls: seq<Call>, j: nat)
    requires j < |calls|
  {
    && (!calls[j].status.Waiting? ==> Clear(calls, j))
    && (if calls[j].previous.None? then Clear(calls, j) else Chained(calls, j, calls[j].previous.value))
  }

  ghost predicate TailInv(calls: seq<Call>, path: string, t: nat) {
    t < |calls| && calls[t].path == path && !calls[t].status.Released? &&
    forall i :: t < i < |calls| ==> calls[i].path != path
  }

  ghost predicate LockInv(l: Lock) {
    && (forall j :: 0 <= j < |l.calls| ==> CallInv(l.calls, j))
    && (forall path :: path in l.tails ==> TailInv(l.calls, path, l.tails[path]))
    && (forall j :: 0 <= j < |l.calls| && l.calls[j].path !in l.tails ==> l.calls[j].status.Released?)
  }

  predicate CanStart(l: Lock, j: nat) {
    && j < |l.calls| && l.calls[j].status.Waiting?
    && (l.calls[j].previous.Some? ==>
          l.calls[j].previous.value < |l.calls| && l.calls[l.calls[j].previous.value].status.Released?)
  }

  predicate CanFinish(l: Lock, j: nat) {
    j < |l.calls| && l.calls[j].status.Running?
  }

  function Enter(l: Lock, path: string): Lock {
    Lock(l.calls + [Call(path, if path in l.tails then Some(l.tails[path]) else None, Waiting)],
         l.tails[path := |l.calls|])
  }

  function Start(l: Lock, j: nat): Lock
    requires CanStart(l, j)
  {
    l.(calls := l.calls[j := l.calls[j].(status := Running)])
  }

  // The operation has ended, one way or the other: release, then drop the entry if it is still ours.
  function Finish(l: Lock, j: nat): Lock
    requires CanFinish(l, j)
  {
    var path := l.calls[j].path;
    Lock(l.calls[j := l.calls[j].(status := Released)],
         if path in l.tails && l.tails[path] == j then l.tails - {path} else l.tails)
  }

  lemma EnterKeepsInv(l: Lock, path: string)
    requires LockInv(l)
    ensures LockInv(Enter(l, path))
  {
    var calls := Enter(l, path).calls;
    forall j | 0 <= j < |calls| ensures CallInv(calls, j) {
      if j < |l.calls| { assert CallInv(l.calls, j); }
      else if path in l.tails { assert TailInv(l.calls, path, l.tails[path]); }
    }
    forall p | p in l.tails && p != path ensures TailInv(calls, p, l.tails[p]) {
      assert TailInv(l.calls, p, l.tails[p]);
    }
  }

  // Whoever may start has everyone before it behind.
  lemma StartableIsClear(l: Lock, j: nat)
    requires LockInv(l) && CanStart(l, j)
    ensures Clear(l.calls, j)
  {
    assert CallInv(l.calls, j);
    if l.calls[j].previous.Some? {
      assert CallInv(l.calls, l.calls[j].previous.value);
    }
  }

  lemma StartKeepsInv(l: Lock, j: nat)
    requires LockInv(l) && CanStart(l, j)
    ensures LockInv(Start(l, j))
  {
    var calls := Start(l, j).calls;
    StartableIsClear(l, j);
    forall k | 0 <= k < |calls| ensures CallInv(calls, k) {
      assert CallInv(l.calls, k);
    }
    forall p | p in l.tails ensures TailInv(calls, p, l.tails[p]) {
      assert TailInv(l.calls, p, l.tails[p]);
    }
  }

  lemma FinishKeepsInv(l: Lock, j: nat)
    requires LockInv(l) && CanFinish(l, j)
    ensures LockInv(Finish(l, j))
  {
    var l' := Finish(l, j);
    forall k | 0 <= k < |l'.calls| ensures CallInv(l'.calls, k) {
      assert CallInv(l.calls, k);
    }
    forall p | p in l'.tails ensures TailInv(l'.calls, p, l'.tails[p]) {
      assert TailInv(l.calls, p, l.tails[p]);
    }
    forall k | 0 <= k < |l'.calls| && l'.calls[k].path !in l'.tails ensures l'.calls[k].status.Released? {
      var path := l.calls[k].path;
      if path in l.tails && k != j {
        assert CallInv(l.calls, j) && TailInv(l.calls, path, j);
      }
    }
  }

  // At most one operation runs on a path, and none before an earlier call has ended.
  lemma OneAtATimeInOrder(l: Lock, i: nat, j: nat)
    requires LockInv(l) && i < j < |l.calls| && l.calls[i].path == l.calls[j].path && !l.calls[j].status.Waiting?
    ensures l.calls[i].status.Released?
  {
    assert CallInv(l.calls, j);
  }

  // Deleting an entry loses nobody: a path is in the table exactly while a call for it is outstanding.
  lemma EntryIffOutstanding(l: Lock, path: string)
    requires LockInv(l)
    ensures path in l.tails <==>
      exists j :: 0 <= j < |l.calls| && l.calls[j].path == path && !l.calls[j].status.Released?
  {
  }

  // While a call is outstanding some call for the same path can move.
  lemma {:induction false} SomeoneCanMove(l: Lock, j: nat) returns (k: nat)
    requires LockInv(l) && j < |l.calls| && !l.calls[j].status.Released?
    ensures k <= j && l.calls[k].path == l.calls[j].path && (CanStart(l, k) || CanFinish(l, k))
  {
    assert CallInv(l.calls, j);
    if CanStart(l, j) || CanFinish(l, j) {
      k := j;
    } else {
      k := SomeoneCanMove(l, l.calls[j].previous.value);
    }
  }

  function Left(s: Status): nat {
    match s case Waiting => 2 case Running => 1 case Released => 0
  }

  // Steps the calls have left.
  function Work(calls: seq<Call>): nat {
    if calls == [] then 0
    else Work(calls[..|calls| - 1]) + Left(calls[|calls| - 1].status)
  }

  lemma {:induction false} WorkShrinks(calls: seq<Call>, j: nat, c: Call)
    requires j < |calls|
    requires (calls[j].status.Waiting? && c.status.Running?) || (calls[j].status.Running? && c.status.Released?)
    ensures Work(calls[j := c]) == Work(calls) - 1
  {
    var n := |calls| - 1;
    if j < n {
      assert calls[j := c][..n] == calls[..n][j := c];
      WorkShrinks(calls[..n], j, c);
    } else {
      assert calls[j := c][..n] == calls[..n];
    }
  }

  datatype Step = Enters(path: string) | Starts(call: nat) | Finishes(call: nat)

  predicate Enabled(l: Lock, s: Step) {
    match s
    case Enters(_) => true
    case Starts(j) => CanStart(l, j)
    case Finishes(j) => CanFinish(l, j)
  }

  function Apply(l: Lock, s: Step): Lock
    requires Enabled(l, s)
  {
    match s
    case Enters(path) => Enter(l, path)
    case Starts(j) => Start(l, j)
    case Finishes(j) => Finish(l, j)
  }

  predicate Possible(l: Lock, steps: seq<Step>)
    decreases |steps|
  {
    steps == [] || (Enabled(l, steps[0]) && Possible(Apply(l, steps[0]), steps[1..]))
  }

  function After(l: Lock, steps: seq<Step>): Lock
    requires Possible(l, steps)
    decreases |steps|
  {
    if steps == [] then l else After(Apply(l, steps[0]), steps[1..])
  }

  lemma {:induction false} RunKeepsInv(l: Lock, steps: seq<Step>)
    requires LockInv(l) && Possible(l, steps)
    ensures LockInv(After(l, steps))
    decreases |steps|
  {
    if steps != [] {
      match steps[0] {
        case Enters(path) => EnterKeepsInv(l, path);
        case Starts(j) => StartKeepsInv(l, j);
        case Finishes(j) => FinishKeepsInv(l, j);
      }
      RunKeepsInv(Apply(l, steps[0]), steps[1..]);
    }
  }

  // In every interleaving at most one operation runs on a path, and operations run in call order.
  lemma {:induction false} LockIsExclusiveAndFair(steps: seq<Step>, i: nat, j: nat)
    requires Possible(Lock([], map[]), steps)
    requires var l := After(Lock([], map[]), steps);
      i < j < |l.calls| && l.calls[i].path == l.calls[j].path && !l.calls[j].status.Waiting?
    ensures After(Lock([], map[]), steps).calls[i].status.Released?
  {
    RunKeepsInv(Lock([], map[]), steps);
    OneAtATimeInOrder(After(Lock([], map[]), steps), i, j);
  }

  // When nothing can move, every call has had its turn and the table is empty.
  lemma QuietMeansDone(l: Lock)
    requires LockInv(l) && forall k :: !CanStart(l, k) && !CanFinish(l, k)
    ensures l.tails == map[] && forall j :: 0 <= j < |l.calls| ==> l.calls[j].status.Released?
  {
    forall j | 0 <= j < |l.calls| ensures l.calls[j].status.Released? {
      if !l.calls[j].status.Released? { var k := SomeoneCanMove(l, j); }
    }
    forall path | path in l.tails ensures false {
      EntryIffOutstanding(l, path);
    }
    assert l.tails == map[];
  }

  // However the calls made so far are scheduled, each step uses up some of their work. So no schedule
  // goes on for ever, and one that cannot go on has served every call.
  lemma {:induction false} NoWaiterIsLost(l: Lock, steps: seq<Step>)
    requires LockInv(l) && Possible(l, steps) && forall i :: 0 <= i < |steps| ==> !steps[i].Enters?
    ensures |steps| == Work(l.calls) - Work(After(l, steps).calls)
    ensures (forall k :: !CanStart(After(l, steps), k) && !CanFinish(After(l, steps), k)) ==>
              After(l, steps).tails == map[] &&
              forall j :: 0 <= j < |After(l, steps).calls| ==> After(l, steps).calls[j].status.Released?
  {
    WorkIsUsedUp(l, steps);
    RunKeepsInv(l, steps);
    if forall k :: !CanStart(After(l, steps), k) && !CanFinish(After(l, steps), k) {
      QuietMeansDone(After(l, steps));
    }
  }

  lemma {:induction false} WorkIsUsedUp(l: Lock, steps: seq<Step>)
    requires Possible(l, steps) && forall i :: 0 <= i < |steps| ==> !steps[i].Enters?
    ensures |steps| == Work(l.calls) - Work(After(l, steps).calls)
    decreases |steps|
  {
    if steps != [] {
      var j := steps[0].call;
      WorkShrinks(l.calls, j, Apply(l, steps[0]).calls[j]);
      assert Apply(l, steps[0]).calls == l.calls[j := Apply(l, steps[0]).calls[j]];
      WorkIsUsedUp(Apply(l, steps[0]), steps[1..]);
    }
  }

  // ---- The queue: `serial` and `close` ----

  const LIMIT := 32

  // `Ended`: the operation has settled, or was refused because the client had closed, but the
  // handler that makes room in the queue has not run yet.
  datatype Command = Queued | Executing | Ended | Settled

  datatype Queue = Queue(closed: bool, queued: int, commands: seq<Command>, ran: seq<nat>)

  const IDLE := Queue(false, 0, [], [])

  datatype Turn = Submit | Begin(command: nat) | End(command: nat) | Settle(command: nat) | Close

  predicate MayTurn(q: Queue, t: Turn) {
    match t
    case Submit => !q.closed && q.queued < LIMIT
    case Begin(j) => j < |q.commands| && q.commands[j].Queued? && (j > 0 ==> q.commands[j - 1].Settled?)
    case End(j) => j < |q.commands| && q.commands[j].Executing?
    case Settle(j) => j < |q.commands| && q.commands[j].Ended?
    case Close => true
  }

  function Turned(q: Queue, t: Turn): Queue
    requires MayTurn(q, t)
  {
    match t
    case Submit => q.(queued := q.queued + 1, commands := q.commands + [Queued])
    case Begin(j) =>
      if q.closed then q.(commands := q.commands[j := Ended])
      else q.(commands := q.commands[j := Executing], ran := q.ran + [j])
    case End(j) => q.(commands := q.commands[j := Ended])
    case Settle(j) => q.(queued := q.queued - 1, commands := q.commands[j := Settled])
    case Close => q.(closed := true)
  }

  // `n` commands have settled; only the next one may have begun.
  ghost predicate QueueInv(q: Queue, n: nat) {
    && n <= |q.commands| && q.queued == |q.commands| - n <= LIMIT
    && (forall j :: 0 <= j < n ==> q.commands[j].Settled?)
    && (forall j :: n <= j < |q.commands| ==> !q.commands[j].Settled?)
    && (forall j :: n < j < |q.commands| ==> q.commands[j].Queued?)
    && (forall i :: 0 <= i < |q.ran| ==> q.ran[i] < |q.commands| && !q.commands[q.ran[i]].Queued?)
    && (forall i, k :: 0 <= i < k < |q.ran| ==> q.ran[i] < q.ran[k])
  }

  function NextSettled(n: nat, t: Turn): nat {
    if t.Settle? then n + 1 else n
  }

  lemma TurnKeepsInv(q: Queue, n: nat, t: Turn)
    requires QueueInv(q, n) && MayTurn(q, t)
    ensures QueueInv(Turned(q, t), NextSettled(n, t))
  {
  }

  predicate MayRun(q: Queue, ts: seq<Turn>)
    decreases |ts|
  {
    ts == [] || (MayTurn(q, ts[0]) && MayRun(Turned(q, ts[0]), ts[1..]))
  }

  function Ran(q: Queue, ts: seq<Turn>): Queue
    requires MayRun(q, ts)
    decreases |ts|
  {
    if ts == [] then q else Ran(Turned(q, ts[0]), ts[1..])
  }

  lemma {:induction false} TurnsKeepInv(q: Queue, n: nat, ts: seq<Turn>) returns (m: nat)
    requires QueueInv(q, n) && MayRun(q, ts)
    ensures QueueInv(Ran(q, ts), m)
    decreases |ts|
  {
    if ts == [] { return n; }
    TurnKeepsInv(q, n, ts[0]);
    m := TurnsKeepInv(Turned(q, ts[0]), NextSettled(n, ts[0]), ts[1..]);
  }

  // In every interleaving at most one command executes, commands execute in the order they were
  // submitted, and at most 32 are in the queue.
  lemma {:induction false} QueueIsSafe(ts: seq<Turn>)
    requires MayRun(IDLE, ts)
    ensures var q := Ran(IDLE, ts);
      && (forall i, k :: 0 <= i < k < |q.commands| && q.commands[i].Executing? ==> !q.commands[k].Executing?)
      && (forall i, k :: 0 <= i < k < |q.ran| ==> q.ran[i] < q.ran[k])
      && q.queued <= LIMIT
  {
    var n := TurnsKeepInv(IDLE, 0, ts);
    var q := Ran(IDLE, ts);
    assert forall i :: 0 <= i < |q.commands| && q.commands[i].Executing? ==> i == n;
  }

  // `close` resolves when the last command submitted has settled. By then nothing executes, and
  // nothing starts afterwards: whatever happens next changes nothing.
  lemma {:induction false} NothingRunsOnceClosed(before: seq<Turn>, after: seq<Turn>)
    requires MayRun(IDLE, before) && Ran(IDLE, before).closed
    requires var cs := Ran(IDLE, before).commands; cs == [] || cs[|cs| - 1].Settled?
    requires MayRun(Ran(IDLE, before), after)
    ensures forall j :: 0 <= j < |Ran(IDLE, before).commands| ==> Ran(IDLE, before).commands[j].Settled?
    ensures Ran(Ran(IDLE, before), after) == Ran(IDLE, before)
  {
    var q := Ran(IDLE, before);
    var n := TurnsKeepInv(IDLE, 0, before);
    assert n == |q.commands|;
    SettledQueueStays(q, after);
  }

  lemma {:induction false} SettledQueueStays(q: Queue, ts: seq<Turn>)
    requires q.closed && MayRun(q, ts) && forall j :: 0 <= j < |q.commands| ==> q.commands[j].Settled?
    ensures Ran(q, ts) == q
  {
    if ts != [] {
      assert Turned(q, ts[0]) == q;
      SettledQueueStays(q, ts[1..]);
    }
  }

  // After closing, commands that have not begun never execute.
  lemma {:induction false} ClosedQueueStartsNothing(q: Queue, ts: seq<Turn>)
    requires q.closed && MayRun(q, ts)
    ensures Ran(q, ts).ran == q.ran && Ran(q, ts).closed
    decreases |ts|
  {
    if ts != [] {
      ClosedQueueStartsNothing(Turned(q, ts[0]), ts[1..]);
    }
  }

  // Until then there is always a way on: the commands in the queue can all settle, one after another.
  lemma {:induction false} QueueCanSettle(q: Queue, n: nat) returns (ts: seq<Turn>)
    requires QueueInv(q, n)
    ensures MayRun(q, ts) && forall j :: 0 <= j < |Ran(q, ts).commands| ==> Ran(q, ts).commands[j].Settled?
    decreases |q.commands| - n, if n < |q.commands| then Rank(q.commands[n]) else 0
  {
    if n == |q.commands| { return []; }
    var t := match q.commands[n] case Queued => Begin(n) case Executing => End(n) case _ => Settle(n);
    TurnKeepsInv(q, n, t);
    var rest := QueueCanSettle(Turned(q, t), NextSettled(n, t));
    ts := [t] + rest;
    assert ts[1..] == rest;
  }

  function Rank(c: Command): nat {
    match c case Queued => 3 case Executing => 2 case Ended => 1 case Settled => 0
  }
}
