/** Records on their way to the uploader (internal/collector, pkg/upload/queue.go).

    Three goroutines pass record paths on: the collector acquires a path in the registry and sends it
    on the channel, the receiver takes it from the channel and pushes it on the queue, the worker pops
    it and uploads it. Whoever is done with a path, or cannot pass it on, releases it. Each operation
    on the registry, the channel or the queue is one step, and any goroutine may move next. */
module RecordPipeline {
  import opened Wrappers

  const CHANNEL_CAPACITY := 5
  const QUEUE_CAPACITY := 8

  predicate Space(c: char) {
    c == ' ' || c == '\t' || c == '\n' || c == '\r'
  }

  predicate BlankPath(path: string) {
    forall i :: 0 <= i < |path| ==> Space(path[i])
  }

  /** The collector with one path: it acquired it, and what it could not send it is to release. */
  datatype Collector = Free | Acquired(path: string) | Unsent(path: string)

  /** The receiver between two selects: it has a path, IsFull has said no, and what it could not push it
      is to release. */
  datatype Receiver = Idle | Received(path: string) | NotFull(path: string) | Rejected(path: string)

  datatype State = State(
    active: set<string>,
    collector: Collector,
    channel: seq<string>,
    receiver: Receiver,
    queue: seq<string>,
    worker: Option<string>)

  const START := State({}, Free, [], Idle, [], None)

  datatype Step = Acquire(path: string) | Send | Forget | DropUnsent | Receive | CheckFull | Push | DropRejected | Pop | Finish

  predicate Possible(s: State, step: Step) {
    match step
    case Acquire(_) => s.collector.Free?
    case Send => s.collector.Acquired?
    case Forget => s.collector.Acquired?
    case DropUnsent => s.collector.Unsent?
    case Receive => s.receiver.Idle? && s.channel != []
    case CheckFull => s.receiver.Received?
    case Push => s.receiver.NotFull?
    case DropRejected => s.receiver.Rejected?
    case Pop => s.worker.None? && s.queue != []
    case Finish => s.worker.Some?
  }

  /** DedupQueue.Push */
  function Pushed(queue: seq<string>, capacity: nat, path: string): (seq<string>, bool) {
    if |queue| >= capacity || path == "" || path in queue then (queue, false) else (queue + [path], true)
  }

  function Do(s: State, step: Step): State
    requires Possible(s, step)
  {
    match step
    case Acquire(path) =>
      if BlankPath(path) || path in s.active then s
      else s.(active := s.active + {path}, collector := Acquired(path))
    case Send =>
      var path := s.collector.path;
      if |s.channel| < CHANNEL_CAPACITY then s.(collector := Free, channel := s.channel + [path])
      else s.(collector := Unsent(path))
    // a record without a name
    case Forget => s.(collector := Unsent(s.collector.path))
    case DropUnsent => s.(collector := Free, active := s.active - {s.collector.path})
    case Receive => s.(receiver := Received(s.channel[0]), channel := s.channel[1..])
    case CheckFull =>
      var path := s.receiver.path;
      s.(receiver := if |s.queue| >= QUEUE_CAPACITY then Rejected(path) else NotFull(path))
    case Push =>
      var path := s.receiver.path;
      var (queue, ok) := Pushed(s.queue, QUEUE_CAPACITY, path);
      s.(receiver := if ok then Idle else Rejected(path), queue := queue)
    case DropRejected => s.(receiver := Idle, active := s.active - {s.receiver.path})
    case Pop => s.(worker := Some(s.queue[0]), queue := s.queue[1..])
    case Finish => s.(worker := None, active := s.active - {s.worker.value})
  }

  function OfOption(x: Option<string>): seq<string> {
    if x.Some? then [x.value] else []
  }

  function OfCollector(c: Collector): seq<string> {
    if c.Free? then [] else [c.path]
  }

  function OfReceiver(r: Receiver): seq<string> {
    if r.Idle? then [] else [r.path]
  }

  function Count(s: seq<string>, path: string): nat {
    multiset(s)[path]
  }

  /** How often `path` is on its way, over all places. */
  function Held(s: State, path: string): nat {
    Count(OfOption(s.worker), path) + Count(s.queue, path) + Count(OfReceiver(s.receiver), path)
    + Count(s.channel, path) + Count(OfCollector(s.collector), path)
  }

  /** An active path is in exactly one place, once; any other path is in none. */
  ghost predicate Partitioned(s: State) {
    forall path :: Held(s, path) == if path in s.active then 1 else 0
  }

  ghost predicate Inv(s: State) {
    && Partitioned(s)
    && |s.channel| <= CHANNEL_CAPACITY && |s.queue| <= QUEUE_CAPACITY
    && (s.receiver.NotFull? ==> |s.queue| < QUEUE_CAPACITY)
    && forall path :: path in s.active ==> !BlankPath(path)
  }

  // ---------- The steps keep the partition ----------

  lemma {:induction false} AppendCount(s: seq<string>, x: string, path: string)
    ensures Count(s + [x], path) == Count(s, path) + if x == path then 1 else 0
  {
  }

  lemma {:induction false} RestCount(s: seq<string>, path: string)
    requires s != []
    ensures Count(s, path) == Count(s[1..], path) + if s[0] == path then 1 else 0
  {
    assert s == [s[0]] + s[1..];
  }

  lemma {:induction false} OneCount(x: string, path: string)
    ensures Count([x], path) == (if x == path then 1 else 0) && Count([], path) == 0
  {
  }

  /** What a step changes in the active set. */
  function Change(s: State, t: State, path: string): int {
    (if path in t.active then 1 else 0) - (if path in s.active then 1 else 0)
  }

  lemma {:induction false} CollectorMoves(s: State, step: Step, path: string)
    requires Partitioned(s) && Possible(s, step) && (step.Acquire? || step.Send? || step.Forget? || step.DropUnsent?)
    ensures Held(Do(s, step), path) == Held(s, path) + Change(s, Do(s, step), path)
  {
    hide BlankPath, Count;
    if step.Acquire? {
      OneCount(step.path, path);
    } else {
      var mine := s.collector.path;
      OneCount(mine, path);
      OneCount(mine, mine);
      assert Held(s, mine) > 0;
      AppendCount(s.channel, mine, path);
    }
  }

  lemma {:induction false} ReceiverMoves(s: State, step: Step, path: string)
    requires Partitioned(s) && Possible(s, step) && (step.Receive? || step.CheckFull? || step.Push? || step.DropRejected?)
    ensures Held(Do(s, step), path) == Held(s, path) + Change(s, Do(s, step), path)
  {
    hide Count;
    if step.Receive? {
      RestCount(s.channel, path);
      OneCount(s.channel[0], path);
    } else {
      var mine := s.receiver.path;
      OneCount(mine, path);
      OneCount(mine, mine);
      assert Held(s, mine) > 0;
      AppendCount(s.queue, mine, path);
    }
  }

  lemma {:induction false} WorkerMoves(s: State, step: Step, path: string)
    requires Partitioned(s) && Possible(s, step) && (step.Pop? || step.Finish?)
    ensures Held(Do(s, step), path) == Held(s, path) + Change(s, Do(s, step), path)
  {
    hide Count;
    if step.Pop? {
      RestCount(s.queue, path);
      OneCount(s.queue[0], path);
    } else {
      var mine := s.worker.value;
      OneCount(mine, path);
      OneCount(mine, mine);
      assert Held(s, mine) > 0;
    }
  }

  lemma {:induction false} PartitionKept(s: State, step: Step)
    requires Partitioned(s) && Possible(s, step)
    ensures Partitioned(Do(s, step))
  {
    hide Held, Do, Possible;
    forall path
      ensures Held(Do(s, step), path) == if path in Do(s, step).active then 1 else 0
    {
      match step {
        case Acquire(_) => CollectorMoves(s, step, path);
        case Send => CollectorMoves(s, step, path);
        case Forget => CollectorMoves(s, step, path);
        case DropUnsent => CollectorMoves(s, step, path);
        case Receive => ReceiverMoves(s, step, path);
        case CheckFull => ReceiverMoves(s, step, path);
        case Push => ReceiverMoves(s, step, path);
        case DropRejected => ReceiverMoves(s, step, path);
        case Pop => WorkerMoves(s, step, path);
        case Finish => WorkerMoves(s, step, path);
      }
    }
  }

  lemma {:induction false} StepKeeps(s: State, step: Step)
    requires Inv(s) && Possible(s, step)
    ensures Inv(Do(s, step))
  {
    hide Partitioned, BlankPath;
    PartitionKept(s, step);
  }

  // ---------- Runs ----------

  /** Steps that are not possible do nothing. */
  function Run(s: State, steps: seq<Step>): State
    decreases |steps|
  {
    if steps == [] then s else Run(if Possible(s, steps[0]) then Do(s, steps[0]) else s, steps[1..])
  }

  lemma {:induction false} RunKeeps(s: State, steps: seq<Step>)
    requires Inv(s)
    ensures Inv(Run(s, steps))
    decreases |steps|
  {
    hide Inv, Possible, Do;
    if steps != [] {
      if Possible(s, steps[0]) {
        StepKeeps(s, steps[0]);
        RunKeeps(Do(s, steps[0]), steps[1..]);
      } else {
        RunKeeps(s, steps[1..]);
      }
    }
  }

  /** In every run the registry's active set is the disjoint union of what the collector, the channel,
      the receiver, the queue and the worker hold, so no record is on its way twice. */
  lemma {:induction false} ActiveIsOnTheWay(steps: seq<Step>)
    ensures Inv(Run(START, steps)) && Partitioned(Run(START, steps))
  {
    RunKeeps(START, steps);
  }

  lemma {:induction false} ReceiverActive(s: State)
    requires Partitioned(s) && !s.receiver.Idle?
    ensures s.receiver.path in s.active && s.receiver.path !in s.queue
  {
    var path := s.receiver.path;
    OneCount(path, path);
    assert Held(s, path) > 0;
    assert path in s.queue ==> multiset(s.queue)[path] > 0;
  }

  /** When IsFull has said no, Push succeeds, whatever the worker did in between. */
  lemma {:induction false} PushNeverFails(steps: seq<Step>)
    ensures var s := Run(START, steps);
      s.receiver.NotFull? ==> Pushed(s.queue, QUEUE_CAPACITY, s.receiver.path) == (s.queue + [s.receiver.path], true)
  {
    ActiveIsOnTheWay(steps);
    var s := Run(START, steps);
    if s.receiver.NotFull? {
      ReceiverActive(s);
      assert !BlankPath(s.receiver.path);
    }
  }

  /** The record being uploaded is active and waits nowhere, so nobody can acquire it meanwhile. */
  lemma {:induction false} UploadedAlone(steps: seq<Step>)
    ensures var s := Run(START, steps);
      s.worker.Some? ==>
        && s.worker.value in s.active
        && s.worker.value !in s.queue && s.worker.value !in s.channel
        && (!s.collector.Free? ==> s.collector.path != s.worker.value) && (!s.receiver.Idle? ==> s.receiver.path != s.worker.value)
  {
    ActiveIsOnTheWay(steps);
    var s := Run(START, steps);
    if s.worker.Some? {
      var path := s.worker.value;
      OneCount(path, path);
      assert Held(s, path) > 0;
      assert path in s.queue ==> multiset(s.queue)[path] > 0;
      assert path in s.channel ==> multiset(s.channel)[path] > 0;
    }
  }

  // ---------- No key leaks ----------

  /** How far the paths on their way are from the end. */
  function Distance(s: State): nat {
    |OfOption(s.worker)| + 2 * |s.queue|
    + (match s.receiver case Idle => 0 case Rejected(_) => 1 case NotFull(_) => 3 case Received(_) => 4)
    + 5 * |s.channel| + (match s.collector case Free => 0 case Unsent(_) => 1 case Acquired(_) => 6)
  }

  /** Every step but Acquire brings some path nearer to its release, ... */
  lemma {:induction false} StepsApproach(s: State, step: Step)
    requires Possible(s, step) && !step.Acquire?
    ensures Distance(Do(s, step)) < Distance(s)
  {
  }

  ghost predicate CanApproach(s: State) {
    exists step :: Possible(s, step) && !step.Acquire?
  }

  /** ... while a path is active such a step is possible, ... */
  lemma {:induction false} SomeStepPossible(s: State)
    requires Inv(s) && s.active != {}
    ensures CanApproach(s)
  {
    if s.worker.Some? {
      assert Possible(s, Finish);
    } else if s.queue != [] {
      assert Possible(s, Pop);
    } else if !s.receiver.Idle? {
      assert Possible(s, if s.receiver.Received? then CheckFull else if s.receiver.NotFull? then Push else DropRejected);
    } else if s.channel != [] {
      assert Possible(s, Receive);
    } else if !s.collector.Free? {
      assert Possible(s, if s.collector.Acquired? then Send else DropUnsent);
    } else {
      NothingActive(s);
    }
  }

  lemma {:induction false} NothingActive(s: State)
    requires Partitioned(s) && s.worker.None? && s.queue == [] && s.receiver.Idle? && s.channel == [] && s.collector.Free?
    ensures s.active == {}
  {
    assert forall path :: Held(s, path) == 0;
  }

  /** Steps that are possible one after the other. */
  predicate Schedule(s: State, steps: seq<Step>)
    decreases |steps|
  {
    steps == [] || (Possible(s, steps[0]) && Schedule(Do(s, steps[0]), steps[1..]))
  }

  /** ... and so no key leaks: from every reachable state, in whatever order the goroutines move, they
      come within a fixed number of steps to where none of them can, and no path is active then. */
  lemma {:induction false} EverythingIsReleased(s: State, steps: seq<Step>)
    requires Inv(s) && Schedule(s, steps) && forall i :: 0 <= i < |steps| ==> !steps[i].Acquire?
    ensures |steps| <= Distance(s)
    ensures CanApproach(Run(s, steps)) || Run(s, steps).active == {}
    decreases |steps|
  {
    hide Inv, Do, Possible, Distance, CanApproach;
    if steps == [] {
      if s.active != {} {
        SomeStepPossible(s);
      }
    } else {
      StepKeeps(s, steps[0]);
      StepsApproach(s, steps[0]);
      assert forall i :: 0 <= i < |steps[1..]| ==> steps[1..][i] == steps[i + 1];
      EverythingIsReleased(Do(s, steps[0]), steps[1..]);
    }
  }

  // ---------- Records reach the worker ----------

  /** A record is refused only where there is no room for it, or when it has no name: the channel takes a
      path exactly while it holds fewer than 5, the queue exactly while it holds fewer than 8. */
  lemma {:induction false} RefusedOnlyWhenFull(s: State, step: Step)
    requires Inv(s) && Possible(s, step)
    ensures var t := Do(s, step);
      && (t.collector.Unsent? && !s.collector.Unsent? ==> step.Forget? || |s.channel| == 5)
      && (t.receiver.Rejected? && !s.receiver.Rejected? ==> |s.queue| == 8)
      && (step.Send? && |s.channel| < 5 ==> t.channel == s.channel + [s.collector.path] && t.collector == Free)
      && (step.Push? ==> t.queue == s.queue + [s.receiver.path] && t.receiver == Idle)
  {
    if step.Push? {
      ReceiverActive(s);
      assert !BlankPath(s.receiver.path);
    }
  }

  /** Channel and queue hand on first what came first, and nothing else leaves or enters them. */
  lemma {:induction false} FirstInFirstOut(s: State, step: Step)
    requires Possible(s, step)
    ensures var t := Do(s, step);
      && (|| t.channel == s.channel
          || (s.collector.Acquired? && t.channel == s.channel + [s.collector.path] && t.collector.Free?)
          || (s.channel != [] && t.channel == s.channel[1..] && t.receiver == Received(s.channel[0])))
      && (|| t.queue == s.queue
          || (s.receiver.NotFull? && t.queue == s.queue + [s.receiver.path] && t.receiver.Idle?)
          || (s.queue != [] && t.queue == s.queue[1..] && t.worker == Some(s.queue[0])))
  {
    match step
    case Send =>
    case Receive =>
    case Push =>
    case Pop =>
    case _ =>
  }

  /** The path is on its way to the worker, and nobody has refused it. */
  predicate OnTheWay(s: State, path: string) {
    || s.worker == Some(path) || path in s.queue
    || s.receiver == Received(path) || s.receiver == NotFull(path)
    || path in s.channel || s.collector == Acquired(path)
  }

  /** The worker first, then the queue, the receiver, the channel and the collector. */
  function Towards(s: State): Step {
    if s.worker.Some? then Finish
    else if s.queue != [] then Pop
    else if s.receiver.Received? then CheckFull
    else if s.receiver.NotFull? then Push
    else if s.receiver.Rejected? then DropRejected
    else if s.channel != [] then Receive
    else Send
  }

  lemma {:induction false} TowardsKeeps(s: State, path: string)
    requires Inv(s) && OnTheWay(s, path) && s.worker != Some(path)
    ensures Possible(s, Towards(s)) && OnTheWay(Do(s, Towards(s)), path)
  {
    hide Partitioned, BlankPath;
    if s.receiver.NotFull? {
      RefusedOnlyWhenFull(s, Push);
    }
  }

  predicate Brings(s: State, steps: seq<Step>, path: string) {
    Run(s, steps).worker == Some(path) && forall i :: 0 <= i < |steps| ==> !steps[i].Acquire?
  }

  /** From every reachable state a record on its way, that nobody has refused, can come to the worker. */
  lemma {:induction false} ReachesWorker(s: State, path: string)
    requires Inv(s) && OnTheWay(s, path)
    ensures exists steps :: Brings(s, steps, path)
    decreases Distance(s)
  {
    if s.worker == Some(path) {
      assert Brings(s, [], path);
    } else {
      var step := Towards(s);
      TowardsKeeps(s, path);
      StepKeeps(s, step);
      StepsApproach(s, step);
      hide Inv, Do, Possible, OnTheWay, Distance;
      ReachesWorker(Do(s, step), path);
      var rest :| Brings(Do(s, step), rest, path);
      var steps := [step] + rest;
      assert steps[1..] == rest;
      assert Brings(s, steps, path);
    }
  }

  /** And every path that is not blank and not active can be acquired by a free collector and get there. */
  lemma {:induction false} AcquiredReachesWorker(s: State, path: string)
    requires Inv(s) && s.collector.Free? && path !in s.active
    requires exists i :: 0 <= i < |path| && path[i] !in {' ', '\t', '\n', '\r'}
    ensures exists steps :: Brings(Do(s, Acquire(path)), steps, path)
  {
    StepKeeps(s, Acquire(path));
    assert OnTheWay(Do(s, Acquire(path)), path);
    hide Inv;
    ReachesWorker(Do(s, Acquire(path)), path);
  }

  // ---------- The queue and the registry as they run ----------

  class DedupQueue {
    var elements: seq<string>
    const capacity: nat

    constructor (capacity: nat)
      requires capacity > 0
      ensures elements == [] && this.capacity == capacity
    {
      elements, this.capacity := [], capacity;
    }

    method Push(record: string) returns (ok: bool)
      modifies this
      ensures (elements, ok) == Pushed(old(elements), capacity, record)
      ensures ok <==> |old(elements)| < capacity && record != "" && record !in old(elements)
      ensures elements == if ok then old(elements) + [record] else old(elements)
    {
      if |elements| >= capacity {
        return false;
      }
      if record == "" {
        return false;
      }
      for i := 0 to |elements|
        invariant record !in elements[..i]
      {
        if elements[i] == record {
          return false;
        }
      }
      elements := elements + [record];
      return true;
    }

    method Pop() returns (first: Option<string>)
      modifies this
      ensures old(elements) == OfOption(first) + elements
      ensures first.None? ==> old(elements) == []
    {
      if |elements| == 0 {
        return None;
      }
      first, elements := Some(elements[0]), elements[1..];
    }

    method IsFull() returns (full: bool)
      ensures full <==> |elements| >= capacity
    {
      full := |elements| >= capacity;
    }
  }

  class RecordRegistry {
    var active: set<string>

    constructor ()
      ensures active == {}
    {
      active := {};
    }

    method TryAcquire(key: string) returns (ok: bool)
      modifies this
      ensures ok <==> !BlankPath(key) && key !in old(active)
      ensures active == if ok then old(active) + {key} else old(active)
    {
      if BlankPath(key) || key in active {
        return false;
      }
      active := active + {key};
      return true;
    }

    method Release(key: string)
      modifies this
      ensures BlankPath(key) ==> active == old(active)
      ensures !BlankPath(key) ==> active == old(active) - {key}
    {
      if BlankPath(key) {
        return;
      }
      active := active - {key};
    }
  }
}
