/** The listened files of internal/mod/rule/file_state_handler and their dispatch (rule/handler.go).

    A pass is one call of sendFilesToBeProcessed: it scans the listened directories, moves every
    listened file one step on, and dispatches the files that are ready. What the scan meets on disk
    is the `Pass`. Paths are absolute. */
module FileState {
  import opened Wrappers

  datatype Progress = Unprocessed | SeenOnce | ReadyToProcess | Processed

  datatype Entry = Entry(
    size: int, modifyTime: int, startTime: int, endTime: int,
    unsupported: bool, tooOld: bool, isCollecting: bool, isListening: bool, progress: Progress)

  const NEW := Entry(0, 0, 0, 0, false, false, false, false, Unprocessed)

  type States = map<string, Entry>

  /** A file that the scan passes to processListenFile: does a handler take it, is it older than the
      skip period, has it been written to its end. */
  datatype Visit = Visit(path: string, size: int, modTime: int, handled: bool, expired: bool, finished: bool)

  /** A recursive walk, which may fail after some visits; a plain listing; or neither. */
  datatype Scan = Walk(visits: seq<Visit>, fails: bool) | Listing(visits: seq<Visit>) | NoScan

  datatype Dir = Dir(name: string, scan: Scan)

  /** `gone` are the files that no longer exist; the rest are errors of Stat and of saving. */
  datatype Pass = Pass(dirs: seq<Dir>, gone: set<string>, statFails: bool, saved: bool, savedAgain: bool)

  datatype Store = Store(state: States, listenDirs: set<string>)

  // ---------- Scanning ----------

  predicate Settled(e: Entry) {
    !e.unsupported && e.progress.Processed?
  }

  /** processListenFile */
  function Process(state: States, v: Visit): States {
    if v.path in state && Settled(state[v.path]) then state
    else if !v.handled then
      if v.path in state && state[v.path].unsupported then state
      else state[v.path := NEW.(size := v.size, unsupported := true)]
    else if v.expired then state[v.path := NEW.(size := v.size, unsupported := true, tooOld := true)]
    else if v.finished then
      var e := if v.path in state then state[v.path] else NEW;
      state[v.path := e.(size := v.size, modifyTime := v.modTime, isListening := true, unsupported := false, tooOld := false)]
    else state
  }

  function ProcessAll(state: States, visits: seq<Visit>): States
    decreases |visits|
  {
    if visits == [] then state else ProcessAll(Process(state, visits[0]), visits[1..])
  }

  type Checkpoints = map<string, Option<Entry>>

  /** The entry before the first visit to the path; None when there was none. */
  function Checkpoint(state: States, saved: Checkpoints, path: string): Checkpoints {
    if path in saved then saved else saved[path := if path in state then Some(state[path]) else None]
  }

  function Restore(state: States, saved: Checkpoints): States {
    map path | path in state.Keys + saved.Keys && (path in saved ==> saved[path].Some?)
      :: if path in saved then saved[path].value else state[path]
  }

  /** The visits of a walk, each after its checkpoint. */
  function Visited(state: States, saved: Checkpoints, visits: seq<Visit>): (States, Checkpoints)
    decreases |visits|
  {
    if visits == [] then (state, saved)
    else Visited(Process(state, visits[0]), Checkpoint(state, saved, visits[0].path), visits[1..])
  }

  function Scanned(state: States, scan: Scan): States {
    match scan
    case Walk(visits, fails) =>
      var (after, saved) := Visited(state, map[], visits);
      if fails then Restore(after, saved) else after
    case Listing(visits) => ProcessAll(state, visits)
    case NoScan => state
  }

  function ScanAll(state: States, dirs: seq<Dir>): States
    decreases |dirs|
  {
    if dirs == [] then state else ScanAll(Scanned(state, dirs[0].scan), dirs[1..])
  }

  function Names(dirs: seq<Dir>): set<string> {
    set i | 0 <= i < |dirs| :: dirs[i].name
  }

  predicate Under(dirs: set<string>, path: string) {
    exists d :: d in dirs && d <= path
  }

  /** Entries under directories that are no longer listened to go. */
  function Forget(state: States, dirs: set<string>): States {
    map path | path in state && !Under(dirs, path) :: state[path]
  }

  /** UpdateListenDirs: what is left, and whether it went without error. */
  function Listen(s: Store, p: Pass): (Store, bool) {
    var kept := Forget(s.state, s.listenDirs - Names(p.dirs));
    (Store(ScanAll(kept, p.dirs) - p.gone, Names(p.dirs)), !p.statFails && p.saved)
  }

  // ---------- Process states and dispatch ----------

  function Stepped(e: Entry): Entry {
    if !e.isListening then e
    else
      match e.progress
      case Unprocessed => e.(progress := SeenOnce)
      case SeenOnce => e.(progress := ReadyToProcess)
      case _ => e
  }

  /** UpdateFilesProcessState */
  function StepAll(state: States): States {
    map path | path in state :: Stepped(state[path])
  }

  predicate Dispatchable(e: Entry) {
    !e.unsupported && e.isListening && e.progress.ReadyToProcess?
  }

  function Ready(state: States): set<string> {
    set path | path in state && Dispatchable(state[path])
  }

  /** MarkProcessedFile for each of the files. */
  function MarkAll(state: States, paths: set<string>): States {
    map path | path in state :: if path in paths then state[path].(progress := Processed) else state[path]
  }

  /** sendFilesToBeProcessed: the store afterwards and the files it dispatched. */
  function Send(s: Store, p: Pass): (Store, set<string>) {
    if p.dirs == [] then (s, {})
    else
      var (l, ok) := Listen(s, p);
      if !ok then (l, {})
      else
        var stepped := l.(state := StepAll(l.state));
        if !p.savedAgain then (stepped, {})
        else (stepped.(state := MarkAll(stepped.state, Ready(stepped.state))), Ready(stepped.state))
  }

  // ---------- A failed walk leaves nothing behind ----------

  /** Outside the checkpoints nothing has changed, and they hold what was there before. */
  ghost predicate Remembers(before: States, state: States, saved: Checkpoints) {
    && (forall path :: path !in saved ==> (path in state <==> path in before))
    && (forall path :: path !in saved && path in state ==> state[path] == before[path])
    && (forall path :: path in saved ==> saved[path] == if path in before then Some(before[path]) else None)
  }

  lemma {:induction false} VisitRemembers(before: States, state: States, saved: Checkpoints, v: Visit)
    requires Remembers(before, state, saved)
    ensures Remembers(before, Process(state, v), Checkpoint(state, saved, v.path))
  {
    forall path | path != v.path
      ensures path in Process(state, v) <==> path in state
      ensures path in state ==> Process(state, v)[path] == state[path]
    {
    }
  }

  lemma {:induction false} VisitedRemembers(before: States, state: States, saved: Checkpoints, visits: seq<Visit>)
    requires Remembers(before, state, saved)
    ensures var (after, all) := Visited(state, saved, visits); Remembers(before, after, all)
    decreases |visits|
  {
    hide Remembers, Process, Checkpoint;
    if visits != [] {
      VisitRemembers(before, state, saved, visits[0]);
      VisitedRemembers(before, Process(state, visits[0]), Checkpoint(state, saved, visits[0].path), visits[1..]);
    }
  }

  lemma {:induction false} RestoreUndoes(before: States, state: States, saved: Checkpoints)
    requires Remembers(before, state, saved)
    ensures Restore(state, saved) == before
  {
    var r := Restore(state, saved);
    forall path | path in r
      ensures path in before && r[path] == before[path]
    {
    }
    forall path | path in before
      ensures path in r
    {
      assert path in saved || path in state;
    }
    assert r.Keys == before.Keys;
  }

  /** A walk that fails after any visits, repeated ones included, leaves the state as it was. */
  lemma {:induction false} FailedWalkUndone(state: States, visits: seq<Visit>)
    ensures Scanned(state, Walk(visits, true)) == state
  {
    VisitedRemembers(state, state, map[], visits);
    var (after, saved) := Visited(state, map[], visits);
    RestoreUndoes(state, after, saved);
  }

  /** And one that does not fail has processed every visit. */
  lemma {:induction false} WalkProcesses(state: States, saved: Checkpoints, visits: seq<Visit>)
    ensures Visited(state, saved, visits).0 == ProcessAll(state, visits)
    decreases |visits|
  {
    if visits != [] {
      WalkProcesses(Process(state, visits[0]), Checkpoint(state, saved, visits[0].path), visits[1..]);
    }
  }

  // ---------- What a scan leaves alone ----------

  lemma {:induction false} ProcessAllProgress(state: States, visits: seq<Visit>, path: string)
    requires path in state
    ensures var after := ProcessAll(state, visits);
      path in after && (Settled(state[path]) ==> after[path] == state[path]) && NotFurther(state[path], after[path])
    decreases |visits|
  {
    if visits != [] {
      ProcessAllProgress(Process(state, visits[0]), visits[1..], path);
    }
  }

  /** A scan keeps an entry's progress or starts it over. */
  predicate NotFurther(a: Entry, b: Entry) {
    b.progress == a.progress || b.progress.Unprocessed?
  }

  lemma {:induction false} ProcessAllNew(state: States, visits: seq<Visit>, path: string)
    requires path !in state && path in ProcessAll(state, visits)
    ensures ProcessAll(state, visits)[path].progress.Unprocessed?
    decreases |visits|
  {
    if visits != [] {
      var next := Process(state, visits[0]);
      if path in next {
        ProcessAllProgress(next, visits[1..], path);
      } else {
        ProcessAllNew(next, visits[1..], path);
      }
    }
  }

  /** The visits of the scans that are not rolled back. */
  function Counting(dirs: seq<Dir>): seq<Visit> {
    if dirs == [] then []
    else
      (match dirs[0].scan
       case Walk(visits, fails) => if fails then [] else visits
       case Listing(visits) => visits
       case NoScan => []) + Counting(dirs[1..])
  }

  /** A scan of all directories is a scan of the visits that count. */
  lemma {:induction false} ScanAllIs(state: States, dirs: seq<Dir>)
    ensures ScanAll(state, dirs) == ProcessAll(state, Counting(dirs))
    decreases |dirs|
  {
    hide Process, Restore;
    if dirs != [] {
      var next := Scanned(state, dirs[0].scan);
      match dirs[0].scan {
        case Walk(visits, fails) =>
          FailedWalkUndone(state, visits);
          WalkProcesses(state, map[], visits);
          ProcessConcat(state, if fails then [] else visits, Counting(dirs[1..]));
        case Listing(visits) => ProcessConcat(state, visits, Counting(dirs[1..]));
        case NoScan => ProcessConcat(state, [], Counting(dirs[1..]));
      }
      ScanAllIs(next, dirs[1..]);
    }
  }

  lemma {:induction false} ProcessConcat(state: States, a: seq<Visit>, b: seq<Visit>)
    ensures ProcessAll(state, a + b) == ProcessAll(ProcessAll(state, a), b)
    decreases |a|
  {
    if a == [] {
      assert a + b == b;
    } else {
      assert (a + b)[1..] == a[1..] + b;
      ProcessConcat(Process(state, a[0]), a[1..], b);
    }
  }

  // ---------- Runs of passes ----------

  function After(s: Store, passes: seq<Pass>): Store {
    if passes == [] then s else Send(After(s, passes[..|passes| - 1]), passes[|passes| - 1]).0
  }

  /** The store before pass `n`, and what pass `n` dispatches. */
  function Before(s: Store, passes: seq<Pass>, n: nat): Store
    requires n <= |passes|
  {
    After(s, passes[..n])
  }

  function Sent(s: Store, passes: seq<Pass>, n: nat): set<string>
    requires n < |passes|
  {
    Send(Before(s, passes, n), passes[n]).1
  }

  lemma {:induction false} BeforeNext(s: Store, passes: seq<Pass>, n: nat)
    requires n < |passes|
    ensures Before(s, passes, n + 1) == Send(Before(s, passes, n), passes[n]).0
  {
    assert passes[..n + 1][..n] == passes[..n];
  }

  /** The pass deletes the path's entry: its directory is no longer listened to, or the file is gone. */
  predicate Deletes(s: Store, p: Pass, path: string) {
    p.dirs != [] && (LosesDir(s, p, path) || path in p.gone)
  }

  predicate LosesDir(s: Store, p: Pass, path: string) {
    exists d :: d in s.listenDirs && d <= path && forall i :: 0 <= i < |p.dirs| ==> p.dirs[i].name != d
  }

  lemma {:induction false} LosesIsUnder(s: Store, p: Pass, path: string)
    ensures LosesDir(s, p, path) <==> Under(s.listenDirs - Names(p.dirs), path)
  {
    if LosesDir(s, p, path) {
      var d :| d in s.listenDirs && d <= path && forall i :: 0 <= i < |p.dirs| ==> p.dirs[i].name != d;
      assert d in s.listenDirs - Names(p.dirs);
    }
    if Under(s.listenDirs - Names(p.dirs), path) {
      var d :| d in s.listenDirs - Names(p.dirs) && d <= path;
      assert forall i :: 0 <= i < |p.dirs| ==> p.dirs[i].name in Names(p.dirs);
    }
  }

  /** A processed entry stays, and is not dispatched again, while it is not deleted. */
  lemma {:induction false} SettledStays(s: Store, p: Pass, path: string)
    requires path in s.state && Settled(s.state[path]) && !Deletes(s, p, path)
    ensures var (t, sent) := Send(s, p); path in t.state && Settled(t.state[path]) && path !in sent
  {
    if p.dirs != [] {
      LosesIsUnder(s, p, path);
      var kept := Forget(s.state, s.listenDirs - Names(p.dirs));
      ScanAllIs(kept, p.dirs);
      ProcessAllProgress(kept, Counting(p.dirs), path);
    }
  }

  lemma {:induction false} SentIsSettled(s: Store, p: Pass, path: string)
    requires path in Send(s, p).1
    ensures path in Send(s, p).0.state && Settled(Send(s, p).0.state[path])
  {
  }

  /** Between two dispatches of one path its entry was deleted. */
  lemma {:induction false} AtMostOnce(s: Store, passes: seq<Pass>, m: nat, n: nat, path: string)
    requires m < n < |passes| && path in Sent(s, passes, m) && path in Sent(s, passes, n)
    ensures exists k :: m < k <= n && Deletes(Before(s, passes, k), passes[k], path)
  {
    hide Send, Deletes, Settled;
    if forall k :: m < k <= n ==> !Deletes(Before(s, passes, k), passes[k], path) {
      SentIsSettled(Before(s, passes, m), passes[m], path);
      BeforeNext(s, passes, m);
      StaysSettled(s, passes, m + 1, n, path);
      SettledStays(Before(s, passes, n), passes[n], path);
    }
  }

  lemma {:induction false} StaysSettled(s: Store, passes: seq<Pass>, m: nat, n: nat, path: string)
    requires m <= n < |passes| && path in Before(s, passes, m).state && Settled(Before(s, passes, m).state[path])
    requires forall k :: m <= k <= n ==> !Deletes(Before(s, passes, k), passes[k], path)
    ensures path in Before(s, passes, n).state && Settled(Before(s, passes, n).state[path])
    decreases n - m
  {
    hide Send, Deletes, Settled, Before;
    if m < n {
      SettledStays(Before(s, passes, m), passes[m], path);
      BeforeNext(s, passes, m);
      StaysSettled(s, passes, m + 1, n, path);
    }
  }

  predicate AtLeastReady(e: Entry) {
    e.progress.ReadyToProcess? || e.progress.Processed?
  }

  /** A pass makes an entry ready only when it was seen once before, and keeps it so since. */
  lemma {:induction false} ReadyWasSeen(s: Store, p: Pass, path: string)
    requires path in Send(s, p).0.state && AtLeastReady(Send(s, p).0.state[path])
    ensures path in s.state && (s.state[path].progress.SeenOnce? || AtLeastReady(s.state[path]))
  {
    if p.dirs != [] {
      var kept := Forget(s.state, s.listenDirs - Names(p.dirs));
      ScanAllIs(kept, p.dirs);
      if path in kept {
        ProcessAllProgress(kept, Counting(p.dirs), path);
      } else if path in ProcessAll(kept, Counting(p.dirs)) {
        ProcessAllNew(kept, Counting(p.dirs), path);
      }
    }
  }

  /** Before pass `m` the path was seen once, and from then to pass `n` its entry was there. */
  predicate SeenSince(s: Store, passes: seq<Pass>, m: nat, n: nat, path: string)
    requires n <= |passes|
  {
    && m <= n
    && (forall k :: m <= k <= n ==> path in Before(s, passes, k).state)
    && Before(s, passes, m).state[path].progress.SeenOnce?
  }

  lemma {:induction false} WasSeen(s: Store, passes: seq<Pass>, n: nat, path: string) returns (m: nat)
    requires n < |passes| && path in Before(s, passes, n + 1).state && AtLeastReady(Before(s, passes, n + 1).state[path])
    requires forall p :: p in s.state ==> !AtLeastReady(s.state[p])
    ensures SeenSince(s, passes, m, n, path)
    decreases n
  {
    hide Send;
    BeforeNext(s, passes, n);
    ReadyWasSeen(Before(s, passes, n), passes[n], path);
    if Before(s, passes, n).state[path].progress.SeenOnce? {
      return n;
    }
    assert Before(s, passes, 0) == s;
    m := WasSeen(s, passes, n - 1, path);
  }

  lemma {:induction false} SettledIsReady(e: Entry)
    requires Settled(e)
    ensures AtLeastReady(e)
  {
  }

  /** From a store in which nothing is ready, a file is dispatched only by a pass later than one that
      left it seen once, its entry being there after every pass in between. */
  lemma {:induction false} DispatchedAfterTwoPasses(s: Store, passes: seq<Pass>, n: nat, path: string)
    requires n < |passes| && path in Sent(s, passes, n)
    requires forall p :: p in s.state ==> !AtLeastReady(s.state[p])
    ensures exists m: nat :: SeenSince(s, passes, m, n, path)
  {
    hide Send, Settled;
    SentIsSettled(Before(s, passes, n), passes[n], path);
    BeforeNext(s, passes, n);
    SettledIsReady(Before(s, passes, n + 1).state[path]);
    var m := WasSeen(s, passes, n, path);
  }

  // ---------- Only finished files are dispatched ----------

  /** A scan that counts meets the path as a finished file that a handler takes and that is not too old. */
  predicate FinishedAmong(visits: seq<Visit>, path: string) {
    exists i :: 0 <= i < |visits| && visits[i].path == path && visits[i].handled && visits[i].finished && !visits[i].expired
  }

  predicate FinishedInPass(p: Pass, path: string) {
    FinishedAmong(Counting(p.dirs), path)
  }

  predicate Listening(state: States, path: string) {
    path in state && state[path].isListening
  }

  lemma {:induction false} ProcessAllListening(state: States, visits: seq<Visit>, path: string)
    requires Listening(ProcessAll(state, visits), path)
    ensures Listening(state, path) || FinishedAmong(visits, path)
    decreases |visits|
  {
    if visits != [] {
      ProcessAllListening(Process(state, visits[0]), visits[1..], path);
      if FinishedAmong(visits[1..], path) {
        var i :| 0 <= i < |visits| - 1 && visits[1..][i].path == path && visits[1..][i].handled && visits[1..][i].finished && !visits[1..][i].expired;
        assert visits[i + 1] == visits[1..][i];
      }
    }
  }

  lemma {:induction false} PassListening(s: Store, p: Pass, path: string)
    requires Listening(Send(s, p).0.state, path) || path in Send(s, p).1
    ensures Listening(s.state, path) || FinishedInPass(p, path)
  {
    hide ScanAll, ProcessAll, FinishedAmong;
    if p.dirs != [] {
      var kept := Forget(s.state, s.listenDirs - Names(p.dirs));
      ScanAllIs(kept, p.dirs);
      ProcessAllListening(kept, Counting(p.dirs), path);
    }
  }

  /** From a store that listens to nothing, a file is dispatched only when this pass or an earlier one met
      it finished, taken by a handler and not too old, in a scan that was not rolled back. */
  lemma {:induction false} DispatchedWasFinished(s: Store, passes: seq<Pass>, n: nat, path: string)
    requires n < |passes| && path in Sent(s, passes, n)
    requires forall p :: p in s.state ==> !s.state[p].isListening
    ensures exists k :: 0 <= k <= n && FinishedInPass(passes[k], path)
  {
    hide Send, Listening, FinishedInPass;
    PassListening(Before(s, passes, n), passes[n], path);
    if !FinishedInPass(passes[n], path) {
      WasFinished(s, passes, n, path);
    }
  }

  lemma {:induction false} WasFinished(s: Store, passes: seq<Pass>, n: nat, path: string)
    requires n <= |passes| && Listening(Before(s, passes, n).state, path)
    requires forall p :: p in s.state ==> !s.state[p].isListening
    ensures exists k :: 0 <= k < n && FinishedInPass(passes[k], path)
    decreases n
  {
    hide Send, FinishedInPass;
    assert Before(s, passes, 0) == s;
    if n > 0 {
      BeforeNext(s, passes, n - 1);
      PassListening(Before(s, passes, n - 1), passes[n - 1], path);
      if Listening(Before(s, passes, n - 1).state, path) {
        WasFinished(s, passes, n - 1, path);
      }
    }
  }

  // ---------- Finished files are dispatched ----------

  /** Wherever the visits meet the path, a handler takes it and it is not too old. */
  predicate Undisturbed(visits: seq<Visit>, path: string) {
    forall i :: 0 <= i < |visits| && visits[i].path == path ==> visits[i].handled && !visits[i].expired
  }

  predicate Supported(state: States, path: string) {
    path in state && state[path].isListening && !state[path].unsupported
  }

  function ProgressOf(state: States, path: string): Progress {
    if path in state then state[path].progress else Unprocessed
  }

  /** Undisturbed visits keep the progress; one that finds the file finished makes it listened to. */
  lemma {:induction false} ScanKeepsProgress(state: States, visits: seq<Visit>, path: string)
    requires Undisturbed(visits, path)
    ensures var after := ProcessAll(state, visits);
      && ProgressOf(after, path) == ProgressOf(state, path)
      && (Supported(state, path) ==> Supported(after, path))
      && (FinishedAmong(visits, path) && ProgressOf(state, path).Unprocessed? ==> Supported(after, path))
    decreases |visits|
  {
    if visits != [] {
      assert visits[0].path == path ==> visits[0].handled && !visits[0].expired;
      assert Undisturbed(visits[1..], path) by {
        forall i | 0 <= i < |visits[1..]| && visits[1..][i].path == path
          ensures visits[1..][i].handled && !visits[1..][i].expired
        {
          assert visits[1..][i] == visits[i + 1];
        }
      }
      ScanKeepsProgress(Process(state, visits[0]), visits[1..], path);
      if FinishedAmong(visits, path) && !(visits[0].path == path && visits[0].finished) {
        var i :| 0 <= i < |visits| && visits[i].path == path && visits[i].handled && visits[i].finished && !visits[i].expired;
        assert visits[1..][i - 1] == visits[i];
      }
    }
  }

  /** The pass updates the directories and saves them without error. */
  predicate Counts(p: Pass) {
    p.dirs != [] && !p.statFails && p.saved
  }

  /** Nothing in the pass keeps the path from being listened to. */
  predicate LeavesAlone(s: Store, p: Pass, path: string) {
    !Deletes(s, p, path) && Undisturbed(Counting(p.dirs), path)
  }

  /** What one pass does to a file that is, or becomes, listened to. */
  lemma {:induction false} OnePass(s: Store, p: Pass, path: string)
    requires LeavesAlone(s, p, path)
    requires Supported(s.state, path) || (FinishedInPass(p, path) && ProgressOf(s.state, path).Unprocessed?)
    ensures var (t, sent) := Send(s, p); var before, after := ProgressOf(s.state, path), ProgressOf(t.state, path);
      && Supported(t.state, path)
      && (path in sent <==> Counts(p) && p.savedAgain && (before.SeenOnce? || before.ReadyToProcess?))
      && after ==
        if !Counts(p) || before.Processed? then before
        else if before.Unprocessed? then SeenOnce
        else if p.savedAgain then Processed
        else ReadyToProcess
  {
    hide ProcessAll, FinishedAmong, Undisturbed;
    if p.dirs != [] {
      LosesIsUnder(s, p, path);
      var kept := Forget(s.state, s.listenDirs - Names(p.dirs));
      assert path in s.state ==> path in kept && kept[path] == s.state[path];
      ScanAllIs(kept, p.dirs);
      ScanKeepsProgress(kept, Counting(p.dirs), path);
      hide Forget, ScanAll;
    } else {
      NoneFinished(path);
    }
  }

  lemma {:induction false} NoneFinished(path: string)
    ensures !FinishedAmong(Counting([]), path)
  {
  }

  /** How many of the passes from `m` to before `n` count. */
  function Steps(passes: seq<Pass>, m: nat, n: nat): nat
    requires m <= n <= |passes|
  {
    if m == n then 0 else Steps(passes, m, n - 1) + if Counts(passes[n - 1]) then 1 else 0
  }

  /** Pass `k` goes without any error and is at least the second from `m` on that counts. */
  predicate Due(passes: seq<Pass>, m: nat, k: nat)
    requires m <= k < |passes|
  {
    Counts(passes[k]) && passes[k].savedAgain && Steps(passes, m, k + 1) >= 2
  }

  predicate WasDue(passes: seq<Pass>, m: nat, n: nat)
    requires m <= n <= |passes|
  {
    exists k :: m <= k < n && Due(passes, m, k)
  }

  /** From pass `m`, which met it finished, to pass `n` nothing disturbed the file. */
  predicate LeftAlone(s: Store, passes: seq<Pass>, m: nat, n: nat, path: string)
    requires m <= n < |passes|
  {
    && ProgressOf(Before(s, passes, m).state, path).Unprocessed? && FinishedInPass(passes[m], path)
    && forall k :: m <= k <= n ==> LeavesAlone(Before(s, passes, k), passes[k], path)
  }

  lemma {:induction false} ProgressAfter(s: Store, passes: seq<Pass>, m: nat, n: nat, path: string)
    requires m <= n < |passes| && LeftAlone(s, passes, m, n, path)
    ensures var after := Before(s, passes, n + 1).state;
      && Supported(after, path)
      && ProgressOf(after, path) ==
        if WasDue(passes, m, n + 1) then Processed
        else if Steps(passes, m, n + 1) == 0 then Unprocessed
        else if Steps(passes, m, n + 1) == 1 then SeenOnce
        else ReadyToProcess
    decreases n
  {
    hide Send, LeavesAlone, FinishedInPass, Supported, ProgressOf, Before, Counts;
    if m < n {
      ProgressAfter(s, passes, m, n - 1, path);
    }
    assert LeavesAlone(Before(s, passes, n), passes[n], path);
    OnePass(Before(s, passes, n), passes[n], path);
    BeforeNext(s, passes, n);
    DueNext(passes, m, n);
    if m == n {
      assert Steps(passes, m, n) == 0 && !WasDue(passes, m, n);
    }
  }

  lemma {:induction false} DueNext(passes: seq<Pass>, m: nat, n: nat)
    requires m <= n < |passes|
    ensures WasDue(passes, m, n + 1) <==> WasDue(passes, m, n) || Due(passes, m, n)
  {
    hide Due;
  }

  /** A file with no progress yet that pass `m` met finished, and that nothing disturbed since, is dispatched
      exactly by the first pass that goes without any error and is at least the second that counts. */
  lemma {:induction false} DispatchedExactly(s: Store, passes: seq<Pass>, m: nat, n: nat, path: string)
    requires m <= n < |passes| && LeftAlone(s, passes, m, n, path)
    ensures path in Sent(s, passes, n) <==> Due(passes, m, n) && !WasDue(passes, m, n)
  {
    hide Send, LeavesAlone, FinishedInPass, Supported, ProgressOf, Before, Counts;
    if m < n {
      ProgressAfter(s, passes, m, n - 1, path);
    } else {
      assert Steps(passes, m, n) == 0 && !WasDue(passes, m, n);
    }
    assert LeavesAlone(Before(s, passes, n), passes[n], path);
    OnePass(Before(s, passes, n), passes[n], path);
  }

  // ---------- Other files start over ----------

  /** An entry that is not supported is not listened to and has no progress. */
  ghost predicate Tidy(state: States) {
    forall path :: path in state && state[path].unsupported ==> !state[path].isListening && state[path].progress.Unprocessed?
  }

  lemma {:induction false} ProcessAllTidy(state: States, visits: seq<Visit>)
    requires Tidy(state)
    ensures Tidy(ProcessAll(state, visits))
    decreases |visits|
  {
    if visits != [] {
      ProcessAllTidy(Process(state, visits[0]), visits[1..]);
    }
  }

  lemma {:induction false} SendTidy(s: Store, p: Pass)
    requires Tidy(s.state)
    ensures Tidy(Send(s, p).0.state)
  {
    hide ProcessAll, ScanAll;
    if p.dirs != [] {
      var kept := Forget(s.state, s.listenDirs - Names(p.dirs));
      ScanAllIs(kept, p.dirs);
      ProcessAllTidy(kept, Counting(p.dirs));
    }
  }

  lemma {:induction false} AlwaysTidy(s: Store, passes: seq<Pass>, n: nat)
    requires Tidy(s.state) && n <= |passes|
    ensures Tidy(Before(s, passes, n).state)
    decreases n
  {
    hide Tidy, Send;
    if n > 0 {
      AlwaysTidy(s, passes, n - 1);
      BeforeNext(s, passes, n - 1);
      SendTidy(Before(s, passes, n - 1), passes[n - 1]);
    } else {
      assert Before(s, passes, 0) == s;
    }
  }

  /** Met, and never as a file that a handler takes and that is not too old. */
  predicate Unfit(visits: seq<Visit>, path: string) {
    && (exists i :: 0 <= i < |visits| && visits[i].path == path)
    && forall i :: 0 <= i < |visits| && visits[i].path == path ==> !visits[i].handled || visits[i].expired
  }

  predicate Unsupported(state: States, path: string) {
    path in state && state[path].unsupported && !state[path].isListening && state[path].progress.Unprocessed?
  }

  lemma {:induction false} UnfitScanned(state: States, visits: seq<Visit>, path: string)
    requires Tidy(state) && (path in state ==> !Settled(state[path]))
    requires forall i :: 0 <= i < |visits| && visits[i].path == path ==> !visits[i].handled || visits[i].expired
    ensures Unsupported(state, path) || Unfit(visits, path) ==> Unsupported(ProcessAll(state, visits), path)
    decreases |visits|
  {
    if visits != [] {
      var next := Process(state, visits[0]);
      ProcessAllTidy(state, [visits[0]]);
      assert ProcessAll(next, []) == next && [visits[0]][1..] == [];
      assert visits[0].path == path ==> !visits[0].handled || visits[0].expired;
      assert forall i :: 0 <= i < |visits[1..]| ==> visits[1..][i] == visits[i + 1];
      UnfitScanned(next, visits[1..], path);
      if Unfit(visits, path) && visits[0].path != path {
        var i :| 0 <= i < |visits| && visits[i].path == path;
        assert visits[1..][i - 1].path == path;
      }
    }
  }

  /** A file that was not dispatched yet and that a pass meets without a handler or too old is not
      dispatched by it, and has no progress afterwards. */
  lemma {:induction false} UnfitStartsOver(s: Store, passes: seq<Pass>, n: nat, path: string)
    requires Tidy(s.state) && n < |passes| && Unfit(Counting(passes[n].dirs), path)
    requires path in Before(s, passes, n).state ==> !Settled(Before(s, passes, n).state[path])
    ensures path !in Sent(s, passes, n)
    ensures ProgressOf(Before(s, passes, n + 1).state, path).Unprocessed? && !Listening(Before(s, passes, n + 1).state, path)
  {
    AlwaysTidy(s, passes, n);
    BeforeNext(s, passes, n);
    var t, p := Before(s, passes, n), passes[n];
    hide Before, ProcessAll, ScanAll, Unfit;
    assert p.dirs != [] by {
      NoneUnfit(path);
    }
    var kept := Forget(t.state, t.listenDirs - Names(p.dirs));
    ScanAllIs(kept, p.dirs);
    UnfitScan(kept, Counting(p.dirs), path);
  }

  lemma {:induction false} NoneUnfit(path: string)
    ensures !Unfit(Counting([]), path)
  {
  }

  lemma {:induction false} UnfitScan(state: States, visits: seq<Visit>, path: string)
    requires Tidy(state) && (path in state ==> !Settled(state[path])) && Unfit(visits, path)
    ensures Unsupported(ProcessAll(state, visits), path)
  {
    UnfitScanned(state, visits, path);
  }

  /** The entry of a file that is not dispatched yet holds what the last visit found. */
  lemma {:induction false} LastVisitKept(state: States, visits: seq<Visit>, v: Visit)
    requires v.path in ProcessAll(state, visits) ==> !Settled(ProcessAll(state, visits)[v.path])
    requires v.handled && !v.expired && v.finished
    ensures var after := ProcessAll(state, visits + [v]);
      v.path in after && after[v.path].size == v.size && after[v.path].modifyTime == v.modTime && !after[v.path].tooOld
  {
    ProcessConcat(state, visits, [v]);
    assert [v][1..] == [];
  }

  /** A file that is expired, or that no handler takes, is unsupported from then on; only in the first case it
      is too old. */
  lemma {:induction false} LastVisitRefused(state: States, visits: seq<Visit>, v: Visit)
    requires v.path in ProcessAll(state, visits) ==> !Settled(ProcessAll(state, visits)[v.path]) && !ProcessAll(state, visits)[v.path].unsupported
    requires !v.handled || v.expired
    ensures var after := ProcessAll(state, visits + [v]);
      && v.path in after && after[v.path].unsupported && after[v.path].size == v.size
      && after[v.path].progress.Unprocessed? && !after[v.path].isListening
      && (after[v.path].tooOld <==> v.handled)
  {
    ProcessConcat(state, visits, [v]);
    assert [v][1..] == [];
  }

  /** A file found unsupported keeps its entry, with the size and the reason, however often no handler takes it. */
  lemma {:induction false} UnsupportedKept(state: States, visits: seq<Visit>, path: string)
    requires path in state && state[path].unsupported
    requires forall i :: 0 <= i < |visits| && visits[i].path == path ==> !visits[i].handled
    ensures path in ProcessAll(state, visits) && ProcessAll(state, visits)[path] == state[path]
    decreases |visits|
  {
    if visits != [] {
      assert visits[0].path == path ==> !visits[0].handled;
      var rest := visits[1..];
      assert forall i :: 0 <= i < |rest| ==> rest[i] == visits[i + 1];
      UnsupportedKept(Process(state, visits[0]), rest, path);
    }
  }

  /** What a pass deletes starts over: a file that is gone has no entry, and one whose directory is no
      longer listened to has at most been seen once since. */
  lemma {:induction false} DeletedStartsOver(s: Store, p: Pass, path: string)
    requires Deletes(s, p, path)
    ensures var (t, sent) := Send(s, p);
      && path !in sent && (ProgressOf(t.state, path).Unprocessed? || ProgressOf(t.state, path).SeenOnce?)
      && (path in p.gone ==> path !in t.state)
      && (forall d :: d in t.listenDirs <==> exists i :: 0 <= i < |p.dirs| && p.dirs[i].name == d)
  {
    LosesIsUnder(s, p, path);
    var kept := Forget(s.state, s.listenDirs - Names(p.dirs));
    ScanAllIs(kept, p.dirs);
    hide ScanAll, ProcessAll;
    if path !in p.gone {
      assert path !in kept;
      if path in ProcessAll(kept, Counting(p.dirs)) {
        ProcessAllNew(kept, Counting(p.dirs), path);
      }
    }
  }

  // ---------- Restoring one entry after the other ----------

  /** All the checkpoints but those in `left` are restored. */
  ghost predicate PartlyRestored(before: States, saved: Checkpoints, left: set<string>, state: States) {
    && (forall path :: path !in saved.Keys - left ==> (path in state <==> path in before))
    && (forall path :: path !in saved.Keys - left && path in state ==> state[path] == before[path])
    && (forall path :: path in saved.Keys - left ==> (path in state <==> saved[path].Some?))
    && (forall path :: path in saved.Keys - left && path in state ==> state[path] == saved[path].value)
  }

  lemma {:induction false} NoneRestored(before: States, saved: Checkpoints)
    ensures PartlyRestored(before, saved, saved.Keys, before)
  {
  }

  lemma {:induction false} OneRestored(before: States, saved: Checkpoints, left: set<string>, path: string, state: States)
    requires PartlyRestored(before, saved, left, state) && path in left && left <= saved.Keys
    ensures PartlyRestored(before, saved, left - {path},
      if saved[path].Some? then state[path := saved[path].value] else state - {path})
  {
    assert forall p :: p in saved.Keys - (left - {path}) <==> p == path || p in saved.Keys - left;
  }

  lemma {:induction false} AllRestored(before: States, saved: Checkpoints, state: States)
    requires PartlyRestored(before, saved, {}, state)
    ensures state == Restore(before, saved)
  {
    assert saved.Keys - {} == saved.Keys;
    assert state.Keys == Restore(before, saved).Keys;
  }

  // ---------- The handler as it runs ----------

  class FileStateHandler {
    var state: States
    var listenDirs: set<string>

    function Now(): Store
      reads this
    {
      Store(state, listenDirs)
    }

    constructor (s: Store)
      ensures Now() == s
    {
      state, listenDirs := s.state, s.listenDirs;
    }

    method ProcessListenFile(v: Visit)
      modifies this`state
      ensures state == Process(old(state), v)
    {
      var known := v.path in state;
      if known && !state[v.path].unsupported && state[v.path].progress.Processed? {
        return;
      }
      if !v.handled {
        if !known || !state[v.path].unsupported {
          state := state[v.path := NEW.(size := v.size, unsupported := true)];
        }
        return;
      }
      if v.expired {
        state := state[v.path := NEW.(size := v.size, unsupported := true, tooOld := true)];
        return;
      }
      if v.finished {
        var e := if known then state[v.path] else NEW;
        e := e.(size := v.size, modifyTime := v.modTime, isListening := true, unsupported := false, tooOld := false);
        state := state[v.path := e];
      }
    }

    method RestoreFileStates(checkpoints: Checkpoints)
      modifies this`state
      ensures state == Restore(old(state), checkpoints)
    {
      hide PartlyRestored;
      var left := checkpoints.Keys;
      NoneRestored(state, checkpoints);
      while left != {}
        invariant left <= checkpoints.Keys && PartlyRestored(old(state), checkpoints, left, state)
        decreases |left|
      {
        var path :| path in left;
        OneRestored(old(state), checkpoints, left, path, state);
        left := left - {path};
        if checkpoints[path].Some? {
          state := state[path := checkpoints[path].value];
        } else {
          state := state - {path};
        }
      }
      AllRestored(old(state), checkpoints, state);
    }

    /** A recursive walk with its callback. */
    method WalkDir(visits: seq<Visit>, fails: bool)
      modifies this`state
      ensures state == Scanned(old(state), Walk(visits, fails))
    {
      hide Process, Restore;
      var checkpoints: Checkpoints := map[];
      for i := 0 to |visits|
        invariant Visited(state, checkpoints, visits[i..]) == Visited(old(state), map[], visits)
      {
        assert visits[i..][0] == visits[i] && visits[i..][1..] == visits[i + 1..];
        checkpoints := Checkpoint(state, checkpoints, visits[i].path);
        ProcessListenFile(visits[i]);
      }
      if fails {
        RestoreFileStates(checkpoints);
      }
    }

    method ScanDir(scan: Scan)
      modifies this`state
      ensures state == Scanned(old(state), scan)
    {
      hide Process, Restore;
      match scan {
        case Walk(visits, fails) =>
          WalkDir(visits, fails);
        case Listing(visits) =>
          for i := 0 to |visits|
            invariant ProcessAll(state, visits[i..]) == ProcessAll(old(state), visits)
          {
            assert visits[i..][0] == visits[i] && visits[i..][1..] == visits[i + 1..];
            ProcessListenFile(visits[i]);
          }
        case NoScan =>
      }
    }

    method UpdateListenDirs(p: Pass) returns (ok: bool)
      modifies this
      ensures (Now(), ok) == Listen(old(Now()), p)
    {
      hide Scanned;
      var newListenDirs := Names(p.dirs);
      state := Forget(state, listenDirs - newListenDirs);
      ghost var kept := state;
      for i := 0 to |p.dirs|
        invariant ScanAll(state, p.dirs[i..]) == ScanAll(kept, p.dirs) && listenDirs == old(listenDirs)
      {
        assert p.dirs[i..][0] == p.dirs[i] && p.dirs[i..][1..] == p.dirs[i + 1..];
        ScanDir(p.dirs[i].scan);
      }
      listenDirs := newListenDirs;
      state := state - p.gone;
      ok := !p.statFails && p.saved;
    }

    method UpdateFilesProcessState()
      modifies this`state
      ensures state == StepAll(old(state))
    {
      var left := state.Keys;
      while left != {}
        invariant left <= state.Keys == old(state).Keys
        invariant forall path :: path in state ==> state[path] == if path in left then old(state)[path] else Stepped(old(state)[path])
        decreases |left|
      {
        var path :| path in left;
        left := left - {path};
        var e := state[path];
        if e.isListening {
          match e.progress {
            case Unprocessed => state := state[path := e.(progress := SeenOnce)];
            case SeenOnce => state := state[path := e.(progress := ReadyToProcess)];
            case _ =>
          }
        }
      }
    }

    method SendFilesToBeProcessed(p: Pass) returns (sent: set<string>)
      modifies this
      ensures (Now(), sent) == Send(old(Now()), p)
    {
      hide Listen, StepAll, Dispatchable;
      if |p.dirs| == 0 {
        return {};
      }
      var ok := UpdateListenDirs(p);
      if !ok {
        return {};
      }
      UpdateFilesProcessState();
      if !p.savedAgain {
        return {};
      }
      ghost var stepped, dirs := state, listenDirs;
      sent := Ready(state);
      var left := sent;
      while left != {}
        invariant left <= sent <= state.Keys && listenDirs == dirs
        invariant state == MarkAll(stepped, sent - left)
        decreases |left|
      {
        var path :| path in left;
        left := left - {path};
        state := state[path := state[path].(progress := Processed)];
      }
      assert sent - left == sent;
    }
  }
}
