/** The record cache files of internal/model/record_cache.go and what is done to them concurrently.

    Every operation on a file takes the file's keyed mutex, reads the file, writes it or deletes it,
    and gives the mutex back. `Replay` is the sequential meaning: the operations one after the other,
    in the order in which they held the lock. */
module RecordCache {
  import opened Wrappers
  import opened KeyedMutex

  /** A record's state file: the flags, the uploaded paths, and everything else. */
  datatype Record = Record(uploaded: bool, skipped: bool, paths: seq<string>, rest: nat)

  /** The update functions: the uploader's progress and end, the canceller's mark, and updates that
      touch neither flags nor paths. */
  datatype Update = Progress(path: string) | Finish | Cancel | Annotate(rest: nat)

  /** lo.Uniq keeps the first of equal elements. */
  function Uniq(s: seq<string>): seq<string> {
    if s == [] then []
    else
      var front := Uniq(s[..|s| - 1]);
      if s[|s| - 1] in front then front else front + [s[|s| - 1]]
  }

  function Apply(u: Update, rc: Record): Record {
    match u
    case Progress(path) => if rc.skipped || rc.uploaded then rc else rc.(paths := Uniq(rc.paths + [path]))
    case Finish => if rc.skipped then rc else rc.(uploaded := true)
    case Cancel => rc.(skipped := true)
    case Annotate(rest) => rc.(rest := rest)
  }

  /** What a call wants of a file; `writes` says whether the new contents can be written. */
  datatype Request = Modify(update: Update, writes: bool) | Reload | Clean

  /** `at` is how many effects there were when the call took effect, its own included. */
  datatype Stage = Started | Loaded(rc: Record) | Finished(result: Option<Record>, at: nat)

  /** A call; `began` is how many effects there were when it began. */
  datatype Job = Job(key: Key, request: Request, stage: Stage, began: nat)

  datatype Effect = Wrote(update: Update) | Deleted

  /** What was done to a file, and by which handle. */
  datatype Entry = Entry(h: nat, key: Key, effect: Effect)

  type Files = map<Key, Record>

  /** The files, the locks, the calls, and the effects so far in the order in which they happened. */
  datatype Store = Store(lock: State, files: Files, jobs: seq<Job>, log: seq<Entry>)

  function Effected(files: Files, e: Entry): Files {
    if e.effect.Deleted? then files - {e.key}
    else if e.key in files then files[e.key := Apply(e.effect.update, files[e.key])]
    else files
  }

  function Replay(files: Files, log: seq<Entry>): Files {
    if log == [] then files else Effected(Replay(files, log[..|log| - 1]), log[|log| - 1])
  }

  datatype Move = Begin(key: Key, request: Request) | Lock(h: nat) | Read(h: nat) | Write(h: nat) | Unlock(h: nat)

  predicate Possible(s: Store, move: Move) {
    match move
    case Begin(key, _) => key != "" && key != "."
    case Lock(h) => h < |s.lock.handles| && Known(s.lock) && Advance(s.lock, h).Some?
    case Read(h) => Works(s, h) && s.jobs[h].stage.Started?
    case Write(h) => Works(s, h) && s.jobs[h].stage.Loaded?
    case Unlock(h) => Works(s, h) && s.jobs[h].stage.Finished?
  }

  /** Handle `h` is between Lock and the deferred release. */
  predicate Works(s: Store, h: nat) {
    h < |s.lock.handles| == |s.jobs| && s.lock.handles[h].Holding?
  }

  function InStage(s: Store, h: nat, stage: Stage): Store
    requires h < |s.jobs|
  {
    s.(jobs := s.jobs[h := s.jobs[h].(stage := stage)])
  }

  function Do(s: Store, move: Move): Store
    requires Possible(s, move)
  {
    match move
    case Begin(key, request) => s.(lock := Call(s.lock, key), jobs := s.jobs + [Job(key, request, Started, |s.log|)])
    case Lock(h) => s.(lock := Advance(s.lock, h).value)
    case Read(h) =>
      var key := s.jobs[h].key;
      if s.jobs[h].request.Clean? then
        InStage(s, h, Finished(None, |s.log| + 1)).(files := s.files - {key}, log := s.log + [Entry(h, key, Deleted)])
      else InStage(s, h, if key in s.files then Loaded(s.files[key]) else Finished(None, |s.log|))
    case Write(h) =>
      var key, rc := s.jobs[h].key, s.jobs[h].stage.rc;
      if s.jobs[h].request.Modify? then
        var u := s.jobs[h].request.update;
        if s.jobs[h].request.writes then
          InStage(s, h, Finished(Some(Apply(u, rc)), |s.log| + 1)).(files := s.files[key := Apply(u, rc)], log := s.log + [Entry(h, key, Wrote(u))])
        else InStage(s, h, Finished(None, |s.log|))
      else InStage(s, h, Finished(Some(rc), |s.log|))
    case Unlock(h) => s.(lock := Release(s.lock, h))
  }

  /** A call took effect between its begin and its end, and returned what was in its file then. */
  ghost predicate Witnessed(init: Files, log: seq<Entry>, h: nat, job: Job) {
    && job.began <= |log| && (job.stage.Loaded? ==> !job.request.Clean?)
    && (job.stage.Finished? ==> job.began <= job.stage.at <= |log| && SeenAt(init, log, h, job, job.stage.at))
  }

  /** What an update asks for, and nothing else. */
  ghost predicate Means(u: Update, a: Record, b: Record) {
    match u
    case Cancel => b.skipped && b.uploaded == a.uploaded && b.paths == a.paths && b.rest == a.rest
    case Finish => b.uploaded == (a.uploaded || !a.skipped) && b.skipped == a.skipped && b.paths == a.paths && b.rest == a.rest
    case Annotate(rest) => b.rest == rest && b.uploaded == a.uploaded && b.skipped == a.skipped && b.paths == a.paths
    case Progress(path) =>
      && b.uploaded == a.uploaded && b.skipped == a.skipped && b.rest == a.rest
      && if a.skipped || a.uploaded then b.paths == a.paths
         else NoRepeats(b.paths) && forall p :: p in b.paths <==> p in a.paths || p == path
  }

  ghost predicate OthersSame(a: Files, b: Files, key: Key) {
    forall k :: k != key ==> (k in b <==> k in a) && (k in b ==> b[k] == a[k])
  }

  /** After `n` effects: an update that was to be written was, if there was a file, as the last of them, and
      its result is the file as updated; a reload returned the file, if there was one; and a cleanup was the
      last effect. */
  ghost predicate SeenAt(init: Files, log: seq<Entry>, h: nat, job: Job, n: nat)
    requires n <= |log| && job.stage.Finished?
  {
    var here, result := Replay(init, log[..n]), job.stage.result;
    match job.request
    case Reload => (result.Some? <==> job.key in here) && (result.Some? ==> here[job.key] == result.value)
    case Clean =>
      && result.None? && n > job.began && log[n - 1] == Entry(h, job.key, Deleted)
      && job.key !in here && OthersSame(Replay(init, log[..n - 1]), here, job.key)
    case Modify(u, writes) =>
      if result.None? then !writes || job.key !in here
      else
        && writes && n > job.began && log[n - 1] == Entry(h, job.key, Wrote(u))
        && var before := Replay(init, log[..n - 1]);
          && job.key in before && job.key in here && here[job.key] == result.value
          && Means(u, before[job.key], here[job.key]) && OthersSame(before, here, job.key)
  }

  /** The calls and the locks are in step. */
  ghost predicate InStep(s: Store) {
    && Inv(s.lock) && Known(s.lock)
    && |s.jobs| == |s.lock.handles|
    && forall h :: 0 <= h < |s.jobs| ==>
      && !s.lock.handles[h].Blank?
      && (!s.lock.handles[h].Done? ==> s.lock.handles[h].key == s.jobs[h].key)
  }

  /** A call that has read its file still holds the lock, and the file is as it was read. */
  predicate Current(s: Store)
    requires |s.jobs| == |s.lock.handles|
  {
    forall h :: 0 <= h < |s.jobs| && s.jobs[h].stage.Loaded? ==>
      && s.lock.handles[h].Holding?
      && s.jobs[h].key in s.files
      && s.files[s.jobs[h].key] == s.jobs[h].stage.rc
  }

  ghost predicate AllWitnessed(init: Files, s: Store) {
    forall h :: 0 <= h < |s.jobs| ==> Witnessed(init, s.log, h, s.jobs[h])
  }

  /** Every effect is that of the call that names it, at the call's own place; so it is there once. */
  predicate Logged(s: Store) {
    forall i :: 0 <= i < |s.log| ==> s.log[i].h < |s.jobs| && OwnEffect(s.jobs[s.log[i].h], s.log[i], i)
  }

  predicate OwnEffect(job: Job, e: Entry, i: nat) {
    && job.stage.Finished? && job.stage.at == i + 1 && job.key == e.key
    && match e.effect
       case Deleted => job.request.Clean?
       case Wrote(u) => job.request.Modify? && job.request.update == u && job.request.writes && job.stage.result.Some?
  }

  /** A call works on its file between Lock and the release. */
  predicate Paced(s: Store)
    requires |s.jobs| == |s.lock.handles|
  {
    forall h :: 0 <= h < |s.jobs| ==>
      && (Rank(s.lock.handles[h]) < 4 ==> s.jobs[h].stage.Started?)
      && (Rank(s.lock.handles[h]) > 4 ==> s.jobs[h].stage.Finished?)
  }

  /** Every run is as good as one in which the operations follow each other. */
  ghost predicate Serial(init: Files, s: Store) {
    InStep(s) && Current(s) && Paced(s) && s.files == Replay(init, s.log) && AllWitnessed(init, s) && Logged(s)
  }

  predicate NoRepeats(s: seq<string>) {
    forall i, j :: 0 <= i < j < |s| ==> s[i] != s[j]
  }

  lemma {:induction false} UniqMembers(s: seq<string>)
    ensures NoRepeats(Uniq(s)) && forall p :: p in Uniq(s) <==> p in s
  {
    if s != [] {
      UniqMembers(s[..|s| - 1]);
      assert s == s[..|s| - 1] + [s[|s| - 1]];
    }
  }

  lemma {:induction false} ApplyMeans(u: Update, rc: Record)
    ensures Means(u, rc, Apply(u, rc))
  {
    if u.Progress? {
      UniqMembers(rc.paths + [u.path]);
    }
  }

  lemma {:induction false} ReplayNext(files: Files, log: seq<Entry>, e: Entry)
    ensures Replay(files, log + [e]) == Effected(Replay(files, log), e)
  {
    assert (log + [e])[..|log|] == log;
  }

  /** More effects do not change what was seen. */
  lemma {:induction false} StaysWitnessed(init: Files, log: seq<Entry>, e: Entry, h: nat, job: Job)
    requires Witnessed(init, log, h, job)
    ensures Witnessed(init, log + [e], h, job)
  {
    if job.stage.Finished? {
      var n := job.stage.at;
      assert (log + [e])[..n] == log[..n];
      assert n > 0 ==> (log + [e])[..n - 1] == log[..n - 1];
    }
  }

  lemma {:induction false} AllStayWitnessed(init: Files, s: Store, e: Entry, h: nat, job: Job, t: Store)
    requires AllWitnessed(init, s) && h < |s.jobs| && t.jobs == s.jobs[h := job] && t.log == s.log + [e]
    requires Witnessed(init, t.log, h, job)
    ensures AllWitnessed(init, t)
  {
    hide Witnessed;
    forall i | 0 <= i < |t.jobs|
      ensures Witnessed(init, t.log, i, t.jobs[i])
    {
      if i != h {
        StaysWitnessed(init, s.log, e, i, s.jobs[i]);
      }
    }
  }

  /** Nobody else has read the file that a handle holds. */
  lemma {:induction false} Alone(s: Store, h: nat, i: nat)
    requires InStep(s) && Current(s) && Works(s, h) && i < |s.jobs| && s.jobs[i].stage.Loaded? && s.jobs[i].key == s.jobs[h].key
    ensures i == h
  {
    MutualExclusion(s.lock, h, i);
  }

  lemma {:induction false} BeginSerial(init: Files, s: Store, key: Key, request: Request)
    requires Serial(init, s) && key != "" && key != "."
    ensures Serial(init, Do(s, Begin(key, request)))
  {
    BeginInStep(s, key, request);
    hide InStep, Current, Paced, SeenAt, OwnEffect, Possible, Call;
  }

  lemma {:induction false} BeginInStep(s: Store, key: Key, request: Request)
    requires InStep(s) && Current(s) && Paced(s) && key != "" && key != "."
    ensures var t := Do(s, Begin(key, request)); InStep(t) && Current(t) && Paced(t)
  {
    CallKeeps(s.lock, key);
    InvKnown(Call(s.lock, key));
    hide Inv, Known;
  }

  lemma {:induction false} LockSerial(init: Files, s: Store, h: nat)
    requires Serial(init, s) && Possible(s, Lock(h))
    ensures Serial(init, Do(s, Lock(h)))
  {
    LockInStep(s, h);
    hide InStep, Current, Paced, AllWitnessed, Logged, Possible, Advance;
  }

  lemma {:induction false} LockInStep(s: Store, h: nat)
    requires InStep(s) && Current(s) && Paced(s) && Possible(s, Lock(h))
    ensures var t := Do(s, Lock(h)); InStep(t) && Current(t) && Paced(t)
  {
    var t := Advance(s.lock, h).value;
    AdvanceKeeps(s.lock, h);
    InvKnown(t);
    AdvanceMoves(s.lock, h, t);
    SameKey(s.lock, h, t);
    hide Inv, Known, Advance, Rank;
  }

  lemma {:induction false} SameKey(s: State, h: nat, t: State)
    requires Known(s) && h < |s.handles| && Advance(s, h) == Some(t)
    ensures !t.handles[h].Blank? && !s.handles[h].Holding? && !s.handles[h].Done?
    ensures !t.handles[h].Done? ==> t.handles[h].key == s.handles[h].key
    ensures if Rank(s.handles[h]) < 4 then Rank(t.handles[h]) <= 4 else Rank(s.handles[h]) > 4 && Rank(t.handles[h]) > 4
  {
    hide Known;
  }

  lemma {:induction false} UnlockSerial(init: Files, s: Store, h: nat)
    requires Serial(init, s) && Possible(s, Unlock(h))
    ensures Serial(init, Do(s, Unlock(h)))
  {
    UnlockInStep(s, h);
    hide InStep, Current, Paced, AllWitnessed, Logged, Possible, Release;
  }

  lemma {:induction false} UnlockInStep(s: Store, h: nat)
    requires InStep(s) && Current(s) && Paced(s) && Possible(s, Unlock(h))
    ensures var t := Do(s, Unlock(h)); InStep(t) && Current(t) && Paced(t)
  {
    ReleaseKeeps(s.lock, h);
    InvKnown(Release(s.lock, h));
    hide Inv, Known;
  }

  lemma {:induction false} ReadSerial(init: Files, s: Store, h: nat)
    requires Serial(init, s) && Possible(s, Read(h))
    ensures Serial(init, Do(s, Read(h)))
  {
    hide Inv, Known, SeenAt, Effected, OwnEffect;
    var t := Do(s, Read(h));
    assert Witnessed(init, s.log, h, s.jobs[h]);
    StageLogged(s, h, t.jobs[h]);
    if s.jobs[h].request.Clean? {
      var e := Entry(h, s.jobs[h].key, Deleted);
      ReplayNext(init, s.log, e);
      EffectOf(s.files, e);
      SeesOwn(init, s.log, h, t.jobs[h], e);
      AllStayWitnessed(init, s, e, h, t.jobs[h], t);
      CurrentAfter(s, h, t);
      EffectIsOwn(t.jobs[h], e, |s.log|);
      EffectLogged(s, h, t.jobs[h], e);
    } else if t.jobs[h].stage.Finished? {
      SeesNow(init, s.log, h, t.jobs[h]);
    }
  }

  /** The call that goes on has not had an effect. */
  lemma {:induction false} StageLogged(s: Store, h: nat, job: Job)
    requires Logged(s) && h < |s.jobs| && !s.jobs[h].stage.Finished?
    ensures Logged(s.(jobs := s.jobs[h := job]))
  {
  }

  lemma {:induction false} EffectLogged(s: Store, h: nat, job: Job, e: Entry)
    requires Logged(s) && h < |s.jobs| && !s.jobs[h].stage.Finished? && e.h == h && OwnEffect(job, e, |s.log|)
    ensures Logged(s.(jobs := s.jobs[h := job], log := s.log + [e]))
  {
    StageLogged(s, h, job);
    hide OwnEffect;
  }

  lemma {:induction false} EffectOf(files: Files, e: Entry)
    ensures e.effect.Deleted? ==> Effected(files, e) == files - {e.key}
    ensures e.effect.Wrote? && e.key in files ==>
      Effected(files, e) == files[e.key := Apply(e.effect.update, files[e.key])]
    ensures OthersSame(files, Effected(files, e), e.key)
  {
  }

  /** A change to one file under its lock leaves what the others have read. */
  lemma {:induction false} CurrentAfter(s: Store, h: nat, t: Store)
    requires InStep(s) && Current(s) && Works(s, h)
    requires t.lock == s.lock && |t.jobs| == |s.jobs| && !t.jobs[h].stage.Loaded?
    requires forall i :: 0 <= i < |s.jobs| && i != h ==> t.jobs[i] == s.jobs[i]
    requires forall k :: k != s.jobs[h].key && k in s.files ==> k in t.files && t.files[k] == s.files[k]
    ensures Current(t)
  {
    forall i | 0 <= i < |t.jobs| && t.jobs[i].stage.Loaded?
      ensures t.lock.handles[i].Holding? && t.jobs[i].key in t.files && t.files[t.jobs[i].key] == t.jobs[i].stage.rc
    {
      if s.jobs[i].key == s.jobs[h].key {
        Alone(s, h, i);
      }
    }
  }

  lemma {:induction false} WriteSerial(init: Files, s: Store, h: nat)
    requires Serial(init, s) && Possible(s, Write(h))
    ensures Serial(init, Do(s, Write(h)))
  {
    hide Inv, Known, SeenAt, Effected, OwnEffect, Apply;
    var t := Do(s, Write(h));
    var job := s.jobs[h];
    assert Witnessed(init, s.log, h, job);
    StageLogged(s, h, t.jobs[h]);
    CurrentAfter(s, h, t);
    if job.request.Modify? && job.request.writes {
      var e := Entry(h, job.key, Wrote(job.request.update));
      ReplayNext(init, s.log, e);
      EffectOf(s.files, e);
      ApplyMeans(job.request.update, s.files[job.key]);
      SeesOwn(init, s.log, h, t.jobs[h], e);
      AllStayWitnessed(init, s, e, h, t.jobs[h], t);
      EffectIsOwn(t.jobs[h], e, |s.log|);
      EffectLogged(s, h, t.jobs[h], e);
    } else {
      SeesNow(init, s.log, h, t.jobs[h]);
    }
  }

  lemma {:induction false} EffectIsOwn(job: Job, e: Entry, i: nat)
    requires job.stage.Finished? && job.stage.at == i + 1 && e.key == job.key
    requires if job.request.Clean? then e.effect.Deleted?
      else job.request.Modify? && job.request.writes && job.stage.result.Some? && e.effect == Wrote(job.request.update)
    ensures OwnEffect(job, e, i)
  {
  }

  lemma {:induction false} SeesOwn(init: Files, log: seq<Entry>, h: nat, job: Job, e: Entry)
    requires job.stage.Finished? && job.began <= |log| && job.stage.at == |log| + 1
    requires var a, b := Replay(init, log), Replay(init, log + [e]);
      && OthersSame(a, b, job.key)
      && if job.request.Clean? then job.stage.result.None? && e == Entry(h, job.key, Deleted) && job.key !in b
         else
           && job.request.Modify? && job.request.writes && e == Entry(h, job.key, Wrote(job.request.update))
           && job.key in a && job.key in b && job.stage.result == Some(b[job.key]) && Means(job.request.update, a[job.key], b[job.key])
    ensures Witnessed(init, log + [e], h, job)
  {
    hide Replay, Means, OthersSame;
    assert (log + [e])[..|log| + 1] == log + [e];
    assert (log + [e])[..|log|] == log;
  }

  lemma {:induction false} SeesNow(init: Files, log: seq<Entry>, h: nat, job: Job)
    requires job.stage.Finished? && job.began <= job.stage.at == |log| && !job.request.Clean?
    requires var here := Replay(init, log);
      if job.request.Modify? then job.stage.result.None? && (!job.request.writes || job.key !in here)
      else (job.stage.result.Some? <==> job.key in here) && (job.stage.result.Some? ==> here[job.key] == job.stage.result.value)
    ensures Witnessed(init, log, h, job)
  {
    hide Replay;
    assert log[..|log|] == log;
  }

  lemma {:induction false} MoveSerial(init: Files, s: Store, move: Move)
    requires Serial(init, s) && Possible(s, move)
    ensures Serial(init, Do(s, move))
  {
    match move {
      case Begin(key, request) => BeginSerial(init, s, key, request);
      case Lock(h) => LockSerial(init, s, h);
      case Read(h) => ReadSerial(init, s, h);
      case Write(h) => WriteSerial(init, s, h);
      case Unlock(h) => UnlockSerial(init, s, h);
    }
  }

  /** A run from `s`: None when a move is not possible. */
  function RunFrom(s: Store, moves: seq<Move>): Option<Store>
    decreases |moves|
  {
    if moves == [] then Some(s)
    else if Possible(s, moves[0]) then RunFrom(Do(s, moves[0]), moves[1..])
    else None
  }

  /** In every interleaving the files are the sequential replay of the operations in the order in which
      they held the lock, and every call returned what the replay shows at its own place, which lies
      between the call's begin and its end. */
  lemma {:induction false} RunsAreSerial(init: Files, s: Store, moves: seq<Move>)
    requires Serial(init, s) && RunFrom(s, moves).Some?
    ensures Serial(init, RunFrom(s, moves).value)
    decreases |moves|
  {
    hide Serial, Possible, Do;
    if moves != [] {
      MoveSerial(init, s, moves[0]);
      RunsAreSerial(init, Do(s, moves[0]), moves[1..]);
    }
  }

  /** In every run a finished update that is to be written returned a record if and only if its file was
      there; the record is then the file one effect earlier with the update made, it is what the file
      became, and the update is in the log once. Without the file, or where it is not to be written, it is
      not in the log. */
  lemma {:induction false} UpdatesTakeEffect(init: Files, s: Store, h: nat)
    requires Serial(init, s) && h < |s.jobs| && s.jobs[h].stage.Finished? && s.jobs[h].request.Modify?
    ensures var job := s.jobs[h];
      var own := set i | 0 <= i < |s.log| && s.log[i].h == h;
      if job.stage.result.Some? then
        && job.request.writes && job.began < job.stage.at <= |s.log| && own == {job.stage.at - 1}
        && var a, b := Replay(init, s.log[..job.stage.at - 1]), Replay(init, s.log[..job.stage.at]);
          && job.key in a && job.key in b && job.stage.result == Some(b[job.key])
          && Means(job.request.update, a[job.key], b[job.key]) && OthersSame(a, b, job.key)
      else
        own == {} && job.stage.at <= |s.log| && (job.request.writes ==> job.key !in Replay(init, s.log[..job.stage.at]))
  {
    var job := s.jobs[h];
    assert Witnessed(init, s.log, h, job);
    hide Replay, Means, OthersSame, InStep, Current, AllWitnessed;
    forall i | 0 <= i < |s.log| && s.log[i].h == h
      ensures job.stage.result.Some? && i == job.stage.at - 1
    {
      assert OwnEffect(s.jobs[s.log[i].h], s.log[i], i);
    }
  }

  /** And a finished reload returned its file if and only if it was there. */
  lemma {:induction false} ReloadsSeeFiles(init: Files, s: Store, h: nat)
    requires Serial(init, s) && h < |s.jobs| && s.jobs[h].stage.Finished? && s.jobs[h].request.Reload?
    ensures var job := s.jobs[h];
      && job.stage.at <= |s.log|
      && var here := Replay(init, s.log[..job.stage.at]);
        job.stage.result == if job.key in here then Some(here[job.key]) else None
  {
    assert Witnessed(init, s.log, h, s.jobs[h]);
  }

  // ---------- Every call returns ----------

  function StagesLeft(jobs: seq<Job>): nat {
    if jobs == [] then 0
    else (match jobs[0].stage case Started => 2 case Loaded(_) => 1 case Finished(_, _) => 0) + StagesLeft(jobs[1..])
  }

  lemma {:induction false} StageLess(jobs: seq<Job>, h: nat, stage: Stage)
    requires h < |jobs| && (stage.Finished? || stage.Loaded?) && !jobs[h].stage.Finished? && (jobs[h].stage.Loaded? ==> stage.Finished?)
    ensures StagesLeft(jobs[h := jobs[h].(stage := stage)]) < StagesLeft(jobs)
  {
    var b := jobs[h := jobs[h].(stage := stage)];
    if h > 0 {
      assert b[1..] == jobs[1..][h - 1 := jobs[h].(stage := stage)];
      StageLess(jobs[1..], h - 1, stage);
    } else {
      assert b[1..] == jobs[1..];
    }
  }

  function Left(s: Store): nat {
    Remaining(s.lock.handles) + StagesLeft(s.jobs)
  }

  lemma {:induction false} MoveNearer(s: Store, move: Move)
    requires Possible(s, move) && !move.Begin?
    ensures Left(Do(s, move)) < Left(s)
  {
    hide Remaining, StagesLeft, Known;
    match move {
      case Lock(h) =>
        var t := Advance(s.lock, h).value;
        AdvanceMoves(s.lock, h, t);
        RemainingLess(s.lock.handles, h, t.handles[h]);
      case Unlock(h) =>
        RemainingLess(s.lock.handles, h, Release(s.lock, h).handles[h]);
      case Read(h) => StageLess(s.jobs, h, Do(s, move).jobs[h].stage);
      case Write(h) => StageLess(s.jobs, h, Do(s, move).jobs[h].stage);
    }
  }

  predicate AllReturned(s: Store) {
    AtRest(s.lock) && forall h :: 0 <= h < |s.jobs| ==> s.jobs[h].stage.Finished?
  }

  ghost predicate CanGoOn(s: Store) {
    exists move: Move :: !move.Begin? && Possible(s, move)
  }

  lemma {:induction false} ReturnedOrGoesOn(init: Files, s: Store)
    requires Serial(init, s)
    ensures AllReturned(s) || CanGoOn(s)
  {
    hide Inv, Current, AllWitnessed, Logged;
    if AtRest(s.lock) {
      hide Rank;
      forall h | 0 <= h < |s.jobs|
        ensures s.jobs[h].stage.Finished?
      {
        RankAtRest(s.lock.handles[h]);
      }
    } else {
      var h :| 0 <= h < |s.lock.handles| && !s.lock.handles[h].Done? && !s.lock.handles[h].Blank?;
      SomeoneMoves(s.lock, h);
      hide Paced, AtRest;
      var i :| 0 <= i < |s.lock.handles| && (Advance(s.lock, i).Some? || s.lock.handles[i].Holding?);
      HandleGoesOn(s, i);
    }
  }

  lemma {:induction false} RankAtRest(p: Place)
    requires p.Done? || p.Blank?
    ensures Rank(p) > 4
  {
  }

  lemma {:induction false} HandleGoesOn(s: Store, i: nat)
    requires InStep(s) && i < |s.lock.handles| && (Advance(s.lock, i).Some? || s.lock.handles[i].Holding?)
    ensures CanGoOn(s)
  {
    hide Inv, Known, Advance;
    if s.lock.handles[i].Holding? {
      assert Works(s, i);
      assert Possible(s, if s.jobs[i].stage.Started? then Read(i) else if s.jobs[i].stage.Loaded? then Write(i) else Unlock(i));
    } else {
      assert Possible(s, Lock(i));
    }
  }

  /** In whatever order the calls of a reachable store move, within a fixed number of moves every one has
      returned and no lock is held. */
  lemma {:induction false} EveryCallReturns(init: Files, s: Store, moves: seq<Move>)
    requires Serial(init, s) && RunFrom(s, moves).Some? && forall i :: 0 <= i < |moves| ==> !moves[i].Begin?
    ensures |moves| <= Left(s)
    ensures AllReturned(RunFrom(s, moves).value) || CanGoOn(RunFrom(s, moves).value)
    decreases |moves|
  {
    hide Serial, Possible, Do, Left, AllReturned, CanGoOn;
    if moves == [] {
      ReturnedOrGoesOn(init, s);
    } else {
      MoveSerial(init, s, moves[0]);
      MoveNearer(s, moves[0]);
      assert forall i :: 0 <= i < |moves[1..]| ==> moves[1..][i] == moves[i + 1];
      EveryCallReturns(init, Do(s, moves[0]), moves[1..]);
    }
  }

  /** The calls that the moves begin, in order. */
  function Asked(moves: seq<Move>): seq<(Key, Request)> {
    if moves == [] then []
    else (if moves[0].Begin? then [(moves[0].key, moves[0].request)] else []) + Asked(moves[1..])
  }

  function CallsOf(jobs: seq<Job>): seq<(Key, Request)> {
    seq(|jobs|, h requires 0 <= h < |jobs| => (jobs[h].key, jobs[h].request))
  }

  /** The calls of a run are those that were begun, each as it was asked. */
  lemma {:induction false} CallsAreAsked(s: Store, moves: seq<Move>)
    requires RunFrom(s, moves).Some?
    ensures CallsOf(RunFrom(s, moves).value.jobs) == CallsOf(s.jobs) + Asked(moves)
    decreases |moves|
  {
    if moves != [] {
      OneAsked(s, moves[0]);
      CallsAreAsked(Do(s, moves[0]), moves[1..]);
      hide CallsOf, Do, Possible;
      AskedFirst(CallsOf(s.jobs), if moves[0].Begin? then [(moves[0].key, moves[0].request)] else [], Asked(moves[1..]));
    } else {
      assert CallsOf(s.jobs) + [] == CallsOf(s.jobs);
    }
  }

  lemma {:induction false} AskedFirst(a: seq<(Key, Request)>, c: seq<(Key, Request)>, b: seq<(Key, Request)>)
    ensures a + c + b == a + (c + b)
  {
  }

  lemma {:induction false} OneAsked(s: Store, move: Move)
    requires Possible(s, move)
    ensures CallsOf(Do(s, move).jobs) == CallsOf(s.jobs) + if move.Begin? then [(move.key, move.request)] else []
  {
    hide Advance, Release, Call, Known, Apply;
    if !move.Begin? {
      assert CallsOf(s.jobs) + [] == CallsOf(s.jobs);
    }
  }

  function Opened(files: Files): Store {
    Store(START, files, [], [])
  }

  lemma {:induction false} OpenedSerial(files: Files)
    ensures Serial(files, Opened(files))
  {
    StartInv();
  }

  // ---------- What the updates keep ----------

  /** `b` can come after `a`: flags stay, an unfinished skipped record is never uploaded, and the paths
      grow without repeats until a flag freezes them. */
  predicate Later(a: Record, b: Record) {
    && (a.uploaded ==> b.uploaded)
    && (a.skipped ==> b.skipped)
    && (a.skipped ==> b.uploaded == a.uploaded)
    && (a.skipped || a.uploaded ==> b.paths == a.paths)
    && (NoRepeats(a.paths) ==> NoRepeats(b.paths) && a.paths <= b.paths)
  }

  lemma {:induction false} UniqSame(s: seq<string>)
    requires NoRepeats(s)
    ensures Uniq(s) == s
  {
    if s != [] {
      UniqSame(s[..|s| - 1]);
      assert s == s[..|s| - 1] + [s[|s| - 1]];
    }
  }

  lemma {:induction false} UniqNext(s: seq<string>, x: string)
    requires NoRepeats(s)
    ensures Uniq(s + [x]) == (if x in s then s else s + [x])
    ensures NoRepeats(Uniq(s + [x])) && s <= Uniq(s + [x])
  {
    UniqSame(s);
    assert (s + [x])[..|s|] == s;
  }

  lemma {:induction false} ApplyLater(u: Update, rc: Record)
    ensures Later(rc, Apply(u, rc))
  {
    if u.Progress? && NoRepeats(rc.paths) {
      UniqNext(rc.paths, u.path);
    }
  }

  lemma {:induction false} LaterTwice(a: Record, b: Record, c: Record)
    requires Later(a, b) && Later(b, c)
    ensures Later(a, c)
  {
    hide NoRepeats;
  }

  /** Over any stretch of the log a file that still exists has only gone forward. */
  lemma {:induction false} FilesGoForward(init: Files, log: seq<Entry>, i: nat, key: Key)
    requires i <= |log| && key in Replay(init, log)
    ensures key in Replay(init, log[..i]) && Later(Replay(init, log[..i])[key], Replay(init, log)[key])
    decreases |log|
  {
    hide Later;
    if i == |log| {
      assert log[..i] == log;
      LaterSame(Replay(init, log)[key]);
    } else {
      var shorter := log[..|log| - 1];
      FilesGoForward(init, shorter, i, key);
      assert shorter[..i] == log[..i];
      var e := log[|log| - 1];
      var before := Replay(init, shorter)[key];
      if e.key == key && e.effect.Wrote? {
        ApplyLater(e.effect.update, before);
        LaterTwice(Replay(init, log[..i])[key], before, Apply(e.effect.update, before));
      }
    }
  }

  lemma {:induction false} LaterSame(a: Record)
    ensures Later(a, a)
  {
  }

  /** What a run from `s` to `t` leaves of the calls and the log. */
  predicate GoesOn(s: Store, t: Store) {
    && |s.jobs| <= |t.jobs| && s.log <= t.log
    && (forall h :: 0 <= h < |s.jobs| && s.jobs[h].stage.Finished? ==> t.jobs[h] == s.jobs[h])
    && (forall h :: 0 <= h < |s.jobs| ==> t.jobs[h].began == s.jobs[h].began)
    && (forall h :: |s.jobs| <= h < |t.jobs| ==> |s.log| <= t.jobs[h].began)
  }

  lemma {:induction false} MoveGoesOn(s: Store, move: Move)
    requires Possible(s, move)
    ensures GoesOn(s, Do(s, move))
  {
    hide Advance, Release, Call, Known;
  }

  lemma {:induction false} RunGoesOn(s: Store, moves: seq<Move>)
    requires RunFrom(s, moves).Some?
    ensures GoesOn(s, RunFrom(s, moves).value)
    decreases |moves|
  {
    if moves != [] {
      MoveGoesOn(s, moves[0]);
      RunGoesOn(Do(s, moves[0]), moves[1..]);
      hide Possible, Do;
      OnAndOn(s, Do(s, moves[0]), RunFrom(s, moves).value);
    }
  }

  lemma {:induction false} OnAndOn(s: Store, t: Store, u: Store)
    requires GoesOn(s, t) && GoesOn(t, u)
    ensures GoesOn(s, u)
  {
    assert forall h :: 0 <= h < |t.jobs| ==> u.jobs[h].began == t.jobs[h].began;
    assert forall i :: 0 <= i < |s.log| ==> s.log[i] == t.log[i] == u.log[i];
  }

  lemma {:induction false} ResultThere(init: Files, s: Store, h: nat)
    requires Serial(init, s) && h < |s.jobs| && s.jobs[h].stage.Finished? && s.jobs[h].stage.result.Some?
    ensures var job := s.jobs[h];
      && job.began <= job.stage.at <= |s.log|
      && var here := Replay(init, s.log[..job.stage.at]); job.key in here && job.stage.result == Some(here[job.key])
  {
    assert Witnessed(init, s.log, h, s.jobs[h]);
    hide Replay, Means, OthersSame, Logged, InStep, Current;
  }

  lemma {:induction false} FilesBetween(init: Files, log: seq<Entry>, m: nat, n: nat, key: Key)
    requires m <= n <= |log| && key in Replay(init, log[..n])
    ensures key in Replay(init, log[..m]) && Later(Replay(init, log[..m])[key], Replay(init, log[..n])[key])
  {
    hide Later, Replay;
    assert log[..n][..m] == log[..m];
    FilesGoForward(init, log[..n], m, key);
  }

  /** Of two calls on one file, the one with the later place returned a later record. */
  lemma {:induction false} PlacesGoForward(init: Files, s: Store, a: nat, b: nat)
    requires Serial(init, s) && a < |s.jobs| && b < |s.jobs| && s.jobs[a].key == s.jobs[b].key
    requires s.jobs[a].stage.Finished? && s.jobs[a].stage.result.Some? && s.jobs[b].stage.Finished? && s.jobs[b].stage.result.Some?
    requires s.jobs[a].stage.at <= s.jobs[b].stage.at
    ensures Later(s.jobs[a].stage.result.value, s.jobs[b].stage.result.value)
  {
    ResultThere(init, s, a);
    ResultThere(init, s, b);
    hide Later, Serial, Replay;
    FilesBetween(init, s.log, s.jobs[a].stage.at, s.jobs[b].stage.at, s.jobs[a].key);
  }

  /** A call that begins after another one on the same file has returned has the later place and returns
      a later record: in every run no caller sees a flag revert, a path disappear, or an upload finish
      after a skip. */
  lemma {:induction false} ResultsGoForward(init: Files, s: Store, moves: seq<Move>, a: nat, b: nat)
    requires Serial(init, s) && RunFrom(s, moves).Some?
    requires var t := RunFrom(s, moves).value;
      && a < |s.jobs| <= b < |t.jobs| && s.jobs[a].key == t.jobs[b].key
      && s.jobs[a].stage.Finished? && s.jobs[a].stage.result.Some? && t.jobs[b].stage.Finished? && t.jobs[b].stage.result.Some?
    ensures var t := RunFrom(s, moves).value;
      && t.jobs[a] == s.jobs[a] && s.jobs[a].stage.at <= t.jobs[b].began <= t.jobs[b].stage.at
      && Later(s.jobs[a].stage.result.value, t.jobs[b].stage.result.value)
  {
    var t := RunFrom(s, moves).value;
    RunGoesOn(s, moves);
    RunsAreSerial(init, s, moves);
    ResultThere(init, s, a);
    ResultThere(init, t, b);
    hide RunFrom, Serial, Later, Replay;
    PlacesGoForward(init, t, a, b);
  }
}
