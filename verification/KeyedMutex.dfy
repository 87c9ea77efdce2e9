/** The reference-counted mutex per key of internal/model/record_cache_lock.go.

    A handle is one call of Lock together with the release function it returns. `Advance` moves a
    handle by one operation on a mutex or by one block that the registry's mutex protects; any handle
    may move next. Keys are trimmed and cleaned paths. */
module KeyedMutex {
  import opened Wrappers

  type Key = string

  /** Where a handle is; `m` is the keyed mutex it found or made. */
  datatype Place =
    | Calling(key: Key)            // before r.mu.Lock in Lock
    | Entered(key: Key)            // has r.mu
    | Enrolled(key: Key, m: nat)   // has r.mu, its reference counted
    | Waiting(key: Key, m: nat)    // before lock.mu.Lock
    | Holding(key: Key, m: nat)    // Lock returned
    | Releasing(key: Key, m: nat)  // before r.mu.Lock in release
    | Leaving(key: Key, m: nat)    // has r.mu and lock.mu
    | Left(key: Key, m: nat)       // its reference dropped, still has both
    | Unlocked(key: Key, m: nat)   // has r.mu only
    | Done
    | Blank                        // a blank key locks nothing

  datatype Mutex = Mutex(key: Key, references: int, owner: Option<nat>)

  datatype State = State(registry: Option<nat>, locks: map<Key, nat>, mutexes: seq<Mutex>, handles: seq<Place>)

  const START := State(None, map[], [], [])

  /** The mutexes that the state names exist. */
  predicate Known(s: State) {
    && (forall k :: k in s.locks ==> s.locks[k] < |s.mutexes|)
    && forall h :: 0 <= h < |s.handles| && HasMutex(s.handles[h]) ==> s.handles[h].m < |s.mutexes|
  }

  predicate HasMutex(p: Place) {
    p.Enrolled? || p.Waiting? || p.Holding? || p.Releasing? || p.Leaving? || p.Left? || p.Unlocked?
  }

  /** Lock is called. */
  function Call(s: State, key: Key): State {
    s.(handles := s.handles + [if key == "" || key == "." then Blank else Calling(key)])
  }

  function At(s: State, h: nat, p: Place): State
    requires h < |s.handles|
  {
    s.(handles := s.handles[h := p])
  }

  /** Find or make the mutex and count the reference. */
  function Enroll(s: State, h: nat): State
    requires Known(s) && h < |s.handles| && s.handles[h].Entered?
  {
    var k := s.handles[h].key;
    var m := if k in s.locks then s.locks[k] else |s.mutexes|;
    var mutexes := if k in s.locks then s.mutexes else s.mutexes + [Mutex(k, 0, None)];
    At(s, h, Enrolled(k, m)).(
      locks := s.locks[k := m],
      mutexes := mutexes[m := mutexes[m].(references := mutexes[m].references + 1)])
  }

  /** Drop the reference, and the entry with the last one. */
  function Leave(s: State, h: nat): State
    requires Known(s) && h < |s.handles| && s.handles[h].Leaving?
  {
    var k, m := s.handles[h].key, s.handles[h].m;
    var references := s.mutexes[m].references - 1;
    At(s, h, Left(k, m)).(
      mutexes := s.mutexes[m := s.mutexes[m].(references := references)],
      locks := if references == 0 && k in s.locks && s.locks[k] == m then s.locks - {k} else s.locks)
  }

  /** The next step of handle `h`; None while it is blocked, or its caller is to move. */
  function Advance(s: State, h: nat): Option<State>
    requires Known(s) && h < |s.handles|
  {
    match s.handles[h]
    case Calling(k) => if s.registry.None? then Some(At(s, h, Entered(k)).(registry := Some(h))) else None
    case Entered(_) => Some(Enroll(s, h))
    case Enrolled(k, m) => Some(At(s, h, Waiting(k, m)).(registry := None))
    case Waiting(k, m) =>
      if s.mutexes[m].owner.None? then
        Some(At(s, h, Holding(k, m)).(mutexes := s.mutexes[m := s.mutexes[m].(owner := Some(h))]))
      else None
    case Holding(_, _) => None
    case Releasing(k, m) => if s.registry.None? then Some(At(s, h, Leaving(k, m)).(registry := Some(h))) else None
    case Leaving(_, _) => Some(Leave(s, h))
    case Left(k, m) => Some(At(s, h, Unlocked(k, m)).(mutexes := s.mutexes[m := s.mutexes[m].(owner := None)]))
    case Unlocked(_, _) => Some(At(s, h, Done).(registry := None))
    case Done => None
    case Blank => None
  }

  /** The release function is called, for the first time or again. */
  function Release(s: State, h: nat): State
    requires h < |s.handles|
  {
    if s.handles[h].Holding? then At(s, h, Releasing(s.handles[h].key, s.handles[h].m)) else s
  }

  // ---------- What every run keeps ----------

  predicate HasRegistry(p: Place) {
    p.Entered? || p.Enrolled? || p.Leaving? || p.Left? || p.Unlocked?
  }

  predicate Counts(p: Place, m: nat) {
    (p.Enrolled? || p.Waiting? || p.Holding? || p.Releasing? || p.Leaving?) && p.m == m
  }

  predicate Owns(p: Place, m: nat) {
    (p.Holding? || p.Releasing? || p.Leaving? || p.Left?) && p.m == m
  }

  /** The handles that hold `m` or wait for it. */
  function Users(handles: seq<Place>, m: nat): set<nat> {
    set h | 0 <= h < |handles| && Counts(handles[h], m)
  }

  ghost predicate RegistryHeld(s: State) {
    && (forall h :: 0 <= h < |s.handles| ==> (HasRegistry(s.handles[h]) <==> s.registry == Some(h)))
    && (s.registry.Some? ==> s.registry.value < |s.handles|)
  }

  ghost predicate MutexesHeld(s: State) {
    forall m :: 0 <= m < |s.mutexes| ==>
      && (s.mutexes[m].owner.Some? ==> s.mutexes[m].owner.value < |s.handles|)
      && (forall h :: 0 <= h < |s.handles| ==> (Owns(s.handles[h], m) <==> s.mutexes[m].owner == Some(h)))
  }

  /** References count the holders and the waiting. */
  ghost predicate Counted(s: State) {
    forall m :: 0 <= m < |s.mutexes| ==> s.mutexes[m].references == |Users(s.handles, m)|
  }

  /** A mutex is registered exactly while it has references. */
  ghost predicate Registered(s: State) {
    && (forall k :: k in s.locks ==> s.locks[k] < |s.mutexes| && s.mutexes[s.locks[k]].key == k && s.mutexes[s.locks[k]].references > 0)
    && (forall m :: 0 <= m < |s.mutexes| && s.mutexes[m].references > 0 ==> s.mutexes[m].key in s.locks && s.locks[s.mutexes[m].key] == m)
  }

  ghost predicate Keyed(s: State) {
    forall h :: 0 <= h < |s.handles| && HasMutex(s.handles[h]) ==>
      s.handles[h].m < |s.mutexes| && s.mutexes[s.handles[h].m].key == s.handles[h].key
  }

  /** No other mutex takes the key's place before the old one is unlocked. */
  ghost predicate NotReplaced(s: State) {
    forall h :: 0 <= h < |s.handles| && s.handles[h].Left? ==>
      s.handles[h].key in s.locks ==> s.locks[s.handles[h].key] == s.handles[h].m
  }

  ghost predicate Inv(s: State) {
    RegistryHeld(s) && MutexesHeld(s) && Counted(s) && Registered(s) && Keyed(s) && NotReplaced(s)
  }

  lemma {:induction false} InvKnown(s: State)
    requires Inv(s)
    ensures Known(s)
  {
  }

  lemma {:induction false} StartInv()
    ensures Inv(START)
  {
  }

  // ---------- Counting ----------

  lemma {:induction false} UsersSame(a: seq<Place>, b: seq<Place>, h: nat, m: nat)
    requires h < |a| == |b| && (forall i :: 0 <= i < |a| && i != h ==> a[i] == b[i])
    requires Counts(a[h], m) <==> Counts(b[h], m)
    ensures Users(a, m) == Users(b, m)
  {
  }

  lemma {:induction false} UsersMore(a: seq<Place>, b: seq<Place>, h: nat, m: nat)
    requires h < |a| == |b| && (forall i :: 0 <= i < |a| && i != h ==> a[i] == b[i])
    requires !Counts(a[h], m) && Counts(b[h], m)
    ensures |Users(b, m)| == |Users(a, m)| + 1
  {
    assert Users(b, m) == Users(a, m) + {h};
  }

  lemma {:induction false} UserIsCounted(handles: seq<Place>, h: nat, m: nat)
    requires h < |handles| && Counts(handles[h], m)
    ensures |Users(handles, m)| > 0
  {
    assert h in Users(handles, m);
  }

  lemma {:induction false} NoUsers(handles: seq<Place>, m: nat)
    requires forall h :: 0 <= h < |handles| ==> !Counts(handles[h], m)
    ensures |Users(handles, m)| == 0
  {
    assert Users(handles, m) == {};
  }

  // ---------- The steps keep it ----------

  lemma {:induction false} CallKeeps(s: State, key: Key)
    requires Inv(s)
    ensures Inv(Call(s, key))
  {
    var t := Call(s, key);
    forall m | 0 <= m < |s.mutexes|
      ensures Users(t.handles, m) == Users(s.handles, m)
    {
    }
  }

  lemma {:induction false} ReleaseKeeps(s: State, h: nat)
    requires Inv(s) && h < |s.handles|
    ensures Inv(Release(s, h))
  {
    if s.handles[h].Holding? {
      CountsKeptAt(s, h, Releasing(s.handles[h].key, s.handles[h].m));
    }
  }

  /** A step that counts for the same mutex as before. */
  lemma {:induction false} CountsKeptAt(s: State, h: nat, p: Place)
    requires h < |s.handles| && Counted(s) && forall m :: Counts(s.handles[h], m) <==> Counts(p, m)
    ensures Counted(At(s, h, p))
  {
    forall m | 0 <= m < |s.mutexes|
      ensures Users(At(s, h, p).handles, m) == Users(s.handles, m)
    {
      UsersSame(s.handles, At(s, h, p).handles, h, m);
    }
  }

  lemma {:induction false} EnrollCounts(s: State, h: nat)
    requires Inv(s) && Known(s) && h < |s.handles| && s.handles[h].Entered?
    ensures Counted(Enroll(s, h))
  {
    var t := Enroll(s, h);
    var mine := t.handles[h].m;
    forall m | 0 <= m < |t.mutexes|
      ensures t.mutexes[m].references == |Users(t.handles, m)|
    {
      if m == |s.mutexes| {
        NoUsers(s.handles, m);
      }
      if m == mine {
        UsersMore(s.handles, t.handles, h, m);
      } else {
        UsersSame(s.handles, t.handles, h, m);
      }
    }
  }

  /** The registry has one owner, and when it is not in `Left` nobody is. */
  lemma {:induction false} NobodyLeft(s: State, h: nat)
    requires RegistryHeld(s) && h < |s.handles| && HasRegistry(s.handles[h])
    ensures forall i :: 0 <= i < |s.handles| && i != h ==> !s.handles[i].Left?
  {
    assert s.registry == Some(h);
  }

  lemma {:induction false} EnrollRegisters(s: State, h: nat)
    requires Registered(s) && Keyed(s) && Counted(s) && Known(s) && h < |s.handles| && s.handles[h].Entered?
    ensures Registered(Enroll(s, h)) && Keyed(Enroll(s, h))
  {
    hide Users, Counted;
    forall m | 0 <= m < |s.mutexes|
      ensures s.mutexes[m].references >= 0
    {
      CountNotNegative(s, m);
    }
  }

  lemma {:induction false} CountNotNegative(s: State, m: nat)
    requires Counted(s) && m < |s.mutexes|
    ensures s.mutexes[m].references >= 0
  {
  }

  lemma {:induction false} EnrollOwners(s: State, h: nat)
    requires MutexesHeld(s) && Keyed(s) && Known(s) && h < |s.handles| && s.handles[h].Entered?
    ensures MutexesHeld(Enroll(s, h))
  {
    var t := Enroll(s, h);
    forall m | 0 <= m < |t.mutexes|
      ensures t.mutexes[m].owner.Some? ==> t.mutexes[m].owner.value < |t.handles|
      ensures forall i :: 0 <= i < |t.handles| ==> (Owns(t.handles[i], m) <==> t.mutexes[m].owner == Some(i))
    {
    }
  }

  lemma {:induction false} EnrollKeeps(s: State, h: nat)
    requires Inv(s) && Known(s) && h < |s.handles| && s.handles[h].Entered?
    ensures Inv(Enroll(s, h))
  {
    EnrollCounts(s, h);
    EnrollRegisters(s, h);
    EnrollOwners(s, h);
    NobodyLeft(s, h);
    hide Counted, Registered, Keyed, MutexesHeld;
  }

  lemma {:induction false} LeaveCounts(s: State, h: nat)
    requires Inv(s) && Known(s) && h < |s.handles| && s.handles[h].Leaving?
    ensures Counted(Leave(s, h))
  {
    var t := Leave(s, h);
    forall m | 0 <= m < |t.mutexes|
      ensures t.mutexes[m].references == |Users(t.handles, m)|
    {
      if m == s.handles[h].m {
        UsersMore(t.handles, s.handles, h, m);
      } else {
        UsersSame(s.handles, t.handles, h, m);
      }
    }
  }

  lemma {:induction false} LeaveRegisters(s: State, h: nat)
    requires Registered(s) && Keyed(s) && Known(s) && h < |s.handles| && s.handles[h].Leaving?
    requires s.mutexes[s.handles[h].m].references > 0
    ensures Registered(Leave(s, h)) && Keyed(Leave(s, h))
  {
  }

  lemma {:induction false} LeaveOwners(s: State, h: nat)
    requires MutexesHeld(s) && Known(s) && h < |s.handles| && s.handles[h].Leaving?
    ensures MutexesHeld(Leave(s, h))
  {
    var t := Leave(s, h);
    forall m | 0 <= m < |t.mutexes|
      ensures t.mutexes[m].owner.Some? ==> t.mutexes[m].owner.value < |t.handles|
      ensures forall i :: 0 <= i < |t.handles| ==> (Owns(t.handles[i], m) <==> t.mutexes[m].owner == Some(i))
    {
      assert t.mutexes[m].owner == s.mutexes[m].owner;
    }
  }

  lemma {:induction false} LeaveKeeps(s: State, h: nat)
    requires Inv(s) && Known(s) && h < |s.handles| && s.handles[h].Leaving?
    ensures Inv(Leave(s, h))
  {
    LeaveCounts(s, h);
    UserIsCounted(s.handles, h, s.handles[h].m);
    LeaveRegisters(s, h);
    LeaveOwners(s, h);
    NobodyLeft(s, h);
    assert s.locks[s.handles[h].key] == s.handles[h].m;
    hide Counted, Registered, Keyed, MutexesHeld;
  }

  lemma {:induction false} AdvanceKeeps(s: State, h: nat)
    requires Inv(s) && Known(s) && h < |s.handles| && Advance(s, h).Some?
    ensures Inv(Advance(s, h).value)
  {
    var p := s.handles[h];
    match p {
      case Entered(_) => EnrollKeeps(s, h);
      case Leaving(_, _) => LeaveKeeps(s, h);
      case Calling(k) =>
        CountsKeptAt(s, h, Entered(k));
        PlainKeeps(s, h, Advance(s, h).value);
      case Enrolled(k, m) =>
        CountsKeptAt(s, h, Waiting(k, m));
        PlainKeeps(s, h, Advance(s, h).value);
      case Releasing(k, m) =>
        CountsKeptAt(s, h, Leaving(k, m));
        PlainKeeps(s, h, Advance(s, h).value);
      case Unlocked(_, _) =>
        CountsKeptAt(s, h, Done);
        PlainKeeps(s, h, Advance(s, h).value);
      case Waiting(k, m) =>
        CountsKeptAt(s, h, Holding(k, m));
        OwnerKeeps(s, h, Advance(s, h).value);
      case Left(k, m) =>
        CountsKeptAt(s, h, Unlocked(k, m));
        OwnerKeeps(s, h, Advance(s, h).value);
    }
  }

  /** Steps that only take or give back the registry's mutex. */
  lemma {:induction false} PlainKeeps(s: State, h: nat, t: State)
    requires Inv(s) && Known(s) && h < |s.handles| && Advance(s, h) == Some(t)
    requires s.handles[h].Calling? || s.handles[h].Enrolled? || s.handles[h].Releasing? || s.handles[h].Unlocked?
    requires Counted(At(s, h, t.handles[h]))
    ensures Inv(t)
  {
    hide Users;
    PlainRest(s, h, t);
    PlainOwners(s, h, t);
    hide MutexesHeld, Keyed, Counted, Registered;
  }

  lemma {:induction false} PlainRest(s: State, h: nat, t: State)
    requires Registered(s) && Known(s) && h < |s.handles| && Advance(s, h) == Some(t)
    requires s.handles[h].Calling? || s.handles[h].Enrolled? || s.handles[h].Releasing? || s.handles[h].Unlocked?
    requires Counted(At(s, h, t.handles[h]))
    ensures Counted(t) && Registered(t)
  {
    hide Users;
  }

  lemma {:induction false} PlainOwners(s: State, h: nat, t: State)
    requires MutexesHeld(s) && Keyed(s) && Known(s) && h < |s.handles| && Advance(s, h) == Some(t)
    requires s.handles[h].Calling? || s.handles[h].Enrolled? || s.handles[h].Releasing? || s.handles[h].Unlocked?
    ensures MutexesHeld(t) && Keyed(t)
  {
    forall m | 0 <= m < |t.mutexes|
      ensures t.mutexes[m].owner.Some? ==> t.mutexes[m].owner.value < |t.handles|
      ensures forall i :: 0 <= i < |t.handles| ==> (Owns(t.handles[i], m) <==> t.mutexes[m].owner == Some(i))
    {
      assert t.mutexes[m] == s.mutexes[m];
    }
  }

  /** Steps that take or give back the keyed mutex. */
  lemma {:induction false} OwnerKeeps(s: State, h: nat, t: State)
    requires Inv(s) && Known(s) && h < |s.handles| && Advance(s, h) == Some(t)
    requires s.handles[h].Waiting? || s.handles[h].Left?
    requires Counted(At(s, h, t.handles[h]))
    ensures Inv(t)
  {
    hide Users;
    assert Counted(t);
    hide Counted;
    OwnerRegisters(s, h, t);
    OwnerOwns(s, h, t);
    hide Registered, Keyed, MutexesHeld;
  }

  lemma {:induction false} OwnerRegisters(s: State, h: nat, t: State)
    requires Registered(s) && Keyed(s) && Known(s) && h < |s.handles| && Advance(s, h) == Some(t)
    requires s.handles[h].Waiting? || s.handles[h].Left?
    ensures Registered(t) && Keyed(t)
  {
  }

  lemma {:induction false} OwnerOwns(s: State, h: nat, t: State)
    requires MutexesHeld(s) && Known(s) && h < |s.handles| && Advance(s, h) == Some(t)
    requires s.handles[h].Waiting? || s.handles[h].Left?
    ensures MutexesHeld(t)
  {
    forall m | 0 <= m < |t.mutexes|
      ensures t.mutexes[m].owner.Some? ==> t.mutexes[m].owner.value < |t.handles|
      ensures forall i :: 0 <= i < |t.handles| ==> (Owns(t.handles[i], m) <==> t.mutexes[m].owner == Some(i))
    {
    }
  }

  // ---------- Runs ----------

  datatype Step = DoCall(key: Key) | DoAdvance(h: nat) | DoRelease(h: nat)

  /** A step changes the state, or is not possible in it. */
  ghost predicate Takes(s: State, step: Step, t: State) {
    match step
    case DoCall(key) => t == Call(s, key)
    case DoAdvance(h) => h < |s.handles| && Known(s) && Advance(s, h) == Some(t)
    case DoRelease(h) => h < |s.handles| && t == Release(s, h)
  }

  ghost predicate Run(run: seq<State>) {
    && |run| > 0 && run[0] == START
    && forall i :: 0 <= i < |run| - 1 ==> Next(run[i], run[i + 1])
  }

  ghost predicate Next(s: State, t: State) {
    exists step :: Takes(s, step, t)
  }

  lemma {:induction false} TakesKeeps(s: State, step: Step, t: State)
    requires Inv(s) && Takes(s, step, t)
    ensures Inv(t)
  {
    match step {
      case DoCall(key) => CallKeeps(s, key);
      case DoAdvance(h) => AdvanceKeeps(s, h);
      case DoRelease(h) => ReleaseKeeps(s, h);
    }
  }

  lemma {:induction false} RunKeeps(run: seq<State>, n: nat)
    requires Run(run) && n < |run|
    ensures Inv(run[n])
    decreases n
  {
    hide Inv, Takes;
    if n == 0 {
      StartInv();
    } else {
      RunKeeps(run, n - 1);
      assert run[n - 1 + 1] == run[n] && Next(run[n - 1], run[n]);
      var step :| Takes(run[n - 1], step, run[n]);
      TakesKeeps(run[n - 1], step, run[n]);
    }
  }

  /** Two handles between Lock and the unlock of one key are the same handle. */
  lemma {:induction false} MutualExclusion(s: State, a: nat, b: nat)
    requires Inv(s) && a < |s.handles| && b < |s.handles|
    requires HasMutex(s.handles[a]) && Owns(s.handles[a], s.handles[a].m)
    requires HasMutex(s.handles[b]) && Owns(s.handles[b], s.handles[b].m)
    requires s.handles[a].key == s.handles[b].key
    ensures a == b
  {
    var m, n := s.handles[a].m, s.handles[b].m;
    if s.handles[a].Left? && s.handles[b].Left? {
      assert s.registry == Some(a) && s.registry == Some(b);
    } else {
      if !s.handles[a].Left? {
        UserIsCounted(s.handles, a, m);
      }
      if !s.handles[b].Left? {
        UserIsCounted(s.handles, b, n);
      }
      assert m == n;
      assert s.mutexes[m].owner == Some(a) && s.mutexes[m].owner == Some(b);
    }
  }

  /** When every handle is done the map is empty and every mutex is free and without references. */
  lemma {:induction false} EmptyAtRest(s: State)
    requires Inv(s) && AtRest(s)
    ensures s.locks == map[] && s.registry == None
    ensures forall m :: 0 <= m < |s.mutexes| ==> s.mutexes[m].references == 0 && s.mutexes[m].owner == None
  {
    forall m | 0 <= m < |s.mutexes|
      ensures s.mutexes[m].references == 0 && s.mutexes[m].owner == None
    {
      NoUsers(s.handles, m);
      if s.mutexes[m].owner.Some? {
        assert Owns(s.handles[s.mutexes[m].owner.value], m);
      }
    }
    assert s.registry.Some? ==> HasRegistry(s.handles[s.registry.value]);
    NothingRegistered(s);
  }

  lemma {:induction false} NothingRegistered(s: State)
    requires Registered(s) && forall m :: 0 <= m < |s.mutexes| ==> s.mutexes[m].references == 0
    ensures s.locks == map[]
  {
    forall k
      ensures k !in s.locks
    {
    }
    assert s.locks.Keys == {};
  }

  /** While some handle is not done, some handle can move, or some caller holds a lock it may release. */
  lemma {:induction false} SomeoneMoves(s: State, h: nat)
    requires Inv(s) && Known(s) && h < |s.handles| && !s.handles[h].Done? && !s.handles[h].Blank?
    ensures exists i :: 0 <= i < |s.handles| && (Advance(s, i).Some? || s.handles[i].Holding?)
  {
    if s.registry.Some? {
      var i := s.registry.value;
      assert HasRegistry(s.handles[i]);
      assert Advance(s, i).Some?;
    } else if s.handles[h].Waiting? && s.mutexes[s.handles[h].m].owner.Some? {
      var i := s.mutexes[s.handles[h].m].owner.value;
      assert Owns(s.handles[i], s.handles[h].m);
      assert !HasRegistry(s.handles[i]);
      assert Advance(s, i).Some? || s.handles[i].Holding?;
    } else {
      assert !HasRegistry(s.handles[h]);
      assert Advance(s, h).Some? || s.handles[h].Holding?;
    }
  }

  /** How far a handle is. */
  function Rank(p: Place): nat {
    match p
    case Calling(_) => 0
    case Entered(_) => 1
    case Enrolled(_, _) => 2
    case Waiting(_, _) => 3
    case Holding(_, _) => 4
    case Releasing(_, _) => 5
    case Leaving(_, _) => 6
    case Left(_, _) => 7
    case Unlocked(_, _) => 8
    case Done => 9
    case Blank => 9
  }

  /** Handles only go forward. */
  lemma {:induction false} GoesForward(s: State, step: Step, t: State, h: nat)
    requires Takes(s, step, t) && h < |s.handles|
    ensures h < |t.handles| && Rank(s.handles[h]) <= Rank(t.handles[h])
  {
    match step {
      case DoCall(key) =>
      case DoAdvance(i) => AdvanceMoves(s, i, t);
      case DoRelease(i) =>
    }
  }

  lemma {:induction false} AdvanceMoves(s: State, h: nat, t: State)
    requires Known(s) && h < |s.handles| && Advance(s, h) == Some(t)
    ensures |t.handles| == |s.handles| && t.handles == s.handles[h := t.handles[h]] && Rank(s.handles[h]) < Rank(t.handles[h])
  {
    hide Known;
  }

  lemma {:induction false} RunsForward(run: seq<State>, i: nat, j: nat, h: nat)
    requires Run(run) && i <= j < |run| && h < |run[i].handles|
    ensures h < |run[j].handles| && Rank(run[i].handles[h]) <= Rank(run[j].handles[h])
    decreases j
  {
    hide Takes, Rank;
    if i < j {
      RunsForward(run, i, j - 1, h);
      assert run[j - 1 + 1] == run[j] && Next(run[j - 1], run[j]);
      var step :| Takes(run[j - 1], step, run[j]);
      GoesForward(run[j - 1], step, run[j], h);
    }
  }

  /** The release function of a handle that was called once does nothing when it is called again at any
      later moment of the run. */
  lemma {:induction false} ReleaseOnce(run: seq<State>, i: nat, j: nat, h: nat)
    requires Run(run) && i < j < |run| && h < |run[i].handles| && run[i].handles[h].Holding?
    requires run[i + 1] == Release(run[i], h)
    ensures h < |run[j].handles| && Release(run[j], h) == run[j]
  {
    hide Run;
    RunsForward(run, i + 1, j, h);
  }

  /** The handle is on its way with this key: at most holding, or it was holding before. */
  ghost predicate OnItsWay(run: seq<State>, i: nat, j: nat, h: nat, key: Key)
    requires i <= j < |run|
  {
    && h < |run[j].handles|
    && var p := run[j].handles[h];
      && !p.Blank? && (!p.Done? ==> p.key == key)
      && (Rank(p) >= 4 ==> exists k :: i <= k <= j && HoldsAt(run, k, h, key))
  }

  predicate HoldsAt(run: seq<State>, k: nat, h: nat, key: Key) {
    k < |run| && h < |run[k].handles| && run[k].handles[h].Holding? && run[k].handles[h].key == key
  }

  lemma {:induction false} WayGoesOn(s: State, step: Step, t: State, h: nat)
    requires Takes(s, step, t) && h < |s.handles| && !s.handles[h].Blank?
    ensures h < |t.handles| && !t.handles[h].Blank?
    ensures !t.handles[h].Done? ==> !s.handles[h].Done? && t.handles[h].key == s.handles[h].key
    ensures Rank(s.handles[h]) < 4 ==> Rank(t.handles[h]) < 4 || t.handles[h].Holding?
  {
    if step.DoAdvance? {
      AdvanceMoves(s, step.h, t);
      hide Known;
    }
  }

  lemma {:induction false} CallGoesOn(run: seq<State>, i: nat, j: nat, h: nat, key: Key)
    requires Run(run) && i < j < |run| && key != "" && key != "." && h == |run[i].handles| && run[i + 1] == Call(run[i], key)
    ensures OnItsWay(run, i, j, h, key)
    decreases j
  {
    hide Takes;
    if i + 1 < j {
      CallGoesOn(run, i, j - 1, h, key);
      assert run[j - 1 + 1] == run[j] && Next(run[j - 1], run[j]);
      var step :| Takes(run[j - 1], step, run[j]);
      WayGoesOn(run[j - 1], step, run[j], h);
      if Rank(run[j - 1].handles[h]) >= 4 {
        var k :| i <= k <= j - 1 && HoldsAt(run, k, h, key);
      } else if Rank(run[j].handles[h]) >= 4 {
        assert HoldsAt(run, j, h, key);
      }
    }
  }

  lemma {:induction false} BlankStays(run: seq<State>, i: nat, j: nat, h: nat)
    requires Run(run) && i <= j < |run| && h < |run[i].handles| && run[i].handles[h].Blank?
    ensures h < |run[j].handles| && run[j].handles[h].Blank?
    decreases j
  {
    hide Takes;
    if i < j {
      BlankStays(run, i, j - 1, h);
      assert run[j - 1 + 1] == run[j] && Next(run[j - 1], run[j]);
      var step :| Takes(run[j - 1], step, run[j]);
      BlankSame(run[j - 1], step, run[j], h);
    }
  }

  lemma {:induction false} BlankSame(s: State, step: Step, t: State, h: nat)
    requires Takes(s, step, t) && h < |s.handles| && s.handles[h].Blank?
    ensures h < |t.handles| && t.handles[h].Blank?
  {
    if step.DoAdvance? {
      AdvanceMoves(s, step.h, t);
      hide Known;
    }
  }

  /** A call on a key that is not blank comes to its end only after it held the lock of that key; a blank
      key locks nothing. */
  lemma {:induction false} EveryCallHolds(run: seq<State>, i: nat, j: nat, h: nat, key: Key)
    requires Run(run) && i < j < |run| && h == |run[i].handles| && run[i + 1] == Call(run[i], key)
    ensures h < |run[j].handles|
    ensures run[j].handles[h].Blank? <==> key == "" || key == "."
    ensures run[j].handles[h].Done? ==> exists k :: i < k < j && HoldsAt(run, k, h, key)
  {
    if key == "" || key == "." {
      BlankStays(run, i + 1, j, h);
    } else {
      CallGoesOn(run, i, j, h, key);
    }
  }

  // ---------- Everyone finishes ----------

  /** One handle moves by a step that changes something. */
  ghost predicate Moves(s: State, t: State) {
    t != s && exists step: Step :: !step.DoCall? && Takes(s, step, t)
  }

  ghost predicate CanMove(s: State) {
    exists t :: Moves(s, t)
  }

  predicate AtRest(s: State) {
    forall h :: 0 <= h < |s.handles| ==> s.handles[h].Done? || s.handles[h].Blank?
  }

  function Remaining(handles: seq<Place>): nat {
    if handles == [] then 0 else 9 - Rank(handles[0]) + Remaining(handles[1..])
  }

  lemma {:induction false} RemainingLess(a: seq<Place>, h: nat, p: Place)
    requires h < |a| && Rank(a[h]) < Rank(p)
    ensures Remaining(a[h := p]) < Remaining(a)
  {
    hide Rank;
    if h > 0 {
      assert a[h := p][1..] == a[1..][h - 1 := p];
      RemainingLess(a[1..], h - 1, p);
    } else {
      assert a[h := p][1..] == a[1..];
    }
  }

  lemma {:induction false} MovesOn(s: State, t: State)
    requires Inv(s) && Moves(s, t)
    ensures Inv(t) && |t.handles| == |s.handles| && Remaining(t.handles) < Remaining(s.handles)
  {
    hide Inv, Remaining, Advance;
    var step: Step :| !step.DoCall? && Takes(s, step, t);
    TakesKeeps(s, step, t);
    if step.DoAdvance? {
      AdvanceMoves(s, step.h, t);
      RemainingLess(s.handles, step.h, t.handles[step.h]);
    } else {
      RemainingLess(s.handles, step.h, t.handles[step.h]);
    }
  }

  ghost predicate Path(path: seq<State>) {
    |path| > 0 && forall i :: 0 <= i < |path| - 1 ==> Moves(path[i], path[i + 1])
  }

  lemma {:induction false} PathKeeps(path: seq<State>, n: nat)
    requires Path(path) && Inv(path[0]) && n < |path|
    ensures Inv(path[n]) && |path[n].handles| == |path[0].handles| && n + Remaining(path[n].handles) <= Remaining(path[0].handles)
    decreases n
  {
    hide Inv, Moves, Remaining;
    if n > 0 {
      PathKeeps(path, n - 1);
      assert path[n - 1 + 1] == path[n];
      MovesOn(path[n - 1], path[n]);
    }
  }

  lemma {:induction false} RestOrMoves(s: State)
    requires Inv(s) && !AtRest(s)
    ensures CanMove(s)
  {
    InvKnown(s);
    var h :| 0 <= h < |s.handles| && !s.handles[h].Done? && !s.handles[h].Blank?;
    SomeoneMoves(s, h);
    hide Inv;
    var i :| 0 <= i < |s.handles| && (Advance(s, i).Some? || s.handles[i].Holding?);
    hide Known;
    if s.handles[i].Holding? {
      assert Takes(s, DoRelease(i), Release(s, i)) && Release(s, i).handles[i] != s.handles[i];
      assert Moves(s, Release(s, i));
    } else {
      var t := Advance(s, i).value;
      AdvanceMoves(s, i, t);
      assert Takes(s, DoAdvance(i), t) && t.handles[i] != s.handles[i];
      assert Moves(s, t);
    }
  }

  /** In whatever order the handles of a reachable state move, they come to rest within a fixed number of
      steps, every one done, and the map is empty then. */
  lemma {:induction false} EveryoneFinishes(path: seq<State>)
    requires Path(path) && Inv(path[0])
    ensures |path| <= Remaining(path[0].handles) + 1
    ensures CanMove(path[|path| - 1]) || (AtRest(path[|path| - 1]) && path[|path| - 1].locks == map[])
  {
    var last := path[|path| - 1];
    PathKeeps(path, |path| - 1);
    if AtRest(last) {
      EmptyAtRest(last);
    } else {
      RestOrMoves(last);
    }
  }

  /** So from every reachable state every handle can come to its end. */
  lemma {:induction false} RestIsReached(s: State)
    requires Inv(s)
    ensures exists path :: Path(path) && path[0] == s && AtRest(path[|path| - 1])
    decreases Remaining(s.handles)
  {
    hide Inv, Moves, Remaining;
    if AtRest(s) {
      assert Path([s]);
    } else {
      RestOrMoves(s);
      var t :| Moves(s, t);
      MovesOn(s, t);
      RestIsReached(t);
      var path :| Path(path) && path[0] == t && AtRest(path[|path| - 1]);
      var whole := [s] + path;
      assert forall i :: 0 <= i < |whole| - 1 ==> whole[i + 1] == path[i] && (i > 0 ==> whole[i] == path[i - 1]);
      assert Path(whole);
    }
  }
}
