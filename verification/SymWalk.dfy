/** The symlink-following file walker (pkg/utils/symwalk.go).

    A file system is a finite map from real paths to nodes; a directory's children extend its own
    real path by a name, so the directories form a forest, while links lead anywhere, cycles
    included. A walk carries the path as it was spelled (`rel`, relative to the root, through
    links) and the real path it denotes.

    `Walk`, `WalkEntries` and `FollowLink` specify symwalk, walkDirectory and handleSymlink under
    the callback of WalkFilePaths; class `Walker` runs them over the shared `visited` map. */
module SymWalk {
  import opened Wrappers

  type Path = seq<string>

  /** Where EvalSymlinks leads: a node that is no link, a link loop, a place that may not be read, or
      an error such as a missing target. The text of a `Spelled` link, cleaned, is the link's own path,
      although by way of another link it leads elsewhere. */
  datatype Target = To(path: Path) | Spelled(path: Path) | Looping | Forbidden | Dangling

  datatype Node =
    | Directory(names: seq<string>)
    | File(size: nat)
    | Link(target: Target)

  /** Byte-wise order of file names. */
  predicate Less(a: string, b: string) {
    b != [] && (a == [] || a[0] < b[0] || (a[0] == b[0] && Less(a[1..], b[1..])))
  }

  datatype FileSystem = FileSystem(nodes: map<Path, Node>, depth: nat) {
    /** Children exist, the names of a directory come sorted, links that resolve end at no link. */
    ghost predicate Valid() {
      && (forall p :: p in nodes ==> |p| <= depth)
      && (forall p, i {:trigger nodes[p].names[i]} :: p in nodes && nodes[p].Directory? && 0 <= i < |nodes[p].names| ==>
            p + [nodes[p].names[i]] in nodes)
      && (forall p, i, j {:trigger nodes[p].names[i], nodes[p].names[j]} ::
            p in nodes && nodes[p].Directory? && 0 <= i < j < |nodes[p].names| ==> Less(nodes[p].names[i], nodes[p].names[j]))
      && (forall p :: p in nodes && nodes[p].Link? && (nodes[p].target.To? || nodes[p].target.Spelled?) ==>
            nodes[p].target.path in nodes && !nodes[nodes[p].target.path].Link?)
    }
  }

  /** What a callback returns to the walk, and what the walk returns to its caller. */
  datatype Outcome = Nil | SkipDir | Failed

  /** A place the walk came to: the path it was reached by and what it really is. */
  datatype Report = Report(rel: Path, at: Path)

  /** The mutable part of a walk: the visited link targets and the reports; and, as history, the
      targets in the order they were entered, each with the path of its link, and every file and directory the walk came to. */
  datatype State = State(visited: set<Path>, reports: seq<Report>, entered: seq<Report>, reached: set<Path>)

  /** The callback of WalkFilePaths on a file; `limit` 0 is no limit. The user's function succeeds. */
  function Offer(limit: nat, rel: Path, at: Path, st: State): (State, Outcome) {
    if limit > 0 && |st.reports| >= limit then (st, SkipDir)
    else (st.(reports := st.reports + [Report(rel, at)]), Nil)
  }

  predicate IsEntered(entered: seq<Report>, p: Path) {
    exists i :: 0 <= i < |entered| && entered[i].at == p
  }

  /** Every visited target was entered, and entered once. */
  ghost predicate OnceEach(st: State) {
    && (forall p :: p in st.visited <==> IsEntered(st.entered, p))
    && (forall i, j :: 0 <= i < j < |st.entered| ==> st.entered[i].at != st.entered[j].at)
  }

  /** What every part of a walk keeps: reports and entered targets are added, no target is entered twice,
      and a full limit stops the reports. */
  ghost predicate Onward(limit: nat, a: State, b: State, outcome: Outcome) {
    && a.reports <= b.reports && a.entered <= b.entered
    && (OnceEach(a) ==> OnceEach(b))
    && (limit > 0 && |a.reports| >= limit ==> b.reports == a.reports)
    && (limit == 0 ==> outcome != SkipDir)
  }

  lemma {:induction false} EnterOnce(st: State, rel: Path, t: Path)
    requires t !in st.visited
    ensures OnceEach(st) ==> OnceEach(st.(visited := st.visited + {t}, entered := st.entered + [Report(rel, t)]))
  {
    var more := st.entered + [Report(rel, t)];
    assert more[|st.entered|].at == t;
    if OnceEach(st) {
      forall p
        ensures p in st.visited + {t} <==> IsEntered(more, p)
      {
        if IsEntered(st.entered, p) {
          var i :| 0 <= i < |st.entered| && st.entered[i].at == p;
          assert more[i].at == p;
        }
      }
    }
  }

  function Reach(st: State, at: Path): State {
    st.(reached := st.reached + {at})
  }

  /** symwalk. */
  function Walk(fs: FileSystem, limit: nat, rel: Path, at: Path, st: State): (r: (State, Outcome))
    requires fs.Valid() && at in fs.nodes
    ensures st.visited <= r.0.visited && Onward(limit, st, r.0, r.1)
    decreases fs.nodes.Keys - st.visited, fs.depth + 1 - |at|, 1, 0
  {
    match fs.nodes[at]
    case Link(target) => FollowLink(fs, limit, rel, target, st)
    case File(size) => if size == 0 then (Reach(st, at), Nil) else Offer(limit, rel, at, Reach(st, at))
    case Directory(names) => WalkEntries(fs, limit, rel, at, 0, Reach(st, at))
  }

  /** handleSymlink: a target is entered the first time only, under the path of the link. */
  function FollowLink(fs: FileSystem, limit: nat, rel: Path, target: Target, st: State): (r: (State, Outcome))
    requires fs.Valid() && (target.To? ==> target.path in fs.nodes && !fs.nodes[target.path].Link?)
    ensures st.visited <= r.0.visited && Onward(limit, st, r.0, r.1)
    decreases fs.nodes.Keys - st.visited, 0, 0, 0
  {
    match target
    case Spelled(_) => (st, Nil)
    case Looping => (st, Nil)
    case Forbidden => (st, Nil)
    case Dangling => (st, Failed)
    case To(t) =>
      if t in st.visited then (st, Nil)
      else
        var entered := st.(visited := st.visited + {t}, entered := st.entered + [Report(rel, t)]);
        EnterOnce(st, rel, t);
        assert fs.nodes.Keys - entered.visited < fs.nodes.Keys - st.visited by {
          assert t in fs.nodes.Keys - st.visited;
        }
        var (after, outcome) := Walk(fs, limit, rel, t, entered);
        (after, if outcome == SkipDir then Nil else outcome)
  }

  /** The loop of walkDirectory from entry `i` on, with processEntry's treatment of the outcome. */
  function WalkEntries(fs: FileSystem, limit: nat, rel: Path, at: Path, i: nat, st: State): (r: (State, Outcome))
    requires fs.Valid() && at in fs.nodes && fs.nodes[at].Directory? && i <= |fs.nodes[at].names|
    ensures st.visited <= r.0.visited && Onward(limit, st, r.0, r.1)
    decreases fs.nodes.Keys - st.visited, fs.depth + 1 - |at|, 0, |fs.nodes[at].names| - i
  {
    var names := fs.nodes[at].names;
    if i == |names| then (st, Nil)
    else
      var child := at + [names[i]];
      var (after, outcome) := Walk(fs, limit, rel + [names[i]], child, st);
      if outcome == Failed || (outcome == SkipDir && fs.nodes[child].File?) then (after, outcome)
      else WalkEntries(fs, limit, rel, at, i + 1, after)
  }

  /** Whatever the limit, a dangling link in a directory is met and makes the walk fail, unless a file of the
      same directory comes before it: a full limit ends the directory of the file it refuses, and no other. */
  lemma {:induction false} DanglingIsMet(fs: FileSystem, limit: nat, rel: Path, at: Path, i: nat, k: nat, st: State)
    requires fs.Valid() && at in fs.nodes && fs.nodes[at].Directory? && i <= k < |fs.nodes[at].names|
    requires fs.nodes[at + [fs.nodes[at].names[k]]] == Link(Dangling)
    requires forall j :: i <= j < k ==> !fs.nodes[at + [fs.nodes[at].names[j]]].File?
    ensures WalkEntries(fs, limit, rel, at, i, st).1 == Failed
    decreases k - i
  {
    hide Onward;
    var names := fs.nodes[at].names;
    var (after, outcome) := Walk(fs, limit, rel + [names[i]], at + [names[i]], st);
    if i < k {
      DanglingIsMet(fs, limit, rel, at, i + 1, k, after);
    } else {
      assert outcome == FollowLink(fs, limit, rel + [names[i]], Dangling, st).1 == Failed;
    }
  }

  /** A file that a full limit refuses, with only empty files before it, ends its directory: nothing after it
      is looked at. */
  lemma {:induction false} RefusedFileEnds(fs: FileSystem, limit: nat, rel: Path, at: Path, i: nat, k: nat, st: State)
    requires fs.Valid() && at in fs.nodes && fs.nodes[at].Directory? && i <= k < |fs.nodes[at].names|
    requires 0 < limit <= |st.reports|
    requires forall j :: i <= j < k ==> fs.nodes[at + [fs.nodes[at].names[j]]] == File(0)
    requires var last := fs.nodes[at + [fs.nodes[at].names[k]]]; last.File? && last.size > 0
    ensures var (after, outcome) := WalkEntries(fs, limit, rel, at, i, st);
      outcome == SkipDir && after == st.(reached := after.reached)
    decreases k - i
  {
    hide Onward;
    var names := fs.nodes[at].names;
    var child := at + [names[i]];
    var (after, outcome) := Walk(fs, limit, rel + [names[i]], child, st);
    if i < k {
      assert after == Reach(st, child) && outcome == Nil;
      RefusedFileEnds(fs, limit, rel, at, i + 1, k, after);
    } else {
      assert (after, outcome) == (Reach(st, child), SkipDir);
    }
  }

  /** SymWalk from the root. */
  function WalkFilePaths(fs: FileSystem, limit: nat, root: Path): (State, Outcome)
    requires fs.Valid() && root in fs.nodes
  {
    var (st, outcome) := Walk(fs, limit, [], root, State({}, [], [], {}));
    (st, if outcome == SkipDir then Nil else outcome)
  }

  // ---------- Which files can be reached ----------

  /** The node a path ends at once a link at its end is followed, unless the link spells itself. */
  function Follow(fs: FileSystem, p: Path): Option<Path>
    requires p in fs.nodes
  {
    match fs.nodes[p]
    case Link(To(t)) => Some(t)
    case Link(_) => None
    case _ => Some(p)
  }

  /** What is at the path `rel` below `root` when every link on the way is followed, unless it spells
      itself. */
  function Resolve(fs: FileSystem, root: Path, rel: Path): (r: Option<Path>)
    requires fs.Valid() && root in fs.nodes
    ensures r.Some? ==> r.value in fs.nodes && !fs.nodes[r.value].Link?
    decreases |rel|
  {
    if rel == [] then Follow(fs, root)
    else
      match Resolve(fs, root, rel[..|rel| - 1])
      case None => None
      case Some(d) =>
        var name := rel[|rel| - 1];
        if fs.nodes[d].Directory? && name in fs.nodes[d].names then
          assert exists i :: 0 <= i < |fs.nodes[d].names| && fs.nodes[d].names[i] == name;
          Follow(fs, d + [name])
        else None
  }

  ghost predicate Reachable(fs: FileSystem, root: Path, p: Path)
    requires fs.Valid() && root in fs.nodes
  {
    exists rel :: Resolve(fs, root, rel) == Some(p)
  }

  predicate NonEmptyFile(fs: FileSystem, p: Path) {
    p in fs.nodes && fs.nodes[p].File? && fs.nodes[p].size > 0
  }

  ghost predicate Reported(st: State, p: Path) {
    exists k :: 0 <= k < |st.reports| && st.reports[k].at == p
  }

  /** Everything a directory leads to was come to. */
  predicate Complete(fs: FileSystem, d: Path, reached: set<Path>)
    requires fs.Valid()
  {
    d in fs.nodes && fs.nodes[d].Directory? ==> forall i :: 0 <= i < |fs.nodes[d].names| ==> ChildReached(fs, d, i, reached)
  }

  predicate ChildReached(fs: FileSystem, d: Path, i: nat, reached: set<Path>)
    requires fs.Valid() && d in fs.nodes && fs.nodes[d].Directory? && i < |fs.nodes[d].names|
  {
    var child := d + [fs.nodes[d].names[i]];
    fs.nodes[child] != Link(Dangling) && (Follow(fs, child).Some? ==> Follow(fs, child).value in reached)
  }

  /** From `a` to `b` the walk came to new places only if it left them complete. */
  ghost predicate Grows(fs: FileSystem, a: State, b: State)
    requires fs.Valid()
  {
    && a.reached <= b.reached && a.reports <= b.reports
    && forall d :: d in b.reached && d !in a.reached ==> Complete(fs, d, b.reached)
  }

  lemma {:induction false} GrowsTrans(fs: FileSystem, a: State, b: State, c: State)
    requires fs.Valid() && Grows(fs, a, b) && Grows(fs, b, c)
    ensures Grows(fs, a, c)
  {
    forall d | d in c.reached && d !in a.reached
      ensures Complete(fs, d, c.reached)
    {
      if d in b.reached {
        assert Complete(fs, d, b.reached);
        CompleteMonotone(fs, d, b.reached, c.reached);
      }
    }
  }

  lemma {:induction false} CompleteMonotone(fs: FileSystem, d: Path, a: set<Path>, b: set<Path>)
    requires fs.Valid() && a <= b && Complete(fs, d, a)
    ensures Complete(fs, d, b)
  {
    if d in fs.nodes && fs.nodes[d].Directory? {
      forall i | 0 <= i < |fs.nodes[d].names|
        ensures ChildReached(fs, d, i, b)
      {
        assert ChildReached(fs, d, i, a);
      }
    }
  }

  /** What is known at every point: visited targets were come to, whatever was come to resolves from
      the root, and the reports are the non-empty files among it. */
  ghost predicate Sound(fs: FileSystem, root: Path, st: State)
    requires fs.Valid() && root in fs.nodes
  {
    && st.visited <= st.reached
    && (forall p :: p in st.reached ==> Reachable(fs, root, p))
    && (forall k :: 0 <= k < |st.reports| ==>
          Resolve(fs, root, st.reports[k].rel) == Some(st.reports[k].at) && NonEmptyFile(fs, st.reports[k].at))
    && (forall p :: p in st.reached && NonEmptyFile(fs, p) ==> Reported(st, p))
  }

  lemma {:induction false} SoundUnvisited(fs: FileSystem, root: Path, st: State, at: Path)
    requires fs.Valid() && root in fs.nodes && Sound(fs, root, st)
    ensures Sound(fs, root, st.(visited := st.visited - {at}))
  {
    hide Resolve, Reachable, NonEmptyFile;
    assert forall p :: Reported(st, p) <==> Reported(st.(visited := st.visited - {at}), p);
  }

  lemma {:induction false} ReachSound(fs: FileSystem, root: Path, rel: Path, at: Path, st: State)
    requires fs.Valid() && root in fs.nodes && at in fs.nodes && !fs.nodes[at].Link?
    requires Resolve(fs, root, rel) == Some(at)
    requires Sound(fs, root, st.(visited := st.visited - {at}))
    ensures !NonEmptyFile(fs, at) ==> Sound(fs, root, Reach(st, at))
    ensures NonEmptyFile(fs, at) ==> Sound(fs, root, Offer(0, rel, at, Reach(st, at)).0)
  {
    var r := if NonEmptyFile(fs, at) then Offer(0, rel, at, Reach(st, at)).0 else Reach(st, at);
    forall p | p in r.reached
      ensures Reachable(fs, root, p)
      ensures NonEmptyFile(fs, p) ==> Reported(r, p)
    {
      if p != at {
        if NonEmptyFile(fs, p) {
          assert Reported(st.(visited := st.visited - {at}), p);
          var k :| 0 <= k < |st.reports| && st.reports[k].at == p;
          assert r.reports[k].at == p;
        }
      } else if NonEmptyFile(fs, at) {
        assert r.reports[|st.reports|].at == at;
      }
    }
  }

  lemma {:induction false} ReachGrows(fs: FileSystem, at: Path, st: State, r: State)
    requires fs.Valid() && at in fs.nodes && Grows(fs, Reach(st, at), r) && Complete(fs, at, r.reached)
    ensures Grows(fs, st, r)
  {
  }

  lemma {:induction false} WalkSound(fs: FileSystem, root: Path, rel: Path, at: Path, st: State)
    requires fs.Valid() && root in fs.nodes && at in fs.nodes
    requires Resolve(fs, root, rel) == Follow(fs, at)
    requires Sound(fs, root, if fs.nodes[at].Link? then st else st.(visited := st.visited - {at}))
    ensures var (r, outcome) := Walk(fs, 0, rel, at, st);
      && outcome != SkipDir
      && (outcome == Nil ==>
            && Sound(fs, root, r) && Grows(fs, st, r) && fs.nodes[at] != Link(Dangling)
            && (Follow(fs, at).Some? ==> Follow(fs, at).value in r.reached))
    decreases fs.nodes.Keys - st.visited, fs.depth + 1 - |at|, 1, 0
  {
    match fs.nodes[at]
    case Link(target) =>
      FollowSound(fs, root, rel, target, st);
    case File(size) =>
      FileSound(fs, root, rel, at, st);
    case Directory(names) =>
      ReachSound(fs, root, rel, at, st);
      EntriesSound(fs, root, rel, at, 0, Reach(st, at));
      DirectorySound(fs, rel, at, st);
  }

  lemma {:induction false} FileSound(fs: FileSystem, root: Path, rel: Path, at: Path, st: State)
    requires fs.Valid() && root in fs.nodes && at in fs.nodes && fs.nodes[at].File?
    requires Resolve(fs, root, rel) == Some(at)
    requires Sound(fs, root, st.(visited := st.visited - {at}))
    ensures var (r, outcome) := Walk(fs, 0, rel, at, st);
      outcome == Nil && Sound(fs, root, r) && Grows(fs, st, r) && at in r.reached
  {
    ReachSound(fs, root, rel, at, st);
    ReachGrows(fs, at, st, Walk(fs, 0, rel, at, st).0);
  }

  lemma {:induction false} DirectorySound(fs: FileSystem, rel: Path, at: Path, st: State)
    requires fs.Valid() && at in fs.nodes && fs.nodes[at].Directory?
    requires var (r, outcome) := WalkEntries(fs, 0, rel, at, 0, Reach(st, at));
      outcome == Nil ==> Grows(fs, Reach(st, at), r) && forall j :: 0 <= j < |fs.nodes[at].names| ==> ChildReached(fs, at, j, r.reached)
    ensures var (r, outcome) := WalkEntries(fs, 0, rel, at, 0, Reach(st, at));
      outcome == Nil ==> Grows(fs, st, r) && at in r.reached
  {
    var (r, outcome) := WalkEntries(fs, 0, rel, at, 0, Reach(st, at));
    if outcome == Nil {
      ReachGrows(fs, at, st, r);
    }
  }

  lemma {:induction false} FollowSound(fs: FileSystem, root: Path, rel: Path, target: Target, st: State)
    requires fs.Valid() && root in fs.nodes && (target.To? ==> target.path in fs.nodes && !fs.nodes[target.path].Link?)
    requires Resolve(fs, root, rel) == if target.To? then Some(target.path) else None
    requires Sound(fs, root, st)
    ensures var (r, outcome) := FollowLink(fs, 0, rel, target, st);
      && outcome != SkipDir
      && (outcome == Nil ==>
            && Sound(fs, root, r) && Grows(fs, st, r) && target != Dangling
            && (target.To? ==> target.path in r.reached))
    decreases fs.nodes.Keys - st.visited, 0, 0, 0
  {
    if target.To? && target.path !in st.visited {
      var t := target.path;
      var entered := st.(visited := st.visited + {t}, entered := st.entered + [Report(rel, t)]);
      assert fs.nodes.Keys - entered.visited < fs.nodes.Keys - st.visited by {
        assert t in fs.nodes.Keys - st.visited;
      }
      assert entered.visited - {t} == st.visited;
      WalkSound(fs, root, rel, t, entered);
    }
  }

  lemma {:induction false} EntriesSound(fs: FileSystem, root: Path, rel: Path, at: Path, i: nat, st: State)
    requires fs.Valid() && root in fs.nodes && at in fs.nodes && fs.nodes[at].Directory? && i <= |fs.nodes[at].names|
    requires Resolve(fs, root, rel) == Some(at)
    requires Sound(fs, root, st)
    ensures var (r, outcome) := WalkEntries(fs, 0, rel, at, i, st);
      && outcome != SkipDir
      && (outcome == Nil ==>
            && Sound(fs, root, r) && Grows(fs, st, r)
            && forall j :: i <= j < |fs.nodes[at].names| ==> ChildReached(fs, at, j, r.reached))
    decreases fs.nodes.Keys - st.visited, fs.depth + 1 - |at|, 0, |fs.nodes[at].names| - i
  {
    var names := fs.nodes[at].names;
    if i < |names| {
      var child := at + [names[i]];
      assert (rel + [names[i]])[..|rel|] == rel;
      assert Resolve(fs, root, rel + [names[i]]) == Follow(fs, child);
      SoundUnvisited(fs, root, st, child);
      hide Sound, Grows, Resolve, Onward;
      WalkSound(fs, root, rel + [names[i]], child, st);
      var (after, outcome) := Walk(fs, 0, rel + [names[i]], child, st);
      if outcome == Nil {
        EntriesSound(fs, root, rel, at, i + 1, after);
        var (r, last) := WalkEntries(fs, 0, rel, at, i + 1, after);
        if last == Nil {
          EntriesJoin(fs, at, i, st, after, r);
        }
      }
    }
  }

  lemma {:induction false} EntriesJoin(fs: FileSystem, at: Path, i: nat, st: State, after: State, r: State)
    requires fs.Valid() && at in fs.nodes && fs.nodes[at].Directory? && i < |fs.nodes[at].names|
    requires Grows(fs, st, after) && Grows(fs, after, r) && ChildReached(fs, at, i, after.reached)
    requires forall j :: i < j < |fs.nodes[at].names| ==> ChildReached(fs, at, j, r.reached)
    ensures Grows(fs, st, r)
    ensures forall j :: i <= j < |fs.nodes[at].names| ==> ChildReached(fs, at, j, r.reached)
  {
    GrowsTrans(fs, st, after, r);
  }

  /** A link that leads nowhere lies on the way. */
  ghost predicate DanglingAhead(fs: FileSystem, root: Path)
    requires fs.Valid() && root in fs.nodes
  {
    || fs.nodes[root] == Link(Dangling)
    || exists d, i :: DanglingIn(fs, root, d, i)
  }

  ghost predicate DanglingIn(fs: FileSystem, root: Path, d: Path, i: nat)
    requires fs.Valid() && root in fs.nodes
  {
    && Reachable(fs, root, d) && d in fs.nodes && fs.nodes[d].Directory? && i < |fs.nodes[d].names|
    && fs.nodes[d + [fs.nodes[d].names[i]]] == Link(Dangling)
  }

  lemma {:induction false} WalkFails(fs: FileSystem, root: Path, rel: Path, at: Path, st: State)
    requires fs.Valid() && root in fs.nodes && at in fs.nodes
    requires Resolve(fs, root, rel) == Follow(fs, at)
    ensures Walk(fs, 0, rel, at, st).1 == Failed ==> fs.nodes[at] == Link(Dangling) || DanglingAhead(fs, root)
    decreases fs.nodes.Keys - st.visited, fs.depth + 1 - |at|, 1, 0
  {
    match fs.nodes[at]
    case Link(target) =>
      if target.To? && target.path !in st.visited {
        var t := target.path;
        var entered := st.(visited := st.visited + {t}, entered := st.entered + [Report(rel, t)]);
        assert fs.nodes.Keys - entered.visited < fs.nodes.Keys - st.visited by {
          assert t in fs.nodes.Keys - st.visited;
        }
        WalkFails(fs, root, rel, t, entered);
        assert FollowLink(fs, 0, rel, target, st).1 == Failed ==> Walk(fs, 0, rel, t, entered).1 == Failed;
      } else {
        assert FollowLink(fs, 0, rel, target, st).1 == Failed ==> target == Dangling;
      }
    case Directory(names) => EntriesFail(fs, root, rel, at, 0, Reach(st, at));
    case File(size) =>
  }

  lemma {:induction false} EntriesFail(fs: FileSystem, root: Path, rel: Path, at: Path, i: nat, st: State)
    requires fs.Valid() && root in fs.nodes && at in fs.nodes && fs.nodes[at].Directory? && i <= |fs.nodes[at].names|
    requires Resolve(fs, root, rel) == Some(at)
    ensures WalkEntries(fs, 0, rel, at, i, st).1 == Failed ==> DanglingAhead(fs, root)
    decreases fs.nodes.Keys - st.visited, fs.depth + 1 - |at|, 0, |fs.nodes[at].names| - i
  {
    var names := fs.nodes[at].names;
    if i < |names| {
      var child := at + [names[i]];
      assert (rel + [names[i]])[..|rel|] == rel;
      WalkFails(fs, root, rel + [names[i]], child, st);
      var (after, outcome) := Walk(fs, 0, rel + [names[i]], child, st);
      assert fs.nodes[child] == Link(Dangling) ==> DanglingIn(fs, root, at, i);
      EntriesFail(fs, root, rel, at, i + 1, after);
    }
  }

  /** Whatever resolves from the root was come to, once everything come to is complete. */
  lemma {:induction false} ClosedCoversAll(fs: FileSystem, root: Path, rel: Path, st: State)
    requires fs.Valid() && root in fs.nodes
    requires Follow(fs, root).Some? ==> Follow(fs, root).value in st.reached
    requires forall d :: d in st.reached ==> Complete(fs, d, st.reached)
    ensures Resolve(fs, root, rel).Some? ==> Resolve(fs, root, rel).value in st.reached
    decreases |rel|
  {
    if rel != [] && Resolve(fs, root, rel).Some? {
      ClosedCoversAll(fs, root, rel[..|rel| - 1], st);
      var d := Resolve(fs, root, rel[..|rel| - 1]).value;
      var i :| 0 <= i < |fs.nodes[d].names| && fs.nodes[d].names[i] == rel[|rel| - 1];
      assert ChildReached(fs, d, i, st.reached);
    }
  }

  /** The walk without a limit, for any links whatever: it fails exactly when a dangling link lies
      ahead; otherwise it reports exactly the non-empty files that some path below the root denotes,
      each under a path that denotes it; and it enters no link target twice. */
  lemma {:induction false} WalkIsExact(fs: FileSystem, root: Path)
    requires fs.Valid() && root in fs.nodes
    ensures var (st, outcome) := WalkFilePaths(fs, 0, root);
      && OnceEach(st)
      && (outcome == if DanglingAhead(fs, root) then Failed else Nil)
      && (outcome == Nil ==>
            && (forall p :: Reported(st, p) <==> NonEmptyFile(fs, p) && Reachable(fs, root, p))
            && (forall k :: 0 <= k < |st.reports| ==> Resolve(fs, root, st.reports[k].rel) == Some(st.reports[k].at)))
  {
    var start := State({}, [], [], {});
    var (st, outcome) := Walk(fs, 0, [], root, start);
    WalkSound(fs, root, [], root, start);
    WalkFails(fs, root, [], root, start);
    if outcome == Nil {
      assert forall d :: d in st.reached ==> Complete(fs, d, st.reached);
      forall p | Reachable(fs, root, p)
        ensures p in st.reached
      {
        var rel :| Resolve(fs, root, rel) == Some(p);
        ClosedCoversAll(fs, root, rel, st);
      }
      forall d, i: nat | d in fs.nodes && Reachable(fs, root, d) && fs.nodes[d].Directory? && i < |fs.nodes[d].names|
        ensures !DanglingIn(fs, root, d, i)
      {
        assert Complete(fs, d, st.reached) && ChildReached(fs, d, i, st.reached);
      }
      assert forall p :: Reported(st, p) ==> NonEmptyFile(fs, p) && Reachable(fs, root, p);
    }
  }

  // ---------- Under which paths ----------

  /** Going down the names `q` from `d` meets directories only, up to the last name. */
  predicate Descends(fs: FileSystem, d: Path, q: Path)
    decreases |q|
  {
    d in fs.nodes &&
    (q == [] || (fs.nodes[d].Directory? && q[0] in fs.nodes[d].names && Descends(fs, d + [q[0]], q[1..])))
  }

  /** `x` lies below `o`, or is `o`, without a link on the way. */
  predicate Below(fs: FileSystem, o: Report, x: Report) {
    o.rel <= x.rel && x.at == o.at + x.rel[|o.rel|..] && Descends(fs, o.at, x.rel[|o.rel|..])
  }

  predicate BelowSome(fs: FileSystem, os: seq<Report>, x: Report) {
    exists k :: 0 <= k < |os| && Below(fs, os[k], x)
  }

  predicate LinkTo(fs: FileSystem, x: Report, t: Path) {
    x.at in fs.nodes && fs.nodes[x.at] == Link(To(t))
  }

  /** Each link target in `more` was entered by a link below `o`, or below one entered before, and under the
      path of that link. */
  ghost predicate Sourced(fs: FileSystem, os: seq<Report>, more: seq<Report>) {
    forall k :: 0 <= k < |more| ==> LinkBelow(fs, os + more[..k], more[k])
  }

  ghost predicate LinkBelow(fs: FileSystem, os: seq<Report>, e: Report) {
    exists x :: BelowSome(fs, os, x) && x.rel == e.rel && LinkTo(fs, x, e.at)
  }

  lemma {:induction false} LinkBelowMore(fs: FileSystem, os: seq<Report>, ps: seq<Report>, e: Report)
    requires LinkBelow(fs, os, e) && forall x :: BelowSome(fs, os, x) ==> BelowSome(fs, ps, x)
    ensures LinkBelow(fs, ps, e)
  {
    hide BelowSome, LinkTo;
  }

  /** From `a` to `b` the walk reported exactly the non-empty files below `os` and below the link targets
      that it entered, and entered, or had entered, the targets of all the links there. */
  ghost predicate Covers(fs: FileSystem, os: seq<Report>, a: State, b: State) {
    && a.reports <= b.reports && a.entered <= b.entered && a.visited <= b.visited
    && var more := b.entered[|a.entered|..];
      && Sourced(fs, os, more)
      && (forall x :: x in b.reports[|a.reports|..] <==> NonEmptyFile(fs, x.at) && BelowSome(fs, os + more, x))
      && (forall x, t :: BelowSome(fs, os + more, x) && LinkTo(fs, x, t) ==> t in b.visited)
  }

  lemma {:induction false} SomeBelow(fs: FileSystem, a: seq<Report>, b: seq<Report>, x: Report)
    ensures BelowSome(fs, a + b, x) <==> BelowSome(fs, a, x) || BelowSome(fs, b, x)
  {
    hide Below;
    if BelowSome(fs, a, x) {
      var k :| 0 <= k < |a| && Below(fs, a[k], x);
      assert (a + b)[k] == a[k];
    }
    if BelowSome(fs, b, x) {
      var k :| 0 <= k < |b| && Below(fs, b[k], x);
      assert (a + b)[|a| + k] == b[k];
    }
  }

  lemma {:induction false} FourBelow(fs: FileSystem, a: seq<Report>, b: seq<Report>, c: seq<Report>, d: seq<Report>, x: Report)
    ensures BelowSome(fs, (a + b) + (c + d), x) <==> BelowSome(fs, a + c, x) || BelowSome(fs, b + d, x)
  {
    hide BelowSome;
    SomeBelow(fs, a + b, c + d, x);
    SomeBelow(fs, a, b, x);
    SomeBelow(fs, c, d, x);
    SomeBelow(fs, a, c, x);
    SomeBelow(fs, b, d, x);
  }

  lemma {:induction false} SourcedJoin(fs: FileSystem, os: seq<Report>, ps: seq<Report>, c: seq<Report>, d: seq<Report>)
    requires Sourced(fs, os, c) && Sourced(fs, ps, d)
    ensures Sourced(fs, os + ps, c + d)
  {
    hide BelowSome, LinkBelow;
    forall k | 0 <= k < |c + d|
      ensures LinkBelow(fs, os + ps + (c + d)[..k], (c + d)[k])
    {
      if k < |c| {
        assert (c + d)[..k] == c[..k] + [];
        forall x | BelowSome(fs, os + c[..k], x)
          ensures BelowSome(fs, os + ps + (c[..k] + []), x)
        {
          FourBelow(fs, os, ps, c[..k], [], x);
        }
        LinkBelowMore(fs, os + c[..k], os + ps + (c[..k] + []), c[k]);
      } else {
        var j := k - |c|;
        assert (c + d)[..k] == c + d[..j];
        forall x | BelowSome(fs, ps + d[..j], x)
          ensures BelowSome(fs, os + ps + (c + d[..j]), x)
        {
          FourBelow(fs, os, ps, c, d[..j], x);
        }
        LinkBelowMore(fs, ps + d[..j], os + ps + (c + d[..j]), d[j]);
      }
    }
  }

  lemma {:induction false} CoversJoin(fs: FileSystem, os: seq<Report>, ps: seq<Report>, a: State, b: State, c: State)
    requires Covers(fs, os, a, b) && Covers(fs, ps, b, c)
    ensures Covers(fs, os + ps, a, c)
  {
    var m, n := b.entered[|a.entered|..], c.entered[|b.entered|..];
    assert c.entered[|a.entered|..] == m + n;
    assert c.reports[|a.reports|..] == b.reports[|a.reports|..] + c.reports[|b.reports|..];
    hide BelowSome, Sourced;
    SourcedJoin(fs, os, ps, m, n);
    forall x
      ensures BelowSome(fs, os + ps + (m + n), x) <==> BelowSome(fs, os + m, x) || BelowSome(fs, ps + n, x)
    {
      FourBelow(fs, os, ps, m, n, x);
    }
  }

  /** The entries of a directory from `i` on. */
  function Entries(fs: FileSystem, rel: Path, at: Path, i: nat): (r: seq<Report>)
    requires at in fs.nodes && fs.nodes[at].Directory? && i <= |fs.nodes[at].names|
    ensures |r| == |fs.nodes[at].names| - i
  {
    var names := fs.nodes[at].names;
    seq(|names| - i, j requires 0 <= j < |names| - i => Report(rel + [names[i + j]], at + [names[i + j]]))
  }

  /** What lies below a directory is the directory and what lies below its entries. */
  lemma {:induction false} BelowDirectory(fs: FileSystem, rel: Path, at: Path, x: Report)
    requires fs.Valid() && at in fs.nodes && fs.nodes[at].Directory?
    ensures Below(fs, Report(rel, at), x) <==> x == Report(rel, at) || BelowSome(fs, Entries(fs, rel, at, 0), x)
  {
    var names, es := fs.nodes[at].names, Entries(fs, rel, at, 0);
    if Below(fs, Report(rel, at), x) && x.rel != rel {
      var q := x.rel[|rel|..];
      var j :| 0 <= j < |names| && names[j] == q[0];
      EntryBelow(rel, at, q[0], x);
      assert Below(fs, es[j], x);
    }
    if BelowSome(fs, es, x) {
      var j :| 0 <= j < |es| && Below(fs, es[j], x);
      EntryBelow(rel, at, names[j], x);
    }
    assert x == Report(rel, at) ==> x.rel[|rel|..] == [] && at + [] == at;
    assert x.rel == rel ==> x.rel[|rel|..] == [] && at + [] == at;
  }

  lemma {:induction false} EntryBelow(rel: Path, at: Path, name: string, x: Report)
    requires (rel <= x.rel && |x.rel| > |rel| && x.rel[|rel|] == name) || rel + [name] <= x.rel
    ensures rel <= x.rel && rel + [name] <= x.rel && |x.rel[|rel|..]| > 0 && x.rel[|rel|..][0] == name
    ensures x.rel[|rel|..][1..] == x.rel[|rel + [name]|..]
    ensures at + x.rel[|rel|..] == at + [name] + x.rel[|rel + [name]|..]
  {
    if rel + [name] <= x.rel {
      assert x.rel[..|rel|] == (rel + [name])[..|rel|] == rel;
      assert x.rel[|rel|] == (rel + [name])[|rel|];
    }
    assert x.rel[..|rel| + 1] == rel + [name];
    assert x.rel[|rel|..] == [name] + x.rel[|rel| + 1..];
  }

  lemma {:induction false} Itself(fs: FileSystem, o: Report, x: Report)
    requires o.at in fs.nodes && !fs.nodes[o.at].Directory?
    ensures Below(fs, o, x) <==> x == o
  {
    if o.rel <= x.rel {
      var q := x.rel[|o.rel|..];
      assert x.rel == o.rel + q;
      assert q == [] ==> o.at + q == o.at && o.rel + q == o.rel;
    }
  }

  lemma {:induction false} OneBelow(fs: FileSystem, o: Report, more: seq<Report>, x: Report)
    ensures BelowSome(fs, [o] + more, x) <==> Below(fs, o, x) || BelowSome(fs, more, x)
  {
    hide Below;
    SomeBelow(fs, [o], more, x);
    assert [o][0] == o;
  }

  lemma {:induction false} WalkCovers(fs: FileSystem, rel: Path, at: Path, st: State)
    requires fs.Valid() && at in fs.nodes
    ensures var (r, outcome) := Walk(fs, 0, rel, at, st); outcome == Nil ==> Covers(fs, [Report(rel, at)], st, r)
    decreases fs.nodes.Keys - st.visited, fs.depth + 1 - |at|, 1, 0
  {
    hide Covers;
    match fs.nodes[at]
    case Link(target) => LinkCovers(fs, rel, at, target, st);
    case File(size) => FileCovers(fs, rel, at, st);
    case Directory(names) =>
      EntriesCover(fs, rel, at, 0, Reach(st, at));
      var (r, outcome) := WalkEntries(fs, 0, rel, at, 0, Reach(st, at));
      if outcome == Nil {
        DirectoryCovers(fs, rel, at, st, r);
      }
  }

  lemma {:induction false} FileCovers(fs: FileSystem, rel: Path, at: Path, st: State)
    requires fs.Valid() && at in fs.nodes && fs.nodes[at].File?
    ensures Covers(fs, [Report(rel, at)], st, Walk(fs, 0, rel, at, st).0)
  {
    var r, o := Walk(fs, 0, rel, at, st).0, Report(rel, at);
    assert r.entered[|st.entered|..] == [];
    assert r.reports[|st.reports|..] == if fs.nodes[at].size > 0 then [o] else [];
    forall x
      ensures BelowSome(fs, [o] + [], x) <==> x == o
    {
      OneBelow(fs, o, [], x);
      Itself(fs, o, x);
    }
  }

  lemma {:induction false} DirectoryCovers(fs: FileSystem, rel: Path, at: Path, st: State, r: State)
    requires fs.Valid() && at in fs.nodes && fs.nodes[at].Directory?
    requires Covers(fs, Entries(fs, rel, at, 0), Reach(st, at), r)
    ensures Covers(fs, [Report(rel, at)], st, r)
  {
    var es, o := Entries(fs, rel, at, 0), Report(rel, at);
    forall x, m
      ensures BelowSome(fs, [o] + m, x) <==> x == o || BelowSome(fs, es + m, x)
    {
      hide BelowSome, Below, Entries;
      OneBelow(fs, o, m, x);
      SomeBelow(fs, es, m, x);
      BelowDirectory(fs, rel, at, x);
    }
    SameCovers(fs, es, [o], Reach(st, at), st, r, o);
  }

  /** `os` and `ps` have the same below them but for `o`, which is neither a file nor a link yet to enter. */
  lemma {:induction false} SameCovers(fs: FileSystem, os: seq<Report>, ps: seq<Report>, a: State, b: State, r: State, o: Report)
    requires Covers(fs, os, a, r) && b.reports == a.reports && b.entered == a.entered && b.visited == a.visited
    requires forall x, m :: BelowSome(fs, ps + m, x) <==> x == o || BelowSome(fs, os + m, x)
    requires o.at in fs.nodes && fs.nodes[o.at].Directory?
    ensures Covers(fs, ps, b, r)
  {
    hide BelowSome;
  }

  lemma {:induction false} LinkCovers(fs: FileSystem, rel: Path, at: Path, target: Target, st: State)
    requires fs.Valid() && at in fs.nodes && fs.nodes[at] == Link(target)
    ensures var (r, outcome) := FollowLink(fs, 0, rel, target, st); outcome == Nil ==> Covers(fs, [Report(rel, at)], st, r)
    decreases fs.nodes.Keys - st.visited, 0, 0, 0
  {
    if target.To? && target.path !in st.visited {
      var t := target.path;
      var entered := st.(visited := st.visited + {t}, entered := st.entered + [Report(rel, t)]);
      assert fs.nodes.Keys - entered.visited < fs.nodes.Keys - st.visited by {
        assert t in fs.nodes.Keys - st.visited;
      }
      WalkCovers(fs, rel, t, entered);
      var (r, outcome) := Walk(fs, 0, rel, t, entered);
      hide Covers;
      if outcome == Nil {
        EnteredCovers(fs, rel, at, t, st, entered, r);
      }
    } else {
      NothingCovers(fs, rel, at, target, st);
    }
  }

  lemma {:induction false} NothingCovers(fs: FileSystem, rel: Path, at: Path, target: Target, st: State)
    requires at in fs.nodes && fs.nodes[at] == Link(target) && (target.To? ==> target.path in st.visited)
    ensures Covers(fs, [Report(rel, at)], st, st)
  {
    var o := Report(rel, at);
    forall x
      ensures BelowSome(fs, [o] + [], x) <==> x == o
    {
      OneBelow(fs, o, [], x);
      Itself(fs, o, x);
    }
    assert st.entered[|st.entered|..] == [] && st.reports[|st.reports|..] == [];
  }

  lemma {:induction false} EnteredCovers(fs: FileSystem, rel: Path, at: Path, t: Path, st: State, entered: State, r: State)
    requires at in fs.nodes && fs.nodes[at] == Link(To(t))
    requires entered == st.(visited := st.visited + {t}, entered := st.entered + [Report(rel, t)])
    requires Covers(fs, [Report(rel, t)], entered, r)
    ensures Covers(fs, [Report(rel, at)], st, r)
  {
    var o, e, more := Report(rel, at), Report(rel, t), r.entered[|entered.entered|..];
    assert r.entered[..|entered.entered|] == entered.entered;
    assert r.entered[|st.entered|..] == [e] + more by {
      assert r.entered[|st.entered|] == e;
    }
    assert st.entered <= r.entered by {
      assert r.entered[..|st.entered|] == entered.entered[..|st.entered|];
    }
    hide BelowSome, Sourced;
    forall x, m
      ensures BelowSome(fs, [o] + ([e] + m), x) <==> x == o || BelowSome(fs, [e] + m, x)
    {
      OneBelow(fs, o, [e] + m, x);
      Itself(fs, o, x);
    }
    EnteredSourced(fs, o, e, more);
  }

  lemma {:induction false} EnteredSourced(fs: FileSystem, o: Report, e: Report, more: seq<Report>)
    requires o.rel == e.rel && LinkTo(fs, o, e.at) && Sourced(fs, [e], more)
    ensures Sourced(fs, [o], [e] + more)
  {
    hide BelowSome;
    forall k | 0 <= k < |[e] + more|
      ensures LinkBelow(fs, [o] + ([e] + more)[..k], ([e] + more)[k])
    {
      if k == 0 {
        OneBelow(fs, o, [], o);
        LinkItself(fs, o, e.at);
        assert ([e] + more)[..0] == [];
      } else {
        var before := [e] + more[..k - 1];
        assert ([e] + more)[..k] == before && LinkBelow(fs, before, more[k - 1]);
        forall x | BelowSome(fs, before, x)
          ensures BelowSome(fs, [o] + before, x)
        {
          OneBelow(fs, o, before, x);
        }
        LinkBelowMore(fs, before, [o] + before, more[k - 1]);
      }
    }
  }

  lemma {:induction false} LinkItself(fs: FileSystem, o: Report, t: Path)
    requires LinkTo(fs, o, t)
    ensures Below(fs, o, o)
  {
    Itself(fs, o, o);
  }

  lemma {:induction false} EntriesCover(fs: FileSystem, rel: Path, at: Path, i: nat, st: State)
    requires fs.Valid() && at in fs.nodes && fs.nodes[at].Directory? && i <= |fs.nodes[at].names|
    ensures var (r, outcome) := WalkEntries(fs, 0, rel, at, i, st); outcome == Nil ==> Covers(fs, Entries(fs, rel, at, i), st, r)
    decreases fs.nodes.Keys - st.visited, fs.depth + 1 - |at|, 0, |fs.nodes[at].names| - i
  {
    hide Covers, Entries, Onward;
    var names := fs.nodes[at].names;
    EntriesFirst(fs, rel, at, i);
    if i == |names| {
      NoneCover(fs, st);
    } else {
      var child := at + [names[i]];
      WalkCovers(fs, rel + [names[i]], child, st);
      var (after, outcome) := Walk(fs, 0, rel + [names[i]], child, st);
      NeverSkips(fs, rel + [names[i]], child, st);
      if outcome == Nil {
        EntriesCover(fs, rel, at, i + 1, after);
        var (r, last) := WalkEntries(fs, 0, rel, at, i + 1, after);
        if last == Nil {
          CoversJoin(fs, [Report(rel + [names[i]], child)], Entries(fs, rel, at, i + 1), st, after, r);
        }
      }
    }
  }

  lemma {:induction false} NeverSkips(fs: FileSystem, rel: Path, at: Path, st: State)
    requires fs.Valid() && at in fs.nodes
    ensures Walk(fs, 0, rel, at, st).1 != SkipDir
  {
    hide Walk;
    assert Onward(0, st, Walk(fs, 0, rel, at, st).0, Walk(fs, 0, rel, at, st).1);
  }

  lemma {:induction false} EntriesFirst(fs: FileSystem, rel: Path, at: Path, i: nat)
    requires at in fs.nodes && fs.nodes[at].Directory? && i <= |fs.nodes[at].names|
    ensures var names := fs.nodes[at].names;
      Entries(fs, rel, at, i) ==
        if i == |names| then [] else [Report(rel + [names[i]], at + [names[i]])] + Entries(fs, rel, at, i + 1)
  {
  }

  lemma {:induction false} NoneCover(fs: FileSystem, st: State)
    ensures Covers(fs, [], st, st)
  {
    assert st.entered[|st.entered|..] == [] && st.reports[|st.reports|..] == [];
  }

  function Root(root: Path): Report {
    Report([], root)
  }

  /** Which paths the callback gets: the paths of the non-empty files below the root and below the link
      targets entered, each going on from the path of the link, and no others. Every link to be followed
      there had its target entered, once, and under the path of one of its links. */
  lemma {:induction false} ReportsExactly(fs: FileSystem, root: Path)
    requires fs.Valid() && root in fs.nodes
    ensures var (st, outcome) := WalkFilePaths(fs, 0, root);
      outcome == Nil ==>
        && (forall x :: x in st.reports <==> NonEmptyFile(fs, x.at) && BelowSome(fs, [Root(root)] + st.entered, x))
        && (forall x, t :: BelowSome(fs, [Root(root)] + st.entered, x) && LinkTo(fs, x, t) ==> IsEntered(st.entered, t))
        && (forall k :: 0 <= k < |st.entered| ==> LinkBelow(fs, [Root(root)] + st.entered[..k], st.entered[k]))
        && (forall i, j :: 0 <= i < j < |st.entered| ==> st.entered[i].at != st.entered[j].at)
  {
    hide BelowSome, LinkTo, LinkBelow, NonEmptyFile;
    var start := State({}, [], [], {});
    var (st, outcome) := Walk(fs, 0, [], root, start);
    WalkCovers(fs, [], root, start);
    assert OnceEach(start);
    assert Onward(0, start, st, outcome);
    if outcome == Nil {
      assert st.entered[0..] == st.entered && st.reports[0..] == st.reports;
    }
  }

  lemma {:induction false} DescendsLast(fs: FileSystem, d: Path, q: Path, name: string)
    requires fs.Valid()
    ensures Descends(fs, d, q) ==> d + q in fs.nodes
    ensures Descends(fs, d, q + [name]) <==>
      Descends(fs, d, q) && d + q in fs.nodes && fs.nodes[d + q].Directory? && name in fs.nodes[d + q].names
    decreases |q|
  {
    if q == [] {
      assert d + q == d && (q + [name])[1..] == [];
      if d in fs.nodes && fs.nodes[d].Directory? && name in fs.nodes[d].names {
        var i :| 0 <= i < |fs.nodes[d].names| && fs.nodes[d].names[i] == name;
        assert d + [fs.nodes[d].names[i]] in fs.nodes;
      }
    } else {
      assert (q + [name])[1..] == q[1..] + [name];
      DescendsLast(fs, d + [q[0]], q[1..], name);
      assert d + [q[0]] + q[1..] == d + q;
    }
  }

  lemma {:induction false} ResolvesDown(fs: FileSystem, root: Path, rel: Path)
    requires fs.Valid() && root in fs.nodes && forall p :: p in fs.nodes ==> !fs.nodes[p].Link?
    ensures Resolve(fs, root, rel) == if Descends(fs, root, rel) then Some(root + rel) else None
    decreases |rel|
  {
    if rel == [] {
      assert root + rel == root;
    } else {
      var before, name := rel[..|rel| - 1], rel[|rel| - 1];
      ResolvesDown(fs, root, before);
      assert rel == before + [name];
      DescendsLast(fs, root, before, name);
      assert root + before + [name] == root + rel;
      if Descends(fs, root, rel) {
        var d := root + before;
        var i :| 0 <= i < |fs.nodes[d].names| && fs.nodes[d].names[i] == name;
        assert d + [fs.nodes[d].names[i]] in fs.nodes;
      }
    }
  }

  /** Without links, the callback gets exactly the paths at which a non-empty file is found. */
  lemma {:induction false} EveryPathReported(fs: FileSystem, root: Path, rel: Path)
    requires fs.Valid() && root in fs.nodes && forall p :: p in fs.nodes ==> !fs.nodes[p].Link?
    ensures var (st, outcome) := WalkFilePaths(fs, 0, root);
      && outcome == Nil
      && var found := Resolve(fs, root, rel);
        if found.Some? && NonEmptyFile(fs, found.value) then Report(rel, found.value) in st.reports
        else forall x: Report :: x in st.reports ==> x.rel != rel
  {
    hide WalkFilePaths, BelowSome, Resolve, Descends, LinkBelow;
    WalkIsExact(fs, root);
    ReportsExactly(fs, root);
    var (st, outcome) := WalkFilePaths(fs, 0, root);
    assert st.entered == [] by {
      assert st.entered != [] ==> LinkBelow(fs, [Root(root)] + st.entered[..0], st.entered[0]);
      NoLinkBelow(fs);
    }
    ResolvesDown(fs, root, rel);
    forall x: Report | x.rel == rel
      ensures BelowSome(fs, [Root(root)] + [], x) <==> Descends(fs, root, rel) && x.at == root + rel
    {
      OneBelow(fs, Root(root), [], x);
      NoneBelow(fs, x);
      assert x.rel[0..] == x.rel && [] <= x.rel;
    }
  }

  lemma {:induction false} NoLinkBelow(fs: FileSystem)
    requires forall p :: p in fs.nodes ==> !fs.nodes[p].Link?
    ensures forall os, e :: !LinkBelow(fs, os, e)
  {
  }

  lemma {:induction false} NoneBelow(fs: FileSystem, x: Report)
    ensures !BelowSome(fs, [], x)
  {
  }

  // ---------- Links that spell themselves ----------

  function FollowAny(fs: FileSystem, p: Path): Option<Path>
    requires p in fs.nodes
  {
    match fs.nodes[p]
    case Link(Spelled(t)) => Some(t)
    case _ => Follow(fs, p)
  }

  /** What the operating system finds at the path `rel` below `root`. */
  function Find(fs: FileSystem, root: Path, rel: Path): (r: Option<Path>)
    requires fs.Valid() && root in fs.nodes
    ensures r.Some? ==> r.value in fs.nodes && !fs.nodes[r.value].Link?
    decreases |rel|
  {
    if rel == [] then FollowAny(fs, root)
    else
      match Find(fs, root, rel[..|rel| - 1])
      case None => None
      case Some(d) =>
        var name := rel[|rel| - 1];
        if fs.nodes[d].Directory? && name in fs.nodes[d].names then
          assert exists i :: 0 <= i < |fs.nodes[d].names| && fs.nodes[d].names[i] == name;
          FollowAny(fs, d + [name])
        else None
  }

  predicate SpellsItself(fs: FileSystem, p: Path) {
    p in fs.nodes && fs.nodes[p].Link? && fs.nodes[p].target.Spelled?
  }

  /** The root or an entry of a directory that the walk comes to spells itself. */
  ghost predicate SpelledAhead(fs: FileSystem, root: Path)
    requires fs.Valid() && root in fs.nodes
  {
    SpellsItself(fs, root) || exists d, name :: SpelledIn(fs, root, d, name)
  }

  ghost predicate SpelledIn(fs: FileSystem, root: Path, d: Path, name: string)
    requires fs.Valid() && root in fs.nodes
  {
    d in fs.nodes && Reachable(fs, root, d) && fs.nodes[d].Directory? && name in fs.nodes[d].names && SpellsItself(fs, d + [name])
  }

  lemma {:induction false} ResolvedIsFound(fs: FileSystem, root: Path, rel: Path)
    requires fs.Valid() && root in fs.nodes
    ensures Resolve(fs, root, rel).Some? ==> Find(fs, root, rel) == Resolve(fs, root, rel)
    ensures !SpelledAhead(fs, root) ==> Find(fs, root, rel) == Resolve(fs, root, rel)
    decreases |rel|
  {
    if rel != [] {
      var before, name := rel[..|rel| - 1], rel[|rel| - 1];
      ResolvedIsFound(fs, root, before);
      if Resolve(fs, root, before).Some? {
        var d := Resolve(fs, root, before).value;
        assert Reachable(fs, root, d);
        if fs.nodes[d].Directory? && name in fs.nodes[d].names && SpellsItself(fs, d + [name]) {
          assert SpelledIn(fs, root, d, name);
        }
      }
    }
  }

  /** The walk comes to whatever the operating system finds, by every path, exactly when no link ahead
      spells itself. */
  lemma {:induction false} FindsExactly(fs: FileSystem, root: Path)
    requires fs.Valid() && root in fs.nodes
    ensures (forall rel :: Find(fs, root, rel) == Resolve(fs, root, rel)) <==> !SpelledAhead(fs, root)
  {
    if SpelledAhead(fs, root) {
      if SpellsItself(fs, root) {
        assert Find(fs, root, []) != Resolve(fs, root, []);
      } else {
        var d, name :| SpelledIn(fs, root, d, name);
        var rel :| Resolve(fs, root, rel) == Some(d);
        ResolvedIsFound(fs, root, rel);
        var whole := rel + [name];
        assert whole[..|whole| - 1] == rel;
        assert Find(fs, root, whole) != Resolve(fs, root, whole);
      }
    } else {
      forall rel
        ensures Find(fs, root, rel) == Resolve(fs, root, rel)
      {
        ResolvedIsFound(fs, root, rel);
      }
    }
  }

  /** Where `b` leads to an empty directory elsewhere and the text of `l` is `b/../l`, the file that `l`
      leads to, beside that directory, is not reported. */
  lemma {:induction false} SpelledFileIsMissed(fs: FileSystem, root: Path, d: Path, file: Path)
    requires fs.Valid() && root in fs.nodes && fs.nodes[root] == Directory(["b", "l"])
    requires root + ["b"] in fs.nodes && fs.nodes[root + ["b"]] == Link(To(d)) && d in fs.nodes && fs.nodes[d] == Directory([])
    requires root + ["l"] in fs.nodes && fs.nodes[root + ["l"]] == Link(Spelled(file)) && NonEmptyFile(fs, file)
    ensures Find(fs, root, ["l"]) == Some(file)
    ensures WalkFilePaths(fs, 0, root).0.reports == [] && WalkFilePaths(fs, 0, root).1 == Nil
  {
    assert ["l"][..0] == [] && Find(fs, root, []) == Some(root) && ["b", "l"][1] == "l";
    var st := Reach(State({}, [], [], {}), root);
    var entered := st.(visited := {d}, entered := [Report(["b"], d)]);
    assert Walk(fs, 0, ["b"], root + ["b"], st) == (Reach(entered, d), Nil) by {
      EmptyDirectory(fs, ["b"], d, st, entered);
    }
    var after := Reach(entered, d);
    assert [] + ["b"] == ["b"] && [] + ["l"] == ["l"];
    assert Walk(fs, 0, ["l"], root + ["l"], after) == (after, Nil);
    hide Walk;
    assert WalkEntries(fs, 0, [], root, 2, after) == (after, Nil);
    assert WalkEntries(fs, 0, [], root, 1, after) == (after, Nil);
    assert WalkEntries(fs, 0, [], root, 0, st) == (after, Nil);
    RootWalk(fs, root, st);
  }

  lemma {:induction false} EmptyDirectory(fs: FileSystem, rel: Path, d: Path, st: State, entered: State)
    requires fs.Valid() && d in fs.nodes && fs.nodes[d] == Directory([]) && st.visited == {} && st.entered == []
    requires entered == st.(visited := {d}, entered := [Report(rel, d)])
    ensures FollowLink(fs, 0, rel, To(d), st) == (Reach(entered, d), Nil)
  {
    assert st.visited + {d} == {d} && st.entered + [Report(rel, d)] == [Report(rel, d)];
    assert WalkEntries(fs, 0, rel, d, 0, Reach(entered, d)) == (Reach(entered, d), Nil);
    assert Walk(fs, 0, rel, d, entered) == (Reach(entered, d), Nil);
  }

  lemma {:induction false} RootWalk(fs: FileSystem, root: Path, st: State)
    requires fs.Valid() && root in fs.nodes && fs.nodes[root].Directory? && st == Reach(State({}, [], [], {}), root)
    ensures Walk(fs, 0, [], root, State({}, [], [], {})) == WalkEntries(fs, 0, [], root, 0, st)
  {
    hide WalkEntries;
  }

  // ---------- Order ----------

  /** Component by component, `a` comes before `b`. */
  ghost predicate Before(a: Path, b: Path) {
    exists k :: 0 <= k < |a| && k < |b| && a[..k] == b[..k] && Less(a[k], b[k])
  }

  /** From report `n` on, all reports lie below `rel`, at an entry of `names` from `i` on, in order. */
  ghost predicate Ordered(reports: seq<Report>, n: nat, rel: Path) {
    && (forall k :: n <= k < |reports| ==> rel <= reports[k].rel)
    && (forall j, k :: n <= j < k < |reports| ==> Before(reports[j].rel, reports[k].rel))
  }

  ghost predicate FromEntry(reports: seq<Report>, n: nat, rel: Path, names: seq<string>, i: nat) {
    forall k :: n <= k < |reports| ==> |reports[k].rel| > |rel| && exists j :: i <= j < |names| && reports[k].rel[|rel|] == names[j]
  }

  lemma {:induction false} WalkOrdered(fs: FileSystem, limit: nat, rel: Path, at: Path, st: State)
    requires fs.Valid() && at in fs.nodes
    ensures Ordered(Walk(fs, limit, rel, at, st).0.reports, |st.reports|, rel)
    decreases fs.nodes.Keys - st.visited, fs.depth + 1 - |at|, 1, 0
  {
    match fs.nodes[at]
    case Link(To(t)) =>
      if t !in st.visited {
        var entered := st.(visited := st.visited + {t}, entered := st.entered + [Report(rel, t)]);
        assert fs.nodes.Keys - entered.visited < fs.nodes.Keys - st.visited by {
          assert t in fs.nodes.Keys - st.visited;
        }
        WalkOrdered(fs, limit, rel, t, entered);
      }
    case Directory(names) => EntriesOrdered(fs, limit, rel, at, 0, Reach(st, at));
    case _ =>
  }

  lemma {:induction false} EntriesOrdered(fs: FileSystem, limit: nat, rel: Path, at: Path, i: nat, st: State)
    requires fs.Valid() && at in fs.nodes && fs.nodes[at].Directory? && i <= |fs.nodes[at].names|
    ensures var r := WalkEntries(fs, limit, rel, at, i, st).0;
      Ordered(r.reports, |st.reports|, rel) && FromEntry(r.reports, |st.reports|, rel, fs.nodes[at].names, i)
    decreases fs.nodes.Keys - st.visited, fs.depth + 1 - |at|, 0, |fs.nodes[at].names| - i
  {
    var names := fs.nodes[at].names;
    if i < |names| {
      var child := rel + [names[i]];
      WalkOrdered(fs, limit, child, at + [names[i]], st);
      var (after, outcome) := Walk(fs, limit, child, at + [names[i]], st);
      EntriesOrdered(fs, limit, rel, at, i + 1, after);
      var r := WalkEntries(fs, limit, rel, at, i, st).0;
      EntryFirst(names, i, rel, st.reports, after.reports, r.reports);
    }
  }

  /** The reports of entry `i` come before those of the later entries. */
  lemma {:induction false} EntryFirst(names: seq<string>, i: nat, rel: Path, before: seq<Report>, after: seq<Report>, all: seq<Report>)
    requires i < |names| && before <= after <= all
    requires forall l :: i < l < |names| ==> Less(names[i], names[l])
    requires Ordered(after, |before|, rel + [names[i]])
    requires Ordered(all, |after|, rel) && FromEntry(all, |after|, rel, names, i + 1)
    ensures Ordered(all, |before|, rel) && FromEntry(all, |before|, rel, names, i)
  {
    forall k | |before| <= k < |all|
      ensures rel <= all[k].rel && |all[k].rel| > |rel|
      ensures if k < |after| then all[k].rel[|rel|] == names[i] else exists l :: i < l < |names| && all[k].rel[|rel|] == names[l]
    {
      if k < |after| {
        assert all[k] == after[k];
        assert (rel + [names[i]])[|rel|] == names[i] && all[k].rel[..|rel|] == rel;
      }
    }
    forall j, k | |before| <= j < k < |all|
      ensures Before(all[j].rel, all[k].rel)
    {
      if k < |after| {
        assert all[j] == after[j] && all[k] == after[k];
      } else if j < |after| {
        assert all[j].rel[..|rel|] == rel == all[k].rel[..|rel|];
      }
    }
  }

  lemma {:induction false} LessIrreflexive(a: string)
    ensures !Less(a, a)
  {
    if a != [] {
      LessIrreflexive(a[1..]);
    }
  }

  /** Files come in lexical order, so no path is handed to the callback twice. */
  lemma {:induction false} WalkIsOrdered(fs: FileSystem, limit: nat, root: Path)
    requires fs.Valid() && root in fs.nodes
    ensures var reports := WalkFilePaths(fs, limit, root).0.reports;
      forall j, k :: 0 <= j < k < |reports| ==>
        Before(reports[j].rel, reports[k].rel) && reports[j].rel != reports[k].rel
  {
    WalkOrdered(fs, limit, [], root, State({}, [], [], {}));
    forall a: Path | Before(a, a)
      ensures false
    {
      var k :| 0 <= k < |a| && a[..k] == a[..k] && Less(a[k], a[k]);
      LessIrreflexive(a[k]);
    }
  }

  // ---------- The file limit ----------

  /** With the limit the walk agrees with the unlimited one until `limit` files are out; from then
      on it reports nothing, although SkipDir leaves it walking. */
  lemma {:induction false} WalkLimited(fs: FileSystem, limit: nat, rel: Path, at: Path, st: State)
    requires fs.Valid() && at in fs.nodes && limit > 0 && |st.reports| <= limit
    ensures var (u, l) := (Walk(fs, 0, rel, at, st), Walk(fs, limit, rel, at, st));
      if |u.0.reports| <= limit then l == u else l.0.reports == u.0.reports[..limit]
    decreases fs.nodes.Keys - st.visited, fs.depth + 1 - |at|, 1, 0
  {
    match fs.nodes[at]
    case Link(To(t)) =>
      if t !in st.visited {
        var entered := st.(visited := st.visited + {t}, entered := st.entered + [Report(rel, t)]);
        assert fs.nodes.Keys - entered.visited < fs.nodes.Keys - st.visited by {
          assert t in fs.nodes.Keys - st.visited;
        }
        WalkLimited(fs, limit, rel, t, entered);
      }
    case Directory(names) => EntriesLimited(fs, limit, rel, at, 0, Reach(st, at));
    case _ =>
  }

  lemma {:induction false} EntriesLimited(fs: FileSystem, limit: nat, rel: Path, at: Path, i: nat, st: State)
    requires fs.Valid() && at in fs.nodes && fs.nodes[at].Directory? && i <= |fs.nodes[at].names|
    requires limit > 0 && |st.reports| <= limit
    ensures var (u, l) := (WalkEntries(fs, 0, rel, at, i, st), WalkEntries(fs, limit, rel, at, i, st));
      if |u.0.reports| <= limit then l == u else l.0.reports == u.0.reports[..limit]
    decreases fs.nodes.Keys - st.visited, fs.depth + 1 - |at|, 0, |fs.nodes[at].names| - i
  {
    var names := fs.nodes[at].names;
    if i < |names| {
      var child := rel + [names[i]];
      WalkLimited(fs, limit, child, at + [names[i]], st);
      var u := Walk(fs, 0, child, at + [names[i]], st);
      if |u.0.reports| <= limit {
        EntriesLimited(fs, limit, rel, at, i + 1, u.0);
      } else {
        var whole := WalkEntries(fs, 0, rel, at, i, st);
        assert u.0.reports <= whole.0.reports;
      }
    }
  }

  /** MaxFiles = M calls back on exactly the first M files of the unlimited walk. */
  lemma {:induction false} LimitIsPrefix(fs: FileSystem, limit: nat, root: Path)
    requires fs.Valid() && root in fs.nodes && limit > 0
    ensures var (all, some) := (WalkFilePaths(fs, 0, root).0.reports, WalkFilePaths(fs, limit, root).0.reports);
      some == if |all| <= limit then all else all[..limit]
  {
    WalkLimited(fs, limit, [], root, State({}, [], [], {}));
  }

  // ---------- The walker itself ----------

  /** The walk as it runs: recursion over one shared `visited` map and one captured file count. */
  class Walker {
    const fs: FileSystem
    const limit: nat
    var visited: map<Path, bool>
    var fileCount: nat
    var reports: seq<Report>
    ghost var entered: seq<Report>
    ghost var reached: set<Path>

    ghost predicate Valid()
      reads this
    {
      fs.Valid() && fileCount == |reports| && forall p :: p in visited ==> visited[p]
    }

    ghost function Now(): State
      reads this
    {
      State(visited.Keys, reports, entered, reached)
    }

    constructor (fs: FileSystem, limit: nat)
      requires fs.Valid()
      ensures Valid() && this.fs == fs && this.limit == limit && Now() == State({}, [], [], {})
    {
      this.fs, this.limit := fs, limit;
      visited, fileCount, reports := map[], 0, [];
      entered, reached := [], {};
    }

    method Callback(rel: Path, at: Path) returns (outcome: Outcome)
      requires Valid()
      modifies this
      ensures Valid() && (Now(), outcome) == Offer(limit, rel, at, old(Now()))
    {
      if limit > 0 && fileCount >= limit {
        return SkipDir;
      }
      fileCount := fileCount + 1;
      reports := reports + [Report(rel, at)];
      return Nil;
    }

    method HandleSymlink(rel: Path, target: Target) returns (outcome: Outcome)
      requires Valid() && (target.To? ==> target.path in fs.nodes && !fs.nodes[target.path].Link?)
      modifies this
      ensures Valid() && (Now(), outcome) == FollowLink(fs, limit, rel, target, old(Now()))
      decreases fs.nodes.Keys - visited.Keys, 0, 0, 0
    {
      match target
      case Spelled(_) => return Nil;
      case Looping => return Nil;
      case Forbidden => return Nil;
      case Dangling => return Failed;
      case To(t) =>
        if t in visited && visited[t] {
          return Nil;
        }
        assert t in fs.nodes.Keys - visited.Keys;
        assert (visited[t := true]).Keys == visited.Keys + {t};
        visited, entered := visited[t := true], entered + [Report(rel, t)];
        outcome := SymWalk(rel, t);
        if outcome == SkipDir {
          outcome := Nil;
        }
    }

    method SymWalk(rel: Path, at: Path) returns (outcome: Outcome)
      requires Valid() && at in fs.nodes
      modifies this
      ensures Valid() && (Now(), outcome) == Walk(fs, limit, rel, at, old(Now()))
      decreases fs.nodes.Keys - visited.Keys, fs.depth + 1 - |at|, 1, 0
    {
      var node := fs.nodes[at];
      if node.Link? {
        outcome := HandleSymlink(rel, node.target);
        return;
      }
      reached := reached + {at};
      if node.File? && node.size == 0 {
        return Nil;
      }
      if node.File? {
        outcome := Callback(rel, at);
        return;
      }
      outcome := WalkDirectory(rel, at);
    }

    method WalkDirectory(rel: Path, at: Path) returns (outcome: Outcome)
      requires Valid() && at in fs.nodes && fs.nodes[at].Directory?
      modifies this
      ensures Valid() && (Now(), outcome) == WalkEntries(fs, limit, rel, at, 0, old(Now()))
      decreases fs.nodes.Keys - visited.Keys, fs.depth + 1 - |at|, 0, |fs.nodes[at].names| + 1
    {
      hide Onward, Walk;
      var names := fs.nodes[at].names;
      for i := 0 to |names|
        invariant Valid() && old(visited.Keys) <= visited.Keys
        invariant WalkEntries(fs, limit, rel, at, i, Now()) == WalkEntries(fs, limit, rel, at, 0, old(Now()))
      {
        var child := at + [names[i]];
        assert fs.nodes.Keys - visited.Keys <= fs.nodes.Keys - old(visited.Keys);
        assert visited.Keys == Now().visited;
        outcome := SymWalk(rel + [names[i]], child);
        if outcome == Failed || (outcome == SkipDir && fs.nodes[child].File?) {
          return;
        }
      }
      return Nil;
    }
  }
}
