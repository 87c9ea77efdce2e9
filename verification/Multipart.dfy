/** The resumable multipart upload of pkg/upload/upload_manager.go.

    `Attempt` specifies one call of FMultipartPutObject: its result and, in order, the operations it
    performs on the three cached keys. A process that dies during the call has performed a prefix of
    them. The class at the end runs the call on its own keys. The server, the part uploads and the order in which they
    end are the attempt's `World`; minio.OptimalPartInfo, a library function, is written from its
    documented contract. */
module Multipart {
  import opened Wrappers

  const MIN_PART_SIZE := 1024 * 1024 * 6
  const MAX_PART_NUMBER := 1000
  const MAX_SINGLE_PUT_OBJECT_SIZE := 1024 * 1024 * 1024 * 1024 * 5
  // of the library
  const MAX_MULTIPART_OBJECT_SIZE := 1024 * 1024 * 1024 * 1024 * 5
  const MAX_PARTS_COUNT := 10000
  const ABS_MIN_PART_SIZE := 1024 * 1024 * 5
  const MAX_PART_SIZE := 1024 * 1024 * 1024 * 5

  // ---------- Part sizes ----------

  datatype Plan = Plan(count: nat, partSize: nat, last: nat)

  /** FPutObject's choice for a file above MIN_PART_SIZE. */
  function ChosenPartSize(fileSize: nat): nat {
    var partSize := fileSize / MAX_PART_NUMBER;
    if partSize < MIN_PART_SIZE then MIN_PART_SIZE else partSize
  }

  function OptimalPartInfo(objectSize: nat, partSize: nat): Option<Plan> {
    if objectSize > MAX_MULTIPART_OBJECT_SIZE then None
    else if partSize > objectSize || objectSize > partSize * MAX_PARTS_COUNT then None
    else if partSize < ABS_MIN_PART_SIZE || partSize > MAX_PART_SIZE then None
    else
      var count := (objectSize + partSize - 1) / partSize;
      LastPart(objectSize, partSize);
      Some(Plan(count, partSize, objectSize - (count - 1) * partSize))
  }

  lemma {:induction false} LastPart(size: nat, partSize: nat)
    requires 0 < partSize <= size
    ensures var count := (size + partSize - 1) / partSize;
      count > 0 && 0 < size - (count - 1) * partSize <= partSize
  {
    var n := size + partSize - 1;
    assert n == partSize * (n / partSize) + n % partSize;
    assert (n / partSize - 1) * partSize == partSize * (n / partSize) - partSize;
    assert n / partSize >= 1;
  }

  function PartOffset(plan: Plan, p: nat): int {
    (p - 1) * plan.partSize
  }

  function PartLength(plan: Plan, p: nat): nat {
    if p == plan.count then plan.last else plan.partSize
  }

  /** Part `p` of the plan is read from the file with byte `b` in it. */
  predicate Contains(plan: Plan, p: nat, b: nat) {
    1 <= p <= plan.count && PartOffset(plan, p) <= b < PartOffset(plan, p) + PartLength(plan, p)
  }

  predicate IsPlan(plan: Plan, fileSize: nat) {
    && plan.count > 0
    && 0 < plan.last <= plan.partSize
    && (plan.count - 1) * plan.partSize + plan.last == fileSize
  }

  lemma {:induction false} OptimalIsPlan(fileSize: nat, partSize: nat)
    requires OptimalPartInfo(fileSize, partSize).Some?
    ensures IsPlan(OptimalPartInfo(fileSize, partSize).value, fileSize)
  {
    LastPart(fileSize, partSize);
  }

  /** The parts tile the file: every byte is in exactly one of the parts 1 to N. */
  lemma {:induction false} PartsTile(plan: Plan, fileSize: nat, b: nat)
    requires IsPlan(plan, fileSize) && b < fileSize
    ensures exists p: nat :: Contains(plan, p, b)
    ensures forall p: nat, q: nat :: (Contains(plan, p, b) && Contains(plan, q, b)) ==> p == q
  {
    InPart(plan, fileSize, b);
    forall q: nat | Contains(plan, q, b)
      ensures q == b / plan.partSize + 1
    {
      OnlyQuotient(q - 1, plan.partSize, b);
    }
  }

  lemma {:induction false} InPart(plan: Plan, fileSize: nat, b: nat)
    requires IsPlan(plan, fileSize) && b < fileSize
    ensures Contains(plan, b / plan.partSize + 1, b)
  {
    var s, q := plan.partSize, b / plan.partSize;
    assert b == s * q + b % s && plan.count * s == (plan.count - 1) * s + s;
    if q > plan.count - 1 {
      MoreTimes(plan.count, q, s);
    }
  }

  lemma {:induction false} MoreTimes(a: nat, b: nat, s: nat)
    requires a <= b
    ensures a * s <= b * s
  {
  }

  lemma {:induction false} OnlyQuotient(q: nat, s: nat, b: nat)
    requires s > 0 && q * s <= b < q * s + s
    ensures b / s == q
  {
    var d := b / s;
    assert b == s * d + b % s;
    assert (d + 1) * s == d * s + s && (q + 1) * s == q * s + s;
    if d < q {
      MoreTimes(d + 1, q, s);
    } else if d > q {
      MoreTimes(q + 1, d, s);
    }
  }

  /** FPutObject's part size gives at most 1001 parts. */
  lemma {:induction false} AtMost1001(fileSize: nat)
    ensures var plan := OptimalPartInfo(fileSize, ChosenPartSize(fileSize)); plan.Some? ==> plan.value.count <= 1001
  {
    var s := ChosenPartSize(fileSize);
    var n := fileSize + s - 1;
    assert fileSize < 1001 * s;
    assert n == s * (n / s) + n % s && s * (n / s) == (n / s) * s;
    if n / s > 1001 {
      MoreTimes(1002, n / s, s);
    }
  }

  /** The files above MIN_PART_SIZE that can be uploaded are those below 1000 parts of MAX_PART_SIZE and
      one byte. FMultipartPutObject's own limit of 5 TiB lets larger ones through; they fail here. */
  lemma {:induction false} UploadableSizes(fileSize: nat)
    requires fileSize > MIN_PART_SIZE
    ensures OptimalPartInfo(fileSize, ChosenPartSize(fileSize)).Some? <==> fileSize < 1000 * (5 * 0x4000_0000 + 1)
    ensures 1000 * (5 * 0x4000_0000 + 1) < MAX_SINGLE_PUT_OBJECT_SIZE == 5 * 0x100_0000_0000 && MIN_PART_SIZE == 6 * 0x10_0000
  {
  }

  // ---------- The cache and one attempt ----------

  /** An uploaded part: its number and the multipart upload it was put under. */
  datatype Part = Part(number: nat, upload: nat)

  datatype Cache = Cache(id: Option<nat>, parts: Option<seq<Part>>, size: Option<nat>)

  const EMPTY := Cache(None, None, None)

  datatype Op = PutId(id: nat) | PutParts(parts: seq<Part>) | PutSize(size: nat) | DeleteId | DeleteParts | DeleteSize

  function Apply(c: Cache, op: Op): Cache {
    match op
    case PutId(id) => c.(id := Some(id))
    case PutParts(parts) => c.(parts := Some(parts))
    case PutSize(size) => c.(size := Some(size))
    case DeleteId => c.(id := None)
    case DeleteParts => c.(parts := None)
    case DeleteSize => c.(size := None)
  }

  function ApplyAll(c: Cache, ops: seq<Op>): Cache {
    if ops == [] then c else Apply(ApplyAll(c, ops[..|ops| - 1]), ops[|ops| - 1])
  }

  /** cleanUploadCache */
  const CLEAN: seq<Op> := [DeleteId, DeleteParts, DeleteSize]

  function PartsOf(c: Cache): seq<Part> {
    if c.parts.Some? then c.parts.value else []
  }

  function SizeOf(c: Cache): nat {
    if c.size.Some? then c.size.value else 0
  }

  /** What the gather loop receives next: a part, an error, which may mean that the upload no longer
      exists, or the end of the context. */
  datatype Arrival = PartDone(number: nat) | PartFailed(stale: bool) | Cancelled

  datatype Reply = Accepted | Refused(stale: bool)

  datatype World = World(newUpload: Option<nat>, opens: bool, arrivals: seq<Arrival>, reply: Reply)

  /** A CompleteMultipartUpload: the upload and the parts it was given. */
  datatype Completed = Completed(id: nat, parts: seq<Part>)

  /** `error` is false for nil; `completed` is the CompleteMultipartUpload that succeeded. */
  datatype Outcome = Outcome(error: bool, completed: Option<Completed>)

  const FAILED := Outcome(true, None)

  datatype Trace = Trace(ops: seq<Op>, outcome: Outcome)

  datatype Gathered = Gathered(ops: seq<Op>, parts: seq<Part>, size: nat, ok: bool)

  /** The gather loop, `left` results before its end. */
  function Gather(plan: Plan, id: nat, parts: seq<Part>, size: nat, left: nat, arrivals: seq<Arrival>): Gathered
    decreases left
  {
    if left == 0 then Gathered([], parts, size, true)
    else if arrivals == [] then Gathered([], parts, size, false)
    else
      match arrivals[0]
      case Cancelled => Gathered([], parts, size, false)
      case PartFailed(stale) => Gathered(if stale then CLEAN else [], parts, size, false)
      case PartDone(p) =>
        var more, total := parts + [Part(p, id)], size + PartLength(plan, p);
        var rest := Gather(plan, id, more, total, left - 1, arrivals[1..]);
        rest.(ops := Stored(id, more, total) + rest.ops)
  }

  /** The three Puts for one part. */
  function Stored(id: nat, parts: seq<Part>, size: nat): seq<Op> {
    [PutId(id), PutParts(parts), PutSize(size)]
  }

  function Insert(parts: seq<Part>, x: Part): (r: seq<Part>)
    ensures |r| == |parts| + 1
  {
    if parts == [] || x.number < parts[0].number then [x] + parts else [parts[0]] + Insert(parts[1..], x)
  }

  function Sort(parts: seq<Part>): (r: seq<Part>)
    ensures |r| == |parts|
  {
    if parts == [] then [] else Insert(Sort(parts[..|parts| - 1]), parts[|parts| - 1])
  }

  /** Sort the parts and complete the upload. */
  function Finish(id: nat, parts: seq<Part>, reply: Reply): Trace {
    match reply
    case Accepted => Trace(CLEAN, Outcome(false, Some(Completed(id, Sort(parts)))))
    case Refused(stale) => Trace(if stale then CLEAN else [], FAILED)
  }

  /** A cached size above the file's resets the cache before it is used. */
  function Reset(c: Cache, fileSize: nat): seq<Op> {
    if SizeOf(c) > fileSize then CLEAN else []
  }

  function Loaded(c: Cache, fileSize: nat): Cache {
    if SizeOf(c) > fileSize then EMPTY else c
  }

  function PlanFor(fileSize: nat, partSize: nat): (plan: Option<Plan>)
    ensures plan.Some? ==> IsPlan(plan.value, fileSize)
  {
    var size := if partSize == 0 then MIN_PART_SIZE else partSize;
    if OptimalPartInfo(fileSize, size).None? then None
    else
      OptimalIsPlan(fileSize, size);
      OptimalPartInfo(fileSize, size)
  }

  /** The plan in plain terms: parts of 6 MiB where no size is asked for, a size of 5 MiB to 5 GiB, no larger
      than the file, at most 10000 parts, and as few of them as hold the file. */
  lemma {:induction false} PlannedParts(fileSize: nat, partSize: nat)
    ensures var size, plan := if partSize == 0 then 6 * 0x10_0000 else partSize, PlanFor(fileSize, partSize);
      && (plan.Some? <==> 5 * 0x10_0000 <= size <= 5 * 0x4000_0000 && size <= fileSize <= 5 * 0x100_0000_0000 && fileSize <= size * 10000)
      && (plan.Some? ==>
           && plan.value.partSize == size && plan.value.count > 0
           && (plan.value.count - 1) * size < fileSize <= plan.value.count * size)
  {
    var size, plan := if partSize == 0 then 6 * 0x10_0000 else partSize, PlanFor(fileSize, partSize);
    if plan.Some? {
      assert plan.value.count * size == (plan.value.count - 1) * size + size;
    }
  }

  function Attempt(c: Cache, fileSize: nat, plan: Option<Plan>, w: World): Trace {
    if fileSize > MAX_SINGLE_PUT_OBJECT_SIZE then Trace([], FAILED)
    else
      var t := Proceed(Loaded(c, fileSize), fileSize, plan, w);
      t.(ops := Reset(c, fileSize) + t.ops)
  }

  function Proceed(c: Cache, fileSize: nat, plan: Option<Plan>, w: World): Trace {
    var id := if c.id.Some? then c.id else w.newUpload;
    if id.None? || plan.None? then Trace([], FAILED)
    else Transfer(c, plan.value, id.value, fileSize, w)
  }

  function Transfer(c: Cache, plan: Plan, id: nat, fileSize: nat, w: World): Trace {
    var parts, size := PartsOf(c), SizeOf(c);
    if plan.count <= |parts| then
      if plan.count == |parts| && size == fileSize then Finish(id, parts, w.reply) else Trace(CLEAN, FAILED)
    else if !w.opens then Trace([], FAILED)
    else
      var g := Gather(plan, id, parts, size, plan.count - |parts|, w.arrivals);
      if !g.ok then Trace(g.ops, FAILED)
      // the size check wraps an error that is nil here
      else if g.size != fileSize then Trace(g.ops, Outcome(false, None))
      else
        var f := Finish(id, g.parts, w.reply);
        f.(ops := g.ops + f.ops)
  }

  // ---------- What the cache holds ----------

  predicate Distinct(parts: seq<Part>) {
    forall i, j :: 0 <= i < j < |parts| ==> parts[i].number != parts[j].number
  }

  predicate InPlan(plan: Plan, parts: seq<Part>) {
    forall i :: 0 <= i < |parts| ==> 1 <= parts[i].number <= plan.count
  }

  predicate Sound(plan: Plan, c: Cache) {
    Distinct(PartsOf(c)) && InPlan(plan, PartsOf(c))
  }

  function Sum(plan: Plan, parts: seq<Part>): nat {
    if parts == [] then 0 else Sum(plan, parts[..|parts| - 1]) + PartLength(plan, parts[|parts| - 1].number)
  }

  predicate SizeAgrees(plan: Plan, c: Cache) {
    SizeOf(c) == Sum(plan, PartsOf(c))
  }

  /** The cached parts were put under the cached upload. */
  predicate Owned(c: Cache) {
    forall i :: 0 <= i < |PartsOf(c)| ==> c.id == Some(PartsOf(c)[i].upload)
  }

  /** The workers send each part that is not cached once. */
  predicate Fresh(plan: Plan, parts: seq<Part>, arrivals: seq<Arrival>) {
    && (forall i :: 0 <= i < |arrivals| && arrivals[i].PartDone? ==>
         && 1 <= arrivals[i].number <= plan.count
         && forall j :: 0 <= j < |parts| ==> parts[j].number != arrivals[i].number)
    && forall i, j :: 0 <= i < j < |arrivals| && arrivals[i].PartDone? && arrivals[j].PartDone? ==> arrivals[i].number != arrivals[j].number
  }

  lemma {:induction false} FreshNext(plan: Plan, parts: seq<Part>, arrivals: seq<Arrival>, id: nat)
    requires Fresh(plan, parts, arrivals) && arrivals != [] && arrivals[0].PartDone? && Distinct(parts) && InPlan(plan, parts)
    ensures var more := parts + [Part(arrivals[0].number, id)];
      Distinct(more) && InPlan(plan, more) && Fresh(plan, more, arrivals[1..])
  {
  }

  lemma {:induction false} SumNext(plan: Plan, parts: seq<Part>, x: Part)
    ensures Sum(plan, parts + [x]) == Sum(plan, parts) + PartLength(plan, x.number)
  {
    assert (parts + [x])[..|parts|] == parts;
  }

  // ---------- All the parts make the file ----------

  function Numbers(parts: seq<Part>): set<nat> {
    set i | 0 <= i < |parts| :: parts[i].number
  }

  function UpTo(n: nat): (r: set<nat>)
    ensures forall i: nat :: i in r <==> 1 <= i <= n
  {
    if n == 0 then {} else UpTo(n - 1) + {n}
  }

  lemma {:induction false} UpToSize(n: nat)
    ensures |UpTo(n)| == n
  {
    if n > 0 {
      UpToSize(n - 1);
    }
  }

  lemma {:induction false} NumbersSize(parts: seq<Part>)
    requires Distinct(parts)
    ensures |Numbers(parts)| == |parts|
  {
    if parts == [] {
      assert Numbers(parts) == {};
    } else {
      var n := |parts| - 1;
      NumbersSize(parts[..n]);
      assert Numbers(parts) == Numbers(parts[..n]) + {parts[n].number};
    }
  }

  lemma {:induction false} SubsetFills<T>(a: set<T>, b: set<T>)
    requires a <= b && |a| == |b|
    ensures a == b
  {
    if x :| x in b && x !in a {
      SubsetSize(a + {x}, b);
    }
  }

  /** As many distinct numbers as the plan has parts are all of its numbers. */
  lemma {:induction false} AllNumbers(plan: Plan, parts: seq<Part>)
    requires Distinct(parts) && InPlan(plan, parts) && |parts| == plan.count
    ensures Numbers(parts) == UpTo(plan.count)
  {
    NumbersSize(parts);
    UpToSize(plan.count);
    SubsetFills(Numbers(parts), UpTo(plan.count));
  }

  function Without(parts: seq<Part>, i: nat): seq<Part>
    requires i < |parts|
  {
    parts[..i] + parts[i + 1..]
  }

  lemma {:induction false} SumWithout(plan: Plan, parts: seq<Part>, i: nat)
    requires i < |parts|
    ensures Sum(plan, parts) == Sum(plan, Without(parts, i)) + PartLength(plan, parts[i].number)
  {
    var n := |parts| - 1;
    if i == n {
      assert Without(parts, i) == parts[..n];
    } else {
      SumWithout(plan, parts[..n], i);
      assert Without(parts, i) == Without(parts[..n], i) + [parts[n]];
      SumNext(plan, Without(parts[..n], i), parts[n]);
    }
  }

  lemma {:induction false} PlaceOf(parts: seq<Part>, n: nat) returns (i: nat)
    requires n > 0 && Numbers(parts) == UpTo(n)
    ensures i < |parts| && parts[i].number == n
  {
    assert n in Numbers(parts);
    i :| 0 <= i < |parts| && parts[i].number == n;
  }

  /** The lengths of the parts numbered 1 to n, in whatever order. */
  lemma {:induction false} SumUpTo(plan: Plan, fileSize: nat, parts: seq<Part>, n: nat)
    requires IsPlan(plan, fileSize) && n <= plan.count && Distinct(parts) && Numbers(parts) == UpTo(n)
    ensures Sum(plan, parts) == if n == plan.count then fileSize else n * plan.partSize
    decreases n
  {
    if n == 0 {
      NumbersSize(parts);
    } else {
      var i := PlaceOf(parts, n);
      hide Numbers, UpTo, Distinct, Without;
      SumWithout(plan, parts, i);
      NumbersWithout(parts, i, n);
      SumUpTo(plan, fileSize, Without(parts, i), n - 1);
      assert (n - 1) * plan.partSize + plan.partSize == n * plan.partSize;
    }
  }

  lemma {:induction false} NumbersWithout(parts: seq<Part>, i: nat, n: nat)
    requires n > 0 && i < |parts| && parts[i].number == n && Distinct(parts) && Numbers(parts) == UpTo(n)
    ensures Distinct(Without(parts, i)) && Numbers(Without(parts, i)) == UpTo(n - 1)
  {
    var rest := Without(parts, i);
    forall k | 0 <= k < |rest|
      ensures rest[k].number in UpTo(n - 1)
    {
      assert rest[k] == parts[if k < i then k else k + 1];
      assert rest[k].number in Numbers(parts);
    }
    forall m | m in UpTo(n - 1)
      ensures m in Numbers(rest)
    {
      assert m in Numbers(parts);
      var k :| 0 <= k < |parts| && parts[k].number == m;
      assert rest[if k < i then k else k - 1] == parts[k];
    }
  }

  lemma {:induction false} AllPartsSum(plan: Plan, fileSize: nat, parts: seq<Part>)
    requires IsPlan(plan, fileSize) && Distinct(parts) && InPlan(plan, parts) && |parts| == plan.count
    ensures Sum(plan, parts) == fileSize
  {
    AllNumbers(plan, parts);
    SumUpTo(plan, fileSize, parts, plan.count);
  }

  // ---------- Sorting ----------

  predicate Ascending(parts: seq<Part>) {
    forall i, j :: 0 <= i < j < |parts| ==> parts[i].number <= parts[j].number
  }

  lemma {:induction false} InsertSame(parts: seq<Part>, x: Part)
    ensures multiset(Insert(parts, x)) == multiset(parts) + multiset{x}
  {
    if parts != [] && x.number >= parts[0].number {
      assert parts == [parts[0]] + parts[1..];
      InsertSame(parts[1..], x);
    }
  }

  lemma {:induction false} InsertAscends(parts: seq<Part>, x: Part)
    requires Ascending(parts)
    ensures Ascending(Insert(parts, x))
  {
    if parts != [] && x.number >= parts[0].number {
      InsertAscends(parts[1..], x);
      var r := Insert(parts[1..], x);
      forall i | 0 <= i < |r|
        ensures parts[0].number <= r[i].number
      {
        InsertFrom(parts[1..], x, r[i]);
      }
    }
  }

  lemma {:induction false} InsertFrom(parts: seq<Part>, x: Part, y: Part)
    requires y in Insert(parts, x)
    ensures y == x || y in parts
  {
    InsertSame(parts, x);
    assert y in multiset(Insert(parts, x));
  }

  lemma {:induction false} SortAscends(parts: seq<Part>)
    ensures Ascending(Sort(parts)) && multiset(Sort(parts)) == multiset(parts)
  {
    if parts != [] {
      var n := |parts| - 1;
      assert parts == parts[..n] + [parts[n]];
      SortAscends(parts[..n]);
      InsertSame(Sort(parts[..n]), parts[n]);
      InsertAscends(Sort(parts[..n]), parts[n]);
    }
  }

  lemma {:induction false} SameNumbers(a: seq<Part>, b: seq<Part>)
    requires multiset(a) == multiset(b)
    ensures Numbers(a) == Numbers(b)
  {
    forall i | 0 <= i < |a|
      ensures a[i].number in Numbers(b)
    {
      assert a[i] in multiset(b);
    }
    forall i | 0 <= i < |b|
      ensures b[i].number in Numbers(a)
    {
      assert b[i] in multiset(a);
    }
  }

  /** Ascending parts with the numbers 1 to n are numbered by their places. */
  lemma {:induction false} PlacesAreNumbers(parts: seq<Part>, n: nat)
    requires Ascending(parts) && Numbers(parts) == UpTo(n) && |parts| == n
    ensures forall i :: 0 <= i < n ==> parts[i].number == i + 1
    decreases n
  {
    hide UpTo;
    if n > 0 {
      assert n in Numbers(parts);
      var k :| 0 <= k < n && parts[k].number == n;
      assert parts[n - 1].number in Numbers(parts);
      assert parts[n - 1].number == n;
      LastIsAlone(parts, n);
      PlacesAreNumbers(parts[..n - 1], n - 1);
    }
  }

  lemma {:induction false} LastIsAlone(parts: seq<Part>, n: nat)
    requires Numbers(parts) == UpTo(n) && |parts| == n > 0 && parts[n - 1].number == n
    ensures Numbers(parts[..n - 1]) == UpTo(n - 1)
  {
    var front := Numbers(parts[..n - 1]);
    assert Numbers(parts) == front + {n};
    UpToSize(n);
    UpToSize(n - 1);
    FewNumbers(parts[..n - 1]);
    assert UpTo(n) == UpTo(n - 1) + {n};
    assert n in front ==> front == UpTo(n);
  }

  lemma {:induction false} FewNumbers(parts: seq<Part>)
    ensures |Numbers(parts)| <= |parts|
  {
    if parts == [] {
      assert Numbers(parts) == {};
    } else {
      var n := |parts| - 1;
      FewNumbers(parts[..n]);
      assert Numbers(parts) == Numbers(parts[..n]) + {parts[n].number};
    }
  }

  predicate OneTo(parts: seq<Part>, n: nat) {
    |parts| == n && forall i :: 0 <= i < n ==> parts[i].number == i + 1
  }

  lemma {:induction false} SortedAll(plan: Plan, parts: seq<Part>)
    requires Distinct(parts) && InPlan(plan, parts) && |parts| == plan.count
    ensures OneTo(Sort(parts), plan.count)
  {
    SortAscends(parts);
    AllNumbers(plan, parts);
    SameNumbers(Sort(parts), parts);
    PlacesAreNumbers(Sort(parts), plan.count);
  }

  // ---------- One attempt ----------

  /** The loop adds to the size what it adds to the parts, and leaves sound parts. */
  lemma {:induction false} GatherAdds(plan: Plan, id: nat, parts: seq<Part>, size: nat, left: nat, arrivals: seq<Arrival>)
    requires Distinct(parts) && InPlan(plan, parts) && Fresh(plan, parts, arrivals)
    ensures var g := Gather(plan, id, parts, size, left, arrivals);
      && Distinct(g.parts) && InPlan(plan, g.parts)
      && g.size + Sum(plan, parts) == size + Sum(plan, g.parts)
      && (g.ok ==> |g.parts| == |parts| + left)
      && parts <= g.parts && (forall i :: |parts| <= i < |g.parts| ==> g.parts[i].upload == id)
    decreases left
  {
    hide Distinct, InPlan, Fresh, Sum, PartLength;
    if left > 0 && arrivals != [] && arrivals[0].PartDone? {
      var p := arrivals[0].number;
      var more := parts + [Part(p, id)];
      FreshNext(plan, parts, arrivals, id);
      SumNext(plan, parts, Part(p, id));
      GatherAdds(plan, id, more, size + PartLength(plan, p), left - 1, arrivals[1..]);
    }
  }

  /** From the count of the parts on: nil goes with a completed upload exactly when the size agreed. */
  lemma {:induction false} TransferCompletes(c: Cache, plan: Plan, id: nat, fileSize: nat, w: World)
    requires IsPlan(plan, fileSize) && Sound(plan, c) && Fresh(plan, PartsOf(c), w.arrivals)
    ensures var t := Transfer(c, plan, id, fileSize, w).outcome;
      && (!t.error ==> (t.completed.Some? <==> SizeAgrees(plan, c)))
      && (t.completed.Some? ==> OneTo(t.completed.value.parts, plan.count) && !t.error)
  {
    hide Sort, Gather, OneTo, Sum, Distinct, InPlan, Fresh, IsPlan;
    var parts, size := PartsOf(c), SizeOf(c);
    if plan.count == |parts| {
      AllPartsSum(plan, fileSize, parts);
      SortedAll(plan, parts);
    } else if plan.count > |parts| {
      GatherAdds(plan, id, parts, size, plan.count - |parts|, w.arrivals);
      var g := Gather(plan, id, parts, size, plan.count - |parts|, w.arrivals);
      if g.ok {
        AllPartsSum(plan, fileSize, g.parts);
        SortedAll(plan, g.parts);
      }
    }
  }

  /** A call that returns nil has completed the upload if and only if the cached size it began with
      was the size of the cached parts; and what it completed are the parts 1 to N in order. */
  lemma {:induction false} NilCompletes(c: Cache, plan: Plan, fileSize: nat, w: World)
    requires IsPlan(plan, fileSize)
    requires Sound(plan, c) && Fresh(plan, PartsOf(Loaded(c, fileSize)), w.arrivals)
    ensures var t := Attempt(c, fileSize, Some(plan), w).outcome;
      && (!t.error ==> (t.completed.Some? <==> SizeAgrees(plan, Loaded(c, fileSize))))
      && (t.completed.Some? ==> OneTo(t.completed.value.parts, plan.count) && !t.error)
  {
    var l := Loaded(c, fileSize);
    assert Sound(plan, l);
    hide Transfer, Sound, SizeAgrees, Fresh, OneTo, IsPlan, Loaded;
    var id := if l.id.Some? then l.id else w.newUpload;
    if id.Some? {
      TransferCompletes(l, plan, id.value, fileSize, w);
    }
  }

  predicate AllUnder(parts: seq<Part>, id: nat) {
    forall i :: 0 <= i < |parts| ==> parts[i].upload == id
  }

  /** The upload an attempt goes on with. */
  function UploadFor(c: Cache, w: World): Option<nat> {
    if c.id.Some? then c.id else w.newUpload
  }

  /** The server gives a new upload an id that no cached part was put under. */
  predicate NewId(c: Cache, w: World) {
    c.id.None? && w.newUpload.Some? ==> forall i :: 0 <= i < |PartsOf(c)| ==> PartsOf(c)[i].upload != w.newUpload.value
  }

  /** The completed parts were all put under the upload that is completed exactly when the cached ones
      belonged to the cached upload. */
  lemma {:induction false} CompletedTogether(c: Cache, plan: Plan, fileSize: nat, w: World)
    requires IsPlan(plan, fileSize) && Sound(plan, c) && NewId(Loaded(c, fileSize), w)
    requires Fresh(plan, PartsOf(Loaded(c, fileSize)), w.arrivals)
    ensures var t := Attempt(c, fileSize, Some(plan), w).outcome;
      t.completed.Some? ==>
        && UploadFor(Loaded(c, fileSize), w) == Some(t.completed.value.id)
        && (AllUnder(t.completed.value.parts, t.completed.value.id) <==> Owned(Loaded(c, fileSize)))
  {
    var l := Loaded(c, fileSize);
    assert Sound(plan, l);
    hide Transfer, Sound, Owned, Fresh, AllUnder, NewId, IsPlan, Loaded;
    if UploadFor(l, w).Some? {
      TransferTogether(l, plan, UploadFor(l, w).value, fileSize, w);
      OwnedUnder(l, w);
    }
  }

  lemma {:induction false} TransferTogether(c: Cache, plan: Plan, id: nat, fileSize: nat, w: World)
    requires Sound(plan, c) && Fresh(plan, PartsOf(c), w.arrivals)
    ensures var t := Transfer(c, plan, id, fileSize, w).outcome;
      t.completed.Some? ==> t.completed.value.id == id && (AllUnder(t.completed.value.parts, id) <==> AllUnder(PartsOf(c), id))
  {
    hide Sort, Gather, Fresh, Sum, Distinct, InPlan, AllUnder;
    var parts, size := PartsOf(c), SizeOf(c);
    if plan.count > |parts| {
      GatherAdds(plan, id, parts, size, plan.count - |parts|, w.arrivals);
      var all := Gather(plan, id, parts, size, plan.count - |parts|, w.arrivals).parts;
      MoreUnder(parts, all, id);
      SortedUnder(all, id);
    } else {
      SortedUnder(parts, id);
    }
  }

  lemma {:induction false} OwnedUnder(c: Cache, w: World)
    requires NewId(c, w) && UploadFor(c, w).Some?
    ensures AllUnder(PartsOf(c), UploadFor(c, w).value) <==> Owned(c)
  {
    if PartsOf(c) != [] {
      assert AllUnder(PartsOf(c), UploadFor(c, w).value) ==> PartsOf(c)[0].upload == UploadFor(c, w).value;
      assert Owned(c) ==> c.id == Some(PartsOf(c)[0].upload);
    }
  }

  lemma {:induction false} MoreUnder(parts: seq<Part>, all: seq<Part>, id: nat)
    requires parts <= all && forall i :: |parts| <= i < |all| ==> all[i].upload == id
    ensures AllUnder(all, id) <==> AllUnder(parts, id)
  {
    if AllUnder(all, id) {
      forall i | 0 <= i < |parts|
        ensures parts[i].upload == id
      {
        assert parts[i] == all[i];
      }
    }
  }

  lemma {:induction false} SortedUnder(parts: seq<Part>, id: nat)
    ensures AllUnder(Sort(parts), id) <==> AllUnder(parts, id)
  {
    SortAscends(parts);
    if AllUnder(parts, id) {
      SameUnder(parts, Sort(parts), id);
    }
    if AllUnder(Sort(parts), id) {
      SameUnder(Sort(parts), parts, id);
    }
  }

  lemma {:induction false} SameUnder(a: seq<Part>, b: seq<Part>, id: nat)
    requires multiset(a) == multiset(b) && AllUnder(a, id)
    ensures AllUnder(b, id)
  {
    forall i | 0 <= i < |b|
      ensures b[i].upload == id
    {
      assert b[i] in multiset(a);
    }
  }

  /** All missing parts arrive. */
  predicate AllArrive(plan: Plan, parts: seq<Part>, w: World) {
    && w.newUpload.Some? && w.opens
    && |w.arrivals| >= plan.count - |parts|
    && forall i :: 0 <= i < |w.arrivals| ==> w.arrivals[i].PartDone?
  }

  lemma {:induction false} GatherOk(plan: Plan, id: nat, parts: seq<Part>, size: nat, left: nat, arrivals: seq<Arrival>)
    requires |arrivals| >= left && forall i :: 0 <= i < |arrivals| ==> arrivals[i].PartDone?
    ensures Gather(plan, id, parts, size, left, arrivals).ok
    decreases left
  {
    if left > 0 {
      var p := arrivals[0].number;
      GatherOk(plan, id, parts + [Part(p, id)], size + PartLength(plan, p), left - 1, arrivals[1..]);
    }
  }

  /** A resumed call whose cached size is not that of its parts and that uploads all the others reports success
      without completing anything. */
  lemma {:induction false} SilentlyDropped(c: Cache, plan: Plan, fileSize: nat, w: World)
    requires IsPlan(plan, fileSize) && fileSize <= MAX_SINGLE_PUT_OBJECT_SIZE
    requires Sound(plan, c) && SizeOf(c) <= fileSize && |PartsOf(c)| < plan.count && !SizeAgrees(plan, c)
    requires AllArrive(plan, PartsOf(c), w) && Fresh(plan, PartsOf(c), w.arrivals)
    ensures Attempt(c, fileSize, Some(plan), w).outcome == Outcome(false, None)
  {
    hide Gather;
    var parts := PartsOf(c);
    var id := (if c.id.Some? then c.id else w.newUpload).value;
    GatherOk(plan, id, parts, SizeOf(c), plan.count - |parts|, w.arrivals);
    GatherAdds(plan, id, parts, SizeOf(c), plan.count - |parts|, w.arrivals);
    AllPartsSum(plan, fileSize, Gather(plan, id, parts, SizeOf(c), plan.count - |parts|, w.arrivals).parts);
  }

  // ---------- When an attempt succeeds ----------

  /** The first `n` results are parts. */
  predicate AllDone(arrivals: seq<Arrival>, n: nat) {
    n <= |arrivals| && forall i :: 0 <= i < n ==> arrivals[i].PartDone?
  }

  lemma {:induction false} GatherOkExactly(plan: Plan, id: nat, parts: seq<Part>, size: nat, left: nat, arrivals: seq<Arrival>)
    ensures Gather(plan, id, parts, size, left, arrivals).ok <==> AllDone(arrivals, left)
    decreases left
  {
    hide PartLength;
    if left > 0 && arrivals != [] && arrivals[0].PartDone? {
      var p := arrivals[0].number;
      GatherOkExactly(plan, id, parts + [Part(p, id)], size + PartLength(plan, p), left - 1, arrivals[1..]);
      assert forall i :: 0 < i < |arrivals| ==> arrivals[i] == arrivals[1..][i - 1];
      if AllDone(arrivals[1..], left - 1) {
        forall i | 0 <= i < left
          ensures arrivals[i].PartDone?
        {
          assert i > 0 ==> arrivals[1..][i - 1].PartDone?;
        }
      }
    }
  }

  lemma {:induction false} FewParts(plan: Plan, parts: seq<Part>)
    requires Distinct(parts) && InPlan(plan, parts)
    ensures |parts| <= plan.count
  {
    NumbersSize(parts);
    UpToSize(plan.count);
    SubsetSize(Numbers(parts), UpTo(plan.count));
  }

  /** With a cached size that is that of the cached parts, an attempt returns nil if and only if the file is
      not too large, there is an upload to go on with, all the missing parts arrive, and the server accepts
      them; and then it has completed the upload. */
  lemma {:induction false} NilExactly(c: Cache, plan: Plan, fileSize: nat, w: World)
    requires IsPlan(plan, fileSize) && Sound(plan, c) && SizeAgrees(plan, Loaded(c, fileSize))
    requires Fresh(plan, PartsOf(Loaded(c, fileSize)), w.arrivals)
    ensures var l := Loaded(c, fileSize); var t := Attempt(c, fileSize, Some(plan), w).outcome;
      && |PartsOf(l)| <= plan.count
      && var missing := plan.count - |PartsOf(l)|;
        !t.error <==>
          && fileSize <= MAX_SINGLE_PUT_OBJECT_SIZE && UploadFor(l, w).Some?
          && (missing == 0 || (w.opens && AllDone(w.arrivals, missing))) && w.reply.Accepted?
    ensures var t := Attempt(c, fileSize, Some(plan), w).outcome; !t.error ==> t.completed.Some?
  {
    NilCompletes(c, plan, fileSize, w);
    var l := Loaded(c, fileSize);
    assert Sound(plan, l);
    FewParts(plan, PartsOf(l));
    hide Transfer, Loaded, Sound, SizeAgrees, Fresh, IsPlan, OneTo, AllDone;
    if UploadFor(l, w).Some? {
      TransferNil(l, plan, UploadFor(l, w).value, fileSize, w);
    }
  }

  lemma {:induction false} TransferNil(c: Cache, plan: Plan, id: nat, fileSize: nat, w: World)
    requires IsPlan(plan, fileSize) && Sound(plan, c) && SizeAgrees(plan, c) && |PartsOf(c)| <= plan.count
    requires Fresh(plan, PartsOf(c), w.arrivals)
    ensures var missing := plan.count - |PartsOf(c)|;
      !Transfer(c, plan, id, fileSize, w).outcome.error <==>
        (missing == 0 || (w.opens && AllDone(w.arrivals, missing))) && w.reply.Accepted?
  {
    hide Gather, Sort, AllDone, Fresh, IsPlan, Sum, Distinct, InPlan;
    var parts, missing := PartsOf(c), plan.count - |PartsOf(c)|;
    if missing == 0 {
      AllPartsSum(plan, fileSize, parts);
    } else {
      GatherOkExactly(plan, id, parts, SizeOf(c), missing, w.arrivals);
      GatherAdds(plan, id, parts, SizeOf(c), missing, w.arrivals);
      var g := Gather(plan, id, parts, SizeOf(c), missing, w.arrivals);
      if g.ok {
        AllPartsSum(plan, fileSize, g.parts);
      }
    }
  }

  /** A cached size above the file's is an empty cache. */
  lemma {:induction false} OversizeStartsOver(c: Cache, fileSize: nat, plan: Option<Plan>, w: World)
    requires SizeOf(c) > fileSize
    ensures var t, u := Attempt(c, fileSize, plan, w), Attempt(EMPTY, fileSize, plan, w);
      && t.outcome == u.outcome
      && (fileSize <= MAX_SINGLE_PUT_OBJECT_SIZE ==>
           t.ops == CLEAN + u.ops && ApplyAll(c, t.ops) == ApplyAll(EMPTY, u.ops))
  {
    hide Proceed;
    var u := Attempt(EMPTY, fileSize, plan, w);
    assert Proceed(EMPTY, fileSize, plan, w).ops == [] + Proceed(EMPTY, fileSize, plan, w).ops;
    hide ApplyAll;
    CleanEmpties(c);
    ApplyConcat(c, CLEAN, u.ops);
  }

  /** Enough cached parts with a size that is not the file's, or too many of them: the attempt fails and
      leaves an empty cache. */
  lemma {:induction false} MismatchStartsOver(c: Cache, plan: Plan, fileSize: nat, w: World)
    requires SizeOf(c) <= fileSize <= MAX_SINGLE_PUT_OBJECT_SIZE && UploadFor(c, w).Some?
    requires |PartsOf(c)| >= plan.count && !(|PartsOf(c)| == plan.count && SizeOf(c) == fileSize)
    ensures var t := Attempt(c, fileSize, Some(plan), w); t.outcome == FAILED && ApplyAll(c, t.ops) == EMPTY
  {
    hide ApplyAll, Gather, Finish;
    CleanEmpties(c);
    assert [] + CLEAN == CLEAN;
  }

  /** The result after `k` parts says that the upload no longer exists. */
  predicate StaleAfter(arrivals: seq<Arrival>, k: nat) {
    k < |arrivals| && arrivals[k] == PartFailed(true) && AllDone(arrivals, k)
  }

  lemma {:induction false} GatherStale(plan: Plan, c: Cache, id: nat, parts: seq<Part>, size: nat, left: nat, arrivals: seq<Arrival>, k: nat)
    requires StaleAfter(arrivals, k) && k < left
    ensures var g := Gather(plan, id, parts, size, left, arrivals); !g.ok && ApplyAll(c, g.ops) == EMPTY
    decreases left
  {
    hide ApplyAll, PartLength;
    if k == 0 {
      CleanEmpties(c);
    } else {
      var p := arrivals[0].number;
      var more, total := parts + [Part(p, id)], size + PartLength(plan, p);
      assert forall i :: 0 <= i < |arrivals[1..]| ==> arrivals[1..][i] == arrivals[i + 1];
      StoredWhole(c, id, more, total);
      GatherStale(plan, Cache(Some(id), Some(more), Some(total)), id, more, total, left - 1, arrivals[1..], k - 1);
      ApplyConcat(c, Stored(id, more, total), Gather(plan, id, more, total, left - 1, arrivals[1..]).ops);
    }
  }

  /** When a part's upload is told that the multipart upload no longer exists, the attempt fails and leaves
      an empty cache, so that the next one starts a new upload. */
  lemma {:induction false} StaleStartsOver(c: Cache, plan: Plan, fileSize: nat, w: World, k: nat)
    requires SizeOf(c) <= fileSize <= MAX_SINGLE_PUT_OBJECT_SIZE && UploadFor(c, w).Some? && w.opens
    requires StaleAfter(w.arrivals, k) && |PartsOf(c)| + k < plan.count
    ensures var t := Attempt(c, fileSize, Some(plan), w); t.outcome == FAILED && ApplyAll(c, t.ops) == EMPTY
    ensures forall next: World :: UploadFor(EMPTY, next) == next.newUpload
  {
    hide ApplyAll, Gather, Finish, StaleAfter;
    var left := plan.count - |PartsOf(c)|;
    var id := UploadFor(c, w).value;
    GatherStale(plan, c, id, PartsOf(c), SizeOf(c), left, w.arrivals, k);
    var ops := Gather(plan, id, PartsOf(c), SizeOf(c), left, w.arrivals).ops;
    assert [] + ops == ops;
  }

  /** A refused completion leaves an empty cache if the upload no longer exists, and all parts with the
      file's size, for the next attempt to complete, if it may still. */
  lemma {:induction false} RefusedCompletion(c: Cache, plan: Plan, fileSize: nat, w: World)
    requires IsPlan(plan, fileSize) && Sound(plan, c) && SizeAgrees(plan, c) && SizeOf(c) <= fileSize <= MAX_SINGLE_PUT_OBJECT_SIZE
    requires UploadFor(c, w).Some? && Fresh(plan, PartsOf(c), w.arrivals) && w.opens && w.reply.Refused?
    requires |PartsOf(c)| <= plan.count && AllDone(w.arrivals, plan.count - |PartsOf(c)|) && NothingStale(w.arrivals)
    ensures var t := Attempt(c, fileSize, Some(plan), w); var after := ApplyAll(c, t.ops);
      && t.outcome == FAILED
      && if w.reply.stale then after == EMPTY else |PartsOf(after)| == plan.count && SizeOf(after) == fileSize && PartsOf(c) <= PartsOf(after)
  {
    var left, id := plan.count - |PartsOf(c)|, UploadFor(c, w).value;
    GatheredAll(plan, fileSize, c, id, w.arrivals);
    hide Gather, ApplyAll, Fresh, IsPlan, AllDone, NothingStale, Sort, Distinct, InPlan;
    FullOps(plan, fileSize, c, w);
    hide Attempt, Sum;
    var g := Gather(plan, id, PartsOf(c), SizeOf(c), left, w.arrivals);
    ApplyConcat(c, g.ops, Finish(id, g.parts, w.reply).ops);
    if w.reply.stale {
      CleanEmpties(ApplyAll(c, g.ops));
    } else {
      NoOps(ApplyAll(c, g.ops));
    }
  }

  lemma {:induction false} FullOps(plan: Plan, fileSize: nat, c: Cache, w: World)
    requires SizeOf(c) <= fileSize <= MAX_SINGLE_PUT_OBJECT_SIZE && |PartsOf(c)| <= plan.count && w.opens && UploadFor(c, w).Some?
    requires var g := Gather(plan, UploadFor(c, w).value, PartsOf(c), SizeOf(c), plan.count - |PartsOf(c)|, w.arrivals);
      g.ok && g.size == fileSize
    ensures var id := UploadFor(c, w).value;
      var g := Gather(plan, id, PartsOf(c), SizeOf(c), plan.count - |PartsOf(c)|, w.arrivals);
      Attempt(c, fileSize, Some(plan), w) == Trace(g.ops + Finish(id, g.parts, w.reply).ops, Finish(id, g.parts, w.reply).outcome)
  {
    var id := UploadFor(c, w).value;
    var g := Gather(plan, id, PartsOf(c), SizeOf(c), plan.count - |PartsOf(c)|, w.arrivals);
    var f := Finish(id, g.parts, w.reply);
    assert |PartsOf(c)| == plan.count ==> g.ops == [] && g.parts == PartsOf(c) && g.size == SizeOf(c);
    hide Gather, Finish;
    assert [] + (g.ops + f.ops) == g.ops + f.ops && [] + f.ops == f.ops;
  }

  lemma {:induction false} NoOps(c: Cache)
    ensures ApplyAll(c, []) == c
  {
  }

  /** Nothing goes wrong in the attempt. */
  predicate Undisturbed(c: Cache, plan: Plan, fileSize: nat, w: World) {
    var l := Loaded(c, fileSize);
    && w.newUpload.Some? && w.opens && w.reply.Accepted? && NothingStale(w.arrivals) && Fresh(plan, PartsOf(l), w.arrivals)
    && (|PartsOf(l)| <= plan.count ==> AllDone(w.arrivals, plan.count - |PartsOf(l)|))
  }

  function CacheAfter(c: Cache, plan: Plan, fileSize: nat, w: World): Cache {
    ApplyAll(c, Attempt(c, fileSize, Some(plan), w).ops)
  }

  predicate Completes(c: Cache, plan: Plan, fileSize: nat, w: World) {
    Attempt(c, fileSize, Some(plan), w).outcome.completed.Some?
  }

  lemma {:induction false} AgreeingCompletes(c: Cache, plan: Plan, fileSize: nat, w: World)
    requires IsPlan(plan, fileSize) && fileSize <= MAX_SINGLE_PUT_OBJECT_SIZE && Sound(plan, c) && Undisturbed(c, plan, fileSize, w)
    requires SizeAgrees(plan, Loaded(c, fileSize))
    ensures Completes(c, plan, fileSize, w)
  {
    hide Attempt, AllDone, Fresh, NothingStale, SizeAgrees, Sound, Loaded;
    NilExactly(c, plan, fileSize, w);
  }

  /** An attempt on a wrong size either leaves an empty cache or all the parts with a size still wrong. */
  lemma {:induction false} DisagreeingAttempt(c: Cache, plan: Plan, fileSize: nat, w: World)
    requires IsPlan(plan, fileSize) && fileSize <= MAX_SINGLE_PUT_OBJECT_SIZE && Sound(plan, c) && Undisturbed(c, plan, fileSize, w)
    requires !SizeAgrees(plan, Loaded(c, fileSize))
    ensures var after := CacheAfter(c, plan, fileSize, w);
      || after == EMPTY
      || (|PartsOf(c)| < plan.count && Sound(plan, after) && |PartsOf(after)| == plan.count && SizeOf(after) != fileSize)
  {
    assert SizeAgrees(plan, EMPTY);
    assert SizeOf(c) <= fileSize && Loaded(c, fileSize) == c;
    FewParts(plan, PartsOf(c));
    if |PartsOf(c)| == plan.count {
      AllPartsSum(plan, fileSize, PartsOf(c));
      hide Attempt, ApplyAll, Sum, Fresh, IsPlan, AllDone, NothingStale, Distinct, InPlan;
      MismatchStartsOver(c, plan, fileSize, w);
    } else {
      GatheredAll(plan, fileSize, c, UploadFor(c, w).value, w.arrivals);
      WrongSizeOps(plan, fileSize, c, w);
      hide Attempt, Gather, ApplyAll, Sum, Fresh, IsPlan, AllDone, NothingStale, Distinct, InPlan;
    }
  }

  /** All missing parts arrive: they are cached with their size. */
  lemma {:induction false} GatheredAll(plan: Plan, fileSize: nat, c: Cache, id: nat, arrivals: seq<Arrival>)
    requires IsPlan(plan, fileSize) && Sound(plan, c) && Fresh(plan, PartsOf(c), arrivals) && NothingStale(arrivals)
    requires |PartsOf(c)| <= plan.count && AllDone(arrivals, plan.count - |PartsOf(c)|)
    ensures var g := Gather(plan, id, PartsOf(c), SizeOf(c), plan.count - |PartsOf(c)|, arrivals);
      var after := ApplyAll(c, g.ops);
      && g.ok && PartsOf(after) == g.parts && SizeOf(after) == g.size && Sound(plan, after) && |g.parts| == plan.count
      && PartsOf(c) <= g.parts && g.size + Sum(plan, PartsOf(c)) == SizeOf(c) + fileSize
  {
    hide Gather, ApplyAll;
    var parts, left := PartsOf(c), plan.count - |PartsOf(c)|;
    GatherOkExactly(plan, id, parts, SizeOf(c), left, arrivals);
    GatherAdds(plan, id, parts, SizeOf(c), left, arrivals);
    var g := Gather(plan, id, parts, SizeOf(c), left, arrivals);
    hide Sum, Fresh, IsPlan, AllDone, NothingStale, Distinct, InPlan;
    AllPartsSum(plan, fileSize, g.parts);
    UploadedRemembered(plan, c, id, left, arrivals);
  }

  lemma {:induction false} WrongSizeOps(plan: Plan, fileSize: nat, c: Cache, w: World)
    requires SizeOf(c) <= fileSize <= MAX_SINGLE_PUT_OBJECT_SIZE && |PartsOf(c)| < plan.count && w.opens && UploadFor(c, w).Some?
    requires var g := Gather(plan, UploadFor(c, w).value, PartsOf(c), SizeOf(c), plan.count - |PartsOf(c)|, w.arrivals); g.ok && g.size != fileSize
    ensures Attempt(c, fileSize, Some(plan), w).ops ==
      Gather(plan, UploadFor(c, w).value, PartsOf(c), SizeOf(c), plan.count - |PartsOf(c)|, w.arrivals).ops
  {
    hide Gather;
    var ops := Gather(plan, UploadFor(c, w).value, PartsOf(c), SizeOf(c), plan.count - |PartsOf(c)|, w.arrivals).ops;
    assert [] + ops == ops;
  }

  /** From any cache whose parts are sound, whatever its size says, three attempts in which nothing goes
      wrong complete the upload. */
  lemma {:induction false} CompletesWithinThree(c: Cache, plan: Plan, fileSize: nat, w1: World, w2: World, w3: World)
    requires IsPlan(plan, fileSize) && fileSize <= MAX_SINGLE_PUT_OBJECT_SIZE && Sound(plan, c)
    requires Undisturbed(c, plan, fileSize, w1)
    requires var c1 := CacheAfter(c, plan, fileSize, w1); Undisturbed(c1, plan, fileSize, w2) && Undisturbed(CacheAfter(c1, plan, fileSize, w2), plan, fileSize, w3)
    ensures var c1 := CacheAfter(c, plan, fileSize, w1);
      || Completes(c, plan, fileSize, w1)
      || Completes(c1, plan, fileSize, w2)
      || Completes(CacheAfter(c1, plan, fileSize, w2), plan, fileSize, w3)
  {
    assert Sound(plan, EMPTY) && SizeAgrees(plan, Loaded(EMPTY, fileSize));
    hide Undisturbed, Completes, CacheAfter, Sound, SizeAgrees, IsPlan, Loaded;
    if SizeAgrees(plan, Loaded(c, fileSize)) {
      AgreeingCompletes(c, plan, fileSize, w1);
      return;
    }
    DisagreeingAttempt(c, plan, fileSize, w1);
    var c1 := CacheAfter(c, plan, fileSize, w1);
    if SizeAgrees(plan, Loaded(c1, fileSize)) {
      AgreeingCompletes(c1, plan, fileSize, w2);
    } else {
      DisagreeingAttempt(c1, plan, fileSize, w2);
      AgreeingCompletes(CacheAfter(c1, plan, fileSize, w2), plan, fileSize, w3);
    }
  }

  // ---------- A process that dies anywhere ----------

  /** The cache after the first `k` operations leaves the size wrong exactly between the Put of the
      parts and that of the size, and between the deletions of the parts and of a size above 0. */
  predicate InSizeWindow(ops: seq<Op>, k: nat, after: Cache)
    requires k <= |ops|
  {
    k > 0 && (ops[k - 1].PutParts? || (ops[k - 1].DeleteParts? && SizeOf(after) != 0))
  }

  /** Cached parts lose their upload between the deletions of the id and of the parts. */
  predicate InIdWindow(ops: seq<Op>, k: nat, after: Cache)
    requires k <= |ops|
  {
    k > 0 && ops[k - 1].DeleteId? && PartsOf(after) != []
  }

  ghost predicate Survives(plan: Plan, c: Cache, ops: seq<Op>, k: nat)
    requires k <= |ops|
  {
    var after := ApplyAll(c, ops[..k]);
    && Sound(plan, after)
    && (SizeAgrees(plan, c) ==> (SizeAgrees(plan, after) <==> !InSizeWindow(ops, k, after)))
    && (Owned(c) ==> (Owned(after) <==> !InIdWindow(ops, k, after)))
  }

  lemma {:induction false} ApplyConcat(c: Cache, a: seq<Op>, b: seq<Op>)
    ensures ApplyAll(c, a + b) == ApplyAll(ApplyAll(c, a), b)
    decreases |b|
  {
    if b == [] {
      assert a + b == a;
    } else {
      assert (a + b)[..|a + b| - 1] == a + b[..|b| - 1];
      ApplyConcat(c, a, b[..|b| - 1]);
    }
  }

  lemma {:induction false} ApplyNext(c: Cache, ops: seq<Op>, op: Op)
    ensures ApplyAll(c, ops + [op]) == Apply(ApplyAll(c, ops), op)
  {
    assert (ops + [op])[..|ops|] == ops;
  }

  lemma {:induction false} ApplyThree(c: Cache, ops: seq<Op>, k: nat)
    requires k <= |ops| == 3
    ensures ApplyAll(c, ops[..k]) ==
      if k == 0 then c
      else if k == 1 then Apply(c, ops[0])
      else if k == 2 then Apply(Apply(c, ops[0]), ops[1])
      else Apply(Apply(Apply(c, ops[0]), ops[1]), ops[2])
    decreases k
  {
    if k > 0 {
      assert ops[..k][..k - 1] == ops[..k - 1];
      ApplyThree(c, ops, k - 1);
    }
  }

  lemma {:induction false} CleanSurvives(plan: Plan, c: Cache, k: nat)
    requires Sound(plan, c) && k <= |CLEAN|
    ensures Survives(plan, c, CLEAN, k) && ApplyAll(c, CLEAN) == EMPTY
  {
    ApplyThree(c, CLEAN, k);
    ApplyThree(c, CLEAN, 3);
    assert CLEAN[..3] == CLEAN;
  }

  lemma {:induction false} NothingSurvives(plan: Plan, c: Cache)
    requires Sound(plan, c)
    ensures Survives(plan, c, [], 0)
  {
    var none: seq<Op> := [];
    assert none[..0] == none;
  }

  /** One part stored: wrong only while the size is not yet that of the parts. */
  lemma {:induction false} StoredSurvives(plan: Plan, c: Cache, id: nat, x: Part, k: nat)
    requires var more := PartsOf(c) + [x]; Sound(plan, c) && Distinct(more) && InPlan(plan, more) && plan.last > 0 && plan.partSize > 0
    requires x.upload == id && (c.id.None? || c.id == Some(id)) && k <= 3
    ensures Survives(plan, c, Stored(id, PartsOf(c) + [x], SizeOf(c) + PartLength(plan, x.number)), k)
  {
    hide Distinct, InPlan, Owned, Sum, ApplyAll;
    var more, total := PartsOf(c) + [x], SizeOf(c) + PartLength(plan, x.number);
    var ops := Stored(id, more, total);
    ApplyThree(c, ops, k);
    SumNext(plan, PartsOf(c), x);
    if k > 0 {
      OwnedNext(c, id, x, ApplyAll(c, ops[..k]));
    }
  }

  lemma {:induction false} OwnedNext(c: Cache, id: nat, x: Part, after: Cache)
    requires x.upload == id && (c.id.None? || c.id == Some(id)) && after.id == Some(id)
    requires PartsOf(after) == PartsOf(c) || PartsOf(after) == PartsOf(c) + [x]
    ensures Owned(c) ==> Owned(after)
  {
  }

  /** Two stretches of operations one after the other. */
  lemma {:induction false} SurvivesThen(plan: Plan, c: Cache, a: seq<Op>, b: seq<Op>, k: nat)
    requires k <= |a + b|
    requires k <= |a| ==> Survives(plan, c, a, k)
    requires k > |a| ==> Survives(plan, ApplyAll(c, a), b, k - |a|) && (SizeAgrees(plan, c) ==> SizeAgrees(plan, ApplyAll(c, a)))
    requires k > |a| ==> Owned(c) ==> Owned(ApplyAll(c, a))
    ensures Survives(plan, c, a + b, k)
  {
    hide Sound, SizeAgrees, Owned;
    if k <= |a| {
      assert (a + b)[..k] == a[..k];
    } else {
      assert (a + b)[..k] == a + b[..k - |a|];
      ApplyConcat(c, a, b[..k - |a|]);
    }
  }

  lemma {:induction false} GatherSurvives(plan: Plan, c: Cache, id: nat, left: nat, arrivals: seq<Arrival>, k: nat)
    requires Sound(plan, c) && Fresh(plan, PartsOf(c), arrivals) && plan.last > 0 && plan.partSize > 0
    requires c.id.None? || c.id == Some(id)
    requires k <= |Gather(plan, id, PartsOf(c), SizeOf(c), left, arrivals).ops|
    ensures Survives(plan, c, Gather(plan, id, PartsOf(c), SizeOf(c), left, arrivals).ops, k)
    decreases left
  {
    hide Survives, Distinct, InPlan, Fresh, Sum, PartLength;
    if left == 0 || arrivals == [] || arrivals[0].Cancelled? {
      NothingSurvives(plan, c);
    } else if arrivals[0].PartFailed? {
      if arrivals[0].stale {
        CleanSurvives(plan, c, k);
      } else {
        NothingSurvives(plan, c);
      }
    } else {
      var x := Part(arrivals[0].number, id);
      var more, total := PartsOf(c) + [x], SizeOf(c) + PartLength(plan, x.number);
      var first := Stored(id, more, total);
      FreshNext(plan, PartsOf(c), arrivals, id);
      var next := Cache(Some(id), Some(more), Some(total));
      StoredWhole(c, id, more, total);
      if k <= 3 {
        StoredSurvives(plan, c, id, x, k);
      } else {
        GatherSurvives(plan, next, id, left - 1, arrivals[1..], k - 3);
        SumNext(plan, PartsOf(c), x);
        OwnedNext(c, id, x, next);
      }
      SurvivesThen(plan, c, first, Gather(plan, id, more, total, left - 1, arrivals[1..]).ops, k);
    }
  }

  lemma {:induction false} StoredWhole(c: Cache, id: nat, parts: seq<Part>, size: nat)
    ensures ApplyAll(c, Stored(id, parts, size)) == Cache(Some(id), Some(parts), Some(size))
  {
    ApplyThree(c, Stored(id, parts, size), 3);
    assert Stored(id, parts, size)[..3] == Stored(id, parts, size);
  }

  /** The last operation of a stretch that ran to its end closes a window. */
  predicate Closed(ops: seq<Op>) {
    ops == [] || ops[|ops| - 1].PutSize? || ops[|ops| - 1].DeleteSize?
  }

  lemma {:induction false} GatherCloses(plan: Plan, id: nat, parts: seq<Part>, size: nat, left: nat, arrivals: seq<Arrival>)
    ensures Closed(Gather(plan, id, parts, size, left, arrivals).ops)
    decreases left
  {
    if left > 0 && arrivals != [] && arrivals[0].PartDone? {
      var p := arrivals[0].number;
      GatherCloses(plan, id, parts + [Part(p, id)], size + PartLength(plan, p), left - 1, arrivals[1..]);
    }
  }

  /** After a closed stretch everything that held before holds again. */
  lemma {:induction false} ClosedKeeps(plan: Plan, c: Cache, ops: seq<Op>)
    requires Survives(plan, c, ops, |ops|) && Closed(ops)
    ensures var after := ApplyAll(c, ops);
      Sound(plan, after) && (SizeAgrees(plan, c) ==> SizeAgrees(plan, after)) && (Owned(c) ==> Owned(after))
  {
    assert ops[..|ops|] == ops;
  }

  lemma {:induction false} FinishSurvives(plan: Plan, c: Cache, id: nat, parts: seq<Part>, reply: Reply, k: nat)
    requires Sound(plan, c) && k <= |Finish(id, parts, reply).ops|
    ensures Survives(plan, c, Finish(id, parts, reply).ops, k) && Closed(Finish(id, parts, reply).ops)
  {
    if Finish(id, parts, reply).ops == CLEAN {
      CleanSurvives(plan, c, k);
    } else {
      NothingSurvives(plan, c);
    }
  }

  lemma {:induction false} TransferSurvives(plan: Plan, c: Cache, id: nat, fileSize: nat, w: World, k: nat)
    requires Sound(plan, c) && Fresh(plan, PartsOf(c), w.arrivals) && plan.last > 0 && plan.partSize > 0
    requires (c.id.None? || c.id == Some(id)) && k <= |Transfer(c, plan, id, fileSize, w).ops|
    ensures Survives(plan, c, Transfer(c, plan, id, fileSize, w).ops, k) && Closed(Transfer(c, plan, id, fileSize, w).ops)
  {
    hide Survives, Sound, SizeAgrees, Owned, Fresh, Gather, Finish;
    var parts, size := PartsOf(c), SizeOf(c);
    if plan.count <= |parts| {
      if plan.count == |parts| && size == fileSize {
        FinishSurvives(plan, c, id, parts, w.reply, k);
      } else {
        CleanSurvives(plan, c, k);
      }
    } else if !w.opens {
      NothingSurvives(plan, c);
    } else {
      var left := plan.count - |parts|;
      var g := Gather(plan, id, parts, size, left, w.arrivals);
      GatherCloses(plan, id, parts, size, left, w.arrivals);
      GatherSurvives(plan, c, id, left, w.arrivals, if k <= |g.ops| then k else |g.ops|);
      if g.ok && g.size == fileSize {
        var f := Finish(id, g.parts, w.reply);
        GatherSurvives(plan, c, id, left, w.arrivals, |g.ops|);
        ClosedKeeps(plan, c, g.ops);
        FinishSurvives(plan, ApplyAll(c, g.ops), id, g.parts, w.reply, if k <= |g.ops| then 0 else k - |g.ops|);
        SurvivesThen(plan, c, g.ops, f.ops, k);
        ClosedThen(g.ops, f.ops);
      }
    }
  }

  lemma {:induction false} ClosedThen(a: seq<Op>, b: seq<Op>)
    requires Closed(a) && Closed(b)
    ensures Closed(a + b)
  {
    if b == [] {
      assert a + b == a;
    }
  }

  /** Whenever the process dies, the cached parts are sound, the cached size is theirs exactly outside
      the two size windows, and they belong to the cached upload exactly outside the third. */
  lemma {:induction false} DiesAnywhere(c: Cache, plan: Plan, fileSize: nat, w: World, k: nat)
    requires IsPlan(plan, fileSize)
    requires Sound(plan, c) && Fresh(plan, PartsOf(Loaded(c, fileSize)), w.arrivals)
    requires k <= |Attempt(c, fileSize, Some(plan), w).ops|
    ensures Survives(plan, c, Attempt(c, fileSize, Some(plan), w).ops, k)
    ensures Closed(Attempt(c, fileSize, Some(plan), w).ops)
  {
    hide Survives, Fresh, Transfer;
    var none: seq<Op> := [];
    assert Closed(none) && Closed(CLEAN);
    hide Closed;
    NothingSurvives(plan, c);
    if fileSize <= MAX_SINGLE_PUT_OBJECT_SIZE {
      var reset, l := Reset(c, fileSize), Loaded(c, fileSize);
      var rest := Proceed(l, fileSize, Some(plan), w).ops;
      ResetLoads(plan, c, fileSize, if k <= |reset| then k else 0);
      NothingSurvives(plan, l);
      var id := if l.id.Some? then l.id else w.newUpload;
      if id.Some? {
        TransferSurvives(plan, l, id.value, fileSize, w, if k <= |reset| then 0 else k - |reset|);
      }
      SurvivesThen(plan, c, reset, rest, k);
      ClosedThen(reset, rest);
    }
  }

  lemma {:induction false} ResetLoads(plan: Plan, c: Cache, fileSize: nat, k: nat)
    requires Sound(plan, c) && k <= |Reset(c, fileSize)|
    ensures Survives(plan, c, Reset(c, fileSize), k) && ApplyAll(c, Reset(c, fileSize)) == Loaded(c, fileSize)
    ensures Sound(plan, Loaded(c, fileSize)) && (SizeAgrees(plan, c) ==> SizeAgrees(plan, Loaded(c, fileSize)))
    ensures (Owned(c) ==> Owned(Loaded(c, fileSize)))
  {
    if SizeOf(c) > fileSize {
      CleanSurvives(plan, c, k);
    } else {
      NothingSurvives(plan, c);
    }
  }

  /** A completed upload leaves an empty cache. */
  lemma {:induction false} CompletedCleans(c: Cache, plan: Plan, fileSize: nat, w: World)
    ensures var t := Attempt(c, fileSize, Some(plan), w); t.outcome.completed.Some? ==> ApplyAll(c, t.ops) == EMPTY
  {
    hide Gather, Sort, ApplyAll;
    var t := Attempt(c, fileSize, Some(plan), w);
    if t.outcome.completed.Some? {
      var before := t.ops[..|t.ops| - 3];
      assert t.ops == before + CLEAN;
      ApplyConcat(c, before, CLEAN);
      CleanEmpties(ApplyAll(c, before));
    }
  }

  lemma {:induction false} CleanEmpties(c: Cache)
    ensures ApplyAll(c, CLEAN) == EMPTY
  {
    ApplyThree(c, CLEAN, 3);
    assert CLEAN[..3] == CLEAN;
  }

  /** No error among the arrivals says that the upload no longer exists. */
  predicate NothingStale(arrivals: seq<Arrival>) {
    forall i :: 0 <= i < |arrivals| ==> arrivals[i] != PartFailed(true)
  }

  /** The loop stores every part it takes, also when it ends early: the next attempt resumes there. */
  lemma {:induction false} UploadedRemembered(plan: Plan, c: Cache, id: nat, left: nat, arrivals: seq<Arrival>)
    requires NothingStale(arrivals)
    ensures var g := Gather(plan, id, PartsOf(c), SizeOf(c), left, arrivals);
      var after := ApplyAll(c, g.ops);
      PartsOf(after) == g.parts && SizeOf(after) == g.size && PartsOf(c) <= g.parts
    decreases left
  {
    if left > 0 && arrivals != [] && arrivals[0].PartDone? {
      var x := Part(arrivals[0].number, id);
      var more, total := PartsOf(c) + [x], SizeOf(c) + PartLength(plan, x.number);
      var next := Cache(Some(id), Some(more), Some(total));
      var g, rest := Gather(plan, id, PartsOf(c), SizeOf(c), left, arrivals), Gather(plan, id, more, total, left - 1, arrivals[1..]);
      assert g.parts == rest.parts && g.size == rest.size && g.ops == Stored(id, more, total) + rest.ops;
      hide Gather, Stored, ApplyAll, NothingStale, PartLength;
      StoredWhole(c, id, more, total);
      StillNothingStale(arrivals);
      UploadedRemembered(plan, next, id, left - 1, arrivals[1..]);
      ApplyConcat(c, Stored(id, more, total), rest.ops);
      PrefixNext(PartsOf(c), x, g.parts);
    }
  }

  lemma {:induction false} PrefixNext(a: seq<Part>, x: Part, b: seq<Part>)
    requires a + [x] <= b
    ensures a <= b
  {
    assert b[..|a| + 1][..|a|] == b[..|a|];
  }

  lemma {:induction false} StillNothingStale(arrivals: seq<Arrival>)
    requires NothingStale(arrivals) && arrivals != []
    ensures NothingStale(arrivals[1..])
  {
  }

  // ---------- Many attempts ----------

  /** An attempt and, when the process died during it, the number of operations it got to. */
  datatype Life = Life(world: World, died: Option<nat>)

  function Reached(ops: seq<Op>, died: Option<nat>): (k: nat)
    ensures k <= |ops|
  {
    if died.Some? && died.value <= |ops| then died.value else |ops|
  }

  function LiveOnce(c: Cache, fileSize: nat, plan: Plan, life: Life): Cache {
    var ops := Attempt(c, fileSize, Some(plan), life.world).ops;
    ApplyAll(c, ops[..Reached(ops, life.died)])
  }

  function Live(c: Cache, fileSize: nat, plan: Plan, lives: seq<Life>): Cache
    decreases |lives|
  {
    if lives == [] then c else Live(LiveOnce(c, fileSize, plan, lives[0]), fileSize, plan, lives[1..])
  }

  predicate Possible(c: Cache, fileSize: nat, plan: Plan, lives: seq<Life>)
    decreases |lives|
  {
    lives == [] ||
    (Fresh(plan, PartsOf(Loaded(c, fileSize)), lives[0].world.arrivals) &&
     Possible(LiveOnce(c, fileSize, plan, lives[0]), fileSize, plan, lives[1..]))
  }

  predicate AvoidsSizeWindows(c: Cache, fileSize: nat, plan: Plan, lives: seq<Life>)
    decreases |lives|
  {
    if lives == [] then true
    else
      var ops := Attempt(c, fileSize, Some(plan), lives[0].world).ops;
      var after := LiveOnce(c, fileSize, plan, lives[0]);
      !InSizeWindow(ops, Reached(ops, lives[0].died), after) && AvoidsSizeWindows(after, fileSize, plan, lives[1..])
  }

  predicate AvoidsIdWindow(c: Cache, fileSize: nat, plan: Plan, lives: seq<Life>)
    decreases |lives|
  {
    if lives == [] then true
    else
      var ops := Attempt(c, fileSize, Some(plan), lives[0].world).ops;
      var after := LiveOnce(c, fileSize, plan, lives[0]);
      !InIdWindow(ops, Reached(ops, lives[0].died), after) && AvoidsIdWindow(after, fileSize, plan, lives[1..])
  }

  lemma {:induction false} LivesKeep(c: Cache, plan: Plan, fileSize: nat, lives: seq<Life>)
    requires IsPlan(plan, fileSize)
    requires Sound(plan, c) && Possible(c, fileSize, plan, lives)
    ensures Sound(plan, Live(c, fileSize, plan, lives))
    ensures SizeAgrees(plan, c) && AvoidsSizeWindows(c, fileSize, plan, lives) ==> SizeAgrees(plan, Live(c, fileSize, plan, lives))
    ensures Owned(c) && AvoidsIdWindow(c, fileSize, plan, lives) ==> Owned(Live(c, fileSize, plan, lives))
    decreases |lives|
  {
    hide Attempt, Fresh, Sound, SizeAgrees, Owned, InSizeWindow, InIdWindow;
    if lives != [] {
      var ops := Attempt(c, fileSize, Some(plan), lives[0].world).ops;
      DiesAnywhere(c, plan, fileSize, lives[0].world, Reached(ops, lives[0].died));
      LivesKeep(LiveOnce(c, fileSize, plan, lives[0]), plan, fileSize, lives[1..]);
    }
  }

  /** After any number of attempts on one file, dying anywhere but in a size window, a nil result means
      that this call completed the upload with exactly the parts 1 to N in ascending order. */
  lemma {:induction false} ResumeIsSafe(plan: Plan, fileSize: nat, lives: seq<Life>, w: World)
    requires IsPlan(plan, fileSize)
    requires Possible(EMPTY, fileSize, plan, lives) && AvoidsSizeWindows(EMPTY, fileSize, plan, lives)
    requires Fresh(plan, PartsOf(Loaded(Live(EMPTY, fileSize, plan, lives), fileSize)), w.arrivals)
    ensures var t := Attempt(Live(EMPTY, fileSize, plan, lives), fileSize, Some(plan), w).outcome;
      !t.error ==> t.completed.Some? && OneTo(t.completed.value.parts, plan.count)
  {
    hide Live, Attempt, Fresh, Possible, AvoidsSizeWindows, OneTo;
    var c := Live(EMPTY, fileSize, plan, lives);
    assert Sound(plan, EMPTY) && SizeAgrees(plan, EMPTY);
    LivesKeep(EMPTY, plan, fileSize, lives);
    LoadedAgrees(plan, c, fileSize);
    NilCompletes(c, plan, fileSize, w);
  }

  lemma {:induction false} LoadedAgrees(plan: Plan, c: Cache, fileSize: nat)
    requires SizeAgrees(plan, c)
    ensures SizeAgrees(plan, Loaded(c, fileSize))
  {
    assert PartsOf(EMPTY) == [];
  }

  /** And if it never died in the id window, they were all put under the one upload that is completed. */
  lemma {:induction false} ResumeKeepsUpload(plan: Plan, fileSize: nat, lives: seq<Life>, w: World)
    requires IsPlan(plan, fileSize)
    requires Possible(EMPTY, fileSize, plan, lives) && AvoidsIdWindow(EMPTY, fileSize, plan, lives)
    requires Fresh(plan, PartsOf(Loaded(Live(EMPTY, fileSize, plan, lives), fileSize)), w.arrivals)
    ensures var t := Attempt(Live(EMPTY, fileSize, plan, lives), fileSize, Some(plan), w).outcome;
      t.completed.Some? ==> AllUnder(t.completed.value.parts, t.completed.value.id)
  {
    hide Live, Attempt, Fresh, Possible, AvoidsIdWindow, AllUnder;
    assert Sound(plan, EMPTY) && Owned(EMPTY);
    var c := Live(EMPTY, fileSize, plan, lives);
    LivesKeep(EMPTY, plan, fileSize, lives);
    OwnedLoads(c, fileSize, w);
    CompletedTogether(c, plan, fileSize, w);
  }

  lemma {:induction false} OwnedLoads(c: Cache, fileSize: nat, w: World)
    requires Owned(c)
    ensures Owned(Loaded(c, fileSize)) && NewId(Loaded(c, fileSize), w)
  {
    var l := Loaded(c, fileSize);
    assert PartsOf(EMPTY) == [];
    assert Owned(l) && PartsOf(l) != [] ==> l.id == Some(PartsOf(l)[0].upload);
  }

  // ---------- The windows lose files ----------

  /** Any file of two or more parts: the process dies after the Put of the first part and before that of
      its size, and the next call uploads the rest and returns nil with nothing completed. */
  lemma {:induction false} PutWindowLosesFile(plan: Plan, fileSize: nat)
    requires IsPlan(plan, fileSize) && plan.count >= 2 && fileSize <= MAX_SINGLE_PUT_OBJECT_SIZE
    ensures exists life: Life, w: World ::
      && Possible(EMPTY, fileSize, plan, [life])
      && Fresh(plan, PartsOf(LiveOnce(EMPTY, fileSize, plan, life)), w.arrivals)
      && Attempt(LiveOnce(EMPTY, fileSize, plan, life), fileSize, Some(plan), w).outcome == Outcome(false, None)
  {
    var w1 := World(Some(7), true, [PartDone(1)], Accepted);
    var life := Life(w1, Some(2));
    FirstPartOnly(plan, fileSize, w1);
    var w2 := World(Some(8), true, seq(plan.count - 1, i requires 0 <= i => PartDone(i + 2)), Accepted);
    hide Attempt;
    OneLife(plan, fileSize, life);
    TheRestArrives(plan, fileSize, w2);
  }

  lemma {:induction false} OneLife(plan: Plan, fileSize: nat, life: Life)
    requires Fresh(plan, [], life.world.arrivals)
    ensures Possible(EMPTY, fileSize, plan, [life])
  {
    hide LiveOnce, Fresh;
    assert [life][1..] == [];
  }

  lemma {:induction false} TheRestArrives(plan: Plan, fileSize: nat, w: World)
    requires IsPlan(plan, fileSize) && plan.count >= 2 && fileSize <= MAX_SINGLE_PUT_OBJECT_SIZE
    requires w == World(Some(8), true, seq(plan.count - 1, i requires 0 <= i => PartDone(i + 2)), Accepted)
    ensures var c := Cache(Some(7), Some([Part(1, 7)]), None);
      Fresh(plan, PartsOf(c), w.arrivals) && Attempt(c, fileSize, Some(plan), w).outcome == Outcome(false, None)
  {
    hide Attempt;
    var c := Cache(Some(7), Some([Part(1, 7)]), None);
    assert Sum(plan, [Part(1, 7)]) > 0 by {
      assert [Part(1, 7)][..0] == [];
    }
    hide Sum;
    SilentlyDropped(c, plan, fileSize, w);
  }

  lemma {:induction false} FirstPartOnly(plan: Plan, fileSize: nat, w: World)
    requires IsPlan(plan, fileSize) && plan.count >= 2 && fileSize <= MAX_SINGLE_PUT_OBJECT_SIZE
    requires w == World(Some(7), true, [PartDone(1)], Accepted)
    ensures LiveOnce(EMPTY, fileSize, plan, Life(w, Some(2))) == Cache(Some(7), Some([Part(1, 7)]), None)
    ensures Fresh(plan, [], w.arrivals)
  {
    hide Gather, Finish;
    var ops := Stored(7, [Part(1, 7)], PartLength(plan, 1));
    GatherOne(plan, w.arrivals);
    assert Transfer(EMPTY, plan, 7, fileSize, w).ops == ops;
    hide Transfer;
    assert [] + ops == ops;
    assert Attempt(EMPTY, fileSize, Some(plan), w).ops == ops;
    hide Attempt;
    ApplyThree(EMPTY, ops, 2);
  }

  lemma {:induction false} GatherOne(plan: Plan, arrivals: seq<Arrival>)
    requires plan.count >= 2 && arrivals == [PartDone(1)]
    ensures var g := Gather(plan, 7, [], 0, plan.count, arrivals);
      !g.ok && g.ops == Stored(7, [Part(1, 7)], PartLength(plan, 1))
  {
    var ops := Stored(7, [Part(1, 7)], PartLength(plan, 1));
    var none: seq<Part> := [];
    assert none + [Part(1, 7)] == [Part(1, 7)];
    assert arrivals[1..] == [];
    assert ops + [] == ops;
  }

  /** The cleanup has a window too: it leaves a size without parts, and the next call that uploads the
      whole file returns nil with nothing completed. */
  lemma {:induction false} CleanWindowLosesFile(c: Cache, plan: Plan, fileSize: nat, w: World)
    requires IsPlan(plan, fileSize) && fileSize <= MAX_SINGLE_PUT_OBJECT_SIZE
    requires 0 < SizeOf(c) <= fileSize
    requires AllArrive(plan, [], w) && Fresh(plan, [], w.arrivals)
    ensures Attempt(ApplyAll(c, CLEAN[..2]), fileSize, Some(plan), w).outcome == Outcome(false, None)
  {
    ApplyThree(c, CLEAN, 2);
    SilentlyDropped(Cache(None, None, c.size), plan, fileSize, w);
  }

  /** After a death in the id window the parts outlive their upload: the next call uploads the missing
      ones under a new upload and completes that one with parts of the old. */
  lemma {:induction false} IdWindowMixesUploads(c: Cache, plan: Plan, fileSize: nat, w: World)
    requires IsPlan(plan, fileSize) && fileSize <= MAX_SINGLE_PUT_OBJECT_SIZE
    requires Sound(plan, c) && SizeAgrees(plan, c) && SizeOf(c) <= fileSize && 0 < |PartsOf(c)| <= plan.count
    requires AllArrive(plan, PartsOf(c), w) && Fresh(plan, PartsOf(c), w.arrivals) && w.reply.Accepted?
    requires NewId(c.(id := None), w)
    ensures var t := Attempt(ApplyAll(c, CLEAN[..1]), fileSize, Some(plan), w).outcome;
      && !t.error && t.completed.Some? && Some(t.completed.value.id) == w.newUpload
      && !AllUnder(t.completed.value.parts, t.completed.value.id)
  {
    hide Gather, Sort, Fresh, IsPlan, Sum, AllUnder, Distinct, InPlan;
    ApplyThree(c, CLEAN, 1);
    var orphaned := c.(id := None);
    var parts := PartsOf(c);
    assert !Owned(orphaned) by {
      assert orphaned.id != Some(PartsOf(orphaned)[0].upload);
    }
    if |parts| < plan.count {
      GatherOk(plan, w.newUpload.value, parts, SizeOf(c), plan.count - |parts|, w.arrivals);
    } else {
      AllPartsSum(plan, fileSize, parts);
    }
    NilCompletes(orphaned, plan, fileSize, w);
    CompletedTogether(orphaned, plan, fileSize, w);
  }

  // ---------- The manager as it runs ----------

  class Manager {
    var idKey: Option<nat>
    var partsKey: Option<seq<Part>>
    var sizeKey: Option<nat>
    ghost const stored: Cache          // when the manager was made
    ghost var performed: seq<Op>       // on the three keys since, in order

    /** The keys hold what the operations made of them. */
    ghost predicate Valid()
      reads this
    {
      Keys() == ApplyAll(stored, performed)
    }

    function Keys(): Cache
      reads this
    {
      Cache(idKey, partsKey, sizeKey)
    }

    constructor (stored: Cache)
      ensures Valid() && Keys() == stored && performed == []
    {
      idKey, partsKey, sizeKey, performed := stored.id, stored.parts, stored.size, [];
      this.stored := stored;
    }

    /** The next operation. */
    method Perform(op: Op)
      requires Valid()
      modifies this
      ensures Valid() && Keys() == Apply(old(Keys()), op) && performed == old(performed) + [op]
    {
      hide ApplyAll;
      ApplyNext(stored, performed, op);
      ghost var before := Keys();
      performed := performed + [op];
      match op {
        case PutId(id) => idKey := Some(id);
        case PutParts(parts) => partsKey := Some(parts);
        case PutSize(size) => sizeKey := Some(size);
        case DeleteId => idKey := None;
        case DeleteParts => partsKey := None;
        case DeleteSize => sizeKey := None;
      }
      assert Keys() == Apply(before, op);
    }

    method CleanUploadCache()
      requires Valid()
      modifies this
      ensures Valid()
      ensures Keys() == EMPTY && performed == old(performed) + CLEAN
    {
      Perform(DeleteId);
      Perform(DeleteParts);
      Perform(DeleteSize);
    }

    method Store(id: nat, parts: seq<Part>, size: nat)
      requires Valid()
      modifies this
      ensures Valid()
      ensures Keys() == Cache(Some(id), Some(parts), Some(size))
      ensures performed == old(performed) + Stored(id, parts, size)
    {
      Perform(PutId(id));
      Perform(PutParts(parts));
      Perform(PutSize(size));
    }

    /** The gather loop. */
    method GatherParts(plan: Plan, id: nat, parts0: seq<Part>, size0: nat, arrivals: seq<Arrival>)
      returns (parts: seq<Part>, size: nat, ok: bool)
      requires |parts0| < plan.count
      requires Valid()
      modifies this
      ensures Valid()
      ensures var g := Gather(plan, id, parts0, size0, plan.count - |parts0|, arrivals);
        parts == g.parts && size == g.size && ok == g.ok && performed == old(performed) + g.ops
    {
      hide PartLength, ApplyAll, Stored, Keys;
      parts, size := parts0, size0;
      var numToUpload := plan.count - |parts0|;
      ghost var g := Gather(plan, id, parts0, size0, numToUpload, arrivals);
      var completed := 0;
      while completed < numToUpload
        invariant Valid() && completed <= numToUpload && completed <= |arrivals|
        invariant var rest := Gather(plan, id, parts, size, numToUpload - completed, arrivals[completed..]);
          rest.parts == g.parts && rest.size == g.size && rest.ok == g.ok && performed + rest.ops == old(performed) + g.ops
      {
        if completed == |arrivals| {
          return parts, size, false;
        }
        var arrival := arrivals[completed];
        assert arrivals[completed..][0] == arrival && arrivals[completed..][1..] == arrivals[completed + 1..];
        completed := completed + 1;
        if arrival.Cancelled? {
          return parts, size, false;
        }
        if arrival.PartFailed? {
          if arrival.stale {
            CleanUploadCache();
          }
          return parts, size, false;
        }
        size := size + PartLength(plan, arrival.number);
        parts := parts + [Part(arrival.number, id)];
        ghost var before := performed;
        ghost var rest := Gather(plan, id, parts, size, numToUpload - completed, arrivals[completed..]);
        Store(id, parts, size);
        assert performed + rest.ops == before + (Stored(id, parts, size) + rest.ops);
      }
      ok := true;
    }

    method Complete(id: nat, parts: seq<Part>, reply: Reply) returns (o: Outcome)
      requires Valid()
      modifies this
      ensures Valid()
      ensures o == Finish(id, parts, reply).outcome && performed == old(performed) + Finish(id, parts, reply).ops
    {
      if reply.Accepted? {
        o := Outcome(false, Some(Completed(id, Sort(parts))));
        CleanUploadCache();
      } else {
        if reply.stale {
          CleanUploadCache();
        }
        o := FAILED;
      }
    }

    method FMultipartPutObject(fileSize: nat, partSize: nat, w: World) returns (o: Outcome)
      requires Valid()
      modifies this
      ensures Valid()
      ensures var t := Attempt(old(Keys()), fileSize, PlanFor(fileSize, partSize), w);
        && o == t.outcome && performed == old(performed) + t.ops
        && Keys() == ApplyAll(old(Keys()), t.ops)
    {
      hide Gather, Finish, PlanFor;
      ghost var t := Attempt(Keys(), fileSize, PlanFor(fileSize, partSize), w);
      ApplyConcat(stored, performed, t.ops);
      if fileSize > MAX_SINGLE_PUT_OBJECT_SIZE {
        return FAILED;
      }
      var uploadedSize := if sizeKey.Some? then sizeKey.value else 0;
      if uploadedSize > fileSize {
        uploadedSize := 0;
        CleanUploadCache();
      }
      ghost var reset := performed;
      assert Keys() == Loaded(old(Keys()), fileSize) && uploadedSize == SizeOf(Keys());
      ghost var rest := Proceed(Keys(), fileSize, PlanFor(fileSize, partSize), w);
      assert t.ops == Reset(old(Keys()), fileSize) + rest.ops && t.outcome == rest.outcome;
      assert reset + rest.ops == old(performed) + t.ops;
      var uploadId := if idKey.Some? then idKey else w.newUpload;
      if uploadId.None? {
        return FAILED;
      }
      var parts := if partsKey.Some? then partsKey.value else [];
      var plan := PlanFor(fileSize, partSize);
      if plan.None? {
        return FAILED;
      }
      o := Upload(plan.value, uploadId.value, parts, uploadedSize, fileSize, w);
    }

    /** From the count of the parts to upload on. */
    method Upload(plan: Plan, id: nat, parts0: seq<Part>, size0: nat, fileSize: nat, w: World) returns (o: Outcome)
      requires parts0 == PartsOf(Keys()) && size0 == SizeOf(Keys())
      requires Valid()
      modifies this
      ensures Valid()
      ensures var t := Transfer(old(Keys()), plan, id, fileSize, w);
        o == t.outcome && performed == old(performed) + t.ops
    {
      hide Gather, Finish;
      if plan.count <= |parts0| {
        if plan.count == |parts0| && size0 == fileSize {
          o := Complete(id, parts0, w.reply);
          return;
        }
        CleanUploadCache();
        return FAILED;
      }
      if !w.opens {
        return FAILED;
      }
      var parts, uploadedSize, ok := GatherParts(plan, id, parts0, size0, w.arrivals);
      if !ok {
        return FAILED;
      }
      if uploadedSize != fileSize {
        return Outcome(false, None);
      }
      o := Complete(id, parts, w.reply);
    }

    /** `put` is the result of a single PutObject. */
    method FPutObject(fileSize: nat, cleanCache: bool, w: World, put: bool) returns (o: Outcome)
      requires Valid()
      modifies this
      ensures Valid()
      ensures var c := if cleanCache then EMPTY else old(Keys());
        if fileSize > MIN_PART_SIZE then
          var t := Attempt(c, fileSize, PlanFor(fileSize, ChosenPartSize(fileSize)), w);
          o == t.outcome && Keys() == ApplyAll(c, t.ops)
        else o == Outcome(!put, None) && Keys() == c
    {
      if cleanCache {
        CleanUploadCache();
      }
      if fileSize > MIN_PART_SIZE {
        o := FMultipartPutObject(fileSize, ChosenPartSize(fileSize), w);
      } else {
        o := Outcome(!put, None);
      }
    }
  }
}
