/** The reorder buffer and the iterator of internal/log_reader.

    A stamped log is a value; `offset`, the position of its line in the file, stands for the pointer
    that the queue and the heap share. `ConsumeLog`, `Dump` and `Records` specify OrderedQueue.Consume,
    OrderedQueue.DumpRemaining and whole runs of LogIterator.Next; the classes at the end run them
    on their own fields. Times are integers, and a line comes with the stamp its format finds. */
module LogReader {
  import opened Wrappers
  import opened LogHeap

  /** One line of the file and the timestamp parsed from it. */
  datatype Line = Line(stamp: Option<int>, text: string)

  datatype Log = Log(stamp: Option<int>, line: string, offset: nat, length: nat)

  datatype Queue = Queue(size: nat, logs: seq<Log>, heap: seq<Item>)

  function Parse(line: Line, offset: nat): Log {
    Log(line.stamp, line.text, offset, |line.text|)
  }

  function NewQueue(bufferSize: nat): Queue {
    Queue(bufferSize + 1, [], [])
  }

  // ---------- The buffer ----------

  function ItemOf(log: Log): Item
    requires log.stamp.Some?
  {
    Item(log.stamp.value, log.offset)
  }

  /** The heap index of the log at `offset`; 0 when there is none. */
  function Position(heap: seq<Item>, offset: nat): (r: nat)
    ensures r == 0 || r < |heap|
    ensures (r < |heap| && heap[r].id == offset) || forall k :: 0 <= k < |heap| ==> heap[k].id != offset
    ensures forall k :: 0 <= k < r ==> heap[k].id != offset
  {
    PositionFrom(heap, offset, 0)
  }

  function PositionFrom(heap: seq<Item>, offset: nat, from: nat): (r: nat)
    requires from <= |heap|
    ensures r == 0 || from <= r < |heap|
    ensures (r < |heap| && from <= r && heap[r].id == offset) || forall k :: from <= k < |heap| ==> heap[k].id != offset
    ensures forall k :: from <= k < r ==> heap[k].id != offset
    decreases |heap| - from
  {
    if from == |heap| then 0 else if heap[from].id == offset then from else PositionFrom(heap, offset, from + 1)
  }

  /** Drop the log at `offset` from the heap if it is there. */
  function Drop(heap: seq<Item>, offset: nat): seq<Item> {
    var pos := Position(heap, offset);
    if pos < |heap| && heap[pos].id == offset then HeapRemove(heap, pos) else heap
  }

  /** The merge loop: while the oldest log is before `sl`, its text goes to `sl`. */
  function Merge(q: Queue, sl: Log): (Queue, Log)
    requires sl.stamp.Some? && Stamped(q.logs)
    decreases |q.logs|
  {
    if q.logs == [] || q.logs[0].stamp.value >= sl.stamp.value then (q, sl)
    else Merge(q.(logs := q.logs[1..], heap := Drop(q.heap, q.logs[0].offset)), sl.(line := sl.line + q.logs[0].line))
  }

  /** Take out the oldest log. Away from the first two heap places it loses its stamp, otherwise it
      merges with the logs that follow it and are before it. */
  function Release(q: Queue): (Queue, Log)
    requires |q.logs| > 0 && |q.heap| > 0 && Stamped(q.logs)
  {
    var sl := q.logs[0];
    var pos := Position(q.heap, sl.offset);
    var rest := q.(logs := q.logs[1..], heap := HeapRemove(q.heap, pos));
    if pos > 1 then (rest, Log(None, sl.line, 0, 0)) else Merge(rest, sl)
  }

  predicate Stamped(logs: seq<Log>) {
    forall i :: 0 <= i < |logs| ==> logs[i].stamp.Some?
  }

  function ConsumeLog(q: Queue, log: Log): (Queue, Option<Log>)
    requires Stamped(q.logs)
  {
    match log.stamp
    case None =>
      if q.logs == [] then (q, None)
      else
        var last := q.logs[|q.logs| - 1];
        (q.(logs := q.logs[|q.logs| - 1 := last.(line := last.line + "\n" + log.line)]), None)
    case Some(_) =>
      var full := Enter(q, log);
      if |full.logs| == full.size && |full.heap| > 0 then
        var (rest, sl) := Release(full);
        (rest, Some(sl))
      else (full, None)
  }

  function Dump(q: Queue): seq<Log>
    requires Agrees(q)
    decreases |q.logs|
  {
    if q.logs == [] then []
    else
      ReleaseAgrees(q);
      var (rest, sl) := Release(q);
      [sl] + Dump(rest)
  }

  /** Queue and heap hold the same logs, in heap order, and no two logs share an offset. */
  ghost predicate Agrees(q: Queue) {
    && Stamped(q.logs)
    && Distinct(q.logs)
    && IsHeap(q.heap, |q.heap|)
    && multiset(q.heap) == multiset(Items(q.logs))
  }

  predicate Distinct(logs: seq<Log>) {
    forall i, j :: 0 <= i < j < |logs| ==> logs[i].offset != logs[j].offset
  }

  function Items(logs: seq<Log>): (r: seq<Item>)
    requires Stamped(logs)
    ensures |r| == |logs| && forall i :: 0 <= i < |logs| ==> r[i] == ItemOf(logs[i])
  {
    if logs == [] then [] else [ItemOf(logs[0])] + Items(logs[1..])
  }

  lemma {:induction false} SameItems(a: seq<Item>, b: seq<Item>)
    requires multiset(a) == multiset(b)
    ensures |a| == |b|
    ensures forall x :: x in a ==> x in b
  {
    assert |multiset(a)| == |a| && |multiset(b)| == |b|;
    forall x | x in a
      ensures x in b
    {
      assert x in multiset(a);
    }
  }

  /** An item of a queued log, and no other item, carries the log's offset. */
  lemma {:induction false} ItemUnique(logs: seq<Log>, i: nat, x: Item)
    requires Stamped(logs) && Distinct(logs) && i < |logs| && x in Items(logs) && x.id == logs[i].offset
    ensures x == ItemOf(logs[i])
  {
    var j :| 0 <= j < |logs| && Items(logs)[j] == x;
  }

  /** Every queued log is found in the heap, under its own item. */
  lemma {:induction false} Found(q: Queue, i: nat)
    requires Agrees(q) && i < |q.logs|
    ensures |q.heap| == |q.logs|
    ensures Position(q.heap, q.logs[i].offset) < |q.heap|
    ensures q.heap[Position(q.heap, q.logs[i].offset)] == ItemOf(q.logs[i])
  {
    SameItems(q.heap, Items(q.logs));
    SameItems(Items(q.logs), q.heap);
    assert Items(q.logs)[i] in q.heap;
    var k :| 0 <= k < |q.heap| && q.heap[k] == ItemOf(q.logs[i]);
    var pos := Position(q.heap, q.logs[i].offset);
    assert q.heap[k].id == q.logs[i].offset;
    ItemUnique(q.logs, i, q.heap[pos]);
  }

  /** Taking the oldest log out of both keeps them in agreement. */
  lemma {:induction false} TakeAgrees(q: Queue)
    requires Agrees(q) && |q.logs| > 0
    ensures var pos := Position(q.heap, q.logs[0].offset);
      && pos < |q.heap| == |q.logs| && q.heap[pos] == ItemOf(q.logs[0])
      && Agrees(q.(logs := q.logs[1..], heap := HeapRemove(q.heap, pos)))
  {
    Found(q, 0);
    var pos := Position(q.heap, q.logs[0].offset);
    RemoveHeap(q.heap, pos);
    assert Items(q.logs) == [ItemOf(q.logs[0])] + Items(q.logs[1..]);
  }

  lemma {:induction false} MergeAgrees(q: Queue, sl: Log)
    requires Agrees(q) && sl.stamp.Some?
    ensures Agrees(Merge(q, sl).0) && |Merge(q, sl).0.logs| <= |q.logs| && Merge(q, sl).0.size == q.size
    ensures Merge(q, sl).1.stamp == sl.stamp && Merge(q, sl).1.offset == sl.offset
    ensures exists n :: 0 <= n <= |q.logs| && Merge(q, sl).0.logs == q.logs[n..]
    decreases |q.logs|
  {
    if q.logs == [] || q.logs[0].stamp.value >= sl.stamp.value {
      assert q.logs[0..] == q.logs;
    } else {
      TakeAgrees(q);
      var rest := q.(logs := q.logs[1..], heap := Drop(q.heap, q.logs[0].offset));
      var next := sl.(line := sl.line + q.logs[0].line);
      MergeAgrees(rest, next);
      var n :| 0 <= n <= |rest.logs| && Merge(rest, next).0.logs == rest.logs[n..];
      assert q.logs[n + 1..] == rest.logs[n..];
    }
  }

  lemma {:induction false} ReleaseAgrees(q: Queue)
    requires Agrees(q) && |q.logs| > 0
    ensures |q.heap| > 0 && Agrees(Release(q).0) && |Release(q).0.logs| < |q.logs| && Release(q).0.size == q.size
    ensures exists n :: 1 <= n <= |q.logs| && Release(q).0.logs == q.logs[n..]
  {
    TakeAgrees(q);
    var pos := Position(q.heap, q.logs[0].offset);
    var rest := q.(logs := q.logs[1..], heap := HeapRemove(q.heap, pos));
    if pos <= 1 {
      MergeAgrees(rest, q.logs[0]);
      var n :| 0 <= n <= |rest.logs| && Merge(rest, q.logs[0]).0.logs == rest.logs[n..];
      assert q.logs[n + 1..] == rest.logs[n..];
    }
  }

  /** The buffer between two calls: in agreement and not full, with offsets below `offset`. */
  ghost predicate Ready(q: Queue, offset: nat) {
    Agrees(q) && |q.logs| < q.size && forall i :: 0 <= i < |q.logs| ==> q.logs[i].offset < offset
  }

  /** Append to the queue and heap.Push. */
  function Enter(q: Queue, log: Log): Queue
    requires log.stamp.Some?
  {
    q.(logs := q.logs + [log], heap := HeapPush(q.heap, ItemOf(log)))
  }

  lemma {:induction false} EnterAgrees(q: Queue, log: Log)
    requires Ready(q, log.offset) && log.stamp.Some?
    ensures Agrees(Enter(q, log)) && |Enter(q, log).heap| == |q.logs| + 1
  {
    hide HeapPush, IsHeap;
    var full := Enter(q, log);
    PushHeap(q.heap, ItemOf(log));
    assert full.logs[..|q.logs|] == q.logs;
    ItemsAppend(q.logs, log);
    Found(full, |q.logs|);
  }

  lemma {:induction false} ItemsAppend(logs: seq<Log>, log: Log)
    requires Stamped(logs) && log.stamp.Some?
    ensures Items(logs + [log]) == Items(logs) + [ItemOf(log)]
  {
    if logs != [] {
      assert (logs + [log])[1..] == logs[1..] + [log];
      ItemsAppend(logs[1..], log);
    }
  }

  /** A longer line at the end changes neither stamps nor offsets. */
  lemma {:induction false} SameKeys(a: seq<Log>, b: seq<Log>)
    requires |a| == |b| && Stamped(a)
    requires forall i :: 0 <= i < |a| ==> a[i].stamp == b[i].stamp && a[i].offset == b[i].offset
    ensures Stamped(b) && Items(a) == Items(b) && (Distinct(a) ==> Distinct(b))
  {
  }

  lemma {:induction false} ContinueReady(q: Queue, log: Log, after: nat)
    requires Ready(q, log.offset) && log.offset < after && log.stamp.None?
    ensures Ready(ConsumeLog(q, log).0, after)
  {
    if q.logs != [] {
      SameKeys(q.logs, ConsumeLog(q, log).0.logs);
    }
  }

  lemma {:induction false} ReleaseReady(full: Queue, after: nat)
    requires Agrees(full) && |full.logs| == full.size > 0
    requires forall i :: 0 <= i < |full.logs| ==> full.logs[i].offset < after
    ensures |full.heap| > 0 && Ready(Release(full).0, after) && Release(full).0.size == full.size
  {
    ReleaseAgrees(full);
    var n :| 1 <= n <= |full.logs| && Release(full).0.logs == full.logs[n..];
  }

  /** After every Consume, for any stamps whatever, at most `bufferSize` logs remain and the heap
      holds exactly the queued ones in heap order. */
  lemma {:induction false} ConsumeReady(q: Queue, log: Log, after: nat)
    requires Ready(q, log.offset) && log.offset < after
    ensures Ready(ConsumeLog(q, log).0, after) && ConsumeLog(q, log).0.size == q.size
    ensures ConsumeLog(q, log).1.Some? ==> |q.logs| + 1 == q.size
  {
    if log.stamp.None? {
      ContinueReady(q, log, after);
    } else {
      EnterAgrees(q, log);
      if |q.logs| + 1 == q.size {
        ReleaseReady(Enter(q, log), after);
      }
    }
  }

  // ---------- No text is lost, doubled or moved ----------

  function Text(logs: seq<Log>): string {
    if logs == [] then "" else logs[0].line + Text(logs[1..])
  }

  function OutText(out: Option<Log>): string {
    if out.Some? then out.value.line else ""
  }

  lemma {:induction false} TextConcat(a: seq<Log>, b: seq<Log>)
    ensures Text(a + b) == Text(a) + Text(b)
  {
    if a == [] {
      assert a + b == b;
    } else {
      assert (a + b)[1..] == a[1..] + b;
      TextConcat(a[1..], b);
    }
  }

  lemma {:induction false} MergeText(q: Queue, sl: Log)
    requires sl.stamp.Some? && Stamped(q.logs)
    ensures Merge(q, sl).1.line + Text(Merge(q, sl).0.logs) == sl.line + Text(q.logs)
    decreases |q.logs|
  {
    if q.logs != [] && q.logs[0].stamp.value < sl.stamp.value {
      MergeText(q.(logs := q.logs[1..], heap := Drop(q.heap, q.logs[0].offset)), sl.(line := sl.line + q.logs[0].line));
    }
  }

  lemma {:induction false} ReleaseText(q: Queue)
    requires |q.logs| > 0 && |q.heap| > 0 && Stamped(q.logs)
    ensures Release(q).1.line + Text(Release(q).0.logs) == Text(q.logs)
  {
    var pos := Position(q.heap, q.logs[0].offset);
    MergeText(q.(logs := q.logs[1..], heap := HeapRemove(q.heap, pos)), q.logs[0]);
  }

  /** The oldest `n` logs are given out, their texts joined; the others stay in their order. */
  predicate TakesRun(logs: seq<Log>, n: int, rest: seq<Log>, out: string) {
    1 <= n <= |logs| && rest == logs[n..] && out == Text(logs[..n])
  }

  /** A release gives out a run of the oldest logs, joined, and keeps the others in their order. */
  lemma {:induction false} ReleasesARun(q: Queue)
    requires Agrees(q) && |q.logs| > 0
    ensures |q.heap| > 0 && exists n :: TakesRun(q.logs, n, Release(q).0.logs, Release(q).1.line)
  {
    ReleaseAgrees(q);
    ReleaseText(q);
    hide Agrees, Release, Text;
    var n :| 1 <= n <= |q.logs| && Release(q).0.logs == q.logs[n..];
    RunText(q.logs, n, Release(q).1.line);
  }

  /** The first `n` logs make one: it keeps the first one's stamp, and the others are all before it while
      the next one is not. */
  predicate JoinsEarlier(logs: seq<Log>, n: int, out: Log) {
    && 1 <= n <= |logs| && Stamped(logs)
    && out.stamp == logs[0].stamp && out.offset == logs[0].offset && out.length == logs[0].length
    && (forall i :: 1 <= i < n ==> logs[i].stamp.value < logs[0].stamp.value)
    && (n < |logs| ==> logs[n].stamp.value >= logs[0].stamp.value)
  }

  /** How many logs a release takes: away from the first two heap places the oldest alone, without its
      stamp; otherwise the oldest with all that follow it and are before it. */
  lemma {:induction false} ReleasesExactly(q: Queue)
    requires Agrees(q) && |q.logs| > 0
    ensures |q.heap| > 0
    ensures var (rest, out) := Release(q);
      if Position(q.heap, q.logs[0].offset) >= 2 then out == Log(None, q.logs[0].line, 0, 0) && rest.logs == q.logs[1..]
      else exists n :: JoinsEarlier(q.logs, n, out) && TakesRun(q.logs, n, rest.logs, out.line)
  {
    ReleaseAgrees(q);
    hide Agrees, HeapRemove, Text;
    if Position(q.heap, q.logs[0].offset) < 2 {
      var n := JoinsExactly(q);
    }
  }

  lemma {:induction false} JoinsExactly(q: Queue) returns (n: nat)
    requires |q.logs| > 0 && |q.heap| > 0 && Stamped(q.logs) && Position(q.heap, q.logs[0].offset) < 2
    ensures var (rest, out) := Release(q); JoinsEarlier(q.logs, n, out) && TakesRun(q.logs, n, rest.logs, out.line)
  {
    ReleaseText(q);
    var left := q.(logs := q.logs[1..], heap := HeapRemove(q.heap, Position(q.heap, q.logs[0].offset)));
    var m := MergesExactly(left, q.logs[0]);
    n := m + 1;
    assert Release(q) == Merge(left, q.logs[0]);
    hide Release, Merge, Text, Position, HeapRemove;
    assert q.logs[1..][m..] == q.logs[n..];
    assert forall i :: 1 <= i < n ==> q.logs[i] == left.logs[i - 1];
    assert m < |left.logs| ==> q.logs[n] == left.logs[m];
    RunText(q.logs, n, Release(q).1.line);
  }

  lemma {:induction false} MergesExactly(q: Queue, sl: Log) returns (m: nat)
    requires sl.stamp.Some? && Stamped(q.logs)
    ensures m <= |q.logs| && Merge(q, sl).0.logs == q.logs[m..]
    ensures Merge(q, sl).1 == sl.(line := Merge(q, sl).1.line)
    ensures forall i :: 0 <= i < m ==> q.logs[i].stamp.value < sl.stamp.value
    ensures m < |q.logs| ==> q.logs[m].stamp.value >= sl.stamp.value
    decreases |q.logs|
  {
    m := 0;
    if q.logs != [] && q.logs[0].stamp.value < sl.stamp.value {
      var rest := q.(logs := q.logs[1..], heap := Drop(q.heap, q.logs[0].offset));
      hide Drop;
      m := MergesExactly(rest, sl.(line := sl.line + q.logs[0].line));
      assert q.logs[m + 1..] == rest.logs[m..];
      assert forall i :: 1 <= i < m + 1 ==> q.logs[i] == rest.logs[i - 1];
      assert m < |rest.logs| ==> q.logs[m + 1] == rest.logs[m];
      m := m + 1;
    }
  }

  lemma {:induction false} RunText(logs: seq<Log>, n: nat, out: string)
    requires 1 <= n <= |logs| && out + Text(logs[n..]) == Text(logs)
    ensures TakesRun(logs, n, logs[n..], out)
  {
    hide Text;
    assert logs == logs[..n] + logs[n..];
    TextConcat(logs[..n], logs[n..]);
    SameEnd(out, Text(logs[..n]), Text(logs[n..]));
  }

  lemma {:induction false} SameEnd(a: string, b: string, end: string)
    requires a + end == b + end
    ensures a == b
  {
    assert |a| == |b|;
    assert (a + end)[..|a|] == a && (b + end)[..|b|] == b;
  }

  /** What Consume gives out, followed by what it keeps, is what it had followed by the new line. Only
      a continuation line that finds the buffer empty is dropped. */
  lemma {:induction false} ConsumeText(q: Queue, log: Log)
    requires Stamped(q.logs)
    ensures var (r, out) := ConsumeLog(q, log);
      OutText(out) + Text(r.logs) == Text(q.logs) +
        if log.stamp.Some? then log.line else if q.logs == [] then "" else "\n" + log.line
  {
    if log.stamp.None? {
      if q.logs != [] {
        var n := |q.logs| - 1;
        var last := q.logs[n].(line := q.logs[n].line + "\n" + log.line);
        assert q.logs == q.logs[..n] + [q.logs[n]] && ConsumeLog(q, log).0.logs == q.logs[..n] + [last];
        TextConcat(q.logs[..n], [q.logs[n]]);
        TextConcat(q.logs[..n], [last]);
      }
    } else {
      var full := Enter(q, log);
      TextConcat(q.logs, [log]);
      if |full.logs| == full.size && |full.heap| > 0 {
        ReleaseText(full);
      }
    }
  }

  lemma {:induction false} DumpText(q: Queue)
    requires Agrees(q)
    ensures Text(Dump(q)) == Text(q.logs)
    decreases |q.logs|
  {
    if q.logs != [] {
      ReleaseAgrees(q);
      ReleaseText(q);
      DumpText(Release(q).0);
    }
  }

  // ---------- The buffer never runs empty ----------

  lemma {:induction false} MergeKeeps(q: Queue, sl: Log, k: nat)
    requires sl.stamp.Some? && Stamped(q.logs) && k < |q.logs| && q.logs[k].stamp.value >= sl.stamp.value
    ensures Merge(q, sl).0.logs != []
    decreases |q.logs|
  {
    if q.logs[0].stamp.value < sl.stamp.value {
      MergeKeeps(q.(logs := q.logs[1..], heap := Drop(q.heap, q.logs[0].offset)), sl.(line := sl.line + q.logs[0].line), k - 1);
    }
  }

  lemma {:induction false} OtherStays(h: seq<Item>, i: nat, k: nat)
    requires i < |h| && k < |h| && i != k && IsHeap(h, |h|)
    ensures h[k] in HeapRemove(h, i)
  {
    hide HeapRemove, IsHeap;
    var rest := h[..i] + h[i + 1..];
    assert h == h[..i] + [h[i]] + h[i + 1..];
    RemoveHeap(h, i);
    assert multiset(HeapRemove(h, i)) == multiset(rest);
    assert rest[if k < i then k else k - 1] == h[k];
    SameItems(rest, HeapRemove(h, i));
  }

  /** A heap place other than the oldest log's belongs to a log that is still queued. */
  lemma {:induction false} OtherQueued(full: Queue, pos: nat, k: nat) returns (i: nat)
    requires Agrees(full) && |full.logs| > 0 && pos < |full.heap| && k < |full.heap| && k != pos
    requires Agrees(full.(logs := full.logs[1..], heap := HeapRemove(full.heap, pos)))
    ensures i + 1 < |full.logs| && full.logs[1..][i].stamp.value == full.heap[k].stamp
  {
    OtherStays(full.heap, pos, k);
    SameItems(HeapRemove(full.heap, pos), Items(full.logs[1..]));
    i :| 0 <= i < |full.logs| - 1 && Items(full.logs[1..])[i] == full.heap[k];
  }

  /** With bufferSize 3 or more, Consume leaves something in the buffer once a stamped line came, so
      no later continuation line is dropped. */
  lemma {:induction false} NeverEmpties(q: Queue, log: Log)
    requires Ready(q, log.offset) && q.size >= 4 && (log.stamp.Some? || q.logs != [])
    ensures ConsumeLog(q, log).0.logs != []
  {
    if log.stamp.Some? {
      EnterAgrees(q, log);
      if |q.logs| + 1 == q.size {
        FourKeepOne(Enter(q, log));
      }
    }
  }

  /** The heap's fourth place is below the second: what is there is not before the released log. */
  lemma {:induction false} FourKeepOne(full: Queue)
    requires Agrees(full) && |full.logs| >= 4
    ensures |full.heap| > 0 && Release(full).0.logs != []
  {
    TakeAgrees(full);
    var pos := Position(full.heap, full.logs[0].offset);
    var rest := full.(logs := full.logs[1..], heap := HeapRemove(full.heap, pos));
    if pos <= 1 {
      assert Parent(3) == 1 && Parent(1) == 0;
      assert full.heap[3].stamp >= full.logs[0].stamp.value;
      var i := OtherQueued(full, pos, 3);
      MergeKeeps(rest, full.logs[0], i);
    }
  }

  /** The bound is exact: with bufferSize 0, 1 and 2 the stamps 5, then 5 and 3, then 5, 3 and 4 leave
      the buffer empty. */
  lemma {:induction false} TwoCanEmpty()
    ensures var a, b, c := Log(Some(5), "a", 0, 1), Log(Some(3), "b", 2, 1), Log(Some(4), "c", 4, 1);
      && ConsumeLog(NewQueue(0), a).0.logs == []
      && ConsumeLog(ConsumeLog(NewQueue(1), a).0, b).0.logs == []
      && ConsumeLog(ConsumeLog(ConsumeLog(NewQueue(2), a).0, b).0, c).0.logs == []
  {
    var a, b, c := Log(Some(5), "a", 0, 1), Log(Some(3), "b", 2, 1), Log(Some(4), "c", 4, 1);
    assert HeapPush([], Item(5, 0)) == [Item(5, 0)];
    assert HeapPush([Item(5, 0)], Item(3, 2)) == [Item(3, 2), Item(5, 0)] by {
      assert Swap([Item(5, 0), Item(3, 2)], 0, 1) == [Item(3, 2), Item(5, 0)];
    }
    OneToNone(Queue(1, [a], [Item(5, 0)]));
    TwoToNone(Queue(2, [a, b], [Item(3, 2), Item(5, 0)]), a, b);
    assert Enter(Queue(2, [a], [Item(5, 0)]), b) == Queue(2, [a, b], [Item(3, 2), Item(5, 0)]);
    hide Release, HeapPush;
    assert ConsumeLog(ConsumeLog(NewQueue(1), a).0, b).0.logs == [];
    var r := Queue(3, [a, b], [Item(3, 2), Item(5, 0)]);
    assert Enter(Queue(3, [a], [Item(5, 0)]), b) == r;
    ThirdIn(r, c);
    var full := Queue(3, [a, b, c], [Item(3, 2), Item(5, 0), Item(4, 4)]);
    assert Enter(r, c) == full;
    ThreeToNone(full, a, b, c);
  }

  lemma {:induction false} ThirdIn(r: Queue, c: Log)
    requires r.heap == [Item(3, 2), Item(5, 0)] && c.stamp == Some(4) && c.offset == 4
    ensures HeapPush(r.heap, ItemOf(c)) == [Item(3, 2), Item(5, 0), Item(4, 4)]
  {
  }

  lemma {:induction false} OneToNone(full: Queue)
    requires |full.logs| == |full.heap| == 1 && Stamped(full.logs) && full.heap[0] == ItemOf(full.logs[0])
    ensures Release(full).0.logs == []
  {
    assert Position(full.heap, full.logs[0].offset) == 0;
    assert full.logs[1..] == [];
  }

  lemma {:induction false} TwoToNone(full: Queue, a: Log, b: Log)
    requires a.offset == 0 && b.offset == 2 && a.stamp == Some(5) && b.stamp == Some(3)
    requires full.logs == [a, b] && full.heap == [Item(3, 2), Item(5, 0)]
    ensures Release(full).0.logs == []
  {
    assert Position(full.heap, 0) == 1 by { assert full.heap[1].id == 0; }
    assert full.logs[1..] == [b] && [b][1..] == [];
    var rest := full.(logs := [b], heap := HeapRemove(full.heap, 1));
    assert Merge(rest, a) == (rest.(logs := [], heap := Drop(rest.heap, 2)), a.(line := a.line + b.line));
  }

  lemma {:induction false} ThreeToNone(full: Queue, a: Log, b: Log, c: Log)
    requires a.offset == 0 && b.offset == 2 && a.stamp == Some(5) && b.stamp == Some(3) && c.stamp == Some(4)
    requires full.logs == [a, b, c] && full.heap == [Item(3, 2), Item(5, 0), Item(4, 4)]
    ensures Release(full).0.logs == []
  {
    assert Position(full.heap, 0) == 1 by { assert full.heap[1].id == 0; }
    assert HeapRemove(full.heap, 1) == [Item(3, 2), Item(4, 4)];
    assert full.logs[1..] == [b, c] && [b, c][1..] == [c] && [c][1..] == [];
    var one := full.(logs := [c], heap := Drop([Item(3, 2), Item(4, 4)], 2));
    assert Merge(one, a.(line := a.line + b.line)).0.logs == [];
  }

  // ---------- Whole runs ----------

  /** What LogIterator.Next does with one log from the buffer: the log to yield next, and the one yielded now. */
  function Absorb(y: Option<Log>, out: Log): (Option<Log>, seq<Log>) {
    if out.stamp.Some? then (Some(out), if y.Some? then [y.value] else [])
    else if y.Some? then
      (Some(y.value.(line := y.value.line + out.line, length := y.value.length + out.length + 1)), [])
    else (y, [])
  }

  /** The records still to come when `y` waits and the buffer gives `outs`. */
  function Deliver(y: Option<Log>, outs: seq<Log>): seq<Log>
    decreases |outs|
  {
    if outs == [] then (if y.Some? then [y.value] else [])
    else
      var (next, now) := Absorb(y, outs[0]);
      now + Deliver(next, outs[1..])
  }

  /** One line through the buffer: what is left in it and what it gives. */
  function ConsumeLine(q: Queue, line: Line, offset: nat): (r: (Queue, seq<Log>))
    requires Ready(q, offset)
    ensures Ready(r.0, offset + |line.text| + 1) && r.0.size == q.size
  {
    ConsumeReady(q, Parse(line, offset), offset + |line.text| + 1);
    var (rest, out) := ConsumeLog(q, Parse(line, offset));
    (rest, if out.Some? then [out.value] else [])
  }

  /** All the logs the buffer gives for `lines`, DumpRemaining included. */
  function Outs(lines: seq<Line>, offset: nat, q: Queue): seq<Log>
    requires Ready(q, offset)
    decreases |lines|
  {
    if lines == [] then Dump(q)
    else
      var (rest, out) := ConsumeLine(q, lines[0], offset);
      out + Outs(lines[1..], offset + |lines[0].text| + 1, rest)
  }

  function Records(lines: seq<Line>, bufferSize: nat): seq<Log> {
    NewReady(bufferSize);
    Deliver(None, Outs(lines, 0, NewQueue(bufferSize)))
  }

  lemma {:induction false} NewReady(bufferSize: nat)
    ensures Ready(NewQueue(bufferSize), 0)
  {
  }

  /** What a line adds to the text, given whether a stamped line came before. */
  function Added(line: Line, started: bool): string {
    if line.stamp.Some? then line.text else if started then "\n" + line.text else ""
  }

  /** The text of the log from its first stamped line on, continuation lines joined by newlines. */
  function Flatten(lines: seq<Line>, started: bool): string {
    if lines == [] then "" else Added(lines[0], started) + Flatten(lines[1..], started || lines[0].stamp.Some?)
  }

  lemma {:induction false} OutsFirst(lines: seq<Line>, offset: nat, q: Queue)
    requires lines != [] && Ready(q, offset)
    ensures var (rest, out) := ConsumeLine(q, lines[0], offset);
      Text(Outs(lines, offset, q)) == Text(out) + Text(Outs(lines[1..], offset + |lines[0].text| + 1, rest))
  {
    var (rest, out) := ConsumeLine(q, lines[0], offset);
    TextConcat(out, Outs(lines[1..], offset + |lines[0].text| + 1, rest));
  }

  lemma {:induction false} LineText(q: Queue, line: Line, offset: nat)
    requires Ready(q, offset) && q.size >= 4
    ensures var (rest, out) := ConsumeLine(q, line, offset);
      && Text(out) + Text(rest.logs) == Text(q.logs) + Added(line, q.logs != [])
      && (rest.logs != [] <==> line.stamp.Some? || q.logs != [])
  {
    var log := Parse(line, offset);
    ConsumeText(q, log);
    var (rest, out) := ConsumeLine(q, line, offset);
    assert Text(out) == OutText(ConsumeLog(q, log).1);
    if log.stamp.Some? || q.logs != [] {
      NeverEmpties(q, log);
    }
  }

  lemma {:induction false} OutsText(lines: seq<Line>, offset: nat, q: Queue)
    requires Ready(q, offset) && q.size >= 4
    ensures Text(Outs(lines, offset, q)) == Text(q.logs) + Flatten(lines, q.logs != [])
    decreases |lines|
  {
    hide ConsumeLog, Dump, Agrees;
    if lines == [] {
      DumpText(q);
    } else {
      var (rest, out) := ConsumeLine(q, lines[0], offset);
      LineText(q, lines[0], offset);
      OutsFirst(lines, offset, q);
      OutsText(lines[1..], offset + |lines[0].text| + 1, rest);
      Regroup(Text(out), Text(rest.logs), Text(q.logs), Added(lines[0], q.logs != []), Flatten(lines[1..], rest.logs != []));
    }
  }

  lemma {:induction false} Regroup(a: string, b: string, c: string, d: string, e: string)
    requires a + b == c + d
    ensures a + (b + e) == c + (d + e)
  {
    assert a + (b + e) == (a + b) + e;
    assert c + (d + e) == (c + d) + e;
  }

  /** The logs before the first one that kept its stamp: Next has no record to append them to. */
  function Orphans(outs: seq<Log>): seq<Log> {
    if outs == [] || outs[0].stamp.Some? then [] else [outs[0]] + Orphans(outs[1..])
  }

  lemma {:induction false} DeliverText(y: Option<Log>, outs: seq<Log>)
    ensures y.Some? ==> Text(Deliver(y, outs)) == y.value.line + Text(outs)
    ensures y.None? ==> Text(Orphans(outs)) + Text(Deliver(y, outs)) == Text(outs)
    decreases |outs|
  {
    if outs != [] {
      var (next, now) := Absorb(y, outs[0]);
      DeliverText(next, outs[1..]);
      TextConcat(now, Deliver(next, outs[1..]));
    }
  }

  /** A record takes the text of the logs without a stamp that follow it, up to the next one with a stamp,
      and one byte of length for each. */
  lemma {:induction false} RecordTakes(y: Log, outs: seq<Log>, n: nat)
    requires n <= |outs| && (n < |outs| ==> outs[n].stamp.Some?)
    requires forall i :: 0 <= i < n ==> outs[i].stamp.None? && outs[i].length == 0
    ensures Deliver(Some(y), outs) ==
      [y.(line := y.line + Text(outs[..n]), length := y.length + n)] + Deliver(None, outs[n..])
    decreases n
  {
    if n > 0 {
      var next := Absorb(Some(y), outs[0]).0.value;
      RecordTakes(next, outs[1..], n - 1);
      assert outs[..n] == [outs[0]] + outs[1..][..n - 1] && outs[1..][n - 1..] == outs[n..];
      assert Text(outs[..n]) == outs[0].line + Text(outs[1..][..n - 1]) by {
        assert outs[..n][1..] == outs[1..][..n - 1];
      }
      assert next.line + Text(outs[1..][..n - 1]) == y.line + Text(outs[..n]);
    } else {
      assert outs[0..] == outs && Text(outs[..0]) == "" && y.line + "" == y.line;
      if outs != [] {
        var rest := Deliver(Some(outs[0]), outs[1..]);
        assert Deliver(None, outs) == [] + rest == rest;
      }
    }
  }

  /** For any log file and any timestamps in it: the records, read one after the other, are the text
      of the file in file order, less what the buffer gave out before its first stamped log. */
  lemma {:induction false} NoTextMoves(lines: seq<Line>, bufferSize: nat)
    requires bufferSize >= 3
    ensures Ready(NewQueue(bufferSize), 0)
    ensures Text(Orphans(Outs(lines, 0, NewQueue(bufferSize)))) + Text(Records(lines, bufferSize)) == Flatten(lines, false)
  {
    NewReady(bufferSize);
    NewText(lines, bufferSize);
    DeliverText(None, Outs(lines, 0, NewQueue(bufferSize)));
  }

  lemma {:induction false} NewText(lines: seq<Line>, bufferSize: nat)
    requires bufferSize >= 3 && Ready(NewQueue(bufferSize), 0)
    ensures Text(Outs(lines, 0, NewQueue(bufferSize))) == Flatten(lines, false)
  {
    hide Outs, Flatten, Agrees;
    OutsText(lines, 0, NewQueue(bufferSize));
  }

  // ---------- Increasing stamps: plain grouping ----------

  function Continued(log: Log, line: Line): Log {
    log.(line := log.line + "\n" + line.text)
  }

  /** The reference: a stamped line opens a record, the unstamped lines after it continue it. */
  function GroupFrom(current: Log, lines: seq<Line>, offset: nat): seq<Log>
    decreases |lines|
  {
    if lines == [] then [current]
    else
      var after := offset + |lines[0].text| + 1;
      if lines[0].stamp.Some? then [current] + GroupFrom(Parse(lines[0], offset), lines[1..], after)
      else GroupFrom(Continued(current, lines[0]), lines[1..], after)
  }

  function Group(lines: seq<Line>, offset: nat): seq<Log>
    decreases |lines|
  {
    if lines == [] then []
    else
      var after := offset + |lines[0].text| + 1;
      if lines[0].stamp.Some? then GroupFrom(Parse(lines[0], offset), lines[1..], after)
      else Group(lines[1..], after)
  }

  predicate Increasing(lines: seq<Line>) {
    forall i, j :: 0 <= i < j < |lines| && lines[i].stamp.Some? && lines[j].stamp.Some? ==> lines[i].stamp.value < lines[j].stamp.value
  }

  predicate Rising(logs: seq<Log>) {
    Stamped(logs) && forall i, j :: 0 <= i < j < |logs| ==> logs[i].stamp.value < logs[j].stamp.value
  }

  /** Every queued log is before every line to come. */
  predicate BeforeAll(logs: seq<Log>, lines: seq<Line>) {
    Stamped(logs) && forall i, j :: 0 <= i < |logs| && 0 <= j < |lines| && lines[j].stamp.Some? ==> logs[i].stamp.value < lines[j].stamp.value
  }

  /** When the oldest log is the only earliest one it is the root of the heap. */
  lemma {:induction false} OldestIsRoot(q: Queue)
    requires Agrees(q) && |q.logs| > 0 && Rising(q.logs)
    ensures |q.heap| > 0 && Position(q.heap, q.logs[0].offset) == 0
  {
    Found(q, 0);
    RootIsLeast(q.heap, Position(q.heap, q.logs[0].offset));
    SameItems(q.heap, Items(q.logs));
    assert q.heap[0] in Items(q.logs);
    var j :| 0 <= j < |q.logs| && Items(q.logs)[j] == q.heap[0];
    assert j == 0;
  }

  lemma {:induction false} ReleaseRising(q: Queue)
    requires Agrees(q) && |q.logs| > 0 && Rising(q.logs)
    ensures |q.heap| > 0 && Release(q).1 == q.logs[0] && Release(q).0.logs == q.logs[1..]
  {
    OldestIsRoot(q);
  }

  lemma {:induction false} DumpRising(q: Queue)
    requires Agrees(q) && Rising(q.logs)
    ensures Dump(q) == q.logs
    decreases |q.logs|
  {
    hide Release, Agrees;
    if q.logs != [] {
      ReleaseRising(q);
      ReleaseAgrees(q);
      var (rest, sl) := Release(q);
      DumpRising(rest);
      assert Dump(q) == [sl] + Dump(rest);
    }
  }

  /** A line added to the logs in hand. */
  function Extend(logs: seq<Log>, line: Line, offset: nat): seq<Log> {
    if line.stamp.Some? then logs + [Parse(line, offset)]
    else if logs == [] then []
    else logs[|logs| - 1 := Continued(logs[|logs| - 1], line)]
  }

  lemma {:induction false} EnterRising(q: Queue, line: Line, offset: nat)
    requires Ready(q, offset) && q.size >= 2 && Rising(q.logs) && BeforeAll(q.logs, [line]) && line.stamp.Some?
    ensures var (rest, out) := ConsumeLine(q, line, offset);
      Rising(rest.logs) && rest.logs != [] && out + rest.logs == q.logs + [Parse(line, offset)]
  {
    var log := Parse(line, offset);
    var full := Enter(q, log);
    EnterAgrees(q, log);
    RisingAppend(q.logs, line, log);
    StampedLine(q, line, offset);
    if |q.logs| + 1 == q.size {
      ReleaseRising(full);
      RisingTail(full.logs);
    }
    assert full.logs[0] == if q.logs == [] then log else q.logs[0];
    hide Agrees, BeforeAll, Rising, Release, HeapPush, ConsumeLine, Stamped, Enter;
    HeadTail(full.logs);
  }

  lemma {:induction false} HeadTail(logs: seq<Log>)
    requires logs != []
    ensures [logs[0]] + logs[1..] == logs && [] + logs == logs
  {
  }

  lemma {:induction false} StampedLine(q: Queue, line: Line, offset: nat)
    requires Ready(q, offset) && line.stamp.Some?
    ensures var full := Enter(q, Parse(line, offset));
      && Stamped(full.logs) && |full.logs| > 0 && |full.heap| > 0
      && ConsumeLine(q, line, offset) == if |q.logs| + 1 == q.size then (Release(full).0, [Release(full).1]) else (full, [])
  {
    EnterAgrees(q, Parse(line, offset));
    hide HeapPush, Release, IsHeap;
  }

  lemma {:induction false} RisingTail(logs: seq<Log>)
    requires Rising(logs) && logs != []
    ensures Rising(logs[1..])
  {
  }

  lemma {:induction false} RisingAppend(logs: seq<Log>, line: Line, log: Log)
    requires Rising(logs) && BeforeAll(logs, [line]) && line.stamp.Some? && log.stamp == line.stamp
    ensures Rising(logs + [log])
  {
    assert [line][0] == line;
  }

  /** One line in a rising buffer: what is given out and what stays are what there was, extended. */
  lemma {:induction false} ConsumeRising(q: Queue, line: Line, offset: nat)
    requires Ready(q, offset) && q.size >= 2 && Rising(q.logs) && BeforeAll(q.logs, [line])
    ensures var (rest, out) := ConsumeLine(q, line, offset);
      && Rising(rest.logs)
      && out + rest.logs == Extend(q.logs, line, offset)
      && (rest.logs == [] ==> out == [])
  {
    if line.stamp.Some? {
      EnterRising(q, line, offset);
      hide Agrees, Rising, BeforeAll, ConsumeLog;
    } else {
      hide Agrees, BeforeAll, HeapPush, Release, Rising;
      ContinueRising(q.logs, line, offset);
      var rest := ConsumeLog(q, Parse(line, offset)).0.logs;
      assert rest == Extend(q.logs, line, offset);
      assert [] + rest == rest;
    }
  }

  lemma {:induction false} ContinueRising(logs: seq<Log>, line: Line, offset: nat)
    requires Rising(logs) && line.stamp.None?
    ensures Rising(Extend(logs, line, offset))
  {
  }

  /** The groups that `logs`, the last of them still open, and the lines to come make. */
  function Groups(logs: seq<Log>, lines: seq<Line>, offset: nat): seq<Log> {
    if logs == [] then Group(lines, offset)
    else logs[..|logs| - 1] + GroupFrom(logs[|logs| - 1], lines, offset)
  }

  lemma {:induction false} GroupsExtend(logs: seq<Log>, lines: seq<Line>, offset: nat)
    requires lines != []
    ensures Groups(logs, lines, offset) == Groups(Extend(logs, lines[0], offset), lines[1..], offset + |lines[0].text| + 1)
  {
    if logs != [] && lines[0].stamp.Some? {
      var n := |logs| - 1;
      var log := Parse(lines[0], offset);
      var g := GroupFrom(log, lines[1..], offset + |lines[0].text| + 1);
      assert GroupFrom(logs[n], lines, offset) == [logs[n]] + g;
      OpenLast(logs, log, g);
    }
  }

  lemma {:induction false} OpenLast(logs: seq<Log>, log: Log, g: seq<Log>)
    requires logs != []
    ensures var more := logs + [log];
      logs[..|logs| - 1] + ([logs[|logs| - 1]] + g) == more[..|more| - 1] + g && more[|more| - 1] == log
  {
  }

  lemma {:induction false} GroupsSplit(out: seq<Log>, logs: seq<Log>, lines: seq<Line>, offset: nat)
    requires logs == [] ==> out == []
    ensures out + Groups(logs, lines, offset) == Groups(out + logs, lines, offset)
  {
    if logs != [] {
      var all := out + logs;
      assert all[..|all| - 1] == out + logs[..|logs| - 1];
    } else {
      assert out + logs == [];
    }
  }

  lemma {:induction false} OutsRising(lines: seq<Line>, offset: nat, q: Queue)
    requires Ready(q, offset) && q.size >= 2 && Rising(q.logs) && Increasing(lines) && BeforeAll(q.logs, lines)
    ensures Outs(lines, offset, q) == Groups(q.logs, lines, offset)
    decreases |lines|
  {
    hide ConsumeLog, Dump, Agrees, Extend, GroupFrom;
    if lines == [] {
      DumpRising(q);
      NothingToCome(q.logs, offset);
    } else {
      var after := offset + |lines[0].text| + 1;
      var (rest, out) := ConsumeLine(q, lines[0], offset);
      assert BeforeAll(q.logs, [lines[0]]);
      ConsumeRising(q, lines[0], offset);
      RestBefore(q, lines, offset);
      OutsRising(lines[1..], after, rest);
      GroupsExtend(q.logs, lines, offset);
      GroupsSplit(out, rest.logs, lines[1..], after);
    }
  }

  lemma {:induction false} NothingToCome(logs: seq<Log>, offset: nat)
    ensures Groups(logs, [], offset) == logs
  {
  }

  lemma {:induction false} RestBefore(q: Queue, lines: seq<Line>, offset: nat)
    requires lines != [] && Ready(q, offset) && q.size >= 2 && Rising(q.logs) && Increasing(lines) && BeforeAll(q.logs, lines)
    ensures BeforeAll(ConsumeLine(q, lines[0], offset).0.logs, lines[1..]) && Increasing(lines[1..])
  {
    hide ConsumeLog, Agrees;
    assert BeforeAll(q.logs, [lines[0]]);
    ConsumeRising(q, lines[0], offset);
    var (rest, out) := ConsumeLine(q, lines[0], offset);
    var whole := out + rest.logs;
    forall i, j | 0 <= i < |rest.logs| && 0 <= j < |lines[1..]| && lines[1..][j].stamp.Some?
      ensures rest.logs[i].stamp.value < lines[1..][j].stamp.value
    {
      assert rest.logs[i] == whole[|out| + i];
      assert lines[1..][j] == lines[j + 1];
    }
  }

  lemma {:induction false} DeliverStamped(y: Option<Log>, outs: seq<Log>)
    requires Stamped(outs)
    ensures Deliver(y, outs) == (if y.Some? then [y.value] else []) + outs
    decreases |outs|
  {
    if outs != [] {
      DeliverStamped(Some(outs[0]), outs[1..]);
    }
  }

  lemma {:induction false} GroupStamped(current: Log, lines: seq<Line>, offset: nat)
    requires current.stamp.Some?
    ensures Stamped(GroupFrom(current, lines, offset))
    decreases |lines|
  {
    if lines != [] {
      var after := offset + |lines[0].text| + 1;
      if lines[0].stamp.Some? {
        GroupStamped(Parse(lines[0], offset), lines[1..], after);
      } else {
        GroupStamped(Continued(current, lines[0]), lines[1..], after);
      }
    }
  }

  lemma {:induction false} GroupAllStamped(lines: seq<Line>, offset: nat)
    ensures Stamped(Group(lines, offset))
    decreases |lines|
  {
    if lines != [] {
      var after := offset + |lines[0].text| + 1;
      if lines[0].stamp.Some? {
        GroupStamped(Parse(lines[0], offset), lines[1..], after);
      } else {
        GroupAllStamped(lines[1..], after);
      }
    }
  }

  /** Heap and buffer refine plain grouping: when stamps strictly increase, the iterator yields one
      record for every stamped line, in file order, each with exactly its continuation lines. */
  lemma {:induction false} RefinesGrouping(lines: seq<Line>, bufferSize: nat)
    requires bufferSize >= 1 && Increasing(lines)
    ensures Records(lines, bufferSize) == Group(lines, 0)
  {
    hide ConsumeLog, Agrees, Outs, Group;
    NewReady(bufferSize);
    OutsRising(lines, 0, NewQueue(bufferSize));
    GroupAllStamped(lines, 0);
    DeliverStamped(None, Group(lines, 0));
  }

  // ---------- Where the order of stamps shows ----------

  /** The heap items of the stamped lines. */
  function Stamps(lines: seq<Line>, offset: nat): seq<Item>
    decreases |lines|
  {
    if lines == [] then []
    else
      var rest := Stamps(lines[1..], offset + |lines[0].text| + 1);
      if lines[0].stamp.Some? then [Item(lines[0].stamp.value, offset)] + rest else rest
  }

  function PushAll(h: seq<Item>, items: seq<Item>): seq<Item>
    decreases |items|
  {
    if items == [] then h else PushAll(HeapPush(h, items[0]), items[1..])
  }

  /** The first stamped log stands in one of the first two places of the heap when the buffer is full
      for the first time, or at the end of the file when it never is. */
  predicate FirstSafe(items: seq<Item>, size: nat) {
    items == [] || Position(PushAll([], if size < |items| then items[..size] else items), items[0].id) <= 1
  }

  lemma {:induction false} PushLast(h: seq<Item>, items: seq<Item>, x: Item)
    ensures PushAll(h, items + [x]) == HeapPush(PushAll(h, items), x)
    decreases |items|
  {
    hide HeapPush;
    if items != [] {
      assert (items + [x])[1..] == items[1..] + [x];
      PushLast(HeapPush(h, items[0]), items[1..], x);
    } else {
      assert [x][1..] == [] && [] + [x] == [x];
    }
  }

  /** The released log keeps its stamp exactly in the first two places; otherwise it keeps its text. */
  lemma {:induction false} StampFate(q: Queue)
    requires Agrees(q) && |q.logs| > 0
    ensures |q.heap| > 0
    ensures Release(q).1.stamp.Some? <==> Position(q.heap, q.logs[0].offset) <= 1
    ensures Release(q).1.stamp.None? ==> Release(q).1.line == q.logs[0].line
  {
    TakeAgrees(q);
    var rest := q.(logs := q.logs[1..], heap := HeapRemove(q.heap, Position(q.heap, q.logs[0].offset)));
    MergeAgrees(rest, q.logs[0]);
  }

  lemma {:induction false} OrphanFirst(out: Log, more: seq<Log>)
    ensures Orphans([out] + more) == [] <==> out.stamp.Some?
    ensures Text(Orphans([out] + more)) == "" ==> out.stamp.Some? || out.line == ""
    ensures out.stamp.Some? ==> Text(Orphans([out] + more)) == ""
  {
    assert ([out] + more)[1..] == more;
    if out.stamp.None? {
      assert ([out] + Orphans(more))[1..] == Orphans(more);
    }
  }

  /** A stamp is found in the text of its line. */
  predicate Dated(lines: seq<Line>) {
    forall i :: 0 <= i < |lines| && lines[i].stamp.Some? ==> lines[i].text != ""
  }

  /** Nothing was given out yet: the heap is what pushing the queued logs makes it. */
  predicate Filling(q: Queue) {
    Stamped(q.logs) && q.heap == PushAll([], Items(q.logs))
  }

  predicate Told(q: Queue, lines: seq<Line>) {
    Dated(lines) && (q.logs != [] ==> q.logs[0].line != "")
  }

  /** The fate of the first stamped log is decided once, where it leaves the buffer. */
  lemma {:induction false} FirstFate(lines: seq<Line>, offset: nat, q: Queue)
    requires Ready(q, offset) && Filling(q)
    ensures var outs := Orphans(Outs(lines, offset, q));
      && (outs == [] <==> FirstSafe(Items(q.logs) + Stamps(lines, offset), q.size))
      && (Told(q, lines) ==> (outs == [] <==> Text(outs) == ""))
    decreases |lines|
  {
    hide Agrees, ConsumeLog, Dump, Release, HeapPush, Orphans, FirstSafe, Text, PushAll;
    if lines == [] {
      DumpFate(q);
      assert Items(q.logs) + [] == Items(q.logs);
    } else {
      var after := offset + |lines[0].text| + 1;
      var (rest, out) := ConsumeLine(q, lines[0], offset);
      if lines[0].stamp.Some? && |q.logs| + 1 == q.size {
        FullFate(q, lines, offset);
      } else {
        StillFilling(q, lines[0], offset);
        if Told(q, lines) {
          StillTold(q, lines, offset);
        }
        FirstFate(lines[1..], after, rest);
        assert out + Outs(lines[1..], after, rest) == Outs(lines[1..], after, rest);
        if lines[0].stamp.Some? {
          ItemMoves(Items(q.logs), Item(lines[0].stamp.value, offset), Stamps(lines[1..], after));
        }
      }
    }
  }

  lemma {:induction false} ItemMoves(a: seq<Item>, x: Item, b: seq<Item>)
    ensures (a + [x]) + b == a + ([x] + b)
  {
  }

  lemma {:induction false} DumpFate(q: Queue)
    requires Agrees(q) && |q.logs| < q.size && Filling(q)
    ensures var outs := Orphans(Dump(q));
      && (outs == [] <==> FirstSafe(Items(q.logs), q.size))
      && (Told(q, []) ==> (outs == [] <==> Text(outs) == ""))
  {
    hide Agrees, Release, PushAll;
    if q.logs != [] {
      ReleaseAgrees(q);
      StampFate(q);
      OrphanFirst(Release(q).1, Dump(Release(q).0));
    }
  }

  /** A line that does not fill the buffer. */
  lemma {:induction false} StillFilling(q: Queue, line: Line, offset: nat)
    requires Ready(q, offset) && Filling(q) && (line.stamp.Some? ==> |q.logs| + 1 != q.size)
    ensures var (rest, out) := ConsumeLine(q, line, offset);
      && Filling(rest) && out == [] && rest.size == q.size
      && Items(rest.logs) == if line.stamp.Some? then Items(q.logs) + [Item(line.stamp.value, offset)] else Items(q.logs)
  {
    var log := Parse(line, offset);
    if line.stamp.Some? {
      ItemsAppend(q.logs, log);
      PushLast([], Items(q.logs), ItemOf(log));
    } else {
      if q.logs != [] {
        SameKeys(q.logs, ConsumeLog(q, log).0.logs);
      }
    }
    hide Agrees, HeapPush, PushAll, Release, Items;
  }

  lemma {:induction false} StillTold(q: Queue, lines: seq<Line>, offset: nat)
    requires lines != [] && Ready(q, offset) && Told(q, lines) && (lines[0].stamp.Some? ==> |q.logs| + 1 != q.size)
    ensures Told(ConsumeLine(q, lines[0], offset).0, lines[1..])
  {
    hide Agrees, HeapPush, Release;
  }

  /** The line that fills the buffer. */
  lemma {:induction false} FullFate(q: Queue, lines: seq<Line>, offset: nat)
    requires Ready(q, offset) && Filling(q) && lines != [] && lines[0].stamp.Some? && |q.logs| + 1 == q.size
    ensures var outs := Orphans(Outs(lines, offset, q));
      && (outs == [] <==> FirstSafe(Items(q.logs) + Stamps(lines, offset), q.size))
      && (Told(q, lines) ==> (outs == [] <==> Text(outs) == ""))
  {
    var log, after := Parse(lines[0], offset), offset + |lines[0].text| + 1;
    var more := Stamps(lines[1..], after);
    assert Stamps(lines, offset) == [ItemOf(log)] + more;
    hide Agrees, Release, HeapPush, PushAll, Orphans, Text, Dump, FirstSafe, Outs, ConsumeLine, Items, Stamps, Ready, Distinct, Stamped;
    var full := Enter(q, log);
    FullReleases(q, lines, offset);
    StampFate(full);
    OrphanFirst(Release(full).1, Outs(lines[1..], after, ConsumeLine(q, lines[0], offset).0));
    FullItems(q, log);
    ItemMoves(Items(q.logs), ItemOf(log), more);
    FullSafe(Items(full.logs), more);
  }

  lemma {:induction false} FullReleases(q: Queue, lines: seq<Line>, offset: nat)
    requires Ready(q, offset) && lines != [] && lines[0].stamp.Some? && |q.logs| + 1 == q.size
    ensures var full := Enter(q, Parse(lines[0], offset));
      && Agrees(full) && |full.heap| > 0
      && Outs(lines, offset, q) == [Release(full).1] + Outs(lines[1..], offset + |lines[0].text| + 1, ConsumeLine(q, lines[0], offset).0)
  {
    hide Agrees, Release, HeapPush;
    EnterAgrees(q, Parse(lines[0], offset));
  }

  lemma {:induction false} FullItems(q: Queue, log: Log)
    requires Filling(q) && log.stamp.Some?
    ensures var full := Enter(q, log);
      && Stamped(full.logs) && Items(full.logs) == Items(q.logs) + [ItemOf(log)]
      && full.heap == PushAll([], Items(full.logs)) && full.logs[0] == if q.logs == [] then log else q.logs[0]
  {
    hide PushAll, HeapPush;
    ItemsAppend(q.logs, log);
    PushLast([], Items(q.logs), ItemOf(log));
  }

  lemma {:induction false} FullSafe(items: seq<Item>, more: seq<Item>)
    requires items != []
    ensures FirstSafe(items + more, |items|) <==> Position(PushAll([], items), items[0].id) <= 1
  {
    hide PushAll, Position;
    assert (items + more)[..|items|] == items;
    assert more == [] ==> items + more == items;
  }

  /** For any stamps and any buffer: the iterator leaves out a log exactly when the first stamped log
      is not safe. */
  lemma {:induction false} NothingLeftOut(lines: seq<Line>, bufferSize: nat)
    ensures Ready(NewQueue(bufferSize), 0)
    ensures Orphans(Outs(lines, 0, NewQueue(bufferSize))) == [] <==> FirstSafe(Stamps(lines, 0), bufferSize + 1)
  {
    NewReady(bufferSize);
    hide Agrees, Outs, Stamps, FirstSafe, Orphans;
    var q := NewQueue(bufferSize);
    assert Items(q.logs) + Stamps(lines, 0) == Stamps(lines, 0);
    FirstFate(lines, 0, q);
  }

  /** The records hold all the text of the file exactly when the first stamped log is safe: among the
      first bufferSize + 1 stamped logs, it stands in one of the first two places of their heap. */
  lemma {:induction false} WholeTextKept(lines: seq<Line>, bufferSize: nat)
    requires bufferSize >= 3 && Dated(lines)
    ensures Text(Records(lines, bufferSize)) == Flatten(lines, false) <==> FirstSafe(Stamps(lines, 0), bufferSize + 1)
  {
    hide Agrees, Outs, Stamps, FirstSafe, Orphans, Flatten, Text, Deliver;
    NoTextMoves(lines, bufferSize);
    NewReady(bufferSize);
    var q := NewQueue(bufferSize);
    assert Items(q.logs) + Stamps(lines, 0) == Stamps(lines, 0);
    FirstFate(lines, 0, q);
    var lost, kept := Text(Orphans(Outs(lines, 0, q))), Text(Records(lines, bufferSize));
    assert |lost + kept| == |lost| + |kept|;
    assert "" + kept == kept;
  }

  /** No stamp is before the first one. */
  predicate NoEarlier(items: seq<Item>) {
    forall j :: 0 <= j < |items| ==> items[0].stamp <= items[j].stamp
  }

  /** An item that is not before the root leaves the root alone. */
  lemma {:induction false} RootStays(h: seq<Item>, j: nat)
    requires j < |h| && h[0].stamp <= h[j].stamp
    ensures Up(h, j)[0] == h[0]
    decreases j
  {
    if j > 0 && Less(h, j, Parent(j)) {
      RootStays(Swap(h, Parent(j), j), Parent(j));
    }
  }

  lemma {:induction false} RootStaysAll(h: seq<Item>, items: seq<Item>)
    requires h != [] && forall j :: 0 <= j < |items| ==> h[0].stamp <= items[j].stamp
    ensures PushAll(h, items) != [] && PushAll(h, items)[0] == h[0]
    decreases |items|
  {
    if items != [] {
      RootStays(h + [items[0]], |h|);
      assert h[0].stamp <= items[0].stamp;
      RootStaysAll(HeapPush(h, items[0]), items[1..]);
    }
  }

  /** When no stamped line is before the first one, whatever the order of the others, all the text of
      the file is in the records. */
  lemma {:induction false} EarliestFirstKeepsAll(lines: seq<Line>, bufferSize: nat)
    requires bufferSize >= 3 && Dated(lines) && NoEarlier(Stamps(lines, 0))
    ensures Text(Records(lines, bufferSize)) == Flatten(lines, false)
  {
    var items := Stamps(lines, 0);
    if items != [] {
      var first := if bufferSize + 1 < |items| then items[..bufferSize + 1] else items;
      assert PushAll([], first) == PushAll(HeapPush([], first[0]), first[1..]);
      assert HeapPush([], first[0]) == [first[0]];
      hide HeapPush, PushAll, Stamps;
      assert forall j :: 0 <= j < |first[1..]| ==> first[1..][j] == items[j + 1];
      RootStaysAll([first[0]], first[1..]);
    }
    WholeTextKept(lines, bufferSize);
  }

  /** A first line whose stamp is late enough is lost: with stamps 9, 1, 2, 3 and bufferSize 3 it
      leaves the buffer without its stamp, and no record is open to take its text. */
  lemma {:induction false} LateFirstLineIsLost()
    ensures var lines := [Line(Some(9), "a"), Line(Some(1), "b"), Line(Some(2), "c"), Line(Some(3), "d")];
      && Flatten(lines, false) == "a" + Text(Records(lines, 3))
  {
    var lines := [Line(Some(9), "a"), Line(Some(1), "b"), Line(Some(2), "c"), Line(Some(3), "d")];
    NewReady(3);
    LateOuts(lines);
    NoTextMoves(lines, 3);
  }

  lemma {:induction false} LateOuts(lines: seq<Line>)
    requires lines == [Line(Some(9), "a"), Line(Some(1), "b"), Line(Some(2), "c"), Line(Some(3), "d")]
    requires Ready(NewQueue(3), 0)
    ensures var outs := Outs(lines, 0, NewQueue(3)); Text(Orphans(outs)) == "a"
  {
    hide ConsumeLine, Agrees, Text;
    var a, b, c, d := Parse(lines[0], 0), Parse(lines[1], 2), Parse(lines[2], 4), Parse(lines[3], 6);
    ThreeWait(a, b, c);
    Waits(NewQueue(3), lines[0], 0);
    var q1 := Enter(NewQueue(3), a);
    Waits(q1, lines[1], 2);
    var q2 := Enter(q1, b);
    Waits(q2, lines[2], 4);
    var q3 := Enter(q2, c);
    LateLeaves(q3, lines[3], a, b, c, d);
    var (rest, out) := ConsumeLine(q3, lines[3], 6);
    assert Outs(lines[3..], 6, q3) == out + Outs(lines[3..][1..], 8, rest);
    assert lines[2..][1..] == lines[3..] && lines[1..][1..] == lines[2..];
    assert Outs(lines[2..], 4, q2) == [] + Outs(lines[3..], 6, q3);
    assert Outs(lines[1..], 2, q1) == [] + Outs(lines[2..], 4, q2);
    assert Outs(lines, 0, NewQueue(3)) == out + Outs(lines[3..][1..], 8, rest);
    var dumped := Outs(lines[3..][1..], 8, rest);
    assert lines[3..][1..] == [];
    DumpRising(rest);
    OneOrphan(dumped);
  }

  lemma {:induction false} OneOrphan(dumped: seq<Log>)
    requires dumped != [] && dumped[0].stamp.Some?
    ensures Text(Orphans([Log(None, "a", 0, 0)] + dumped)) == "a"
  {
    var outs := [Log(None, "a", 0, 0)] + dumped;
    assert outs[1..] == dumped;
    assert Orphans(outs) == [outs[0]] + [];
    assert Text([outs[0]]) == "a" + Text([outs[0]][1..]);
  }

  /** A stamped line that leaves room stays in the buffer. */
  lemma {:induction false} Waits(q: Queue, line: Line, offset: nat)
    requires Ready(q, offset) && line.stamp.Some? && |q.logs| + 1 < q.size
    ensures ConsumeLine(q, line, offset) == (Enter(q, Parse(line, offset)), [])
    ensures Ready(Enter(q, Parse(line, offset)), offset + |line.text| + 1)
  {
    hide Agrees, HeapPush;
  }

  lemma {:induction false} ThreeWait(a: Log, b: Log, c: Log)
    requires a.offset == 0 && b.offset == 2 && c.offset == 4 && a.stamp == Some(9) && b.stamp == Some(1) && c.stamp == Some(2)
    ensures var q := Enter(Enter(Enter(NewQueue(3), a), b), c);
      q.logs == [a, b, c] && q.heap == [Item(1, 2), Item(9, 0), Item(2, 4)] && q.size == 4
  {
    assert HeapPush([], Item(9, 0)) == [Item(9, 0)];
    assert HeapPush([Item(9, 0)], Item(1, 2)) == [Item(1, 2), Item(9, 0)] by {
      assert Swap([Item(9, 0), Item(1, 2)], 0, 1) == [Item(1, 2), Item(9, 0)];
    }
    assert HeapPush([Item(1, 2), Item(9, 0)], Item(2, 4)) == [Item(1, 2), Item(9, 0), Item(2, 4)];
  }

  lemma {:induction false} LateLeaves(q: Queue, line: Line, a: Log, b: Log, c: Log, d: Log)
    requires a == Log(Some(9), "a", 0, 1) && b == Log(Some(1), "b", 2, 1) && c == Log(Some(2), "c", 4, 1) && d == Log(Some(3), "d", 6, 1)
    requires q == Queue(4, [a, b, c], [Item(1, 2), Item(9, 0), Item(2, 4)]) && Ready(q, 6) && d == Parse(line, 6)
    ensures ConsumeLine(q, line, 6).1 == [Log(None, "a", 0, 0)] && ConsumeLine(q, line, 6).0.logs == [b, c, d]
  {
    hide Agrees;
    var full := Enter(q, d);
    LateFull(q, d);
    assert Position(full.heap, 0) == 3 by { assert full.heap[3].id == 0; }
    assert full.logs[1..] == [b, c, d];
  }

  lemma {:induction false} LateFull(q: Queue, d: Log)
    requires d.stamp == Some(3) && d.offset == 6 && q.heap == [Item(1, 2), Item(9, 0), Item(2, 4)]
    ensures Enter(q, d).heap == [Item(1, 2), Item(3, 6), Item(2, 4), Item(9, 0)]
  {
    var s := [Item(1, 2), Item(9, 0), Item(2, 4), Item(3, 6)];
    assert q.heap + [Item(3, 6)] == s && Parent(3) == 1 && Parent(1) == 0;
    assert Swap(s, 1, 3) == [Item(1, 2), Item(3, 6), Item(2, 4), Item(9, 0)];
  }

  // ---------- The buffer and the iterator as they run ----------

  /** One line in the loop of Next: `now` is what it yields. */
  lemma {:induction false} ScanStep(lines: seq<Line>, offset: nat, q: Queue, y: Option<Log>, next: Option<Log>, now: seq<Log>)
    requires lines != [] && Ready(q, offset)
    requires var out := ConsumeLine(q, lines[0], offset).1;
      (next, now) == if |out| == 0 then (y, []) else Absorb(y, out[0])
    ensures Deliver(y, Outs(lines, offset, q)) ==
      now + Deliver(next, Outs(lines[1..], offset + |lines[0].text| + 1, ConsumeLine(q, lines[0], offset).0))
  {
    hide Agrees, ConsumeLog;
    var (rest, out) := ConsumeLine(q, lines[0], offset);
    var more := Outs(lines[1..], offset + |lines[0].text| + 1, rest);
    assert Outs(lines, offset, q) == out + more;
    if |out| != 0 {
      assert (out + more)[0] == out[0] && (out + more)[1..] == more;
    } else {
      assert out + more == more;
    }
  }

  class OrderedQueue {
    const size: nat
    var queue: seq<Log>
    const sortedLogs: TimestampHeap

    ghost function Now(): Queue
      reads this, sortedLogs
    {
      Queue(size, queue, sortedLogs.items)
    }

    constructor (bufferSize: nat)
      ensures Now() == NewQueue(bufferSize) && fresh(sortedLogs)
    {
      size := bufferSize + 1;
      queue := [];
      sortedLogs := new TimestampHeap();
    }

    /** The search for a log's place in the heap. */
    method FindPosition(offset: nat) returns (pos: nat)
      ensures pos == Position(sortedLogs.items, offset)
    {
      pos := 0;
      var h := sortedLogs.items;
      for i := 0 to |h|
        invariant pos == 0 && PositionFrom(h, offset, 0) == PositionFrom(h, offset, i)
      {
        if h[i].id == offset {
          return i;
        }
      }
    }

    /** The oldest log leaves both; the loop merges what follows it and is before it. */
    method ReleaseOldest() returns (out: Log)
      requires |queue| > 0 && Agrees(Now())
      modifies this, sortedLogs
      ensures |old(Now()).heap| > 0 && (Now(), out) == Release(old(Now()))
      ensures |queue| < old(|queue|)
    {
      ReleaseAgrees(Now());
      TakeAgrees(Now());
      var sl := queue[0];
      var pos := FindPosition(sl.offset);
      queue := queue[1..];
      sortedLogs.Remove(pos);
      if pos > 1 {
        return Log(None, sl.line, 0, 0);
      }
      out := sl;
      while |queue| > 0 && queue[0].stamp.value < sl.stamp.value
        invariant Agrees(Now()) && out.stamp == sl.stamp
        invariant Merge(Now(), out) == Release(old(Now()))
        decreases |queue|
      {
        TakeAgrees(Now());
        var next := queue[0];
        queue := queue[1..];
        out := out.(line := out.line + next.line);
        var at := FindPosition(next.offset);
        if at < |sortedLogs.items| && sortedLogs.items[at].id == next.offset {
          sortedLogs.Remove(at);
        }
      }
    }

    method Consume(log: Log) returns (out: Option<Log>)
      requires Ready(Now(), log.offset)
      modifies this, sortedLogs
      ensures (Now(), out) == ConsumeLog(old(Now()), log)
    {
      if log.stamp.None? {
        if |queue| > 0 {
          var last := queue[|queue| - 1];
          queue := queue[|queue| - 1 := last.(line := last.line + "\n" + log.line)];
        }
        return None;
      }
      EnterAgrees(Now(), log);
      queue := queue + [log];
      sortedLogs.Push(ItemOf(log));
      if |queue| == size {
        var sl := ReleaseOldest();
        return Some(sl);
      }
      return None;
    }

    method DumpRemaining() returns (remaining: seq<Log>)
      requires Agrees(Now())
      modifies this, sortedLogs
      ensures remaining == Dump(old(Now())) && queue == [] && Agrees(Now())
    {
      hide Release, Agrees;
      remaining := [];
      while |queue| > 0
        invariant Agrees(Now()) && remaining + Dump(Now()) == Dump(old(Now()))
        decreases |queue|
      {
        ReleaseAgrees(Now());
        ghost var q, given := Now(), remaining;
        var sl := ReleaseOldest();
        assert Dump(q) == [sl] + Dump(Now());
        remaining := remaining + [sl];
        assert remaining + Dump(Now()) == given + Dump(q);
      }
    }
  }

  class LogIterator {
    var lines: seq<Line>   // what the scanner has not read yet
    const queue: OrderedQueue
    var toYield: Option<Log>
    var remaining: Option<seq<Log>>   // nil until DumpRemaining gives something
    var offset: nat

    ghost predicate Valid()
      reads this, queue, queue.sortedLogs
    {
      && Ready(queue.Now(), offset)
      && (remaining.Some? ==> lines == [] && queue.queue == [])
    }

    /** All the records that the calls of Next to come will return. */
    ghost function Future(): seq<Log>
      requires Valid()
      reads this, queue, queue.sortedLogs
    {
      Deliver(toYield, if remaining.Some? then remaining.value else Outs(lines, offset, queue.Now()))
    }

    constructor (lines: seq<Line>, bufferSize: nat)
      ensures Valid() && Future() == Records(lines, bufferSize)
      ensures fresh(queue) && fresh(queue.sortedLogs)
    {
      this.lines, toYield, remaining, offset := lines, None, None, 0;
      queue := new OrderedQueue(bufferSize);
      new;
      NewReady(bufferSize);
    }

    /** A log from the buffer: it opens a record, and closes the one before it, or it continues one. */
    method Take(out: Log) returns (log: Option<Log>)
      modifies this`toYield
      ensures (toYield, if log.Some? then [log.value] else []) == Absorb(old(toYield), out)
    {
      if out.stamp.Some? {
        log := toYield;
        toYield := Some(out);
      } else {
        if toYield.Some? {
          toYield := Some(toYield.value.(line := toYield.value.line + out.line, length := toYield.value.length + out.length + 1));
        }
        log := None;
      }
    }

    /** The first loop of Next: the lines of the file. */
    method ScanLines() returns (log: Option<Log>)
      requires Valid() && (remaining.Some? ==> lines == [])
      modifies this, queue, queue.sortedLogs
      ensures Valid() && remaining == old(remaining)
      ensures log.Some? ==> old(Future()) == [log.value] + Future()
      ensures log.None? ==> lines == [] && Future() == old(Future())
    {
      hide Agrees, ConsumeLog, Outs, Deliver;
      while |lines| > 0
        invariant Valid() && remaining == old(remaining) && Future() == old(Future())
        decreases |lines|
      {
        ghost var all, from, q, y := lines, offset, queue.Now(), toYield;
        var stampedLog := Parse(lines[0], offset);
        ConsumeReady(queue.Now(), stampedLog, offset + stampedLog.length + 1);
        var curLog := queue.Consume(stampedLog);
        assert ConsumeLine(q, lines[0], offset) == (queue.Now(), if curLog.Some? then [curLog.value] else []);
        lines, offset := lines[1..], offset + stampedLog.length + 1;
        log := None;
        if curLog.Some? {
          log := Take(curLog.value);
        }
        ScanStep(all, from, q, y, toYield, if log.Some? then [log.value] else []);
        if log.Some? {
          return;
        }
      }
      return None;
    }

    method FillRemaining()
      requires Valid() && lines == []
      modifies this, queue, queue.sortedLogs
      ensures Valid() && lines == [] && queue.queue == [] && Future() == old(Future())
    {
      if remaining.None? {
        hide Agrees, Deliver;
        var dumped := queue.DumpRemaining();
        remaining := if dumped == [] then None else Some(dumped);
      }
    }

    /** The second loop of Next: what DumpRemaining gave. */
    method YieldRemaining() returns (log: Option<Log>)
      requires Valid() && lines == [] && queue.queue == []
      modifies this
      ensures Valid()
      ensures log.Some? ==> old(Future()) == [log.value] + Future()
      ensures log.None? ==> lines == [] && queue.queue == [] && Future() == old(Future())
      ensures log.None? ==> remaining.Some? ==> remaining.value == []
    {
      hide Agrees, Dump, Outs;
      while remaining.Some? && |remaining.value| > 0
        invariant Valid() && lines == [] && queue.queue == [] && Future() == old(Future())
        decreases if remaining.Some? then |remaining.value| else 0
      {
        var stampedLog := remaining.value[0];
        remaining := Some(remaining.value[1..]);
        log := Take(stampedLog);
        if log.Some? {
          return;
        }
      }
      return None;
    }

    /** Next returns the records one by one, and nothing once there is none left. */
    method Next() returns (log: Option<Log>)
      requires Valid()
      modifies this, queue, queue.sortedLogs
      ensures Valid()
      ensures log.Some? ==> old(Future()) == [log.value] + Future()
      ensures log.None? ==> old(Future()) == [] && Future() == []
    {
      hide Agrees;
      log := ScanLines();
      if log.Some? {
        return;
      }
      FillRemaining();
      log := YieldRemaining();
      if log.Some? {
        return;
      }
      log := toYield;
      toYield := None;
    }
  }
}
