/** The binary heap of internal/log_reader/ordered_queue.go, with the operations of Go's container/heap.

    An item stands for a pointer to a stamped log: its timestamp and the log's offset in the file,
    which identifies it. `Up` and `Down` specify the two sifting loops; class `TimestampHeap` runs
    them in place. */
module LogHeap {
  datatype Item = Item(stamp: int, id: nat)

  function Parent(j: nat): nat
    requires j > 0
  {
    (j - 1) / 2
  }

  predicate Less(h: seq<Item>, i: nat, j: nat)
    requires i < |h| && j < |h|
  {
    h[i].stamp < h[j].stamp
  }

  function Swap(h: seq<Item>, i: nat, j: nat): (r: seq<Item>)
    requires i < |h| && j < |h|
    ensures |r| == |h|
  {
    h[i := h[j]][j := h[i]]
  }

  /** up: item `j` rises while it is before its parent. */
  function Up(h: seq<Item>, j: nat): (r: seq<Item>)
    requires j < |h|
    ensures |r| == |h|
    decreases j
  {
    if j == 0 || !Less(h, j, Parent(j)) then h else Up(Swap(h, Parent(j), j), Parent(j))
  }

  /** The child that `Down` compares with: the smaller of the two, the left one on a tie. */
  function SmallerChild(h: seq<Item>, i: nat, n: nat): (j: nat)
    requires n <= |h| && 2 * i + 1 < n
    ensures i < j < n
  {
    if 2 * i + 2 < n && Less(h, 2 * i + 2, 2 * i + 1) then 2 * i + 2 else 2 * i + 1
  }

  /** down: item `i` sinks among the first `n` while a child is before it. */
  function Down(h: seq<Item>, i: nat, n: nat): (r: seq<Item>)
    requires n <= |h|
    ensures |r| == |h|
    decreases n - i
  {
    if 2 * i + 1 >= n || !Less(h, SmallerChild(h, i, n), i) then h
    else Down(Swap(h, i, SmallerChild(h, i, n)), SmallerChild(h, i, n), n)
  }

  function HeapPush(h: seq<Item>, x: Item): seq<Item> {
    Up(h + [x], |h|)
  }

  /** Remove: the last item takes the place of item `i` and sinks or, if it cannot, rises. */
  function HeapRemove(h: seq<Item>, i: nat): (r: seq<Item>)
    requires i < |h|
  {
    var n := |h| - 1;
    if i == n then h[..n]
    else
      var s := Swap(h, i, n);
      var sinks := 2 * i + 1 < n && Less(s, SmallerChild(s, i, n), i);
      (if sinks then Down(s, i, n) else Up(s, i))[..n]
  }

  /** No item among the first `n` is before its parent. */
  predicate IsHeap(h: seq<Item>, n: nat)
    requires n <= |h|
  {
    forall j :: 0 < j < n ==> h[Parent(j)].stamp <= h[j].stamp
  }

  /** As `IsHeap`, but item `j` may be before its parent; its children are not before that parent. */
  predicate HeapButUp(h: seq<Item>, j: nat, n: nat)
    requires n <= |h|
  {
    && (forall k :: 0 < k < n && k != j ==> h[Parent(k)].stamp <= h[k].stamp)
    && (forall k :: 0 < k < n && Parent(k) == j && j > 0 ==> h[Parent(j)].stamp <= h[k].stamp)
  }

  /** As `IsHeap`, but item `i` may be after its children; they are not before its parent. */
  predicate HeapButDown(h: seq<Item>, i: nat, n: nat)
    requires n <= |h|
  {
    && (forall k :: 0 < k < n && Parent(k) != i ==> h[Parent(k)].stamp <= h[k].stamp)
    && (forall k :: 0 < k < n && Parent(k) == i && 0 < i < n ==> h[Parent(i)].stamp <= h[k].stamp)
  }

  lemma {:induction false} UpHeap(h: seq<Item>, j: nat, n: nat)
    requires j < n <= |h| && HeapButUp(h, j, n)
    ensures IsHeap(Up(h, j), n)
    decreases j
  {
    if j > 0 && Less(h, j, Parent(j)) {
      UpHeap(Swap(h, Parent(j), j), Parent(j), n);
    }
  }

  lemma {:induction false} ChildrenOf(i: nat, k: nat)
    requires k > 0
    ensures Parent(k) == i <==> k == 2 * i + 1 || k == 2 * i + 2
  {
  }

  /** One step down keeps everything in order except below the sunken item. */
  lemma {:induction false} DownStep(h: seq<Item>, i: nat, n: nat)
    requires n <= |h| && HeapButDown(h, i, n) && 2 * i + 1 < n && Less(h, SmallerChild(h, i, n), i)
    ensures HeapButDown(Swap(h, i, SmallerChild(h, i, n)), SmallerChild(h, i, n), n)
  {
    var c := SmallerChild(h, i, n);
    var s := Swap(h, i, c);
    ChildrenOf(i, c);
    forall k | 0 < k < n && Parent(k) != c
      ensures s[Parent(k)].stamp <= s[k].stamp
    {
      ChildrenOf(i, k);
      if i > 0 && k == i {
        assert Parent(c) == i;
      }
    }
    forall k | 0 < k < n && Parent(k) == c
      ensures s[Parent(c)].stamp <= s[k].stamp
    {
      ChildrenOf(c, k);
    }
  }

  lemma {:induction false} DownHeap(h: seq<Item>, i: nat, n: nat)
    requires i < n <= |h| && HeapButDown(h, i, n)
    ensures IsHeap(Down(h, i, n), n)
    decreases n - i
  {
    if 2 * i + 1 < n && Less(h, SmallerChild(h, i, n), i) {
      DownStep(h, i, n);
      DownHeap(Swap(h, i, SmallerChild(h, i, n)), SmallerChild(h, i, n), n);
    } else {
      forall k | 0 < k < n
        ensures h[Parent(k)].stamp <= h[k].stamp
      {
        ChildrenOf(i, k);
      }
    }
  }

  lemma {:induction false} SwapSame(h: seq<Item>, i: nat, j: nat)
    requires i < |h| && j < |h|
    ensures multiset(Swap(h, i, j)) == multiset(h)
  {
  }

  /** Rising moves the items up to `j` around, and no others. */
  lemma {:induction false} UpSame(h: seq<Item>, j: nat)
    requires j < |h|
    ensures multiset(Up(h, j)) == multiset(h)
    ensures forall k :: j < k < |h| ==> Up(h, j)[k] == h[k]
    decreases j
  {
    if j > 0 && Less(h, j, Parent(j)) {
      SwapSame(h, Parent(j), j);
      UpSame(Swap(h, Parent(j), j), Parent(j));
    }
  }

  /** Sinking moves the first `n` items around, not the next one. */
  lemma {:induction false} DownSame(h: seq<Item>, i: nat, n: nat)
    requires n < |h|
    ensures multiset(Down(h, i, n)) == multiset(h) && Down(h, i, n)[n] == h[n]
    decreases n - i
  {
    if 2 * i + 1 < n && Less(h, SmallerChild(h, i, n), i) {
      SwapSame(h, i, SmallerChild(h, i, n));
      DownSame(Swap(h, i, SmallerChild(h, i, n)), SmallerChild(h, i, n), n);
    }
  }

  /** heap.Push keeps the heap order and adds the item. */
  lemma {:induction false} PushHeap(h: seq<Item>, x: Item)
    requires IsHeap(h, |h|)
    ensures |HeapPush(h, x)| == |h| + 1 && IsHeap(HeapPush(h, x), |h| + 1)
    ensures multiset(HeapPush(h, x)) == multiset(h) + multiset{x}
  {
    UpHeap(h + [x], |h|, |h| + 1);
    UpSame(h + [x], |h|);
  }

  /** After the last item took place `i`, everything is in order except around it. */
  lemma {:induction false} ReplacedOrder(h: seq<Item>, i: nat, s: seq<Item>)
    requires i < |h| - 1 && IsHeap(h, |h|) && s == Swap(h, i, |h| - 1)
    ensures forall k :: 0 < k < |h| - 1 && Parent(k) != i && k != i ==> s[Parent(k)].stamp <= s[k].stamp
    ensures forall k :: 0 < k < |h| - 1 && Parent(k) == i ==> h[i].stamp <= s[k].stamp
    ensures i > 0 ==> s[Parent(i)].stamp <= h[i].stamp
  {
  }

  lemma {:induction false} RemoveSinks(h: seq<Item>, i: nat, s: seq<Item>)
    requires i < |h| - 1 && IsHeap(h, |h|) && s == Swap(h, i, |h| - 1)
    requires 2 * i + 1 < |h| - 1 && Less(s, SmallerChild(s, i, |h| - 1), i)
    ensures HeapButDown(s, i, |h| - 1)
  {
    ReplacedOrder(h, i, s);
    ChildrenOf(i, SmallerChild(s, i, |h| - 1));
  }

  lemma {:induction false} RemoveRises(h: seq<Item>, i: nat, s: seq<Item>)
    requires i < |h| - 1 && IsHeap(h, |h|) && s == Swap(h, i, |h| - 1)
    requires !(2 * i + 1 < |h| - 1 && Less(s, SmallerChild(s, i, |h| - 1), i))
    ensures HeapButUp(s, i, |h| - 1)
  {
    ReplacedOrder(h, i, s);
    forall k | 0 < k < |h| - 1 && Parent(k) == i
      ensures s[i].stamp <= s[k].stamp
    {
      ChildrenOf(i, k);
    }
  }

  lemma {:induction false} WithoutLast(h: seq<Item>, d: seq<Item>, x: Item)
    requires |d| == |h| > 0 && multiset(d) == multiset(h) && d[|d| - 1] == x
    ensures multiset(d[..|h| - 1]) == multiset(h) - multiset{x}
  {
    assert d == d[..|d| - 1] + [x];
  }

  lemma {:induction false} SinkSame(s: seq<Item>, i: nat, n: nat)
    requires i < n == |s| - 1
    ensures multiset(Down(s, i, n)[..n]) == multiset(s) - multiset{s[n]}
  {
    DownSame(s, i, n);
    hide Down;
    WithoutLast(s, Down(s, i, n), s[n]);
  }

  lemma {:induction false} RiseSame(s: seq<Item>, i: nat, n: nat)
    requires i < n == |s| - 1
    ensures multiset(Up(s, i)[..n]) == multiset(s) - multiset{s[n]}
  {
    UpSame(s, i);
    hide Up;
    WithoutLast(s, Up(s, i), s[n]);
  }

  lemma {:induction false} RemoveSame(h: seq<Item>, i: nat)
    requires i < |h|
    ensures |HeapRemove(h, i)| == |h| - 1 && multiset(HeapRemove(h, i)) == multiset(h) - multiset{h[i]}
  {
    if i == |h| - 1 {
      WithoutLast(h, h, h[i]);
    } else {
      SwapSame(h, i, |h| - 1);
      SinkSame(Swap(h, i, |h| - 1), i, |h| - 1);
      RiseSame(Swap(h, i, |h| - 1), i, |h| - 1);
    }
  }

  /** heap.Remove at any index keeps the heap order and takes out that item only. */
  lemma {:induction false} RemoveHeap(h: seq<Item>, i: nat)
    requires i < |h| && IsHeap(h, |h|)
    ensures |HeapRemove(h, i)| == |h| - 1 && IsHeap(HeapRemove(h, i), |h| - 1)
    ensures multiset(HeapRemove(h, i)) == multiset(h) - multiset{h[i]}
  {
    var n := |h| - 1;
    RemoveSame(h, i);
    if i < n {
      var s := Swap(h, i, n);
      if 2 * i + 1 < n && Less(s, SmallerChild(s, i, n), i) {
        RemoveSinks(h, i, s);
        DownHeap(s, i, n);
      } else {
        RemoveRises(h, i, s);
        UpHeap(s, i, n);
      }
    }
  }

  /** The root is a first item. */
  lemma {:induction false} RootIsLeast(h: seq<Item>, j: nat)
    requires j < |h| && IsHeap(h, |h|)
    ensures h[0].stamp <= h[j].stamp
  {
    if j > 0 {
      RootIsLeast(h, Parent(j));
    }
  }

  class TimestampHeap {
    var items: seq<Item>

    constructor ()
      ensures items == []
    {
      items := [];
    }

    method SiftUp(start: nat)
      requires start < |items|
      modifies this
      ensures items == Up(old(items), start)
    {
      var j := start;
      while j > 0 && items[j].stamp < items[Parent(j)].stamp
        invariant 0 <= j < |items| && Up(items, j) == Up(old(items), start)
      {
        items := items[Parent(j) := items[j]][j := items[Parent(j)]];
        j := Parent(j);
      }
    }

    method SiftDown(start: nat, n: nat) returns (moved: bool)
      requires start < n <= |items|
      modifies this
      ensures items == Down(old(items), start, n)
      ensures moved <==> 2 * start + 1 < n && Less(old(items), SmallerChild(old(items), start, n), start)
    {
      var i := start;
      while 2 * i + 1 < n && items[SmallerChild(items, i, n)].stamp < items[i].stamp
        invariant n <= |items| && start <= i && Down(items, i, n) == Down(old(items), start, n)
        invariant i == start ==> items == old(items)
        invariant i > start ==> 2 * start + 1 < n && Less(old(items), SmallerChild(old(items), start, n), start)
        decreases n - i
      {
        var j := 2 * i + 1;
        if j + 1 < n && items[j + 1].stamp < items[j].stamp {
          j := j + 1;
        }
        items := items[i := items[j]][j := items[i]];
        i := j;
      }
      moved := i > start;
    }

    method Push(x: Item)
      modifies this
      ensures items == HeapPush(old(items), x)
    {
      items := items + [x];
      SiftUp(|items| - 1);
    }

    method Remove(i: nat)
      requires i < |items|
      modifies this
      ensures items == HeapRemove(old(items), i)
    {
      var n := |items| - 1;
      if n != i {
        items := items[i := items[n]][n := items[i]];
        var moved := SiftDown(i, n);
        if !moved {
          SiftUp(i);
        }
      }
      items := items[..n];
    }
  }
}
