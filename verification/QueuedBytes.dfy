/** The byte budget shared by the HTTP ingress and the rule engine (internal/queuedbytes).

    `CallStep` is one turn of the compare-and-swap loops of TryReserve and Release: a load, or a
    swap that fails when the counter moved in between. The concurrent protocol in `RuleIngress`
    schedules these turns one at a time; class `Budget` runs each loop to its end without
    interference, for the callers that are reasoned about sequentially. */
module QueuedBytes {
  import opened Wrappers

  /** What a payload reserves beyond its own bytes. */
  const OVERHEAD: nat := 256

  /** The five states of a tracked reservation. */
  datatype Phase = Open | Claimed | Admitted | Aborted | Finished

  datatype Reservation = Reservation(size: nat, phase: Phase)

  /** A TryReserve (`Take`) or Release (`Give`) in progress; `seen` is the value of its last load. */
  datatype Call =
    | Take(size: nat, seen: Option<int>)
    | Give(size: nat, seen: Option<int>)

  datatype Reply = Again(call: Call) | Done | Refused

  /** One atomic turn of a call: the new counter and what the caller sees. */
  function CallStep(limit: nat, queued: int, call: Call): (int, Reply) {
    match call
    case Take(size, None) =>
      if size > limit || queued > limit - size then (queued, Refused)
      else (queued, Again(Take(size, Some(queued))))
    case Take(size, Some(seen)) =>
      if queued == seen then (queued + size, Done) else (queued, Again(Take(size, None)))
    case Give(size, None) =>
      if size == 0 then (queued, Done)
      else if size > queued then (queued, Refused)
      else (queued, Again(Give(size, Some(queued))))
    case Give(size, Some(seen)) =>
      if queued == seen then (queued - size, Done) else (queued, Again(Give(size, None)))
  }

  /** A load that let the call go on is still worth what it saw. */
  predicate CallOk(limit: nat, call: Call) {
    match call
    case Take(size, Some(seen)) => seen + size <= limit
    case Give(size, Some(seen)) => size <= seen
    case _ => true
  }

  /** The turns of a call up to its end, when the counter stands at `counters[i]` at turn `i`. */
  function Turns(limit: nat, counters: seq<nat>, call: Call): seq<(int, Reply)> {
    if counters == [] then []
    else
      var (after, reply) := CallStep(limit, counters[0], call);
      [(after, reply)] + if reply.Again? then Turns(limit, counters[1..], reply.call) else []
  }

  /** A turn either does the whole call, where it can be done, or refuses it, where it cannot, or
      changes nothing. */
  predicate Atomic(limit: nat, call: Call, counter: int, after: int, reply: Reply) {
    match reply
    case Again(_) => after == counter
    case Done =>
      if call.Take? then after == counter + call.size <= limit else 0 <= after == counter - call.size
    case Refused => after == counter && if call.Take? then counter + call.size > limit else counter < call.size
  }

  /** However the counter moves between its turns, a call takes or gives its size in one turn, its
      last, at a counter that allows it, or is refused in one at which it is not possible. */
  lemma {:induction false} CallsAreAtomic(limit: nat, counters: seq<nat>, call: Call)
    requires CallOk(limit, call)
    ensures var turns := Turns(limit, counters, call);
      |turns| <= |counters| && forall i :: 0 <= i < |turns| ==>
        Atomic(limit, call, counters[i], turns[i].0, turns[i].1) && (i + 1 < |turns| ==> turns[i].1.Again?)
    decreases |counters|
  {
    if counters != [] {
      var (after, reply) := CallStep(limit, counters[0], call);
      if reply.Again? {
        CallsAreAtomic(limit, counters[1..], reply.call);
      }
    }
  }

  /** A load and a swap between which the counter stays the same end the call. */
  lemma {:induction false} UndisturbedEnds(limit: nat, counters: seq<nat>, call: Call, m: nat)
    requires call.seen.None? && 2 * m + 1 < |counters| && counters[2 * m] == counters[2 * m + 1]
    ensures var turns := Turns(limit, counters, call);
      0 < |turns| <= 2 * m + 2 && !turns[|turns| - 1].1.Again?
    decreases m
  {
    var (after, reply) := CallStep(limit, counters[0], call);
    if reply.Again? {
      var (later, next) := CallStep(limit, counters[1], reply.call);
      assert Turns(limit, counters[1..], reply.call)[0] == (later, next);
      if next.Again? {
        assert counters[1..][1..] == counters[2..] && m > 0;
        UndisturbedEnds(limit, counters[2..], next.call, m - 1);
      }
    }
  }

  /** The budget without interference: every loop ends in its first round. */
  class Budget {
    const limit: nat
    var queued: nat

    ghost predicate Valid() reads this { queued <= limit }

    constructor (limit: nat)
      ensures Valid() && this.limit == limit && queued == 0
    {
      this.limit := limit;
      queued := 0;
    }

    method TryReserve(size: int) returns (ok: bool)
      requires Valid()
      modifies this
      ensures Valid()
      ensures ok <==> 0 <= size && old(queued) + size <= limit
      ensures queued == if ok then old(queued) + size else old(queued)
    {
      if size < 0 || size > limit {
        return false;
      }
      if queued > limit - size {
        return false;
      }
      queued := queued + size;
      return true;
    }

    method Release(size: int) returns (ok: bool)
      requires Valid()
      modifies this
      ensures Valid()
      ensures ok <==> 0 <= size <= old(queued)
      ensures queued == if ok then old(queued) - size else old(queued)
    {
      if size < 0 {
        return false;
      }
      if size == 0 {
        return true;
      }
      if size > queued {
        return false;
      }
      queued := queued - size;
      return true;
    }
  }
}
