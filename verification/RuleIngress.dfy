/** The ownership protocol of HTTP rule messages.

    Any number of HTTP requests (`RulesHandler`), the subscriber (`handleSubMsg`), the consumer
    (`consumeRuleMessages`) and the file readers share one byte budget, the reservation table and
    the rule queue. Every atomic operation is one action: a load or a compare-and-swap of the byte
    counter, a table load, a state swap, a table delete, a channel send or receive. The scheduler
    is the list of actions. An action that is not enabled leaves the state as it is.

    Message identifiers are arbitrary strings, so two requests may even use the same one. */
module RuleIngress {
  import opened Wrappers
  import opened QueuedBytes

  // ---------- State ----------

  /** What a request's running budget call is for. */
  datatype Purpose = Body | Payload | Payloads(index: nat)

  datatype Stage =
    | Arriving | Decoding | Tracking | Publishing
    | FinishLoad | FinishSwap | FinishRead(owned: bool) | FinishDelete(owned: bool, phase: Phase)
    | Draining | Over

  /** One HTTP request: what it holds, its reservation record, and what FinishMessage told it. */
  datatype Request = Request(
    stage: Stage,
    call: Option<(Purpose, Call)>,
    id: string,
    counted: bool,   // the body reader takes what it reads
    body: nat,
    payloads: seq<nat>,
    slot: Option<Reservation>,
    admitted: bool,
    transferred: bool,
    entered: bool,   // history: a batch carrying this reservation entered the rule queue
    repaid: nat      // history: how often the transferred reservation was released
  )

  datatype Entry = HttpBatch(owner: nat, size: nat, id: string) | FileItem

  datatype Subscriber =
    | Idle
    | ClaimSwap(target: nat, id: string)
    | Holding(owner: nat, size: nat, id: string)
    | AdmitLoad(id: string)
    | AdmitSwap(target: nat)
    | AbortLoad(owner: nat, size: nat, id: string)
    | AbortSwap(owner: nat, size: nat, target: nat)
    | Freeing(owner: nat, size: nat, call: Call)
    | Stopped

  datatype Consumer =
    | Waiting
    | Handling(owner: nat, size: nat)
    | Repaying(owner: nat, size: nat, call: Call, stopping: bool)
    | Sweeping
    | Gone

  datatype State = State(
    limit: nat,
    capacity: nat,
    queued: int,
    table: map<string, nat>,
    requests: seq<Request>,
    queue: seq<Entry>,
    sub: Subscriber,
    con: Consumer,
    stopped: bool,   // the context is done
    refused: bool    // history: some Release refused
  )

  // ---------- Actions ----------

  /** What a request does next where its program, its input or the network leaves a choice. */
  datatype Choice =
    | Known(length: nat)     // Content-Length given
    | Chunked
    | ReadChunk(size: nat)   // one Read of the body
    | Message(length: nat)   // one decoded message
    | Replace(index: nat)    // an earlier "messages" field is replaced
    | Fail                   // decoding fails
    | Go

  datatype Action =
    | Serve(r: nat, choice: Choice)
    | Deliver(id: string)
    | SubGo
    | SubCancel
    | ConGo
    | ConStop
    | EnqueueFile
    | Stop

  function Fresh(id: string): Request {
    Request(Arriving, None, id, false, 0, [], None, false, false, false, 0)
  }

  function Init(limit: nat, capacity: nat, ids: seq<string>): State {
    State(limit, capacity, 0, map[], seq(|ids|, i requires 0 <= i < |ids| => Fresh(ids[i])), [], Idle, Waiting, false, false)
  }

  function Ask(req: Request, purpose: Purpose, call: Call): Request {
    req.(call := Some((purpose, call)))
  }

  function Without<T>(s: seq<T>, i: nat): seq<T>
    requires i < |s|
  {
    s[..i] + s[i + 1..]
  }

  /** A budget call of a request was granted. */
  function Granted(req: Request, purpose: Purpose, call: Call): Request {
    var r := req.(call := None);
    match call
    case Take(size, _) =>
      if purpose == Body then r.(body := r.body + size, stage := Decoding)
      else r.(payloads := r.payloads + [size])
    case Give(size, _) =>
      if purpose.Payloads? && purpose.index < |r.payloads| then r.(payloads := Without(r.payloads, purpose.index))
      else if purpose == Body then r.(body := 0, stage := Over)
      else r
  }

  /** The budget refused: a body that never fitted ends the request; a chunk is an error of the reader,
      which the decoder may or may not report; anything else starts the clean-up. */
  function Denied(req: Request, purpose: Purpose): Request {
    req.(call := None, stage := if req.stage == Arriving then Over else if purpose == Body then req.stage else Draining)
  }

  function Answered(req: Request, purpose: Purpose, call: Call, reply: Reply): Request {
    match reply
    case Again(next) => Ask(req, purpose, next)
    case Done => Granted(req, purpose, call)
    case Refused => Denied(req, purpose)
  }

  /** A request that comes in: its body is reserved, counted while it is read, or not wanted. */
  function Arrive(req: Request, choice: Choice): Request {
    match choice
    case Known(length) => Ask(req, Body, Take(length, None))
    case Chunked => req.(stage := Decoding, counted := true)
    case _ => req.(stage := Over)
  }

  /** One step of decoding. */
  function DecodeOn(req: Request, choice: Choice): Request {
    match choice
    case ReadChunk(size) => if req.counted then Ask(req, Body, Take(size, None)) else req
    case Message(length) => Ask(req, Payload, Take(length + OVERHEAD, None))
    case Replace(i) => if i < |req.payloads| then Ask(req, Payloads(i), Give(req.payloads[i], None)) else req
    case Fail => req.(stage := Draining)
    case _ => req.(stage := if |req.payloads| == 0 then Draining else Tracking)
  }

  /** TrackMessage */
  function Track(req: Request, table: map<string, nat>): Request {
    if req.id == "" || Sum(req.payloads) <= 0 || req.id in table then req.(stage := Draining)
    else req.(stage := Publishing, slot := Some(Reservation(Sum(req.payloads), Open)))
  }

  /** The end of FinishMessage: what it tells the request. */
  function Told(req: Request, owned: bool, phase: Phase): Request {
    var transferred := !owned && (phase == Claimed || phase == Admitted || phase == Aborted);
    req.(stage := Draining,
         admitted := !owned && phase == Admitted,
         transferred := transferred,
         payloads := if transferred then seq(|req.payloads|, i => 0) else req.payloads)
  }

  /** Publish returns, and FinishMessage takes its four steps. */
  function FinishOn(req: Request, table: map<string, nat>): Request {
    match req.stage
    case FinishLoad => req.(stage := if req.id in table then FinishSwap else Draining)
    case FinishSwap =>
      if req.slot.Some? && req.slot.value.phase == Open then
        req.(stage := FinishRead(true), slot := Some(req.slot.value.(phase := Finished)))
      else req.(stage := FinishRead(false))
    case FinishRead(owned) =>
      if req.slot.Some? then req.(stage := FinishDelete(owned, req.slot.value.phase)) else req
    case FinishDelete(owned, phase) => Told(req, owned, phase)
    case _ => req.(stage := FinishLoad)
  }

  /** The deferred releases: the payloads, then the body. */
  function Drain(req: Request): Request {
    if |req.payloads| > 0 then Ask(req, Payloads(0), Give(req.payloads[0], None))
    else Ask(req, Body, Give(req.body, None))
  }

  /** The request's side of one action, when no budget call is running. */
  function Program(req: Request, choice: Choice, table: map<string, nat>): Request {
    match req.stage
    case Arriving => Arrive(req, choice)
    case Decoding => DecodeOn(req, choice)
    case Tracking => Track(req, table)
    case Draining => Drain(req)
    case Over => req
    case _ => FinishOn(req, table)
  }

  /** The reservation table after the same action: only Tracking and FinishDelete touch it. */
  function Table(req: Request, r: nat, table: map<string, nat>): map<string, nat> {
    if req.stage == Tracking && req.id != "" && Sum(req.payloads) > 0 && req.id !in table then table[req.id := r]
    else if req.stage.FinishDelete? then table - {req.id}
    else table
  }

  function ServeStep(s: State, r: nat, choice: Choice): State
    requires r < |s.requests|
  {
    var req := s.requests[r];
    match req.call
    case Some((purpose, call)) =>
      var (queued, reply) := CallStep(s.limit, s.queued, call);
      s.(queued := queued,
         requests := s.requests[r := Answered(req, purpose, call, reply)],
         refused := s.refused || (reply.Refused? && call.Give?))
    case None =>
      s.(requests := s.requests[r := Program(req, choice, s.table)], table := Table(req, r, s.table))
  }

  /** A compare-and-swap on the state of reservation `r`. */
  function Swap(s: State, r: nat, from: Phase, to: Phase): State {
    if r < |s.requests| && s.requests[r].slot.Some? && s.requests[r].slot.value.phase == from then
      s.(requests := s.requests[r := s.requests[r].(slot := Some(s.requests[r].slot.value.(phase := to)))])
    else s
  }

  function Repaid(s: State, r: nat): State {
    if r < |s.requests| then s.(requests := s.requests[r := s.requests[r].(repaid := s.requests[r].repaid + 1)]) else s
  }

  /** ClaimMessage and the send of handleRuleMessage. `Deliver` is any message reaching the subscriber. */
  function DeliverStep(s: State, id: string): State {
    if s.sub != Idle then s
    else if id in s.table then s.(sub := ClaimSwap(s.table[id], id))
    else s
  }

  function SubStep(s: State): State {
    match s.sub
    case ClaimSwap(r, id) =>
      if r < |s.requests| && s.requests[r].slot.Some? && s.requests[r].slot.value.phase == Open then
        Swap(s, r, Open, Claimed).(sub := Holding(r, s.requests[r].slot.value.size, id))
      else s.(sub := Idle)
    case Holding(r, size, id) =>
      if |s.queue| < s.capacity && r < |s.requests| then
        s.(queue := s.queue + [HttpBatch(r, size, id)],
           requests := s.requests[r := s.requests[r].(entered := true)],
           sub := AdmitLoad(id))
      else s
    case AdmitLoad(id) => s.(sub := if id in s.table then AdmitSwap(s.table[id]) else Idle)
    case AdmitSwap(r) => Swap(s, r, Claimed, Admitted).(sub := Idle)
    case AbortLoad(r, size, id) =>
      s.(sub := if id in s.table then AbortSwap(r, size, s.table[id]) else Freeing(r, size, Give(size, None)))
    case AbortSwap(r, size, target) => Swap(s, target, Claimed, Aborted).(sub := Freeing(r, size, Give(size, None)))
    case Freeing(r, size, call) =>
      var (queued, reply) := CallStep(s.limit, s.queued, call);
      (match reply
       case Again(next) => s.(queued := queued, sub := Freeing(r, size, next))
       case Done => Repaid(s, r).(queued := queued, sub := Stopped)
       case Refused => s.(refused := true, sub := Stopped))
    case _ => s
  }

  /** The context wins the select: a held message is aborted, an idle subscriber stops. It may also
      stop because its subscription failed. */
  function CancelStep(s: State): State {
    match s.sub
    case Idle => s.(sub := Stopped)
    case Holding(r, size, id) => if s.stopped then s.(sub := AbortLoad(r, size, id)) else s
    case _ => s
  }

  function ConStep(s: State): State {
    match s.con
    case Waiting =>
      if |s.queue| > 0 then
        (match s.queue[0]
         case HttpBatch(r, size, _) => s.(queue := s.queue[1..], con := Handling(r, size))
         case FileItem => s.(queue := s.queue[1..]))
      else s
    case Handling(r, size) => s.(con := Repaying(r, size, Give(size, None), false))
    case Repaying(r, size, call, stopping) =>
      var (queued, reply) := CallStep(s.limit, s.queued, call);
      (match reply
       case Again(next) => s.(queued := queued, con := Repaying(r, size, next, stopping))
       case Done => Repaid(s, r).(queued := queued, con := if stopping then Sweeping else Waiting)
       case Refused => s.(refused := true, con := if stopping then Sweeping else Waiting))
    case Sweeping =>
      if |s.queue| > 0 then
        (match s.queue[0]
         case HttpBatch(r, size, _) => s.(queue := s.queue[1..], con := Repaying(r, size, Give(size, None), true))
         case FileItem => s.(queue := s.queue[1..]))
      else s.(con := Gone)
    case Gone => s
  }

  function Step(s: State, a: Action): State {
    match a
    case Serve(r, choice) => if r < |s.requests| then ServeStep(s, r, choice) else s
    case Deliver(id) => DeliverStep(s, id)
    case SubGo => SubStep(s)
    case SubCancel => CancelStep(s)
    case ConGo => ConStep(s)
    case ConStop => if s.con == Waiting && s.stopped && s.sub == Stopped then s.(con := Sweeping) else s
    case EnqueueFile => if |s.queue| < s.capacity then s.(queue := s.queue + [FileItem]) else s
    case Stop => s.(stopped := true)
  }

  function Run(s: State, schedule: seq<Action>): State
    decreases |schedule|
  {
    if schedule == [] then s else Step(Run(s, schedule[..|schedule| - 1]), schedule[|schedule| - 1])
  }

  // ---------- What is held where ----------

  function Sum(s: seq<nat>): nat {
    if s == [] then 0 else s[0] + Sum(s[1..])
  }

  /** The reservation passed from the publisher to the subscriber. */
  predicate HandedOver(req: Request) {
    req.slot.Some? && req.slot.value.phase in {Claimed, Admitted, Aborted}
  }

  /** The bytes a request still owns: its body, and its payloads unless they were handed over. */
  function Owned(req: Request): nat {
    req.body + if HandedOver(req) then 0 else Sum(req.payloads)
  }

  function RequestBytes(requests: seq<Request>): nat {
    if requests == [] then 0 else Owned(requests[0]) + RequestBytes(requests[1..])
  }

  function QueueBytes(queue: seq<Entry>): nat {
    if queue == [] then 0 else (if queue[0].HttpBatch? then queue[0].size else 0) + QueueBytes(queue[1..])
  }

  function SubBytes(sub: Subscriber): nat {
    if sub.Holding? || sub.AbortLoad? || sub.AbortSwap? || sub.Freeing? then sub.size else 0
  }

  function ConBytes(con: Consumer): nat {
    if con.Handling? || con.Repaying? then con.size else 0
  }

  /** Every outstanding reservation: bodies, publisher-held payloads, claimed messages, queued and handled batches. */
  function Outstanding(s: State): nat {
    RequestBytes(s.requests) + SubBytes(s.sub) + QueueBytes(s.queue) + ConBytes(s.con)
  }

  predicate SubHas(sub: Subscriber, r: nat) {
    (sub.Holding? || sub.AbortLoad? || sub.AbortSwap? || sub.Freeing?) && sub.owner == r
  }

  predicate ConHas(con: Consumer, r: nat) {
    (con.Handling? || con.Repaying?) && con.owner == r
  }

  function CountIn(queue: seq<Entry>, r: nat): nat {
    if queue == [] then 0 else (if queue[0].HttpBatch? && queue[0].owner == r then 1 else 0) + CountIn(queue[1..], r)
  }

  /** How many places beyond the publisher hold the reservation of request `r`. */
  function Holders(s: State, r: nat): nat {
    (if SubHas(s.sub, r) then 1 else 0) + CountIn(s.queue, r) + (if ConHas(s.con, r) then 1 else 0)
  }

  /** No request, subscriber or consumer has anything left to do. */
  predicate Quiet(s: State) {
    (forall r :: 0 <= r < |s.requests| ==> s.requests[r].stage == Over) && s.sub == Stopped && s.con == Gone
  }

  // ---------- The invariant ----------

  predicate Tracked(req: Request) {
    req.stage.Publishing? || req.stage.FinishLoad? || req.stage.FinishSwap? || req.stage.FinishRead? || req.stage.FinishDelete?
  }

  /** The running budget call fits the request's stage, and a payload is only given back while it is owned. */
  predicate CallFits(limit: nat, req: Request) {
    match req.call
    case None => true
    case Some((purpose, call)) =>
      && CallOk(limit, call)
      && (match call
          case Take(size, _) =>
            (req.stage.Arriving? && purpose == Body) || (req.stage.Decoding? && (purpose == Body || purpose == Payload))
          case Give(size, _) =>
            || (req.stage.Decoding? && purpose.Payloads? && purpose.index < |req.payloads| && size == req.payloads[purpose.index])
            || (req.stage.Draining? && purpose == Payloads(0) && |req.payloads| > 0 && size == req.payloads[0])
            || (req.stage.Draining? && purpose == Body && |req.payloads| == 0 && size == req.body))
  }

  predicate RequestOk(limit: nat, req: Request) {
    && CallFits(limit, req)
    && (req.admitted ==> req.slot.Some? && req.slot.value.phase == Admitted)
    && (req.transferred ==> HandedOver(req) && (req.stage.Draining? || req.stage.Over?))
    && (req.slot.Some? && req.slot.value.phase == Admitted ==> req.entered)
    && match req.stage
       case Arriving => req.slot.None? && req.body == 0 && req.payloads == []
       case Decoding => req.slot.None?
       case Tracking => req.slot.None?
       case Publishing | FinishLoad | FinishSwap =>
         req.slot.Some? && req.slot.value.phase != Finished && req.slot.value.size == Sum(req.payloads)
       case FinishRead(owned) =>
         req.slot.Some? && req.slot.value.size == Sum(req.payloads) && req.slot.value.phase != Open
         && (owned <==> req.slot.value.phase == Finished)
       case FinishDelete(owned, phase) =>
         req.slot.Some? && req.slot.value.size == Sum(req.payloads) && req.slot.value.phase != Open
         && (owned <==> req.slot.value.phase == Finished) && (owned <==> phase == Finished) && phase != Open
         && (phase == Admitted ==> req.slot.value.phase == Admitted)
       case Draining =>
         (req.slot.Some? ==> req.slot.value.phase != Open) && (HandedOver(req) ==> req.transferred && Sum(req.payloads) == 0)
       case Over =>
         req.body == 0 && req.payloads == [] && req.call == None
         && (req.slot.Some? ==> req.slot.value.phase != Open) && (HandedOver(req) ==> req.transferred)
  }

  predicate RequestsOk(s: State) {
    forall r {:trigger RequestOk(s.limit, s.requests[r])} :: 0 <= r < |s.requests| ==> RequestOk(s.limit, s.requests[r])
  }

  predicate TableOk(s: State) {
    && (forall id :: id in s.table ==>
          s.table[id] < |s.requests| && s.requests[s.table[id]].id == id && Tracked(s.requests[s.table[id]]))
    && (forall r :: 0 <= r < |s.requests| && Tracked(s.requests[r]) ==>
          s.requests[r].id in s.table && s.table[s.requests[r].id] == r)
  }

  /** `r`'s reservation was handed over and has this size. */
  predicate Carries(s: State, r: nat, size: nat) {
    r < |s.requests| && HandedOver(s.requests[r]) && s.requests[r].slot.value.size == size
  }

  predicate SubOk(s: State) {
    match s.sub
    case Holding(r, size, id) => Carries(s, r, size) && s.requests[r].id == id
    case ClaimSwap(r, id) => r < |s.requests| && s.requests[r].id == id && s.requests[r].slot.Some?
    case AbortLoad(r, size, _) => Carries(s, r, size)
    case AbortSwap(r, size, _) => Carries(s, r, size)
    case Freeing(r, size, call) => Carries(s, r, size) && call.Give? && call.size == size && CallOk(s.limit, call)
    case _ => true
  }

  /** A claimed reservation either entered the queue or is in the subscriber's hands (or was, when it stopped). */
  predicate ClaimsOk(s: State) {
    forall r :: 0 <= r < |s.requests| && s.requests[r].slot.Some? && s.requests[r].slot.value.phase == Claimed ==>
      s.requests[r].entered || SubHas(s.sub, r) || s.sub.Stopped?
  }

  predicate QueueOk(s: State) {
    forall i :: 0 <= i < |s.queue| && s.queue[i].HttpBatch? ==>
      Carries(s, s.queue[i].owner, s.queue[i].size) && s.requests[s.queue[i].owner].id == s.queue[i].id
  }

  predicate ConOk(s: State) {
    match s.con
    case Handling(r, size) => Carries(s, r, size)
    case Repaying(r, size, call, stopping) =>
      Carries(s, r, size) && call.Give? && call.size == size && CallOk(s.limit, call) && (stopping ==> s.sub.Stopped?)
    case Sweeping => s.sub.Stopped?
    case Gone => s.sub.Stopped? && QueueBytes(s.queue) == 0 && forall i :: 0 <= i < |s.queue| ==> s.queue[i].FileItem?
    case Waiting => true
  }

  /** Exactly one place, past or present, has every reservation that was handed over. */
  predicate HoldersOk(s: State) {
    forall r :: 0 <= r < |s.requests| ==>
      Holders(s, r) + s.requests[r].repaid == if HandedOver(s.requests[r]) then 1 else 0
  }

  predicate Inv(s: State) {
    && 0 <= s.queued <= s.limit
    && s.queued == Outstanding(s)
    && !s.refused
    && RequestsOk(s)
    && TableOk(s)
    && SubOk(s)
    && ClaimsOk(s)
    && QueueOk(s)
    && ConOk(s)
    && HoldersOk(s)
  }

  // ---------- Sums ----------

  lemma {:induction false} SumAppend(s: seq<nat>, x: nat)
    ensures Sum(s + [x]) == Sum(s) + x
  {
    if s == [] {
    } else {
      assert (s + [x])[1..] == s[1..] + [x];
      SumAppend(s[1..], x);
    }
  }

  lemma {:induction false} SumWithout(s: seq<nat>, i: nat)
    requires i < |s|
    ensures Sum(Without(s, i)) == Sum(s) - s[i]
  {
    if i == 0 {
      assert Without(s, 0) == s[1..];
    } else {
      assert Without(s, i)[0] == s[0] && Without(s, i)[1..] == Without(s[1..], i - 1);
      SumWithout(s[1..], i - 1);
    }
  }

  lemma {:induction false} SumZeros(n: nat)
    ensures Sum(seq(n, i => 0)) == 0
  {
    if n > 0 {
      assert seq(n, i => 0)[1..] == seq(n - 1, i => 0);
      SumZeros(n - 1);
    }
  }

  lemma {:induction false} SumAtLeast(s: seq<nat>, i: nat)
    requires i < |s|
    ensures s[i] <= Sum(s)
  {
    SumWithout(s, i);
  }

  lemma {:induction false} RequestBytesUpdate(q: seq<Request>, r: nat, x: Request)
    requires r < |q|
    ensures RequestBytes(q[r := x]) == RequestBytes(q) - Owned(q[r]) + Owned(x)
    ensures Owned(q[r]) <= RequestBytes(q)
  {
    if r > 0 {
      assert q[r := x][1..] == q[1..][r - 1 := x];
      RequestBytesUpdate(q[1..], r - 1, x);
    } else {
      assert q[r := x][1..] == q[1..];
    }
  }

  lemma {:induction false} QueueAppend(q: seq<Entry>, e: Entry, r: nat)
    ensures QueueBytes(q + [e]) == QueueBytes(q) + if e.HttpBatch? then e.size else 0
    ensures CountIn(q + [e], r) == CountIn(q, r) + if e.HttpBatch? && e.owner == r then 1 else 0
  {
    if q == [] {
    } else {
      assert (q + [e])[1..] == q[1..] + [e];
      QueueAppend(q[1..], e, r);
    }
  }

  // ---------- Every action keeps the invariant ----------

  /** Nothing a request shows to the other goroutines changes when it keeps its identity,
      the size of its reservation and the fact that it was handed over. */
  predicate SameOutside(a: Request, b: Request) {
    && a.id == b.id && a.entered == b.entered && a.repaid == b.repaid
    && (HandedOver(a) <==> HandedOver(b))
    && (a.slot.Some? ==> b.slot.Some? && a.slot.value.size == b.slot.value.size)
    && (HandedOver(a) ==> a.slot == b.slot)
  }

  function Put(s: State, r: nat, x: Request, queued: int, table: map<string, nat>): State
    requires r < |s.requests|
  {
    s.(queued := queued, requests := s.requests[r := x], table := table)
  }

  /** Request `r`, now `x`, is the only one whose table entry changed, and it has one while tracked. */
  predicate TableFollows(old': map<string, nat>, r: nat, x: Request, table: map<string, nat>) {
    && (Tracked(x) <==> (x.id in table && table[x.id] == r))
    && (forall id :: id in table && table[id] != r ==> id in old' && old'[id] == table[id])
    && (forall id :: id in old' && old'[id] != r ==> id in table && old'[id] == table[id])
    && (forall id :: id in table && table[id] == r ==> id == x.id)
  }

  lemma {:induction false} TableChange(s: State, r: nat, x: Request, queued: int, table: map<string, nat>)
    requires TableOk(s) && r < |s.requests| && s.requests[r].id == x.id && TableFollows(s.table, r, x, table)
    ensures TableOk(Put(s, r, x, queued, table))
  {
    var t := Put(s, r, x, queued, table);
    forall q | 0 <= q < |t.requests| && Tracked(t.requests[q])
      ensures t.requests[q].id in t.table && t.table[t.requests[q].id] == q
    {
      if q != r {
        assert Tracked(s.requests[q]);
      }
    }
    forall id | id in t.table
      ensures t.table[id] < |t.requests| && t.requests[t.table[id]].id == id && Tracked(t.requests[t.table[id]])
    {
      if t.table[id] != r {
        assert id in s.table;
      }
    }
  }

  lemma {:induction false} HoldersChange(s: State, r: nat, x: Request, queued: int, table: map<string, nat>)
    requires HoldersOk(s) && ClaimsOk(s) && r < |s.requests| && SameOutside(s.requests[r], x)
    ensures HoldersOk(Put(s, r, x, queued, table)) && ClaimsOk(Put(s, r, x, queued, table))
  {
    var t := Put(s, r, x, queued, table);
    forall q | 0 <= q < |t.requests|
      ensures Holders(t, q) + t.requests[q].repaid == if HandedOver(t.requests[q]) then 1 else 0
    {
      assert Holders(t, q) == Holders(s, q);
      assert HandedOver(t.requests[q]) <==> HandedOver(s.requests[q]);
    }
  }

  lemma {:induction false} RequestChange(s: State, r: nat, x: Request, queued: int, table: map<string, nat>)
    requires Inv(s) && r < |s.requests|
    requires SameOutside(s.requests[r], x) && RequestOk(s.limit, x) && TableFollows(s.table, r, x, table)
    requires 0 <= queued <= s.limit && queued - s.queued == Owned(x) - Owned(s.requests[r])
    ensures Inv(Put(s, r, x, queued, table))
  {
    var t := Put(s, r, x, queued, table);
    forall q | 0 <= q < |t.requests|
      ensures RequestOk(t.limit, t.requests[q])
    {
      assert q != r ==> RequestOk(s.limit, s.requests[q]);
    }
    TableChange(s, r, x, queued, table);
    HoldersChange(s, r, x, queued, table);
    RequestBytesUpdate(s.requests, r, x);
    forall q, size | Carries(s, q, size)
      ensures Carries(t, q, size)
    {
    }
  }

  function Delta(call: Call): int {
    if call.Take? then call.size else 0 - call.size
  }

  lemma {:induction false} CallStepKeeps(limit: nat, queued: int, call: Call, held: nat)
    requires 0 <= queued <= limit && CallOk(limit, call) && (call.Give? ==> call.size <= held <= queued)
    ensures var (q, reply) := CallStep(limit, queued, call);
      && (reply.Again? ==> q == queued && CallOk(limit, reply.call) && reply.call.size == call.size && (reply.call.Take? <==> call.Take?))
      && (reply.Refused? ==> q == queued && call.Take?)
      && (reply.Done? ==> 0 <= q <= limit && q == queued + Delta(call))
  {
  }

  lemma {:induction false} GrantedKeeps(limit: nat, req: Request, purpose: Purpose, call: Call)
    requires RequestOk(limit, req) && req.call == Some((purpose, call))
    ensures var x := Granted(req, purpose, call);
      && RequestOk(limit, x) && SameOutside(req, x) && (Tracked(x) <==> Tracked(req)) && !Tracked(x)
      && Owned(x) == Owned(req) + Delta(call)
    ensures call.Give? ==> call.size <= Owned(req)
  {
    var x := Granted(req, purpose, call);
    if call.Take? && purpose != Body {
      SumAppend(req.payloads, call.size);
    }
    if call.Give? && purpose.Payloads? {
      SumWithout(req.payloads, purpose.index);
    }
  }

  lemma {:induction false} TableSame(s: State, r: nat, x: Request)
    requires TableOk(s) && r < |s.requests| && x.id == s.requests[r].id && (Tracked(x) <==> Tracked(s.requests[r]))
    ensures TableFollows(s.table, r, x, s.table)
  {
  }

  lemma {:induction false} AskedAgain(limit: nat, req: Request, purpose: Purpose, call: Call, next: Call)
    requires RequestOk(limit, req) && req.call == Some((purpose, call))
    requires CallOk(limit, next) && next.size == call.size && (next.Take? <==> call.Take?)
    ensures var x := Ask(req, purpose, next);
      RequestOk(limit, x) && SameOutside(req, x) && (Tracked(x) <==> Tracked(req)) && Owned(x) == Owned(req)
  {
    hide Sum, CallOk;
  }

  lemma {:induction false} DeniedKeeps(limit: nat, req: Request, purpose: Purpose, call: Call)
    requires RequestOk(limit, req) && req.call == Some((purpose, call)) && call.Take?
    ensures var x := Denied(req, purpose);
      RequestOk(limit, x) && SameOutside(req, x) && (Tracked(x) <==> Tracked(req)) && Owned(x) == Owned(req)
  {
    hide Sum, CallOk;
  }

  /** What one turn of a request's budget call means for the request and the counter. */
  lemma {:induction false} AnsweredOk(limit: nat, queued: int, req: Request, purpose: Purpose, call: Call)
    requires RequestOk(limit, req) && req.call == Some((purpose, call))
    requires 0 <= queued <= limit && Owned(req) <= queued
    ensures var (q, reply) := CallStep(limit, queued, call); var x := Answered(req, purpose, call, reply);
      && RequestOk(limit, x) && SameOutside(req, x) && (Tracked(x) <==> Tracked(req))
      && 0 <= q <= limit && q - queued == Owned(x) - Owned(req)
      && !(reply.Refused? && call.Give?)
  {
    GrantedKeeps(limit, req, purpose, call);
    assert CallOk(limit, call);
    CallStepKeeps(limit, queued, call, if call.Give? then Owned(req) else 0);
    hide RequestOk, SameOutside, Tracked, Owned, Granted, Denied, Ask, CallStep, CallOk, Sum;
    var (q, reply) := CallStep(limit, queued, call);
    match reply {
      case Again(next) => AskedAgain(limit, req, purpose, call, next);
      case Refused => DeniedKeeps(limit, req, purpose, call);
      case Done =>
    }
  }

  lemma {:induction false} ServeCallKeeps(s: State, r: nat, choice: Choice)
    requires Inv(s) && r < |s.requests| && s.requests[r].call.Some?
    ensures Inv(ServeStep(s, r, choice))
  {
    var req := s.requests[r];
    var (purpose, call) := req.call.value;
    assert RequestOk(s.limit, req);
    RequestBytesUpdate(s.requests, r, req);
    AnsweredOk(s.limit, s.queued, req, purpose, call);
    var (queued, reply) := CallStep(s.limit, s.queued, call);
    var x := Answered(req, purpose, call, reply);
    TableSame(s, r, x);
    RequestChange(s, r, x, queued, s.table);
  }

  lemma {:induction false} ProgramOk(limit: nat, r: nat, req: Request, choice: Choice, table: map<string, nat>)
    requires RequestOk(limit, req) && req.call.None?
    requires Tracked(req) ==> req.id in table && table[req.id] == r
    ensures RequestOk(limit, Program(req, choice, table))
  {
    hide Arrive, DecodeOn, Track, FinishOn, Drain, RequestOk;
    match req.stage {
      case Arriving => EarlyOk(limit, req, choice);
      case Decoding => EarlyOk(limit, req, choice);
      case Tracking => TrackOk(limit, req, table);
      case Draining => DrainOk(limit, req);
      case Over =>
      case _ => FinishOk(limit, r, req, table);
    }
  }

  lemma {:induction false} EarlyOk(limit: nat, req: Request, choice: Choice)
    requires RequestOk(limit, req) && req.call.None?
    ensures req.stage.Arriving? ==> RequestOk(limit, Arrive(req, choice))
    ensures req.stage.Decoding? ==> RequestOk(limit, DecodeOn(req, choice))
  {
    hide Sum;
  }

  lemma {:induction false} TrackOk(limit: nat, req: Request, table: map<string, nat>)
    requires RequestOk(limit, req) && req.call.None? && req.stage.Tracking?
    ensures RequestOk(limit, Track(req, table))
  {
    hide Sum;
  }

  lemma {:induction false} DrainOk(limit: nat, req: Request)
    requires RequestOk(limit, req) && req.call.None? && req.stage.Draining?
    ensures RequestOk(limit, Drain(req))
  {
    hide Sum;
  }

  /** The four atomic steps of FinishMessage, and the return of Publish before them. */
  lemma {:induction false} FinishOk(limit: nat, r: nat, req: Request, table: map<string, nat>)
    requires RequestOk(limit, req) && req.call.None? && Tracked(req)
    requires req.id in table && table[req.id] == r
    ensures RequestOk(limit, FinishOn(req, table))
  {
    match req.stage
    case FinishDelete(owned, phase) => SumZeros(|req.payloads|);
    case FinishRead(owned) => hide Sum;
    case FinishSwap => hide Sum;
    case _ => hide Sum;
  }

  lemma {:induction false} ProgramSame(limit: nat, req: Request, choice: Choice, table: map<string, nat>)
    requires RequestOk(limit, req) && req.call.None?
    ensures var x := Program(req, choice, table);
      SameOutside(req, x) && Owned(x) == Owned(req)
  {
    if req.stage.FinishDelete? {
      SumZeros(|req.payloads|);
    } else {
      ProgramPlain(req, choice, table);
      hide Program, Sum;
    }
  }

  /** Before the end of FinishMessage the program moves no bytes and gives up no reservation. */
  lemma {:induction false} ProgramPlain(req: Request, choice: Choice, table: map<string, nat>)
    requires req.call.None? && !req.stage.FinishDelete?
    ensures var x := Program(req, choice, table);
      && x.id == req.id && x.body == req.body && x.payloads == req.payloads && x.repaid == req.repaid && x.entered == req.entered
      && x.admitted == req.admitted && x.transferred == req.transferred
      && (x.slot == req.slot || (req.stage.Tracking? && x.slot.Some? && x.slot.value.phase == Open)
          || (req.stage.FinishSwap? && req.slot.Some? && req.slot.value.phase == Open && x.slot == Some(req.slot.value.(phase := Finished))))
  {
    EarlyPlain(req, choice);
    TrackPlain(req, table);
    FinishPlain(req, table);
    hide Arrive, DecodeOn, Track, FinishOn, Drain;
  }

  lemma {:induction false} EarlyPlain(req: Request, choice: Choice)
    ensures SameButStage(req, Arrive(req, choice)) && SameButStage(req, DecodeOn(req, choice)) && SameButStage(req, Drain(req))
  {
    hide Sum;
  }

  lemma {:induction false} FinishPlain(req: Request, table: map<string, nat>)
    requires !req.stage.FinishDelete?
    ensures var x := FinishOn(req, table);
      && SameButStage(req, x.(slot := req.slot))
      && (x.slot == req.slot ||
          (req.stage.FinishSwap? && req.slot.Some? && req.slot.value.phase == Open && x.slot == Some(req.slot.value.(phase := Finished))))
  {
    hide Told;
  }

  lemma {:induction false} TrackPlain(req: Request, table: map<string, nat>)
    ensures var x := Track(req, table);
      SameButStage(req, x.(slot := req.slot)) && (x.slot == req.slot || (x.slot.Some? && x.slot.value.phase == Open))
  {
    hide Sum;
  }

  predicate SameButStage(a: Request, b: Request) {
    && b.id == a.id && b.body == a.body && b.payloads == a.payloads && b.slot == a.slot && b.repaid == a.repaid
    && b.entered == a.entered && b.admitted == a.admitted && b.transferred == a.transferred
  }

  /** Which requests are tracked afterwards. */
  lemma {:induction false} ProgramTracked(req: Request, choice: Choice, table: map<string, nat>)
    requires req.stage.FinishRead? ==> req.slot.Some?
    ensures var x := Program(req, choice, table);
      && x.id == req.id
      && (Tracked(x) <==>
           || (req.stage.Tracking? && req.id != "" && Sum(req.payloads) > 0 && req.id !in table)
           || (Tracked(req) && !req.stage.FinishDelete? && (req.stage.FinishLoad? ==> req.id in table)))
  {
    hide Sum;
    EarlyTracked(req, choice);
    LateTracked(req, table);
    hide Arrive, DecodeOn, Track, FinishOn, Drain, Tracked;
    assert req.stage.Over? || req.stage.Arriving? || req.stage.Decoding? || req.stage.Draining? || req.stage.Tracking? ==> !Tracked(req) by {
      NotTracked(req);
    }
  }

  lemma {:induction false} NotTracked(req: Request)
    ensures req.stage.Over? || req.stage.Arriving? || req.stage.Decoding? || req.stage.Draining? || req.stage.Tracking? <==> !Tracked(req)
  {
  }

  lemma {:induction false} LateTracked(req: Request, table: map<string, nat>)
    requires req.stage.FinishRead? ==> req.slot.Some?
    ensures req.stage.Tracking? ==>
      Track(req, table).id == req.id && (Tracked(Track(req, table)) <==> req.id != "" && Sum(req.payloads) > 0 && req.id !in table)
    ensures Tracked(req) ==>
      && FinishOn(req, table).id == req.id
      && (Tracked(FinishOn(req, table)) <==> !req.stage.FinishDelete? && (req.stage.FinishLoad? ==> req.id in table))
  {
    hide Sum;
  }

  lemma {:induction false} EarlyTracked(req: Request, choice: Choice)
    ensures req.stage.Arriving? ==> !Tracked(Arrive(req, choice)) && Arrive(req, choice).id == req.id
    ensures req.stage.Decoding? ==> !Tracked(DecodeOn(req, choice)) && DecodeOn(req, choice).id == req.id
    ensures req.stage.Draining? ==> !Tracked(Drain(req)) && Drain(req).id == req.id
  {
  }

  lemma {:induction false} ProgramTable(r: nat, req: Request, choice: Choice, table: map<string, nat>)
    requires req.call.None?
    requires Tracked(req) ==> req.id in table && table[req.id] == r
    requires forall id :: id in table && table[id] == r ==> id == req.id && Tracked(req)
    requires req.stage.FinishRead? ==> req.slot.Some?
    ensures TableFollows(table, r, Program(req, choice, table), Table(req, r, table))
  {
    ProgramTracked(req, choice, table);
    hide Program, Sum;
  }

  lemma {:induction false} ProgramKeeps(s: State, r: nat, choice: Choice)
    requires Inv(s) && r < |s.requests| && s.requests[r].call.None?
    ensures Inv(ServeStep(s, r, choice))
  {
    var req := s.requests[r];
    assert RequestOk(s.limit, req);
    assert TableOk(s);
    ProgramOk(s.limit, r, req, choice, s.table);
    ProgramSame(s.limit, req, choice, s.table);
    ProgramTable(r, req, choice, s.table);
    RequestChange(s, r, Program(req, choice, s.table), s.queued, Table(req, r, s.table));
    assert ServeStep(s, r, choice) == Put(s, r, Program(req, choice, s.table), s.queued, Table(req, r, s.table));
  }

  /** `t` is `s` with request `r` changed to `x`: what the others know of `r` still holds. */
  predicate Upgraded(s: State, r: nat, x: Request, t: State) {
    && r < |s.requests| && t.requests == s.requests[r := x] && t.table == s.table && t.limit == s.limit
    && x.id == s.requests[r].id && (Tracked(x) <==> Tracked(s.requests[r])) && RequestOk(s.limit, x)
    && (s.requests[r].slot.Some? ==> x.slot.Some? && x.slot.value.size == s.requests[r].slot.value.size)
    && (HandedOver(s.requests[r]) ==> HandedOver(x))
    && (s.requests[r].entered ==> x.entered)
  }

  lemma {:induction false} UpgradeKeeps(s: State, r: nat, x: Request, t: State)
    requires Inv(s) && Upgraded(s, r, x, t)
    ensures RequestsOk(t)
    ensures TableOk(t)
    ensures forall q, n :: Carries(s, q, n) ==> Carries(t, q, n)
    ensures t.queue == s.queue ==> QueueOk(t)
    ensures RequestBytes(t.requests) == RequestBytes(s.requests) - Owned(s.requests[r]) + Owned(x)
  {
    RequestBytesUpdate(s.requests, r, x);
    TableSame(s, r, x);
    TableChange(s, r, x, s.queued, s.table);
    assert TableOk(Put(s, r, x, s.queued, s.table));
    forall q | 0 <= q < |t.requests|
      ensures RequestOk(t.limit, t.requests[q])
    {
      assert q != r ==> RequestOk(s.limit, s.requests[q]);
    }
  }

  /** The counts follow when only request `r` gains or loses: `before` and `after` are its holders. */
  lemma {:induction false} CountsFollow(s: State, r: nat, x: Request, t: State)
    requires Inv(s) && Upgraded(s, r, x, t)
    requires forall q :: 0 <= q < |s.requests| && q != r ==> Holders(t, q) == Holders(s, q)
    requires Holders(t, r) + x.repaid == if HandedOver(x) then 1 else 0
    ensures HoldersOk(t)
  {
    forall q | 0 <= q < |t.requests|
      ensures Holders(t, q) + t.requests[q].repaid == if HandedOver(t.requests[q]) then 1 else 0
    {
      assert Holders(s, q) + s.requests[q].repaid == if HandedOver(s.requests[q]) then 1 else 0;
    }
  }

  lemma {:induction false} SubUpgraded(s: State, r: nat, x: Request, t: State)
    requires SubOk(s) && Upgraded(s, r, x, t) && t.sub == s.sub
    ensures SubOk(t)
  {
    hide RequestOk, Tracked;
  }

  lemma {:induction false} ConUpgraded(s: State, r: nat, x: Request, t: State)
    requires ConOk(s) && Upgraded(s, r, x, t) && t.con == s.con && (t.queue == s.queue || !s.con.Gone?) && (s.sub.Stopped? ==> t.sub.Stopped?)
    ensures ConOk(t)
  {
    hide RequestOk, Tracked, QueueBytes;
  }

  /** No claimed reservation is forgotten when the subscriber keeps what it has, or drops only `r`. */
  lemma {:induction false} ClaimsUpgraded(s: State, r: nat, x: Request, t: State)
    requires ClaimsOk(s) && Upgraded(s, r, x, t) && (s.sub.Stopped? ==> t.sub.Stopped?)
    requires forall q :: 0 <= q < |s.requests| && q != r && SubHas(s.sub, q) ==> SubHas(t.sub, q) || t.sub.Stopped?
    requires x.slot.Some? && x.slot.value.phase == Claimed ==>
      || x.entered || SubHas(t.sub, r) || t.sub.Stopped?
      || (x.slot == s.requests[r].slot && t.sub == s.sub)
    ensures ClaimsOk(t)
  {
    hide RequestOk, Tracked;
    forall q | 0 <= q < |t.requests| && t.requests[q].slot.Some? && t.requests[q].slot.value.phase == Claimed
      ensures t.requests[q].entered || SubHas(t.sub, q) || t.sub.Stopped?
    {
      assert q != r ==> t.requests[q] == s.requests[q];
    }
  }

  /** Swapping a handed-over reservation's phase moves no bytes. */
  lemma {:induction false} SwapKeeps(s: State, r: nat, to: Phase)
    requires Inv(s) && (to == Admitted || to == Aborted)
    requires to == Admitted ==> (forall q: nat :: !SubHas(s.sub, q)) && !s.sub.Stopped?
    ensures Inv(Swap(s, r, Claimed, to))
  {
    if r < |s.requests| && s.requests[r].slot.Some? && s.requests[r].slot.value.phase == Claimed {
      var x := s.requests[r].(slot := Some(s.requests[r].slot.value.(phase := to)));
      var t := s.(requests := s.requests[r := x]);
      assert RequestOk(s.limit, s.requests[r]);
      assert to == Admitted ==> s.requests[r].entered;
      assert HandedOver(x) && Upgraded(s, r, x, t);
      hide RequestOk, CallFits, RequestsOk, TableOk, Tracked, SubOk, ConOk, ClaimsOk, QueueOk, RequestBytes, QueueBytes;
      UpgradeKeeps(s, r, x, t);
      SubUpgraded(s, r, x, t);
      ConUpgraded(s, r, x, t);
      ClaimsUpgraded(s, r, x, t);
      assert HoldersOk(s);
      CountsFollow(s, r, x, t);
    }
  }

  lemma {:induction false} AdmitKeeps(s: State)
    requires Inv(s) && s.sub.AdmitSwap?
    ensures Inv(SubStep(s))
  {
    SwapKeeps(s, s.sub.target, Admitted);
    MoveSub(Swap(s, s.sub.target, Claimed, Admitted), Idle);
  }

  lemma {:induction false} AbortKeeps(s: State)
    requires Inv(s) && s.sub.AbortSwap?
    ensures Inv(SubStep(s))
  {
    var AbortSwap(r, size, target) := s.sub;
    SwapKeeps(s, target, Aborted);
    MoveSub(Swap(s, target, Claimed, Aborted), Freeing(r, size, Give(size, None)));
  }

  /** The claim: the bytes leave the request and appear with the subscriber. */
  lemma {:induction false} ClaimOpen(s: State, r: nat, size: nat, x: Request)
    requires Inv(s) && s.sub.ClaimSwap? && s.sub.target == r && r < |s.requests|
    requires s.requests[r].slot == Some(Reservation(size, Open))
    requires x == s.requests[r].(slot := Some(Reservation(size, Claimed)))
    ensures Inv(s.(requests := s.requests[r := x], sub := Holding(r, size, s.sub.id)))
  {
    var t := s.(requests := s.requests[r := x], sub := Holding(r, size, s.sub.id));
    assert RequestOk(s.limit, s.requests[r]);
    assert HandedOver(x) && Owned(s.requests[r]) == Owned(x) + size;
    assert Upgraded(s, r, x, t);
    hide RequestOk, CallFits, RequestsOk, TableOk, Tracked, ConOk, ClaimsOk, QueueOk, RequestBytes, QueueBytes;
    UpgradeKeeps(s, r, x, t);
    ConUpgraded(s, r, x, t);
    ClaimsUpgraded(s, r, x, t);
    assert HoldersOk(t) by {
      assert Holders(s, r) + s.requests[r].repaid == 0;
      assert Holders(t, r) == Holders(s, r) + 1;
      CountsFollow(s, r, x, t);
    }
    assert t.queued == Outstanding(t);
  }

  lemma {:induction false} ClaimKeeps(s: State)
    requires Inv(s) && s.sub.ClaimSwap?
    ensures Inv(SubStep(s))
  {
    var r, id := s.sub.target, s.sub.id;
    if s.requests[r].slot.value.phase == Open {
      var size := s.requests[r].slot.value.size;
      ClaimOpen(s, r, size, s.requests[r].(slot := Some(Reservation(size, Claimed))));
    } else {
      MoveSub(s, Idle);
    }
  }

  lemma {:induction false} SendKeeps(s: State)
    requires Inv(s) && s.sub.Holding? && |s.queue| < s.capacity
    ensures Inv(SubStep(s))
  {
    var Holding(r, size, id) := s.sub;
    var t := SubStep(s);
    var x := s.requests[r].(entered := true);
    QueueAppend(s.queue, HttpBatch(r, size, id), r);
    assert RequestOk(s.limit, s.requests[r]);
    assert RequestOk(s.limit, x) && Upgraded(s, r, x, t) && !s.con.Gone?;
    hide RequestOk, CallFits, RequestsOk, TableOk, Tracked, ConOk, ClaimsOk, RequestBytes, QueueBytes, CountIn;
    UpgradeKeeps(s, r, x, t);
    ConUpgraded(s, r, x, t);
    ClaimsUpgraded(s, r, x, t);
    SendHolders(s, t);
    assert HoldersOk(s);
    CountsFollow(s, r, x, t);
    hide Holders, HoldersOk;
  }

  /** The reservation passes from the subscriber to the queue. */
  lemma {:induction false} SendHolders(s: State, t: State)
    requires s.sub.Holding? && t.con == s.con && |t.requests| == |s.requests|
    requires t.queue == s.queue + [HttpBatch(s.sub.owner, s.sub.size, s.sub.id)] && t.sub.AdmitLoad?
    ensures forall q :: 0 <= q < |s.requests| ==> Holders(t, q) == Holders(s, q)
  {
    forall q | 0 <= q < |s.requests|
      ensures Holders(t, q) == Holders(s, q)
    {
      QueueAppend(s.queue, HttpBatch(s.sub.owner, s.sub.size, s.sub.id), q);
    }
  }

  /** The release of the subscriber's reservation is done: its holder is gone and its count is one. */
  lemma {:induction false} SubRepaid(s: State, r: nat, size: nat)
    requires Inv(s) && Carries(s, r, size) && size <= s.queued && SubHas(s.sub, r) && s.sub.size == size
    ensures Inv(Repaid(s, r).(queued := s.queued - size, sub := Stopped))
  {
    var x := s.requests[r].(repaid := s.requests[r].repaid + 1);
    var t := s.(requests := s.requests[r := x], queued := s.queued - size, sub := Stopped);
    assert RequestOk(s.limit, s.requests[r]);
    assert RequestOk(s.limit, x) && Upgraded(s, r, x, t);
    hide RequestOk, CallFits, RequestsOk, TableOk, Tracked, ConOk, ClaimsOk, QueueOk, RequestBytes, QueueBytes;
    UpgradeKeeps(s, r, x, t);
    ConUpgraded(s, r, x, t);
    ClaimsUpgraded(s, r, x, t);
    assert HoldersOk(t) by {
      assert HoldersOk(s);
      assert Holders(s, r) == Holders(t, r) + 1;
      CountsFollow(s, r, x, t);
    }
    assert t.queued == Outstanding(t);
  }

  lemma {:induction false} ConRepaid(s: State, r: nat, size: nat, con: Consumer)
    requires Inv(s) && Carries(s, r, size) && size <= s.queued && ConHas(s.con, r) && s.con.size == size
    requires con == Waiting || (con == Sweeping && s.sub.Stopped?)
    ensures Inv(Repaid(s, r).(queued := s.queued - size, con := con))
  {
    var x := s.requests[r].(repaid := s.requests[r].repaid + 1);
    var t := s.(requests := s.requests[r := x], queued := s.queued - size, con := con);
    assert RequestOk(s.limit, s.requests[r]);
    assert RequestOk(s.limit, x) && Upgraded(s, r, x, t);
    hide RequestOk, CallFits, RequestsOk, TableOk, Tracked, SubOk, ClaimsOk, QueueOk, RequestBytes, QueueBytes;
    UpgradeKeeps(s, r, x, t);
    SubUpgraded(s, r, x, t);
    ClaimsUpgraded(s, r, x, t);
    assert HoldersOk(t) by {
      assert HoldersOk(s);
      assert Holders(s, r) == Holders(t, r) + 1;
      CountsFollow(s, r, x, t);
    }
    assert t.queued == Outstanding(t);
  }

  lemma {:induction false} FreeingKeeps(s: State)
    requires Inv(s) && s.sub.Freeing?
    ensures Inv(SubStep(s))
  {
    hide RequestsOk, TableOk, QueueOk, HoldersOk, RequestBytes, QueueBytes;
    var Freeing(r, size, call) := s.sub;
    CallStepKeeps(s.limit, s.queued, call, size);
    var (queued, reply) := CallStep(s.limit, s.queued, call);
    if reply.Done? {
      SubRepaid(s, r, size);
    } else {
      MoveSub(s, Freeing(r, size, reply.call));
    }
  }

  lemma {:induction false} SubKeeps(s: State)
    requires Inv(s)
    ensures Inv(SubStep(s))
  {
    match s.sub
    case ClaimSwap(r, id) => ClaimKeeps(s);
    case Holding(r, size, id) => if |s.queue| < s.capacity { SendKeeps(s); }
    case AdmitLoad(id) => MoveSub(s, if id in s.table then AdmitSwap(s.table[id]) else Idle);
    case AdmitSwap(r) => AdmitKeeps(s);
    case AbortLoad(r, size, id) =>
      MoveSub(s, if id in s.table then AbortSwap(r, size, s.table[id]) else Freeing(r, size, Give(size, None)));
    case AbortSwap(r, size, target) => AbortKeeps(s);
    case Freeing(r, size, call) => FreeingKeeps(s);
    case Idle =>
    case Stopped =>
  }

  /** The subscriber moves on with what it has. */
  lemma {:induction false} MoveSub(s: State, sub: Subscriber)
    requires Inv(s) && SubOk(s.(sub := sub)) && SubBytes(sub) == SubBytes(s.sub)
    requires forall r: nat :: SubHas(sub, r) <==> SubHas(s.sub, r)
    requires s.sub.Stopped? ==> sub.Stopped?
    ensures Inv(s.(sub := sub))
  {
    var t := s.(sub := sub);
    forall q | 0 <= q < |t.requests|
      ensures Holders(t, q) + t.requests[q].repaid == if HandedOver(t.requests[q]) then 1 else 0
    {
      assert Holders(t, q) == Holders(s, q);
    }
  }

  /** The consumer moves on, with the same bytes in its hands and the queue together. */
  lemma {:induction false} MoveCon(s: State, queue: seq<Entry>, con: Consumer)
    requires queue == s.queue || (|s.queue| > 0 && queue == s.queue[1..])
    requires Inv(s) && ConOk(s.(queue := queue, con := con))
    requires QueueBytes(queue) + ConBytes(con) == QueueBytes(s.queue) + ConBytes(s.con)
    requires forall r :: 0 <= r < |s.requests| ==>
      CountIn(queue, r) + (if ConHas(con, r) then 1 else 0) == CountIn(s.queue, r) + if ConHas(s.con, r) then 1 else 0
    ensures Inv(s.(queue := queue, con := con))
  {
    var t := s.(queue := queue, con := con);
    forall q | 0 <= q < |t.requests|
      ensures Holders(t, q) + t.requests[q].repaid == if HandedOver(t.requests[q]) then 1 else 0
    {
      assert Holders(t, q) == Holders(s, q);
    }
    forall i | 0 <= i < |t.queue| && t.queue[i].HttpBatch?
      ensures Carries(t, t.queue[i].owner, t.queue[i].size) && t.requests[t.queue[i].owner].id == t.queue[i].id
    {
      assert t.queue[i] in s.queue;
      var j :| 0 <= j < |s.queue| && s.queue[j] == t.queue[i];
      assert Carries(s, s.queue[j].owner, s.queue[j].size);
    }
  }

  /** The consumer takes the oldest entry off the queue. */
  lemma {:induction false} TakeKeeps(s: State, con: Consumer)
    requires Inv(s) && |s.queue| > 0 && (s.con.Waiting? || s.con.Sweeping?)
    requires s.queue[0].FileItem? ==> con == s.con
    requires s.queue[0].HttpBatch? ==>
      && ConHas(con, s.queue[0].owner) && con.size == s.queue[0].size
      && (con.Repaying? ==> con.call == Give(con.size, None) && (con.stopping ==> s.con.Sweeping?))
    ensures Inv(s.(queue := s.queue[1..], con := con))
  {
    MoveCon(s, s.queue[1..], con);
  }

  lemma {:induction false} RepayingKeeps(s: State)
    requires Inv(s) && s.con.Repaying?
    ensures Inv(ConStep(s))
  {
    hide RequestsOk, TableOk, ClaimsOk, QueueOk, HoldersOk, RequestBytes, QueueBytes;
    var Repaying(r, size, call, stopping) := s.con;
    CallStepKeeps(s.limit, s.queued, call, size);
    var (queued, reply) := CallStep(s.limit, s.queued, call);
    if reply.Done? {
      ConRepaid(s, r, size, if stopping then Sweeping else Waiting);
    } else {
      MoveCon(s, s.queue, Repaying(r, size, reply.call, stopping));
    }
  }

  lemma {:induction false} ConKeeps(s: State)
    requires Inv(s)
    ensures Inv(ConStep(s))
  {
    match s.con
    case Waiting =>
      if |s.queue| > 0 {
        TakeKeeps(s, if s.queue[0].HttpBatch? then Handling(s.queue[0].owner, s.queue[0].size) else Waiting);
      }
    case Handling(r, size) => MoveCon(s, s.queue, Repaying(r, size, Give(size, None), false));
    case Repaying(r, size, call, stopping) => RepayingKeeps(s);
    case Sweeping =>
      if |s.queue| > 0 {
        TakeKeeps(s, if s.queue[0].HttpBatch? then Repaying(s.queue[0].owner, s.queue[0].size, Give(s.queue[0].size, None), true) else Sweeping);
      } else {
        MoveCon(s, s.queue, Gone);
      }
    case Gone =>
  }

  lemma {:induction false} FileKeeps(s: State)
    requires Inv(s)
    ensures Inv(s.(queue := s.queue + [FileItem]))
  {
    var t := s.(queue := s.queue + [FileItem]);
    QueueAppend(s.queue, FileItem, 0);
    forall q | 0 <= q < |t.requests|
      ensures Holders(t, q) + t.requests[q].repaid == if HandedOver(t.requests[q]) then 1 else 0
    {
      QueueAppend(s.queue, FileItem, q);
      assert Holders(t, q) == Holders(s, q);
    }
  }

  lemma {:induction false} DeliverKeeps(s: State, id: string)
    requires Inv(s)
    ensures Inv(DeliverStep(s, id))
  {
    if s.sub.Idle? && id in s.table {
      assert Tracked(s.requests[s.table[id]]) && RequestOk(s.limit, s.requests[s.table[id]]);
      MoveSub(s, ClaimSwap(s.table[id], id));
    }
  }

  lemma {:induction false} CancelKeeps(s: State)
    requires Inv(s)
    ensures Inv(CancelStep(s))
  {
    if s.sub.Idle? {
      MoveSub(s, Stopped);
    } else if s.sub.Holding? && s.stopped {
      MoveSub(s, AbortLoad(s.sub.owner, s.sub.size, s.sub.id));
    }
  }

  lemma {:induction false} StopKeeps(s: State)
    requires Inv(s)
    ensures Inv(s.(stopped := true))
  {
    var t := s.(stopped := true);
    forall q | 0 <= q < |t.requests|
      ensures Holders(t, q) + t.requests[q].repaid == if HandedOver(t.requests[q]) then 1 else 0
    {
      assert Holders(t, q) == Holders(s, q);
    }
  }

  lemma {:induction false} StepKeeps(s: State, a: Action)
    requires Inv(s)
    ensures Inv(Step(s, a))
  {
    match a
    case Serve(r, choice) =>
      if r < |s.requests| {
        if s.requests[r].call.Some? {
          ServeCallKeeps(s, r, choice);
        } else {
          ProgramKeeps(s, r, choice);
        }
      }
    case Deliver(id) => DeliverKeeps(s, id);
    case SubGo => SubKeeps(s);
    case SubCancel => CancelKeeps(s);
    case ConGo => ConKeeps(s);
    case ConStop => if s.con.Waiting? && s.stopped && s.sub.Stopped? { MoveCon(s, s.queue, Sweeping); }
    case EnqueueFile => if |s.queue| < s.capacity { FileKeeps(s); }
    case Stop => StopKeeps(s);
  }

  // ---------- Whole runs ----------

  lemma {:induction false} InitBytes(ids: seq<string>)
    ensures RequestBytes(seq(|ids|, i requires 0 <= i < |ids| => Fresh(ids[i]))) == 0
  {
    var q := seq(|ids|, i requires 0 <= i < |ids| => Fresh(ids[i]));
    if ids != [] {
      InitBytes(ids[1..]);
      assert q[1..] == seq(|ids[1..]|, i requires 0 <= i < |ids[1..]| => Fresh(ids[1..][i]));
    }
  }

  lemma {:induction false} RunKeeps(limit: nat, capacity: nat, ids: seq<string>, schedule: seq<Action>)
    ensures Inv(Run(Init(limit, capacity, ids), schedule))
    decreases |schedule|
  {
    if schedule == [] {
      InitBytes(ids);
      assert HoldersOk(Init(limit, capacity, ids));
    } else {
      RunKeeps(limit, capacity, ids, schedule[..|schedule| - 1]);
      StepKeeps(Run(Init(limit, capacity, ids), schedule[..|schedule| - 1]), schedule[|schedule| - 1]);
    }
  }

  /** In every interleaving the counter is the sum of what is outstanding, within its limit, and no
      release was ever refused. */
  lemma {:induction false} Conservation(limit: nat, capacity: nat, ids: seq<string>, schedule: seq<Action>)
    ensures var s := Run(Init(limit, capacity, ids), schedule);
      && s.queued == Outstanding(s)
      && 0 <= s.queued <= limit
      && !s.refused
  {
    RunKeeps(limit, capacity, ids, schedule);
    LimitFixed(limit, capacity, ids, schedule);
  }

  lemma {:induction false} LimitFixed(limit: nat, capacity: nat, ids: seq<string>, schedule: seq<Action>)
    ensures var s := Run(Init(limit, capacity, ids), schedule); s.limit == limit && |s.requests| == |ids|
    ensures forall r :: 0 <= r < |ids| ==> Run(Init(limit, capacity, ids), schedule).requests[r].id == ids[r]
    decreases |schedule|
  {
    if schedule != [] {
      LimitFixed(limit, capacity, ids, schedule[..|schedule| - 1]);
      StepFixed(Run(Init(limit, capacity, ids), schedule[..|schedule| - 1]), schedule[|schedule| - 1]);
    }
  }

  /** An action changes no identifier, and `entered` only when the subscriber sends the batch. */
  lemma {:induction false} StepFixed(s: State, a: Action)
    ensures var t := Step(s, a);
      && t.limit == s.limit && |t.requests| == |s.requests|
      && (forall r :: 0 <= r < |s.requests| ==> t.requests[r].id == s.requests[r].id)
      && (forall r :: 0 <= r < |s.requests| && t.requests[r].entered && !s.requests[r].entered ==>
            s.sub.Holding? && s.sub.owner == r && t.queue == s.queue + [HttpBatch(r, s.sub.size, s.sub.id)])
  {
    match a
    case Serve(r, choice) => if r < |s.requests| { ServeFixed(s, r, choice); }
    case SubGo => SubFixed(s);
    case _ =>
  }

  lemma {:induction false} ServeFixed(s: State, r: nat, choice: Choice)
    requires r < |s.requests|
    ensures var t := ServeStep(s, r, choice);
      && t.limit == s.limit && |t.requests| == |s.requests|
      && (forall q :: 0 <= q < |s.requests| && q != r ==> t.requests[q] == s.requests[q])
      && t.requests[r].id == s.requests[r].id && t.requests[r].entered == s.requests[r].entered
  {
    var req := s.requests[r];
    match req.call
    case None => ProgramFixed(req, choice, s.table);
    case Some((purpose, call)) =>
      var (queued, reply) := CallStep(s.limit, s.queued, call);
      var x := Answered(req, purpose, call, reply);
      assert x.id == req.id && x.entered == req.entered;
      assert ServeStep(s, r, choice).requests == s.requests[r := x];
  }

  lemma {:induction false} ProgramFixed(req: Request, choice: Choice, table: map<string, nat>)
    ensures Program(req, choice, table).id == req.id && Program(req, choice, table).entered == req.entered
  {
    hide Arrive, DecodeOn, Track, FinishOn, Drain;
    EarlyPlain(req, choice);
    TrackPlain(req, table);
    FinishFixed(req, table);
  }

  lemma {:induction false} FinishFixed(req: Request, table: map<string, nat>)
    ensures FinishOn(req, table).id == req.id && FinishOn(req, table).entered == req.entered
  {
  }

  lemma {:induction false} SubFixed(s: State)
    ensures var t := SubStep(s);
      && t.limit == s.limit && |t.requests| == |s.requests|
      && (forall r :: 0 <= r < |s.requests| ==> t.requests[r].id == s.requests[r].id)
      && (forall r :: 0 <= r < |s.requests| && t.requests[r].entered && !s.requests[r].entered ==>
            s.sub.Holding? && s.sub.owner == r && t.queue == s.queue + [HttpBatch(r, s.sub.size, s.sub.id)])
  {
    hide CallStep;
    match s.sub
    case ClaimSwap(r, id) =>
    case Holding(r, size, id) =>
    case AdmitSwap(r) =>
    case AbortSwap(r, size, target) =>
    case Freeing(r, size, call) =>
    case _ => assert SubStep(s).requests == s.requests;
  }

  /** One owner at a time, one release in all. A reservation that was handed over is in exactly one
      place or has been released exactly once; the publisher never gives its bytes back; and a
      finished request was told `transferred` exactly when the subscriber's claim succeeded. */
  lemma {:induction false} ExactlyOnce(limit: nat, capacity: nat, ids: seq<string>, schedule: seq<Action>, r: nat)
    requires r < |ids|
    ensures var s := Run(Init(limit, capacity, ids), schedule);
      && r < |s.requests|
      && var req := s.requests[r];
      && Holders(s, r) + req.repaid == (if HandedOver(req) then 1 else 0)
      && (HandedOver(req) && req.call.Some? && req.call.value.1.Give? && req.call.value.0.Payloads? ==> req.call.value.1.size == 0)
      && (req.stage.Over? ==> (req.transferred <==> HandedOver(req)))
      && (req.admitted ==> req.slot.Some? && req.slot.value.phase == Admitted)
  {
    RunKeeps(limit, capacity, ids, schedule);
    LimitFixed(limit, capacity, ids, schedule);
    var s := Run(Init(limit, capacity, ids), schedule);
    assert RequestOk(s.limit, s.requests[r]);
    if s.requests[r].stage.Draining? && |s.requests[r].payloads| > 0 {
      SumAtLeast(s.requests[r].payloads, 0);
    }
  }

  /** No byte is queued, no message is tracked, and every claimed reservation was released once. */
  predicate Empty(s: State) {
    && s.queued == 0 && s.table == map[]
    && forall r :: 0 <= r < |s.requests| ==> s.requests[r].repaid == if s.requests[r].transferred then 1 else 0
  }

  /** Once every request is over and the shutdown has drained the queue, nothing is left: no byte,
      no table entry, and every claimed reservation was released once. */
  lemma {:induction false} NothingLeaks(limit: nat, capacity: nat, ids: seq<string>, schedule: seq<Action>)
    requires Quiet(Run(Init(limit, capacity, ids), schedule))
    ensures Empty(Run(Init(limit, capacity, ids), schedule))
  {
    var s := Run(Init(limit, capacity, ids), schedule);
    RunKeeps(limit, capacity, ids, schedule);
    forall r | 0 <= r < |s.requests|
      ensures Owned(s.requests[r]) == 0 && s.requests[r].repaid == if s.requests[r].transferred then 1 else 0
    {
      assert RequestOk(s.limit, s.requests[r]);
      FilesOnly(s.queue, r);
      assert Holders(s, r) + s.requests[r].repaid == if HandedOver(s.requests[r]) then 1 else 0;
    }
    NoBytes(s.requests);
    if id :| id in s.table {
      assert false;
    }
  }

  // ---------- What a request announced ----------

  /** The choice at the request's first own action: whether and which length it announced. */
  function FirstChoice(schedule: seq<Action>, r: nat): Option<Choice> {
    if schedule == [] then None
    else
      var n := |schedule| - 1;
      var before := FirstChoice(schedule[..n], r);
      if before.Some? then before
      else if schedule[n].Serve? && schedule[n].r == r then Some(schedule[n].choice)
      else None
  }

  function ServeCount(schedule: seq<Action>, r: nat): nat {
    if schedule == [] then 0
    else
      var n := |schedule| - 1;
      ServeCount(schedule[..n], r) + if schedule[n].Serve? && schedule[n].r == r then 1 else 0
  }

  /** Nothing was taken for the request, tracked, admitted or handed over. */
  predicate Untouched(req: Request) {
    req.body == 0 && req.payloads == [] && req.slot.None? && !req.admitted && !req.transferred
  }

  predicate AsksFor(req: Request, n: nat) {
    req.call.Some? && req.call.value.0 == Body && req.call.value.1.Take? && req.call.value.1.size == n
  }

  predicate FitsChoice(req: Request, first: Option<Choice>) {
    match first
    case None => req.stage.Arriving? && req.call == None && Untouched(req) && !req.counted
    case Some(Known(n)) =>
      && !req.counted
      && (req.stage.Arriving? ==> AsksFor(req, n) && Untouched(req))
      && (!req.stage.Arriving? && !req.stage.Over? ==> req.body == n)
      && (req.stage.Decoding? && req.call.Some? ==> req.call.value.0 != Body)
    case Some(Chunked) => !req.stage.Arriving? && req.counted
    case Some(_) => req.stage.Over? && Untouched(req)
  }

  /** What an action of somebody else leaves of a request. */
  predicate SameOwn(a: Request, b: Request) {
    && b.stage == a.stage && b.call == a.call && b.counted == a.counted && b.body == a.body && b.payloads == a.payloads
    && b.admitted == a.admitted && b.transferred == a.transferred && b.slot.None? == a.slot.None?
  }

  lemma {:induction false} OthersLeave(s: State, a: Action, r: nat)
    requires r < |s.requests| && (a.Serve? ==> a.r != r)
    ensures |Step(s, a).requests| == |s.requests| && SameOwn(s.requests[r], Step(s, a).requests[r])
  {
    hide SubStep, ServeStep, CallStep, SameOwn, Repaid;
    SelfSame(s.requests[r]);
    match a
    case Serve(q, choice) => if q < |s.requests| { ServeFixed(s, q, choice); }
    case SubGo => SubLeaves(s, r);
    case ConGo => if s.con.Repaying? { RepaidLeaves(s, s.con.owner, r); }
    case _ =>
  }

  lemma {:induction false} SubLeaves(s: State, r: nat)
    requires r < |s.requests|
    ensures |SubStep(s).requests| == |s.requests| && SameOwn(s.requests[r], SubStep(s).requests[r])
  {
    hide Swap, Repaid, CallStep, SameOwn;
    assert SameOwn(s.requests[r], s.requests[r]) by { SelfSame(s.requests[r]); }
    match s.sub
    case ClaimSwap(q, _) => SwapLeaves(s, q, Open, Claimed, r);
    case Holding(q, _, _) => EnteredLeaves(s, q, r);
    case AdmitSwap(q) => SwapLeaves(s, q, Claimed, Admitted, r);
    case AbortSwap(_, _, q) => SwapLeaves(s, q, Claimed, Aborted, r);
    case Freeing(q, _, _) => RepaidLeaves(s, q, r);
    case _ => assert SubStep(s).requests == s.requests;
  }

  lemma {:induction false} SelfSame(req: Request)
    ensures SameOwn(req, req)
  {
  }

  lemma {:induction false} EnteredLeaves(s: State, q: nat, r: nat)
    requires r < |s.requests|
    ensures q < |s.requests| ==> SameOwn(s.requests[r], s.requests[q := s.requests[q].(entered := true)][r])
  {
  }

  lemma {:induction false} SwapLeaves(s: State, q: nat, from: Phase, to: Phase, r: nat)
    requires r < |s.requests|
    ensures |Swap(s, q, from, to).requests| == |s.requests| && SameOwn(s.requests[r], Swap(s, q, from, to).requests[r])
  {
  }

  lemma {:induction false} RepaidLeaves(s: State, q: nat, r: nat)
    requires r < |s.requests|
    ensures |Repaid(s, q).requests| == |s.requests| && SameOwn(s.requests[r], Repaid(s, q).requests[r])
  {
  }

  lemma {:induction false} OwnFits(limit: nat, queued: int, req: Request, choice: Choice, table: map<string, nat>, first: Option<Choice>)
    requires RequestOk(limit, req) && FitsChoice(req, first)
    ensures var x := if req.call.None? then Program(req, choice, table)
        else Answered(req, req.call.value.0, req.call.value.1, CallStep(limit, queued, req.call.value.1).1);
      FitsChoice(x, if first.Some? then first else Some(choice)) && (req.stage.Over? ==> x == req)
  {
    if req.call.None? {
      ProgramFits(limit, req, choice, table, first);
    } else {
      AnswerFits(limit, queued, req, first);
    }
  }

  lemma {:induction false} ProgramFits(limit: nat, req: Request, choice: Choice, table: map<string, nat>, first: Option<Choice>)
    requires RequestOk(limit, req) && req.call.None? && FitsChoice(req, first)
    ensures FitsChoice(Program(req, choice, table), if first.Some? then first else Some(choice))
    ensures req.stage.Over? ==> Program(req, choice, table) == req
  {
    hide Sum;
    if req.stage.Arriving? || req.stage.Decoding? {
      hide Track, FinishOn, Drain;
    } else {
      hide Arrive, DecodeOn;
    }
  }

  lemma {:induction false} AnswerFits(limit: nat, queued: int, req: Request, first: Option<Choice>)
    requires RequestOk(limit, req) && req.call.Some? && FitsChoice(req, first)
    ensures var call := req.call.value.1;
      FitsChoice(Answered(req, req.call.value.0, call, CallStep(limit, queued, call).1), first) && first.Some?
  {
  }

  lemma {:induction false} AnnouncedFits(limit: nat, capacity: nat, ids: seq<string>, schedule: seq<Action>, r: nat)
    requires r < |ids|
    ensures |Run(Init(limit, capacity, ids), schedule).requests| == |ids|
    ensures FitsChoice(Run(Init(limit, capacity, ids), schedule).requests[r], FirstChoice(schedule, r))
    decreases |schedule|
  {
    LimitFixed(limit, capacity, ids, schedule);
    if schedule != [] {
      var n := |schedule| - 1;
      AnnouncedFits(limit, capacity, ids, schedule[..n], r);
      AnnouncedNext(limit, capacity, ids, schedule[..n], schedule[n], r);
    }
  }

  lemma {:induction false} AnnouncedNext(limit: nat, capacity: nat, ids: seq<string>, before: seq<Action>, a: Action, r: nat)
    requires r < |ids| && |Run(Init(limit, capacity, ids), before).requests| == |ids|
    requires FitsChoice(Run(Init(limit, capacity, ids), before).requests[r], FirstChoice(before, r))
    ensures var t := Step(Run(Init(limit, capacity, ids), before), a);
      && r < |t.requests|
      && FitsChoice(t.requests[r],
           if FirstChoice(before, r).Some? || !a.Serve? || a.r != r then FirstChoice(before, r) else Some(a.choice))
  {
    var s := Run(Init(limit, capacity, ids), before);
    RunKeeps(limit, capacity, ids, before);
    assert RequestOk(s.limit, s.requests[r]);
    hide Inv, RequestOk, Program, Answered, CallStep, Init;
    if a.Serve? && a.r == r {
      OwnFits(s.limit, s.queued, s.requests[r], a.choice, s.table, FirstChoice(before, r));
    } else {
      OthersLeave(s, a, r);
    }
  }

  /** Some state of the run had the request decoding with its whole body reserved. */
  ghost predicate WasReserved(limit: nat, capacity: nat, ids: seq<string>, schedule: seq<Action>, r: nat, n: nat) {
    exists k :: 0 <= k <= |schedule| && DecodesWith(Run(Init(limit, capacity, ids), schedule[..k]), r, n)
  }

  predicate DecodesWith(s: State, r: nat, n: nat) {
    r < |s.requests| && s.requests[r].stage.Decoding? && s.requests[r].body == n
  }

  lemma {:induction false} StaysReserved(limit: nat, capacity: nat, ids: seq<string>, schedule: seq<Action>, a: Action, r: nat, n: nat)
    requires WasReserved(limit, capacity, ids, schedule, r, n)
    ensures WasReserved(limit, capacity, ids, schedule + [a], r, n)
  {
    hide Run, DecodesWith;
    var k :| 0 <= k <= |schedule| && DecodesWith(Run(Init(limit, capacity, ids), schedule[..k]), r, n);
    assert (schedule + [a])[..k] == schedule[..k];
  }

  lemma {:induction false} NowReserved(limit: nat, capacity: nat, ids: seq<string>, schedule: seq<Action>, r: nat, n: nat)
    requires DecodesWith(Run(Init(limit, capacity, ids), schedule), r, n)
    ensures WasReserved(limit, capacity, ids, schedule, r, n)
  {
    hide Run, DecodesWith;
    assert schedule[..|schedule|] == schedule;
  }

  /** From Arriving a request comes to Decoding or Over only, and untouched to Over; being over and untouched
      it stays so. */
  lemma {:induction false} LeavesArriving(s: State, a: Action, r: nat)
    requires Inv(s) && r < |s.requests|
    ensures var x, y := s.requests[r], Step(s, a).requests;
      && |y| == |s.requests|
      && (x.stage.Arriving? && Untouched(x) ==> y[r].stage.Arriving? || y[r].stage.Decoding? || (y[r].stage.Over? && Untouched(y[r])))
      && (x.stage.Over? ==> y[r].stage.Over? && (Untouched(x) ==> Untouched(y[r])))
  {
    assert RequestOk(s.limit, s.requests[r]);
    if a.Serve? && a.r == r {
      var x := s.requests[r];
      hide Inv;
      ArrivingServed(s.limit, s.queued, x, a.choice, s.table);
      hide Program, Answered, CallStep, RequestOk;
    } else {
      hide Inv;
      OthersLeave(s, a, r);
    }
  }

  lemma {:induction false} ArrivingServed(limit: nat, queued: int, x: Request, choice: Choice, table: map<string, nat>)
    requires RequestOk(limit, x)
    ensures var y := if x.call.None? then Program(x, choice, table)
        else Answered(x, x.call.value.0, x.call.value.1, CallStep(limit, queued, x.call.value.1).1);
      && (x.stage.Arriving? && Untouched(x) ==> y.stage.Arriving? || y.stage.Decoding? || (y.stage.Over? && Untouched(y)))
      && (x.stage.Over? ==> y == x)
  {
  }

  lemma {:induction false} ReservedOrUntouched(limit: nat, capacity: nat, ids: seq<string>, schedule: seq<Action>, r: nat, n: nat)
    requires r < |ids| && FirstChoice(schedule, r) == Some(Known(n))
    ensures var s := Run(Init(limit, capacity, ids), schedule);
      |s.requests| == |ids| &&
      if s.requests[r].stage.Arriving? then Untouched(s.requests[r])
      else WasReserved(limit, capacity, ids, schedule, r, n) || (s.requests[r].stage.Over? && Untouched(s.requests[r]))
    decreases |schedule|
  {
    AnnouncedFits(limit, capacity, ids, schedule, r);
    var m := |schedule| - 1;
    var before, a := schedule[..m], schedule[m];
    var s := Run(Init(limit, capacity, ids), before);
    AnnouncedFits(limit, capacity, ids, before, r);
    RunKeeps(limit, capacity, ids, before);
    LeavesArriving(s, a, r);
    assert before + [a] == schedule;
    assert DecodesWith(Step(s, a), r, n) ==> DecodesWith(Run(Init(limit, capacity, ids), schedule), r, n);
    hide Inv, Step, Init, WasReserved, Untouched;
    if DecodesWith(Step(s, a), r, n) {
      NowReserved(limit, capacity, ids, schedule, r, n);
    }
    if FirstChoice(before, r).Some? {
      ReservedOrUntouched(limit, capacity, ids, before, r, n);
      if WasReserved(limit, capacity, ids, before, r, n) {
        StaysReserved(limit, capacity, ids, before, a, r, n);
      }
    }
  }

  /** In every run a request that announced a length of `n` bytes holds exactly these from the moment it
      decodes until its drain gives them back. Over, it either once held them, or nothing was taken for it,
      tracked, admitted or handed over. */
  lemma {:induction false} BodyIsReserved(limit: nat, capacity: nat, ids: seq<string>, schedule: seq<Action>, r: nat, n: nat)
    requires r < |ids| && FirstChoice(schedule, r) == Some(Known(n))
    ensures var s := Run(Init(limit, capacity, ids), schedule);
      |s.requests| == |ids| && var req := s.requests[r];
      && (if req.stage.Arriving? || req.stage.Over? then req.body == 0 else req.body == n)
      && (req.stage.Arriving? ==> Untouched(req))
      && (req.stage.Over? ==> WasReserved(limit, capacity, ids, schedule, r, n) || Untouched(req))
  {
    AnnouncedFits(limit, capacity, ids, schedule, r);
    ReservedOrUntouched(limit, capacity, ids, schedule, r, n);
    RunKeeps(limit, capacity, ids, schedule);
    var s := Run(Init(limit, capacity, ids), schedule);
    assert RequestOk(s.limit, s.requests[r]);
    hide Inv, Run, Init, WasReserved;
  }

  /** The first reservation, turn by turn: while it has not looked, it is refused exactly when the announced
      bytes do not fit, and then the request is over and nothing else has changed; when what it saw still
      holds, the bytes are taken and the request decodes. */
  lemma {:induction false} FirstReservation(limit: nat, capacity: nat, ids: seq<string>, schedule: seq<Action>, r: nat, n: nat, choice: Choice)
    requires r < |ids| && FirstChoice(schedule, r) == Some(Known(n))
    requires |Run(Init(limit, capacity, ids), schedule).requests| == |ids|
    requires Run(Init(limit, capacity, ids), schedule).requests[r].stage.Arriving?
    ensures var s := Run(Init(limit, capacity, ids), schedule);
      var t, req := Run(Init(limit, capacity, ids), schedule + [Serve(r, choice)]), s.requests[r];
      && AsksFor(req, n)
      && var seen := req.call.value.1.seen;
        if seen.None? then
          if s.queued + n > limit then t == s.(requests := s.requests[r := req.(stage := Over, call := None)])
          else t == s.(requests := s.requests[r := req.(call := Some((Body, Take(n, Some(s.queued)))))])
        else if seen.value == s.queued then
          t == s.(queued := s.queued + n, requests := s.requests[r := req.(stage := Decoding, call := None, body := n)])
        else t == s.(requests := s.requests[r := req.(call := Some((Body, Take(n, None))))])
  {
    AnnouncedFits(limit, capacity, ids, schedule, r);
    LimitFixed(limit, capacity, ids, schedule);
    Conservation(limit, capacity, ids, schedule);
    var init := Init(limit, capacity, ids);
    assert (schedule + [Serve(r, choice)])[..|schedule|] == schedule;
    assert Run(init, schedule + [Serve(r, choice)]) == Step(Run(init, schedule), Serve(r, choice));
    hide Run, Init, Step;
    ReservationTurn(Run(init, schedule), r, n, choice);
  }

  lemma {:induction false} ReservationTurn(s: State, r: nat, n: nat, choice: Choice)
    requires r < |s.requests| && s.queued >= 0
    requires var req := s.requests[r]; req.stage.Arriving? && AsksFor(req, n) && req.body == 0
    ensures var t, req := Step(s, Serve(r, choice)), s.requests[r];
      var seen := req.call.value.1.seen;
      if seen.None? then
        if s.queued + n > s.limit then t == s.(requests := s.requests[r := req.(stage := Over, call := None)])
        else t == s.(requests := s.requests[r := req.(call := Some((Body, Take(n, Some(s.queued)))))])
      else if seen.value == s.queued then
        t == s.(queued := s.queued + n, requests := s.requests[r := req.(stage := Decoding, call := None, body := n)])
      else t == s.(requests := s.requests[r := req.(call := Some((Body, Take(n, None))))])
  {
    hide Program;
  }

  /** A request that announces more than the limit is turned away by its second action at the latest, with
      nothing taken, tracked, admitted or handed over at any time. */
  lemma {:induction false} TooLargeIsTurnedAway(limit: nat, capacity: nat, ids: seq<string>, schedule: seq<Action>, r: nat, n: nat)
    requires r < |ids| && FirstChoice(schedule, r) == Some(Known(n)) && n > limit
    ensures var s := Run(Init(limit, capacity, ids), schedule);
      |s.requests| == |ids| && var req := s.requests[r];
      Untouched(req) && (req.stage.Over? || (NotLooked(req) && ServeCount(schedule, r) == 1))
    decreases |schedule|
  {
    var init, m := Init(limit, capacity, ids), |schedule| - 1;
    var before, a := schedule[..m], schedule[m];
    var s := Run(init, before);
    assert Run(init, schedule) == Step(s, a);
    hide Init, Run, Step, Inv, Untouched, NotLooked, FitsChoice;
    AnnouncedFits(limit, capacity, ids, before, r);
    LimitFixed(limit, capacity, ids, before);
    RunKeeps(limit, capacity, ids, before);
    if FirstChoice(before, r).Some? {
      TooLargeIsTurnedAway(limit, capacity, ids, before, r, n);
    } else {
      NoServeYet(before, r);
    }
    TooLargeStep(s, a, r, n, FirstChoice(before, r));
  }

  /** It has asked for its bytes and not looked at the counter yet. */
  predicate NotLooked(req: Request) {
    req.stage.Arriving? && req.call.Some? && req.call.value.1.Take? && req.call.value.1.seen.None?
  }

  lemma {:induction false} TooLargeStep(s: State, a: Action, r: nat, n: nat, first: Option<Choice>)
    requires Inv(s) && r < |s.requests| && n > s.limit && FitsChoice(s.requests[r], first)
    requires first.Some? ==> first == Some(Known(n)) && Untouched(s.requests[r]) && (s.requests[r].stage.Over? || NotLooked(s.requests[r]))
    requires first.None? ==> a == Serve(r, Known(n))
    ensures |Step(s, a).requests| == |s.requests|
    ensures var x := Step(s, a).requests[r];
      && Untouched(x)
      && if first.None? then NotLooked(x)
         else if a.Serve? && a.r == r then x.stage.Over?
         else (x.stage.Over? || NotLooked(x)) && x.stage == s.requests[r].stage
  {
    assert RequestOk(s.limit, s.requests[r]) && 0 <= s.queued;
    hide Inv;
    if a.Serve? && a.r == r {
      hide Program, Answered, RequestOk;
      TooLargeServed(s.limit, s.queued, s.requests[r], a.choice, s.table, n, first);
    } else {
      hide Step, RequestOk;
      OthersLeave(s, a, r);
    }
  }

  lemma {:induction false} NoServeYet(schedule: seq<Action>, r: nat)
    requires FirstChoice(schedule, r).None?
    ensures ServeCount(schedule, r) == 0
  {
    if schedule != [] {
      NoServeYet(schedule[..|schedule| - 1], r);
    }
  }

  lemma {:induction false} TooLargeServed(limit: nat, queued: int, req: Request, choice: Choice, table: map<string, nat>, n: nat, first: Option<Choice>)
    requires RequestOk(limit, req) && n > limit && 0 <= queued && FitsChoice(req, first)
    requires first.Some? ==> first == Some(Known(n)) && Untouched(req) && (req.stage.Over? || NotLooked(req))
    requires first.None? ==> choice == Known(n)
    ensures var x := if req.call.None? then Program(req, choice, table)
        else Answered(req, req.call.value.0, req.call.value.1, CallStep(limit, queued, req.call.value.1).1);
      Untouched(x) && if first.None? then NotLooked(x) else x.stage.Over?
  {
  }

  /** While a request decodes: what it asks the budget for. */
  lemma {:induction false} DecodingAsks(s: State, r: nat, choice: Choice)
    requires r < |s.requests| && s.requests[r].stage.Decoding? && s.requests[r].call.None?
    ensures var t, req := Step(s, Serve(r, choice)), s.requests[r];
      && |t.requests| == |s.requests| && t.queued == s.queued && var x := t.requests[r];
      match choice
      case ReadChunk(size) => x == if req.counted then req.(call := Some((Body, Take(size, None)))) else req
      case Message(length) => x == req.(call := Some((Payload, Take(length + 256, None))))
      case Replace(i) => i < |req.payloads| ==> x == req.(call := Some((Payloads(i), Give(req.payloads[i], None))))
      case Fail => x == req.(stage := Draining)
      case Go => x == req.(stage := if req.payloads == [] then Draining else Tracking)
      case _ => true
  {
    hide Track, FinishOn, Drain, Arrive, CallStep, Answered, Table;
  }

  /** And what the answer does. A reservation is refused only at a moment when it does not fit, and taken
      only at one when it does; a chunk that is refused leaves the request decoding, a message that is
      refused ends it. */
  lemma {:induction false} DecodingAnswered(s: State, r: nat, choice: Choice)
    requires r < |s.requests| && s.requests[r].stage.Decoding? && s.queued >= 0
    requires s.requests[r].call.Some? && s.requests[r].call.value.1.Take? && !s.requests[r].call.value.0.Payloads?
    ensures var t, req := Step(s, Serve(r, choice)), s.requests[r];
      && |t.requests| == |s.requests| && var x := t.requests[r]; var (purpose, call) := req.call.value;
      && t.queued == (if call.seen == Some(s.queued) then s.queued + call.size else s.queued)
      && x ==
        if call.seen.None? && s.queued + call.size > s.limit then
          req.(call := None, stage := if purpose.Body? then Decoding else Draining)
        else if call.seen.None? then req.(call := Some((purpose, Take(call.size, Some(s.queued)))))
        else if call.seen.value != s.queued then req.(call := Some((purpose, Take(call.size, None))))
        else if purpose.Body? then req.(call := None, body := req.body + call.size)
        else req.(call := None, payloads := req.payloads + [call.size])
  {
    hide Program;
  }

  /** Replacing an earlier field gives back one payload. */
  lemma {:induction false} PayloadGiven(s: State, r: nat, choice: Choice, i: nat, size: nat)
    requires r < |s.requests| && s.requests[r].stage.Decoding? && i < |s.requests[r].payloads| && size > 0
    requires s.requests[r].call == Some((Payloads(i), Give(size, Some(s.queued))))
    ensures var t, req := Step(s, Serve(r, choice)), s.requests[r];
      t.queued == s.queued - size && |t.requests| == |s.requests|
      && t.requests[r] == req.(call := None, payloads := req.payloads[..i] + req.payloads[i + 1..])
  {
    hide Program;
  }

  /** The queue takes a batch from the subscriber or a file only while there is room, and hands on first what
      came first. */
  lemma {:induction false} QueueMoves(s: State, a: Action)
    ensures var t := Step(s, a);
      && t.capacity == s.capacity
      && (|| t.queue == s.queue
          || (|s.queue| < s.capacity && a.EnqueueFile? && t.queue == s.queue + [FileItem])
          || (|s.queue| < s.capacity && s.sub.Holding? && t.queue == s.queue + [HttpBatch(s.sub.owner, s.sub.size, s.sub.id)])
          || (s.queue != [] && a.ConGo? && t.queue == s.queue[1..] &&
              (s.queue[0].HttpBatch? ==>
                (t.con.Handling? || t.con.Repaying?) && t.con.owner == s.queue[0].owner && t.con.size == s.queue[0].size)))    ensures a.EnqueueFile? && |s.queue| < s.capacity ==> Step(s, a) == s.(queue := s.queue + [FileItem])
  {
    hide ServeStep, CallStep, Swap, Repaid;
    match a
    case Serve(r, choice) => if r < |s.requests| { ServeQueue(s, r, choice); }
    case SubGo =>
      if s.sub.ClaimSwap? { SwapQueue(s, s.sub.target, Open, Claimed); }
      if s.sub.AdmitSwap? { SwapQueue(s, s.sub.target, Claimed, Admitted); }
      if s.sub.AbortSwap? { SwapQueue(s, s.sub.target, Claimed, Aborted); }
      if s.sub.Freeing? { RepaidQueue(s, s.sub.owner); }
    case ConGo => if s.con.Repaying? { RepaidQueue(s, s.con.owner); }
    case _ =>
  }

  lemma {:induction false} ServeQueue(s: State, r: nat, choice: Choice)
    requires r < |s.requests|
    ensures var t := ServeStep(s, r, choice);
      t.queue == s.queue && t.capacity == s.capacity && t.stopped == s.stopped && t.sub == s.sub && t.con == s.con
  {
    hide Program, Answered, CallStep, Table;
  }

  lemma {:induction false} SwapQueue(s: State, r: nat, from: Phase, to: Phase)
    ensures var t := Swap(s, r, from, to); t.queue == s.queue && t.capacity == s.capacity && t.stopped == s.stopped && t.con == s.con
  {
  }

  lemma {:induction false} RepaidQueue(s: State, r: nat)
    ensures var t := Repaid(s, r);
      t.queue == s.queue && t.capacity == s.capacity && t.stopped == s.stopped && t.sub == s.sub && t.con == s.con
  {
  }

  /** In every run the rule queue never holds more than its capacity. */
  lemma {:induction false} QueueBounded(limit: nat, capacity: nat, ids: seq<string>, schedule: seq<Action>)
    ensures var s := Run(Init(limit, capacity, ids), schedule); s.capacity == capacity && |s.queue| <= capacity
    decreases |schedule|
  {
    hide Step;
    if schedule != [] {
      var n := |schedule| - 1;
      QueueBounded(limit, capacity, ids, schedule[..n]);
      QueueMoves(Run(Init(limit, capacity, ids), schedule[..n]), schedule[n]);
    }
  }

  /** In every state that keeps the invariant, a message that reaches the idle subscriber while its
      reservation is open and the queue has room is put at its end and admitted, and nothing else changes;
      one whose reservation is no longer open is dropped. */
  lemma {:induction false} DeliveredIsAdmitted(s: State, id: string)
    requires Inv(s) && s.sub.Idle? && id in s.table
    ensures var r := s.table[id];
      r < |s.requests| && s.requests[r].slot.Some? &&
      var Reservation(size, phase) := s.requests[r].slot.value;
      var claiming := Step(Step(s, Deliver(id)), SubGo);
      if phase != Open then claiming == s
      else |s.queue| < s.capacity ==>
        Step(Step(Step(claiming, SubGo), SubGo), SubGo) ==
          s.(queue := s.queue + [HttpBatch(r, size, id)],
             requests := s.requests[r := s.requests[r].(slot := Some(Reservation(size, Admitted)), entered := true)])
  {
    var r := s.table[id];
    TrackedSlot(s, id);
    hide Inv;
    var Reservation(size, phase) := s.requests[r].slot.value;
    var found := Step(s, Deliver(id));
    if phase == Open && |s.queue| < s.capacity {
      var claimed := s.requests[r].(slot := Some(Reservation(size, Claimed)));
      var held := s.(requests := s.requests[r := claimed], sub := Holding(r, size, id));
      assert Step(found, SubGo) == held;
      hide Step;
      HeldIsAdmitted(held);
      var admitted := claimed.(slot := Some(Reservation(size, Admitted)), entered := true);
      assert held.requests[r := admitted] == s.requests[r := admitted];
    }
  }

  lemma {:induction false} HeldIsAdmitted(s: State)
    requires s.sub.Holding? && |s.queue| < s.capacity && s.sub.owner < |s.requests|
    requires s.sub.id in s.table && s.table[s.sub.id] == s.sub.owner
    requires s.requests[s.sub.owner].slot == Some(Reservation(s.sub.size, Claimed))
    ensures var Holding(r, size, id) := s.sub;
      Step(Step(Step(s, SubGo), SubGo), SubGo) ==
        s.(queue := s.queue + [HttpBatch(r, size, id)], sub := Idle,
           requests := s.requests[r := s.requests[r].(slot := Some(Reservation(size, Admitted)), entered := true)])
  {
    hide CallStep, Repaid;
    var Holding(r, size, id) := s.sub;
    var entered := s.requests[r].(entered := true);
    var sent := s.(queue := s.queue + [HttpBatch(r, size, id)], requests := s.requests[r := entered], sub := AdmitLoad(id));
    assert Step(s, SubGo) == sent;
    assert Step(sent, SubGo) == sent.(sub := AdmitSwap(r));
    var admitted := entered.(slot := Some(Reservation(size, Admitted)));
    assert sent.requests[r := admitted] == s.requests[r := admitted];
  }

  lemma {:induction false} TrackedSlot(s: State, id: string)
    requires Inv(s) && id in s.table
    ensures s.table[id] < |s.requests| && s.requests[s.table[id]].slot.Some?
  {
    assert RequestOk(s.limit, s.requests[s.table[id]]);
  }

  /** Only the end of the context makes the subscriber abort a message it holds, and the consumer sweep. */
  predicate GivesUp(s: State) {
    || s.sub.AbortLoad? || s.sub.AbortSwap? || s.sub.Freeing?
    || s.con.Sweeping? || s.con.Gone? || (s.con.Repaying? && s.con.stopping)
  }

  lemma {:induction false} GivesUpOnlyWhenStopped(limit: nat, capacity: nat, ids: seq<string>, schedule: seq<Action>)
    ensures var s := Run(Init(limit, capacity, ids), schedule); GivesUp(s) ==> s.stopped
    decreases |schedule|
  {
    if schedule != [] {
      var n := |schedule| - 1;
      GivesUpOnlyWhenStopped(limit, capacity, ids, schedule[..n]);
      var s := Run(Init(limit, capacity, ids), schedule[..n]);
      hide Run, Init;
      GivesUpStep(s, schedule[n]);
    }
  }

  lemma {:induction false} GivesUpStep(s: State, a: Action)
    requires GivesUp(s) ==> s.stopped
    ensures GivesUp(Step(s, a)) ==> Step(s, a).stopped
  {
    hide ServeStep, CallStep, Swap, Repaid;
    match a
    case Serve(r, choice) => if r < |s.requests| { ServeQueue(s, r, choice); }
    case SubGo =>
      if s.sub.ClaimSwap? { SwapQueue(s, s.sub.target, Open, Claimed); }
      if s.sub.AdmitSwap? { SwapQueue(s, s.sub.target, Claimed, Admitted); }
      if s.sub.AbortSwap? { SwapQueue(s, s.sub.target, Claimed, Aborted); }
      if s.sub.Freeing? { RepaidQueue(s, s.sub.owner); }
    case ConGo => if s.con.Repaying? { RepaidQueue(s, s.con.owner); }
    case _ =>
  }

  lemma {:induction false} FilesOnly(queue: seq<Entry>, r: nat)
    requires forall i :: 0 <= i < |queue| ==> queue[i].FileItem?
    ensures CountIn(queue, r) == 0
  {
    if queue != [] {
      FilesOnly(queue[1..], r);
    }
  }

  lemma {:induction false} NoBytes(requests: seq<Request>)
    requires forall r :: 0 <= r < |requests| ==> Owned(requests[r]) == 0
    ensures RequestBytes(requests) == 0
  {
    if requests != [] {
      NoBytes(requests[1..]);
    }
  }

  // ---------- The shutdown comes to an end ----------

  /** What is left to do for a request that decodes no further; `seen` does not matter. */
  function RequestWork(req: Request): nat {
    var release := 2 * (|req.payloads| + 1);
    match req.stage
    case Arriving => if req.call.Some? then 15 else 20
    case Decoding => release + if req.call.Some? then 10 else 7
    case Tracking => release + 6
    case Publishing => release + 5
    case FinishLoad => release + 4
    case FinishSwap => release + 3
    case FinishRead(_) => release + 2
    case FinishDelete(_, _) => release + 1
    case Draining => if req.call.Some? then release - 1 else release
    case Over => 0
  }

  function RequestsWork(requests: seq<Request>): nat {
    if requests == [] then 0 else RequestWork(requests[0]) + RequestsWork(requests[1..])
  }

  function SubWork(sub: Subscriber): nat {
    match sub
    case ClaimSwap(_, _) => 5
    case Holding(_, _, _) => 4
    case AbortLoad(_, _, _) => 3
    case AdmitLoad(_) => 3
    case AbortSwap(_, _, _) => 2
    case AdmitSwap(_) => 2
    case Freeing(_, _, _) => 1
    case Idle => 1
    case Stopped => 0
  }

  function ConWork(con: Consumer, waiting: nat): nat {
    match con
    case Handling(_, _) => 3 * waiting + 4
    case Repaying(_, _, _, stopping) => if stopping then 3 * waiting + 2 else 3 * waiting + 3
    case Waiting => 3 * waiting + 2
    case Sweeping => 3 * waiting + 1
    case Gone => 0
  }

  function Work(s: State): nat {
    RequestsWork(s.requests) + SubWork(s.sub) + ConWork(s.con, |s.queue|)
  }

  /** How many turns a budget call that nobody disturbs still takes before its last one. */
  function Turns(queued: int, call: Call): nat {
    if call.seen == Some(queued) then 0 else if call.seen.None? then 1 else 2
  }

  /** The first request that is not over. */
  function Busy(requests: seq<Request>): (r: nat)
    ensures r <= |requests|
    ensures r < |requests| ==> requests[r].stage != Over
    ensures forall k :: 0 <= k < r ==> requests[k].stage == Over
  {
    if requests == [] then 0 else if requests[0].stage != Over then 0 else 1 + Busy(requests[1..])
  }

  /** The requests one after the other, then the subscriber, then the consumer. */
  function NextAction(s: State): Action {
    if Busy(s.requests) < |s.requests| then Serve(Busy(s.requests), Fail)
    else if s.sub != Stopped then (if s.sub.Idle? || s.sub.Holding? then SubCancel else SubGo)
    else if s.con.Waiting? then ConStop
    else ConGo
  }

  /** The turns of the call that NextAction goes on with. */
  function NextTurns(s: State): nat {
    var r := Busy(s.requests);
    if r < |s.requests| then (if s.requests[r].call.Some? then Turns(s.queued, s.requests[r].call.value.1) else 0)
    else if s.sub.Freeing? then Turns(s.queued, s.sub.call)
    else if s.con.Repaying? then Turns(s.queued, s.con.call)
    else 0
  }

  predicate Lower(t: State, s: State) {
    Work(t) < Work(s) || (Work(t) == Work(s) && NextTurns(t) < NextTurns(s))
  }

  /** An action of a request, the subscriber or the consumer, not of their environment. */
  predicate Own(a: Action) {
    a.Serve? || a.SubGo? || a.SubCancel? || a.ConGo? || a.ConStop?
  }

  lemma {:induction false} WorkUpdate(q: seq<Request>, r: nat, x: Request)
    requires r < |q|
    ensures RequestsWork(q[r := x]) == RequestsWork(q) - RequestWork(q[r]) + RequestWork(x)
    ensures RequestWork(q[r]) <= RequestsWork(q)
  {
    hide RequestWork;
    if r > 0 {
      assert q[r := x][1..] == q[1..][r - 1 := x];
      WorkUpdate(q[1..], r - 1, x);
    } else {
      assert q[r := x][1..] == q[1..];
    }
  }

  lemma {:induction false} BusyUpdate(q: seq<Request>, r: nat, x: Request)
    requires r == Busy(q) < |q| && x.stage != Over
    ensures Busy(q[r := x]) == r
  {
    if r > 0 {
      assert q[r := x][1..] == q[1..][r - 1 := x];
      BusyUpdate(q[1..], r - 1, x);
    }
  }

  /** One turn of a call either ends it or comes nearer to its last turn. */
  lemma {:induction false} TurnTaken(limit: nat, queued: int, call: Call)
    ensures var (q, reply) := CallStep(limit, queued, call);
      reply.Again? ==> q == queued && Turns(queued, reply.call) < Turns(queued, call)
  {
  }

  /** An answer that ends a request's call takes it nearer to its end. */
  lemma {:induction false} AnswerWork(limit: nat, req: Request, purpose: Purpose, call: Call, reply: Reply)
    requires RequestOk(limit, req) && req.call == Some((purpose, call)) && (call.Give? ==> !reply.Refused?)
    ensures var x := Answered(req, purpose, call, reply);
      if reply.Again? then RequestWork(x) == RequestWork(req) && x.stage == req.stage && x.call == Some((purpose, reply.call))
      else RequestWork(x) < RequestWork(req)
  {
  }

  lemma {:induction false} ProgramWork(limit: nat, req: Request, table: map<string, nat>)
    requires RequestOk(limit, req) && req.call.None? && req.stage != Over && (Tracked(req) ==> req.id in table)
    ensures RequestWork(Program(req, Fail, table)) < RequestWork(req)
  {
  }

  lemma {:induction false} RequestNearer(s: State, r: nat)
    requires Inv(s) && r == Busy(s.requests) < |s.requests|
    ensures Lower(ServeStep(s, r, Fail), s)
  {
    var req := s.requests[r];
    assert RequestOk(s.limit, req);
    assert Tracked(req) ==> req.id in s.table;
    RequestBytesUpdate(s.requests, r, req);
    assert 0 <= s.queued <= s.limit && Owned(req) <= s.queued;
    hide Inv, RequestOk, RequestWork, Program, Answered, CallStep, Owned, Turns;
    if req.call.None? {
      ProgramWork(s.limit, req, s.table);
      WorkUpdate(s.requests, r, Program(req, Fail, s.table));
    } else {
      var (purpose, call) := req.call.value;
      var (queued, reply) := CallStep(s.limit, s.queued, call);
      AnsweredOk(s.limit, s.queued, req, purpose, call);
      AnswerWork(s.limit, req, purpose, call, reply);
      TurnTaken(s.limit, s.queued, call);
      var x := Answered(req, purpose, call, reply);
      WorkUpdate(s.requests, r, x);
      if reply.Again? {
        BusyUpdate(s.requests, r, x);
      }
    }
  }

  lemma {:induction false} SameWork(q: seq<Request>, r: nat, x: Request)
    requires r < |q| && x.stage == q[r].stage && x.call == q[r].call && x.payloads == q[r].payloads
    ensures RequestsWork(q[r := x]) == RequestsWork(q) && Busy(q[r := x]) == Busy(q)
  {
    if r > 0 {
      assert q[r := x][1..] == q[1..][r - 1 := x];
      SameWork(q[1..], r - 1, x);
    } else {
      assert q[r := x][1..] == q[1..];
    }
  }

  lemma {:induction false} SubNearer(s: State)
    requires Inv(s) && s.stopped && Busy(s.requests) == |s.requests| && s.sub != Stopped
    ensures Lower(Step(s, NextAction(s)), s)
  {
    if s.sub.Idle? || s.sub.Holding? {
      hide Inv, SubStep, RequestsWork, ConWork;
    } else {
      assert Step(s, NextAction(s)) == SubStep(s);
      hide Step, NextAction, Inv;
      SubStepNearer(s);
    }
  }

  lemma {:induction false} SubStepNearer(s: State)
    requires Busy(s.requests) == |s.requests| && !s.sub.Idle? && !s.sub.Holding? && !s.sub.Stopped?
    ensures Lower(SubStep(s), s)
  {
    hide RequestsWork, Swap, Repaid, CallStep, Turns, ConWork, NextTurns;
    match s.sub {
      case ClaimSwap(r, _) => SwapWork(s, r, Open, Claimed);
      case AdmitSwap(r) => SwapWork(s, r, Claimed, Admitted);
      case AbortSwap(_, _, r) => SwapWork(s, r, Claimed, Aborted);
      case Freeing(_, _, _) => FreeingNearer(s);
      case _ =>
    }
  }

  lemma {:induction false} FreeingNearer(s: State)
    requires Busy(s.requests) == |s.requests| && s.sub.Freeing?
    ensures Lower(SubStep(s), s)
  {
    hide RequestsWork, Repaid, CallStep, Turns, ConWork;
    TurnTaken(s.limit, s.queued, s.sub.call);
    RepaidWork(s, s.sub.owner);
  }

  lemma {:induction false} SwapWork(s: State, r: nat, from: Phase, to: Phase)
    ensures var t := Swap(s, r, from, to);
      RequestsWork(t.requests) == RequestsWork(s.requests) && Busy(t.requests) == Busy(s.requests)
      && |t.requests| == |s.requests| && t.queue == s.queue && t.con == s.con
  {
    if r < |s.requests| && s.requests[r].slot.Some? {
      SameWork(s.requests, r, s.requests[r].(slot := Some(s.requests[r].slot.value.(phase := to))));
    }
  }

  lemma {:induction false} RepaidWork(s: State, r: nat)
    ensures var t := Repaid(s, r);
      RequestsWork(t.requests) == RequestsWork(s.requests) && Busy(t.requests) == Busy(s.requests)
      && |t.requests| == |s.requests| && t.queue == s.queue && t.sub == s.sub && t.con == s.con
  {
    if r < |s.requests| {
      SameWork(s.requests, r, s.requests[r].(repaid := s.requests[r].repaid + 1));
    }
  }

  lemma {:induction false} ConNearer(s: State)
    requires Inv(s) && s.stopped && Busy(s.requests) == |s.requests| && s.sub == Stopped && s.con != Gone
    ensures Lower(Step(s, NextAction(s)), s)
  {
    if s.con.Waiting? {
      hide Inv, RequestsWork;
    } else {
      assert Step(s, NextAction(s)) == ConStep(s);
      hide Step, NextAction, Inv, RequestsWork, CallStep, Turns, Repaid, Lower;
      if s.con.Repaying? {
        RepayingNearer(s);
      } else {
        TakeNearer(s);
      }
    }
  }

  lemma {:induction false} TakeNearer(s: State)
    requires s.sub == Stopped && (s.con.Handling? || s.con.Sweeping?)
    ensures Lower(ConStep(s), s)
  {
    hide RequestsWork, NextTurns;
  }

  lemma {:induction false} RepayingNearer(s: State)
    requires Busy(s.requests) == |s.requests| && s.sub == Stopped && s.con.Repaying?
    ensures Lower(ConStep(s), s)
  {
    hide RequestsWork, CallStep, Turns, Repaid;
    TurnTaken(s.limit, s.queued, s.con.call);
    RepaidWork(s, s.con.owner);
  }

  /** After the context is done, a request, the subscriber or the consumer can move nearer to the end
      until everything is quiet. */
  lemma {:induction false} NoDeadlock(s: State)
    requires Inv(s) && s.stopped && !Quiet(s)
    ensures Own(NextAction(s)) && Lower(Step(s, NextAction(s)), s)
  {
    hide Inv, Lower, Step;
    if Busy(s.requests) < |s.requests| {
      RequestNearer(s, Busy(s.requests));
      assert Step(s, Serve(Busy(s.requests), Fail)) == ServeStep(s, Busy(s.requests), Fail) by { ServeIs(s, Busy(s.requests)); }
    } else if s.sub != Stopped {
      SubNearer(s);
    } else {
      ConNearer(s);
    }
  }

  lemma {:induction false} ServeIs(s: State, r: nat)
    requires r < |s.requests|
    ensures Step(s, Serve(r, Fail)) == ServeStep(s, r, Fail)
  {
  }

  lemma {:induction false} RunConcat(s: State, a: seq<Action>, b: seq<Action>)
    ensures Run(s, a + b) == Run(Run(s, a), b)
    decreases |b|
  {
    hide Step;
    if b == [] {
      assert a + b == a;
    } else {
      var n := |b| - 1;
      assert (a + b)[..|a| + n] == a + b[..n];
      RunConcat(s, a, b[..n]);
    }
  }

  /** After these actions of the requests, the subscriber and the consumer everything is at rest. */
  predicate Settles(s: State, schedule: seq<Action>) {
    (forall i :: 0 <= i < |schedule| ==> Own(schedule[i])) && Quiet(Run(s, schedule))
  }

  lemma {:induction false} SettlesFirst(s: State, a: Action, rest: seq<Action>)
    requires Own(a) && Settles(Step(s, a), rest)
    ensures Settles(s, [a] + rest)
  {
    hide Step, Quiet, Own;
    RunConcat(s, [a], rest);
    assert [a][..0] == [] && Run(s, [a]) == Step(s, a);
  }

  /** From every state after the end of the context, requests, subscriber and consumer alone can bring
      everything to rest, however their budget calls were interrupted. */
  lemma {:induction false} ReachesQuiet(s: State)
    requires Inv(s) && s.stopped
    ensures exists schedule :: Settles(s, schedule)
    decreases Work(s), NextTurns(s)
  {
    hide Inv, Step, Quiet, Own, NextAction;
    if Quiet(s) {
      assert Settles(s, []);
    } else {
      var a := NextAction(s);
      NoDeadlock(s);
      StepKeeps(s, a);
      StepStopped(s, a);
      hide Settles;
      ReachesQuiet(Step(s, a));
      var rest :| Settles(Step(s, a), rest);
      SettlesFirst(s, a, rest);
    }
  }

  lemma {:induction false} StepStopped(s: State, a: Action)
    requires s.stopped
    ensures Step(s, a).stopped
  {
    if a.Serve? && a.r < |s.requests| {
      hide Program, Table, Answered, CallStep;
    }
  }

  /** Whatever happened before, the end of the context can be followed by actions of the requests, the
      subscriber and the consumer after which no byte is queued and no message is tracked. */
  lemma {:induction false} ShutdownReleasesAll(limit: nat, capacity: nat, ids: seq<string>, schedule: seq<Action>)
    ensures exists more ::
      && Settles(Run(Init(limit, capacity, ids), schedule + [Stop]), more)
      && Empty(Run(Init(limit, capacity, ids), schedule + [Stop] + more))
  {
    var init := Init(limit, capacity, ids);
    RunKeeps(limit, capacity, ids, schedule + [Stop]);
    var s := Run(init, schedule + [Stop]);
    hide Inv, Quiet, Init;
    assert s.stopped by {
      assert (schedule + [Stop])[|schedule|] == Stop;
    }
    ReachesQuiet(s);
    var more :| Settles(s, more);
    RunConcat(init, schedule + [Stop], more);
    NothingLeaks(limit, capacity, ids, schedule + [Stop] + more);
  }

  /** The rule queue holds a batch published under `id` that carries the reservation of request `r`. */
  ghost predicate InQueue(s: State, r: nat, id: string) {
    exists i :: 0 <= i < |s.queue| && s.queue[i].HttpBatch? && s.queue[i].owner == r && s.queue[i].id == id
  }

  /** Admission is never reported for a batch that did not get in: at some earlier moment the rule
      queue held a batch published under the request's identifier that carried its reservation. */
  lemma {:induction false} AdmittedEntered(limit: nat, capacity: nat, ids: seq<string>, schedule: seq<Action>, r: nat)
    requires r < |ids| && r < |Run(Init(limit, capacity, ids), schedule).requests|
    requires Run(Init(limit, capacity, ids), schedule).requests[r].admitted
    ensures exists k :: 0 <= k <= |schedule| && InQueue(Run(Init(limit, capacity, ids), schedule[..k]), r, ids[r])
  {
    RunKeeps(limit, capacity, ids, schedule);
    var s := Run(Init(limit, capacity, ids), schedule);
    assert RequestOk(s.limit, s.requests[r]);
    EnteredWhen(limit, capacity, ids, schedule, r);
  }

  lemma {:induction false} EnteredWhen(limit: nat, capacity: nat, ids: seq<string>, schedule: seq<Action>, r: nat)
    requires r < |ids| && r < |Run(Init(limit, capacity, ids), schedule).requests|
    requires Run(Init(limit, capacity, ids), schedule).requests[r].entered
    ensures exists k :: 0 <= k <= |schedule| && InQueue(Run(Init(limit, capacity, ids), schedule[..k]), r, ids[r])
    decreases |schedule|
  {
    assert schedule != [];
    var before, last := schedule[..|schedule| - 1], schedule[|schedule| - 1];
    var s := Run(Init(limit, capacity, ids), before);
    LimitFixed(limit, capacity, ids, before);
    StepFixed(s, last);
    if s.requests[r].entered {
      EnteredWhen(limit, capacity, ids, before, r);
      var k :| 0 <= k <= |before| && InQueue(Run(Init(limit, capacity, ids), before[..k]), r, ids[r]);
      assert schedule[..k] == before[..k];
    } else {
      RunKeeps(limit, capacity, ids, before);
      SentId(s);
      assert schedule[..|schedule|] == schedule;
      var t := Step(s, last);
      assert t.queue[|s.queue|] == HttpBatch(r, s.sub.size, ids[r]);
      assert InQueue(t, r, ids[r]);
    }
  }

  lemma {:induction false} SentId(s: State)
    requires Inv(s) && s.sub.Holding?
    ensures s.sub.owner < |s.requests| && s.requests[s.sub.owner].id == s.sub.id
  {
  }

  // ---------- A message gets through ----------

  /** A state with one request, tracked under "m" when `tracked`. */
  function One(limit: nat, capacity: nat, queued: int, tracked: bool, req: Request, queue: seq<Entry>, sub: Subscriber, con: Consumer): State {
    State(limit, capacity, queued, if tracked then map["m" := 0] else map[], [req], queue, sub, con, false, false)
  }

  /** `t` is reached from `s` by a schedule. */
  ghost predicate Leads(s: State, t: State) {
    exists schedule :: Run(s, schedule) == t
  }

  lemma {:induction false} LeadsNext(s: State, t: State, a: Action)
    requires Leads(s, t)
    ensures Leads(s, Step(t, a))
  {
    hide Step;
    var schedule :| Run(s, schedule) == t;
    assert (schedule + [a])[..|schedule|] == schedule;
    assert Run(s, schedule + [a]) == Step(t, a);
  }

  /** The only request moves on. */
  lemma {:induction false} Serves(start: State, s: State, req: Request, choice: Choice, next: Request)
    requires Leads(start, s) && s.requests == [req] && req.call == None && next == Program(req, choice, s.table)
    ensures Leads(start, s.(requests := [next], table := Table(req, 0, s.table)))
  {
    LeadsNext(start, s, Serve(0, choice));
    hide Program, Table;
    assert [req][0 := next] == [next];
  }

  /** One turn of its budget call. */
  lemma {:induction false} Calls(start: State, s: State, req: Request, purpose: Purpose, call: Call, queued: int, reply: Reply)
    requires Leads(start, s) && s.requests == [req] && req.call == Some((purpose, call)) && !s.refused
    requires (queued, reply) == CallStep(s.limit, s.queued, call) && !reply.Refused?
    ensures Leads(start, s.(queued := queued, requests := [Answered(req, purpose, call, reply)]))
  {
    LeadsNext(start, s, Serve(0, Go));
    hide Answered, CallStep;
    var next := Answered(req, purpose, call, reply);
    assert [req][0 := next] == [next];
  }

  /** A budget call that is not disturbed runs to its end. */
  lemma {:induction false} CallThrough(start: State, s: State, req: Request, purpose: Purpose, call: Call)
    requires Leads(start, s) && s.requests == [req] && req.call == Some((purpose, call)) && call.seen == None && !s.refused
    requires 0 <= s.queued && if call.Take? then s.queued + call.size <= s.limit else call.size <= s.queued
    ensures Leads(start, s.(queued := s.queued + Delta(call), requests := [Granted(req, purpose, call)]))
  {
    hide Granted, Leads;
    if call.Give? && call.size == 0 {
      Calls(start, s, req, purpose, call, s.queued, Done);
    } else {
      var seen := if call.Take? then Take(call.size, Some(s.queued)) else Give(call.size, Some(s.queued));
      Calls(start, s, req, purpose, call, s.queued, Again(seen));
      var asking := Ask(req, purpose, seen);
      Calls(start, s.(requests := [asking]), asking, purpose, seen, s.queued + Delta(call), Done);
      GrantedAlike(req, purpose, call, seen);
    }
  }

  lemma {:induction false} GrantedAlike(req: Request, purpose: Purpose, call: Call, seen: Call)
    requires call.size == seen.size && (call.Take? <==> seen.Take?)
    ensures Granted(Ask(req, purpose, seen), purpose, seen) == Granted(req, purpose, call)
  {
  }

  /** The body is reserved. */
  lemma {:induction false} BodyTaken(limit: nat, capacity: nat, body: nat)
    requires body <= limit
    ensures Leads(Init(limit, capacity, ["m"]),
      One(limit, capacity, body, false, Fresh("m").(stage := Decoding, body := body), [], Idle, Waiting))
  {
    var start, r := Init(limit, capacity, ["m"]), Fresh("m");
    assert Run(start, []) == start && start == One(limit, capacity, 0, false, r, [], Idle, Waiting);
    hide Leads, Run;
    var asking := Ask(r, Body, Take(body, None));
    Serves(start, start, r, Known(body), asking);
    CallThrough(start, One(limit, capacity, 0, false, asking, [], Idle, Waiting), asking, Body, Take(body, None));
  }

  /** A message is reserved, ... */
  lemma {:induction false} MessageTaken(start: State, limit: nat, capacity: nat, queued: nat, req: Request, length: nat)
    requires queued + length + OVERHEAD <= limit && req.stage == Decoding && req.call == None && req.payloads == []
    requires Leads(start, One(limit, capacity, queued, false, req, [], Idle, Waiting))
    ensures var size := length + OVERHEAD;
      Leads(start, One(limit, capacity, queued + size, false, req.(payloads := [size]), [], Idle, Waiting))
  {
    hide Leads;
    var size := length + OVERHEAD;
    var asking := Ask(req, Payload, Take(size, None));
    Serves(start, One(limit, capacity, queued, false, req, [], Idle, Waiting), req, Message(length), asking);
    CallThrough(start, One(limit, capacity, queued, false, asking, [], Idle, Waiting), asking, Payload, Take(size, None));
    assert [] + [size] == [size];
  }

  /** ... and the batch is tracked and published. */
  lemma {:induction false} BatchTracked(start: State, limit: nat, capacity: nat, queued: nat, req: Request, size: nat)
    requires size > 0 && req.stage == Decoding && req.call == None && req.payloads == [size] && req.id == "m"
    requires Leads(start, One(limit, capacity, queued, false, req, [], Idle, Waiting))
    ensures Leads(start, One(limit, capacity, queued, true,
      req.(stage := Publishing, slot := Some(Reservation(size, Open))), [], Idle, Waiting))
  {
    hide Leads;
    var tracking := req.(stage := Tracking);
    Serves(start, One(limit, capacity, queued, false, req, [], Idle, Waiting), req, Go, tracking);
    assert Sum([size]) == size by { assert [size][1..] == []; }
    hide Sum;
    Serves(start, One(limit, capacity, queued, false, tracking, [], Idle, Waiting), tracking, Go,
      req.(stage := Publishing, slot := Some(Reservation(size, Open))));
    assert map[]["m" := 0] == map["m" := 0];
  }

  lemma {:induction false} LeadsTo(start: State, s: State, a: Action, t: State)
    requires Leads(start, s) && t == Step(s, a)
    ensures Leads(start, t)
  {
    hide Step;
    LeadsNext(start, s, a);
  }

  /** The subscriber claims the batch, sends it and admits it. */
  lemma {:induction false} Subscribed(start: State, limit: nat, capacity: nat, queued: int, req: Request, size: nat)
    requires capacity > 0 && req.call == None && req.slot == Some(Reservation(size, Open)) && req.stage == Publishing
    requires Leads(start, One(limit, capacity, queued, true, req, [], Idle, Waiting))
    ensures Leads(start, One(limit, capacity, queued, true,
      req.(slot := Some(Reservation(size, Admitted)), entered := true), [HttpBatch(0, size, "m")], Idle, Waiting))
  {
    hide Leads;
    var claimed := req.(slot := Some(Reservation(size, Claimed)));
    var entered := claimed.(entered := true);
    var queue := [HttpBatch(0, size, "m")];
    var s := One(limit, capacity, queued, true, req, [], Idle, Waiting);
    LeadsTo(start, s, Deliver("m"), s.(sub := ClaimSwap(0, "m")));
    assert [req][0 := claimed] == [claimed] && [claimed][0 := entered] == [entered] && [] + queue == queue;
    var held := s.(requests := [claimed], sub := Holding(0, size, "m"));
    LeadsTo(start, s.(sub := ClaimSwap(0, "m")), SubGo, held);
    LeadsTo(start, held, SubGo, One(limit, capacity, queued, true, entered, queue, AdmitLoad("m"), Waiting));
    Admits(start, limit, capacity, queued, entered, size);
  }

  lemma {:induction false} Admits(start: State, limit: nat, capacity: nat, queued: int, req: Request, size: nat)
    requires req.slot == Some(Reservation(size, Claimed))
    requires Leads(start, One(limit, capacity, queued, true, req, [HttpBatch(0, size, "m")], AdmitLoad("m"), Waiting))
    ensures Leads(start, One(limit, capacity, queued, true,
      req.(slot := Some(Reservation(size, Admitted))), [HttpBatch(0, size, "m")], Idle, Waiting))
  {
    hide Leads;
    var admitted := req.(slot := Some(Reservation(size, Admitted)));
    var s := One(limit, capacity, queued, true, req, [HttpBatch(0, size, "m")], AdmitLoad("m"), Waiting);
    assert [req][0 := admitted] == [admitted];
    LeadsTo(start, s, SubGo, s.(sub := AdmitSwap(0)));
    LeadsTo(start, s.(sub := AdmitSwap(0)), SubGo, s.(requests := [admitted], sub := Idle));
  }

  /** FinishMessage finds the batch admitted. */
  lemma {:induction false} FinishTold(start: State, limit: nat, capacity: nat, queued: int, req: Request, size: nat, queue: seq<Entry>)
    requires req.stage == Publishing && req.call == None && req.id == "m" && req.payloads == [size] && req.slot == Some(Reservation(size, Admitted))
    requires Leads(start, One(limit, capacity, queued, true, req, queue, Idle, Waiting))
    ensures Leads(start, One(limit, capacity, queued, false,
      req.(stage := Draining, admitted := true, transferred := true, payloads := [0]), queue, Idle, Waiting))
  {
    hide Leads;
    var s := One(limit, capacity, queued, true, req, queue, Idle, Waiting);
    var load, swap, read := req.(stage := FinishLoad), req.(stage := FinishSwap), req.(stage := FinishRead(false));
    var delete := req.(stage := FinishDelete(false, Admitted));
    Serves(start, s, req, Go, load);
    Serves(start, s.(requests := [load]), load, Go, swap);
    Serves(start, s.(requests := [swap]), swap, Go, read);
    Serves(start, s.(requests := [read]), read, Go, delete);
    assert seq(1, i => 0) == [0] && map["m" := 0] - {"m"} == map[];
    Serves(start, s.(requests := [delete]), delete, Go,
      req.(stage := Draining, admitted := true, transferred := true, payloads := [0]));
  }

  /** The request gives back nothing for the batch, and its body. */
  lemma {:induction false} GivesBack(start: State, limit: nat, capacity: nat, queued: int, req: Request, queue: seq<Entry>)
    requires req.stage == Draining && req.call == None && req.payloads == [0] && req.body <= queued
    requires Leads(start, One(limit, capacity, queued, false, req, queue, Idle, Waiting))
    ensures Leads(start, One(limit, capacity, queued - req.body, false,
      req.(stage := Over, body := 0, payloads := []), queue, Idle, Waiting))
  {
    hide Leads;
    var s := One(limit, capacity, queued, false, req, queue, Idle, Waiting);
    var asking := Ask(req, Payloads(0), Give(0, None));
    Serves(start, s, req, Go, asking);
    CallThrough(start, s.(requests := [asking]), asking, Payloads(0), Give(0, None));
    assert Without([0], 0) == [];
    var empty := req.(payloads := []);
    var last := Ask(empty, Body, Give(req.body, None));
    Serves(start, s.(requests := [empty]), empty, Go, last);
    CallThrough(start, s.(requests := [last]), last, Body, Give(req.body, None));
  }

  /** The consumer handles the batch and gives back its bytes. */
  lemma {:induction false} Consumed(start: State, limit: nat, capacity: nat, req: Request, size: nat)
    requires size > 0 && Leads(start, One(limit, capacity, size, false, req, [HttpBatch(0, size, "m")], Idle, Waiting))
    ensures Leads(start, One(limit, capacity, 0, false, req.(repaid := req.repaid + 1), [], Idle, Waiting))
  {
    hide Leads;
    var s := One(limit, capacity, size, false, req, [HttpBatch(0, size, "m")], Idle, Waiting);
    var handling := One(limit, capacity, size, false, req, [], Idle, Handling(0, size));
    assert s.queue[1..] == [];
    LeadsTo(start, s, ConGo, handling);
    var asking, asked := Repaying(0, size, Give(size, None), false), Repaying(0, size, Give(size, Some(size)), false);
    LeadsTo(start, handling, ConGo, handling.(con := asking));
    LeadsTo(start, handling.(con := asking), ConGo, handling.(con := asked));
    var repaid := req.(repaid := req.repaid + 1);
    assert [req][0 := repaid] == [repaid];
    LeadsTo(start, handling.(con := asked), ConGo, One(limit, capacity, 0, false, repaid, [], Idle, Waiting));
  }

  /** A message that fits gets through: some schedule ends with the request told `admitted`, its batch
      handled by the consumer, and the budget empty. */
  lemma {:induction false} MessageGetsThrough(limit: nat, capacity: nat, body: nat, length: nat)
    requires body + length + OVERHEAD <= limit && capacity > 0
    ensures exists schedule ::
      var s := Run(Init(limit, capacity, ["m"]), schedule);
      && |s.requests| == 1 && s.requests[0].stage == Over && s.requests[0].admitted && s.requests[0].repaid == 1
      && s.queued == 0 && s.queue == [] && s.table == map[]
  {
    hide Run, Step;
    var start, size := Init(limit, capacity, ["m"]), length + OVERHEAD;
    var r := Fresh("m").(stage := Decoding, body := body);
    BodyTaken(limit, capacity, body);
    MessageTaken(start, limit, capacity, body, r, length);
    BatchTracked(start, limit, capacity, body + size, r.(payloads := [size]), size);
    var req := r.(stage := Publishing, payloads := [size], slot := Some(Reservation(size, Open)));
    Subscribed(start, limit, capacity, body + size, req, size);
    var admitted := req.(slot := Some(Reservation(size, Admitted)), entered := true);
    var queue := [HttpBatch(0, size, "m")];
    FinishTold(start, limit, capacity, body + size, admitted, size, queue);
    var told := admitted.(stage := Draining, admitted := true, transferred := true, payloads := [0]);
    GivesBack(start, limit, capacity, body + size, told, queue);
    var over := told.(stage := Over, body := 0, payloads := []);
    Consumed(start, limit, capacity, over, size);
    var schedule :| Run(start, schedule) == One(limit, capacity, 0, false, over.(repaid := 1), [], Idle, Waiting);
  }
}
