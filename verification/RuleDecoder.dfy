/** The streaming decoder of rule messages (internal/mod/http/server/rules.go), at the level of JSON
    tokens.

    The body arrives in chunks. A body of unknown length takes each chunk from the byte budget when
    json.Decoder refills its buffer, and a chunk that does not fit is gone: the reader has read it.
    json.Decoder's own automaton (`Legal`, `After`) refuses tokens that are out of place; its input
    ends at the first lexical error. The functions carry the decoder and the budget as one value;
    the class at the end keeps them as fields. */
module RuleDecoder {
  import opened Wrappers
  import QueuedBytes

  datatype Kind = BeginObject | EndObject | BeginArray | EndArray | Text(text: string) | Scalar | Null

  /** A token and its width in bytes, with the separators and spaces inside its value. */
  datatype Token = Token(kind: Kind, width: nat)

  datatype Chunk = Chunk(tokens: seq<Token>, size: nat)

  /** What json.Decoder expects inside an array or an object. */
  datatype Frame = InArray | AtKey | AtValue

  /** `counted` says that the reader takes what it reads from the budget; `reserved` is what it took.
      `dropped` records that a chunk was refused. */
  datatype Dec = Dec(
    buffer: seq<Token>, chunks: seq<Chunk>, stack: seq<Frame>,
    counted: bool, reserved: nat, dropped: bool,
    limit: nat, queued: nat)

  function Weight(chunks: seq<Chunk>): nat {
    if chunks == [] then 0 else 1 + |chunks[0].tokens| + Weight(chunks[1..])
  }

  /** The tokens and chunks not read yet. */
  function Left(d: Dec): nat {
    |d.buffer| + Weight(d.chunks)
  }

  /** The decoder has read on from `d` to `e`; without counting, nothing is dropped or taken. */
  predicate Follows(d: Dec, e: Dec) {
    && Left(e) <= Left(d) && e.counted == d.counted && e.limit == d.limit
    && (d.dropped ==> e.dropped)
    && (!d.counted ==> e.dropped == d.dropped && e.queued == d.queued)
  }

  /** The same with payloads taken and given back meanwhile. */
  predicate Continues(d: Dec, e: Dec) {
    && Left(e) <= Left(d) && e.counted == d.counted && e.limit == d.limit
    && (d.dropped ==> e.dropped)
    && (!d.counted ==> e.dropped == d.dropped)
  }

  // ---------- json.Decoder ----------

  predicate Starts(k: Kind) {
    k.BeginObject? || k.BeginArray? || k.Text? || k.Scalar? || k.Null?
  }

  predicate Legal(stack: seq<Frame>, k: Kind) {
    if stack == [] then Starts(k)
    else
      match stack[|stack| - 1]
      case InArray => Starts(k) || k.EndArray?
      case AtKey => k.Text? || k.EndObject?
      case AtValue => Starts(k)
  }

  /** The stack once the value that starts here is read. */
  function Base(stack: seq<Frame>): seq<Frame> {
    if stack != [] && stack[|stack| - 1].AtValue? then stack[..|stack| - 1] + [AtKey] else stack
  }

  function After(stack: seq<Frame>, k: Kind): seq<Frame>
    requires Legal(stack, k)
  {
    if stack != [] && stack[|stack| - 1].AtKey? then
      if k.Text? then stack[..|stack| - 1] + [AtValue] else stack[..|stack| - 1]
    else if k.EndArray? then stack[..|stack| - 1]
    else if k.BeginObject? then Base(stack) + [AtKey]
    else if k.BeginArray? then Base(stack) + [InArray]
    else Base(stack)
  }

  /** One Read of the body. */
  function Refill(d: Dec): (r: (Dec, bool))
    requires d.chunks != []
    ensures Left(r.0) < Left(d) && Follows(d, r.0) && (!r.1 ==> r.0.dropped)
  {
    var c := d.chunks[0];
    var rest := d.(chunks := d.chunks[1..]);
    if !d.counted then (rest.(buffer := d.buffer + c.tokens), true)
    else if d.queued + c.size > d.limit then (rest.(dropped := true), false)
    else (rest.(buffer := d.buffer + c.tokens, queued := d.queued + c.size, reserved := d.reserved + c.size), true)
  }

  function Peek(d: Dec): (r: (Dec, Option<Token>))
    ensures Follows(d, r.0)
    ensures r.1.Some? ==> r.0.buffer != [] && r.1.value == r.0.buffer[0]
    decreases |d.chunks|
  {
    if d.buffer != [] then (d, Some(d.buffer[0]))
    else if d.chunks == [] then (d, None)
    else
      var (e, ok) := Refill(d);
      if ok then Peek(e) else (e, None)
  }

  /** Decoder.More: an error while looking is a no. */
  function More(d: Dec): (r: (Dec, bool))
    ensures Follows(d, r.0)
  {
    var (e, t) := Peek(d);
    (e, t.Some? && !t.value.kind.EndObject? && !t.value.kind.EndArray?)
  }

  /** Decoder.Token */
  function Next(d: Dec): (r: (Dec, Option<Token>))
    ensures Follows(d, r.0)
    ensures r.1.Some? ==> Left(r.0) < Left(d)
  {
    var (e, t) := Peek(d);
    if t.None? || !Legal(e.stack, t.value.kind) then (e, None)
    else (e.(buffer := e.buffer[1..], stack := After(e.stack, t.value.kind)), t)
  }

  /** Decoder.Decode into a RawMessage: the tokens of one value. */
  function Raw(d: Dec): (r: (Dec, Option<seq<Token>>))
    ensures Follows(d, r.0)
    ensures r.1.Some? ==> Left(r.0) < Left(d)
    decreases Left(d), 1
  {
    var (e, t) := Next(d);
    if t.None? then (e, None)
    else
      match t.value.kind
      case BeginObject => RawMembers(e, [t.value])
      case BeginArray => RawItems(e, [t.value])
      case EndObject => (e, None)
      case EndArray => (e, None)
      case _ => (e, Some([t.value]))
  }

  function RawMembers(d: Dec, read: seq<Token>): (r: (Dec, Option<seq<Token>>))
    ensures Follows(d, r.0)
    decreases Left(d), 0
  {
    var (e, t) := Next(d);
    if t.None? then (e, None)
    else if t.value.kind.EndObject? then (e, Some(read + [t.value]))
    else
      var (f, value) := Raw(e);
      if value.None? then (f, None) else RawMembers(f, read + [t.value] + value.value)
  }

  function RawItems(d: Dec, read: seq<Token>): (r: (Dec, Option<seq<Token>>))
    ensures Follows(d, r.0)
    decreases Left(d), 2
  {
    var (e, t) := Peek(d);
    if t.Some? && t.value.kind.EndArray? then
      var (f, end) := Next(e);
      (f, if end.Some? then Some(read + [end.value]) else None)
    else
      var (f, value) := Raw(d);
      if value.None? then (f, None) else RawItems(f, read + value.value)
  }

  // ---------- The handler's own loops ----------

  function Skip(d: Dec): (r: (Dec, bool))
    ensures Follows(d, r.0)
    ensures r.1 ==> Left(r.0) < Left(d)
    decreases Left(d), 1
  {
    var (e, t) := Next(d);
    if t.None? then (e, false)
    else
      match t.value.kind
      case BeginObject => SkipMembers(e)
      case BeginArray => SkipItems(e)
      case EndObject => (e, false)
      case EndArray => (e, false)
      case _ => (e, true)
  }

  function SkipMembers(d: Dec): (r: (Dec, bool))
    ensures Follows(d, r.0)
    decreases Left(d), 0
  {
    var (e, more) := More(d);
    var (f, t) := Next(e);
    if !more || t.None? then (f, t.Some?)
    else
      var (g, ok) := Skip(f);
      if ok then SkipMembers(g) else (g, false)
  }

  function SkipItems(d: Dec): (r: (Dec, bool))
    ensures Follows(d, r.0)
    decreases Left(d), 2
  {
    var (e, more) := More(d);
    if !more then
      var (f, t) := Next(e);
      (f, t.Some?)
    else
      var (g, ok) := Skip(e);
      if ok then SkipItems(g) else (g, false)
  }

  datatype Payload = Payload(data: seq<Token>, timestamp: int, reservedBytes: nat)

  /** decodeRuleMessageMetadata: the timestamp, unless the message is refused. */
  type Metadata = seq<Token> -> Option<int>

  function Width(tokens: seq<Token>): nat {
    if tokens == [] then 0 else Width(tokens[..|tokens| - 1]) + tokens[|tokens| - 1].width
  }

  function PayloadOf(data: seq<Token>, timestamp: int): Payload {
    Payload(data, timestamp, Width(data) + QueuedBytes.OVERHEAD)
  }

  function Reserved(payloads: seq<Payload>): nat {
    if payloads == [] then 0 else payloads[0].reservedBytes + Reserved(payloads[1..])
  }

  /** releaseQueuedPayloads; Release refuses more than is queued. */
  function Repay(queued: nat, payloads: seq<Payload>): nat {
    if payloads == [] then queued
    else
      var size := payloads[0].reservedBytes;
      Repay(if size > queued then queued else queued - size, payloads[1..])
  }

  function Fail(d: Dec, payloads: seq<Payload>): (Dec, Option<seq<Payload>>) {
    (d.(queued := Repay(d.queued, payloads)), None)
  }

  /** The loop of decodeMessageArray. */
  function DecodeItems(d: Dec, metadata: Metadata, payloads: seq<Payload>): (r: (Dec, Option<seq<Payload>>))
    ensures Continues(d, r.0)
    decreases Left(d)
  {
    var (e, more) := More(d);
    if !more then
      var (f, t) := Next(e);
      if t.Some? && t.value.kind.EndArray? then (f, Some(payloads)) else Fail(f, payloads)
    else
      var (f, data) := Raw(e);
      if data.None? then Fail(f, payloads)
      else
        var timestamp := metadata(data.value);
        if timestamp.None? then Fail(f, payloads)
        else
          var p := PayloadOf(data.value, timestamp.value);
          if f.queued + p.reservedBytes > f.limit then Fail(f, payloads)
          else DecodeItems(f.(queued := f.queued + p.reservedBytes), metadata, payloads + [p])
  }

  function DecodeArray(d: Dec, metadata: Metadata): (r: (Dec, Option<seq<Payload>>))
    ensures Continues(d, r.0)
    ensures r.1.Some? ==> Left(r.0) < Left(d)
  {
    var (e, t) := Next(d);
    if t.None? then (e, None)
    else if t.value.kind.Null? then (e, Some([]))
    else if !t.value.kind.BeginArray? then (e, None)
    else DecodeItems(e, metadata, [])
  }

  /** strings.EqualFold(key, "messages"): the long s folds to s as well. */
  predicate IsMessages(key: string) {
    |key| == |"messages"| && forall i :: 0 <= i < |key| ==> Fold(key[i]) == "messages"[i]
  }

  function Fold(c: char): char {
    if 'A' <= c <= 'Z' then (c as int - 'A' as int + 'a' as int) as char
    else if c == '\U{17F}' then 's'
    else c
  }

  /** The loop of decodeRuleMessages. */
  function DecodeFields(d: Dec, metadata: Metadata, payloads: seq<Payload>): (r: (Dec, Option<seq<Payload>>))
    ensures Continues(d, r.0)
    decreases Left(d), 0
  {
    var (e, more) := More(d);
    var (f, t) := Next(e);
    if !more then
      if t.Some? && t.value.kind.EndObject? then (f, Some(payloads)) else Fail(f, payloads)
    else if t.None? || !t.value.kind.Text? then Fail(f, payloads)
    else DecodeField(f, metadata, payloads, t.value.kind.text)
  }

  /** The field named `key`, and the fields after it. */
  function DecodeField(d: Dec, metadata: Metadata, payloads: seq<Payload>, key: string): (r: (Dec, Option<seq<Payload>>))
    ensures Continues(d, r.0)
    decreases Left(d), 1
  {
    if !IsMessages(key) then
      var (g, ok) := Skip(d);
      if ok then DecodeFields(g, metadata, payloads) else Fail(g, payloads)
    else
      var (g, replacement) := DecodeArray(d, metadata);
      if replacement.None? then Fail(g, payloads)
      else DecodeFields(g.(queued := Repay(g.queued, payloads)), metadata, replacement.value)
  }

  function DecodeRequest(d: Dec, metadata: Metadata): (r: (Dec, Option<seq<Payload>>))
    ensures Continues(d, r.0)
  {
    var (e, t) := Next(d);
    if t.None? || !t.value.kind.BeginObject? then (e, None) else DecodeFields(e, metadata, [])
  }

  // ---------- The budget ----------

  /** What the reader and the payloads hold is queued, and the limit is kept. */
  predicate Covered(d: Dec, payloads: seq<Payload>) {
    d.reserved + Reserved(payloads) <= d.queued <= d.limit
  }

  /** The bytes in the budget that are neither the body's nor the payloads'. */
  function Others(d: Dec, payloads: seq<Payload>): int {
    d.queued - d.reserved - Reserved(payloads)
  }

  /** From `d` with `held` to `e` with `kept` nothing but the reader's and the payloads' bytes moved. */
  predicate Balanced(d: Dec, held: seq<Payload>, e: Dec, kept: seq<Payload>) {
    Covered(e, kept) && Others(e, kept) == Others(d, held) && e.limit == d.limit
  }

  lemma {:induction false} ReservedNext(payloads: seq<Payload>, p: Payload)
    ensures Reserved(payloads + [p]) == Reserved(payloads) + p.reservedBytes
  {
    if payloads == [] {
      assert payloads + [p] == [p] && [p][1..] == [];
    } else {
      assert (payloads + [p])[0] == payloads[0] && (payloads + [p])[1..] == payloads[1..] + [p];
      ReservedNext(payloads[1..], p);
    }
  }

  /** No Release is refused while the payloads' bytes are queued. */
  lemma {:induction false} RepayAll(queued: nat, payloads: seq<Payload>)
    requires Reserved(payloads) <= queued
    ensures Repay(queued, payloads) == queued - Reserved(payloads)
    decreases |payloads|
  {
    if payloads != [] {
      RepayAll(queued - payloads[0].reservedBytes, payloads[1..]);
    }
  }

  lemma {:induction false} FailBalanced(d: Dec, payloads: seq<Payload>)
    requires Covered(d, payloads)
    ensures Balanced(d, payloads, Fail(d, payloads).0, [])
  {
    RepayAll(d.queued, payloads);
  }

  lemma {:induction false} PeekBalanced(d: Dec, payloads: seq<Payload>)
    requires Covered(d, payloads)
    ensures Balanced(d, payloads, Peek(d).0, payloads)
    decreases |d.chunks|
  {
    if d.buffer == [] && d.chunks != [] && Refill(d).1 {
      PeekBalanced(Refill(d).0, payloads);
    }
  }

  lemma {:induction false} RawBalanced(d: Dec, payloads: seq<Payload>)
    requires Covered(d, payloads)
    ensures Balanced(d, payloads, Raw(d).0, payloads)
    decreases Left(d), 1
  {
    PeekBalanced(d, payloads);
    hide Peek, Covered, Others, Legal, After;
    var (e, t) := Next(d);
    NextBalanced(d, payloads);
    if t.Some? && t.value.kind.BeginObject? {
      RawMembersBalanced(e, [t.value], payloads);
    } else if t.Some? && t.value.kind.BeginArray? {
      RawItemsBalanced(e, [t.value], payloads);
    }
  }

  lemma {:induction false} NextBalanced(d: Dec, payloads: seq<Payload>)
    requires Covered(d, payloads)
    ensures Balanced(d, payloads, Next(d).0, payloads)
  {
    PeekBalanced(d, payloads);
  }

  lemma {:induction false} RawMembersBalanced(d: Dec, read: seq<Token>, payloads: seq<Payload>)
    requires Covered(d, payloads)
    ensures Balanced(d, payloads, RawMembers(d, read).0, payloads)
    decreases Left(d), 0
  {
    NextBalanced(d, payloads);
    hide Next, Reserved;
    var (e, t) := Next(d);
    if t.Some? && !t.value.kind.EndObject? {
      RawBalanced(e, payloads);
      var (f, value) := Raw(e);
      if value.Some? {
        RawMembersBalanced(f, read + [t.value] + value.value, payloads);
      }
    }
  }

  lemma {:induction false} RawItemsBalanced(d: Dec, read: seq<Token>, payloads: seq<Payload>)
    requires Covered(d, payloads)
    ensures Balanced(d, payloads, RawItems(d, read).0, payloads)
    decreases Left(d), 2
  {
    PeekBalanced(d, payloads);
    var (e, t) := Peek(d);
    NextBalanced(e, payloads);
    RawBalanced(d, payloads);
    hide Next, Peek, Reserved;
    if !(t.Some? && t.value.kind.EndArray?) {
      var (f, value) := Raw(d);
      if value.Some? {
        RawItemsBalanced(f, read + value.value, payloads);
      }
    }
  }

  lemma {:induction false} SkipBalanced(d: Dec, payloads: seq<Payload>)
    requires Covered(d, payloads)
    ensures Balanced(d, payloads, Skip(d).0, payloads)
    decreases Left(d), 1
  {
    NextBalanced(d, payloads);
    hide Next, Reserved;
    var (e, t) := Next(d);
    if t.Some? && t.value.kind.BeginObject? {
      SkipMembersBalanced(e, payloads);
    } else if t.Some? && t.value.kind.BeginArray? {
      SkipItemsBalanced(e, payloads);
    }
  }

  lemma {:induction false} SkipMembersBalanced(d: Dec, payloads: seq<Payload>)
    requires Covered(d, payloads)
    ensures Balanced(d, payloads, SkipMembers(d).0, payloads)
    decreases Left(d), 0
  {
    PeekBalanced(d, payloads);
    var (e, more) := More(d);
    NextBalanced(e, payloads);
    hide Next, Peek, Reserved;
    var (f, t) := Next(e);
    if more && t.Some? {
      SkipBalanced(f, payloads);
      var (g, ok) := Skip(f);
      if ok {
        SkipMembersBalanced(g, payloads);
      }
    }
  }

  lemma {:induction false} SkipItemsBalanced(d: Dec, payloads: seq<Payload>)
    requires Covered(d, payloads)
    ensures Balanced(d, payloads, SkipItems(d).0, payloads)
    decreases Left(d), 2
  {
    PeekBalanced(d, payloads);
    var (e, more) := More(d);
    NextBalanced(e, payloads);
    hide Next, Peek, Reserved;
    if more {
      SkipBalanced(e, payloads);
      var (g, ok) := Skip(e);
      if ok {
        SkipItemsBalanced(g, payloads);
      }
    }
  }

  function Kept(r: Option<seq<Payload>>): seq<Payload> {
    if r.Some? then r.value else []
  }

  lemma {:induction false} BalancedTwice(d: Dec, held: seq<Payload>, e: Dec, kept: seq<Payload>, f: Dec, last: seq<Payload>)
    requires Balanced(d, held, e, kept) && Balanced(e, kept, f, last)
    ensures Balanced(d, held, f, last)
  {
    hide Reserved;
  }

  lemma {:induction false} BalancedCovered(d: Dec, held: seq<Payload>, e: Dec, kept: seq<Payload>)
    requires Balanced(d, held, e, kept)
    ensures Covered(e, kept)
  {
    hide Covered;
  }

  lemma {:induction false} ItemAdded(d: Dec, payloads: seq<Payload>, p: Payload)
    requires Covered(d, payloads) && d.queued + p.reservedBytes <= d.limit
    ensures Balanced(d, payloads, d.(queued := d.queued + p.reservedBytes), payloads + [p])
  {
    ReservedNext(payloads, p);
    hide Reserved;
  }

  lemma {:induction false} MoreBalanced(d: Dec, payloads: seq<Payload>)
    requires Covered(d, payloads)
    ensures Balanced(d, payloads, More(d).0, payloads)
  {
    PeekBalanced(d, payloads);
  }

  lemma {:induction false} ItemsBalanced(d: Dec, metadata: Metadata, payloads: seq<Payload>)
    requires Covered(d, payloads)
    ensures var r := DecodeItems(d, metadata, payloads); Balanced(d, payloads, r.0, Kept(r.1))
    decreases Left(d)
  {
    hide More, Next, Raw, Covered, Balanced, Fail, Width;
    var (e, more) := More(d);
    MoreBalanced(d, payloads);
    BalancedCovered(d, payloads, e, payloads);
    var (f, data) := if more then Raw(e) else (Next(e).0, None);
    if more {
      RawBalanced(e, payloads);
    } else {
      NextBalanced(e, payloads);
    }
    BalancedTwice(d, payloads, e, payloads, f, payloads);
    BalancedCovered(d, payloads, f, payloads);
    FailBalanced(f, payloads);
    BalancedTwice(d, payloads, f, payloads, Fail(f, payloads).0, []);
    assert Fail(f, payloads).1 == None by {
      FailsAlways(f, payloads);
    }
    if data.Some? && metadata(data.value).Some? {
      var p := PayloadOf(data.value, metadata(data.value).value);
      if f.queued + p.reservedBytes <= f.limit {
        var g := f.(queued := f.queued + p.reservedBytes);
        ItemAdded(f, payloads, p);
        BalancedCovered(f, payloads, g, payloads + [p]);
        ItemsBalanced(g, metadata, payloads + [p]);
        BalancedTwice(d, payloads, f, payloads, g, payloads + [p]);
        var r := DecodeItems(g, metadata, payloads + [p]);
        BalancedTwice(d, payloads, g, payloads + [p], r.0, Kept(r.1));
      }
    }
  }

  lemma {:induction false} FailsAlways(d: Dec, payloads: seq<Payload>)
    ensures Fail(d, payloads).1 == None
  {
  }

  /** With `held` payloads still reserved, a new array only adds its own. */
  lemma {:induction false} ArrayBalanced(d: Dec, metadata: Metadata, held: seq<Payload>)
    requires Covered(d, held)
    ensures var r := DecodeArray(d, metadata);
      && r.0.limit == d.limit && r.0.queued <= r.0.limit
      && Others(r.0, Kept(r.1)) == Others(d, [])
      && r.0.reserved + Reserved(held) + Reserved(Kept(r.1)) <= r.0.queued
  {
    NextBalanced(d, []);
    var (e, t) := Next(d);
    hide Next;
    if t.Some? && t.value.kind.BeginArray? {
      ItemsBalanced(e, metadata, []);
    }
  }

  lemma {:induction false} FieldsBalanced(d: Dec, metadata: Metadata, payloads: seq<Payload>)
    requires Covered(d, payloads)
    ensures var r := DecodeFields(d, metadata, payloads); Balanced(d, payloads, r.0, Kept(r.1))
    decreases Left(d), 0
  {
    hide More, Next, Covered, Balanced, Fail, DecodeField;
    var (e, more) := More(d);
    MoreBalanced(d, payloads);
    BalancedCovered(d, payloads, e, payloads);
    var (f, t) := Next(e);
    NextBalanced(e, payloads);
    BalancedTwice(d, payloads, e, payloads, f, payloads);
    BalancedCovered(d, payloads, f, payloads);
    FailBalanced(f, payloads);
    FailsAlways(f, payloads);
    BalancedTwice(d, payloads, f, payloads, Fail(f, payloads).0, []);
    if more && t.Some? && t.value.kind.Text? {
      FieldBalanced(f, metadata, payloads, t.value.kind.text);
      var r := DecodeField(f, metadata, payloads, t.value.kind.text);
      BalancedTwice(d, payloads, f, payloads, r.0, Kept(r.1));
    }
  }

  lemma {:induction false} FieldBalanced(d: Dec, metadata: Metadata, payloads: seq<Payload>, key: string)
    requires Covered(d, payloads)
    ensures var r := DecodeField(d, metadata, payloads, key); Balanced(d, payloads, r.0, Kept(r.1))
    decreases Left(d), 1
  {
    if !IsMessages(key) {
      SkipBalanced(d, payloads);
      var (g, ok) := Skip(d);
      hide Skip, Reserved, IsMessages, Repay;
      FailBalanced(g, payloads);
      if ok {
        FieldsBalanced(g, metadata, payloads);
      }
    } else {
      ArrayBalanced(d, metadata, payloads);
      var (g, replacement) := DecodeArray(d, metadata);
      RepayAll(g.queued, payloads);
      hide DecodeArray, Reserved, IsMessages, Repay;
      if replacement.Some? {
        FieldsBalanced(g.(queued := Repay(g.queued, payloads)), metadata, replacement.value);
      }
    }
  }

  /** For any input and any budget: an error leaves in the budget only what the reader took for the
      body, success leaves in addition exactly the returned reservations, and the limit is kept. */
  lemma {:induction false} RequestBalanced(d: Dec, metadata: Metadata)
    requires d.reserved <= d.queued <= d.limit
    ensures var r := DecodeRequest(d, metadata);
      && r.0.queued - r.0.reserved == d.queued - d.reserved + Reserved(Kept(r.1))
      && r.0.queued <= d.limit
  {
    NextBalanced(d, []);
    var (e, t) := Next(d);
    if t.Some? && t.value.kind.BeginObject? {
      FieldsBalanced(e, metadata, []);
    }
  }

  // ---------- What is read ----------

  datatype Json = Leaf(token: Token) | Array(begin: Token, items: seq<Json>, end: Token) | Object(begin: Token, members: seq<Member>, end: Token)

  datatype Member = Member(name: Token, value: Json)

  predicate Proper(j: Json) {
    match j
    case Leaf(t) => t.kind.Text? || t.kind.Scalar? || t.kind.Null?
    case Array(b, items, e) => b.kind.BeginArray? && e.kind.EndArray? && forall i :: 0 <= i < |items| ==> Proper(items[i])
    case Object(b, members, e) =>
      b.kind.BeginObject? && e.kind.EndObject? &&
      forall i :: 0 <= i < |members| ==> members[i].name.kind.Text? && Proper(members[i].value)
  }

  function Tokens(j: Json): (r: seq<Token>)
    ensures r != []
    decreases j, 0
  {
    match j
    case Leaf(t) => [t]
    case Array(b, items, e) => [b] + ItemTokens(items) + [e]
    case Object(b, members, e) => [b] + MemberTokens(members) + [e]
  }

  function ItemTokens(items: seq<Json>): seq<Token>
    decreases items, 1
  {
    if items == [] then [] else Tokens(items[0]) + ItemTokens(items[1..])
  }

  function MemberTokens(members: seq<Member>): seq<Token>
    decreases members, 1
  {
    if members == [] then [] else NamedTokens(members[0]) + MemberTokens(members[1..])
  }

  function NamedTokens(m: Member): seq<Token>
    decreases m, 2
  {
    [m.name] + Tokens(m.value)
  }

  /** The reference parser: one value and the tokens after it. */
  function Parse(ts: seq<Token>): (r: Option<(Json, seq<Token>)>)
    ensures r.Some? ==> |r.value.1| < |ts|
    decreases |ts|, 1
  {
    if ts == [] then None
    else
      match ts[0].kind
      case BeginObject =>
        var m := ParseMembers(ts[1..]);
        if m.Some? then Some((Object(ts[0], m.value.0, m.value.1), m.value.2)) else None
      case BeginArray =>
        var m := ParseItems(ts[1..]);
        if m.Some? then Some((Array(ts[0], m.value.0, m.value.1), m.value.2)) else None
      case EndObject => None
      case EndArray => None
      case _ => Some((Leaf(ts[0]), ts[1..]))
  }

  function ParseItems(ts: seq<Token>): (r: Option<(seq<Json>, Token, seq<Token>)>)
    ensures r.Some? ==> |r.value.2| < |ts|
    decreases |ts|, 2
  {
    if ts == [] then None
    else if ts[0].kind.EndArray? then Some(([], ts[0], ts[1..]))
    else
      var v := Parse(ts);
      if v.None? then None
      else
        var more := ParseItems(v.value.1);
        if more.None? then None else Some(([v.value.0] + more.value.0, more.value.1, more.value.2))
  }

  function ParseMembers(ts: seq<Token>): (r: Option<(seq<Member>, Token, seq<Token>)>)
    ensures r.Some? ==> |r.value.2| < |ts|
    decreases |ts|, 0
  {
    if ts == [] then None
    else if ts[0].kind.EndObject? then Some(([], ts[0], ts[1..]))
    else if !ts[0].kind.Text? then None
    else
      var v := Parse(ts[1..]);
      if v.None? then None
      else
        var more := ParseMembers(v.value.1);
        if more.None? then None else Some(([Member(ts[0], v.value.0)] + more.value.0, more.value.1, more.value.2))
  }

  lemma {:induction false} HeadOff(t: Token, a: seq<Token>, b: seq<Token>)
    ensures ([t] + a + b)[0] == t && ([t] + a + b)[1..] == a + b
  {
    assert [t] + a + b == [t] + (a + b);
  }

  /** The parser reads back any value that is written out, whatever follows. */
  lemma {:induction false} ParsesTokens(j: Json, rest: seq<Token>)
    requires Proper(j)
    ensures Parse(Tokens(j) + rest) == Some((j, rest))
    decreases j, 0
  {
    match j {
      case Leaf(t) =>
        assert ([t] + rest)[1..] == rest;
      case Array(b, items, e) =>
        assert [b] + ItemTokens(items) + [e] + rest == [b] + ItemTokens(items) + ([e] + rest);
        HeadOff(b, ItemTokens(items), [e] + rest);
        ParsesItems(items, e, rest);
      case Object(b, members, e) =>
        assert [b] + MemberTokens(members) + [e] + rest == [b] + MemberTokens(members) + ([e] + rest);
        HeadOff(b, MemberTokens(members), [e] + rest);
        ParsesMembers(members, e, rest);
    }
  }

  lemma {:induction false} ParsesItems(items: seq<Json>, end: Token, rest: seq<Token>)
    requires end.kind.EndArray? && forall i :: 0 <= i < |items| ==> Proper(items[i])
    ensures ParseItems(ItemTokens(items) + ([end] + rest)) == Some((items, end, rest))
    decreases items, 1
  {
    var ts := ItemTokens(items) + ([end] + rest);
    if items == [] {
      assert ts[0] == end && ts[1..] == rest;
    } else {
      var more := ItemTokens(items[1..]) + ([end] + rest);
      assert ts == Tokens(items[0]) + more;
      ParsesTokens(items[0], more);
      StartsProper(items[0], more);
      ParsesItems(items[1..], end, rest);
      assert [items[0]] + items[1..] == items;
    }
  }

  lemma {:induction false} ParsesMembers(members: seq<Member>, end: Token, rest: seq<Token>)
    requires end.kind.EndObject? && forall i :: 0 <= i < |members| ==> members[i].name.kind.Text? && Proper(members[i].value)
    ensures ParseMembers(MemberTokens(members) + ([end] + rest)) == Some((members, end, rest))
    decreases members, 1
  {
    var ts := MemberTokens(members) + ([end] + rest);
    if members == [] {
      assert ts[0] == end && ts[1..] == rest;
    } else {
      var more := MemberTokens(members[1..]) + ([end] + rest);
      assert MemberTokens(members) == NamedTokens(members[0]) + MemberTokens(members[1..]);
      assert ts == NamedTokens(members[0]) + more;
      HeadOff(members[0].name, Tokens(members[0].value), more);
      ParsesNamed(members[0], more);
      ParsesMembers(members[1..], end, rest);
      assert [members[0]] + members[1..] == members;
    }
  }

  lemma {:induction false} ParsesNamed(m: Member, rest: seq<Token>)
    requires Proper(m.value)
    ensures Parse(Tokens(m.value) + rest) == Some((m.value, rest))
    decreases m, 2
  {
    ParsesTokens(m.value, rest);
  }

  lemma {:induction false} StartsProper(j: Json, rest: seq<Token>)
    requires Proper(j)
    ensures var k := (Tokens(j) + rest)[0].kind; !k.EndArray? && !k.EndObject?
  {
  }

  /** And what it reads is what was written. */
  lemma {:induction false} ParsedTokens(ts: seq<Token>)
    requires Parse(ts).Some?
    ensures Proper(Parse(ts).value.0) && ts == Tokens(Parse(ts).value.0) + Parse(ts).value.1
    decreases |ts|, 1
  {
    hide ParseMembers, ParseItems, MemberTokens, ItemTokens;
    assert ts == [ts[0]] + ts[1..];
    if ts[0].kind.BeginObject? {
      ParsedMembers(ts[1..]);
      var (members, end, rest) := ParseMembers(ts[1..]).value;
      assert [ts[0]] + (MemberTokens(members) + [end] + rest) == [ts[0]] + MemberTokens(members) + [end] + rest;
    } else if ts[0].kind.BeginArray? {
      ParsedItems(ts[1..]);
      var (items, end, rest) := ParseItems(ts[1..]).value;
      assert [ts[0]] + (ItemTokens(items) + [end] + rest) == [ts[0]] + ItemTokens(items) + [end] + rest;
    }
  }

  lemma {:induction false} ParsedItems(ts: seq<Token>)
    requires ParseItems(ts).Some?
    ensures var (items, end, rest) := ParseItems(ts).value;
      && end.kind.EndArray? && (forall i :: 0 <= i < |items| ==> Proper(items[i]))
      && ts == ItemTokens(items) + [end] + rest
    decreases |ts|, 2
  {
    if !ts[0].kind.EndArray? {
      ParsedTokens(ts);
      ParsedItems(Parse(ts).value.1);
      var first, more := Parse(ts).value.0, ParseItems(Parse(ts).value.1).value.0;
      assert ([first] + more)[1..] == more;
    }
  }

  lemma {:induction false} ParsedMembers(ts: seq<Token>)
    requires ParseMembers(ts).Some?
    ensures var (members, end, rest) := ParseMembers(ts).value;
      && end.kind.EndObject? && (forall i :: 0 <= i < |members| ==> members[i].name.kind.Text? && Proper(members[i].value))
      && ts == MemberTokens(members) + [end] + rest
    decreases |ts|, 0
  {
    hide Parse, Proper, Tokens;
    if ts[0].kind.EndObject? {
      assert ts == [] + [ts[0]] + ts[1..];
    } else {
      ParsedTokens(ts[1..]);
      ParsedMembers(Parse(ts[1..]).value.1);
      var first := Member(ts[0], Parse(ts[1..]).value.0);
      var (more, end, rest) := ParseMembers(Parse(ts[1..]).value.1).value;
      assert ParseMembers(ts) == Some(([first] + more, end, rest));
      hide ParseMembers;
      ThreeParts(MemberTokens(more), end, rest);
      MemberFirst(ts, first, more, [end] + rest);
      ThreeParts(MemberTokens([first] + more), end, rest);
    }
  }

  lemma {:induction false} ThreeParts(a: seq<Token>, end: Token, rest: seq<Token>)
    ensures a + [end] + rest == a + ([end] + rest)
  {
  }

  lemma {:induction false} MemberFirst(ts: seq<Token>, first: Member, more: seq<Member>, rest: seq<Token>)
    requires ts != [] && first.name == ts[0] && ts[1..] == Tokens(first.value) + (MemberTokens(more) + rest)
    ensures ts == MemberTokens([first] + more) + rest
  {
    hide Tokens;
    assert ([first] + more)[1..] == more;
    assert ts == [ts[0]] + ts[1..];
    assert NamedTokens(first) + MemberTokens(more) + rest == [first.name] + (Tokens(first.value) + (MemberTokens(more) + rest));
  }

  // ---------- The decoder against the parser ----------

  function AllTokens(chunks: seq<Chunk>): seq<Token> {
    if chunks == [] then [] else chunks[0].tokens + AllTokens(chunks[1..])
  }

  /** All the tokens to come. */
  function Stream(d: Dec): seq<Token> {
    d.buffer + AllTokens(d.chunks)
  }

  lemma {:induction false} PeekStream(d: Dec)
    requires !Peek(d).0.dropped
    ensures var (e, t) := Peek(d);
      && Stream(e) == Stream(d) && e.stack == d.stack
      && t == if Stream(d) == [] then None else Some(Stream(d)[0])
    decreases |d.chunks|
  {
    if d.buffer == [] && d.chunks != [] {
      PeekStream(Refill(d).0);
    }
  }

  lemma {:induction false} NextStream(d: Dec)
    requires !Next(d).0.dropped
    ensures var (e, t) := Next(d);
      if Stream(d) == [] || !Legal(d.stack, Stream(d)[0].kind) then t == None
      else t == Some(Stream(d)[0]) && Stream(e) == Stream(d)[1..] && e.stack == After(d.stack, Stream(d)[0].kind)
  {
    PeekStream(d);
    var (e, t) := Peek(d);
    if t.Some? {
      assert Stream(e)[1..] == e.buffer[1..] + AllTokens(e.chunks);
    }
  }

  lemma {:induction false} MoreStream(d: Dec)
    requires !More(d).0.dropped
    ensures var (e, more) := More(d);
      && Stream(e) == Stream(d) && e.stack == d.stack
      && (more <==> Stream(d) != [] && !Stream(d)[0].kind.EndObject? && !Stream(d)[0].kind.EndArray?)
  {
    PeekStream(d);
  }

  /** A value may start here. */
  predicate Expects(stack: seq<Frame>) {
    stack == [] || !stack[|stack| - 1].AtKey?
  }

  /** skipJSONValue succeeds exactly when a value comes, and consumes exactly that value's tokens. */
  lemma {:induction false} SkipParses(d: Dec)
    requires Expects(d.stack) && !Skip(d).0.dropped
    ensures Skip(d).1 <==> Parse(Stream(d)).Some?
    ensures Skip(d).1 ==> Stream(Skip(d).0) == Parse(Stream(d)).value.1 && Skip(d).0.stack == Base(d.stack)
    decreases Left(d), 1
  {
    hide Next, Stream;
    var (e, t) := Next(d);
    NextStream(d);
    if t.Some? {
      if t.value.kind.BeginObject? {
        SkipMembersParses(e, Base(d.stack));
      } else if t.value.kind.BeginArray? {
        SkipItemsParses(e, Base(d.stack));
      }
    }
  }

  lemma {:induction false} SkipMembersParses(d: Dec, base: seq<Frame>)
    requires d.stack == base + [AtKey] && !SkipMembers(d).0.dropped
    ensures SkipMembers(d).1 <==> ParseMembers(Stream(d)).Some?
    ensures SkipMembers(d).1 ==> Stream(SkipMembers(d).0) == ParseMembers(Stream(d)).value.2 && SkipMembers(d).0.stack == base
    decreases Left(d), 0
  {
    hide Next, More, Stream, Parse;
    var (e, more) := More(d);
    MoreStream(d);
    var (f, t) := Next(e);
    NextStream(e);
    if more && t.Some? {
      assert f.stack == base + [AtValue];
      SkipParses(f);
      var (g, ok) := Skip(f);
      if ok {
        assert Base(f.stack) == base + [AtKey];
        SkipMembersParses(g, base);
      }
    }
  }

  lemma {:induction false} SkipItemsParses(d: Dec, base: seq<Frame>)
    requires d.stack == base + [InArray] && !SkipItems(d).0.dropped
    ensures SkipItems(d).1 <==> ParseItems(Stream(d)).Some?
    ensures SkipItems(d).1 ==> Stream(SkipItems(d).0) == ParseItems(Stream(d)).value.2 && SkipItems(d).0.stack == base
    decreases Left(d), 2
  {
    hide Next, More, Stream;
    var (e, more) := More(d);
    MoreStream(d);
    if !more {
      NextStream(e);
    } else {
      SkipParses(e);
      var (g, ok) := Skip(e);
      if ok {
        SkipItemsParses(g, base);
      }
    }
  }

  lemma {:induction false} RawParses(d: Dec)
    requires Expects(d.stack) && !Raw(d).0.dropped
    ensures Raw(d).1 == if Parse(Stream(d)).Some? then Some(Tokens(Parse(Stream(d)).value.0)) else None
    ensures Raw(d).1.Some? ==> Stream(Raw(d).0) == Parse(Stream(d)).value.1 && Raw(d).0.stack == Base(d.stack)
    decreases Left(d), 1
  {
    hide Next, Stream;
    var (e, t) := Next(d);
    NextStream(d);
    if t.Some? {
      if t.value.kind.BeginObject? {
        RawMembersParses(e, Base(d.stack), [t.value]);
      } else if t.value.kind.BeginArray? {
        RawItemsParses(e, Base(d.stack), [t.value]);
      }
    }
  }

  lemma {:induction false} RawMembersParses(d: Dec, base: seq<Frame>, read: seq<Token>)
    requires d.stack == base + [AtKey] && !RawMembers(d, read).0.dropped
    ensures var m := ParseMembers(Stream(d));
      RawMembers(d, read).1 == if m.Some? then Some(read + MemberTokens(m.value.0) + [m.value.1]) else None
    ensures RawMembers(d, read).1.Some? ==>
      Stream(RawMembers(d, read).0) == ParseMembers(Stream(d)).value.2 && RawMembers(d, read).0.stack == base
    decreases Left(d), 0
  {
    hide Next, Stream, Parse, Tokens;
    var (e, t) := Next(d);
    NextStream(d);
    if t.Some? && !t.value.kind.EndObject? {
      assert e.stack == base + [AtValue];
      RawParses(e);
      var (f, value) := Raw(e);
      if value.Some? {
        assert Base(e.stack) == base + [AtKey];
        RawMembersParses(f, base, read + [t.value] + value.value);
        var more := ParseMembers(Stream(f));
        if more.Some? {
          var first := Member(t.value, Parse(Stream(e)).value.0);
          assert ([first] + more.value.0)[1..] == more.value.0;
          FourParts(read, [t.value], value.value, MemberTokens(more.value.0), [more.value.1]);
        }
      }
    } else if t.Some? {
      assert read + MemberTokens([]) + [t.value] == read + [t.value];
    }
  }

  lemma {:induction false} FourParts(a: seq<Token>, b: seq<Token>, c: seq<Token>, d: seq<Token>, e: seq<Token>)
    ensures a + b + c + d + e == a + (b + c + d) + e
  {
  }

  lemma {:induction false} RawItemsParses(d: Dec, base: seq<Frame>, read: seq<Token>)
    requires d.stack == base + [InArray] && !RawItems(d, read).0.dropped
    ensures var m := ParseItems(Stream(d));
      RawItems(d, read).1 == if m.Some? then Some(read + ItemTokens(m.value.0) + [m.value.1]) else None
    ensures RawItems(d, read).1.Some? ==>
      Stream(RawItems(d, read).0) == ParseItems(Stream(d)).value.2 && RawItems(d, read).0.stack == base
    decreases Left(d), 2
  {
    hide Next, Stream, Tokens, Peek;
    var (e, t) := Peek(d);
    if t.Some? && t.value.kind.EndArray? {
      PeekStream(d);
      NextStream(e);
      assert read + ItemTokens([]) + [t.value] == read + [t.value];
    } else {
      PeekIsPart(d);
      PeekStream(d);
      RawParses(d);
      var (f, value) := Raw(d);
      if value.Some? {
        RawItemsParses(f, base, read + value.value);
        var more := ParseItems(Stream(f));
        if more.Some? {
          var first := Parse(Stream(d)).value.0;
          assert ([first] + more.value.0)[1..] == more.value.0;
          FourParts(read, [], value.value, ItemTokens(more.value.0), [more.value.1]);
          assert read + [] == read && [] + value.value == value.value;
        }
      }
    }
  }

  /** What reading a value drops it drops while looking or later. */
  lemma {:induction false} PeekIsPart(d: Dec)
    ensures Peek(d).0.dropped ==> Raw(d).0.dropped
  {
  }

  // ---------- The bytes read ahead ----------

  /** The chunks whose bytes the budget has still to bear. */
  function Ahead(d: Dec): seq<Chunk> {
    if d.counted then d.chunks else []
  }

  /** The chunks not read once the token with which `n` are left has been looked at. */
  function Unread(chunks: seq<Chunk>, n: int): seq<Chunk> {
    if chunks == [] || |AllTokens(chunks)| < n then chunks else Unread(chunks[1..], n)
  }

  /** And the bytes of those that are read for it. */
  function Look(chunks: seq<Chunk>, n: int): nat {
    if chunks == [] || |AllTokens(chunks)| < n then 0 else chunks[0].size + Look(chunks[1..], n)
  }

  /** Looking further goes on from where one was. */
  lemma {:induction false} LookFurther(chunks: seq<Chunk>, n: int, m: int)
    requires m <= n
    ensures Unread(Unread(chunks, n), m) == Unread(chunks, m)
    ensures Look(chunks, n) + Look(Unread(chunks, n), m) == Look(chunks, m)
  {
    if chunks != [] && |AllTokens(chunks)| >= n {
      LookFurther(chunks[1..], n, m);
    }
  }

  /** Nothing was refused so far. */
  predicate Whole(d: Dec) {
    !d.dropped && d.queued <= d.limit
  }

  /** From `d` to `e` the decoder looked as far as the token with which `n` are left: nothing is
      dropped exactly when the chunks up to there fit, and then exactly those are taken. */
  predicate Reads(d: Dec, e: Dec, n: int) {
    && e.counted == d.counted && e.limit == d.limit
    && (!e.dropped <==> d.queued + Look(Ahead(d), n) <= d.limit)
    && (!e.dropped ==> Ahead(e) == Unread(Ahead(d), n) && e.queued == d.queued + Look(Ahead(d), n))
  }

  lemma {:induction false} ReadsOn(d: Dec, e: Dec, n: int, f: Dec, m: int)
    requires m <= n && Reads(d, e, n) && f.counted == d.counted && f.limit == d.limit
    requires if e.dropped then f.dropped else Reads(e, f, m)
    ensures Reads(d, f, m)
  {
    LookFurther(Ahead(d), n, m);
    hide Ahead, Look, Unread;
  }

  /** What was looked at is looked at again for nothing. */
  lemma {:induction false} ReadsAgain(d: Dec, e: Dec, n: int)
    requires Reads(d, e, n) && !e.dropped
    ensures Whole(e) && Reads(e, e, n)
  {
    LookFurther(Ahead(d), n, n);
    hide Look, Unread;
  }

  lemma {:induction false} PeekReads(d: Dec)
    requires Whole(d)
    ensures Reads(d, Peek(d).0, |Stream(d)|)
    decreases |d.chunks|
  {
    if d.buffer == [] && d.chunks != [] && Refill(d).1 {
      PeekReads(Refill(d).0);
    }
  }

  lemma {:induction false} NextReads(d: Dec)
    requires Whole(d)
    ensures Reads(d, Next(d).0, |Stream(d)|) && Reads(d, More(d).0, |Stream(d)|)
  {
    PeekReads(d);
    hide Look, Unread, Stream;
  }

  /** A value is read to its last token and no further. */
  lemma {:induction false} SkipReads(d: Dec)
    requires Whole(d) && Expects(d.stack) && Parse(Stream(d)).Some?
    ensures Reads(d, Skip(d).0, |Parse(Stream(d)).value.1| + 1)
    decreases Left(d), 1
  {
    hide Next, Stream, Reads;
    var ts := Stream(d);
    var (e, t) := Next(d);
    NextReads(d);
    if !e.dropped {
      ReadsAgain(d, e, |ts|);
      NextStream(d);
      if t.Some? && t.value.kind.BeginObject? {
        SkipMembersReads(e, Base(d.stack));
      } else if t.Some? && t.value.kind.BeginArray? {
        SkipItemsReads(e, Base(d.stack));
      }
    }
    ReadsOn(d, e, |ts|, Skip(d).0, |Parse(ts).value.1| + 1);
  }

  lemma {:induction false} SkipMembersReads(d: Dec, base: seq<Frame>)
    requires Whole(d) && d.stack == base + [AtKey] && ParseMembers(Stream(d)).Some?
    ensures Reads(d, SkipMembers(d).0, |ParseMembers(Stream(d)).value.2| + 1)
    decreases Left(d), 0
  {
    hide Next, More, Stream, Reads, Parse;
    var ts := Stream(d);
    var (e, more) := More(d);
    var (f, t) := Next(e);
    LookedReads(d, e, f);
    if !f.dropped {
      MoreStream(d);
      NextStream(e);
      if more && t.Some? {
        assert f.stack == base + [AtValue];
        SkipReads(f);
        var (g, ok) := Skip(f);
        ReadsOn(d, f, |ts|, g, |Parse(Stream(f)).value.1| + 1);
        if !g.dropped {
          SkipParses(f);
          ReadsAgain(d, g, |Stream(g)| + 1);
          assert Base(f.stack) == base + [AtKey];
          SkipMembersReads(g, base);
        }
        ReadsOn(d, g, |Parse(Stream(f)).value.1| + 1, SkipMembers(d).0, |ParseMembers(ts).value.2| + 1);
      }
    } else {
      ReadsOn(d, f, |ts|, SkipMembers(d).0, |ParseMembers(ts).value.2| + 1);
    }
  }

  /** More and the token after it look at one token. */
  lemma {:induction false} LookedReads(d: Dec, e: Dec, f: Dec)
    requires Whole(d) && e == More(d).0 && f == Next(e).0
    ensures Reads(d, e, |Stream(d)|) && Reads(d, f, |Stream(d)|) && (!f.dropped ==> !e.dropped && Whole(f))
  {
    hide Next, More, Stream, Reads;
    NextReads(d);
    if !e.dropped {
      MoreStream(d);
      ReadsAgain(d, e, |Stream(d)|);
      NextReads(e);
    }
    ReadsOn(d, e, |Stream(d)|, f, |Stream(d)|);
    if !f.dropped {
      ReadsAgain(d, f, |Stream(d)|);
    }
  }

  lemma {:induction false} SkipItemsReads(d: Dec, base: seq<Frame>)
    requires Whole(d) && d.stack == base + [InArray] && ParseItems(Stream(d)).Some?
    ensures Reads(d, SkipItems(d).0, |ParseItems(Stream(d)).value.2| + 1)
    decreases Left(d), 2
  {
    hide Next, More, Stream, Reads;
    var ts := Stream(d);
    var (e, more) := More(d);
    LookedReads(d, e, Next(e).0);
    if e.dropped {
      ReadsOn(d, e, |ts|, SkipItems(d).0, |ParseItems(ts).value.2| + 1);
    } else {
      MoreStream(d);
      ReadsAgain(d, e, |ts|);
      if more {
        SkipReads(e);
        var (g, ok) := Skip(e);
        ReadsOn(d, e, |ts|, g, |Parse(ts).value.1| + 1);
        if !g.dropped {
          SkipParses(e);
          ReadsAgain(d, g, |Stream(g)| + 1);
          SkipItemsReads(g, base);
        }
        ReadsOn(d, g, |Parse(ts).value.1| + 1, SkipItems(d).0, |ParseItems(ts).value.2| + 1);
      }
    }
  }

  lemma {:induction false} RawReads(d: Dec)
    requires Whole(d) && Expects(d.stack) && Parse(Stream(d)).Some?
    ensures Reads(d, Raw(d).0, |Parse(Stream(d)).value.1| + 1)
    decreases Left(d), 1
  {
    hide Next, Stream, Reads;
    var ts := Stream(d);
    var (e, t) := Next(d);
    NextReads(d);
    if !e.dropped {
      ReadsAgain(d, e, |ts|);
      NextStream(d);
      if t.Some? && t.value.kind.BeginObject? {
        RawMembersReads(e, Base(d.stack), [t.value]);
      } else if t.Some? && t.value.kind.BeginArray? {
        RawItemsReads(e, Base(d.stack), [t.value]);
      }
    }
    ReadsOn(d, e, |ts|, Raw(d).0, |Parse(ts).value.1| + 1);
  }

  lemma {:induction false} RawMembersReads(d: Dec, base: seq<Frame>, read: seq<Token>)
    requires Whole(d) && d.stack == base + [AtKey] && ParseMembers(Stream(d)).Some?
    ensures Reads(d, RawMembers(d, read).0, |ParseMembers(Stream(d)).value.2| + 1)
    decreases Left(d), 0
  {
    hide Next, Stream, Reads, Parse;
    var ts := Stream(d);
    var (e, t) := Next(d);
    NextReads(d);
    if !e.dropped {
      ReadsAgain(d, e, |ts|);
      NextStream(d);
      if t.Some? && !t.value.kind.EndObject? {
        assert e.stack == base + [AtValue];
        RawReads(e);
        var (f, value) := Raw(e);
        ReadsOn(d, e, |ts|, f, |Parse(Stream(e)).value.1| + 1);
        if !f.dropped {
          RawParses(e);
          ReadsAgain(d, f, |Stream(f)| + 1);
          assert Base(e.stack) == base + [AtKey];
          RawMembersReads(f, base, read + [t.value] + value.value);
        }
        ReadsOn(d, f, |Parse(Stream(e)).value.1| + 1, RawMembers(d, read).0, |ParseMembers(ts).value.2| + 1);
      }
    } else {
      ReadsOn(d, e, |ts|, RawMembers(d, read).0, |ParseMembers(ts).value.2| + 1);
    }
  }

  lemma {:induction false} RawItemsReads(d: Dec, base: seq<Frame>, read: seq<Token>)
    requires Whole(d) && d.stack == base + [InArray] && ParseItems(Stream(d)).Some?
    ensures Reads(d, RawItems(d, read).0, |ParseItems(Stream(d)).value.2| + 1)
    decreases Left(d), 2
  {
    hide Next, Stream, Reads, Peek;
    var ts := Stream(d);
    var (e, t) := Peek(d);
    PeekReads(d);
    if t.Some? && t.value.kind.EndArray? {
      if !e.dropped {
        PeekStream(d);
        ReadsAgain(d, e, |ts|);
        NextReads(e);
      }
      ReadsOn(d, e, |ts|, RawItems(d, read).0, |ParseItems(ts).value.2| + 1);
    } else {
      var (f, value) := Raw(d);
      if !e.dropped {
        PeekStream(d);
        RawReads(d);
        if !f.dropped {
          RawParses(d);
          ReadsAgain(d, f, |Stream(f)| + 1);
          RawItemsReads(f, base, read + value.value);
        }
        ReadsOn(d, f, |Parse(ts).value.1| + 1, RawItems(d, read).0, |ParseItems(ts).value.2| + 1);
      } else {
        PeekIsPart(d);
        ReadsOn(d, e, |ts|, RawItems(d, read).0, |ParseItems(ts).value.2| + 1);
      }
    }
  }

  /** For any nesting: a value that comes is skipped, and nothing after it, exactly when the chunks
      that hold it fit. */
  lemma {:induction false} SkipsOneValue(d: Dec, j: Json, rest: seq<Token>)
    requires Whole(d) && Expects(d.stack) && Proper(j) && Stream(d) == Tokens(j) + rest
    ensures var (e, ok) := Skip(d);
      && (!e.dropped <==> d.queued + Look(Ahead(d), |rest| + 1) <= d.limit)
      && (!e.dropped ==> ok && Stream(e) == rest)
  {
    hide Skip, Parse, Tokens, Stream;
    ParsesTokens(j, rest);
    SkipReads(d);
    if !Skip(d).0.dropped {
      SkipParses(d);
    }
  }

  // ---------- A whole request ----------

  predicate Readable(metadata: Metadata, items: seq<Json>) {
    forall i :: 0 <= i < |items| ==> metadata(Tokens(items[i])).Some?
  }

  function Payloads(metadata: Metadata, items: seq<Json>): (r: seq<Payload>)
    requires Readable(metadata, items)
    ensures |r| == |items|
  {
    if items == [] then [] else [PayloadOf(Tokens(items[0]), metadata(Tokens(items[0])).value)] + Payloads(metadata, items[1..])
  }

  function Size(items: seq<Json>): nat {
    if items == [] then 0 else Width(Tokens(items[0])) + QueuedBytes.OVERHEAD + Size(items[1..])
  }

  lemma {:induction false} PayloadsSize(metadata: Metadata, items: seq<Json>)
    requires Readable(metadata, items)
    ensures Reserved(Payloads(metadata, items)) == Size(items)
  {
    if items != [] {
      PayloadsSize(metadata, items[1..]);
      var r := Payloads(metadata, items);
      assert r[1..] == Payloads(metadata, items[1..]);
    }
  }

  /** The messages of an array, when it is one whose messages can all be read. */
  predicate ItemsOk(metadata: Metadata, ts: seq<Token>) {
    ParseItems(ts).Some? && Readable(metadata, ParseItems(ts).value.0)
  }

  /** The items of an array fit, one reservation after the other, beside the chunks read for them;
      `n` tokens are left where the items start. */
  predicate ItemsFit(chunks: seq<Chunk>, queued: int, limit: nat, items: seq<Json>, n: int)
    decreases |items|
  {
    if items == [] then queued + Look(chunks, n) <= limit
    else
      var after := n - |Tokens(items[0])|;
      var total := queued + Look(chunks, after + 1) + Width(Tokens(items[0])) + QueuedBytes.OVERHEAD;
      total <= limit && ItemsFit(Unread(chunks, after + 1), total, limit, items[1..], after)
  }

  lemma {:induction false} ItemsFitLater(chunks: seq<Chunk>, queued: int, limit: nat, items: seq<Json>, n: int, k: int)
    requires n <= k
    ensures ItemsFit(Unread(chunks, k), queued + Look(chunks, k), limit, items, n) <==> ItemsFit(chunks, queued, limit, items, n)
    ensures ItemsFit(chunks, queued, limit, items, n) ==> queued + Look(chunks, k) <= limit
  {
    LookFurther(chunks, k, if items == [] then n else n - |Tokens(items[0])| + 1);
    hide Look, Unread, Tokens, Width;
  }

  lemma {:induction false} ItemsFitFirst(chunks: seq<Chunk>, queued: int, limit: nat, first: Json, rest: seq<Json>, n: int)
    ensures ItemsFit(chunks, queued, limit, [first] + rest, n) <==>
      var after := n - |Tokens(first)|;
      var total := queued + Look(chunks, after + 1) + Width(Tokens(first)) + QueuedBytes.OVERHEAD;
      total <= limit && ItemsFit(Unread(chunks, after + 1), total, limit, rest, after)
  {
    hide Look, Unread, Tokens, Width;
    assert ([first] + rest)[1..] == rest;
  }

  lemma {:induction false} ParsedLength(ts: seq<Token>)
    requires Parse(ts).Some?
    ensures |Tokens(Parse(ts).value.0)| == |ts| - |Parse(ts).value.1|
  {
    hide Parse, Tokens, Proper;
    ParsedTokens(ts);
  }

  lemma {:induction false} ParseItem(ts: seq<Token>)
    requires ts != [] && !ts[0].kind.EndArray? && Parse(ts).Some?
    ensures var (first, left) := Parse(ts).value;
      var rest := ParseItems(left);
      ParseItems(ts) == if rest.Some? then Some(([first] + rest.value.0, rest.value.1, rest.value.2)) else None
  {
    hide Parse;
  }

  /** The result is the items to come, each as one payload, in order; there is one, with nothing
      dropped, exactly when the array can be read and fits. */
  predicate ExactItems(d: Dec, metadata: Metadata, payloads: seq<Payload>, e: Dec, r: Option<seq<Payload>>) {
    && (r.Some? && !e.dropped <==>
         ItemsOk(metadata, Stream(d)) && ItemsFit(Ahead(d), d.queued, d.limit, ParseItems(Stream(d)).value.0, |Stream(d)|))
    && (r.Some? && !e.dropped ==>
         var (items, end, rest) := ParseItems(Stream(d)).value;
         && r.value == payloads + Payloads(metadata, items) && Stream(e) == rest && e.limit == d.limit
         && Ahead(e) == Unread(Ahead(d), |rest| + 1) && e.queued == d.queued + Look(Ahead(d), |rest| + 1) + Size(items))
  }

  /** One item read and taken: the rest is as exact as the whole. */
  lemma {:induction false} ItemTaken(d: Dec, metadata: Metadata, payloads: seq<Payload>, g: Dec, e: Dec, r: Option<seq<Payload>>)
    requires Stream(d) != [] && !Stream(d)[0].kind.EndArray? && g.limit == d.limit
    requires Parse(Stream(d)).Some? && Parse(Stream(d)).value.1 == Stream(g)
    requires metadata(Tokens(Parse(Stream(d)).value.0)).Some?
    requires Ahead(g) == Unread(Ahead(d), |Stream(g)| + 1)
    requires g.queued == d.queued + Look(Ahead(d), |Stream(g)| + 1) + Width(Tokens(Parse(Stream(d)).value.0)) + QueuedBytes.OVERHEAD <= d.limit
    requires var data := Tokens(Parse(Stream(d)).value.0); ExactItems(g, metadata, payloads + [PayloadOf(data, metadata(data).value)], e, r)
    ensures ExactItems(d, metadata, payloads, e, r)
  {
    hide Stream, Tokens, Width, Parse, ParseItems, Readable, Look, Unread, Ahead, ItemsFit;
    ParsedLength(Stream(d));
    ParseItem(Stream(d));
    var first, rest := Parse(Stream(d)).value.0, ParseItems(Stream(g));
    if rest.Some? {
      assert ([first] + rest.value.0)[1..] == rest.value.0;
      ItemsFitFirst(Ahead(d), d.queued, d.limit, first, rest.value.0, |Stream(d)|);
      ReadableFirst(metadata, first, rest.value.0);
      LookFurther(Ahead(d), |Stream(g)| + 1, |rest.value.2| + 1);
      var p := PayloadOf(Tokens(first), metadata(Tokens(first)).value);
      if Readable(metadata, rest.value.0) {
        assert payloads + [p] + Payloads(metadata, rest.value.0) == payloads + ([p] + Payloads(metadata, rest.value.0));
      }
    }
  }

  /** An item that cannot be read or does not fit. */
  lemma {:induction false} ItemFails(d: Dec, metadata: Metadata, payloads: seq<Payload>, e: Dec, r: Option<seq<Payload>>)
    requires Stream(d) != [] && !Stream(d)[0].kind.EndArray? && (r.None? || e.dropped)
    requires Parse(Stream(d)).Some? && metadata(Tokens(Parse(Stream(d)).value.0)).Some? ==>
      d.queued + Look(Ahead(d), |Parse(Stream(d)).value.1| + 1) + Width(Tokens(Parse(Stream(d)).value.0)) + QueuedBytes.OVERHEAD > d.limit
    ensures ExactItems(d, metadata, payloads, e, r)
  {
    hide Stream, Tokens, Width, Readable, Look, Unread, Ahead, ItemsFit;
    if ParseItems(Stream(d)).Some? {
      hide Parse;
      ParsedLength(Stream(d));
      ParseItem(Stream(d));
      hide ParseItems;
      var first, rest := Parse(Stream(d)).value.0, ParseItems(Parse(Stream(d)).value.1);
      ItemsFitFirst(Ahead(d), d.queued, d.limit, first, rest.value.0, |Stream(d)|);
      ReadableFirst(metadata, first, rest.value.0);
    }
  }

  lemma {:induction false} NoMoreItems(d: Dec, metadata: Metadata, payloads: seq<Payload>, e: Dec, r: Option<seq<Payload>>)
    requires Stream(d) == [] || Stream(d)[0].kind.EndArray?
    requires r.Some? && !e.dropped <==> Stream(d) != [] && d.queued + Look(Ahead(d), |Stream(d)|) <= d.limit
    requires r.Some? && !e.dropped ==>
      && r.value == payloads && Stream(e) == Stream(d)[1..] && e.limit == d.limit
      && Ahead(e) == Unread(Ahead(d), |Stream(d)|) && e.queued == d.queued + Look(Ahead(d), |Stream(d)|)
    ensures ExactItems(d, metadata, payloads, e, r)
  {
    hide Stream, Look, Unread, Ahead;
    assert payloads + [] == payloads;
  }

  /** decodeMessageArray's loop. */
  lemma {:induction false} ItemsExact(d: Dec, base: seq<Frame>, metadata: Metadata, payloads: seq<Payload>)
    requires d.stack == base + [InArray] && Whole(d)
    ensures var (e, r) := DecodeItems(d, metadata, payloads);
      ExactItems(d, metadata, payloads, e, r) && (r.Some? && !e.dropped ==> e.stack == base)
    decreases Left(d), 1
  {
    var ts := Stream(d);
    var (e, more) := More(d);
    assert ts != [] && ts[0].kind.EndObject? ==> Parse(ts).None?;
    hide Next, More, Raw, Stream, Tokens, Repay, Width, ExactItems, Parse, Look, Unread, Ahead;
    LookedReads(d, e, Next(e).0);
    if !e.dropped {
      MoreStream(d);
      ReadsAgain(d, e, |ts|);
    }
    if !e.dropped && more {
      ItemExact(d, e, base, metadata, payloads);
    } else {
      if !Next(e).0.dropped {
        NextStream(e);
      }
      var (h, r) := DecodeItems(d, metadata, payloads);
      if ts == [] || ts[0].kind.EndArray? {
        NoMoreItems(d, metadata, payloads, h, r);
      } else {
        ReadPast(d);
        ItemFails(d, metadata, payloads, h, r);
      }
    }
  }

  /** Where a value comes, it is looked at further than its first token. */
  lemma {:induction false} ReadPast(d: Dec)
    ensures Parse(Stream(d)).Some? ==> Look(Ahead(d), |Stream(d)|) <= Look(Ahead(d), |Parse(Stream(d)).value.1| + 1)
  {
    if Parse(Stream(d)).Some? {
      LookFurther(Ahead(d), |Stream(d)|, |Parse(Stream(d)).value.1| + 1);
    }
  }

  /** The loop at an item. */
  lemma {:induction false} ItemExact(d: Dec, e: Dec, base: seq<Frame>, metadata: Metadata, payloads: seq<Payload>)
    requires d.stack == base + [InArray] && Whole(d) && Whole(e) && More(d) == (e, true) && e.stack == d.stack
    requires Stream(e) == Stream(d) != [] && !Stream(d)[0].kind.EndArray? && Reads(d, e, |Stream(d)|)
    ensures var (e, r) := DecodeItems(d, metadata, payloads);
      ExactItems(d, metadata, payloads, e, r) && (r.Some? && !e.dropped ==> e.stack == base)
    decreases Left(d), 0
  {
    hide Next, More, Raw, Stream, Tokens, Repay, Width, ExactItems, Parse, Look, Unread, Ahead;
    var ts := Stream(d);
    var (f, data) := Raw(e);
    if Parse(ts).Some? {
      RawReads(e);
      ReadsOn(d, e, |ts|, f, |Parse(ts).value.1| + 1);
    }
    if !f.dropped {
      RawParses(e);
    }
    if !f.dropped && data.Some? && metadata(data.value).Some? && f.queued + Width(data.value) + QueuedBytes.OVERHEAD <= f.limit {
      var p := PayloadOf(data.value, metadata(data.value).value);
      var g := f.(queued := f.queued + p.reservedBytes);
      SameStream(f, g.queued);
      ItemsExact(g, base, metadata, payloads + [p]);
      var (h, r) := DecodeItems(g, metadata, payloads + [p]);
      ItemTaken(d, metadata, payloads, g, h, r);
    } else {
      var (h, r) := DecodeItems(d, metadata, payloads);
      ItemFails(d, metadata, payloads, h, r);
    }
  }

  lemma {:induction false} SameStream(d: Dec, queued: nat)
    ensures Stream(d.(queued := queued)) == Stream(d) && Ahead(d.(queued := queued)) == Ahead(d)
  {
  }

  lemma {:induction false} ReadableFirst(metadata: Metadata, first: Json, rest: seq<Json>)
    ensures Readable(metadata, [first] + rest) <==> metadata(Tokens(first)).Some? && Readable(metadata, rest)
  {
    var all := [first] + rest;
    forall i | 0 <= i < |rest|
      ensures all[i + 1] == rest[i]
    {
    }
    assert all[0] == first;
    if Readable(metadata, all) {
      forall i | 0 <= i < |rest|
        ensures metadata(Tokens(rest[i])).Some?
      {
        assert metadata(Tokens(all[i + 1])).Some?;
      }
    }
  }

  /** A "messages" field must be null or an array whose messages can be read. */
  predicate FieldOk(metadata: Metadata, m: Member)
    requires m.name.kind.Text?
  {
    IsMessages(m.name.kind.text) ==>
      (m.value.Leaf? && m.value.token.kind.Null?) || (m.value.Array? && Readable(metadata, m.value.items))
  }

  predicate FieldsOk(metadata: Metadata, members: seq<Member>)
    requires forall i :: 0 <= i < |members| ==> members[i].name.kind.Text?
  {
    members == [] || (FieldOk(metadata, members[0]) && FieldsOk(metadata, members[1..]))
  }

  function FieldItems(m: Member): seq<Json> {
    if m.value.Array? then m.value.items else []
  }

  /** The last "messages" field wins. */
  function Collected(metadata: Metadata, payloads: seq<Payload>, members: seq<Member>): seq<Payload>
    requires (forall i :: 0 <= i < |members| ==> members[i].name.kind.Text?) && FieldsOk(metadata, members)
    decreases |members|
  {
    if members == [] then payloads
    else if IsMessages(members[0].name.kind.text) then
      Collected(metadata, Payloads(metadata, FieldItems(members[0])), members[1..])
    else Collected(metadata, payloads, members[1..])
  }

  /** The value of a "messages" field fits; `n` tokens are left where it starts. */
  predicate ArrayFits(chunks: seq<Chunk>, queued: int, limit: nat, value: Json, n: int) {
    if value.Array? then ItemsFit(chunks, queued, limit, value.items, n - 1) else queued + Look(chunks, n) <= limit
  }

  /** The fields fit: each array beside the one it replaces and the chunks read so far, every other
      value beside the chunks read so far; `n` tokens are left where the fields start. */
  predicate FieldsFit(chunks: seq<Chunk>, queued: int, held: nat, limit: nat, members: seq<Member>, n: int)
    requires forall i :: 0 <= i < |members| ==> members[i].name.kind.Text?
    decreases |members|
  {
    if members == [] then queued + Look(chunks, n) <= limit
    else
      var value, size := members[0].value, Size(FieldItems(members[0]));
      var after := n - 1 - |Tokens(value)|;
      var read, rest := queued + Look(chunks, after + 1), Unread(chunks, after + 1);
      if IsMessages(members[0].name.kind.text) then
        ArrayFits(chunks, queued, limit, value, n - 1) && FieldsFit(rest, read + size - held, size, limit, members[1..], after)
      else read <= limit && FieldsFit(rest, read, held, limit, members[1..], after)
  }

  lemma {:induction false} ArrayFitsLater(chunks: seq<Chunk>, queued: int, limit: nat, value: Json, n: int, k: int)
    requires n <= k
    ensures ArrayFits(Unread(chunks, k), queued + Look(chunks, k), limit, value, n) <==> ArrayFits(chunks, queued, limit, value, n)
    ensures ArrayFits(chunks, queued, limit, value, n) ==> queued + Look(chunks, k) <= limit
  {
    LookFurther(chunks, k, n);
    hide Look, Unread, ItemsFit;
    if value.Array? {
      ItemsFitLater(chunks, queued, limit, value.items, n - 1, k);
    }
  }

  lemma {:induction false} FieldsFitLater(chunks: seq<Chunk>, queued: int, held: nat, limit: nat, members: seq<Member>, n: int, k: int)
    requires Named(members) && n <= k
    ensures FieldsFit(Unread(chunks, k), queued + Look(chunks, k), held, limit, members, n) <==> FieldsFit(chunks, queued, held, limit, members, n)
    ensures FieldsFit(chunks, queued, held, limit, members, n) ==> queued + Look(chunks, k) <= limit
  {
    hide Look, Unread, ArrayFits, IsMessages, Tokens, Size;
    if members == [] {
      LookFurther(chunks, k, n);
    } else {
      var after := n - 1 - |Tokens(members[0].value)|;
      ArrayFitsLater(chunks, queued, limit, members[0].value, n - 1, k);
      LookFurther(chunks, k, after + 1);
      var rest, read := Unread(chunks, after + 1), queued + Look(chunks, after + 1);
      var size := Size(FieldItems(members[0]));
      assert FieldsFit(rest, read + size - held, size, limit, members[1..], after) ==
        FieldsFit(Unread(Unread(chunks, k), after + 1), queued + Look(chunks, k) + Look(Unread(chunks, k), after + 1) + size - held, size, limit, members[1..], after);
      assert FieldsFit(rest, read, held, limit, members[1..], after) ==
        FieldsFit(Unread(Unread(chunks, k), after + 1), queued + Look(chunks, k) + Look(Unread(chunks, k), after + 1), held, limit, members[1..], after);
    }
  }

  /** decodeMessageArray on one field's value. */
  lemma {:induction false} ArrayExact(d: Dec, metadata: Metadata, name: Token)
    requires Expects(d.stack) && Whole(d) && name.kind.Text? && IsMessages(name.kind.text)
    ensures ExactArray(d, metadata, name, DecodeArray(d, metadata).0, DecodeArray(d, metadata).1)
  {
    hide Next, Stream, IsMessages, Tokens, DecodeItems, Look, Unread, Ahead, ItemsFit, ParseItems, ParseMembers;
    var ts := Stream(d);
    var (e, t) := Next(d);
    NextReads(d);
    if e.dropped {
      hide Parse, ArrayFits;
      ReadPast(d);
      if Parse(ts).Some? {
        ArrayFitsLater(Ahead(d), d.queued, d.limit, Parse(ts).value.0, |ts|, |ts|);
      }
    } else {
      NextStream(d);
      if t.Some? && t.value.kind.BeginArray? {
        ReadsAgain(d, e, |ts|);
        hide Reads, Parse;
        ArrayOpened(d, e, metadata, name);
      }
    }
  }

  lemma {:induction false} ArrayOpened(d: Dec, e: Dec, metadata: Metadata, name: Token)
    requires name.kind.Text? && IsMessages(name.kind.text) && Whole(e) && Reads(d, e, |Stream(d)|) && !e.dropped
    requires Stream(d) != [] && Stream(d)[0].kind.BeginArray? && Stream(e) == Stream(d)[1..]
    requires e.stack == Base(d.stack) + [InArray]
    ensures var (f, r) := DecodeItems(e, metadata, []); ExactArray(d, metadata, name, f, r)
  {
    hide Stream, IsMessages, Tokens, DecodeItems, Look, Unread, Ahead, ItemsFit, ParseItems, ParseMembers;
    var ts := Stream(d);
    ItemsExact(e, Base(d.stack), metadata, []);
    var m := ParseItems(Stream(e));
    if m.Some? {
      ItemsFitLater(Ahead(d), d.queued, d.limit, m.value.0, |ts| - 1, |ts|);
      LookFurther(Ahead(d), |ts|, |m.value.2| + 1);
      if Readable(metadata, m.value.0) {
        assert [] + Payloads(metadata, m.value.0) == Payloads(metadata, m.value.0);
      }
    }
  }

  /** The result of reading one "messages" field. */
  predicate ExactArray(d: Dec, metadata: Metadata, name: Token, e: Dec, r: Option<seq<Payload>>)
    requires name.kind.Text?
  {
    var v := Parse(Stream(d));
    && (r.Some? && !e.dropped <==>
         v.Some? && FieldOk(metadata, Member(name, v.value.0)) && ArrayFits(Ahead(d), d.queued, d.limit, v.value.0, |Stream(d)|))
    && (r.Some? && !e.dropped ==>
         var m, n := Member(name, v.value.0), |v.value.1| + 1;
         && (m.value.Array? ==> Readable(metadata, m.value.items)) && r.value == Payloads(metadata, FieldItems(m))
         && Stream(e) == v.value.1 && e.stack == Base(d.stack)
         && Ahead(e) == Unread(Ahead(d), n) && e.queued == d.queued + Look(Ahead(d), n) + Size(FieldItems(m)))
  }

  predicate Named(members: seq<Member>) {
    forall i :: 0 <= i < |members| ==> members[i].name.kind.Text?
  }

  lemma {:induction false} ParsedNamed(ts: seq<Token>)
    requires ParseMembers(ts).Some?
    ensures Named(ParseMembers(ts).value.0)
  {
    ParsedMembers(ts);
  }

  predicate MembersOk(metadata: Metadata, ts: seq<Token>) {
    ParseMembers(ts).Some? && Named(ParseMembers(ts).value.0) && FieldsOk(metadata, ParseMembers(ts).value.0)
  }

  lemma {:induction false} MembersFirst(metadata: Metadata, payloads: seq<Payload>, first: Member, rest: seq<Member>)
    requires first.name.kind.Text? && Named(rest)
    ensures Named([first] + rest)
    ensures FieldsOk(metadata, [first] + rest) <==> FieldOk(metadata, first) && FieldsOk(metadata, rest)
    ensures FieldOk(metadata, first) && FieldsOk(metadata, rest) ==>
      Collected(metadata, payloads, [first] + rest)
      == Collected(metadata, if IsMessages(first.name.kind.text) then Payloads(metadata, FieldItems(first)) else payloads, rest)
  {
    hide IsMessages;
    assert ([first] + rest)[1..] == rest;
  }

  lemma {:induction false} FitsFirst(chunks: seq<Chunk>, queued: int, held: nat, limit: nat, first: Member, rest: seq<Member>, n: int)
    requires first.name.kind.Text? && Named(rest) && Named([first] + rest)
    ensures FieldsFit(chunks, queued, held, limit, [first] + rest, n) <==>
      var after, size := n - 1 - |Tokens(first.value)|, Size(FieldItems(first));
      var read, left := queued + Look(chunks, after + 1), Unread(chunks, after + 1);
      if IsMessages(first.name.kind.text) then
        ArrayFits(chunks, queued, limit, first.value, n - 1) && FieldsFit(left, read + size - held, size, limit, rest, after)
      else read <= limit && FieldsFit(left, read, held, limit, rest, after)
  {
    hide IsMessages, ArrayFits, Look, Unread, Tokens, Size;
    assert ([first] + rest)[1..] == rest;
  }

  /** The result is the last messages of the fields to come; there is one, with nothing dropped,
      exactly when the fields can be read and fit. */
  predicate Exact(d: Dec, metadata: Metadata, payloads: seq<Payload>, e: Dec, r: Option<seq<Payload>>) {
    && (r.Some? && !e.dropped <==>
         && MembersOk(metadata, Stream(d))
         && FieldsFit(Ahead(d), d.queued, Reserved(payloads), d.limit, ParseMembers(Stream(d)).value.0, |Stream(d)|))
    && (r.Some? && !e.dropped ==> r.value == Collected(metadata, payloads, ParseMembers(Stream(d)).value.0))
  }

  lemma {:induction false} ParseMember(name: Token, ts: seq<Token>)
    requires name.kind.Text?
    ensures ParseMembers([name] + ts) ==
      if Parse(ts).None? then None
      else
        var (value, left) := Parse(ts).value;
        var rest := ParseMembers(left);
        if rest.Some? then Some(([Member(name, value)] + rest.value.0, rest.value.1, rest.value.2)) else None
  {
    hide Parse;
    assert ([name] + ts)[0] == name && ([name] + ts)[1..] == ts;
  }

  /** One field taken: the rest is as exact as the whole. */
  lemma {:induction false} FieldTaken(d: Dec, metadata: Metadata, payloads: seq<Payload>, name: Token, ts: seq<Token>,
    g: Dec, kept: seq<Payload>, e: Dec, r: Option<seq<Payload>>)
    requires Stream(d) == [name] + ts && name.kind.Text? && g.limit == d.limit
    requires Parse(ts).Some? && Parse(ts).value.1 == Stream(g) && Ahead(g) == Unread(Ahead(d), |Stream(g)| + 1)
    requires FieldOk(metadata, Member(name, Parse(ts).value.0))
    requires var m, read := Member(name, Parse(ts).value.0), d.queued + Look(Ahead(d), |Stream(g)| + 1);
      if IsMessages(name.kind.text) then
        && (m.value.Array? ==> Readable(metadata, m.value.items)) && kept == Payloads(metadata, FieldItems(m))
        && ArrayFits(Ahead(d), d.queued, d.limit, m.value, |ts|) && g.queued == read + Size(FieldItems(m)) - Reserved(payloads)
      else kept == payloads && g.queued == read <= d.limit
    requires Exact(g, metadata, kept, e, r)
    ensures Exact(d, metadata, payloads, e, r)
  {
    hide IsMessages, Payloads, Size, Reserved, FieldOk, Collected, FieldsFit, ArrayFits, FieldsOk;
    hide Parse, ParseMembers, Stream, Look, Unread, Ahead, Tokens;
    ParsedLength(ts);
    ParseMember(name, ts);
    var m := Member(name, Parse(ts).value.0);
    var rest := ParseMembers(Stream(g));
    if rest.Some? {
      ParsedNamed(Stream(g));
      MembersFirst(metadata, payloads, m, rest.value.0);
      FitsFirst(Ahead(d), d.queued, Reserved(payloads), d.limit, m, rest.value.0, |Stream(d)|);
      if IsMessages(name.kind.text) {
        PayloadsSize(metadata, FieldItems(m));
      }
    }
  }

  /** A field that cannot be read or does not fit fails the request. */
  lemma {:induction false} FieldFails(d: Dec, metadata: Metadata, payloads: seq<Payload>, name: Token, ts: seq<Token>,
    e: Dec, r: Option<seq<Payload>>)
    requires Stream(d) == [name] + ts && name.kind.Text? && (r.None? || e.dropped)
    requires Parse(ts).Some? ==>
      var (value, rest) := Parse(ts).value;
      if IsMessages(name.kind.text) then !(FieldOk(metadata, Member(name, value)) && ArrayFits(Ahead(d), d.queued, d.limit, value, |ts|))
      else d.queued + Look(Ahead(d), |rest| + 1) > d.limit
    ensures Exact(d, metadata, payloads, e, r)
  {
    hide IsMessages, Payloads, Size, Reserved, FieldOk, Collected, FieldsFit, ArrayFits, FieldsOk;
    hide Parse, ParseMembers, Stream, Look, Unread, Ahead, Tokens;
    ParseMember(name, ts);
    if Parse(ts).Some? && ParseMembers(Parse(ts).value.1).Some? {
      var m, rest := Member(name, Parse(ts).value.0), ParseMembers(Parse(ts).value.1).value.0;
      ParsedLength(ts);
      ParsedNamed(Parse(ts).value.1);
      MembersFirst(metadata, payloads, m, rest);
      FitsFirst(Ahead(d), d.queued, Reserved(payloads), d.limit, m, rest, |Stream(d)|);
    }
  }

  lemma {:induction false} FieldsExact(d: Dec, metadata: Metadata, payloads: seq<Payload>)
    requires d.stack == [AtKey] && Covered(d, payloads) && Whole(d)
    ensures var (e, r) := DecodeFields(d, metadata, payloads); Exact(d, metadata, payloads, e, r)
    decreases Left(d), 1
  {
    hide Next, More, Stream, IsMessages, DecodeField, Repay, Exact, Parse, ParseMembers, Ahead, Look, Unread, Covered, Reserved, Expects, Base;
    var ts := Stream(d);
    var (e, more) := More(d);
    var (f, t) := Next(e);
    LookedReads(d, e, f);
    if !f.dropped {
      MoreStream(d);
      NextStream(e);
    }
    if !f.dropped && more && t.Some? {
      NameCovered(d, payloads);
      AtKeyThenValue(t.value.kind);
      assert ts == [t.value] + Stream(f);
      if IsMessages(t.value.kind.text) {
        MessagesExact(d, f, metadata, payloads, t.value);
      } else {
        OtherExact(d, f, metadata, payloads, t.value);
      }
    } else {
      var (h, r) := DecodeFields(d, metadata, payloads);
      NoMoreFields(d, metadata, payloads, h, r);
    }
  }

  lemma {:induction false} OtherExact(d: Dec, f: Dec, metadata: Metadata, payloads: seq<Payload>, name: Token)
    requires name.kind.Text? && !IsMessages(name.kind.text) && Left(f) < Left(d)
    requires Stream(d) == [name] + Stream(f) && Expects(f.stack) && Base(f.stack) == [AtKey]
    requires Covered(f, payloads) && Whole(f) && Reads(d, f, |Stream(d)|)
    ensures var (e, r) := DecodeField(f, metadata, payloads, name.kind.text); Exact(d, metadata, payloads, e, r)
    decreases Left(d), 0
  {
    hide Stream, IsMessages, Skip, Repay, FieldOk, Size, Payloads, Exact, Parse, Covered, Reserved, DecodeFields, Ahead, Look, Unread;
    var (g, ok) := Skip(f);
    SkipBalanced(f, payloads);
    BalancedCovered(f, payloads, g, payloads);
    if Parse(Stream(f)).Some? {
      SkipReads(f);
      ReadsOn(d, f, |Stream(d)|, g, |Parse(Stream(f)).value.1| + 1);
    }
    if !g.dropped {
      SkipParses(f);
    }
    var (e, r) := DecodeField(f, metadata, payloads, name.kind.text);
    if ok && !g.dropped {
      ReadsAgain(d, g, |Stream(g)| + 1);
      FieldsExact(g, metadata, payloads);
      NotMessagesOk(metadata, Member(name, Parse(Stream(f)).value.0));
      FieldTaken(d, metadata, payloads, name, Stream(f), g, payloads, e, r);
    } else {
      FieldFails(d, metadata, payloads, name, Stream(f), e, r);
    }
  }

  lemma {:induction false} MessagesExact(d: Dec, f: Dec, metadata: Metadata, payloads: seq<Payload>, name: Token)
    requires name.kind.Text? && IsMessages(name.kind.text) && Left(f) < Left(d)
    requires Stream(d) == [name] + Stream(f) && Expects(f.stack) && Base(f.stack) == [AtKey]
    requires Covered(f, payloads) && Whole(f) && Reads(d, f, |Stream(d)|)
    ensures var (e, r) := DecodeField(f, metadata, payloads, name.kind.text); Exact(d, metadata, payloads, e, r)
    decreases Left(d), 0
  {
    hide Stream, IsMessages, DecodeArray, FieldOk, Size, Payloads, Exact, Parse, Reserved, DecodeFields, Ahead, Look, Unread, ArrayFits;
    var ts := Stream(f);
    ArrayExact(f, metadata, name);
    ArrayBalanced(f, metadata, payloads);
    var (g, replacement) := DecodeArray(f, metadata);
    RepayAll(g.queued, payloads);
    hide Repay;
    if Parse(ts).Some? {
      ArrayFitsLater(Ahead(d), d.queued, d.limit, Parse(ts).value.0, |ts|, |ts| + 1);
      LookFurther(Ahead(d), |ts| + 1, |Parse(ts).value.1| + 1);
    }
    var (e, r) := DecodeField(f, metadata, payloads, name.kind.text);
    if replacement.Some? && !g.dropped {
      var h := g.(queued := Repay(g.queued, payloads));
      SameStream(g, h.queued);
      FieldsExact(h, metadata, replacement.value);
      FieldTaken(d, metadata, payloads, name, ts, h, replacement.value, e, r);
    } else {
      FieldFails(d, metadata, payloads, name, ts, e, r);
    }
  }

  lemma {:induction false} NameCovered(d: Dec, payloads: seq<Payload>)
    requires Covered(d, payloads)
    ensures Covered(Next(More(d).0).0, payloads)
  {
    hide More, Next;
    MoreBalanced(d, payloads);
    NextBalanced(More(d).0, payloads);
  }

  lemma {:induction false} AtKeyThenValue(k: Kind)
    requires Legal([AtKey], k) && !k.EndObject?
    ensures k.Text? && Expects(After([AtKey], k)) && Base(After([AtKey], k)) == [AtKey]
  {
    assert [AtKey][..0] + [AtValue] == [AtValue];
    assert [AtValue][..0] + [AtKey] == [AtKey];
  }

  lemma {:induction false} NotMessagesOk(metadata: Metadata, m: Member)
    requires m.name.kind.Text? && !IsMessages(m.name.kind.text)
    ensures FieldOk(metadata, m)
  {
  }

  /** No further field was read: the end, no field, or a chunk that does not fit. */
  lemma {:induction false} NoMoreFields(d: Dec, metadata: Metadata, payloads: seq<Payload>, e: Dec, r: Option<seq<Payload>>)
    requires var n := |Stream(d)|;
      if d.queued + Look(Ahead(d), n) > d.limit then r.None? || e.dropped
      else Stream(d) == [] || !Stream(d)[0].kind.Text?
    requires Stream(d) != [] && Stream(d)[0].kind.EndObject? && d.queued + Look(Ahead(d), |Stream(d)|) <= d.limit ==>
      r == Some(payloads) && !e.dropped
    requires Stream(d) == [] || !Stream(d)[0].kind.EndObject? ==> r.None? || e.dropped
    ensures Exact(d, metadata, payloads, e, r)
  {
    hide Stream, Look, Unread, Ahead, FieldsFit, Reserved, Parse;
    if MembersOk(metadata, Stream(d)) {
      var members := ParseMembers(Stream(d)).value.0;
      FieldsFitLater(Ahead(d), d.queued, Reserved(payloads), d.limit, members, |Stream(d)|, |Stream(d)|);
      EndFits(Ahead(d), d.queued, Reserved(payloads), d.limit, |Stream(d)|);
    }
  }

  lemma {:induction false} EndFits(chunks: seq<Chunk>, queued: int, held: nat, limit: nat, n: int)
    ensures FieldsFit(chunks, queued, held, limit, [], n) <==> queued + Look(chunks, n) <= limit
  {
  }

  /** The body is an object whose "messages" fields are all null or arrays that can be read. */
  predicate IsRequest(metadata: Metadata, ts: seq<Token>) {
    ts != [] && ts[0].kind.BeginObject? && MembersOk(metadata, ts[1..])
  }

  function Members(ts: seq<Token>): (r: seq<Member>)
    ensures Named(r)
  {
    if ts != [] && ParseMembers(ts[1..]).Some? && Named(ParseMembers(ts[1..]).value.0) then ParseMembers(ts[1..]).value.0 else []
  }

  /** For every body, chunked or not, and every budget: a request is decoded with nothing of its body
      dropped exactly when the body is a request and every reservation, of a chunk when it is read and
      of a message when it is decoded, fits. Its payloads are then the messages of the last "messages"
      field, in order. */
  lemma {:induction false} RequestExact(d: Dec, metadata: Metadata)
    requires d.stack == [] && d.reserved <= d.queued && Whole(d)
    ensures var ts := Stream(d); var (e, r) := DecodeRequest(d, metadata);
      && (r.Some? && !e.dropped <==>
           IsRequest(metadata, ts) && FieldsFit(Ahead(d), d.queued, 0, d.limit, Members(ts), |ts| - 1))
      && (r.Some? && !e.dropped ==> r.value == Collected(metadata, [], Members(ts)))
  {
    hide Next, Stream, DecodeFields, Collected, FieldsFit, Ahead, Look, Unread, ParseMembers;
    var ts := Stream(d);
    var (e, t) := Next(d);
    NextReads(d);
    NextBalanced(d, []);
    FieldsFitLater(Ahead(d), d.queued, 0, d.limit, Members(ts), |ts| - 1, |ts|);
    if !e.dropped {
      NextStream(d);
      ReadsAgain(d, e, |ts|);
      if t.Some? && t.value.kind.BeginObject? {
        assert Base([]) + [AtKey] == [AtKey];
        FieldsExact(e, metadata, []);
      }
    }
  }

  // ---------- The same in plain terms ----------

  /** The eight letters in either case, and the long s for each s. */
  predicate Spells(key: string) {
    && |key| == 8
    && key[0] in "mM" && key[1] in "eE" && key[2] in "sS\U{17F}" && key[3] in "sS\U{17F}"
    && key[4] in "aA" && key[5] in "gG" && key[6] in "eE" && key[7] in "sS\U{17F}"
  }

  lemma {:induction false} MessagesSpelled(key: string)
    ensures IsMessages(key) <==> Spells(key)
  {
    var word := "messages";
    if IsMessages(key) {
      assert forall i :: 0 <= i < 8 ==> Fold(key[i]) == word[i];
      assert Fold(key[0]) == word[0] && Fold(key[1]) == word[1] && Fold(key[2]) == word[2] && Fold(key[3]) == word[3];
      assert Fold(key[4]) == word[4] && Fold(key[5]) == word[5] && Fold(key[6]) == word[6] && Fold(key[7]) == word[7];
    }
  }

  lemma {:induction false} WidthAdds(a: seq<Token>, b: seq<Token>)
    ensures Width(a + b) == Width(a) + Width(b)
    decreases |b|
  {
    if b == [] {
      assert a + b == a;
    } else {
      var last := |b| - 1;
      assert (a + b)[..|a + b| - 1] == a + b[..last];
      WidthAdds(a, b[..last]);
    }
  }

  /** One message and its payload: its tokens, its timestamp, its bytes and 256 more. */
  predicate Holds(metadata: Metadata, item: Json, p: Payload) {
    p.data == Tokens(item) && metadata(p.data) == Some(p.timestamp) && p.reservedBytes == Width(p.data) + 256
  }

  lemma {:induction false} PayloadsHold(metadata: Metadata, items: seq<Json>)
    requires Readable(metadata, items)
    ensures var r := Payloads(metadata, items);
      |r| == |items| && forall i :: 0 <= i < |items| ==> Holds(metadata, items[i], r[i])
  {
    if items != [] {
      PayloadsHold(metadata, items[1..]);
      var r := Payloads(metadata, items);
      forall i | 0 <= i < |items|
        ensures Holds(metadata, items[i], r[i])
      {
        if i > 0 {
          assert items[1..][i - 1] == items[i] && Payloads(metadata, items[1..])[i - 1] == r[i];
        }
      }
    }
  }

  predicate MessagesNamed(m: Member)
    requires m.name.kind.Text?
  {
    Spells(m.name.kind.text)
  }

  /** A value that a "messages" field may have. */
  predicate Acceptable(metadata: Metadata, value: Json) {
    match value
    case Leaf(t) => t.kind.Null?
    case Array(_, items, _) => forall i :: 0 <= i < |items| ==> metadata(Tokens(items[i])).Some?
    case Object(_, _, _) => false
  }

  /** Field `k` is the last one named "messages", or there is none and `k` is -1. */
  predicate LastNamed(members: seq<Member>, k: int)
    requires Named(members)
  {
    && -1 <= k < |members|
    && (k >= 0 ==> MessagesNamed(members[k]))
    && forall i :: k < i < |members| ==> !MessagesNamed(members[i])
  }

  lemma {:induction false} FieldsEach(metadata: Metadata, members: seq<Member>)
    requires Named(members)
    ensures FieldsOk(metadata, members) <==>
      forall i :: 0 <= i < |members| && MessagesNamed(members[i]) ==> Acceptable(metadata, members[i].value)
  {
    if members != [] {
      var rest := members[1..];
      MessagesSpelled(members[0].name.kind.text);
      hide IsMessages, Spells;
      FieldsEach(metadata, rest);
      assert FieldOk(metadata, members[0]) <==> (MessagesNamed(members[0]) ==> Acceptable(metadata, members[0].value));
      hide Acceptable, FieldOk, MessagesNamed;
      assert forall i :: 0 <= i < |rest| ==> rest[i] == members[i + 1];
      assert forall i :: 1 <= i < |members| ==> members[i] == rest[i - 1];
    }
  }

  lemma {:induction false} LastWins(metadata: Metadata, payloads: seq<Payload>, members: seq<Member>, k: int)
    requires Named(members) && FieldsOk(metadata, members) && LastNamed(members, k)
    ensures k == -1 ==> Collected(metadata, payloads, members) == payloads
    ensures k >= 0 ==> FieldOk(metadata, members[k]) && IsMessages(members[k].name.kind.text)
    ensures k >= 0 ==> Collected(metadata, payloads, members) == Payloads(metadata, FieldItems(members[k]))
    decreases |members|
  {
    if members != [] {
      var first, rest := members[0], members[1..];
      MessagesSpelled(first.name.kind.text);
      hide Spells, IsMessages, Payloads, Readable;
      assert k >= 1 ==> rest[k - 1] == members[k];
      var next := if IsMessages(first.name.kind.text) then Payloads(metadata, FieldItems(first)) else payloads;
      LastWins(metadata, next, rest, if k >= 0 then k - 1 else -1);
    }
  }

  /** A body that is an object and whatever follows it: it is a request exactly when every field named
      "messages" has an acceptable value. Decoded without loss it gives the messages of the last such
      field, or nothing, and what it adds to the budget is their bytes and what the reader read. */
  lemma {:induction false} BodyDecoded(d: Dec, metadata: Metadata, members: seq<Member>, k: int, body: Json, rest: seq<Token>)
    requires d.stack == [] && d.reserved <= d.queued && Whole(d)
    requires Proper(body) && body.Object? && body.members == members && Stream(d) == Tokens(body) + rest
    requires Named(members) && LastNamed(members, k)
    ensures IsRequest(metadata, Stream(d)) <==>
      forall i :: 0 <= i < |members| && MessagesNamed(members[i]) ==> Acceptable(metadata, members[i].value)
    ensures Members(Stream(d)) == members
    ensures var (e, r) := DecodeRequest(d, metadata);
      r.Some? && !e.dropped ==>
        var items := if k >= 0 && members[k].value.Array? then members[k].value.items else [];
        && |r.value| == |items| && (forall i :: 0 <= i < |items| ==> Holds(metadata, items[i], r.value[i]))
        && e.queued - e.reserved == d.queued - d.reserved + Reserved(r.value)
  {
    var ts := Stream(d);
    ParsesTokens(body, rest);
    assert ts[0].kind.BeginObject? && ParseMembers(ts[1..]).Some? && ParseMembers(ts[1..]).value.0 == members;
    FieldsEach(metadata, members);
    RequestExact(d, metadata);
    RequestBalanced(d, metadata);
    hide DecodeRequest, Stream, FieldsFit, Collected, ParseMembers, Parse, Tokens, Ahead, Reserved;
    var (e, r) := DecodeRequest(d, metadata);
    if r.Some? && !e.dropped {
      LastWins(metadata, [], members, k);
      if k >= 0 {
        PayloadsHold(metadata, FieldItems(members[k]));
      }
    }
  }

  // ---------- Two consequences ----------

  /** Each array fits beside the one it replaces. */
  predicate Fits(queued: int, held: nat, members: seq<Member>, limit: nat)
    requires forall i :: 0 <= i < |members| ==> members[i].name.kind.Text?
    decreases |members|
  {
    if members == [] then true
    else if IsMessages(members[0].name.kind.text) then
      var size := Size(FieldItems(members[0]));
      queued + size <= limit && Fits(queued + size - held, size, members[1..], limit)
    else Fits(queued, held, members[1..], limit)
  }

  lemma {:induction false} ItemsFitUncounted(queued: int, limit: nat, items: seq<Json>, n: int)
    ensures ItemsFit([], queued, limit, items, n) <==> queued + Size(items) <= limit
    decreases |items|
  {
    if items != [] {
      var total := queued + Width(Tokens(items[0])) + QueuedBytes.OVERHEAD;
      hide Width, Tokens;
      ItemsFitUncounted(total, limit, items[1..], n - |Tokens(items[0])|);
    }
  }

  lemma {:induction false} FieldsFitUncounted(queued: int, held: nat, limit: nat, members: seq<Member>, n: int)
    requires Named(members) && queued <= limit
    ensures FieldsFit([], queued, held, limit, members, n) <==> Fits(queued, held, members, limit)
    decreases |members|
  {
    if members != [] {
      var value, after := members[0].value, n - 1 - |Tokens(members[0].value)|;
      var size := Size(FieldItems(members[0]));
      ItemsFitUncounted(queued, limit, FieldItems(members[0]), n - 2);
      hide ItemsFit, Size, IsMessages, Tokens;
      if IsMessages(members[0].name.kind.text) {
        if queued + size <= limit {
          FieldsFitUncounted(queued + size - held, size, limit, members[1..], after);
        }
      } else {
        FieldsFitUncounted(queued, held, limit, members[1..], after);
      }
    }
  }

  /** With a known body length nothing is dropped, and decoding succeeds exactly when the fields can
      be read and each array fits beside the one it replaces. */
  lemma {:induction false} KnownLengthExact(d: Dec, metadata: Metadata)
    requires d.stack == [] && d.reserved <= d.queued && Whole(d) && !d.counted
    ensures DecodeRequest(d, metadata).1.Some? <==>
      IsRequest(metadata, Stream(d)) && Fits(d.queued, 0, Members(Stream(d)), d.limit)
  {
    hide DecodeRequest, Stream, FieldsFit, Fits, IsRequest, Members;
    RequestExact(d, metadata);
    FieldsFitUncounted(d.queued, 0, d.limit, Members(Stream(d)), |Stream(d)| - 1);
  }

  function Bytes(chunks: seq<Chunk>): nat {
    if chunks == [] then 0 else chunks[0].size + Bytes(chunks[1..])
  }

  function AllSizes(members: seq<Member>): nat
    requires forall i :: 0 <= i < |members| ==> members[i].name.kind.Text?
  {
    if members == [] then 0
    else (if IsMessages(members[0].name.kind.text) then Size(FieldItems(members[0])) else 0) + AllSizes(members[1..])
  }

  lemma {:induction false} LookBytes(chunks: seq<Chunk>, n: int)
    ensures Look(chunks, n) + Bytes(Unread(chunks, n)) == Bytes(chunks)
  {
    if chunks != [] && |AllTokens(chunks)| >= n {
      LookBytes(chunks[1..], n);
    }
  }

  lemma {:induction false} ItemsFitAmple(chunks: seq<Chunk>, queued: int, limit: nat, items: seq<Json>, n: int)
    requires queued + Bytes(chunks) + Size(items) <= limit
    ensures ItemsFit(chunks, queued, limit, items, n)
    decreases |items|
  {
    hide Look, Unread, Bytes, Width, Tokens;
    if items == [] {
      LookBytes(chunks, n);
    } else {
      var after := n - |Tokens(items[0])|;
      LookBytes(chunks, after + 1);
      var total := queued + Look(chunks, after + 1) + Width(Tokens(items[0])) + QueuedBytes.OVERHEAD;
      ItemsFitAmple(Unread(chunks, after + 1), total, limit, items[1..], after);
    }
  }

  lemma {:induction false} FieldsFitAmple(chunks: seq<Chunk>, queued: int, held: nat, limit: nat, members: seq<Member>, n: int)
    requires Named(members) && queued + Bytes(chunks) + AllSizes(members) <= limit
    ensures FieldsFit(chunks, queued, held, limit, members, n)
    decreases |members|
  {
    hide Look, Unread, Bytes, Tokens, Size, ItemsFit, IsMessages;
    if members == [] {
      LookBytes(chunks, n);
    } else {
      var value, after := members[0].value, n - 1 - |Tokens(members[0].value)|;
      LookBytes(chunks, after + 1);
      LookBytes(chunks, n - 1);
      var read, rest := queued + Look(chunks, after + 1), Unread(chunks, after + 1);
      var size := Size(FieldItems(members[0]));
      if IsMessages(members[0].name.kind.text) {
        ItemsFitAmple(chunks, queued, limit, FieldItems(members[0]), n - 2);
        FieldsFitAmple(rest, read + size - held, size, limit, members[1..], after);
      } else {
        FieldsFitAmple(rest, read, held, limit, members[1..], after);
      }
    }
  }

  /** Where the budget has room for all the chunks and all the messages of all "messages" fields at
      once, every body that can be read is decoded with nothing of it dropped. */
  lemma {:induction false} AmpleBudget(d: Dec, metadata: Metadata)
    requires d.stack == [] && d.reserved <= d.queued && Whole(d)
    requires IsRequest(metadata, Stream(d)) && d.queued + Bytes(Ahead(d)) + AllSizes(Members(Stream(d))) <= d.limit
    ensures var (e, r) := DecodeRequest(d, metadata); !e.dropped && r == Some(Collected(metadata, [], Members(Stream(d))))
  {
    hide DecodeRequest, Stream, FieldsFit, Collected, Bytes, AllSizes, Ahead, ParseMembers;
    FieldsFitAmple(Ahead(d), d.queued, 0, d.limit, Members(Stream(d)), |Stream(d)| - 1);
    RequestExact(d, metadata);
  }

  // ---------- A dropped chunk ----------

  const MESSAGE: seq<Token> := [Token(BeginObject, 1), Token(EndObject, 1)]

  /** A body with two messages, in three chunks; the second is too large for a budget of 1000. */
  const BODY: seq<Chunk> := [
    Chunk([Token(BeginObject, 1), Token(Text("messages"), 11), Token(BeginArray, 1), Token(BeginObject, 1), Token(EndObject, 1)], 15),
    Chunk([Token(BeginObject, 1), Token(EndObject, 1)], 800),
    Chunk([Token(EndArray, 1), Token(EndObject, 1)], 2)]

  /** While the decoder only looks for more, a refused chunk passes for the end of the array: of two
      messages the first is returned, the second is gone, and decoding succeeds. */
  lemma {:induction false} DroppedChunkGoesUnnoticed(metadata: Metadata)
    requires metadata(MESSAGE) == Some(5)
    ensures var d := Dec([], BODY, [], true, 0, false, 1000, 0);
      && DecodeRequest(d, metadata).1 == Some([PayloadOf(MESSAGE, 5)])
      && IsRequest(metadata, Stream(d)) && |Collected(metadata, [], Members(Stream(d)))| == 2
  {
    DroppedDecodes(metadata);
    WholeBody(metadata);
  }

  lemma {:induction false} WholeBody(metadata: Metadata)
    requires metadata(MESSAGE) == Some(5)
    ensures var d := Dec([], BODY, [], true, 0, false, 1000, 0);
      && IsRequest(metadata, Stream(d)) && |Collected(metadata, [], Members(Stream(d)))| == 2
  {
    var message := Object(MESSAGE[0], [], MESSAGE[1]);
    assert Tokens(message) == MESSAGE;
    var messages := Member(Token(Text("messages"), 11), Array(Token(BeginArray, 1), [message, message], Token(EndArray, 1)));
    var d := Dec([], BODY, [], true, 0, false, 1000, 0);
    assert AllTokens(BODY) == BODY[0].tokens + BODY[1].tokens + BODY[2].tokens by {
      assert BODY[1..][1..][1..] == [];
      assert AllTokens(BODY[1..][1..]) == BODY[2].tokens + [];
      assert AllTokens(BODY[1..]) == BODY[1].tokens + BODY[2].tokens;
    }
    assert ItemTokens([message, message]) == MESSAGE + MESSAGE by {
      assert [message, message][1..] == [message] && [message][1..] == [];
      assert ItemTokens([message]) == MESSAGE + [];
    }
    assert MemberTokens([messages]) == NamedTokens(messages) + [];
    assert Stream(d)[1..] == MemberTokens([messages]) + ([Token(EndObject, 1)] + []);
    hide Tokens, MemberTokens, AllTokens, ItemTokens, NamedTokens, Stream;
    ParsesMembers([messages], Token(EndObject, 1), []);
    TwoCollected(metadata, messages, message);
  }

  lemma {:induction false} TwoCollected(metadata: Metadata, m: Member, message: Json)
    requires m.name.kind == Text("messages") && m.value.Array? && m.value.items == [message, message] && metadata(Tokens(message)).Some?
    ensures FieldsOk(metadata, [m]) && |Collected(metadata, [], [m])| == 2
  {
    hide Tokens;
    assert [m][1..] == [];
    assert IsMessages("messages");
  }

  lemma {:induction false} Stacks()
    ensures After([], BeginObject) == [AtKey] && After([AtKey], Text("messages")) == [AtValue]
    ensures After([AtValue], BeginArray) == [AtKey, InArray] && After([AtKey, InArray], EndArray) == [AtKey]
  {
    KeyStacks();
    ArrayStacks();
  }

  lemma {:induction false} KeyStacks()
    ensures After([], BeginObject) == [AtKey] && After([AtKey], Text("messages")) == [AtValue]
  {
    assert [AtKey][..0] == [];
  }

  lemma {:induction false} ArrayStacks()
    ensures After([AtValue], BeginArray) == [AtKey, InArray] && After([AtKey, InArray], EndArray) == [AtKey]
  {
    assert [AtValue][..0] == [] && [AtKey, InArray][..1] == [AtKey];
    assert [] + [AtKey] == [AtKey] && [AtKey] + [InArray] == [AtKey, InArray];
  }

  /** A token from the buffer. */
  lemma {:induction false} FromBuffer(d: Dec, e: Dec)
    requires d.buffer != [] && Legal(d.stack, d.buffer[0].kind)
    requires e == d.(buffer := d.buffer[1..], stack := After(d.stack, d.buffer[0].kind))
    ensures Next(d) == (e, Some(d.buffer[0]))
    ensures !d.buffer[0].kind.EndObject? && !d.buffer[0].kind.EndArray? ==> More(d) == (d, true)
  {
    hide Legal, After;
  }

  /** The first token of the body. */
  lemma {:induction false} BodyOpens(d: Dec, e: Dec)
    requires d == Dec([], BODY, [], true, 0, false, 1000, 0)
    requires e == Dec(BODY[0].tokens[1..], BODY[1..], [AtKey], true, 15, false, 1000, 15)
    ensures Next(d) == (e, Some(Token(BeginObject, 1)))
  {
    hide After;
    Stacks();
    var first := BODY[0].tokens;
    assert [] + first == first;
    assert Peek(d) == (Dec(first, BODY[1..], [], true, 15, false, 1000, 15), Some(first[0]));
  }

  /** The decoder at the start of the array's items. */
  lemma {:induction false} ArrayOpens(d: Dec, g: Dec, metadata: Metadata)
    requires d == Dec([], BODY, [], true, 0, false, 1000, 0)
    requires g == Dec(BODY[0].tokens[3..], BODY[1..], [AtKey, InArray], true, 15, false, 1000, 15)
    ensures DecodeRequest(d, metadata) == DecodeField(g.(buffer := BODY[0].tokens[2..], stack := [AtValue]), metadata, [], "messages")
    ensures DecodeArray(g.(buffer := BODY[0].tokens[2..], stack := [AtValue]), metadata) == DecodeItems(g, metadata, [])
  {
    hide After, DecodeItems, DecodeField, Next, More;
    Stacks();
    var first := BODY[0].tokens;
    var e := g.(buffer := first[1..], stack := [AtKey]);
    var f := g.(buffer := first[2..], stack := [AtValue]);
    BodyOpens(d, e);
    assert first[1..][1..] == first[2..] && first[1..][0] == first[1];
    FromBuffer(e, f);
    assert first[2..][1..] == first[3..] && first[2..][0] == first[2];
    FromBuffer(f, g);
  }

  lemma {:induction false} DroppedDecodes(metadata: Metadata)
    requires metadata(MESSAGE) == Some(5)
    ensures DecodeRequest(Dec([], BODY, [], true, 0, false, 1000, 0), metadata).1 == Some([PayloadOf(MESSAGE, 5)])
  {
    hide DecodeItems, DecodeArray, DecodeRequest, DecodeFields;
    var d := Dec([], BODY, [], true, 0, false, 1000, 0);
    var g := Dec(BODY[0].tokens[3..], BODY[1..], [AtKey, InArray], true, 15, false, 1000, 15);
    ArrayOpens(d, g, metadata);
    ItemThenDropped(g, metadata);
    var (h, r) := DecodeItems(g, metadata, []);
    assert IsMessages("messages");
    assert Repay(h.queued, []) == h.queued;
    LastField(h, metadata, r.value);
  }

  lemma {:induction false} LastField(d: Dec, metadata: Metadata, payloads: seq<Payload>)
    requires d.buffer == [Token(EndObject, 1)] && d.stack == [AtKey]
    ensures DecodeFields(d, metadata, payloads).1 == Some(payloads)
  {
  }

  lemma {:induction false} ItemThenDropped(d: Dec, metadata: Metadata)
    requires metadata(MESSAGE) == Some(5)
    requires d == Dec(BODY[0].tokens[3..], BODY[1..], [AtKey, InArray], true, 15, false, 1000, 15)
    ensures var (e, r) := DecodeItems(d, metadata, []);
      r == Some([PayloadOf(MESSAGE, 5)]) && e.buffer == [Token(EndObject, 1)] && e.stack == [AtKey]
  {
    assert d.buffer == MESSAGE;
    assert More(d) == (d, true);
    var e := Dec([], BODY[1..], [AtKey, InArray], true, 15, false, 1000, 15);
    OneMessage(d, e);
    assert Width(MESSAGE) == 2 by {
      assert MESSAGE[..1][..0] == [] && MESSAGE[..1] == [MESSAGE[0]];
    }
    var p := PayloadOf(MESSAGE, 5);
    var f := e.(queued := 15 + p.reservedBytes);
    assert [] + [p] == [p];
    ThenDropped(f, metadata, [p]);
    hide More, Raw;
    assert DecodeItems(d, metadata, []) == DecodeItems(f, metadata, [p]);
  }

  lemma {:induction false} OneMessage(d: Dec, e: Dec)
    requires d.buffer == MESSAGE && d.stack == [AtKey, InArray] && e == d.(buffer := [])
    ensures Raw(d) == (e, Some(MESSAGE))
  {
    var f := d.(buffer := MESSAGE[1..], stack := [AtKey, InArray, AtKey]);
    assert Base(d.stack) + [AtKey] == f.stack;
    assert Next(d) == (f, Some(MESSAGE[0]));
    assert f.stack[..2] == d.stack && MESSAGE[1..][1..] == [] && MESSAGE[1..][0] == MESSAGE[1];
    assert Next(f) == (e, Some(MESSAGE[1]));
    assert [MESSAGE[0]] + [MESSAGE[1]] == MESSAGE;
  }

  lemma {:induction false} ThenDropped(d: Dec, metadata: Metadata, payloads: seq<Payload>)
    requires d.buffer == [] && d.chunks == BODY[1..] && d.stack == [AtKey, InArray] && d.counted
    requires d.limit == 1000 && 200 < d.queued < 900
    ensures var (e, r) := DecodeItems(d, metadata, payloads);
      r == Some(payloads) && e.buffer == [Token(EndObject, 1)] && e.stack == [AtKey]
  {
    var e := d.(chunks := BODY[2..], dropped := true);
    assert BODY[1..][0] == BODY[1] && BODY[1..][1..] == BODY[2..];
    assert Refill(d) == (e, false);
    assert Peek(d) == (e, None);
    EndAfterRefusal(e);
    hide Next, Peek;
  }

  lemma {:induction false} EndAfterRefusal(d: Dec)
    requires d.buffer == [] && d.chunks == BODY[2..] && d.stack == [AtKey, InArray] && d.counted
    requires d.limit == 1000 && 200 < d.queued < 900
    ensures var (e, t) := Next(d);
      t == Some(Token(EndArray, 1)) && e.buffer == [Token(EndObject, 1)] && e.stack == [AtKey]
  {
    hide After;
    Stacks();
    var last := BODY[2].tokens;
    assert BODY[2..][0] == BODY[2] && BODY[2..][1..] == [] && [] + last == last;
    var e := d.(buffer := last, chunks := [], queued := d.queued + 2, reserved := d.reserved + 2);
    assert Refill(d) == (e, true);
    assert Peek(d) == (e, Some(last[0]));
    assert last[1..] == [Token(EndObject, 1)];
    assert Legal(d.stack, last[0].kind);
  }

  // ---------- The handler as it runs ----------

  /** A decoder on a request's body, with the budget beside it. */
  class RequestDecoder {
    var d: Dec

    constructor (d: Dec)
      ensures this.d == d
    {
      this.d := d;
    }

    method Token() returns (t: Option<Token>)
      modifies this
      ensures (d, t) == Next(old(d))
    {
      d, t := Next(d).0, Next(d).1;
    }

    method HasMore() returns (more: bool)
      modifies this
      ensures (d, more) == More(old(d))
    {
      d, more := More(d).0, More(d).1;
    }

    method RawMessage() returns (data: Option<seq<Token>>)
      modifies this
      ensures (d, data) == Raw(old(d))
    {
      d, data := Raw(d).0, Raw(d).1;
    }

    method TryReserve(size: nat) returns (ok: bool)
      modifies this
      ensures ok <==> old(d).queued + size <= d.limit
      ensures d == if ok then old(d).(queued := old(d).queued + size) else old(d)
    {
      ok := size <= d.limit && d.queued <= d.limit - size;
      if ok {
        d := d.(queued := d.queued + size);
      }
    }

    method ReleasePayloads(payloads: seq<Payload>)
      modifies this
      ensures d == Fail(old(d), payloads).0
    {
      for i := 0 to |payloads|
        invariant d == old(d).(queued := d.queued)
        invariant Repay(d.queued, payloads[i..]) == Repay(old(d).queued, payloads)
      {
        assert payloads[i..][0] == payloads[i] && payloads[i..][1..] == payloads[i + 1..];
        var size := payloads[i].reservedBytes;
        if size <= d.queued {
          d := d.(queued := d.queued - size);
        }
      }
    }

    method SkipJSONValue() returns (ok: bool)
      modifies this
      ensures (d, ok) == Skip(old(d))
      decreases Left(d)
    {
      hide Next, More;
      var t := Token();
      if t.None? {
        return false;
      }
      ghost var start := d;
      match t.value.kind {
        case BeginObject =>
          while true
            invariant SkipMembers(d) == SkipMembers(start) && Left(d) <= Left(start)
            decreases Left(d)
          {
            var more := HasMore();
            var t := Token();
            if !more || t.None? {
              return t.Some?;
            }
            ok := SkipJSONValue();
            if !ok {
              return;
            }
          }
        case BeginArray =>
          while true
            invariant SkipItems(d) == SkipItems(start) && Left(d) <= Left(start)
            decreases Left(d)
          {
            var more := HasMore();
            if !more {
              var t := Token();
              return t.Some?;
            }
            ok := SkipJSONValue();
            if !ok {
              return;
            }
          }
        case EndObject => return false;
        case EndArray => return false;
        case _ => return true;
      }
    }

    method DecodeMessageArray(metadata: Metadata) returns (r: Option<seq<Payload>>)
      modifies this
      ensures (d, r) == DecodeArray(old(d), metadata)
    {
      hide Next, More, Raw, Width;
      var t := Token();
      if t.None? {
        return None;
      }
      if t.value.kind.Null? {
        return Some([]);
      }
      if !t.value.kind.BeginArray? {
        return None;
      }
      ghost var start := d;
      var payloads: seq<Payload> := [];
      while true
        invariant DecodeItems(d, metadata, payloads) == DecodeItems(start, metadata, [])
        decreases Left(d)
      {
        var more := HasMore();
        if !more {
          var end := Token();
          if end.Some? && end.value.kind.EndArray? {
            return Some(payloads);
          }
          ReleasePayloads(payloads);
          return None;
        }
        var data := RawMessage();
        if data.None? || metadata(data.value).None? {
          ReleasePayloads(payloads);
          return None;
        }
        var p := PayloadOf(data.value, metadata(data.value).value);
        var ok := TryReserve(p.reservedBytes);
        if !ok {
          ReleasePayloads(payloads);
          return None;
        }
        payloads := payloads + [p];
      }
    }

    method DecodeRuleMessages(metadata: Metadata) returns (r: Option<seq<Payload>>)
      modifies this
      ensures (d, r) == DecodeRequest(old(d), metadata)
    {
      hide Next, More, Skip, DecodeArray, IsMessages;
      var t := Token();
      if t.None? || !t.value.kind.BeginObject? {
        return None;
      }
      ghost var start := d;
      var payloads: seq<Payload> := [];
      while true
        invariant DecodeFields(d, metadata, payloads) == DecodeFields(start, metadata, [])
        decreases Left(d)
      {
        var more := HasMore();
        var key := Token();
        if !more {
          if key.Some? && key.value.kind.EndObject? {
            return Some(payloads);
          }
          ReleasePayloads(payloads);
          return None;
        }
        if key.None? || !key.value.kind.Text? {
          ReleasePayloads(payloads);
          return None;
        }
        if !IsMessages(key.value.kind.text) {
          var ok := SkipJSONValue();
          if !ok {
            ReleasePayloads(payloads);
            return None;
          }
        } else {
          var replacement := DecodeMessageArray(metadata);
          if replacement.None? {
            ReleasePayloads(payloads);
            return None;
          }
          ReleasePayloads(payloads);
          payloads := replacement.value;
        }
      }
    }
  }
}
