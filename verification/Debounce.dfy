/** The debounced rules of pkg/rule_engine/rule.go and internal/mod/rule/engine.go.

    `Consume` specifies one ConsumeNext: every rule of the topic is evaluated against the stored
    activation time of its key, which it may move. Timestamps are integers, a condition is any
    predicate on the message, and the clock that the cleanup reads is an input. */
module Debounce {
  import opened Wrappers

  const DEBOUNCE_MAP_SIZE := 1000

  // 24 hours in nanoseconds
  const DEBOUNCE_MAX_DURATION := 24 * 3600 * 1_000_000_000

  datatype Item = Item(topic: string, ts: int, http: bool, msg: string)

  type Condition = Item -> bool

  /** `scope` is the scope written as JSON, empty when the rule has none. */
  datatype Rule = Rule(name: string, scope: string, topics: set<string>, debounce: int, conditions: seq<Condition>)

  datatype Fire = Fire(key: string, ts: int)

  type Times = map<string, Option<int>>

  /** debounceKeyForRule */
  function Key(rule: Rule): string {
    if rule.name == "" then "" else if rule.scope == "" then rule.name else rule.name + "|" + rule.scope
  }

  /** Rules whose names hold no bar share a key only if they have the same name and scope. */
  lemma {:induction false} KeysTellRulesApart(a: Rule, b: Rule)
    requires a.name != "" && b.name != "" && '|' !in a.name && '|' !in b.name && Key(a) == Key(b)
    ensures a.name == b.name && a.scope == b.scope
  {
    BarEndsName(a, b);
    BarEndsName(b, a);
    assert Key(a)[..|a.name|] == a.name && Key(b)[..|b.name|] == b.name;
    if a.scope != "" && b.scope != "" {
      assert Key(a)[|a.name| + 1..] == a.scope && Key(b)[|b.name| + 1..] == b.scope;
    }
  }

  lemma {:induction false} BarEndsName(a: Rule, b: Rule)
    requires a.name != "" && b.name != "" && '|' !in b.name && Key(a) == Key(b)
    ensures |a.name| >= |b.name|
  {
    if a.scope != "" {
      assert Key(a)[|a.name|] == '|';
      assert forall i :: 0 <= i < |b.name| ==> Key(b)[i] == b.name[i] && b.name[i] != '|';
    }
  }

  predicate Met(rule: Rule, item: Item) {
    forall i :: 0 <= i < |rule.conditions| ==> rule.conditions[i](item)
  }

  predicate Concerns(rule: Rule, item: Item) {
    rule.topics == {} || item.topic in rule.topics
  }

  /** EvalConditions: does the rule fire, and the activation time to store. */
  function Eval(rule: Rule, item: Item, prev: Option<int>): (bool, Option<int>) {
    if !Met(rule, item) then (false, prev)
    else if rule.debounce <= 0 || prev.None? then (true, Some(item.ts))
    else if item.ts < prev.value then
      if item.http then (false, prev) else (true, Some(item.ts))
    else (item.ts - prev.value > rule.debounce, Some(item.ts))
  }

  function Prev(times: Times, key: string): Option<int> {
    if key != "" && key in times then times[key] else None
  }

  /** One rule in the loop of ConsumeNext. */
  function Apply(times: Times, rule: Rule, item: Item): (Times, seq<Fire>) {
    if !Concerns(rule, item) then (times, [])
    else
      var key := Key(rule);
      var (active, time) := Eval(rule, item, Prev(times, key));
      (if key != "" then times[key := time] else times, if active then [Fire(key, item.ts)] else [])
  }

  function ApplyAll(times: Times, rules: seq<Rule>, item: Item): (Times, seq<Fire>)
    decreases |rules|
  {
    if rules == [] then (times, [])
    else
      var (next, fires) := Apply(times, rules[0], item);
      var (last, more) := ApplyAll(next, rules[1..], item);
      (last, fires + more)
  }

  predicate Expired(times: Times, now: int, key: string) {
    key in times && times[key].Some? && now - times[key].value > DEBOUNCE_MAX_DURATION && key != ""
  }

  /** cleanupDebounceTime */
  function Cleanup(times: Times, now: int): Times {
    if |times| > DEBOUNCE_MAP_SIZE then map key | key in times && !Expired(times, now, key) :: times[key] else times
  }

  /** A message, the rules in force when it comes, and the clock. */
  datatype Event = Event(rules: seq<Rule>, item: Item, now: int)

  function Consume(times: Times, e: Event): (Times, seq<Fire>) {
    var (next, fires) := ApplyAll(times, e.rules, e.item);
    (Cleanup(next, e.now), fires)
  }

  function Run(times: Times, events: seq<Event>): (Times, seq<Fire>)
    decreases |events|
  {
    if events == [] then (times, [])
    else
      var (next, fires) := Consume(times, events[0]);
      var (last, more) := Run(next, events[1..]);
      (last, fires + more)
  }

  // ---------- Rules with other keys ----------

  function Only(rules: seq<Rule>, key: string): seq<Rule> {
    if rules == [] then [] else (if Key(rules[0]) == key then [rules[0]] else []) + Only(rules[1..], key)
  }

  function OnlyEvents(events: seq<Event>, key: string): seq<Event> {
    if events == [] then [] else [events[0].(rules := Only(events[0].rules, key))] + OnlyEvents(events[1..], key)
  }

  function Of(fires: seq<Fire>, key: string): seq<Fire> {
    if fires == [] then [] else (if fires[0].key == key then [fires[0]] else []) + Of(fires[1..], key)
  }

  lemma {:induction false} OfConcat(a: seq<Fire>, b: seq<Fire>, key: string)
    ensures Of(a + b, key) == Of(a, key) + Of(b, key)
  {
    if a == [] {
      assert a + b == b;
    } else {
      assert (a + b)[0] == a[0] && (a + b)[1..] == a[1..] + b;
      OfConcat(a[1..], b, key);
      var first := if a[0].key == key then [a[0]] else [];
      assert Of(a + b, key) == first + (Of(a[1..], key) + Of(b, key));
      assert Of(a, key) == first + Of(a[1..], key);
    }
  }

  function RuleKeys(rules: seq<Rule>): set<string> {
    set i | 0 <= i < |rules| :: Key(rules[i])
  }

  function EventKeys(events: seq<Event>): set<string> {
    if events == [] then {} else RuleKeys(events[0].rules) + EventKeys(events[1..])
  }

  /** The two stores agree on the key. */
  predicate Agree(a: Times, b: Times, key: string) {
    Prev(a, key) == Prev(b, key)
  }

  lemma {:induction false} ApplyOther(times: Times, rule: Rule, item: Item, key: string)
    ensures Apply(times, rule, item).0.Keys <= times.Keys + {Key(rule)}
    ensures Key(rule) != key ==> Agree(Apply(times, rule, item).0, times, key) && Of(Apply(times, rule, item).1, key) == []
  {
    var fires := Apply(times, rule, item).1;
    assert fires != [] ==> fires[1..] == [];
  }

  lemma {:induction false} ApplySame(a: Times, b: Times, rule: Rule, item: Item, key: string)
    requires Agree(a, b, key) && Key(rule) == key
    ensures Agree(Apply(a, rule, item).0, Apply(b, rule, item).0, key) && Apply(a, rule, item).1 == Apply(b, rule, item).1
  {
  }

  lemma {:induction false} ApplyAllAlone(a: Times, b: Times, rules: seq<Rule>, item: Item, key: string)
    requires Agree(a, b, key)
    ensures Agree(ApplyAll(a, rules, item).0, ApplyAll(b, Only(rules, key), item).0, key)
    ensures Of(ApplyAll(a, rules, item).1, key) == Of(ApplyAll(b, Only(rules, key), item).1, key)
    ensures ApplyAll(a, rules, item).0.Keys <= a.Keys + RuleKeys(rules)
    ensures ApplyAll(b, Only(rules, key), item).0.Keys <= b.Keys + RuleKeys(rules)
    decreases |rules|
  {
    hide Apply, Agree;
    if rules != [] {
      var (next, fires) := Apply(a, rules[0], item);
      var rest := Only(rules[1..], key);
      ApplyOther(a, rules[0], item, key);
      ApplyOther(b, rules[0], item, key);
      KeysFirst(rules);
      OfConcat(fires, ApplyAll(next, rules[1..], item).1, key);
      if Key(rules[0]) == key {
        ApplySame(a, b, rules[0], item, key);
        var b' := Apply(b, rules[0], item).0;
        ApplyAllAlone(next, b', rules[1..], item, key);
        assert ([rules[0]] + rest)[0] == rules[0] && ([rules[0]] + rest)[1..] == rest;
        OfConcat(fires, ApplyAll(b', rest, item).1, key);
      } else {
        StillAgree(next, a, b, key);
        ApplyAllAlone(next, b, rules[1..], item, key);
        assert [] + rest == rest;
      }
    }
  }

  lemma {:induction false} StillAgree(a': Times, a: Times, b: Times, key: string)
    requires Agree(a', a, key) && Agree(a, b, key)
    ensures Agree(a', b, key)
  {
  }

  lemma {:induction false} KeysFirst(rules: seq<Rule>)
    requires rules != []
    ensures RuleKeys(rules) == {Key(rules[0])} + RuleKeys(rules[1..])
  {
    forall i | 0 <= i < |rules|
      ensures Key(rules[i]) in {Key(rules[0])} + RuleKeys(rules[1..])
    {
      if i > 0 {
        assert rules[i] == rules[1..][i - 1];
      }
    }
    forall i | 0 <= i < |rules[1..]|
      ensures Key(rules[1..][i]) in RuleKeys(rules)
    {
      assert rules[1..][i] == rules[i + 1];
    }
  }

  lemma {:induction false} NoCleanup(times: Times, now: int, keys: set<string>)
    requires times.Keys <= keys && |keys| <= DEBOUNCE_MAP_SIZE
    ensures Cleanup(times, now) == times
  {
    SubsetSize(times.Keys, keys);
    assert |times| == |times.Keys|;
  }

  lemma {:induction false} RunAloneFrom(a: Times, b: Times, events: seq<Event>, key: string, keys: set<string>)
    requires Agree(a, b, key) && a.Keys <= keys && b.Keys <= keys && EventKeys(events) <= keys && |keys| <= DEBOUNCE_MAP_SIZE
    ensures Agree(Run(a, events).0, Run(b, OnlyEvents(events, key)).0, key)
    ensures Of(Run(a, events).1, key) == Of(Run(b, OnlyEvents(events, key)).1, key)
    decreases |events|
  {
    hide ApplyAll, Agree, Cleanup;
    if events != [] {
      var e := events[0];
      var only := e.(rules := Only(e.rules, key));
      ApplyAllAlone(a, b, e.rules, e.item, key);
      NoCleanup(ApplyAll(a, e.rules, e.item).0, e.now, keys);
      NoCleanup(ApplyAll(b, only.rules, e.item).0, e.now, keys);
      var rest := OnlyEvents(events[1..], key);
      assert OnlyEvents(events, key)[0] == only && OnlyEvents(events, key)[1..] == rest;
      RunAloneFrom(Consume(a, e).0, Consume(b, only).0, events[1..], key, keys);
      OfConcat(Consume(a, e).1, Run(Consume(a, e).0, events[1..]).1, key);
      OfConcat(Consume(b, only).1, Run(Consume(b, only).0, rest).1, key);
    }
  }

  /** With at most 1000 keys, what the rules of one key do is what they do when they run alone. */
  lemma {:induction false} RunsAlone(events: seq<Event>, key: string)
    requires |EventKeys(events)| <= DEBOUNCE_MAP_SIZE
    ensures Prev(Run(map[], events).0, key) == Prev(Run(map[], OnlyEvents(events, key)).0, key)
    ensures Of(Run(map[], events).1, key) == Of(Run(map[], OnlyEvents(events, key)).1, key)
  {
    RunAloneFrom(map[], map[], events, key, EventKeys(events));
  }

  // ---------- One rule, messages from anywhere ----------

  function Max(s: seq<int>): int
    requires s != []
  {
    if |s| == 1 then s[0]
    else
      var m, last := Max(s[..|s| - 1]), s[|s| - 1];
      if last > m then last else m
  }

  /** The messages of the rule's topics, of any topic when it names none, that meet all its conditions. */
  function MetItems(rule: Rule, items: seq<Item>): seq<Item> {
    if items == [] then []
    else
      var last := items[|items| - 1];
      MetItems(rule, items[..|items| - 1]) +
      if (rule.topics == {} || last.topic in rule.topics) && forall i :: 0 <= i < |rule.conditions| ==> rule.conditions[i](last)
      then [last] else []
  }

  lemma {:induction false} MetLast(rule: Rule, items: seq<Item>)
    requires items != []
    ensures var n := |items| - 1;
      MetItems(rule, items) == MetItems(rule, items[..n]) + if Concerns(rule, items[n]) && Met(rule, items[n]) then [items[n]] else []
  {
  }

  function Stamps(items: seq<Item>): seq<int> {
    seq(|items|, i requires 0 <= i < |items| => items[i].ts)
  }

  /** The messages from the last one that is not an HTTP message on. */
  function Since(met: seq<Item>): (r: seq<Item>)
    ensures met != [] ==> r != []
  {
    if met == [] then []
    else
      var last := met[|met| - 1];
      if last.http then Since(met[..|met| - 1]) + [last] else [last]
  }

  /** The latest timestamp since the last file message. */
  function Latest(met: seq<Item>): int
    requires met != []
  {
    Max(Stamps(Since(met)))
  }

  /** The reference: the timestamps that are first, more than `d` past the latest, or in a file before it. */
  function Firing(met: seq<Item>, d: int): seq<int> {
    if met == [] then []
    else
      var before, last := met[..|met| - 1], met[|met| - 1];
      Firing(before, d) +
      if before == [] || last.ts > Latest(before) + d || (!last.http && last.ts < Latest(before)) then [last.ts] else []
  }

  function Events(rule: Rule, items: seq<Item>, nows: seq<int>): seq<Event>
    requires |nows| == |items|
  {
    seq(|items|, i requires 0 <= i < |items| => Event([rule], items[i], nows[i]))
  }

  function FiresAt(key: string, times: seq<int>): seq<Fire> {
    seq(|times|, i requires 0 <= i < |times| => Fire(key, times[i]))
  }

  lemma {:induction false} RunLast(times: Times, events: seq<Event>, e: Event)
    ensures var (before, fires) := Run(times, events);
      Run(times, events + [e]) == (Consume(before, e).0, fires + Consume(before, e).1)
    decreases |events|
  {
    hide Consume;
    if events == [] {
      assert events + [e] == [e] && [e][1..] == [];
      var (next, fires) := Consume(times, e);
      assert Run(next, []) == (next, []);
      assert Run(times, [e]) == (next, fires + []) && fires + [] == fires && [] + fires == fires;
    } else {
      assert (events + [e])[0] == events[0] && (events + [e])[1..] == events[1..] + [e];
      var (next, first) := Consume(times, events[0]);
      RunLast(next, events[1..], e);
      var (before, mid) := Run(next, events[1..]);
      assert first + (mid + Consume(before, e).1) == first + mid + Consume(before, e).1;
    }
  }

  lemma {:induction false} ConsumeOne(times: Times, rule: Rule, item: Item, now: int)
    requires times.Keys <= {Key(rule)}
    ensures Consume(times, Event([rule], item, now)) == Apply(times, rule, item)
    ensures Apply(times, rule, item).0.Keys <= {Key(rule)}
  {
    ApplyOther(times, rule, item, "");
    var (next, fires) := Apply(times, rule, item);
    hide Apply;
    assert [rule][1..] == [];
    assert ApplyAll(next, [], item) == (next, []);
    assert fires + [] == fires;
    NoCleanup(next, now, {Key(rule)});
  }

  /** For any messages the stored time is the latest timestamp since the last file message, and the rule
      fires exactly at the timestamps that are first, more than the debounce time past the stored one, or
      in a file and before it. */
  lemma {:induction false} RuleDebounces(rule: Rule, items: seq<Item>, nows: seq<int>)
    requires rule.debounce > 0 && Key(rule) != "" && |nows| == |items|
    ensures var (times, fires) := Run(map[], Events(rule, items, nows)); var met := MetItems(rule, items);
      && times.Keys <= {Key(rule)}
      && Prev(times, Key(rule)) == (if met == [] then None else Some(Latest(met)))
      && fires == FiresAt(Key(rule), Firing(met, rule.debounce))
    decreases |items|
  {
    if items == [] {
    } else {
      hide Firing, Latest, FiresAt, Met, Concerns, Key, Consume, Apply, Run, Events, MetItems;
      var n := |items| - 1;
      MetLast(rule, items);
      RuleDebounces(rule, items[..n], nows[..n]);
      EventsLast(rule, items, nows);
      var (before, fires) := Run(map[], Events(rule, items[..n], nows[..n]));
      RunLast(map[], Events(rule, items[..n], nows[..n]), Event([rule], items[n], nows[n]));
      ConsumeOne(before, rule, items[n], nows[n]);
      NextFires(before, rule, items[n], MetItems(rule, items[..n]));
    }
  }

  lemma {:induction false} EventsLast(rule: Rule, items: seq<Item>, nows: seq<int>)
    requires items != [] && |nows| == |items|
    ensures var n := |items| - 1;
      Events(rule, items, nows) == Events(rule, items[..n], nows[..n]) + [Event([rule], items[n], nows[n])]
  {
  }

  /** One more message: the stored time and the fires follow the reference. */
  lemma {:induction false} NextFires(times: Times, rule: Rule, item: Item, met: seq<Item>)
    requires rule.debounce > 0 && Key(rule) != "" && times.Keys <= {Key(rule)}
    requires Prev(times, Key(rule)) == if met == [] then None else Some(Latest(met))
    ensures var (next, fires) := Apply(times, rule, item);
      var more := met + if Concerns(rule, item) && Met(rule, item) then [item] else [];
      && Prev(next, Key(rule)) == (if more == [] then None else Some(Latest(more)))
      && FiresAt(Key(rule), Firing(met, rule.debounce)) + fires == FiresAt(Key(rule), Firing(more, rule.debounce))
  {
    hide Met, Concerns, Key, Latest;
    if Concerns(rule, item) && Met(rule, item) {
      LatestNext(met, item);
      assert (met + [item])[..|met|] == met;
    } else {
      assert met + [] == met;
    }
  }

  lemma {:induction false} LatestNext(met: seq<Item>, item: Item)
    ensures Latest(met + [item]) ==
      if met == [] || !item.http then item.ts else if item.ts > Latest(met) then item.ts else Latest(met)
  {
    assert (met + [item])[..|met|] == met;
    var since := Since(met);
    if item.http {
      assert Stamps(since + [item])[..|since|] == Stamps(since);
    }
  }

  /** A rule without a debounce time, or without a name to remember it by, fires at exactly the messages of
      its topics that meet all its conditions. */
  lemma {:induction false} RuleFiresAlways(rule: Rule, items: seq<Item>, nows: seq<int>)
    requires (rule.debounce <= 0 || rule.name == "") && |nows| == |items|
    ensures var (times, fires) := Run(map[], Events(rule, items, nows)); var met := MetItems(rule, items);
      && times.Keys <= {Key(rule)}
      && fires == FiresAt(Key(rule), Stamps(met))
      && (rule.name != "" && met != [] ==> Prev(times, Key(rule)) == Some(met[|met| - 1].ts))
    decreases |items|
  {
    if items == [] {
    } else {
      hide FiresAt, Stamps, Met, Concerns, Consume, Apply, Run, Events, MetItems;
      var n := |items| - 1;
      MetLast(rule, items);
      RuleFiresAlways(rule, items[..n], nows[..n]);
      EventsLast(rule, items, nows);
      var (before, fires) := Run(map[], Events(rule, items[..n], nows[..n]));
      RunLast(map[], Events(rule, items[..n], nows[..n]), Event([rule], items[n], nows[n]));
      ConsumeOne(before, rule, items[n], nows[n]);
      NextAlways(before, rule, items[n], MetItems(rule, items[..n]));
    }
  }

  lemma {:induction false} NextAlways(times: Times, rule: Rule, item: Item, met: seq<Item>)
    requires rule.debounce <= 0 || rule.name == ""
    requires rule.name != "" && met != [] ==> Prev(times, Key(rule)) == Some(met[|met| - 1].ts)
    ensures var (next, fires) := Apply(times, rule, item);
      var more := met + if Concerns(rule, item) && Met(rule, item) then [item] else [];
      && FiresAt(Key(rule), Stamps(met)) + fires == FiresAt(Key(rule), Stamps(more))
      && (rule.name != "" && more != [] ==> Prev(next, Key(rule)) == Some(more[|more| - 1].ts))
  {
    hide Met, Concerns;
    if !(Concerns(rule, item) && Met(rule, item)) {
      assert met + [] == met;
    }
  }

  // ---------- Messages in order ----------

  /** The reference for messages in order: those that are first or more than `d` past the latest so far. */
  function Debounced(s: seq<int>, d: int): seq<int> {
    if s == [] then []
    else
      var before, last := s[..|s| - 1], s[|s| - 1];
      Debounced(before, d) + if before == [] || last > Max(before) + d then [last] else []
  }

  /** No file message is before a message that met the conditions earlier. */
  predicate InOrder(met: seq<Item>) {
    forall i, j :: 0 <= i < j < |met| && !met[j].http ==> met[i].ts <= met[j].ts
  }

  /** When files do not go back in time, they debounce like HTTP messages: the stored time is the latest
      timestamp so far, and only what is more than the debounce time past it fires. */
  lemma {:induction false} OrderedDebounces(met: seq<Item>, d: int)
    requires InOrder(met) && d > 0
    ensures met != [] ==> Latest(met) == Max(Stamps(met))
    ensures Firing(met, d) == Debounced(Stamps(met), d)
    decreases |met|
  {
    hide Latest;
    if met != [] {
      var n := |met| - 1;
      OrderedDebounces(met[..n], d);
      assert met == met[..n] + [met[n]];
      LatestNext(met[..n], met[n]);
      assert Stamps(met)[..n] == Stamps(met[..n]);
      if n > 0 {
        var i := MaxIsThere(Stamps(met[..n]));
        assert met[i].ts == Max(Stamps(met[..n]));
      }
    }
  }

  /** For HTTP messages the stored time is the latest timestamp that met the conditions, and the rule
      fires exactly at the timestamps that are first or more than the debounce time past the latest. */
  lemma {:induction false} HttpDebounces(rule: Rule, items: seq<Item>, nows: seq<int>)
    requires rule.debounce > 0 && Key(rule) != "" && |nows| == |items|
    requires forall i :: 0 <= i < |items| ==> items[i].http
    ensures var (times, fires) := Run(map[], Events(rule, items, nows)); var met := Stamps(MetItems(rule, items));
      && Prev(times, Key(rule)) == (if met == [] then None else Some(Max(met)))
      && fires == FiresAt(Key(rule), Debounced(met, rule.debounce))
  {
    hide Run, Events, FiresAt, Debounced, Firing, Latest, Max, Key;
    RuleDebounces(rule, items, nows);
    AllHttp(rule, items);
    OrderedDebounces(MetItems(rule, items), rule.debounce);
  }

  lemma {:induction false} AllHttp(rule: Rule, items: seq<Item>)
    requires forall i :: 0 <= i < |items| ==> items[i].http
    ensures forall i :: 0 <= i < |MetItems(rule, items)| ==> MetItems(rule, items)[i].http
  {
    if items != [] {
      AllHttp(rule, items[..|items| - 1]);
    }
  }

  // ---------- The reference spaces the fires ----------

  lemma {:induction false} MaxIsMax(s: seq<int>, i: nat)
    requires i < |s|
    ensures s[i] <= Max(s)
  {
    if |s| > 1 && i < |s| - 1 {
      MaxIsMax(s[..|s| - 1], i);
    }
  }

  lemma {:induction false} DebouncedAreMet(s: seq<int>, d: int, i: nat)
    requires i < |Debounced(s, d)|
    ensures Debounced(s, d)[i] in s
  {
    if i < |Debounced(s[..|s| - 1], d)| {
      DebouncedAreMet(s[..|s| - 1], d, i);
    }
  }

  /** Of two fires the later one is more than the debounce time past the earlier one. */
  lemma {:induction false} FiresApart(s: seq<int>, d: int, i: nat, j: nat)
    requires i < j < |Debounced(s, d)|
    ensures Debounced(s, d)[j] > Debounced(s, d)[i] + d
  {
    var before := s[..|s| - 1];
    if j < |Debounced(before, d)| {
      FiresApart(before, d, i, j);
    } else {
      DebouncedAreMet(before, d, i);
      var k :| 0 <= k < |before| && before[k] == Debounced(before, d)[i];
      MaxIsMax(before, k);
    }
  }

  /** A timestamp that meets the conditions and does not fire has one before it that is not more than
      the debounce time earlier. */
  lemma {:induction false} SilentHasReason(s: seq<int>, d: int)
    requires s != [] && Debounced(s, d) == Debounced(s[..|s| - 1], d)
    ensures exists i :: 0 <= i < |s| - 1 && s[|s| - 1] <= s[i] + d
  {
    var before := s[..|s| - 1];
    var i := MaxIsThere(before);
    assert s[i] == Max(before);
  }

  lemma {:induction false} MaxIsThere(s: seq<int>) returns (i: nat)
    requires s != []
    ensures i < |s| && s[i] == Max(s)
  {
    if |s| == 1 || s[|s| - 1] > Max(s[..|s| - 1]) {
      return |s| - 1;
    }
    i := MaxIsThere(s[..|s| - 1]);
  }

  /** Messages read from files are not held back when time goes back: two that are as close as one likes
      both fire. */
  lemma {:induction false} FilesFireBackwards(rule: Rule, first: Item, second: Item, now: int)
    requires rule.debounce > 0 && Key(rule) != "" && !second.http && second.ts < first.ts
    requires Concerns(rule, first) && Met(rule, first) && Concerns(rule, second) && Met(rule, second)
    ensures Run(map[], Events(rule, [first, second], [now, now])).1 == [Fire(Key(rule), first.ts), Fire(Key(rule), second.ts)]
  {
    var events := Events(rule, [first, second], [now, now]);
    assert events == [events[0]] + [events[1]];
    RunLast(map[], [events[0]], events[1]);
    RunLast(map[], [], events[0]);
    assert [] + [events[0]] == [events[0]];
    hide Run, Consume, Met, Concerns, Key;
    ConsumeOne(map[], rule, first, now);
    ConsumeOne(Apply(map[], rule, first).0, rule, second, now);
  }

  predicate Apart(fires: seq<int>, d: int) {
    forall i, j :: 0 <= i < j < |fires| ==> fires[j] > fires[i] + d
  }

  lemma {:induction false} FirstFires(met: seq<Item>, d: int)
    requires met != []
    ensures Firing(met, d) != [] && Firing(met, d)[0] == met[0].ts
  {
    if |met| > 1 {
      FirstFires(met[..|met| - 1], d);
    }
  }

  lemma {:induction false} FiringPrefix(met: seq<Item>, n: nat, d: int)
    requires n <= |met|
    ensures Firing(met[..n], d) <= Firing(met, d)
    decreases |met|
  {
    if n == |met| {
      assert met[..n] == met;
    } else {
      var before := met[..|met| - 1];
      FiringPrefix(before, n, d);
      assert before[..n] == met[..n];
    }
  }

  /** The first message out of order. */
  lemma {:induction false} Disorder(met: seq<Item>) returns (n: nat)
    requires !InOrder(met)
    ensures 0 < n < |met| && InOrder(met[..n]) && !met[n].http && met[n].ts < Latest(met[..n])
    decreases |met|
  {
    hide Latest;
    var before := met[..|met| - 1];
    if InOrder(before) {
      n := |met| - 1;
      var i, j :| 0 <= i < j < |met| && !met[j].http && met[i].ts > met[j].ts;
      assert j == n;
      OrderedDebounces(before, 1);
      MaxIsMax(Stamps(before), i);
    } else {
      n := Disorder(before);
      assert before[..n] == met[..n];
    }
  }

  /** The fires of a rule stay apart, whatever its debounce time, exactly when no file message is before
      one that met the conditions earlier. */
  lemma {:induction false} SpacedExactly(met: seq<Item>)
    ensures InOrder(met) <==> forall d :: d > 0 ==> Apart(Firing(met, d), d)
  {
    hide Firing, Debounced, Latest;
    if InOrder(met) {
      forall d | d > 0
        ensures Apart(Firing(met, d), d)
      {
        OrderedDebounces(met, d);
        forall i, j | 0 <= i < j < |Firing(met, d)|
          ensures Firing(met, d)[j] > Firing(met, d)[i] + d
        {
          FiresApart(Stamps(met), d, i, j);
        }
      }
    } else {
      var n := Disorder(met);
      var d := if met[n].ts > met[0].ts then met[n].ts - met[0].ts else 1;
      CloseFires(met, n, d);
    }
  }

  /** With a debounce time that reaches back to the first fire, the message out of order fires too early. */
  lemma {:induction false} CloseFires(met: seq<Item>, n: nat, d: int)
    requires 0 < n < |met| && !met[n].http && met[n].ts < Latest(met[..n]) && met[n].ts <= met[0].ts + d
    ensures !Apart(Firing(met, d), d)
  {
    hide Latest;
    var upTo := met[..n + 1];
    assert upTo[..n] == met[..n];
    FirstFires(met[..n], d);
    FiringPrefix(met, n + 1, d);
    var k := |Firing(met[..n], d)|;
    assert Firing(upTo, d) == Firing(met[..n], d) + [met[n].ts];
    assert Firing(met, d)[0] == Firing(upTo, d)[0] && Firing(met, d)[k] == Firing(upTo, d)[k];
  }

  /** Above 1000 keys exactly the activation times more than 24 hours before the clock go. */
  lemma {:induction false} CleanupExactly(times: Times, now: int, key: string)
    ensures var expired := key in times && times[key].Some? && now - times[key].value > 86_400_000_000_000 && key != "";
      && (key in Cleanup(times, now) <==> key in times && !(|times| > 1000 && expired))
      && (key in Cleanup(times, now) ==> Cleanup(times, now)[key] == times[key])
  {
    assert DEBOUNCE_MAX_DURATION == 86_400_000_000_000;
  }

  // ---------- The engine as it runs ----------

  class Engine {
    var rules: seq<Rule>
    var ruleDebounceTime: Times

    constructor ()
      ensures rules == [] && ruleDebounceTime == map[]
    {
      rules, ruleDebounceTime := [], map[];
    }

    /** UpdateRules puts other rules in force and leaves the activation times. */
    method UpdateRules(validated: seq<Rule>)
      modifies this`rules
      ensures rules == validated
    {
      rules := validated;
    }

    method EvalConditions(rule: Rule, item: Item, prev: Option<int>) returns (active: bool, time: Option<int>)
      ensures (active, time) == Eval(rule, item, prev)
    {
      for i := 0 to |rule.conditions|
        invariant forall k :: 0 <= k < i ==> rule.conditions[k](item)
      {
        if !rule.conditions[i](item) {
          return false, prev;
        }
      }
      if rule.debounce <= 0 {
        return true, Some(item.ts);
      }
      if prev.None? {
        return true, Some(item.ts);
      } else if item.ts < prev.value {
        if item.http {
          return false, prev;
        }
        return true, Some(item.ts);
      } else if item.ts - prev.value > rule.debounce {
        return true, Some(item.ts);
      }
      return false, Some(item.ts);
    }

    /** One rule in the loop of ConsumeNext. */
    method ConsumeRule(rule: Rule, item: Item) returns (fires: seq<Fire>)
      modifies this`ruleDebounceTime
      ensures (ruleDebounceTime, fires) == Apply(old(ruleDebounceTime), rule, item)
    {
      hide Eval;
      fires := [];
      if !(rule.topics == {} || item.topic in rule.topics) {
        return;
      }
      var key := Key(rule);
      var prev := if key != "" && key in ruleDebounceTime then ruleDebounceTime[key] else None;
      var active, time := EvalConditions(rule, item, prev);
      if key != "" {
        ruleDebounceTime := ruleDebounceTime[key := time];
      }
      if active {
        fires := [Fire(key, item.ts)];
      }
    }

    method ConsumeNext(item: Item, now: int) returns (fires: seq<Fire>)
      modifies this`ruleDebounceTime
      ensures (ruleDebounceTime, fires) == Consume(old(ruleDebounceTime), Event(rules, item, now))
    {
      hide Apply, Cleanup;
      fires := [];
      ghost var all := ApplyAll(ruleDebounceTime, rules, item);
      assert rules[0..] == rules && fires + all.1 == all.1;
      for i := 0 to |rules|
        invariant ApplyAll(ruleDebounceTime, rules[i..], item).0 == all.0
        invariant fires + ApplyAll(ruleDebounceTime, rules[i..], item).1 == all.1
      {
        assert rules[i..][0] == rules[i] && rules[i..][1..] == rules[i + 1..];
        ghost var given := fires;
        var more := ConsumeRule(rules[i], item);
        fires := fires + more;
        ghost var rest := ApplyAll(ruleDebounceTime, rules[i + 1..], item).1;
        assert given + (more + rest) == fires + rest;
      }
      assert fires + [] == fires;
      CleanupDebounceTime(now);
    }

    method CleanupDebounceTime(now: int)
      modifies this`ruleDebounceTime
      ensures ruleDebounceTime == Cleanup(old(ruleDebounceTime), now)
    {
      if |ruleDebounceTime| > DEBOUNCE_MAP_SIZE {
        var deleteKeys := set key | key in ruleDebounceTime && Expired(ruleDebounceTime, now, key);
        ruleDebounceTime := ruleDebounceTime - deleteKeys;
      }
    }
  }
}
