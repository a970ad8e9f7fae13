/** The upload noise filter of internal/filter/filter.go: what it drops lives on in per-model rollups. */
module NoiseFilter {
  import opened Seqs
  import opened Strings
  import opened Api
  import opened Usages

  const ROLLUP_EVENT_NAME := "token_rollup"

  const KEEP_FAMILIES: set<string> :=
    {"sse_event", "tool_result", "tool_decision", "hook_execution_start", "hook_execution_complete",
     "api_error", "api_retries_exhausted", "compaction"}

  const DROP_FAMILIES: set<string> := {"websocket_event"}

  datatype Tables = Tables(keep: set<string>, drop: set<string>)

  /** Token and cost totals of the dropped events of one model. */
  datatype Bucket = Bucket(total: Usage, hasCost: bool)

  datatype Stats = Stats(kept: nat, filtered: nat, rollups: nat)

  type Pending = map<string, Bucket>

  const NO_BUCKET := Bucket(ZERO, false)

  function Family(eventName: string): string {
    if HasPrefix(eventName, "codex.") then eventName[|"codex."|..] else eventName
  }

  /** Keep wins over drop, and an unknown name is kept. */
  predicate ShouldKeep(t: Tables, eventName: string) {
    Family(eventName) in t.keep || Family(eventName) !in t.drop
  }

  function Keeps(t: Tables): NormalizedEvent -> bool { (e: NormalizedEvent) => ShouldKeep(t, Name(e.eventName)) }

  /** What the tables list an event under: what follows a leading "codex." of its name, or else the whole name. */
  predicate IsFamily(name: string, family: string) {
    name == "codex." + family || (name == family && !("codex." <= name))
  }

  /** Known noise: listed as dropped and not as kept; an event without a name goes by the empty one. */
  ghost predicate IsNoise(keep: set<string>, drop: set<string>, name: string) {
    exists family :: IsFamily(name, family) && family in drop && family !in keep
  }

  /** The events that are not known noise, and no others. */
  ghost function AreKept(t: Tables, events: seq<NormalizedEvent>): seq<NormalizedEvent> -> bool {
    (kept: seq<NormalizedEvent>) =>
      forall e :: e in kept <==>
        e in events && !IsNoise(t.keep, t.drop, if e.eventName.Some? then e.eventName.value else "")
  }

  lemma KeepsUnlessNoise(t: Tables, name: string)
    ensures ShouldKeep(t, name) <==> !IsNoise(t.keep, t.drop, name)
  {
    assert IsFamily(name, Family(name));
    forall family | IsFamily(name, family) ensures family == Family(name) {
      assert ("codex." + family)[|"codex."|..] == family;
    }
  }

  lemma KeptAreKept(t: Tables, events: seq<NormalizedEvent>)
    ensures AreKept(t, events)(Filter(Keeps(t), events))
  {
    FilterMembers(Keeps(t), events);
    forall e: NormalizedEvent ensures Keeps(t)(e) <==> !IsNoise(t.keep, t.drop, Name(e.eventName)) {
      KeepsUnlessNoise(t, Name(e.eventName));
    }
  }

  lemma NoneKeptIsNoise(name: string)
    requires name != "" && name[0] == 'w'
    ensures name !in KEEP_FAMILIES
  {
  }

  lemma NoiseNames(name: string, noise: string)
    requires noise == "websocket_event"
    ensures IsFamily(name, noise) <==> name == noise || name == "codex.websocket_event"
  {
    assert "codex." + noise == "codex.websocket_event";
    assert noise[0] == 'w' && "codex."[0] == 'c';
  }

  /** With the built-in tables, and no further names configured, two names are noise and no others. */
  lemma BuiltInNoise(name: string, noise: string)
    requires noise == "websocket_event"
    ensures IsNoise(KEEP_FAMILIES, DROP_FAMILIES, name) <==> name == noise || name == "codex.websocket_event"
  {
    NoiseNames(name, noise);
    NoneKeptIsNoise(noise);
    assert DROP_FAMILIES == {noise};
    assert IsFamily(name, noise) ==> noise in DROP_FAMILIES && noise !in KEEP_FAMILIES;
  }

  predicate HasValue(e: NormalizedEvent) {
    e.inputTokens.Some? || e.outputTokens.Some? || e.cacheReadTokens.Some? || e.cacheCreateTokens.Some?
    || e.costUsd.Some?
  }

  function BucketAt<K>(pending: map<K, Bucket>, key: K): Bucket { if key in pending then pending[key] else NO_BUCKET }

  function Bumped<K>(pending: map<K, Bucket>, key: K, u: Usage, cost: bool): map<K, Bucket> {
    pending[key := Bucket(Add(BucketAt(pending, key).total, u), BucketAt(pending, key).hasCost || cost)]
  }

  function Accumulated(pending: Pending, e: NormalizedEvent): Pending {
    if HasValue(e) then Bumped(pending, Name(e.model), UsageOf(e), e.costUsd.Some?) else pending
  }

  function AccumulatedAll(pending: Pending, events: seq<NormalizedEvent>): Pending
    decreases |events|
  {
    if events == [] then pending else AccumulatedAll(Accumulated(pending, events[0]), events[1..])
  }

  /** The buckets after the dropped ones of `events` were folded in. */
  function Harvested(t: Tables, pending: Pending, events: seq<NormalizedEvent>): Pending {
    AccumulatedAll(pending, Filter(Not(Keeps(t)), events))
  }

  // ---------- the buckets against the events ----------

  function TotalsOf<K>(pending: map<K, Bucket>): map<K, Usage> { map key | key in pending :: pending[key].total }

  ghost function PendingTotal<K>(pending: map<K, Bucket>): Usage { SumOver(TotalsOf(pending)) }

  /** A bucket that never saw a cost holds none. */
  ghost predicate CostsSound<K(!new)>(pending: map<K, Bucket>) {
    forall key :: key in pending && !pending[key].hasCost ==> pending[key].total.cost == 0.0
  }

  lemma BumpAdds<K(!new)>(pending: map<K, Bucket>, key: K, u: Usage, cost: bool)
    requires !cost ==> u.cost == 0.0
    ensures PendingTotal(Bumped(pending, key, u, cost)) == Add(PendingTotal(pending), u)
    ensures CostsSound(pending) ==> CostsSound(Bumped(pending, key, u, cost))
  {
    SumBumps(TotalsOf(pending), key, u);
    assert TotalsOf(Bumped(pending, key, u, cost)) == TotalsOf(pending)[key := Add(Held(TotalsOf(pending), key), u)];
  }

  lemma AddZero(a: Usage)
    ensures Add(a, ZERO) == a && Add(ZERO, a) == a
  {
  }

  function UsageIf(counts: bool, u: Usage): Usage { if counts then u else ZERO }

  lemma BumpOneKey<K>(pending: map<K, Bucket>, key: K, u: Usage, cost: bool, k: K)
    ensures BucketAt(Bumped(pending, key, u, cost), k).total ==
            Add(BucketAt(pending, k).total, UsageIf(key == k, u))
  {
    if key != k {
      AddZero(BucketAt(pending, k).total);
    }
  }

  lemma UsageWithoutValue(e: NormalizedEvent)
    ensures !HasValue(e) ==> UsageOf(e) == ZERO
    ensures e.costUsd.None? ==> UsageOf(e).cost == 0.0
  {
  }

  lemma AccumulatedOne(pending: Pending, e: NormalizedEvent)
    ensures PendingTotal(Accumulated(pending, e)) == Add(PendingTotal(pending), UsageOf(e))
    ensures CostsSound(pending) ==> CostsSound(Accumulated(pending, e))
  {
    UsageWithoutValue(e);
    if HasValue(e) {
      BumpAdds(pending, Name(e.model), UsageOf(e), e.costUsd.Some?);
    } else {
      AddZero(PendingTotal(pending));
    }
  }

  lemma AccumulatedKey(pending: Pending, e: NormalizedEvent, key: string)
    ensures BucketAt(Accumulated(pending, e), key).total ==
            Add(BucketAt(pending, key).total, UsageIf(Name(e.model) == key, UsageOf(e)))
  {
    if HasValue(e) {
      BumpOneKey(pending, Name(e.model), UsageOf(e), e.costUsd.Some?, key);
    } else {
      UsageWithoutValue(e);
      AddZero(BucketAt(pending, key).total);
    }
  }

  lemma ModelTotalOfHead(key: string, events: seq<NormalizedEvent>)
    requires events != []
    ensures ModelTotal(key, events) ==
              Add(UsageIf(Name(events[0].model) == key, UsageOf(events[0])), ModelTotal(key, events[1..]))
  {
    TotalOfHead(OfModel(key), events);
  }

  /** Nothing dropped is lost or counted twice. */
  lemma {:induction false} AccumulateConserves(pending: Pending, events: seq<NormalizedEvent>)
    ensures PendingTotal(AccumulatedAll(pending, events)) == Add(PendingTotal(pending), Total(events))
    ensures CostsSound(pending) ==> CostsSound(AccumulatedAll(pending, events))
    decreases |events|
  {
    if events == [] {
      AddZero(PendingTotal(pending));
    } else {
      AccumulatedOne(pending, events[0]);
      AccumulateConserves(Accumulated(pending, events[0]), events[1..]);
      AddRearranges(PendingTotal(pending), UsageOf(events[0]), Total(events[1..]));
    }
  }

  /** Nor does any of it go to another model's bucket. */
  lemma {:induction false} AccumulateConservesKey(pending: Pending, events: seq<NormalizedEvent>, key: string)
    ensures BucketAt(AccumulatedAll(pending, events), key).total ==
              Add(BucketAt(pending, key).total, ModelTotal(key, events))
    decreases |events|
  {
    var held := BucketAt(pending, key).total;
    if events == [] {
      AddZero(held);
    } else {
      var u := UsageIf(Name(events[0].model) == key, UsageOf(events[0]));
      AccumulatedKey(pending, events[0], key);
      AccumulateConservesKey(Accumulated(pending, events[0]), events[1..], key);
      ModelTotalOfHead(key, events);
      AddRearranges(held, u, ModelTotal(key, events[1..]));
    }
  }

  // ---------- rollup events ----------

  function NonZero(v: int): Option<int> { if v == 0 then None else Some(v) }

  function RollupEvent(model: string, b: Bucket, ts: int): NormalizedEvent {
    var t := b.total.tokens;
    NormalizedEvent(Some(ROLLUP_EVENT_NAME), Some(At(ts)), None, if model != "" then Some(model) else None, None,
                    if b.hasCost then Some(b.total.cost) else None,
                    NonZero(t.input), NonZero(t.output), NonZero(t.cacheRead), NonZero(t.cacheCreate), None, None)
  }

  function RollupsAt(pending: Pending, keys: seq<string>, ts: int): (r: seq<NormalizedEvent>)
    ensures |r| == |keys| && forall i :: 0 <= i < |r| ==> r[i] == RollupEvent(keys[i], BucketAt(pending, keys[i]), ts)
  {
    seq(|keys|, i requires 0 <= i < |keys| => RollupEvent(keys[i], BucketAt(pending, keys[i]), ts))
  }

  ghost predicate Lists<K(!new)>(keys: seq<K>, ids: set<K>) {
    Distinct(keys) && (forall i :: 0 <= i < |keys| ==> keys[i] in ids) && forall k :: k in ids ==> k in keys
  }

  /** One rollup per bucket, in whatever order the map yields them. */
  ghost predicate AreRollups(pending: Pending, rollups: seq<NormalizedEvent>, ts: int) {
    exists keys :: Lists(keys, pending.Keys) && rollups == RollupsAt(pending, keys, ts)
  }

  /** A rollup says which model it is for, what was used and when it was made, and nothing else. */
  ghost function AreTokenRollups(ts: int): seq<NormalizedEvent> -> bool {
    (rollups: seq<NormalizedEvent>) =>
      forall e :: e in rollups ==>
        e.eventName == Some("token_rollup") && e.timestamp == Some(At(ts)) && e.sessionId.None?
        && e.toolName.None? && e.errorMessage.None? && e.repo.None?
  }

  lemma RollupsAreNamed(pending: Pending, rollups: seq<NormalizedEvent>, ts: int)
    requires AreRollups(pending, rollups, ts)
    ensures AreTokenRollups(ts)(rollups)
  {
  }

  lemma RollupCarriesBucket(model: string, b: Bucket, ts: int)
    requires !b.hasCost ==> b.total.cost == 0.0
    ensures UsageOf(RollupEvent(model, b, ts)) == b.total && Name(RollupEvent(model, b, ts).model) == model
  {
  }

  /** Usages of listed keys, summed. */
  function SumAt<K>(m: map<K, Usage>, keys: seq<K>): Usage
  {
    if keys == [] then ZERO else Add(Held(m, keys[0]), SumAt(m, keys[1..]))
  }

  lemma {:induction false} SumAtAgrees<K>(m: map<K, Usage>, n: map<K, Usage>, keys: seq<K>)
    requires forall i :: 0 <= i < |keys| ==> Held(m, keys[i]) == Held(n, keys[i])
    ensures SumAt(m, keys) == SumAt(n, keys)
  {
    if keys != [] {
      SumAtAgrees(m, n, keys[1..]);
    }
  }

  lemma ListsTail<K(!new)>(keys: seq<K>, ids: set<K>)
    requires Lists(keys, ids) && keys != []
    ensures Lists(keys[1..], ids - {keys[0]})
  {
    assert keys == [keys[0]] + keys[1..];
  }

  lemma {:induction false} SumListed<K(!new)>(m: map<K, Usage>, keys: seq<K>)
    requires Lists(keys, m.Keys)
    ensures SumAt(m, keys) == SumOver(m)
    decreases |keys|
  {
    if keys == [] {
      assert m == map[];
    } else {
      var rest := m - {keys[0]};
      ListsTail(keys, m.Keys);
      assert rest.Keys == m.Keys - {keys[0]};
      SumListed(rest, keys[1..]);
      SumAtAgrees(m, rest, keys[1..]);
      SumTakesOut(m, keys[0]);
    }
  }

  lemma RollupsTail(pending: Pending, keys: seq<string>, ts: int)
    requires keys != []
    ensures RollupsAt(pending, keys, ts)[0] == RollupEvent(keys[0], BucketAt(pending, keys[0]), ts)
    ensures RollupsAt(pending, keys, ts)[1..] == RollupsAt(pending, keys[1..], ts)
  {
  }

  lemma {:induction false} ListedRollups(pending: Pending, keys: seq<string>, ts: int)
    requires CostsSound(pending)
    ensures Total(RollupsAt(pending, keys, ts)) == SumAt(TotalsOf(pending), keys)
    decreases |keys|
  {
    if keys != [] {
      RollupsTail(pending, keys, ts);
      RollupCarriesBucket(keys[0], BucketAt(pending, keys[0]), ts);
      ListedRollups(pending, keys[1..], ts);
    }
  }

  /** The usage listed under one key, counted as often as it is listed. */
  function ListedAt<K(==)>(m: map<K, Usage>, keys: seq<K>, key: K): Usage
  {
    if keys == [] then ZERO else Add(UsageIf(keys[0] == key, Held(m, keys[0])), ListedAt(m, keys[1..], key))
  }

  lemma {:induction false} ListedNever<K>(m: map<K, Usage>, keys: seq<K>, key: K)
    requires key !in keys
    ensures ListedAt(m, keys, key) == ZERO
    decreases |keys|
  {
    if keys != [] {
      ListedNever(m, keys[1..], key);
    }
  }

  lemma {:induction false} ListedOnce<K>(m: map<K, Usage>, keys: seq<K>, i: nat)
    requires i < |keys|
    requires forall j :: 0 <= j < |keys| && j != i ==> keys[j] != keys[i]
    ensures ListedAt(m, keys, keys[i]) == Held(m, keys[i])
    decreases |keys|
  {
    if i == 0 {
      ListedNever(m, keys[1..], keys[i]);
      AddZero(Held(m, keys[0]));
    } else {
      ListedOnce(m, keys[1..], i - 1);
      AddZero(Held(m, keys[i]));
    }
  }

  lemma RollupsOfKeyHead(pending: Pending, keys: seq<string>, ts: int, key: string)
    requires keys != [] && CostsSound(pending)
    ensures ModelTotal(key, RollupsAt(pending, keys, ts)) ==
            Add(UsageIf(keys[0] == key, BucketAt(pending, keys[0]).total),
                ModelTotal(key, RollupsAt(pending, keys[1..], ts)))
  {
    RollupsTail(pending, keys, ts);
    RollupCarriesBucket(keys[0], BucketAt(pending, keys[0]), ts);
    ModelTotalOfHead(key, RollupsAt(pending, keys, ts));
  }

  lemma NoRollups(pending: Pending, ts: int, key: string)
    ensures ModelTotal(key, RollupsAt(pending, [], ts)) == ZERO
  {
    assert RollupsAt(pending, [], ts) == [];
  }

  ghost predicate CountsListed<K(!new)>(f: seq<K> -> Usage, m: map<K, Usage>, key: K) {
    && f([]) == ZERO
    && forall keys: seq<K> :: keys != [] ==> f(keys) == Add(UsageIf(keys[0] == key, Held(m, keys[0])), f(keys[1..]))
  }

  lemma {:induction false} CountedAsListed<K(!new)>(f: seq<K> -> Usage, m: map<K, Usage>, keys: seq<K>, key: K)
    requires CountsListed(f, m, key)
    ensures f(keys) == ListedAt(m, keys, key)
    decreases |keys|
  {
    if keys != [] {
      CountedAsListed(f, m, keys[1..], key);
    }
  }

  function KeyOfRollups(pending: Pending, ts: int, key: string): seq<string> -> Usage {
    (keys: seq<string>) => ModelTotal(key, RollupsAt(pending, keys, ts))
  }

  lemma RollupsOfKey(pending: Pending, keys: seq<string>, ts: int, key: string)
    requires CostsSound(pending)
    ensures ModelTotal(key, RollupsAt(pending, keys, ts)) == ListedAt(TotalsOf(pending), keys, key)
  {
    var f := KeyOfRollups(pending, ts, key);
    NoRollups(pending, ts, key);
    forall ks: seq<string> | ks != []
      ensures f(ks) == Add(UsageIf(ks[0] == key, Held(TotalsOf(pending), ks[0])), f(ks[1..])) {
      RollupsOfKeyHead(pending, ks, ts, key);
    }
    CountedAsListed(f, TotalsOf(pending), keys, key);
  }

  /** Flushing moves the buckets into events of the same total, model by model. */
  lemma RollupsConserve(pending: Pending, rollups: seq<NormalizedEvent>, ts: int, key: string)
    requires AreRollups(pending, rollups, ts) && CostsSound(pending)
    ensures Total(rollups) == PendingTotal(pending) && ModelTotal(key, rollups) == BucketAt(pending, key).total
  {
    var keys :| Lists(keys, pending.Keys) && rollups == RollupsAt(pending, keys, ts);
    ListedRollups(pending, keys, ts);
    SumListed(TotalsOf(pending), keys);
    RollupsOfKey(pending, keys, ts, key);
    if key in pending {
      assert key in keys;
      var i :| 0 <= i < |keys| && keys[i] == key;
      ListedOnce(TotalsOf(pending), keys, i);
    } else {
      ListedNever(TotalsOf(pending), keys, key);
    }
  }

  /** Kept events plus what the buckets gained is what came in: in total and per model key. */
  lemma ApplyConserves(t: Tables, pending: Pending, events: seq<NormalizedEvent>, key: string)
    ensures var p := Harvested(t, pending, events);
            && Add(PendingTotal(p), Total(Filter(Keeps(t), events))) == Add(PendingTotal(pending), Total(events))
            && Add(BucketAt(p, key).total, ModelTotal(key, Filter(Keeps(t), events)))
               == Add(BucketAt(pending, key).total, ModelTotal(key, events))
  {
    var kept, dropped := Filter(Keeps(t), events), Filter(Not(Keeps(t)), events);
    AccumulateConserves(pending, dropped);
    AccumulateConservesKey(pending, dropped, key);
    TotalSplits(Keeps(t), events);
    ModelTotalSplits(Keeps(t), key, events);
    Moves(PendingTotal(pending), Total(kept), Total(dropped));
    Moves(BucketAt(pending, key).total, ModelTotal(key, kept), ModelTotal(key, dropped));
  }

  lemma HarvestIsSound(t: Tables, pending: Pending, events: seq<NormalizedEvent>)
    requires CostsSound(pending)
    ensures CostsSound(Harvested(t, pending, events))
  {
    AccumulateConserves(pending, Filter(Not(Keeps(t)), events));
  }

  lemma Moves(u: Usage, a: Usage, b: Usage)
    ensures Add(Add(u, b), a) == Add(u, Add(a, b))
  {
  }

  lemma ModelTotalSplits(p: NormalizedEvent -> bool, key: string, events: seq<NormalizedEvent>)
    ensures Add(ModelTotal(key, Filter(p, events)), ModelTotal(key, Filter(Not(p), events))) == ModelTotal(key, events)
  {
    FilterCommutes(OfModel(key), p, events);
    FilterCommutes(OfModel(key), Not(p), events);
    TotalSplits(p, Filter(OfModel(key), events));
  }

  // ---------- the filter ----------

  class EventFilter {
    const tables: Tables
    var pending: Pending
    var stats: Stats

    ghost predicate Valid()
      reads this
    {
      CostsSound(pending)
    }

    constructor (extraKeep: set<string>, extraDrop: set<string>)
      ensures Valid() && pending == map[] && stats == Stats(0, 0, 0)
      ensures tables.keep ==
              {"sse_event", "tool_result", "tool_decision", "hook_execution_start", "hook_execution_complete",
               "api_error", "api_retries_exhausted", "compaction"} + extraKeep
      ensures tables.drop == {"websocket_event"} + extraDrop
    {
      tables := Tables(KEEP_FAMILIES + extraKeep, DROP_FAMILIES + extraDrop);
      pending := map[];
      stats := Stats(0, 0, 0);
    }

    /** The events to upload, in order; the others' totals go to their model's bucket. */
    method Apply(events: seq<NormalizedEvent>) returns (kept: seq<NormalizedEvent>)
      requires Valid()
      modifies this
      ensures Valid()
      ensures AreKept(tables, events)(kept) && kept == Filter(Keeps(tables), events)
      ensures pending == Harvested(tables, old(pending), events)
      ensures stats ==
                old(stats).(kept := old(stats).kept + |kept|, filtered := old(stats).filtered + |events| - |kept|)
    {
      kept := [];
      for i := 0 to |events|
        invariant kept == Filter(Keeps(tables), events[..i])
        invariant pending == Harvested(tables, old(pending), events[..i])
        invariant stats == old(stats).(kept := old(stats).kept + |kept|, filtered := old(stats).filtered + i - |kept|)
      {
        OneMore(tables, old(pending), events, i);
        if ShouldKeep(tables, Name(events[i].eventName)) {
          kept := kept + [events[i]];
          stats := stats.(kept := stats.kept + 1);
          continue;
        }
        stats := stats.(filtered := stats.filtered + 1);
        Accumulate(events[i]);
      }
      assert events[..|events|] == events;
      KeptAreKept(tables, events);
      HarvestIsSound(tables, old(pending), events);
    }

    method Accumulate(e: NormalizedEvent)
      modifies this`pending
      ensures pending == Accumulated(old(pending), e)
    {
      if !HasValue(e) {
        return;
      }
      var key := Name(e.model);
      var b := if key in pending then pending[key] else NO_BUCKET;
      var t := b.total.tokens;
      t := Tokens(t.input + Deref(e.inputTokens), t.output + Deref(e.outputTokens),
                  t.cacheRead + Deref(e.cacheReadTokens), t.cacheCreate + Deref(e.cacheCreateTokens));
      b := Bucket(Usage(t, b.total.cost), b.hasCost);
      if e.costUsd.Some? {
        b := Bucket(Usage(t, b.total.cost + e.costUsd.value), true);
      }
      pending := pending[key := b];
    }

    /** Drain the buckets into one rollup event each. */
    method Flush(now: Time) returns (out: seq<NormalizedEvent>)
      requires Valid()
      modifies this
      ensures Valid() && pending == map[]
      ensures AreRollups(old(pending), out, now / SECOND * SECOND)
      ensures AreTokenRollups(now / 1_000_000_000 * 1_000_000_000)(out)
      ensures stats == old(stats).(rollups := old(stats).rollups + |old(pending)|)
    {
      var ts := now / SECOND * SECOND;
      out := [];
      var left := pending;
      ghost var keys: seq<string> := [];
      while left != map[]
        invariant pending == old(pending) && left.Keys <= pending.Keys
        invariant Lists(keys, pending.Keys - left.Keys)
        invariant out == RollupsAt(pending, keys, ts)
        invariant stats == old(stats).(rollups := old(stats).rollups + |pending| - |left|)
        decreases |left|
      {
        var model :| model in left;
        out := out + [RollupEvent(model, pending[model], ts)];
        keys := keys + [model];
        stats := stats.(rollups := stats.rollups + 1);
        OneFewer(left, model);
        left := left - {model};
      }
      pending := map[];
      assert Lists(keys, old(pending).Keys);
      RollupsAreNamed(old(pending), out, ts);
    }
  }

  lemma OneFewer(m: Pending, k: string)
    requires k in m
    ensures |m - {k}| == |m| - 1
  {
    assert (m - {k}).Keys == m.Keys - {k};
  }

  lemma FilterOneMore(p: NormalizedEvent -> bool, events: seq<NormalizedEvent>, i: nat)
    requires i < |events|
    ensures Filter(p, events[..i + 1]) == Filter(p, events[..i]) + if p(events[i]) then [events[i]] else []
  {
    assert events[..i + 1] == events[..i] + [events[i]];
    FilterConcat(p, events[..i], [events[i]]);
    FilterOfHead(p, [events[i]]);
  }

  lemma OneMore(t: Tables, pending: Pending, events: seq<NormalizedEvent>, i: nat)
    requires i < |events|
    ensures ShouldKeep(t, Name(events[i].eventName)) ==>
              && Filter(Keeps(t), events[..i + 1]) == Filter(Keeps(t), events[..i]) + [events[i]]
              && Harvested(t, pending, events[..i + 1]) == Harvested(t, pending, events[..i])
    ensures !ShouldKeep(t, Name(events[i].eventName)) ==>
              && Filter(Keeps(t), events[..i + 1]) == Filter(Keeps(t), events[..i])
              && Harvested(t, pending, events[..i + 1]) == Accumulated(Harvested(t, pending, events[..i]), events[i])
  {
    FilterOneMore(Keeps(t), events, i);
    FilterOneMore(Not(Keeps(t)), events, i);
    var kept, dropped := Filter(Keeps(t), events[..i]), Filter(Not(Keeps(t)), events[..i]);
    assert kept + [] == kept && dropped + [] == dropped;
    AccumulatedLast(pending, dropped, events[i]);
  }

  lemma {:induction false} AccumulatedLast(pending: Pending, events: seq<NormalizedEvent>, e: NormalizedEvent)
    ensures AccumulatedAll(pending, events + [e]) == Accumulated(AccumulatedAll(pending, events), e)
    decreases |events|
  {
    if events == [] {
      assert [] + [e] == [e];
      assert [e][1..] == [];
    } else {
      assert (events + [e])[1..] == events[1..] + [e];
      AccumulatedLast(Accumulated(pending, events[0]), events[1..], e);
    }
  }
}
