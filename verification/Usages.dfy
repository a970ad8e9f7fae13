/** Token and cost totals of events, and sums of them over sequences and maps. */
module Usages {
  import opened Seqs
  import opened Api

  /** The four token counters. */
  datatype Tokens = Tokens(input: int, output: int, cacheRead: int, cacheCreate: int)

  datatype Usage = Usage(tokens: Tokens, cost: real)

  const NO_TOKENS := Tokens(0, 0, 0, 0)

  const ZERO := Usage(NO_TOKENS, 0.0)

  function Plus(a: Tokens, b: Tokens): Tokens {
    Tokens(a.input + b.input, a.output + b.output, a.cacheRead + b.cacheRead, a.cacheCreate + b.cacheCreate)
  }

  function Add(a: Usage, b: Usage): Usage { Usage(Plus(a.tokens, b.tokens), a.cost + b.cost) }

  function Deref(v: Option<int>): int { if v.None? then 0 else v.value }

  function DerefCost(v: Option<real>): real { if v.None? then 0.0 else v.value }

  function TokensOf(e: NormalizedEvent): Tokens {
    Tokens(Deref(e.inputTokens), Deref(e.outputTokens), Deref(e.cacheReadTokens), Deref(e.cacheCreateTokens))
  }

  function UsageOf(e: NormalizedEvent): Usage { Usage(TokensOf(e), DerefCost(e.costUsd)) }

  function Total(events: seq<NormalizedEvent>): Usage {
    if events == [] then ZERO else Add(UsageOf(events[0]), Total(events[1..]))
  }

  lemma TotalConcat(a: seq<NormalizedEvent>, b: seq<NormalizedEvent>)
    ensures Total(a + b) == Add(Total(a), Total(b))
  {
    if a == [] {
      assert a + b == b;
    } else {
      assert (a + b)[1..] == a[1..] + b;
      TotalConcat(a[1..], b);
    }
  }

  lemma AddRearranges(u: Usage, a: Usage, b: Usage)
    ensures Add(Add(u, a), b) == Add(u, Add(a, b)) && Add(a, Add(u, b)) == Add(u, Add(a, b))
    ensures Add(ZERO, a) == a && Add(a, ZERO) == a
  {
  }

  /** Splitting events by a predicate splits their total. */
  lemma {:induction false} TotalSplits(p: NormalizedEvent -> bool, events: seq<NormalizedEvent>)
    ensures Add(Total(Filter(p, events)), Total(Filter(Not(p), events))) == Total(events)
    decreases events
  {
    if events == [] {
      assert Filter(p, events) == [] && Filter(Not(p), events) == [];
    } else {
      TotalSplits(p, events[1..]);
      TotalSplitsStep(p, events);
    }
  }

  lemma {:induction false} TotalSplitsStep(p: NormalizedEvent -> bool, events: seq<NormalizedEvent>)
    requires events != []
    requires Add(Total(Filter(p, events[1..])), Total(Filter(Not(p), events[1..]))) == Total(events[1..])
    ensures Add(Total(Filter(p, events)), Total(Filter(Not(p), events))) == Total(events)
  {
    TotalOfHead(p, events);
    TotalOfHead(Not(p), events);
    var u, a, b := UsageOf(events[0]), Total(Filter(p, events[1..])), Total(Filter(Not(p), events[1..]));
    HeadGoesOneWay(if p(events[0]) then u else ZERO, if p(events[0]) then ZERO else u, u, a, b);
  }

  lemma HeadGoesOneWay(x: Usage, y: Usage, u: Usage, a: Usage, b: Usage)
    requires (x == u && y == ZERO) || (x == ZERO && y == u)
    ensures Add(Add(x, a), Add(y, b)) == Add(u, Add(a, b))
  {
  }

  lemma {:induction false} TotalOfHead(p: NormalizedEvent -> bool, events: seq<NormalizedEvent>)
    requires events != []
    ensures Total(Filter(p, events)) ==
              Add(if p(events[0]) then UsageOf(events[0]) else ZERO, Total(Filter(p, events[1..])))
  {
    TotalConcat(if p(events[0]) then [events[0]] else [], Filter(p, events[1..]));
    assert Total([events[0]]) == UsageOf(events[0]);
  }

  /** One event may be counted first, wherever it stands. */
  lemma TotalTakesOut(b: seq<NormalizedEvent>, i: nat)
    requires i < |b|
    ensures Total(b) == Add(UsageOf(b[i]), Total(b[..i] + b[i + 1..]))
  {
    assert b == b[..i] + b[i..];
    TotalConcat(b[..i], b[i..]);
    TotalConcat(b[..i], b[i + 1..]);
  }

  /** The total does not depend on the order of the events. */
  lemma {:induction false} TotalOfPermutation(a: seq<NormalizedEvent>, b: seq<NormalizedEvent>)
    requires multiset(a) == multiset(b)
    ensures Total(a) == Total(b)
  {
    if a == [] {
      assert |multiset(b)| == 0;
    } else {
      assert a[0] in multiset(b);
      var i :| 0 <= i < |b| && b[i] == a[0];
      TotalTakesOut(b, i);
      RestOfPermutation(a, b, i);
      TotalOfPermutation(a[1..], b[..i] + b[i + 1..]);
    }
  }

  lemma RestOfPermutation<T>(a: seq<T>, b: seq<T>, i: nat)
    requires multiset(a) == multiset(b) && a != [] && i < |b| && b[i] == a[0]
    ensures multiset(a[1..]) == multiset(b[..i] + b[i + 1..])
  {
    assert a == [a[0]] + a[1..] && b == b[..i] + [b[i]] + b[i + 1..];
    assert multiset(a[1..]) == multiset(a) - multiset{a[0]};
    assert multiset(b[..i] + b[i + 1..]) == multiset(b) - multiset{b[i]};
  }

  function Name(v: Option<string>): string { if v.None? then "" else v.value }

  /** Events of one rollup key: a missing model and the empty one share the key "". */
  function OfModel(key: string): NormalizedEvent -> bool { (e: NormalizedEvent) => Name(e.model) == key }

  function ModelTotal(key: string, events: seq<NormalizedEvent>): Usage { Total(Filter(OfModel(key), events)) }

  lemma ModelTotalConcat(key: string, a: seq<NormalizedEvent>, b: seq<NormalizedEvent>)
    ensures ModelTotal(key, a + b) == Add(ModelTotal(key, a), ModelTotal(key, b))
  {
    FilterConcat(OfModel(key), a, b);
    TotalConcat(Filter(OfModel(key), a), Filter(OfModel(key), b));
  }

  // ---------- sums over maps ----------

  ghost function SumOver<K>(m: map<K, Usage>): Usage {
    if m == map[] then ZERO else
      var k :| k in m;
      Add(m[k], SumOver(m - {k}))
  }

  /** Any key may be taken out first. */
  lemma {:induction false} SumTakesOut<K>(m: map<K, Usage>, k: K)
    requires k in m
    ensures SumOver(m) == Add(m[k], SumOver(m - {k}))
    decreases m
  {
    var c :| c in m && SumOver(m) == Add(m[c], SumOver(m - {c}));
    if c != k {
      SumTakesOut(m - {c}, k);
      SumTakesOut(m - {k}, c);
      var rest := m - {c} - {k};
      assert rest == m - {k} - {c};
      assert SumOver(m) == Add(m[c], Add(m[k], SumOver(rest)));
      assert SumOver(m - {k}) == Add(m[c], SumOver(rest));
    }
  }

  lemma SumUpdates<K>(m: map<K, Usage>, k: K, u: Usage)
    ensures SumOver(m[k := u]) == Add(u, SumOver(m - {k}))
    ensures k !in m ==> m - {k} == m
  {
    SumTakesOut(m[k := u], k);
    assert m[k := u] - {k} == m - {k};
  }

  /** What the map holds under `k`, nothing when absent. */
  function Held<K>(m: map<K, Usage>, k: K): Usage { if k in m then m[k] else ZERO }

  lemma SumBumps<K>(m: map<K, Usage>, k: K, u: Usage)
    ensures SumOver(m[k := Add(Held(m, k), u)]) == Add(SumOver(m), u)
  {
    var rest := SumOver(m - {k});
    SumUpdates(m, k, Add(Held(m, k), u));
    if k in m {
      SumTakesOut(m, k);
      AddRearranges(m[k], rest, u);
      AddRearranges(m[k], u, rest);
      assert Add(rest, u) == Add(u, rest);
    } else {
      AddRearranges(ZERO, u, rest);
    }
  }
}
