/** The log pipeline of internal/daemon/daemon.go: concurrent handlers share the noise filter, the
    session store and the queue, each of which takes one lock per call. */
module Daemon {
  import opened Seqs
  import opened Strings
  import opened Api
  import opened Runs
  import opened Usages
  import opened Sessions
  import opened SessionQueue
  import opened NoiseFilter
  import EventQueue

  const ROLLUP_INTERVAL: Time := 60 * SECOND

  // ---------- interleaved handlers ----------

  /** Where one handler stands between two locked calls. */
  datatype Handler =
    | Filtered(events: seq<NormalizedEvent>, kept: seq<NormalizedEvent>)
    | Folded(kept: seq<NormalizedEvent>)
    | Due(kept: seq<NormalizedEvent>)
    | Ready(batch: seq<NormalizedEvent>)

  datatype World = World(
    tables: Tables,
    pending: Pending,
    lastRollup: Time,
    sessions: Table,
    handlers: map<nat, Handler>,
    // history
    applied: seq<NormalizedEvent>,    // went through the filter
    folded: seq<NormalizedEvent>,     // merged into session summaries
    unfolded: seq<NormalizedEvent>,   // their session transaction failed
    contributed: map<string, Usage>,  // what merging added to each session
    enqueued: seq<NormalizedEvent>,
    lost: seq<NormalizedEvent>)       // their insert transaction failed

  datatype Step =
    | Apply(h: nat, events: seq<NormalizedEvent>)
    | Fold(h: nat, after: Table)
    | FoldFails(h: nat)
    | CheckDue(h: nat, now: Time, stampedAt: Time)
    | Flush(h: nat, ts: int, rollups: seq<NormalizedEvent>)
    | DrainFlush(h: nat, ts: int, rollups: seq<NormalizedEvent>)
    | Enqueue(h: nat)
    | EnqueueFails(h: nat)
    | SessionsMove(after: Table)      // leases, acks, the cap and pruning

  function Start(tables: Tables, sessions: Table, now: Time): World {
    World(tables, map[], now, sessions, map[], [], [], [], map[], [], [])
  }

  /** Leasing, acking, capping and pruning may drop rows but never touch a stored summary. */
  ghost predicate KeepsSummaries(before: Table, after: Table) {
    forall sid :: sid in after ==> sid in before && after[sid].summary == before[sid].summary
  }

  function Sub(a: Usage, b: Usage): Usage {
    Usage(Tokens(a.tokens.input - b.tokens.input, a.tokens.output - b.tokens.output,
                 a.tokens.cacheRead - b.tokens.cacheRead, a.tokens.cacheCreate - b.tokens.cacheCreate), a.cost - b.cost)
  }

  /** What a fold added to the totals a session carries. */
  function Gains(before: Table, after: Table, ids: set<string>): map<string, Usage> {
    map sid | sid in ids :: Sub(Carried(PriorSummary(after, sid)), Carried(PriorSummary(before, sid)))
  }

  /** `m` with every amount of `g` added. */
  function Topped<K>(m: map<K, Usage>, g: map<K, Usage>): map<K, Usage> { m + map k | k in g :: Add(Held(m, k), g[k]) }

  function SessionTotal(events: seq<NormalizedEvent>): string -> Usage {
    (sid: string) => Total(Filter(OfSession(sid), events))
  }

  function Tabulate<K>(f: K -> Usage, ids: set<K>): map<K, Usage> { map k | k in ids :: f(k) }

  /** What the listed sessions' groups bring. */
  ghost function GroupTotals(ids: set<string>, events: seq<NormalizedEvent>): map<string, Usage> {
    Tabulate(SessionTotal(events), ids)
  }

  /** A session upsert, as far as totals go: each session of the batch gains its events' usage. */
  ghost predicate Folds(before: Table, after: Table, events: seq<NormalizedEvent>) {
    && after.Keys == before.Keys + SessionIds(events)
    && (forall sid :: sid in before && sid !in SessionIds(events) ==> after[sid] == before[sid])
    && Gains(before, after, SessionIds(events)) == GroupTotals(SessionIds(events), events)
  }

  ghost predicate Enabled(w: World, s: Step) {
    match s
    case Apply(h, _) => h !in w.handlers
    case Fold(h, after) => h in w.handlers && w.handlers[h].Filtered? && Folds(w.sessions, after, w.handlers[h].events)
    case FoldFails(h) => h in w.handlers && w.handlers[h].Filtered?
    case CheckDue(h, _, _) => h in w.handlers && w.handlers[h].Folded?
    case Flush(h, ts, rollups) => h in w.handlers && w.handlers[h].Due? && AreRollups(w.pending, rollups, ts)
    case DrainFlush(h, ts, rollups) => h !in w.handlers && AreRollups(w.pending, rollups, ts)
    case Enqueue(h) => h in w.handlers && w.handlers[h].Ready?
    case EnqueueFails(h) => h in w.handlers && w.handlers[h].Ready?
    case SessionsMove(after) => KeepsSummaries(w.sessions, after)
  }

  ghost function Next(w: World, s: Step): World
    requires Enabled(w, s)
  {
    match s
    case Apply(h, events) =>
      w.(handlers := w.handlers[h := Filtered(events, Filter(Keeps(w.tables), events))],
         pending := Harvested(w.tables, w.pending, events), applied := w.applied + events)
    case Fold(h, after) =>
      var events := w.handlers[h].events;
      w.(handlers := w.handlers[h := Folded(w.handlers[h].kept)], sessions := after, folded := w.folded + events,
         contributed := Topped(w.contributed, Gains(w.sessions, after, SessionIds(events))))
    case FoldFails(h) =>
      w.(handlers := w.handlers[h := Folded(w.handlers[h].kept)], unfolded := w.unfolded + w.handlers[h].events)
    case CheckDue(h, now, stampedAt) =>
      if now - w.lastRollup < ROLLUP_INTERVAL then w.(handlers := w.handlers[h := Ready(w.handlers[h].kept)])
      else w.(handlers := w.handlers[h := Due(w.handlers[h].kept)], lastRollup := stampedAt)
    case Flush(h, _, rollups) =>
      w.(handlers := w.handlers[h := Ready(w.handlers[h].kept + rollups)], pending := map[])
    case DrainFlush(h, _, rollups) => w.(handlers := w.handlers[h := Ready(rollups)], pending := map[])
    case Enqueue(h) => w.(handlers := w.handlers - {h}, enqueued := w.enqueued + w.handlers[h].batch)
    case EnqueueFails(h) => w.(handlers := w.handlers - {h}, lost := w.lost + w.handlers[h].batch)
    case SessionsMove(after) => w.(sessions := after)
  }

  ghost predicate Steps(w: World, s: Step, w': World) { Enabled(w, s) && w' == Next(w, s) }

  // ---------- counters ----------

  datatype Counter = Input | Output | CacheRead | CacheCreate | Cost

  function Pick(c: Counter, u: Usage): real {
    match c
    case Input => u.tokens.input as real
    case Output => u.tokens.output as real
    case CacheRead => u.tokens.cacheRead as real
    case CacheCreate => u.tokens.cacheCreate as real
    case Cost => u.cost
  }

  lemma PickAdds(c: Counter, a: Usage, b: Usage)
    ensures Pick(c, Add(a, b)) == Pick(c, a) + Pick(c, b) && Pick(c, ZERO) == 0.0
  {
  }

  lemma SameCounters(a: Usage, b: Usage)
    requires forall c: Counter :: Pick(c, a) == Pick(c, b)
    ensures a == b
  {
    assert Pick(Input, a) == Pick(Input, b) && Pick(Output, a) == Pick(Output, b)
           && Pick(CacheRead, a) == Pick(CacheRead, b);
    assert Pick(CacheCreate, a) == Pick(CacheCreate, b) && Pick(Cost, a) == Pick(Cost, b);
  }

  // ---------- sums over handlers ----------

  ghost function Sum(m: map<nat, real>): real {
    if m == map[] then 0.0 else
      var k :| k in m;
      m[k] + Sum(m - {k})
  }

  lemma {:induction false} SumTakes(m: map<nat, real>, k: nat)
    requires k in m
    ensures Sum(m) == m[k] + Sum(m - {k})
    decreases m
  {
    var c :| c in m && Sum(m) == m[c] + Sum(m - {c});
    if c != k {
      SumTakes(m - {c}, k);
      SumTakes(m - {k}, c);
      assert m - {c} - {k} == m - {k} - {c};
    }
  }

  function Tally(f: Handler -> real, handlers: map<nat, Handler>): map<nat, real> {
    map h | h in handlers :: f(handlers[h])
  }

  ghost function HandSum(f: Handler -> real, handlers: map<nat, Handler>): real { Sum(Tally(f, handlers)) }

  lemma SumMoves(f: Handler -> real, handlers: map<nat, Handler>, h: nat, state: Handler)
    ensures HandSum(f, handlers[h := state]) == f(state) + HandSum(f, handlers - {h})
  {
    SumTakes(Tally(f, handlers[h := state]), h);
    assert Tally(f, handlers[h := state]) - {h} == Tally(f, handlers - {h});
  }

  lemma SumLeaves(f: Handler -> real, handlers: map<nat, Handler>, h: nat)
    ensures h in handlers ==> HandSum(f, handlers) == f(handlers[h]) + HandSum(f, handlers - {h})
    ensures h !in handlers ==> handlers - {h} == handlers
  {
    if h in handlers {
      SumTakes(Tally(f, handlers), h);
      assert Tally(f, handlers - {h}) == Tally(f, handlers) - {h};
    }
  }

  // ---------- the queue side ----------

  /** One amount that events and buckets carry. */
  datatype Measure = Measure(amount: seq<NormalizedEvent> -> real, held: Pending -> real)

  /** The filter neither loses nor doubles it. */
  ghost predicate Fair(m: Measure) {
    && m.amount([]) == 0.0 && m.held(map[]) == 0.0
    && (forall a, b :: m.amount(a + b) == m.amount(a) + m.amount(b))
    && (forall t, p, events ::
          m.held(Harvested(t, p, events)) + m.amount(Filter(Keeps(t), events)) == m.held(p) + m.amount(events))
    && (forall p, rollups, ts :: AreRollups(p, rollups, ts) && CostsSound(p) ==> m.amount(rollups) == m.held(p))
  }

  /** Events a handler still holds for the queue. */
  function InHand(h: Handler): seq<NormalizedEvent> { if h.Ready? then h.batch else h.kept }

  function HandAmount(m: Measure): Handler -> real { (h: Handler) => m.amount(InHand(h)) }

  ghost predicate Conserved(m: Measure, w: World) {
    m.amount(w.enqueued) + m.amount(w.lost) + m.held(w.pending)
    + HandSum(HandAmount(m), w.handlers) == m.amount(w.applied)
  }

  lemma HandIs(m: Measure, h: Handler)
    ensures HandAmount(m)(h) == m.amount(InHand(h)) && FoldAmount(m)(h) == m.amount(ToFold(h))
  {
  }

  /** A handler moves on. */
  lemma HandStep(m: Measure, handlers: map<nat, Handler>, h: nat, state: Handler)
    ensures HandSum(HandAmount(m), handlers[h := state]) - HandSum(HandAmount(m), handlers) ==
            m.amount(InHand(state)) - if h in handlers then m.amount(InHand(handlers[h])) else 0.0
  {
    SumMoves(HandAmount(m), handlers, h, state);
    SumLeaves(HandAmount(m), handlers, h);
  }

  lemma ConcatAmount(m: Measure, a: seq<NormalizedEvent>, b: seq<NormalizedEvent>)
    requires Fair(m)
    ensures m.amount(a + b) == m.amount(a) + m.amount(b)
  {
  }

  lemma ApplyAmount(m: Measure, t: Tables, p: Pending, events: seq<NormalizedEvent>)
    requires Fair(m)
    ensures m.held(Harvested(t, p, events)) + m.amount(Filter(Keeps(t), events)) == m.held(p) + m.amount(events)
  {
  }

  lemma FlushAmount(m: Measure, p: Pending, rollups: seq<NormalizedEvent>, ts: int)
    requires Fair(m) && AreRollups(p, rollups, ts) && CostsSound(p)
    ensures m.amount(rollups) == m.held(p) && m.held(map[]) == 0.0
  {
  }

  lemma ApplyConserves(m: Measure, w: World, s: Step, w': World)
    requires Fair(m) && Conserved(m, w) && s.Apply? && Steps(w, s, w')
    ensures Conserved(m, w')
  {
    ApplyAmount(m, w.tables, w.pending, s.events);
    ConcatAmount(m, w.applied, s.events);
    HandStep(m, w.handlers, s.h, Filtered(s.events, Filter(Keeps(w.tables), s.events)));
  }

  lemma FlushConserves(m: Measure, w: World, s: Step, w': World)
    requires Fair(m) && Conserved(m, w) && CostsSound(w.pending) && (s.Flush? || s.DrainFlush?) && Steps(w, s, w')
    ensures Conserved(m, w')
  {
    FlushAmount(m, w.pending, s.rollups, s.ts);
    if s.Flush? {
      var kept := w.handlers[s.h].kept;
      ConcatAmount(m, kept, s.rollups);
      HandStep(m, w.handlers, s.h, Ready(kept + s.rollups));
    } else {
      HandStep(m, w.handlers, s.h, Ready(s.rollups));
    }
  }

  lemma EnqueueConserves(m: Measure, w: World, s: Step, w': World)
    requires Fair(m) && Conserved(m, w) && (s.Enqueue? || s.EnqueueFails?) && Steps(w, s, w')
    ensures Conserved(m, w')
  {
    ConcatAmount(m, w.enqueued, w.handlers[s.h].batch);
    ConcatAmount(m, w.lost, w.handlers[s.h].batch);
    SumLeaves(HandAmount(m), w.handlers, s.h);
    HandIs(m, w.handlers[s.h]);
  }

  /** Folding and finding no rollup due leave what is in hand. */
  lemma OtherConserves(m: Measure, w: World, s: Step, w': World)
    requires Conserved(m, w) && (s.Fold? || s.FoldFails? || s.CheckDue?) && Steps(w, s, w')
    ensures Conserved(m, w')
  {
    assert w'.handlers == w.handlers[s.h := w'.handlers[s.h]];
    HandStep(m, w.handlers, s.h, w'.handlers[s.h]);
  }

  lemma StepConserves(m: Measure, w: World, s: Step, w': World)
    requires Fair(m) && Conserved(m, w) && CostsSound(w.pending) && Steps(w, s, w')
    ensures Conserved(m, w')
  {
    match s
    case Apply(_, _) => ApplyConserves(m, w, s, w');
    case Flush(_, _, _) => FlushConserves(m, w, s, w');
    case DrainFlush(_, _, _) => FlushConserves(m, w, s, w');
    case Enqueue(_) => EnqueueConserves(m, w, s, w');
    case EnqueueFails(_) => EnqueueConserves(m, w, s, w');
    case SessionsMove(_) =>
    case _ => OtherConserves(m, w, s, w');
  }

  lemma StepKeepsCosts(w: World, s: Step, w': World)
    requires CostsSound(w.pending) && Steps(w, s, w')
    ensures CostsSound(w'.pending)
  {
    if s.Apply? {
      HarvestIsSound(w.tables, w.pending, s.events);
    }
  }

  // ---------- the session side ----------

  predicate Sessionless(e: NormalizedEvent) { !HasSession(e) }

  function NoSession(): NormalizedEvent -> bool { (e: NormalizedEvent) => Sessionless(e) }

  function ToFold(h: Handler): seq<NormalizedEvent> { if h.Filtered? then h.events else [] }

  function FoldAmount(m: Measure): Handler -> real { (h: Handler) => m.amount(ToFold(h)) }

  /** Every applied event is folded, failed to fold, or waits for its handler to fold it. */
  ghost predicate Accounted(m: Measure, w: World) {
    m.amount(w.folded) + m.amount(w.unfolded) + HandSum(FoldAmount(m), w.handlers) == m.amount(w.applied)
  }

  lemma FoldStep(m: Measure, handlers: map<nat, Handler>, h: nat, state: Handler)
    ensures HandSum(FoldAmount(m), handlers[h := state]) - HandSum(FoldAmount(m), handlers) ==
            m.amount(ToFold(state)) - if h in handlers then m.amount(ToFold(handlers[h])) else 0.0
  {
    SumMoves(FoldAmount(m), handlers, h, state);
    SumLeaves(FoldAmount(m), handlers, h);
  }

  lemma FoldAccounts(m: Measure, w: World, s: Step, w': World)
    requires Fair(m) && Accounted(m, w) && (s.Fold? || s.FoldFails?) && Steps(w, s, w')
    ensures Accounted(m, w')
  {
    ConcatAmount(m, w.folded, w.handlers[s.h].events);
    ConcatAmount(m, w.unfolded, w.handlers[s.h].events);
    FoldStep(m, w.handlers, s.h, Folded(w.handlers[s.h].kept));
  }

  lemma ApplyAccounts(m: Measure, w: World, s: Step, w': World)
    requires Fair(m) && Accounted(m, w) && s.Apply? && Steps(w, s, w')
    ensures Accounted(m, w')
  {
    ConcatAmount(m, w.applied, s.events);
    FoldStep(m, w.handlers, s.h, Filtered(s.events, Filter(Keeps(w.tables), s.events)));
  }

  lemma LeavingAccounts(m: Measure, w: World, s: Step, w': World)
    requires Fair(m) && Accounted(m, w) && (s.Enqueue? || s.EnqueueFails?) && Steps(w, s, w')
    ensures Accounted(m, w')
  {
    SumLeaves(FoldAmount(m), w.handlers, s.h);
    HandIs(m, w.handlers[s.h]);
  }

  lemma OtherAccounts(m: Measure, w: World, s: Step, w': World)
    requires Fair(m) && Accounted(m, w) && (s.CheckDue? || s.Flush? || s.DrainFlush?) && Steps(w, s, w')
    ensures Accounted(m, w')
  {
    assert w'.handlers == w.handlers[s.h := w'.handlers[s.h]];
    FoldStep(m, w.handlers, s.h, w'.handlers[s.h]);
  }

  lemma StepAccounts(m: Measure, w: World, s: Step, w': World)
    requires Fair(m) && Accounted(m, w) && Steps(w, s, w')
    ensures Accounted(m, w')
  {
    match s
    case Apply(_, _) => ApplyAccounts(m, w, s, w');
    case Fold(_, _) => FoldAccounts(m, w, s, w');
    case FoldFails(_) => FoldAccounts(m, w, s, w');
    case Enqueue(_) => LeavingAccounts(m, w, s, w');
    case EnqueueFails(_) => LeavingAccounts(m, w, s, w');
    case SessionsMove(_) =>
    case _ => OtherAccounts(m, w, s, w');
  }

  /** Folded usage is what sessions gained plus what had no session. */
  ghost predicate Credited(contributed: map<string, Usage>, folded: seq<NormalizedEvent>) {
    Add(SumOver(contributed), Total(Filter(NoSession(), folded))) == Total(folded)
  }

  lemma MergeCarries(r: Summary, s: Summary, sid: string, events: seq<NormalizedEvent>, now: Time)
    requires IsMerge(r, s, sid, events, now)
    ensures Carried(r) == Add(Carried(s), Total(events))
  {
    FoldedTotals(Opened(s, sid), events, now);
  }

  lemma ToppedOneMore<K>(m: map<K, Usage>, g: map<K, Usage>, k: K)
    requires k in g
    ensures Topped(m, g) == Topped(m, g - {k})[k := Add(Held(Topped(m, g - {k}), k), g[k])]
  {
  }

  lemma {:induction false} ToppedSum<K>(m: map<K, Usage>, g: map<K, Usage>)
    ensures SumOver(Topped(m, g)) == Add(SumOver(m), SumOver(g))
    decreases |g|
  {
    if g == map[] {
      assert Topped(m, g) == m;
      AddZero(SumOver(m));
    } else {
      var k :| k in g;
      assert (g - {k}).Keys == g.Keys - {k};
      ToppedSum(m, g - {k});
      ToppedOneMore(m, g, k);
      SumBumps(Topped(m, g - {k}), k, g[k]);
      SumTakesOut(g, k);
      Regroup(SumOver(m), SumOver(g - {k}), g[k]);
    }
  }

  lemma Regroup(a: Usage, b: Usage, c: Usage)
    ensures Add(Add(a, b), c) == Add(a, Add(c, b))
  {
  }

  lemma SubAdds(a: Usage, b: Usage)
    ensures Sub(Add(a, b), a) == b
  {
  }

  lemma FoldGain(before: Table, after: Table, ids: set<string>, groups: map<string, seq<NormalizedEvent>>, sid: string,
                 now: Time)
    requires FoldedIn(before, after, ids, Merging(before, groups, now), now) && sid in ids && sid in groups
    ensures Sub(Carried(PriorSummary(after, sid)), Carried(PriorSummary(before, sid))) == Total(groups[sid])
  {
    MergeCarries(after[sid].summary, PriorSummary(before, sid), sid, groups[sid], now);
    SubAdds(Carried(PriorSummary(before, sid)), Total(groups[sid]));
  }

  lemma GainsAre(before: Table, after: Table, gains: map<string, Usage>)
    requires forall sid :: sid in gains ==>
               Sub(Carried(PriorSummary(after, sid)), Carried(PriorSummary(before, sid))) == gains[sid]
    ensures Gains(before, after, gains.Keys) == gains
  {
  }

  lemma FoldContributes(before: Table, after: Table, groups: map<string, seq<NormalizedEvent>>, now: Time,
                        gains: map<string, Usage>)
    requires FoldedIn(before, after, groups.Keys, Merging(before, groups, now), now)
    requires gains.Keys == groups.Keys && forall sid :: sid in groups ==> gains[sid] == Total(groups[sid])
    ensures Gains(before, after, gains.Keys) == gains
  {
    forall sid | sid in gains
      ensures Sub(Carried(PriorSummary(after, sid)), Carried(PriorSummary(before, sid))) == gains[sid] {
      FoldGain(before, after, groups.Keys, groups, sid, now);
    }
    GainsAre(before, after, gains);
  }

  /** The store's transaction is such an upsert. */
  lemma UpsertFolds(before: Table, after: Table, events: seq<NormalizedEvent>, now: Time)
    requires FoldedIn(before, after, SessionIds(events), Merging(before, Groups(events), now), now)
    ensures Folds(before, after, events)
  {
    FoldContributes(before, after, Groups(events), now, GroupTotals(SessionIds(events), events));
  }

  // ---------- events split into sessions ----------

  lemma {:induction false} FilterTwice<T(!new)>(p: T -> bool, q: T -> bool, r: T -> bool, s: seq<T>)
    requires forall x :: r(x) <==> p(x) && q(x)
    ensures Filter(p, Filter(q, s)) == Filter(r, s)
  {
    if s != [] {
      FilterTwice(p, q, r, s[1..]);
      FilterConcat(p, if q(s[0]) then [s[0]] else [], Filter(q, s[1..]));
    }
  }

  lemma {:induction false} FilterAgrees<T(!new)>(p: T -> bool, q: T -> bool, s: seq<T>)
    requires forall x :: x in s ==> p(x) == q(x)
    ensures Filter(p, s) == Filter(q, s)
  {
    if s != [] {
      FilterAgrees(p, q, s[1..]);
    }
  }

  function Outside(ids: set<string>): NormalizedEvent -> bool {
    (e: NormalizedEvent) => e.sessionId.None? || e.sessionId.value !in ids
  }

  lemma OneSessionApart(ids: set<string>, sid: string, events: seq<NormalizedEvent>)
    requires sid !in ids
    ensures Add(Total(Filter(OfSession(sid), events)), Total(Filter(Outside(ids + {sid}), events))) ==
            Total(Filter(Outside(ids), events))
  {
    FilterTwice(OfSession(sid), Outside(ids), OfSession(sid), events);
    FilterTwice(Not(OfSession(sid)), Outside(ids), Outside(ids + {sid}), events);
    TotalSplits(OfSession(sid), Filter(Outside(ids), events));
  }

  lemma Repartition(all: Usage, groups: Usage, one: Usage, outside: Usage, outside': Usage)
    requires Add(groups, outside) == all && Add(one, outside') == outside
    ensures Add(Add(one, groups), outside') == all
  {
  }

  ghost predicate TakesShare<K>(f: K -> Usage, rest: set<K> -> Usage, s: set<K>, k: K) {
    Add(f(k), rest(s + {k})) == rest(s)
  }

  lemma ShareStep<K>(f: K -> Usage, rest: set<K> -> Usage, ids: set<K>, k: K)
    requires k in ids && TakesShare(f, rest, ids - {k}, k)
    requires Add(SumOver(Tabulate(f, ids - {k})), rest(ids - {k})) == rest({})
    ensures Add(SumOver(Tabulate(f, ids)), rest(ids)) == rest({})
  {
    var fewer := ids - {k};
    assert fewer + {k} == ids;
    SumTakesOut(Tabulate(f, ids), k);
    assert Tabulate(f, ids) - {k} == Tabulate(f, fewer);
    Repartition(rest({}), SumOver(Tabulate(f, fewer)), f(k), rest(fewer), rest(ids));
  }

  /** Taking keys out of `rest` one by one, each with its share. */
  lemma {:induction false} SharesAddUp<K(!new)>(f: K -> Usage, rest: set<K> -> Usage, ids: set<K>)
    requires forall s: set<K>, k: K :: k !in s ==> TakesShare(f, rest, s, k)
    ensures Add(SumOver(Tabulate(f, ids)), rest(ids)) == rest({})
    decreases |ids|
  {
    if ids == {} {
      assert Tabulate(f, ids) == map[];
      AddZero(rest({}));
    } else {
      var k :| k in ids;
      SharesAddUp(f, rest, ids - {k});
      assert TakesShare(f, rest, ids - {k}, k);
      ShareStep(f, rest, ids, k);
    }
  }

  function OutsideTotal(events: seq<NormalizedEvent>): set<string> -> Usage {
    (ids: set<string>) => Total(Filter(Outside(ids), events))
  }

  lemma GroupsAddUp(ids: set<string>, events: seq<NormalizedEvent>)
    ensures Add(SumOver(GroupTotals(ids, events)), Total(Filter(Outside(ids), events))) == Total(events)
  {
    forall s: set<string>, sid: string | sid !in s
      ensures TakesShare(SessionTotal(events), OutsideTotal(events), s, sid) {
      OneSessionApart(s, sid, events);
    }
    SharesAddUp(SessionTotal(events), OutsideTotal(events), ids);
    FilterAll(Outside({}), events);
  }

  /** Each event is counted in exactly one session, or in none when it names no session. */
  lemma SessionsPartition(events: seq<NormalizedEvent>)
    ensures Add(SumOver(GroupTotals(SessionIds(events), events)), Total(Filter(NoSession(), events))) == Total(events)
  {
    var ids := SessionIds(events);
    GroupsAddUp(ids, events);
    forall e | e in events ensures Outside(ids)(e) == NoSession()(e) {
      if e.sessionId.Some? && e.sessionId.value in ids {
        var e' :| e' in events && HasSession(e') && e'.sessionId.value == e.sessionId.value;
      }
    }
    FilterAgrees(Outside(ids), NoSession(), events);
  }

  lemma Credits(sum: Usage, none: Usage, gain: Usage, blank: Usage)
    ensures Add(Add(sum, gain), Add(none, blank)) == Add(Add(sum, none), Add(gain, blank))
  {
  }

  lemma TopCredits(contributed: map<string, Usage>, folded: seq<NormalizedEvent>, events: seq<NormalizedEvent>)
    requires Credited(contributed, folded)
    ensures Credited(Topped(contributed, GroupTotals(SessionIds(events), events)), folded + events)
  {
    ToppedSum(contributed, GroupTotals(SessionIds(events), events));
    SessionsPartition(events);
    FilterConcat(NoSession(), folded, events);
    TotalConcat(Filter(NoSession(), folded), Filter(NoSession(), events));
    TotalConcat(folded, events);
    Credits(SumOver(contributed), Total(Filter(NoSession(), folded)), SumOver(GroupTotals(SessionIds(events), events)),
            Total(Filter(NoSession(), events)));
  }

  lemma HistoryGrows(w: World, s: Step, w': World)
    requires Steps(w, s, w')
    ensures !s.Fold? ==> w'.contributed == w.contributed && w'.folded == w.folded
    ensures s.Fold? ==>
              var events := w.handlers[s.h].events;
              && w'.folded == w.folded + events
              && w'.contributed == Topped(w.contributed, GroupTotals(SessionIds(events), events))
  {
  }

  lemma StepCredits(w: World, s: Step, w': World)
    requires Credited(w.contributed, w.folded) && Steps(w, s, w')
    ensures Credited(w'.contributed, w'.folded)
  {
    HistoryGrows(w, s, w');
    if s.Fold? {
      TopCredits(w.contributed, w.folded, w.handlers[s.h].events);
    }
  }

  // ---------- runs ----------

  ghost predicate Balanced(m: Measure, w: World) {
    Conserved(m, w) && CostsSound(w.pending) && Accounted(m, w) && Credited(w.contributed, w.folded)
  }

  lemma StepBalances(m: Measure, w: World, s: Step, w': World)
    requires Fair(m) && Balanced(m, w) && Steps(w, s, w')
    ensures Balanced(m, w')
  {
    StepConserves(m, w, s, w');
    StepKeepsCosts(w, s, w');
    StepAccounts(m, w, s, w');
    StepCredits(w, s, w');
  }

  ghost function CanStep(): (World, World) -> bool { (w: World, w': World) => exists s :: Steps(w, s, w') }

  ghost predicate IsStart(w: World) { w == Start(w.tables, w.sessions, w.lastRollup) }

  /** Any interleaving, from an empty history. */
  ghost predicate IsRun(ws: seq<World>) { |ws| > 0 && IsStart(ws[0]) && IsChain(CanStep(), ws) }

  /** One counter, of all events or of one rollup key. */
  ghost function Counted(c: Counter, key: Option<string>): Measure {
    if key.None? then
      Measure((events: seq<NormalizedEvent>) => Pick(c, Total(events)), (p: Pending) => Pick(c, PendingTotal(p)))
    else Measure((events: seq<NormalizedEvent>) => Pick(c, ModelTotal(key.value, events)),
                 (p: Pending) => Pick(c, BucketAt(p, key.value).total))
  }

  lemma CountedIsFair(c: Counter, key: Option<string>)
    ensures Fair(Counted(c, key))
  {
    var m, k := Counted(c, key), if key.Some? then key.value else "";
    var none: Pending := map[];
    assert TotalsOf(none) == map[];
    forall a, b ensures m.amount(a + b) == m.amount(a) + m.amount(b) {
      TotalConcat(a, b);
      ModelTotalConcat(k, a, b);
      PickAdds(c, Total(a), Total(b));
      PickAdds(c, ModelTotal(k, a), ModelTotal(k, b));
    }
    forall t, p, events
      ensures m.held(Harvested(t, p, events)) + m.amount(Filter(Keeps(t), events)) == m.held(p) + m.amount(events) {
      NoiseFilter.ApplyConserves(t, p, events, k);
      var p', kept := Harvested(t, p, events), Filter(Keeps(t), events);
      PickAdds(c, PendingTotal(p'), Total(kept));
      PickAdds(c, PendingTotal(p), Total(events));
      PickAdds(c, BucketAt(p', k).total, ModelTotal(k, kept));
      PickAdds(c, BucketAt(p, k).total, ModelTotal(k, events));
    }
    forall p, rollups, ts | AreRollups(p, rollups, ts) && CostsSound(p) ensures m.amount(rollups) == m.held(p) {
      RollupsConserve(p, rollups, ts, k);
    }
  }

  /** The counter's balance, as a predicate of states. */
  ghost function BalancedIn(c: Counter, key: Option<string>): World -> bool {
    (w: World) => Balanced(Counted(c, key), w)
  }

  lemma EmptyHands(m: Measure)
    ensures HandSum(HandAmount(m), map[]) == 0.0 && HandSum(FoldAmount(m), map[]) == 0.0
  {
    assert Tally(HandAmount(m), map[]) == map[] && Tally(FoldAmount(m), map[]) == map[];
  }

  lemma NothingCredited()
    ensures Credited(map[], [])
  {
    AddZero(ZERO);
  }

  lemma BalancedAtStart(m: Measure, tables: Tables, sessions: Table, now: Time)
    requires m.amount([]) == 0.0 && m.held(map[]) == 0.0
    ensures Balanced(m, Start(tables, sessions, now))
  {
    var w := Start(tables, sessions, now);
    assert m.held(w.pending) == 0.0;
    assert m.amount(w.enqueued) == 0.0 && m.amount(w.lost) == 0.0 && m.amount(w.applied) == 0.0;
    EmptyHands(m);
    NothingCredited();
  }

  lemma StartBalances(c: Counter, key: Option<string>, w: World)
    requires IsStart(w)
    ensures BalancedIn(c, key)(w)
  {
    CountedIsFair(c, key);
    BalancedAtStart(Counted(c, key), w.tables, w.sessions, w.lastRollup);
  }

  lemma StepStays(c: Counter, key: Option<string>, w: World, w': World)
    requires BalancedIn(c, key)(w) && CanStep()(w, w')
    ensures BalancedIn(c, key)(w')
  {
    var s :| Steps(w, s, w');
    CountedIsFair(c, key);
    StepBalances(Counted(c, key), w, s, w');
  }

  lemma StepsStay(c: Counter, key: Option<string>)
    ensures IsKept(CanStep(), BalancedIn(c, key))
  {
    forall w, w' | BalancedIn(c, key)(w) && CanStep()(w, w') ensures BalancedIn(c, key)(w') {
      StepStays(c, key, w, w');
    }
  }

  lemma RunBalances(ws: seq<World>, c: Counter, key: Option<string>, k: nat)
    requires IsRun(ws) && k < |ws|
    ensures BalancedIn(c, key)(ws[k])
  {
    StartBalances(c, key, ws[0]);
    StepsStay(c, key);
    HoldsAlong(CanStep(), BalancedIn(c, key), ws, k);
  }

  /** At every point of every interleaving, counter by counter, in total and per model key: what was
      enqueued, what failed inserts lost, what waits in the buckets and what handlers hold add up to
      everything that went through the filter. */
  lemma NothingLostOrDoubled(ws: seq<World>, c: Counter, key: Option<string>, k: nat)
    requires IsRun(ws) && k < |ws|
    ensures Conserved(Counted(c, key), ws[k])
  {
    RunBalances(ws, c, key, k);
  }

  lemma QuietCounter(m: Measure, w: World)
    requires Fair(m) && Balanced(m, w) && IsQuiet(w)
    ensures m.amount(w.enqueued) + m.held(w.pending) == m.amount(w.folded)
  {
    EmptyHands(m);
  }

  ghost predicate IsQuiet(w: World) { w.handlers == map[] && w.lost == [] && w.unfolded == [] }

  lemma QuietAt(ws: seq<World>, k: nat, c: Counter)
    requires IsRun(ws) && k < |ws| && IsQuiet(ws[k])
    ensures Pick(c, Total(ws[k].enqueued)) + Pick(c, PendingTotal(ws[k].pending)) == Pick(c, Total(ws[k].folded))
  {
    CountedIsFair(c, None);
    RunBalances(ws, c, None, k);
    QuietCounter(Counted(c, None), ws[k]);
  }

  lemma CreditedAt(ws: seq<World>, k: nat)
    requires IsRun(ws) && k < |ws|
    ensures Add(SumOver(ws[k].contributed), Total(Filter(NoSession(), ws[k].folded))) == Total(ws[k].folded)
  {
    RunBalances(ws, Cost, None, k);
  }

  lemma QuietTotals(ws: seq<World>, k: nat)
    requires IsRun(ws) && k < |ws| && IsQuiet(ws[k])
    ensures Add(Total(ws[k].enqueued), PendingTotal(ws[k].pending)) == Total(ws[k].folded)
  {
    var a, b, t := Total(ws[k].enqueued), PendingTotal(ws[k].pending), Total(ws[k].folded);
    forall c: Counter ensures Pick(c, Add(a, b)) == Pick(c, t) {
      QuietAt(ws, k, c);
      PickAdds(c, a, b);
    }
    SameCounters(Add(a, b), t);
  }

  /** With no handler in flight and no store error, queue and buckets hold exactly what the sessions
      gained plus the usage of events without a session. */
  lemma QueueMatchesSessions(ws: seq<World>, k: nat)
    requires IsRun(ws) && k < |ws| && IsQuiet(ws[k])
    ensures Add(Total(ws[k].enqueued), PendingTotal(ws[k].pending)) ==
            Add(SumOver(ws[k].contributed), Total(Filter(NoSession(), ws[k].folded)))
  {
    QuietTotals(ws, k);
    CreditedAt(ws, k);
  }

  // ---------- the daemon ----------

  datatype Counters = Counters(received: int, normalized: int, filtered: int, rollups: int, queued: int, errors: int)

  /** What the clocks, the id source and the store do during one call. */
  datatype Surroundings = Surroundings(
    upsertAt: Time, upsertOk: bool, capOk: bool, victims: Table -> set<string>,
    dueAt: Time, stampedAt: Time, flushAt: Time,
    enqueueAt: Time, newId: nat -> nat, insertOk: bool, rounds: nat -> EventQueue.Round)

  function TakenIn(c: Counters, events: nat, normDropped: nat, kept: nat): Counters {
    c.(received := c.received + events + normDropped, normalized := c.normalized + events,
       filtered := c.filtered + events - kept)
  }

  function Failures(c: Counters, failed: bool): Counters { if failed then c.(errors := c.errors + 1) else c }

  function RolledUp(c: Counters, n: nat): Counters { c.(rollups := c.rollups + n) }

  function QueuedUp(c: Counters, n: nat, broken: bool): Counters {
    if broken then Failures(c, true) else c.(queued := c.queued + n)
  }

  predicate FoldFailed(events: seq<NormalizedEvent>, env: Surroundings) { SessionIds(events) != {} && !env.upsertOk }

  /** The counters after one call that took in `events`, dropped `normDropped` before, kept `kept` and made `rolled`
      rollups. */
  ghost function AreCounted(before: Counters, events: seq<NormalizedEvent>, normDropped: nat, kept: nat, rolled: nat,
                            upsertOk: bool, broken: bool): Counters -> bool {
    (after: Counters) =>
      var failed := !upsertOk && exists e :: e in events && e.sessionId.Some? && TrimSpace(e.sessionId.value) != "";
      && after.received == before.received + |events| + normDropped
      && after.normalized == before.normalized + |events| && after.filtered == before.filtered + |events| - kept
      && after.rollups == before.rollups + rolled
      && after.queued == before.queued + (if broken then 0 else kept + rolled)
      && after.errors == before.errors + (if failed then 1 else 0) + (if broken then 1 else 0)
  }

  lemma CountersAreCounted(before: Counters, events: seq<NormalizedEvent>, normDropped: nat, kept: nat, rolled: nat,
                           env: Surroundings, broken: bool, after: Counters)
    requires var gathered := RolledUp(Failures(TakenIn(before, |events|, normDropped, kept), FoldFailed(events, env)),
                                      rolled);
             after == QueuedUp(gathered, kept + rolled, broken)
    ensures AreCounted(before, events, normDropped, kept, rolled, env.upsertOk, broken)(after)
  {
    if e :| e in events && HasSession(e) {
      assert e.sessionId.value in SessionIds(events);
    }
    assert SessionIds(events) != {} ==> exists e :: e in events && HasSession(e);
  }

  /** The sessions after one call: the events folded in, then the cap. */
  ghost function FoldOf(before: Table, events: seq<NormalizedEvent>, env: Surroundings): Table -> bool {
    (after: Table) =>
      if SessionIds(events) == {} || !env.upsertOk then after == before
      else exists folded :: 
             Folds(before, folded, events) && after == if env.capOk then folded - env.victims(folded) else folded
  }

  /** What is kept and rolled up, and what stays in the buckets, is what came in and was there before, key by key. */
  ghost function Conserving(pending: Pending, events: seq<NormalizedEvent>): (seq<NormalizedEvent>, Pending) -> bool {
    (batch: seq<NormalizedEvent>, pending': Pending) =>
      forall key :: Add(ModelTotal(key, batch), BucketAt(pending', key).total) ==
                    Add(BucketAt(pending, key).total, ModelTotal(key, events))
  }

  /** Rollups come at most once a minute, and then empty the buckets. */
  ghost function RollUpOf(last: Time, env: Surroundings): (seq<NormalizedEvent>, Time, Pending) -> bool {
    (rollups: seq<NormalizedEvent>, last': Time, pending': Pending) =>
      if env.dueAt - last < 60 * 1_000_000_000 then rollups == [] && last' == last
      else last' == env.stampedAt && pending' == map[]
  }

  /** The rows an enqueue leaves, and whether it reports an error. */
  ghost function EnqueueOf(caps: EventQueue.Caps, before: seq<EventQueue.Row>, batch: seq<NormalizedEvent>,
                           env: Surroundings)
    : (seq<EventQueue.Row>, bool) -> bool
  {
    (after: seq<EventQueue.Row>, broken: bool) =>
      var inserted := EventQueue.Inserted(before, NewIds(env.newId, |batch|), batch, env.enqueueAt);
      var r := EventQueue.EvictFrom(caps, inserted, env.rounds, 0);
      && broken == (batch != [] && (!env.insertOk || r.failed))
      && after == (if batch == [] || !env.insertOk then before else r.rows)
  }

  function NewIds(newId: nat -> nat, n: nat): (ids: seq<nat>)
    ensures |ids| == n
  {
    seq(n, i requires 0 <= i => newId(i))
  }

  class Daemon {
    const queue: EventQueue.Queue
    const filter: EventFilter
    const sessions: SessionStore
    var counters: Counters
    var lastRollup: Time

    constructor (queue: EventQueue.Queue, filter: EventFilter, sessions: SessionStore, now: Time)
      ensures this.queue == queue && this.filter == filter && this.sessions == sessions
      ensures lastRollup == now && counters == Counters(0, 0, 0, 0, 0, 0)
    {
      this.queue, this.filter, this.sessions := queue, filter, sessions;
      lastRollup, counters := now, Counters(0, 0, 0, 0, 0, 0);
    }

    /** At most one flush per interval: the filter is drained only when the interval has elapsed. */
    method DueRollups(dueAt: Time, stampedAt: Time, flushAt: Time) returns (rollups: seq<NormalizedEvent>)
      requires filter.Valid()
      modifies this`counters, this`lastRollup, filter
      ensures filter.Valid()
      ensures dueAt - old(lastRollup) < 60 * 1_000_000_000 ==>
                rollups == [] && lastRollup == old(lastRollup) && filter.pending == old(filter.pending)
      ensures dueAt - old(lastRollup) >= 60 * 1_000_000_000 ==>
                lastRollup == stampedAt && filter.pending == map[]
                && AreRollups(old(filter.pending), rollups, flushAt / SECOND * SECOND)
      ensures counters == RolledUp(old(counters), |rollups|)
    {
      if dueAt - lastRollup < ROLLUP_INTERVAL {
        return [];
      }
      lastRollup := stampedAt;
      rollups := filter.Flush(flushAt);
      counters := counters.(rollups := counters.rollups + |rollups|);
    }

    /** Filter the events, fold all of them into their sessions, enqueue the kept ones with any due
        rollups. */
    method HandleLogs(events: seq<NormalizedEvent>, normDropped: nat, env: Surroundings)
      returns (accepted: int, dropped: int, ghost rollups: seq<NormalizedEvent>, ghost broken: bool)
      requires queue.Valid() && filter.Valid()
      requires forall t :: IsCapChoice(t, env.victims(t))
      modifies this, queue, filter, sessions
      ensures queue.Valid() && filter.Valid()
      ensures var batch := Filter(Keeps(filter.tables), events) + rollups;
              EnqueueOf(queue.caps, old(queue.rows), batch, env)(queue.rows, broken)
      ensures accepted == (if broken then 0 else |Filter(Keeps(filter.tables), events)|)
              && accepted + dropped == |events| + normDropped
      ensures var kept := Filter(Keeps(filter.tables), events);
              var gathered := RolledUp(Failures(TakenIn(old(counters), |events|, normDropped, |kept|),
                                                FoldFailed(events, env)), |rollups|);
              counters == QueuedUp(gathered, |kept + rollups|, broken)
      ensures AreCounted(old(counters), events, normDropped, |Filter(Keeps(filter.tables), events)|, |rollups|,
                         env.upsertOk, broken)(counters)
      ensures RollUpOf(old(lastRollup), env)(rollups, lastRollup, filter.pending)
      ensures Conserving(old(filter.pending), events)(Filter(Keeps(filter.tables), events) + rollups, filter.pending)
      ensures FoldOf(old(sessions.rows), events, env)(sessions.rows)
    {
      var kept, due := Gather(events, normDropped, env);
      rollups := due;
      var lost := EnqueueBatch(kept + due, env);
      broken := lost;
      accepted := if lost then 0 else |kept|;
      dropped := |events| + normDropped - accepted;
      CountersAreCounted(old(counters), events, normDropped, |kept|, |due|, env, lost, counters);
    }

    /** What the call does before it enqueues: filter, fold, flush when due. */
    method Gather(events: seq<NormalizedEvent>, normDropped: nat, env: Surroundings)
      returns (kept: seq<NormalizedEvent>, rollups: seq<NormalizedEvent>)
      requires filter.Valid()
      requires forall t :: IsCapChoice(t, env.victims(t))
      modifies this`counters, this`lastRollup, filter, sessions
      ensures filter.Valid() && kept == Filter(Keeps(filter.tables), events)
      ensures Conserving(old(filter.pending), events)(kept + rollups, filter.pending)
      ensures FoldOf(old(sessions.rows), events, env)(sessions.rows)
      ensures RollUpOf(old(lastRollup), env)(rollups, lastRollup, filter.pending)
      ensures counters ==
                RolledUp(Failures(TakenIn(old(counters), |events|, normDropped, |kept|), FoldFailed(events, env)),
                         |rollups|)
    {
      kept := TakeIn(events, normDropped);
      FoldSessions(events, env);
      rollups := RollUp(events, env, old(filter.pending));
    }

    /** dueRollups after the filter took `events` in on top of `before`. */
    method RollUp(ghost events: seq<NormalizedEvent>, env: Surroundings, ghost before: Pending)
      returns (rollups: seq<NormalizedEvent>)
      requires filter.Valid() && CostsSound(before) && filter.pending == Harvested(filter.tables, before, events)
      modifies this`counters, this`lastRollup, filter
      ensures filter.Valid()
              && Conserving(before, events)(Filter(Keeps(filter.tables), events) + rollups, filter.pending)
      ensures RollUpOf(old(lastRollup), env)(rollups, lastRollup, filter.pending)
      ensures counters == RolledUp(old(counters), |rollups|)
    {
      rollups := DueRollups(env.dueAt, env.stampedAt, env.flushAt);
      HandledKey(filter.tables, before, events, rollups, filter.pending, env.flushAt / SECOND * SECOND);
    }

    method TakeIn(events: seq<NormalizedEvent>, normDropped: nat) returns (kept: seq<NormalizedEvent>)
      requires filter.Valid()
      modifies this`counters, filter
      ensures filter.Valid() && kept == Filter(Keeps(filter.tables), events)
      ensures filter.pending == Harvested(filter.tables, old(filter.pending), events)
      ensures counters == TakenIn(old(counters), |events|, normDropped, |kept|)
    {
      counters := counters.(received := counters.received + |events| + normDropped,
                            normalized := counters.normalized + |events|);
      kept := filter.Apply(events);
      counters := counters.(filtered := counters.filtered + |events| - |kept|);
    }

    method EnqueueBatch(batch: seq<NormalizedEvent>, env: Surroundings) returns (broken: bool)
      requires queue.Valid()
      modifies this`counters, queue
      ensures queue.Valid() && EnqueueOf(queue.caps, old(queue.rows), batch, env)(queue.rows, broken)
      ensures counters == QueuedUp(old(counters), |batch|, broken)
    {
      broken := queue.Enqueue(batch, NewIds(env.newId, |batch|), env.enqueueAt, env.insertOk, env.rounds);
      counters := if broken then counters.(errors := counters.errors + 1)
                  else counters.(queued := counters.queued + |batch|);
    }

    method FoldSessions(events: seq<NormalizedEvent>, env: Surroundings)
      requires forall t :: IsCapChoice(t, env.victims(t))
      modifies this`counters, sessions
      ensures FoldOf(old(sessions.rows), events, env)(sessions.rows)
      ensures counters == Failures(old(counters), FoldFailed(events, env))
    {
      var n, failed;
      ghost var folded;
      n, failed, folded := sessions.UpsertSessionEvents(events, env.upsertAt, env.upsertOk, env.capOk, env.victims);
      if failed {
        counters := counters.(errors := counters.errors + 1);
      } else if SessionIds(events) != {} {
        UpsertFolds(old(sessions.rows), folded, events, env.upsertAt);
      }
    }
  }

  /** One call moves usage between events, buckets and rollups without loss, model by model. */
  lemma HandledKey(t: Tables, pending: Pending, events: seq<NormalizedEvent>, rollups: seq<NormalizedEvent>,
                   pending': Pending, ts: int)
    requires CostsSound(pending)
    requires (rollups == [] && pending' == Harvested(t, pending, events))
             || (pending' == map[] && AreRollups(Harvested(t, pending, events), rollups, ts))
    ensures Conserving(pending, events)(Filter(Keeps(t), events) + rollups, pending')
  {
    forall key ensures Add(ModelTotal(key, Filter(Keeps(t), events) + rollups), BucketAt(pending', key).total) ==
                       Add(BucketAt(pending, key).total, ModelTotal(key, events)) {
      HandledOneKey(t, pending, events, rollups, pending', ts, key);
    }
  }

  lemma HandledOneKey(t: Tables, pending: Pending, events: seq<NormalizedEvent>, rollups: seq<NormalizedEvent>,
                      pending': Pending,
                      ts: int, key: string)
    requires CostsSound(pending)
    requires (rollups == [] && pending' == Harvested(t, pending, events))
             || (pending' == map[] && AreRollups(Harvested(t, pending, events), rollups, ts))
    ensures Add(ModelTotal(key, Filter(Keeps(t), events) + rollups), BucketAt(pending', key).total) ==
            Add(BucketAt(pending, key).total, ModelTotal(key, events))
  {
    var p, kept := Harvested(t, pending, events), Filter(Keeps(t), events);
    NoiseFilter.ApplyConserves(t, pending, events, key);
    HarvestIsSound(t, pending, events);
    ModelTotalConcat(key, kept, rollups);
    if pending' == p && rollups == [] {
      Reorder(ModelTotal(key, kept), BucketAt(p, key).total);
    } else {
      RollupsConserve(p, rollups, ts, key);
      Reorder(ModelTotal(key, kept), BucketAt(p, key).total);
    }
  }

  lemma Reorder(a: Usage, b: Usage)
    ensures Add(Add(a, b), ZERO) == Add(b, a) && Add(Add(a, ZERO), b) == Add(b, a)
  {
  }
}
