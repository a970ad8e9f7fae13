/** Session summaries of internal/queue/sessions.go: the fold of events into one summary. */
module Sessions {
  import opened Seqs
  import opened Strings
  import opened Api
  import opened Usages

  datatype ModelUsage = ModelUsage(model: Option<string>, tokens: Tokens)

  datatype Outcome = Unset | Running | Succeeded | Failed

  /** api.SessionSummary, without the fields this client never sets. Times are whole seconds; None is
      the empty string. */
  datatype Summary = Summary(
    sessionId: string,
    updatedAt: Option<int>,
    startedAt: Option<int>,
    lastActivityAt: Option<int>,
    endedAt: Option<int>,
    repo: Option<string>,
    model: Option<string>,
    models: seq<ModelUsage>,
    modelBreakdownComplete: bool,
    source: Option<string>,
    outcome: Outcome,
    tokens: Tokens,
    costUsd: Option<real>,
    toolCalls: int,
    errorCount: int)

  const EMPTY_SUMMARY := Summary("", None, None, None, None, None, None, [], false, None, Unset, NO_TOKENS, None, 0, 0)

  // ---------- labels, stamps and keys ----------

  /** Whole seconds of an instant, as RFC 3339 prints it. */
  function Seconds(t: Time): int { t / SECOND }

  function EventStamp(raw: Option<TimeText>, fallback: Time): int {
    if raw.Some? && raw.value.At? then Seconds(raw.value.nanos) else Seconds(fallback)
  }

  const UNKNOWN_MODEL := "\U{0000}unknown"

  function ModelKey(model: Option<string>): string { if model.None? then UNKNOWN_MODEL else model.value }

  /** Composite and path-like model labels count as unknown. */
  function AnalyticalModel(model: Option<string>): Option<string> {
    if model.None? then None else
      var s := TrimSpace(model.value);
      if s == "" || EqualFoldAscii(s, "mixed") || HasPrefix(ToLower(s), "mixed:") || HasPrefix(s, "/")
         || HasPrefix(s, "~") || Contains(s, "\\") then None else Some(s)
  }

  function SanitizeLabel(v: string): string {
    var s := TrimSpace(v);
    if Contains(s, "/") || Contains(s, "\\") then "" else s
  }

  /** The part before the first dot. */
  function BeforeDot(s: string): string {
    if s == "" || s[0] == '.' then "" else [s[0]] + BeforeDot(s[1..])
  }

  predicate TerminalEvent(name: Option<string>) {
    name.Some? &&
    var s := ToLower(name.value);
    Contains(s, "session.end") || Contains(s, "session_end") || Contains(s, "conversation.end")
    || Contains(s, "conversation_end")
  }

  // ---------- one event ----------

  function MergeTimes(s: Summary, stamp: int): Summary {
    s.(startedAt := if s.startedAt.None? || stamp < s.startedAt.value then Some(stamp) else s.startedAt,
       lastActivityAt :=
         if s.lastActivityAt.None? || stamp > s.lastActivityAt.value then Some(stamp) else s.lastActivityAt)
  }

  function MergeLabels(s: Summary, e: NormalizedEvent): Summary {
    s.(repo := if s.repo.None? && e.repo.Some? && SanitizeLabel(e.repo.value) != ""
               then Some(SanitizeLabel(e.repo.value)) else s.repo,
       source := if s.source.None? && e.eventName.Some? && BeforeDot(e.eventName.value) != ""
                 then Some(BeforeDot(e.eventName.value)) else s.source)
  }

  function MergeUsage(s: Summary, e: NormalizedEvent): Summary {
    s.(tokens := Plus(s.tokens, TokensOf(e)),
       costUsd := if e.costUsd.Some? then Some(DerefCost(s.costUsd) + e.costUsd.value) else s.costUsd,
       toolCalls := s.toolCalls + if e.toolName.Some? then 1 else 0)
  }

  function MergeOutcome(s: Summary, e: NormalizedEvent, stamp: int): Summary {
    var s1 := if e.errorMessage.Some? then s.(errorCount := s.errorCount + 1, outcome := Failed) else s;
    if TerminalEvent(e.eventName) && s1.outcome != Failed then s1.(outcome := Succeeded, endedAt := Some(stamp)) else s1
  }

  function MergeEvent(s: Summary, e: NormalizedEvent, now: Time): Summary {
    var stamp := EventStamp(e.timestamp, now);
    MergeOutcome(MergeUsage(MergeLabels(MergeTimes(s, stamp), e), e), e, stamp)
  }

  type ModelMap = map<string, ModelUsage>

  /** What one event adds, and to which model row. */
  datatype Contribution<K> = Contribution(key: K, model: Option<string>, tokens: Tokens)

  function ContributionOf(e: NormalizedEvent): Contribution<string> {
    var model := AnalyticalModel(e.model);
    Contribution(ModelKey(model), model, TokensOf(e))
  }

  function Contributions(events: seq<NormalizedEvent>): (r: seq<Contribution<string>>)
    ensures |r| == |events| && forall i :: 0 <= i < |r| ==> r[i] == ContributionOf(events[i])
  {
    seq(|events|, i requires 0 <= i < |events| => ContributionOf(events[i]))
  }

  /** Add to the row of the contribution's key, which is created when absent. */
  function CountModel<K>(models: map<K, ModelUsage>, c: Contribution<K>): map<K, ModelUsage> {
    var row := if c.key in models then models[c.key] else ModelUsage(c.model, NO_TOKENS);
    models[c.key := row.(tokens := Plus(row.tokens, c.tokens))]
  }

  // ---------- a batch ----------

  function MergeAll(s: Summary, events: seq<NormalizedEvent>, now: Time): Summary
    decreases |events|
  {
    if events == [] then s else MergeAll(MergeEvent(s, events[0], now), events[1..], now)
  }

  function CountAll<K>(models: map<K, ModelUsage>, cs: seq<Contribution<K>>): map<K, ModelUsage>
    decreases |cs|
  {
    if cs == [] then models else CountAll(CountModel(models, cs[0]), cs[1..])
  }

  /** The first merge into an empty summary sets its identity. */
  function Opened(s: Summary, sessionId: string): Summary {
    if s.sessionId != "" then s
    else s.(sessionId := sessionId, outcome := Running, models := [], modelBreakdownComplete := true)
  }

  /** The map the stored rows are loaded into; a later row of the same key wins. */
  function LoadModels(rows: seq<ModelUsage>): ModelMap {
    if rows == [] then map[] else LoadModels(rows[..|rows| - 1])[ModelKey(rows[|rows| - 1].model) := rows[|rows| - 1]]
  }

  function RowsAt(models: ModelMap, keys: seq<string>): (r: seq<ModelUsage>)
    requires forall k :: k in keys ==> k in models
    ensures |r| == |keys| && forall i :: 0 <= i < |r| ==> r[i] == models[keys[i]]
  {
    seq(|keys|, i requires 0 <= i < |keys| && keys[i] in models => models[keys[i]])
  }

  /** The rows of a finished summary: one per key, in key order. */
  ghost predicate FinishedRows(rows: seq<ModelUsage>, models: ModelMap) {
    exists keys :: SortedListOf(keys, models.Keys) && rows == RowsAt(models, keys)
  }

  function UpdatedAt(prior: Option<int>, now: Time): int {
    if prior.Some? && Seconds(now) <= prior.value then prior.value + 1 else Seconds(now)
  }

  /** What mergeSessionEvents returns: the folded fields, the rows of the counted models and a fresh
      updated_at. */
  ghost predicate IsMerge(r: Summary, s: Summary, sessionId: string, events: seq<NormalizedEvent>, now: Time) {
    var folded := MergeAll(Opened(s, sessionId), events, now);
    && FinishedRows(r.models, CountAll(LoadModels(Opened(s, sessionId).models), Contributions(events)))
    && r == folded.(models := r.models,
                    model := if |r.models| == 1 then r.models[0].model else None,
                    updatedAt := Some(UpdatedAt(s.updatedAt, now)))
  }

  /** The stored rows, keyed again. */
  method LoadSessionModels(rows: seq<ModelUsage>) returns (models: ModelMap)
    ensures models == LoadModels(rows)
  {
    models := map[];
    for i := 0 to |rows|
      invariant models == LoadModels(rows[..i])
    {
      assert rows[..i + 1][..i] == rows[..i];
      models := models[ModelKey(rows[i].model) := rows[i]];
    }
    assert rows[..|rows|] == rows;
  }

  method MergeSessionEvent(s: Summary, models: ModelMap, e: NormalizedEvent, now: Time)
    returns (s': Summary, models': ModelMap)
    ensures s' == MergeEvent(s, e, now) && models' == CountModel(models, ContributionOf(e))
  {
    var stamp := EventStamp(e.timestamp, now);
    s' := MergeTimes(s, stamp);
    s' := MergeLabels(s', e);
    var model := AnalyticalModel(e.model);
    var key := ModelKey(model);
    var row := if key in models then models[key] else ModelUsage(model, NO_TOKENS);
    models' := models[key := row.(tokens := Plus(row.tokens, TokensOf(e)))];
    s' := MergeUsage(s', e);
    s' := MergeOutcome(s', e, stamp);
  }

  method MergeEvents(s: Summary, models: ModelMap, events: seq<NormalizedEvent>, now: Time)
    returns (r: Summary, counted: ModelMap)
    ensures r == MergeAll(s, events, now) && counted == CountAll(models, Contributions(events))
  {
    r, counted := s, models;
    ghost var cs := Contributions(events);
    for i := 0 to |events|
      invariant MergeAll(r, events[i..], now) == MergeAll(s, events, now)
      invariant CountAll(counted, cs[i..]) == CountAll(models, cs)
    {
      assert events[i..][0] == events[i] && events[i..][1..] == events[i + 1..];
      assert cs[i..][0] == ContributionOf(events[i]) && cs[i..][1..] == cs[i + 1..];
      r, counted := MergeSessionEvent(r, counted, events[i], now);
    }
  }

  /** mergeSessionEvents: fold the events into the summary and its model rows. */
  method MergeSessionEvents(s: Summary, sessionId: string, events: seq<NormalizedEvent>, now: Time) returns (r: Summary)
    ensures IsMerge(r, s, sessionId, events, now)
  {
    r := s;
    if r.sessionId == "" {
      r := r.(sessionId := sessionId, outcome := Running, models := [], modelBreakdownComplete := true);
    }
    ghost var start := r;
    var models := LoadSessionModels(r.models);
    r, models := MergeEvents(r, models, events, now);
    FoldFrame(start, events, now, start.models, start.model, start.updatedAt);
    r := FinishSessionModels(r, models);
    r := r.(updatedAt := Some(UpdatedAt(r.updatedAt, now)));
  }

  method FinishSessionModels(s: Summary, models: ModelMap) returns (r: Summary)
    ensures FinishedRows(r.models, models)
    ensures r == s.(models := r.models, model := if |r.models| == 1 then r.models[0].model else None)
  {
    var keys := SortStrings(models.Keys);
    var rows: seq<ModelUsage> := [];
    for i := 0 to |keys|
      invariant rows == RowsAt(models, keys[..i])
    {
      rows := rows + [models[keys[i]]];
      assert keys[..i + 1] == keys[..i] + [keys[i]];
    }
    assert keys[..|keys|] == keys;
    r := s.(models := rows, model := if |rows| == 1 then rows[0].model else None);
  }

  // ---------- what the fold computes ----------

  function HasError(): NormalizedEvent -> bool { (e: NormalizedEvent) => e.errorMessage.Some? }

  function HasTool(): NormalizedEvent -> bool { (e: NormalizedEvent) => e.toolName.Some? }

  ghost predicate SomeError(events: seq<NormalizedEvent>) { exists e :: e in events && e.errorMessage.Some? }

  ghost predicate SomeTerminal(events: seq<NormalizedEvent>) { exists e :: e in events && TerminalEvent(e.eventName) }

  ghost predicate SomeCost(events: seq<NormalizedEvent>) { exists e :: e in events && e.costUsd.Some? }

  /** The usage a summary carries. */
  function Carried(s: Summary): Usage { Usage(s.tokens, DerefCost(s.costUsd)) }

  lemma EventTotals(s: Summary, e: NormalizedEvent, now: Time)
    ensures var r := MergeEvent(s, e, now);
            && Carried(r) == Add(Carried(s), UsageOf(e))
            && (r.costUsd.Some? <==> s.costUsd.Some? || e.costUsd.Some?)
            && r.toolCalls == s.toolCalls + (if e.toolName.Some? then 1 else 0)
            && r.errorCount == s.errorCount + (if e.errorMessage.Some? then 1 else 0)
  {
  }

  /** The totals and counts of a batch are added to the prior ones, each event once. */
  lemma {:induction false} FoldedTotals(s: Summary, events: seq<NormalizedEvent>, now: Time)
    ensures var r := MergeAll(s, events, now);
            && Carried(r) == Add(Carried(s), Total(events))
            && r.toolCalls == s.toolCalls + |Filter(HasTool(), events)|
            && r.errorCount == s.errorCount + |Filter(HasError(), events)|
    decreases |events|
  {
    if events == [] {
      AddRearranges(ZERO, Carried(s), ZERO);
    } else {
      var s1 := MergeEvent(s, events[0], now);
      EventTotals(s, events[0], now);
      FoldedTotals(s1, events[1..], now);
      AddRearranges(Carried(s), UsageOf(events[0]), Total(events[1..]));
    }
  }

  /** A cost is reported exactly when some event carried one. */
  lemma {:induction false} FoldedCost(s: Summary, events: seq<NormalizedEvent>, now: Time)
    ensures MergeAll(s, events, now).costUsd.Some? <==> s.costUsd.Some? || SomeCost(events)
    decreases |events|
  {
    if events != [] {
      EventTotals(s, events[0], now);
      FoldedCost(MergeEvent(s, events[0], now), events[1..], now);
      assert events == [events[0]] + events[1..];
      assert SomeCost(events) <==> events[0].costUsd.Some? || SomeCost(events[1..]);
    }
  }

  /** `t` is the least of the prior time and the stamps. */
  ghost predicate IsLeastStamp(t: Option<int>, prior: Option<int>, events: seq<NormalizedEvent>, now: Time) {
    && (t.None? <==> prior.None? && events == [])
    && (t.Some? ==>
          && (t == prior || exists e :: e in events && t.value == EventStamp(e.timestamp, now))
          && (prior.Some? ==> t.value <= prior.value)
          && forall e :: e in events ==> t.value <= EventStamp(e.timestamp, now))
  }

  ghost predicate IsGreatestStamp(t: Option<int>, prior: Option<int>, events: seq<NormalizedEvent>, now: Time) {
    && (t.None? <==> prior.None? && events == [])
    && (t.Some? ==>
          && (t == prior || exists e :: e in events && t.value == EventStamp(e.timestamp, now))
          && (prior.Some? ==> t.value >= prior.value)
          && forall e :: e in events ==> t.value >= EventStamp(e.timestamp, now))
  }

  lemma EventTimes(s: Summary, e: NormalizedEvent, now: Time)
    ensures var r, stamp := MergeEvent(s, e, now), EventStamp(e.timestamp, now);
            && r.startedAt == Some(if s.startedAt.Some? then Min(s.startedAt.value, stamp) else stamp)
            && r.lastActivityAt == Some(if s.lastActivityAt.Some? then Max(s.lastActivityAt.value, stamp) else stamp)
  {
  }

  lemma {:induction false} FoldedStart(s: Summary, events: seq<NormalizedEvent>, now: Time)
    ensures IsLeastStamp(MergeAll(s, events, now).startedAt, s.startedAt, events, now)
    decreases |events|
  {
    if events != [] {
      EventTimes(s, events[0], now);
      FoldedStart(MergeEvent(s, events[0], now), events[1..], now);
      HeadOrTail(events);
    }
  }

  lemma {:induction false} FoldedActivity(s: Summary, events: seq<NormalizedEvent>, now: Time)
    ensures IsGreatestStamp(MergeAll(s, events, now).lastActivityAt, s.lastActivityAt, events, now)
    decreases |events|
  {
    if events != [] {
      EventTimes(s, events[0], now);
      FoldedActivity(MergeEvent(s, events[0], now), events[1..], now);
      HeadOrTail(events);
    }
  }

  lemma {:induction false} HeadOrTail<T>(s: seq<T>)
    requires s != []
    ensures forall e :: e in s <==> e == s[0] || e in s[1..]
  {
    assert s == [s[0]] + s[1..];
  }

  /** Failed exactly when an error was ever seen; otherwise succeeded exactly when a terminal event was. */
  lemma {:induction false} FoldedOutcome(s: Summary, events: seq<NormalizedEvent>, now: Time)
    ensures MergeAll(s, events, now).outcome ==
            if s.outcome == Failed || SomeError(events) then Failed
            else if SomeTerminal(events) then Succeeded else s.outcome
    decreases |events|
  {
    if events != [] {
      FoldedOutcome(MergeEvent(s, events[0], now), events[1..], now);
      assert events == [events[0]] + events[1..];
      assert SomeError(events) <==> events[0].errorMessage.Some? || SomeError(events[1..]);
      assert SomeTerminal(events) <==> TerminalEvent(events[0].eventName) || SomeTerminal(events[1..]);
    }
  }

  /** A summary with the fields that finishing sets replaced. */
  function Refinished(s: Summary, models: seq<ModelUsage>, model: Option<string>, updatedAt: Option<int>): Summary {
    s.(models := models, model := model, updatedAt := updatedAt)
  }

  lemma TimesFrame(s: Summary, stamp: int, models: seq<ModelUsage>, model: Option<string>, updatedAt: Option<int>)
    ensures MergeTimes(Refinished(s, models, model, updatedAt), stamp) ==
              Refinished(MergeTimes(s, stamp), models, model, updatedAt)
  {
  }

  lemma LabelsFrame(s: Summary, e: NormalizedEvent, models: seq<ModelUsage>, model: Option<string>,
                    updatedAt: Option<int>)
    ensures MergeLabels(Refinished(s, models, model, updatedAt), e) ==
              Refinished(MergeLabels(s, e), models, model, updatedAt)
  {
  }

  lemma UsageFrame(s: Summary, e: NormalizedEvent, models: seq<ModelUsage>, model: Option<string>,
                   updatedAt: Option<int>)
    ensures MergeUsage(Refinished(s, models, model, updatedAt), e) ==
              Refinished(MergeUsage(s, e), models, model, updatedAt)
  {
  }

  lemma OutcomeFrame(s: Summary, e: NormalizedEvent, stamp: int, models: seq<ModelUsage>, model: Option<string>,
                     updatedAt: Option<int>)
    ensures MergeOutcome(Refinished(s, models, model, updatedAt), e, stamp)
            == Refinished(MergeOutcome(s, e, stamp), models, model, updatedAt)
  {
  }

  lemma EventFrame(s: Summary, e: NormalizedEvent, now: Time, models: seq<ModelUsage>, model: Option<string>,
                   updatedAt: Option<int>)
    ensures MergeEvent(Refinished(s, models, model, updatedAt), e, now) ==
              Refinished(MergeEvent(s, e, now), models, model, updatedAt)
    ensures MergeEvent(s, e, now).sessionId == s.sessionId
  {
    var stamp := EventStamp(e.timestamp, now);
    var s1 := MergeTimes(s, stamp);
    var s2 := MergeLabels(s1, e);
    TimesFrame(s, stamp, models, model, updatedAt);
    LabelsFrame(s1, e, models, model, updatedAt);
    UsageFrame(s2, e, models, model, updatedAt);
    OutcomeFrame(MergeUsage(s2, e), e, stamp, models, model, updatedAt);
  }

  /** The fold neither reads nor writes the fields that finishing sets. */
  lemma {:induction false} FoldFrame(s: Summary, events: seq<NormalizedEvent>, now: Time,
                                     models: seq<ModelUsage>, model: Option<string>, updatedAt: Option<int>)
    ensures MergeAll(Refinished(s, models, model, updatedAt), events, now)
            == Refinished(MergeAll(s, events, now), models, model, updatedAt)
    ensures MergeAll(s, events, now).sessionId == s.sessionId
    decreases |events|
  {
    if events != [] {
      EventFrame(s, events[0], now, models, model, updatedAt);
      FoldFrame(MergeEvent(s, events[0], now), events[1..], now, models, model, updatedAt);
    }
  }

  lemma {:induction false} FoldSplits(s: Summary, a: seq<NormalizedEvent>, b: seq<NormalizedEvent>, now: Time)
    ensures MergeAll(s, a + b, now) == MergeAll(MergeAll(s, a, now), b, now)
    decreases |a|
  {
    if a == [] {
      assert a + b == b;
    } else {
      assert (a + b)[1..] == a[1..] + b;
      FoldSplits(MergeEvent(s, a[0], now), a[1..], b, now);
    }
  }

  // ---------- model rows ----------

  ghost predicate Keyed(models: ModelMap) { forall k :: k in models ==> ModelKey(models[k].model) == k }

  lemma {:induction false} LoadIsKeyed(rows: seq<ModelUsage>)
    ensures Keyed(LoadModels(rows))
  {
    if rows != [] {
      LoadIsKeyed(rows[..|rows| - 1]);
    }
  }

  lemma {:induction false} CountIsKeyed(models: ModelMap, cs: seq<Contribution<string>>)
    requires Keyed(models) && forall c :: c in cs ==> c.key == ModelKey(c.model)
    ensures Keyed(CountAll(models, cs))
    decreases |cs|
  {
    if cs != [] {
      CountIsKeyed(CountModel(models, cs[0]), cs[1..]);
    }
  }

  lemma {:induction false} CountSplits<K>(models: map<K, ModelUsage>, a: seq<Contribution<K>>, b: seq<Contribution<K>>)
    ensures CountAll(models, a + b) == CountAll(CountAll(models, a), b)
    decreases |a|
  {
    if a == [] {
      assert a + b == b;
    } else {
      assert (a + b)[1..] == a[1..] + b;
      CountSplits(CountModel(models, a[0]), a[1..], b);
    }
  }

  /** The part of the map under the listed keys. */
  ghost function Under(models: ModelMap, keys: seq<string>): ModelMap
    requires forall k :: k in keys ==> k in models
  {
    map k | k in keys :: models[k]
  }

  lemma UnderGrows(models: ModelMap, front: seq<string>, last: string)
    requires last in models && forall k :: k in front ==> k in models
    ensures forall k :: k in front + [last] ==> k in models
    ensures Under(models, front + [last]) == Under(models, front)[last := models[last]]
  {
  }

  /** Loading listed rows gives back the listed part of the map. */
  lemma {:induction false} LoadListed(models: ModelMap, keys: seq<string>)
    requires Keyed(models) && forall k :: k in keys ==> k in models
    ensures LoadModels(RowsAt(models, keys)) == Under(models, keys)
    decreases |keys|
  {
    if keys == [] {
      assert RowsAt(models, keys) == [];
    } else {
      var n := |keys| - 1;
      var front, last := keys[..n], keys[n];
      assert keys == front + [last];
      LoadListed(models, front);
      UnderGrows(models, front, last);
      assert RowsAt(models, keys)[..n] == RowsAt(models, front) && ModelKey(RowsAt(models, keys)[n].model) == last;
    }
  }

  /** Storing the rows and loading them again loses nothing. */
  lemma RowsRoundTrip(rows: seq<ModelUsage>, models: ModelMap)
    requires Keyed(models) && FinishedRows(rows, models)
    ensures LoadModels(rows) == models
  {
    var keys :| SortedListOf(keys, models.Keys) && rows == RowsAt(models, keys);
    LoadListed(models, keys);
    assert Under(models, keys) == models;
  }

  function KeysOf(rows: seq<ModelUsage>): (r: seq<string>)
    ensures |r| == |rows| && forall i :: 0 <= i < |r| ==> r[i] == ModelKey(rows[i].model)
  {
    seq(|rows|, i requires 0 <= i < |rows| => ModelKey(rows[i].model))
  }

  function SumRows(rows: seq<ModelUsage>): Tokens {
    if rows == [] then NO_TOKENS else Plus(rows[0].tokens, SumRows(rows[1..]))
  }

  function SumContributions<K>(cs: seq<Contribution<K>>): Tokens {
    if cs == [] then NO_TOKENS else Plus(cs[0].tokens, SumContributions(cs[1..]))
  }

  lemma {:induction false} ContributionsSum(events: seq<NormalizedEvent>)
    ensures SumContributions(Contributions(events)) == Total(events).tokens
  {
    if events != [] {
      ContributionsSum(events[1..]);
      assert Contributions(events)[1..] == Contributions(events[1..]);
    }
  }

  /** The rows of a map as usages, to sum over. */
  ghost function AsUsages<K>(models: map<K, ModelUsage>): map<K, Usage> {
    map k | k in models :: Usage(models[k].tokens, 0.0)
  }

  /** `t` is the sum of the rows of the map. */
  ghost predicate AddUpTo<K>(models: map<K, ModelUsage>, t: Tokens) { SumOver(AsUsages(models)).tokens == t }

  lemma CountAddsOne<K>(models: map<K, ModelUsage>, t: Tokens, c: Contribution<K>)
    requires AddUpTo(models, t)
    ensures AddUpTo(CountModel(models, c), Plus(t, c.tokens))
  {
    var m, u := AsUsages(models), Usage(c.tokens, 0.0);
    SumBumps(m, c.key, u);
    assert AsUsages(CountModel(models, c)) == m[c.key := Add(Held(m, c.key), u)];
  }

  lemma {:induction false} CountAddsTokens<K>(models: map<K, ModelUsage>, t: Tokens, cs: seq<Contribution<K>>)
    requires AddUpTo(models, t)
    ensures AddUpTo(CountAll(models, cs), Plus(t, SumContributions(cs)))
    decreases |cs|
  {
    if cs == [] {
      PlusRearranges(t, NO_TOKENS, NO_TOKENS);
    } else {
      CountAddsOne(models, t, cs[0]);
      CountAddsTokens(CountModel(models, cs[0]), Plus(t, cs[0].tokens), cs[1..]);
      PlusRearranges(t, cs[0].tokens, SumContributions(cs[1..]));
    }
  }

  lemma UnderTail(models: ModelMap, keys: seq<string>)
    requires keys != [] && StrictlySorted(keys) && forall k :: k in keys ==> k in models
    ensures forall k :: k in keys[1..] ==> k in models
    ensures AsUsages(Under(models, keys)) - {keys[0]} == AsUsages(Under(models, keys[1..]))
  {
    forall k | k in keys[1..] ensures k in models && k != keys[0] {
      var i :| 0 <= i < |keys| - 1 && keys[1..][i] == k;
      assert Less(keys[0], keys[i + 1]);
      LessIrreflexive(k);
    }
    assert keys == [keys[0]] + keys[1..];
  }

  lemma {:induction false} ListedRowsSum(models: ModelMap, keys: seq<string>)
    requires StrictlySorted(keys) && forall k :: k in keys ==> k in models
    ensures SumRows(RowsAt(models, keys)) == SumOver(AsUsages(Under(models, keys))).tokens
    decreases |keys|
  {
    if keys == [] {
      assert RowsAt(models, keys) == [] && AsUsages(Under(models, keys)) == map[];
    } else {
      UnderTail(models, keys);
      ListedRowsSum(models, keys[1..]);
      assert RowsAt(models, keys)[1..] == RowsAt(models, keys[1..]);
      SumTakesOut(AsUsages(Under(models, keys)), keys[0]);
    }
  }

  lemma FinishedRowsSum(rows: seq<ModelUsage>, models: ModelMap)
    requires FinishedRows(rows, models)
    ensures SumRows(rows) == SumOver(AsUsages(models)).tokens
  {
    var keys :| SortedListOf(keys, models.Keys) && rows == RowsAt(models, keys);
    ListedRowsSum(models, keys);
    assert Under(models, keys) == models;
  }

  lemma LoadedRowsSum(rows: seq<ModelUsage>)
    requires StrictlySorted(KeysOf(rows))
    ensures SumRows(rows) == SumOver(AsUsages(LoadModels(rows))).tokens
  {
    LoadedRowsFinished(rows);
    FinishedRowsSum(rows, LoadModels(rows));
  }

  lemma {:induction false} LoadedRow(rows: seq<ModelUsage>, i: nat)
    requires StrictlySorted(KeysOf(rows)) && i < |rows|
    ensures KeysOf(rows)[i] in LoadModels(rows) && LoadModels(rows)[KeysOf(rows)[i]] == rows[i]
  {
    var n := |rows| - 1;
    if i < n {
      assert KeysOf(rows[..n]) == KeysOf(rows)[..n];
      LoadedRow(rows[..n], i);
      assert Less(KeysOf(rows)[i], KeysOf(rows)[n]);
      LessIrreflexive(KeysOf(rows)[n]);
    }
  }

  lemma {:induction false} LoadedKeys(rows: seq<ModelUsage>)
    ensures forall k :: k in LoadModels(rows) <==> k in KeysOf(rows)
  {
    if rows != [] {
      var n := |rows| - 1;
      LoadedKeys(rows[..n]);
      assert KeysOf(rows) == KeysOf(rows[..n]) + [ModelKey(rows[n].model)];
    }
  }

  lemma LoadedRowsFinished(rows: seq<ModelUsage>)
    requires StrictlySorted(KeysOf(rows))
    ensures FinishedRows(rows, LoadModels(rows))
  {
    LoadedKeys(rows);
    forall i | 0 <= i < |rows| ensures LoadModels(rows)[KeysOf(rows)[i]] == rows[i] {
      LoadedRow(rows, i);
    }
    assert SortedListOf(KeysOf(rows), LoadModels(rows).Keys) && rows == RowsAt(LoadModels(rows), KeysOf(rows));
  }

  // ---------- the merge ----------

  /** What every stored summary satisfies: unique sorted model rows that sum to the totals. */
  ghost predicate Sound(s: Summary) {
    StrictlySorted(KeysOf(s.models)) && SumRows(s.models) == s.tokens && (s.sessionId == "" ==> s == EMPTY_SUMMARY)
  }

  lemma MergeKeepsSound(r: Summary, s: Summary, sessionId: string, events: seq<NormalizedEvent>, now: Time)
    requires Sound(s) && sessionId != "" && IsMerge(r, s, sessionId, events, now)
    ensures Sound(r) && r.sessionId == (if s.sessionId == "" then sessionId else s.sessionId)
  {
    var start := Opened(s, sessionId);
    var loaded := LoadModels(start.models);
    var counted := CountAll(loaded, Contributions(events));
    ContributionsSum(events);
    FoldedTotals(start, events, now);
    FoldFrame(start, events, now, [], None, None);
    LoadedRowsSum(start.models);
    CountAddsTokens(loaded, SumRows(start.models), Contributions(events));
    FinishedRowsSum(r.models, counted);
    LoadIsKeyed(start.models);
    CountIsKeyed(loaded, Contributions(events));
    var keys :| SortedListOf(keys, counted.Keys) && r.models == RowsAt(counted, keys);
    assert KeysOf(r.models) == keys;
  }

  /** Rows counted in two batches, stored in between, are the rows counted in one. */
  lemma RowsInBatches(loaded: ModelMap, ca: seq<Contribution<string>>, cb: seq<Contribution<string>>,
                      first: seq<ModelUsage>, second: seq<ModelUsage>, whole: seq<ModelUsage>)
    requires Keyed(loaded) && FinishedRows(first, CountAll(loaded, ca))
             && forall c :: c in ca ==> c.key == ModelKey(c.model)
    requires FinishedRows(second, CountAll(LoadModels(first), cb))
    requires FinishedRows(whole, CountAll(loaded, ca + cb))
    ensures second == whole
  {
    CountIsKeyed(loaded, ca);
    RowsRoundTrip(first, CountAll(loaded, ca));
    CountSplits(loaded, ca, cb);
    FinishedRowsUnique(second, whole, CountAll(loaded, ca + cb));
  }

  lemma FieldsInBatches(start: Summary, a: seq<NormalizedEvent>, b: seq<NormalizedEvent>, now: Time, first: Summary)
    requires first == Refinished(MergeAll(start, a, now), first.models, first.model, first.updatedAt)
    ensures MergeAll(first, b, now) ==
              Refinished(MergeAll(start, a + b, now), first.models, first.model, first.updatedAt)
  {
    FoldSplits(start, a, b, now);
    FoldFrame(MergeAll(start, a, now), b, now, first.models, first.model, first.updatedAt);
  }

  lemma MergeStamps(r: Summary, s: Summary, sessionId: string, events: seq<NormalizedEvent>, now: Time)
    requires IsMerge(r, s, sessionId, events, now)
    ensures r.updatedAt == Some(UpdatedAt(s.updatedAt, now))
    ensures r.sessionId == (if s.sessionId == "" then sessionId else s.sessionId)
  {
    FoldFrame(Opened(s, sessionId), events, now, [], None, None);
  }

  /** Merging A and then B, with the same fallback stamp, is merging A + B, but for updated_at. */
  lemma MergeInBatches(s: Summary, sessionId: string, a: seq<NormalizedEvent>, b: seq<NormalizedEvent>, now: Time,
                       first: Summary, second: Summary, whole: Summary)
    requires sessionId != "" && IsMerge(first, s, sessionId, a, now)
    requires IsMerge(second, first, sessionId, b, now) && IsMerge(whole, s, sessionId, a + b, now)
    ensures second == whole.(updatedAt := second.updatedAt)
  {
    var start := Opened(s, sessionId);
    FoldFrame(start, a, now, [], None, None);
    FieldsInBatches(start, a, b, now, first);
    LoadIsKeyed(start.models);
    ContributionsConcat(a, b);
    RowsInBatches(LoadModels(start.models), Contributions(a), Contributions(b), first.models, second.models,
                  whole.models);
  }

  lemma FinishedRowsUnique(x: seq<ModelUsage>, y: seq<ModelUsage>, models: ModelMap)
    requires FinishedRows(x, models) && FinishedRows(y, models)
    ensures x == y
  {
    var kx :| SortedListOf(kx, models.Keys) && x == RowsAt(models, kx);
    var ky :| SortedListOf(ky, models.Keys) && y == RowsAt(models, ky);
    SortedListUnique(kx, ky, models.Keys);
  }

  // ---------- order of events ----------

  function TokensUnder<K>(models: map<K, ModelUsage>, key: K): Tokens {
    if key in models then models[key].tokens else NO_TOKENS
  }

  /** The tokens the contributions bring to one key. */
  function SumOfKey<K(==)>(cs: seq<Contribution<K>>, key: K): Tokens {
    if cs == [] then NO_TOKENS
    else Plus(if cs[0].key == key then cs[0].tokens else NO_TOKENS, SumOfKey(cs[1..], key))
  }

  lemma CountedOne<K>(models: map<K, ModelUsage>, c: Contribution<K>, key: K)
    ensures key in CountModel(models, c) <==> key in models || c.key == key
    ensures TokensUnder(CountModel(models, c), key) ==
            Plus(TokensUnder(models, key), if c.key == key then c.tokens else NO_TOKENS)
  {
  }

  /** Each model row holds its prior tokens plus those of the contributions of its key. */
  lemma {:induction false} CountedRow<K>(models: map<K, ModelUsage>, cs: seq<Contribution<K>>, key: K)
    ensures TokensUnder(CountAll(models, cs), key) == Plus(TokensUnder(models, key), SumOfKey(cs, key))
    decreases |cs|
  {
    if cs == [] {
      PlusRearranges(TokensUnder(models, key), NO_TOKENS, NO_TOKENS);
    } else {
      CountedRow(CountModel(models, cs[0]), cs[1..], key);
      CountedRowStep(models, cs, key);
    }
  }

  lemma {:induction false} CountedRowStep<K>(models: map<K, ModelUsage>, cs: seq<Contribution<K>>, key: K)
    requires cs != []
    requires TokensUnder(CountAll(CountModel(models, cs[0]), cs[1..]), key)
             == Plus(TokensUnder(CountModel(models, cs[0]), key), SumOfKey(cs[1..], key))
    ensures TokensUnder(CountAll(models, cs), key) == Plus(TokensUnder(models, key), SumOfKey(cs, key))
  {
    CountedOne(models, cs[0], key);
    PlusRearranges(TokensUnder(models, key),
                   if cs[0].key == key then cs[0].tokens else NO_TOKENS, SumOfKey(cs[1..], key));
  }

  predicate HasKey<K(==)>(cs: seq<Contribution<K>>, key: K) {
    cs != [] && (cs[0].key == key || HasKey(cs[1..], key))
  }

  lemma {:induction false} CountedKey<K>(models: map<K, ModelUsage>, cs: seq<Contribution<K>>, key: K)
    ensures key in CountAll(models, cs) <==> key in models || HasKey(cs, key)
    decreases |cs|
  {
    if cs != [] {
      var m1 := CountModel(models, cs[0]);
      CountedKey(m1, cs[1..], key);
      assert key in m1 <==> key in models || cs[0].key == key by { CountedOne(models, cs[0], key); }
    }
  }

  lemma {:induction false} KeyOfMember<K>(cs: seq<Contribution<K>>, key: K) returns (i: nat)
    requires HasKey(cs, key)
    ensures i < |cs| && cs[i].key == key
  {
    if cs[0].key == key {
      i := 0;
    } else {
      i := KeyOfMember(cs[1..], key);
      i := i + 1;
    }
  }

  lemma {:induction false} MemberHasKey<K>(cs: seq<Contribution<K>>, i: nat)
    requires i < |cs|
    ensures HasKey(cs, cs[i].key)
  {
    if i > 0 {
      MemberHasKey(cs[1..], i - 1);
    }
  }

  lemma SameKeys<K>(a: seq<Contribution<K>>, b: seq<Contribution<K>>, key: K)
    requires multiset(a) == multiset(b) && HasKey(a, key)
    ensures HasKey(b, key)
  {
    var i := KeyOfMember(a, key);
    SameMembers(a, b);
    assert a[i] in b;
    var j :| 0 <= j < |b| && b[j] == a[i];
    MemberHasKey(b, j);
  }

  lemma PlusRearranges(a: Tokens, b: Tokens, c: Tokens)
    ensures Plus(Plus(a, b), c) == Plus(a, Plus(b, c)) && Plus(NO_TOKENS, a) == a && Plus(a, NO_TOKENS) == a
  {
  }

  lemma {:induction false} FilterAcross<T(!new)>(p: T -> bool, front: seq<T>, x: T, back: seq<T>)
    ensures Filter(p, front + ([x] + back)) == Filter(p, front) + ((if p(x) then [x] else []) + Filter(p, back))
  {
    FilterConcat(p, front, [x] + back);
    FilterOfHead(p, [x] + back);
    assert ([x] + back)[1..] == back;
  }

  lemma {:induction false} FilterTakesOut<T(!new)>(p: T -> bool, b: seq<T>, i: nat)
    requires i < |b|
    ensures multiset(Filter(p, b)) ==
            (if p(b[i]) then multiset{b[i]} else multiset{}) + multiset(Filter(p, b[..i] + b[i + 1..]))
  {
    FilterAcross(p, b[..i], b[i], b[i + 1..]);
    FilterConcat(p, b[..i], b[i + 1..]);
    assert b == b[..i] + ([b[i]] + b[i + 1..]);
  }

  lemma {:induction false} FilterOfPermutation<T(!new)>(p: T -> bool, a: seq<T>, b: seq<T>)
    requires multiset(a) == multiset(b)
    ensures multiset(Filter(p, a)) == multiset(Filter(p, b))
    decreases |a|
  {
    if a == [] {
      assert |multiset(b)| == 0;
    } else {
      assert a[0] in multiset(b);
      var i :| 0 <= i < |b| && b[i] == a[0];
      RestOfPermutation(a, b, i);
      FilterOfPermutation(p, a[1..], b[..i] + b[i + 1..]);
      FilterTakesOut(p, b, i);
      assert Filter(p, a) == (if p(a[0]) then [a[0]] else []) + Filter(p, a[1..]);
    }
  }

  /** Totals, counts, times and outcome are the same for every order of the events. */
  lemma OrderDoesNotMatter(s: Summary, a: seq<NormalizedEvent>, b: seq<NormalizedEvent>, now: Time)
    requires multiset(a) == multiset(b)
    ensures var x, y := MergeAll(s, a, now), MergeAll(s, b, now);
            && Carried(x) == Carried(y) && x.costUsd == y.costUsd && x.toolCalls == y.toolCalls
            && x.errorCount == y.errorCount
            && x.startedAt == y.startedAt && x.lastActivityAt == y.lastActivityAt && x.outcome == y.outcome
  {
    FoldedTotals(s, a, now);
    FoldedTotals(s, b, now);
    TotalOfPermutation(a, b);
    SameCounts(HasTool(), a, b);
    SameCounts(HasError(), a, b);
    SameTimes(s, a, b, now);
    SameOutcome(s, a, b, now);
    SameCostPresence(s, a, b, now);
  }

  lemma SameCostPresence(s: Summary, a: seq<NormalizedEvent>, b: seq<NormalizedEvent>, now: Time)
    requires multiset(a) == multiset(b)
    ensures MergeAll(s, a, now).costUsd.Some? <==> MergeAll(s, b, now).costUsd.Some?
  {
    SameMembers(a, b);
    FoldedCost(s, a, now);
    FoldedCost(s, b, now);
  }

  lemma SameMembers<T>(a: seq<T>, b: seq<T>)
    requires multiset(a) == multiset(b)
    ensures |a| == |b| && forall e :: e in a <==> e in b
  {
    assert |multiset(a)| == |a| && |multiset(b)| == |b|;
    assert forall e :: e in a <==> e in multiset(a);
    assert forall e :: e in b <==> e in multiset(b);
  }

  lemma SameTimes(s: Summary, a: seq<NormalizedEvent>, b: seq<NormalizedEvent>, now: Time)
    requires multiset(a) == multiset(b)
    ensures MergeAll(s, a, now).startedAt == MergeAll(s, b, now).startedAt
    ensures MergeAll(s, a, now).lastActivityAt == MergeAll(s, b, now).lastActivityAt
  {
    SameMembers(a, b);
    FoldedStart(s, a, now);
    FoldedStart(s, b, now);
    FoldedActivity(s, a, now);
    FoldedActivity(s, b, now);
    LeastStampUnique(MergeAll(s, a, now).startedAt, MergeAll(s, b, now).startedAt, s.startedAt, a, b, now);
    GreatestStampUnique(MergeAll(s, a, now).lastActivityAt, MergeAll(s, b, now).lastActivityAt, s.lastActivityAt, a, b,
                        now);
  }

  lemma LeastStampUnique(x: Option<int>, y: Option<int>, prior: Option<int>, a: seq<NormalizedEvent>,
                         b: seq<NormalizedEvent>, now: Time)
    requires |a| == |b| && forall e :: e in a <==> e in b
    requires IsLeastStamp(x, prior, a, now) && IsLeastStamp(y, prior, b, now)
    ensures x == y
  {
  }

  lemma GreatestStampUnique(x: Option<int>, y: Option<int>, prior: Option<int>, a: seq<NormalizedEvent>,
                            b: seq<NormalizedEvent>, now: Time)
    requires |a| == |b| && forall e :: e in a <==> e in b
    requires IsGreatestStamp(x, prior, a, now) && IsGreatestStamp(y, prior, b, now)
    ensures x == y
  {
  }

  lemma SameOutcome(s: Summary, a: seq<NormalizedEvent>, b: seq<NormalizedEvent>, now: Time)
    requires multiset(a) == multiset(b)
    ensures MergeAll(s, a, now).outcome == MergeAll(s, b, now).outcome
  {
    SameMembers(a, b);
    FoldedOutcome(s, a, now);
    FoldedOutcome(s, b, now);
  }

  /** So is every model row. */
  lemma OrderDoesNotMatterPerModel(models: ModelMap, a: seq<NormalizedEvent>, b: seq<NormalizedEvent>, key: string)
    requires multiset(a) == multiset(b)
    ensures key in CountAll(models, Contributions(a)) <==> key in CountAll(models, Contributions(b))
    ensures TokensUnder(CountAll(models, Contributions(a)), key) == TokensUnder(CountAll(models, Contributions(b)), key)
  {
    ContributionsPermute(a, b);
    PermutedCounts(models, Contributions(a), Contributions(b), key);
  }

  lemma PermutedCounts<K>(models: map<K, ModelUsage>, ca: seq<Contribution<K>>, cb: seq<Contribution<K>>, key: K)
    requires multiset(ca) == multiset(cb)
    ensures key in CountAll(models, ca) <==> key in CountAll(models, cb)
    ensures TokensUnder(CountAll(models, ca), key) == TokensUnder(CountAll(models, cb), key)
  {
    CountedRow(models, ca, key);
    CountedRow(models, cb, key);
    SumOfPermutation(ca, cb, key);
    CountedKey(models, ca, key);
    CountedKey(models, cb, key);
    if HasKey(ca, key) { SameKeys(ca, cb, key); }
    if HasKey(cb, key) { SameKeys(cb, ca, key); }
  }

  lemma ContributionsConcat(a: seq<NormalizedEvent>, b: seq<NormalizedEvent>)
    ensures Contributions(a + b) == Contributions(a) + Contributions(b)
  {
  }

  lemma {:induction false} ContributionsPermute(a: seq<NormalizedEvent>, b: seq<NormalizedEvent>)
    requires multiset(a) == multiset(b)
    ensures multiset(Contributions(a)) == multiset(Contributions(b))
    decreases |a|
  {
    SameMembers(a, b);
    if a != [] {
      assert a[0] in a;
      var i :| 0 <= i < |b| && b[i] == a[0];
      RestOfPermutation(a, b, i);
      var rest := b[..i] + b[i + 1..];
      ContributionsPermute(a[1..], rest);
      ContributionsTakeOut(b, i);
      ContributionsHead(a);
    }
  }

  lemma {:induction false} ContributionsHead(a: seq<NormalizedEvent>)
    requires a != []
    ensures multiset(Contributions(a)) == multiset{ContributionOf(a[0])} + multiset(Contributions(a[1..]))
  {
    assert Contributions(a) == [ContributionOf(a[0])] + Contributions(a[1..]);
  }

  lemma {:induction false} ContributionsTakeOut(b: seq<NormalizedEvent>, i: nat)
    requires i < |b|
    ensures multiset(Contributions(b)) == multiset{ContributionOf(b[i])} + multiset(Contributions(b[..i] + b[i + 1..]))
  {
    var cb, rest := Contributions(b), Contributions(b[..i] + b[i + 1..]);
    assert cb == cb[..i] + [cb[i]] + cb[i + 1..];
    ContributionsConcat(b[..i], b[i + 1..]);
    assert Contributions(b[..i]) == cb[..i] && Contributions(b[i + 1..]) == cb[i + 1..];
  }

  lemma {:induction false} SumConcat<K>(a: seq<Contribution<K>>, b: seq<Contribution<K>>, key: K)
    ensures SumOfKey(a + b, key) == Plus(SumOfKey(a, key), SumOfKey(b, key))
  {
    if a == [] {
      assert a + b == b;
    } else {
      assert (a + b)[1..] == a[1..] + b;
      SumConcat(a[1..], b, key);
    }
  }

  lemma {:induction false} SumTakesOutOne<K>(b: seq<Contribution<K>>, i: nat, key: K)
    requires i < |b|
    ensures SumOfKey(b, key) ==
              Plus(if b[i].key == key then b[i].tokens else NO_TOKENS, SumOfKey(b[..i] + b[i + 1..], key))
  {
    SumAcross(b[..i], b[i], b[i + 1..], key);
    assert b == b[..i] + ([b[i]] + b[i + 1..]);
  }

  lemma {:induction false} SumAcross<K>(front: seq<Contribution<K>>, c: Contribution<K>, back: seq<Contribution<K>>,
                                        key: K)
    ensures SumOfKey(front + ([c] + back), key) ==
            Plus(if c.key == key then c.tokens else NO_TOKENS, SumOfKey(front + back, key))
  {
    SumConcat(front, [c] + back, key);
    SumConcat(front, back, key);
    assert ([c] + back)[1..] == back;
  }

  lemma {:induction false} SumOfPermutation<K>(a: seq<Contribution<K>>, b: seq<Contribution<K>>, key: K)
    requires multiset(a) == multiset(b)
    ensures SumOfKey(a, key) == SumOfKey(b, key)
    decreases |a|
  {
    SameMembers(a, b);
    if a != [] {
      assert a[0] in a;
      var i :| 0 <= i < |b| && b[i] == a[0];
      RestOfPermutation(a, b, i);
      SumOfPermutation(a[1..], b[..i] + b[i + 1..], key);
      SumTakesOutOne(b, i, key);
    }
  }

  lemma SameCounts(p: NormalizedEvent -> bool, a: seq<NormalizedEvent>, b: seq<NormalizedEvent>)
    requires multiset(a) == multiset(b)
    ensures |Filter(p, a)| == |Filter(p, b)|
  {
    FilterOfPermutation(p, a, b);
    assert |multiset(Filter(p, a))| == |Filter(p, a)| && |multiset(Filter(p, b))| == |Filter(p, b)|;
  }

  // ---------- updated_at ----------

  /** The updated_at of a session after upserts at `nows`, the first of which created it. */
  function UpdatedAfter(nows: seq<Time>): int
    requires nows != []
  {
    if |nows| == 1 then Seconds(nows[0]) else UpdatedAt(Some(UpdatedAfter(nows[..|nows| - 1])), nows[|nows| - 1])
  }

  /** After n upserts it is the greatest of now_i + (n - i) whole seconds, so it grows with every upsert
      under any clock. */
  lemma {:induction false} UpdatedAtIsGreatest(nows: seq<Time>)
    requires nows != []
    ensures exists i :: 0 <= i < |nows| && UpdatedAfter(nows) == Seconds(nows[i]) + (|nows| - 1 - i)
    ensures forall i :: 0 <= i < |nows| ==> UpdatedAfter(nows) >= Seconds(nows[i]) + (|nows| - 1 - i)
    ensures |nows| > 1 ==> UpdatedAfter(nows) > UpdatedAfter(nows[..|nows| - 1])
  {
    var n := |nows| - 1;
    if n == 0 {
      assert UpdatedAfter(nows) == Seconds(nows[0]) + (|nows| - 1 - 0);
    } else {
      var front := nows[..n];
      UpdatedAtIsGreatest(front);
      var i :| 0 <= i < n && UpdatedAfter(front) == Seconds(front[i]) + (n - 1 - i);
      assert nows[i] == front[i];
      if Seconds(nows[n]) <= UpdatedAfter(front) {
        assert UpdatedAfter(nows) == Seconds(nows[i]) + (|nows| - 1 - i);
      } else {
        assert UpdatedAfter(nows) == Seconds(nows[n]) + (|nows| - 1 - n);
      }
      forall k | 0 <= k < |nows| ensures UpdatedAfter(nows) >= Seconds(nows[k]) + (|nows| - 1 - k) {
        if k < n { assert front[k] == nows[k]; }
      }
    }
  }

  /** The one model row there is belongs to the contribution's key. */
  ghost predicate HasOneModel(s: Summary, c: Contribution<string>) {
    |s.models| == 1 && ModelKey(s.models[0].model) == c.key
  }

  lemma SingleRow(models: ModelMap, c: Contribution<string>, row: ModelUsage)
    requires models == map[c.key := row]
    ensures FinishedRows([row], models)
  {
    assert SortedListOf([c.key], models.Keys) && [row] == RowsAt(models, [c.key]);
  }

  lemma MergeOne(s: Summary, e: NormalizedEvent, now: Time)
    ensures MergeAll(s, [e], now) == MergeEvent(s, e, now) && Contributions([e]) == [ContributionOf(e)]
  {
    assert [e][1..] == [];
  }

  lemma CountOne(models: ModelMap, c: Contribution<string>)
    ensures CountAll(models, [c]) == CountModel(models, c)
  {
    assert [c][1..] == [];
  }

  /** What a session's first event makes of it. */
  lemma MergeOfOne(e: NormalizedEvent, sid: string, now: Time) returns (r: Summary)
    requires sid != ""
    ensures IsMerge(r, EMPTY_SUMMARY, sid, [e], now) && HasOneModel(r, ContributionOf(e))
  {
    var start, c := Opened(EMPTY_SUMMARY, sid), ContributionOf(e);
    var row := ModelUsage(c.model, Plus(NO_TOKENS, c.tokens));
    MergeOne(start, e, now);
    CountOne(LoadModels(start.models), c);
    SingleRow(CountModel(map[], c), c, row);
    r := MergeEvent(start, e, now).(models := [row], model := row.model, updatedAt := Some(UpdatedAt(None, now)));
  }

  /** What one more event of the same model makes of a session. */
  lemma MergeAgain(s: Summary, e: NormalizedEvent, sid: string, now: Time) returns (r: Summary)
    requires s.sessionId != "" && HasOneModel(s, ContributionOf(e))
    ensures IsMerge(r, s, sid, [e], now) && HasOneModel(r, ContributionOf(e))
  {
    var c := ContributionOf(e);
    var row := s.models[0].(tokens := Plus(s.models[0].tokens, c.tokens));
    assert s.models[..0] == [];
    assert LoadModels(s.models) == map[c.key := s.models[0]];
    MergeOne(s, e, now);
    CountOne(LoadModels(s.models), c);
    SingleRow(CountModel(LoadModels(s.models), c), c, row);
    r := MergeEvent(s, e, now).(models := [row], model := row.model, updatedAt := Some(UpdatedAt(s.updatedAt, now)));
  }
}
