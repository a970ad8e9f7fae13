/** What the session fold of internal/queue/sessions.go reports, said over the events themselves: which model
    labels survive, what each model's row holds, and when a session is named by its model. */
module SessionLabels {
  import opened Seqs
  import opened Strings
  import opened Api
  import opened Usages
  import opened Sessions
  import SessionQueue

  // ---------- trimmed text ----------

  predicate SpaceIn(v: string, a: int, b: int)
    requires 0 <= a && b <= |v|
  {
    forall k :: a <= k < b ==> IsSpace(v[k])
  }

  /** Neither empty nor with space at either end. */
  predicate IsTight(m: string) { m != "" && !IsSpace(m[0]) && !IsSpace(m[|m| - 1]) }

  ghost predicate IsAt(v: string, m: string, i: int) {
    0 <= i <= i + |m| <= |v| && v[i..i + |m|] == m && SpaceIn(v, 0, i) && SpaceIn(v, i + |m|, |v|)
  }

  /** `v` is `m` between spaces. */
  ghost predicate IsPadded(v: string, m: string) { exists i :: IsAt(v, m, i) }

  lemma {:induction false} TrimLeftDrops(s: string)
    ensures SpaceIn(s, 0, |s| - |TrimLeft(s)|)
  {
    if s != [] && IsSpace(s[0]) {
      TrimLeftDrops(s[1..]);
      forall k | 0 <= k < |s| - |TrimLeft(s)| ensures IsSpace(s[k]) {
        assert k > 0 ==> s[k] == s[1..][k - 1];
      }
    }
  }

  lemma {:induction false} TrimRightDrops(s: string)
    ensures SpaceIn(s, |TrimRight(s)|, |s|)
  {
    if s != [] && IsSpace(s[|s| - 1]) {
      TrimRightDrops(s[..|s| - 1]);
      forall k | |TrimRight(s)| <= k < |s| ensures IsSpace(s[k]) {
        assert k < |s| - 1 ==> s[k] == s[..|s| - 1][k];
      }
    }
  }

  lemma SpaceShifts(v: string, i: nat, a: nat, b: nat)
    requires i + b <= |v| && SpaceIn(v[i..], a, b)
    ensures SpaceIn(v, i + a, i + b)
  {
    forall k | i + a <= k < i + b ensures IsSpace(v[k]) {
      assert v[k] == v[i..][k - i];
    }
  }

  lemma TrimmedWithin(v: string, left: string, m: string, i: nat)
    requires i <= |v| && left == v[i..] && m <= left && SpaceIn(v, 0, i) && SpaceIn(left, |m|, |left|)
    ensures IsAt(v, m, i)
  {
    SpaceShifts(v, i, |m|, |left|);
    assert left[..|m|] == v[i..i + |m|];
  }

  lemma TrimmedAt(v: string)
    ensures IsAt(v, TrimSpace(v), |v| - |TrimLeft(v)|)
  {
    TrimLeftDrops(v);
    TrimmedRight(v, TrimLeft(v), |v| - |TrimLeft(v)|);
  }

  lemma TrimmedRight(v: string, left: string, i: nat)
    requires i <= |v| && left == v[i..] && SpaceIn(v, 0, i)
    ensures IsAt(v, TrimRight(left), i)
  {
    TrimRightDrops(left);
    TrimmedWithin(v, left, TrimRight(left), i);
  }

  lemma TrimmedIsTight(v: string)
    ensures TrimSpace(v) != "" ==> IsTight(TrimSpace(v))
  {
  }

  lemma TightIsUnique(v: string, m: string, i: int, m': string, i': int)
    requires IsTight(m) && IsAt(v, m, i) && IsAt(v, m', i') && (m' == "" || IsTight(m'))
    ensures m == m'
  {
    assert v[i] == m[0] && v[i + |m| - 1] == m[|m| - 1];
    assert m' != "" ==> v[i'] == m'[0] && v[i' + |m'| - 1] == m'[|m'| - 1];
  }

  /** Trimming gives the one tight text that is padded to `v`. */
  lemma TrimIs(v: string, m: string)
    requires IsTight(m)
    ensures TrimSpace(v) == m <==> IsPadded(v, m)
  {
    TrimmedAt(v);
    TrimmedIsTight(v);
    if i :| IsAt(v, m, i) {
      TightIsUnique(v, m, i, TrimSpace(v), |v| - |TrimLeft(v)|);
    }
  }

  lemma {:induction false} ContainsChar(s: string, c: char)
    ensures Contains(s, [c]) <==> c in s
  {
    if s != [] {
      ContainsChar(s[1..], c);
      assert s == [s[0]] + s[1..];
    }
  }

  // ---------- model labels ----------

  /** "mixed" or a text that starts with "mixed:", in any case; lower-casing also makes an i of U+0130. */
  predicate IsComposite(m: string) {
    && |m| >= 5 && m[0] in "mM" && m[2] in "xX" && m[3] in "eE" && m[4] in "dD"
    && if |m| == 5 then m[1] in "iI" else m[1] in "iI\U{0130}" && m[5] == ':'
  }

  /** A label that names one model. */
  predicate IsLabel(m: string) {
    IsTight(m) && '\\' !in m && m[0] != '/' && m[0] != '~' && !IsComposite(m)
  }

  lemma MixedLetters()
    ensures "mixed:" == ['m', 'i', 'x', 'e', 'd', ':'] && "mixed" == ['m', 'i', 'x', 'e', 'd']
    ensures "\\" == ['\\']
  {
  }

  lemma LowerLetters(c: char)
    ensures (AsciiLower(c) == 'm' <==> c in "mM") && (AsciiLower(c) == 'i' <==> c in "iI")
    ensures (AsciiLower(c) == 'x' <==> c in "xX") && (AsciiLower(c) == 'e' <==> c in "eE")
    ensures (AsciiLower(c) == 'd' <==> c in "dD") && (LowerChar(c) == ':' <==> c == ':')
    ensures (LowerChar(c) == 'm' <==> c in "mM") && (LowerChar(c) == 'i' <==> c in "iI\U{0130}")
    ensures (LowerChar(c) == 'x' <==> c in "xX") && (LowerChar(c) == 'e' <==> c in "eE")
    ensures LowerChar(c) == 'd' <==> c in "dD"
  {
  }

  lemma FoldsToMixed(s: string)
    ensures EqualFoldAscii(s, "mixed") <==> |s| == 5 && IsComposite(s)
  {
    MixedLetters();
    if |s| == 5 {
      LowerLetters(s[0]);
      LowerLetters(s[1]);
      LowerLetters(s[2]);
      LowerLetters(s[3]);
      LowerLetters(s[4]);
    }
  }

  lemma StartsMixed(s: string)
    ensures HasPrefix(ToLower(s), "mixed:") <==> |s| > 5 && IsComposite(s)
  {
    MixedLetters();
    if |s| > 5 {
      LowerLetters(s[0]);
      LowerLetters(s[1]);
      LowerLetters(s[2]);
      LowerLetters(s[3]);
      LowerLetters(s[4]);
      LowerLetters(s[5]);
      var l := ToLower(s);
      assert HasPrefix(l, "mixed:") <==> l[..6] == ['m', 'i', 'x', 'e', 'd', ':'];
      assert l[..6] == [l[0], l[1], l[2], l[3], l[4], l[5]];
    }
  }

  lemma AnalyticalIs(v: string)
    ensures AnalyticalModel(Some(v)) == if IsLabel(TrimSpace(v)) then Some(TrimSpace(v)) else None
  {
    var s := TrimSpace(v);
    TrimmedIsTight(v);
    FoldsToMixed(s);
    StartsMixed(s);
    MixedLetters();
    ContainsChar(s, '\\');
  }

  /** The event names the model `m`: its label is `m` between spaces. */
  ghost predicate Names(e: NormalizedEvent, m: string) { e.model.Some? && IsPadded(e.model.value, m) }

  /** An event counts under `m` exactly when it names `m` and `m` is the label of one model; no model, an empty one,
      a path or a mix counts as unknown. */
  lemma LabelCounts(e: NormalizedEvent, m: string)
    ensures ContributionOf(e).model == Some(m) <==> IsLabel(m) && Names(e, m)
    ensures ContributionOf(e).model == None <==> forall l :: IsLabel(l) ==> !Names(e, l)
    ensures ContributionOf(e).tokens == UsageOf(e).tokens
  {
    if e.model.Some? {
      AnalyticalIs(e.model.value);
      if IsLabel(m) {
        TrimIs(e.model.value, m);
      }
      forall l | IsLabel(l) ensures Names(e, l) <==> TrimSpace(e.model.value) == l {
        TrimIs(e.model.value, l);
      }
    }
  }

  // ---------- the rows of a session ----------

  /** The key that events without a model share; a model of that very name shares it too. */
  const RESERVED := ['\0', 'u', 'n', 'k', 'n', 'o', 'w', 'n']

  lemma ReservedIs()
    ensures UNKNOWN_MODEL == RESERVED
  {
  }

  /** The tokens of the rows that carry this model. */
  function RowTokens(rows: seq<ModelUsage>, model: Option<string>): Tokens {
    if rows == [] then NO_TOKENS
    else if rows[0].model == model then Plus(rows[0].tokens, RowTokens(rows[1..], model))
    else RowTokens(rows[1..], model)
  }

  ghost function NamesModel(m: string): NormalizedEvent -> bool { (e: NormalizedEvent) => Names(e, m) }

  /** The tokens of the events that name `m`. */
  ghost function TokensOfModel(events: seq<NormalizedEvent>, m: string): Tokens {
    Total(Filter(NamesModel(m), events)).tokens
  }

  lemma KeyOfLabel(e: NormalizedEvent, m: string)
    requires IsLabel(m) && m != RESERVED
    ensures ContributionOf(e).key == m <==> Names(e, m)
    ensures ContributionOf(e).tokens == UsageOf(e).tokens
  {
    ReservedIs();
    LabelCounts(e, m);
  }

  lemma OneMoreUnder(c: Contribution<string>, rest: Tokens, all: Usage, tail: Usage, counts: bool, u: Usage, m: string)
    requires (c.key == m <==> counts) && c.tokens == u.tokens && rest == tail.tokens
    requires all == Add(if counts then u else ZERO, tail)
    ensures Plus(if c.key == m then c.tokens else NO_TOKENS, rest) == all.tokens
  {
  }

  lemma SumOfHead(events: seq<NormalizedEvent>, m: string)
    requires events != []
    ensures var c := ContributionOf(events[0]);
            SumOfKey(Contributions(events), m) ==
            Plus(if c.key == m then c.tokens else NO_TOKENS, SumOfKey(Contributions(events[1..]), m))
  {
    assert Contributions(events)[1..] == Contributions(events[1..]);
  }

  lemma {:induction false} ContributedUnder(events: seq<NormalizedEvent>, m: string)
    requires IsLabel(m) && m != RESERVED
    ensures SumOfKey(Contributions(events), m) == TokensOfModel(events, m)
  {
    if events != [] {
      var p, rest := NamesModel(m), events[1..];
      ContributedUnder(rest, m);
      SumOfHead(events, m);
      KeyOfLabel(events[0], m);
      TotalOfHead(p, events);
      OneMoreUnder(ContributionOf(events[0]), SumOfKey(Contributions(rest), m), Total(Filter(p, events)),
                   Total(Filter(p, rest)), p(events[0]), UsageOf(events[0]), m);
    }
  }

  /** Only the row of key `m` carries the model `m`. */
  ghost predicate OwnRow(models: ModelMap, m: string) {
    forall k :: k in models ==> (models[k].model == Some(m) <==> k == m)
  }

  lemma KeyedOwnsRow(models: ModelMap, m: string)
    requires Keyed(models) && m != RESERVED
    ensures OwnRow(models, m)
  {
    ReservedIs();
  }

  lemma {:induction false} NoRow(rows: seq<ModelUsage>, model: Option<string>)
    requires forall i :: 0 <= i < |rows| ==> rows[i].model != model
    ensures RowTokens(rows, model) == NO_TOKENS
  {
    if rows != [] {
      NoRow(rows[1..], model);
    }
  }

  lemma {:induction false} OneRow(rows: seq<ModelUsage>, i: nat, model: Option<string>)
    requires i < |rows| && forall j :: 0 <= j < |rows| ==> (rows[j].model == model <==> j == i)
    ensures RowTokens(rows, model) == rows[i].tokens
  {
    if i == 0 {
      NoRow(rows[1..], model);
    } else {
      OneRow(rows[1..], i - 1, model);
    }
    PlusRearranges(rows[i].tokens, NO_TOKENS, NO_TOKENS);
  }

  lemma SortedIsDistinct(keys: seq<string>, i: nat, j: nat)
    requires StrictlySorted(keys) && i < |keys| && j < |keys| && keys[i] == keys[j]
    ensures i == j
  {
    LessIrreflexive(keys[i]);
  }

  lemma ListedTokens(models: ModelMap, keys: seq<string>, m: string)
    requires OwnRow(models, m) && (forall k :: k in keys ==> k in models) && StrictlySorted(keys)
    ensures RowTokens(RowsAt(models, keys), Some(m)) == if m in keys then models[m].tokens else NO_TOKENS
  {
    var rows := RowsAt(models, keys);
    if m in keys {
      var i :| 0 <= i < |keys| && keys[i] == m;
      forall j | 0 <= j < |rows| ensures rows[j].model == Some(m) <==> j == i {
        if keys[j] == m { SortedIsDistinct(keys, i, j); }
      }
      OneRow(rows, i, Some(m));
    } else {
      NoRow(rows, Some(m));
    }
  }

  lemma FinishedTokens(rows: seq<ModelUsage>, models: ModelMap, m: string)
    requires Keyed(models) && FinishedRows(rows, models) && m != RESERVED
    ensures RowTokens(rows, Some(m)) == TokensUnder(models, m)
  {
    var keys :| SortedListOf(keys, models.Keys) && rows == RowsAt(models, keys);
    KeyedOwnsRow(models, m);
    ListedTokens(models, keys, m);
  }

  lemma LoadedTokens(rows: seq<ModelUsage>, m: string)
    requires StrictlySorted(KeysOf(rows)) && m != RESERVED
    ensures TokensUnder(LoadModels(rows), m) == RowTokens(rows, Some(m))
  {
    LoadIsKeyed(rows);
    LoadedRowsFinished(rows);
    FinishedTokens(rows, LoadModels(rows), m);
  }

  /** After a merge the row of a model holds what it held before and the tokens of exactly the events that name it. */
  lemma MergedTokens(r: Summary, s: Summary, sessionId: string, events: seq<NormalizedEvent>, now: Time, m: string)
    requires Sound(s) && sessionId != "" && IsMerge(r, s, sessionId, events, now) && IsLabel(m) && m != RESERVED
    ensures RowTokens(r.models, Some(m)) == Plus(RowTokens(s.models, Some(m)), TokensOfModel(events, m))
  {
    var loaded := LoadModels(Opened(s, sessionId).models);
    var cs := Contributions(events);
    LoadIsKeyed(Opened(s, sessionId).models);
    CountIsKeyed(loaded, cs);
    FinishedTokens(r.models, CountAll(loaded, cs), m);
    CountedRow(loaded, cs, m);
    LoadedTokens(s.models, m);
    ContributedUnder(events, m);
  }

  // ---------- the model that names a session ----------

  lemma ListedAlone(keys: seq<string>, all: set<string>, m: string)
    requires SortedListOf(keys, all)
    ensures |keys| == 1 && keys[0] == m <==> all == {m}
  {
    if all == {m} {
      assert m in keys;
      var i :| 0 <= i < |keys| && keys[i] == m;
      if |keys| > 1 {
        var j := if i == 0 then 1 else 0;
        assert keys[j] in all;
        SortedIsDistinct(keys, i, j);
      }
    } else if |keys| == 1 && keys[0] == m {
      assert forall k :: k in all <==> k in keys;
    }
  }

  lemma SingleKey(rows: seq<ModelUsage>, models: ModelMap, m: string)
    requires OwnRow(models, m) && FinishedRows(rows, models)
    ensures |rows| == 1 && rows[0].model == Some(m) <==> models.Keys == {m}
  {
    var keys :| SortedListOf(keys, models.Keys) && rows == RowsAt(models, keys);
    ListedAlone(keys, models.Keys, m);
    if |keys| == 1 {
      assert keys[0] in models && rows[0] == models[keys[0]];
    }
  }

  /** Every row there was and every event is `m`'s. */
  ghost predicate AllNamed(rows: seq<ModelUsage>, events: seq<NormalizedEvent>, m: string) {
    (forall row :: row in rows ==> row.model == Some(m)) && forall e :: e in events ==> Names(e, m)
  }

  /** The keys that the rows bring are all `m`. */
  ghost predicate OnlyRowKey(rows: seq<ModelUsage>, m: string) { forall k :: k in KeysOf(rows) ==> k == m }

  ghost predicate OnlyEventKey(cs: seq<Contribution<string>>, m: string) { forall k :: HasKey(cs, k) ==> k == m }

  lemma RowKeys(rows: seq<ModelUsage>, m: string)
    requires m != RESERVED
    ensures OnlyRowKey(rows, m) <==> forall row :: row in rows ==> row.model == Some(m)
  {
    ReservedIs();
    forall row | row in rows ensures ModelKey(row.model) in KeysOf(rows) {
      var i :| 0 <= i < |rows| && rows[i] == row;
      assert KeysOf(rows)[i] == ModelKey(row.model);
    }
    if forall row :: row in rows ==> row.model == Some(m) {
      forall k | k in KeysOf(rows) ensures k == m {
        var i :| 0 <= i < |rows| && KeysOf(rows)[i] == k;
        assert rows[i] in rows;
      }
    }
  }

  lemma EventKeys(events: seq<NormalizedEvent>, m: string)
    requires IsLabel(m) && m != RESERVED
    ensures OnlyEventKey(Contributions(events), m) <==> forall e :: e in events ==> Names(e, m)
  {
    var cs := Contributions(events);
    if OnlyEventKey(cs, m) {
      forall e | e in events ensures Names(e, m) {
        var i :| 0 <= i < |events| && events[i] == e;
        MemberHasKey(cs, i);
        assert HasKey(cs, cs[i].key);
        KeyOfLabel(e, m);
      }
    }
    if forall e :: e in events ==> Names(e, m) {
      forall k | HasKey(cs, k) ensures k == m {
        var i := KeyOfMember(cs, k);
        assert events[i] in events;
        KeyOfLabel(events[i], m);
      }
    }
  }

  lemma KeysTogether(models: ModelMap, rows: seq<ModelUsage>, cs: seq<Contribution<string>>, m: string)
    requires forall k :: k in models <==> k in KeysOf(rows) || HasKey(cs, k)
    ensures models.Keys == {m} <==> (rows != [] || cs != []) && OnlyRowKey(rows, m) && OnlyEventKey(cs, m)
  {
    if rows != [] {
      assert KeysOf(rows)[0] in models;
    }
    if cs != [] {
      MemberHasKey(cs, 0);
      assert cs[0].key in models;
    }
    if models.Keys == {m} {
      assert m in models;
      assert forall k :: k in models ==> k in models.Keys;
    }
    if (rows != [] || cs != []) && OnlyRowKey(rows, m) && OnlyEventKey(cs, m) {
      assert forall k :: k in models ==> k == m;
      assert models.Keys == {m};
    }
  }

  lemma AllKeys(rows: seq<ModelUsage>, events: seq<NormalizedEvent>, m: string)
    requires IsLabel(m) && m != RESERVED
    ensures CountAll(LoadModels(rows), Contributions(events)).Keys == {m} <==>
            (rows != [] || events != []) && AllNamed(rows, events, m)
  {
    var models, cs := CountAll(LoadModels(rows), Contributions(events)), Contributions(events);
    RowKeys(rows, m);
    EventKeys(events, m);
    LoadedKeys(rows);
    forall k ensures k in models <==> k in KeysOf(rows) || HasKey(cs, k) {
      CountedKey(LoadModels(rows), cs, k);
    }
    KeysTogether(models, rows, cs, m);
  }

  /** A session is named by a model exactly when it has usage and all of it is that model's. */
  lemma NamedByItsModel(r: Summary, s: Summary, sessionId: string, events: seq<NormalizedEvent>, now: Time, m: string)
    requires Sound(s) && sessionId != "" && IsMerge(r, s, sessionId, events, now) && IsLabel(m) && m != RESERVED
    ensures r.model == Some(m) <==> (s.models != [] || events != []) && AllNamed(s.models, events, m)
  {
    var loaded := LoadModels(Opened(s, sessionId).models);
    LoadIsKeyed(Opened(s, sessionId).models);
    CountIsKeyed(loaded, Contributions(events));
    KeyedOwnsRow(CountAll(loaded, Contributions(events)), m);
    SingleKey(r.models, CountAll(loaded, Contributions(events)), m);
    AllKeys(s.models, events, m);
  }

  lemma ReservedIsLabel()
    ensures IsLabel(RESERVED)
  {
  }

  /** The reserved text is a label too, and an event that carries it shares the row of the events without a model. */
  lemma ReservedSharesRow(e: NormalizedEvent, bare: NormalizedEvent, m: string)
    requires m == RESERVED && e.model == Some(m) && bare.model == None
    ensures ContributionOf(e).model == Some(m) && ContributionOf(bare).model == None
    ensures ContributionOf(e).key == ContributionOf(bare).key
  {
    ReservedIs();
    ReservedIsLabel();
    assert IsAt(m, m, 0);
    LabelCounts(e, m);
  }

  // ---------- groups ----------

  lemma BlankIffSpace(v: string)
    ensures TrimSpace(v) == "" <==> SpaceIn(v, 0, |v|)
  {
    TrimmedAt(v);
    TrimmedIsTight(v);
    var m, i := TrimSpace(v), |v| - |TrimLeft(v)|;
    if m == "" {
      forall k | 0 <= k < |v| ensures IsSpace(v[k]) {
        assert k < i || i + |m| <= k;
      }
    } else {
      assert v[i] == m[0];
    }
  }

  /** A session id has a group exactly when some event carries it and it is not all space; the group is the events
      that carry it, in order. */
  lemma GroupedIff(events: seq<NormalizedEvent>, sid: string)
    ensures var groups := SessionQueue.Groups(events);
            && (sid in groups <==> !SpaceIn(sid, 0, |sid|) && exists e :: e in events && e.sessionId == Some(sid))
            && (sid in groups ==> groups[sid] == Filter((e: NormalizedEvent) => e.sessionId == Some(sid), events))
  {
    BlankIffSpace(sid);
    if sid in SessionQueue.Groups(events) {
      SameFilter(SessionQueue.OfSession(sid), (e: NormalizedEvent) => e.sessionId == Some(sid), events);
    }
  }

  lemma {:induction false} SameFilter<T(!new)>(p: T -> bool, q: T -> bool, s: seq<T>)
    requires forall x :: p(x) == q(x)
    ensures Filter(p, s) == Filter(q, s)
  {
    if s != [] {
      SameFilter(p, q, s[1..]);
    }
  }

  // ---------- times, outcome and labels ----------

  /** `stamp` is the whole second of the event's own instant, or of `now` when it has none. */
  predicate IsSecondOf(stamp: int, e: NormalizedEvent, now: Time) {
    var t := if e.timestamp.Some? && e.timestamp.value.At? then e.timestamp.value.nanos else now;
    stamp * 1_000_000_000 <= t < (stamp + 1) * 1_000_000_000
  }

  lemma StampIsSecond(e: NormalizedEvent, now: Time)
    ensures IsSecondOf(EventStamp(e.timestamp, now), e, now)
  {
  }

  lemma SecondIsUnique(e: NormalizedEvent, now: Time, stamp: int)
    requires IsSecondOf(stamp, e, now)
    ensures stamp == EventStamp(e.timestamp, now)
  {
    StampIsSecond(e, now);
  }

  /** Of a session's first batch the start is the second of one event and no later than that of any other, and the
      last activity no earlier. */
  lemma SpanOfEvents(s: Summary, events: seq<NormalizedEvent>, now: Time, e: NormalizedEvent, stamp: int)
    requires s.startedAt == None && s.lastActivityAt == None && e in events && IsSecondOf(stamp, e, now)
    ensures var r := MergeAll(s, events, now);
            && r.startedAt.Some? && r.startedAt.value <= stamp
            && r.lastActivityAt.Some? && stamp <= r.lastActivityAt.value
            && (exists x :: x in events && IsSecondOf(r.startedAt.value, x, now))
            && (exists x :: x in events && IsSecondOf(r.lastActivityAt.value, x, now))
  {
    var r := MergeAll(s, events, now);
    FoldedStart(s, events, now);
    FoldedActivity(s, events, now);
    SecondIsUnique(e, now, stamp);
    var x :| x in events && r.startedAt.value == EventStamp(x.timestamp, now);
    StampIsSecond(x, now);
    var y :| y in events && r.lastActivityAt.value == EventStamp(y.timestamp, now);
    StampIsSecond(y, now);
  }

  predicate OccursAt(s: string, sub: string, i: int) { 0 <= i <= |s| - |sub| && s[i..i + |sub|] == sub }

  lemma OccursInTail(s: string, sub: string, i: int)
    requires s != []
    ensures OccursAt(s[1..], sub, i) <==> i >= 0 && OccursAt(s, sub, i + 1)
  {
    if 0 <= i <= |s| - 1 - |sub| {
      assert s[1..][i..i + |sub|] == s[i + 1..i + 1 + |sub|];
    }
  }

  lemma {:induction false} ContainsAt(s: string, sub: string)
    ensures Contains(s, sub) <==> exists i :: OccursAt(s, sub, i)
  {
    assert HasPrefix(s, sub) <==> OccursAt(s, sub, 0);
    if s != [] {
      ContainsAt(s[1..], sub);
      if i :| OccursAt(s[1..], sub, i) {
        OccursInTail(s, sub, i);
        assert OccursAt(s, sub, i + 1);
      }
      if i :| OccursAt(s, sub, i) {
        OccursInTail(s, sub, i - 1);
        assert i > 0 ==> OccursAt(s[1..], sub, i - 1);
      }
    }
  }

  /** `word`, in small letters, occurs in `s` in any case. */
  ghost predicate Mentions(s: string, word: string) { exists i :: OccursAt(ToLower(s), word, i) }

  lemma MentionsIff(s: string, word: string)
    ensures Contains(ToLower(s), word) <==> Mentions(s, word)
  {
    ContainsAt(ToLower(s), word);
  }

  /** A terminal event mentions the end of a session or of a conversation. */
  lemma TerminalMentions(name: string)
    ensures TerminalEvent(Some(name)) <==>
            || Mentions(name, "session.end") || Mentions(name, "session_end")
            || Mentions(name, "conversation.end") || Mentions(name, "conversation_end")
  {
    MentionsIff(name, "session.end");
    MentionsIff(name, "session_end");
    MentionsIff(name, "conversation.end");
    MentionsIff(name, "conversation_end");
  }

  /** The repository label an event offers: tight, without a slash of either kind. */
  ghost predicate OffersRepo(e: NormalizedEvent, m: string) {
    e.repo.Some? && IsPadded(e.repo.value, m) && IsTight(m) && '/' !in m && '\\' !in m
  }

  /** The source label an event offers: its name up to the first dot. */
  ghost predicate OffersSource(e: NormalizedEvent, m: string) {
    && e.eventName.Some? && m != "" && '.' !in m
    && (e.eventName.value == m || m + "." <= e.eventName.value)
  }

  lemma SanitizedOffer(e: NormalizedEvent, m: string)
    ensures OffersRepo(e, m) <==> e.repo.Some? && m != "" && SanitizeLabel(e.repo.value) == m
  {
    if e.repo.Some? {
      var s := TrimSpace(e.repo.value);
      TrimmedIsTight(e.repo.value);
      ContainsChar(s, '/');
      ContainsChar(s, '\\');
      MixedLetters();
      SlashIs();
      if IsTight(m) {
        TrimIs(e.repo.value, m);
      }
    }
  }

  lemma SlashIs()
    ensures "/" == ['/'] && "." == ['.']
  {
  }

  lemma {:induction false} BeforeDotIs(name: string, m: string)
    ensures BeforeDot(name) == m <==> '.' !in m && (name == m || m + ['.'] <= name)
  {
    if name != "" && name[0] != '.' {
      if m != "" {
        BeforeDotIs(name[1..], m[1..]);
        assert m == [m[0]] + m[1..] && name == [name[0]] + name[1..];
        assert m[1..] + ['.'] <= name[1..] && m[0] == name[0] ==> m + ['.'] <= name;
        assert m + ['.'] <= name ==> name[1..][..|m|] == m[1..] + ['.'];
      }
    } else {
      assert m + ['.'] <= name && m != "" ==> name[0] == m[0];
    }
  }

  lemma SourceOffer(e: NormalizedEvent, m: string)
    ensures OffersSource(e, m) <==> e.eventName.Some? && m != "" && BeforeDot(e.eventName.value) == m
  {
    SlashIs();
    if e.eventName.Some? {
      BeforeDotIs(e.eventName.value, m);
    }
  }

  /** `given` is what was there, else the first offer among the events, else nothing. */
  ghost predicate IsFirstOffer(given: Option<string>, prior: Option<string>, events: seq<NormalizedEvent>,
                               offers: (NormalizedEvent, string) -> bool) {
    if prior.Some? then given == prior
    else match given
      case None => forall e, m :: e in events ==> !offers(e, m)
      case Some(m) => exists i :: 0 <= i < |events| && offers(events[i], m)
                                  && forall j, l :: 0 <= j < i ==> !offers(events[j], l)
  }

  ghost function RepoOffers(): (NormalizedEvent, string) -> bool { (e: NormalizedEvent, m: string) => OffersRepo(e, m) }

  ghost function SourceOffers(): (NormalizedEvent, string) -> bool {
    (e: NormalizedEvent, m: string) => OffersSource(e, m)
  }

  lemma OfferStep(before: Option<string>, mid: Option<string>, given: Option<string>, events: seq<NormalizedEvent>,
                  offers: (NormalizedEvent, string) -> bool)
    requires events != [] && IsFirstOffer(mid, before, [events[0]], offers)
             && IsFirstOffer(given, mid, events[1..], offers)
    ensures IsFirstOffer(given, before, events, offers)
  {
    HeadOrTail(events);
    if before.None? && mid.None? {
      assert [events[0]][0] == events[0];
      if given.Some? {
        var i :| 0 <= i < |events[1..]| && offers(events[1..][i], given.value)
                 && forall j, l :: 0 <= j < i ==> !offers(events[1..][j], l);
        assert events[i + 1] == events[1..][i];
        forall j, l | 0 <= j < i + 1 ensures !offers(events[j], l) {
          assert j > 0 ==> events[j] == events[1..][j - 1];
        }
      }
    } else if before.None? {
      assert offers(events[0], mid.value);
    }
  }

  lemma OneOffer(given: Option<string>, prior: Option<string>, e: NormalizedEvent, own: string,
                 offers: (NormalizedEvent, string) -> bool)
    requires forall m :: offers(e, m) <==> m != "" && m == own
    requires given == if prior.Some? then prior else if own != "" then Some(own) else None
    ensures IsFirstOffer(given, prior, [e], offers)
  {
    assert [e][0] == e;
  }

  lemma RepoOffered(s: Summary, e: NormalizedEvent, now: Time)
    ensures IsFirstOffer(MergeEvent(s, e, now).repo, s.repo, [e], RepoOffers())
  {
    var repo := if e.repo.Some? then SanitizeLabel(e.repo.value) else "";
    forall m ensures RepoOffers()(e, m) <==> m != "" && m == repo {
      SanitizedOffer(e, m);
    }
    OneOffer(MergeEvent(s, e, now).repo, s.repo, e, repo, RepoOffers());
  }

  lemma SourceOffered(s: Summary, e: NormalizedEvent, now: Time)
    ensures IsFirstOffer(MergeEvent(s, e, now).source, s.source, [e], SourceOffers())
  {
    var source := if e.eventName.Some? then BeforeDot(e.eventName.value) else "";
    forall m ensures SourceOffers()(e, m) <==> m != "" && m == source {
      SourceOffer(e, m);
    }
    OneOffer(MergeEvent(s, e, now).source, s.source, e, source, SourceOffers());
  }

  /** The repository and the source of a session are the first ones offered. */
  lemma {:induction false} FoldedLabels(s: Summary, events: seq<NormalizedEvent>, now: Time)
    ensures IsFirstOffer(MergeAll(s, events, now).repo, s.repo, events, RepoOffers())
    ensures IsFirstOffer(MergeAll(s, events, now).source, s.source, events, SourceOffers())
    decreases |events|
  {
    if events != [] {
      var s1 := MergeEvent(s, events[0], now);
      var r := MergeAll(s1, events[1..], now);
      RepoOffered(s, events[0], now);
      SourceOffered(s, events[0], now);
      FoldedLabels(s1, events[1..], now);
      OfferStep(s.repo, s1.repo, r.repo, events, RepoOffers());
      OfferStep(s.source, s1.source, r.source, events, SourceOffers());
    }
  }

  /** The event at `i` ends the session: it is terminal, and no error came with it or before it. */
  ghost predicate EndsAt(s: Summary, events: seq<NormalizedEvent>, i: int) {
    && 0 <= i < |events| && s.outcome != Failed && TerminalEvent(events[i].eventName)
    && forall j :: 0 <= j <= i ==> events[j].errorMessage == None
  }

  lemma EndsInTail(s: Summary, events: seq<NormalizedEvent>, now: Time, i: int)
    requires events != [] && i >= 0
    ensures EndsAt(s, events, i + 1) <==> EndsAt(MergeEvent(s, events[0], now), events[1..], i)
  {
    var s1, tail := MergeEvent(s, events[0], now), events[1..];
    assert s1.outcome == Failed <==> s.outcome == Failed || events[0].errorMessage.Some?;
    if EndsAt(s, events, i + 1) {
      forall j | 0 <= j <= i ensures tail[j].errorMessage == None {
        assert tail[j] == events[j + 1];
      }
      assert events[0].errorMessage == None;
    }
    if EndsAt(s1, tail, i) {
      forall j | 0 <= j <= i + 1 ensures events[j].errorMessage == None {
        assert j > 0 ==> events[j] == tail[j - 1];
      }
    }
  }

  lemma EndOfEvent(s: Summary, e: NormalizedEvent, now: Time)
    ensures var r := MergeEvent(s, e, now).endedAt;
            if TerminalEvent(e.eventName) && s.outcome != Failed && e.errorMessage == None
            then r == Some(EventStamp(e.timestamp, now)) else r == s.endedAt
  {
  }

  /** The end of a session is the second of the last event that ends it, or what it was. */
  lemma {:induction false} FoldedEnd(s: Summary, events: seq<NormalizedEvent>, now: Time, i: int)
    requires (i == -1 || EndsAt(s, events, i)) && forall j :: j > i ==> !EndsAt(s, events, j)
    ensures var r := MergeAll(s, events, now);
            if i == -1 then r.endedAt == s.endedAt
            else r.endedAt.Some? && IsSecondOf(r.endedAt.value, events[i], now)
    decreases |events|
  {
    if events != [] {
      var s1 := MergeEvent(s, events[0], now);
      EndOfEvent(s, events[0], now);
      StampIsSecond(events[0], now);
      assert EndsAt(s, events, 0) <==>
             TerminalEvent(events[0].eventName) && s.outcome != Failed && events[0].errorMessage == None;
      forall j | j >= 0 ensures EndsAt(s, events, j + 1) <==> EndsAt(s1, events[1..], j) {
        EndsInTail(s, events, now, j);
      }
      var k := if i <= 0 then -1 else i - 1;
      forall j | j > k ensures !EndsAt(s1, events[1..], j) {
        assert j >= 0 ==> !EndsAt(s, events, j + 1);
      }
      FoldedEnd(s1, events[1..], now, k);
    }
  }
}
