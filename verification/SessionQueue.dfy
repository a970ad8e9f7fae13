/** The sessions_queue table of internal/queue/sessions.go and the operations on it. */
module SessionQueue {
  import opened Seqs
  import opened Strings
  import opened Api
  import opened Usages
  import opened Sessions
  import opened EventQueue

  const MAX_SESSION_ROWS: nat := 10_000
  const MAX_SESSION_LEASE := 500

  datatype SessionRow = SessionRow(
    revision: int,
    summary: Summary,
    createdAt: Time,
    attempts: nat,
    state: RowState,
    leasedUntil: Option<Time>,
    ackedAt: Option<Time>)

  type Table = map<string, SessionRow>

  /** A leased snapshot: SessionItem, whose first two fields are the SessionLease. */
  datatype SessionItem = SessionItem(sessionId: string, revision: int, summary: Summary)

  // ---------- grouping ----------

  predicate HasSession(e: NormalizedEvent) { e.sessionId.Some? && TrimSpace(e.sessionId.value) != "" }

  function OfSession(sid: string): NormalizedEvent -> bool {
    (e: NormalizedEvent) => e.sessionId == Some(sid)
  }

  function SessionIds(events: seq<NormalizedEvent>): set<string> {
    set e | e in events && HasSession(e) :: e.sessionId.value
  }

  /** One group per non-blank session id, each in event order. */
  function Groups(events: seq<NormalizedEvent>): map<string, seq<NormalizedEvent>> {
    GroupsOf(SessionIds(events), events)
  }

  function GroupsOf(ids: set<string>, events: seq<NormalizedEvent>): map<string, seq<NormalizedEvent>> {
    map sid | sid in ids :: Filter(OfSession(sid), events)
  }

  method GroupSessionEvents(events: seq<NormalizedEvent>) returns (groups: map<string, seq<NormalizedEvent>>)
    ensures groups == Groups(events)
  {
    groups := map[];
    for i := 0 to |events|
      invariant groups == Groups(events[..i])
    {
      GroupsGrow(events, i);
      var e := events[i];
      if !HasSession(e) {
        continue;
      }
      var sid := e.sessionId.value;
      groups := groups[sid := (if sid in groups then groups[sid] else []) + [e]];
    }
    assert events[..|events|] == events;
  }

  lemma SessionIdsExtend(events: seq<NormalizedEvent>, i: nat)
    requires i < |events|
    ensures SessionIds(events[..i + 1]) ==
            SessionIds(events[..i]) + if HasSession(events[i]) then {events[i].sessionId.value} else {}
  {
    assert events[..i + 1] == events[..i] + [events[i]];
  }

  /** An id that no event before `i` brought has no events before `i`. */
  lemma NoEventsBefore(events: seq<NormalizedEvent>, i: nat, sid: string)
    requires i <= |events| && sid !in SessionIds(events[..i]) && TrimSpace(sid) != ""
    ensures Filter(OfSession(sid), events[..i]) == []
  {
    forall e | e in events[..i] ensures e.sessionId != Some(sid) {
      if e.sessionId == Some(sid) {
        assert HasSession(e);
      }
    }
    FilterNone(OfSession(sid), events[..i]);
  }

  lemma GroupMapGrows(a: seq<NormalizedEvent>, e: NormalizedEvent, ids: set<string>, sid: string)
    requires e.sessionId == Some(sid)
    requires sid !in ids ==> Filter(OfSession(sid), a) == []
    ensures var g := GroupsOf(ids, a);
            GroupsOf(ids + {sid}, a + [e]) == g[sid := (if sid in g then g[sid] else []) + [e]]
  {
    forall k ensures Filter(OfSession(k), a + [e]) == Filter(OfSession(k), a) + if k == sid then [e] else [] {
      FilterConcat(OfSession(k), a, [e]);
      FilterOfHead(OfSession(k), [e]);
    }
    var g, h := GroupsOf(ids, a), GroupsOf(ids + {sid}, a + [e]);
    assert h[sid] == (if sid in g then g[sid] else []) + [e];
    assert forall k :: k in ids && k != sid ==> h[k] == g[k];
  }

  lemma GroupMapStays(a: seq<NormalizedEvent>, e: NormalizedEvent, ids: set<string>)
    requires forall sid :: sid in ids ==> e.sessionId != Some(sid)
    ensures GroupsOf(ids, a + [e]) == GroupsOf(ids, a)
  {
    forall k | k in ids ensures Filter(OfSession(k), a + [e]) == Filter(OfSession(k), a) {
      FilterConcat(OfSession(k), a, [e]);
      FilterOfHead(OfSession(k), [e]);
    }
  }

  lemma GroupsGrow(events: seq<NormalizedEvent>, i: nat)
    requires i < |events|
    ensures !HasSession(events[i]) ==> Groups(events[..i + 1]) == Groups(events[..i])
    ensures HasSession(events[i]) ==>
              var sid, g := events[i].sessionId.value, Groups(events[..i]);
              Groups(events[..i + 1]) == g[sid := (if sid in g then g[sid] else []) + [events[i]]]
  {
    var e, ids := events[i], SessionIds(events[..i]);
    SessionIdsExtend(events, i);
    assert events[..i + 1] == events[..i] + [e];
    if HasSession(e) {
      if e.sessionId.value !in ids {
        NoEventsBefore(events, i, e.sessionId.value);
      }
      GroupMapGrows(events[..i], e, ids, e.sessionId.value);
    } else {
      BlankNotGrouped(events, i);
      GroupMapStays(events[..i], e, ids);
      assert ids + {} == ids;
    }
  }

  lemma BlankNotGrouped(events: seq<NormalizedEvent>, i: nat)
    requires i < |events| && !HasSession(events[i])
    ensures forall sid :: sid in SessionIds(events[..i]) ==> events[i].sessionId != Some(sid)
  {
  }

  // ---------- upsert ----------

  function PriorSummary(rows: Table, sid: string): Summary { if sid in rows then rows[sid].summary else EMPTY_SUMMARY }

  /** INSERT ... ON CONFLICT(session_id) DO UPDATE: a new row starts at revision 1, an old one moves to
      the next revision and becomes pending again whatever its state. */
  function Upsert(rows: Table, sid: string, summary: Summary, now: Time): Table {
    rows[sid := if sid in rows
                then rows[sid].(revision := rows[sid].revision + 1, summary := summary, state := Pending,
                                leasedUntil := None, ackedAt := None)
                else SessionRow(1, summary, now, 0, Pending, None, None)]
  }

  /** Which summaries a session may merge to: its prior one with its group folded in. */
  ghost function Merging(before: Table, groups: map<string, seq<NormalizedEvent>>, now: Time)
    : (string, Summary) -> bool
  {
    (sid: string, r: Summary) => sid in groups && IsMerge(r, PriorSummary(before, sid), sid, groups[sid], now)
  }

  /** `after` is `before` with the listed sessions merged and upserted, the others untouched. */
  ghost predicate FoldedIn(before: Table, after: Table, ids: set<string>, merging: (string, Summary) -> bool,
                           now: Time) {
    && after.Keys == before.Keys + ids
    && (forall sid :: sid in before && sid !in ids ==> after[sid] == before[sid])
    && (forall sid :: sid in ids ==>
          merging(sid, after[sid].summary) && after[sid] == Upsert(before, sid, after[sid].summary, now)[sid])
  }

  /** Some event is of this session, whose id is more than spaces. */
  ghost predicate HasEvent(events: seq<NormalizedEvent>, sid: string) {
    TrimSpace(sid) != "" && exists e :: e in events && e.sessionId == Some(sid)
  }

  /** A session's turn: one without events keeps its row; one with events comes under the next revision, or the first,
      and waits to be sent, whatever its state was. */
  ghost function IsUpserted(before: Table, sid: string, touched: bool, now: Time): Table -> bool {
    (after: Table) =>
      && (sid in after <==> sid in before || touched)
      && (sid in before && !touched ==> after[sid] == before[sid])
      && (touched ==>
            after[sid] ==
              if sid in before
              then SessionRow(before[sid].revision + 1, after[sid].summary, before[sid].createdAt,
                              before[sid].attempts, Pending, None, None)
              else SessionRow(1, after[sid].summary, now, 0, Pending, None, None))
  }

  ghost function AreUpserted(before: Table, events: seq<NormalizedEvent>, now: Time): Table -> bool {
    (after: Table) => forall sid :: IsUpserted(before, sid, HasEvent(events, sid), now)(after)
  }

  lemma HasEventIff(events: seq<NormalizedEvent>, sid: string)
    ensures HasEvent(events, sid) <==> sid in SessionIds(events)
  {
    if HasEvent(events, sid) {
      var e :| e in events && e.sessionId == Some(sid);
      assert HasSession(e);
    }
  }

  lemma FoldedRow(before: Table, after: Table, ids: set<string>, merging: (string, Summary) -> bool, now: Time,
                  sid: string, touched: bool)
    requires FoldedIn(before, after, ids, merging, now) && touched == (sid in ids)
    ensures IsUpserted(before, sid, touched, now)(after)
  {
  }

  lemma FoldedIsUpserted(before: Table, after: Table, events: seq<NormalizedEvent>,
                         merging: (string, Summary) -> bool, now: Time)
    requires FoldedIn(before, after, SessionIds(events), merging, now)
    ensures AreUpserted(before, events, now)(after)
  {
    forall sid ensures IsUpserted(before, sid, HasEvent(events, sid), now)(after) {
      HasEventIff(events, sid);
      FoldedRow(before, after, SessionIds(events), merging, now, sid, HasEvent(events, sid));
    }
  }

  // ---------- the cap ----------

  /** ORDER BY (state='acked') DESC, updated_at ASC. */
  predicate EvictedBefore(a: SessionRow, b: SessionRow) {
    (a.state == Acked && b.state != Acked)
    || ((a.state == Acked <==> b.state == Acked) && LastUpdate(a.summary) < LastUpdate(b.summary))
  }

  function LastUpdate(s: Summary): int { if s.updatedAt.Some? then s.updatedAt.value else -1 }

  /** The rows over the cap, first ones of that order; ties are the database's choice. */
  ghost predicate IsCapChoice(rows: Table, victims: set<string>) {
    && victims <= rows.Keys
    && |victims| == Max(0, |rows| - MAX_SESSION_ROWS)
    && forall v, k :: v in victims && k in rows && k !in victims ==> !EvictedBefore(rows[k], rows[v])
  }

  /** The cap takes the rows over 10,000: delivered ones first, and of two alike the one updated earlier. */
  lemma CapOrder(rows: Table, victims: set<string>, v: string, k: string)
    requires IsCapChoice(rows, victims)
    ensures victims <= rows.Keys && |victims| == (if |rows| > 10_000 then |rows| - 10_000 else 0)
    ensures v in victims && k in rows && k !in victims ==>
              && (rows[k].state == Acked ==> rows[v].state == Acked)
              && var a, b := rows[v].summary.updatedAt, rows[k].summary.updatedAt;
                 ((rows[k].state == Acked <==> rows[v].state == Acked) && a.Some? && b.Some? ==> a.value <= b.value)
  {
  }

  function UnackedIds(rows: Table): set<string> { set sid | sid in rows && rows[sid].state != Acked }

  /** While the un-acked sessions fit under the cap, it removes delivered ones only. */
  lemma CapTakesOnlyAcked(rows: Table, victims: set<string>)
    requires IsCapChoice(rows, victims) && |UnackedIds(rows)| <= 10_000
    ensures forall v :: v in victims ==> rows[v].state == Acked
    ensures |rows| - |victims| == Min(|rows|, 10_000)
  {
    if v :| v in victims && rows[v].state != Acked {
      var left := rows.Keys - victims;
      forall k | k in left ensures rows[k].state != Acked {
        assert !EvictedBefore(rows[k], rows[v]);
      }
      assert left + {v} <= UnackedIds(rows);
      SubsetSize(left + {v}, UnackedIds(rows));
      assert |left| == |rows.Keys| - |victims|;
    }
  }

  lemma {:induction false} SubsetSize<T>(a: set<T>, b: set<T>)
    requires a <= b
    ensures |a| <= |b|
  {
    if a != {} {
      var x :| x in a;
      SubsetSize(a - {x}, b - {x});
    }
  }

  // ---------- lease, finish, prune ----------

  predicate SessionLeasable(row: SessionRow, now: Time) {
    row.state == Pending || (row.state == Leased && (row.leasedUntil.None? || row.leasedUntil.value < now))
  }

  function LeasableIds(rows: Table, now: Time): set<string> { set sid | sid in rows && SessionLeasable(rows[sid], now) }

  /** The select's answer: up to `n` leasable sessions, least recently updated first. */
  ghost predicate IsLeaseChoice(rows: Table, now: Time, n: nat, chosen: seq<string>) {
    && (forall i :: 0 <= i < |chosen| ==> chosen[i] in LeasableIds(rows, now) && chosen[i] in rows)
    && |set sid | sid in chosen| == |chosen| == Min(n, |LeasableIds(rows, now)|)
    && (forall i, j :: 0 <= i < j < |chosen| ==>
          LastUpdate(rows[chosen[i]].summary) <= LastUpdate(rows[chosen[j]].summary))
    && (forall sid, k :: sid in chosen && k in LeasableIds(rows, now) && k !in chosen ==>
          LastUpdate(rows[sid].summary) <= LastUpdate(rows[k].summary))
  }

  function SessionItems(rows: Table, chosen: seq<string>): (r: seq<SessionItem>)
    requires forall sid :: sid in chosen ==> sid in rows
    ensures |r| == |chosen|
    ensures forall i :: 0 <= i < |r| ==>
              r[i] == SessionItem(chosen[i], rows[chosen[i]].revision, rows[chosen[i]].summary)
  {
    seq(|chosen|, i requires 0 <= i < |chosen| && chosen[i] in rows =>
      SessionItem(chosen[i], rows[chosen[i]].revision, rows[chosen[i]].summary))
  }

  datatype Mark = MarkLeased(until: Time) | MarkAcked(at: Time) | MarkPending

  function Marked(row: SessionRow, mark: Mark): SessionRow {
    match mark
    case MarkLeased(until) => row.(state := Leased, leasedUntil := Some(until))
    case MarkAcked(at) => row.(state := Acked, ackedAt := Some(at), leasedUntil := None)
    case MarkPending => row.(state := Pending, attempts := row.attempts + 1, leasedUntil := None)
  }

  /** UPDATE ... WHERE session_id=? AND revision=?: nothing when the row moved on or is gone. */
  function MarkOne(rows: Table, item: SessionItem, mark: Mark): Table {
    if item.sessionId in rows && rows[item.sessionId].revision == item.revision
    then rows[item.sessionId := Marked(rows[item.sessionId], mark)] else rows
  }

  function MarkAll(rows: Table, items: seq<SessionItem>, mark: Mark): Table {
    if items == [] then rows else MarkOne(MarkAll(rows, items[..|items| - 1], mark), items[|items| - 1], mark)
  }

  /** Some item is a lease of this row as it is now. */
  ghost predicate IsCurrent(items: seq<SessionItem>, sid: string, row: SessionRow) {
    exists it :: it in items && it.sessionId == sid && it.revision == row.revision
  }

  ghost predicate DistinctSessions(items: seq<SessionItem>) {
    forall i, j :: 0 <= i < j < |items| ==> items[i].sessionId != items[j].sessionId
  }

  /** Exactly the rows with a current lease among the items move: to leased until then, to acked, or back to pending
      with one attempt more. */
  ghost function AreMarked(rows: Table, items: seq<SessionItem>, mark: Mark): Table -> bool {
    (after: Table) =>
      && after.Keys == rows.Keys
      && forall sid {:trigger after[sid]} :: sid in rows ==>
           after[sid] == if !IsCurrent(items, sid, rows[sid]) then rows[sid]
                         else match mark
                           case MarkLeased(until) => rows[sid].(state := Leased, leasedUntil := Some(until))
                           case MarkAcked(at) => rows[sid].(state := Acked, ackedAt := Some(at), leasedUntil := None)
                           case MarkPending => rows[sid].(state := Pending, leasedUntil := None,
                                                          attempts := rows[sid].attempts + 1)
  }

  lemma {:induction false} MarksRow(rows: Table, items: seq<SessionItem>, mark: Mark, sid: string)
    requires DistinctSessions(items)
    ensures MarkAll(rows, items, mark).Keys == rows.Keys
    ensures sid in rows ==>
              MarkAll(rows, items, mark)[sid] ==
              if IsCurrent(items, sid, rows[sid]) then Marked(rows[sid], mark) else rows[sid]
    decreases |items|
  {
    if items != [] {
      var n := |items| - 1;
      var front, last := items[..n], items[n];
      assert items == front + [last];
      MarksRow(rows, front, mark, sid);
      if sid in rows && last.sessionId == sid {
        NotInFront(items, sid, rows[sid]);
      }
    }
  }

  lemma NotInFront(items: seq<SessionItem>, sid: string, row: SessionRow)
    requires DistinctSessions(items) && items != [] && items[|items| - 1].sessionId == sid
    ensures !IsCurrent(items[..|items| - 1], sid, row)
    ensures IsCurrent(items, sid, row) <==> items[|items| - 1].revision == row.revision
  {
    forall it | it in items && it.sessionId == sid ensures it == items[|items| - 1] {
      var i :| 0 <= i < |items| && items[i] == it;
    }
    assert items[|items| - 1] in items;
  }

  lemma MarksRows(rows: Table, items: seq<SessionItem>, mark: Mark)
    requires DistinctSessions(items)
    ensures AreMarked(rows, items, mark)(MarkAll(rows, items, mark))
  {
    MarksRow(rows, items, mark, "");
    forall sid | sid in rows
      ensures MarkAll(rows, items, mark)[sid] ==
              if IsCurrent(items, sid, rows[sid]) then Marked(rows[sid], mark) else rows[sid] {
      MarksRow(rows, items, mark, sid);
    }
  }

  function SessionsPruned(rows: Table, cutoff: Time): Table {
    map sid | sid in rows
              && !(rows[sid].state == Acked && rows[sid].ackedAt.Some? && rows[sid].ackedAt.value < cutoff) :: rows[sid]
  }

  /** Every session handed out was pending, or leased without a deadline or with one before `now`; one that is left
      out although it was open too was updated no earlier than those handed out, and there were `n` of them. */
  ghost function AreOldestSessions(rows: Table, now: Time, n: nat): seq<SessionItem> -> bool {
    (items: seq<SessionItem>) =>
      && (forall it :: it in items ==>
            && it.sessionId in rows
            && it == SessionItem(it.sessionId, rows[it.sessionId].revision, rows[it.sessionId].summary)
            && var row := rows[it.sessionId];
               row.state == Pending
               || (row.state == Leased && (row.leasedUntil == None || row.leasedUntil.value < now)))
      && (forall sid {:trigger SessionItem(sid, rows[sid].revision, rows[sid].summary)} ::
            sid in rows
            && (rows[sid].state == Pending
                || (rows[sid].state == Leased
                    && (rows[sid].leasedUntil == None || rows[sid].leasedUntil.value < now))) ==>
              || SessionItem(sid, rows[sid].revision, rows[sid].summary) in items
              || (|items| == n && forall it :: it in items ==> LastUpdate(it.summary) <= LastUpdate(rows[sid].summary)))
  }

  lemma ItemIsOpen(rows: Table, now: Time, n: nat, chosen: seq<string>, it: SessionItem)
    requires IsLeaseChoice(rows, now, n, chosen) && it in SessionItems(rows, chosen)
    ensures it.sessionId in chosen && it.sessionId in rows && SessionLeasable(rows[it.sessionId], now)
    ensures it == SessionItem(it.sessionId, rows[it.sessionId].revision, rows[it.sessionId].summary)
  {
    var i :| 0 <= i < |chosen| && SessionItems(rows, chosen)[i] == it;
  }

  lemma OpenIsChosen(rows: Table, now: Time, n: nat, chosen: seq<string>, sid: string)
    requires IsLeaseChoice(rows, now, n, chosen) && sid in rows && SessionLeasable(rows[sid], now)
    ensures var items := SessionItems(rows, chosen);
            || SessionItem(sid, rows[sid].revision, rows[sid].summary) in items
            || (|items| == n && forall it :: it in items ==> LastUpdate(it.summary) <= LastUpdate(rows[sid].summary))
  {
    var items := SessionItems(rows, chosen);
    if sid in chosen {
      var i :| 0 <= i < |chosen| && chosen[i] == sid;
      assert items[i] == SessionItem(sid, rows[sid].revision, rows[sid].summary);
    } else {
      LeftOut(rows, now, n, chosen, sid);
      forall it | it in items ensures LastUpdate(it.summary) <= LastUpdate(rows[sid].summary) {
        ItemIsOpen(rows, now, n, chosen, it);
      }
    }
  }

  lemma ChosenAreOldest(rows: Table, now: Time, n: nat, chosen: seq<string>)
    requires IsLeaseChoice(rows, now, n, chosen)
    ensures AreOldestSessions(rows, now, n)(SessionItems(rows, chosen))
  {
    forall it | it in SessionItems(rows, chosen)
      ensures && it.sessionId in rows
              && it == SessionItem(it.sessionId, rows[it.sessionId].revision, rows[it.sessionId].summary)
              && SessionLeasable(rows[it.sessionId], now) {
      ItemIsOpen(rows, now, n, chosen, it);
    }
    forall sid | sid in rows && SessionLeasable(rows[sid], now)
      ensures var items := SessionItems(rows, chosen);
              || SessionItem(sid, rows[sid].revision, rows[sid].summary) in items
              || (|items| == n
                  && forall it :: it in items ==> LastUpdate(it.summary) <= LastUpdate(rows[sid].summary)) {
      OpenIsChosen(rows, now, n, chosen, sid);
    }
  }

  /** A leasable session is left out only of a full lease. */
  lemma LeftOut(rows: Table, now: Time, n: nat, chosen: seq<string>, sid: string)
    requires IsLeaseChoice(rows, now, n, chosen) && sid in LeasableIds(rows, now) && sid !in chosen
    ensures |chosen| == n
  {
    var ids := set k | k in chosen;
    SubsetSize(ids + {sid}, LeasableIds(rows, now));
  }

  /** One group's turn in the transaction. */
  method FoldGroup(ghost before: Table, folded: Table, groups: map<string, seq<NormalizedEvent>>,
                   ghost done: set<string>,
                   sid: string, now: Time) returns (after: Table)
    requires FoldedIn(before, folded, done, Merging(before, groups, now), now) && sid in groups && sid !in done
    ensures FoldedIn(before, after, done + {sid}, Merging(before, groups, now), now)
  {
    NotYetFolded(before, folded, done, Merging(before, groups, now), sid, now);
    var summary := MergeSessionEvents(PriorSummary(folded, sid), sid, groups[sid], now);
    FoldsOneMore(before, folded, done, Merging(before, groups, now), sid, summary, now);
    after := Upsert(folded, sid, summary, now);
  }

  /** The transaction's body: upsert each group, in whatever order the map yields them. */
  method FoldGroups(rows: Table, groups: map<string, seq<NormalizedEvent>>, now: Time) returns (folded: Table)
    ensures FoldedIn(rows, folded, groups.Keys, Merging(rows, groups, now), now)
  {
    folded := rows;
    var done: set<string> := {};
    while done != groups.Keys
      invariant done <= groups.Keys
      invariant FoldedIn(rows, folded, done, Merging(rows, groups, now), now)
      decreases groups.Keys - done
    {
      assert exists k :: k in groups.Keys && k !in done;
      var sid :| sid in groups.Keys && sid !in done;
      folded := FoldGroup(rows, folded, groups, done, sid, now);
      done := done + {sid};
    }
  }

  class SessionStore {
    var rows: Table

    constructor Open(found: Table)
      ensures rows == found
    {
      rows := found;
    }

    /** Fold the events into their sessions in one transaction, then apply the cap. `commitOk` is false
        when the transaction rolls back; a failed cap delete is ignored. */
    method UpsertSessionEvents(events: seq<NormalizedEvent>, now: Time, commitOk: bool, capOk: bool,
                               victims: Table -> set<string>)
      returns (n: nat, failed: bool, ghost folded: Table)
      requires forall t :: IsCapChoice(t, victims(t))
      modifies this
      ensures SessionIds(events) == {} ==> !failed && n == 0 && rows == old(rows)
      ensures failed ==> n == 0 && rows == old(rows)
      ensures failed <==> SessionIds(events) != {} && !commitOk
      ensures !failed && SessionIds(events) != {} ==>
                && n == |SessionIds(events)|
                && FoldedIn(old(rows), folded, SessionIds(events), Merging(old(rows), Groups(events), now), now)
                && AreUpserted(old(rows), events, now)(folded)
                && rows == if capOk then folded - victims(folded) else folded
    {
      var groups := GroupSessionEvents(events);
      assert groups.Keys == SessionIds(events);
      if groups == map[] {
        return 0, false, rows;
      }
      if !commitOk {
        return 0, true, rows;
      }
      var after := FoldGroups(rows, groups, now);
      folded := after;
      FoldedIsUpserted(rows, after, events, Merging(rows, groups, now), now);
      rows := if capOk then after - victims(after) else after;
      n, failed := |groups|, false;
    }

    /** Lease the chosen rows one by one; a failing update leaves the earlier ones leased and hands
        nothing out. */
    method LeaseSessionsBatch(n: int, leaseDur: Time, now: Time, chosen: seq<string>, done: nat)
      returns (items: seq<SessionItem>, failed: bool)
      requires n > 0 ==> IsLeaseChoice(rows, now, Min(n, MAX_SESSION_LEASE), chosen)
      modifies this
      ensures n <= 0 ==> items == [] && !failed && rows == old(rows)
      ensures n > 0 ==>
                && (forall sid :: sid in chosen ==> sid in old(rows))
                && var all := SessionItems(old(rows), chosen);
                && failed == (done < |all|)
                && items == (if failed then [] else all)
                && rows == MarkAll(old(rows), all[..Min(done, |all|)], MarkLeased(now + leaseDur))
      ensures n > 0 && !failed ==>
                && AreOldestSessions(old(rows), now, Min(n, 500))(items)
                && AreMarked(old(rows), items, MarkLeased(now + leaseDur))(rows)
    {
      if n <= 0 {
        return [], false;
      }
      items := SessionItems(rows, chosen);
      failed := LeaseSessionItems(items, now + leaseDur, done);
      if failed {
        return [], true;
      }
      SessionLeaseMeans(old(rows), now, Min(n, MAX_SESSION_LEASE), chosen, MarkLeased(now + leaseDur), items, rows);
    }

    method LeaseSessionItems(items: seq<SessionItem>, until: Time, done: nat) returns (failed: bool)
      modifies this
      ensures failed == (done < |items|)
      ensures rows == MarkAll(old(rows), items[..Min(done, |items|)], MarkLeased(until))
    {
      var i := 0;
      while i < |items|
        invariant 0 <= i <= |items| && i <= done
        invariant rows == MarkAll(old(rows), items[..i], MarkLeased(until))
      {
        if i == done {
          return true;
        }
        MarkAllExtends(old(rows), items, i, MarkLeased(until));
        rows := MarkOne(rows, items[i], MarkLeased(until));
        i := i + 1;
      }
      failed := false;
    }

    /** finishSessions: ack or nack each lease whose revision is still current, up to the first failing
        update. */
    method FinishSessions(items: seq<SessionItem>, ack: bool, now: Time, done: nat) returns (failed: bool)
      modifies this
      ensures failed == (done < |items|)
      ensures rows == MarkAll(old(rows), items[..Min(done, |items|)], if ack then MarkAcked(now) else MarkPending)
      ensures DistinctSessions(items) && !failed ==>
                AreMarked(old(rows), items, if ack then MarkAcked(now) else MarkPending)(rows)
    {
      var mark := if ack then MarkAcked(now) else MarkPending;
      var i := 0;
      while i < |items|
        invariant 0 <= i <= |items| && i <= done
        invariant rows == MarkAll(old(rows), items[..i], mark)
      {
        if i == done {
          return true;
        }
        MarkAllExtends(old(rows), items, i, mark);
        rows := MarkOne(rows, items[i], mark);
        i := i + 1;
      }
      failed := false;
      assert items[..|items|] == items;
      if DistinctSessions(items) {
        MarksRows(old(rows), items, mark);
      }
    }

    method PruneAckedSessions(cutoff: Time, ok: bool) returns (deleted: nat, failed: bool)
      modifies this
      ensures failed == !ok && rows == (if ok then SessionsPruned(old(rows), cutoff) else old(rows))
      ensures deleted == |old(rows)| - |rows|
      ensures UnackedIds(rows) == UnackedIds(old(rows))
      ensures forall sid :: sid in rows <==>
                sid in old(rows)
                && !(ok && old(rows)[sid].state == Acked && old(rows)[sid].ackedAt != None
                     && old(rows)[sid].ackedAt.value < cutoff)
      ensures forall sid :: sid in rows ==> rows[sid] == old(rows)[sid]
    {
      deleted, failed := 0, !ok;
      if ok {
        var left := SessionsPruned(rows, cutoff);
        SubsetSize(left.Keys, rows.Keys);
        deleted := |rows| - |left|;
        rows := left;
      }
    }
  }

  lemma NotYetFolded(before: Table, folded: Table, ids: set<string>, merging: (string, Summary) -> bool, sid: string,
                     now: Time)
    requires FoldedIn(before, folded, ids, merging, now) && sid !in ids
    ensures PriorSummary(folded, sid) == PriorSummary(before, sid)
  {
  }

  lemma FoldsOneMore(before: Table, folded: Table, ids: set<string>, merging: (string, Summary) -> bool,
                     sid: string, summary: Summary, now: Time)
    requires FoldedIn(before, folded, ids, merging, now) && sid !in ids && merging(sid, summary)
    ensures FoldedIn(before, Upsert(folded, sid, summary, now), ids + {sid}, merging, now)
  {
    assert sid in before <==> sid in folded;
  }

  lemma SessionLeaseMeans(rows: Table, now: Time, n: nat, chosen: seq<string>, mark: Mark, items: seq<SessionItem>,
                          after: Table)
    requires IsLeaseChoice(rows, now, n, chosen) && items == SessionItems(rows, chosen)
    requires after == MarkAll(rows, items[..|items|], mark)
    ensures AreOldestSessions(rows, now, n)(items) && AreMarked(rows, items, mark)(after)
  {
    assert items[..|items|] == items;
    ChosenAreOldest(rows, now, n, chosen);
    ChosenDistinct(chosen);
    MarksRows(rows, items, mark);
  }

  /** A sequence with as many members as positions repeats none. */
  lemma {:induction false} ChosenDistinct(chosen: seq<string>)
    requires |set sid | sid in chosen| == |chosen|
    ensures forall i, j :: 0 <= i < j < |chosen| ==> chosen[i] != chosen[j]
  {
    if chosen != [] {
      var n := |chosen| - 1;
      var front := chosen[..n];
      var all, before := set sid | sid in chosen, set sid | sid in front;
      assert chosen == front + [chosen[n]];
      assert all == before + {chosen[n]};
      MembersAtMost(front);
      ChosenDistinct(front);
      forall i | 0 <= i < n ensures chosen[i] != chosen[n] {
        assert front[i] in before;
      }
    }
  }

  lemma {:induction false} MembersAtMost(s: seq<string>)
    ensures |set x | x in s| <= |s|
  {
    if s != [] {
      MembersAtMost(s[1..]);
      assert (set x | x in s) == {s[0]} + set x | x in s[1..];
    }
  }

  lemma MarkAllExtends(rows: Table, items: seq<SessionItem>, i: nat, mark: Mark)
    requires i < |items|
    ensures MarkAll(rows, items[..i + 1], mark) == MarkOne(MarkAll(rows, items[..i], mark), items[i], mark)
  {
    assert items[..i + 1][..i] == items[..i];
  }
}
