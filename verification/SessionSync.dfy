/** Session uploads as a step protocol: upserts may land while a snapshot is in flight, snapshots may be
    delivered late and repeatedly, and the backend keeps the one with the newest updated_at. */
module SessionSync {
  import opened Seqs
  import opened Api
  import opened Usages
  import opened Sessions
  import opened EventQueue
  import opened SessionQueue

  datatype Flight = Idle | Sending(items: seq<SessionItem>) | Replied(items: seq<SessionItem>, ok: bool)

  datatype World = World(
    rows: Table,
    flight: Flight,
    net: set<Summary>,             // every snapshot ever sent; the network may deliver it again
    got: set<Summary>,             // every snapshot the backend was handed
    backend: map<string, Summary>, // the snapshot it keeps per session
    issued: set<Summary>,          // every payload ever stored locally
    high: map<string, int>)        // the last updated_at issued per session, also of deleted rows

  function Start(): World { World(map[], Idle, {}, {}, map[], {}, map[]) }

  datatype Step =
    | UpsertGroup(sid: string, events: seq<NormalizedEvent>, now: Time, summary: Summary)
    | Cap(victims: set<string>)
    | Prune(cutoff: Time, now: Time)
    | Lease(n: nat, now: Time, dur: Time, chosen: seq<string>, done: nat)
    | Deliver(snapshot: Summary)
    | Reply(ok: bool)
    | Finish(now: Time, done: nat)
    | Crash

  function Snapshots(items: seq<SessionItem>): set<Summary> { set it | it in items :: it.summary }

  /** The backend's rule: a snapshot replaces the kept one only when its updated_at is newer. */
  function Keep(backend: map<string, Summary>, s: Summary): map<string, Summary> {
    if s.sessionId in backend && LastUpdate(s) <= LastUpdate(backend[s.sessionId]) then backend
    else backend[s.sessionId := s]
  }

  /** The update failed after these rows: they stay leased, nothing is handed out. */
  function LeaseBrokenOff(w: World, items: seq<SessionItem>, until: Time): World {
    w.(rows := MarkAll(w.rows, items, MarkLeased(until)))
  }

  function LeaseSent(w: World, items: seq<SessionItem>, until: Time): World {
    w.(rows := MarkAll(w.rows, items, MarkLeased(until)), flight := Sending(items), net := w.net + Snapshots(items))
  }

  ghost predicate Enabled(w: World, s: Step) {
    match s
    case UpsertGroup(sid, events, now, summary) =>
      sid != "" && IsMerge(summary, PriorSummary(w.rows, sid), sid, events, now)
    case Cap(victims) => IsCapChoice(w.rows, victims)
    case Prune(cutoff, now) => cutoff <= now - DAY
    case Lease(n, now, _, chosen, _) => w.flight.Idle? && IsLeaseChoice(w.rows, now, n, chosen) && chosen != []
    case Deliver(snapshot) => snapshot in w.net
    case Reply(ok) => w.flight.Sending? && (ok ==> Snapshots(w.flight.items) <= w.got)
    case Finish(_, _) => w.flight.Replied?
    case Crash => true
  }

  ghost function Next(w: World, s: Step): World
    requires Enabled(w, s)
  {
    match s
    case UpsertGroup(sid, _, now, summary) =>
      w.(rows := Upsert(w.rows, sid, summary, now), issued := w.issued + {summary},
         high := w.high[sid := LastUpdate(summary)])
    case Cap(victims) => w.(rows := w.rows - victims)
    case Prune(cutoff, _) => w.(rows := SessionsPruned(w.rows, cutoff))
    case Lease(n, now, dur, chosen, done) =>
      if done < |chosen| then LeaseBrokenOff(w, SessionItems(w.rows, chosen)[..done], now + dur)
      else LeaseSent(w, SessionItems(w.rows, chosen), now + dur)
    case Deliver(snapshot) => w.(backend := Keep(w.backend, snapshot), got := w.got + {snapshot})
    case Reply(ok) => w.(flight := Replied(w.flight.items, ok))
    case Finish(now, done) =>
      var items := w.flight.items;
      w.(flight := Idle,
         rows := MarkAll(w.rows, items[..Min(done, |items|)], if w.flight.ok then MarkAcked(now) else MarkPending))
    case Crash => w.(flight := Idle)
  }

  /** What the promise assumes of a step: the un-acked sessions fit under the cap, and a session that
      was deleted comes back only with a later stamp than it ever had. */
  ghost predicate Orderly(w: World, s: Step) {
    && (s.Cap? ==> |UnackedIds(w.rows)| <= MAX_SESSION_ROWS)
    && (s.UpsertGroup? && s.sid !in w.rows && s.sid in w.high ==> Seconds(s.now) > w.high[s.sid])
  }

  // ---------- the invariant ----------

  /** A stored or sent payload: stamped, not after its session's high mark, and the only one so stamped. */
  ghost predicate Issued(w: World, x: Summary) {
    x in w.issued && x.updatedAt.Some? && x.sessionId in w.high && LastUpdate(x) <= w.high[x.sessionId]
  }

  ghost predicate StampsDiffer(w: World) {
    forall x, y :: x in w.issued && y in w.issued && x.sessionId == y.sessionId && LastUpdate(x) == LastUpdate(y) ==>
      x == y
  }

  ghost predicate RowOk(w: World, sid: string)
    requires sid in w.rows
  {
    var r := w.rows[sid];
    && sid != "" && r.summary.sessionId == sid && Issued(w, r.summary) && LastUpdate(r.summary) == w.high[sid]
    && (r.state == Acked ==> sid in w.backend && w.backend[sid] == r.summary)
  }

  /** A leased session is still there, un-acked, and either as it was leased or at a later revision. */
  ghost predicate LeaseHolds(w: World, it: SessionItem) {
    && it.sessionId in w.rows && it.summary.sessionId == it.sessionId && Issued(w, it.summary)
    && w.rows[it.sessionId].state != Acked
    && w.rows[it.sessionId].revision >= it.revision
    && (w.rows[it.sessionId].revision == it.revision ==> w.rows[it.sessionId].summary == it.summary)
  }

  ghost predicate BackendOk(w: World) {
    && (forall sid :: sid in w.backend ==> w.backend[sid].sessionId == sid && Issued(w, w.backend[sid]))
    && (forall x :: x in w.got ==> x.sessionId in w.backend && LastUpdate(x) <= LastUpdate(w.backend[x.sessionId]))
  }

  ghost predicate FlightOk(w: World) {
    !w.flight.Idle? ==>
      && (forall it :: it in w.flight.items ==> LeaseHolds(w, it))
      && (w.flight.Replied? && w.flight.ok ==> Snapshots(w.flight.items) <= w.got)
  }

  ghost predicate Inv(w: World) {
    && (forall x :: x in w.issued ==> Issued(w, x))
    && StampsDiffer(w)
    && (forall sid :: sid in w.rows ==> RowOk(w, sid))
    && (forall x :: x in w.net ==> x in w.issued)
    && BackendOk(w)
    && FlightOk(w)
  }

  // ---------- each step keeps it ----------

  function StateOf(mark: Mark): RowState {
    match mark
    case MarkLeased(_) => Leased
    case MarkAcked(_) => Acked
    case MarkPending => Pending
  }

  /** `row'` is `row`, or was marked through a lease of its current revision. */
  ghost predicate MarkedThrough(row: SessionRow, row': SessionRow, sid: string, items: seq<SessionItem>, mark: Mark) {
    && row'.revision == row.revision && row'.summary == row.summary
    && (row'.state == row.state
        || (row'.state == StateOf(mark)
            && exists it :: it in items && it.sessionId == sid && it.revision == row.revision))
  }

  lemma {:induction false} MarkAllRows(rows: Table, items: seq<SessionItem>, mark: Mark)
    ensures MarkAll(rows, items, mark).Keys == rows.Keys
    ensures forall sid :: sid in rows ==> MarkedThrough(rows[sid], MarkAll(rows, items, mark)[sid], sid, items, mark)
    decreases |items|
  {
    if items != [] {
      var n := |items| - 1;
      var front := items[..n];
      MarkAllRows(rows, front, mark);
      forall sid | sid in rows ensures MarkedThrough(rows[sid], MarkAll(rows, items, mark)[sid], sid, items, mark) {
        assert items == front + [items[n]];
        assert MarkedThrough(rows[sid], MarkAll(rows, front, mark)[sid], sid, front, mark);
      }
    }
  }

  /** An upsert stamps its session later than anything issued for it before. */
  lemma UpsertStampsLater(w: World, s: Step)
    requires Inv(w) && s.UpsertGroup? && Enabled(w, s) && Orderly(w, s)
    ensures s.summary.sessionId == s.sid && s.summary.updatedAt.Some?
    ensures s.sid in w.high ==> LastUpdate(s.summary) > w.high[s.sid]
    ensures s.sid in w.rows ==> s.sid in w.high
  {
    MergeStamps(s.summary, PriorSummary(w.rows, s.sid), s.sid, s.events, s.now);
    if s.sid in w.rows {
      assert RowOk(w, s.sid);
    }
  }

  lemma IssuedStays(w: World, sid: string, summary: Summary, w': World)
    requires w'.issued == w.issued + {summary} && w'.high == w.high[sid := LastUpdate(summary)]
    requires sid in w.high ==> LastUpdate(summary) > w.high[sid]
    ensures forall x :: Issued(w, x) ==> Issued(w', x)
  {
  }

  lemma UpsertKeepsInv(w: World, s: Step)
    requires Inv(w) && s.UpsertGroup? && Enabled(w, s) && Orderly(w, s)
    ensures Inv(Next(w, s))
  {
    UpsertStampsLater(w, s);
    UpsertedKeepsInv(w, s.sid, s.summary, s.now, Next(w, s));
  }

  lemma StampsStayDifferent(w: World, sid: string, summary: Summary, w': World)
    requires StampsDiffer(w) && (forall x :: x in w.issued ==> Issued(w, x)) && summary.sessionId == sid
    requires w'.issued == w.issued + {summary} && (sid in w.high ==> LastUpdate(summary) > w.high[sid])
    ensures StampsDiffer(w')
  {
    forall x | x in w.issued && x.sessionId == sid ensures LastUpdate(x) < LastUpdate(summary) {
      assert Issued(w, x);
    }
  }

  lemma UpsertedKeepsInv(w: World, sid: string, summary: Summary, now: Time, w': World)
    requires Inv(w) && sid != "" && summary.sessionId == sid && summary.updatedAt.Some?
    requires sid in w.high ==> LastUpdate(summary) > w.high[sid]
    requires w' ==
               w.(rows := Upsert(w.rows, sid, summary, now), issued := w.issued + {summary},
                  high := w.high[sid := LastUpdate(summary)])
    ensures Inv(w')
  {
    IssuedStays(w, sid, summary, w');
    StampsStayDifferent(w, sid, summary, w');
    forall k | k in w'.rows ensures RowOk(w', k) {
      if k != sid {
        assert RowOk(w, k);
      }
    }
    if !w.flight.Idle? {
      forall it | it in w'.flight.items ensures LeaseHolds(w', it) {
        assert LeaseHolds(w, it);
      }
    }
  }

  /** Deleting delivered rows touches nothing in flight. */
  lemma DeleteKeepsInv(w: World, w': World)
    requires Inv(w) && w' == w.(rows := w'.rows)
    requires w'.rows.Keys <= w.rows.Keys && forall sid :: sid in w'.rows ==> w'.rows[sid] == w.rows[sid]
    requires forall sid :: sid in w.rows && sid !in w'.rows ==> w.rows[sid].state == Acked
    ensures Inv(w')
  {
    forall sid | sid in w'.rows ensures RowOk(w', sid) {
      assert RowOk(w, sid);
    }
    if !w.flight.Idle? {
      forall it | it in w'.flight.items ensures LeaseHolds(w', it) {
        assert LeaseHolds(w, it);
      }
    }
  }

  lemma SnapshotsIssued(w: World, chosen: seq<string>)
    requires Inv(w) && forall sid :: sid in chosen ==> sid in w.rows
    ensures forall x :: x in Snapshots(SessionItems(w.rows, chosen)) ==> x in w.issued
  {
    var items := SessionItems(w.rows, chosen);
    forall x | x in Snapshots(items) ensures x in w.issued {
      var it :| it in items && it.summary == x;
      var i :| 0 <= i < |items| && items[i] == it;
      assert chosen[i] in chosen && RowOk(w, chosen[i]);
    }
  }

  /** Marking rows leased disturbs none of them. */
  lemma LeaseMarksKeep(w: World, items: seq<SessionItem>, until: Time, w': World)
    requires Inv(w) && w' == w.(rows := MarkAll(w.rows, items, MarkLeased(until)), flight := w'.flight, net := w'.net)
    ensures forall sid :: sid in w'.rows ==> RowOk(w', sid)
    ensures BackendOk(w') && w'.rows.Keys == w.rows.Keys
    ensures forall x :: Issued(w, x) ==> Issued(w', x)
  {
    MarkAllRows(w.rows, items, MarkLeased(until));
    forall sid | sid in w'.rows ensures RowOk(w', sid) {
      assert RowOk(w, sid);
      assert MarkedThrough(w.rows[sid], w'.rows[sid], sid, items, MarkLeased(until));
    }
  }

  lemma LeasedItemHolds(w: World, chosen: seq<string>, until: Time, w': World, i: nat)
    requires Inv(w) && i < |chosen| && (forall sid :: sid in chosen ==> sid in w.rows)
             && w.rows[chosen[i]].state != Acked
    requires w'.rows == MarkAll(w.rows, SessionItems(w.rows, chosen), MarkLeased(until))
    requires w'.issued == w.issued && w'.high == w.high
    ensures LeaseHolds(w', SessionItems(w.rows, chosen)[i])
  {
    var items, sid := SessionItems(w.rows, chosen), chosen[i];
    MarkAllRows(w.rows, items, MarkLeased(until));
    assert sid in chosen && RowOk(w, sid);
    assert MarkedThrough(w.rows[sid], w'.rows[sid], sid, items, MarkLeased(until));
  }

  lemma ChosenRows(rows: Table, now: Time, n: nat, chosen: seq<string>)
    requires IsLeaseChoice(rows, now, n, chosen)
    ensures forall sid :: sid in chosen ==> sid in rows && rows[sid].state != Acked
  {
  }

  /** A batch handed out whole is in flight. */
  lemma LeaseSends(w: World, chosen: seq<string>, until: Time, w': World)
    requires Inv(w) && forall sid :: sid in chosen ==> sid in w.rows && w.rows[sid].state != Acked
    requires w'.rows == MarkAll(w.rows, SessionItems(w.rows, chosen), MarkLeased(until))
    requires w'.issued == w.issued && w'.high == w.high && w'.flight == Sending(SessionItems(w.rows, chosen))
    ensures FlightOk(w')
  {
    var items := SessionItems(w.rows, chosen);
    forall it | it in w'.flight.items ensures LeaseHolds(w', it) {
      var i :| 0 <= i < |items| && items[i] == it;
      assert chosen[i] in chosen;
      LeasedItemHolds(w, chosen, until, w', i);
    }
  }

  lemma BrokenLeaseKeepsInv(w: World, items: seq<SessionItem>, until: Time)
    requires Inv(w) && w.flight.Idle?
    ensures Inv(LeaseBrokenOff(w, items, until))
  {
    LeaseMarksKeep(w, items, until, LeaseBrokenOff(w, items, until));
  }

  lemma SentLeaseKeepsInv(w: World, chosen: seq<string>, until: Time)
    requires Inv(w) && forall sid :: sid in chosen ==> sid in w.rows && w.rows[sid].state != Acked
    ensures Inv(LeaseSent(w, SessionItems(w.rows, chosen), until))
  {
    var w' := LeaseSent(w, SessionItems(w.rows, chosen), until);
    LeaseMarksKeep(w, SessionItems(w.rows, chosen), until, w');
    SnapshotsIssued(w, chosen);
    LeaseSends(w, chosen, until, w');
  }

  lemma LeasedKeepsInv(w: World, chosen: seq<string>, done: nat, until: Time, w': World)
    requires Inv(w) && w.flight.Idle? && forall sid :: sid in chosen ==> sid in w.rows && w.rows[sid].state != Acked
    requires w' == if done < |chosen| then LeaseBrokenOff(w, SessionItems(w.rows, chosen)[..done], until)
                   else LeaseSent(w, SessionItems(w.rows, chosen), until)
    ensures Inv(w')
  {
    if done < |chosen| {
      BrokenLeaseKeepsInv(w, SessionItems(w.rows, chosen)[..done], until);
    } else {
      SentLeaseKeepsInv(w, chosen, until);
    }
  }

  lemma DeliveredBackendOk(w: World, x: Summary, w': World)
    requires BackendOk(w) && Issued(w, x) && w' == w.(backend := Keep(w.backend, x), got := w.got + {x})
    ensures BackendOk(w')
  {
    assert forall y :: Issued(w, y) ==> Issued(w', y);
  }

  /** A delivered snapshot leaves every synced copy in place: none is newer than what was issued last. */
  lemma DeliveredRowOk(w: World, x: Summary, w': World, sid: string)
    requires Inv(w) && Issued(w, x) && sid in w.rows && w' == w.(backend := Keep(w.backend, x), got := w.got + {x})
    ensures RowOk(w', sid)
  {
    assert RowOk(w, sid);
  }

  lemma DeliveredFlightOk(w: World, x: Summary, w': World)
    requires FlightOk(w) && w' == w.(backend := Keep(w.backend, x), got := w.got + {x})
    ensures FlightOk(w')
  {
    if !w.flight.Idle? {
      forall it | it in w'.flight.items ensures LeaseHolds(w', it) {
        assert LeaseHolds(w, it);
      }
    }
  }

  lemma DeliverKeepsInv(w: World, s: Step)
    requires Inv(w) && s.Deliver? && Enabled(w, s)
    ensures Inv(Next(w, s))
  {
    var w', x := Next(w, s), s.snapshot;
    DeliveredBackendOk(w, x, w');
    DeliveredFlightOk(w, x, w');
    forall sid | sid in w'.rows ensures RowOk(w', sid) {
      DeliveredRowOk(w, x, w', sid);
    }
    assert forall y :: Issued(w, y) ==> Issued(w', y);
  }

  /** The heart of it: a lease whose revision is still current was delivered, nothing newer was ever
      issued, and equal stamps mean equal payloads. */
  lemma AckedMeansSynced(w: World, it: SessionItem)
    requires Inv(w) && w.flight.Replied? && w.flight.ok && it in w.flight.items
    requires w.rows[it.sessionId].revision == it.revision
    ensures it.sessionId in w.backend && w.backend[it.sessionId] == w.rows[it.sessionId].summary
  {
    assert LeaseHolds(w, it) && RowOk(w, it.sessionId);
    assert it.summary in Snapshots(w.flight.items);
    var kept := w.backend[it.sessionId];
    assert Issued(w, kept) && LastUpdate(kept) == LastUpdate(it.summary);
  }

  lemma FinishKeepsInv(w: World, s: Step)
    requires Inv(w) && s.Finish? && Enabled(w, s)
    ensures Inv(Next(w, s))
  {
    var w', items := Next(w, s), w.flight.items[..Min(s.done, |w.flight.items|)];
    var mark := if w.flight.ok then MarkAcked(s.now) else MarkPending;
    MarkAllRows(w.rows, items, mark);
    forall sid | sid in w'.rows ensures RowOk(w', sid) {
      assert RowOk(w, sid) && MarkedThrough(w.rows[sid], w'.rows[sid], sid, items, mark);
      if w'.rows[sid].state == Acked && w.rows[sid].state != Acked {
        var it :| it in items && it.sessionId == sid && it.revision == w.rows[sid].revision;
        AckedMeansSynced(w, it);
      }
    }
    assert forall x :: Issued(w, x) ==> Issued(w', x);
  }

  lemma NextLease(w: World, s: Step)
    requires s.Lease? && Enabled(w, s)
    ensures w.flight.Idle? && forall sid :: sid in s.chosen ==> sid in w.rows && w.rows[sid].state != Acked
    ensures Next(w, s) ==
              if s.done < |s.chosen| then LeaseBrokenOff(w, SessionItems(w.rows, s.chosen)[..s.done], s.now + s.dur)
                          else LeaseSent(w, SessionItems(w.rows, s.chosen), s.now + s.dur)
  {
    ChosenRows(w.rows, s.now, s.n, s.chosen);
  }

  lemma LeaseKeepsInv(w: World, s: Step)
    requires Inv(w) && s.Lease? && Enabled(w, s)
    ensures Inv(Next(w, s))
  {
    NextLease(w, s);
    LeasedKeepsInv(w, s.chosen, s.done, s.now + s.dur, Next(w, s));
  }

  lemma ReplyKeepsInv(w: World, s: Step)
    requires Inv(w) && (s.Reply? || s.Crash?) && Enabled(w, s)
    ensures Inv(Next(w, s))
  {
    assert forall it :: LeaseHolds(w, it) ==> LeaseHolds(Next(w, s), it);
    assert forall sid :: sid in w.rows ==> RowOk(w, sid);
  }

  lemma StepKeepsInv(w: World, s: Step)
    requires Inv(w) && Enabled(w, s) && Orderly(w, s)
    ensures Inv(Next(w, s))
  {
    match s
    case UpsertGroup(_, _, _, _) => UpsertKeepsInv(w, s);
    case Cap(victims) =>
      CapTakesOnlyAcked(w.rows, victims);
      DeleteKeepsInv(w, Next(w, s));
    case Prune(_, _) => DeleteKeepsInv(w, Next(w, s));
    case Lease(_, _, _, _, _) => LeaseKeepsInv(w, s);
    case Deliver(_) => DeliverKeepsInv(w, s);
    case Reply(_) => ReplyKeepsInv(w, s);
    case Finish(_, _) => FinishKeepsInv(w, s);
    case Crash => ReplyKeepsInv(w, s);
  }

  // ---------- runs ----------

  ghost predicate Steps(w: World, s: Step, w': World) { Enabled(w, s) && w' == Next(w, s) }

  ghost predicate AreSteps(ws: seq<World>, steps: seq<Step>) {
    |ws| == |steps| + 1 && forall i, j :: 0 <= i < |steps| && j == i + 1 ==> Steps(ws[i], steps[i], ws[j])
  }

  ghost predicate IsRun(ws: seq<World>, steps: seq<Step>) { AreSteps(ws, steps) && ws[0] == Start() }

  lemma {:induction false} RunKeepsInv(ws: seq<World>, steps: seq<Step>, k: nat)
    requires IsRun(ws, steps) && (forall i :: 0 <= i < |steps| ==> Orderly(ws[i], steps[i])) && k < |ws|
    ensures Inv(ws[k])
  {
    if k > 0 {
      RunKeepsInv(ws, steps, k - 1);
      assert Steps(ws[k - 1], steps[k - 1], ws[k]);
      StepKeepsInv(ws[k - 1], steps[k - 1]);
    }
  }

  /** At every point of every orderly run, an acked session's backend copy is its local payload, and a
      session in flight is still stored un-acked. */
  lemma SyncedWhenAcked(ws: seq<World>, steps: seq<Step>, k: nat, sid: string)
    requires IsRun(ws, steps) && (forall i :: 0 <= i < |steps| ==> Orderly(ws[i], steps[i])) && k < |ws|
    ensures sid in ws[k].rows && ws[k].rows[sid].state == Acked ==>
              sid in ws[k].backend && ws[k].backend[sid] == ws[k].rows[sid].summary
    ensures !ws[k].flight.Idle? ==> forall it :: it in ws[k].flight.items ==> it.sessionId in UnackedIds(ws[k].rows)
  {
    RunKeepsInv(ws, steps, k);
    if sid in ws[k].rows {
      assert RowOk(ws[k], sid);
    }
    if !ws[k].flight.Idle? {
      assert forall it :: it in ws[k].flight.items ==> LeaseHolds(ws[k], it);
    }
  }

  // ---------- without the assumption ----------

  /** A session that comes back after its delivered row was deleted: the backend takes its new snapshot
      exactly when the new stamp is later than the one it keeps. */
  lemma RecreatedSyncsIffLater(w: World, s: Step)
    requires Inv(w) && s.UpsertGroup? && Enabled(w, s) && s.sid !in w.rows && s.sid in w.backend
             && s.summary != w.backend[s.sid]
    ensures Keep(w.backend, s.summary)[s.sid] == s.summary <==> Seconds(s.now) > LastUpdate(w.backend[s.sid])
  {
    MergeStamps(s.summary, EMPTY_SUMMARY, s.sid, s.events, s.now);
    assert Issued(w, w.backend[s.sid]);
  }

  lemma SingleMark(rows: Table, it: SessionItem, mark: Mark)
    ensures MarkAll(rows, [it], mark) == MarkOne(rows, it, mark)
  {
    assert [it][..0] == [] && [it][0] == it;
  }

  lemma TheOnlyChoice(rows: Table, sid: string, row: SessionRow, now: Time)
    requires rows == map[sid := row] && row.state == Pending
    ensures IsLeaseChoice(rows, now, 1, [sid])
    ensures SessionItems(rows, [sid]) == [SessionItem(sid, row.revision, row.summary)]
  {
    assert LeasableIds(rows, now) == {sid};
    assert (set x | x in [sid]) == {sid};
  }

  /** The only session there is gets leased. */
  lemma LeaseTheOne(w1: World, sid: string, row: SessionRow, now: Time) returns (w2: World)
    requires w1.rows == map[sid := row] && row.state == Pending && w1.flight.Idle?
    ensures Steps(w1, Lease(1, now, 1, [sid], 1), w2)
    ensures w2 == LeaseSent(w1, [SessionItem(sid, row.revision, row.summary)], now + 1)
    ensures w2.rows == map[sid := Marked(row, MarkLeased(now + 1))] && row.summary in w2.net
  {
    var it := SessionItem(sid, row.revision, row.summary);
    TheOnlyChoice(w1.rows, sid, row, now);
    SingleMark(w1.rows, it, MarkLeased(now + 1));
    w2 := Next(w1, Lease(1, now, 1, [sid], 1));
    assert it in [it];
  }

  /** The snapshot in flight is delivered, whether or not the backend keeps it, and acked. */
  lemma AckTheOne(w2: World, it: SessionItem, row: SessionRow, now: Time) returns (w3: World, w4: World, w5: World)
    requires w2.flight == Sending([it]) && w2.rows == map[it.sessionId := row] && row.revision == it.revision
    requires it.summary in w2.net && it.summary.sessionId == it.sessionId
    ensures Steps(w2, Deliver(it.summary), w3) && Steps(w3, Reply(true), w4) && Steps(w4, Finish(now, 1), w5)
    ensures w5.rows == map[it.sessionId := Marked(row, MarkAcked(now))] && w5.flight.Idle?
    ensures w5.backend == Keep(w2.backend, it.summary)
  {
    w3 := Next(w2, Deliver(it.summary));
    assert Snapshots([it]) == {it.summary};
    w4 := Next(w3, Reply(true));
    w5 := Next(w4, Finish(now, 1));
    assert [it][..1] == [it];
    SingleMark(w4.rows, it, MarkAcked(now));
  }

  /** The instant a step reads from the clock. */
  function ClockOf(s: Step): Option<Time> {
    match s
    case UpsertGroup(_, _, now, _) => Some(now)
    case Prune(_, now) => Some(now)
    case Lease(_, now, _, _, _) => Some(now)
    case Finish(now, _) => Some(now)
    case _ => None
  }

  predicate ReadsAt(s: Step, t: Time) { ClockOf(s).None? || ClockOf(s).value == t }

  ghost predicate AllAt(steps: seq<Step>, t: Time) { forall i :: 0 <= i < |steps| ==> ReadsAt(steps[i], t) }

  /** The clock never goes back. */
  ghost predicate ForwardClock(steps: seq<Step>) {
    forall i, j :: 0 <= i < j < |steps| && ClockOf(steps[i]).Some? && ClockOf(steps[j]).Some? ==>
      ClockOf(steps[i]).value <= ClockOf(steps[j]).value
  }

  lemma ForwardInTwo(a: seq<Step>, t: Time, b: seq<Step>, t': Time)
    requires AllAt(a, t) && AllAt(b, t') && t <= t'
    ensures ForwardClock(a + b)
  {
    var all := a + b;
    forall i | 0 <= i < |all| ensures ReadsAt(all[i], if i < |a| then t else t') {
      assert i < |a| ==> all[i] == a[i];
      assert i >= |a| ==> all[i] == b[i - |a|];
    }
  }

  /** A run of `ws` goes on with that of `ws'`, which starts where it ends. */
  lemma GoOn(ws: seq<World>, steps: seq<Step>, ws': seq<World>, steps': seq<Step>)
    requires AreSteps(ws, steps) && AreSteps(ws', steps') && ws[|ws| - 1] == ws'[0]
    ensures AreSteps(ws + ws'[1..], steps + steps')
    ensures (ws + ws'[1..])[0] == ws[0] && (ws + ws'[1..])[|steps + steps'|] == ws'[|steps'|]
  {
    var all, taken := ws + ws'[1..], steps + steps';
    forall i, j | 0 <= i < |taken| && j == i + 1 ensures Steps(all[i], taken[i], all[j]) {
      if i < |steps| {
        assert Steps(ws[i], steps[i], ws[j]);
      } else {
        assert Steps(ws'[i - |steps|], steps'[i - |steps|], ws'[j - |steps|]);
      }
    }
  }

  lemma OneStep(w: World, s: Step, w': World)
    requires Steps(w, s, w')
    ensures AreSteps([w, w'], [s])
  {
  }

  // ----- many upserts of one session at one instant -----

  ghost function Contributes(c: Contribution<string>): NormalizedEvent -> bool {
    (e: NormalizedEvent) => c == ContributionOf(e)
  }

  /** One session, pending at the given stamp, and nothing else has happened since. */
  ghost predicate IsPendingAt(w: World, sid: string, c: Contribution<string>, stamp: int) {
    && w.rows.Keys == {sid} && w.rows[sid].state == Pending && w.flight.Idle? && w.backend == map[]
    && w.rows[sid].summary.sessionId == sid && HasOneModel(w.rows[sid].summary, c)
    && w.rows[sid].summary.updatedAt == Some(stamp)
  }

  lemma UpsertFirst(w: World, sid: string, e: NormalizedEvent, c: Contribution<string>, now: Time)
    returns (s: Step, w': World)
    requires w.rows == map[] && w.flight.Idle? && sid != "" && Contributes(c)(e)
    ensures s.UpsertGroup? && ReadsAt(s, now) && Steps(w, s, w') && w'.flight.Idle? && w'.backend == w.backend
    ensures w'.rows.Keys == {sid} && w'.rows[sid].state == Pending && w'.rows[sid].summary.sessionId == sid
    ensures HasOneModel(w'.rows[sid].summary, c) && w'.rows[sid].summary.updatedAt == Some(Seconds(now))
  {
    var r := MergeOfOne(e, sid, now);
    MergeStamps(r, EMPTY_SUMMARY, sid, [e], now);
    s := UpsertGroup(sid, [e], now, r);
    w' := Next(w, s);
  }

  lemma UpsertMore(w: World, sid: string, e: NormalizedEvent, c: Contribution<string>, stamp: int)
    returns (s: Step, w': World)
    requires IsPendingAt(w, sid, c, stamp) && sid != "" && stamp >= 0 && Contributes(c)(e)
    ensures ReadsAt(s, 0) && Steps(w, s, w') && IsPendingAt(w', sid, c, stamp + 1)
  {
    var prior := w.rows[sid].summary;
    var r := MergeAgain(prior, e, sid, 0);
    MergeStamps(r, prior, sid, [e], 0);
    s := UpsertGroup(sid, [e], 0, r);
    w' := Next(w, s);
  }

  lemma OneMoreStep(ws: seq<World>, steps: seq<Step>, s: Step, w: World, t: Time)
    requires AreSteps(ws, steps) && Steps(ws[|steps|], s, w) && AllAt(steps, t) && ReadsAt(s, t)
    ensures AreSteps(ws + [w], steps + [s]) && AllAt(steps + [s], t)
    ensures (ws + [w])[0] == ws[0] && (ws + [w])[|steps + [s]|] == w
  {
    var all, taken := ws + [w], steps + [s];
    forall i, j | 0 <= i < |taken| && j == i + 1 ensures Steps(all[i], taken[i], all[j]) {
      if i < |steps| {
        assert Steps(ws[i], steps[i], ws[j]);
      }
    }
  }

  /** A run of n + 1 upserts at instant 0, which leave the stamp n seconds ahead. */
  ghost function UpsertedMany(sid: string, c: Contribution<string>): (nat, (seq<World>, seq<Step>)) -> bool {
    (n: nat, run: (seq<World>, seq<Step>)) =>
      IsRun(run.0, run.1) && AllAt(run.1, 0) && IsPendingAt(run.0[|run.1|], sid, c, n)
  }

  lemma OneStepRun(w: World, s: Step, w': World)
    requires w == Start() && Steps(w, s, w') && ReadsAt(s, 0)
    ensures IsRun([w, w'], [s]) && AllAt([s], 0)
  {
    OneStep(w, s, w');
  }

  lemma StartIsEmpty(w: World)
    requires w == Start()
    ensures w.rows == map[] && w.flight.Idle? && w.backend == map[]
  {
  }

  lemma FirstPending(w: World, sid: string, e: NormalizedEvent, c: Contribution<string>) returns (s: Step, w': World)
    requires w.rows == map[] && w.flight.Idle? && w.backend == map[] && sid != "" && Contributes(c)(e)
    ensures ReadsAt(s, 0) && Steps(w, s, w') && IsPendingAt(w', sid, c, 0)
  {
    s, w' := UpsertFirst(w, sid, e, c, 0);
  }

  lemma FirstOfMany(sid: string, e: NormalizedEvent, c: Contribution<string>) returns (run: (seq<World>, seq<Step>))
    requires sid != "" && Contributes(c)(e)
    ensures UpsertedMany(sid, c)(0, run)
  {
    var w := Start();
    StartIsEmpty(w);
    var s, w' := FirstPending(w, sid, e, c);
    OneStepRun(w, s, w');
    run := ([w, w'], [s]);
  }

  lemma NextOfMany(sid: string, e: NormalizedEvent, c: Contribution<string>, n: nat, front: (seq<World>, seq<Step>))
    returns (run: (seq<World>, seq<Step>))
    requires sid != "" && Contributes(c)(e) && UpsertedMany(sid, c)(n, front)
    ensures UpsertedMany(sid, c)(n + 1, run)
  {
    var s, w := UpsertMore(front.0[|front.1|], sid, e, c, n);
    OneMoreStep(front.0, front.1, s, w, 0);
    run := (front.0 + [w], front.1 + [s]);
  }

  lemma {:induction false} UpsertMany(sid: string, e: NormalizedEvent, c: Contribution<string>, n: nat)
    returns (run: (seq<World>, seq<Step>))
    requires sid != "" && Contributes(c)(e)
    ensures UpsertedMany(sid, c)(n, run)
    decreases n
  {
    if n == 0 {
      run := FirstOfMany(sid, e, c);
    } else {
      var front := UpsertMany(sid, e, c, n - 1);
      run := NextOfMany(sid, e, c, n - 1, front);
    }
  }

  // ----- upload, prune, come back -----

  /** The pending session is leased, delivered and acked, whether or not the backend keeps it. */
  lemma UploadTheOne(w: World, sid: string, now: Time) returns (ws: seq<World>, steps: seq<Step>)
    requires w.rows.Keys == {sid} && w.rows[sid].state == Pending && w.flight.Idle?
             && w.rows[sid].summary.sessionId == sid
    ensures AreSteps(ws, steps) && |steps| == 4 && ws[0] == w && AllAt(steps, now) && ws[4].flight.Idle?
    ensures ws[4].rows.Keys == {sid} && ws[4].rows[sid].summary == w.rows[sid].summary
    ensures ws[4].rows[sid].state == Acked && ws[4].rows[sid].ackedAt == Some(now)
    ensures ws[4].backend == Keep(w.backend, w.rows[sid].summary)
  {
    var row := w.rows[sid];
    assert w.rows == map[sid := row];
    var w2 := LeaseTheOne(w, sid, row, now);
    var w3, w4, w5 := AckTheOne(w2, SessionItem(sid, row.revision, row.summary), Marked(row, MarkLeased(now + 1)), now);
    steps := [Lease(1, now, 1, [sid], 1), Deliver(row.summary), Reply(true), Finish(now, 1)];
    ws := [w, w2, w3, w4, w5];
  }

  lemma PruneTheOne(w: World, sid: string, at: Time, now: Time) returns (w': World)
    requires w.rows.Keys == {sid} && w.rows[sid].state == Acked && w.rows[sid].ackedAt == Some(at) && at < now - DAY
    ensures Steps(w, Prune(now - DAY, now), w') && w' == w.(rows := map[])
  {
    w' := Next(w, Prune(now - DAY, now));
    assert SessionsPruned(w.rows, now - DAY) == map[];
  }

  /** An upload acked although the backend keeps another snapshot. */
  ghost predicate AckedUnsynced(w: World, sid: string) {
    sid in w.rows && w.rows[sid].state == Acked && sid in w.backend && w.rows[sid].summary != w.backend[sid]
  }

  lemma UpsertNew(w: World, s: Step) returns (w': World)
    requires w.rows == map[] && w.flight.Idle? && s.UpsertGroup? && Enabled(w, s)
    ensures Steps(w, s, w') && w'.flight.Idle? && w'.backend == w.backend
    ensures w'.rows.Keys == {s.sid} && w'.rows[s.sid].state == Pending && w'.rows[s.sid].summary == s.summary
    ensures s.summary.sessionId == s.sid && LastUpdate(s.summary) == Seconds(s.now)
  {
    MergeStamps(s.summary, EMPTY_SUMMARY, s.sid, s.events, s.now);
    w' := Next(w, s);
  }

  /** A session recreated no later than the stamp the backend keeps, with another payload, is acked all the same,
      and the backend copy is not the local payload. */
  lemma RecreatedTooEarlyIsLost(w: World, s: Step) returns (ws: seq<World>, steps: seq<Step>)
    requires w.rows == map[] && w.flight.Idle? && s.UpsertGroup? && Enabled(w, s)
    requires s.sid in w.backend && s.summary != w.backend[s.sid] && Seconds(s.now) <= LastUpdate(w.backend[s.sid])
    ensures AreSteps(ws, steps) && |steps| == 5 && ws[0] == w && steps[0] == s && AllAt(steps, s.now)
    ensures AckedUnsynced(ws[5], s.sid)
  {
    var w1 := UpsertNew(w, s);
    OneStep(w, s, w1);
    var after, taken := UploadTheOne(w1, s.sid, s.now);
    GoOn([w, w1], [s], after, taken);
    ws, steps := [w, w1] + after[1..], [s] + taken;
  }

  lemma ComesBack(w: World, sid: string, e: NormalizedEvent, c: Contribution<string>, now: Time)
    returns (ws: seq<World>, steps: seq<Step>)
    requires w.rows == map[] && w.flight.Idle? && sid != "" && Contributes(c)(e)
    requires sid in w.backend && Seconds(now) < LastUpdate(w.backend[sid])
    ensures AreSteps(ws, steps) && |steps| == 5 && ws[0] == w && AllAt(steps, now) && AckedUnsynced(ws[5], sid)
  {
    var r := MergeOfOne(e, sid, now);
    MergeStamps(r, EMPTY_SUMMARY, sid, [e], now);
    ws, steps := RecreatedTooEarlyIsLost(w, UpsertGroup(sid, [e], now, r));
  }

  /** Upload at 0, prune after the retention, come back. */
  lemma PrunedAndBack(w: World, sid: string, e: NormalizedEvent, c: Contribution<string>, stamp: int, now: Time)
    returns (ws: seq<World>, steps: seq<Step>, ws': seq<World>, steps': seq<Step>)
    requires IsPendingAt(w, sid, c, stamp) && sid != "" && Contributes(c)(e) && now > DAY && Seconds(now) < stamp
    ensures AreSteps(ws, steps) && AllAt(steps, 0) && ws[0] == w
    ensures AreSteps(ws', steps') && AllAt(steps', now) && ws'[0] == ws[|steps|] && AckedUnsynced(ws'[|steps'|], sid)
  {
    ws, steps := UploadTheOne(w, sid, 0);
    var pruned := PruneTheOne(ws[4], sid, 0, now);
    OneStep(ws[4], Prune(now - DAY, now), pruned);
    var back, taken := ComesBack(pruned, sid, e, c, now);
    GoOn([ws[4], pruned], [Prune(now - DAY, now)], back, taken);
    ws', steps' := [ws[4], pruned] + back[1..], [Prune(now - DAY, now)] + taken;
  }

  lemma AllAtJoined(a: seq<Step>, b: seq<Step>, t: Time)
    requires AllAt(a, t) && AllAt(b, t)
    ensures AllAt(a + b, t)
  {
  }

  /** So the failure is reached from an empty store under a clock that never goes back: a session updated more than
      a day's seconds ahead of the clock is uploaded and pruned after a day, its next event brings it back, that
      upload is acked, and the backend still keeps the old snapshot. */
  lemma RecreatedSessionIsLost(sid: string, e: NormalizedEvent, c: Contribution<string>, n: nat, now: Time)
    returns (ws: seq<World>, steps: seq<Step>)
    requires sid != "" && Contributes(c)(e) && now > DAY && Seconds(now) < n
    ensures IsRun(ws, steps) && ForwardClock(steps) && AckedUnsynced(ws[|steps|], sid)
  {
    var many := UpsertMany(sid, e, c, n);
    var ws1, steps1 := many.0, many.1;
    var ws2, steps2, ws3, steps3 := PrunedAndBack(ws1[|steps1|], sid, e, c, n, now);
    GoOn(ws1, steps1, ws2, steps2);
    AllAtJoined(steps1, steps2, 0);
    var front := ws1 + ws2[1..];
    GoOn(front, steps1 + steps2, ws3, steps3);
    ForwardInTwo(steps1 + steps2, 0, steps3, now);
    ws, steps := front + ws3[1..], (steps1 + steps2) + steps3;
  }
}
