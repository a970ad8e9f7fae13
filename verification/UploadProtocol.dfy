/** The event queue, its one uploader and the backend as a step protocol: receiver handlers and the
    retention loop run between any two uploader steps, messages may be delivered late and repeatedly,
    replies and acks may be lost, and the process may crash anywhere. */
module UploadProtocol {
  import opened Seqs
  import opened Api
  import opened EventQueue

  // ---------- the uploader's split and the backend's dedupe ----------

  function WireOf(items: seq<Item>): (r: seq<WireEvent>)
    ensures |r| == |items|
    ensures forall i :: 0 <= i < |items| ==> r[i] == WireEvent(items[i].eventId, items[i].event)
  {
    seq(|items|, i requires 0 <= i < |items| => WireEvent(items[i].eventId, items[i].event))
  }

  function ItemIds(items: seq<Item>): (r: seq<int>)
    ensures |r| == |items|
    ensures forall i :: 0 <= i < |items| ==> r[i] == items[i].id
  {
    seq(|items|, i requires 0 <= i < |items| => items[i].id)
  }

  /** split: row ids and wire events in the order leased, each under its queue-minted event id. */
  method Split(items: seq<Item>) returns (ids: seq<int>, events: seq<WireEvent>)
    ensures ids == ItemIds(items) && events == WireOf(items)
  {
    ids, events := [], [];
    for i := 0 to |items|
      invariant ids == ItemIds(items)[..i] && events == WireOf(items)[..i]
    {
      ids := ids + [items[i].id];
      events := events + [WireEvent(items[i].eventId, items[i].event)];
    }
  }

  function IdsIn(log: seq<WireEvent>): set<nat> { set w | w in log :: w.eventId }

  /** The backend records an event only when it has not seen its event id. */
  function Accept(log: seq<WireEvent>, batch: seq<WireEvent>): seq<WireEvent>
    decreases |batch|
  {
    if batch == [] then log
    else Accept(if batch[0].eventId in IdsIn(log) then log else log + [batch[0]], batch[1..])
  }

  lemma {:induction false} AcceptRecordsAll(log: seq<WireEvent>, batch: seq<WireEvent>)
    ensures log <= Accept(log, batch)
    ensures IdsIn(Accept(log, batch)) == IdsIn(log) + IdsIn(batch)
    ensures forall w :: w in Accept(log, batch) ==> w in log || w in batch
    decreases |batch|
  {
    if batch != [] {
      var log' := if batch[0].eventId in IdsIn(log) then log else log + [batch[0]];
      AcceptRecordsAll(log', batch[1..]);
      assert batch == [batch[0]] + batch[1..];
      assert IdsIn(log') == IdsIn(log) + {batch[0].eventId};
      assert IdsIn(batch) == {batch[0].eventId} + IdsIn(batch[1..]);
    }
  }

  ghost predicate RecordedOnce(log: seq<WireEvent>) {
    forall i, j :: 0 <= i < j < |log| ==> log[i].eventId != log[j].eventId
  }

  lemma {:induction false} AcceptRecordsOnce(log: seq<WireEvent>, batch: seq<WireEvent>)
    requires RecordedOnce(log)
    ensures RecordedOnce(Accept(log, batch))
    decreases |batch|
  {
    if batch != [] {
      var log' := if batch[0].eventId in IdsIn(log) then log else log + [batch[0]];
      forall i, j | 0 <= i < j < |log'| ensures log'[i].eventId != log'[j].eventId {
        assert i < |log| && log[i] in log;
      }
      AcceptRecordsOnce(log', batch[1..]);
    }
  }

  // ---------- the protocol ----------

  /** Where the one uploader is between two of its steps. */
  datatype Flight = Idle | Sending(items: seq<Item>) | Replied(items: seq<Item>, ok: bool)

  datatype World = World(
    rows: seq<Row>,
    flight: Flight,
    net: set<seq<WireEvent>>,          // every request ever sent; the network may deliver it again
    log: seq<WireEvent>,               // what the backend recorded, in order
    born: map<nat, NormalizedEvent>,   // every event ever enqueued, under the id minted for it
    lost: set<nat>,                    // event ids evicted before they were acked
    enqueued: nat,
    evicted: nat,
    pruned: nat)

  function Start(): World { World([], Idle, {}, [], map[], {}, 0, 0, 0) }

  datatype Step =
    | Enqueue(events: seq<NormalizedEvent>, eventIds: seq<nat>, now: Time, env: nat -> Round)
    | Prune(cutoff: Time)
    | Lease(n: nat, now: Time, dur: Time)
    | Deliver(batch: seq<WireEvent>)
    | Reply(ok: bool)
    | Ack(now: Time, stored: bool)
    | Nack(stored: bool)
    | Crash

  function Register(born: map<nat, NormalizedEvent>, ids: seq<nat>,
                    events: seq<NormalizedEvent>): map<nat, NormalizedEvent>
    requires |ids| == |events|
  {
    if ids == [] then born else Register(born, ids[1..], events[1..])[ids[0] := events[0]]
  }

  ghost predicate Enabled(w: World, s: Step) {
    match s
    case Enqueue(events, ids, _, _) =>
      events != [] && |ids| == |events| && Distinct(ids) && forall e :: e in ids ==> e !in w.born
    case Prune(_) => true
    case Lease(n, now, _) => w.flight.Idle? && SelectLeasable(w.rows, now, n) != []
    case Deliver(batch) => batch in w.net
    case Reply(ok) => w.flight.Sending? && (ok ==> IdsIn(WireOf(w.flight.items)) <= IdsIn(w.log))
    case Ack(_, _) => w.flight.Replied? && w.flight.ok
    case Nack(_) => w.flight.Replied? && !w.flight.ok
    case Crash => true
  }

  /** The rows an enqueue leaves: insert, then evict. A crash between commit and any eviction round is
      an `env` whose next size read fails. */
  function AfterEnqueue(caps: Caps, w: World, s: Step): Evicted
    requires s.Enqueue? && |s.eventIds| == |s.events|
  {
    EvictFrom(caps, Inserted(w.rows, s.eventIds, s.events, s.now), s.env, 0)
  }

  function UnackedEventIds(rows: seq<Row>): set<nat> { set r | r in rows && IsUnacked(r) :: r.eventId }

  ghost function Next(caps: Caps, w: World, s: Step): World
    requires Enabled(w, s)
  {
    match s
    case Enqueue(events, ids, now, env) =>
      var r := AfterEnqueue(caps, w, s);
      w.(rows := r.rows,
         born := Register(w.born, ids, events),
         lost := w.lost + (UnackedEventIds(Inserted(w.rows, ids, events, now)) - UnackedEventIds(r.rows)),
         enqueued := w.enqueued + |events|,
         evicted := w.evicted + r.count)
    case Prune(cutoff) =>
      w.(rows := Pruned(w.rows, cutoff), pruned := w.pruned + |w.rows| - |Pruned(w.rows, cutoff)|)
    case Lease(n, now, dur) =>
      var chosen := SelectLeasable(w.rows, now, n);
      w.(rows := UpdateByIds(w.rows, IdsOf(chosen), SetLeased(now + dur)),
         flight := Sending(ItemsOf(chosen)),
         net := w.net + {WireOf(ItemsOf(chosen))})
    case Deliver(batch) => w.(log := Accept(w.log, batch))
    case Reply(ok) => w.(flight := Replied(w.flight.items, ok))
    case Ack(now, stored) =>
      w.(flight := Idle, rows := if stored then UpdateByIds(w.rows, ItemIds(w.flight.items), SetAcked(now)) else w.rows)
    case Nack(stored) =>
      w.(flight := Idle, rows := if stored then UpdateByIds(w.rows, ItemIds(w.flight.items), SetPending) else w.rows)
    case Crash => w.(flight := Idle)
  }

  /** The guard the safety of a late ack rests on: under a batch in flight, no eviction finds the table over a cap
      at every size reading until its last row is gone. */
  ghost predicate KeepsARow(caps: Caps, w: World, s: Step) {
    s.Enqueue? && !w.flight.Idle? ==> !StaysOver(caps, |w.rows| + |s.events|, s.env, 0)
  }

  lemma KeptRow(caps: Caps, w: World, s: Step)
    requires WellFormed(w.rows) && s.Enqueue? && |s.eventIds| == |s.events|
    ensures AfterEnqueue(caps, w, s).rows == [] <==> StaysOver(caps, |w.rows| + |s.events|, s.env, 0)
  {
    InsertKeepsWellFormed(w.rows, s.eventIds, s.events, s.now);
    EmptiedIffStaysOver(caps, Inserted(w.rows, s.eventIds, s.events, s.now), s.env, 0);
  }

  // ---------- the invariant ----------

  ghost predicate RowsBorn(w: World) {
    && (forall r :: r in w.rows ==> r.eventId in w.born && w.born[r.eventId] == r.payload)
    && (forall r, r' :: r in w.rows && r' in w.rows && r.eventId == r'.eventId ==> r == r')
  }

  ghost predicate WiresBorn(born: map<nat, NormalizedEvent>, wires: seq<WireEvent>) {
    forall e :: e in wires ==> e.eventId in born && born[e.eventId] == e.event
  }

  /** A row that carries a leased id is the leased row itself, still un-acked. */
  ghost predicate LeaseHolds(w: World, it: Item) {
    && it.id >= 1
    && it.eventId in w.born && w.born[it.eventId] == it.event
    && forall r :: r in w.rows && r.id == it.id ==> r.eventId == it.eventId && r.state == Leased
  }

  /** Some un-acked row's id is at least as large as every id in flight, so max+1 stays above them. */
  ghost predicate Guarded(w: World, items: seq<Item>) {
    exists r :: r in w.rows && IsUnacked(r) && forall it :: it in items ==> it.id <= r.id
  }

  ghost predicate FlightOk(w: World) {
    !w.flight.Idle? ==>
      && w.flight.items != []
      && (forall it :: it in w.flight.items ==> LeaseHolds(w, it))
      && Guarded(w, w.flight.items)
      && (w.flight.Replied? && w.flight.ok ==> IdsIn(WireOf(w.flight.items)) <= IdsIn(w.log))
  }

  ghost predicate AckedWasRecorded(w: World) {
    forall r :: r in w.rows && IsAcked(r) ==> r.eventId in IdsIn(w.log)
  }

  /** Every event ever enqueued is recorded by the backend, still queued un-acked, or was evicted. */
  ghost predicate NothingVanishes(w: World) {
    forall e :: e in w.born ==> e in IdsIn(w.log) || e in UnackedEventIds(w.rows) || e in w.lost
  }

  /** What holds whatever eviction does: rows and requests carry what was enqueued, the backend's record has no
      repeats, and every row ever inserted is there, evicted or pruned. */
  ghost predicate Accounted(w: World) {
    && WellFormed(w.rows)
    && RowsBorn(w)
    && (forall b :: b in w.net ==> WiresBorn(w.born, b))
    && WiresBorn(w.born, w.log)
    && RecordedOnce(w.log)
    && w.enqueued == |w.rows| + w.evicted + w.pruned
  }

  ghost predicate Inv(w: World) {
    Accounted(w) && FlightOk(w) && AckedWasRecorded(w) && NothingVanishes(w)
  }

  // ---------- each step keeps it ----------

  function After(r: Row, ids: seq<int>, clause: SetClause): Row { if r.id in ids then Apply(r, clause) else r }

  lemma UpdateMembers(rows: seq<Row>, ids: seq<int>, clause: SetClause)
    ensures forall r :: r in rows ==> After(r, ids, clause) in UpdateByIds(rows, ids, clause)
    ensures forall r' :: r' in UpdateByIds(rows, ids, clause) ==> exists r :: r in rows && r' == After(r, ids, clause)
  {
    var u := UpdateByIds(rows, ids, clause);
    forall r | r in rows ensures After(r, ids, clause) in u {
      var i :| 0 <= i < |rows| && rows[i] == r;
      assert u[i] == After(r, ids, clause);
    }
    forall r' | r' in u ensures exists r :: r in rows && r' == After(r, ids, clause) {
      var i :| 0 <= i < |u| && u[i] == r';
      assert rows[i] in rows;
    }
  }

  /** Changing states by id keeps every row's identity. */
  lemma UpdateKeepsRowsBorn(w: World, ids: seq<int>, clause: SetClause)
    requires WellFormed(w.rows) && RowsBorn(w)
    ensures var w' := w.(rows := UpdateByIds(w.rows, ids, clause)); WellFormed(w'.rows) && RowsBorn(w')
  {
    UpdateKeepsWellFormed(w.rows, ids, clause);
    UpdateMembers(w.rows, ids, clause);
  }

  lemma {:induction false} RegisterKeys(born: map<nat, NormalizedEvent>, ids: seq<nat>, events: seq<NormalizedEvent>)
    requires |ids| == |events| && Distinct(ids) && forall e :: e in ids ==> e !in born
    ensures var b := Register(born, ids, events);
            && (forall e :: e in born ==> e in b && b[e] == born[e])
            && (forall i :: 0 <= i < |ids| ==> ids[i] in b && b[ids[i]] == events[i])
            && (forall e :: e in b ==> e in born || e in ids)
  {
    if ids != [] {
      var rest := ids[1..];
      forall i, j | 0 <= i < j < |rest| ensures rest[i] != rest[j] {
        assert rest[i] == ids[i + 1] && rest[j] == ids[j + 1];
      }
      RegisterKeys(born, rest, events[1..]);
      forall i | 0 <= i < |ids|
        ensures ids[i] in Register(born, ids, events) && Register(born, ids, events)[ids[i]] == events[i] {
        if i > 0 {
          assert rest[i - 1] == ids[i] && events[1..][i - 1] == events[i];
        }
      }
    }
  }

  /** The table right after the insert, before eviction. */
  ghost function WithInserted(w: World, s: Step): World
    requires s.Enqueue? && |s.eventIds| == |s.events|
  {
    w.(rows := Inserted(w.rows, s.eventIds, s.events, s.now),
       born := Register(w.born, s.eventIds, s.events),
       enqueued := w.enqueued + |s.events|)
  }

  lemma NewRowsNumbered(w: World, s: Step, r: Row)
    requires s.Enqueue? && |s.eventIds| == |s.events| && r in Inserted(w.rows, s.eventIds, s.events, s.now)
    ensures r in w.rows || (r.id >= NextId(w.rows) && r.state == Pending && r.eventId in s.eventIds)
  {
    var all := Inserted(w.rows, s.eventIds, s.events, s.now);
    var i :| 0 <= i < |all| && all[i] == r;
    if i >= |w.rows| {
      assert s.eventIds[i - |w.rows|] == r.eventId;
    }
  }

  lemma InsertedRowsBorn(w: World, s: Step)
    requires WellFormed(w.rows) && RowsBorn(w) && s.Enqueue? && Enabled(w, s)
    ensures WellFormed(WithInserted(w, s).rows) && RowsBorn(WithInserted(w, s))
  {
    var w1 := WithInserted(w, s);
    InsertKeepsWellFormed(w.rows, s.eventIds, s.events, s.now);
    RegisterKeys(w.born, s.eventIds, s.events);
    forall i | 0 <= i < |w1.rows|
      ensures w1.rows[i].eventId in w1.born && w1.born[w1.rows[i].eventId] == w1.rows[i].payload
    {
      if i < |w.rows| { assert w.rows[i] in w.rows; } else { assert s.eventIds[i - |w.rows|] == w1.rows[i].eventId; }
    }
    forall i, j | 0 <= i < j < |w1.rows| ensures w1.rows[i].eventId != w1.rows[j].eventId {
      InsertedIdsDiffer(w, s, i, j);
    }
  }

  lemma InsertedIdsDiffer(w: World, s: Step, i: nat, j: nat)
    requires WellFormed(w.rows) && RowsBorn(w) && s.Enqueue? && Enabled(w, s) && i < j < |WithInserted(w, s).rows|
    ensures WithInserted(w, s).rows[i].eventId != WithInserted(w, s).rows[j].eventId
  {
    var n := |w.rows|;
    if j < n {
      assert w.rows[i] in w.rows && w.rows[j] in w.rows && w.rows[i].id < w.rows[j].id;
    } else if i < n {
      assert w.rows[i] in w.rows && s.eventIds[j - n] in s.eventIds;
    } else {
      assert s.eventIds[i - n] != s.eventIds[j - n];
    }
  }

  /** Rows that reuse no id in flight leave the batch's rows as they were. */
  lemma EnqueueKeepsLease(w: World, s: Step, rows: seq<Row>, it: Item)
    requires s.Enqueue? && |s.eventIds| == |s.events|
    requires LeaseHolds(w, it) && it.id < NextId(w.rows)
    requires forall r :: r in rows ==> r in Inserted(w.rows, s.eventIds, s.events, s.now)
    ensures forall r :: r in rows && r.id == it.id ==> r.eventId == it.eventId && r.state == Leased
  {
    forall r | r in rows && r.id == it.id ensures r.eventId == it.eventId && r.state == Leased {
      NewRowsNumbered(w, s, r);
    }
  }

  lemma IdsBelowNext(rows: seq<Row>, r: Row)
    requires WellFormed(rows) && r in rows
    ensures r.id < NextId(rows)
  {
    var i :| 0 <= i < |rows| && rows[i] == r;
  }

  /** The row inserted last is un-acked, numbered above everything older, and outlives the eviction
      unless nothing does. */
  lemma NewestGuards(caps: Caps, w: World, s: Step)
    requires WellFormed(w.rows) && s.Enqueue? && |s.eventIds| == |s.events| && s.events != []
    requires AfterEnqueue(caps, w, s).rows != []
    ensures exists r :: r in AfterEnqueue(caps, w, s).rows && IsUnacked(r) && r.id >= NextId(w.rows)
  {
    var all := Inserted(w.rows, s.eventIds, s.events, s.now);
    InsertKeepsWellFormed(w.rows, s.eventIds, s.events, s.now);
    assert all[|all| - 1] ==
             NewRow(NextId(w.rows) + |s.events| - 1, s.eventIds[|s.events| - 1], s.events[|s.events| - 1], s.now);
    NewestGoesLast(caps, all, s.env);
  }

  /** What eviction leaves was there before. */
  lemma EvictionKeepsMembers(caps: Caps, rows: seq<Row>, env: nat -> Round)
    requires WellFormed(rows)
    ensures var r := EvictFrom(caps, rows, env, 0);
            && WellFormed(r.rows) && |r.rows| + r.count == |rows|
            && forall x :: x in r.rows ==> x in rows
  {
    EvictionIsOneDelete(caps, rows, env, 0);
    FilterMembers(NotIn(VictimIds(rows, EvictFrom(caps, rows, env, 0).count)), rows);
  }

  /** A batch in flight is undisturbed by an enqueue that keeps a row. */
  lemma EnqueueKeepsFlight(caps: Caps, w: World, s: Step)
    requires WellFormed(w.rows) && FlightOk(w) && s.Enqueue? && Enabled(w, s) && !w.flight.Idle?
    requires AfterEnqueue(caps, w, s).rows != []
    ensures FlightOk(Next(caps, w, s))
  {
    var w' := Next(caps, w, s);
    RegisterKeys(w.born, s.eventIds, s.events);
    InsertKeepsWellFormed(w.rows, s.eventIds, s.events, s.now);
    EvictionKeepsMembers(caps, Inserted(w.rows, s.eventIds, s.events, s.now), s.env);
    var guard :| guard in w.rows && IsUnacked(guard) && forall it :: it in w.flight.items ==> it.id <= guard.id;
    IdsBelowNext(w.rows, guard);
    forall it | it in w.flight.items ensures LeaseHolds(w', it) {
      EnqueueKeepsLease(w, s, w'.rows, it);
    }
    NewestGuards(caps, w, s);
  }

  lemma WiresStayBorn(born: map<nat, NormalizedEvent>, born': map<nat, NormalizedEvent>, wires: seq<WireEvent>)
    requires WiresBorn(born, wires) && forall e :: e in born ==> e in born' && born'[e] == born[e]
    ensures WiresBorn(born', wires)
  {
  }

  lemma EnqueueKeepsAccount(caps: Caps, w: World, s: Step)
    requires Accounted(w) && s.Enqueue? && Enabled(w, s)
    ensures Accounted(Next(caps, w, s))
  {
    var w1, w' := WithInserted(w, s), Next(caps, w, s);
    InsertedRowsBorn(w, s);
    EvictionKeepsMembers(caps, w1.rows, s.env);
    RegisterKeys(w.born, s.eventIds, s.events);
    WiresStayBorn(w.born, w'.born, w.log);
    forall b | b in w'.net ensures WiresBorn(w'.born, b) {
      WiresStayBorn(w.born, w'.born, b);
    }
  }

  lemma EnqueueKeepsRecord(caps: Caps, w: World, s: Step)
    requires Inv(w) && s.Enqueue? && Enabled(w, s)
    ensures AckedWasRecorded(Next(caps, w, s))
  {
    var w1, w' := WithInserted(w, s), Next(caps, w, s);
    InsertedRowsBorn(w, s);
    EvictionKeepsMembers(caps, w1.rows, s.env);
    forall r | r in w'.rows && IsAcked(r) ensures r.eventId in IdsIn(w'.log) {
      NewRowsNumbered(w, s, r);
    }
  }

  lemma EnqueueKeepsInv(caps: Caps, w: World, s: Step)
    requires Inv(w) && s.Enqueue? && Enabled(w, s) && KeepsARow(caps, w, s)
    ensures Inv(Next(caps, w, s))
  {
    var w' := Next(caps, w, s);
    EnqueueKeepsAccount(caps, w, s);
    EnqueueKeepsRecord(caps, w, s);
    if !w.flight.Idle? {
      KeptRow(caps, w, s);
      EnqueueKeepsFlight(caps, w, s);
    }
    forall e | e in w'.born ensures e in IdsIn(w'.log) || e in UnackedEventIds(w'.rows) || e in w'.lost {
      BornIsQueued(w, s, e);
    }
  }

  lemma BornIsQueued(w: World, s: Step, e: nat)
    requires Inv(w) && s.Enqueue? && Enabled(w, s) && e in WithInserted(w, s).born
    ensures e in IdsIn(w.log) || e in UnackedEventIds(WithInserted(w, s).rows) || e in w.lost
  {
    var w1 := WithInserted(w, s);
    RegisterKeys(w.born, s.eventIds, s.events);
    if e in w.born {
      if e in UnackedEventIds(w.rows) {
        var r :| r in w.rows && IsUnacked(r) && r.eventId == e;
        assert r in w1.rows;
      }
    } else {
      var i :| 0 <= i < |s.eventIds| && s.eventIds[i] == e;
      assert w1.rows[|w.rows| + i] in w1.rows;
    }
  }

  lemma PruneKeepsInv(caps: Caps, w: World, s: Step)
    requires Inv(w) && s.Prune?
    ensures Inv(Next(caps, w, s))
  {
    var w' := Next(caps, w, s);
    PruneKeepsAccount(caps, w, s);
    FilterMembers(KeptAt(s.cutoff), w.rows);
    forall r | r in w.rows && IsUnacked(r) ensures r in w'.rows { }
    if !w.flight.Idle? {
      assert forall it :: it in w.flight.items ==> LeaseHolds(w, it);
      var guard :| guard in w.rows && IsUnacked(guard) && forall it :: it in w.flight.items ==> it.id <= guard.id;
      assert guard in w'.rows;
    }
  }

  lemma Preimage(rows: seq<Row>, ids: seq<int>, clause: SetClause, r': Row) returns (r: Row)
    requires r' in UpdateByIds(rows, ids, clause)
    ensures r in rows && r' == After(r, ids, clause)
  {
    UpdateMembers(rows, ids, clause);
    r :| r in rows && r' == After(r, ids, clause);
  }

  /** Un-acked rows whose ids are not acked stay un-acked under their event ids. */
  lemma StillUnacked(rows: seq<Row>, ids: seq<int>, clause: SetClause, e: nat)
    requires e in UnackedEventIds(rows)
    requires clause.SetAcked? ==> forall r :: r in rows && r.id in ids ==> r.eventId != e
    ensures e in UnackedEventIds(UpdateByIds(rows, ids, clause))
  {
    UpdateMembers(rows, ids, clause);
    var r :| r in rows && IsUnacked(r) && r.eventId == e;
    assert IsUnacked(After(r, ids, clause)) && After(r, ids, clause).eventId == e;
  }

  /** Only an ack makes a row acked. */
  lemma NewlyAcked(w: World, ids: seq<int>, clause: SetClause)
    requires AckedWasRecorded(w)
    requires clause.SetAcked? ==> forall r :: r in w.rows && r.id in ids ==> r.eventId in IdsIn(w.log)
    ensures AckedWasRecorded(w.(rows := UpdateByIds(w.rows, ids, clause)))
  {
    forall r' | r' in UpdateByIds(w.rows, ids, clause) && IsAcked(r') ensures r'.eventId in IdsIn(w.log) {
      var r := Preimage(w.rows, ids, clause, r');
    }
  }

  lemma ChosenRows(rows: seq<Row>, now: Time, n: nat)
    requires WellFormed(rows)
    ensures var chosen := SelectLeasable(rows, now, n);
            WellFormed(chosen) && forall r :: r in chosen ==> r in rows && Leasable(r, now)
  {
    var all, chosen := Filter(LeasableAt(now), rows), SelectLeasable(rows, now, n);
    FilterMembers(LeasableAt(now), rows);
    FilterKeepsWellFormed(LeasableAt(now), rows);
    assert chosen == all[..|chosen|];
    forall r | r in chosen ensures r in rows && Leasable(r, now) {
      assert r in all;
    }
  }

  /** Right after the lease every row with a leased id is the leased row. */
  lemma LeaseMarks(w: World, chosen: seq<Row>, until: Time, w': World, i: nat)
    requires WellFormed(w.rows) && RowsBorn(w) && i < |chosen| && chosen[i] in w.rows
    requires w'.rows == UpdateByIds(w.rows, IdsOf(chosen), SetLeased(until)) && w'.born == w.born
    ensures LeaseHolds(w', ItemOf(chosen[i]))
  {
    var r := chosen[i];
    assert IdsOf(chosen)[i] == r.id;
    forall r' | r' in w'.rows && r'.id == r.id ensures r'.eventId == r.eventId && r'.state == Leased {
      var before := Preimage(w.rows, IdsOf(chosen), SetLeased(until), r');
      SameIdSameRow(w.rows, before, r);
    }
  }

  /** The newest leased row guards the batch. */
  lemma LeaseGuards(w: World, chosen: seq<Row>, until: Time, w': World)
    requires WellFormed(chosen) && chosen != [] && chosen[|chosen| - 1] in w.rows
    requires w'.rows == UpdateByIds(w.rows, IdsOf(chosen), SetLeased(until))
    ensures Guarded(w', ItemsOf(chosen))
  {
    var last := chosen[|chosen| - 1];
    UpdateMembers(w.rows, IdsOf(chosen), SetLeased(until));
    assert IdsOf(chosen)[|chosen| - 1] == last.id;
    var guard := After(last, IdsOf(chosen), SetLeased(until));
    forall it | it in ItemsOf(chosen) ensures it.id <= guard.id {
      var i :| 0 <= i < |chosen| && ItemsOf(chosen)[i] == it;
    }
  }

  lemma LeaseKeepsFlight(w: World, chosen: seq<Row>, until: Time, w': World)
    requires WellFormed(w.rows) && RowsBorn(w) && WellFormed(chosen) && chosen != []
    requires forall i :: 0 <= i < |chosen| ==> chosen[i] in w.rows
    requires w'.rows == UpdateByIds(w.rows, IdsOf(chosen), SetLeased(until)) && w'.born == w.born
    requires w'.flight == Sending(ItemsOf(chosen))
    ensures FlightOk(w')
  {
    forall it | it in w'.flight.items ensures LeaseHolds(w', it) {
      var i :| 0 <= i < |chosen| && ItemsOf(chosen)[i] == it;
      LeaseMarks(w, chosen, until, w', i);
    }
    LeaseGuards(w, chosen, until, w');
  }

  lemma LeasedWiresBorn(w: World, chosen: seq<Row>)
    requires RowsBorn(w) && forall i :: 0 <= i < |chosen| ==> chosen[i] in w.rows
    ensures WiresBorn(w.born, WireOf(ItemsOf(chosen)))
  {
    forall e | e in WireOf(ItemsOf(chosen)) ensures e.eventId in w.born && w.born[e.eventId] == e.event {
      var i :| 0 <= i < |chosen| && e == WireOf(ItemsOf(chosen))[i];
      assert chosen[i] in w.rows;
    }
  }

  lemma UpdateKeepsQueued(w: World, ids: seq<int>, clause: SetClause, w': World)
    requires NothingVanishes(w)
             && w' == w.(rows := UpdateByIds(w.rows, ids, clause), flight := w'.flight, net := w'.net)
    requires clause.SetAcked? ==> forall r :: r in w.rows && r.id in ids ==> r.eventId in IdsIn(w.log)
    ensures NothingVanishes(w')
  {
    forall e | e in UnackedEventIds(w.rows) && e !in IdsIn(w.log) ensures e in UnackedEventIds(w'.rows) {
      StillUnacked(w.rows, ids, clause, e);
    }
  }

  /** A lease keeps the account, whichever rows it takes. */
  lemma LeaseKeepsAccount(w: World, chosen: seq<Row>, until: Time, w': World)
    requires Accounted(w) && forall r :: r in chosen ==> r in w.rows
    requires w' == w.(rows := UpdateByIds(w.rows, IdsOf(chosen), SetLeased(until)),
                      flight := Sending(ItemsOf(chosen)), net := w.net + {WireOf(ItemsOf(chosen))})
    ensures Accounted(w')
  {
    UpdateKeepsRowsBorn(w, IdsOf(chosen), SetLeased(until));
    LeasedWiresBorn(w, chosen);
  }

  lemma UpdateKeepsAccount(w: World, ids: seq<int>, clause: SetClause, w': World)
    requires Accounted(w) && w' == w.(rows := UpdateByIds(w.rows, ids, clause), flight := w'.flight)
    ensures Accounted(w')
  {
    UpdateKeepsRowsBorn(w, ids, clause);
  }

  lemma PruneKeepsAccount(caps: Caps, w: World, s: Step)
    requires Accounted(w) && s.Prune?
    ensures Accounted(Next(caps, w, s))
  {
    FilterKeepsWellFormed(KeptAt(s.cutoff), w.rows);
    FilterMembers(KeptAt(s.cutoff), w.rows);
  }

  lemma DeliverKeepsAccount(caps: Caps, w: World, s: Step)
    requires Accounted(w) && s.Deliver? && Enabled(w, s)
    ensures Accounted(Next(caps, w, s))
  {
    AcceptRecordsAll(w.log, s.batch);
    AcceptRecordsOnce(w.log, s.batch);
  }

  /** The account survives every step, with no condition on the eviction. */
  lemma StepKeepsAccount(caps: Caps, w: World, s: Step)
    requires Accounted(w) && Enabled(w, s)
    ensures Accounted(Next(caps, w, s))
  {
    match s
    case Enqueue(_, _, _, _) => EnqueueKeepsAccount(caps, w, s);
    case Prune(_) => PruneKeepsAccount(caps, w, s);
    case Lease(n, now, dur) =>
      ChosenRows(w.rows, now, n);
      LeaseKeepsAccount(w, SelectLeasable(w.rows, now, n), now + dur, Next(caps, w, s));
    case Deliver(_) => DeliverKeepsAccount(caps, w, s);
    case Reply(_) =>
    case Ack(now, stored) =>
      if stored {
        UpdateKeepsAccount(w, ItemIds(w.flight.items), SetAcked(now), Next(caps, w, s));
      }
    case Nack(stored) =>
      if stored {
        UpdateKeepsAccount(w, ItemIds(w.flight.items), SetPending, Next(caps, w, s));
      }
    case Crash =>
  }

  lemma LeaseKeepsInv(caps: Caps, w: World, s: Step)
    requires Inv(w) && s.Lease? && Enabled(w, s)
    ensures Inv(Next(caps, w, s))
  {
    var chosen, until := SelectLeasable(w.rows, s.now, s.n), s.now + s.dur;
    ChosenRows(w.rows, s.now, s.n);
    LeaseOf(w, chosen, until, Next(caps, w, s));
  }

  lemma LeaseOf(w: World, chosen: seq<Row>, until: Time, w': World)
    requires Inv(w) && WellFormed(chosen) && chosen != [] && forall r :: r in chosen ==> r in w.rows
    requires w' == w.(rows := UpdateByIds(w.rows, IdsOf(chosen), SetLeased(until)),
                      flight := Sending(ItemsOf(chosen)), net := w.net + {WireOf(ItemsOf(chosen))})
    ensures Inv(w')
  {
    LeaseKeepsAccount(w, chosen, until, w');
    LeaseKeepsFlight(w, chosen, until, w');
    NewlyAcked(w, IdsOf(chosen), SetLeased(until));
    UpdateKeepsQueued(w, IdsOf(chosen), SetLeased(until), w');
  }

  lemma DeliverKeepsInv(caps: Caps, w: World, s: Step)
    requires Inv(w) && s.Deliver? && Enabled(w, s)
    ensures Inv(Next(caps, w, s))
  {
    DeliverKeepsAccount(caps, w, s);
    AcceptRecordsAll(w.log, s.batch);
    var w' := Next(caps, w, s);
    assert forall it :: LeaseHolds(w, it) ==> LeaseHolds(w', it);
    assert FlightOk(w');
  }

  /** The rows a late ack touches are the rows that were leased, and the backend has their events. */
  lemma AckTouchesRecorded(w: World)
    requires FlightOk(w) && w.flight.Replied? && w.flight.ok
    ensures forall r :: r in w.rows && r.id in ItemIds(w.flight.items) ==> r.eventId in IdsIn(w.log)
  {
    var items := w.flight.items;
    forall r | r in w.rows && r.id in ItemIds(items) ensures r.eventId in IdsIn(w.log) {
      var i :| 0 <= i < |items| && ItemIds(items)[i] == r.id;
      assert LeaseHolds(w, items[i]);
      assert WireOf(items)[i] in WireOf(items);
    }
  }

  lemma AckKeepsInv(caps: Caps, w: World, s: Step)
    requires Inv(w) && s.Ack? && Enabled(w, s)
    ensures Inv(Next(caps, w, s))
  {
    if s.stored {
      var w', ids, clause := Next(caps, w, s), ItemIds(w.flight.items), SetAcked(s.now);
      UpdateKeepsAccount(w, ids, clause, w');
      AckTouchesRecorded(w);
      NewlyAcked(w, ids, clause);
      UpdateKeepsQueued(w, ids, clause, w');
    }
  }

  lemma NackKeepsInv(caps: Caps, w: World, s: Step)
    requires Inv(w) && s.Nack? && Enabled(w, s)
    ensures Inv(Next(caps, w, s))
  {
    if s.stored {
      var w', ids := Next(caps, w, s), ItemIds(w.flight.items);
      UpdateKeepsAccount(w, ids, SetPending, w');
      NewlyAcked(w, ids, SetPending);
      UpdateKeepsQueued(w, ids, SetPending, w');
    }
  }

  lemma StepKeepsInv(caps: Caps, w: World, s: Step)
    requires Inv(w) && Enabled(w, s) && KeepsARow(caps, w, s)
    ensures Inv(Next(caps, w, s))
  {
    match s
    case Enqueue(_, _, _, _) => EnqueueKeepsInv(caps, w, s);
    case Prune(_) => PruneKeepsInv(caps, w, s);
    case Lease(_, _, _) => LeaseKeepsInv(caps, w, s);
    case Deliver(_) => DeliverKeepsInv(caps, w, s);
    case Reply(_) =>
      assert forall it :: LeaseHolds(w, it) ==> LeaseHolds(Next(caps, w, s), it);
    case Ack(_, _) => AckKeepsInv(caps, w, s);
    case Nack(_) => NackKeepsInv(caps, w, s);
    case Crash =>
  }

  // ---------- runs ----------

  ghost predicate Steps(caps: Caps, w: World, s: Step, w': World) { Enabled(w, s) && w' == Next(caps, w, s) }

  /** `ws` are the worlds a run passes through, one step at a time, from an empty store. */
  ghost predicate IsRun(caps: Caps, ws: seq<World>, steps: seq<Step>) {
    && |ws| == |steps| + 1
    && ws[0] == Start()
    && forall i :: 0 <= i < |steps| ==> Steps(caps, ws[i], steps[i], ws[i + 1])
  }

  ghost predicate NeverEmptiedInFlight(caps: Caps, ws: seq<World>, steps: seq<Step>)
    requires |ws| == |steps| + 1
  {
    forall i :: 0 <= i < |steps| ==> KeepsARow(caps, ws[i], steps[i])
  }

  lemma {:induction false} RunKeepsInv(caps: Caps, ws: seq<World>, steps: seq<Step>, k: nat)
    requires IsRun(caps, ws, steps) && NeverEmptiedInFlight(caps, ws, steps) && k < |ws|
    ensures Inv(ws[k])
  {
    if k > 0 {
      RunKeepsInv(caps, ws, steps, k - 1);
      assert Steps(caps, ws[k - 1], steps[k - 1], ws[k]);
      StepKeepsInv(caps, ws[k - 1], steps[k - 1]);
    }
  }

  function CountIn(rows: seq<Row>, state: RowState): nat {
    if rows == [] then 0 else (if rows[0].state == state then 1 else 0) + CountIn(rows[1..], state)
  }

  lemma CountsAddUp(rows: seq<Row>)
    ensures CountIn(rows, Pending) + CountIn(rows, Leased) + CountIn(rows, Acked) == |rows|
  {
  }

  lemma {:induction false} RunKeepsAccount(caps: Caps, ws: seq<World>, steps: seq<Step>, k: nat)
    requires IsRun(caps, ws, steps) && k < |ws|
    ensures Accounted(ws[k])
  {
    if k > 0 {
      RunKeepsAccount(caps, ws, steps, k - 1);
      assert Steps(caps, ws[k - 1], steps[k - 1], ws[k]);
      StepKeepsAccount(caps, ws[k - 1], steps[k - 1]);
    }
  }

  /** Every row ever inserted is counted once. */
  ghost predicate RowsAddUp(w: World) {
    w.enqueued == CountIn(w.rows, Pending) + CountIn(w.rows, Leased) + CountIn(w.rows, Acked) + w.evicted + w.pruned
  }

  /** In every run, whatever eviction does and however often ids come back: the backend holds each event at most
      once and as it was enqueued, and every row ever inserted is pending, leased, acked, evicted or pruned. */
  lemma RecordedOnceInEveryRun(caps: Caps, ws: seq<World>, steps: seq<Step>, k: nat)
    requires IsRun(caps, ws, steps) && k < |ws|
    ensures RecordedOnce(ws[k].log)
    ensures forall e :: e in ws[k].log ==> e.eventId in ws[k].born && ws[k].born[e.eventId] == e.event
    ensures RowsAddUp(ws[k])
  {
    RunKeepsAccount(caps, ws, steps, k);
    CountsAddUp(ws[k].rows);
  }

  /** Exactly once: at every point of every run the backend holds each event at most once and as it
      was enqueued, acked means recorded, every event ever enqueued is accounted for, and so is every
      row. */
  lemma ExactlyOnceEffect(caps: Caps, ws: seq<World>, steps: seq<Step>, k: nat)
    requires IsRun(caps, ws, steps) && NeverEmptiedInFlight(caps, ws, steps) && k < |ws|
    ensures RecordedOnce(ws[k].log)
    ensures forall e :: e in ws[k].log ==> e.eventId in ws[k].born && ws[k].born[e.eventId] == e.event
    ensures forall r :: r in ws[k].rows && r.state == Acked ==> WireEvent(r.eventId, r.payload) in ws[k].log
    ensures NothingVanishes(ws[k])
    ensures RowsAddUp(ws[k])
  {
    RunKeepsInv(caps, ws, steps, k);
    RecordedOnceInEveryRun(caps, ws, steps, k);
    forall r | r in ws[k].rows && r.state == Acked ensures WireEvent(r.eventId, r.payload) in ws[k].log {
      AckedPayloadRecorded(ws[k], r);
    }
  }

  lemma AckedPayloadRecorded(w: World, r: Row)
    requires RowsBorn(w) && WiresBorn(w.born, w.log) && AckedWasRecorded(w) && r in w.rows && IsAcked(r)
    ensures WireEvent(r.eventId, r.payload) in w.log
  {
    var e :| e in w.log && e.eventId == r.eventId;
    assert e == WireEvent(r.eventId, r.payload);
  }

  /** With only the row cap binding, and that cap at least one eviction chunk, no run ever empties the
      table: the guard above holds by itself. */
  lemma RowCapNeverEmpties(caps: Caps, w: World, s: Step)
    requires caps.maxRows >= 512 && Inv(w) && Enabled(w, s)
    requires s.Enqueue? ==> RowCapAlone(caps, s.env)
    ensures KeepsARow(caps, w, s)
  {
    if s.Enqueue? {
      KeptRow(caps, w, s);
      InsertKeepsWellFormed(w.rows, s.eventIds, s.events, s.now);
      OneRoundSuffices(caps, Inserted(w.rows, s.eventIds, s.events, s.now), s.env);
    }
  }

  lemma RowCapStep(caps: Caps, w: World, s: Step, w': World)
    requires Inv(w) && Steps(caps, w, s, w') && caps.maxRows >= 512 && (s.Enqueue? ==> RowCapAlone(caps, s.env))
    ensures Inv(w') && KeepsARow(caps, w, s)
  {
    RowCapNeverEmpties(caps, w, s);
    StepKeepsInv(caps, w, s);
  }

  lemma {:induction false} RowCapRunsAreSafe(caps: Caps, ws: seq<World>, steps: seq<Step>, k: nat)
    requires IsRun(caps, ws, steps) && caps.maxRows >= 512 && k < |ws|
    requires forall i :: 0 <= i < |steps| && steps[i].Enqueue? ==> RowCapAlone(caps, steps[i].env)
    ensures Inv(ws[k])
    ensures forall i :: 0 <= i < k ==> KeepsARow(caps, ws[i], steps[i])
  {
    if k > 0 {
      RowCapRunsAreSafe(caps, ws, steps, k - 1);
      RowCapStep(caps, ws[k - 1], steps[k - 1], ws[k]);
    }
  }

  /** Exactly once without a condition on the run, when only the row cap binds and it is at least one chunk. */
  lemma ExactlyOnceUnderRowCap(caps: Caps, ws: seq<World>, steps: seq<Step>, k: nat)
    requires IsRun(caps, ws, steps) && caps.maxRows >= 512 && k < |ws|
    requires forall i :: 0 <= i < |steps| && steps[i].Enqueue? ==> RowCapAlone(caps, steps[i].env)
    ensures RecordedOnce(ws[k].log)
    ensures forall e :: e in ws[k].log ==> e.eventId in ws[k].born && ws[k].born[e.eventId] == e.event
    ensures forall r :: r in ws[k].rows && r.state == Acked ==> WireEvent(r.eventId, r.payload) in ws[k].log
    ensures NothingVanishes(ws[k])
    ensures RowsAddUp(ws[k])
  {
    RowCapRunsAreSafe(caps, ws, steps, |steps|);
    ExactlyOnceEffect(caps, ws, steps, k);
  }

  /** Exactly when an id can come back: after an enqueue under a batch in flight, max+1 stays clear of every id in
      the batch if and only if the eviction does not find the table over a cap until its last row is gone. */
  lemma IdReuseIffEmptied(caps: Caps, w: World, s: Step)
    requires Inv(w) && s.Enqueue? && Enabled(w, s) && !w.flight.Idle?
    ensures (forall it :: it in w.flight.items ==> it.id < NextId(Next(caps, w, s).rows))
            <==> !StaysOver(caps, |w.rows| + |s.events|, s.env, 0)
  {
    KeptRow(caps, w, s);
    if AfterEnqueue(caps, w, s).rows != [] {
      KeptIdsAreClear(caps, w, s);
    } else {
      var it := w.flight.items[0];
      assert LeaseHolds(w, it);
    }
  }

  lemma KeptIdsAreClear(caps: Caps, w: World, s: Step)
    requires Inv(w) && s.Enqueue? && Enabled(w, s) && !w.flight.Idle? && AfterEnqueue(caps, w, s).rows != []
    ensures forall it :: it in w.flight.items ==> it.id < NextId(Next(caps, w, s).rows)
  {
    var w' := Next(caps, w, s);
    EnqueueKeepsAccount(caps, w, s);
    EnqueueKeepsFlight(caps, w, s);
    var guard :| guard in w'.rows && IsUnacked(guard) && forall it :: it in w'.flight.items ==> it.id <= guard.id;
    IdsBelowNext(w'.rows, guard);
  }

  // ---------- two-state facts ----------

  /** A row of the next world was there before under the same event, or carries a fresh event id. */
  ghost predicate ComesFrom(w: World, r': Row) {
    r'.eventId !in w.born
    || exists r :: r in w.rows && r.id == r'.id && r.eventId == r'.eventId && r.payload == r'.payload
                                        && (IsAcked(r) ==> IsAcked(r'))
  }

  lemma InsertedComesFrom(w: World, s: Step, r: Row)
    requires s.Enqueue? && Enabled(w, s) && r in Inserted(w.rows, s.eventIds, s.events, s.now)
    ensures ComesFrom(w, r)
  {
    NewRowsNumbered(w, s, r);
  }

  /** A late ack or nack moves only leased rows. */
  lemma UpdatedComesFrom(w: World, ids: seq<int>, clause: SetClause, r': Row)
    requires r' in UpdateByIds(w.rows, ids, clause)
    requires !clause.SetAcked? ==> forall r :: r in w.rows && r.id in ids ==> IsUnacked(r)
    ensures ComesFrom(w, r')
  {
    var r := Preimage(w.rows, ids, clause, r');
  }

  lemma FlightIdsUnacked(w: World)
    requires FlightOk(w) && !w.flight.Idle?
    ensures forall r :: r in w.rows && r.id in ItemIds(w.flight.items) ==> IsUnacked(r)
  {
    forall r | r in w.rows && r.id in ItemIds(w.flight.items) ensures IsUnacked(r) {
      var i :| 0 <= i < |w.flight.items| && ItemIds(w.flight.items)[i] == r.id;
      assert LeaseHolds(w, w.flight.items[i]);
    }
  }

  lemma ChosenUnacked(w: World, chosen: seq<Row>, r: Row)
    requires WellFormed(w.rows) && (forall c :: c in chosen ==> c in w.rows && IsUnacked(c))
    requires r in w.rows && r.id in IdsOf(chosen)
    ensures IsUnacked(r)
  {
    var i :| 0 <= i < |chosen| && IdsOf(chosen)[i] == r.id;
    SameIdSameRow(w.rows, r, chosen[i]);
  }

  lemma EnqueueKeepsIdentity(caps: Caps, w: World, s: Step, r': Row)
    requires WellFormed(w.rows) && s.Enqueue? && Enabled(w, s) && r' in Next(caps, w, s).rows
    ensures ComesFrom(w, r')
  {
    InsertKeepsWellFormed(w.rows, s.eventIds, s.events, s.now);
    EvictionKeepsMembers(caps, Inserted(w.rows, s.eventIds, s.events, s.now), s.env);
    InsertedComesFrom(w, s, r');
  }

  lemma LeaseKeepsIdentity(w: World, n: nat, now: Time, until: Time, r': Row)
    requires WellFormed(w.rows) && r' in UpdateByIds(w.rows, IdsOf(SelectLeasable(w.rows, now, n)), SetLeased(until))
    ensures ComesFrom(w, r')
  {
    var chosen := SelectLeasable(w.rows, now, n);
    ChosenRows(w.rows, now, n);
    forall r | r in w.rows && r.id in IdsOf(chosen) ensures IsUnacked(r) {
      ChosenUnacked(w, chosen, r);
    }
    UpdatedComesFrom(w, IdsOf(chosen), SetLeased(until), r');
  }

  /** Across one step every row keeps its id, event id and payload, and acked is final. */
  lemma StepKeepsIdentity(caps: Caps, w: World, s: Step, r': Row)
    requires WellFormed(w.rows) && FlightOk(w) && Enabled(w, s) && r' in Next(caps, w, s).rows
    ensures ComesFrom(w, r')
  {
    match s
    case Enqueue(_, _, _, _) => EnqueueKeepsIdentity(caps, w, s, r');
    case Prune(cutoff) => FilterMembers(KeptAt(cutoff), w.rows);
    case Lease(n, now, dur) => LeaseKeepsIdentity(w, n, now, now + dur, r');
    case Ack(now, stored) =>
      if stored {
        UpdatedComesFrom(w, ItemIds(w.flight.items), SetAcked(now), r');
      }
    case Nack(stored) =>
      if stored {
        FlightIdsUnacked(w);
        UpdatedComesFrom(w, ItemIds(w.flight.items), SetPending, r');
      }
    case _ =>
  }

  lemma BornOnlyGrows(caps: Caps, w: World, s: Step)
    requires Enabled(w, s)
    ensures forall e :: e in w.born ==> e in Next(caps, w, s).born && Next(caps, w, s).born[e] == w.born[e]
    ensures w.log <= Next(caps, w, s).log
  {
    match s
    case Enqueue(events, ids, _, _) => RegisterKeys(w.born, ids, events);
    case Deliver(batch) => AcceptRecordsAll(w.log, batch);
    case _ =>
  }

  /** Over a whole run: an event keeps its row id and payload however often its row is leased, an
      acked event is never leasable again, and the backend's record only grows. */
  lemma {:induction false} EventKeepsItsRow(caps: Caps, ws: seq<World>, steps: seq<Step>, i: nat, j: nat, r: Row,
                                            r': Row)
    requires IsRun(caps, ws, steps) && NeverEmptiedInFlight(caps, ws, steps) && i <= j < |ws|
    requires r in ws[i].rows && r' in ws[j].rows && r.eventId == r'.eventId
    ensures r.id == r'.id && r.payload == r'.payload
    ensures r.state == Acked ==> r'.state == Acked
    ensures ws[i].log <= ws[j].log
    decreases j - i
  {
    RowIsBorn(caps, ws, steps, i, r);
    if i == j {
      SameEventSameRow(caps, ws, steps, i, r, r');
    } else {
      RunBornGrows(caps, ws, steps, i, j - 1);
      assert Steps(caps, ws[j - 1], steps[j - 1], ws[j]);
      var before := Predecessor(caps, ws, steps, j, r');
      BornOnlyGrows(caps, ws[j - 1], steps[j - 1]);
      EventKeepsItsRow(caps, ws, steps, i, j - 1, r, before);
    }
  }

  lemma RowIsBorn(caps: Caps, ws: seq<World>, steps: seq<Step>, i: nat, r: Row)
    requires IsRun(caps, ws, steps) && NeverEmptiedInFlight(caps, ws, steps) && i < |ws| && r in ws[i].rows
    ensures r.eventId in ws[i].born
  {
    RunKeepsInv(caps, ws, steps, i);
  }

  lemma SameEventSameRow(caps: Caps, ws: seq<World>, steps: seq<Step>, i: nat, r: Row, r': Row)
    requires IsRun(caps, ws, steps) && NeverEmptiedInFlight(caps, ws, steps) && i < |ws|
    requires r in ws[i].rows && r' in ws[i].rows && r.eventId == r'.eventId
    ensures r == r'
  {
    RunKeepsInv(caps, ws, steps, i);
  }

  lemma RunKeepsFlight(caps: Caps, ws: seq<World>, steps: seq<Step>, k: nat)
    requires IsRun(caps, ws, steps) && NeverEmptiedInFlight(caps, ws, steps) && k < |ws|
    ensures WellFormed(ws[k].rows) && FlightOk(ws[k])
  {
    RunKeepsInv(caps, ws, steps, k);
  }

  lemma Predecessor(caps: Caps, ws: seq<World>, steps: seq<Step>, j: nat, r': Row) returns (before: Row)
    requires IsRun(caps, ws, steps) && NeverEmptiedInFlight(caps, ws, steps) && 0 < j < |ws|
    requires r' in ws[j].rows && r'.eventId in ws[j - 1].born
    ensures before in ws[j - 1].rows && before.id == r'.id && before.eventId == r'.eventId
            && before.payload == r'.payload
    ensures IsAcked(before) ==> IsAcked(r')
  {
    RunKeepsFlight(caps, ws, steps, j - 1);
    assert Steps(caps, ws[j - 1], steps[j - 1], ws[j]);
    StepKeepsIdentity(caps, ws[j - 1], steps[j - 1], r');
    before := Origin(ws[j - 1], r');
  }

  lemma Origin(w: World, r': Row) returns (r: Row)
    requires ComesFrom(w, r') && r'.eventId in w.born
    ensures r in w.rows && r.id == r'.id && r.eventId == r'.eventId && r.payload == r'.payload
    ensures IsAcked(r) ==> IsAcked(r')
  {
    r :| r in w.rows && r.id == r'.id && r.eventId == r'.eventId && r.payload == r'.payload
         && (IsAcked(r) ==> IsAcked(r'));
  }

  lemma {:induction false} RunBornGrows(caps: Caps, ws: seq<World>, steps: seq<Step>, i: nat, j: nat)
    requires IsRun(caps, ws, steps) && i <= j < |ws|
    ensures forall e :: e in ws[i].born ==> e in ws[j].born
    decreases j - i
  {
    if i < j {
      RunBornGrows(caps, ws, steps, i, j - 1);
      assert Steps(caps, ws[j - 1], steps[j - 1], ws[j]);
      BornOnlyGrows(caps, ws[j - 1], steps[j - 1]);
    }
  }

  // ---------- an abandoned batch ----------

  /** A row that still carries the event of a leased item is that row, leased until `until`. */
  ghost predicate IsHeld(w: World, it: Item, until: Time) {
    && it.eventId in w.born
    && forall r :: r in w.rows && r.eventId == it.eventId ==>
         r.id == it.id && r.payload == it.event && r.attempts == it.attempts
         && r.state == Leased && r.leasedUntil == Some(until)
  }

  lemma LeasedRow(w: World, s: Step, it: Item, i: nat)
    requires WellFormed(w.rows) && RowsBorn(w) && s.Lease? && i < |w.rows|
    requires it in ItemsOf(SelectLeasable(w.rows, s.now, s.n)) && w.rows[i].eventId == it.eventId
    ensures var until := s.now + s.dur;
            && ItemOf(w.rows[i]) == it
            && UpdateByIds(w.rows, IdsOf(SelectLeasable(w.rows, s.now, s.n)), SetLeased(until))[i] ==
               w.rows[i].(state := Leased, leasedUntil := Some(until))
  {
    var r0 := SelectedIsOpen(w.rows, s.now, s.n, it);
    LeaseStamps(w.rows, s.now, s.n, s.now + s.dur);
    assert w.rows[i] in w.rows;
  }

  lemma LeasedIsHeld(caps: Caps, w: World, s: Step, w': World, it: Item)
    requires Accounted(w) && s.Lease? && Steps(caps, w, s, w') && it in w'.flight.items
    ensures IsHeld(w', it, s.now + s.dur)
  {
    forall r' | r' in w'.rows && r'.eventId == it.eventId
      ensures ItemOf(r') == it && r'.state == Leased && r'.leasedUntil == Some(s.now + s.dur) {
      var i :| 0 <= i < |w'.rows| && w'.rows[i] == r';
      LeasedRow(w, s, it, i);
    }
    var r0 := SelectedIsOpen(w.rows, s.now, s.n, it);
  }

  /** Steps that may come while nothing is in flight, but a lease. */
  predicate IsQuiet(s: Step) { s.Enqueue? || s.Prune? || s.Deliver? || s.Crash? }

  lemma EnqueueKeepsHeld(caps: Caps, w: World, s: Step, it: Item, until: Time)
    requires Accounted(w) && s.Enqueue? && Enabled(w, s) && IsHeld(w, it, until)
    ensures IsHeld(Next(caps, w, s), it, until)
  {
    var w' := Next(caps, w, s);
    InsertKeepsWellFormed(w.rows, s.eventIds, s.events, s.now);
    EvictionKeepsMembers(caps, Inserted(w.rows, s.eventIds, s.events, s.now), s.env);
    RegisterKeys(w.born, s.eventIds, s.events);
    forall r | r in w'.rows && r.eventId == it.eventId ensures r in w.rows {
      NewRowsNumbered(w, s, r);
    }
  }

  lemma QuietKeepsHeld(caps: Caps, w: World, s: Step, w': World, it: Item, until: Time)
    requires Accounted(w) && IsQuiet(s) && Steps(caps, w, s, w') && IsHeld(w, it, until)
    ensures IsHeld(w', it, until) && (s.Crash? || w.flight.Idle? ==> w'.flight.Idle?)
  {
    match s
    case Enqueue(_, _, _, _) => EnqueueKeepsHeld(caps, w, s, it, until);
    case Prune(cutoff) => FilterMembers(KeptAt(cutoff), w.rows);
    case _ =>
  }

  /** A lease at step `i`, a crash right after it, and quiet steps up to world `j`. */
  ghost predicate IsAbandoned(steps: seq<Step>, i: nat, j: nat) {
    && i + 1 < j <= |steps| && steps[i].Lease? && steps[i + 1].Crash?
    && forall k :: i < k < j ==> IsQuiet(steps[k])
  }

  lemma StepOfRun(caps: Caps, ws: seq<World>, steps: seq<Step>, k: nat, next: nat)
    requires IsRun(caps, ws, steps) && next == k + 1 && k < |steps|
    ensures |ws| == |steps| + 1 && Steps(caps, ws[k], steps[k], ws[next])
  {
  }

  ghost function StaysLeased(it: Item, until: Time): World -> bool {
    (w: World) => Accounted(w) && IsHeld(w, it, until) && w.flight.Idle?
  }

  lemma HeldAfterCrash(caps: Caps, w: World, lease: Step, w': World, crash: Step, w'': World, it: Item,
                       until: Time)
    requires Accounted(w) && Accounted(w') && Accounted(w'') && lease.Lease? && crash.Crash?
    requires Steps(caps, w, lease, w') && Steps(caps, w', crash, w'') && it in w'.flight.items
    requires until == lease.now + lease.dur
    ensures StaysLeased(it, until)(w'')
  {
    LeasedIsHeld(caps, w, lease, w', it);
    QuietKeepsHeld(caps, w', crash, w'', it, until);
  }

  lemma CrashOfRun(caps: Caps, ws: seq<World>, steps: seq<Step>, i: nat, crash: nat, k: nat, it: Item, until: Time)
    requires IsRun(caps, ws, steps) && IsAbandoned(steps, i, k) && crash == i + 1 && k == i + 2
    requires it in ws[crash].flight.items && until == steps[i].now + steps[i].dur
    ensures StaysLeased(it, until)(ws[k])
  {
    RunKeepsAccount(caps, ws, steps, i);
    RunKeepsAccount(caps, ws, steps, crash);
    RunKeepsAccount(caps, ws, steps, k);
    StepOfRun(caps, ws, steps, i, crash);
    StepOfRun(caps, ws, steps, crash, k);
    HeldAfterCrash(caps, ws[i], steps[i], ws[crash], steps[crash], ws[k], it, until);
  }

  lemma LeasedOneMore(caps: Caps, w: World, s: Step, w': World, it: Item, until: Time)
    requires StaysLeased(it, until)(w) && IsQuiet(s) && Steps(caps, w, s, w')
    ensures StaysLeased(it, until)(w')
  {
    StepKeepsAccount(caps, w, s);
    QuietKeepsHeld(caps, w, s, w', it, until);
  }

  lemma {:induction false} StaysHeld(caps: Caps, ws: seq<World>, steps: seq<Step>, i: nat, k: nat, it: Item,
                                     until: Time)
    requires IsRun(caps, ws, steps) && IsAbandoned(steps, i, k) && until == steps[i].now + steps[i].dur
    requires it in ws[i + 1].flight.items
    ensures StaysLeased(it, until)(ws[k])
    decreases k
  {
    var m := k - 1;
    if m == i + 1 {
      CrashOfRun(caps, ws, steps, i, m, k, it, until);
      return;
    }
    StaysHeld(caps, ws, steps, i, m, it, until);
    StepOfRun(caps, ws, steps, m, k);
    LeasedOneMore(caps, ws[m], steps[m], ws[k], it, until);
  }

  /** A batch abandoned by a crash: as long as its lease lasts none of its events is handed out again, and from then
      on a lease is possible and hands out every row of it that is left, older rows first. */
  lemma AbandonedBatchReturns(caps: Caps, ws: seq<World>, steps: seq<Step>, i: nat, j: nat, it: Item, r: Row,
                              n: nat, now: Time, dur: Time)
    requires IsRun(caps, ws, steps) && IsAbandoned(steps, i, j) && it in ws[i + 1].flight.items
    requires r in ws[j].rows && r.eventId == it.eventId && n > 0
    ensures now > steps[i].now + steps[i].dur ==>
              && Enabled(ws[j], Lease(n, now, dur))
              && var again := Next(caps, ws[j], Lease(n, now, dur)).flight.items;
                 it in again || (|again| == n && forall x :: x in again ==> x.id < it.id)
    ensures now <= steps[i].now + steps[i].dur && Enabled(ws[j], Lease(n, now, dur)) ==>
              forall x :: x in Next(caps, ws[j], Lease(n, now, dur)).flight.items ==> x.eventId != it.eventId
  {
    RunKeepsAccount(caps, ws, steps, j);
    StaysHeld(caps, ws, steps, i, j, it, steps[i].now + steps[i].dur);
    if now > steps[i].now + steps[i].dur {
      OpenIsSelected(ws[j].rows, now, n, r);
    } else if Enabled(ws[j], Lease(n, now, dur)) {
      forall x | x in Next(caps, ws[j], Lease(n, now, dur)).flight.items ensures x.eventId != it.eventId {
        var open := SelectedIsOpen(ws[j].rows, now, n, x);
      }
    }
  }

  /** A batch whose sending failed: its rows, and no others, are pending with one attempt more and can be leased
      again at once, and nothing is in flight. */
  lemma RefusedBatchReturns(caps: Caps, w: World, n: nat, now: Time, dur: Time, i: nat)
    returns (w1: World, w2: World, w3: World)
    requires Accounted(w) && Enabled(w, Lease(n, now, dur)) && i < |w.rows|
    ensures Steps(caps, w, Lease(n, now, dur), w1) && Steps(caps, w1, Reply(false), w2)
    ensures Steps(caps, w2, Nack(true), w3)
    ensures w3.flight == Idle && |w3.rows| == |w.rows|
    ensures var r := w.rows[i];
            if exists it :: it in w1.flight.items && it.id == r.id
            then w3.rows[i] == r.(state := Pending, leasedUntil := None, attempts := r.attempts + 1)
            else w3.rows[i] == r
  {
    w1 := Next(caps, w, Lease(n, now, dur));
    w2 := Next(caps, w1, Reply(false));
    w3 := Next(caps, w2, Nack(true));
    SameIds(SelectLeasable(w.rows, now, n), w.rows[i].id);
  }

  lemma SameIds(chosen: seq<Row>, id: int)
    ensures id in IdsOf(chosen) <==> exists it :: it in ItemsOf(chosen) && it.id == id
    ensures id in ItemIds(ItemsOf(chosen)) <==> exists it :: it in ItemsOf(chosen) && it.id == id
  {
    var items := ItemsOf(chosen);
    if k :| 0 <= k < |items| && items[k].id == id {
      assert IdsOf(chosen)[k] == id && ItemIds(items)[k] == id;
    }
    if id in IdsOf(chosen) {
      var k :| 0 <= k < |chosen| && IdsOf(chosen)[k] == id;
      assert items[k].id == id;
    }
    if id in ItemIds(items) {
      var k :| 0 <= k < |items| && ItemIds(items)[k] == id;
      assert items[k].id == id;
    }
  }

  // ---------- without the guard ----------

  function Blank(): NormalizedEvent {
    NormalizedEvent(None, None, None, None, None, None, None, None, None, None, None, None)
  }

  function Quiet(): nat -> Round { k => Round(Some(0), true, true) }

  /** A file that stays over the byte cap however many rows go. */
  function Bloated(caps: Caps): nat -> Round { k => Round(Some(caps.maxBytes + 1), true, true) }

  /** Lease, evict everything under the byte cap, enqueue again: the id comes back. */
  function ReuseSteps(caps: Caps): seq<Step> {
    [Enqueue([Blank()], [1], 0, Quiet()),
     Lease(1, 0, 1),
     Enqueue([Blank()], [2], 0, Bloated(caps)),
     Enqueue([Blank()], [3], 0, Quiet()),
     Deliver([WireEvent(1, Blank())]),
     Reply(true),
     Ack(0, true)]
  }

  lemma QuietEnqueue(caps: Caps, w: World, e: nat)
    requires w.rows == [] && caps.maxRows >= 1
    ensures AfterEnqueue(caps, w, Enqueue([Blank()], [e], 0, Quiet())).rows == [NewRow(1, e, Blank(), 0)]
  {
  }

  lemma BloatedEvictsAll(caps: Caps, rows: seq<Row>)
    requires WellFormed(rows) && |rows| <= EVICT_CHUNK
    ensures EvictFrom(caps, rows, Bloated(caps), 0) == Evicted([], |rows|, false)
  {
    var n := EvictTarget(|rows|, caps.maxRows);
    DeleteShape(rows, n);
    assert DeleteVictims(rows, n) == [];
    assert EvictFrom(caps, [], Bloated(caps), 1) == Evicted([], 0, false) by {
      assert DeleteVictims([], EvictTarget(0, caps.maxRows)) == [];
    }
  }

  const LEASED_ITEM := Item(1, 1, Blank(), 0)

  /** A run of the first steps of `plan`, extended by the next one. */
  lemma ExtendRun(caps: Caps, plan: seq<Step>, ws: seq<World>, w': World)
    requires 1 <= |ws| <= |plan| && IsRun(caps, ws, plan[..|ws| - 1]) && Steps(caps, ws[|ws| - 1], plan[|ws| - 1], w')
    ensures IsRun(caps, ws + [w'], plan[..|ws|])
  {
    var k, ws' := |ws| - 1, ws + [w'];
    forall i, j | 0 <= i < k + 1 && j == i + 1 ensures Steps(caps, ws'[i], plan[..|ws|][i], ws'[j]) {
      if i < k {
        assert Steps(caps, ws[i], plan[..k][i], ws[j]);
      }
    }
  }

  /** The first event is enqueued and leased. */
  lemma ReuseLease(caps: Caps) returns (ws: seq<World>)
    requires caps.maxRows >= 1
    ensures |ws| == 3 && IsRun(caps, ws, ReuseSteps(caps)[..2])
    ensures ws[2] == World([Apply(NewRow(1, 1, Blank(), 0), SetLeased(1))], Sending([LEASED_ITEM]),
                           {[WireEvent(1, Blank())]}, [], map[1 := Blank()], {}, 1, 0, 0)
  {
    var r1, plan := NewRow(1, 1, Blank(), 0), ReuseSteps(caps);
    QuietEnqueue(caps, Start(), 1);
    var w1 := Next(caps, Start(), plan[0]);
    ExtendRun(caps, plan, [Start()], w1);
    assert w1.rows == [r1];
    assert SelectLeasable(w1.rows, 0, 1) == [r1];
    var w2 := Next(caps, w1, plan[1]);
    ExtendRun(caps, plan, [Start(), w1], w2);
    assert ItemsOf([r1]) == [LEASED_ITEM] && WireOf([LEASED_ITEM]) == [WireEvent(1, Blank())];
    assert IdsOf([r1]) == [1];
    ws := [Start(), w1, w2];
  }

  lemma SecondRow(rows: seq<Row>)
    requires rows == [Apply(NewRow(1, 1, Blank(), 0), SetLeased(1))]
    ensures Inserted(rows, [2], [Blank()], 0) ==
            [Apply(NewRow(1, 1, Blank(), 0), SetLeased(1)), NewRow(2, 2, Blank(), 0)]
  {
  }

  /** The byte cap evicts everything under the lease. */
  lemma ReuseEvict(caps: Caps, w2: World) returns (w3: World)
    requires caps.maxRows >= 1 && w2.rows == [Apply(NewRow(1, 1, Blank(), 0), SetLeased(1))]
    requires w2.born == map[1 := Blank()] && w2.lost == {}
    ensures Steps(caps, w2, ReuseSteps(caps)[2], w3)
    ensures w3.rows == [] && 3 !in w3.born && 3 !in w3.lost
    ensures w3.flight == w2.flight && w3.net == w2.net && w3.log == w2.log
  {
    SecondRow(w2.rows);
    BloatedEvictsAll(caps, Inserted(w2.rows, [2], [Blank()], 0));
    w3 := Next(caps, w2, ReuseSteps(caps)[2]);
    assert Register(w2.born, [2], [Blank()]) == map[1 := Blank(), 2 := Blank()];
  }

  /** The next event takes id 1 again. */
  lemma ReuseId(caps: Caps, w3: World) returns (w4: World)
    requires caps.maxRows >= 1 && w3.rows == [] && 3 !in w3.born && 3 !in w3.lost
    ensures Steps(caps, w3, ReuseSteps(caps)[3], w4)
    ensures w4.rows == [NewRow(1, 3, Blank(), 0)] && 3 in w4.born && 3 !in w4.lost
    ensures w4.flight == w3.flight && w4.net == w3.net && w4.log == w3.log
  {
    QuietEnqueue(caps, w3, 3);
    w4 := Next(caps, w3, ReuseSteps(caps)[3]);
    assert Inserted([], [3], [Blank()], 0) == [NewRow(1, 3, Blank(), 0)];
  }

  /** The late ack of the first event lands on the row of the third. */
  lemma ReuseAck(caps: Caps, w4: World) returns (w5: World, w6: World, w7: World)
    requires w4.rows == [NewRow(1, 3, Blank(), 0)] && 3 in w4.born && 3 !in w4.lost && w4.log == []
    requires w4.flight == Sending([LEASED_ITEM]) && [WireEvent(1, Blank())] in w4.net
    ensures Steps(caps, w4, ReuseSteps(caps)[4], w5) && Steps(caps, w5, ReuseSteps(caps)[5], w6)
    ensures Steps(caps, w6, ReuseSteps(caps)[6], w7)
    ensures AckedUnsent(w7)
  {
    w5 := Next(caps, w4, ReuseSteps(caps)[4]);
    assert w5.log == [WireEvent(1, Blank())];
    assert WireOf([LEASED_ITEM]) == [WireEvent(1, Blank())];
    w6 := Next(caps, w5, ReuseSteps(caps)[5]);
    w7 := Next(caps, w6, ReuseSteps(caps)[6]);
    assert ItemIds([LEASED_ITEM]) == [1];
    var r := Apply(NewRow(1, 3, Blank(), 0), SetAcked(0));
    assert w7.rows == [r] && r in w7.rows && 3 !in IdsIn(w7.log) && 3 !in UnackedEventIds(w7.rows);
  }

  /** A row acked although the backend never saw its event, which is gone from every account. */
  ghost predicate AckedUnsent(w: World) {
    exists r :: r in w.rows && r.state == Acked && r.eventId in w.born && r.eventId !in IdsIn(w.log)
                && r.eventId !in UnackedEventIds(w.rows) && r.eventId !in w.lost
  }

  /** Without the guard the promise fails: under the byte cap a fresh event, never sent, is acked under
      a reused id, so it is neither recorded nor queued nor counted as evicted. */
  lemma EmptiedTableLosesAnEvent(caps: Caps) returns (ws: seq<World>)
    requires caps.maxRows >= 1
    ensures IsRun(caps, ws, ReuseSteps(caps)) && AckedUnsent(ws[7])
  {
    var plan := ReuseSteps(caps);
    ws := ReuseLease(caps);
    var w3 := ReuseEvict(caps, ws[2]);
    var w4 := ReuseId(caps, w3);
    var w5, w6, w7 := ReuseAck(caps, w4);
    ws := ExtendTwice(caps, plan, ws, w3, w4);
    ws := ExtendTwice(caps, plan, ws, w5, w6);
    ExtendRun(caps, plan, ws, w7);
    ws := ws + [w7];
    assert plan[..7] == plan;
  }

  lemma ExtendTwice(caps: Caps, plan: seq<Step>, ws: seq<World>, w': World, w'': World) returns (ws'': seq<World>)
    requires 1 <= |ws| < |plan| && IsRun(caps, ws, plan[..|ws| - 1])
    requires Steps(caps, ws[|ws| - 1], plan[|ws| - 1], w') && Steps(caps, w', plan[|ws|], w'')
    ensures ws'' == ws + [w', w''] && IsRun(caps, ws'', plan[..|ws''| - 1])
  {
    ExtendRun(caps, plan, ws, w');
    ExtendRun(caps, plan, ws + [w'], w'');
    assert ws + [w'] + [w''] == ws + [w', w''];
    ws'' := ws + [w', w''];
  }
}
