/** The durable event queue of internal/queue/queue.go: one SQLite table and the operations on it. */
module EventQueue {
  import opened Seqs
  import opened Api

  const DEFAULT_MAX_ROWS := 50_000
  const DEFAULT_MAX_BYTES := 100 * 1024 * 1024
  const EVICT_CHUNK := 512

  datatype RowState = Pending | Leased | Acked

  datatype Row = Row(
    id: int,
    eventId: nat,
    payload: NormalizedEvent,
    createdAt: Time,
    attempts: nat,
    state: RowState,
    leasedUntil: Option<Time>,
    ackedAt: Option<Time>)

  /** A leased row as handed to the uploader. */
  datatype Item = Item(id: int, eventId: nat, event: NormalizedEvent, attempts: nat)

  // ---------- the table ----------

  /** Rows in primary-key order; SQLite allocates positive ids. */
  ghost predicate WellFormed(rows: seq<Row>) {
    && (forall i :: 0 <= i < |rows| ==> rows[i].id >= 1)
    && (forall i, j :: 0 <= i < j < |rows| ==> rows[i].id < rows[j].id)
  }

  /** INTEGER PRIMARY KEY without AUTOINCREMENT: one more than the largest id present. */
  function NextId(rows: seq<Row>): int {
    if rows == [] then 1 else rows[|rows| - 1].id + 1
  }

  function NewRow(id: int, eventId: nat, event: NormalizedEvent, now: Time): Row {
    Row(id, eventId, event, now, 0, Pending, None, None)
  }

  /** The rows one insert transaction appends, numbered consecutively from `first`. */
  function NewRows(first: int, eventIds: seq<nat>, events: seq<NormalizedEvent>, now: Time): (r: seq<Row>)
    requires |eventIds| == |events|
    ensures |r| == |events|
    ensures forall i :: 0 <= i < |r| ==> r[i] == NewRow(first + i, eventIds[i], events[i], now)
  {
    seq(|events|, i requires 0 <= i < |events| && |eventIds| == |events| =>
          NewRow(first + i, eventIds[i], events[i], now))
  }

  function Inserted(rows: seq<Row>, eventIds: seq<nat>, events: seq<NormalizedEvent>, now: Time): seq<Row>
    requires |eventIds| == |events|
  {
    rows + NewRows(NextId(rows), eventIds, events, now)
  }

  predicate Leasable(row: Row, now: Time) {
    row.state == Pending || (row.state == Leased && (row.leasedUntil.None? || row.leasedUntil.value < now))
  }

  function LeasableAt(now: Time): Row -> bool { (row: Row) => Leasable(row, now) }

  /** The first `n` leasable rows in id order. */
  function SelectLeasable(rows: seq<Row>, now: Time, n: nat): (r: seq<Row>) {
    var all := Filter(LeasableAt(now), rows);
    all[..Min(n, |all|)]
  }

  function ItemOf(row: Row): Item { Item(row.id, row.eventId, row.payload, row.attempts) }

  function ItemsOf(rows: seq<Row>): (r: seq<Item>)
    ensures |r| == |rows|
    ensures forall i :: 0 <= i < |rows| ==> r[i] == ItemOf(rows[i])
  {
    seq(|rows|, i requires 0 <= i < |rows| => ItemOf(rows[i]))
  }

  /** The SET clauses that updateByIDs is called with. */
  datatype SetClause = SetLeased(until: Time) | SetAcked(at: Time) | SetPending

  function Apply(row: Row, clause: SetClause): Row {
    match clause
    case SetLeased(until) => row.(state := Leased, leasedUntil := Some(until))
    case SetAcked(at) => row.(state := Acked, ackedAt := Some(at), leasedUntil := None)
    case SetPending => row.(state := Pending, leasedUntil := None, attempts := row.attempts + 1)
  }

  /** UPDATE ... WHERE id IN (ids): no check of the row's state. */
  function UpdateByIds(rows: seq<Row>, ids: seq<int>, clause: SetClause): (r: seq<Row>)
    ensures |r| == |rows|
    ensures forall i :: 0 <= i < |rows| ==> r[i] == if rows[i].id in ids then Apply(rows[i], clause) else rows[i]
  {
    seq(|rows|, i requires 0 <= i < |rows| => if rows[i].id in ids then Apply(rows[i], clause) else rows[i])
  }

  function KeptAt(cutoff: Time): Row -> bool {
    (row: Row) => !(row.state == Acked && row.ackedAt.Some? && row.ackedAt.value < cutoff)
  }

  /** DELETE ... WHERE state='acked' AND acked_at < cutoff. */
  function Pruned(rows: seq<Row>, cutoff: Time): seq<Row> { Filter(KeptAt(cutoff), rows) }

  predicate IsAcked(row: Row) { row.state == Acked }

  predicate IsUnacked(row: Row) { !IsAcked(row) }

  function AckedRows(rows: seq<Row>): seq<Row> { Filter(IsAcked, rows) }

  function UnackedRows(rows: seq<Row>): seq<Row> { Filter(IsUnacked, rows) }

  // ---------- eviction ----------

  function EvictTarget(rows: int, maxRows: int): int {
    if rows - maxRows > EVICT_CHUNK then rows - maxRows else EVICT_CHUNK
  }

  /** ORDER BY (state='acked') DESC, id ASC LIMIT n. */
  function VictimIds(rows: seq<Row>, n: nat): (r: seq<int>) {
    var order := AckedRows(rows) + UnackedRows(rows);
    IdsOf(order[..Min(n, |order|)])
  }

  function IdsOf(rows: seq<Row>): (r: seq<int>)
    ensures |r| == |rows|
    ensures forall i :: 0 <= i < |rows| ==> r[i] == rows[i].id
  {
    seq(|rows|, i requires 0 <= i < |rows| => rows[i].id)
  }

  function DeleteVictims(rows: seq<Row>, n: nat): seq<Row> {
    Filter(NotIn(VictimIds(rows, n)), rows)
  }

  function NotIn(ids: seq<int>): Row -> bool { (row: Row) => row.id !in ids }

  /** One pass of the eviction loop as the database answers it: the size read may fail, and so may
      the delete and the vacuum that follows it. */
  datatype Round = Round(sizeBytes: Option<int>, deleteOk: bool, vacuumOk: bool)

  datatype Caps = Caps(maxRows: nat, maxBytes: nat)

  datatype Evicted = Evicted(rows: seq<Row>, count: nat, failed: bool)

  predicate OverCap(caps: Caps, rows: nat, sizeBytes: int) {
    rows > caps.maxRows || sizeBytes > caps.maxBytes
  }

  /** What evictIfNeeded leaves, from round `k` on. */
  function EvictFrom(caps: Caps, rows: seq<Row>, env: nat -> Round, k: nat): (r: Evicted)
    decreases |rows|
  {
    if env(k).sizeBytes.None? then Evicted(rows, 0, true)
    else if !OverCap(caps, |rows|, env(k).sizeBytes.value) then Evicted(rows, 0, false)
    else if !env(k).deleteOk then Evicted(rows, 0, true)
    else
      var left := DeleteVictims(rows, EvictTarget(|rows|, caps.maxRows));
      if |left| == |rows| then Evicted(rows, 0, false)
      else
        var gone := |rows| - |left|;
        if !env(k).vacuumOk then Evicted(left, gone, true)
        else
          var rest := EvictFrom(caps, left, env, k + 1);
          Evicted(rest.rows, gone + rest.count, rest.failed)
  }

  // ---------- facts about the table ----------

  lemma FilterKeepsWellFormed(p: Row -> bool, rows: seq<Row>)
    requires WellFormed(rows)
    ensures WellFormed(Filter(p, rows))
  {
    if rows != [] {
      FilterKeepsWellFormed(p, rows[1..]);
      FilterMembers(p, rows[1..]);
      var rest := Filter(p, rows[1..]);
      forall i | 0 <= i < |rest| ensures rows[0].id < rest[i].id {
        assert rest[i] in rows[1..];
      }
    }
  }

  lemma UpdateKeepsWellFormed(rows: seq<Row>, ids: seq<int>, clause: SetClause)
    requires WellFormed(rows)
    ensures WellFormed(UpdateByIds(rows, ids, clause))
  {
  }

  lemma InsertKeepsWellFormed(rows: seq<Row>, eventIds: seq<nat>, events: seq<NormalizedEvent>, now: Time)
    requires WellFormed(rows) && |eventIds| == |events|
    ensures WellFormed(Inserted(rows, eventIds, events, now))
  {
  }

  /** Rows with distinct ids: dropping the ids of a prefix leaves exactly the suffix. */
  lemma {:induction false} DropPrefixIds(rows: seq<Row>, k: nat, ids: seq<int>)
    requires WellFormed(rows) && k <= |rows|
    requires forall i :: 0 <= i < |rows| ==> (rows[i].id in ids <==> i < k)
    ensures Filter(NotIn(ids), rows) == rows[k..]
  {
    var p := NotIn(ids);
    assert rows == rows[..k] + rows[k..];
    FilterConcat(p, rows[..k], rows[k..]);
    FilterNone(p, rows[..k]);
    FilterAll(p, rows[k..]);
  }

  lemma {:induction false} SameIdSameRow(rows: seq<Row>, a: Row, b: Row)
    requires WellFormed(rows) && a in rows && b in rows && a.id == b.id
    ensures a == b
  {
    var i :| 0 <= i < |rows| && rows[i] == a;
    var j :| 0 <= j < |rows| && rows[j] == b;
    assert i == j by {
      if i < j { assert false; }
      if j < i { assert false; }
    }
  }

  /** How many acked rows, then un-acked rows, a delete of `n` takes. */
  function AckedTaken(rows: seq<Row>, n: nat): nat { Min(n, |AckedRows(rows)|) }

  function UnackedTaken(rows: seq<Row>, n: nat): nat {
    Min(n - AckedTaken(rows, n), |UnackedRows(rows)|)
  }

  lemma {:induction false} VictimMembership(rows: seq<Row>, n: nat, row: Row)
    requires WellFormed(rows) && row in rows
    ensures row.id in VictimIds(rows, n) <==>
            row in AckedRows(rows)[..AckedTaken(rows, n)] || row in UnackedRows(rows)[..UnackedTaken(rows, n)]
  {
    var a, u := AckedRows(rows), UnackedRows(rows);
    var order := a + u;
    var m := Min(n, |order|);
    var ka, ku := AckedTaken(rows, n), UnackedTaken(rows, n);
    assert order[..m] == a[..ka] + u[..ku];
    var ids := VictimIds(rows, n);
    FilterMembers(IsAcked, rows);
    FilterMembers(IsUnacked, rows);
    if row.id in ids {
      var i :| 0 <= i < |ids| && ids[i] == row.id;
      assert order[..m][i] in rows;
      SameIdSameRow(rows, order[..m][i], row);
    }
    if row in order[..m] {
      var i :| 0 <= i < m && order[..m][i] == row;
      assert ids[i] == row.id;
    }
  }

  lemma {:induction false} PrefixMembership(rows: seq<Row>, k: nat, i: nat)
    requires WellFormed(rows) && k <= |rows| && i < |rows|
    ensures rows[i] in rows[..k] <==> i < k
  {
    if rows[i] in rows[..k] {
      var j :| 0 <= j < k && rows[..k][j] == rows[i];
      if i < j { assert false; }
      if j < i { assert false; }
    }
  }

  /** `left` is what deleting the first `n` rows of the eviction order leaves. */
  ghost predicate IsDelete(rows: seq<Row>, n: nat, left: seq<Row>) {
    && WellFormed(left)
    && AckedRows(left) == AckedRows(rows)[AckedTaken(rows, n)..]
    && UnackedRows(left) == UnackedRows(rows)[UnackedTaken(rows, n)..]
  }

  /** The delete, whatever the mix of rows, drops a prefix of the acked rows and then a prefix of the
      un-acked ones. */
  lemma AckedVictims(rows: seq<Row>, n: nat)
    requires WellFormed(rows)
    ensures Filter(NotIn(VictimIds(rows, n)), AckedRows(rows)) == AckedRows(rows)[AckedTaken(rows, n)..]
  {
    var a, ids := AckedRows(rows), VictimIds(rows, n);
    FilterKeepsWellFormed(IsAcked, rows);
    FilterMembers(IsAcked, rows);
    forall i | 0 <= i < |a| ensures a[i].id in ids <==> i < AckedTaken(rows, n) {
      VictimMembership(rows, n, a[i]);
      PrefixMembership(a, AckedTaken(rows, n), i);
    }
    DropPrefixIds(a, AckedTaken(rows, n), ids);
  }

  lemma UnackedVictims(rows: seq<Row>, n: nat)
    requires WellFormed(rows)
    ensures Filter(NotIn(VictimIds(rows, n)), UnackedRows(rows)) == UnackedRows(rows)[UnackedTaken(rows, n)..]
  {
    var u, ids := UnackedRows(rows), VictimIds(rows, n);
    FilterKeepsWellFormed(IsUnacked, rows);
    FilterMembers(IsUnacked, rows);
    FilterMembers(IsAcked, rows);
    forall i | 0 <= i < |u| ensures u[i].id in ids <==> i < UnackedTaken(rows, n) {
      VictimMembership(rows, n, u[i]);
      PrefixMembership(u, UnackedTaken(rows, n), i);
    }
    DropPrefixIds(u, UnackedTaken(rows, n), ids);
  }

  lemma DeleteSplits(rows: seq<Row>, n: nat)
    requires WellFormed(rows)
    ensures AckedRows(DeleteVictims(rows, n)) == AckedRows(rows)[AckedTaken(rows, n)..]
    ensures UnackedRows(DeleteVictims(rows, n)) == UnackedRows(rows)[UnackedTaken(rows, n)..]
  {
    var survives := NotIn(VictimIds(rows, n));
    AckedVictims(rows, n);
    UnackedVictims(rows, n);
    FilterCommutes(IsAcked, survives, rows);
    FilterCommutes(IsUnacked, survives, rows);
  }

  lemma {:induction false} DeleteShape(rows: seq<Row>, n: nat)
    requires WellFormed(rows)
    ensures IsDelete(rows, n, DeleteVictims(rows, n))
    ensures |DeleteVictims(rows, n)| == |rows| - Min(n, |rows|)
  {
    FilterKeepsWellFormed(NotIn(VictimIds(rows, n)), rows);
    DeleteSplits(rows, n);
    CountByState(rows);
    CountByState(DeleteVictims(rows, n));
  }

  lemma CountByState(rows: seq<Row>)
    ensures |AckedRows(rows)| + |UnackedRows(rows)| == |rows|
  {
    if rows != [] {
      CountByState(rows[1..]);
    }
  }

  lemma HeadOfSplit(x: seq<Row>)
    requires x != []
    ensures IsAcked(x[0]) ==> AckedRows(x)[1..] == AckedRows(x[1..]) && UnackedRows(x) == UnackedRows(x[1..])
    ensures IsUnacked(x[0]) ==> AckedRows(x) == AckedRows(x[1..]) && UnackedRows(x)[1..] == UnackedRows(x[1..])
  {
  }

  /** A table is determined by its acked rows and its un-acked rows. */
  lemma {:induction false} SplitDetermines(x: seq<Row>, y: seq<Row>)
    requires WellFormed(x) && WellFormed(y)
    requires AckedRows(x) == AckedRows(y) && UnackedRows(x) == UnackedRows(y)
    ensures x == y
  {
    CountByState(x);
    CountByState(y);
    if x != [] {
      FilterMembers(IsAcked, x);
      FilterMembers(IsAcked, y);
      FilterMembers(IsUnacked, x);
      FilterMembers(IsUnacked, y);
      assert x[0] in y && y[0] in x;
      assert x[0].id <= y[0].id && y[0].id <= x[0].id;
      SameIdSameRow(x, x[0], y[0]);
      HeadOfSplit(x);
      HeadOfSplit(y);
      SplitDetermines(x[1..], y[1..]);
    }
  }

  lemma {:induction false} DropTwice<T>(s: seq<T>, i: nat, j: nat)
    requires i + j <= |s|
    ensures s[i..][j..] == s[i + j..]
  {
  }

  lemma {:induction false} IsDeleteComposes(rows: seq<Row>, m: nat, left: seq<Row>, n: nat, rest: seq<Row>)
    requires IsDelete(rows, m, left) && IsDelete(left, n, rest)
    ensures IsDelete(rows, m + n, rest)
  {
    DropTwice(AckedRows(rows), AckedTaken(rows, m), AckedTaken(left, n));
    DropTwice(UnackedRows(rows), UnackedTaken(rows, m), UnackedTaken(left, n));
  }

  lemma {:induction false} DeleteIsUnique(rows: seq<Row>, n: nat, left: seq<Row>)
    requires WellFormed(rows) && IsDelete(rows, n, left)
    ensures left == DeleteVictims(rows, n)
  {
    DeleteShape(rows, n);
    SplitDetermines(left, DeleteVictims(rows, n));
  }

  /** Two deletes in a row take what one larger delete takes. */
  lemma {:induction false} DeletesCompose(rows: seq<Row>, m: nat, n: nat)
    requires WellFormed(rows)
    ensures DeleteVictims(DeleteVictims(rows, m), n) == DeleteVictims(rows, m + n)
  {
    var left := DeleteVictims(rows, m);
    DeleteShape(rows, m);
    var rest := DeleteVictims(left, n);
    DeleteShape(left, n);
    IsDeleteComposes(rows, m, left, n, rest);
    DeleteIsUnique(rows, m + n, rest);
  }

  lemma {:induction false} DeleteNothing(rows: seq<Row>)
    requires WellFormed(rows)
    ensures DeleteVictims(rows, 0) == rows
  {
    DeleteIsUnique(rows, 0, rows);
  }

  /** However many rounds run and wherever they stop, the loop has deleted the first `count` rows of
      the eviction order of the table it started from, and each deleted row is counted once. */
  lemma {:induction false} EvictionIsOneDelete(caps: Caps, rows: seq<Row>, env: nat -> Round, k: nat)
    requires WellFormed(rows)
    ensures var r := EvictFrom(caps, rows, env, k);
            && r.rows == DeleteVictims(rows, r.count)
            && |r.rows| + r.count == |rows|
            && WellFormed(r.rows)
    decreases |rows|
  {
    var size := env(k).sizeBytes;
    DeleteNothing(rows);
    if size.Some? && OverCap(caps, |rows|, size.value) && env(k).deleteOk {
      var n := EvictTarget(|rows|, caps.maxRows);
      var left := DeleteVictims(rows, n);
      DeleteCountsItself(rows, n);
      if |left| < |rows| && env(k).vacuumOk {
        EvictionIsOneDelete(caps, left, env, k + 1);
        DeletesCompose(rows, |rows| - |left|, EvictFrom(caps, left, env, k + 1).count);
      }
    }
  }

  lemma {:induction false} DeleteCountsItself(rows: seq<Row>, n: nat)
    requires WellFormed(rows)
    ensures var left := DeleteVictims(rows, n);
            |left| == |rows| - Min(n, |rows|) && WellFormed(left) && left == DeleteVictims(rows, |rows| - |left|)
  {
    DeleteShape(rows, n);
    CountByState(rows);
    if n > |rows| {
      DeleteShape(rows, |rows|);
      SplitDetermines(DeleteVictims(rows, n), DeleteVictims(rows, |rows|));
    }
  }

  /** Delivered history goes first, then the oldest undelivered rows, over the whole eviction. */
  lemma {:induction false} EvictionOrder(caps: Caps, rows: seq<Row>, env: nat -> Round)
    requires WellFormed(rows)
    ensures var left := EvictFrom(caps, rows, env, 0).rows;
            && (exists k :: 0 <= k <= |UnackedRows(rows)| && UnackedRows(left) == UnackedRows(rows)[k..])
            && (exists k :: 0 <= k <= |AckedRows(rows)| && AckedRows(left) == AckedRows(rows)[k..])
            && (AckedRows(left) != [] ==> UnackedRows(left) == UnackedRows(rows))
  {
    EvictionIsOneDelete(caps, rows, env, 0);
    DeleteShape(rows, EvictFrom(caps, rows, env, 0).count);
  }

  /** From round `k` on, every size reading finds `n` rows, less what earlier rounds took, over a cap, and nothing
      fails before the last of them goes. */
  predicate StaysOver(caps: Caps, n: nat, env: nat -> Round, k: nat)
    decreases n
  {
    n == 0 || (&& env(k).sizeBytes.Some? && OverCap(caps, n, env(k).sizeBytes.value) && env(k).deleteOk
               && (n <= EvictTarget(n, caps.maxRows)
                   || (env(k).vacuumOk && StaysOver(caps, n - EvictTarget(n, caps.maxRows), env, k + 1))))
  }

  /** The eviction empties the table exactly when its readings stay over a cap to the end. */
  lemma {:induction false} EmptiedIffStaysOver(caps: Caps, rows: seq<Row>, env: nat -> Round, k: nat)
    requires WellFormed(rows)
    ensures EvictFrom(caps, rows, env, k).rows == [] <==> StaysOver(caps, |rows|, env, k)
    decreases |rows|
  {
    var n := EvictTarget(|rows|, caps.maxRows);
    DeleteCountsItself(rows, n);
    if n < |rows| {
      EmptiedIffStaysOver(caps, DeleteVictims(rows, n), env, k + 1);
    } else {
      EvictionIsOneDelete(caps, DeleteVictims(rows, n), env, k + 1);
    }
  }

  ghost predicate RowCapAlone(caps: Caps, env: nat -> Round) {
    forall k :: env(k).sizeBytes.Some? && env(k).sizeBytes.value <= caps.maxBytes && env(k).deleteOk && env(k).vacuumOk
  }

  /** When only the row cap binds, a single round brings the table under it and keeps as many rows as
      the chunk allows. */
  lemma {:induction false} OneRoundSuffices(caps: Caps, rows: seq<Row>, env: nat -> Round)
    requires WellFormed(rows) && RowCapAlone(caps, env)
    ensures var r := EvictFrom(caps, rows, env, 0);
            && !r.failed
            && |r.rows| <= caps.maxRows
            && r.rows == (if |rows| <= caps.maxRows then rows
                          else DeleteVictims(rows, Max(512, |rows| - caps.maxRows)))
            && (caps.maxRows >= 512 && rows != [] ==> r.rows != [])
  {
    if |rows| > caps.maxRows {
      var left := DeleteVictims(rows, EvictTarget(|rows|, caps.maxRows));
      DeleteCountsItself(rows, EvictTarget(|rows|, caps.maxRows));
      assert EvictFrom(caps, left, env, 1) == Evicted(left, 0, false);
    }
  }

  lemma {:induction false} FilterLast(p: Row -> bool, rows: seq<Row>)
    requires rows != [] && p(rows[|rows| - 1])
    ensures Filter(p, rows) != [] && Filter(p, rows)[|Filter(p, rows)| - 1] == rows[|rows| - 1]
  {
    var last := [rows[|rows| - 1]];
    assert rows == rows[..|rows| - 1] + last;
    FilterConcat(p, rows[..|rows| - 1], last);
    assert Filter(p, last) == last;
  }

  /** An un-acked newest row is the last victim of all: it is gone exactly when the table is empty. */
  lemma {:induction false} NewestGoesLast(caps: Caps, rows: seq<Row>, env: nat -> Round)
    requires WellFormed(rows) && rows != [] && IsUnacked(rows[|rows| - 1])
    ensures rows[|rows| - 1] in EvictFrom(caps, rows, env, 0).rows <==> EvictFrom(caps, rows, env, 0).rows != []
  {
    var r := EvictFrom(caps, rows, env, 0);
    EvictionIsOneDelete(caps, rows, env, 0);
    DeleteShape(rows, r.count);
    FilterLast(IsUnacked, rows);
    var u := UnackedRows(rows);
    CountByState(rows);
    if r.rows != [] {
      var k := UnackedTaken(rows, r.count);
      assert k < |u|;
      assert u[|u| - 1] == UnackedRows(r.rows)[|u| - k - 1];
      FilterMembers(IsUnacked, r.rows);
    }
  }

  /** Whether round `k` deletes: the reading succeeds and finds a cap exceeded, and the delete works. */
  ghost predicate Deletes(caps: Caps, rows: nat, round: Round) {
    round.sizeBytes.Some? && (rows > caps.maxRows || round.sizeBytes.value > caps.maxBytes) && round.deleteOk
  }

  /** The rows a round deletes of `rows`: what is over the row cap, but at least 512. */
  function RoundSize(caps: Caps, rows: nat): nat { Min(rows, Max(rows - caps.maxRows, 512)) }

  /** Nothing goes while the reading is within both caps or anything fails. */
  lemma FirstRound(caps: Caps, rows: seq<Row>, env: nat -> Round, k: nat)
    requires WellFormed(rows) && rows != []
    ensures EvictFrom(caps, rows, env, k).count > 0 <==> Deletes(caps, |rows|, env(k))
  {
    DeleteCountsItself(rows, EvictTarget(|rows|, caps.maxRows));
  }

  lemma RestOfEviction(caps: Caps, rows: seq<Row>, env: nat -> Round, k: nat)
    requires WellFormed(rows) && rows != [] && Deletes(caps, |rows|, env(k))
    ensures var r := EvictFrom(caps, rows, env, k);
            var left := DeleteVictims(rows, EvictTarget(|rows|, caps.maxRows));
            && WellFormed(left) && |left| == |rows| - RoundSize(caps, |rows|)
            && (env(k).vacuumOk ==>
                  var rest := EvictFrom(caps, left, env, k + 1);
                  r == Evicted(rest.rows, RoundSize(caps, |rows|) + rest.count, rest.failed))
            && (!env(k).vacuumOk ==> r == Evicted(left, RoundSize(caps, |rows|), true))
  {
    DeleteCountsItself(rows, EvictTarget(|rows|, caps.maxRows));
  }

  /** A round that deletes takes its size, and the eviction goes on exactly when the next round deletes too. */
  lemma RoundByRound(caps: Caps, rows: seq<Row>, env: nat -> Round, k: nat)
    requires WellFormed(rows) && rows != [] && Deletes(caps, |rows|, env(k))
    ensures var r, batch := EvictFrom(caps, rows, env, k), RoundSize(caps, |rows|);
            && r.count >= batch
            && (r.count > batch <==>
                  batch < |rows| && env(k).vacuumOk && Deletes(caps, |rows| - batch, env(k + 1)))
  {
    RestOfEviction(caps, rows, env, k);
    var left := DeleteVictims(rows, EvictTarget(|rows|, caps.maxRows));
    if left != [] {
      FirstRound(caps, left, env, k + 1);
    } else {
      EvictionIsOneDelete(caps, left, env, k + 1);
    }
  }

  /** An eviction that neither failed nor emptied the table ended on a reading within both caps. */
  lemma {:induction false} EvictionEndsWithin(caps: Caps, rows: seq<Row>, env: nat -> Round, k: nat)
    returns (last: nat)
    requires WellFormed(rows)
    ensures var r := EvictFrom(caps, rows, env, k);
            !r.failed && r.rows != [] ==>
              last >= k && |r.rows| <= caps.maxRows
              && env(last).sizeBytes.Some? && env(last).sizeBytes.value <= caps.maxBytes
    decreases |rows|
  {
    last := k;
    if rows != [] && Deletes(caps, |rows|, env(k)) {
      RestOfEviction(caps, rows, env, k);
      last := EvictionEndsWithin(caps, DeleteVictims(rows, EvictTarget(|rows|, caps.maxRows)), env, k + 1);
    }
  }

  // ---------- inserts ----------

  /** The events follow the rows there were, pending and never attempted, numbered on from the largest id. */
  ghost function AreAppended(rows: seq<Row>, eventIds: seq<nat>, events: seq<NormalizedEvent>, now: Time)
    : seq<Row> -> bool
  {
    (after: seq<Row>) =>
      var n, first := |rows|, if rows == [] then 1 else rows[|rows| - 1].id + 1;
      && |eventIds| == |events| && |after| == n + |events| && rows <= after
      && forall i :: 0 <= i < |events| ==>
           after[n + i] == Row(first + i, eventIds[i], events[i], now, 0, Pending, None, None)
  }

  lemma InsertsOneMore(rows: seq<Row>, eventIds: seq<nat>, events: seq<NormalizedEvent>, now: Time, i: nat,
                       before: seq<Row>)
    requires |eventIds| == |events| && i < |events| && WellFormed(before)
    requires before == rows + NewRows(NextId(rows), eventIds, events, now)[..i] && NextId(before) == NextId(rows) + i
    ensures var after := before + [NewRow(NextId(before), eventIds[i], events[i], now)];
            && after == rows + NewRows(NextId(rows), eventIds, events, now)[..i + 1]
            && WellFormed(after) && NextId(after) == NextId(rows) + i + 1
  {
  }

  lemma InsertsAppend(rows: seq<Row>, eventIds: seq<nat>, events: seq<NormalizedEvent>, now: Time)
    requires |eventIds| == |events|
    ensures AreAppended(rows, eventIds, events, now)(Inserted(rows, eventIds, events, now))
  {
  }

  // ---------- leases ----------

  /** `items` are up to `n` of the pending rows and of the rows whose lease has no deadline or one before `now`, the
      ones with the smallest ids. */
  ghost function AreOldestOpen(rows: seq<Row>, now: Time, n: nat): seq<Item> -> bool {
    (items: seq<Item>) =>
      && |items| <= n
      && (forall i, j :: 0 <= i < j < |items| ==> items[i].id < items[j].id)
      && (forall r {:trigger Item(r.id, r.eventId, r.payload, r.attempts)} ::
            r in rows && Item(r.id, r.eventId, r.payload, r.attempts) in items ==>
              r.state == Pending || (r.state == Leased && (r.leasedUntil == None || r.leasedUntil.value < now)))
      && (forall r {:trigger Item(r.id, r.eventId, r.payload, r.attempts)} ::
            (r in rows
             && (r.state == Pending
                 || (r.state == Leased && (r.leasedUntil == None || r.leasedUntil.value < now)))) ==>
              Item(r.id, r.eventId, r.payload, r.attempts) in items
              || (|items| == n && forall it :: it in items ==> it.id < r.id))
  }

  lemma SelectsOldest(rows: seq<Row>, now: Time, n: nat)
    requires WellFormed(rows)
    ensures AreOldestOpen(rows, now, n)(ItemsOf(SelectLeasable(rows, now, n)))
  {
    var items := ItemsOf(SelectLeasable(rows, now, n));
    FilterKeepsWellFormed(LeasableAt(now), rows);
    forall r | r in rows && Item(r.id, r.eventId, r.payload, r.attempts) in items
      ensures r.state == Pending || (r.state == Leased && (r.leasedUntil == None || r.leasedUntil.value < now)) {
      var r0 := SelectedIsOpen(rows, now, n, ItemOf(r));
      SameIdSameRow(rows, r, r0);
    }
    forall r | r in rows
               && (r.state == Pending
                   || (r.state == Leased && (r.leasedUntil == None || r.leasedUntil.value < now)))
      ensures Item(r.id, r.eventId, r.payload, r.attempts) in items
              || (|items| == n && forall it :: it in items ==> it.id < r.id) {
      OpenIsSelected(rows, now, n, r);
    }
  }

  lemma SelectedIsOpen(rows: seq<Row>, now: Time, n: nat, it: Item) returns (r: Row)
    requires it in ItemsOf(SelectLeasable(rows, now, n))
    ensures r in rows && it == ItemOf(r) && Leasable(r, now)
  {
    var chosen := SelectLeasable(rows, now, n);
    FilterMembers(LeasableAt(now), rows);
    var i :| 0 <= i < |chosen| && ItemsOf(chosen)[i] == it;
    assert chosen[i] in Filter(LeasableAt(now), rows);
    r := chosen[i];
  }

  lemma OpenIsSelected(rows: seq<Row>, now: Time, n: nat, r: Row)
    requires WellFormed(rows) && r in rows && Leasable(r, now)
    ensures var items := ItemsOf(SelectLeasable(rows, now, n));
            ItemOf(r) in items || (|items| == n && forall it :: it in items ==> it.id < r.id)
  {
    var all, items := Filter(LeasableAt(now), rows), ItemsOf(SelectLeasable(rows, now, n));
    FilterKeepsWellFormed(LeasableAt(now), rows);
    FilterMembers(LeasableAt(now), rows);
    var j :| 0 <= j < |all| && all[j] == r;
    if j < |items| {
      assert items[j] == ItemOf(r);
    } else {
      forall it | it in items ensures it.id < r.id {
        var i :| 0 <= i < |items| && items[i] == it;
        assert it == ItemOf(all[i]);
      }
    }
  }

  /** Exactly the rows handed out carry the new lease. */
  ghost function AreLeased(rows: seq<Row>, items: seq<Item>, until: Time): seq<Row> -> bool {
    (after: seq<Row>) =>
      && |after| == |rows|
      && forall i {:trigger after[i]} :: 0 <= i < |rows| ==>
           var r := rows[i];
           after[i] == if Item(r.id, r.eventId, r.payload, r.attempts) in items
                       then r.(state := Leased, leasedUntil := Some(until)) else r
  }

  lemma LeaseMeans(rows: seq<Row>, now: Time, n: nat, until: Time, items: seq<Item>, after: seq<Row>)
    requires WellFormed(rows)
    requires items == ItemsOf(SelectLeasable(rows, now, n))
    requires after == UpdateByIds(rows, IdsOf(SelectLeasable(rows, now, n)), SetLeased(until))
    ensures AreOldestOpen(rows, now, n)(items) && AreLeased(rows, items, until)(after)
  {
    SelectsOldest(rows, now, n);
    LeaseStamps(rows, now, n, until);
  }

  lemma NoneMarked(rows: seq<Row>, ids: seq<int>, clause: SetClause)
    ensures |ids| == 0 ==> UpdateByIds(rows, ids, clause) == rows
  {
  }

  lemma LeaseStamps(rows: seq<Row>, now: Time, n: nat, until: Time)
    requires WellFormed(rows)
    ensures var chosen := SelectLeasable(rows, now, n);
            AreLeased(rows, ItemsOf(chosen), until)(UpdateByIds(rows, IdsOf(chosen), SetLeased(until)))
  {
    var chosen := SelectLeasable(rows, now, n);
    var items, ids := ItemsOf(chosen), IdsOf(chosen);
    FilterMembers(LeasableAt(now), rows);
    forall i | 0 <= i < |rows| ensures rows[i].id in ids <==> ItemOf(rows[i]) in items {
      if rows[i].id in ids {
        var j :| 0 <= j < |ids| && ids[j] == rows[i].id;
        assert chosen[j] in Filter(LeasableAt(now), rows);
        SameIdSameRow(rows, chosen[j], rows[i]);
        assert items[j] == ItemOf(rows[i]);
      }
      if ItemOf(rows[i]) in items {
        var j :| 0 <= j < |items| && items[j] == ItemOf(rows[i]);
        assert ids[j] == rows[i].id;
      }
    }
  }

  // ---------- the queue object ----------

  class Queue {
    var rows: seq<Row>
    var evicted: nat
    const caps: Caps

    ghost predicate Valid()
      reads this
    {
      WellFormed(rows)
    }

    /** Open with the table found on disk; non-positive caps fall back to the defaults. */
    constructor Open(found: seq<Row>, maxRows: int, maxBytes: int)
      requires WellFormed(found)
      ensures Valid() && rows == found && evicted == 0
      ensures caps.maxRows == (if maxRows <= 0 then 50_000 else maxRows)
      ensures caps.maxBytes == (if maxBytes <= 0 then 104_857_600 else maxBytes)
    {
      rows := found;
      evicted := 0;
      caps := Caps(if maxRows <= 0 then DEFAULT_MAX_ROWS else maxRows,
                   if maxBytes <= 0 then DEFAULT_MAX_BYTES else maxBytes);
    }

    /** Append the events as pending rows, then evict. `commitOk` is false when the insert transaction
        rolls back for any reason. */
    method Enqueue(events: seq<NormalizedEvent>, eventIds: seq<nat>, now: Time, commitOk: bool, env: nat -> Round)
      returns (failed: bool)
      requires Valid() && |eventIds| == |events|
      modifies this
      ensures Valid()
      ensures events == [] ==> !failed && rows == old(rows) && evicted == old(evicted)
      ensures events != [] && !commitOk ==> failed && rows == old(rows) && evicted == old(evicted)
      ensures events != [] && commitOk ==>
                var r := EvictFrom(caps, Inserted(old(rows), eventIds, events, now), env, 0);
                rows == r.rows && evicted == old(evicted) + r.count && failed == r.failed
    {
      if events == [] {
        return false;
      }
      if !commitOk {
        return true;
      }
      InsertEvents(events, eventIds, now);
      failed := EvictIfNeeded(env);
    }

    method InsertEvents(events: seq<NormalizedEvent>, eventIds: seq<nat>, now: Time)
      requires Valid() && |eventIds| == |events|
      modifies this`rows
      ensures Valid() && rows == Inserted(old(rows), eventIds, events, now)
    {
      var first := NextId(rows);
      for i := 0 to |events|
        invariant rows == old(rows) + NewRows(first, eventIds, events, now)[..i]
        invariant Valid() && NextId(rows) == first + i
      {
        InsertsOneMore(old(rows), eventIds, events, now, i, rows);
        rows := rows + [NewRow(NextId(rows), eventIds[i], events[i], now)];
      }
    }

    method EvictIfNeeded(env: nat -> Round) returns (failed: bool)
      requires Valid()
      modifies this
      ensures Valid()
      ensures var r := EvictFrom(caps, old(rows), env, 0);
              rows == r.rows && evicted == old(evicted) + r.count && failed == r.failed
      ensures !failed && rows != [] ==>
                |rows| <= caps.maxRows
                && exists k :: env(k).sizeBytes.Some? && env(k).sizeBytes.value <= caps.maxBytes
    {
      var last := EvictionEndsWithin(caps, rows, env, 0);
      ghost var whole := EvictFrom(caps, rows, env, 0);
      var k := 0;
      while true
        invariant Valid()
        invariant var r := EvictFrom(caps, rows, env, k);
                  r.rows == whole.rows && evicted + r.count == old(evicted) + whole.count && r.failed == whole.failed
        decreases |rows|
      {
        var size := env(k).sizeBytes;
        if size.None? {
          return true;
        }
        if !OverCap(caps, |rows|, size.value) {
          return false;
        }
        if !env(k).deleteOk {
          return true;
        }
        DeleteShape(rows, EvictTarget(|rows|, caps.maxRows));
        var left := DeleteVictims(rows, EvictTarget(|rows|, caps.maxRows));
        var deleted := |rows| - |left|;
        if deleted == 0 {
          return false;
        }
        rows := left;
        evicted := evicted + deleted;
        if !env(k).vacuumOk {
          return true;
        }
        k := k + 1;
      }
    }

    /** Lease up to `n` leasable rows, oldest first. `ok` is false when the select or the update fails,
        which leaves every row as it was. */
    method LeaseBatch(n: int, leaseDur: Time, now: Time, ok: bool) returns (items: seq<Item>, failed: bool)
      requires Valid()
      modifies this`rows
      ensures Valid()
      ensures failed == (n > 0 && !ok)
      ensures n <= 0 || !ok ==> items == [] && rows == old(rows)
      ensures n > 0 && ok ==>
                var chosen := SelectLeasable(old(rows), now, n);
                && items == ItemsOf(chosen)
                && rows == UpdateByIds(old(rows), IdsOf(chosen), SetLeased(now + leaseDur))
      ensures n > 0 && ok ==> AreOldestOpen(old(rows), now, n)(items)
      ensures n > 0 && ok ==> AreLeased(old(rows), items, now + leaseDur)(rows)
    {
      if n <= 0 {
        return [], false;
      }
      if !ok {
        return [], true;
      }
      var ids;
      ids, items := SelectItems(now, n);
      failed := false;
      NoneMarked(rows, ids, SetLeased(now + leaseDur));
      if |ids| > 0 {
        rows := UpdateByIds(rows, ids, SetLeased(now + leaseDur));
      }
      LeaseMeans(old(rows), now, n, now + leaseDur, items, rows);
    }

    /** selectLeasable: the rows are scanned in the order of the select. */
    method SelectItems(now: Time, n: nat) returns (ids: seq<int>, items: seq<Item>)
      ensures ids == IdsOf(SelectLeasable(rows, now, n)) && items == ItemsOf(SelectLeasable(rows, now, n))
    {
      var found := SelectLeasable(rows, now, n);
      ids, items := [], [];
      for i := 0 to |found|
        invariant items == ItemsOf(found)[..i] && ids == IdsOf(found)[..i]
      {
        ids := ids + [found[i].id];
        items := items + [ItemOf(found[i])];
      }
    }

    method Ack(ids: seq<int>, now: Time, ok: bool) returns (failed: bool)
      requires Valid()
      modifies this`rows
      ensures Valid() && failed == (ids != [] && !ok)
      ensures rows == if ok then UpdateByIds(old(rows), ids, SetAcked(now)) else old(rows)
      ensures ok ==>
                && |rows| == |old(rows)|
                && forall i :: 0 <= i < |rows| ==>
                     var r := old(rows)[i];
                     rows[i] == if r.id in ids then r.(state := Acked, ackedAt := Some(now), leasedUntil := None) else r
    {
      failed := ids != [] && !ok;
      assert UpdateByIds(rows, [], SetAcked(now)) == rows;
      if ids != [] && ok {
        rows := UpdateByIds(rows, ids, SetAcked(now));
      }
    }

    method Nack(ids: seq<int>, ok: bool) returns (failed: bool)
      requires Valid()
      modifies this`rows
      ensures Valid() && failed == (ids != [] && !ok)
      ensures rows == if ok then UpdateByIds(old(rows), ids, SetPending) else old(rows)
      ensures ok ==>
                && |rows| == |old(rows)|
                && forall i :: 0 <= i < |rows| ==>
                     var r := old(rows)[i];
                     rows[i] ==
                       if r.id in ids then r.(state := Pending, leasedUntil := None, attempts := r.attempts + 1) else r
    {
      failed := ids != [] && !ok;
      assert UpdateByIds(rows, [], SetPending) == rows;
      if ids != [] && ok {
        rows := UpdateByIds(rows, ids, SetPending);
      }
    }

    /** Delete old delivered rows; pending and leased rows stay, whatever their age. */
    method PruneAcked(cutoff: Time, ok: bool, vacuumOk: bool) returns (deleted: nat, failed: bool)
      requires Valid()
      modifies this`rows
      ensures Valid() && failed == (!ok || (deleted > 0 && !vacuumOk))
      ensures rows == if ok then Pruned(old(rows), cutoff) else old(rows)
      ensures deleted == |old(rows)| - |rows|
      ensures UnackedRows(rows) == UnackedRows(old(rows))
      ensures forall r :: r in rows <==>
                r in old(rows) && !(ok && r.state == Acked && r.ackedAt != None && r.ackedAt.value < cutoff)
    {
      deleted, failed := 0, !ok;
      if ok {
        FilterKeepsWellFormed(KeptAt(cutoff), rows);
        PruneKeepsUnacked(rows, cutoff);
        FilterMembers(KeptAt(cutoff), rows);
        var left := Pruned(rows, cutoff);
        deleted := |rows| - |left|;
        rows := left;
        failed := deleted > 0 && !vacuumOk;
      }
    }
  }

  lemma {:induction false} PruneKeepsUnacked(rows: seq<Row>, cutoff: Time)
    ensures UnackedRows(Pruned(rows, cutoff)) == UnackedRows(rows)
  {
    FilterCommutes(IsUnacked, KeptAt(cutoff), rows);
    FilterMembers(IsUnacked, rows);
    FilterAll(KeptAt(cutoff), UnackedRows(rows));
  }
}
