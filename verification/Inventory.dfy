/** The inventory consent protocol of internal/uploader/inventory.go: the heartbeat thread, one worker, a
    one-token trigger channel and two mutexes. Each step is what one thread does inside one critical
    section, or one call it makes outside of any. */
module Inventory {
  import opened Seqs
  import opened Api
  import opened Runs

  const REFRESH: Time := 12 * 3600 * SECOND
  const RETRY: Time := 300 * SECOND

  datatype Status = Unset | Disabled | Pending | Current | Error

  /** The heartbeat thread in onHeartbeatOK: about to persist the policy, about to trigger the worker. */
  datatype Heart = Idle | Persisting(enabled: bool, trigger: bool) | Triggering

  /** The worker, by the call it is about to make; each sync has its own context. */
  datatype Worker =
    | Waiting
    | Starting(ctx: nat)
    | Marking(ctx: nat)
    | Discovering(ctx: nat)
    | Checking(ctx: nat)
    | Sending(ctx: nat)
    | Judging(ctx: nat, ok: bool)
    | Excusing(ctx: nat)
    | Confirming(ctx: nat)
    | Finishing(ctx: nat, status: Status)
    | Storing(ctx: nat, status: Status)

  datatype Event = Consent(enabled: bool) | Wrote(status: Status)

  datatype World = World(
    enabled: bool,              // policy.InventoryEnabled
    running: bool,
    cancel: Option<nat>,        // the context inventoryCancel would cancel
    nextAttempt: Time,
    token: bool,                // the channel's one slot
    heart: Heart,
    worker: Worker,
    cancelled: set<nat>,
    nextCtx: nat,
    status: Status,             // as stored
    trace: seq<Event>)

  ghost predicate IsStart(w: World) {
    && !w.running && w.cancel == None && !w.token && w.heart == Idle && w.worker == Waiting
    && w.cancelled == {} && w.nextCtx == 0 && w.trace == []
  }

  datatype Step =
    | HeartbeatOk(enabled: bool, now: Time)
    | Persist(ok: bool)
    | Trigger
    | Receive
    | Start
    | MarkPending(ok: bool)
    | Discover(ok: bool)
    | Check
    | SendSnapshot(ok: bool)
    | Judge
    | Excuse
    | Confirm
    | Decide(now: Time)
    | Store(ok: bool)

  /** scheduleInventoryLocked and the policy update, under u.mu. */
  function Scheduled(w: World, enabled: bool, now: Time): World {
    if !enabled then
      w.(enabled := false, running := false, nextAttempt := 0, cancel := None, heart := Persisting(false, false),
         cancelled := w.cancelled + if w.cancel.Some? then {w.cancel.value} else {})
    else
      var trigger := !w.running && now >= w.nextAttempt;
      w.(enabled := true, running := w.running || trigger, heart := Persisting(true, trigger))
  }

  function Written(w: World, status: Status): World { w.(status := status, trace := w.trace + [Wrote(status)]) }

  /** The sync is over and its context released. */
  function Ended(w: World): World
    requires !w.worker.Waiting?
  {
    w.(worker := Waiting, cancelled := w.cancelled + {w.worker.ctx})
  }

  /** u.storeMu is held from the decision to the write of finishInventory. */
  predicate StoreFree(w: World) { !w.worker.Storing? }

  ghost predicate Enabled(w: World, s: Step) {
    match s
    case HeartbeatOk(_, _) => w.heart == Idle
    case Persist(_) => w.heart.Persisting? && StoreFree(w)
    case Trigger => w.heart == Triggering
    case Receive => w.worker == Waiting && w.token
    case Start => w.worker.Starting?
    case MarkPending(_) => w.worker.Marking?
    case Discover(_) => w.worker.Discovering?
    case Check => w.worker.Checking?
    case SendSnapshot(_) => w.worker.Sending?
    case Judge => w.worker.Judging?
    case Excuse => w.worker.Excusing?
    case Confirm => w.worker.Confirming?
    case Decide(_) => w.worker.Finishing?
    case Store(_) => w.worker.Storing?
  }

  ghost function Next(w: World, s: Step): World
    requires Enabled(w, s)
  {
    match s
    case HeartbeatOk(enabled, now) =>
      var w1 := Scheduled(w, enabled, now);
      w1.(trace := w.trace + [Consent(enabled)])
    case Persist(ok) =>
      var w1 := if !w.heart.enabled && ok then Written(w, Disabled) else w;
      w1.(heart := if w.heart.trigger then Triggering else Idle)
    case Trigger => w.(heart := Idle, token := true)
    case Receive => w.(token := false, worker := Starting(w.nextCtx), nextCtx := w.nextCtx + 1)
    case Start =>
      if !w.enabled then Ended(w.(running := false))
      else w.(cancel := Some(w.worker.ctx), worker := Marking(w.worker.ctx))
    case MarkPending(ok) =>
      var w1 := if ok && w.status != Current then Written(w, Pending) else w;
      w1.(worker := Discovering(w.worker.ctx))
    case Discover(ok) => w.(worker := if ok then Checking(w.worker.ctx) else Judging(w.worker.ctx, false))
    case Check => w.(worker := if w.enabled then Sending(w.worker.ctx) else Judging(w.worker.ctx, false))
    case SendSnapshot(ok) => w.(worker := Judging(w.worker.ctx, ok))
    case Judge =>
      w.(worker := if w.worker.ok && w.enabled then Finishing(w.worker.ctx, Current) else Excusing(w.worker.ctx))
    case Excuse => if w.worker.ctx in w.cancelled then Ended(w) else w.(worker := Confirming(w.worker.ctx))
    case Confirm => if w.enabled then w.(worker := Finishing(w.worker.ctx, Error)) else Ended(w)
    case Decide(now) =>
      var w1 := w.(running := false, cancel := None);
      if !w.enabled then Ended(w1)
      else w1.(nextAttempt := now + (if w.worker.status == Current then REFRESH else RETRY),
               worker := Storing(w.worker.ctx, w.worker.status))
    case Store(ok) => Ended(if ok then Written(w, w.worker.status) else w)
  }

  ghost predicate Steps(w: World, s: Step, w': World) { Enabled(w, s) && w' == Next(w, s) }

  ghost function CanStep(): (World, World) -> bool { (w: World, w': World) => exists s :: Steps(w, s, w') }

  ghost predicate IsRun(ws: seq<World>) { |ws| > 0 && IsStart(ws[0]) && IsChain(CanStep(), ws) }

  // ---------- the invariant ----------

  /** The worker is in a sync that has passed its consent check. */
  predicate InSync(w: World) { !w.worker.Waiting? && !w.worker.Starting? }

  /** A trigger is on its way: sent, or about to be by the heartbeat. */
  predicate TriggerComing(w: World) { w.token || w.heart == Triggering || (w.heart.Persisting? && w.heart.trigger) }

  ghost predicate ContextsOk(w: World) {
    && (!w.worker.Waiting? ==> w.worker.ctx < w.nextCtx)
    && (forall c :: c in w.cancelled ==> c < w.nextCtx)
    && (w.cancel.Some? ==> InSync(w) && w.cancel.value == w.worker.ctx && w.cancel.value !in w.cancelled)
    && (InSync(w) && !w.worker.Storing? && w.cancel.None? ==> w.worker.ctx in w.cancelled)
    && (w.worker.Starting? ==> w.worker.ctx !in w.cancelled)
    && (w.worker.Storing? ==> w.cancel == None)
  }

  ghost predicate ConsentOk(w: World) {
    && (!w.enabled ==> !w.running && w.cancel == None)
    && (w.heart.Persisting? ==> w.heart.enabled == w.enabled && (w.heart.trigger ==> w.enabled))
    && (w.heart == Triggering ==> w.enabled)
  }

  /** While running is set, a trigger is coming or an un-cancelled sync will clear it. */
  ghost predicate WillClear(w: World) {
    w.running ==> TriggerComing(w) || w.worker.Starting? || w.cancel.Some?
  }

  ghost predicate ConsentWithin(trace: seq<Event>, i: int, j: int) {
    exists k :: 0 <= k < |trace| && i < k < j && trace[k] == Consent(true)
  }

  /** Since the last "disabled" write consent came back, or is still withdrawn and nothing is being stored. */
  ghost predicate DisabledStands(w: World) {
    forall i :: 0 <= i < |w.trace| && w.trace[i] == Wrote(Disabled) ==>
      ConsentWithin(w.trace, i, |w.trace|) || (!w.enabled && !w.worker.Storing?)
  }

  /** A finish status is written after a "disabled" write only when consent came back in between. */
  ghost predicate NoLateStatus(trace: seq<Event>) {
    forall i, j ::
      (0 <= i < j < |trace| && trace[i] == Wrote(Disabled)
       && (trace[j] == Wrote(Current) || trace[j] == Wrote(Error))) ==>
        ConsentWithin(trace, i, j)
  }

  ghost predicate StatusOk(w: World) {
    && (w.worker.Storing? || w.worker.Finishing? ==> w.worker.status == Current || w.worker.status == Error)
    && DisabledStands(w) && NoLateStatus(w.trace)
  }

  ghost function Inv(): World -> bool { (w: World) => ContextsOk(w) && ConsentOk(w) && WillClear(w) && StatusOk(w) }

  lemma ConsentWithinGrows(trace: seq<Event>, e: Event, i: int, j: int, j': int)
    requires ConsentWithin(trace, i, j) && j <= j'
    ensures ConsentWithin(trace + [e], i, j')
  {
    var k :| 0 <= k < |trace| && i < k < j && trace[k] == Consent(true);
    assert (trace + [e])[k] == trace[k];
  }

  lemma ContextsStep(w: World, s: Step, w': World)
    requires ContextsOk(w) && ConsentOk(w) && Steps(w, s, w')
    ensures ContextsOk(w')
  {
  }

  lemma ConsentStep(w: World, s: Step, w': World)
    requires ContextsOk(w) && ConsentOk(w) && Steps(w, s, w')
    ensures ConsentOk(w')
  {
  }

  lemma ClearStep(w: World, s: Step, w': World)
    requires ContextsOk(w) && ConsentOk(w) && WillClear(w) && Steps(w, s, w')
    ensures WillClear(w')
  {
  }

  lemma TraceGrows(w: World, e: Event, w': World)
    requires DisabledStands(w) && NoLateStatus(w.trace) && w'.trace == w.trace + [e]
    requires e == Wrote(Current) || e == Wrote(Error) ==> w.worker.Storing?
    requires e == Wrote(Disabled) ==> !w'.enabled && !w'.worker.Storing?
    requires e != Consent(true) ==> (!w.enabled && !w.worker.Storing? ==> !w'.enabled && !w'.worker.Storing?)
    ensures DisabledStands(w') && NoLateStatus(w'.trace)
  {
    var t := w'.trace;
    forall i | 0 <= i < |t| && t[i] == Wrote(Disabled)
      ensures ConsentWithin(t, i, |t|) || (!w'.enabled && !w'.worker.Storing?) {
      if i < |w.trace| {
        assert w.trace[i] == Wrote(Disabled);
        if e == Consent(true) {
          assert t[|w.trace|] == Consent(true);
        } else if ConsentWithin(w.trace, i, |w.trace|) {
          ConsentWithinGrows(w.trace, e, i, |w.trace|, |t|);
        }
      }
    }
    forall i, j | 0 <= i < j < |t| && t[i] == Wrote(Disabled) && (t[j] == Wrote(Current) || t[j] == Wrote(Error))
      ensures ConsentWithin(t, i, j) {
      assert w.trace[i] == Wrote(Disabled);
      if j < |w.trace| {
        assert w.trace[j] == t[j];
        ConsentWithinGrows(w.trace, e, i, j, j);
      } else {
        ConsentWithinGrows(w.trace, e, i, |w.trace|, j);
      }
    }
  }

  lemma TraceStays(w: World, w': World)
    requires DisabledStands(w) && NoLateStatus(w.trace) && w'.trace == w.trace
    requires !w.enabled && !w.worker.Storing? ==> !w'.enabled && !w'.worker.Storing?
    ensures DisabledStands(w') && NoLateStatus(w'.trace)
  {
  }

  lemma OutcomeStep(w: World, s: Step, w': World)
    requires StatusOk(w) && Steps(w, s, w')
    ensures w'.worker.Storing? || w'.worker.Finishing? ==> w'.worker.status == Current || w'.worker.status == Error
  {
  }

  lemma TraceStep(w: World, s: Step, w': World)
    requires ConsentOk(w) && Steps(w, s, w')
    requires w.worker.Storing? ==> w.worker.status == Current || w.worker.status == Error
    ensures w'.trace == w.trace ==> (!w.enabled && !w.worker.Storing? ==> !w'.enabled && !w'.worker.Storing?)
    ensures w'.trace != w.trace ==>
              && |w'.trace| == |w.trace| + 1 && w'.trace == w.trace + [w'.trace[|w.trace|]]
              && var e := w'.trace[|w.trace|];
                 && (e == Wrote(Current) || e == Wrote(Error) ==> w.worker.Storing?)
                 && (e == Wrote(Disabled) ==> !w'.enabled && !w'.worker.Storing?)
                 && (e != Consent(true) && !w.enabled && !w.worker.Storing? ==> !w'.enabled && !w'.worker.Storing?)
  {
  }

  lemma StatusStep(w: World, s: Step, w': World)
    requires ConsentOk(w) && StatusOk(w) && Steps(w, s, w')
    ensures StatusOk(w')
  {
    OutcomeStep(w, s, w');
    TraceStep(w, s, w');
    if w'.trace == w.trace {
      TraceStays(w, w');
    } else {
      TraceGrows(w, w'.trace[|w.trace|], w');
    }
  }

  lemma InvAlong(ws: seq<World>, k: nat)
    requires IsRun(ws) && k < |ws|
    ensures Inv()(ws[k])
  {
    forall w, w' | Inv()(w) && CanStep()(w, w') ensures Inv()(w') {
      var s :| Steps(w, s, w');
      ContextsStep(w, s, w');
      ConsentStep(w, s, w');
      ClearStep(w, s, w');
      StatusStep(w, s, w');
    }
    HoldsAlong(CanStep(), Inv(), ws, k);
  }

  // ---------- the protocol's promises ----------

  /** No lost wake-up: while a run is marked, a trigger is coming or the worker is in a sync that will end
      the mark, and such a sync is the one revocation would cancel. */
  lemma NoLostWakeUp(ws: seq<World>, k: nat)
    requires IsRun(ws) && k < |ws| && ws[k].running
    ensures TriggerComing(ws[k]) || ws[k].worker.Starting? || (InSync(ws[k]) && ws[k].cancel == Some(ws[k].worker.ctx))
  {
    InvAlong(ws, k);
  }

  /** The worker is never idle, with nothing on its way, while a run is marked: it cannot be stuck. */
  lemma IdleMeansReady(ws: seq<World>, k: nat)
    requires IsRun(ws) && k < |ws| && ws[k].worker == Waiting && !TriggerComing(ws[k])
    ensures !ws[k].running
  {
    InvAlong(ws, k);
  }

  predicate CanDiscoverOrSend(worker: Worker) {
    worker.Marking? || worker.Discovering? || worker.Checking? || worker.Sending?
  }

  /** Revocation is effective: with consent withdrawn, a sync that can still discover or send runs under a
      cancelled context. */
  lemma RevocationCancels(ws: seq<World>, k: nat)
    requires IsRun(ws) && k < |ws| && !ws[k].enabled && CanDiscoverOrSend(ws[k].worker)
    ensures ws[k].worker.ctx in ws[k].cancelled
  {
    InvAlong(ws, k);
  }

  /** After a revocation's "disabled" write, no sync reports an outcome until consent is given again. */
  lemma NoOutcomeAfterDisabled(ws: seq<World>, k: nat, i: nat, j: nat)
    requires IsRun(ws) && k < |ws| && i < j < |ws[k].trace|
    requires ws[k].trace[i] == Wrote(Disabled) && (ws[k].trace[j] == Wrote(Current) || ws[k].trace[j] == Wrote(Error))
    ensures exists c :: i < c < j && ws[k].trace[c] == Consent(true)
  {
    InvAlong(ws, k);
    assert ConsentWithin(ws[k].trace, i, j);
  }

  /** A heartbeat with consent, none marked running and the time come, brings a trigger. */
  lemma Triggered(w: World, now: Time) returns (w1: World, w2: World, w3: World)
    requires w.heart == Idle && StoreFree(w) && !w.running && now >= w.nextAttempt
    ensures CanStep()(w, w1) && CanStep()(w1, w2) && CanStep()(w2, w3)
    ensures w3 == w.(enabled := true, running := true, token := true, trace := w.trace + [Consent(true)])
  {
    w1 := w.(enabled := true, running := true, heart := Persisting(true, true), trace := w.trace + [Consent(true)]);
    assert Steps(w, HeartbeatOk(true, now), w1);
    w2 := w1.(heart := Triggering);
    assert Steps(w1, Persist(true), w2);
    w3 := w2.(heart := Idle, token := true);
    assert Steps(w2, Trigger, w3);
  }

  lemma ConsentGiven(status: Status) returns (w0: World, w1: World, w2: World, w3: World)
    ensures IsStart(w0) && CanStep()(w0, w1) && CanStep()(w1, w2) && CanStep()(w2, w3)
    ensures w3 == World(true, true, None, 0, true, Idle, Waiting, {}, 0, status, [Consent(true)])
  {
    w0 := World(false, false, None, 0, false, Idle, Waiting, {}, 0, status, []);
    w1, w2, w3 := Triggered(w0, 0);
  }

  lemma WorkerStarts(w3: World) returns (w4: World, w5: World)
    requires w3.enabled && w3.token && w3.worker == Waiting
    ensures CanStep()(w3, w4) && CanStep()(w4, w5)
    ensures w5 == w3.(token := false, cancel := Some(w3.nextCtx), worker := Marking(w3.nextCtx),
                      nextCtx := w3.nextCtx + 1)
  {
    w4 := w3.(token := false, worker := Starting(w3.nextCtx), nextCtx := w3.nextCtx + 1);
    assert Steps(w3, Receive, w4);
    w5 := w4.(cancel := Some(w3.nextCtx), worker := Marking(w3.nextCtx));
    assert Steps(w4, Start, w5);
  }

  /** Consent given, the worker past its check, consent withdrawn and "disabled" written. */
  lemma RevokedMidSync(status: Status) returns (ws: seq<World>)
    ensures IsRun(ws) && |ws| == 8 && !ws[7].enabled && ws[7].worker == Marking(0) && ws[7].status == Disabled
    ensures ws[7].trace == [Consent(true), Consent(false), Wrote(Disabled)]
  {
    var w0, w1, w2, w3 := ConsentGiven(status);
    var w4, w5 := WorkerStarts(w3);
    var w6, w7 := Withdrawn(w5);
    ws := [w0, w1, w2, w3, w4, w5, w6, w7];
  }

  lemma Withdrawn(w5: World) returns (w6: World, w7: World)
    requires w5.heart == Idle && w5.worker == Marking(0)
    ensures CanStep()(w5, w6) && CanStep()(w6, w7)
    ensures !w7.enabled && w7.worker == w5.worker && w7.status == Disabled
            && w7.trace == w5.trace + [Consent(false), Wrote(Disabled)]
  {
    w6 := Scheduled(w5, false, 1).(trace := w5.trace + [Consent(false)]);
    assert Steps(w5, HeartbeatOk(false, 1), w6);
    w7 := Written(w6, Disabled).(heart := Idle);
    assert Steps(w6, Persist(true), w7);
  }

  /** The same does not hold of "pending": a sync that passed its check before the revocation may write it
      after, and the stored status then says so while consent is withdrawn. */
  lemma PendingMayOutliveConsent(status: Status) returns (ws: seq<World>)
    ensures IsRun(ws) && |ws| == 9
    ensures !ws[8].enabled && ws[8].status == Pending
    ensures ws[8].trace == [Consent(true), Consent(false), Wrote(Disabled), Wrote(Pending)]
  {
    var front := RevokedMidSync(status);
    var w8 := Written(front[7], Pending).(worker := Discovering(0));
    assert Steps(front[7], MarkPending(true), w8);
    ws := front + [w8];
  }

  // ---------- consented syncs ----------

  /** The worker sends the snapshot. */
  lemma SnapshotSent(w5: World) returns (w6: World, w7: World, w8: World)
    requires w5.enabled && w5.worker.Marking?
    ensures CanStep()(w5, w6) && CanStep()(w6, w7) && CanStep()(w7, w8)
    ensures w8 == (if w5.status != Current then Written(w5, Pending) else w5).(worker := Sending(w5.worker.ctx))
  {
    var marked := if w5.status != Current then Written(w5, Pending) else w5;
    w6 := marked.(worker := Discovering(w5.worker.ctx));
    assert Steps(w5, MarkPending(true), w6);
    w7 := marked.(worker := Checking(w5.worker.ctx));
    assert Steps(w6, Discover(true), w7);
    w8 := marked.(worker := Sending(w5.worker.ctx));
    assert Steps(w7, Check, w8);
  }

  /** An accepted snapshot is reported, and the next sync is due 12 hours later. */
  lemma SnapshotReported(w8: World, t: Time) returns (w9: World, w10: World, w11: World, w12: World)
    requires w8.enabled && w8.worker.Sending?
    ensures CanStep()(w8, w9) && CanStep()(w9, w10) && CanStep()(w10, w11) && CanStep()(w11, w12)
    ensures w12 == Written(w8, Current).(running := false, cancel := None, worker := Waiting,
                                         nextAttempt := t + 43_200 * 1_000_000_000,
                                         cancelled := w8.cancelled + {w8.worker.ctx})
  {
    w9 := w8.(worker := Judging(w8.worker.ctx, true));
    assert Steps(w8, SendSnapshot(true), w9);
    w10 := w9.(worker := Finishing(w8.worker.ctx, Current));
    assert Steps(w9, Judge, w10);
    w11 := w10.(running := false, cancel := None, nextAttempt := t + 43_200 * 1_000_000_000,
                worker := Storing(w8.worker.ctx, Current));
    assert Steps(w10, Decide(t), w11);
    w12 := Written(w11, Current).(worker := Waiting, cancelled := w8.cancelled + {w8.worker.ctx});
    assert Steps(w11, Store(true), w12);
  }

  lemma SyncStarts(w: World, now: Time) returns (ws: seq<World>)
    requires w.heart == Idle && w.worker == Waiting && !w.running && now >= w.nextAttempt
    ensures |ws| == 6 && ws[0] == w && IsChain(CanStep(), ws)
    ensures ws[5].enabled && ws[5].worker == Marking(w.nextCtx) && ws[5].status == w.status
    ensures ws[5].trace == w.trace + [Consent(true)]
  {
    var w1, w2, w3 := Triggered(w, now);
    var w4, w5 := WorkerStarts(w3);
    ws := [w, w1, w2, w3, w4, w5];
  }

  lemma SyncSends(w: World, now: Time) returns (ws: seq<World>)
    requires w.heart == Idle && w.worker == Waiting && !w.running && now >= w.nextAttempt
    ensures |ws| == 9 && ws[0] == w && IsChain(CanStep(), ws)
    ensures ws[8].enabled && ws[8].worker == Sending(w.nextCtx)
    ensures ws[8].trace == w.trace + [Consent(true)] + if w.status == Current then [] else [Wrote(Pending)]
  {
    var front := SyncStarts(w, now);
    var w6, w7, w8 := SnapshotSent(front[5]);
    var back := [front[5], w6, w7, w8];
    ChainsJoin(CanStep(), front, back);
    ws := front + back[1..];
    assert front[5].trace + [] == front[5].trace;
  }

  /** A consented sync can always be carried through: from any world with an idle worker and none marked running,
      a heartbeat with consent, once the time has come, leads to a snapshot sent and reported as current. */
  lemma ConsentedSync(w: World, now: Time, t: Time) returns (ws: seq<World>)
    requires w.heart == Idle && w.worker == Waiting && !w.running && now >= w.nextAttempt
    ensures |ws| == 13 && ws[0] == w && IsChain(CanStep(), ws) && ws[8].worker == Sending(w.nextCtx)
    ensures ws[12].status == Current && ws[12].worker == Waiting && !ws[12].running
    ensures ws[12].nextAttempt == t + 43_200 * 1_000_000_000
    ensures ws[12].trace == w.trace + [Consent(true)] + (if w.status == Current then [] else [Wrote(Pending)])
                            + [Wrote(Current)]
  {
    var front := SyncSends(w, now);
    var w9, w10, w11, w12 := SnapshotReported(front[8], t);
    var back := [front[8], w9, w10, w11, w12];
    ChainsJoin(CanStep(), front, back);
    ws := front + back[1..];
  }

  /** Steps with consent kept and every heartbeat before `until`. */
  ghost function CanStepBefore(until: Time): (World, World) -> bool {
    (w: World, w': World) => exists s :: Steps(w, s, w') && (s.HeartbeatOk? ==> s.enabled && s.now < until)
  }

  /** No sync is under way or coming. */
  ghost function Rests(until: Time): World -> bool {
    (w: World) =>
      && w.enabled && !w.running && !TriggerComing(w) && w.nextAttempt == until
      && (w.worker == Waiting || w.worker.Storing?)
  }

  /** After a sync ended at `t` as current no other one starts before 12 hours have passed, and after an error
      none before 5 minutes have, while consent is kept and no trigger was left over from before. */
  lemma NextSyncWaits(w: World, t: Time, w': World, vs: seq<World>, k: nat)
    requires StatusOk(w) && w.enabled && w.worker.Finishing? && !TriggerComing(w) && Steps(w, Decide(t), w')
    requires vs != [] && vs[0] == w' && k < |vs|
    requires var until := t + (if w.worker.status == Current then 43_200 else 300) * 1_000_000_000;
             IsChain(CanStepBefore(until), vs)
    ensures vs[k].worker == Waiting || vs[k].worker.Storing?
    ensures !vs[k].running && !TriggerComing(vs[k])
  {
    var until := t + (if w.worker.status == Current then 43_200 else 300) * 1_000_000_000;
    forall v, v' | Rests(until)(v) && CanStepBefore(until)(v, v') ensures Rests(until)(v') {
      var s :| Steps(v, s, v') && (s.HeartbeatOk? ==> s.enabled && s.now < until);
    }
    HoldsAlong(CanStepBefore(until), Rests(until), vs, k);
  }

  /** Steps with consent kept, up to the end of the sync. */
  ghost function CanStepInSync(): (World, World) -> bool {
    (w: World, w': World) => exists s :: Steps(w, s, w') && (s.HeartbeatOk? ==> s.enabled) && !s.Decide?
  }

  /** This sync is under way, nothing has cancelled it and no other one is coming. */
  ghost function IsAlone(ctx: nat): World -> bool {
    (w: World) =>
      && w.enabled && w.running && !TriggerComing(w) && InSync(w) && !w.worker.Storing?
      && w.worker.ctx == ctx && w.cancel == Some(ctx) && ctx !in w.cancelled
  }

  /** While a sync is under way heartbeats with consent bring no second one, at whatever time they come. */
  lemma SyncIsAlone(w: World, w': World, vs: seq<World>, k: nat)
    requires ContextsOk(w) && w.enabled && w.running && !TriggerComing(w) && Steps(w, Start, w')
    requires vs != [] && vs[0] == w' && IsChain(CanStepInSync(), vs) && k < |vs|
    ensures !TriggerComing(vs[k]) && vs[k].running && vs[k].cancel == Some(w.worker.ctx)
  {
    var ctx := w.worker.ctx;
    forall v, v' | IsAlone(ctx)(v) && CanStepInSync()(v, v') ensures IsAlone(ctx)(v') {
      var s :| Steps(v, s, v') && (s.HeartbeatOk? ==> s.enabled) && !s.Decide?;
      AloneStep(ctx, v, s, v');
    }
    HoldsAlong(CanStepInSync(), IsAlone(ctx), vs, k);
  }

  lemma AloneStep(ctx: nat, v: World, s: Step, v': World)
    requires IsAlone(ctx)(v) && Steps(v, s, v') && (s.HeartbeatOk? ==> s.enabled) && !s.Decide?
    ensures IsAlone(ctx)(v')
  {
  }

  lemma IntoFinishing(w: World, s: Step, w': World)
    requires Steps(w, s, w') && w'.worker.Finishing? && w'.worker.status == Current && w.worker != w'.worker
    ensures w.worker == Judging(w'.worker.ctx, true)
  {
  }

  lemma IntoJudging(w: World, s: Step, w': World)
    requires Steps(w, s, w') && w'.worker.Judging? && w'.worker.ok && w.worker != w'.worker
    ensures w.worker == Sending(w'.worker.ctx)
  {
  }

  /** A sync reported as current sent its snapshot, and the backend took it. */
  lemma {:induction false} CurrentWasSent(ws: seq<World>, k: nat) returns (i: nat)
    requires IsRun(ws) && k < |ws|
    requires ws[k].worker.Finishing? && ws[k].worker.status == Current
    ensures i < k && ws[i].worker == Sending(ws[k].worker.ctx) && ws[i + 1].worker == Judging(ws[k].worker.ctx, true)
    decreases k
  {
    assert k > 0 && CanStep()(ws[k - 1], ws[k - 1 + 1]);
    if ws[k - 1].worker == ws[k].worker {
      i := CurrentWasSent(ws, k - 1);
    } else {
      var s :| Steps(ws[k - 1], s, ws[k]);
      IntoFinishing(ws[k - 1], s, ws[k]);
      i := JudgedWasSent(ws, k - 1);
    }
  }

  lemma {:induction false} JudgedWasSent(ws: seq<World>, k: nat) returns (i: nat)
    requires IsRun(ws) && k < |ws| && ws[k].worker.Judging? && ws[k].worker.ok
    ensures i < k && ws[i].worker == Sending(ws[k].worker.ctx) && ws[i + 1].worker == ws[k].worker
    decreases k
  {
    assert k > 0 && CanStep()(ws[k - 1], ws[k - 1 + 1]);
    if ws[k - 1].worker == ws[k].worker {
      i := JudgedWasSent(ws, k - 1);
    } else {
      var s :| Steps(ws[k - 1], s, ws[k]);
      IntoJudging(ws[k - 1], s, ws[k]);
      i := k - 1;
    }
  }

  // ---------- consent withdrawn ----------

  /** A continuation in which consent stays withdrawn. */
  ghost predicate IsWithheld(w: World, vs: seq<World>) {
    |vs| > 0 && vs[0] == w && IsChain(CanStep(), vs) && forall i :: 0 <= i < |vs| ==> !vs[i].enabled
  }

  /** Nothing under way can store "pending". */
  ghost function NoPending(): World -> bool {
    (w: World) =>
      !w.worker.Marking? && w.status != Pending
      && (w.worker.Storing? || w.worker.Finishing? ==> w.worker.status != Pending)
  }

  lemma {:induction false} NoPendingAlong(vs: seq<World>, i: nat)
    requires |vs| > 0 && IsWithheld(vs[0], vs) && NoPending()(vs[0]) && i < |vs|
    ensures NoPending()(vs[i])
    decreases i
  {
    if i > 0 {
      NoPendingAlong(vs, i - 1);
      assert CanStep()(vs[i - 1], vs[i]);
      var s :| Steps(vs[i - 1], s, vs[i]);
      NoPendingStep(vs[i - 1], s, vs[i]);
    }
  }

  lemma NoPendingStep(w: World, s: Step, w': World)
    requires NoPending()(w) && !w.enabled && Steps(w, s, w')
    ensures NoPending()(w')
  {
  }

  /** Exactly when: after a revocation's "disabled" write, "pending" can still be stored without new consent if
      and only if the worker stands between its consent check and its "pending" write. */
  lemma LatePendingIff(ws: seq<World>, k: nat)
    requires IsRun(ws) && k < |ws| && !ws[k].enabled && ws[k].status == Disabled
    ensures (exists vs: seq<World> :: IsWithheld(ws[k], vs) && vs[|vs| - 1].status == Pending) <==>
              ws[k].worker.Marking?
  {
    var w := ws[k];
    InvAlong(ws, k);
    if w.worker.Marking? {
      var w' := Written(w, Pending).(worker := Discovering(w.worker.ctx));
      assert Steps(w, MarkPending(true), w');
      assert IsWithheld(w, [w, w']) && [w, w'][1].status == Pending;
    } else if vs: seq<World> :| IsWithheld(w, vs) && vs[|vs| - 1].status == Pending {
      NoPendingAlong(vs, |vs| - 1);
    }
  }

  /** While consent stays withdrawn no sync begins to send: at most the one that is sending goes on. */
  lemma {:induction false} NoSendWithheld(w: World, vs: seq<World>, i: nat)
    requires IsWithheld(w, vs) && !w.worker.Sending? && i < |vs|
    ensures !vs[i].worker.Sending?
    decreases i
  {
    if i > 0 {
      NoSendWithheld(w, vs, i - 1);
      assert CanStep()(vs[i - 1], vs[i - 1 + 1]);
    }
  }
}
