/** The log pipeline and the upload of its events together: an insert of a handler is an enqueue of the
    queue, and every other step of either side comes between. */
module Pipeline {
  import opened Seqs
  import opened Api
  import opened Usages
  import opened EventQueue
  import Daemon
  import NoiseFilter
  import UploadProtocol

  datatype World = World(daemon: Daemon.World, upload: UploadProtocol.World)

  datatype Step =
    | Handle(d: Daemon.Step)             // any step of a handler but the insert of a batch
    | Upload(u: UploadProtocol.Step)     // any step of the queue and the uploader but an enqueue
    | Insert(h: nat, eventIds: seq<nat>, now: Time, env: nat -> Round)

  /** The enqueue that a handler's insert is. */
  ghost function EnqueueOf(w: World, s: Step): UploadProtocol.Step
    requires s.Insert? && s.h in w.daemon.handlers && w.daemon.handlers[s.h].Ready?
  {
    UploadProtocol.Enqueue(w.daemon.handlers[s.h].batch, s.eventIds, s.now, s.env)
  }

  ghost predicate Enabled(w: World, s: Step) {
    match s
    case Handle(d) => Daemon.Enabled(w.daemon, d) && (d.Enqueue? ==> w.daemon.handlers[d.h].batch == [])
    case Upload(u) => UploadProtocol.Enabled(w.upload, u) && !u.Enqueue?
    case Insert(h, _, _, _) =>
      Daemon.Enabled(w.daemon, Daemon.Enqueue(h)) && UploadProtocol.Enabled(w.upload, EnqueueOf(w, s))
  }

  ghost function Next(caps: Caps, w: World, s: Step): World
    requires Enabled(w, s)
  {
    match s
    case Handle(d) => w.(daemon := Daemon.Next(w.daemon, d))
    case Upload(u) => w.(upload := UploadProtocol.Next(caps, w.upload, u))
    case Insert(h, _, _, _) =>
      World(Daemon.Next(w.daemon, Daemon.Enqueue(h)), UploadProtocol.Next(caps, w.upload, EnqueueOf(w, s)))
  }

  ghost function CanStep(caps: Caps): (World, Step, World) -> bool {
    (w: World, s: Step, w': World) => Enabled(w, s) && w' == Next(caps, w, s)
  }

  ghost predicate IsRun(caps: Caps, ws: seq<World>, steps: seq<Step>) {
    && |ws| == |steps| + 1
    && Daemon.IsStart(ws[0].daemon) && ws[0].upload == UploadProtocol.Start()
    && forall i :: 0 <= i < |steps| ==> CanStep(caps)(ws[i], steps[i], ws[i + 1])
  }

  ghost predicate KeepsARow(caps: Caps, w: World, s: Step) {
    s.Insert? && Enabled(w, s) ==> UploadProtocol.KeepsARow(caps, w.upload, EnqueueOf(w, s))
  }

  /** No eviction empties the table under a batch in flight. */
  ghost predicate NeverEmptiedInFlight(caps: Caps, ws: seq<World>, steps: seq<Step>)
    requires |ws| == |steps| + 1
  {
    forall i :: 0 <= i < |steps| ==> KeepsARow(caps, ws[i], steps[i])
  }

  // ---------- the amount that enqueued events carry ----------

  function Amounts(m: Daemon.Measure, born: map<nat, NormalizedEvent>): map<nat, real> {
    map e | e in born :: m.amount([born[e]])
  }

  ghost function BornSum(m: Daemon.Measure, born: map<nat, NormalizedEvent>): real { Daemon.Sum(Amounts(m, born)) }

  function Among(born: map<nat, NormalizedEvent>, ids: set<nat>): map<nat, NormalizedEvent> {
    map e | e in born && e in ids :: born[e]
  }

  function EventsOf(log: seq<WireEvent>): (r: seq<NormalizedEvent>)
    ensures |r| == |log| && forall i :: 0 <= i < |log| ==> r[i] == log[i].event
  {
    seq(|log|, i requires 0 <= i < |log| => log[i].event)
  }

  lemma BornTakes(m: Daemon.Measure, born: map<nat, NormalizedEvent>, e: nat)
    requires e in born
    ensures BornSum(m, born) == m.amount([born[e]]) + BornSum(m, born - {e})
  {
    Daemon.SumTakes(Amounts(m, born), e);
    assert Amounts(m, born) - {e} == Amounts(m, born - {e});
  }

  lemma NoneBorn(m: Daemon.Measure)
    ensures BornSum(m, map[]) == 0.0
  {
    assert Amounts(m, map[]) == map[];
  }

  /** The events of one enqueue add what they carry. */
  lemma {:induction false} RegisterAdds(m: Daemon.Measure, born: map<nat, NormalizedEvent>, ids: seq<nat>,
                                        events: seq<NormalizedEvent>)
    requires Daemon.Fair(m) && |ids| == |events| && Distinct(ids) && forall e :: e in ids ==> e !in born
    ensures BornSum(m, UploadProtocol.Register(born, ids, events)) == BornSum(m, born) + m.amount(events)
  {
    if ids == [] {
      assert events == [];
    } else {
      DistinctTail(ids);
      UploadProtocol.RegisterKeys(born, ids[1..], events[1..]);
      RegisterAdds(m, born, ids[1..], events[1..]);
      var rest := UploadProtocol.Register(born, ids[1..], events[1..]);
      BornTakes(m, rest[ids[0] := events[0]], ids[0]);
      assert rest[ids[0] := events[0]] - {ids[0]} == rest;
      assert events == [events[0]] + events[1..];
      Daemon.ConcatAmount(m, [events[0]], events[1..]);
    }
  }

  lemma DistinctTail(ids: seq<nat>)
    requires ids != [] && Distinct(ids)
    ensures Distinct(ids[1..]) && ids[0] !in ids[1..]
  {
    forall i, j | 0 <= i < j < |ids[1..]| ensures ids[1..][i] != ids[1..][j] {
      assert ids[i + 1] != ids[j + 1];
    }
  }

  /** What some of the events carry and what the others do is what all do. */
  lemma {:induction false} BornSplits(m: Daemon.Measure, born: map<nat, NormalizedEvent>, ids: set<nat>)
    ensures BornSum(m, born) == BornSum(m, Among(born, ids)) + BornSum(m, born - ids)
    decreases born
  {
    if born == map[] {
      assert Among(born, ids) == map[] && born - ids == map[];
      NoneBorn(m);
    } else {
      var e :| e in born;
      BornSplits(m, born - {e}, ids);
      BornTakes(m, born, e);
      if e in ids {
        BornTakes(m, Among(born, ids), e);
        assert Among(born, ids) - {e} == Among(born - {e}, ids) && born - {e} - ids == born - ids;
      } else {
        BornTakes(m, born - ids, e);
        assert Among(born, ids) == Among(born - {e}, ids) && born - ids - {e} == born - {e} - ids;
      }
    }
  }

  /** The backend's record carries what its events carried when they were enqueued. */
  lemma {:induction false} LogSum(m: Daemon.Measure, born: map<nat, NormalizedEvent>, log: seq<WireEvent>)
    requires Daemon.Fair(m) && UploadProtocol.RecordedOnce(log) && UploadProtocol.WiresBorn(born, log)
    ensures m.amount(EventsOf(log)) == BornSum(m, Among(born, UploadProtocol.IdsIn(log)))
  {
    if log == [] {
      assert EventsOf(log) == [] && Among(born, UploadProtocol.IdsIn(log)) == map[];
      NoneBorn(m);
    } else {
      var n := |log| - 1;
      var front, last := log[..n], log[n];
      assert log == front + [last];
      LogSum(m, born, front);
      assert EventsOf(log) == EventsOf(front) + [last.event];
      Daemon.ConcatAmount(m, EventsOf(front), [last.event]);
      LastIsNew(born, log);
      BornTakes(m, Among(born, UploadProtocol.IdsIn(log)), last.eventId);
    }
  }

  lemma LastIsNew(born: map<nat, NormalizedEvent>, log: seq<WireEvent>)
    requires log != [] && UploadProtocol.RecordedOnce(log) && UploadProtocol.WiresBorn(born, log)
    ensures var last := log[|log| - 1];
            var all := Among(born, UploadProtocol.IdsIn(log));
            && last.eventId in all && all[last.eventId] == last.event
            && all - {last.eventId} == Among(born, UploadProtocol.IdsIn(log[..|log| - 1]))
  {
    var n := |log| - 1;
    assert log == log[..n] + [log[n]];
    assert UploadProtocol.IdsIn(log) == UploadProtocol.IdsIn(log[..n]) + {log[n].eventId};
    assert log[n] in log;
    assert log[n].eventId !in UploadProtocol.IdsIn(log[..n]);
  }

  // ---------- the joint invariant ----------

  ghost function Accounts(): UploadProtocol.World -> bool { (u: UploadProtocol.World) => UploadProtocol.Accounted(u) }

  /** The queue got what the handlers enqueued. */
  ghost function GotAll(m: Daemon.Measure): (map<nat, NormalizedEvent>, seq<NormalizedEvent>) -> bool {
    (born: map<nat, NormalizedEvent>, enqueued: seq<NormalizedEvent>) => BornSum(m, born) == m.amount(enqueued)
  }

  /** Both sides' own accounts, and the link between them. */
  ghost function Joined(c: Daemon.Counter, key: Option<string>): World -> bool {
    (w: World) =>
      && Daemon.BalancedIn(c, key)(w.daemon)
      && Accounts()(w.upload)
      && GotAll(Daemon.Counted(c, key))(w.upload.born, w.daemon.enqueued)
  }

  lemma HandleBalances(c: Daemon.Counter, key: Option<string>, w: Daemon.World, d: Daemon.Step)
    requires Daemon.BalancedIn(c, key)(w) && Daemon.Enabled(w, d)
    ensures Daemon.BalancedIn(c, key)(Daemon.Next(w, d))
  {
    assert Daemon.Steps(w, d, Daemon.Next(w, d));
    Daemon.StepStays(c, key, w, Daemon.Next(w, d));
  }

  lemma UploadAccounts(caps: Caps, w: UploadProtocol.World, u: UploadProtocol.Step)
    requires Accounts()(w) && UploadProtocol.Enabled(w, u)
    ensures Accounts()(UploadProtocol.Next(caps, w, u))
  {
    UploadProtocol.StepKeepsAccount(caps, w, u);
  }

  lemma EnqueueAdds(c: Daemon.Counter, key: Option<string>, born: map<nat, NormalizedEvent>,
                    enqueued: seq<NormalizedEvent>,
                    ids: seq<nat>, batch: seq<NormalizedEvent>)
    requires GotAll(Daemon.Counted(c, key))(born, enqueued)
    requires |ids| == |batch| && Distinct(ids) && forall e :: e in ids ==> e !in born
    ensures GotAll(Daemon.Counted(c, key))(UploadProtocol.Register(born, ids, batch), enqueued + batch)
  {
    Daemon.CountedIsFair(c, key);
    RegisterAdds(Daemon.Counted(c, key), born, ids, batch);
    Daemon.ConcatAmount(Daemon.Counted(c, key), enqueued, batch);
  }

  /** What a step adds on either side. */
  lemma StepAdds(caps: Caps, w: World, s: Step)
    requires Enabled(w, s)
    ensures s.Handle? ==> Daemon.Next(w.daemon, s.d).enqueued == w.daemon.enqueued
    ensures s.Upload? ==> UploadProtocol.Next(caps, w.upload, s.u).born == w.upload.born
    ensures s.Insert? ==>
              var batch := w.daemon.handlers[s.h].batch;
              && |s.eventIds| == |batch| && Distinct(s.eventIds)
              && (forall e :: e in s.eventIds ==> e !in w.upload.born)
              && Daemon.Next(w.daemon, Daemon.Enqueue(s.h)).enqueued == w.daemon.enqueued + batch
              && UploadProtocol.Next(caps, w.upload, EnqueueOf(w, s)).born ==
                   UploadProtocol.Register(w.upload.born, s.eventIds, batch)
  {
    if s.Handle? && s.d.Enqueue? {
      assert w.daemon.enqueued + [] == w.daemon.enqueued;
    }
  }

  lemma StepJoins(caps: Caps, c: Daemon.Counter, key: Option<string>, w: World, s: Step, w': World)
    requires Joined(c, key)(w) && CanStep(caps)(w, s, w')
    ensures Joined(c, key)(w')
  {
    StepAdds(caps, w, s);
    match s
    case Handle(d) => HandleBalances(c, key, w.daemon, d);
    case Upload(u) => UploadAccounts(caps, w.upload, u);
    case Insert(h, ids, _, _) =>
      HandleBalances(c, key, w.daemon, Daemon.Enqueue(h));
      UploadAccounts(caps, w.upload, EnqueueOf(w, s));
      EnqueueAdds(c, key, w.upload.born, w.daemon.enqueued, ids, w.daemon.handlers[h].batch);
  }

  lemma StepKeepsSafety(caps: Caps, w: World, s: Step)
    requires UploadProtocol.Inv(w.upload) && Enabled(w, s) && KeepsARow(caps, w, s)
    ensures UploadProtocol.Inv(Next(caps, w, s).upload)
  {
    match s
    case Handle(_) =>
    case Upload(u) => UploadProtocol.StepKeepsInv(caps, w.upload, u);
    case Insert(_, _, _, _) => UploadProtocol.StepKeepsInv(caps, w.upload, EnqueueOf(w, s));
  }

  lemma StartJoins(c: Daemon.Counter, key: Option<string>, w: World)
    requires Daemon.IsStart(w.daemon) && w.upload == UploadProtocol.Start()
    ensures Joined(c, key)(w)
  {
    Daemon.StartBalances(c, key, w.daemon);
    NothingAccounts();
    NothingGot(c, key);
  }

  lemma NothingAccounts()
    ensures Accounts()(UploadProtocol.Start())
  {
    var u := UploadProtocol.Start();
    assert u.rows == [] && u.log == [] && u.net == {};
  }

  lemma NothingGot(c: Daemon.Counter, key: Option<string>)
    ensures GotAll(Daemon.Counted(c, key))(map[], [])
  {
    NoneBorn(Daemon.Counted(c, key));
    Daemon.CountedIsFair(c, key);
  }

  lemma {:induction false} RunJoins(caps: Caps, c: Daemon.Counter, key: Option<string>, ws: seq<World>,
                                    steps: seq<Step>, k: nat)
    requires IsRun(caps, ws, steps) && k < |ws|
    ensures Joined(c, key)(ws[k])
  {
    if k == 0 {
      StartJoins(c, key, ws[0]);
    } else {
      RunJoins(caps, c, key, ws, steps, k - 1);
      StepJoins(caps, c, key, ws[k - 1], steps[k - 1], ws[k]);
    }
  }

  lemma {:induction false} RunKeepsSafety(caps: Caps, ws: seq<World>, steps: seq<Step>, k: nat)
    requires IsRun(caps, ws, steps) && NeverEmptiedInFlight(caps, ws, steps) && k < |ws|
    ensures UploadProtocol.Inv(ws[k].upload)
  {
    if k > 0 {
      RunKeepsSafety(caps, ws, steps, k - 1);
      assert CanStep(caps)(ws[k - 1], steps[k - 1], ws[k]);
      StepKeepsSafety(caps, ws[k - 1], steps[k - 1]);
    }
  }

  // ---------- from the filter to the backend ----------

  /** Enqueued events that the backend has not recorded. */
  function Unrecorded(u: UploadProtocol.World): map<nat, NormalizedEvent> { u.born - UploadProtocol.IdsIn(u.log) }

  /** ... and that still wait in the queue. */
  function Waiting(u: UploadProtocol.World): map<nat, NormalizedEvent> {
    Among(Unrecorded(u), UploadProtocol.UnackedEventIds(u.rows))
  }

  /** ... and that no longer do. */
  function Gone(u: UploadProtocol.World): map<nat, NormalizedEvent> {
    Unrecorded(u) - UploadProtocol.UnackedEventIds(u.rows)
  }

  /** What went through the filter is recorded by the backend, waits in the queue, is gone from it, was lost by a
      failed insert, waits in the buckets, or is in a handler's hands. */
  ghost predicate Delivered(m: Daemon.Measure, w: World) {
    m.amount(EventsOf(w.upload.log)) + BornSum(m, Waiting(w.upload)) + BornSum(m, Gone(w.upload))
    + m.amount(w.daemon.lost)
    + m.held(w.daemon.pending) + Daemon.HandSum(Daemon.HandAmount(m), w.daemon.handlers) == m.amount(w.daemon.applied)
  }

  lemma JoinedDelivers(c: Daemon.Counter, key: Option<string>, w: World)
    requires Joined(c, key)(w)
    ensures Delivered(Daemon.Counted(c, key), w)
  {
    var m, u := Daemon.Counted(c, key), w.upload;
    Daemon.CountedIsFair(c, key);
    BornDivides(m, u);
    assert Daemon.Conserved(m, w.daemon);
  }

  lemma BornDivides(m: Daemon.Measure, u: UploadProtocol.World)
    requires Daemon.Fair(m) && Accounts()(u)
    ensures BornSum(m, u.born) == m.amount(EventsOf(u.log)) + BornSum(m, Waiting(u)) + BornSum(m, Gone(u))
  {
    LogSum(m, u.born, u.log);
    BornSplits(m, u.born, UploadProtocol.IdsIn(u.log));
    BornSplits(m, Unrecorded(u), UploadProtocol.UnackedEventIds(u.rows));
  }

  /** At every point of every joint run, counter by counter, in total and per model key: the backend's record, the
      queue, the evictions, the failed inserts, the buckets and the handlers account for everything that went
      through the filter, once. As long as no eviction empties the table under a batch in flight, what is neither
      recorded nor queued was evicted un-acked. */
  lemma UsageReachesBackend(caps: Caps, ws: seq<World>, steps: seq<Step>, c: Daemon.Counter, key: Option<string>,
                            k: nat)
    requires IsRun(caps, ws, steps) && k < |ws|
    ensures Delivered(Daemon.Counted(c, key), ws[k])
    ensures NeverEmptiedInFlight(caps, ws, steps) ==> Gone(ws[k].upload).Keys <= ws[k].upload.lost
  {
    RunJoins(caps, c, key, ws, steps, k);
    JoinedDelivers(c, key, ws[k]);
    if NeverEmptiedInFlight(caps, ws, steps) {
      RunKeepsSafety(caps, ws, steps, k);
    }
  }

  /** Nothing failed, was evicted or is still on its way. */
  ghost predicate IsSettled(w: World) {
    && w.daemon.handlers == map[] && w.daemon.lost == []
    && UploadProtocol.UnackedEventIds(w.upload.rows) == {} && w.upload.lost == {}
  }

  /** Then the backend has everything that went through the filter, except what waits in the buckets. */
  lemma SettledIsDelivered(caps: Caps, ws: seq<World>, steps: seq<Step>, k: nat)
    requires IsRun(caps, ws, steps) && NeverEmptiedInFlight(caps, ws, steps) && k < |ws| && IsSettled(ws[k])
    ensures Add(Total(EventsOf(ws[k].upload.log)), NoiseFilter.PendingTotal(ws[k].daemon.pending)) ==
              Total(ws[k].daemon.applied)
  {
    var w := ws[k];
    var a, b, t := Total(EventsOf(w.upload.log)), NoiseFilter.PendingTotal(w.daemon.pending), Total(w.daemon.applied);
    forall c: Daemon.Counter ensures Daemon.Pick(c, Add(a, b)) == Daemon.Pick(c, t) {
      UsageReachesBackend(caps, ws, steps, c, None, k);
      SettledCounter(c, w);
      Daemon.PickAdds(c, a, b);
    }
    Daemon.SameCounters(Add(a, b), t);
  }

  lemma SettledCounter(c: Daemon.Counter, w: World)
    requires Delivered(Daemon.Counted(c, None), w) && IsSettled(w) && Gone(w.upload).Keys <= w.upload.lost
    ensures Daemon.Pick(c, Total(EventsOf(w.upload.log)))
            + Daemon.Pick(c, NoiseFilter.PendingTotal(w.daemon.pending)) ==
            Daemon.Pick(c, Total(w.daemon.applied))
  {
    var m := Daemon.Counted(c, None);
    NothingLeft(w.upload);
    NoneBorn(m);
    Daemon.EmptyHands(m);
    NothingCounts(c);
  }

  lemma NothingLeft(u: UploadProtocol.World)
    requires UploadProtocol.UnackedEventIds(u.rows) == {} && u.lost == {} && Gone(u).Keys <= u.lost
    ensures Waiting(u) == map[] && Gone(u) == map[]
  {
    assert Gone(u).Keys == {};
  }

  lemma NothingCounts(c: Daemon.Counter)
    ensures Daemon.Counted(c, None).amount([]) == 0.0
  {
  }
}
