/** The uploader of internal/uploader/uploader.go and rotation.go: Active/Degraded, key rotation and the
    flush loops, with every call to the backend recorded in order. */
module Uploader {
  import opened Seqs
  import opened Api
  import opened ConfigFile
  import EventQueue
  import UploadProtocol

  const LEASE: Time := 120 * SECOND
  const MAX_BACKOFF: Time := 300 * SECOND
  const DEGRADED_PROBE: Time := 300 * SECOND
  const ROTATION_LEAD: Time := 7 * DAY

  datatype Mode = Active | Degraded

  datatype Kind = Events | Metrics | Sessions

  /** What the backend was asked, and the moments the uploader changed its mind or its stored key. A
      rotation started by the periodic check carries the clock reading that let it through. */
  datatype Event =
    | Boot
    | Beat(key: string, accepted: bool)
    | Send(kind: Kind, accepted: bool)
    | Rotate(gate: Option<Time>, done: Time)
    | Degrade
    | Promote(key: string)

  // ---------- properties of a history ----------

  predicate IsAcceptedBeat(e: Event) { e.Beat? && e.accepted }

  /** What ends the silence: an accepted heartbeat, or a new process, which starts active whatever was stored. */
  predicate Frees(e: Event) { e.Boot? || IsAcceptedBeat(e) }

  ghost predicate FreedWithin(trace: seq<Event>, i: int, j: int) {
    exists k :: 0 <= k < |trace| && i < k < j && Frees(trace[k])
  }

  /** Within one process nothing is sent between degrading and the next accepted heartbeat. */
  ghost predicate Silent(trace: seq<Event>) {
    forall i, j :: 0 <= i < j < |trace| && trace[i].Degrade? && trace[j].Send? ==> FreedWithin(trace, i, j)
  }

  /** Every degradation has been followed by an accepted heartbeat or a new process. */
  ghost predicate Recovered(trace: seq<Event>) {
    forall i :: 0 <= i < |trace| && trace[i].Degrade? ==> FreedWithin(trace, i, |trace|)
  }

  /** The history goes on without a send. */
  ghost function Quiet(before: seq<Event>): seq<Event> -> bool {
    (after: seq<Event>) => before <= after && forall k :: |before| <= k < |after| ==> !after[k].Send?
  }

  /** The history goes on, and its sends are of one kind. */
  ghost function Sending(kind: Kind, before: seq<Event>): seq<Event> -> bool {
    (after: seq<Event>) =>
      before <= after && forall k :: |before| <= k < |after| && after[k].Send? ==> after[k].kind == kind
  }

  function Sends(kind: Kind, n: nat): (r: seq<Event>)
    ensures |r| == n && forall i :: 0 <= i < n ==> r[i] == Send(kind, true)
  {
    seq(n, _ => Send(kind, true))
  }

  lemma QuietAppend(a: seq<Event>, more: seq<Event>)
    requires forall i :: 0 <= i < |more| ==> !more[i].Send?
    ensures Quiet(a)(a + more)
  {
  }

  /** A heartbeat, and perhaps the promotion of its key. */
  lemma QuietBeat(a: seq<Event>, key: string, ok: bool, promoted: bool, k: string)
    ensures Quiet(a)(a + [Beat(key, ok)] + if promoted then [Promote(k)] else [])
  {
  }

  lemma QuietThen(a: seq<Event>, b: seq<Event>, c: seq<Event>)
    requires Quiet(a)(b) && Quiet(b)(c)
    ensures Quiet(a)(c)
  {
  }

  lemma SendingGrows(kind: Kind, before: seq<Event>, after: seq<Event>)
    ensures Sending(kind, before)(after) ==> before <= after
  {
  }

  lemma QuietSends(kind: Kind, a: seq<Event>, b: seq<Event>)
    requires Quiet(a)(b)
    ensures Sending(kind, a)(b)
  {
  }

  lemma SendingOne(kind: Kind, a: seq<Event>, ok: bool)
    ensures Sending(kind, a)(a + [Send(kind, ok)])
  {
  }

  lemma SendingMany(kind: Kind, a: seq<Event>, n: nat)
    ensures Sending(kind, a)(a + Sends(kind, n))
  {
  }

  lemma SendingThen(kind: Kind, a: seq<Event>, b: seq<Event>, c: seq<Event>)
    requires Sending(kind, a)(b) && Sending(kind, b)(c)
    ensures Sending(kind, a)(c)
  {
    forall k | |a| <= k < |c| && c[k].Send? ensures c[k].kind == kind {
      assert k < |b| ==> c[k] == b[k];
    }
  }

  /** What the metrics and then the session flush add. */
  ghost function OthersSend(before: seq<Event>): seq<Event> -> bool {
    (after: seq<Event>) =>
      exists measured: seq<Event> :: Sending(Metrics, before)(measured) && Sending(Sessions, measured)(after)
  }

  /** Events were sent from position `i` on. */
  ghost predicate SentEvents(trace: seq<Event>, i: int) {
    exists k :: 0 <= i <= k < |trace| && trace[k].Send? && trace[k].kind == Events
  }

  /** Events were sent from position `i` on, with no accepted heartbeat since `i`. */
  ghost predicate SentUnprobed(trace: seq<Event>, i: int) {
    exists k :: 0 <= i <= k < |trace| && trace[k].Send? && trace[k].kind == Events
                && forall n :: i <= n < k ==> !IsAcceptedBeat(trace[n])
  }

  /** Nothing happens, or a checked rotation. */
  ghost function PerhapsRotates(before: seq<Event>): seq<Event> -> bool {
    (after: seq<Event>) => after == before || exists at, done :: after == before + [Rotate(Some(at), done)]
  }

  /** The stored key changes only to one that a heartbeat has just accepted. */
  ghost predicate PromotesVerified(trace: seq<Event>) {
    forall i :: 0 <= i < |trace| && trace[i].Promote? ==> i > 0 && trace[i - 1] == Beat(trace[i].key, true)
  }

  /** A checked rotation comes at least a day, less the truncated second, after any earlier one. */
  ghost predicate OnceADay(trace: seq<Event>) {
    forall i, j :: 0 <= i < j < |trace| && trace[i].Rotate? && trace[j].Rotate? && trace[j].gate.Some? ==>
      trace[j].gate.value - trace[i].done > DAY - SECOND
  }

  /** Rotations are over before `t`. */
  ghost predicate DoneBy(trace: seq<Event>, t: Time) {
    forall i :: 0 <= i < |trace| && trace[i].Rotate? ==> trace[i].done <= t
  }

  /** The stored stamp is that of the last rotation, cut to whole seconds. */
  ghost predicate Stamped(trace: seq<Event>, stamp: TimeText) {
    forall i :: 0 <= i < |trace| && trace[i].Rotate? ==> stamp.At? && trace[i].done < stamp.nanos + SECOND
  }

  lemma FreedWithinGrows(trace: seq<Event>, e: Event, i: int, j: int, j': int)
    requires FreedWithin(trace, i, j) && j <= j' && j <= |trace|
    ensures FreedWithin(trace + [e], i, j')
  {
    var k :| 0 <= k < |trace| && i < k < j && Frees(trace[k]);
    assert (trace + [e])[k] == trace[k];
  }

  lemma SilentGrows(trace: seq<Event>, e: Event)
    requires Silent(trace) && (e.Send? ==> Recovered(trace))
    ensures Silent(trace + [e])
  {
    var t := trace + [e];
    forall i, j | 0 <= i < j < |t| && t[i].Degrade? && t[j].Send? ensures FreedWithin(t, i, j) {
      assert t[i] == trace[i];
      if j < |trace| {
        assert t[j] == trace[j];
        FreedWithinGrows(trace, e, i, j, j);
      } else {
        FreedWithinGrows(trace, e, i, |trace|, j);
      }
    }
  }

  lemma RecoveredGrows(trace: seq<Event>, e: Event)
    requires (Recovered(trace) && !e.Degrade?) || Frees(e)
    ensures Recovered(trace + [e])
  {
    var t := trace + [e];
    forall i | 0 <= i < |t| && t[i].Degrade? ensures FreedWithin(t, i, |t|) {
      assert t[i] == trace[i];
      if Frees(e) {
        assert t[|trace|] == e;
      } else {
        FreedWithinGrows(trace, e, i, |trace|, |t|);
      }
    }
  }

  lemma PromotesGrow(trace: seq<Event>, e: Event)
    requires PromotesVerified(trace) && (e.Promote? ==> trace != [] && trace[|trace| - 1] == Beat(e.key, true))
    ensures PromotesVerified(trace + [e])
  {
    var t := trace + [e];
    forall i | 0 <= i < |t| && t[i].Promote? ensures i > 0 && t[i - 1] == Beat(t[i].key, true) {
      if i < |trace| {
        assert t[i] == trace[i];
      }
    }
  }

  /** A rotation that passed the stored stamp's gate is a day after every earlier one. */
  lemma OnceADayGrows(trace: seq<Event>, e: Event, stamp: TimeText)
    requires OnceADay(trace)
    requires e.Rotate? && e.gate.Some? ==> Stamped(trace, stamp) && (stamp.At? ==> e.gate.value - stamp.nanos >= DAY)
    ensures OnceADay(trace + [e])
  {
    var t := trace + [e];
    forall i, j | 0 <= i < j < |t| && t[i].Rotate? && t[j].Rotate? && t[j].gate.Some?
      ensures t[j].gate.value - t[i].done > DAY - SECOND {
      assert t[i] == trace[i];
      if j < |trace| {
        assert t[j] == trace[j];
      }
    }
  }

  lemma DoneByGrows(trace: seq<Event>, e: Event, t: Time, t': Time)
    requires DoneBy(trace, t) && t <= t' && (e.Rotate? ==> e.done <= t')
    ensures DoneBy(trace + [e], t')
  {
    forall i | 0 <= i < |trace + [e]| && (trace + [e])[i].Rotate? ensures (trace + [e])[i].done <= t' {
      if i < |trace| {
        assert (trace + [e])[i] == trace[i];
      }
    }
  }

  /** The whole second of an instant. */
  function CutToSecond(t: Time): (r: Time)
    ensures r <= t < r + SECOND
  {
    t / SECOND * SECOND
  }

  lemma StampedGrows(trace: seq<Event>, e: Event, stamp: TimeText)
    requires if e.Rotate? then DoneBy(trace, e.done) && stamp == At(CutToSecond(e.done)) else Stamped(trace, stamp)
    ensures Stamped(trace + [e], stamp)
  {
    forall i | 0 <= i < |trace + [e]| && (trace + [e])[i].Rotate?
      ensures stamp.At? && (trace + [e])[i].done < stamp.nanos + SECOND {
      if i < |trace| {
        assert (trace + [e])[i] == trace[i];
      }
    }
  }

  /** The key stored after a history that began with `key`. */
  function StoredKey(key: string, trace: seq<Event>): string {
    if trace == [] then key
    else if trace[|trace| - 1].Promote? then trace[|trace| - 1].key
    else StoredKey(key, trace[..|trace| - 1])
  }

  lemma StoredKeyGrows(key: string, trace: seq<Event>, e: Event)
    ensures StoredKey(key, trace + [e]) == if e.Promote? then e.key else StoredKey(key, trace)
  {
    assert (trace + [e])[..|trace|] == trace;
  }

  // ---------- backoff ----------

  /** widenBackoff: start at the flush interval, double, cap. */
  function Widened(backoff: Time, base: Time): Time {
    var doubled := (if backoff == 0 then base else backoff) * 2;
    if doubled > MAX_BACKOFF then MAX_BACKOFF else doubled
  }

  function WidenedTimes(base: Time, n: nat): Time {
    if n == 0 then 0 else Widened(WidenedTimes(base, n - 1), base)
  }

  function Pow2(n: nat): (r: nat)
    ensures r >= 1
  {
    if n == 0 then 1 else 2 * Pow2(n - 1)
  }

  lemma ScaledUp(base: Time, p: nat)
    requires base > 0 && p >= 1
    ensures base * (2 * p) == 2 * (base * p) && base * p >= base
  {
  }

  /** From zero, n failures in a row wait base * 2^n, at most five minutes. */
  lemma {:induction false} WidenedClosedForm(base: Time, n: nat)
    requires base > 0 && n > 0
    ensures WidenedTimes(base, n) == Min(base * Pow2(n), 300 * 1_000_000_000)
  {
    if n == 1 {
      assert WidenedTimes(base, 0) == 0;
      assert Pow2(1) == 2 * Pow2(0);
    } else {
      WidenedClosedForm(base, n - 1);
      ScaledUp(base, Pow2(n - 1));
    }
  }

  // ---------- the uploader ----------

  datatype Issued = Issued(key: string, id: int, expires: TimeText, oldValidUntil: TimeText)

  /** How a call to the backend ends. A lost reply reads as unreachable. */
  datatype Answer =
    | Accepted(policy: Policy, keyExpiresAt: Option<TimeText>, issued: Issued)
    | Unauthorized(code: Code)
    | Conflict
    | Unreachable

  /** One pass of the flush loop: the queue's clock and how its operations go. */
  datatype FlushRound = FlushRound(now: Time, leaseOk: bool, ackAt: Time, ackOk: bool, nackOk: bool)

  datatype FlushEnd = Paused | LeaseFailed | SendFailed | Drained

  /** What leasing one of the other two queues yields. */
  datatype Lease = LeaseError | LeaseEmpty | LeaseBatch

  /** What the queues do during one cycle. */
  datatype Cycle = Cycle(rounds: nat -> FlushRound, metrics: seq<Lease>, sessions: seq<Lease>)

  /** The lease at `i` is of this kind, or the queue is empty by then. */
  predicate IsLease(leases: seq<Lease>, i: nat, lease: Lease) { i >= |leases| || leases[i] == lease }

  ghost predicate AllAccepted(leases: seq<Lease>, api: nat -> Answer, first: nat, n: nat)
    requires n <= |leases|
  {
    forall i :: 0 <= i < n ==> leases[i] == LeaseBatch && api(first + i).Accepted?
  }

  /** So far the leases were batches that the backend accepted, in calls from `first` on. */
  ghost function OthersGoOut(kind: Kind, leases: seq<Lease>, api: nat -> Answer, first: nat, before: seq<Event>)
    : (nat, seq<Event>) -> bool
  {
    (n: nat, after: seq<Event>) =>
      n <= |leases| && after == before + Sends(kind, n) && AllAccepted(leases, api, first, n)
  }

  /** How the flush of another queue ends: at its lease `last`, after that many accepted batches. */
  ghost function OtherEnds(kind: Kind, leases: seq<Lease>, api: nat -> Answer, first: nat, before: seq<Event>)
    : (FlushEnd, nat, seq<Event>) -> bool
  {
    (end: FlushEnd, last: nat, after: seq<Event>) =>
      var out := OthersGoOut(kind, leases, api, first, before);
      match end
      case Paused => after == before
      case Drained => IsLease(leases, last, LeaseEmpty) && out(last, after)
      case LeaseFailed => last < |leases| && leases[last] == LeaseError && out(last, after)
      case SendFailed =>
        && last < |leases| && leases[last] == LeaseBatch && !api(first + last).Accepted?
        && exists sent :: out(last, sent) && Quiet(sent + [Send(kind, false)])(after)
  }

  /** One pass of it. */
  ghost function OtherPasses(kind: Kind, lease: Lease, answer: Answer, before: seq<Event>)
    : (Option<FlushEnd>, seq<Event>) -> bool
  {
    (end: Option<FlushEnd>, after: seq<Event>) =>
      match lease
      case LeaseError => end == Some(LeaseFailed) && after == before
      case LeaseEmpty => end == Some(Drained) && after == before
      case LeaseBatch =>
        if answer.Accepted? then end == None && after == before + [Send(kind, true)]
        else end == Some(SendFailed) && Quiet(before + [Send(kind, false)])(after)
  }

  lemma OthersStart(kind: Kind, leases: seq<Lease>, api: nat -> Answer, first: nat, before: seq<Event>)
    ensures OthersGoOut(kind, leases, api, first, before)(0, before)
    ensures OtherEnds(kind, leases, api, first, before)(Paused, 0, before) && Sending(kind, before)(before)
  {
    assert before + Sends(kind, 0) == before;
  }

  lemma OthersDrained(kind: Kind, leases: seq<Lease>, api: nat -> Answer, first: nat, before: seq<Event>,
                      after: seq<Event>)
    requires OthersGoOut(kind, leases, api, first, before)(|leases|, after)
    ensures OtherEnds(kind, leases, api, first, before)(Drained, |leases|, after) && Sending(kind, before)(after)
  {
    SendingMany(kind, before, |leases|);
  }

  lemma OneMoreAccepted(leases: seq<Lease>, api: nat -> Answer, first: nat, n: nat)
    requires n < |leases| && AllAccepted(leases, api, first, n) && leases[n] == LeaseBatch && api(first + n).Accepted?
    ensures AllAccepted(leases, api, first, n + 1)
  {
    forall i | 0 <= i < n + 1 ensures leases[i] == LeaseBatch && api(first + i).Accepted? {
      assert i == n || i < n;
    }
  }

  lemma OthersStep(kind: Kind, leases: seq<Lease>, api: nat -> Answer, first: nat, before: seq<Event>,
                   last: nat, sent: seq<Event>, end: Option<FlushEnd>, after: seq<Event>)
    requires last < |leases| && OthersGoOut(kind, leases, api, first, before)(last, sent)
    requires OtherPasses(kind, leases[last], api(first + last), sent)(end, after)
    ensures end == None ==> OthersGoOut(kind, leases, api, first, before)(last + 1, after)
    ensures end.Some? ==>
              OtherEnds(kind, leases, api, first, before)(end.value, last, after) && Sending(kind, before)(after)
  {
    SendingMany(kind, before, last);
    if end == None {
      assert before + Sends(kind, last + 1) == sent + [Send(kind, true)];
      OneMoreAccepted(leases, api, first, last);
    } else if end == Some(SendFailed) {
      OneTooMany(kind, before, last, after);
      assert Quiet(sent + [Send(kind, false)])(after);
      assert OtherEnds(kind, leases, api, first, before)(SendFailed, last, after);
    }
  }

  lemma OneTooMany(kind: Kind, before: seq<Event>, n: nat, after: seq<Event>)
    requires Quiet(before + Sends(kind, n) + [Send(kind, false)])(after)
    ensures Sending(kind, before)(after)
  {
    var mid := before + Sends(kind, n);
    SendingMany(kind, before, n);
    SendingOne(kind, mid, false);
    SendingThen(kind, before, mid, mid + [Send(kind, false)]);
    QuietSends(kind, mid + [Send(kind, false)], after);
    SendingThen(kind, before, mid + [Send(kind, false)], after);
  }

  /** The queue's clock stays within one lease of the flush. */
  ghost predicate WithinLease(rounds: nat -> FlushRound) {
    forall i: nat :: rounds(0).now <= rounds(i).now <= rounds(0).now + 120_000_000_000
  }

  /** Within a week of a known expiry, and no attempt in the last day. */
  predicate IsDue(cfg: Config, first: Time, second: Time) {
    && cfg.keyExpiresAt.At? && first + ROTATION_LEAD >= cfg.keyExpiresAt.nanos
    && (cfg.lastRotationAt.At? ==> second - cfg.lastRotationAt.nanos >= DAY)
  }

  ghost predicate FindsEvents(rows: seq<EventQueue.Row>, round: FlushRound) {
    round.leaseOk && Filter(EventQueue.LeasableAt(round.now), rows) != []
  }

  /** A flush that was active sends exactly when its first lease finds something. */
  ghost function FlushSends(rows: seq<EventQueue.Row>, round: FlushRound, before: seq<Event>): seq<Event> -> bool {
    (after: seq<Event>) =>
      if FindsEvents(rows, round) then |after| > |before| && after[|before|].Send? && after[|before|].kind == Events
      else after == before
  }

  /** One pass of the event flush: a failed lease, nothing to lease, or a batch sent. */
  ghost function FlushPasses(rows: seq<EventQueue.Row>, round: FlushRound, answer: Answer, before: seq<Event>)
    : (Option<FlushEnd>, seq<EventQueue.Row>, seq<Event>) -> bool
  {
    (end: Option<FlushEnd>, now: seq<EventQueue.Row>, after: seq<Event>) =>
      && SameEvents(rows, now) && Sending(Events, before)(after)
      && if !round.leaseOk then end == Some(LeaseFailed) && after == before
         else if Filter(EventQueue.LeasableAt(round.now), rows) == [] then
           end == Some(Drained) && after == before && Filter(EventQueue.LeasableAt(round.now), now) == []
         else
           end == (if answer.Accepted? then None else Some(SendFailed))
           && before + [Send(Events, answer.Accepted?)] <= after
  }

  /** Between passes: only events were sent and every row is there. Nothing has happened yet, or the first pass
      sent. */
  ghost function FlushGoesOn(rows: seq<EventQueue.Row>, round: FlushRound, before: seq<Event>)
    : (nat, seq<EventQueue.Row>, seq<Event>) -> bool
  {
    (last: nat, now: seq<EventQueue.Row>, after: seq<Event>) =>
      && SameEvents(rows, now) && Sending(Events, before)(after)
      && if last == 0 then after == before && now == rows
         else FindsEvents(rows, round) && before + [Send(Events, true)] <= after
  }

  /** How an event flush ends, in pass `last`. It sends exactly when its first lease finds something. */
  ghost function FlushEnds(rows: seq<EventQueue.Row>, rounds: nat -> FlushRound, api: nat -> Answer, first: nat,
                           before: seq<Event>)
    : (FlushEnd, nat, seq<EventQueue.Row>, seq<Event>) -> bool
  {
    (end: FlushEnd, last: nat, now: seq<EventQueue.Row>, after: seq<Event>) =>
      && SameEvents(rows, now) && Sending(Events, before)(after)
      && match end
         case Paused => now == rows && after == before
         case LeaseFailed => !rounds(last).leaseOk && FlushSends(rows, rounds(0), before)(after)
         case SendFailed => !api(first + last).Accepted? && FlushSends(rows, rounds(0), before)(after)
         case Drained =>
           && Filter(EventQueue.LeasableAt(rounds(last).now), now) == []
           && FlushSends(rows, rounds(0), before)(after)
  }

  lemma FlushMeans(rows: seq<EventQueue.Row>, rounds: nat -> FlushRound, api: nat -> Answer, first: nat,
                   before: seq<Event>, end: FlushEnd, last: nat, now: seq<EventQueue.Row>, after: seq<Event>)
    requires FlushEnds(rows, rounds, api, first, before)(end, last, now, after)
    ensures SameEvents(rows, now) && before <= after
    ensures end != Paused ==> FlushSends(rows, rounds(0), before)(after)
  {
    SendingGrows(Events, before, after);
  }

  lemma FlushStarts(rows: seq<EventQueue.Row>, rounds: nat -> FlushRound, api: nat -> Answer, first: nat,
                    before: seq<Event>)
    ensures FlushGoesOn(rows, rounds(0), before)(0, rows, before)
    ensures FlushEnds(rows, rounds, api, first, before)(Paused, 0, rows, before)
  {
    NothingSent(Events, before);
    assert SameEvents(rows, rows);
  }

  lemma FlushStep(rows: seq<EventQueue.Row>, rounds: nat -> FlushRound, api: nat -> Answer, first: nat,
                  before: seq<Event>, last: nat, was: seq<EventQueue.Row>, mid: seq<Event>,
                  end: Option<FlushEnd>, now: seq<EventQueue.Row>, after: seq<Event>)
    requires FlushGoesOn(rows, rounds(0), before)(last, was, mid)
    requires FlushPasses(was, rounds(last), api(first + last), mid)(end, now, after)
    ensures end == None ==> FlushGoesOn(rows, rounds(0), before)(last + 1, now, after)
    ensures end.Some? ==> FlushEnds(rows, rounds, api, first, before)(end.value, last, now, after)
  {
    SendingThen(Events, before, mid, after);
    StillSame(rows, was, now);
    PassDecides(rows, rounds(0), api(first + last), before, last, rounds(last), was, mid, end, now, after);
    if end.Some? {
      FlushStops(rows, rounds, api, first, before, last, was, mid, end.value, now, after);
    }
  }

  lemma FlushStops(rows: seq<EventQueue.Row>, rounds: nat -> FlushRound, api: nat -> Answer, first: nat,
                   before: seq<Event>, last: nat, was: seq<EventQueue.Row>, mid: seq<Event>,
                   end: FlushEnd, now: seq<EventQueue.Row>, after: seq<Event>)
    requires SameEvents(rows, now) && Sending(Events, before)(after) && FlushSends(rows, rounds(0), before)(after)
    requires FlushPasses(was, rounds(last), api(first + last), mid)(Some(end), now, after)
    ensures FlushEnds(rows, rounds, api, first, before)(end, last, now, after)
  {
  }

  /** Whether the flush sends is settled by its first pass. */
  lemma PassDecides(rows: seq<EventQueue.Row>, round: FlushRound, answer: Answer, before: seq<Event>, last: nat,
                    current: FlushRound, was: seq<EventQueue.Row>, mid: seq<Event>,
                    end: Option<FlushEnd>, now: seq<EventQueue.Row>, after: seq<Event>)
    requires FlushGoesOn(rows, round, before)(last, was, mid) && (last == 0 ==> current == round)
    requires FlushPasses(was, current, answer, mid)(end, now, after)
    ensures FlushSends(rows, round, before)(after) && end != Some(Paused)
    ensures end == None ==> FindsEvents(rows, round) && before + [Send(Events, true)] <= after
  {
    SendingGrows(Events, mid, after);
  }

  lemma StillSame(a: seq<EventQueue.Row>, b: seq<EventQueue.Row>, c: seq<EventQueue.Row>)
    requires SameEvents(a, b) && SameEvents(b, c)
    ensures SameEvents(a, c)
  {
  }

  lemma PassFails(rows: seq<EventQueue.Row>, round: FlushRound, answer: Answer, before: seq<Event>)
    requires !round.leaseOk
    ensures FlushPasses(rows, round, answer, before)(Some(LeaseFailed), rows, before)
  {
    NothingSent(Events, before);
    assert SameEvents(rows, rows);
  }

  lemma PassDrains(rows: seq<EventQueue.Row>, round: FlushRound, answer: Answer, before: seq<Event>, n: int,
                   now: seq<EventQueue.Row>)
    requires n > 0 && round.leaseOk && IsLeased(rows, n, round.now, [], now)
    ensures FlushPasses(rows, round, answer, before)(Some(Drained), now, before)
  {
    NothingSent(Events, before);
    NothingChosen(rows, round.now, n, now);
  }

  lemma PassSends(rows: seq<EventQueue.Row>, round: FlushRound, answer: Answer, before: seq<Event>, n: int,
                  now: seq<EventQueue.Row>, after: seq<Event>)
    requires n > 0 && round.leaseOk && EventQueue.ItemsOf(EventQueue.SelectLeasable(rows, round.now, n)) != []
    requires SameEvents(rows, now) && Sending(Events, before)(after)
    requires before + [Send(Events, answer.Accepted?)] <= after
    ensures FlushPasses(rows, round, answer, before)(if answer.Accepted? then None else Some(SendFailed), now, after)
  {
    assert FindsEvents(rows, round);
    var end := if answer.Accepted? then None else Some(SendFailed);
    assert FlushPasses(rows, round, answer, before)(end, now, after);
  }

  lemma NothingSent(kind: Kind, before: seq<Event>)
    ensures Sending(kind, before)(before) && before + Sends(kind, 0) == before
  {
  }

  /** Events are sent exactly when the first lease finds some, and unprobed when no key is pending. */
  ghost function CycleSends(rows: seq<EventQueue.Row>, round: FlushRound, settled: bool)
    : (seq<Event>, seq<Event>) -> bool
  {
    (before: seq<Event>, after: seq<Event>) =>
      && (SentEvents(after, |before|) <==> FindsEvents(rows, round))
      && (settled && FindsEvents(rows, round) ==> SentUnprobed(after, |before|))
  }

  ghost predicate IsDown(api: nat -> Answer) { forall i: nat :: api(i).Unreachable? }

  ghost predicate IsAlways(ok: nat -> bool) { forall n :: ok(n) }

  /** The history so far goes with the stored config, the mode and the clock. */
  ghost function IsGood(firstKey: string, storeOk: nat -> bool, time: nat -> Time)
    : (seq<Event>, Config, Mode, nat) -> bool
  {
    (trace: seq<Event>, stored: Config, mode: Mode, readings: nat) =>
      && Silent(trace) && PromotesVerified(trace) && stored.collectorKey == StoredKey(firstKey, trace)
      && (mode == Active ==> Recovered(trace))
      && (IsAlways(storeOk) && IsMonotone(time) ==>
            OnceADay(trace) && Stamped(trace, stored.lastRotationAt) && DoneBy(trace, time(readings)))
  }

  lemma GoodMeans(firstKey: string, storeOk: nat -> bool, time: nat -> Time,
                  trace: seq<Event>, stored: Config, mode: Mode, readings: nat)
    requires IsGood(firstKey, storeOk, time)(trace, stored, mode, readings)
    ensures Silent(trace) && PromotesVerified(trace) && stored.collectorKey == StoredKey(firstKey, trace)
    ensures mode == Active ==> Recovered(trace)
    ensures IsAlways(storeOk) && IsMonotone(time) ==>
              OnceADay(trace) && Stamped(trace, stored.lastRotationAt) && DoneBy(trace, time(readings))
  {
  }

  lemma GoodLater(firstKey: string, storeOk: nat -> bool, time: nat -> Time,
                  trace: seq<Event>, stored: Config, mode: Mode, readings: nat)
    requires IsGood(firstKey, storeOk, time)(trace, stored, mode, readings)
    ensures IsGood(firstKey, storeOk, time)(trace, stored, mode, readings + 1)
    ensures IsAlways(storeOk) && IsMonotone(time) ==> DoneBy(trace, time(readings))
  {
    if IsAlways(storeOk) && IsMonotone(time) {
      assert time(readings) <= time(readings + 1);
      assert DoneBy(trace, time(readings)) && DoneBy(trace, time(readings + 1));
    }
  }

  ghost predicate IsMonotone(time: nat -> Time) { forall i: nat, j: nat :: i <= j ==> time(i) <= time(j) }

  class Uploader {
    const queue: EventQueue.Queue
    const api: nat -> Answer        // answers, one per call
    const storeOk: nat -> bool      // config loads and saves
    const time: nat -> Time         // clock readings
    var calls: nat
    var storeOps: nat
    var readings: nat
    var mode: Mode
    var authReason: Option<Code>
    var backoff: Time
    var policy: Policy
    var clientKey: string
    var stored: Config
    ghost const firstKey: string
    ghost var trace: seq<Event>

    ghost predicate Reliable() { IsAlways(storeOk) }

    ghost predicate Monotone() { IsMonotone(time) }

    /** What holds between any two steps. */
    ghost predicate Good()
      reads this
    {
      IsGood(firstKey, storeOk, time)(trace, stored, mode, readings)
    }

    /** Between top-level calls the live key is the stored one, as long as the store works. */
    ghost predicate Live()
      reads this
    {
      Reliable() ==> clientKey == stored.collectorKey
    }

    /** A process starts active, on the stored config, after the history of the processes before it. The first
        one has none. */
    constructor (queue: EventQueue.Queue, api: nat -> Answer, storeOk: nat -> bool, time: nat -> Time, stored: Config,
                 ghost firstKey: string, ghost history: seq<Event>)
      requires Silent(history) && PromotesVerified(history) && stored.collectorKey == StoredKey(firstKey, history)
      requires IsAlways(storeOk) && IsMonotone(time) ==>
                 OnceADay(history) && Stamped(history, stored.lastRotationAt) && DoneBy(history, time(0))
      ensures Good() && Live() && mode == Active && trace == history + [Boot]
      ensures this.queue == queue && this.api == api && this.storeOk == storeOk && this.time == time
              && this.stored == stored
      ensures this.firstKey == firstKey && calls == 0 && storeOps == 0 && readings == 0
    {
      this.firstKey := firstKey;
      this.queue, this.api, this.storeOk, this.time, this.stored := queue, api, storeOk, time, stored;
      calls, storeOps, readings := 0, 0, 0;
      mode, authReason, backoff, policy, clientKey := Active, None, 0, stored.policy, stored.collectorKey;
      trace := history + [Boot];
      SilentGrows(history, Boot);
      RecoveredGrows(history, Boot);
      PromotesGrow(history, Boot);
      StoredKeyGrows(firstKey, history, Boot);
      if IsAlways(storeOk) && IsMonotone(time) {
        OnceADayGrows(history, Boot, stored.lastRotationAt);
        StampedGrows(history, Boot, stored.lastRotationAt);
        DoneByGrows(history, Boot, time(0), time(0));
      }
    }

    // ----- clock, history, store -----

    method ReadClock() returns (t: Time)
      requires Good()
      modifies this`readings
      ensures Good() && readings == old(readings) + 1 && t == time(old(readings))
      ensures Reliable() && Monotone() ==> DoneBy(trace, t)
    {
      GoodLater(firstKey, storeOk, time, trace, stored, mode, readings);
      t := time(readings);
      readings := readings + 1;
    }

    ghost method Record(e: Event)
      requires Good() && (e.Beat? || (e.Send? && mode == Active))
      modifies this`trace
      ensures Good() && trace == old(trace) + [e]
      ensures old(Recovered(trace)) || IsAcceptedBeat(e) ==> Recovered(trace)
    {
      SilentGrows(trace, e);
      PromotesGrow(trace, e);
      StoredKeyGrows(firstKey, trace, e);
      if Recovered(trace) || IsAcceptedBeat(e) {
        RecoveredGrows(trace, e);
      }
      if Reliable() && Monotone() {
        OnceADayGrows(trace, e, stored.lastRotationAt);
        StampedGrows(trace, e, stored.lastRotationAt);
        DoneByGrows(trace, e, time(readings), time(readings));
      }
      trace := trace + [e];
    }

    ghost method RecordPromotion(cfg: Config)
      requires Good() && trace != [] && trace[|trace| - 1] == Beat(cfg.collectorKey, true)
      modifies this`trace
      ensures trace == old(trace) + [Promote(cfg.collectorKey)]
      ensures Silent(trace) && PromotesVerified(trace) && StoredKey(firstKey, trace) == cfg.collectorKey
      ensures old(Recovered(trace)) ==> Recovered(trace)
      ensures Reliable() && Monotone() ==> OnceADay(trace) && DoneBy(trace, time(readings))
      ensures forall stamp :: Stamped(old(trace), stamp) ==> Stamped(trace, stamp)
    {
      var e := Promote(cfg.collectorKey);
      SilentGrows(trace, e);
      PromotesGrow(trace, e);
      StoredKeyGrows(firstKey, trace, e);
      if Recovered(trace) {
        RecoveredGrows(trace, e);
      }
      if Reliable() && Monotone() {
        OnceADayGrows(trace, e, stored.lastRotationAt);
        DoneByGrows(trace, e, time(readings), time(readings));
      }
      forall stamp | Stamped(trace, stamp) ensures Stamped(trace + [e], stamp) {
        StampedGrows(trace, e, stamp);
      }
      trace := trace + [e];
    }

    /** A heartbeat under the live client key. */
    method Heartbeat() returns (answer: Answer)
      requires Good()
      modifies this`calls, this`trace
      ensures Good() && calls == old(calls) + 1 && answer == api(old(calls))
      ensures trace == old(trace) + [Beat(clientKey, answer.Accepted?)]
      ensures old(Recovered(trace)) || answer.Accepted? ==> Recovered(trace)
    {
      answer := api(calls);
      calls := calls + 1;
      Record(Beat(clientKey, answer.Accepted?));
    }

    method Load() returns (cfg: Option<Config>)
      modifies this`storeOps
      ensures storeOps == old(storeOps) + 1
      ensures cfg == if storeOk(old(storeOps)) then Some(stored) else None
    {
      cfg := if storeOk(storeOps) then Some(stored) else None;
      storeOps := storeOps + 1;
    }

    method Save(cfg: Config) returns (ok: bool)
      requires Good()
      requires cfg.collectorKey != stored.collectorKey ==>
                 trace != [] && trace[|trace| - 1] == Beat(cfg.collectorKey, true)
      requires Reliable() && Monotone() ==> Stamped(trace, cfg.lastRotationAt)
      modifies this`storeOps, this`stored, this`trace
      ensures Good() && storeOps == old(storeOps) + 1 && ok == storeOk(old(storeOps))
      ensures stored == if ok then cfg else old(stored)
      ensures trace == old(trace)
              + if stored.collectorKey != old(stored).collectorKey then [Promote(stored.collectorKey)] else []
      ensures old(Recovered(trace)) ==> Recovered(trace)
    {
      ok := storeOk(storeOps);
      storeOps := storeOps + 1;
      if ok {
        if cfg.collectorKey != stored.collectorKey {
          RecordPromotion(cfg);
        }
        stored := cfg;
      }
    }

    /** Load, change, save; either end may fail, which changes nothing. */
    method MutateConfig(change: Config -> Config)
      requires Good()
      requires change(stored).collectorKey != stored.collectorKey ==>
                 trace != [] && trace[|trace| - 1] == Beat(change(stored).collectorKey, true)
      requires Reliable() && Monotone() ==> Stamped(trace, change(stored).lastRotationAt)
      modifies this`storeOps, this`stored, this`trace
      ensures Good()
      ensures stored ==
                if storeOk(old(storeOps)) && storeOk(old(storeOps) + 1) then change(old(stored)) else old(stored)
      ensures trace == old(trace)
              + if stored.collectorKey != old(stored).collectorKey then [Promote(stored.collectorKey)] else []
      ensures old(Recovered(trace)) ==> Recovered(trace)
    {
      var cfg := Load();
      if cfg.None? {
        return;
      }
      var _ := Save(change(cfg.value));
    }

    // ----- Active and Degraded -----

    method EnterActive()
      requires Good() && Recovered(trace)
      modifies this`mode, this`authReason, this`backoff, this`storeOps, this`stored, this`trace
      ensures Good() && mode == Active && authReason == None && backoff == 0 && trace == old(trace)
      ensures stored.collectorKey == old(stored).collectorKey
      ensures Reliable() ==> stored == old(stored).(authReason := None)
    {
      mode, authReason, backoff := Active, None, 0;
      MutateConfig((c: Config) => c.(authReason := None));
    }

    method EnterDegraded(reason: Code)
      requires Good()
      modifies this`mode, this`authReason, this`storeOps, this`stored, this`trace
      ensures Good() && mode == Degraded && authReason == Some(reason)
      ensures trace == old(trace) + [Degrade] && Quiet(old(trace))(trace)
      ensures stored.collectorKey == old(stored).collectorKey
      ensures Reliable() ==> stored == old(stored).(authReason := Some(reason))
    {
      SilentGrows(trace, Degrade);
      PromotesGrow(trace, Degrade);
      StoredKeyGrows(firstKey, trace, Degrade);
      if Reliable() && Monotone() {
        OnceADayGrows(trace, Degrade, stored.lastRotationAt);
        StampedGrows(trace, Degrade, stored.lastRotationAt);
        DoneByGrows(trace, Degrade, time(readings), time(readings));
      }
      mode, authReason, trace := Degraded, Some(reason), trace + [Degrade];
      QuietAppend(old(trace), [Degrade]);
      MutateConfig((c: Config) => c.(authReason := Some(reason)));
    }

    // ----- rotation -----

    /** `at` is the last clock reading taken. */
    method RotationDue(cfg: Config) returns (due: bool, at: Time)
      requires Good()
      modifies this`readings
      ensures Good()
      ensures due == IsDue(cfg, time(old(readings)), time(old(readings) + 1))
      ensures due && cfg.lastRotationAt.At? ==> at - cfg.lastRotationAt.nanos >= DAY
    {
      at := 0;
      if cfg.keyExpiresAt.Garbled? {
        return false, at;
      }
      at := ReadClock();
      if at + ROTATION_LEAD < cfg.keyExpiresAt.nanos {
        return false, at;
      }
      if cfg.lastRotationAt.Garbled? {
        return true, at;
      }
      at := ReadClock();
      due := at - cfg.lastRotationAt.nanos >= DAY;
    }

    /** Ask for a new key and store it as pending, or store that the attempt failed. */
    method AttemptRotate(ghost gate: Option<Time>)
      requires Good()
      requires gate.Some? && Reliable() && Monotone() && stored.lastRotationAt.At? ==>
                 gate.value - stored.lastRotationAt.nanos >= DAY
      modifies this`calls, this`readings, this`storeOps, this`stored, this`trace
      ensures Good() && stored.collectorKey == old(stored).collectorKey
      ensures old(Recovered(trace)) ==> Recovered(trace)
      ensures calls == old(calls) + 1 && trace == old(trace) + [Rotate(gate, time(old(readings)))]
              && Quiet(old(trace))(trace)
      ensures api(old(calls)).Accepted? && Reliable() ==>
                var i := api(old(calls)).issued;
                stored == old(stored).(pendingKey := i.key, pendingKeyId := i.id, pendingKeyExpires := i.expires,
                                       oldKeyValidUntil := i.oldValidUntil,
                                       lastRotationAt := At(CutToSecond(time(old(readings)))))
      ensures !api(old(calls)).Accepted? ==> stored.pendingKey == old(stored).pendingKey
      ensures !api(old(calls)).Accepted? && Reliable() ==>
                stored.rotationFailures == old(stored).rotationFailures + if api(old(calls)).Conflict? then 0 else 1
    {
      GoodMeans(firstKey, storeOk, time, trace, stored, mode, readings);
      var answer := api(calls);
      calls := calls + 1;
      ghost var before := stored.lastRotationAt;
      var done := ReadClock();
      var stamp := At(CutToSecond(done));
      if answer.Accepted? {
        var issued := answer.issued;
        MutateConfig((c: Config) =>
          c.(pendingKey := issued.key, pendingKeyId := issued.id, pendingKeyExpires := issued.expires,
             oldKeyValidUntil := issued.oldValidUntil, lastRotationAt := stamp));
      } else {
        RecordFailedRotateAttempt(answer.Conflict?, done);
      }
      RecordRotation(gate, done, before);
      QuietAppend(old(trace), [Rotate(gate, done)]);
    }

    /** Every attempt is stamped; only a genuine failure counts. */
    method RecordFailedRotateAttempt(conflict: bool, at: Time)
      requires Good() && (Reliable() && Monotone() ==> DoneBy(trace, at))
      modifies this`storeOps, this`stored, this`trace
      ensures Good() && trace == old(trace) && stored.collectorKey == old(stored).collectorKey
      ensures stored.pendingKey == old(stored).pendingKey
      ensures Reliable() ==>
                stored == old(stored).(lastRotationAt := At(CutToSecond(at)),
                                       rotationFailures := old(stored).rotationFailures + if conflict then 0 else 1)
    {
      var failure := if conflict then 0 else 1;
      MutateConfig((c: Config) =>
                     c.(lastRotationAt := At(CutToSecond(at)), rotationFailures := c.rotationFailures + failure));
    }

    ghost method RecordRotation(gate: Option<Time>, done: Time, before: TimeText)
      requires Good() && readings > 0 && done == time(readings - 1)
      requires Reliable() && Monotone() ==>
                 DoneBy(trace, done) && stored.lastRotationAt == At(CutToSecond(done)) && Stamped(trace, before)
      requires gate.Some? && Reliable() && Monotone() && before.At? ==> gate.value - before.nanos >= DAY
      modifies this`trace
      ensures Good() && trace == old(trace) + [Rotate(gate, done)]
      ensures old(Recovered(trace)) ==> Recovered(trace)
    {
      var e := Rotate(gate, done);
      SilentGrows(trace, e);
      PromotesGrow(trace, e);
      StoredKeyGrows(firstKey, trace, e);
      if Recovered(trace) {
        RecoveredGrows(trace, e);
      }
      if Reliable() && Monotone() {
        assert done <= time(readings);
        OnceADayGrows(trace, e, before);
        StampedGrows(trace, e, stored.lastRotationAt);
        DoneByGrows(trace, e, time(readings), time(readings));
      }
      trace := trace + [e];
    }

    /** Heartbeat on the pending key; promote it when accepted, drop it when rejected, keep it otherwise. */
    method VerifyPendingKey(cfg: Config) returns (verified: bool)
      requires Good() && Live() && (Reliable() ==> cfg == stored)
      modifies this`calls, this`clientKey, this`storeOps, this`stored, this`trace
      ensures Good() && Live()
      ensures verified == api(old(calls)).Accepted?
      ensures verified ==> Recovered(trace) && clientKey == cfg.pendingKey
      ensures trace == old(trace) + [Beat(cfg.pendingKey, verified)]
                       + if stored.collectorKey != old(stored).collectorKey then [Promote(stored.collectorKey)] else []
      ensures !verified ==> clientKey == old(clientKey) && stored.collectorKey == old(stored).collectorKey
      ensures old(Recovered(trace)) ==> Recovered(trace)
      ensures Reliable() && verified ==> stored.collectorKey == cfg.pendingKey && stored.pendingKey == ""
      ensures Reliable() && api(old(calls)).Unauthorized? ==> stored.pendingKey == ""
    {
      var previous := clientKey;
      clientKey := cfg.pendingKey;
      var answer := Heartbeat();
      if answer.Accepted? {
        MutateConfig((c: Config) =>
          Discarded(c).(collectorKey := cfg.pendingKey, keyId := cfg.pendingKeyId,
                        keyExpiresAt := cfg.pendingKeyExpires,
                        rotationFailures := 0));
        return true;
      }
      clientKey := previous;
      if answer.Unauthorized? {
        MutateConfig((c: Config) => Discarded(c).(rotationFailures := c.rotationFailures + 1));
      }
      verified := false;
    }

    /** One step of the rotation machine: resume a pending key, else start a rotation when due. */
    method RotateCheckOnce()
      requires Good() && Live()
      modifies this`calls, this`readings, this`clientKey, this`storeOps, this`stored, this`trace
      ensures Good() && Live()
      ensures old(stored).pendingKey != "" ==> forall i :: |old(trace)| <= i < |trace| ==> !trace[i].Rotate?
      ensures old(stored).pendingKey == "" ==>
                && clientKey == old(clientKey) && stored.collectorKey == old(stored).collectorKey
                && PerhapsRotates(old(trace))(trace)
                && (!api(old(calls)).Accepted? ==> stored.pendingKey == "")
      ensures old(stored).pendingKey == "" ==>
                var expires, last := old(stored).keyExpiresAt, old(stored).lastRotationAt;
                trace != old(trace) <==>
                  && storeOk(old(storeOps))
                  && expires.At? && expires.nanos - time(old(readings)) <= 7 * 86_400 * 1_000_000_000
                  && (last.At? ==> time(old(readings) + 1) - last.nanos >= 86_400 * 1_000_000_000)
      ensures old(stored).pendingKey != "" && storeOk(old(storeOps)) ==>
                old(trace) + [Beat(old(stored).pendingKey, api(old(calls)).Accepted?)] <= trace
      ensures mode == old(mode) && policy == old(policy) && Quiet(old(trace))(trace)
    {
      QuietAppend(trace, []);
      assert trace + [] == trace;
      var cfg := Load();
      if cfg.None? {
        return;
      }
      if cfg.value.pendingKey != "" {
        var verified := VerifyPendingKey(cfg.value);
        QuietBeat(old(trace), cfg.value.pendingKey, verified, stored.collectorKey != old(stored).collectorKey,
                  stored.collectorKey);
        return;
      }
      var due, at := RotationDue(cfg.value);
      if due {
        AttemptRotate(Some(at));
      }
    }

    // ----- auth errors and heartbeats -----

    method RecoverViaPendingKeyOrDegrade()
      requires Good() && Live()
      modifies this
      ensures Good() && Live() && Quiet(old(trace))(trace)
      ensures mode == Degraded ==> authReason == Some(KeyInvalid)
      ensures Reliable() ==> (mode == Active <==> old(stored).pendingKey != "" && api(old(calls)).Accepted?)
    {
      var cfg := Load();
      if cfg.None? || cfg.value.pendingKey == "" {
        EnterDegraded(KeyInvalid);
        return;
      }
      var verified := VerifyPendingKey(cfg.value);
      ghost var asked := trace;
      QuietBeat(old(trace), cfg.value.pendingKey, verified, stored.collectorKey != old(stored).collectorKey,
                stored.collectorKey);
      if verified {
        EnterActive();
      } else {
        EnterDegraded(KeyInvalid);
        QuietThen(old(trace), asked, trace);
      }
    }

    method HandleAuthError(code: Code)
      requires Good() && Live()
      modifies this
      ensures Good() && Live() && Quiet(old(trace))(trace)
      ensures code != KeyRotated && code != KeyExpired ==>
                mode == Degraded && authReason == Some(code) && trace == old(trace) + [Degrade]
      ensures mode == Degraded ==>
                authReason == Some(if code == KeyRotated || code == KeyExpired then KeyInvalid else code)
      ensures Reliable() && code == KeyRotated ==>
                (mode == Active <==> old(stored).pendingKey != "" && api(old(calls)).Accepted?)
      ensures Reliable() && code == KeyExpired ==>
                var a := api(old(calls));
                (mode == Active <==>
                   (if a.Accepted? then a.issued.key else old(stored).pendingKey) != ""
                   && api(old(calls) + 1).Accepted?)
    {
      if code == KeyRotated {
        RecoverViaPendingKeyOrDegrade();
      } else if code == KeyExpired {
        AttemptRotate(None);
        ghost var rotated := trace;
        RecoverViaPendingKeyOrDegrade();
        QuietThen(old(trace), rotated, trace);
      } else {
        EnterDegraded(code);
      }
    }

    /** Back to Active under the refreshed policy; a missing expiry leaves the stored one. */
    method OnHeartbeatOK(refreshed: Policy, expires: Option<TimeText>)
      requires Good() && Live() && Recovered(trace)
      modifies this`mode, this`authReason, this`backoff, this`policy, this`storeOps, this`stored, this`trace
      ensures Good() && Live() && mode == Active && authReason == None && backoff == 0 && policy == refreshed
      ensures trace == old(trace)
      ensures Reliable() ==>
                stored == old(stored).(authReason := None, policy := refreshed,
                                       keyExpiresAt := if expires.Some? then expires.value
                                                       else old(stored).keyExpiresAt)
    {
      EnterActive();
      policy := refreshed;
      MutateConfig((c: Config) =>
        c.(policy := refreshed, keyExpiresAt := if expires.Some? then expires.value else c.keyExpiresAt));
    }

    /** A success re-enables Active mode and swaps in the policy; a 401 is dispatched by its code; anything
        else changes nothing. */
    method HeartbeatOnce()
      requires Good() && Live()
      modifies this
      ensures Good() && Live() && Quiet(old(trace))(trace)
      ensures old(trace) + [Beat(old(clientKey), api(old(calls)).Accepted?)] <= trace
      ensures var a := api(old(calls));
              && (a.Accepted? ==>
                    && mode == Active && authReason == None && backoff == 0 && policy == a.policy
                    && trace == old(trace) + [Beat(old(clientKey), true)] && clientKey == old(clientKey)
                    && (Reliable() ==>
                          stored == old(stored).(authReason := None, policy := a.policy,
                                                 keyExpiresAt := if a.keyExpiresAt.Some? then a.keyExpiresAt.value
                                                                 else old(stored).keyExpiresAt)))
              && (a.Conflict? || a.Unreachable? ==>
                    mode == old(mode) && trace == old(trace) + [Beat(old(clientKey), false)] && stored == old(stored))
              && (a.Unauthorized? && a.code != KeyRotated && a.code != KeyExpired ==>
                    && mode == Degraded && authReason == Some(a.code)
                    && trace == old(trace) + [Beat(old(clientKey), false), Degrade])
      ensures Reliable() && api(old(calls)).Unauthorized? && api(old(calls)).code == KeyRotated ==>
                (mode == Active <==> old(stored).pendingKey != "" && api(old(calls) + 1).Accepted?)
      ensures Reliable() && api(old(calls)).Unauthorized? && api(old(calls)).code == KeyExpired ==>
                var a := api(old(calls) + 1);
                (mode == Active <==>
                   (if a.Accepted? then a.issued.key else old(stored).pendingKey) != ""
                   && api(old(calls) + 2).Accepted?)
      ensures api(old(calls)).Unauthorized? && mode == Degraded ==>
                var code := api(old(calls)).code;
                authReason == Some(if code == KeyRotated || code == KeyExpired then KeyInvalid else code)
    {
      var answer := Heartbeat();
      ghost var asked := trace;
      QuietAppend(old(trace), [Beat(clientKey, answer.Accepted?)]);
      match answer
      case Unauthorized(code) =>
        HandleAuthError(code);
        QuietThen(old(trace), asked, trace);
      case Accepted(refreshed, expires, _) =>
        OnHeartbeatOK(refreshed, expires);
      case _ =>
    }

    /** Pick up a key stored by a login outside this process. */
    method ReloadKeyIfChanged()
      requires Good() && Live()
      modifies this`storeOps, this`clientKey
      ensures Good() && Live()
      ensures clientKey ==
                if storeOk(old(storeOps)) && stored.collectorKey != "" then stored.collectorKey else old(clientKey)
    {
      var cfg := Load();
      if cfg.Some? && cfg.value.collectorKey != "" && cfg.value.collectorKey != clientKey {
        clientKey := cfg.value.collectorKey;
      }
    }

    // ----- flushing -----

    method HandleSendError(answer: Answer)
      requires Good() && Live() && !answer.Accepted?
      modifies this
      ensures Good() && Live() && Quiet(old(trace))(trace)
      ensures !answer.Unauthorized? ==>
                && mode == old(mode) && trace == old(trace) && stored == old(stored)
                && backoff == Widened(old(backoff), FlushInterval(policy)) && policy == old(policy)
      ensures answer.Unauthorized? && answer.code != KeyRotated && answer.code != KeyExpired ==>
                mode == Degraded && authReason == Some(answer.code) && trace == old(trace) + [Degrade]
      ensures Reliable() && answer.Unauthorized? && answer.code == KeyRotated ==>
                (mode == Active <==> old(stored).pendingKey != "" && api(old(calls)).Accepted?)
      ensures Reliable() && answer.Unauthorized? && answer.code == KeyExpired ==>
                var a := api(old(calls));
                (mode == Active <==>
                   (if a.Accepted? then a.issued.key else old(stored).pendingKey) != ""
                   && api(old(calls) + 1).Accepted?)
    {
      if answer.Unauthorized? {
        HandleAuthError(answer.code);
        return;
      }
      QuietAppend(trace, []);
      assert trace + [] == trace;
      backoff := Widened(backoff, FlushInterval(policy));
    }

    /** Send one leased batch: ack it when accepted, nack it otherwise. */
    method SendBatch(items: seq<EventQueue.Item>, r: FlushRound) returns (ok: bool)
      requires Good() && Live() && mode == Active && queue.Valid()
      modifies this, queue`rows
      ensures Good() && Live() && queue.Valid() && ok == api(old(calls)).Accepted?
      ensures ok ==> calls == old(calls) + 1
      ensures ok ==> mode == Active && policy == old(policy) && trace == old(trace) + [Send(Events, true)]
      ensures old(trace) + [Send(Events, ok)] <= trace && Sending(Events, old(trace))(trace)
      ensures queue.rows == Answered(old(queue.rows), items, r, ok)
    {
      var ids, events := UploadProtocol.Split(items);
      var answer := api(calls);
      calls := calls + 1;
      Record(Send(Events, answer.Accepted?));
      ghost var sent := trace;
      SendingOne(Events, old(trace), answer.Accepted?);
      if !answer.Accepted? {
        var _ := queue.Nack(ids, r.nackOk);
        HandleSendError(answer);
        QuietSends(Events, sent, trace);
        SendingThen(Events, old(trace), sent, trace);
        return false;
      }
      var _ := queue.Ack(ids, r.ackAt, r.ackOk);
      ok := true;
    }

    /** What was just leased from `rows` goes out. */
    method SendLeased(items: seq<EventQueue.Item>, round: FlushRound, ghost rows: seq<EventQueue.Row>, ghost n: int,
                      ghost horizon: Time)
      returns (ok: bool)
      requires Good() && Live() && mode == Active && queue.Valid()
      requires n > 0 && items != [] && round.now <= horizon <= round.now + LEASE
      requires IsLeased(rows, n, round.now, items, queue.rows)
      modifies this, queue`rows
      ensures Good() && Live() && queue.Valid() && SameEvents(rows, queue.rows)
      ensures ok == api(old(calls)).Accepted?
      ensures ok ==> calls == old(calls) + 1
      ensures ok ==> mode == Active && LeasableCount(queue.rows, horizon) < LeasableCount(rows, horizon)
      ensures old(trace) + [Send(Events, ok)] <= trace && Sending(Events, old(trace))(trace)
    {
      ghost var leased := queue.rows;
      ok := SendBatch(items, round);
      PassAnswered(rows, n, round, horizon, items, leased, ok);
    }

    method LeaseEvents(n: int, round: FlushRound) returns (items: seq<EventQueue.Item>, failed: bool)
      requires n > 0 && queue.Valid()
      modifies queue`rows
      ensures queue.Valid() && failed == !round.leaseOk
      ensures failed ==> items == [] && queue.rows == old(queue.rows)
      ensures !failed ==> IsLeased(old(queue.rows), n, round.now, items, queue.rows)
    {
      items, failed := queue.LeaseBatch(n, LEASE, round.now, round.leaseOk);
    }

    /** One pass of the flush loop: lease a batch and send it. None goes on to the next pass. */
    method FlushPass(batchSize: int, round: FlushRound, ghost horizon: Time) returns (end: Option<FlushEnd>)
      requires Good() && Live() && mode == Active && queue.Valid() && batchSize > 0
      requires round.now <= horizon <= round.now + LEASE
      modifies this, queue`rows
      ensures Good() && Live() && queue.Valid()
      ensures FlushPasses(old(queue.rows), round, api(old(calls)), old(trace))(end, queue.rows, trace)
      ensures end == None ==> mode == Active && calls == old(calls) + 1
      ensures end == None ==> LeasableCount(queue.rows, horizon) < LeasableCount(old(queue.rows), horizon)
      ensures end == Some(Drained) ==> backoff == 0 && mode == Active
      ensures end != Some(Paused)
    {
      ghost var answer := api(calls);
      var items, failed := LeaseEvents(batchSize, round);
      if failed {
        PassFails(old(queue.rows), round, answer, trace);
        return Some(LeaseFailed);
      }
      if items == [] {
        backoff := 0;
        PassDrains(old(queue.rows), round, answer, trace, batchSize, queue.rows);
        return Some(Drained);
      }
      var ok := SendLeased(items, round, old(queue.rows), batchSize, horizon);
      PassSends(old(queue.rows), round, answer, old(trace), batchSize, queue.rows, trace);
      end := if ok then None else Some(SendFailed);
    }

    /** Lease and send until nothing is leasable or something fails. The queue's clock stays within one
        lease, so no lease taken here runs out here; `last` counts the passes completed. */
    method FlushOnce(rounds: nat -> FlushRound) returns (end: FlushEnd, last: nat)
      requires Good() && Live() && queue.Valid()
      requires WithinLease(rounds)
      modifies this, queue`rows
      ensures Good() && Live() && queue.Valid()
      ensures end == Paused <==> old(mode) == Degraded
      ensures end == Drained ==> backoff == 0 && mode == Active
      ensures FlushEnds(old(queue.rows), rounds, api, old(calls), old(trace))(end, last, queue.rows, trace)
    {
      FlushStarts(queue.rows, rounds, api, calls, trace);
      if mode != Active {
        return Paused, 0;
      }
      var batchSize := BatchSize(policy);
      ghost var horizon := rounds(0).now + LEASE;
      last := 0;
      while true
        invariant Good() && Live() && queue.Valid() && mode == Active && calls == old(calls) + last
        invariant FlushGoesOn(old(queue.rows), rounds(0), old(trace))(last, queue.rows, trace)
        decreases LeasableCount(queue.rows, horizon)
      {
        ghost var was, mid := queue.rows, trace;
        var done := FlushPass(batchSize, rounds(last), horizon);
        FlushStep(old(queue.rows), rounds, api, old(calls), old(trace), last, was, mid, done, queue.rows, trace);
        if done.Some? {
          return done.value, last;
        }
        last := last + 1;
      }
    }

    /** FlushMetricsOnce and FlushSessionsOnce run the same loop on the other two queues; here their leases
        are given, the queue being empty after the last. */
    method FlushOther(kind: Kind, leases: seq<Lease>) returns (end: FlushEnd, last: nat)
      requires Good() && Live()
      modifies this
      ensures Good() && Live() && Sending(kind, old(trace))(trace) && last <= |leases|
      ensures end == Paused <==> old(mode) == Degraded
      ensures end == Drained ==> backoff == 0 && mode == Active
      ensures OtherEnds(kind, leases, api, old(calls), old(trace))(end, last, trace)
    {
      OthersStart(kind, leases, api, calls, trace);
      if mode != Active {
        return Paused, 0;
      }
      last := 0;
      while last < |leases|
        invariant Good() && Live() && mode == Active && last <= |leases| && calls == old(calls) + last
        invariant OthersGoOut(kind, leases, api, old(calls), old(trace))(last, trace)
      {
        ghost var sent := trace;
        var done := OtherPass(kind, leases[last]);
        OthersStep(kind, leases, api, old(calls), old(trace), last, sent, done, trace);
        if done.Some? {
          return done.value, last;
        }
        last := last + 1;
      }
      OthersDrained(kind, leases, api, old(calls), old(trace), trace);
      backoff := 0;
      end := Drained;
    }

    /** One pass: lease and send. None goes on to the next pass. */
    method OtherPass(kind: Kind, lease: Lease) returns (end: Option<FlushEnd>)
      requires Good() && Live() && mode == Active
      modifies this
      ensures Good() && Live() && OtherPasses(kind, lease, api(old(calls)), old(trace))(end, trace)
      ensures end == Some(Drained) ==> backoff == 0 && mode == Active
      ensures end == None ==> mode == Active && calls == old(calls) + 1
      ensures end != Some(Paused)
    {
      if lease == LeaseError {
        return Some(LeaseFailed);
      }
      if lease == LeaseEmpty {
        backoff := 0;
        return Some(Drained);
      }
      var ok := SendOther(kind);
      end := if ok then None else Some(SendFailed);
    }

    method SendOther(kind: Kind) returns (ok: bool)
      requires Good() && Live() && mode == Active
      modifies this
      ensures Good() && Live() && ok == api(old(calls)).Accepted?
      ensures ok ==> mode == Active && calls == old(calls) + 1 && trace == old(trace) + [Send(kind, true)]
      ensures !ok ==> Quiet(old(trace) + [Send(kind, false)])(trace)
    {
      var answer := api(calls);
      calls := calls + 1;
      Record(Send(kind, answer.Accepted?));
      ok := answer.Accepted?;
      if !ok {
        HandleSendError(answer);
      }
    }

    // ----- cycles -----

    /** One heartbeat/rotate/flush cycle; while Degraded only the key is reloaded and the backend probed. A cycle that
        starts active and reaches nobody sends events exactly when the first lease finds some. */
    method RunCycle(c: Cycle)
      requires Good() && Live() && queue.Valid() && WithinLease(c.rounds)
      modifies this, queue`rows
      ensures Good() && Live() && queue.Valid() && SameEvents(old(queue.rows), queue.rows) && old(trace) <= trace
      ensures old(mode) == Degraded && (api(old(calls)).Unreachable? || api(old(calls)).Conflict?) ==>
                mode == Degraded && queue.rows == old(queue.rows) && |trace| == |old(trace)| + 1
      ensures old(mode) == Active && (api(old(calls)).Unreachable? || api(old(calls)).Conflict?) ==>
                CycleSends(old(queue.rows), c.rounds(0), old(stored).pendingKey == "")(old(trace), trace)
    {
      if mode == Degraded {
        ReloadKeyIfChanged();
      }
      HeartbeatOnce();
      if mode != Active {
        return;
      }
      ghost var beaten, settled := trace, stored.pendingKey == "";
      RotateAndFlush(c);
      BeatsFirst(old(queue.rows), c.rounds(0), settled, old(trace), beaten, trace);
    }

    method RotateAndFlush(c: Cycle)
      requires Good() && Live() && mode == Active && queue.Valid() && WithinLease(c.rounds)
      modifies this, queue`rows
      ensures Good() && Live() && queue.Valid() && SameEvents(old(queue.rows), queue.rows) && old(trace) <= trace
      ensures CycleSends(old(queue.rows), c.rounds(0), old(stored).pendingKey == "")(old(trace), trace)
    {
      RotateCheckOnce();
      ghost var asked := trace;
      ghost var first := calls;
      var end, last := FlushOnce(c.rounds);
      ghost var flushed := trace;
      FlushMeans(old(queue.rows), c.rounds, api, first, asked, end, last, queue.rows, flushed);
      FlushOthers(c);
      CycleSent(old(queue.rows), c.rounds(0), old(stored).pendingKey == "", old(trace), asked, flushed, trace);
    }

    method FlushOthers(c: Cycle)
      requires Good() && Live()
      modifies this
      ensures Good() && Live() && OthersSend(old(trace))(trace) && old(trace) <= trace
    {
      var _, _ := FlushOther(Metrics, c.metrics);
      ghost var measured := trace;
      var _, _ := FlushOther(Sessions, c.sessions);
      assert Sending(Metrics, old(trace))(measured) && Sending(Sessions, measured)(trace);
    }

    /** The first heartbeat and rotation check, then any number of cycles. In the whole history within one process
        nothing is sent between degrading and the next accepted heartbeat, the stored key changes only to one a
        heartbeat has just accepted, and, with a working store and a clock that never goes back, a rotation started
        by the daily check comes more than a day, less a second, after every earlier rotation, also of earlier
        processes. */
    method Run(cycles: seq<Cycle>)
      requires Good() && Live() && queue.Valid() && forall i :: 0 <= i < |cycles| ==> WithinLease(cycles[i].rounds)
      modifies this, queue`rows
      ensures Good() && Live() && queue.Valid() && SameEvents(old(queue.rows), queue.rows) && old(trace) <= trace
      ensures forall i, j :: 0 <= i < j < |trace| && trace[i].Degrade? && trace[j].Send? ==>
                exists k :: i < k < j && (trace[k] == Boot || (trace[k].Beat? && trace[k].accepted))
      ensures forall i :: 0 <= i < |trace| && trace[i].Promote? ==> i > 0 && trace[i - 1] == Beat(trace[i].key, true)
      ensures stored.collectorKey == StoredKey(firstKey, trace) && (Reliable() ==> clientKey == stored.collectorKey)
      ensures Reliable() && Monotone() ==>
                forall i, j :: 0 <= i < j < |trace| && trace[i].Rotate? && trace[j].Rotate? && trace[j].gate.Some? ==>
                  trace[j].gate.value - trace[i].done > 86_399 * 1_000_000_000
    {
      HeartbeatOnce();
      if mode == Active {
        RotateCheckOnce();
      }
      for i := 0 to |cycles|
        invariant Good() && Live() && queue.Valid() && SameEvents(old(queue.rows), queue.rows) && old(trace) <= trace
      {
        RunCycle(cycles[i]);
      }
      GoodMeans(firstKey, storeOk, time, trace, stored, mode, readings);
      SilentBetween(trace);
    }

    method CycleDelay() returns (delay: Time)
      ensures mode == Degraded ==> delay == 300 * 1_000_000_000
      ensures mode == Active ==>
                var seconds := if policy.flushIntervalSeconds <= 0 then 30 else policy.flushIntervalSeconds;
                delay == Max(backoff, seconds * 1_000_000_000)
    {
      if mode == Degraded {
        return DEGRADED_PROBE;
      }
      var base := FlushInterval(policy);
      delay := if backoff > base then backoff else base;
    }
  }

  /** A new process starts active even after a degradation. When it reaches nobody and no key is pending, its first
      cycle sends events, unprobed, exactly when its first lease finds some. */
  method Restart(queue: EventQueue.Queue, api: nat -> Answer, storeOk: nat -> bool, time: nat -> Time, stored: Config,
                 ghost firstKey: string, ghost history: seq<Event>, c: Cycle)
    returns (u: Uploader)
    requires queue.Valid() && WithinLease(c.rounds) && IsDown(api) && stored.pendingKey == ""
    requires IsGood(firstKey, storeOk, time)(history, stored, Degraded, 0)
    modifies queue`rows
    ensures fresh(u) && u.Good() && history + [Boot] <= u.trace
    ensures SentEvents(u.trace, |history|) <==> FindsEvents(old(queue.rows), c.rounds(0))
    ensures SentEvents(u.trace, |history|) ==> SentUnprobed(u.trace, |history|)
  {
    GoodMeans(firstKey, storeOk, time, history, stored, Degraded, 0);
    u := new Uploader(queue, api, storeOk, time, stored, firstKey, history);
    u.HeartbeatOnce();
    ghost var beaten := u.trace;
    u.RotateCheckOnce();
    ghost var started := u.trace;
    u.RunCycle(c);
    OpeningIsIdle(history, beaten, started);
    Opens(old(queue.rows), c.rounds(0), history, started, u.trace);
  }

  // ---------- the flush loop ----------

  /** Rows keep their id, event id and payload, whatever happens to their state. */
  ghost predicate SameEvents(a: seq<EventQueue.Row>, b: seq<EventQueue.Row>) {
    |a| == |b| && forall i :: 0 <= i < |a| ==>
      a[i].id == b[i].id && a[i].eventId == b[i].eventId && a[i].payload == b[i].payload
  }

  ghost function LeasableCount(rows: seq<EventQueue.Row>, at: Time): nat { |Filter(EventQueue.LeasableAt(at), rows)| }

  /** What a lease of up to `n` rows hands out and leaves. */
  ghost predicate IsLeased(rows: seq<EventQueue.Row>, n: nat, now: Time, items: seq<EventQueue.Item>,
                           leased: seq<EventQueue.Row>) {
    var chosen := EventQueue.SelectLeasable(rows, now, n);
    && items == EventQueue.ItemsOf(chosen)
    && leased == EventQueue.UpdateByIds(rows, EventQueue.IdsOf(chosen), EventQueue.SetLeased(now + LEASE))
  }

  /** The rows after the backend's answer: acked, or nacked, or as leased when the queue fails. */
  ghost function Answered(leased: seq<EventQueue.Row>, items: seq<EventQueue.Item>, r: FlushRound, ok: bool)
    : seq<EventQueue.Row>
  {
    var ids := UploadProtocol.ItemIds(items);
    if ok && r.ackOk then EventQueue.UpdateByIds(leased, ids, EventQueue.SetAcked(r.ackAt))
    else if !ok && r.nackOk then EventQueue.UpdateByIds(leased, ids, EventQueue.SetPending)
    else leased
  }

  lemma UpdateKeepsEvents(rows: seq<EventQueue.Row>, now: seq<EventQueue.Row>, ids: seq<int>,
                          clause: EventQueue.SetClause)
    requires SameEvents(rows, now)
    ensures SameEvents(rows, EventQueue.UpdateByIds(now, ids, clause))
  {
    var after := EventQueue.UpdateByIds(now, ids, clause);
    forall i | 0 <= i < |rows|
      ensures rows[i].id == after[i].id && rows[i].eventId == after[i].eventId && rows[i].payload == after[i].payload {
      assert now[i].id == rows[i].id;
    }
  }

  lemma PassAnswered(rows: seq<EventQueue.Row>, n: nat, r: FlushRound, horizon: Time, items: seq<EventQueue.Item>,
                     leased: seq<EventQueue.Row>, ok: bool)
    requires items != [] && r.now <= horizon <= r.now + LEASE && IsLeased(rows, n, r.now, items, leased)
    ensures SameEvents(rows, Answered(leased, items, r, ok))
    ensures ok ==> LeasableCount(Answered(leased, items, r, ok), horizon) < LeasableCount(rows, horizon)
  {
    UpdateKeepsEvents(rows, rows, EventQueue.IdsOf(EventQueue.SelectLeasable(rows, r.now, n)),
                      EventQueue.SetLeased(r.now + LEASE));
    UpdateKeepsEvents(rows, leased, UploadProtocol.ItemIds(items), EventQueue.SetAcked(r.ackAt));
    UpdateKeepsEvents(rows, leased, UploadProtocol.ItemIds(items), EventQueue.SetPending);
    if ok {
      FlushShrinks(rows, n, r, horizon, items, leased);
    }
  }

  lemma NothingChosen(rows: seq<EventQueue.Row>, now: Time, n: nat, after: seq<EventQueue.Row>)
    requires n > 0 && EventQueue.ItemsOf(EventQueue.SelectLeasable(rows, now, n)) == []
    requires after ==
               EventQueue.UpdateByIds(rows, EventQueue.IdsOf(EventQueue.SelectLeasable(rows, now, n)),
                                      EventQueue.SetLeased(now + LEASE))
    ensures Filter(EventQueue.LeasableAt(now), after) == [] && SameEvents(rows, after)
  {
    assert after == rows;
  }

  /** Fewer elements satisfy `p` when it is only ever lost, and lost at least once. */
  lemma {:induction false} FewerSatisfy<T(!new)>(p: T -> bool, a: seq<T>, b: seq<T>)
    requires |a| == |b| && forall i :: 0 <= i < |a| && p(b[i]) ==> p(a[i])
    ensures |Filter(p, b)| <= |Filter(p, a)|
    ensures (exists i :: 0 <= i < |a| && p(a[i]) && !p(b[i])) ==> |Filter(p, b)| < |Filter(p, a)|
  {
    if a != [] {
      assert forall i :: 0 <= i < |a[1..]| ==> a[1..][i] == a[i + 1] && b[1..][i] == b[i + 1];
      FewerSatisfy(p, a[1..], b[1..]);
      if i :| 0 <= i < |a| && p(a[i]) && !p(b[i]) {
        if i > 0 {
          assert p(a[1..][i - 1]) && !p(b[1..][i - 1]);
        }
      }
    }
  }

  /** An accepted pass that leased something leaves fewer rows leasable before the horizon: those it
      leased are held past it, whether or not the ack landed. */
  lemma FlushShrinks(rows: seq<EventQueue.Row>, n: nat, r: FlushRound, horizon: Time, items: seq<EventQueue.Item>,
                     leased: seq<EventQueue.Row>)
    requires r.now <= horizon <= r.now + LEASE && items != [] && IsLeased(rows, n, r.now, items, leased)
    ensures LeasableCount(Answered(leased, items, r, true), horizon) < LeasableCount(rows, horizon)
  {
    var chosen := EventQueue.SelectLeasable(rows, r.now, n);
    assert UploadProtocol.ItemIds(items) == EventQueue.IdsOf(chosen);
    FilterMembers(EventQueue.LeasableAt(r.now), rows);
    assert chosen[0] in Filter(EventQueue.LeasableAt(r.now), rows);
    var i :| 0 <= i < |rows| && rows[i] == chosen[0];
    assert EventQueue.IdsOf(chosen)[0] == rows[i].id;
    FewerSatisfy(EventQueue.LeasableAt(horizon), rows, Answered(leased, items, r, true));
  }

  // ---------- what a good history says ----------

  lemma SilentBetween(trace: seq<Event>)
    requires Silent(trace)
    ensures forall i, j :: 0 <= i < j < |trace| && trace[i].Degrade? && trace[j].Send? ==>
              exists k :: i < k < j && (trace[k] == Boot || (trace[k].Beat? && trace[k].accepted))
  {
    forall i, j | 0 <= i < j < |trace| && trace[i].Degrade? && trace[j].Send?
      ensures exists k :: i < k < j && (trace[k] == Boot || (trace[k].Beat? && trace[k].accepted)) {
      assert FreedWithin(trace, i, j);
    }
  }

  lemma NoEventSends(kind: Kind, before: seq<Event>, after: seq<Event>, from: nat)
    requires kind != Events && Sending(kind, before)(after) && SentEvents(after, from) && from <= |before|
    ensures SentEvents(before, from)
  {
    var k :| from <= k < |after| && after[k].Send? && after[k].kind == Events;
    assert k < |before| && before[k] == after[k];
  }

  lemma QuietIsUnsent(before: seq<Event>, after: seq<Event>)
    requires Quiet(before)(after)
    ensures !SentEvents(after, |before|)
  {
  }

  lemma StillSent(before: seq<Event>, after: seq<Event>, i: nat, from: nat)
    requires before <= after && from <= i < |before| && before[i].Send? && before[i].kind == Events
    ensures SentEvents(after, from)
  {
    assert after[i] == before[i];
  }

  /** Only the event flush of a cycle sends events. */
  lemma OnlyEventSends(rows: seq<EventQueue.Row>, round: FlushRound,
                       before: seq<Event>, asked: seq<Event>, flushed: seq<Event>, after: seq<Event>)
    requires Quiet(before)(asked) && FlushSends(rows, round, asked)(flushed) && OthersSend(flushed)(after)
    requires asked <= flushed
    ensures SentEvents(after, |before|) <==> FindsEvents(rows, round)
  {
    if FindsEvents(rows, round) {
      StillSent(flushed, after, |asked|, |before|);
    } else if SentEvents(after, |before|) {
      OthersSendNone(flushed, after, |before|);
      QuietIsUnsent(before, asked);
    }
  }

  /** Only the event flush sends events, and only a pending key is probed before it. */
  lemma CycleSent(rows: seq<EventQueue.Row>, round: FlushRound, settled: bool,
                  before: seq<Event>, asked: seq<Event>, flushed: seq<Event>, after: seq<Event>)
    requires Quiet(before)(asked) && (settled ==> PerhapsRotates(before)(asked))
    requires FlushSends(rows, round, asked)(flushed) && OthersSend(flushed)(after) && asked <= flushed <= after
    ensures CycleSends(rows, round, settled)(before, after)
  {
    OnlyEventSends(rows, round, before, asked, flushed, after);
    if settled && FindsEvents(rows, round) {
      UnprobedSends(rows, round, before, asked, flushed, after);
    }
  }

  lemma UnprobedSends(rows: seq<EventQueue.Row>, round: FlushRound, before: seq<Event>, asked: seq<Event>,
                      flushed: seq<Event>, after: seq<Event>)
    requires PerhapsRotates(before)(asked) && FindsEvents(rows, round)
    requires FlushSends(rows, round, asked)(flushed) && asked <= flushed <= after
    ensures SentUnprobed(after, |before|)
  {
    var k := |asked|;
    assert after[k] == flushed[k];
    forall n | |before| <= n < k ensures !IsAcceptedBeat(after[n]) {
      assert after[n] == asked[n];
    }
  }

  /** A heartbeat that reached nobody before it changes nothing. */
  lemma BeatsFirst(rows: seq<EventQueue.Row>, round: FlushRound, settled: bool,
                   before: seq<Event>, beaten: seq<Event>, after: seq<Event>)
    requires CycleSends(rows, round, settled)(beaten, after) && before <= beaten <= after
    ensures (exists key :: beaten == before + [Beat(key, false)]) ==> CycleSends(rows, round, settled)(before, after)
  {
    if key :| beaten == before + [Beat(key, false)] {
      assert after[|before|] == beaten[|before|];
      OneLater(before, after);
    }
  }

  lemma OneLater(before: seq<Event>, after: seq<Event>)
    requires |after| > |before| && !after[|before|].Send? && !IsAcceptedBeat(after[|before|])
    ensures SentEvents(after, |before|) <==> SentEvents(after, |before| + 1)
    ensures SentUnprobed(after, |before| + 1) ==> SentUnprobed(after, |before|)
  {
  }

  /** From `before` on nothing was sent and no heartbeat accepted. */
  ghost predicate IsIdle(before: seq<Event>, after: seq<Event>) {
    before <= after && forall k :: |before| <= k < |after| ==> !after[k].Send? && !IsAcceptedBeat(after[k])
  }

  lemma IdleSoFar(before: seq<Event>, mid: seq<Event>, after: seq<Event>)
    requires IsIdle(before, mid) && mid <= after
    ensures forall k :: |before| <= k < |mid| ==> !after[k].Send? && !IsAcceptedBeat(after[k])
  {
    forall k | |before| <= k < |mid| ensures !after[k].Send? && !IsAcceptedBeat(after[k]) {
      assert after[k] == mid[k];
    }
  }

  lemma OpeningIsIdle(history: seq<Event>, beaten: seq<Event>, started: seq<Event>)
    requires PerhapsRotates(beaten)(started)
    ensures (exists key :: beaten == history + [Boot] + [Beat(key, false)]) ==>
              IsIdle(history, started) && history + [Boot] <= started
  {
  }

  lemma Opens(rows: seq<EventQueue.Row>, round: FlushRound, history: seq<Event>, started: seq<Event>, after: seq<Event>)
    requires IsIdle(history, started) && started <= after && CycleSends(rows, round, true)(started, after)
    ensures SentEvents(after, |history|) <==> FindsEvents(rows, round)
    ensures SentEvents(after, |history|) ==> SentUnprobed(after, |history|)
  {
    if k :| |history| <= k < |after| && after[k].Send? && after[k].kind == Events {
      IdleSoFar(history, started, after);
      assert SentEvents(after, |started|);
    }
    if FindsEvents(rows, round) {
      var k :| |started| <= k < |after| && after[k].Send? && after[k].kind == Events
               && forall n :: |started| <= n < k ==> !IsAcceptedBeat(after[n]);
      IdleSoFar(history, started, after);
      assert SentUnprobed(after, |history|);
    }
  }

  lemma OthersSendNone(flushed: seq<Event>, after: seq<Event>, from: nat)
    requires OthersSend(flushed)(after) && SentEvents(after, from) && from <= |flushed|
    ensures SentEvents(flushed, from)
  {
    var measured: seq<Event> :| Sending(Metrics, flushed)(measured) && Sending(Sessions, measured)(after);
    NoEventSends(Sessions, measured, after, from);
    NoEventSends(Metrics, flushed, measured, from);
  }

  /** The stored key is the first one or one that a heartbeat accepted. */
  lemma {:induction false} StoredKeyWasAccepted(key: string, trace: seq<Event>)
    requires PromotesVerified(trace)
    ensures StoredKey(key, trace) == key
            || exists k :: 0 <= k < |trace| && trace[k] == Beat(StoredKey(key, trace), true)
  {
    if trace != [] {
      var n := |trace| - 1;
      if trace[n].Promote? {
        assert trace[n - 1] == Beat(trace[n].key, true);
      } else {
        StoredKeyWasAccepted(key, trace[..n]);
        if StoredKey(key, trace[..n]) != key {
          var k :| 0 <= k < n && trace[..n][k] == Beat(StoredKey(key, trace[..n]), true);
          assert trace[k] == Beat(StoredKey(key, trace), true);
        }
      }
    }
  }
}
