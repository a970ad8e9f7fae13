# Verified model of the collector's durable pipeline

This project models the parts of the desktop collector whose guarantees span several operations, threads or
crashes, and proves those guarantees. Events are held in a local queue and uploaded by one worker; session
summaries are folded from the same events; credentials live in a keychain and a config file; key rotation, the
Active/Degraded modes and the inventory consent protocol sit on top; the setup command edits Codex's TOML file line
by line; a resolver reads agents' session files incrementally.

`dafny verify dfyconfig.toml` checks everything.

## How it is modelled

Objects that the source updates in place are classes whose methods are proved against specification functions
(`EventQueue.Queue`, `SessionQueue.SessionStore`, `CredStore.Store`, `Uploader.Uploader`, `NoiseFilter.EventFilter`,
`Daemon.Daemon`, `Resolver.Resolver`). Loops of the source are loops here. Where several threads or machines
interleave, the same specification functions are the steps of a state machine and the results hold at every point of
every run (`UploadProtocol`, `SessionSync`, `Daemon`, `Inventory`, and `Pipeline`, which joins the handlers with the
upload of what they enqueue).

Clocks, failures, size readings, random ids and backend answers are parameters: functions from the number of the call
to its outcome, so every statement covers every pattern of them. A send ends accepted, accepted with the reply lost,
rejected by code, or unreachable. The backend is a log that keeps an event only under an id not seen before, and keeps
the session snapshot with the newest `updated_at`. Tables are sequences or maps of rows; instants are integers in
nanoseconds; costs are exact; tokens are unbounded integers.

| file | source |
|---|---|
| `EventQueue.dfy`, `UploadProtocol.dfy` | internal/queue/queue.go, internal/uploader/uploader.go |
| `Sessions.dfy`, `SessionLabels.dfy`, `SessionQueue.dfy`, `SessionSync.dfy`, `Usages.dfy` | internal/queue/sessions.go |
| `CredStore.dfy`, `ConfigFile.dfy` | internal/credstore/credstore.go |
| `Uploader.dfy` | internal/uploader/uploader.go, internal/uploader/rotation.go |
| `Inventory.dfy`, `Runs.dfy` | internal/uploader/inventory.go |
| `TomlText.dfy`, `CodexLines.dfy`, `CodexEditor.dfy`, `Codex.dfy`, `CodexText.dfy` | internal/setup/codex.go |
| `Filter.dfy`, `Daemon.dfy`, `Pipeline.dfy` | internal/filter/filter.go, internal/daemon/daemon.go |
| `Resolver.dfy` | internal/codexrepo/resolver.go |
| `Truncate.dfy` | internal/normalize/normalize.go |
| `Api.dfy`, `Seqs.dfy`, `Strings.dfy` | shared records and facts |

Specification functions share the names of what the code does; what they do is stated a second time without them, in
literal conditions and numbers: in the `ensures` of the methods and in lemmas such as `SessionLabels.LabelCounts`,
`CodexText.EditCodexWrites`, `Truncate.ValidIffEncoded` or `NoiseFilter.BuiltInNoise`.

## Findings

Properties one might expect that the code does not have in full, each with an input and the exact condition.

- **Row ids can come back under a batch in flight** (internal/queue/queue.go:145-154, 399-444). Ids are max+1. When the
  byte cap empties the table while a batch is being sent, the next event takes an id of the batch and the late ack
  marks it delivered: `UploadProtocol.EmptiedTableLosesAnEvent`. Exactly when, from the row count and the readings:
  `UploadProtocol.IdReuseIffEmptied`. The row cap alone never does it: `UploadProtocol.ExactlyOnceUnderRowCap`.
- **A session recreated after its delivered row was deleted restarts its stamp** (internal/queue/sessions.go:272-279,
  368-379; internal/daemon/daemon.go:276-303). Every update moves the stamp by at least a second, so a burst of updates
  puts it ahead of the clock. A session more than a day's seconds ahead, uploaded and pruned after a day's retention,
  comes back under an earlier stamp; its payload is acked and not kept: `SessionSync.RecreatedSessionIsLost`. Exactly
  when the backend takes a recreated session: `SessionSync.RecreatedSyncsIffLater`.
- **A rotation commit can lose the verified key** (internal/uploader/rotation.go:140-150,
  internal/credstore/credstore.go:233-247). The commit reloads the config; if the pending entry cannot be read then and
  the drop is persisted, a crash before the save leaves the verified key nowhere: `CredStore.CommitLosesKey`. Exactly
  then: the first clause of `CredStore.Store.CommitPendingKey`.
- **"pending" can be stored after "disabled"** (internal/uploader/inventory.go:53-57). The write is not checked against
  the policy again: `Inventory.PendingMayOutliveConsent`. Exactly when it still can: `Inventory.LatePendingIff`.
- **A second Codex edit is not always a no-op** (internal/setup/codex.go:106-129). On tame texts exactly from three stale
  tables on: `Codex.EditCodexTwice`, `Codex.ThreeStaleTablesNeedTwoEdits`. Tame means that brackets balance at the end
  (else `CodexEditor.OpenTextNeverSettles`), that headers to act on match the header pattern as written, and that an
  exporter line to be replaced opens no bracket it leaves open (else `Codex.OpenExporterIsCut`). Trimming removes
  Unicode spaces which the pattern does not, so a header behind a no-break space is found but does not end the table
  before it: `Codex.SpacedHeaderIsCut`, where the edit yields the empty text. The plan parses what the edit yields and
  refuses it without the [otel] table, an added key or the exporter (internal/setup/codex.go:73-80, 135-152), so an edit
  like that one leaves the file untouched.
- **A restart ends the silence** (internal/uploader/uploader.go:125-145). A process starts active whatever reason was
  stored, so after a degradation and a restart one unanswered heartbeat is followed by a flush. Exactly when that flush
  sends: `Uploader.Restart`. The rotation gate and the promotion of verified keys hold across restarts
  (`Uploader.Uploader.Run`).
- **Incremental reading can differ from a full rescan** (internal/codexrepo/resolver.go:177-202, 300-325). For a size
  inside a line (`Resolver.MidLineIff`), as when `{"cwd":"/repo"` is read and then `}` (`Resolver.MidLineLosesRecord`);
  behind an over-long line (`Resolver.OverlongIff`); after a partial line that names a directory only while partial
  (`Resolver.GrowthIff`), as `{"cwd":"/repo"}` does before `]` follows (`Resolver.UnsettledStays`); and after a file that
  could not be opened is cached as read (`Resolver.FailedOpenIff`).

- **A model label can be the code for unknown** (internal/queue/sessions.go:408-412). Events whose label is a zero
  character followed by "unknown" share the row of the events without a model: `SessionLabels.ReservedSharesRow`. The
  laws per label hold for every other one: `SessionLabels.MergedTokens`.

Where code and comments differ, the model follows the code:

- internal/setup/codex.go:268-271 says a resulting double blank line is collapsed. The loop never changes anything: the
  line after the cut is a header or there is none (`CodexEditor.CollapseBlankLines`).
- internal/credstore/credstore.go:233-247 records that a dropped pending key could not be persisted. Its caller then
  sets the status to active, so that record is overwritten (`CredStore.Store.Hydrate`).

## Model

| member | source | states |
|---|---|---|
| `UploadProtocol.RecordedOnceInEveryRun` | internal/queue/queue.go:165-467 | At every point of every run of enqueue, evict, prune, lease, deliver (late, repeated), lost reply, ack, nack and crash, whatever eviction does: the backend holds each event at most once and as it was enqueued, and rows enqueued = pending + leased + acked + evicted + pruned |
| `UploadProtocol.StepKeepsAccount` | internal/queue/queue.go:165-467 | Every single step keeps that account, also one that empties the table under a batch in flight |
| `UploadProtocol.ExactlyOnceEffect` | internal/queue/queue.go:165-308 | At every point of every run that keeps a row under a batch in flight: besides that account, an acked row was recorded with its own payload, and every event ever enqueued is recorded, queued un-acked or evicted |
| `UploadProtocol.ExactlyOnceUnderRowCap` | internal/queue/queue.go:399-467 | The same of every run in which only the row cap binds and it is at least 512 rows, with nothing asked of the run |
| `UploadProtocol.RowCapRunsAreSafe` | internal/queue/queue.go:399-451 | Such runs never empty the table under a batch in flight, and keep the whole protocol invariant |
| `UploadProtocol.IdReuseIffEmptied` | internal/queue/queue.go:145-154 | After an enqueue under a batch in flight, max+1 stays above every id of the batch if and only if the size readings and outcomes do not keep the table over a cap until its last row is gone |
| `UploadProtocol.EventKeepsItsRow` | internal/queue/queue.go:213-308 | Across any stretch of a run an event keeps its row id and payload however often it is leased, acked is final, and the backend record only grows |
| `UploadProtocol.EmptiedTableLosesAnEvent` | internal/queue/queue.go:399-444 | A run from an empty store in which the byte cap empties the table under a lease, the id comes back, and a never-sent event is acked |
| `UploadProtocol.StepKeepsInv` | internal/queue/queue.go:165-333 | Every single step keeps the invariant: distinct event ids, a guard row above every id in flight, acked means recorded, nothing vanishes |
| `UploadProtocol.AckedPayloadRecorded` | internal/uploader/uploader.go:281-294 | The payload recorded for an acked row is the row's own |
| `UploadProtocol.AcceptRecordsOnce` | internal/uploader/uploader_test.go:160-175 | A deduplicating backend handed any batch, with repeats inside or across batches, still records each event id at most once |
| `UploadProtocol.Split` | internal/uploader/uploader.go:554-563 | Row ids and wire events come out in lease order, each event under the id minted when it was queued |
| `UploadProtocol.AbandonedBatchReturns` | internal/queue/queue.go:213-267 | In every run, after a lease, a crash right after it and any enqueues, prunes, deliveries and crashes: until the lease is over none of its events is handed out again; from then on a lease is possible, and each row of the batch that is left is handed out or n rows of smaller id are |
| `UploadProtocol.RefusedBatchReturns` | internal/uploader/uploader.go:281-294 | From every world with its account, a lease, a refusal and a nack leave each row of the batch pending with one attempt more and no lease, no other row changed, and nothing in flight |
| `EventQueue.Queue.Enqueue` | internal/queue/queue.go:167-209 | A rolled-back insert leaves everything; otherwise the rows are the inserted table after eviction, with evictions counted and failures reported |
| `EventQueue.Queue.InsertEvents` | internal/queue/queue.go:188-209 | The loop of single inserts appends the events as pending rows of no attempts, numbered on from the largest id, under the given event ids and time, and changes no other row |
| `EventQueue.Queue.EvictIfNeeded` | internal/queue/queue.go:399-444 | The loop terminates for every size oracle and leaves what the specification leaves, wherever a read, delete or vacuum fails; unless it failed or emptied the table it ends on a reading within both caps |
| `EventQueue.Queue.LeaseBatch` | internal/queue/queue.go:213-271 | Every row that is pending, or leased with no deadline or one before now, is handed out or n rows of smaller id are, and no other row is; the rows handed out are leased until the new deadline, each as it stood and in id order; a failed select or update changes nothing |
| `EventQueue.Queue.Ack` | internal/queue/queue.go:289-297 | Every row with a listed id becomes acked at that time with its lease cleared, whatever its state, and no other row changes; a failed update changes nothing |
| `EventQueue.Queue.Nack` | internal/queue/queue.go:301-308 | Every row with a listed id becomes pending with one attempt more and its lease cleared, whatever its state, and no other row changes |
| `EventQueue.Queue.PruneAcked` | internal/queue/queue.go:314-333 | A row goes if and only if it is acked with a time before the cutoff; the others stay as they were, in order, and the deletions are counted |
| `EventQueue.Queue.Open` | internal/queue/queue.go:90-116 | Non-positive caps become 50,000 rows and 104,857,600 bytes; the rows found are the table |
| `EventQueue.EvictionIsOneDelete` | internal/queue/queue.go:399-467 | However many rounds ran and wherever they stopped, the rows removed are exactly the first `count` of the eviction order of the original table, each counted once |
| `EventQueue.EvictionOrder` | internal/queue/queue.go:453-467 | Over a whole eviction the un-acked rows lost are the oldest prefix, the acked rows lost are a prefix, and no un-acked row goes while an acked one survives |
| `EventQueue.EmptiedIffStaysOver` | internal/queue/queue.go:399-444 | Eviction empties the table if and only if its readings stay over a cap, and nothing fails, until the last row |
| `EventQueue.OneRoundSuffices` | internal/queue/queue.go:431-451 | Under the row cap alone one round takes what is over it, or 512 rows if that is more, and no other follows; a row is left when the cap is at least 512 |
| `EventQueue.DeletesCompose` | internal/queue/queue.go:453-467 | Two deletes in a row remove what one larger delete removes |
| `EventQueue.DeleteShape` | internal/queue/queue.go:453-467 | One delete of n drops a prefix of the acked rows and then a prefix of the un-acked ones |
| `EventQueue.NewestGoesLast` | internal/queue/queue.go:453-467 | An un-acked newest row survives an eviction exactly when anything does |
| `EventQueue.RoundByRound` | internal/queue/queue.go:399-444 | A round that deletes takes what is over the row cap, or 512 rows if that is more, or all there are; another deletes after it if and only if rows are left, the vacuum worked and the next reading is over a cap |
| `EventQueue.EvictionEndsWithin` | internal/queue/queue.go:399-429 | An eviction that neither failed nor emptied the table ended on a reading with rows and bytes within their caps |
| `EventQueue.InsertsAppend` | internal/queue/queue.go:188-209 | After an insert every old row is at its place and the new ones follow, one an event, numbered on from the largest id |
| `SessionSync.SyncedWhenAcked` | internal/queue/sessions.go:326-366 | At every point of every orderly run an acked session's backend copy equals its local payload, with upserts during the send, repeated delivery, lost replies and crashes; and a session in flight is still stored un-acked |
| `SessionSync.StepKeepsInv` | internal/queue/sessions.go:53-118 | Each step keeps: stamps strictly identify payloads, the backend holds issued payloads only, acked rows are synced, leases hold |
| `SessionSync.AckedMeansSynced` | internal/queue/sessions.go:342-366 | A lease whose revision is still current was delivered and nothing newer was ever issued, so the kept snapshot is the stored one |
| `SessionSync.RecreatedSyncsIffLater` | internal/queue/sessions.go:272-279 | A session recreated after its row was deleted is taken by the backend if and only if its second is later than the stamp the backend keeps |
| `SessionSync.RecreatedTooEarlyIsLost` | internal/queue/sessions.go:91-118 | Otherwise, when the payload differs, five steps at that second lead to an acked row whose backend copy is the old snapshot |
| `SessionSync.RecreatedSessionIsLost` | internal/queue/sessions.go:272-279 | For every session id, a run from an empty store under a clock that never goes back that reaches this: more updates than seconds have passed put the stamp ahead of the clock, the session is uploaded and pruned after a day, and its next event brings it back |
| `Sessions.MergeKeepsSound` | internal/queue/sessions.go:138-270 | Merging keeps model rows unique, sorted by key and summing to the totals in all four counters |
| `Sessions.MergeInBatches` | internal/queue/sessions.go:138-162 | Merging A then B with one fallback stamp is merging A followed by B, except for updated_at |
| `Sessions.OrderDoesNotMatter` | internal/queue/sessions.go:164-250 | Totals, cost (also whether there is one), counts, first and last times and outcome are the same for every order of the events |
| `Sessions.OrderDoesNotMatterPerModel` | internal/queue/sessions.go:201-227 | So is the presence and the sum of every model row |
| `Sessions.FoldedOutcome` | internal/queue/sessions.go:237-250 | Failed exactly when an error was ever seen; otherwise succeeded exactly when a terminal event was |
| `Sessions.FoldedTotals` | internal/queue/sessions.go:201-227 | Totals and counts of a batch are added once per event |
| `Sessions.FoldedCost` | internal/queue/sessions.go:229-235 | A cost is reported exactly when some event carried one |
| `Sessions.FoldedStart` | internal/queue/sessions.go:177-184 | The start is the least of the prior one and the stamps |
| `Sessions.FoldedActivity` | internal/queue/sessions.go:177-184 | The last activity is the greatest |
| `Sessions.UpdatedAtIsGreatest` | internal/queue/sessions.go:272-279 | After n upserts updated_at is the greatest of now_i + (n - i) whole seconds, and it grew with each |
| `Sessions.RowsRoundTrip` | internal/queue/sessions.go:150-155 | Storing the sorted model rows and loading them again gives the same map |
| `Sessions.MergeSessionEvents` | internal/queue/sessions.go:138-162 | The loops compute the specified merge: folded fields, sorted rows, next stamp |
| `Sessions.FinishSessionModels` | internal/queue/sessions.go:252-270 | The rows are the map's values in key order, and the single model is named exactly when there is one row |
| `SessionLabels.LabelCounts` | internal/queue/sessions.go:395-412 | An event counts under m if and only if its label is m between spaces and m is tight, not empty, without a backslash, starts with neither / nor ~, and is neither mixed nor begins with mixed: in any case of letters; otherwise it counts as unknown; it counts all its tokens |
| `SessionLabels.MergedTokens` | internal/queue/sessions.go:201-227 | The tokens under a label after a merge are those before and those of exactly the events that carry it |
| `SessionLabels.NamedByItsModel` | internal/queue/sessions.go:252-270 | A session is named by a label if and only if it has usage and all its rows and events carry that label |
| `SessionLabels.ReservedSharesRow` | internal/queue/sessions.go:408-412 | The one label that is the code for unknown itself shares the row of events without a model |
| `SessionLabels.SpanOfEvents` | internal/queue/sessions.go:177-184 | Start and last activity of a first batch are the seconds of two of its events, with all others between them; an event without a readable time counts as now |
| `SessionLabels.FoldedLabels` | internal/queue/sessions.go:186-199 | Repository and source are the first ones offered: a tight label without slashes, and what comes before the first dot of an event name |
| `SessionLabels.FoldedEnd` | internal/queue/sessions.go:237-250 | The end is the second of the last terminal event that found no error so far, if there is one |
| `SessionLabels.TerminalMentions` | internal/queue/sessions.go:421-428 | An event is terminal exactly when its name holds session.end, session_end, conversation.end or conversation_end in any case of letters |
| `Sessions.MergeEvents` | internal/queue/sessions.go:164-175 | The event loop is the fold of fields and of model contributions |
| `SessionQueue.GroupSessionEvents` | internal/queue/sessions.go:80-89 | Every event with a non-blank session id lands in its group, in order; no group is empty |
| `SessionLabels.GroupedIff` | internal/queue/sessions.go:80-89 | A session id has a group if and only if an event carries it and it is not all space; the group is the events that carry it, in order |
| `SessionQueue.SessionStore.UpsertSessionEvents` | internal/queue/sessions.go:53-78 | In one transaction each session with events comes under its next revision, or the first, pending and unleased whatever it was, with its merged summary; the others are untouched; then the cap applies; a rollback changes nothing |
| `SessionQueue.SessionStore.LeaseSessionsBatch` | internal/queue/sessions.go:281-338 | At most 500 sessions that are pending or whose lease is over, the least recently updated ones, are leased one by one with their current revision and summary; an open session is left out only of a full lease; a failing update leaves the earlier ones leased and hands nothing out |
| `SessionQueue.SessionStore.FinishSessions` | internal/queue/sessions.go:342-366 | Of distinct sessions, each whose revision is that of its lease becomes acked at that time, or pending with one attempt more, and no other row changes; a failing update stops there |
| `SessionQueue.SessionStore.PruneAckedSessions` | internal/queue/sessions.go:368-379 | A session goes if and only if it is acked with a time before the cutoff; the others are unchanged |
| `SessionQueue.CapTakesOnlyAcked` | internal/queue/sessions.go:73-76 | While the un-acked sessions number at most 10,000 the cap removes acked rows only, and leaves at most 10,000 |
| `SessionQueue.CapOrder` | internal/queue/sessions.go:73-76 | The cap takes exactly the sessions over 10,000: acked ones before un-acked ones, and of two alike the one updated earlier |
| `CredStore.Store.Save` | internal/credstore/credstore.go:98-115 | With a keychain and a key, when each set and the read after it succeed and the entry is then the key, the save succeeds exactly when the file can be written, and leaves it scrubbed with the keys in their entries; otherwise it falls back to plain text and the status says so. At every crash point, under any failures, a restart finds the old or the new active key and never none |
| `CredStore.Store.Load` | internal/credstore/credstore.go:79-92 | The active key returned is what a restart would find, at the end and at every crash point; the pending key too, unless its entry was unreadable and then dropped; a plaintext file moves to the keychain under the same condition as in a save; the status in every case |
| `CredStore.Store.MigrateOnLoad` | internal/credstore/credstore.go:121-143 | A plaintext key stays until verified keychain entries and the scrubbed file replace it, which they do if and only if every operation on the entries succeeds and lands, or found them so, and the file can be saved |
| `CredStore.Store.WriteSecrets` | internal/credstore/credstore.go:160-171 | Succeeds exactly when both entries can be verified; the pending entry moves only once the active one is in place, at every crash point |
| `CredStore.Store.WriteVerified` | internal/credstore/credstore.go:175-187 | Success means the entry holds the secret; failure leaves the old or the new value |
| `CredStore.Store.SaveScrubbed` | internal/credstore/credstore.go:192-202 | The file loses its keys and the status becomes active exactly on success |
| `CredStore.Store.Hydrate` | internal/credstore/credstore.go:211-225 | Fails exactly on an unreadable or missing active key, changing nothing, with the status for each; otherwise the config is completed |
| `CredStore.Store.HydratePending` | internal/credstore/credstore.go:233-247 | A readable pending key is filled in; otherwise the rotation state is dropped here, and on disk when the save succeeds |
| `CredStore.Store.CommitPendingKey` | internal/uploader/rotation.go:140-150 | The verified key is recoverable as active or pending at every crash point if and only if the reload did not both fail to read the pending entry and persist that drop; when all operations work the file carries the new key as active, its id and expiry, and no rotation |
| `CredStore.SaveRecoversKeys` | internal/credstore/credstore.go:98-115 | At each crash point of a paired save the recovered key pair is the old one, the new one, or new active with old pending |
| `CredStore.CommitHolds` | internal/uploader/rotation.go:140-150 | A save over a state whose pending key is the new key holds that key throughout |
| `CredStore.DropLosesKey` | internal/credstore/credstore.go:233-247 | A concrete keychain-backed disk and failure under which the drop applies and no restart finds the verified key |
| `CredStore.CommitLosesKey` | internal/uploader/rotation.go:140-150 | That commit carried out: at one of its crash points the verified key is held nowhere |
| `Uploader.Uploader.Run` | internal/uploader/uploader.go:125-168 | Over the opening and any number of cycles, after any earlier processes: between degrading and any later send lies an accepted heartbeat or a restart; the stored key changes only to one a heartbeat has just accepted; with a working store and a forward clock a checked rotation comes more than 24 h - 1 s after any earlier one |
| `Uploader.Restart` | internal/uploader/uploader.go:125-145 | After any history a new process is active; when it reaches nobody and no key is pending, its first cycle sends events with no accepted heartbeat before them exactly when its first lease finds some |
| `Uploader.Uploader.RunCycle` | internal/uploader/uploader.go:156-168 | Keeps the history promises; while degraded and unreachable it sends one heartbeat and nothing else, and leaves the queue alone; a cycle that starts active and reaches nobody sends events exactly when its first lease finds some |
| `Uploader.Uploader.FlushOnce` | internal/uploader/uploader.go:206-226 | Terminates; paused exactly when degraded; ends in a pass whose lease failed, whose send was refused, or after which nothing is leasable; it sends exactly when its first lease finds something, only events, and every row keeps its event |
| `Uploader.Uploader.FlushPass` | internal/uploader/uploader.go:206-226 | Which of its four ends a pass has follows from the lease, the rows and the answer; a pass that goes on leaves fewer rows leasable before the horizon |
| `Uploader.Uploader.SendBatch` | internal/uploader/uploader.go:281-294 | Accepted batches are acked, others nacked, row by row as the queue operations say |
| `Uploader.Uploader.FlushOther` | internal/uploader/uploader.go:232-277 | The metrics and session loops send nothing while degraded; otherwise they send one accepted batch per lease and end at the first failing lease, at the first refused batch, or drained |
| `Uploader.Uploader.HandleSendError` | internal/uploader/uploader.go:334-343 | A 401 leads back to active exactly when its code allows recovery and a pending key is accepted, and degrades otherwise; anything else only widens the backoff |
| `Uploader.Uploader.HeartbeatOnce` | internal/uploader/uploader.go:348-362 | An accepted heartbeat makes the uploader active under the new policy; after a 401 it is active exactly when the code allows recovery and the pending key, fresh or stored, is accepted, and otherwise degraded with the reason; anything else changes nothing |
| `Uploader.Uploader.OnHeartbeatOK` | internal/uploader/uploader.go:380-403 | Active, backoff reset, policy and expiry stored, nothing sent |
| `Uploader.Uploader.HandleAuthError` | internal/uploader/uploader.go:416-426 | key_rotated and key_expired lead back to active exactly when a pending key is accepted; every other code degrades |
| `Uploader.Uploader.RecoverViaPendingKeyOrDegrade` | internal/uploader/uploader.go:430-441 | Active exactly when a stored pending key is accepted, else degraded as key_invalid |
| `Uploader.Uploader.ReloadKeyIfChanged` | internal/uploader/uploader.go:193-201 | The live key becomes the stored one when that can be read and is not empty |
| `Uploader.Uploader.CycleDelay` | internal/uploader/uploader.go:173-188 | 300 seconds while degraded, else the larger of backoff and flush interval, which is 30 seconds unless the policy sets another |
| `Uploader.Uploader.RotateCheckOnce` | internal/uploader/rotation.go:25-37 | A stored pending key is tried and nothing is rotated; without one and with a readable store a rotation starts if and only if the key expires at most 604,800 seconds after the first clock reading and the last attempt, if known, is at least 86,400 seconds before the second; a checked rotation comes more than 24 h - 1 s after any earlier one |
| `Uploader.Uploader.RotationDue` | internal/uploader/rotation.go:42-58 | Due exactly within 604,800 seconds of a known expiry and 86,400 seconds after the last attempt, if that is known |
| `Uploader.Uploader.AttemptRotate` | internal/uploader/rotation.go:63-78 | One call; the issued key, its id, expiry and the overlap of the old key are stored as pending, or the failure is counted, and the attempt is stamped |
| `Uploader.Uploader.RecordFailedRotateAttempt` | internal/uploader/rotation.go:85-100 | Stamped always, counted unless a conflict; keys untouched |
| `Uploader.Uploader.VerifyPendingKey` | internal/uploader/rotation.go:109-150 | Promoted when a heartbeat accepts it, dropped on a 401, kept otherwise; the live key is restored unless it was accepted |
| `Uploader.SilentGrows` | internal/uploader/uploader.go:156-168 | Appending any event to a history keeps the silence, a send only after recovery |
| `Uploader.StoredKeyWasAccepted` | internal/uploader/rotation.go:109-150 | The stored key is the first one or one a heartbeat accepted |
| `Uploader.OnceADayGrows` | internal/uploader/rotation.go:42-58 | A rotation that passed the stored stamp's gate is a day, less the truncated second, after every earlier one |
| `Uploader.WidenedClosedForm` | internal/uploader/uploader.go:525-536 | After n widenings from zero the backoff is base * 2^n, at most 300 seconds |
| `Uploader.FlushShrinks` | internal/uploader/uploader.go:206-226 | Rows leased in a pass are held past the horizon whether or not the ack landed, so the measure drops |
| `Inventory.NoLostWakeUp` | internal/uploader/inventory.go:12-39 | In every interleaving: while a run is marked, a trigger is sent or about to be, the worker is starting, or it is in the sync that will clear the mark and that revocation would cancel |
| `Inventory.IdleMeansReady` | internal/uploader/inventory.go:12-39 | A waiting worker with nothing on its way means no run is marked |
| `Inventory.RevocationCancels` | internal/uploader/inventory.go:112-118 | With consent withdrawn, a sync that can still discover or send has a cancelled context |
| `Inventory.NoOutcomeAfterDisabled` | internal/uploader/inventory.go:83-104 | No current or error status follows a disabled write unless consent came back in between |
| `Inventory.LatePendingIff` | internal/uploader/inventory.go:53-57 | In every reachable state with consent withdrawn and disabled stored, pending can still be stored without new consent if and only if the worker stands between its check and that write |
| `Inventory.PendingMayOutliveConsent` | internal/uploader/inventory.go:53-57 | A run in which it is |
| `Inventory.InvAlong` | internal/uploader/inventory.go:12-118 | The two-mutex, one-channel invariant holds at every point of every run |
| `Inventory.ConsentedSync` | internal/uploader/inventory.go:12-104 | From every world with an idle worker and no run marked, a heartbeat with consent at or after the next attempt leads in twelve steps to a snapshot sent and reported as current, with the next attempt twelve hours after |
| `Inventory.NextSyncWaits` | internal/uploader/inventory.go:12-30 | Along every run with consent kept whose heartbeats come less than twelve hours after a current outcome, or five minutes after an error, no trigger comes and no sync starts, unless a trigger was left over |
| `Inventory.SyncIsAlone` | internal/uploader/inventory.go:26-30 | While a sync is under way heartbeats with consent bring no second trigger, and it stays the one that revocation would cancel |
| `Inventory.CurrentWasSent` | internal/uploader/inventory.go:58-81 | In every run an outcome of current follows a snapshot of that sync which the backend took |
| `Inventory.NoSendWithheld` | internal/uploader/inventory.go:70-81 | While consent stays withdrawn no sync begins to send |
| `Codex.EditCodex` | internal/setup/codex.go:106-129 | The text and whether anything changed are the line-level edit; the descriptions are exactly those of the keys it adds or replaces, in order |
| `Codex.NotesHideToken` | internal/setup/codex.go:106-129 | Every description is one of five texts that depend on the port only, so none shows the token |
| `Codex.EditCodexTwice` | internal/setup/codex.go:106-129 | For every port, every token without a double quote or line feed and every tame text, editing the result again changes nothing and returns the same bytes if and only if the text had at most two stale tables |
| `Codex.EditCodexFrame` | internal/setup/codex.go:223-290 | Up to empty lines at the end, every line stays, in order, but the one exporter line of the first [otel] table that is replaced and the first two stale tables; what is added, each missing key and nothing else, comes last in that table |
| `Codex.EditCodexAssigns` | internal/setup/codex.go:223-267 | Afterwards every managed key is assigned at depth zero inside the [otel] table |
| `CodexText.EditCodexWrites` | internal/setup/codex.go:43-49 | To the letter, for every tame text: the lines added are exactly those of environment = "control-center", metrics_exporter = "none", trace_exporter = "none", log_user_prompt = false and the exporter line whose key, followed by " =", begins no line of the table at depth zero; an exporter line that was there becomes that line |
| `CodexText.ExporterLine` | internal/setup/codex.go:95-99 | The exporter line in literal pieces around the port's digits and the token, with http://127.0.0.1:, /v1/logs, json and X-Burndown-Token spelled out |
| `CodexText.DecimalUnique` | internal/setup/codex.go:107 | The digits are the one decimal notation of the port without a leading zero |
| `CodexText.CodexHeaders` | internal/setup/codex.go:308-379 | A line heads the managed table if and only if it is otel between brackets, and the stale one if it is otel, exporter and otlp-http with dots between, each word bare or in quotes of either kind, with spaces around words and brackets; a missing table is appended as [otel] |
| `CodexText.NotesAreLines` | internal/setup/codex.go:112-124 | Each of the five descriptions is its line after "otel.", the exporter's with the token redacted |
| `Codex.SpacedHeaderIsCut` | internal/setup/codex.go:272-290 | A stale table followed by [otel] behind a no-break space: the first edit returns the empty text, the second still reports changes |
| `Codex.ThreeStaleTablesNeedTwoEdits` | internal/setup/codex.go:211-218 | With three stale tables the second edit is not a no-op |
| `Codex.OpenExporterIsCut` | internal/setup/codex.go:241-290 | Of [otel], exporter = {, a stale header and } the first edit leaves the header and the exporter line only, and the second still reports changes |
| `CodexEditor.EditedTwice` | internal/setup/codex.go:106-129 | The same if and only if for any settings whose own lines are sane |
| `CodexEditor.EditedFrame` | internal/setup/codex.go:223-290 | The same frame for any settings whose own lines are sane |
| `CodexEditor.OpenTextNeverSettles` | internal/setup/codex.go:401-412 | A text that ends inside a bracket, without those tables, grows and reports changes at every edit |
| `CodexEditor.EditWith` | internal/setup/codex.go:106-129 | The sequence of insertions, replacement and removals computes the line-level edit |
| `CodexEditor.EnsureTableKey` | internal/setup/codex.go:223-236 | The text is the line-level insertion |
| `CodexEditor.ReplaceOrInsertTableKey` | internal/setup/codex.go:241-267 | The text is the line-level replacement or insertion |
| `CodexEditor.RemoveTable` | internal/setup/codex.go:272-290 | The text is the line-level cut of the first such table |
| `CodexEditor.CollapseBlankLines` | internal/setup/codex.go:281-284 | After a cut that ends at a header or the end of the text the double-blank loop changes nothing |
| `CodexEditor.EnsureExporter` | internal/setup/codex.go:211-218 | Replace, then two removals, in that order |
| `CodexEditor.LineDepths` | internal/setup/codex.go:401-412 | The first depth is zero and each next one is the one before plus the line's brackets, but never below zero |
| `CodexEditor.FindTable` | internal/setup/codex.go:310-317 | The first matching header at depth zero, or -1 |
| `CodexEditor.TableEndAt` | internal/setup/codex.go:321-328 | The next header at depth zero, or the end |
| `CodexEditor.KeyPresent` | internal/setup/codex.go:295-306 | Whether a depth-zero line of the range assigns the key |
| `CodexEditor.AppendTableText` | internal/setup/codex.go:381-387 | A blank line unless the last one is blank or there is none, the header in brackets, the line |
| `CodexEditor.KeysExclude` | internal/setup/codex.go:295-306 | No line assigns two of the managed keys |
| `CodexLines.EditTwice` | internal/setup/codex.go:223-290 | The if and only if on lines, for any bracket counts and patterns |
| `CodexLines.EditFrame` | internal/setup/codex.go:223-290 | The same frame on lines, for any bracket counts and patterns |
| `CodexLines.FirstMeans` | internal/setup/codex.go:293-317 | A search finds the first line at depth zero that matches, and only that |
| `CodexLines.ManagedKeeps` | internal/setup/codex.go:223-267 | The body of the managed table afterwards is the old body with its first exporter line replaced, then added lines, each that of a key the body lacked |
| `CodexLines.EditedKeysFound` | internal/setup/codex.go:223-267 | The managed keys on lines |
| `CodexLines.StaleRemoved` | internal/setup/codex.go:272-290 | A removal takes exactly one stale table out of a flat text and adds no match of any pattern |
| `CodexLines.UnplainTableIsCut` | internal/setup/codex.go:319-347 | A managed header that only trimming reveals does not end a stale table, so the cut takes it along |
| `CodexLines.ExposedTableIsCut` | internal/setup/codex.go:241-290 | A stale header hidden in a bracket that the exporter line opens comes into the open when that line is replaced, and its cut takes the keys added after it |
| `CodexLines.OpenEndedNeverSettles` | internal/setup/codex.go:401-412 | Without a flat end the edit never settles |
| `TomlText.StripStringsAndComments` | internal/setup/codex.go:433-454 | The quote scanner keeps what lies outside strings and before a comment |
| `TomlText.LineDeltaOf` | internal/setup/codex.go:416-427 | Net bracket count of what is kept |
| `TomlText.HeaderMeaning` | internal/setup/codex.go:16-20 | The header test accepts exactly spaces, a non-empty bracketed name without a closing bracket, spaces |
| `TomlText.HeadersOf` | internal/setup/codex.go:330-377 | A line is a header of a table if and only if its brackets hold the table's words, in order, with dots between, each bare or in quotes, with spaces around |
| `TomlText.ScannerKeeps` | internal/setup/codex.go:433-454 | The scanner keeps all up to the first quote or comment sign, then what follows the closing quote of the same kind if there is one, and nothing after a comment sign |
| `TomlText.BracketsCount` | internal/setup/codex.go:416-427 | The count is square and curly brackets opened less those closed |
| `TomlText.SplitLinesOfText` | internal/setup/codex.go:459-468 | Lines without line feeds come back from the text they make |
| `TomlText.TextOfSplitLines` | internal/setup/codex.go:459-475 | A text comes back from its lines up to the final line feed it gains |
| `TomlText.QuotedSegment` | internal/setup/codex.go:351-365 | A quoted and a bare segment name the same key |
| `NoiseFilter.EventFilter.Apply` | internal/filter/filter.go:80-94 | An event goes if and only if its name, or what follows a leading "codex." in it, is listed as noise and not listed as kept; the others come out in order, and every one that goes is folded into its bucket |
| `NoiseFilter.BuiltInNoise` | internal/filter/filter.go:21-36 | With the built-in tables exactly websocket_event and codex.websocket_event go |
| `NoiseFilter.EventFilter.Accumulate` | internal/filter/filter.go:111-129 | Adds one event's counters and cost to the bucket of its model |
| `NoiseFilter.EventFilter.Flush` | internal/filter/filter.go:133-147 | One rollup per bucket, in whatever order the map yields, each named token_rollup and stamped with the second, and the buckets are empty |
| `NoiseFilter.ApplyConserves` | internal/filter/filter.go:80-129 | Buckets plus kept events equal buckets before plus all events, in total and per model, nil and empty model sharing a key |
| `NoiseFilter.RollupsConserve` | internal/filter/filter.go:133-173 | Rollups carry exactly what the buckets held, in total and per model, zero counters and absent costs included |
| `Daemon.Daemon.HandleLogs` | internal/daemon/daemon.go:145-168 | Queue, sessions, buckets, rollup clock and the returned counts are as specified for every failure of fold or enqueue; each of the six counters grows by the amount spelled out; usage is conserved key by key |
| `Daemon.Daemon.DueRollups` | internal/daemon/daemon.go:234-245 | Nothing before 60 seconds are over; then the filter is drained and the clock moves |
| `Daemon.NothingLostOrDoubled` | internal/daemon/daemon.go:145-168 | At every point of every interleaving, per counter, in total and per model: enqueued + lost to failed inserts + buckets + held by handlers = all that went through the filter |
| `Daemon.QueueMatchesSessions` | internal/daemon/daemon.go:145-168 | With no handler in flight and no store error, queue plus buckets equal all session contributions plus events without a session |
| `Daemon.SessionsPartition` | internal/queue/sessions.go:80-89 | Session groups and events without a session add up to the batch |
| `Daemon.UpsertFolds` | internal/queue/sessions.go:91-118 | The store's transaction adds to each session exactly its events' usage |
| `Pipeline.UsageReachesBackend` | internal/daemon/daemon.go:145-168 | At every point of every joint run of handlers, queue, uploader and backend, per counter, in total and per model: what the backend recorded + un-acked and unrecorded in the queue + gone from it + lost to failed inserts + buckets + held by handlers = all that went through the filter; and what is gone was evicted un-acked while no eviction empties the table under a batch in flight |
| `Pipeline.SettledIsDelivered` | internal/daemon/daemon.go:145-168 | With nothing in flight, failed or evicted, the backend's usage plus the buckets is exactly what went through the filter |
| `Pipeline.BornSplits` | internal/queue/queue.go:165-209 | What any set of enqueued events carries and what the others carry is what all carry |
| `Pipeline.LogSum` | internal/uploader/uploader.go:281-294 | The backend's record carries what its events carried when they were enqueued, each once |
| `Resolver.ResumedIsFull` | internal/codexrepo/resolver.go:177-202 | Over any sequence of growths and truncations, with stat'd sizes on line boundaries, no over-long line and settled partial lines, each call answers what a full rescan would, although an earlier read ran past its size |
| `Resolver.ResumeIff` | internal/codexrepo/resolver.go:300-325 | Resuming at a line boundary agrees with a full scan if and only if a line read names a directory or the cached one is right |
| `Resolver.GrowthIff` | internal/codexrepo/resolver.go:197-202 | The same after an earlier read went beyond the boundary |
| `Resolver.OverlongIff` | internal/codexrepo/resolver.go:315-317 | A cached prefix can be resumed after every growth if and only if none of its lines is over-long |
| `Resolver.MidLineIff` | internal/codexrepo/resolver.go:197-202 | Resuming inside a line agrees if and only if a later line names a directory or the rest of the line says on top of the cache what the whole line says on top of what came before |
| `Resolver.MidLineLosesRecord` | internal/codexrepo/resolver.go:182-187 | For every line that names a directory although neither its part up to the stat'd size nor the rest does, that call and the next, on the finished line, leave the directory as it was |
| `Resolver.UnsettledStays` | internal/codexrepo/resolver.go:182-187 | For every line that names a directory only while unfinished, a read beyond the stat'd size leaves that directory behind |
| `Resolver.FailedOpenIff` | internal/codexrepo/resolver.go:303-306 | After a file that could not be opened was cached as read, the next call agrees if and only if a later line names a directory or the skipped lines change nothing |
| `Resolver.LatestIsLast` | internal/codexrepo/resolver.go:327-332 | The directory is that of the last naming line, else the one held before |
| `Resolver.ScansLines` | internal/codexrepo/resolver.go:314-323 | Of lines shorter than 16 MiB the scanner delivers each without its line feed and one carriage return, the last one also when it has no line feed |
| `Resolver.ScanStops` | internal/codexrepo/resolver.go:315-317 | A line of 16 MiB or more ends the scan: neither it nor what follows is read |
| `Resolver.Resolver.ResolveClaudeEntry` | internal/codexrepo/resolver.go:159-190 | For an invalid id, an unknown session, a failed stat, an unchanged file and a read: a cached entry is returned when path, size and time are as cached; else the directory is that of the last record read that has one and no session id or this one, read from the cached size when the file did not shrink, and from the start otherwise |
| `Resolver.Resolver.ReadLatestClaudeCwd` | internal/codexrepo/resolver.go:300-325 | The scanner loop is the fold over the scanned lines from the offset, and gives the directory of the last record that has one and no session id or this one |
| `Resolver.Resolver.RefreshClaudeIndex` | internal/codexrepo/resolver.go:240-256 | A session already indexed keeps its path; another gets the first path walked for it |
| `Resolver.Resolver.FindClaudeSession` | internal/codexrepo/resolver.go:232-238 | A known path is used as it is; otherwise the index is refreshed once |
| `Truncate.Truncated` | internal/normalize/normalize.go:209-225 | The longest prefix of the first 2048 bytes that is valid UTF-8 by section 4 of RFC 3629; from valid text at most 3 bytes are lost, and what is cut off is valid too |
| `Truncate.ValidIffEncoded` | internal/normalize/normalize.go:216-225 | Text is valid if and only if it is the concatenation of the octets of some characters by section 3 of RFC 3629, surrogates and numbers beyond 10FFFF excluded |
| `Truncate.BoundaryNear` | internal/normalize/normalize.go:216-225 | In valid text a character boundary lies at most 3 bytes below any cut |

## Left out

- HTTP, gzip, retries, JSON encoding and the receiver's guards: a send is one outcome.
- SQLite, page sizes and vacuum: rows in id order and an arbitrary size reading per round; a vacuum only succeeds or fails.
- The metrics queue (internal/queue/metrics.go): the event queue's code again.
- The keychain, permissions and rename: three atomic entry operations and one atomic file save, each allowed to fail.
- The TOML parser and verifyCodexEdit with its map of added keys: the editor is modelled as text.
- enrichRepos, repository labels and keys, git and URL parsing (internal/codexrepo/repokey.go): library calls; a resolver entry stops at its directory.
- The Codex side of the resolver (resolveEntry, readLatestCWD): always a full rescan under the same cache test.
- Read errors in the middle of a session file: a file is read to its end or could not be opened.
- Normalization other than the cap on error messages, the CLI, login, doctor, stats, services and logging.
- int64 overflow of token sums and floating-point rounding of costs: unbounded integers and exact reals.
- Years beyond 9999: stamps are compared as instants, the source compares RFC 3339 texts in UTC (internal/queue/sessions.go:177-184), which differ only for a year of five digits.
- Backoff as a property of the whole uploader: accepted heartbeats and empty flushes reset it; the widening alone has a closed form.
- The concurrent threads of internal/uploader/inventory.go: steps on a value, one per critical section or call, instead of methods on a shared object; shutdown of the worker is not a step.
- `SessionSync.SyncedWhenAcked`: assumes at most 10,000 un-acked sessions when the cap runs, and that a deleted session comes back in a second later than the stamp the backend keeps; `SessionSync.RecreatedSessionIsLost` shows the second is needed.
- `UploadProtocol.ExactlyOnceEffect`: assumes that no eviction under a batch in flight stays over a cap to the last row; `UploadProtocol.EmptiedTableLosesAnEvent` shows it is needed.
- `Uploader.Uploader.RotateCheckOnce`: the day between rotations assumes successful saves and a monotone clock; a login outside the process is only the reload of its key.
- `Uploader.Uploader.FlushOther`: the leases of the metric and session queues are given, not taken from those queues.
- `Uploader.Uploader.Run`: a process ends between two steps that save; a crash after the backend issued a key and before its stamp is stored is not part of the history that a later process starts from.
- `Uploader.Uploader.FlushOnce`: enqueues during the flush are not part of it, and the queue's clock moves by at most one lease.
- `Daemon.NothingLostOrDoubled`: a session fold is what it adds to totals; `Daemon.UpsertFolds` ties that to the store's transaction.
- `Codex.EditCodex`: a token is free of line feeds, and for the results on tame texts also of double quotes; the program's tokens are hexadecimal.
- `Resolver.ResumedIsFull`: a file rewritten to the same or a larger size with other contents is not covered.
