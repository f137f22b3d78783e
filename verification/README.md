# Rykvo Voice: models and proofs

Dafny models of the parts of Rykvo Voice, a telephony appliance, that have to stay correct across crashes, lost
database replies, concurrent workers and unreliable clients, with proofs of what they keep.
`dafny verify dfyconfig.toml` checks everything.

Two forms are used side by side. Code that changes rows, files or fields step by step is a `class` whose methods are
proved against functions of the old state. Where several actors interleave, those functions become the steps of a
state machine, `Enabled` and `Do`, in which one action is one atomic effect (a statement, a file operation, an update
under a lock), so that a crash or another worker may come between any two of them; the lemmas then speak about every
run. `MessageRuntime`, `TunnelManager` and `Webhook.Outbox` are tied to their machines directly: each effect of a method takes the
machine's step, and the results about runs apply to whatever the methods did. A lost reply (`LostCommitted`,
`LostDropped`) is an error after which the statement may or may not have taken effect. All lemmas carry
`{:induction false}`, so every induction is written out.

| module | models | main results |
|---|---|---|
| `Lifecycle` | outgoing messages: claim, hand-off, outcome journal, replay, crash, timeout, receipts, purge | `NoMessageResubmitted`, `OutcomeNeverLost`, and that both assumptions are needed (`DishonestAnswerResubmits`, `UndoneUnlinkResubmits`) |
| `MessageRuntime` | the same code as it updates rows, memory and journal files | `ProcessMessage`, `Restart`, `RuntimeNeverResubmits`, `FirstMessage` |
| `Sync` | incremental message sync between server and web client | `RowsStayCurrent`, `NeverRejected`, `ClientStaysSynced`, `FloorGuardIsExact`, `LateRequestMissesDeletion` |
| `Tunnel`, `TunnelManager` | creating and removing the Cloudflare tunnel and DNS record | `NothingLeaks`, `ForeignExactly`, `ConnectFlow`, `Reconnect`, `CleanupFlow` |
| `Upload` | resumable upload of an update package | `Updater.UploadChunk`, `Service.OffsetOnlyGrows`, `Service.ChunkIsInstalled` |
| `Assembly` | incoming text messages in one or more parts (3GPP TS 23.040, section 9.2.3.24.1) | `ReceivedIsWhole`, `AnyOrderAssembles`, `JoinsExactly`, `Inbox.StoreIncoming` |
| `Receipts` | status reports (3GPP TS 23.040, sections 9.2.3.6 and 9.2.3.15) | `DeliveredExactly`, `AmbiguousAdvancesNothing` |
| `Limiter` | admission and rate limits of the developer API | `TakeRefines`, `AdmissionsBounded`, `RetryExact` |
| `Requests` | request ids, guards and retention | `InsertionsLimited`, `CloseInsertionsNeedStaleGuard`, `PurgeGuardsExactly`, `StaleGuardReinserts` |
| `Webhook` | webhook outbox with leases, retries and compaction | `DeliveryBounded`, `SuccessSettles`, `NoMorePosts`, `StaleForever`, `CompactionKeepsNewest`, `Outbox.Deliver` |
| `Drain` | maintenance drain, work reservations, jobs, control marks, calls | `StatusIsSound`, `WorkKeptApart`, `GuardedExactly`, `WorkDuringApnChange` |
| `SipFence` | SIP account snapshots and their epoch | `AppliedLives`, `UncertainIsSafe`, `RefreshConverges` |
| `WiFi` | the Wi-Fi calling line of one module | `ModuleWiFi.Valid` kept by every method, `Recover`, `OneRestoreAnOutage` |
| `PrimaryLink` | choice of the primary network and its resources | `Controller.SelectPrimary`, `Controller.LeftAfterAbsence`, `EveryCandidateProbed`, `ResourcesApart` |
| `FairSend` | fair dispatch of pending modules | `NobodyStartsTwiceFirst`, `Scheduler.DispatchSends` |
| `PcmRing` | ring buffer for call audio | `Queue.Push`, `Queue.Pop` |

## What the proofs rest on

- At most one worker per module processes messages (`backend/internal/dispatch/group.go:28-53`, proved for the class
  `FairSend.Scheduler`), and a worker lives shorter than `Lifecycle.WORKER_LIMIT`, an hour: its contexts end within 480
  seconds.
- Transports, text, MMS over the modem and MMS over Wi-Fi alike, answer "not ready", "busy" or "no network" only when
  nothing was submitted. For each answer that breaks this, `Lifecycle.DishonestAnswerResubmits` gives a run in which every answer is
  that one and nothing else goes wrong, no crash, no lost reply, no file fault, and which submits a message again.
- The unlink of a record with a re-queueing outcome that was replayed from its file is either durable or not made. For
  each honest answer that re-queues, `Lifecycle.UndoneUnlinkResubmits` gives a run with two crashes and one such unlink
  of that answer's record, in which every other step goes well, and which submits a message again. Without such an
  unlink no number of crashes does (`Lifecycle.CrashesAloneAreSafe`). Of other outcomes' unlinks nothing is assumed.
- A statement, or a call of the Cloudflare API, whose reply was lost is decided when the reply is lost; it does not take
  effect later.
- Every committed change of a row gets a fresh, larger revision; generated ids, names, tokens and tickets do not repeat;
  SHA-256 is taken as free of collisions; clocks do not go back.
- Other users of the Cloudflare account neither change nor forge the appliance's tunnel and record, and do not delete
  the tunnel at a critical moment: while its id is saved, or about to be, and another one may still be created. Deleting
  the record, or the tunnel at any other moment, does no harm. `Tunnel.ForeignExactly` proves both directions, and
  `Tunnel.OutsideDeletionLeaks` reaches both critical moments from a fresh installation.

## Where the code does less than its comments or tests suggest

- `backend/internal/durable/journal.go:105-120`: when the directory sync after an unlink fails, nothing in memory
  remembers a record that was replayed from its file only. A later crash may bring the record back after the message
  was handed off once more, and its outcome then re-queues the message (`Lifecycle.UndoneUnlinkResubmits`).
- `backend/messages_sync.go:53-55` compares the purge floor with the snapshot only, once a round carries one. A purge in
  the middle of a round can then hide a deletion from the client: `Sync.LateRequestMissesDeletion` is such a run from an
  empty client. `Sync.FloorGuardIsExact` gives the exact condition: on a last page the floor must be at most one above
  the request's cursor, since the tombstones of threads are purged strictly below the floor
  (`backend/retention.go:119`). What does not depend on it holds in every run: `RowsStayCurrent`,
  `RoundReachesSnapshot`, `NeverRejected`.
- `backend/retention.go:120,187` deletes at most 256 expired guards a batch and leaves a guard that is already there.
  `Requests.StaleGuardReinserts` is a run from an empty store that inserts an id twice within eight days;
  `Requests.CloseInsertionsNeedStaleGuard` says that every such pair has a purge with a stale guard in between,
  `PurgeGuardsExactly` when a purge leaves a live guard, and `SmallBacklogIsFresh` when all do.
- `backend/messages_runtime.go:511` compares reports with the messages of seven days only, so a report that fits two
  messages becomes unambiguous when the older one ages out (`Receipts.AgeingResolvesAmbiguity`).
- Two messages from one sender with the same reference within ten minutes can be joined into one
  (`Assembly.SharedReferenceMixes`; `JoinsExactly` says which message a fragment joins, and that its text plays no part).
- A Wi-Fi change may begin while an APN change holds the module's mark, and removes the mark
  (`Drain.WiFiTakesTheMark`, `Drain.WorkDuringApnChange`). `Drain.GuardedExactly` says which runs keep all marks.
- A tunnel that others delete at a critical moment, followed by a lost save, leaves a second tunnel behind
  (`Tunnel.ForeignExactly`, `Tunnel.OutsideDeletionLeaks`).
- When the user prefers another link while a substitute is in use, the substitute stays as long as it is connected: the
  new link's absence is not waited for (`PrimaryLink.Controller.SelectPrimary`).

## Model

| member | source | states |
|---|---|---|
| Lifecycle.RetryMeansNothing | backend/messages_runtime.go:367-501 | Over all answers of all three transports: a transport is honest if and only if an answer that puts the message back in the queue implies that nothing was submitted. |
| Lifecycle.ClassifyMeans | backend/messages_runtime.go:367-501 | For each of the three transports: accepted, partial, failed, unknown and waiting each if and only if the reply says so, in terms of its fields alone, with the issue that goes with it; an issue is empty exactly if the message was accepted. |
| Lifecycle.AnswerShown | backend/messages_runtime.go:367-501 | A row that is being sent takes that state and issue, nothing else of it changes, and unless it failed or waits again it now awaits its receipt. |
| Lifecycle.TakenExactly | backend/messages_results.go:35-41 | Which rows an outcome reaches, and which it leaves as they are: a definite late one replaces a timeout, and an interrupted sending takes any. |
| Lifecycle.TimeoutExactly | backend/messages_timeout.go:11-23 | What is sent fails after half an hour without an answer, what waits fails when it expires, and nothing else does. |
| Lifecycle.PrecheckExactly | backend/messages_runtime.go:259-327 | The checks before the claim let a message through under one stated condition, leave it alone under another, and otherwise stop it as expired, cancelled or waiting, each if and only if. |
| Lifecycle.PostcheckExactly | backend/messages_runtime.go:337-366 | The same for the checks after the claim, with the outcome of a download for an incoming MMS. |
| Lifecycle.NoMessageResubmitted | backend/messages_runtime.go:242-382 | In every run of enqueue, claim, submit, journal fault, replay, crash, restart, timeout, receipt, deletion and purge, a message is handed to a transport again only if every earlier hand-off of it was answered with "nothing submitted". Ids freed by a purge are told apart by their time of insertion. |
| Lifecycle.StepInv | backend/messages_runtime.go:242-382 | Each action keeps the invariant that links row states, journal entries in memory and on disk, entries a crash may bring back, workers, the replay pass and the log of hand-offs. |
| Lifecycle.RunInv | backend/messages_scheduler.go:118-238 | Every run keeps it. |
| Lifecycle.OutcomeInv | backend/messages_results.go:21-43 | The guarded outcome update keeps the invariant, provided that a re-queueing outcome belongs to a message whose hand-offs are settled. |
| Lifecycle.InvCheckJournal | backend/internal/durable/journal.go:257-266 | The look for a pending outcome keeps it: a worker that goes on serves a message all of whose hand-offs are settled. |
| Lifecycle.InvClaim | backend/messages_runtime.go:328-336 | The compare-and-set claim keeps the invariant, also when its reply is lost after it took effect. |
| Lifecycle.InvHandOff | backend/messages_runtime.go:337-366 | The call of the transport keeps it: whatever was handed off before is settled. |
| Lifecycle.InvAnswered | backend/messages_runtime.go:367-381 | The answer of an honest transport keeps it. |
| Lifecycle.InvLock | backend/internal/durable/journal.go:122-141 | Recording an outcome in memory under the key's lock keeps it. |
| Lifecycle.InvSaveFile | backend/internal/durable/journal.go:80-103 | Saving the record keeps it, whether the rename is durable, undone by a crash, or not made. |
| Lifecycle.InvApplyRow | backend/internal/durable/journal.go:141-146 | Applying the outcome keeps it, with lost replies. |
| Lifecycle.InvRemoveFile | backend/internal/durable/journal.go:105-120 | Removing the record keeps it, although a crash may bring the file back. |
| Lifecycle.InvReplayTake | backend/internal/durable/journal.go:268-287 | Taking a record for replay keeps it. |
| Lifecycle.InvReplayApply | backend/internal/durable/journal.go:288-291 | Replaying a record into the row keeps it. |
| Lifecycle.InvReplayRemove | backend/internal/durable/journal.go:292-293 | Removing a replayed record keeps it. |
| Lifecycle.InvStartup | backend/messages_scheduler.go:95-116 | The two statements at startup, which turn "sending" into "unknown" and restore old confirmations, keep it. |
| Lifecycle.InvExpire | backend/messages_timeout.go:11-23 | Timeouts and receipts keep it, concurrently with workers. |
| Lifecycle.InvPurge | backend/retention.go:155-202 | Purging a message deleted a week ago keeps it: nothing of it can be in flight any more. |
| Lifecycle.InvEnqueue | backend/messages_enqueue.go:119-144 | A new message keeps it, also under an id that a purge has freed. |
| Lifecycle.InvCrash | backend/internal/durable/journal.go:80-120 | A crash, which ends all workers, empties the memory and undoes any of the unsynced file operations, keeps it. |
| Lifecycle.SaveMakesDurable | backend/internal/durable/journal.go:80-103 | After a synced save the outcome is journalled in the sense used by OutcomeNeverLost. |
| Lifecycle.StepKeepsOutcome | backend/internal/durable/journal.go:122-146 | No step but the one that gives the outcome to the database, or the damage of its file, loses a journalled outcome. |
| Lifecycle.OutcomeNeverLost | backend/internal/durable/journal.go:122-146 | Over every run, a durable outcome stays journalled until the database has taken it, unless the file itself is damaged. |
| Lifecycle.DishonestAnswerResubmits | backend/messages_runtime.go:367-381 | For every answer that re-queues although something may have been submitted there is a run, from an empty system, in which every transport gives that answer to a message of its kind, no step but these answers breaks an assumption, nothing crashes or is lost, and a possibly submitted message is handed off again. |
| Lifecycle.UndoneUnlinkResubmits | backend/internal/durable/journal.go:105-120 | For every honest answer that re-queues there is a run, from an empty system, in which every transport gives that answer, exactly one unlink, of its replayed record, is not durable, the process dies twice, every other step goes well, and a possibly submitted message is handed off again. |
| Lifecycle.CrashesAloneAreSafe | backend/internal/durable/journal.go:122-146 | With an honest answer and no such unlink, any number of crashes in a run that otherwise goes well submits nothing again. |
| MessageRuntime.Runtime.ApplyMessageOutcome | backend/messages_results.go:21-43 | One guarded update of one row; known states only; an error does not tell whether it took effect. |
| MessageRuntime.Runtime.Enqueue | backend/messages_enqueue.go:132-144 | A new row in the queue, and nothing else. |
| MessageRuntime.Runtime.Purge | backend/retention.go:155-202 | A finished message deleted a week ago goes. |
| MessageRuntime.Runtime.Settle | backend/messages_runtime.go:505-534 | A receipt moves one waiting message to delivered or failed, and nothing else of it. |
| MessageRuntime.Runtime.SaveMessageOutcome | backend/messages_results.go:45-54 | Memory, then file, then row, then removal: whichever step fails, the outcome is in the row or still pending, and on disk if it was saved. |
| MessageRuntime.Runtime.RecordOutcome | backend/internal/durable/journal.go:127-139 | The outcome is in memory exactly if the key's lock was obtained. |
| MessageRuntime.Runtime.SaveFile | backend/internal/durable/journal.go:80-103 | The record replaces an older one of its key, or nothing changes. |
| MessageRuntime.Runtime.RemoveFile | backend/internal/durable/journal.go:105-120 | Memory forgets an outcome only after a durable unlink. |
| MessageRuntime.Runtime.ExpireMessageResults | backend/messages_timeout.go:11-23 | Every row of the batch that waited too long fails with its proper issue; every other row is as before. |
| MessageRuntime.Runtime.ReadMessage | backend/messages_runtime.go:246-258 | A selected message goes on exactly if no outcome of it is pending in memory or on disk. |
| MessageRuntime.Runtime.CheckBefore | backend/messages_runtime.go:259-327 | The verdict before the claim decides whether the worker stops with an outcome, leaves, or may claim. |
| MessageRuntime.Runtime.ClaimMessage | backend/messages_runtime.go:328-336 | The claim succeeds exactly if the row is still in the state it was selected in, not deleted, of the current card, and the reply arrives. |
| MessageRuntime.Runtime.CheckAfter | backend/messages_runtime.go:337-366 | The verdict between claim and submission. |
| MessageRuntime.Runtime.Submit | backend/messages_runtime.go:343-381 | One hand-off is added to the log, with what its answer says, and the outcome means what the transport answered (`Lifecycle.Means`, state by state and issue by issue in terms of the reply). |
| MessageRuntime.Runtime.ProcessMessage | backend/messages_runtime.go:242-382 | At most one hand-off, exactly when no outcome is pending, both conditions hold and the claim wins. Once its outcome is saved, the row says what the transport answered: accepted, partial, failed, unknown or waiting if and only if the fields of the reply say so, and an accepted one awaits its receipt; a message that was not handed off shows why. No other row changes. |
| MessageRuntime.Runtime.CheckSelected | backend/messages_runtime.go:257-327 | A selected message goes on exactly if no outcome of it is pending and the condition before the claim holds; one that is stopped shows why. |
| MessageRuntime.Runtime.ClaimSelected | backend/messages_runtime.go:257-336 | From the selection to the claim, which it wins exactly if that holds and the reply arrives. |
| MessageRuntime.Runtime.SendClaimed | backend/messages_runtime.go:337-382 | After the claim one condition decides alone whether there is a hand-off; the row, if the outcome is saved, then says what was answered or why there was none, and is as before if not. |
| MessageRuntime.Runtime.ReplayOne | backend/internal/durable/journal.go:268-293 | The outcome in memory, or else in the file, reaches the row before its record goes; a failed apply leaves both in place. |
| MessageRuntime.Runtime.ReplayAll | backend/internal/durable/journal.go:166-255 | The replay at startup ends with memory empty and only damaged records left, if every reply and unlink succeeds, and touches only rows that have a record. |
| MessageRuntime.Runtime.Restart | backend/messages_scheduler.go:95-116 | A death of the process at any point: memory is gone, rows stay, and undone file operations are as they were. |
| MessageRuntime.Runtime.PrepareMessages | backend/messages_scheduler.go:95-116 | After a successful startup no row is "sending": exactly those that were are unknown and interrupted, exactly the confirmations that had been taken back count again, and every other row is as before. |
| MessageRuntime.RuntimeNeverResubmits | backend/messages_runtime.go:242-382 | Whatever sequence of these methods has run from an empty start, enqueues, deletions, purges, crashes and restarts included: if the surroundings kept to the assumptions (`Sound`, kept by every method whose arguments do), no possibly submitted message was handed off again. |
| MessageRuntime.FirstMessage | backend/messages_scheduler.go:95-116 | From an empty start by the methods alone: startup, enqueue, hand-off, lost answer, death, replay, restart. One hand-off is on record and the message counts as unknown. |
| Sync.ChangedValid | backend/messages.go:152-185 | Whatever is written or purged, the head computed by the server and the floor never go back. |
| Sync.ScanComplete | backend/messages.go:152-185 | Every row in a page's range is on the page, unless the limit cut the page off before it. |
| Sync.ServedLists | backend/messages_sync.go:45-68 | A served page lists exactly the rows between the request's cursor and its own; without more, its cursor is the snapshot. |
| Sync.ServedExactly | backend/messages_sync.go:45-68 | A request is rejected, told that its cursor expired, or served, each under its exact condition; a page that does not end the list is full and moves the cursor on. |
| Sync.StartOverIsServed | frontend/message-data.js:86-88 | A client whose cursor expired starts over from nothing, and its next request is served. |
| Sync.MergedGood | frontend/message-data.js:66-98 | Merging a page keeps the promise of the client's mirror and moves it up to the page's cursor. |
| Sync.StepInv | frontend/message-data.js:66-98 | Requests, answers, losses, resets, local sends, and changes and purges on the server in between keep the invariant of server, page in flight and mirror. |
| Sync.ClientStaysSynced | backend/messages_sync.go:46-68 | In every run whose later requests come while the floor is at most one above their cursor, a client between rounds that still shows a purged row gets CURSOR_EXPIRED on its next request, and all it holds up to its cursor is current. |
| Sync.RowsStayCurrent | frontend/message-data.js:66-98 | In every run, without any condition and at any moment, the client holds the current version of every row up to its cursor. |
| Sync.RoundReachesSnapshot | backend/messages_sync.go:57-68 | In every run the last page of a round brings the cursor to the snapshot of the round's beginning. |
| Sync.NeverRejected | backend/messages_sync.go:46-52 | In every run, a client that follows the protocol is never told that its cursor is invalid. |
| Sync.StepCurrent | frontend/message-data.js:66-98 | Every step, however far the floor has moved, keeps cursors, page in flight and mirror consistent. |
| Sync.FloorGuardIsExact | backend/messages_sync.go:53-55 | A last page is safe for all mirrors and servers if and only if the floor is at most one above the request's cursor, or above the whole round; the code compares the snapshot only. |
| Sync.LateRequestMissesDeletion | backend/messages_sync.go:53-55 | A run from an empty client: a row is deleted, another message too, and both are purged in the middle of a round of two pages; the round ends, the client shows the row, and its next request is served. |
| Sync.MessageData.MergeOne | frontend/message-data.js:9-18 | An item changes the mirror exactly if it is newer, unknown, or confirms a provisional one; what is then shown is the item, or, for a message just sent, what the thread showed later already. |
| Sync.SentIsShown | frontend/message-data.js:9-18 | A message just sent is shown at once, unless its thread shows something later; the answer about the same or a later revision replaces it; no other thread changes. |
| Sync.MessageData.Poll | frontend/message-data.js:83-98 | The fields after an answer: everything is forgotten if the cursor expired, cursor and snapshot are those of the page if one came, and nothing changes otherwise; another request follows exactly if there is more or the cursor expired. |
| Tunnel.InvConnect | backend/tunnel.go:136-171 | Accepting a connection, with its save acknowledged or lost, keeps the invariant of account, database and memory. |
| Tunnel.InvBoot | backend/tunnel.go:55-95 | A restart from whatever was saved keeps it, and resumes the cleanup or the connection. |
| Tunnel.InvSave | backend/tunnel.go:106-116 | Each save of the connect worker keeps it, although a failed one may be in the database and is rolled back in memory. |
| Tunnel.InvLookup | backend/cloudflare.go:189-242 | What the lookup decides keeps it: found resources are taken over only if they are the appliance's own. |
| Tunnel.InvCreateT | backend/cloudflare.go:204-218 | Creating the tunnel keeps it, with the reply lost or not: at most one tunnel, under a saved intent. |
| Tunnel.InvCreateD | backend/cloudflare.go:219-242 | Creating the record keeps it: it points to the saved tunnel. |
| Tunnel.InvDisconnect | backend/tunnel_cleanup.go:93-117 | The wish to disconnect keeps it, with its save acknowledged or lost. |
| Tunnel.InvCleanRead | backend/tunnel_cleanup.go:160-173 | The cleanup begins with the binding it needs. |
| Tunnel.InvLocate | backend/cloudflare.go:246-257 | If no tunnel of the name is found, there is nothing to remove at all. |
| Tunnel.InvInspect | backend/cloudflare.go:261-281 | The tunnel inspected is the only one there can be. |
| Tunnel.InvListDns | backend/cloudflare.go:282-291 | The records chosen for deletion are all the records of the appliance. |
| Tunnel.InvCleanDelete | backend/cloudflare.go:292-299 | Each deletion, lost or not, keeps it. |
| Tunnel.InvCleanDropTunnel | backend/cloudflare.go:301-310 | After the tunnel is deleted nothing of the appliance is left in the account. |
| Tunnel.InvCleanSave | backend/tunnel_cleanup.go:174-196 | The account counts as cleared, and the binding as blank, only in a state where it is. |
| Tunnel.InvCleanFiles | backend/tunnel_cleanup.go:178-186 | Credentials go only after the cleared account was saved. |
| Tunnel.InvCrash | backend/tunnel.go:55-95 | The process may die between any two effects. |
| Tunnel.InvForeign | backend/cloudflare.go:189-203 | Deletions by others keep the invariant, apart from the tunnel at a critical moment. |
| Tunnel.StepInv | backend/tunnel.go:224-302 | Every action of the manager, both workers, the API and the account's other users keeps the invariant. |
| Tunnel.NothingLeaks | backend/tunnel_cleanup.go:160-187 | In every run from a fresh installation: a tunnel of the appliance exists only while its name and the intent are saved, a record only while its tunnel is saved, there is at most one tunnel, and whenever "disconnected", a cleared account or missing credentials are saved, nothing of the appliance is left in the account. |
| Tunnel.ForeignExactly | backend/cloudflare.go:246-281 | In every state of the invariant: what others delete can lead to a disconnection that leaves a tunnel behind if and only if they delete the appliance's tunnel while its id is saved, or about to be, and another one may still be created. |
| Tunnel.OutsideDeletionLeaks | backend/tunnel.go:275-281 | Two runs from a fresh installation, to just before and just after the tunnel's id is saved; deleting the tunnel at either moment lets a later run end in a disconnection that leaves another tunnel behind. |
| TunnelManager.Manager.Update | backend/tunnel.go:106-116 | Memory takes a change exactly if the save is acknowledged; the database may take it regardless. |
| TunnelManager.Manager.Connect | backend/tunnel.go:136-171 | Who is refused and why, and that nothing else but a failed save stands against it; a worker starts only with the wish saved, under a fresh name if there was none; nothing changes in memory otherwise. |
| TunnelManager.Manager.Disconnect | backend/tunnel_cleanup.go:93-117 | The cleanup starts only with the wish to remove saved; repeating it changes nothing. |
| TunnelManager.Manager.ConnectEnds | backend/tunnel.go:172-199 | A failed attempt is shown as failed unless a disconnection is under way. |
| TunnelManager.Manager.Restart | backend/tunnel.go:55-95 | After the process died, what was saved decides whether the cleanup or the connection goes on; only status and wish to resume may differ from it. |
| TunnelManager.Manager.Authorize | backend/tunnel.go:225-238 | A certificate is obtained only if there is none and nothing was provisioned with an earlier one. |
| TunnelManager.Manager.SaveStep | backend/tunnel.go:106-116 | The connect worker goes on only after an acknowledged save. |
| TunnelManager.Manager.EnsureTunnel | backend/cloudflare.go:204-218 | Exactly: the tunnel of the name that the lookup returned if there is one, else a new one if its creation is acknowledged, else none; and what that does to the account. |
| TunnelManager.Manager.EnsureDns | backend/cloudflare.go:219-242 | Exactly: the record found at the domain if its target and comment are the binding's, none if they are not, else a new one if its creation is acknowledged; a domain in use is never touched. |
| TunnelManager.Manager.Intend | backend/tunnel.go:224-274 | It succeeds exactly if there is a certificate or one is granted to a binding not yet provisioned, and zone, secret and both saves are good; nothing changes in the account. |
| TunnelManager.Manager.Tunnelled | backend/tunnel.go:275-281 | It succeeds exactly if a tunnel is found or made and its id saved; that id, and the tunnels of the account afterwards. |
| TunnelManager.Manager.Publish | backend/tunnel.go:282-302 | It succeeds exactly if the record is found to be the own one, or made, and saved, and the files are written; its id, and the records of the account afterwards. |
| TunnelManager.Manager.ConnectFlow | backend/tunnel.go:224-302 | One whole attempt: it succeeds if and only if every answer it needs is good and no foreign record is at the domain (`Connects`); then intent, tunnel and record are saved and exist, what was missing was added to the account and nothing else changed. |
| TunnelManager.Manager.Reconnect | backend/tunnel.go:55-95 | A connected appliance dies and starts again: with good replies, and nobody else at its domain, it is connected again with the same tunnel, and the account is as it was. |
| TunnelManager.WellConnects | backend/cloudflare.go:204-242 | With good replies an attempt fails if and only if no certificate can be had or the record at the domain is not the appliance's own. |
| TunnelManager.Manager.CleanupReads | backend/tunnel_cleanup.go:160-173 | The cleanup goes on exactly if the connect worker has ended and, where something was provisioned and not yet cleared, the certificate is there; and where it goes on. |
| TunnelManager.Manager.Identify | backend/cloudflare.go:246-281 | Exactly which tunnel is to go: by saved id or by name, whether it exists, and unknown if a lookup fails or it carries another name. |
| TunnelManager.Manager.DropRecord | backend/cloudflare.go:295-299 | Up to five attempts (`backend/tunnel_cleanup.go:62-91`), which succeed exactly if one of those made is acknowledged; success means that the record is gone, failure that it may be. |
| TunnelManager.Manager.DropRecords | backend/cloudflare.go:288-300 | It succeeds exactly if the deletion of each own record does; then no record of the binding is left at the domain; records of others stay. |
| TunnelManager.Manager.DropOwnTunnel | backend/cloudflare.go:309-311 | Up to five attempts, which succeed exactly if one of those made is acknowledged; success means that the tunnel is gone. |
| TunnelManager.Manager.RemoveOwned | backend/cloudflare.go:243-311 | It succeeds if and only if the tunnel is known to be gone or own and all deletions succeed (`Removes`); nothing of others goes on any outcome; success leaves nothing of the appliance in the account. |
| TunnelManager.Manager.CleanupSave | backend/tunnel_cleanup.go:189-196 | Up to five attempts while there is time (`backend/tunnel_cleanup.go:62-91`); it succeeds exactly if one of those made is acknowledged, and then memory and database hold the change. |
| TunnelManager.Manager.FinishCleanup | backend/tunnel_cleanup.go:174-187 | It succeeds exactly if both saves and the removal of the files do; credentials go only after the cleared account is saved, and the binding is blank only when the account is clear. |
| TunnelManager.Manager.CleanupFlow | backend/tunnel_cleanup.go:119-187 | The whole cleanup succeeds if and only if every answer it needs is good (`CleansUp`); then the binding is blank, the credentials are gone and the account is clear; on any outcome what belongs to others is still there. |
| TunnelManager.WellCleansUp | backend/tunnel_cleanup.go:119-187 | With good replies a cleanup succeeds unless the certificate is gone or the saved id belongs to a tunnel of another name, if anything was provisioned and not cleared. |
| TunnelManager.Manager.CleanupReport | backend/tunnel_cleanup.go:146-157 | A failed cleanup is shown as failed and keeps the wish to remove. |
| TunnelManager.Manager.NothingLeftBehind | backend/tunnel_cleanup.go:160-187 | Whatever sequence of methods has run: if the appliance is disconnected, cleared or without a certificate, nothing of it is left in the account. |
| Upload.Receive | deploy/local-update.py:234-239 | Exactly the announced bytes are read, or none count. |
| Upload.Updater.StartUpload | deploy/local-update.py:181-210 | Each refusal under its exact condition; otherwise, unless the process dies, a repeated start resumes at the acknowledged offset without changing anything, and a new upload starts empty under a new id; another owner's upload is left alone. |
| Upload.Updater.Begin | deploy/local-update.py:201-210 | Everything of the previous upload is gone before the new one is recorded, also when the process dies in between. |
| Upload.Updater.AppendChunk | deploy/local-update.py:244-252 | The bytes are on disk before the offset that acknowledges them; a torn write behind the offset does no harm. |
| Upload.Updater.UploadChunk | deploy/local-update.py:220-254 | A chunk is acknowledged exactly if it is the next one or repeats bytes already there; every refusal leaves the state as it was. |
| Upload.Updater.FinishUpload | deploy/local-update.py:257-272 | Each refusal under its exact condition: an owned, complete upload with its file is always accepted if the validator starts, and a repeated finish shows where it stands. The validator gets a file of exactly the announced size equal to the acknowledged chunks; if it cannot start, the upload is open again as before. |
| Upload.Updater.ClearUpload | deploy/local-update.py:161-164 | The part goes before the record that describes it. |
| Upload.Updater.Cancel | deploy/local-update.py:299-303 | The owner, and only the owner, can give an upload up; then nothing of it is left. |
| Upload.Updater.Apply | deploy/local-update.py:304-314 | The owner of a validated package, with its ticket, and nobody else, can queue the installation. |
| Upload.Updater.Expire | deploy/local-update.py:166-173 | Only an outdated upload that is not being processed ends. |
| Upload.Updater.Show | deploy/local-update.py:58-68 | Work that stopped without a result counts as failed; all else is shown as it is. |
| Upload.Updater.Run | deploy/local-update.py:333-358 | What is installed is the complete content of a finished upload whose package was accepted; an accepted package always gets ready, and is installed once queued, and a refused one fails and is removed. |
| Upload.Query | deploy/local-update.py:278-317 | While a package is validated or installed every request but a repeated finish is refused without effect; a positive answer to a chunk means that it is acknowledged. |
| Upload.Service.Serve | deploy/local-update.py:360-375 | Each request, whether it ended or the process died in it, adds one snapshot of the disk that follows from the last; a positive answer to a chunk means that it is acknowledged there. |
| Upload.Service.Work | deploy/local-update.py:333-358 | So does each run of the validator or installer; what is installed is the finished upload that the status named before. |
| Upload.HistoryFollows | deploy/local-update.py:149-172 | States that follow each other one by one follow each other over any distance. |
| Upload.Service.OffsetOnlyGrows | deploy/local-update.py:220-254 | Between any two moments of the service's life in one upload the offset only grows, and the part file keeps every acknowledged byte. |
| Upload.Service.ChunkIsInstalled | deploy/local-update.py:333-352 | A chunk acknowledged at any earlier moment is at its place in the file the installer gets, which has exactly the announced size. |
| Upload.Service.ChunkIsValidated | deploy/local-update.py:257-272 | And in the file that is validated. |
| Upload.Service.NoUploadReturns | deploy/local-update.py:181-210 | An upload that was given up or replaced never continues. |
| Assembly.FindOpen | backend/messages_runtime.go:158-168 | The newest open message of the fragment's key, if there is one. |
| Assembly.NeverRefused | backend/messages_runtime.go:169-195 | The unique key of message and sequence number never refuses a part that was not ignored. |
| Assembly.StoreTakes | backend/messages_runtime.go:146-222 | A fragment joins the newest open message unless its place there is taken, and opens a message of its own otherwise; nothing else changes. |
| Assembly.StoreInv | backend/messages_runtime.go:146-222 | Every fragment, whatever its order, repetition or conflict, keeps the keys unique, the parts in range and the states of all messages right. |
| Assembly.Pigeonhole | backend/messages_runtime.go:196-219 | As many different sequence numbers between 1 and n as n are 1 to n. |
| Assembly.BySequenceSorts | backend/messages_runtime.go:196-200 | The parts are read in order and each once. |
| Assembly.ReceivedIsWhole | backend/messages_runtime.go:196-219 | A received message holds exactly the sequences 1 to its total, without a decoding error, and its body is their concatenation in order. |
| Assembly.ClosedStays | backend/messages_runtime.go:158-168 | A message that is no longer open keeps its content and parts. |
| Assembly.RepeatChangesNothing | backend/messages_runtime.go:101-115 | A fragment that arrives again changes nothing, whatever was delivered or purged in between, as long as the fingerprints of purged parts are kept. |
| Assembly.AnyOrderAssembles | backend/messages_runtime.go:74-222 | In any order, with repeats and other traffic in between: once all pieces have arrived within ten minutes there is exactly one message made of them, received, with the whole text. |
| Assembly.JoinsExactly | backend/messages_runtime.go:158-195 | A fragment joins an existing message if and only if that is the newest open one of its key, less than ten minutes old, with the place free; whose text it is plays no part. |
| Assembly.SharedReferenceMixes | backend/messages_runtime.go:158-168 | Two messages that share a reference: the tail of one completes the other. |
| Assembly.Inbox.HasPart | backend/messages_runtime.go:101-115 | The loop over the parts finds a fingerprint exactly if it is stored. |
| Assembly.Inbox.NewestOpen | backend/messages_runtime.go:158-168 | The search from the newest message on finds the message of FindOpen. |
| Assembly.Inbox.StoreIncoming | backend/messages_runtime.go:74-222 | One transaction: all of it or nothing. Refused as invalid exactly if a limit of TPDU, text or sender, or of a fragment not known yet its numbers, is broken; anything else that is new adds its part. What comes in one part becomes one message of its own: received with its text and sender, or marked as undecodable, or what its MMS notification says. |
| Assembly.SingleStored | backend/messages_runtime.go:120-222 | A delivery in one part adds exactly one message and one part. |
| Receipts.Table.ApplySMSReports | backend/messages_runtime.go:505-534 | The pass over the table makes of each message what the reports say about it. |
| Receipts.DeliveredExactly | backend/messages_runtime.go:520-534 | A waiting message becomes delivered if and only if no unambiguous report says it failed, all its parts are listed under different references, and each part has its own status-0 report that fits no other message. |
| Receipts.FailedExactly | backend/messages_runtime.go:520-534 | A waiting message fails by a report if and only if one that fits no other message says so with a permanent code, and then with the greatest such code. |
| Receipts.AllConfirmed | backend/messages_runtime.go:520-534 | As many distinct delivered references as parts force a report for every part. |
| Receipts.FewReferences | backend/messages_runtime.go:520-534 | There are as many references as parts only if no two parts share one. |
| Receipts.AmbiguousAdvancesNothing | backend/messages_runtime.go:513-520 | With a report that fits two messages, all messages end up as if it had never come. |
| Receipts.OnlyWaitingChange | backend/messages_runtime.go:505-534 | Only text messages of the last week that wait for a receipt change; delivered is final. |
| Receipts.PlusPlaysNoPart | backend/messages_runtime.go:515-515 | Of a number exactly the leading plus signs are left out of the comparison. |
| Receipts.MatchesExactly | backend/messages_runtime.go:505-520 | A report fits a text message of the last seven days if and only if it fits one of its parts: same number and reference, not before the message, and, if it has a time, within ten minutes of the submission. |
| Receipts.PlusFits | backend/messages_runtime.go:515-515 | Whether message or report write the number with a plus makes no difference. |
| Receipts.AgeingResolvesAmbiguity | backend/messages_runtime.go:505-512 | Two messages and a report: ambiguous for a week, then delivered. |
| Limiter.WaitExact | backend/developer_limits.go:69-72 | The delay computed is the exact time to the next token, not a nanosecond more. |
| Limiter.SweepKeepsLevel | backend/developer_limits.go:49-56 | Forgetting idle buckets changes no level, now or later, for budgets that refill in two minutes. |
| Limiter.SweepNeedsTime | backend/developer_limits.go:49-56 | For every other budget there is a bucket that gains tokens by being forgotten. |
| Limiter.ChargeTakesOne | backend/developer_limits.go:78-87 | An admission takes one token of each budget it names and none of the others. |
| Limiter.TakeRefines | backend/developer_limits.go:43-88 | Call after call: with room among the 4096 buckets the decisions are exactly those of eagerly refilled buckets that are never forgotten, and without room the call is refused. |
| Limiter.RejectionIsFree | backend/developer_limits.go:43-88 | A call that is turned away takes nothing from any budget, at any later time. |
| Limiter.RetryExact | backend/developer_limits.go:69-77 | A lone retry succeeds after the returned delay and not before. |
| Limiter.SweepMakesRoom | backend/developer_limits.go:73-77 | A retry is not refused for lack of a bucket because of a sweep. |
| Limiter.AdmissionsBounded | backend/developer_limits.go:43-88 | From any state, in any window: at most the burst plus what the rate brings. |
| Limiter.CategoryBudget | backend/developer_limits.go:90-99 | Every category's budget refills within the time after which it may be forgotten. |
| Limiter.CallsAreKnown | backend/developer_limits.go:15-16 | The calls the code makes (`backend/developer_api.go:109-113,139,411`, `backend/developer_batch.go:83`) name different keys, one budget each, which all refill in time; so the results apply to them. |
| Limiter.Admission.Take | backend/developer_limits.go:43-88 | The map after a call and its answer are those of the decision function: all budgets are charged, or none. |
| Limiter.Admission.Refresh | backend/developer_limits.go:57-72 | The loop over the budgets yields the refilled levels, the longest wait and the number of new buckets. |
| Limiter.Admission.Spend | backend/developer_limits.go:78-87 | The second loop stores one token less in each named budget. |
| Limiter.Admission.Sweep | backend/developer_limits.go:49-56 | The idle buckets go, every two minutes at most. |
| Limiter.Admission.Open | backend/developer_limits.go:101-136 | Work is refused exactly when one of its limits is reached; the counters always equal the open work of each kind. |
| Limiter.Admission.Release | backend/developer_limits.go:101-136 | Ending work twice counts once. |
| Requests.InsertedIsNew | backend/messages_enqueue.go:97-112 | Whatever was purged, an id is inserted only if every earlier insertion of it is a week old. |
| Requests.RepeatIsAnswered | backend/messages_enqueue.go:146-160 | In every run: unless a purge since then left a stale guard of the id, an insertion is answered for two weeks from its row or guard; the same hash is a repeat or expired, another one a conflict, and neither is inserted. |
| Requests.StepInv | backend/messages_enqueue.go:36-144 | Steps that leave no stale guard keep the invariant that every id of the last two weeks has its row or a live guard. |
| Requests.StepBase | backend/retention.go:95-206 | Every step, cleanups that leave stale guards included, keeps rows for a week and the limits of rate and queue. |
| Requests.CleanInv | backend/retention.go:95-206 | So does the cleanup, when no expired guard of a purged id is left. |
| Requests.PurgeGuardsExactly | backend/retention.go:185-195 | A purged message has a live guard for a week if no guard of its id was left by the deletion before, and nothing is known of the id any more if one was. |
| Requests.SmallBacklogIsFresh | backend/retention.go:118-124 | Up to 256 expired guards, none is left. |
| Requests.StaleGuardReinserts | backend/retention.go:185-195 | A run from an empty store: 257 messages, their purge in two batches, and a second life of the last one, whose id is inserted again after eight days. |
| Requests.InsertLimits | backend/messages_enqueue.go:113-131 | An insertion keeps the limits per minute, per module and in total. |
| Requests.InsertionsLimited | backend/messages_enqueue.go:36-144 | In every run, whatever the cleanups leave: insertions of one id are a week apart, at most ten a minute and module happen, and the queues stay bounded but for what a replay put back. |
| Requests.CloseInsertionsNeedStaleGuard | backend/retention.go:185-195 | In every run: where an id is inserted twice within two weeks, a committed cleanup in between purged it while a stale guard of it stayed. |
| Requests.Database.PreviousMessage | backend/messages_enqueue.go:146-160 | The answer for a known id comes from its row or else its guard. |
| Requests.Database.ExpiredRequest | backend/retention.go:265-278 | A live guard answers "expired" for its hash and "conflict" for another. |
| Requests.Database.EnqueueMessage | backend/messages_enqueue.go:36-144 | One transaction decides on the state it sees: it inserts if and only if nothing is known of the id, the request is in order, and fewer than 10 messages of the line are younger than a minute, 100 wait on it and 2000 wait in all; a lost commit is an error either way. |
| Requests.DecideExactly | backend/messages_enqueue.go:108-131 | Each answer, insertion, rate limit, full queue, refusal, repeat, expiry and conflict, has its exact cause. |
| Requests.Database.CleanRecordsBatch | backend/retention.go:95-206 | Rows, guards and floor after any batch the statements may choose; the floor covers exactly the revisions removed, and the two-week invariant is kept if no stale guard stays. |
| Webhook.Delay | backend/webhook.go:255-256 | The pause grows with every attempt, respects Retry-After and stays within half a day. |
| Webhook.DelayTable | backend/webhook.go:255-256 | The eight pauses, from 5 seconds to 12 hours. |
| Webhook.RetryAfter | backend/webhook_queue.go:71-80 | Seconds or date, never negative, at most twelve hours. |
| Webhook.StepInv | backend/webhook.go:96-173 | Claims, posts, saves, reclaims, replays, compaction, settings changes, crashes and lost replies keep the invariant of events, leases and tallies. |
| Webhook.StepMoves | backend/webhook.go:217-275 | Each event moves only along the permitted edges, whichever step is taken. |
| Webhook.StaleSaveChangesNothing | backend/webhook.go:267-270 | A save with a lease that is no longer current changes no event. |
| Webhook.ReclaimMakesStale | backend/webhook.go:128-129 | Reclaiming takes the lease from every worker that is late. |
| Webhook.StaleForever | backend/webhook.go:221-230 | A lost lease never becomes current again, in any run. |
| Webhook.OnlySettledForgotten | backend/retention.go:216-263 | Only settled events disappear, and only by retention. |
| Webhook.NewestPending | backend/webhook_queue.go:37-50 | For each pending status notice there is a newest pending one of its resource, which compaction does not select. |
| Webhook.CompactionKeepsNewest | backend/webhook_queue.go:37-50 | After compaction each pending notice still has a pending one at least as new, and every other event, received messages included, is untouched. |
| Webhook.CompactionCancels | backend/webhook_queue.go:37-50 | Compaction cancels exactly the notices chosen, each of which a newer pending one replaces; up to 512 of these are all chosen. |
| Webhook.ForeignCancelled | backend/webhook.go:126-127 | Exactly the pending events of former settings are cancelled. |
| Webhook.DeliveryBounded | backend/webhook.go:217-275 | In every run pending events have attempts left, at most eight posts happen for each replay by hand, and delivered means answered with success. |
| Webhook.DeliveredIsFinal | backend/webhook.go:267-270 | A delivered event stays as it is until it is forgotten. |
| Webhook.SuccessSettles | backend/webhook.go:260-270 | A worker that holds its lease saves an answer of 200 to 299: in every later run the event is delivered as long as it exists and never claimed again, and at most one post follows for each other claim that is open at that moment. |
| Webhook.NoMorePosts | backend/webhook.go:266-275 | No run posts a delivered event again if and only if no other worker has claimed it and not yet posted. |
| Webhook.GoneStays | backend/retention.go:216-263 | A forgotten event does not come back. |
| Webhook.CleanPrefix | backend/retention.go:216-263 | The loop removes the longest prefix of settled, outdated events and skips nothing. |
| Webhook.Outbox.Reclaim | backend/webhook.go:128-129 | Exactly the events sent for more than 30 seconds go back, or fail after their eighth attempt; one step of the machine. |
| Webhook.Outbox.Claim | backend/webhook.go:221-230 | An event is taken exactly if it is pending, due and for the current settings and the reply arrives; it has the lease and one more attempt also if the reply was lost after the commit. |
| Webhook.Outbox.Save | backend/webhook.go:254-270 | Only the holder of the lease changes the event: delivered if and only if the status is 200 to 299, failed if and only if it is not and this was the eighth attempt or the status is 300 to 499 other than 408, 425 and 429, and pending otherwise. |
| Webhook.Outbox.Restart | backend/webhook.go:112-117 | The process dies and starts: exactly what was being sent goes back, or fails after its eighth attempt, and no worker is left. |
| Webhook.Outbox.Deliver | backend/webhook.go:217-275 | One delivery with nothing in between: what the event becomes for each reply, lost or not, and after a saved one, from status and attempts alone, delivered, failed or pending, each if and only if; nothing is posted without a claim whose reply arrived. |
| Webhook.Outbox.OutboxBounded | backend/webhook.go:96-173 | However these methods were used and whenever the process died: at most eight posts for each replay by hand, and delivered means answered with success. |
| Drain.StepInv | backend/modules_work.go:10-52 | Reservations, jobs, control operations, restarts and calls keep work counts, marks and jobs consistent. |
| Drain.WorkKeptApart | backend/modules_esim.go:186-260 | In every run live work and an active job never share a module; control operations keep work out and their modules marked all along if and only if none ends with a mark that another still needs, and then no module of a running operation has an active job, unless the operation switches a running Wi-Fi line off. |
| Drain.JobsApartStep | backend/modules_apn.go:35-40 | With the marks in place, every step keeps the modules of running operations free of active jobs, except for switching a running Wi-Fi line off. |
| Drain.WiFiOffDuringJob | backend/modules_wifi.go:140-148 | During a job of the module a running Wi-Fi line can be switched off; no other switch is let through. |
| Drain.FreeModuleAdmits | backend/modules_work.go:10-16 | Modules without work, mark, job or operation admit each of them unless the system drains or is not ready. |
| Drain.EndGivesBack | backend/modules_apn.go:41-53 | The end of an operation that shared its modules with no other gives everything back. |
| Drain.GuardedStays | backend/modules_restart.go:96-129 | A step keeps marks and work apart if and only if it does not end an operation whose mark another one needs. |
| Drain.GuardedExactly | backend/modules_wifi.go:149-153 | The same over runs, from any state in which they are apart. |
| Drain.WiFiTakesTheMark | backend/modules_wifi.go:149-153 | When a Wi-Fi change that has just begun ends, marks and work stay apart if and only if nobody else was using the mark. |
| Drain.WorkDuringApnChange | backend/modules_apn.go:35-53 | A run that admits business work in the middle of an APN change. |
| Drain.DrainedStep | backend/maintenance.go:22-57 | While draining, no request, reservation, mark or job starts, and no call once work is gone. |
| Drain.DrainedRun | backend/maintenance.go:42-57 | Over every run without a resume, what is at zero stays at zero. |
| Drain.StatusIsSound | backend/maintenance.go:59-93 | If the status, read in three separate looks with anything happening in between, found everything zero while draining, the appliance is idle afterwards and stays so until resumed. |
| Drain.LockIsNeeded | backend/sip_calls.go:342-366 | Without the calls' lock the status would be unsound: an INVITE past its check is not counted yet. |
| Drain.OrderIsNeeded | backend/sip_incoming.go:113-169 | With the calls read first it would be unsound: work in hand may bring a call in. |
| Drain.MaintenanceGate.Enter | backend/maintenance.go:22-31 | A request enters exactly if the gate is not draining, and the count equals the open tickets. |
| Drain.MaintenanceGate.Leave | backend/maintenance.go:22-31 | Only the first call of a release counts. |
| Drain.ModuleWork.Reserve | backend/modules_work.go:10-29 | The count of a module always equals its outstanding releases, and modules without work have no entry. |
| Drain.ModuleWork.Release | backend/modules_work.go:17-28 | A release counts once. |
| PcmRing.Queue.Push | backend/sip_audio.go:23-36 | The ring then holds the newest 2400 samples of what it held and what came, and the number discarded is exact. |
| PcmRing.Queue.Pop | backend/sip_audio.go:38-53 | The oldest samples, then silence; -1 exactly before the first complete block; over any run pushed is popped, dropped and queued together. |
| PcmRing.NewestStep | backend/sip_audio.go:25-35 | Dropping the oldest before each sample leaves the same as dropping them all at once. |
| PcmRing.WindowDrop | backend/sip_audio.go:26-30 | Advancing the head round the array drops the oldest sample. |
| PcmRing.WindowAppend | backend/sip_audio.go:31-34 | Writing behind the tail round the array appends a sample. |
| FairSend.SortedIs | backend/messages_scheduler.go:300-305 | Sorting keeps the modules and orders them. |
| FairSend.FairGoesRound | backend/messages_scheduler.go:300-305 | The order of a pass is a permutation of the pending modules, ascending from the cursor on and round. |
| FairSend.PassStarts | backend/messages_scheduler.go:151-181 | Whoever may start and comes before one that was started, was started too. |
| FairSend.StartsFill | backend/messages_scheduler.go:151-181 | A lane leaves nobody out who may start while a slot is free, and starts nobody else. |
| FairSend.AfterStart | backend/messages_scheduler.go:165-178 | After a pass that started a module, one that waited and was not started behind it comes before it in the next round. |
| FairSend.KeepsAhead | backend/messages_scheduler.go:151-181 | It stays ahead through any number of passes. |
| FairSend.NobodyStartsTwiceFirst | backend/messages_scheduler.go:151-181 | Between two starts of a module every other pending, startable module of its lane is started at least once. |
| FairSend.Scheduler.Start | backend/internal/dispatch/group.go:28-53 | A module starts exactly if it is not running and a slot is free. |
| FairSend.Scheduler.TryStart | backend/messages_scheduler.go:165-167 | A module that was started rests for 250 milliseconds; one that was not is untouched. |
| FairSend.Scheduler.RunLane | backend/messages_scheduler.go:151-181 | The loop over one lane starts exactly the modules that may, until the slots are used up. |
| FairSend.Scheduler.DispatchSends | backend/messages_scheduler.go:151-181 | One pass: replies first, the rest with the slots left; who waits, does not run and has rested is started unless all slots are taken, and nobody else is; each lane's cursor is the last module it started, every module started rests, and modules no longer pending are forgotten. |
| SipFence.StepInv | backend/sip_gateway.go:161-218 | Any number of overlapping refreshes and writers keep the invariant of snapshots, epochs and applied versions. |
| SipFence.NoStaleOverwrite | backend/sip_gateway.go:161-181 | In every run from a gateway's start, what it shows of an account is a row the database had, and no older than what was applied last. |
| SipFence.AppliedStays | backend/sip_accounts.go:359-387 | A committed change that was applied is never overwritten by a refresh that read the database before it, in any run. |
| SipFence.AppliedLives | backend/sip_accounts.go:359-387 | A confirmed change takes effect at once, changes no other account, and is what the gateway shows in every run in which nobody commits another change of the account. |
| SipFence.RevokedStaysOut | backend/sip_accounts.go:349-387 | A revoked account gets no credentials back before its next change. |
| SipFence.UncertainIsSafe | backend/sip_accounts.go:251-252 | After a commit with a lost answer the account has no credentials until rows with the outcome are applied. |
| SipFence.RefreshConverges | backend/sip_gateway.go:161-181 | An undisturbed refresh brings the gateway to what the database has and ends every suspension. |
| SipFence.Gateway.ApplyAccount | backend/sip_gateway.go:183-207 | One account changes, the others keep their place, and every refresh under way becomes stale. |
| SipFence.Gateway.SuspendAccount | backend/sip_gateway.go:209-218 | The account has no credentials; the other accounts and their policies stay in place, and so does the first policy of the account. |
| WiFi.ModuleWiFi.OneRestoreAnOutage | backend/modules_wifi_recovery.go:43-79 | However the line was used, two full radio restores have a registration or the user's switch between them, and so there is at most one more than there are of these. |
| WiFi.ModuleWiFi.Register | backend/modules_wifi.go:34-45 | A registration ends the outage; it implies an enabled, running, connected line. |
| WiFi.ModuleWiFi.Unregister | backend/modules_wifi.go:34-45 | The beginning of an outage is noted once. |
| WiFi.ModuleWiFi.Enable | backend/modules_wifi.go:111-201 | Switching on is refused, without any change, exactly when something else stands against it or a worker of another card, or of a line switched off, still runs; the outage counters start afresh on a change only. |
| WiFi.ModuleWiFi.Disable | backend/modules_wifi.go:111-201 | Switching off cancels the worker or restores the radio, and there is never a second worker. |
| WiFi.ModuleWiFi.Start | backend/modules_wifi.go:204-255 | A worker starts only if none runs and nothing stands against it, and always if the line waits and all is ready. |
| WiFi.ModuleWiFi.OnConnected | backend/modules_wifi.go:309-348 | A report of a cancelled worker, or for a line switched off, registers nothing. |
| WiFi.ModuleWiFi.OnReconnecting | backend/modules_wifi.go:309-348 | The line is unregistered and the outage's counters are kept. |
| WiFi.ModuleWiFi.OnCleaned | backend/modules_wifi.go:309-348 | After the cleanup of the modem the line is unregistered; the worker goes on. |
| WiFi.ModuleWiFi.AttemptFailed | backend/modules_wifi_recovery.go:24-31 | A failure counts, up to 100, and brings a restore at most once in an outage. |
| WiFi.ModuleWiFi.Recover | backend/modules_wifi_recovery.go:43-79 | A full restore starts exactly under the stated conditions, and nothing changes otherwise. |
| WiFi.ModuleWiFi.Ended | backend/modules_wifi.go:354-417 | After a restore that went through the line waits for its next attempt and is not restored again; recovery "stopping" implies "used" and a worker. |
| WiFi.ModuleWiFi.ScheduleRetry | backend/modules_wifi.go:395-417 | The next attempt after a failure lies as far ahead as the number of failures says, after a missing network 15 seconds; nothing changes for other endings. |
| WiFi.Pause | backend/modules_wifi.go:398-403 | The pause grows with every failure, from 15 seconds to 5 minutes. |
| WiFi.ModuleWiFi.Stop | backend/modules_wifi.go:439-453 | A job takes the module over: whatever worker runs is cancelled and not replaced. |
| WiFi.ModuleWiFi.Resume | backend/modules_wifi.go:455-468 | A failed line gets another attempt exactly after a confirmed recovery with the same card. |
| WiFi.ModuleWiFi.Interrupt | backend/modules_restart.go:206-216 | A restart of the module cancels the worker and unregisters the line. |
| WiFi.ModuleWiFi.Rebind | backend/module_networks.go:464-480 | Another network cancels the worker to come back on it; an idle line waits, its issue cleared unless a cleanup may still be going on. |
| WiFi.ModuleWiFi.LinkChanged | backend/module_networks.go:145-166 | A changed link cancels the worker to come back; an idle line that lacked its network waits again once there is one. |
| PrimaryLink.Inventory | deploy/network_runtime.py:209-228 | Networks keep their slots, new ones get the next, up to the limit. |
| PrimaryLink.ListedSlots | deploy/network_runtime.py:209-228 | Slots stay distinct whatever is listed. |
| PrimaryLink.ResourcesApart | deploy/network_runtime.py:99-103 | Distinct networks never share a routing table, a mark or an IPv4 or IPv6 tunnel subnet, nor use the host's table or the probe's mark. |
| PrimaryLink.CandidatesAre | deploy/network_runtime.py:372-375 | The candidates are exactly the other links that are online, the system's own first. |
| PrimaryLink.EveryCandidateProbed | deploy/network_runtime.py:376-391 | With n candidates that stay the same, each is probed within n/4 rounds, rounded up. |
| PrimaryLink.NextIsCloser | deploy/network_runtime.py:376-379 | A round brings the probes four places closer to every candidate it does not reach. |
| PrimaryLink.FirstReady | deploy/network_runtime.py:392-402 | The first probed link that answered and is still online. |
| PrimaryLink.Controller.SelectPrimary | deploy/network_runtime.py:355-403 | The preferred link if it is connected; else the one in use if that is connected; else the first probed link that answered, provided that a fresh reading still misses the preferred one and the name service answers; else the preferred link: exactly in this order. Probes are made exactly when they are due. Another link is chosen only if it is in use and connected, or if every look of at least the last five seconds found the preferred one gone. |
| PrimaryLink.Controller.LeftAfterAbsence | deploy/network_runtime.py:355-403 | Over the whole history of looks: whatever is chosen was once the preferred link, or was once found after five seconds in which every look missed the preferred one. |
| PrimaryLink.AbsentSinceIs | deploy/network_runtime.py:358-365 | The time kept is that of the first of the looks that found the link gone without a break: the look before it, if any, saw the link or another preference. |

## Left out

- HTTP handlers, JSON, cookies, password hashing, cryptography, archive checks, SQL schema and triggers, frontend rendering: they surround the decisions modelled here.
- Lifecycle: rows of incoming messages, the inside of MMS download and decoding, and the half minute a waiting message rests before it is selected again; the choice among due messages is left open, so the results hold for every choice.
- Lifecycle.OutcomeNeverLost: does not say that replay comes to an end, because that depends on the database coming back.
- MessageRuntime: the timing of the replay loop and its bound of 128 records a pass; one record at a time is modelled.
- Assembly.SharedReferenceMixes: shows one family of two messages in two parts; which message a fragment joins in general is `Assembly.JoinsExactly`.
- Assembly.RepeatChangesNothing: a fingerprint of a purged part is kept seven days (`backend/retention.go:121,188`); its expiry is not modelled.
- Assembly: one card and line; status reports among the deliveries, which are `Receipts`; lengths in characters, where the program counts bytes; the rows of a table are a list in order of arrival, so two messages never have the same time of creation with an open order; the decoding of MMS notifications is a parameter.
- Receipts: one card; reports and results are given as decoded.
- Sync: the thread list, which is what the web client follows; message rows matter as revisions and for the floor, and contacts are the same rows with a wider first page.
- Sync.ClientStaysSynced: for runs in which the floor does not pass the cursor before the last page, because the code does not check this (`Sync.FloorGuardIsExact`).
- Tunnel.ForeignExactly: leaves out others that rename or rewrite the appliance's resources, because the cleanup then refuses to touch them and never reports a clean disconnection.
- Tunnel: the type and the proxy flag of a record, which counts as the appliance's own by domain, target and comment; waiting between attempts, the authorization page, the connector process and the certificate's content; `ShowStatus` stands for what the connector reports.
- Upload: writes reach the disk in the order in which the directory operations are made; outcomes of `systemctl`, of the package checks and of the test for free space are parameters; a status read outside the lock is one step.
- Limiter: exact integer units instead of floating point, and a clock that does not go back.
- Requests.InsertionsLimited: does not bound what a replay puts back into the queue, because the replay does not count the queue; the journal is drained before messages are marked as interrupted, so this takes a record that a crash brought back.
- Requests: ids of incoming messages, the cleaning of fingerprints and of other tables, and the checks of the input.
- Requests.StepInv: for steps that leave no stale guard; what every step keeps is `Requests.StepBase`.
- Requests.CleanInv: for cleanups that leave no expired guard of a purged id, because the code may leave one (`Requests.StaleGuardReinserts`).
- Webhook: the pause shared by all deliveries, HTTP, signatures, address checks and the two lanes of dispatch.
- Drain: the recovery windows after a restart, a restart of the host, the stages inside an eSIM job, and the order of locks across modules.
- SipFence: listeners, ports, the SIP wire and RTP.
- WiFi: the stages of IMS registration, SMS readiness and the carrier configuration.
- PrimaryLink: running `ip`, `nft` and `resolvectl`, name servers and device names.
- PrimaryLink.EveryCandidateProbed: for a list of candidates that stays the same, because the offset is a place in the list.
- FairSend.NobodyStartsTwiceFirst: for passes that are not interleaved with each other, as one goroutine makes them.
