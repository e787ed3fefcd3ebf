# Verified models of LinkSend's state machines

LinkSend moves files and clipboard contents between paired devices. This project models the parts of it
whose correctness depends on interleavings, crashes and lost acknowledgements, and proves what those parts
keep over every run.

| module | component |
|---|---|
| `CacheTree` | the deletion engine of the clipboard file cache: check, depth-first removal, restart |
| `CacheDisk` | the same engine on a disk that others change: opened directories, renames, checks and unlinks |
| `CacheLedger` | the signed ledger row of a cached object and the receipt a worker holds on it |
| `PortablePaths` | the portable path policy that registered names obey |
| `CacheSystem` | the cache as a transition system: workers, collector, crashes, other programs |
| `Exposure` | what the runs of the cache remove, and objects on which a native write may have begun |
| `Reclamation` | the collector over one object while nobody else is at work: deletion does finish |
| `CacheCollector` | the background pass over the ledger: page, budget, cursor, backoff |
| `CacheSpace` | admission against free disk space in 64-bit arithmetic |
| `SendQueue` | the send queue, its batches and the durable task receipts they wait for |
| `LanPairing` | the pairing protocol between two devices, with recovery and crossing requests |
| `DirectPool` | the pool of direct sessions and the arbitration of simultaneous dials |
| `TemporaryShare` | temporary share records: intents, answers, stops, refreshes, restarts |
| `History` | the durable task history: late saves, tombstones, quarantine, restarts |
| `InboxPages` | keyset pagination of the inbox and of a transfer's files |
| `NotificationId` | printing and parsing of notification identifiers |
| `NotificationLedger` | the bounded memory of notifications sent |
| `Wakeups` | the two wake-token mailboxes |
| `DraftPaths` | deduplication and incremental size accounting of a draft's paths |
| `Common`, `Swapping` | shared datatypes and small lemmas |

How things are represented:

- Where the program updates fields, a class has those fields and its methods are proved equal to a
  specification function on values (`QueueStore`, `Receipt`, `CacheRoot`, `Collector`, `Space`, `PoolSlot`,
  `PairTable`, `TrustFile`, `ShareEntry`, `TaskHistory`, `Notifier`, `EventPump`). Interleavings are then
  steps of a transition system over the same functions, and the main results are about every sequence of steps.
- SQL rows are finite maps, one transaction is one step, and a table that is read in index order is a sorted
  sequence. A compare-and-swap can be rejected, acknowledged, or applied without the caller learning of it.
- Hashes, signatures, JSON and base64 are injective, so stored rows are compared as the records they encode.
- File identities, keys and random identifiers are opaque values compared for equality; request and session
  identifiers are also ordered. Wall-clock facts (expiry, backoff, retention) are parameters.
- What another process, a server, a peer or the network does is an arbitrary parameter of a step. Frames
  between paired devices stay receivable for ever, which covers loss, delay, duplication and reordering.
- Two calls of the program are two steps: whatever others do may fall between a check and the unlink by name
  that follows it. The disk is a graph of directories known by their identity, so an opened directory stays the
  same one wherever it is renamed to.

## Where the code and the expectation part

Nine expectations one would have of the code turned out to hold only under a condition. For each, the model
keeps what the code does, a concrete run shows the failure, and a lemma says of every run of the code exactly
when it meets the expectation.

1. Deletion by name. A file is checked and then unlinked by name in two calls, through a directory opened before
   (internal/app/clipboard_cache_inventory.go:266-290), and the object's directory likewise
   (internal/app/clipboard_cache_paths.go:124-135). So what goes is whatever lies under the base name in that very
   directory, wherever it has been moved (`RemovedOnlyIfSwappedIn`, `EveryRemovalIsAuthorized`). If that is not the
   registered file, it was put there after the check. `SwappedEntryIsLost` and
   `MovedDirectoryLosesEntry` are the runs: the second removes a file at a path that no row registers. An object on
   which a native write may have begun loses something that lies in it exactly at a step whose unlink goes to a
   directory that lies there, and such a directory belongs to another object's removal or is the cache directory,
   so somebody has moved one into the other (`NothingExposedIsEverRemoved`, `ExposedEntryCanBeReached`). Its empty
   directory loses its name exactly if an unlink goes to that name (`ExposedNameGoesOnlySo`,
   `ExposedNameCanBeTaken`).
2. Pairing agreement. The device that asked should commit only after the device that answered. Recovery
   queries any stored grant, whoever asked for it (internal/identity/identity.go:710-728), so the answering
   device's own retry can make the asking one commit first (`AskerCommitsFirst`). A run keeps agreement at every
   moment exactly if the asking device never confirms a query about its own request while the other device has
   not committed (`AgreementIffNoReversal`). Mutual consent holds regardless.
3. Pairing again after forgetting a peer. The comment at internal/identity/forget.go:5-7 promises that fresh LAN
   consent pairs again. But forgetting also retains the denial's generation as a used epoch, so a new grant must
   be of the generation after it (internal/identity/identity.go:640), while a conversation is started with the
   denial's own (internal/identity/identity.go:345-365). A device can store a grant of the generation it offers
   exactly if it keeps no denial of the peer (`OfferHoldsUnlessDenied`), so a forgotten peer cannot be paired over
   the LAN, whatever both sides do, until the denial is lifted from outside the protocol (`ForgottenCannotPair`).
   `CommitLANPeer`, which asks for the denial's own generation, would accept it, but no conversation calls it.
4. Collector fairness. Rows up to 16 MiB are read but a page holds 4 MiB, so one row in between stops the
   cursor in front of it for good. A long enough run over a ledger tries a candidate exactly if no row from the
   cursor round to it is larger than a page (`TriedIffClear`); a candidate that was in use in the first pass after
   the start can be stalled so (`StalledFromTheStart`).
5. Late deliveries of a cancelled batch. A delivery that lands after the cancellation turns its row to
   completed at the next reconciliation, unless its task is forgotten first (`DeliveryCanBeLost`) or a start-up
   sets it aside as unreadable. A delivered row is completed exactly if no step of the run took its task away so
   (`ReconciliationCompletes`).
6. Simultaneous dials. If the larger session is reserved for a file before its dialler is handed the smaller
   one, each end may refuse the other's session and both are closed (`BothCanBeClosed`); or, if the refusal is
   noticed in time, neither (`ReservedCanConverge`). A settled run converges exactly if, when the dialler of the
   larger session was handed the smaller one, the larger was gone, dead or still an unused clipboard bootstrap,
   and no operation on the smaller one failed (`DialsConverge`).
7. Stopping a share. A stop whose save fails cancels the local transfer but leaves the old intent in the row,
   and an answer already under way is applied to it (`StopOutrun`). A step applies the answer to a superseded intent
   exactly if that intent's stop did not reach the row (`LateIffStopWasLost`, `StopsReplaceUnlessLost`).
8. Notification order. A failed send is forgotten, so an older revision may be sent after a newer one that
   failed (`StartedOutOfOrder`). An admitted revision comes after a started one at least as new exactly if such a
   one ended unsent (`OlderStartsOnlyBehindFailures`, `StartsIncreaseIff`).
9. Repeated requests. `Enqueue` answers a repetition with its row before it counts anything
   (internal/app/queue.go:180-197), but counts before it looks again in the transaction (internal/app/queue.go:268-290).
   A request is refused as full exactly if its row was not there at the lookup and the queue is full in the
   transaction (`RepeatsAreAnswered`); two calls with the same request can race so that one is refused although
   their row is in the queue (`RepeatCanBeRefused`).

Two smaller observations: the receipt guard of the cache does not by itself keep a native write and a
deletion apart (`ReceiptGuardIsNotEnough`), the order of steps in `receiveClipboardFiles` does; and the second
size check of `SaveDraft` (internal/app/desktop_store.go:343-346) can never fail, because the running count of
`normalizeDraftPaths` already is the size of the array it measures.

## Model

| member | source | states |
|---|---|---|
| CacheTree.TreeCheck.Check | internal/app/clipboard_cache_inventory.go:171-234 | the check passes exactly when every entry is the registered one, within 1024 nodes, and (unless names may be missing) every registered name is there |
| CacheTree.TreeCheck.Walk | internal/app/clipboard_cache_inventory.go:181-222 | one recursive walk accepts exactly the registered contents within the remaining budget, whatever order the listing has |
| CacheTree.CheckedInventoryIsClosed | internal/app/clipboard_cache_inventory.go:162-168 | an inventory that passed the complete check is closed under parents |
| CacheTree.RemoveNext | internal/app/clipboard_cache_inventory.go:266-290 | going deepest first, the next name has nothing left below it, its removal does not fail, and the rest still passes the check |
| CacheTree.CacheRoot.RemoveTree | internal/app/clipboard_cache_inventory.go:259-292 | left alone: a failed check removes nothing; otherwise no removal fails, and the run ends empty or, when interrupted, with a tree the next run accepts |
| CacheTree.CrashKeepsApproval | internal/app/clipboard_cache_inventory.go:259-292 | a crash after any prefix of the removals leaves exactly the other entries, checked again |
| CacheTree.RestartFinishes | internal/app/clipboard_cache_inventory.go:259-292 | after any number of crashed runs, each with its own tie-breaks and crash point, one complete run empties the object |
| CacheDisk.UnregisteredSurvives | internal/app/clipboard_cache_inventory.go:236-324 | whatever others create, replace, delete or rename meanwhile, an entry that is not the registered file of its place survives, unless it was put into a place between its check and its unlink; where no registered name is unlinked from, nothing is ever removed |
| CacheDisk.RemovedOnlyIfSwappedIn | internal/app/clipboard_cache_inventory.go:266-324 | after any run the next step removes what lies at a path exactly when that path leads to the checked base name in the very directory opened for it, wherever that has been moved, and it is vacant; if it is not the registered file, it was put there since the check |
| CacheDisk.SwappedEntryIsLost | internal/app/clipboard_cache_inventory.go:280-283 | a file put at a registered name between its check and its unlink is removed |
| CacheDisk.MovedDirectoryLosesEntry | internal/app/clipboard_cache_inventory.go:270-283 | after its directory was renamed, a file put into it under the checked base name is removed at the new path |
| CacheDisk.LostAt | internal/app/clipboard_cache_inventory.go:281-283 | an unlink through an opened directory takes away exactly the paths, from any directory, whose last component is looked up in that slot |
| CacheDisk.RoundIsRemoveOne | internal/app/clipboard_cache_inventory.go:266-290 | left alone, opening the ancestors, checking and unlinking on the disk is one round of the removal loop on the object's tree |
| CacheLedger.ValidateInventory | internal/app/clipboard_cache_inventory.go:44-71 | the validation loop accepts exactly the bounded, parent-closed inventories of the stage's names and of portable paths |
| CacheLedger.Store.Update | internal/app/clipboard_cache_ledger.go:233-244 | the row is replaced exactly when it still is the expected one; every other row stays |
| CacheLedger.Receipt.Save | internal/app/clipboard_cache_ledger.go:225-248 | a receipt of another run, a skipped revision or a changed authorization writes nothing; an acknowledged save leaves a row every reader accepts over the expected one; an unacknowledged one leaves the receipt behind the row |
| CacheLedger.Receipt.Advance | internal/app/clipboard_cache_ledger.go:302-321 | only the listed transitions are written, and only through a save |
| CacheLedger.Receipt.BindManifest | internal/app/clipboard_cache_ledger.go:250-260 | a bound manifest never changes; a binding outside reception, of another transfer's or an invalid manifest, or to another one than before, writes nothing; a successful one leaves a readable row that names it, and no other row changes |
| CacheLedger.Receipt.CaptureClosingStorage | internal/app/clipboard_cache_inventory.go:90-166 | an inventory is taken only from the storage the receipt is bound to, only of registered parts, and only if it is exactly what lies in the object; it is then bounded and closed under parents |
| CacheLedger.Receipt.BeginNative | internal/app/clipboard_cache_ledger.go:323-331 | a native write begins at most once, and from then on this receipt can neither discard, forget nor abandon its object, only publish or protect it |
| CacheLedger.Receipt.ForgetRemoved | internal/app/clipboard_cache_ledger.go:333-348 | the row goes only for an object that is gone and was never exposed |
| CacheLedger.Receipt.DiscardUnpublished | internal/app/clipboard_cache_inventory.go:326-355 | an object that began a native write, or is not empty and has no inventory, is refused before any row is written; entries go only after both intents were read back, and the name only from an empty object |
| CacheLedger.IntentsAreAuthority | internal/app/clipboard_cache_inventory.go:337-352 | both intents acknowledged: the row itself is a readable, deletable authority with a parent-closed inventory |
| CacheSystem.EveryRunKeepsInv | internal/app/clipboard_files.go:606-777 | the ledger, directory, worker, collector and check invariants hold after every sequence of steps, lost acknowledgements, restarts and other programs' changes |
| Exposure.NothingExposedIsEverRemoved | internal/app/clipboard_files.go:634-667 | over every run the row of an object on which a native write may have begun stays protected, and a step leaves everything in the object, at any depth, exactly if its unlink does not go to a directory that lies there; such a directory is one that another object's removal opens, or the cache directory, so one was moved into the other |
| Exposure.ExposedNameGoesOnlySo | internal/app/clipboard_cache_paths.go:124-135 | such an object's directory loses a name exactly if an unlink goes to that name and it is empty; it came there after the check, or had been given to another object before |
| Exposure.ExposedNameCanBeTaken | internal/app/clipboard_cache_paths.go:124-135 | the run in which that name goes |
| Exposure.ExposedEntryCanBeReached | internal/app/clipboard_cache_inventory.go:270-283 | the run in which another object's directory, moved into it, loses an entry there |
| Exposure.EveryRemovalIsAuthorized | internal/app/clipboard_cache_lifecycle.go:193-260 | every step of every run removes at most one entry, a file or an empty directory: exactly what it aims at, which is a registered name of the durable deletable row in the directory opened for it, or the object's own name; it is what the check found, unless something came there since |
| Exposure.NativeRowStays | internal/app/clipboard_cache_native.go:233-329 | once a row carries a native delegation, every row of the object after any further run does and is not deletable |
| Exposure.ReceiptGuardIsNotEnough | internal/app/clipboard_cache_ledger.go:323-331 | after an unacknowledged first intent the row grants deletion while the receipt would still start a native write |
| Reclamation.CollectorFinishes | internal/app/clipboard_cache_lifecycle.go:193-260 | one undisturbed collector run over a collectable object ends with an empty directory without a name, and with no row |
| Reclamation.CrashedCollectorCanResume | internal/app/clipboard_cache_lifecycle.go:193-260 | a crash after any number of removals, and anywhere in the checks of the next one, leaves the object collectable in the next run |
| CacheCollector.Collector.Page | internal/app/clipboard_cache_lifecycle.go:118-142 | the page is the longest prefix within 64 rows and 4 MiB, and reachedEnd says whether its bytes cut it short |
| CacheCollector.Collector.Collect | internal/app/clipboard_cache_lifecycle.go:100-191 | a pass leaves exactly the specified cursor, time stamps and retries and tries exactly the specified objects |
| CacheCollector.PassIsBounded | internal/app/clipboard_cache_lifecycle.go:118-190 | a pass reads at most 64 rows and 4 MiB, tries at most 8 deletions and remembers at most 256 failures of at most 8 attempts |
| CacheCollector.PassApproaches | internal/app/clipboard_cache_lifecycle.go:143-190 | while the way to it is clear, a pass tries a candidate or comes strictly closer to it round the ledger, leaves its retry alone and keeps the way clear |
| CacheCollector.EveryCandidateIsTried | internal/app/clipboard_cache_lifecycle.go:98-191 | within twice the rows plus one passes every deletable, idle object outside its backoff is tried, if no row on the way to it is larger than a page |
| CacheCollector.PassMovesUnlessBlocked | internal/app/clipboard_cache_lifecycle.go:128-142 | a pass examines a row or goes round exactly when the next row fits a page; otherwise it changes only its time stamp |
| CacheCollector.TriedIffClear | internal/app/clipboard_cache_lifecycle.go:118-191 | over an unchanging ledger every long enough run tries a candidate exactly if no row from its cursor round to the candidate is larger than a page |
| CacheCollector.StalledFromTheStart | internal/app/clipboard_cache_lifecycle.go:128-142 | from the start a candidate before an oversized row is tried at once, but never again if it was in use in that first pass |
| CacheSpace.SpaceRequired | internal/app/clipboard_cache_space.go:21-33 | for every valid manifest the 64-bit sum is exact and its overflow branch is dead |
| CacheSpace.SubtractInAnyOrder | internal/app/clipboard_cache_space.go:59-65 | in every visiting order the loop succeeds exactly when the reservations fit together, and leaves exactly their difference |
| CacheSpace.Space.FitsBeside | internal/app/clipboard_cache_space.go:54-65 | admission is exactly required plus everything outstanding being at most available minus the guard, with no wrap-around |
| CacheSpace.Space.Reserve | internal/app/clipboard_cache_space.go:35-68 | a reservation is made exactly when admissible and new, and raises the total by exactly what is needed |
| CacheSpace.Space.Release | internal/app/clipboard_cache_space.go:69-75 | releasing twice is releasing once, gives back exactly what was taken, and cannot free a later reservation of the same transfer |
| CacheSpace.ReleaseRestores | internal/app/clipboard_cache_space.go:66-75 | a reservation outlasts whatever other downloads reserve and release, and its release then leaves the account and the total there would be without it |
| SendQueue.QueueStore.Lookup | internal/app/queue.go:180-197 | a request that is in the table is answered with its row, or as a conflict, however full the queue is |
| SendQueue.QueueStore.Insert | internal/app/queue.go:252-301 | the transaction: a full queue refuses; otherwise a new request is inserted at the end, and one that has come into the table changes nothing and is answered with its row or as a conflict |
| SendQueue.RepeatsAreAnswered | internal/app/queue.go:180-301 | whatever happens between the two, a request whose row was there at the lookup is answered by it, and the answer still holds; one is refused as full exactly if its row was not there and the queue is full in the transaction |
| SendQueue.RepeatCanBeRefused | internal/app/queue.go:268-275 | the race in which a repetition is refused though its row is in the queue |
| SendQueue.QueueStore.Requeue | internal/app/queue.go:588-635 | a row that needs attention becomes a waiting row without a task and outside any cancelled batch, no other row changes, and every table invariant is kept |
| SendQueue.QueueStore.EnqueueBatch | internal/app/batch.go:265-318 | a repeated request is answered with its batch, or as a conflict, however full the queue is; a new batch is inserted with all its children, or nothing is |
| SendQueue.QueueStore.ReorderQueue | internal/app/queue.go:637-676 | every listed row gets its index as position, or nothing changes |
| SendQueue.QueueStore.CancelBatch | internal/app/batch.go:428-446 | afterwards the batch is cancelled and every row of it has ended; what had ended before, its tasks, and every other row and batch are untouched, and every table invariant is kept |
| SendQueue.QueueStore.ReconcileReceipts | internal/app/batch.go:367-379 | afterwards no row is owed a completion, a row changed only if its batch is cancelled and its task durably delivered, a second run changes nothing, and every table invariant is kept |
| SendQueue.BatchEnqueuedKeepsTable | internal/app/batch.go:265-318 | inserting a batch keeps requests unique, at most 1000 rows unfinished, and every batch whole |
| SendQueue.NextKeeps | internal/app/queue.go:375-531 | every step of every actor, start-ups that crash halfway included, keeps the queue, receipt, task and dispatcher invariants |
| SendQueue.QueueInvariant | internal/app/queue.go:252-301 | at any moment: waiting rows have no task and running rows one, requests are unique, at most 1000 rows unfinished, batches whole with 2 to 16 distinct targets at places 1..n, cancelled batches ended, completed rows durably delivered unless their task was set aside since |
| SendQueue.StepEvolves | internal/app/queue.go:390-426 | completed is final; cancelled and expired rows leave only to completed and only in a cancelled batch; completed requires durable delivery then; no row of a cancelled batch starts running; cancellation is permanent |
| SendQueue.ReceiptIsCurrent | internal/app/queue.go:399-417 | the dispatcher completes a row only when its task is saved as delivered, in the observed state and at no older revision |
| SendQueue.LandKeepsTasks | internal/app/history.go:438-452 | saves that land late and out of order never overwrite a final state on disk |
| SendQueue.CancelledBatchStaysStill | internal/app/batch.go:381-459 | once a batch is cancelled, through everything that follows every row of it has ended and no task is started for one again |
| SendQueue.CancelledTasksStayAsleep | internal/app/tasks.go:1159-1203 | nor is one resumed: a task of a cancelled batch that is live later was live when the batch was cancelled |
| SendQueue.ReconciliationCompletes | internal/app/batch.go:365-379 | after a reconciliation a cancelled batch's delivered row is completed exactly if no step of the run took its last task away before, by forgetting it or by a start-up's quarantine |
| SendQueue.DeliveryCanBeLost | internal/app/inbox_actions.go:125-158 | a run in which a delivery is lost |
| LanPairing.TrustFile.Begin | internal/identity/identity.go:598-650 | a grant is stored once per request, only within 64 unexpired ones, for at most 75 seconds, of the required generation and for a peer that is not blocked; a conflicting one is refused and nothing changes |
| LanPairing.TrustFile.Commit | internal/identity/identity.go:730-756 | only a begun, unexpired grant with this request and nonce commits, against no block and no other generation; it lifts the denial and pairs, and a refused one pairs nothing |
| LanPairing.PairTable.Reserve | internal/app/lan_pairing.go:104-115 | one request of one's own at a time; while it lasts, every larger incoming request is refused and every smaller one is entered as crossing |
| LanPairing.PairTable.Admit | internal/app/lan_pairing.go:313-336 | an incoming request is ignored, refused for a smaller one of one's own, or entered, within 64 |
| LanPairing.StepSound | internal/app/lan_pairing.go:85-404 | every step of either device keeps all frame, grant, history and conversation invariants |
| LanPairing.MutualConsent | internal/app/lan_pairing.go:134-181 | whoever commits, both devices had stored the same grant and the one that did not ask had consented to that request |
| LanPairing.AgreementIffNoReversal | internal/app/lan_pairing.go:99-103 | in every run the asking device has at every moment committed only what the answering one committed before, exactly if it never confirmed a query about its own request too early |
| LanPairing.AskerCommitsFirst | internal/app/lan_pairing.go:237-277 | the run in which it did |
| LanPairing.AgreementNeedsOwnQueries | internal/app/lan_pairing.go:99-103 | if devices queried only the requests they sent themselves, agreement would hold in every run |
| LanPairing.OfferHoldsUnlessDenied | internal/identity/identity.go:345-365 | in every reachable state the generation a device offers is the one it requires of a new grant exactly if it keeps no denial of the peer |
| LanPairing.ForgottenCannotPair | internal/identity/forget.go:8-45 | from a forgetting on a device stores no grant of the peer and commits nothing, through every run, until the denial is lifted |
| LanPairing.RecoverySettles | internal/app/lan_pairing.go:237-277 | from any reachable state in which both hold the unexpired grant, one undisturbed recovery by either leaves both committed and paired |
| LanPairing.CrossingRequests | internal/app/lan_pairing.go:328-338 | of two crossing requests, in either order of arrival, exactly the larger is refused, and the smaller can no longer be |
| LanPairing.NeverBothRefused | internal/app/lan_pairing.go:328-333 | over every run the tie-break refuses only the larger of two requests, never both |
| DirectPool.PoolSlot.Acquire | internal/app/direct_pool.go:73-107 | a live idle session is reused and a file reservation clears its bootstrap mark; otherwise the caller is busy or dials |
| DirectPool.PoolSlot.Publish | internal/app/direct_pool.go:109-142 | the dialled session becomes the pooled one and what it replaces is closed |
| DirectPool.PoolSlot.AdoptInbound | internal/app/direct_pool.go:252-301 | an inbound session is pooled or closed, by the preference for the smaller bootstrap |
| DirectPool.PoolSlot.Release | internal/app/direct_pool.go:180-195 | the pooled session stays, becomes idle and is timed once nothing uses it; any other is closed and the slot is untouched; giving a file reservation back keeps the slot invariant |
| DirectPool.PoolSlot.IdleExpired | internal/app/direct_pool.go:221-246 | an idle timer closes nothing but its own pooled and unused session, and never one reserved for a file |
| DirectPool.FileReservationStays | internal/app/direct_pool.go:85-107 | through any dials, adoptions, leases, streams and timers a live session reserved for a file stays the pooled one |
| DirectPool.DialsConverge | internal/app/direct_pool.go:248-301 | every settled run of simultaneous dials, for the clipboard or for a file, ends on the smaller session, alive and pooled at both ends, exactly if the larger one could give way when the smaller came and no operation on the smaller failed |
| DirectPool.UnreservedDialsConverge | internal/app/direct_pool.go:85-92 | so does every one in which the larger is never reserved for a file and nothing fails |
| DirectPool.BothCanBeClosed | internal/app/direct_pool.go:252-301 | the run in which both sessions are closed |
| DirectPool.ReservedCanConverge | internal/app/direct_pool.go:252-301 | a run with the same reservation that converges |
| TemporaryShare.ShareEntry.SaveRecord | internal/app/share_ledger.go:252-277 | a record is replaced only over its own row and only by a valid next revision |
| TemporaryShare.ShareEntry.Merge | internal/app/temporary_share_control.go:210-237 | an answer is merged exactly when it contradicts nothing that was set, and then the record has only evolved |
| TemporaryShare.ShareEntry.StopShare | internal/app/temporary_share_control.go:467-496 | a saved stop leaves the record stopped with its intent replaced |
| TemporaryShare.ShareEntry.ApplyAnswer | internal/app/temporary_share_control.go:266-304 | an answer is applied only to the intent it answers |
| TemporaryShare.RecordsEvolve | internal/app/temporary_share_control.go:210-314 | over every run: names never change once set, generation and revision never fall, terminal grants and stops are permanent, the approved receiver stays, retired records never return |
| TemporaryShare.NextOk | internal/app/temporary_share_tasks.go:374-434 | every step, plan confirmation, completion and monitor stop included, keeps the record valid and only evolves its row |
| TemporaryShare.LateIffStopWasLost | internal/app/temporary_share_control.go:266-304 | in any reachable state a step applies the answer to a superseded intent exactly if that intent's stop did not reach the row |
| TemporaryShare.StopsReplaceUnlessLost | internal/app/temporary_share_control.go:467-496 | a run applies no answer to a superseded intent exactly if none lands whose stop was lost; none does if every stop reaches the row |
| TemporaryShare.StopOutrun | internal/app/temporary_share_control.go:467-496 | the run in which one is applied |
| History.TaskHistory.Upsert | internal/app/history.go:438-452 | a save never lowers a revision, never touches another row, never passes a tombstone, and is the same twice as once |
| History.TaskHistory.Forget | internal/app/inbox_actions.go:96-160 | all referenced records are forgotten and leave tombstones, or nothing changes |
| History.SavesCommute | internal/app/history.go:438-452 | saving is a join: order and repetition do not matter, and every record ends at its newest revision |
| History.GoneForGood | internal/app/history.go:333-414 | over every run a task that left the table stays out: a forgotten one because of its tombstone, a quarantined one because nothing in memory would save it |
| History.HowItLeaves | internal/app/history.go:422-436 | a task leaves the table by a forgetting of the seen revision, with a tombstone, or by the start-up's quarantine of an unreadable row, without |
| History.LateSaveMeetsTombstone | internal/app/inbox_actions.go:93-95 | the tombstone is needed: a save can be under way when its task is forgotten |
| InboxPages.ReadPage | internal/app/inbox_history.go:266-309 | the loop returns the first rows behind the cursor up to the limit, with a cursor exactly when more follow, or refuses an unreadable one |
| InboxPages.ListingIs | internal/app/inbox_history.go:251-266 | a listing is exactly the matching rows behind the cursor, in order, each once |
| InboxPages.PagesAreExact | internal/app/inbox_history.go:251-309 | following cursors reads exactly the listing of the first page, for every limit, while rows change ahead of the cursor, and ends |
| InboxPages.InsertionAhead | internal/app/inbox_history.go:262-264 | an inserted row disturbs the remainder exactly when it matches and falls behind the cursor |
| NotificationId.ParsePrint | apps/desktop/native_background_notifications.go:166-170 | parsing a printed identifier gives the note back, for every valid task ID and revision |
| NotificationId.ParseIffPrinted | apps/desktop/native_background_notifications.go:260-279 | an identifier parses to a note exactly when it is that note's printed form |
| NotificationId.OpenedIff | apps/desktop/native_background_notifications.go:260-294 | a click opens a task ID exactly when the identifier is printed from a valid note of it and the user information agrees |
| NotificationLedger.Notifier.FindOldest | apps/desktop/native_background_notifications.go:203-217 | the record to evict is the longest untouched of those no call is using, if there is one |
| NotificationLedger.Notifier.Admit | apps/desktop/native_background_notifications.go:186-226 | a revision is admitted, refused as duplicate or refused for capacity exactly as specified |
| NotificationLedger.Notifier.Finish | apps/desktop/native_background_notifications.go:227-238 | ending a call changes no other record, drops its own only when nothing of it was sent or is pending, and after a success nothing up to that revision is admitted again |
| NotificationLedger.LedgerInvariant | apps/desktop/native_background_notifications.go:186-238 | at every moment at most 4096 records and 8 pending sends each, and every call in progress is pending in its own record |
| NotificationLedger.NeverSentAgain | apps/desktop/native_background_notifications.go:186-200 | while remembered, nothing submitted or pending is sent again, nor anything older than it |
| NotificationLedger.PendingIsNeverEvicted | apps/desktop/native_background_notifications.go:203-217 | admission evicts at most the oldest unused record |
| NotificationLedger.FinishTouchesOwn | apps/desktop/native_background_notifications.go:228-238 | a call that ends changes no record but its own and deletes it only when nothing of it was submitted or is pending |
| NotificationLedger.OlderStartsOnlyBehindFailures | apps/desktop/native_background_notifications.go:186-226 | in any reachable state an admitted revision comes after a started one at least as new exactly if such a one ended unsent |
| NotificationLedger.StartsIncreaseIff | apps/desktop/native_background_notifications.go:186-258 | the started revisions of every remembered task strictly increase throughout a run exactly if none is admitted behind such a failure |
| NotificationLedger.StartsIncreaseUnlessSendsFail | apps/desktop/native_background_notifications.go:186-258 | so they do while no send fails |
| NotificationLedger.StartedOutOfOrder | apps/desktop/native_background_notifications.go:228-238 | the run in which they do not |
| Wakeups.EventPump.NotifyCritical | apps/desktop/native_system_events.go:70-82 | a closed pump takes nothing; on an open one the worker, left alone, delivers the event after everything notified before |
| Wakeups.EventPump.Drain | apps/desktop/native_system_events.go:48-62 | a drain hands over the whole queue in order |
| Wakeups.CriticalEventsInOrder | apps/desktop/native_system_events.go:42-92 | what is delivered is a prefix of what was notified, and a queued event has a token or a working worker unless the pump closed |
| Wakeups.DrainsInBoundedSteps | apps/desktop/native_system_events.go:42-66 | left alone the worker delivers everything within two steps an event and four more |
| Wakeups.NewestJobIsNeverStranded | internal/app/clipboard_transport.go:51-62 | a pending job is the newest, has a wake-up on the way and has cancelled what is being sent; none is taken twice |
| Wakeups.PendingJobIsTaken | internal/app/clipboard_transport.go:437-464 | from any reachable state a pending job is taken within four moves |
| DraftPaths.NormalizeDraftPaths | internal/app/desktop_store.go:394-439 | the list is accepted exactly when every path is clean and the JSON array of first paths fits; the running count is its length throughout |
| DraftPaths.FirstsAreStable | internal/app/desktop_store.go:403-438 | every key is stored once, and normalising the result again changes nothing |

## Left out

- Sockets, ICE, QUIC, TLS, signaling calls and their timing: foreign libraries. A session is only live or closed.
- The desktop shell: tray, dialogs, autostart, shortcuts, native pickers, registry, Windows handles.
- Cryptography, hashing, JSON and SQL parsing, which are injective here; symbolic links and special files are entries that never match.
- Schema migrations, diagnostics, preferences and the sleep inhibitor, which would add only easy members.
- CacheTree.CacheRoot.RemoveTree: nobody else touches the tree during the call; `CacheDisk` and `CacheSystem` are about those who do.
- CacheLedger.ValidateInventory: names are sequences of code points, so their UTF-8 validity and normal form are not checked.
- CacheLedger.Receipt.CaptureClosingStorage: reading a node from an open file cannot fail here.
- CacheLedger.Receipt.Save: the fields of a row that no proof depends on, such as the peer and the creation time, are not modelled.
- CacheSystem.EveryRunKeepsInv: one worker an object at a time; the whole-tree check before a removal, which others can disturb while it runs, is a parameter there, as `TreeCheck.Check` is about a tree that stays as it is.
- CacheCollector.Collector.Collect: the outcome of one deletion attempt is a parameter; `CacheSystem` says what an attempt does.
- CacheSpace.Space.Reserve: free space is what the probe reported; another program may use it afterwards.
- SendQueue.NextKeeps: the dispatcher's two loops are one step per row, because tasks move between them; a pause, an error or a shutdown is a turn given up. Source digests, content snapshots and expiry are parameters.
- SendQueue.QueueStore.Lookup: what a request binds besides its peer is one value; a file snapshot of a draft is part of it.
- LanPairing.StepSound: two devices and one grant file each; membership credentials, group removals and remembered addresses are not modelled.
- DirectPool.DialsConverge: idle timers and third dials are left out of the race, which is about the two sessions; `FileReservationStays` includes them.
- TemporaryShare.RecordsEvolve: paths, directories, error codes and expiry times are not modelled, nor the in-memory denial flag, which only refuses more.
- History.SavesCommute: assumes, as the program does, that one revision of a record has one content.
- History.GoneForGood: a new task's random identifier is one that was never used.
- InboxPages.PagesAreExact: how a row comes to match a filter (full-text search, folding, states) is a parameter.
- NotificationLedger.Notifier.Admit: permissions, titles and the platform are not modelled; a refused permission is a failed send.
- Wakeups.CriticalEventsInOrder: the second channel, which coalesces network events, is not modelled; it may drop events by design.
- DraftPaths.NormalizeDraftPaths: drive letters, case folding and cleaning are one abstract function on a path.
