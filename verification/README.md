# Verification of the guest-slot lease and cleanup protocol

nats-guest-access hands out the numbered slots of a live event to anonymous
guests, renews their leases, and erases them through an external cleaner. HTTP
handlers, a background reconciler and restarted processes all run the same
operations on one revisioned key-value store, with no lock across store calls.
This project models that protocol and proves what it guarantees in every
interleaving.

## How the model is built

* **The store** (`Store.dfy`, `Memory.dfy`): the compare-and-swap map as a value
  with its revision counter and the history of every write, and the mutable
  in-memory object whose methods are proved to compute it. `Keys.dfy` shows that
  spelling keys as strings changes nothing.
* **The protocol as atomic actions** (`Model.dfy`, `Protocol.dfy`): one action is
  one store call, one clock tick, one token mint, or one end of a cleaner call. A
  process may act on any version that was ever written, however stale; a crash is
  a process that performs no further action. Beside the store a world records how
  far each join and each cleanup claim has come, what was minted, and what the
  cleaner acknowledged with a complete count.
* **What every run keeps** (`Invariants.dfy`, `Preservation.dfy`, `Fates.dfy`,
  `Frames.dfy`, `Runs.dfy`), and the guarantees over whole runs that follow:
  erasure and purge before reuse (`Guarantees.dfy`), who keeps a slot and how many
  can (`Tenancy.dfy`), the life of an event (`Lifecycle.dfy`), the guests of one
  that was undone (`Orphans.dfy`), what a pause stops (`Pausing.dfy`,
  `Tokens.dfy`), one cleaner call at a time (`Leases.dfy`), invitations
  (`Invitations.dfy`) and when one leaks (`Leaks.dfy`), retries (`Backoff.dfy`,
  `Retries.dfy`), fairness (`Scheduler.dfy`, `Counting.dfy`), exact admission
  (`Calls.dfy`, `Admission.dfy`). Statements over runs quantify over every world that satisfies
  the invariant, or every reachable one, and every sequence of actions; an action
  whose guard fails has no effect.
* **The operations as methods** (`Cleanup.dfy`, `Joining.dfy`, `Renewal.dfy`,
  `Control.dfy`, `Rotation.dfy`, `Deletion.dfy`, `Listing.dfy`, `Recovery.dfy`,
  `Controller.dfy`, and `Afterwards.dfy` for one operation after another): in the source's form, with its loops, retries and early
  returns, on a shared object (`Cluster.dfy`) whose methods are the atomic
  actions. Before each of them any number of actions of other processes may
  happen. A rely condition says what those cannot do; `Interference.dfy` proves
  that every run of the others meets it, from every world that is `Sane`, as every
  reachable one is. A method's contract states what holds whoever else acts, and,
  under `rely.alone`, exactly what it does when nobody else does. Where it matters
  a contract also covers the case between: `rely.quiet` (nobody opens an event
  while it is closed, and no renewal in flight has read it as open), `rely.open`
  (an event stays open meanwhile) and `rely.keeps` (nobody writes certain keys).

Letting a process act on any version ever written covers every real run, and more
runs than there are. Where a statement says that something can happen, it says
from what: `Pausing.InFlight` names what operations begun earlier have in hand,
and every other renewal, join and token in the run has to be begun in it.

Random identifiers and secrets are fresh draws; a digest is an injective stand-in
for the secret it hashes. The cleaner is any answer at all, an error or a count,
and methods return it, so that a contract can say what follows from which answer.
They also return the moment of the store call that decided them. Times are whole
seconds.

The invariant and two relations between worlds are stated behind a quantifier
over `Shown`, which is always true, so that a proof sees their parts only where it
asks for them (`Show`, `ShowSince`, `ShowMeanwhile`); they mean what they name.

## Findings

Three promises do not hold of the code as they stand. Each has the exact condition
under which it holds, and an input at which it fails.

* **An invitation can leak**: a key that admits to an event, though it is not the
  event's invitation and no rotation will take it away (internal/access/service.go:109).
  It happens at exactly two steps: storing the first invitation after the event
  was given another, which has been withdrawn already, and removing an event
  before its key is stored or withdrawn (`Leaks.LeaksExactlyHere`). A leaked key
  stays at every step but a finalizer's of that digest (`Leaks.LeakStays`), and for
  good if no version that carried it was ever deleting (`Leaks.LeakIsForGood`).
  From every world with an unfinished creation a rotation can leave it behind for
  good (`Leaks.EveryUnfinishedCreationCanLeak`), and a deletion can leave it
  behind for an event that is gone (`Leaks.UnfinishedCreationCanOutliveItsEvent`).
  So no interleaving leaks a key of an event if and only if its creation has
  returned (`Leaks.SafeExactlyOnceCreated`);
  `Leaks.RotatingTooEarlyLeaksAnInvitation` is the failing input.
* **"Stop admission and token renewal"** (README.md:58): a pause stops what begins
  after it, and not what is in flight. A join or a renewal begun while the event is
  closed does not succeed unless somebody opens the event (`Joining.StartSession`,
  `Renewal.TryRenew`, `Renewal.RenewLease`). Of what was begun before: a guest
  without a token can be given one if and only if its join was past the recheck
  when the event closed (`Pausing.PauseStopsExactlyLaterJoins`), a guest in its
  place can be renewed if and only if a renewal in flight has read the event as
  open (`Pausing.PauseStopsExactlyLaterRenewals`), and any guest can be given a
  token if and only if one of the two is in flight for it, or a renewal already
  stored (`Tokens.PauseStopsExactlyLaterTokens`). With no such reading in flight
  the pause keeps every place (`Pausing.NothingInFlightIsQuiet`,
  `Control.SetState`). `Pausing.LatePauseStillMints` and
  `Pausing.LatePauseStillRenews` are the failing inputs.
* **"All slot/event deletion uses an expected revision"** (README.md:176): the undo
  in `CreateEvent` (internal/access/service.go:110) deletes the event by its key,
  in whatever state others have brought it to, and without a receipt
  (`Lifecycle.UnfinishedCreationCanUndo`). An event goes only under its receipt, in
  every continuation, if and only if its creation has returned or the receipt is
  there (`Lifecycle.EventIsKeptIffCreated`). A guest admitted before the undo stays
  in its slot with its token, and no recovery pass ever lists it
  (`Orphans.UndoOrphansItsGuests`, `Orphans.UndoneIsNeverListed`,
  `Orphans.OrphanStays`), while `Joining.ReleaseSlot` and `Deletion.DeleteEvent`
  answer that there is no such event. `Orphans.UndoOrphansAGuest` is the failing
  input.

## Model

| member | source | states |
|---|---|---|
| KvStore.RevisionsIncrease | internal/store/memory.go:30-54 | over every history of calls a later write has a larger revision than an earlier one, whatever the keys, through deletes and re-creations |
| KvStore.CasSucceedsExactlyOnTheLiveWrite | internal/store/memory.go:41-54 | `Update` or `DeleteRevision` with revision r succeeds if and only if some call wrote the key at r and no call has touched the key since |
| KvStore.LiveMeansEntry | internal/store/memory.go:9-13 | that write is live exactly when the stored entry carries its revision |
| KvStore.HistoryIsConsistent | internal/store/memory.go:30-39 | after any history every live entry is a recorded write and the counter bounds all revisions |
| KvStore.CounterNeverFalls | internal/store/memory.go:30-54 | the revision counter never falls over a history |
| MemoryStore.Memory.constructor | internal/store/memory.go:15-17 | a new store is empty with revision zero |
| MemoryStore.Memory.Get | internal/store/memory.go:19-28 | the live entry, or not found |
| MemoryStore.Memory.Create | internal/store/memory.go:30-39 | refuses an existing key unchanged, else writes at the next revision |
| MemoryStore.Memory.Update | internal/store/memory.go:41-54 | refuses a missing key or another revision unchanged, else writes at the next revision |
| MemoryStore.Memory.Delete | internal/store/memory.go:56-64 | removes exactly the key, or answers not found |
| MemoryStore.Memory.DeleteRevision | internal/store/memory.go:79-91 | removes exactly the key if its revision is the expected one, and says why not otherwise |
| MemoryStore.Memory.List | internal/store/memory.go:66-77 | exactly the live entries whose key starts with the prefix, each with its value and revision |
| Keys.RenderIsInjective | internal/access/service.go:586-591 | for identifiers without dots, distinct typed keys are spelled differently, slot numbers past three digits included |
| Keys.SlotKeySpelled | internal/access/service.go:589-591 | a slot key ends in the number in three digits below a thousand, and in as many as it takes without a leading zero from there on |
| Keys.SlotPrefixSelectsSlots | internal/access/service.go:589-591 | an event's slot prefix starts exactly the keys of that event's slots |
| Keys.StringStoreSimulatesTyped | internal/store/memory.go:30-91 | every call on spelled keys answers and acts as the call on typed keys |
| Keys.StringHistorySimulatesTyped | internal/store/memory.go:30-91 | so does every history of calls |
| Keys.ListReturnsExactlyTheSlots | internal/store/memory.go:66-77 | listing a slot prefix returns exactly that event's live slots |
| Preservation.InvHolds | internal/access/service.go:265-469 | every reachable world satisfies the invariant: typed versions, joins still held or acknowledged, deleted events deleting, claims and receipts backed by acknowledgements |
| Preservation.InvExec | internal/access/recovery.go:47-193 | every run of actions keeps the invariant |
| Runs.RunGrows | internal/access/service.go:318-330 | no run takes back a version, a receipt, a mint, an acknowledgement or a finished join, and new joins have new generations |
| Fates.SlotFate | internal/access/recovery.go:47-80 | in one action a live slot stays as it is, is changed by a successful compare-and-swap on it, or is removed after an acknowledgement, under a receipt, or by its own refused join |
| Fates.SlotBirth | internal/access/service.go:293-300 | a slot appears only through a join's create |
| Fates.EventFate | internal/access/recovery.go:188-192 | a live event stays, is changed by a compare-and-swap on it, is removed while deleting and under a receipt, or is removed by the undo of its own unfinished creation |
| Fates.EventBirth | internal/access/service.go:99-109 | an event appears only as a draft under a new identifier |
| Fates.ReceiptFate | internal/access/recovery.go:154-161 | a receipt never changes and appears only by a create where there was none |
| Fates.IndexFate | internal/access/service.go:326-328 | the only ways a session index comes, becomes a tombstone, or goes |
| Fates.InvitationFate | internal/access/service.go:210-225 | the only ways an invitation key comes and goes |
| Guarantees.ReceiptMeansErased | internal/access/recovery.go:106-166 | once an event has a receipt, every subject minted for it, before or later, in any continuation, has been acknowledged |
| Guarantees.MintedIsHeldOrErased | internal/access/recovery.go:47-80 | a subject ever minted is in its slot or acknowledged, in every continuation |
| Guarantees.ReuseOnlyAfterPurge | internal/access/service.go:299-313 | a slot number is given to a new generation only after every generation minted there was acknowledged |
| Guarantees.StaleWorkerIsHarmless | internal/access/recovery.go:57-79 | whatever a worker does with an old slot version, the slot and the session index of every other generation stay as they are |
| Guarantees.ClaimIsOneWay | internal/access/recovery.go:34-80 | over any run a claimed slot keeps its intent ID, counts one attempt per successful claim, and changes in nothing else until its entry is deleted |
| Guarantees.ClaimStep | internal/access/recovery.go:34-60 | the same for one action |
| Guarantees.GoneForGood | internal/access/service.go:292-311 | a generation that has left its place never returns to it |
| Tenancy.NoEarlyReclaim | internal/access/service.go:302-306 | an unclaimed tenant loses its place only by a release, a finished deletion, or a claim at whose compare-and-swap the stored slot is unreserved and past grace |
| Tenancy.PunctualGuestKeepsItsSlot | internal/access/service.go:386-393 | a guest that is never overdue keeps subject and slot in every run without release or deletion |
| Tenancy.ReservedPlaceIsKept | internal/access/service.go:513-534 | a reserved unclaimed slot keeps its very entry and session index through any run in which nobody renews or releases it and the event is not deleted |
| Tenancy.CapacityIsNeverExceeded | internal/access/service.go:287-332 | renewable secrets map injectively to slot numbers from 1 to the largest capacity the event ever had, so no more than that many guests are renewable |
| Tenancy.StickyHolds | internal/access/service.go:386 | once any version of a generation was claimed, its live entry is claimed |
| Lifecycle.EventMoves | internal/access/service.go:572-576 | an event moves draft to open, open to and from paused, any to deleting; it goes only while deleting and under a receipt, or undone by its own unfinished creation |
| Lifecycle.EventsStartAsDrafts | internal/access/service.go:99-109 | an event comes into being once, as a draft under an identifier never used |
| Lifecycle.DeletionIsAbsorbing | internal/access/service.go:458-467 | in every continuation a deleting event is deleting under the same deletion ID, or gone |
| Lifecycle.GoneOnlyUnderReceipt | internal/access/recovery.go:165-193 | in every continuation an event whose creation has returned, or that has its receipt, is live, or gone for good under the receipt that names its deletion |
| Lifecycle.UnfinishedCreationCanUndo | internal/access/service.go:109-111 | an unfinished creation can remove its event, whatever its state, and leave no receipt |
| Lifecycle.EventIsKeptIffCreated | internal/access/service.go:106-111 | an event goes only under its receipt, over every continuation, if and only if its creation has returned or its receipt is there |
| Lifecycle.ReceiptNeverChanges | internal/access/recovery.go:111-114 | no run changes or removes a receipt |
| Leases.OneCallPerDeletionId | internal/access/recovery.go:34-45 | after any run in which each outstanding call's claim had read the clock less than a lease ago, no two outstanding calls carry the same deletion ID |
| Leases.ClaimStoresLease | internal/access/recovery.go:34-45 | every accepted claim, of a slot or an event, stores one attempt more and an intent that is due a lease after the moment the claim read |
| Leases.ClaimBegan | internal/access/recovery.go:51-60 | every claim in any run was begun by one step of it, and carries its lease from the moment read there ever after |
| Retries.ClaimHoldsItsLease | internal/access/recovery.go:34-45 | between two accepted claims of one intent with no failure of it saved, over every run, there is at least a lease |
| Leases.LeasesHold | internal/access/recovery.go:34-45 | every reachable world satisfies the claim-by-claim invariant below |
| Leases.LeasesExec | internal/access/recovery.go:51-70 | every run keeps: an ID is used at one key only, the live intent is that of the active claim, and two claims of one ID are different attempts and not both active |
| Leases.AnyIntentFate | internal/access/recovery.go:122-152 | the only ways a stored intent changes: a due attempt is claimed, an ended one saves its failure, a deletion starts, or it goes |
| Invitations.InvitationsAreConserved | internal/access/service.go:199-227 | at quiescence the keys naming an event are exactly its current digest while it is live and not deleting, and none when it is gone, whatever raced, if it was not rotated or deleted before its creation returned |
| Invitations.SoundExec | internal/access/service.go:210-225 | every such run keeps: a live key of the event is current or still held by a rotation, an unfinished creation's digest is the current one, and a finalizer's dropped key stays gone |
| Invitations.TidyHolds | internal/access/service.go:106-109 | in every reachable world no digest is carried or stored for two events, and the digest of an unfinished creation has no key |
| Invitations.OfferIsMine | internal/access/service.go:210-222 | no rival's action makes an invitation on offer current, stale or gone |
| Leaks.LeaksExactlyHere | internal/access/service.go:109 | an action leaks a key if and only if it stores the first invitation when that digest is neither current nor still to be withdrawn, or removes the event while its current key is there |
| Leaks.LeakStays | internal/access/recovery.go:185-187 | a leaked key stays at an action if and only if the action is not a finalizer's drop of that digest |
| Leaks.LeakIsForGood | internal/access/recovery.go:185-187 | a leaked key whose digest no deleting version ever carried stays over every run |
| Leaks.EveryUnfinishedCreationCanLeak | internal/access/service.go:199-227 | from every world with an unfinished creation there is a rotation after which the first invitation is leaked, and stays so over every run |
| Leaks.UnfinishedCreationCanOutliveItsEvent | internal/access/recovery.go:168-193 | from every such world a deletion can run to its end and the first invitation be stored afterwards, for an event that is gone |
| Leaks.SafeExactlyOnceCreated | internal/access/service.go:106-113 | for an event whose invitations are in order, no run whatever leaks a key of it if and only if its creation has returned |
| Leaks.RotatingTooEarlyLeaksAnInvitation | internal/access/service.go:106-112 | a concrete input, under any configuration: the first event of a service, rotated before its creation returned, keeps its first invitation over every run |
| Pausing.PauseStopsExactlyLaterJoins | internal/access/service.go:318-332 | while a closed event is not opened, some run gives a guest its first token if and only if the guest has none and its join was past the recheck |
| Pausing.PauseStopsJoins | internal/access/service.go:318-325 | while a closed event is not opened, it stays closed and no join passes the recheck, over every run |
| Pausing.PauseStopsReadings | internal/access/service.go:367-377 | no run adds a version of such an event as open |
| Pausing.PauseStopsExactlyLaterRenewals | internal/access/service.go:366-397 | while a closed event is not opened, an unclaimed guest in its place can be renewed, in a run that goes on from what is in flight, if and only if a renewal in flight has read the event as open |
| Pausing.NothingInFlightIsQuiet | internal/access/service.go:366-377 | when none has, no run renews a slot of the event or reads it as open: it meets what `rely.quiet` asks of rivals |
| Pausing.LatePauseStillMints | internal/access/service.go:318-332 | a concrete run that pauses an event with nobody minted yet, after which a guest is minted though nobody opens it |
| Pausing.LatePauseStillRenews | internal/access/service.go:367-397 | a concrete run that pauses an event and reserves its slot, after which a renewal that had read it as open is stored; and no run renews it with nothing in flight |
| Tokens.PauseStopsExactlyLaterTokens | internal/access/service.go:318-341 | while a closed event is not opened, a guest can be given a token if and only if its join is in flight past the recheck, or a stored renewal of it is in flight, or it is in its place unclaimed and a renewal in flight has read the event as open |
| Tokens.RenewalStored | internal/access/service.go:387-397 | a renewal appears in a run only by a compare-and-swap, at some step, on its guest's live slot |
| Orphans.UndoOrphansItsGuests | internal/access/service.go:109-111 | from every world with an unfinished creation whose event is not being deleted, the undo leaves every admitted guest in its place, its token minted, the event gone |
| Orphans.UndoneIsNeverListed | internal/access/recovery.go:218-255 | over every run afterwards neither the event nor any of its slots is an intent that a pass lists, and there is no receipt |
| Orphans.OrphanStays | internal/access/recovery.go:47-60 | such a guest stays in its place over every run in which nobody claims its slot |
| Orphans.UndoOrphansAGuest | internal/access/service.go:106-112 | a concrete run: a rival opens and rotates the event, a guest joins, the creation undoes itself, and the guest is minted, unacknowledged and never listed |
| Backoff.DelayIsBoundedAndMonotone | internal/access/recovery.go:24-32 | each delay is between 5 and 160 seconds and never decreases as attempts grow |
| Backoff.DelaysInSeconds | internal/access/recovery.go:24-32 | the delays are 5, 10, 20, 40, 80 seconds, and 160 from the sixth attempt on |
| Retries.SavedFailureDelays | internal/access/recovery.go:65-70 | every saved failure puts the next attempt off by exactly that delay, of 5 to 160 seconds, and changes nothing else of the intent |
| Backoff.TotalDelayClosedForm | internal/access/recovery.go:24-32 | the delays of n failures add up to 5(2^n - 1) seconds for n up to 6 and 315 + 160(n - 6) from there on |
| Backoff.DelaysAddUp | internal/access/recovery.go:65-70 | n consecutive saved failures count n attempts and move the next one out by all delays so far |
| Backoff.BackoffBound | internal/access/recovery.go:34-45 | the next claim after n saved failures is accepted at the earliest that long after the first, under the same ID |
| Retries.BackoffOverRuns | internal/access/recovery.go:24-70 | between two accepted claims of one intent, over every run, crash and restart, with n of its failures saved in between, the clock has moved by 5(2^n - 1) seconds for n up to 6 and by 315 + 160(n - 6) from there on |
| Scheduler.SortByDueSorts | internal/access/recovery.go:257 | sorting by due time orders the tasks and keeps each of them |
| Scheduler.FrontIsEarliest | internal/access/recovery.go:258-266 | a batch off the front of the sorted list is the batch of earliest-due intents, all of them if no more are due |
| Scheduler.PassedOverByABatch | internal/access/recovery.go:211-212 | a pass that passes over a due intent removes a full batch of those due no later |
| Scheduler.BoundedOvertaking | internal/access/recovery.go:211-212 | a due intent with k others due no later is passed over by fewer than k / batch + 1 consecutive passes that settle what they attempt |
| Scheduler.AttemptedInTime | internal/access/recovery.go:211-212 | so among that many consecutive fair passes one attempts it |
| Calls.Further | internal/access/service.go:286-332 | the steps of one part of a join and of the next, others acting in between, are steps of one call |
| Admission.ExactAdmission | internal/access/service.go:286-332 | any complete interleaving of n joins on an empty open event, within the grace time, admits exactly min(n, capacity) guests, on slots 1, 2, ... with distinct minted subjects; everyone else is told it is full |
| Admission.RunKeeps | internal/access/service.go:287-330 | at every moment of such an interleaving the occupied slots are 1 to m, each held by exactly one call, and a call without a slot has passed over taken slots only |
| Interference.SaneHolds | internal/access/service.go:265-469 | every reachable world is one the rely conditions hold from |
| Interference.EnvironmentRunIsLater | internal/access/service.go:351-400 | every run of the other processes, however long, meets the rely condition the methods below count on, the invitations a process holds included |
| Interference.StepIsLater | internal/access/service.go:318-325 | so does each of their actions; for a closed event that nobody opens and of which no open reading is in flight, no join passes the recheck and a secured place stays secured; for an event that stays open, a kept place that nobody writes keeps its session index |
| Cleanup.CallCleaner | internal/access/recovery.go:61-64 | the call is an acknowledgement of its subjects if and only if the cleaner answers the count of all it was asked for; an error or any other count acknowledges nothing |
| Cleanup.AckedExactlyOnFullCount | internal/access/recovery.go:61-69 | over every action, a subject becomes acknowledged if and only if a call that asked for it ends with the count of all it asked for |
| Cleanup.CleanSlot | internal/access/recovery.go:47-80 | whoever else acts: success means the subject is acknowledged and its place empty, and any problem is an attempt still pending, a claim another writer overtook, an answer other than the full count, or a slot changed again since, an entry found gone being as good as deleted; alone, success if and only if the cleaner counts one, and otherwise the saved failure with its exact due time |
| Cleanup.FinishSlot | internal/access/recovery.go:61-79 | the same from the stored claim on |
| Joining.StartSession | internal/access/service.go:265-333 | whoever else acts, an admitted guest has a new minted subject in a slot of the event the invitation named, which was open and had room for it after it was stored, and everyone minted there before is acknowledged; alone, it is refused exactly when it should be, and otherwise takes the first place that was vacant or could be cleared, can renew, and takes nothing from whoever could renew before; every place it passed over was reserved, in grace or pending and is unchanged, or stores the failure of an attempt made in this call; begun while the event is closed, it does not get in unless somebody opens it; and, until it goes on to clean a slot, the steps it makes are those of `Calls.StepOf` that exact admission is about |
| Joining.FindEvent | internal/access/service.go:265-285 | the part up to the scan: the event the invitation names, read as open; alone, every refusal as it should be |
| Joining.ScanSlots | internal/access/service.go:287-332 | the same for the scan over slot numbers |
| Joining.TakePlace | internal/access/service.go:299-317 | a place is taken only when vacant, or vacated by a cleanup, by a create of its own; alone, a vacant place is always taken, one that can be cleared is taken if and only if the cleaner counts its guest, and otherwise stores that failure; nothing at all changes at any other |
| Joining.CreateOnce | internal/access/service.go:293-300 | the create succeeds exactly on a vacant place and stores the new guest's slot with a full term |
| Joining.TakenOverFromErased | internal/access/service.go:309-313 | guests that left a place before it was taken are acknowledged if they are ever minted |
| Joining.FinishJoin | internal/access/service.go:318-330 | a token is minted if and only if the event was read again, open and with room for the slot; a refused join has removed the slot version it created, and says whether the event was gone or closed; alone and with room, the new guest has its index, and nobody else's changed |
| Joining.ReleaseSlot | internal/access/service.go:426-442 | success means the guest of that slot is acknowledged and the place empty, after the cleaner counted exactly one; alone, the exact outcome in every case, and every other guest can still renew |
| Renewal.RenewLease | internal/access/service.go:351-401 | a lease is for the guest the secret was issued to, with a full term from a moment within the call; alone, it succeeds exactly when the secret is renewable and the event open, changes only the slot's times, counted from now, and its flag, and says why otherwise; it gives up only after five lost races on the slot; a kept place succeeds, whoever else acts, while the event stays open and nobody writes the slot; none begun while the event is closed succeeds unless somebody opens it |
| Renewal.TryRenew | internal/access/service.go:367-399 | the same for one attempt, which is repeated only after a lost race; begun while the event is closed it is refused with the event's state as the reason, whoever else acts, unless somebody opens it |
| Renewal.RenewFound | internal/access/service.go:382-399 | the rest of an attempt, from the slot version read: refused exactly when claimed, or unreserved and past grace; stored if and only if the version is the live one |
| Renewal.RenewSession | internal/access/service.go:335-341 | success mints a token for the same guest, in a slot version with a full term from a moment within the call, read open, that was really stored |
| Renewal.KeptPlaceCanBeRenewed | internal/access/service.go:386-393 | a place kept across pauses is renewable once the event is open again, by its own holder's secret and no other |
| Control.SetState | internal/access/service.go:143-170 | success means the target was stored; a pause during which nobody reopens, with no renewal in flight that has read the event as open, leaves every guest past the recheck reserved or claimed; alone, it succeeds if and only if the event is in the target state already or moves from draft to open, open to paused or paused to open, and changes the state, and on a pause the flags, and nothing else; a permitted move is refused only after five lost races |
| Control.TrySet | internal/access/service.go:147-169 | the same for one attempt, which is repeated only after a lost race |
| Control.ReserveSlots | internal/access/service.go:513-534 | success on a closed event that nobody opens, with no such renewal in flight, leaves every guest past the recheck reserved or claimed, joins in flight included; alone, one pass always suffices and changes only the flag of unclaimed slots |
| Control.ReserveOne | internal/access/service.go:523-531 | one listed slot ends in a safe place, or the race was lost |
| Control.CoveredIsSecured | internal/access/service.go:513-533 | if every listed slot is in a safe place, so is every guest past the recheck |
| Control.UpdateCapacity | internal/access/service.go:172-197 | success means the event now has that capacity, within the maximum; alone, succeeds exactly for such a capacity on an event not being deleted, and changes nothing but the capacity; such a capacity is refused otherwise only after five lost races |
| Listing.ListSlots | internal/access/service.go:514-522 | every slot that holds its place throughout is listed, each number once; alone, exactly the live slots; a slot seen reserved or claimed stays so while the event is quiet |
| Afterwards.PauseAndReopen | internal/access/service.go:143-170 | alone, an open event can be paused and, after any time, reopened; the event is as it was and every guest that could renew before can renew |
| Afterwards.JoinAndRenew | internal/access/service.go:265-401 | alone, a guest that got in can renew in the same place as the same subject until its grace ends, and no longer |
| Afterwards.DeleteAndReturn | internal/access/service.go:593-613 | alone, once a deletion was asked for, and whatever the cleaner answered, a seated guest that returns with its secret is told the event was deleted |
| Rotation.CreateEvent | internal/access/service.go:88-114 | success means a new draft under an unused identifier, and its invitation stored; when the store does not take the invitation, the event is gone again; alone, it succeeds if and only if the capacity is in range and the store takes the invitation, with exactly those changes and no other |
| Rotation.RotateInvitation | internal/access/service.go:199-227 | success means the new invitation was the event's current one and the replaced key is gone; after a lost race the offered key is gone; it is refused without an offer only when the event was read as absent or deleting; alone, it succeeds exactly on a live event not being deleted, and replaces the invitation and its key, nothing else |
| Deletion.MarkSessionDeleted | internal/access/service.go:593-613 | success means the session index is gone or says deleted; it gives up only after five lost races, or when the index vanished while being marked; alone it always succeeds, touches that index only, and an index that was there is there still |
| Deletion.PurgeSlots | internal/access/recovery.go:169-184 | whoever else acts, success means every guest that had a place of the event at the start has left it, and a problem names the listed guest that changed meanwhile; alone, no slot of the event is left, the session of each guest in one says deleted, and nothing else changed |
| Deletion.FinalizeEvent | internal/access/recovery.go:168-193 | success means the event entry is gone and every guest that had a place has left it; a problem is a guest or an event entry that changed meanwhile, never one already gone; alone on the live version it succeeds and leaves of the event only its receipt and the sessions marked deleted, and everything else as it was |
| Deletion.EraseGuests | internal/access/recovery.go:131-147 | the answer is complete if and only if it counts every subject asked for, and then all are acknowledged; alone, the subjects are exactly those of the live slots |
| Deletion.SealEvent | internal/access/recovery.go:154-165 | the receipt returned is the one stored, the first writer's if there is a rival; success means the event is gone and every guest ever minted for it acknowledged |
| Deletion.CleanEvent | internal/access/recovery.go:106-166 | the same for the whole cleanup, with the reason for each problem; alone, the exact outcome: finalized under the old receipt, pending, erased and sealed if and only if the cleaner counts every subject, or else the saved failure with its exact due time |
| Deletion.EraseAndSeal | internal/access/recovery.go:131-165 | the same from the stored claim on |
| Deletion.DeleteEvent | internal/access/service.go:444-469 | every receipt returned is the stored one, and every guest ever minted for the event is acknowledged; alone, the exact outcome in every case, decided by the cleaner's answer |
| Deletion.ReceiptErases | internal/access/recovery.go:82-93 | a stored receipt names the event's deletion and means all its guests are acknowledged |
| Recovery.Reconcile | internal/access/recovery.go:213-280 | a pass attempts exactly the batch of earliest-due intents, all if no more are due, accounts for every attempt, and a completed attempt has erased its guest or finished its deletion; alone, its tasks are, in the records' own fields, each event being deleted and, of the others, each slot that is claimed, or expired and unreserved under an open event, and nothing else; every one attempted is gone and counted completed, or carries one attempt more and is counted failed, and every other entry is as it was |
| Recovery.Attempt | internal/access/recovery.go:266-272 | success means the guest is acknowledged or the deletion has its receipt, and each problem has its reason; alone, on a due intent, the entry is gone if and only if it succeeds, carries one attempt more and is due later otherwise, and every other intent is as it was |
| Recovery.AttemptBatch | internal/access/recovery.go:258-278 | min(batch, due) tasks are attempted, in order, and counted as completed, failed or neither; alone, they and no others are gone or attempted once more, and none counts as neither |
| Recovery.CollectTasks | internal/access/recovery.go:218-255 | every task is a version really stored, with its due time, no intent twice; alone, exactly the stored intents |
| Recovery.EventTasks | internal/access/recovery.go:224-254 | the same for one event: its own intent while deleting, else those of its slots |
| Recovery.SlotTasksAre | internal/access/recovery.go:242-253 | a listed slot becomes a task, in the version listed, if and only if it is claimed, due when its next attempt is, or unreserved and past grace under an open event, due since its grace ended |
| Recovery.RecordsAreListed | internal/access/recovery.go:224-254 | a task list that is exactly the stored intents holds, in the records' own fields, each event being deleted, each claimed slot of another event and each expired unreserved slot of an open one, in its live version and with its due time, and no other |
| Controller.Controller.Run | internal/recovery/controller.go:31-47 | the loop makes one pass per round, none without an interval or a batch; while nobody else acts each pass begins where the one before it ended, and every slot or deletion due at the start by its own fields, with k others due no later, is gone or carries an attempt more within k / batch + 1 passes |
| Controller.Controller.Tick | internal/recovery/controller.go:49-63 | one pass, added to the counts; alone, over exactly the intents stored, which settles what it attempts and leaves the others as they were |
| Controller.Controller.TickAndWait | internal/recovery/controller.go:35-45 | a pass and the time to the next one; alone, a fair pass from which the next takes over |
| Controller.PassIsFair | internal/access/recovery.go:211-278 | an undisturbed pass settles every intent it attempts, and none that arrives by the mere passing of time is due before it |

## Left out

- Presenter permissions (owner, cohosts, capabilities), name and application-ID validation, and plain listing calls: they add only one-branch members.
- HTTP routing, cookies, JSON bodies and error-code mapping: plumbing.
- JWT signing, OIDC verification, HMAC and random bytes: foreign libraries; minting is an entry in a record, digests are injective, secrets and identifiers are fresh.
- The NATS store and NATS cleanup client: wrappers over libraries that are not part of this model. Listing is modelled as one read per key, of which the in-memory snapshot is the special case.
- Byte slices, the JSON encoding of entries, and the 64-bit width of revisions and timestamps: entries hold typed values and numbers are unbounded.
- Store errors other than not found, exists and conflict, and cancelled contexts, except as a process that stops, and except the one that `CreateEvent` undoes itself after (internal/access/service.go:109-111).
- The service without a cleaner configured (internal/access/recovery.go:48-50 and 115-117): a cleaner is always there and may always fail.
- `SetCohost` appears as an action that rewrites an event version unchanged; the cohort list itself is not modelled.
- Report fields and timestamps that nothing decides on: `OldestSeconds`, `CreatedAt`, `UpdatedAt`, deletion principals in receipts.
- `HeartbeatSession`: it is `RenewLease` with the lease end as its answer.
- Control.ReserveSlots: the source starts over without limit while rivals keep changing slots; here `passes` bounds that and `Interrupted` is the answer beyond it. With nobody else running no second pass is ever needed.
- Control.SetState: takes the same bound for the reservation after a pause.
- Joining.FinishJoin: the undo at internal/access/service.go:326-329, for a session index that exists already, is proved unreachable.
- Scheduler.BoundedOvertaking: that the passes settle is its premise; `Controller.Controller.Run` discharges it for a recovery that nobody disturbs. A deletion that starts meanwhile is due at once and queues ahead of what is waiting.
- Controller.Controller.Run: `rounds` stands for the context that ends the loop, and a wait is any time at all; passes overlapping in time are one after the other here.
- Controller.Controller.Tick: a scan that the store refuses, which the source counts as one more failure, is among the store errors above.
- A restart with another configuration: the configuration is fixed over a run.
- Liveness under unending interference: retry loops stop after five attempts.
