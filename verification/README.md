# Verified model of the homeserver control plane

This project models the parts of the control services that keep durable promises, and proves
those promises for every input, every run and every interleaving. Verify it with
`dafny verify dfyconfig.toml`.

* **The download-permit ledger** (`Tables`, `Transactions`, `Soundness`, `Budgets`, `Capacity`, `Runs`,
  `Effects`, `Reconciliation`, `Evolution`, `Sources`, `Imports`, `Refusals`, `PackPurge`, `Registry`, `Repository`,
  `Evidence`). What each check and each write means in rows, hashes and bytes alone is stated beside them, without
  the functions the transactions are built from (`Space`, `Checks`, `PackChecks`, `StartChecks`, `Endings`,
  `EvidenceMeaning`). `Scenario` follows one movie from an empty database, for the ledgers that break a promise.
  Permits, reservations, handovers, season-pack bindings, tombstones and imports are finite maps in one
  `Database` value. Each `BEGIN IMMEDIATE ... commit` is one atomic step, given twice: as a function from
  tables to tables (`Transactions`), and as a method of `PermitRegistry` or `ReservationRepository` that
  executes its statements one by one on shared tables and rolls back where the source raises. Every method is
  proved to do what its function says, to the exact refusal. A run is any sequence of the 27 transactions with
  any arguments and any clock readings; the invariants hold in every ledger such runs reach from an empty one.
* **Dispatch and handover** (`Dispatch`, `Handover`, `Gateway`). Concurrent `authorize` calls, with the write
  lock and the upstream effect as separate failable steps; and the gateway's promote, stop, poll and complete
  steps beside other writers, with restarts.
* **Bencoding and the tracker merge** (`Bencode`, `Decoder`, `Fields`, `Torrent`, `Merge`, `MergeOverflow`, and in
  plain values `Limits`, `SafePaths`, `MergeMeaning`). The encoder of BEP 3 is the reference. The decoder is a
  cursor object whose `Parse` is proved to return exactly the value encoded at the cursor, or nothing when no value
  within the limits is encoded there.
* **Coordinated deletion** (`Deletion`, `DeletionSteps`, `DeletionOrder`, `DeletionProgress`,
  `DeletionCompletion`, `DeletionWorker`). The job store and the coordinator's stage loops as objects, over a log of
  everything attempted and confirmed, with failures, lost replies and crashes between any two steps.
* **Smaller parts**: reordering the download queue (`QueueOrder`), bytes freed by deletion with hard links
  (`FreedBytes`), exclusive placement on two disks (`Placement`), the dotenv pair (`Dotenv`, `DotenvLines`). `Options`, `Sums` and
  `Orders` hold what several modules share.

Six promises do not hold of the code as it stands; each is given with an input that breaks it and the exact
condition under which it holds:

* Reconciling a lapsed, unreported admission can push a pool past its free bytes, in a ledger reached from an empty
  database (`Reconciliation.ReconcileCanExceedFreeBytes`); it stays within them if and only if what comes back still
  fits (`Reconciliation.ReconcileIsSafeExactlyWhenItFits`).
* A slot can have two pending handovers, in a ledger reached from an empty database: `replace_confirmed` does not ask
  whether the source it replaces is the candidate of a handover
  (`HandoverProtocol.ReplacedCandidateLeavesTwoHandovers`). Every state of a run has at most one per slot if and only
  if no promotion finds one pending in its slot (`HandoverProtocol.HandoversAreUniqueExactly`). A transaction keeps
  handovers settled if and only if it does not commit such a replacement
  (`HandoverProtocol.TransactionSettlesExactly`), and without one they stay unique
  (`HandoverProtocol.AtMostOneHandover`).
* What a pool has committed can depend on the order in which the queue is reported, when one admitted torrent is
  reported twice (`CapacityReports.OrderOfRepeatedReportsMatters`). It does not if and only if no report of unknown
  size reserves less than another report of its torrent needs (`CapacityReports.OrderNeverMattersExactlyWhenFree`),
  as when every torrent is listed once (`CapacityReports.ListedOnceIsOrderFree`).
* A merge can return bytes that `inspect_torrent` refuses (`MergeOverflow.MergeCanReturnUnreadableBytes`); it
  describes the same torrent exactly when old and new tiers together number at most 8192
  (`TrackerMerge.MergedIsReadAgain`).
* Merging the same magnet into what was returned can be refused although one tracker was added
  (`MergeOverflow.MergingTwiceCanFail`), and adds more when the magnet held over 64 new trackers; it changes nothing
  exactly when neither limit was passed (`TrackerMerge.MergingAgainChangesNothing`).
* `parse_env` does not read back values with U+0085, U+2028 or U+2029 (`Dotenv.EnvRoundTrip`).

## Model

| member | source | states |
|---|---|---|
| Registry.PermitRegistry.PendingBytes | services/control/src/homeserver_control/gateway/permits.py:175-215 | The loop that folds rows into a per-hash maximum computes the closed form: what the queue reports of a torrent, or else the largest budget any counted row gave it, summed over torrents |
| Registry.FoldIsCommitments | services/control/src/homeserver_control/gateway/permits.py:200-215 | The fold over the counted rows, in any order, is one commitment per torrent |
| Registry.PermitRegistry.SelectPool | services/control/src/homeserver_control/gateway/permits.py:265-292 | Returns the first of ssd and hdd whose disk still is the measured one, has room for the whole budget beside everything pending, and could be placed on; refuses with waiting_space exactly when neither does |
| Registry.PermitRegistry.Issue | services/control/src/homeserver_control/gateway/permits.py:399-512 | Commits the new permit and the new budget, or names the check or index that refused and leaves the tables as they were, also after the budget was already updated |
| Registry.PermitRegistry.IssueProbe | services/control/src/homeserver_control/gateway/probe_permits.py:138-271 | Commits a probe of a confirmed source together with the recomputed budget, or refuses without trace |
| Registry.PermitRegistry.ReplaceConfirmed | services/control/src/homeserver_control/gateway/permits.py:1517-1690 | Supersedes the old source and inserts the new one together, or refuses without trace, an index conflict after the update included |
| Registry.PermitRegistry.Renew | services/control/src/homeserver_control/gateway/permits.py:1429-1515 | Extends only an undispatched replacement whose predecessors are all stopped and whose bytes fit again; from then on it is refused as expired exactly from the new expiry |
| Registry.PermitRegistry.RequirePack | services/control/src/homeserver_control/gateway/permits.py:1872-1899 | Passes exactly when the reservation is open, the season and bindings match, and no episode of the season is tombstoned, bound or not |
| Registry.PermitRegistry.ValidateReplaced | services/control/src/homeserver_control/gateway/permits.py:743-807 | The loop over replaced sources stops at the first unfit one with its reason |
| Registry.PermitRegistry.HistoryIsStopped | services/control/src/homeserver_control/gateway/permits.py:808-830 | True exactly when every source that once served one of the episodes is proved stopped |
| Registry.PermitRegistry.ValidateReplacements | services/control/src/homeserver_control/gateway/permits.py:722-844 | All checks of a season pack that replaces episode sources, in order, with the reason of the first that fails |
| Registry.PermitRegistry.BindSeasonPack | services/control/src/homeserver_control/gateway/permits.py:846-944 | Binds the episodes and supersedes the replaced sources together, or refuses without trace |
| Registry.PermitRegistry.GetForReservation | services/control/src/homeserver_control/gateway/permits.py:946-996 | Returns the live source that covers a slot, and there is no other; returns none only when nothing covers it |
| Registry.PermitRegistry.BeginAuthorize | services/control/src/homeserver_control/gateway/permits.py:1808-1835 | Either starts a dispatch, moving authorized to dispatching, or replays a stored reply, or refuses without trace |
| Registry.PermitRegistry.RecordReply | services/control/src/homeserver_control/gateway/permits.py:1856-1870 | What it returns is what the permit now stores; a permit in another state is refused and untouched |
| Registry.PermitRegistry.MarkUnknown | services/control/src/homeserver_control/gateway/permits.py:1848-1855 | Only a dispatching permit becomes unknown |
| Registry.PermitRegistry.ConfirmReconciled | services/control/src/homeserver_control/gateway/permits.py:1360-1423 | Confirms a live source of an active reservation, refuses a mismatching stored result, and changes nothing on refusal |
| Registry.PermitRegistry.PromoteProbe | services/control/src/homeserver_control/gateway/probe_permits.py:283-328 | Retires the parent, records the pending handover and makes the probe the primary, together or not at all |
| Registry.PermitRegistry.RejectProbe | services/control/src/homeserver_control/gateway/probe_permits.py:330-344 | Rejects only probes, and recharges the reservation with pending parents counted; the parent of a live one then has no live probe |
| Registry.PermitRegistry.CompleteHandover | services/control/src/homeserver_control/gateway/probe_permits.py:82-95 | Completes the handover of the candidate and recharges the reservation; a parent of no other handover is held no more |
| Registry.PermitRegistry.CancelAuthorized | services/control/src/homeserver_control/gateway/permits.py:1708-1732 | Deletes only an undispatched permit, with its bindings, and recharges the reservation |
| Registry.PermitRegistry.RetireExpired | services/control/src/homeserver_control/gateway/permits.py:1752-1768 | Deletes exactly the lapsed undispatched permits of the slot and returns how many there were; none remains and nothing else goes |
| Repository.ReservationRepository.NormalizeVerifiedBudgets | services/control/src/homeserver_control/persistence/db.py:181-196 | Row by row, every active reservation ends up charged with exactly its live permits |
| Repository.ReservationRepository.CancelUnstarted | services/control/src/homeserver_control/persistence/db.py:328-372 | Revokes unused permits and cancels, or only marks the request when a download started |
| Repository.ReservationRepository.ImportPending | services/control/src/homeserver_control/persistence/db.py:215-230 | True exactly when some row of either import table blocks an import of this kind |
| Repository.ReservationRepository.ClaimMovieImport | services/control/src/homeserver_control/persistence/db.py:232-253 | Claims once per reservation, and only when nothing blocks it |
| Repository.ReservationRepository.ClaimEpisodeImport | services/control/src/homeserver_control/persistence/db.py:293-308 | Claims once per permit or bound episode, and only when nothing blocks it |
| Repository.ReservationRepository.CompleteMovieImport | services/control/src/homeserver_control/persistence/db.py:265-284 | Completes the import, the reservation and the request together |
| Repository.ReservationRepository.SeasonPackFullyDeleted | services/control/src/homeserver_control/gateway/permits.py:1138-1159 | True exactly when the season pack is deletable and every episode it serves is tombstoned |
| TransactionEffects.IssueFillsSlot | services/control/src/homeserver_control/gateway/permits.py:399-512 | The issued permit is the one source of its slot, its budget was free on its pool and is charged on top of the live bytes, and nothing else changes |
| TransactionEffects.ProbeJoinsSlot | services/control/src/homeserver_control/gateway/probe_permits.py:138-271 | A probe lives beside its parent, which stays the one source of the slot |
| TransactionEffects.ReplacementTakesSlot | services/control/src/homeserver_control/gateway/permits.py:1646-1690 | The new source is the one source of the slot and the old one is kept as history |
| TransactionEffects.BindingServesEpisodes | services/control/src/homeserver_control/gateway/permits.py:923-943 | Every bound episode has the season pack as its one source, and the replaced sources are history |
| TransactionEffects.PromotionHandsOver | services/control/src/homeserver_control/gateway/probe_permits.py:305-328 | The probe is the one source of the slot, and its parent is history that a pending handover still holds |
| TransactionEffects.CancellationLeavesNothing | services/control/src/homeserver_control/gateway/permits.py:1708-1732 | Neither row nor bindings remain, and the live bytes drop by exactly the permit's budget |
| PoolSpace.RoomIsExact | services/control/src/homeserver_control/gateway/permits.py:175-215 | A budget fits beside the pending bytes exactly when it fits beside what the queue still fetches, what others need, and any choice of unreported live sources, one per torrent, at their full budgets |
| PoolSpace.PoolIsChosenExactly | services/control/src/homeserver_control/gateway/permits.py:265-292 | The ssd is chosen exactly when it is measured, unchanged, placed and roomy on both measures; the hdd when only it is; and space is refused when neither is |
| AdmissionChecks.ClosureIsRequired | services/control/src/homeserver_control/gateway/probe_permits.py:14-34 | A slot is closed to probes and packs exactly when its reservation is not open, its request missing or cancelled, or its title or episode deleted, with that reason |
| AdmissionChecks.IssueAnswers | services/control/src/homeserver_control/gateway/permits.py:408-505 | In terms of rows alone: the first of the checks that fails is the refusal, and the permit is issued when none does |
| AdmissionChecks.IssueWrites | services/control/src/homeserver_control/gateway/permits.py:423-505 | One authorized row with the fields asked for, on the chosen pool, and the charge of one reservation; nothing else differs |
| AdmissionChecks.ProbeAnswers | services/control/src/homeserver_control/gateway/probe_permits.py:156-254 | In terms of rows, hashes, files and ranks alone: the first failing check is the refusal, and the probe is admitted when none fails |
| AdmissionChecks.ProbeWrites | services/control/src/homeserver_control/gateway/probe_permits.py:227-270 | One authorized row under its parent with the fields asked for, charged with everything the reservation then holds |
| AdmissionChecks.ReplaceAnswers | services/control/src/homeserver_control/gateway/permits.py:1532-1690 | The same for replacing a confirmed source, the stop of the old source and of its whole history included |
| AdmissionChecks.ReplaceWrites | services/control/src/homeserver_control/gateway/permits.py:1646-1690 | The old row is superseded and keeps its fields, the new one is authorized, and the running bytes are charged |
| AdmissionChecks.RenewAnswers | services/control/src/homeserver_control/gateway/permits.py:1429-1515 | The same for renewing a replacement: what it took over from is paused, and its bytes fit again |
| AdmissionChecks.RenewWrites | services/control/src/homeserver_control/gateway/permits.py:1507-1515 | The expiry is all that changes |
| AdmissionChecks.AdmittedBytesWereFree | services/control/src/homeserver_control/gateway/permits.py:175-292 | Whatever admitted a row, its pool had the budget free on both measures, beside bytes no permit accounts for, all reported ones, and each unreported live source |
| AdmissionChecks.SpaceIsTheReasonExactly | services/control/src/homeserver_control/gateway/permits.py:278-292 | Where every source is reported, an otherwise acceptable request waits for space exactly when other pending, reported and new bytes together exceed a measure of each disk |
| AdmissionChecks.ReplacedSourcesArePaused | services/control/src/homeserver_control/gateway/permits.py:1596-1611 | A committed replacement found its source and every earlier one of the slot paused |
| AdmissionChecks.RunningSourceIsNotReplaced | services/control/src/homeserver_control/gateway/permits.py:1596-1611 | One that is not paused refuses a well-formed replacement of a confirmed source as not stopped |
| AdmissionChecks.RenewedSourcesArePaused | services/control/src/homeserver_control/gateway/permits.py:1476-1487 | A renewal is refused as not stopped exactly when no source was replaced or one of them is not paused |
| AdmissionChecks.ProbeIsNoDowngrade | services/control/src/homeserver_control/gateway/probe_permits.py:219-226 | An admitted probe is no worse in either leading quality component, a refusal as downgrade means it is, and an otherwise acceptable worse one is refused so |
| PackChecks.SourceFits | services/control/src/homeserver_control/gateway/permits.py:743-807 | In terms of rows, ranks and queue reports alone: what stops a replaced episode source, in order |
| PackChecks.ReplacingIsAnswered | services/control/src/homeserver_control/gateway/permits.py:722-844 | The first failing check of a replacing season pack, its sources in their order and the former ones included |
| PackChecks.BindAnswers | services/control/src/homeserver_control/gateway/permits.py:846-922 | The first failing check of binding a season pack; it is bound when none fails |
| PackChecks.BindWrites | services/control/src/homeserver_control/gateway/permits.py:923-944 | The bindings are the episodes asked for, exactly the replaced confirmed rows are superseded, and a replacing pack is charged with what is then held |
| PackChecks.ReplacedEpisodesWereStopped | services/control/src/homeserver_control/gateway/permits.py:743-807 | Every replaced source was a confirmed primary of a bound episode in the same reservation, paused with bytes left on its own measured disk, untouched by imports, probes, handovers and protection, and ranked no better |
| PackChecks.FormerSourcesAreStopped | services/control/src/homeserver_control/gateway/permits.py:808-830 | Every given-up source of a bound episode is paused or reported with nothing left |
| PackChecks.RunningEpisodeIsNotReplaced | services/control/src/homeserver_control/gateway/permits.py:769-776 | An acceptable binding is refused for a running source once the queue no longer shows a replaced torrent paused |
| PackChecks.PackIsGivenUpExactly | services/control/src/homeserver_control/gateway/permits.py:1074-1159 | A season pack is given up exactly when it is the confirmed, well-divided pack of that season, alone on its torrent, and each episode it serves is deleted |
| StartChecks.StartAnswers | services/control/src/homeserver_control/gateway/permits.py:1808-1835 | What stops a dispatch, in order; otherwise it starts, or answers the stored reply of a confirmed permit |
| StartChecks.StartIsOfThePermit | services/control/src/homeserver_control/gateway/permits.py:1901-1917 | What starts or is answered is unexpired and of the permitted torrent, destination and metadata |
| StartChecks.PlainPermitStartsExactly | services/control/src/homeserver_control/gateway/permits.py:1901-1917 | An authorized permit that is neither probe nor pack starts exactly under those conditions |
| StartChecks.PackFits | services/control/src/homeserver_control/gateway/permits.py:1872-1899 | What stops a season pack, in terms of its row, its bindings and the tombstones |
| StartChecks.PromoteAnswers | services/control/src/homeserver_control/gateway/probe_permits.py:283-324 | What stops a promotion, in order |
| StartChecks.PromoteWrites | services/control/src/homeserver_control/gateway/probe_permits.py:305-327 | The parent is superseded, the probe is a primary, the handover is pending, and the reservation is charged with both |
| StartChecks.ReconcileAnswers | services/control/src/homeserver_control/gateway/permits.py:1360-1423 | What stops a reconciliation, and that it stores just the accepted reply of the permit's own torrent |
| StartChecks.ReserveAnswers | services/control/src/homeserver_control/persistence/db.py:80-165 | A reservation is refused for deleted media, a request or a title that has one, or a name in use, and otherwise is the only row written |
| StartChecks.CancelAnswers | services/control/src/homeserver_control/persistence/db.py:328-372 | Cancelling revokes exactly the authorized permits, or, once any permit got further, only marks the request |
| StartChecks.ClaimAnswers | services/control/src/homeserver_control/persistence/db.py:215-308 | An import is claimed unless an unfinished one of either table is in its way, where only a hardlink import may pass submitted hardlinks |
| StartChecks.ImportsStep | services/control/src/homeserver_control/persistence/db.py:255-326 | Recording moves an import being sent to submitted, completing a submitted one to complete, and each leaves any other alone |
| Endings.RejectWrites | services/control/src/homeserver_control/gateway/probe_permits.py:330-344 | Only a probe is rejected, and the reservation is charged with all it then holds |
| Endings.CompleteHandoverWrites | services/control/src/homeserver_control/gateway/probe_permits.py:82-95 | Only the candidate's handover is closed, and its reservation is charged anew |
| Endings.CancelWrites | services/control/src/homeserver_control/gateway/permits.py:1708-1732 | Exactly one authorized row and its bindings go, and the running bytes are charged |
| Endings.RetireWrites | services/control/src/homeserver_control/gateway/permits.py:1752-1768 | Exactly the lapsed authorized rows of the slot go, and the reservation is charged anew only if any did |
| Endings.NormalizeWrites | services/control/src/homeserver_control/persistence/db.py:181-196 | Every open reservation is charged with its running bytes, and no other row changes |
| Endings.SeasonWrites | services/control/src/homeserver_control/worker/deletion_coordinator.py:1033-1162 | Deleting a season cancels each request for it and no other, and at the end each of its reservations, freeing its bytes |
| Endings.MovieEnds | services/control/src/homeserver_control/persistence/db.py:265-284 | Import, reservation and request end together, and no other row changes |
| Endings.RowsWritten | services/control/src/homeserver_control/gateway/permits.py:1848-1870 | A dispatching permit stores its reply or its uncertainty once, any other keeps what it has; a rank has two components or more |
| LastingRefusals.TombstonedCannotStart | services/control/src/homeserver_control/gateway/probe_permits.py:14-34 | Whatever is committed after a deletion, no probe or season pack of the title, of the episode, or of a season with such an episode, passes authorize again |
| LastingRefusals.TombstonedIsNeverReserved | services/control/src/homeserver_control/persistence/db.py:66-100 | Nor is the title ever reserved again |
| LastingRefusals.CancelledCannotStart | services/control/src/homeserver_control/persistence/db.py:328-372 | Whatever is committed after a cancellation, nothing of the reservation passes a guarded start again, also when a download had already started |
| LastingRefusals.UnstartedNeverStarts | services/control/src/homeserver_control/persistence/db.py:356-369 | If no download had started, no permit the reservation had is ever dispatched |
| LastingRefusals.UnstartedIsNeverIssued | services/control/src/homeserver_control/gateway/permits.py:410-422 | Nor is it ever issued another |
| LastingRefusals.ReachableRequestsAreDistinct | services/control/src/homeserver_control/persistence/db.py:144-152 | In every reachable ledger a request has at most one reservation, as cancellation needs |
| LastingRefusals.ClaimBlocks | services/control/src/homeserver_control/persistence/db.py:215-318 | From a claim in either table until it is recorded every claim in both is refused, and until it completes every copy claim, and every claim if it copies, over any run between |
| LastingRefusals.CompletedImportBlocksNothing | services/control/src/homeserver_control/persistence/db.py:215-230 | A completed import of either table blocks nothing again, whatever follows |
| Evolution.FailedDispatchIsUncertain | services/control/src/homeserver_control/gateway/permits.py:1848-1855 | After a failed effect, over any run, the permit is never dispatched again and answers only with the reply that reconciliation writes |
| Evolution.RecordedReplyIsReplayed | services/control/src/homeserver_control/gateway/permits.py:1856-1870 | Over any run, what later calls of a recorded dispatch are answered is its reply |
| Soundness.TransactionKeepsSound | services/control/src/homeserver_control/gateway/permits.py:143-164 | Every transaction keeps slots unique, sources distinct, bindings, covers and handovers consistent, and imports exclusive |
| Soundness.IssueFindsEmptySlot | services/control/src/homeserver_control/gateway/permits.py:464-472 | A plain issue only commits into a slot that has no row of any state |
| Soundness.EntryKeepsSound | services/control/src/homeserver_control/gateway/permits.py:143-164 | Inserting a row that passed the checks leaves every slot with one primary, one probe and distinct torrents |
| LedgerRuns.RunStaysReliable | services/control/src/homeserver_control/gateway/permits.py:75-81 | Soundness and exact budgets survive every run of transactions, in any order and with any arguments |
| LedgerRuns.ReachableLedgersAreReliable | services/control/src/homeserver_control/gateway/permits.py:82-173 | Every ledger reachable from an empty database is sound and its budgets are exact |
| LedgerRuns.TransactionKeepsBudgets | services/control/src/homeserver_control/gateway/permits.py:423-430 | Live bytes are at most the budget, and the budget at most live bytes plus parents of pending handovers, after every transaction, although some recompute with the parents and some without |
| Budgets.BudgetWithoutHandover | services/control/src/homeserver_control/gateway/probe_permits.py:273-281 | With no handover pending in the reservation the budget equals the live permits exactly |
| LedgerRuns.TransactionKeepsSafe | services/control/src/homeserver_control/gateway/permits.py:265-292 | A transaction measured against the evidence keeps every pool within its free bytes |
| LedgerRuns.RunStaysWithinCapacity | services/control/src/homeserver_control/gateway/permits.py:175-215 | Pending bytes stay within free bytes over whole runs while the clock only advances and no lapsed admission is reconciled |
| CapacitySafety.PendingRisesByOne | services/control/src/homeserver_control/gateway/permits.py:205-214 | Whatever else shrinks, one more row raises the per-hash maximum fold by at most its own budget |
| CapacitySafety.WaitingKeepsSafe | services/control/src/homeserver_control/gateway/permits.py:184-196 | The passing of time only lets admissions lapse and never raises what is pending |
| CapacitySafety.RenewKeepsSafe | services/control/src/homeserver_control/gateway/permits.py:1488-1505 | A renewal that brings lapsed bytes back was measured with them |
| CapacitySafety.PromotionLeavesPending | services/control/src/homeserver_control/gateway/probe_permits.py:305-325 | Promotion leaves the pending bytes of every pool exactly as they were |
| Reconciliation.ReconcileAdds | services/control/src/homeserver_control/gateway/permits.py:1408-1420 | By exactly how many bytes a reconciliation raises its pool |
| Reconciliation.ReconcileIsSafeExactlyWhenItFits | services/control/src/homeserver_control/gateway/permits.py:1360-1423 | Reconciling keeps all pools within their free bytes if and only if what comes back still fits |
| Reconciliation.ReconcileCanExceedFreeBytes | services/control/src/homeserver_control/gateway/permits.py:1371-1383 | A run from an empty database whose ledger is within capacity until one reconciliation takes it out |
| LedgerRuns.CoverIsUnique | services/control/src/homeserver_control/gateway/permits.py:973-996 | A slot is covered by at most one live source, its own or a binding |
| LedgerRuns.PackSlotHasNoOwnSource | services/control/src/homeserver_control/gateway/permits.py:909-921 | A slot covered by a binding has no live permit of its own, probes included |
| SourceBounds.SlotHoldsEachSourceOnce | services/control/src/homeserver_control/gateway/permits.py:1639-1644 | A slot of an active reservation never holds more rows than there are candidate torrents |
| SourceBounds.AdmissionsAreBounded | services/control/src/homeserver_control/gateway/permits.py:464-472 | In any run, admissions to a slot exceed withdrawals by no more than the candidates it had not tried |
| SourceBounds.SourcesAreNeverRetried | services/control/src/homeserver_control/gateway/probe_permits.py:210-216 | A torrent once dispatched for a slot is never admitted to it again while the reservation is active |
| Evolution.TransactionEvolves | services/control/src/homeserver_control/gateway/permits.py:1829-1832 | No transaction moves a permit backwards, changes its identity or a stored reply, or deletes it once dispatched |
| Evolution.RunNeverStepsBack | services/control/src/homeserver_control/gateway/permits.py:1824-1832 | Over every run a permit past authorized never returns, is never deleted and keeps the reply it stored |
| Evolution.ConfirmedRepliesAreReplayed | services/control/src/homeserver_control/gateway/permits.py:1824-1826 | What authorize answers for a confirmed permit, whenever it is asked, is the reply it stored |
| Dispatch.EffectsRunAtMostOnce | services/control/src/homeserver_control/gateway/permits.py:1770-1870 | No interleaving of calls, failures, crashes and reconciliations runs one permit's effect twice |
| Dispatch.GuardedEffectsAreAllowed | services/control/src/homeserver_control/gateway/permits.py:1837-1846 | Whenever the effect of a probe or a season pack runs, its reservation is active, its request not cancelled and nothing it fetches tombstoned, at that moment |
| Dispatch.EffectsAreOfTheirPermits | services/control/src/homeserver_control/gateway/permits.py:1808-1846 | In every interleaving, each effect that runs adds the torrent, destination and metadata of the row the ledger holds then |
| Dispatch.PlainCallCompletes | services/control/src/homeserver_control/gateway/permits.py:1808-1870 | With nobody else about, a call that may start runs its effect once and stores the reply, or the uncertainty when it failed |
| Dispatch.GuardedCallCompletes | services/control/src/homeserver_control/gateway/permits.py:1837-1870 | The same for a probe or a season pack, whose effect runs under the lock over the very tables its guard was checked on |
| HandoverProtocol.ProtocolRunKeepsSlot | services/control/src/homeserver_control/gateway/probe_permits.py:283-344 | Over any run of the protocol a slot keeps exactly its one live primary, handovers stay settled, and no slot has two pending |
| HandoverProtocol.TransactionSettlesExactly | services/control/src/homeserver_control/gateway/permits.py:1517-1690 | Given settled handovers, a transaction unsettles one if and only if it commits a replacement of the candidate of a pending handover |
| HandoverProtocol.AtMostOneHandover | services/control/src/homeserver_control/gateway/probe_permits.py:184-200 | Over any run from an empty database that replaces no candidate of a pending handover, a slot has at most one pending handover |
| HandoverProtocol.TransactionCrowdsExactly | services/control/src/homeserver_control/gateway/probe_permits.py:283-328 | Given at most one pending handover per slot, a transaction leaves two in one if and only if it commits a promotion in a slot that has a handover pending |
| HandoverProtocol.HandoversAreUniqueExactly | services/control/src/homeserver_control/gateway/probe_permits.py:283-328 | From an empty database, every state of a run has at most one pending handover per slot if and only if no step of it commits such a promotion |
| HandoverProtocol.ReplacedCandidateLeavesTwoHandovers | services/control/src/homeserver_control/gateway/permits.py:1517-1690 | A run from an empty database that replaces such a candidate and ends with two handovers pending in one slot |
| HandoverProtocol.PromotionNeverConflicts | services/control/src/homeserver_control/gateway/probe_permits.py:305-324 | Promotion is never refused by the slot index or by an earlier handover |
| Gateway.StopsOnlyWhilePending | services/control/src/homeserver_control/gateway/app.py:418-520 | A parent is told to stop only while its handover is durably pending, restarts and other writers included |
| Gateway.BytesReleasedOnlyAfterStop | services/control/src/homeserver_control/gateway/app.py:506-520 | A handover completes, and its parent leaves the pending bytes of its pool, only after the parent was seen stopped |
| Gateway.PendingHandoverCompletes | services/control/src/homeserver_control/gateway/app.py:418-520 | A request that finds a handover pending, as after a restart, sends one stop to its parent and ends it once the parent is seen stopped |
| Gateway.PromotionIsFollowedThrough | services/control/src/homeserver_control/gateway/app.py:418-520 | A cleared probe is promoted and its handover carried through in the same way |
| ImportRuns.ImportIsClaimedOnce | services/control/src/homeserver_control/persistence/db.py:232-308 | However a run goes on, a claimed import is never claimed again, so its command is posted at most once |
| ImportRuns.ImportsExclude | services/control/src/homeserver_control/persistence/db.py:214-326 | Over both tables, an unfinished copy import is the only unfinished one, and at most one is not an accepted hardlink |
| PackPurge.PurgedPackIsFullyTombstoned | services/control/src/homeserver_control/gateway/app.py:334-356 | However long after the last check the purge comes, every episode served is tombstoned and no other is served |
| PackPurge.SharedPackIsRetained | services/control/src/homeserver_control/gateway/app.py:334-356 | A season pack that serves an episode at any point of a run is given up at no point of it, before or after, unless that episode is tombstoned by the end |
| CapacityReports.PoolCapacity | services/control/src/homeserver_control/worker/capacity_evidence.py:208-270 | The loop gives the pool's evidence exactly when every report of the pool is verified, and none otherwise |
| CapacityReports.RegisteredCapacity | services/control/src/homeserver_control/worker/capacity_evidence.py:180-283 | The evidence has exactly the pools with one fresh, ready snapshot of the inspected disk and a verified part of the queue; an unattributed entry, or no such pool, leaves none |
| CapacityReports.EveryByteIsCommittedOnce | services/control/src/homeserver_control/worker/capacity_evidence.py:233-258 | With each torrent listed once, all missing bytes of a pool are committed, and once |
| CapacityReports.CommitmentIsLargestNeed | services/control/src/homeserver_control/worker/capacity_evidence.py:247-258 | Unless an unknown size reserves less than another report of its torrent needs, what is committed for a torrent is the largest need reported of it |
| CapacityReports.OrderNeverMattersExactlyWhenFree | services/control/src/homeserver_control/worker/capacity_evidence.py:233-258 | Every reordering of the queue gives the same evidence if and only if the queue is refused anyway or no unknown size reserves less than another report of its torrent needs |
| CapacityReports.ListedOnceIsOrderFree | services/control/src/homeserver_control/worker/capacity_evidence.py:233-258 | A queue that lists every torrent once meets that condition |
| CapacityReports.OrderOfRepeatedReportsMatters | services/control/src/homeserver_control/worker/capacity_evidence.py:247-258 | Two reports of one torrent, acceptable in both orders, that commit different bytes in them |
| EvidenceMeaning.EvidenceMeans | services/control/src/homeserver_control/worker/capacity_evidence.py:208-270 | There is evidence exactly when each report of the pool can be vouched for; it gives each admitted torrent the largest amount that no later report of unknown size overrides, sums those of all others, and lists the stopped ones |
| EvidenceMeaning.MeasuredMeans | services/control/src/homeserver_control/worker/capacity_evidence.py:189-217 | A pool is measured exactly when one snapshot describes it, from now or at most the allowed age before, ready, and of the inspected disk |
| Bencode.NumeralReadsBack | services/control/src/homeserver_control/domain/torrent_bytes.py:194-196 | A printed length is matched by the reader's pattern and has the same value |
| Bencode.NumeralIsCanonical | services/control/src/homeserver_control/domain/torrent_bytes.py:73-75 | Every numeral the pattern accepts is the one printed for its value |
| Bencode.SignedIsCanonical | services/control/src/homeserver_control/domain/torrent_bytes.py:43-47 | Every integer the pattern accepts is the one printed for its value |
| Bencode.PrefixFree | services/control/src/homeserver_control/domain/torrent_bytes.py:34-82 | One encoding never starts another, so a byte range encodes at most one value |
| Decoding.Decoder.Parse | services/control/src/homeserver_control/domain/torrent_bytes.py:34-82 | Returns the value within the limits encoded at the cursor and moves past exactly its bytes, or returns nothing when there is none; always ends |
| Decoding.Decoder.ParseItems | services/control/src/homeserver_control/domain/torrent_bytes.py:51-58 | The same for the items of a list, at most 8192 of them |
| Decoding.Decoder.ParseFields | services/control/src/homeserver_control/domain/torrent_bytes.py:59-70 | The same for the fields of a dictionary, at most 8192 with strictly increasing keys |
| Decoding.StringReading | services/control/src/homeserver_control/domain/torrent_bytes.py:71-82 | A byte string is read exactly when a length of at most eleven digits and that many bytes stand there |
| Decoding.IntegerReading | services/control/src/homeserver_control/domain/torrent_bytes.py:38-47 | An integer is read exactly when one is encoded there |
| Decoding.OnlyReading | services/control/src/homeserver_control/domain/torrent_bytes.py:34-82 | Whatever value within the limits stands at the cursor is the one read, to its last byte |
| Decoding.DecodeInvertsEncode | services/control/src/homeserver_control/domain/torrent_bytes.py:194-197 | Decoding an encoding, whatever follows, gives the value back and consumes exactly it |
| Decoding.BelowIsTotal | services/control/src/homeserver_control/domain/torrent_bytes.py:63-64 | Refusing a key that is not greater leaves exactly the strictly increasing ones |
| ReaderLimits.EncodingIs | services/control/src/homeserver_control/domain/torrent_bytes.py:34-82 | The four encodings in their own characters |
| ReaderLimits.FitsExactly | services/control/src/homeserver_control/domain/torrent_bytes.py:34-82 | The reader takes exactly the values nested at most sixteen deep, with at most 8192 entries anywhere, keys rising as byte strings, and lengths of at most eleven digits |
| TorrentMetadata.InspectTorrent | services/control/src/homeserver_control/domain/torrent_bytes.py:104-165 | Accepts exactly the bytes that encode a root dictionary with a valid version 1 info dictionary, and returns its bytes and files |
| TorrentMetadata.InspectInfo | services/control/src/homeserver_control/domain/torrent_bytes.py:127-160 | The file list of an info dictionary, or nothing when any of its checks fails |
| TorrentMetadata.BuildFiles | services/control/src/homeserver_control/domain/torrent_bytes.py:138-150 | The loop over listed files gives all of them or nothing |
| TorrentMetadata.TorrentIsUnique | services/control/src/homeserver_control/domain/torrent_bytes.py:104-165 | Torrent bytes have one root dictionary and one description |
| SafePaths.Utf8IsText | services/control/src/homeserver_control/domain/torrent_bytes.py:85-90 | Exactly the bytes that encode Unicode scalar values pass the decoding of a component |
| SafePaths.ComponentFits | services/control/src/homeserver_control/domain/torrent_bytes.py:85-101 | A path component is accepted exactly when it is text, neither empty nor `.` nor `..`, and holds no slash, backslash, colon or control character |
| SafePaths.KeysAreSpelled | services/control/src/homeserver_control/domain/torrent_bytes.py:122-151 | The keys looked up are the ones named |
| SafePaths.InfoIsAccepted | services/control/src/homeserver_control/domain/torrent_bytes.py:127-160 | An info dictionary is accepted, with these files, exactly when it has a safe name, lists each of them by safe components and a positive length without attributes, at distinct paths, and has twenty bytes for each piece the bytes reach into |
| SafePaths.AcceptedPathsAreSafe | services/control/src/homeserver_control/domain/torrent_bytes.py:127-160 | Every path of an accepted torrent consists of safe components with single slashes between them, the first being the one name; lengths are positive and paths distinct |
| SafePaths.AcceptedExactly | services/control/src/homeserver_control/domain/torrent_bytes.py:104-165 | Bytes of a root dictionary within the limits are accepted exactly when its info dictionary describes files so |
| KeyedFields.SortingOnlyOrders | services/control/src/homeserver_control/domain/torrent_bytes.py:255-257 | Sorting the fields puts the keys in order and loses, adds and changes nothing |
| KeyedFields.PutAssigns | services/control/src/homeserver_control/domain/torrent_bytes.py:252-254 | Assigning one field leaves every other lookup as it was |
| TrackerMerge.MergeMagnetTrackers | services/control/src/homeserver_control/domain/torrent_bytes.py:200-260 | Returns the merge of the torrent's own root with the trackers, or nothing exactly when the bytes, the infohash, the cached tiers or the size are refused |
| TrackerMerge.SelectNew | services/control/src/homeserver_control/domain/torrent_bytes.py:241-249 | The loop selects the first 64 trackers not seen before |
| TrackerMerge.NewTrackersAreNew | services/control/src/homeserver_control/domain/torrent_bytes.py:238-249 | Added trackers come from the magnet, are new, are distinct, and short of the limit none is left out |
| TrackerMerge.MergedTrackers | services/control/src/homeserver_control/domain/torrent_bytes.py:235-254 | No cached tracker is lost, tiers keep their places, and exactly the new ones follow |
| TrackerMerge.OtherFieldsAreVerbatim | services/control/src/homeserver_control/domain/torrent_bytes.py:200-206 | Every root field but the two announce fields is unchanged |
| TrackerMerge.MergingAgainChangesNothing | services/control/src/homeserver_control/domain/torrent_bytes.py:200-260 | Calling the function again on the bytes it returned gives them back if and only if it returned its input, or the magnet added at most 64 trackers and all tiers number at most 8192 |
| MergeOverflow.MergingTwiceCanFail | services/control/src/homeserver_control/domain/torrent_bytes.py:200-260 | A torrent to which one tracker is added, and for which the second call is refused |
| TrackerMerge.MergedIsReadAgain | services/control/src/homeserver_control/domain/torrent_bytes.py:252-260 | The merged bytes describe the same torrent exactly when all tiers number at most 8192; otherwise they are no torrent |
| MergeMeaning.NewTrackersArePicked | services/control/src/homeserver_control/domain/torrent_bytes.py:241-249 | The added trackers are those the magnet names first at places not known before, in order, and one left out stands behind as many as there was room for |
| MergeMeaning.MergeMeans | services/control/src/homeserver_control/domain/torrent_bytes.py:220-254 | In terms of the dictionary's values alone: announce fields of another shape are refused, nothing changes when every tracker is known, and otherwise the first 64 new ones become tiers behind the old ones or the announced URL, whose field is set only if it was empty |
| MergeMeaning.MergedBytesAre | services/control/src/homeserver_control/domain/torrent_bytes.py:255-260 | The result is the input, nothing, or the encoded dictionary unless that exceeds 16 MiB |
| MergeOverflow.MergeCanReturnUnreadableBytes | services/control/src/homeserver_control/domain/torrent_bytes.py:254-260 | An accepted torrent and a tracker a magnet may name whose merge is returned and is no torrent |
| DeletionWorker.DeletionJobStore.Enqueue | services/control/src/homeserver_control/persistence/deletion_jobs.py:56-72 | Keeps the first capture of an item |
| DeletionWorker.DeletionJobStore.EnqueueSeason | services/control/src/homeserver_control/persistence/deletion_jobs.py:74-130 | Stores the season with all its children, or nothing |
| DeletionWorker.DeletionJobStore.NextQueued | services/control/src/homeserver_control/persistence/deletion_jobs.py:146-154 | Returns the resumable job that precedes all others, and none only when no job is resumable |
| DeletionWorker.DeletionJobStore.Touch | services/control/src/homeserver_control/persistence/deletion_jobs.py:156-163 | Stamps only the job named |
| DeletionWorker.DeletionJobStore.SetStage | services/control/src/homeserver_control/persistence/deletion_jobs.py:165-188 | Changes stage, error and time of the job, unless stage and error are the same already |
| DeletionWorker.DeletionCoordinator.SeasonChildren | services/control/src/homeserver_control/worker/deletion_coordinator.py:987-999 | Gives the children's jobs exactly when all are as captured and none is blocked |
| DeletionWorker.DeletionCoordinator.ProcessSeason | services/control/src/homeserver_control/worker/deletion_coordinator.py:1243-1280 | The season's stage loop does what the run semantics says, for any outcome of each step |
| DeletionWorker.DeletionCoordinator.ProcessItem | services/control/src/homeserver_control/worker/deletion_coordinator.py:1294-1323 | The same for a movie or an episode |
| DeletionWorker.DeletionCoordinator.Process | services/control/src/homeserver_control/worker/deletion_coordinator.py:1282-1293 | A child waits for its season and is blocked with it |
| DeletionWorker.DeletionCoordinator.RunOnce | services/control/src/homeserver_control/worker/deletion_coordinator.py:1325-1343 | One turn is exactly one step of the run semantics and keeps the order of deletion |
| DeletionOrder.RunStaysOrderly | services/control/src/homeserver_control/worker/deletion_coordinator.py:1243-1343 | Every run keeps the order, stages only rise, captures stay, and complete and blocked are final |
| DeletionOrder.RemovalsComeInOrder | services/control/src/homeserver_control/worker/deletion_coordinator.py:1294-1323 | Every removal comes after all earlier stages of its item were confirmed and while its tombstone stands |
| DeletionOrder.FamiliesComeInOrder | services/control/src/homeserver_control/worker/deletion_coordinator.py:1260-1264 | Nothing happens to a child before its season is tombstoned, nor to the season's sources before every child is done |
| DeletionOrder.ChildrenNeverChange | services/control/src/homeserver_control/worker/deletion_coordinator.py:991-995 | The refusal for a child job that changed or disappeared is unreachable |
| DeletionOrder.ChildrenArrive | services/control/src/homeserver_control/persistence/deletion_jobs.py:88-124 | Children admitted with a season are stored exactly as captured |
| DeletionSteps.FamilyGates | services/control/src/homeserver_control/worker/deletion_coordinator.py:987-999 | A child waits for its season, and a season for its children, exactly as their rows say, and is refused when one is broken or blocked |
| DeletionSteps.StepMeans | services/control/src/homeserver_control/worker/deletion_coordinator.py:1243-1343 | What one step writes for every ending and every state of the family: the job's one row, the tombstones of its stage, and the log |
| DeletionSteps.TurnGoesOn | services/control/src/homeserver_control/worker/deletion_coordinator.py:1243-1323 | A turn of several steps is its first, followed by a turn of the rest while the job advances and is not complete |
| DeletionSteps.EachStageFollowsOne | services/control/src/homeserver_control/worker/deletion_coordinator.py:1294-1323 | In any run nothing is done for a stage before the one right before it was confirmed |
| DeletionSteps.SeasonIsCapturedExactly | services/control/src/homeserver_control/persistence/deletion_jobs.py:77-110 | A season is captured exactly when none of its children repeats a name, names another parent or contradicts a job there is |
| DeletionSteps.SeasonCaptureWrites | services/control/src/homeserver_control/persistence/deletion_jobs.py:111-124 | The season and each child without a job get a queued row of their own capture, and jobs there were stay |
| DeletionSteps.NextWaitedLongest | services/control/src/homeserver_control/persistence/deletion_jobs.py:146-154 | The next job is the resumable one attempted longest ago, then captured first |
| DeletionProgress.RetriesTakeTurns | services/control/src/homeserver_control/persistence/deletion_jobs.py:146-163 | Between two attempts at a retrying job every other resumable job is attended to |
| DeletionProgress.EarlierGoesFirst | services/control/src/homeserver_control/persistence/deletion_jobs.py:146-154 | A job behind another is not attended to before it |
| DeletionCompletion.HelpedDrive | services/control/src/homeserver_control/worker/deletion_coordinator.py:1243-1323 | Unhindered, an attempt at a followed job completes it or leaves a season waiting for its children, each step stamped with its own time and whatever the rest of the store holds |
| DeletionCompletion.FollowedAreDeleted | services/control/src/homeserver_control/worker/deletion_coordinator.py:1243-1343 | Three rounds in which services help the followed jobs complete them all, while anything is captured and any other job is blocked, fails, retries or dies with the process |
| DeletionCompletion.EverythingIsDeleted | services/control/src/homeserver_control/worker/deletion_coordinator.py:1325-1343 | With cooperating services, three attempts per job complete every job not blocked and leave the blocked ones as they were |
| DeletionCompletion.CapturedSeasonIsFollowed | services/control/src/homeserver_control/persistence/deletion_jobs.py:74-130 | A season captured into any store is followed with its children, as those bounds ask |
| DeletionCompletion.CapturedSeasonStaysHealthy | services/control/src/homeserver_control/persistence/deletion_jobs.py:74-130 | Capturing a season into a store whose resumable families are whole leaves them whole, the new one included |
| DeletionCompletion.CapturedItemIsFollowed | services/control/src/homeserver_control/persistence/deletion_jobs.py:56-72 | A movie, or an episode of no captured season, is followed once captured |
| DeletionCompletion.FollowedTogether | services/control/src/homeserver_control/worker/deletion_coordinator.py:1325-1343 | Families followed one by one may be followed together |
| QueueOrder.TorrentQueue.Prioritize | services/control/src/homeserver_control/gateway/app.py:959-982 | The chosen torrents end in the wanted order, all others keep theirs, and nothing moves exactly when the order was right |
| QueueOrder.TorrentQueue.TopAll | services/control/src/homeserver_control/gateway/app.py:976-982 | A reversed pass of single moves is the whole promotion |
| QueueOrder.PassPutsInFront | services/control/src/homeserver_control/gateway/app.py:976-982 | A reversed pass puts its torrents in front in their order and keeps the rest |
| QueueOrder.OthersStay | services/control/src/homeserver_control/gateway/app.py:976-982 | Torrents outside a pass keep their relative order |
| QueueOrder.RankedIsSorted | services/control/src/homeserver_control/gateway/app.py:959-963 | The wanted movie order is by seeders, then queue place, and keeps every movie once |
| QueueOrder.BestSeededFirst | services/control/src/homeserver_control/gateway/app.py:959-960 | More seeders come first, and equals keep the queue's order |
| FreedBytes.DeletionExecutor.Execute | services/control/src/homeserver_control/worker/deletions.py:23-63 | Removes all confirmed paths or none; reports the exact drop in stored payload, at most what the preview estimated |
| FreedBytes.DeletionExecutor.GroupByInode | services/control/src/homeserver_control/worker/deletions.py:50-59 | The loop counts, per inode, the links before and the paths selected |
| FreedBytes.LinkCountTells | services/control/src/homeserver_control/worker/deletions.py:60-62 | An inode loses its last name exactly when the plan selects as many paths as its link count |
| FreedBytes.UnlinkingFrees | services/control/src/homeserver_control/worker/deletions.py:47-62 | The payload before is the payload after plus the sizes of the inodes that lost their last name |
| FreedBytes.EstimateCovers | services/control/src/homeserver_control/domain/deletion_plan.py:122-131 | What is freed never exceeds the estimate |
| FreedBytes.EstimateIsPayload | services/control/src/homeserver_control/domain/deletion_plan.py:122-131 | For unchanged paths the estimate is the payload of the inodes they lead to, each once |
| FreedBytes.UnchangedMeans | services/control/src/homeserver_control/worker/deletions.py:26-34 | A target is the confirmed one exactly when its inode, size and time of change are |
| FreedBytes.Deduplicate | services/control/src/homeserver_control/domain/deletion_plan.py:115-119 | Each path once, in the order first named, and none lost |
| Placement.PlacementIsExclusive | services/common/src/homeserver_common/storage.py:228-266 | Whatever the interleaving, a permit has a directory on both pools only if it had from the start |
| Placement.DirectoriesMatchClaims | services/common/src/homeserver_common/storage.py:207-226 | A directory made here matches its claim for good |
| Placement.RunKeepsSound | services/common/src/homeserver_common/storage.py:207-266 | Claims stay and are never rewritten |
| Placement.AloneSucceedsExactly | services/common/src/homeserver_common/storage.py:228-266 | An undisturbed call makes its directory under its claim exactly when the other pool has none, a directory it finds has its claim, and no claim names the other pool; otherwise it changes nothing |
| Dotenv.ParseEnv | services/common/src/homeserver_common/env.py:33-59 | The loop reads the entries line by line, or refuses |
| Dotenv.QuotedReads | services/common/src/homeserver_common/env.py:47-53 | A JSON-quoted value reads back as the value |
| Dotenv.EnvRoundTrip | services/common/src/homeserver_common/env.py:33-65 | What is printed is read back exactly when no value has a line break JSON leaves bare; otherwise reading fails |
| Dotenv.SeparatorBreaksRoundTrip | services/common/src/homeserver_common/env.py:62-65 | A value with a line separator is printed and cannot be read |
| DotenvLines.SpacesAre | services/common/src/homeserver_common/env.py:35-43 | Which characters are stripped and which break lines, by number |
| DotenvLines.StringsAreSpelled | services/common/src/homeserver_common/env.py:47-53 | A quoted value is read as a text exactly when escapes, codes, surrogate pairs and plain characters spell it up to one closing quote |
| DotenvLines.LineMeans | services/common/src/homeserver_common/env.py:36-58 | A line is skipped exactly when it is blank or a comment, and assigns exactly what stands around its first equals sign, for every line there is |
| DotenvLines.LinesConsist | services/common/src/homeserver_common/env.py:35 | Every text consists of the lines it is read as, each followed by its one break |
| DotenvLines.FileMeans | services/common/src/homeserver_common/env.py:33-59 | A file is read as all its assignments in order, unless a line is refused or a key is assigned twice |

## Left out

- The in-memory branches of `PermitRegistry` and `issue` without capacity evidence: they have no indexes and keep weaker promises.
- A transaction reads the clock once; the source reads it at each check.
- Tokens and permit ids name the same row; identifiers are numbers, and a new one is fresh when nothing mentions it.
- File-name patterns of season packs, protected sources, undecided probes, placement inspection and preparation are arbitrary evidence handed to a transaction.
- Reservation by a positive budget, its waiting_space answer and the request row kept without a reservation: the one caller reserves zero bytes, and no modelled check reads such a row.
- Lookup by metadata or magnet, single-source deletion checks, source history and other read-only listings.
- Registry.PermitRegistry.GetForReservation: requires a sound ledger, which every reachable one is, because a lookup of one row among several is otherwise unspecified in SQL.
- LedgerRuns.RunStaysWithinCapacity: holds for one fixed piece of evidence, since new evidence may report more bytes than were ever admitted; the exact effect of the reconciliations it excludes is stated by ReconcileIsSafeExactlyWhenItFits.
- HandoverProtocol.ProtocolRunKeepsSlot: speaks of runs without the transactions that withdraw or replace a primary on purpose.
- Gateway: the evidence that a probe is faster, running and within capacity is one arbitrary answer before promotion; the handler is a state machine over its awaits, not a class, because other handlers and processes run between them.
- Gateway.BytesReleasedOnlyAfterStop: says the parent was seen stopped by the gateway, not that the torrent client keeps it stopped; it speaks of the pool's pending bytes, not of the reservation's charge, which cancelling, retiring and replacing recompute without parents.
- TrackerMerge.MergeMagnetTrackers: takes the magnet already split into its infohash and its accepted trackers, and SHA-1 as any function; URL parsing is not modelled.
- The limit on the number of digits that Python puts on converting integers.
- Paths are UTF-8 bytes rather than decoded text; the checks on components are the same on bytes.
- The checks and requests of each deletion stage are one step with an arbitrary ending; what Sonarr, Radarr, Seerr, Jellyfin, the file system and the mount answer is not modelled, nor are sidecar files and notification timers.
- DeletionCompletion.FollowedAreDeleted: asks that attempts at the followed jobs succeed at every step, since nothing bounds how often a service may fail.
- DeletionCompletion.EverythingIsDeleted: speaks of attempts alone; captures and other jobs that fail meanwhile are those of FollowedAreDeleted.
- DeletionProgress.RetriesTakeTurns: assumes the clock of an attempt is later than the last attempts of the others.
- QueueOrder.TorrentQueue.Prioritize: takes candidates in queue order and already found eligible; the checks that protect sources and the confirmation loop afterwards are left out.
- FreedBytes.DeletionExecutor.Execute: nobody else changes files meanwhile, and the tombstone hook is left out.
- `DeletionPlanner.confirm` with its tokens and expiry, and path resolution under the roots.
- Placement: ownership, permissions, symbolic links and mount checks, which can only refuse.
- Dotenv: lone surrogates, which Python strings may hold and Dafny characters may not; `load_settings` and the typed conversions.
- HTTP routing, authentication, telemetry, Compose rendering and the configuration reconcilers.
