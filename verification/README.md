# Verified model of the Swaptacular creditors agent

The creditors agent keeps, for each creditor, a copy of his accounts on other servers. It rebuilds
each account's ledger from messages that may be lost, repeated and reordered, drives direct
transfers, and lets clients follow all changes through a log. This project models those parts as
atomic procedures on mutable tables, and proves what holds in every run of them. `dafny verify
dfyconfig.toml` checks the whole project.

## How it is built

Each Python procedure and each PL/pgSQL procedure is one atomic step. Classes hold the rows and the
tables; their methods have the loops, branches and field updates of the source, and are proved equal
to functions on values. Invariants and theorems are then proved about those functions, for every
sequence of steps. Histories (every entry written, every id issued, every signal sent) are kept next
to the tables, so that collected garbage is not forgotten. What a single operation does is stated once
more, independently of those functions: the `…Outcome` lemmas say in terms of columns and message
fields when it is refused and what it changes, and the theorems about runs go back to the messages and
requests that have arrived.

| part | modules |
|---|---|
| ledger reconstruction, one (creditor, debtor) pair | `Int64`, `AccountModel`, `LedgerSpec`, `SystemSpec`, `StepEffects`; classes in `Procedures` (Python) and `StoredProcedures` (PL/pgSQL) |
| the burst loop against the single pass | `Gaps`, `Refinement` |
| wake-up rows, confluence, single posting, reconciliation, replay | `WakeUps`, `Confluence`, `OncePosted`, `Reconciliation`, `Storage`, `Arrivals` |
| the ledger adds up; ids; notices | `Conservation`, `Ids`, `Notifications` |
| the table of ledger entries over several reservations | `Relics`, `EntryTable` |
| configuration handshake, deletion safety, the server's messages | `Status`, `ServerNews` |
| what each request, message and visit does to the rows | `Outcomes`, and the `…Outcome` lemmas of the other modules |
| whole runs of all steps of the pair; runs in which something fails | `Runs`, `Witnesses` |
| direct transfers | `DirectTransfers`, `PaymentSafety`, `PaymentHistory` |
| the creditor's log and its readers | `CreditorLog`, `LogFollowing` |
| PIN attempts | `Pin` |
| usage counters | `Usage` |

Assumptions, all of them visible in the contracts: for each creation date the server's transfers form
one chain with rising numbers, in which each transfer names its predecessor (`WakeUps.IsChain`), and
repeated messages about a transfer agree on it; the server's creation dates are later than `DATE0`; principals and amounts in messages and rows are
64-bit integers; a burst has at least one transfer; the clock does not go back. A step of other
accounts (`Others`) may draw ids from the shared sequence and raise the creditor's historic entry id
at any time.

## Where the code does not do what one would expect

Each of these has its exact condition, and a concrete run in which it happens.

- The last signal of the bursts can quote an outdated last transfer number. When the last burst only
  catches up with a lost transfer, and the principal does not change, nothing is sent; the single
  pass of the stored procedure sends the new number. `Refinement.SignalsAgreeUnlessSilent` gives the
  condition on the rows, `Witnesses.LastSignalsCanDiffer` a run. The account, its entries, the wake-up
  row and the last log entry always agree (`Refinement.BurstsRefineOnePass`).
- Deactivating a creditor deletes his accounts without raising `largest_historic_ledger_entry_id`
  (`Ids.DeactivationBound`, `Witnesses.HistoricIdStaysBehind`). No id collides while the creditor's
  row lives, because a deactivated creditor gets no new accounts.
- After the row has been removed and reserved again, ids start anew (`Witnesses.EntryIdsAreReused`), but
  ledger entries have no foreign key and may still be there. The id is part of their primary key, so
  the insertion fails, and with it the whole step on the ledger, which stands still until the scanner
  has removed the old entries (`EntryTable.FailsExactly`, `EntryTable.SecondLifeFails`). When the
  scanner has gone over the table before each new reservation, no insertion ever fails exactly if
  ledger entries are not kept longer than deactivated creditors (`EntryTable.InsertionsSucceedExactly`).
  The defaults, 90 and 1826 days, meet this condition.
- The repair looks only for transfers that the server has announced. What lies beyond the last
  announced number can stay pending for ever, however old it gets (`Reconciliation.RepairFindsAnnouncedOnly`,
  `Witnesses.TransfersCanBeStuck`).
- Accumulated PIN failures bound the guesses exactly of those who may not change the PIN in the reset
  mode (`Pin.BoundHoldsExactlyWithoutResets`). With such changes any number of failures can be survived
  at one moment (`Pin.ResetsDefeatTheClock`), and the bound has to count the blocks
  (`Pin.FailuresAreBounded`).
- The account counter favours the user only if there is a row in `usage_stats`: when the row is
  missing and another transaction inserts it first, a decrement gets lost, and the counter can end up
  above the real number (`Usage.LostDecrementsShow`). While no more than 32768 requests are in flight,
  the counter stays in the user's favour in all runs exactly if there is a row, or there are at least
  32768 accounts (`Usage.FavouredExactlyWithRow`). That number of requests is a limit too
  (`Usage.LimitIsExact`). The comment in the route mentions neither.
- A repeated `PreparedTransfer` message for a committed transfer is answered with a dismissal as soon
  as the transfer's row has been deleted (`PaymentSafety.RepeatedPrepare`,
  `PaymentSafety.CommittedThenDismissed`).
- A reader's cursor is not always good for a re-reserved creditor
  (`LogFollowing.CursorSurvivesReservation`, `LogFollowing.ReadersCanMissEntries`).

## Model

| member | source | states |
|---|---|---|
| Int64.ClampsAgree | migrations/versions/dd24bce84ed1_processing_procedures.py:75-93 | the Python and the SQL clamp, which compare with different bounds, agree on all integers |
| Int64.CorrectionsReachTarget | swpt_creditors/procedures/account_updates.py:507-540 | the correcting loop ends exactly at the target; every amount is non-zero and can be negated in int64; every principal on the way lies between start and target |
| Int64.AtMostThreeCorrections | swpt_creditors/procedures/account_updates.py:519-538 | between int64 principals the loop runs at most three times, and three times between the extremes |
| Int64.FewestCorrections | swpt_creditors/procedures/common.py:120-125 | no sequence of postable amounts with the same sum is shorter than the loop's |
| LedgerSpec.PostingsStep | swpt_creditors/procedures/account_updates.py:519-538 | one round of the correcting loop posts one entry and leaves the rest of the postings, inside int64 |
| Procedures.AccountData.MakeCorrectingLedgerEntryIfNecessary | swpt_creditors/procedures/account_updates.py:507-540 | the Python loop appends exactly the correcting entries, and tells whether there were any |
| Procedures.AccountData.UpdateLedger | swpt_creditors/procedures/account_updates.py:449-504 | row, entries and log entry after one ledger update; the assertion in the source never fails |
| Procedures.AccountData.AppendTransfers | swpt_creditors/procedures/account_updates.py:311-350 | the loop over pending transfers stops at the first one that must wait, and keeps only the last notification |
| Procedures.AccountData.FixMissingLastTransferIfNecessary | swpt_creditors/procedures/account_updates.py:395-417 | catches up with the server exactly if its last transfer is missing, old, and nothing is pending |
| Procedures.Database.ProcessPendingLedgerUpdate | swpt_creditors/procedures/account_updates.py:260-368 | the whole new state after one burst; returns true exactly if no wake-up row or no account is left |
| Procedures.Database.AdvanceSequence | swpt_creditors/procedures/account_updates.py:352-366 | draws from the shared sequence, at least once, until it has reached the ledger's update id |
| Procedures.Database.ProcessLedgerUpdate | swpt_creditors/cli.py:284-291 | repeating bursts terminates whatever the clock says between them, within one burst more than there are pending transfers; the state is that of the bursts at those times, and nothing is due |
| Procedures.Database.CreateNewAccount | swpt_creditors/procedures/accounts.py:82-105 | errors, or a new account with seven fresh ids, a gap in the entry ids, a new id of the accounts list, and a configuration message |
| Procedures.Database.InsertAccount | swpt_creditors/procedures/accounts.py:514-560 | the new rows and the two log entries of an inserted account, in whatever order its objects draw their ids |
| Procedures.Database.DeleteAccount | swpt_creditors/procedures/accounts.py:108-156 | every refusal, and the state after a deletion, with the historic entry id raised and the accounts list changed |
| Procedures.Database.LogAccountDeletion | swpt_creditors/procedures/accounts.py:563-621 | the notice about the accounts list, one id for all seven deletion notices, and the three signals that stop automatic trade |
| Procedures.Database.UpdateAccountConfig | swpt_creditors/procedures/accounts.py:172-249 | conflict, no change, or a new configuration that is not effectual, with its messages; the info object moves if deletion was safe |
| Procedures.Database.UpdateAccountDisplay | swpt_creditors/procedures/accounts.py:265-330 | no change, conflict of ids or of names, or the new columns with the next id, a log entry, and a step of the sequence |
| Procedures.Database.UpdateAccountKnowledge | swpt_creditors/procedures/accounts.py:345-380 | the same for the knowledge object, which has no conflicts with other rows |
| Procedures.Database.UpdateAccountExchange | swpt_creditors/procedures/accounts.py:395-464 | the same for the exchange object, whose peg must exist, with the new policy in a signal |
| Procedures.Database.InsertInfoUpdatePendingLogEntry | swpt_creditors/procedures/accounts.py:624-642 | next info update id, its log entry, and a step of the sequence |
| Procedures.Database.ReserveCreditor | swpt_creditors/procedures/creditors.py:144-162 | a new creditor row without history, unless there is one |
| Procedures.Database.ActivateCreditor | swpt_creditors/procedures/creditors.py:165-181 | a reserved row is activated by its reservation id only; an activated one stays as it is |
| Procedures.Database.DeactivateCreditor | swpt_creditors/procedures/creditors.py:184-191 | an active creditor loses his account, with one id for the three signals, and the date is noted |
| Procedures.Database.RemoveCreditor | swpt_creditors/table_scanners.py:76-141 | a row goes if it has not been activated for long, or was deactivated long ago, with the rows that depend on it |
| Procedures.Database.ProcessRejectedConfigSignal | swpt_creditors/procedures/account_updates.py:44-79 | a rejection of the present configuration sets the error once, and is announced |
| Procedures.Database.ProcessAccountPurgeSignal | swpt_creditors/procedures/account_updates.py:224-246 | a purge of the present server account clears it and is announced; others do nothing |
| Procedures.Database.ProcessAccountUpdateSignal | swpt_creditors/procedures/account_updates.py:82-221 | expired, orphaned, old and new updates; the reset of the ledger for a new server account; the notices |
| Procedures.Database.ResetLedger | swpt_creditors/procedures/account_updates.py:183-221 | a new server account starts the ledger at zero with correcting entries; one log entry, one signal, one wake-up row |
| Procedures.Database.DiscardOrphanedAccount | swpt_creditors/procedures/account_updates.py:420-446 | asks the server to discard the account unless it has been asked already |
| Procedures.Database.ProcessAccountTransferSignal | swpt_creditors/procedures/transfers.py:204-287 | a transfer is stored and queued for the log unless it is too old, known, or has no account; the wake-up row appears if it continues the ledger |
| Procedures.Database.CollectTransfers | swpt_creditors/table_scanners.py:293-346 | the scanner removes exactly the rows of its block that are older than the cut-off |
| Procedures.Database.PostScannerCorrections | swpt_creditors/table_scanners.py:447-479 | the scanner's own loop writes the same correcting entries |
| Procedures.Database.CorrectLedger | swpt_creditors/table_scanners.py:401-500 | the correction of a ledger that stands at the last transfer with a wrong principal, for an hour |
| Procedures.Database.ProcessRow | swpt_creditors/table_scanners.py:393-606 | a scanner visit: correction, repair schedule, configuration error, in this order |
| StoredProcedures.MakeCorrectingLedgerEntryIfNecessary | migrations/versions/dd24bce84ed1_processing_procedures.py:95-149 | the SQL loop writes the same correcting entries as the Python loop |
| StoredProcedures.UpdateLedger | migrations/versions/dd24bce84ed1_processing_procedures.py:151-209 | the SQL ledger update has the effect of the Python one |
| StoredProcedures.ProcessPendingLedgerUpdate | migrations/versions/dd24bce84ed1_processing_procedures.py:211-366 | the whole new state after the single pass |
| Refinement.BurstThenPass | swpt_creditors/procedures/account_updates.py:313-350 | a burst is the single pass, or the single pass is the burst followed by the single pass of a shorter rest |
| Refinement.DrainStep | swpt_creditors/cli.py:284-291 | each unfinished burst has fewer transfers left to process, and keeps int64 columns in range |
| Refinement.BurstsRefineOnePass | migrations/versions/dd24bce84ed1_processing_procedures.py:237-362 | for any burst size, the drained bursts and the single pass leave the same account, entries, wake-up row, and last log entry, and the sequence has reached the ledger's id |
| Refinement.SignalsAgreeUnlessSilent | swpt_creditors/procedures/account_updates.py:352-366 | the last signals agree if and only if the last burst is not a silent catch-up, a condition on the rows before the run |
| Witnesses.LastSignalsCanDiffer | swpt_creditors/procedures/account_updates.py:395-417 | a run from an empty database after which the last signals differ |
| Gaps.PassBlocks | swpt_creditors/procedures/account_updates.py:315-338 | a pass is blocked if and only if there is a recent gap, before or between the pending transfers |
| Gaps.PassWaitsFor | swpt_creditors/procedures/account_updates.py:315-338 | a pass ends before the first recent gap, and remembers when the transfer after it was committed |
| Gaps.StepsWaitFor | swpt_creditors/procedures/account_updates.py:313-350 | after a burst, or the single pass, the pending time in the row is that commit time, or empty if there is no such gap |
| Gaps.WorkEnds | swpt_creditors/procedures/account_updates.py:313-417 | the number and principal that the ledger stands at after a step: before the first recent gap, at the last transfer, or, when the server is ahead for long, where the server is |
| Refinement.BurstShrinks | swpt_creditors/cli.py:284-291 | each burst leaves fewer transfers to process, at whatever time it reads the clock |
| Refinement.DrainAtOneTime | swpt_creditors/cli.py:284-291 | when the clock stands still, the loop with its clock readings is the drained state |
| WakeUps.KnownInOrder | swpt_creditors/procedures/transfers.py:204-223 | of two transfers of a chain, the later one names the earlier one or one after it; equal numbers mean equal transfers |
| WakeUps.DoneLeavesNothing | swpt_creditors/procedures/account_updates.py:313-350 | when processing is done, no stored transfer continues the ledger, also after skipped gaps and catch-ups |
| WakeUps.StepKeepsWakeUps | swpt_creditors/procedures/transfers.py:236-287 | every step keeps: a stored transfer that continues the ledger has its wake-up row |
| Runs.WakeUpsAreNeverLost | swpt_creditors/procedures/transfers.py:280-287 | the same in every run |
| Confluence.PassFollows | swpt_creditors/procedures/account_updates.py:315-338 | a pass that skips nothing appends consecutive links of the chain |
| Confluence.BurstFollowsExactly | swpt_creditors/procedures/account_updates.py:313-350 | a burst keeps the ledger a beginning of the chain if and only if it skips no old gap that it reaches, and does not catch up with a lost transfer |
| Confluence.OnePassFollowsExactly | migrations/versions/dd24bce84ed1_processing_procedures.py:237-362 | the same for the single pass |
| Confluence.StepFollows | swpt_creditors/procedures/account_updates.py:291-368 | every step keeps the ledger a beginning of the chain, if a processing step with work to do gives nothing up |
| Confluence.QuietLedgerIsComplete | swpt_creditors/procedures/transfers.py:227-287 | what the ledger has not reached is stored and no wake-up row is left: the ledger is the whole chain |
| Runs.LedgerConfluence | swpt_creditors/procedures/account_updates.py:260-368 | for any arrival order, repetition and burst size: always a beginning of the chain; complete once everything is stored and nobody is due |
| Storage.ArrivalOutcome | swpt_creditors/procedures/transfers.py:223-287 | a transfer is stored and announced if and only if it is not stored yet, there is an account, and it is recent, whatever its creation date; when the account gets due; nothing else changes |
| Storage.CollectionOutcome | swpt_creditors/table_scanners.py:293-346 | a given row goes if and only if it has outlived the retention |
| Arrivals.ArrivedTransfersAreKept | swpt_creditors/procedures/transfers.py:223-280 | in every run: a transfer has been taken in if and only if it has arrived while there was an account and it was recent; then it is stored until it has outlived the retention |
| Arrivals.ArrivedLedgersAreComplete | swpt_creditors/procedures/account_updates.py:260-368 | in every patient run: once the whole chain has arrived, whatever has been collected since, and nobody is due, the ledger is the whole chain |
| Runs.ProcessingCompletesTheLedger | swpt_creditors/cli.py:284-291 | once the chain is stored and nothing is given up, one processing run completes the ledger and clears the wake-up row |
| OncePosted.StepPostsOnce | swpt_creditors/procedures/account_updates.py:315-338 | every step keeps posted transfers in order and truthful, with gaps skipped or not |
| Runs.TransfersArePostedOnce | swpt_creditors/procedures/account_updates.py:449-504 | in every run: no transfer is posted twice to an account's ledger, the order is the server's, amounts and principals are the server's |
| Conservation.UpdateLedgerWrites | swpt_creditors/procedures/account_updates.py:449-540 | one ledger update writes consecutive entries that continue the ledger and end at the new principal |
| Conservation.StepConserves | swpt_creditors/procedures/account_updates.py:183-204 | every step keeps: each entry's principal is the previous one plus its amount, except where that leaves int64; the last one is the ledger's |
| Conservation.AmountsAddUp | swpt_creditors/table_scanners.py:447-479 | without such an overflow the amounts posted since the creation add up to the principal |
| Runs.LedgersAddUp | swpt_creditors/procedures/accounts.py:519-527 | in every run: conservation, rising ids, a gap between accounts, and the historic bound |
| Ids.AllEntriesIncrease | swpt_creditors/procedures/accounts.py:143-154 | entry ids rise over all accounts under one creditor row, by at least two from one account to the next |
| Ids.EntryIdsNeverCollide | swpt_creditors/procedures/accounts.py:519-527 | no two entries under one creditor row have the same id |
| Ids.StepKeepsEntryIds | swpt_creditors/procedures/accounts.py:143-154 | every step keeps the bounds on the ids of earlier accounts |
| Ids.DeactivationBound | swpt_creditors/procedures/creditors.py:571-583 | after a deactivation the historic bound holds if and only if there were no entries or another account had raised it |
| Witnesses.HistoricIdStaysBehind | swpt_creditors/procedures/creditors.py:571-583 | a run from an empty database after which a historic entry is above the historic id |
| Relics.StepKeepsDates | swpt_creditors/table_scanners.py:246-272 | every step keeps: no entry has been added later than now |
| Relics.RelicsAreStale | swpt_creditors/table_scanners.py:106-141 | when a deactivated row can go, its entries are stale if and only if entries are not kept longer than deactivated creditors |
| Witnesses.EntryIdsAreReused | swpt_creditors/procedures/creditors.py:144-162 | a run of two reservations, a long time after each other, that gives the same id to an entry of each |
| EntryTable.Table.ProcessRows | swpt_creditors/table_scanners.py:246-272 | the scanner removes exactly the rows of its block that are older than the cut-off |
| EntryTable.FailsExactly | swpt_creditors/models/accounts.py:320-346 | a step on the ledger fails if and only if the table holds a row, of whatever reservation, with an id that the step would use |
| EntryTable.DeedKeepsWorld | swpt_creditors/table_scanners.py:83-141 | every step, failed or not, keeps: without an active creditor all rows are as old as the retention of creditors demands, and all other invariants hold |
| EntryTable.ScanLeavesNothing | swpt_creditors/table_scanners.py:246-272 | once a row of a creditor has gone, a scan of the whole table leaves nothing, if entries are not kept longer than deactivated creditors |
| EntryTable.SecondLifeFails | swpt_creditors/procedures/accounts.py:514-560 | a run in which the first posting after a new reservation fails, although nothing stale is left |
| EntryTable.InsertionsSucceedExactly | swpt_creditors/table_scanners.py:106-141 | for all runs with a scanned table at each reservation: no insertion fails, if and only if entries are not kept longer than deactivated creditors |
| Ids.StepKeepsUpdateIds | swpt_creditors/models/accounts.py:21-27 | every step keeps: ids of one kind rise in the order of issue, and none exceeds the sequence |
| Runs.UpdateIdsRise | swpt_creditors/procedures/accounts.py:563-621 | in every run, across deletion and re-creation: a later id for a kind of object is larger, and at most the sequence |
| Notifications.PassTellsTruly | swpt_creditors/procedures/account_updates.py:482-504 | the one notification that is kept describes the final ledger; there is none exactly if no entry was written |
| Notifications.ProcessingNotifies | swpt_creditors/procedures/account_updates.py:352-366 | a processing step that changes the ledger queues exactly one log entry and one signal, about the final state; others queue nothing |
| Notifications.CorrectionNotifies | swpt_creditors/table_scanners.py:464-500 | the same for the scanner's correction |
| Notifications.ResetNotifies | swpt_creditors/procedures/account_updates.py:183-221 | an account update leaves the ledger alone, or queues exactly one log entry and one signal about its final state |
| Notifications.MembershipIsAnnounced | swpt_creditors/procedures/accounts.py:542-560 | as long as the creditor is active, his list of accounts changes only with the next list id and a log entry |
| Reconciliation.EventuallyReconciled | swpt_creditors/table_scanners.py:401-530 | with everything old, a visit, a processing run with a new time in each burst, and a later visit bring the ledger to the last transfer, and to the principal if it stands there |
| Reconciliation.RepairSchedule | swpt_creditors/table_scanners.py:502-530 | a visit makes an old account due if and only if it was due, or an announced transfer is missing |
| Reconciliation.RepairFindsAnnouncedOnly | swpt_creditors/table_scanners.py:502-530 | after a visit and a processing run, with a new time in each burst, nothing is pending if and only if the account was due, or an announced transfer was missing, or nothing was pending before |
| Witnesses.TransfersCanBeStuck | swpt_creditors/table_scanners.py:506-515 | a run after which a stored transfer stays pending, and is never scheduled, however much later the visit comes |
| Storage.StepKeepsStorage | swpt_creditors/table_scanners.py:293-346 | every step keeps: a transfer that was stored and is gone has outlived the retention interval |
| Runs.TransfersAreStoredOnce | swpt_creditors/procedures/transfers.py:223-234 | in every run each transfer is stored and queued for the log at most once, with garbage collected on the way |
| Status.DeletionSafetyHistory | swpt_creditors/models/accounts.py:189-195 | safe to delete if and only if scheduled, and the last two events are an update that confirmed the configuration, and a purge |
| Status.StaleConfirmationsFail | swpt_creditors/procedures/account_updates.py:129-148 | a message that confirms an older configuration never confirms the present one |
| Status.HandshakeCompletes | swpt_creditors/procedures/account_updates.py:129-178 | an accepted echo of the last configuration message makes it effectual and clears the error |
| Status.StepKeepsStatus | swpt_creditors/procedures/accounts.py:204-235 | every step keeps the row in agreement with the history of its configurations and messages |
| Status.NoSilentInfoChange | swpt_creditors/procedures/account_updates.py:149-181 | no step changes the visible account info without a larger info update id and a log entry with it |
| ServerNews.UpdateOutcome | swpt_creditors/procedures/account_updates.py:110-221 | an update is accepted if and only if it has not expired and tells of a later change; then the columns are the message's own, and what becomes of heartbeat, configuration, error and ledger |
| ServerNews.OrphanOutcome | swpt_creditors/procedures/account_updates.py:420-446 | without an account, the server is asked to discard its own unless it has been asked |
| ServerNews.PurgeOutcome | swpt_creditors/procedures/account_updates.py:224-246 | a purge counts if and only if the server has had an account that is not newer; what it clears |
| ServerNews.StepKeepsNews | swpt_creditors/procedures/account_updates.py:149-178 | every step keeps: the row quotes the last accepted update, and these tell of ever later changes |
| Runs.RowsQuoteTheServer | swpt_creditors/procedures/account_updates.py:149-178 | in every run: the same; the principal is that of the last update, or zero after a purge |
| Outcomes.ReservationOutcome | swpt_creditors/procedures/creditors.py:144-162 | when a reservation is refused, and the new row |
| Outcomes.ActivationOutcome | swpt_creditors/procedures/creditors.py:165-181 | a row is activated if and only if the reservation id is right and it has not been deactivated, or it is active already |
| Outcomes.DeactivationOutcome | swpt_creditors/procedures/creditors.py:184-191 | an active creditor's account goes, its traders are told to stop, the day is noted |
| Outcomes.RemovalOutcome | swpt_creditors/table_scanners.py:83-141 | a row goes if and only if it has not been activated for long, or has been deactivated long ago |
| Outcomes.CreationOutcome | swpt_creditors/procedures/accounts.py:82-105 | each refusal, and all columns and messages of a new account |
| Outcomes.DeletionOutcome | swpt_creditors/procedures/accounts.py:108-156 | each refusal, in terms of what the server has confirmed and purged; the historic id, the log and the messages of a deletion |
| Outcomes.ConfigurationOutcome | swpt_creditors/procedures/accounts.py:172-249 | conflict, repetition, or exactly the requested configuration with a later stamp, sent to the server |
| Outcomes.RewritingOutcome | swpt_creditors/procedures/accounts.py:265-464 | conflict, repetition, a taken name, a missing peg, or exactly the requested object, with the others as they were |
| Outcomes.RejectionOutcome | swpt_creditors/procedures/account_updates.py:44-79 | the error is set if and only if the rejection quotes the present configuration and there is no error yet |
| Outcomes.VisitOutcome | swpt_creditors/table_scanners.py:393-606 | when a visit corrects the ledger, schedules a repair, or sets the configuration error; a ledger that has moved within the hour is left alone |
| Outcomes.OnlyRequestsChangeObjects | swpt_creditors/procedures/accounts.py:172-464 | only requests change the objects and the configuration, only messages what is known of the server, only ledger steps the ledger |
| Runs.SafetyMeansConfirmedAndPurged | swpt_creditors/procedures/account_updates.py:224-246 | the history of a safe deletion, in every run |
| Runs.ReachableStatesAreGood | swpt_creditors/procedures/account_updates.py:82-540 | every reachable state satisfies all the invariants above |
| DirectTransfers.FindRequest | swpt_creditors/procedures/transfers.py:433-439 | finds the row of a coordinator's request, or there is none |
| DirectTransfers.Coordinator.InitiateRunningTransfer | swpt_creditors/procedures/transfers.py:60-136 | each error, or a new row with a fresh request id, one log entry and one prepare message |
| DirectTransfers.Coordinator.FinalizeRunningTransfer | swpt_creditors/procedures/transfers.py:442-466 | finalizes a row once, with one log entry |
| DirectTransfers.Coordinator.CancelRunningTransfer | swpt_creditors/procedures/transfers.py:139-151 | refuses settled transfers, finalizes the others |
| DirectTransfers.Coordinator.DeleteRunningTransfer | swpt_creditors/procedures/transfers.py:154-176 | removes the row and announces it |
| DirectTransfers.Coordinator.ProcessPreparedDirectTransferSignal | swpt_creditors/procedures/transfers.py:316-371 | commits a matching transfer, first time or repeated; dismisses everything else |
| DirectTransfers.Coordinator.ProcessRejectedDirectTransferSignal | swpt_creditors/procedures/transfers.py:290-313 | finalizes an open request with the server's reason, or as unexpected |
| DirectTransfers.Coordinator.ProcessFinalizedDirectTransferSignal | swpt_creditors/procedures/transfers.py:374-406 | finalizes the transfer it matches as a success, a failure, or unexpected |
| DirectTransfers.Coordinator.DeleteCreditorRunningTransfers | swpt_creditors/procedures/creditors.py:586-589 | a deactivated creditor's rows are deleted, and no others |
| PaymentSafety.StepIsSafe | swpt_creditors/procedures/transfers.py:290-406 | every step keeps: commits quote their request, have one target each, and settled rows have been committed |
| PaymentSafety.OnePaymentPerRequest | swpt_creditors/procedures/transfers.py:316-371 | in every run all commits for one request are the same message, to one transfer, and quote what the creditor asked for |
| PaymentSafety.CancelledTransfersNeverPay | swpt_creditors/procedures/transfers.py:139-151 | a transfer can be cancelled if and only if no commit has been sent for it; after that none is ever sent |
| PaymentSafety.SuccessMeansCommitted | swpt_creditors/procedures/transfers.py:374-406 | a finalized transfer without an error is settled and has been committed as requested |
| PaymentSafety.OutcomesAreFinal | swpt_creditors/procedures/transfers.py:442-466 | a finalized row never changes again |
| PaymentSafety.CommittedOrDismissed | swpt_creditors/procedures/transfers.py:340-371 | in every run, on the fields of message and row: a prepared transfer is committed if and only if coordinator, request, debtor, creditor, recipient and locked amount fit a live row, and it is the one committed before or, without one, the row is open; otherwise it is dismissed; no other row changes |
| PaymentSafety.RepeatedPrepare | swpt_creditors/procedures/transfers.py:327-371 | a repeated prepared message is committed again exactly as long as the row exists |
| PaymentSafety.CommittedThenDismissed | swpt_creditors/procedures/transfers.py:154-176 | a run in which one transfer is first committed and then dismissed |
| PaymentSafety.CommitDelayMeetsTheDeadline | swpt_creditors/procedures/transfers.py:469-477 | the delay never reaches past the deadline, is the longest such one in whole seconds, and fits 32 bits |
| PaymentHistory.InitiationOutcome | swpt_creditors/procedures/transfers.py:60-136 | each refusal, and the row, log entry and prepare message of a new request |
| PaymentHistory.FinalizedOutcome | swpt_creditors/procedures/transfers.py:374-406 | the open row that a final message is about ends without an error if and only if the server says so for the whole amount, else with its reason or as unexpected; no other row changes |
| PaymentHistory.RejectedOutcome | swpt_creditors/procedures/transfers.py:290-313 | the open row of a rejected request ends with the server's reason, or as unexpected; no other row changes |
| PaymentHistory.CancelledOutcome | swpt_creditors/procedures/transfers.py:139-151 | a cancellation ends the creditor's own open row, if nothing has been committed for it |
| PaymentHistory.DeletionOutcome | swpt_creditors/procedures/transfers.py:154-176 | a deletion removes the creditor's row and no other |
| PaymentHistory.DeactivationOutcome | swpt_creditors/procedures/creditors.py:586-589 | an active creditor's rows go, and no others |
| PaymentHistory.CommitsAreEarned | swpt_creditors/procedures/transfers.py:316-371 | in every run: each commit pays a request of the creditor as he has made it, with a transfer that the server has prepared for the same debtor, creditor, recipient and amount |
| PaymentHistory.OutcomesAreExplained | swpt_creditors/procedures/transfers.py:290-406 | in every run: each outcome is what the message or the request that brought it says; a success has been reported by the server for the whole amount; the log has told it |
| PaymentHistory.PreparesQuoteRequests | swpt_creditors/procedures/transfers.py:118-134 | in every run: one prepare message for each request, in the same order, that quotes it as the creditor has made it |
| PaymentHistory.ListChangesAreLogged | swpt_creditors/procedures/transfers.py:108-116 | the number of a creditor's transfers changes if and only if an entry is queued that gives his list of transfers a new id |
| CreditorLog.RulesAgree | migrations/versions/dd24bce84ed1_processing_procedures.py:409-418 | the SQL rule, under three-valued logic, holds exactly if the Python rule does |
| CreditorLog.EntryOutcome | swpt_creditors/procedures/creditors.py:444-499 | an entry is copied under the next id; after one about a created or deleted transfer, exactly one more about the list of transfers |
| CreditorLog.MaxId | swpt_creditors/procedures/creditors.py:153-157 | the largest stored id, which exists unless nothing is stored |
| CreditorLog.Database.ProcessPendingLogEntry | swpt_creditors/procedures/creditors.py:444-499 | one pending entry becomes a log entry, and a second one if it changes the list of transfers |
| CreditorLog.Database.ProcessPendingLogEntries | swpt_creditors/procedures/creditors.py:291-310 | the log, the creditor's row and the queue after the Python loop |
| CreditorLog.Database.ProcessPendingLogEntriesInSql | migrations/versions/dd24bce84ed1_processing_procedures.py:368-453 | the SQL loop leaves the same state for the same order of visits |
| CreditorLog.Database.ReserveCreditor | swpt_creditors/procedures/creditors.py:144-162 | numbering starts above the entries left behind |
| CreditorLog.Database.ProcessRows | swpt_creditors/table_scanners.py:188-213 | what is left is exactly what is not in the block or not too old |
| LogFollowing.CollectedRises | swpt_creditors/table_scanners.py:188-213 | and it stays in the order of the ids |
| LogFollowing.LastIdIsLargest | swpt_creditors/procedures/creditors.py:256-277 | no stored id exceeds the last one |
| LogFollowing.RunKeepsNumbers | swpt_creditors/models/creditors.py:118-120 | in every run ids are dense while the row lives, and rise across removal and reservation |
| LogFollowing.ProcessingCounts | swpt_creditors/procedures/creditors.py:481-499 | how many ids, and how many list update ids, a batch takes; none of its entries is lost |
| LogFollowing.PageIsAnInterval | swpt_creditors/routes/creditors.py:176-198 | a page holds exactly the stored entries between the old and the new cursor, in order |
| LogFollowing.LogIsFollowed | swpt_creditors/routes/creditors.py:176-198 | whatever happens meanwhile, a follower has received every entry that is still stored, up to its cursor, once and in order |
| LogFollowing.FollowersMissNothing | swpt_creditors/routes/creditors.py:176-198 | the same from an empty log on |
| LogFollowing.ReadAllGetsEverything | swpt_creditors/procedures/creditors.py:256-277 | the pages up to the last one hold everything after the cursor, and lead to the last id |
| LogFollowing.CursorSurvivesReservation | swpt_creditors/procedures/creditors.py:153-160 | after any collection, a cursor precedes the entries of a new reservation if and only if it is zero, or an entry at it, just before it or after it is still stored |
| LogFollowing.ReadersCanMissEntries | swpt_creditors/procedures/creditors.py:153-160 | a run in which a reader who has read everything misses the entries of the new reservation |
| Pin.PinInfo.RegisterFailedAttempt | swpt_creditors/models/creditors.py:246-260 | both counters, both limits, and the double block |
| Pin.PinInfo.TryThe | swpt_creditors/models/creditors.py:265-282 | the outcome and the new row of an attempt; keeps the row valid |
| Pin.PinInfo.UpdatePinInfo | swpt_creditors/procedures/creditors.py:212-253 | conflict, wrong PIN, or the new PIN with its log entry; keeps the row valid |
| Pin.LimitsOfLengths | swpt_creditors/models/creditors.py:221-235 | the limits for each length: the listed sequence, and roots of powers of ten |
| Pin.AttemptOutcome | swpt_creditors/models/creditors.py:265-282 | an attempt succeeds if and only if the PIN is off, or is on and the value is the right one; what a success, and a missing value, change |
| Pin.ChangeOutcome | swpt_creditors/procedures/creditors.py:212-253 | when a change is a conflict, fails, or succeeds, and the new row |
| Pin.OnlyItsValueOpens | swpt_creditors/procedures/creditors.py:233-253 | in every run in which nobody quotes its value or uses the reset mode, a PIN that is on is never passed, replaced or turned off |
| Pin.StepKeepsValid | swpt_creditors/models/creditors.py:221-256 | a PIN that is on has a value, and is below its limit of consecutive failures; changes have been announced with consecutive ids |
| Pin.FailureBlocksAtEitherLimit | swpt_creditors/models/creditors.py:246-260 | a failure leaves the PIN on if and only if neither limit has been reached |
| Pin.BlockedStaysBlocked | swpt_creditors/models/creditors.py:268-269 | once blocked, every attempt fails and nothing changes until the PIN is set in the reset mode |
| Pin.FailuresAreBounded | swpt_creditors/models/creditors.py:229-256 | survived failures in a time T are at most (limit - 1) * (floor(T / W) + 2 + blocks) |
| Pin.FailuresAreBoundedWithoutResets | swpt_creditors/models/creditors.py:229-256 | without changes in the reset mode: at most (limit - 1) * (floor(T / W) + 2) |
| Pin.BoundHoldsExactlyWithoutResets | swpt_creditors/procedures/creditors.py:233-235 | for every length, that bound holds for all runs if and only if changes in the reset mode are not allowed |
| Pin.ResetsDefeatTheClock | swpt_creditors/models/creditors.py:214-219 | any number of failures can be survived at one moment, with resets after the blocks |
| Usage.Service.Post | swpt_creditors/routes/accounts.py:229-243 | the order of the steps of an account creation, and when it succeeds |
| Usage.Service.Delete | swpt_creditors/routes/accounts.py:297-321 | the order of the steps of an account deletion, with the counter restored on failure |
| Usage.Service.RegisterAccountCreation | migrations/versions/54696121695a_create_stored_procedures.py:85-121 | counter and window after a creation, saturated at 16 bits, or lost to a rival insertion |
| Usage.Service.IncrementAccountNumber | migrations/versions/54696121695a_create_stored_procedures.py:198-220 | saturating increment, missing row and rival insertion included |
| Usage.Service.DecrementAccountNumber | migrations/versions/54696121695a_create_stored_procedures.py:222-244 | saturating decrement, missing row and rival insertion included |
| Usage.StepStaysInFavour | swpt_creditors/routes/accounts.py:297-321 | every step and every crash keeps: the count, and what is still owed to it, are at most the real number plus the lost decrements |
| Usage.CountersFavourTheUser | migrations/versions/54696121695a_create_stored_procedures.py:19-40 | in every interleaving the count is at most the real number plus the lost decrements, and none is lost if there was a row; then a refusal means too many real accounts or too many reconfigurations |
| Usage.SettledLosesNothing | migrations/versions/54696121695a_create_stored_procedures.py:222-244 | from the time on at which there is a row that no pending call has missed, no decrement is lost |
| Usage.StepStaysSafe | swpt_creditors/routes/accounts.py:297-321 | every step and every crash keeps: the count, with what is owed and what may yet be lost, is at most the real number |
| Usage.FavouredExactlyWithRow | swpt_creditors/routes/accounts.py:313-318 | the count is at most the real number in all runs, if and only if there is a row, or there are as many accounts as requests may be in flight |
| Usage.AdmissionIsExact | migrations/versions/54696121695a_create_stored_procedures.py:19-40 | a creation is admitted if and only if both counts are below limits that allow anything |
| Usage.SerialRequestsKeepLimits | swpt_creditors/routes/accounts.py:229-321 | as long as each request is served alone, a right counter stays right, and neither limit is exceeded |
| Usage.LostDecrementsShow | migrations/versions/54696121695a_create_stored_procedures.py:230-240 | runs of `k` deletions of one account that all miss the row: all decrements are lost, and the final count |
| Usage.LimitIsExact | migrations/versions/54696121695a_create_stored_procedures.py:222-244 | in runs of `k` requests that all lower the counter before they fail, a right counter overtakes the real number if and only if `k` is more than that number plus 32768, and the number is below 32767 |
| Usage.WindowCounts | migrations/versions/54696121695a_create_stored_procedures.py:123-158 | within a window all registrations are counted, up to the column's limit |

## Left out

- Locking, isolation levels, retries on integrity errors and rows skipped because they are locked: each procedure is one serial step. For the log this includes reading the last id and the page in one step; for the counters each call that has to insert its row is two steps.
- A commit whose outcome the caller does not learn: a crash falls between steps, not inside one.
- `Usage`: creditors that are deactivated meanwhile, and the counters of transfers, which work like those of accounts.
- Deletion of records that belong to the parent shard, and everything else about sharding.
- The entries of the creditor's other accounts in the same table: their keys differ in the debtor.
- `ledger_interest` and the other floating-point formulas; the tolerances of the negligible amount and of the interest rate are arithmetic over reals.
- Sequence numbers of configurations and of account changes do not wrap around.
- HMAC and salt: PIN values are compared directly. The limit of accumulated failures is a table for the lengths that occur.
- Time stamps that only inform (`latest_update_ts` of objects other than the ledger, `initiated_at`).
- Status.NoSilentInfoChange: says nothing about the interest rate, whose small changes are not announced by design.
- Procedures.Database.ReserveCreditor: the numbering of the log, which is in `CreditorLog.Database.ReserveCreditor`.
- Procedures.Database.ActivateCreditor: the new PIN row, which is the constructor of `Pin.PinInfo`.
- Procedures.Database.DeactivateCreditor: the PIN row; the running transfers are in `DirectTransfers.Coordinator.DeleteCreditorRunningTransfers`.
- Procedures.Database.DeleteAccount: whether another account is pegged to this one is a parameter.
- User authentication, the message bus, JSON, URIs and pagination of the other lists.
