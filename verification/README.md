# CogentNexus-OpenClaw: verified models

The plugin and its command-line runtime keep their promises through a handful of
small protocols over durable tables and files. This project models eight of them in
Dafny and proves what they keep. The ones with state share a shape: the transactions
as functions on that state, runs as sequences of steps from the empty state, lemmas
over all runs, and a class whose methods update the state in place the way the
program does and are proved to perform exactly those transactions. The scheduler,
the markers and the managed block only compute; they are functions, or methods with
the program's loops, and lemmas over all their inputs.

| core | files |
|---|---|
| the write-ahead task journal of `cogent.py` | TaskJournal, TaskJournalProofs, TaskJournalEffects, TaskCommands |
| Direct Recovery behind the session-generation fence | DirectRecovery, DirectRecoveryProofs, DirectRecoverySafety, DirectRecoveryAnswers, DirectRecoveryReady, DirectRecoverySessions, DirectRecoveryTables |
| the base ticket store and its dispatcher | Tickets, TicketProofs, TicketSafety, TicketLeases, TicketLoops, TicketTables |
| the delivery core and its web chat adapter | DeliveryCore, DeliveryProofs, DeliveryFence, DeliveryTables |
| the wake-up time of the recovery service | RecoveryScheduler |
| the coalescing runner | CoalescedRunner |
| the delivery markers | DeliveryMarkers, Decimal |
| the managed block of AGENTS.md | ManagedBlock, Text |

TicketStatus and Common are shared. `dafny verify dfyconfig.toml` checks all of it.

## Assumptions

- Every `BEGIN IMMEDIATE ... COMMIT` block and every single statement is one atomic
  step, an exception inside a block rolls it back, and UNIQUE constraints hold.
- In `cogent.py` a ledger line append, a rename and an unlink are each atomic and
  durable, the writer lock is exclusive, and a process may die after any of them.
- The due read and the claim of a recovery run without a pause between them, in one
  worker process; workers act again at any later time with the snapshot they took.
- Hashes and run ids are injective in what they are made from, ticket ids and lease
  tokens are fresh, and timestamps are numbers.
- The answer of a query with ORDER BY and LIMIT, or of one that may match several rows,
  is a parameter; the requires of the method say which rows it may name.

## What turned out not to hold

- A revocation fences the workers of the tickets its session owns at that moment. A
  worker whose ticket was rebound to another session escapes: `RebindEscapesFence`
  is such a run, `RevokeKeepsClaim` says exactly whose claim survives, and
  `ActsAfterRevoke` who can act at any later point.
- A crash between accepting and confirming a web chat delivery is not always repaired
  by handling its receipt again. The adapter looks the row up by run and session, and
  a second model call of the same run leaves a second pending row, after which it
  refuses both (`SecondCallBlocksReceipt`). `RepairedExactlyWhen` has the exact
  condition.
- `prepareDelivery` is not idempotent on text with white space at its ends: the
  stored text is trimmed and the repeated one is compared as given. `PreparedAgain`
  has the exact condition. The web chat adapter trims first and is not affected.
- The recovery service can oversleep a delivery beyond the first 32 authorised ones,
  or, in a database without the claim columns, any delivery newer than the oldest.
  `OversleepsIff` and `LegacySafeIff` have the exact conditions, and
  `ThirtyThirdIsOverlooked` and `OldestHidesTheNewer` are such databases.
- A pulse that arrives while the coalescing runner's work is in flight is dropped when
  that work throws (`PulseAnsweredIff`).
- A workflow ticket whose last permitted lease expires is neither retried nor failed:
  it waits for ever (`StrandedExactlyWhen`, `StrandedForever`).
- Task ids with a dot, or longer than 96 characters, do not come back from their
  completion message (`CompletionRoundTrip`).
- The last merged policy wins only over policies without the closing marker in them
  (`LastWriterWins`).
- The comment above `installV092DurableDeliveryBoundary` says that a ready time is
  never cleared, and no inference queued, once a direct result is committed. That
  holds of the deadline sweep (`SweepExact`). Other steps do both beside a committed
  result: `InterruptionClearsAnswered` is such a run, `ReadyLostIff` and `RequeuedIff`
  say exactly which steps do either.

## Model

| member | source | states |
|---|---|---|
| TaskJournalProofs.CrashAtomicity | skills/cogentnexus-openclaw/scripts/cogent.py:93-111 | Whatever a crash left and wherever the next one falls, in a command or in recovery, the recovered disk is the one before the command or the one after all of it; a success is complete, a refusal changed nothing; the two conflict exits are unreachable |
| TaskJournalProofs.HistoryRefinesSpec | skills/cogentnexus-openclaw/scripts/cogent.py:93-136 | Any history of commands and crashes, once recovered, is the crash-free history of exactly the commands that took effect, and its four files agree |
| TaskJournalProofs.SuccessIsEffective | skills/cogentnexus-openclaw/scripts/cogent.py:109-136 | A command that reported success is the last effective one of its history |
| TaskJournalProofs.HistoryExtends | skills/cogentnexus-openclaw/scripts/cogent.py:85-99 | Over any history and any crashes no recovered ledger line or revision file is lost or rewritten |
| TaskJournalProofs.SpecConsistent | skills/cogentnexus-openclaw/scripts/cogent.py:89-99 | Record i has sequence i, the revisions are 1..n and match the n state-changing records, the state file is revision n |
| TaskJournalProofs.RecoveryCrash | skills/cogentnexus-openclaw/scripts/cogent.py:101-107 | A recovery that dies part-way leaves a disk that recovers to the same result |
| TaskJournalProofs.TransactionCrash | skills/cogentnexus-openclaw/scripts/cogent.py:109-111 | A transaction dying after b of its five writes is undone when b is 0 and completed by recovery otherwise |
| TaskJournalProofs.RollbackRestores | skills/cogentnexus-openclaw/scripts/cogent.py:185-193 | A rollback to an existing revision writes its content under the next number with one ROLLBACK record; to any other it changes nothing |
| TaskJournalProofs.RollbackSurvives | skills/cogentnexus-openclaw/scripts/cogent.py:185-193 | The revision a rollback made keeps the restored content through every later command and crash |
| TaskJournalEffects.InitWrites | skills/cogentnexus-openclaw/scripts/cogent.py:126-136 | Whatever a crash left before, a successful init leaves revision 1 with the content given and one INTENT record, on a task that had none |
| TaskJournalEffects.CommitWrites | skills/cogentnexus-openclaw/scripts/cogent.py:160-183 | A successful commit leaves the content given as revision n+1, one COMMIT record that names it, every other revision and record as before; a refused one leaves the disk as it was |
| TaskJournalEffects.RecoveryWrites | skills/cogentnexus-openclaw/scripts/cogent.py:331-339 | The same for an applied recovery plan, under schema version 3 |
| TaskJournalEffects.RollbackWrites | skills/cogentnexus-openclaw/scripts/cogent.py:185-193 | The same for a rollback, with the content of the revision named |
| TaskJournalEffects.AppendWrites | skills/cogentnexus-openclaw/scripts/cogent.py:113-119 | An appended event is one more line with this kind and text and the number of its place |
| TaskJournalEffects.ContentSurvives | skills/cogentnexus-openclaw/scripts/cogent.py:93-136 | The content of a command that took effect is the content of its revision for ever, through every later command and crash |
| TaskJournalEffects.SurvivorsEnd | skills/cogentnexus-openclaw/scripts/cogent.py:101-111 | A process that outlives recovery and five more writes ends by itself |
| TaskJournalEffects.NothingIsRewritten | skills/cogentnexus-openclaw/scripts/cogent.py:85-111 | On any disk, sound or not, no command and no crash rewrites a ledger line or a revision file |
| TaskJournalEffects.ForeignLedgerRefused | skills/cogentnexus-openclaw/scripts/cogent.py:104-106 | A pending record that the ledger contradicts stops every command before its first write |
| TaskJournalEffects.ForeignRevisionRefused | skills/cogentnexus-openclaw/scripts/cogent.py:93-96 | A pending state that differs from its own revision file is never put in force |
| TaskCommands.TaskFiles.Persist | skills/cogentnexus-openclaw/scripts/cogent.py:22-30 | One durable write happens, or the process dies before it |
| TaskCommands.TaskFiles.WriteRevision | skills/cogentnexus-openclaw/scripts/cogent.py:93-99 | Exactly the writes of RevisionProgram until the process dies; a different existing revision is refused |
| TaskCommands.TaskFiles.FinishPending | skills/cogentnexus-openclaw/scripts/cogent.py:107-111 | The revision, then the unlink, in that order |
| TaskCommands.TaskFiles.RecoverPending | skills/cogentnexus-openclaw/scripts/cogent.py:101-107 | Exactly the writes of RecoverProgram |
| TaskCommands.TaskFiles.TransactionalState | skills/cogentnexus-openclaw/scripts/cogent.py:109-111 | Exactly the five writes of TransactionProgram, in order |
| TaskCommands.TaskFiles.LoadState | skills/cogentnexus-openclaw/scripts/cogent.py:121-124 | Recovery, then the state file |
| TaskCommands.TaskFiles.AppendEvent | skills/cogentnexus-openclaw/scripts/cogent.py:113-119 | Recovery, then one line with this kind and text under the next number; refused exactly without a state |
| TaskCommands.TaskFiles.TaskInit | skills/cogentnexus-openclaw/scripts/cogent.py:126-136 | Recovery, then revision 1 with the content given and its INTENT record; refused exactly when a state or ledger exists |
| TaskCommands.TaskFiles.StateCommit | skills/cogentnexus-openclaw/scripts/cogent.py:160-183 | Recovery, then the content given as the next revision, under schema version 2 and with its COMMIT record; refused, and nothing changed, exactly without a state or a verdict |
| TaskCommands.TaskFiles.StateRollback | skills/cogentnexus-openclaw/scripts/cogent.py:185-193 | Recovery, then the old content as the next revision with its ROLLBACK record; refused exactly for a revision that is not there |
| TaskCommands.TaskFiles.RecoverApply | skills/cogentnexus-openclaw/scripts/cogent.py:331-339 | Recovery, then the content given as the next revision, under schema version 3 and with its RECOVERY record; refused exactly without a state or a verdict |
| DirectRecoverySafety.GenerationsNeverDecrease | plugins/cogentnexus-openclaw/src/v090.ts:26-36 | A session generation never decreases over any run |
| DirectRecoverySafety.SupersededForever | plugins/cogentnexus-openclaw/src/v094-direct-recovery.ts:177-262 | A worker whose claim is gone can never commit, retry or refresh again, whatever is requeued, reactivated or claimed later |
| DirectRecoverySafety.ReleasedClaimIsFinal | plugins/cogentnexus-openclaw/src/v091-direct-recovery.ts:76-89 | A row that is not running has superseded every worker launched for it before, for good |
| DirectRecoverySafety.PowerlessIff | plugins/cogentnexus-openclaw/src/v094-direct-recovery.ts:207-262 | A worker can still change a table exactly when it holds its claim or may refresh it |
| DirectRecoverySafety.HeldClaimCommits | plugins/cogentnexus-openclaw/src/v094-direct-recovery.ts:414-452 | A commit goes through exactly for a held claim with no other text stored, and then answers the ticket |
| DirectRecoverySafety.RevokeKeepsClaim | plugins/cogentnexus-openclaw/src/v090.ts:32 | After a cancel, reset or delete a worker holds its claim exactly when it did and its ticket is not of that session |
| DirectRecoverySafety.RevokeKeepsTouch | plugins/cogentnexus-openclaw/src/v090-recovery-order.ts:66-74 | The refresh survives a revocation exactly when, besides, the worker was not launched for that session |
| DirectRecoverySafety.ActsOnlyWithClaim | plugins/cogentnexus-openclaw/src/v094-direct-recovery.ts:177-262 | Whoever has the claim on an accepted ticket at some point of a run had it at every point since its launch |
| DirectRecoverySafety.ActsAfterRevoke | plugins/cogentnexus-openclaw/src/v090.ts:32-35 | After a revocation only workers ever commit or retry whose claim was current on an accepted ticket of another session |
| DirectRecoverySafety.RevokedWorkersArePowerless | plugins/cogentnexus-openclaw/src/v090.ts:32-35 | From a revocation on, every worker whose ticket the session owned changes no table |
| DirectRecoverySafety.SessionFence | plugins/cogentnexus-openclaw/src/v090.ts:32-35 | In runs without an owner rebind, a revocation fences every worker ever launched for the session |
| DirectRecoveryAnswers.RebindEscapesFence | plugins/cogentnexus-openclaw/src/ticket-store.ts:321-340 | A concrete run in which a worker launched for A commits after A was cancelled, because its ticket had been rebound to B |
| DirectRecoveryAnswers.ClaimEpochsUnique | plugins/cogentnexus-openclaw/src/v094-direct-recovery.ts:553-555 | Run ids of all workers ever launched differ, and an active run id carries the current attempt count |
| DirectRecoveryAnswers.ClaimHolderIsUnique | plugins/cogentnexus-openclaw/src/v094-direct-recovery.ts:177-205 | At most one worker can commit or retry a ticket, the last one launched for it |
| DirectRecoveryAnswers.AnswerTextImmutable | plugins/cogentnexus-openclaw/src/v094-direct-recovery.ts:422-434 | Every text ever stored under a ticket and generation is the same text, deletions included |
| DirectRecoveryAnswers.AnswerKeptOrClosed | plugins/cogentnexus-openclaw/src/v090.ts:38 | A stored answer keeps its text until its ticket is closed, and then its key stays empty |
| DirectRecoveryAnswers.AnswerNeedsAuthority | plugins/cogentnexus-openclaw/src/v091-dashboard-verified-delivery.ts:201-221 | An answer is inserted by no step but staging and a worker that holds its claim, for an accepted direct ticket under the current generation of its active owner |
| DirectRecoveryAnswers.FirstReadyKept | plugins/cogentnexus-openclaw/src/v091-dashboard-verified-delivery.ts:256-259 | Staging and committing keep the first ready time, or set it together with a durable answer |
| DirectRecoveryAnswers.SweepExact | plugins/cogentnexus-openclaw/src/v092-durable-delivery-boundary.ts:90-128 | An overdue ticket goes back to inference and loses its ready time exactly when it has no durable answer and its owner is active |
| DirectRecoveryAnswers.LaneLockedForever | plugins/cogentnexus-openclaw/src/v095-direct-recovery.ts:37-47 | From its first recovery row on a ticket is never eligible and has no workflow, under every writer |
| DirectRecoveryAnswers.PromotionVetoed | plugins/cogentnexus-openclaw/src/v095-direct-recovery.ts:37-47 | An attempted promotion leaves the whole row as it was; any other write goes through |
| DirectRecoveryAnswers.NeverReady | plugins/cogentnexus-openclaw/src/ticket-store.ts:515-524 | Such a ticket is never among the ready ones, and dispatching it changes nothing |
| DirectRecoveryAnswers.FinishedForever | plugins/cogentnexus-openclaw/src/v090.ts:48 | A completed or cancelled ticket stays so through every reset, reopening and restart |
| DirectRecoveryAnswers.SerializingKeepsProgress | plugins/cogentnexus-openclaw/src/v090-recovery-order.ts:99-106 | Queueing behind an older recovery never demotes a running or awaiting row and never drops a run id |
| DirectRecoveryAnswers.SomeRecoveryCanProceed | plugins/cogentnexus-openclaw/src/v090-recovery-order.ts:16-39 | Whenever a recovery of a session and generation is active, one of them has no predecessor |
| DirectRecoveryReady.ReadyLostIff | plugins/cogentnexus-openclaw/src/v092-durable-delivery-boundary.ts:80-84 | A step makes a ticket lose its ready time exactly when it takes one of seven branches, whose guards are listed |
| DirectRecoveryReady.ReadyLostBy | plugins/cogentnexus-openclaw/src/v092-durable-delivery-boundary.ts:80-84 | Over any run a ready time was lost at such a step, and beside a stored answer that step is not the deadline sweep |
| DirectRecoveryReady.RequeuedIff | plugins/cogentnexus-openclaw/src/v090.ts:31 | Inference is queued for a ticket exactly by the branches listed; beside a stored answer the deadline sweep is not among them |
| DirectRecoveryReady.InterruptionClearsAnswered | plugins/cogentnexus-openclaw/src/v090.ts:43 | A legal run in which a committed answer stays, and an interruption clears the ready time and queues inference |
| DirectRecoveryTables.SweepIsSteps | plugins/cogentnexus-openclaw/src/v092-durable-delivery-boundary.ts:110-127 | The sweep of any rows is a sequence of the steps the runs are made of |
| DirectRecoveryTables.PrepareIsSteps | plugins/cogentnexus-openclaw/src/v090.ts:48 | So is the preparation at startup |
| DirectRecoverySessions.RevokedSession | plugins/cogentnexus-openclaw/src/v090.ts:32 | A revocation leaves the session deleting or active as asked, one generation further, with the lifecycle id given or the old one, and no other session changed |
| DirectRecoverySessions.RevokedTickets | plugins/cogentnexus-openclaw/src/v090.ts:32 | Exactly its open tickets are cancelled and lose their ready time, exactly its rows withdrawn; answers and all else stay |
| DirectRecoverySessions.NotActiveFences | plugins/cogentnexus-openclaw/src/v090.ts:32-36 | Of a session that is not active no ticket is due, no worker holds, commits, retries or claims it, and staging, interruptions, compactions, serialising, the sweep and reopening write nothing |
| DirectRecoverySessions.RevivedIff | plugins/cogentnexus-openclaw/src/v090.ts:26 | A session that is not active becomes active exactly by a revocation that does not delete it or by another lifecycle id once it is deleted |
| DirectRecoverySessions.DeletingUntil | plugins/cogentnexus-openclaw/src/v090.ts:26-36 | A session being deleted accepts no lifecycle, and stays so exactly until it is revoked again or its deletion finalised |
| DirectRecoverySessions.DeletionFences | plugins/cogentnexus-openclaw/src/v090.ts:26-36 | Over any run, from a deletion on until the session is revived, every ticket it owns is fenced |
| DirectRecoverySessions.AcceptedTicket | plugins/cogentnexus-openclaw/src/ticket-store.ts:385-413 | A new ticket is on the direct lane of its session, unanswered; a known request or id changes nothing |
| DirectRecoverySessions.ReboundTickets | plugins/cogentnexus-openclaw/src/ticket-store.ts:321-340 | A handover changes the owner of the open tickets of the source and nothing else |
| DirectRecoverySessions.CompactedTicket | plugins/cogentnexus-openclaw/src/v090.ts:44 | A compaction queues an unanswered direct ticket of an active session under its generation, attempts kept |
| DirectRecoverySessions.DueIff | plugins/cogentnexus-openclaw/src/v091-direct-recovery.ts:91-107 | A row is due exactly when it is pending, its time has come, its ticket is on the direct lane and its owner active at its generation |
| DirectRecoverySessions.WaitsBehind | plugins/cogentnexus-openclaw/src/v090-recovery-order.ts:16-39 | A recovery waits exactly behind an open one of the same session and generation whose ticket was accepted earlier |
| DirectRecoverySessions.LaunchedWorker | plugins/cogentnexus-openclaw/src/v094-direct-recovery.ts:207-220 | A launch claims one due row under the next attempt number, and its worker holds the claim |
| DirectRecoverySessions.RetryWaits | plugins/cogentnexus-openclaw/src/v094-direct-recovery.ts:237-244 | After a failed attempt the row is due exactly 5, 15, 30, 60, 120 or, from the sixth on, 300 seconds later |
| DirectRecoveryTables.SweepAllRows | plugins/cogentnexus-openclaw/src/v092-durable-delivery-boundary.ts:90-128 | The sweep of many rows, row by row: exactly the overdue tickets without an answer and with an active owner are queued, no other ticket or row changes |
| DirectRecoveryTables.Tables.SessionAuthority | plugins/cogentnexus-openclaw/src/v090.ts:24 | A missing session is created active at generation 0 |
| DirectRecoveryTables.Tables.ReactivateSessionForLifecycle | plugins/cogentnexus-openclaw/src/v090.ts:26 | Accepted exactly for a missing session, an active one without or with this id, or a deleted one with another; it is then active under this id at its old generation |
| DirectRecoveryTables.Tables.CancelOpenTickets | plugins/cogentnexus-openclaw/src/v090.ts:32 | Exactly the open tickets of the session are cancelled and lose their ready time |
| DirectRecoveryTables.Tables.RevokeSession | plugins/cogentnexus-openclaw/src/v090.ts:32 | The session is deleting or active as asked, one generation further, with the id given or the old one; its open tickets cancelled and its rows withdrawn, column by column |
| DirectRecoveryTables.Tables.WithdrawRecoveryRows | plugins/cogentnexus-openclaw/src/v090.ts:32 | Rows of the session are withdrawn with attempts and generation kept, and no worker of its tickets can change anything any more |
| DirectRecoveryTables.Tables.FinalizeSessionDeletion | plugins/cogentnexus-openclaw/src/v090.ts:36 | A deleted session authorises no worker, keeps its generation and comes back only under another lifecycle id |
| DirectRecoveryTables.Tables.QueueRecovery | plugins/cogentnexus-openclaw/src/v090.ts:31 | The row is pending under the current generation with its attempts kept; nothing for an inactive owner |
| DirectRecoveryTables.Tables.MarkDirectRecovery | plugins/cogentnexus-openclaw/src/v090.ts:43 | A direct ticket is queued and loses its ready time; an explicit user abort cancels the session instead |
| DirectRecoveryTables.Tables.QueueBehindOlderRecovery | plugins/cogentnexus-openclaw/src/v090-recovery-order.ts:76-118 | Queued exactly when an older recovery of the same session and generation is active |
| DirectRecoveryTables.Tables.RecoverUndeliveredDirect | plugins/cogentnexus-openclaw/src/v092-durable-delivery-boundary.ts:90-128 | Exactly the overdue tickets of the rows without a durable answer and with an active owner are queued again; no other ticket or row changes |
| DirectRecoveryTables.Tables.ClaimIdentity | plugins/cogentnexus-openclaw/src/v094-direct-recovery.ts:177-205 | Answers exactly whether the worker holds the claim |
| DirectRecoveryTables.Tables.ClaimRow | plugins/cogentnexus-openclaw/src/v094-direct-recovery.ts:207-220 | The claim is won exactly on a pending authorised row, with one attempt more and no next time, and then held |
| DirectRecoveryTables.Tables.RetryClaim | plugins/cogentnexus-openclaw/src/v094-direct-recovery.ts:222-262 | A held claim goes back to pending with its backoff, any other is left alone |
| DirectRecoveryTables.Tables.TouchClaim | plugins/cogentnexus-openclaw/src/v090-recovery-order.ts:66-74 | Refreshes a held claim only |
| DirectRecoveryTables.Tables.MarkResponseReady | plugins/cogentnexus-openclaw/src/v094-direct-recovery.ts:396-474 | Commits exactly when the claim is held and no other text is stored; otherwise nothing, or an error and nothing |
| DirectRecoveryTables.Tables.FinishLaunch | plugins/cogentnexus-openclaw/src/v094-direct-recovery.ts:628-716 | Without the claim nothing changes; with it the row is answered or pending again |
| DirectRecoveryTables.Tables.ResetStaleDirectRecovery | plugins/cogentnexus-openclaw/src/v091-direct-recovery.ts:76-89 | Pending afterwards exactly if pending or stale, due at once, attempts kept; workers of reset claims are powerless, all others keep their claim |
| DirectRecoveryTables.Tables.RestoreRow | plugins/cogentnexus-openclaw/src/v090.ts:48 | One startup row: an aborted ticket cancelled and its row withdrawn, a promoted one back on the direct lane and queued, or nothing changed |
| DirectRecoveryTables.Tables.WithdrawTerminalRows | plugins/cogentnexus-openclaw/src/v090.ts:48 | No row of a terminal ticket stays open, and no recovery gains or loses an active predecessor |
| DirectRecoveryTables.Tables.ResetClaims | plugins/cogentnexus-openclaw/src/v090.ts:48 | After a restart no worker holds a claim, and attempts and generations go on |
| DirectRecoveryTables.Tables.PrepareRecoveryState | plugins/cogentnexus-openclaw/src/v090.ts:48 | The startup transaction on the four tables, after which no worker holds a claim and no row of a terminal ticket is open |
| DirectRecoveryTables.Tables.StageDashboardDirectResult | plugins/cogentnexus-openclaw/src/v091-dashboard-verified-delivery.ts:183-279 | The answer is durable and the ticket ready, or nothing changed |
| DirectRecoveryTables.Tables.SettleDashboardNativeDelivery | plugins/cogentnexus-openclaw/src/v091-dashboard-verified-delivery.ts:308-343 | Settles exactly the latest pending answer of a ready direct ticket: it is delivered, its ticket completed and confirmed at that moment |
| DirectRecoveryTables.Tables.DropPendingAnswers | plugins/cogentnexus-openclaw/src/v090.ts:38 | Nothing of the ticket is left to settle; delivered answers and those of other tickets stay as they are |
| DirectRecoveryTables.Tables.DisposeDirectRecoveryTicket | plugins/cogentnexus-openclaw/src/v090.ts:38 | Behind the owner generation fence the ticket is terminal and its row withdrawn; a failed fence changes nothing |
| TicketSafety.LogRefinesTable | plugins/cogentnexus-openclaw/src/ticket-store.ts:172-307 | In every reachable store the events of a ticket reproduce its status, eligibility, attempts, generation, workflow and readiness |
| TicketSafety.LeaseColumns | plugins/cogentnexus-openclaw/src/ticket-store.ts:415-513 | Generation, attempts and logged claims are one number; running has a full lease, accepted and waiting have none |
| TicketSafety.OneDeliveryChannel | plugins/cogentnexus-openclaw/src/ticket-store.ts:600-605 | An outbox row only for a terminal ticket of the same status; every failed ticket has one; a completed one has it exactly when no direct delivery was confirmed |
| TicketSafety.TerminalForever | plugins/cogentnexus-openclaw/src/ticket-store.ts:454-490 | A finished ticket keeps row and log for ever and was finished exactly once |
| TicketSafety.DeadForever | plugins/cogentnexus-openclaw/src/ticket-store.ts:437-490 | A superseded or released lease can never again link, heartbeat, complete or fail its ticket |
| TicketSafety.LeaseDies | plugins/cogentnexus-openclaw/src/ticket-store.ts:415-513 | A claim kills every earlier lease, the end of a running generation its own |
| TicketSafety.LaterClaimWins | plugins/cogentnexus-openclaw/src/ticket-store.ts:415-435 | Of two claims the later has the larger generation, and the earlier lease then changes nothing |
| TicketSafety.ReclaimedLeaseIsDead | plugins/cogentnexus-openclaw/src/ticket-store.ts:492-513 | A reclaimed lease changes nothing even before the next claim |
| TicketSafety.DeliveredForever | plugins/cogentnexus-openclaw/src/ticket-store.ts:555-566 | A delivered outbox row never changes again, so it is delivered at most once |
| TicketSafety.BindingHasACause | plugins/cogentnexus-openclaw/src/ticket-store.ts:537-553 | A bound row was scheduled with or bound to that run, and has been bound to it ever since |
| TicketSafety.ReceiptNeedsItsRun | plugins/cogentnexus-openclaw/src/ticket-store.ts:555-577 | A receipt naming a run settles a row exactly when it is pending, its owner fits and that run is bound |
| TicketSafety.ClaimsBounded | plugins/cogentnexus-openclaw/src/ticket-dispatcher.ts:12-28 | With one dispatcher a ticket is leased out at most max_attempts times |
| TicketSafety.ThreeClasses | plugins/cogentnexus-openclaw/src/ticket-store.ts:515-524 | With one dispatcher an open workflow ticket is in exactly one of: running, ready, stranded |
| TicketSafety.StrandedForever | plugins/cogentnexus-openclaw/src/ticket-store.ts:515-524 | A stranded ticket never moves again; only its owner session can change |
| TicketSafety.StrandedExactlyWhen | plugins/cogentnexus-openclaw/src/ticket-store.ts:492-513 | A ticket becomes stranded exactly when its last permitted lease expires |
| TicketSafety.StrandingHappens | plugins/cogentnexus-openclaw/src/ticket-store.ts:492-524 | A legal run with one dispatcher that strands a ticket with one attempt |
| TicketProofs.CellStep | plugins/cogentnexus-openclaw/src/ticket-store.ts:172-577 | Every transaction keeps row, log and outbox of a ticket in agreement |
| TicketLoops.SweepIsSteps | plugins/cogentnexus-openclaw/src/ticket-store.ts:265-285 | The recovery loops are sequences of the steps the runs are made of |
| TicketLoops.SweepResult | plugins/cogentnexus-openclaw/src/ticket-store.ts:492-513 | A recovery loop leaves every due row it was given waiting and every other ticket alone |
| TicketLoops.RebindIsSteps | plugins/cogentnexus-openclaw/src/ticket-store.ts:321-340 | Handing a session over is one step for every ticket, in any order |
| TicketTables.TicketStore.Transition | plugins/cogentnexus-openclaw/src/ticket-store.ts:590-593 | One row and its events change, no other ticket does |
| TicketTables.TicketStore.EnqueueTerminal | plugins/cogentnexus-openclaw/src/ticket-store.ts:600-605 | At most one outbox row per ticket, under its owner |
| TicketTables.TicketStore.Accept | plugins/cogentnexus-openclaw/src/ticket-store.ts:385-413 | A new ticket with its first event, or the ticket that holds the request key |
| TicketTables.TicketStore.RouteTicket | plugins/cogentnexus-openclaw/src/ticket-store.ts:172-194 | Routed once; an error exactly on the opposite decision |
| TicketTables.TicketStore.FinalizeDirectRun | plugins/cogentnexus-openclaw/src/ticket-store.ts:196-227 | The four outcomes; an error exactly when a failed ticket has no owner session |
| TicketTables.TicketStore.ConfirmDirectDelivery | plugins/cogentnexus-openclaw/src/ticket-store.ts:229-241 | Completes a ready direct ticket |
| TicketTables.TicketStore.FailDirectRun | plugins/cogentnexus-openclaw/src/ticket-store.ts:243-255 | Promotes a direct ticket to the workflow lane |
| TicketTables.TicketStore.RecoverUndeliveredDirect | plugins/cogentnexus-openclaw/src/ticket-store.ts:265-285 | Exactly the rows given are promoted, in order |
| TicketTables.TicketStore.PromotePendingDirect | plugins/cogentnexus-openclaw/src/ticket-store.ts:293-307 | Promotes an unanswered direct ticket |
| TicketTables.TicketStore.RebindSessionOwner | plugins/cogentnexus-openclaw/src/ticket-store.ts:321-340 | Open tickets and pending outbox rows of the source move to the target, no other |
| TicketTables.TicketStore.ClaimTicket | plugins/cogentnexus-openclaw/src/ticket-store.ts:415-435 | A lease of the next generation exactly on an accepted or waiting ticket, held at once |
| TicketTables.TicketStore.HeartbeatLease | plugins/cogentnexus-openclaw/src/ticket-store.ts:437-452 | Renews exactly a lease held by worker, token, generation and time: the row then expires leaseMs from now, and no other column, row or event changes |
| TicketTables.TicketStore.LinkWorkflow | plugins/cogentnexus-openclaw/src/ticket-store.ts:352-367 | Links exactly under a held lease and no other workflow |
| TicketTables.TicketStore.CompleteTicket | plugins/cogentnexus-openclaw/src/ticket-store.ts:454-469 | Completes exactly under a held lease with an owner to tell |
| TicketTables.TicketStore.FailLease | plugins/cogentnexus-openclaw/src/ticket-store.ts:471-490 | Waiting while attempts remain and the class allows it, failed otherwise, refused for a stale lease |
| TicketTables.TicketStore.RecoverExpired | plugins/cogentnexus-openclaw/src/ticket-store.ts:492-513 | Exactly the rows given lose their lease, in order |
| TicketTables.TicketStore.MarkOutboxScheduled | plugins/cogentnexus-openclaw/src/ticket-store.ts:537-543 | Schedules exactly a pending row |
| TicketTables.TicketStore.BindOutboxRun | plugins/cogentnexus-openclaw/src/ticket-store.ts:545-553 | Binds exactly a pending row of the owner that is unbound or bound to this run; that row then carries the run |
| TicketTables.TicketStore.MarkOutboxDelivered | plugins/cogentnexus-openclaw/src/ticket-store.ts:555-566 | Delivers exactly what Settles admits |
| TicketTables.TicketStore.MarkOutboxFailed | plugins/cogentnexus-openclaw/src/ticket-store.ts:568-577 | Unbinds exactly what Settles admits |
| TicketLoops.CellsWritten | plugins/cogentnexus-openclaw/src/ticket-store.ts:590-593 | A row written with its events appended changes that ticket and no other |
| TicketTables.TicketStore.LaunchOne | plugins/cogentnexus-openclaw/src/ticket-dispatcher.ts:16-26 | One candidate is leased and launched with its workflow linked, or its attempt given back; exactly when this throws |
| TicketTables.TicketStore.Dispatch | plugins/cogentnexus-openclaw/src/ticket-dispatcher.ts:12-28 | The admitted candidates before the first refusal are tried in order; the leases returned are those launched and are held with their workflow linked, the others gave their attempt back, no other ticket changed; exactly when it throws |
| TicketLeases.LeasedIsHeld | plugins/cogentnexus-openclaw/src/ticket-store.ts:415-513 | A lease is held exactly up to its expiry, can be reclaimed exactly after it, and meanwhile nobody claims the ticket |
| TicketLeases.OneHolder | plugins/cogentnexus-openclaw/src/ticket-store.ts:437-490 | Two leases that hold one ticket agree in worker, token and generation |
| TicketLeases.ClaimLeases | plugins/cogentnexus-openclaw/src/ticket-store.ts:415-435 | A claim leases the ticket out for exactly its time |
| TicketLeases.HeartbeatProlongs | plugins/cogentnexus-openclaw/src/ticket-store.ts:437-452 | A heartbeat moves the end of a held lease and nothing else; the lease is then good exactly until now + leaseMs and nobody reclaims or claims the ticket before |
| TicketLeases.LeaseEndsIff | plugins/cogentnexus-openclaw/src/ticket-store.ts:437-513 | A step ends a lease or moves its end exactly when it is the holder's own complete, fail or beat in time, or an expiry out of time |
| TicketLeases.LeaseEndsBy | plugins/cogentnexus-openclaw/src/ticket-store.ts:437-513 | Over any run a lease that was good until some time is so still, or such a step came between |
| TicketLeases.BeatHolds | plugins/cogentnexus-openclaw/src/ticket-store.ts:437-452 | After a heartbeat the lease is held at every later point of the run up to now + leaseMs, until such a step |
| TicketLeases.BindingIsExclusive | plugins/cogentnexus-openclaw/src/ticket-store.ts:545-577 | A pending row bound to a run is settled by the receipt of that run and of no other, and no other run can be bound to it |
| TicketLeases.FailureFreesTheRow | plugins/cogentnexus-openclaw/src/ticket-store.ts:568-577 | A failed delivery unbinds the row without delivering it, and any run can be bound again |
| TicketLeases.SchedulingCounts | plugins/cogentnexus-openclaw/src/ticket-store.ts:537-543 | Scheduling a pending row counts one attempt and carries the run it names, and leaves a delivered row alone |
| TicketLeases.RoutedOnce | plugins/cogentnexus-openclaw/src/ticket-store.ts:172-194 | Over any run a ticket is routed at most once, and while accepted is eligible exactly when it was routed so |
| TicketLoops.LapsedRows | plugins/cogentnexus-openclaw/src/ticket-store.ts:492-513 | The recovery of lapsed leases, row by row: exactly the rows given wait without a lease, with one event each |
| TicketLoops.OverdueRows | plugins/cogentnexus-openclaw/src/ticket-store.ts:265-285 | The recovery of overdue replies, row by row: exactly the rows given wait on the workflow lane, with one event each |
| TicketLoops.ReboundRows | plugins/cogentnexus-openclaw/src/ticket-store.ts:321-340 | A handover moves the owner of open tickets and of undelivered outbox rows of the source, and nothing else |
| DeliveryProofs.RowsAreConsistent | plugins/cogentnexus-openclaw/src/v095-delivery-core.ts:163-183 | With the writers modelled, a row's attempts are its rank, delivered means confirmed, its digest is its text's |
| DeliveryProofs.RowClimbs | plugins/cogentnexus-openclaw/src/v095-delivery-core.ts:163-331 | Over any run a row keeps its identity and text and never climbs down |
| DeliveryProofs.StepClimbs | plugins/cogentnexus-openclaw/src/v095-delivery-core.ts:163-331 | One step moves a row by at most one rung; only a disposal removes it, and never once delivered |
| DeliveryProofs.ConfirmedForever | plugins/cogentnexus-openclaw/src/v095-delivery-core.ts:290-331 | A confirmed row is final |
| DeliveryProofs.CompletesOnce | plugins/cogentnexus-openclaw/src/v095-delivery-core.ts:317-324 | However many rows a ticket has, one completed event at most is written, and exactly when its status is completed |
| DeliveryProofs.SupersededForever | plugins/cogentnexus-openclaw/src/v095-delivery-core.ts:123-127 | Once the session generation moved on the row never changes again |
| DeliveryProofs.SecondLookupRefuses | plugins/cogentnexus-openclaw/src/v095-delivery-core.ts:199-203 | What only the second lookup finds is always refused |
| DeliveryProofs.PreparedAgain | plugins/cogentnexus-openclaw/src/v095-delivery-core.ts:185-203 | Preparing the same input again answers with the first row exactly when its text has no white space at the ends, and is refused otherwise |
| DeliveryProofs.PaddedTextIsRefused | plugins/cogentnexus-openclaw/src/v095-delivery-core.ts:150-161 | A concrete input whose second preparation is refused |
| DeliveryProofs.OnlyCurrentOwnersMove | plugins/cogentnexus-openclaw/src/v095-delivery-core.ts:123-127 | A row changes only under a session active at the row's generation |
| DeliveryProofs.ConfirmWebchatSucceeds | plugins/cogentnexus-openclaw/src/v095-delivery-webchat.ts:125-155 | A receipt confirms exactly when it names a webchat run with one pending row, staged under a session still current; its ticket is then completed or had moved on |
| DeliveryProofs.CrashIsRepaired | plugins/cogentnexus-openclaw/src/v095-delivery-webchat.ts:147-155 | After a crash between accept and confirm, handling the receipt again gives what an undisturbed call gives |
| DeliveryProofs.RepairedExactlyWhen | plugins/cogentnexus-openclaw/src/v095-delivery-webchat.ts:134-155 | After the transport accepted a row and whatever happens then, it is confirmed already or the receipt confirms it exactly when its session is current and no second row of its run is pending |
| DeliveryProofs.SecondCallBlocksReceipt | plugins/cogentnexus-openclaw/src/v095-delivery-webchat.ts:134-137 | For any run and two of its model calls, a legal run after which the receipt is ambiguous although the first row is accepted and current |
| DeliveryProofs.SecondCallHappens | plugins/cogentnexus-openclaw/src/v095-delivery-webchat.ts:134-137 | Such a run with concrete keys |
| DeliveryProofs.WebchatSessions | plugins/cogentnexus-openclaw/src/v095-delivery-webchat.ts:32-34 | Which session keys the adapter serves |
| DeliveryProofs.StagedAgain | plugins/cogentnexus-openclaw/src/v095-delivery-webchat.ts:47-56 | Staging again succeeds exactly while the ticket is accepted, then answers with the row as it stands, never a confirmed one, and changes nothing |
| DeliveryProofs.StagedRow | plugins/cogentnexus-openclaw/src/v095-delivery-webchat.ts:83-121 | What staging answers with is staged, not confirmed, and belongs to the one accepted ticket of the run |
| DeliveryProofs.StageWebchatTwice | plugins/cogentnexus-openclaw/src/v095-delivery-webchat.ts:117-120 | Staging twice in a row is staging once |
| DeliveryProofs.ConfirmTwice | plugins/cogentnexus-openclaw/src/v095-delivery-core.ts:300-304 | Confirming again changes nothing |
| DeliveryFence.PrepareSucceeds | plugins/cogentnexus-openclaw/src/v095-delivery-core.ts:185-242 | Preparing succeeds exactly for well-formed input whose key holds this very row, or holds none while the ticket is open; the row written, column by column |
| DeliveryFence.PrepareRefusesTruly | plugins/cogentnexus-openclaw/src/v095-delivery-core.ts:185-222 | The error of a refusal names something true of the input or of the rows |
| DeliveryFence.StageSucceeds | plugins/cogentnexus-openclaw/src/v095-delivery-core.ts:244-265 | Staging succeeds exactly on a prepared or staged row of a current owner, and what it writes |
| DeliveryFence.AcceptSucceeds | plugins/cogentnexus-openclaw/src/v095-delivery-core.ts:267-288 | Accepting succeeds exactly on a staged or accepted row of a current owner, and what it writes |
| DeliveryFence.ConfirmSucceeds | plugins/cogentnexus-openclaw/src/v095-delivery-core.ts:290-331 | Confirming succeeds exactly on an accepted or confirmed row of a current owner; the row delivered at that moment, the ticket completed with two events only if still accepted |
| DeliveryFence.ClimbsRefuseTruly | plugins/cogentnexus-openclaw/src/v095-delivery-core.ts:244-331 | The error of a refused climb or confirmation is true of the row |
| DeliveryFence.StageWebchatSucceeds | plugins/cogentnexus-openclaw/src/v095-delivery-webchat.ts:83-121 | Staging succeeds exactly for one accepted ticket of the run and session, a session active at the generation its model call was recorded at, and a free or equal key; the row it leaves; a refusal changes nothing |
| DeliveryFence.StageNeedsInference | plugins/cogentnexus-openclaw/src/v095-delivery-webchat.ts:94-98 | Without a model call found nothing is staged |
| DeliveryFence.StageRefusesTruly | plugins/cogentnexus-openclaw/src/v095-delivery-webchat.ts:83-106 | The reason of a refusal is true of the rows; the delivery core refuses only a generation out of range or a key taken |
| DeliveryFence.OutdatedForever | plugins/cogentnexus-openclaw/src/v095-delivery-webchat.ts:106 | Over any run, once the session generation passed that of a model call, staging its answer changes nothing, for any run id and text |
| DeliveryFence.InferenceFound | plugins/cogentnexus-openclaw/src/v095-delivery-webchat.ts:58-68 | Without a call id the model call is the only one of the run and session; with one, any of that call |
| DeliveryFence.ReceiptMeans | plugins/cogentnexus-openclaw/src/v095-delivery-webchat.ts:134-137 | A receipt means the one undelivered web chat row of its run and session |
| DeliveryFence.KeysAreExact | plugins/cogentnexus-openclaw/src/v095-delivery-webchat.ts:115 | Of one ticket, another generation or another model call is another key |
| DeliveryFence.WebchatSessionsOnly | plugins/cogentnexus-openclaw/src/v095-delivery-webchat.ts:32-34 | Every session key the adapter serves is that of a web chat channel of an agent |
| DeliveryFence.AcceptWebchatSucceeds | plugins/cogentnexus-openclaw/src/v095-delivery-webchat.ts:125-145 | The transport is noted exactly on the one pending row, staged under a current session; the row it leaves; a refusal changes nothing |
| DeliveryFence.AcceptRefusesTruly | plugins/cogentnexus-openclaw/src/v095-delivery-webchat.ts:125-152 | The reason of a refused receipt is true of the rows, and it changes nothing |
| DeliveryTables.Deliveries.AssertCurrentOwner | plugins/cogentnexus-openclaw/src/v095-delivery-core.ts:123-127 | An error means that no row of this owner and generation can climb or be confirmed |
| DeliveryTables.Deliveries.AssertIdentity | plugins/cogentnexus-openclaw/src/v095-delivery-core.ts:150-161 | Accepts exactly the same identity and text |
| DeliveryTables.Deliveries.PrepareDelivery | plugins/cogentnexus-openclaw/src/v095-delivery-core.ts:185-242 | A new row only for an accepted ticket of its current owner; an existing key answers with its row or is refused; every error in its order |
| DeliveryTables.Deliveries.Transition | plugins/cogentnexus-openclaw/src/v095-delivery-core.ts:163-183 | Succeeds exactly on the two rungs; at most one rung and one attempt more, the row keeps what it is, no other row moves |
| DeliveryTables.Deliveries.StageDelivery | plugins/cogentnexus-openclaw/src/v095-delivery-core.ts:244-265 | Prepared becomes staged under a current owner; staged stays; anything else is refused |
| DeliveryTables.Deliveries.AcceptTransportOf | plugins/cogentnexus-openclaw/src/v095-delivery-core.ts:267-288 | Staged becomes transport-accepted under a current owner; accepted stays; anything else is refused |
| DeliveryTables.Deliveries.ConfirmDelivery | plugins/cogentnexus-openclaw/src/v095-delivery-core.ts:290-331 | The row is confirmed and delivered, and its ticket completed with two events only if it was still accepted |
| DeliveryTables.Deliveries.StageWebchatDelivery | plugins/cogentnexus-openclaw/src/v095-delivery-webchat.ts:83-123 | The one accepted ticket of the run is prepared and staged, as two transactions, and only with the session active at the generation of the model call |
| DeliveryTables.Deliveries.AcceptWebchatTransport | plugins/cogentnexus-openclaw/src/v095-delivery-webchat.ts:125-145 | Accepts the one pending row of the run, or refuses |
| DeliveryTables.Deliveries.ConfirmWebchatDelivery | plugins/cogentnexus-openclaw/src/v095-delivery-webchat.ts:147-155 | Accept and confirm as two transactions |
| RecoveryScheduler.NextDirectRecoveryWakeMs | plugins/cogentnexus-openclaw/src/v091-direct-recovery.ts:148-181 | The wake-up is in time for every recovery and stale claim that comes due, and for every delivery when the batch holds all of them; it is never earlier than the next moment some row asks for, and none exactly when nothing is pending |
| RecoveryScheduler.NextAssistantDeliveryWakeMs | plugins/cogentnexus-openclaw/src/v091-direct-recovery.ts:114-146 | The least delay over the first 32 authorised deliveries, or that of the oldest without claim columns |
| RecoveryScheduler.StaleAfter | plugins/cogentnexus-openclaw/src/v091-direct-recovery.ts:108-112 | A claim is stale a minute after its time-out, not before fifteen minutes and not later than four hours |
| RecoveryScheduler.SomebodyAsks | plugins/cogentnexus-openclaw/src/v091-direct-recovery.ts:148-181 | Each computed delay is the time to a moment that some row asks for |
| RecoveryScheduler.RecoveriesCovered | plugins/cogentnexus-openclaw/src/v091-direct-recovery.ts:91-112 | Whatever recovery comes due or claim goes stale at a later moment, a computed delay ends by then |
| RecoveryScheduler.DeliveriesCovered | plugins/cogentnexus-openclaw/src/v091-direct-recovery.ts:183-201 | The same for deliveries, in the two cases where it holds |
| RecoveryScheduler.OversleepsIff | plugins/cogentnexus-openclaw/src/v091-direct-recovery.ts:127-146 | With claim columns a delivery is overslept exactly when a row past the 32nd comes due before every row of the batch is looked at |
| RecoveryScheduler.ThirtyThirdIsOverlooked | plugins/cogentnexus-openclaw/src/v091-direct-recovery.ts:127-146 | A concrete case: due at once, slept on for 30 seconds |
| RecoveryScheduler.OldestHidesTheNewer | plugins/cogentnexus-openclaw/src/v091-direct-recovery.ts:118-126 | A concrete case without claim columns: due at once, slept on for 30 seconds |
| RecoveryScheduler.LegacySafeIff | plugins/cogentnexus-openclaw/src/v091-direct-recovery.ts:118-126 | Without claim columns no delivery is overslept exactly when the oldest is untried or due for retry, or all were tried |
| CoalescedRunner.OneInFlight | plugins/cogentnexus-openclaw/src/v091-final-entry.ts:155-177 | At most one invocation is in flight, and one is exactly while the runner is active |
| CoalescedRunner.NoLostWakeUp | plugins/cogentnexus-openclaw/src/v091-final-entry.ts:155-177 | When the work never throws and the runner is not stopped, every pulse is followed by an invocation before the runner is idle |
| CoalescedRunner.PulseAnsweredIff | plugins/cogentnexus-openclaw/src/v091-final-entry.ts:160-173 | A pulse during an invocation is answered when it settles, exactly when it does not throw and no stop came between |
| CoalescedRunner.PulseIsDropped | plugins/cogentnexus-openclaw/src/v091-final-entry.ts:169-173 | A legal run in which a pulse is dropped by a throw |
| CoalescedRunner.PulseOnIdleStarts | plugins/cogentnexus-openclaw/src/v091-final-entry.ts:159-167 | A pulse starts the work at once exactly on an idle, unstopped runner |
| CoalescedRunner.StoppedForever | plugins/cogentnexus-openclaw/src/v091-final-entry.ts:176 | A stopped runner starts nothing any more |
| CoalescedRunner.Coalescer.Run | plugins/cogentnexus-openclaw/src/v091-final-entry.ts:159-163 | One step of a legal run; unless stopped the pulse invokes the work or is noted, and never two invocations are in flight |
| CoalescedRunner.Coalescer.WorkSettled | plugins/cogentnexus-openclaw/src/v091-final-entry.ts:165-173 | One step of a legal run; a noted pulse is answered exactly after a normal end, otherwise the runner is idle |
| CoalescedRunner.Coalescer.StopRunner | plugins/cogentnexus-openclaw/src/v091-final-entry.ts:176 | One step of a legal run, after which no continuation ever invokes the work again |
| DeliveryMarkers.TicketRoundTrip | plugins/cogentnexus-openclaw/src/delivery-continuity.ts:54-64 | For every outbox id and any trailing text the marker is read back as that id |
| DeliveryMarkers.WorkflowRoundTrip | plugins/cogentnexus-openclaw/src/delivery-continuity.ts:58-68 | For every task, revision and following text the marker is read back as the cleaned task and the revision exactly when no ticket marker is found in that text |
| DeliveryMarkers.CompletionRoundTrip | plugins/cogentnexus-openclaw/src/index.ts:220-229 | A completion message is read back as its revision and cleaned task; as the task itself exactly when that has no dot and at most 96 characters |
| DeliveryMarkers.TaskSurvivesIff | plugins/cogentnexus-openclaw/src/delivery-continuity.ts:46-48 | Cleaning keeps a task exactly when it has at most 96 characters, all of them tag characters |
| DeliveryMarkers.DottedTaskIsFlattened | plugins/cogentnexus-openclaw/src/delivery-continuity.ts:46-48 | Two accepted task ids that share every marker |
| DeliveryMarkers.MarkersInPrint | plugins/cogentnexus-openclaw/src/delivery-continuity.ts:54-60 | Two markers as they stand in a prompt |
| Decimal.ReadPrint | plugins/cogentnexus-openclaw/src/delivery-continuity.ts:54-66 | A printed number reads back as itself |
| ManagedBlock.LastWriterWins | scripts/manage_agents_policy.py:19-33 | For every text a merge accepts, merging p1 then p2 is merging p2 exactly when p1 does not hold the closing marker |
| ManagedBlock.MergeTwice | scripts/manage_agents_policy.py:19-33 | Merging the same policy again reports no change exactly when it does not hold the closing marker |
| ManagedBlock.SurroundingsKept | scripts/manage_agents_policy.py:25-32 | The text before and after an existing block is kept, up to a line break added at the end |
| ManagedBlock.FirstInstall | scripts/manage_agents_policy.py:29-33 | Into a text without a block: the whole text is kept in front up to white space at its end, an empty line follows exactly when it holds anything else, then the block |
| ManagedBlock.RenderedBlock | scripts/manage_agents_policy.py:15-16 | The block is the policy without surrounding white space, on lines of its own between the markers |
| ManagedBlock.MergeShape | scripts/manage_agents_policy.py:22-33 | Exactly which texts a merge accepts: those with neither marker, or with the closing one after the opening one; the text around the block does not depend on the policy |
| ManagedBlock.MarkerInPolicy | scripts/manage_agents_policy.py:19-33 | A concrete policy whose second merge still changes the text |
| ManagedBlock.AroundMerged | scripts/manage_agents_policy.py:21-27 | What a second merge finds around the block of the first |

## Left out

- DirectRecoveryTables.Tables.RevokeSession: the pending outbox rows and the answers of other kinds it also deletes, and its events, because the four tables of the protocol do not read them.
- DirectRecoveryTables.Tables.PrepareRecoveryState: the outbox rows it deletes or unschedules, for the same reason.
- DirectRecoveryTables.Tables.DisposeDirectRecoveryTicket: the pending outbox row it deletes and its event, for the same reason.
- DirectRecoveryTables.Tables.FinishLaunch: takes the check of the claim and the write after it as one; the runs have the writes alone, each with its own check, and anything between.
- DeliveryProofs.RowsAreConsistent: the Dashboard settlement and the Host delivery process also mark direct results delivered, without moving their delivery state; they are not among the steps.
- DirectRecoveryTables.Tables.StageDashboardDirectResult: takes the ticket its run names, without the session-name patterns that select it, and leaves out the claim token it writes for the Host delivery process.
- Spawning processes, Gateway calls, embedded runs, watchers and timers: outcomes and step order are arbitrary instead.
- SQLite itself, schema creation and column migration; the claim columns of a delivery are one flag.
- The model-call and liveness fences of the due recovery query in Direct Recovery, which only narrow what may be claimed; the scheduler models both.
- The claim token that staging and the Host delivery process write on an answer, and that process, which is not part of this model.
- Answers of other kinds than `direct_result`, the outbox rows and the workflow ids a revocation also clears.
- In Direct Recovery the writes of the base store are any write that keeps its rules (`StoreWrite`), which admits more than the store does.
- The prototype patches over the base ticket store; the ticket model is the base class.
- Failure messages, prompts, heartbeat times and the experience rows of a ticket.
- Delivery states `failed` and `cancelled`, and rows without a delivery state, which no function of the delivery core writes.
- The message text with the hidden web chat marker, and the Discord adapter, which repeats the web chat one.
- Completion evidence, recovery plans and the capability registry of `cogent.py`: a verdict and some new state content are parameters.
- The lock files of `cogent.py` and of workflow completions, whose stale reclaim depends on process liveness.
- JavaScript numbers above 2^53 and dates that do not parse.
- Databases without the session columns or tables the scheduler first looks for.
- Non-finite limits of the dispatcher, which it treats as zero.
- `nextActiveTicketWakeMs` and `shouldRunDeepReconcile`, one expression each.
- Writing AGENTS.md and its backup; only the merged text is modelled.
