# Inference grid: the capacity ledger and the programs around it, verified

This project models the parts of the inference grid that decide who may use whose capacity, and
proves what they promise over every run.

The core is the **capacity ledger**: accounts with quota windows, observations of what a provider
says is left, aliases, cooldowns, attempts and an event log. A public method of the ledger is one
transaction that commits or leaves everything as it was; transactions of workers, ticks and operators
interleave in any order. `LedgerSpec` gives the state and each transaction as a function,
`LedgerObject` the class whose methods update the tables in place and are proved against those
functions, and a *run* is any sequence of transactions from the empty ledger. `Transitions` classifies
every transaction by its shape; the invariants of `EventLog`, `QuotaHistory`, `Reservations`,
`Exclusion` and `Scorecard` are proved shape by shape and then hold in every reachable state.

Around the ledger, as programs that step it, with other actors' transactions in between:

- `Scheduler` and `Aliases`: greedy admission over the tasks in order of priority.
- `Worker` and `Receipts`: one delivery of an attempt, and what a receipt must be.
- `Collector`, `CollectorObject`, `RetryAfter`, `Doubles`: single-flight collection in two transactions
  around a call, and the deadline of a wait (section 10.2.3 of RFC 9110) over any grid of representable
  instants, the binary floating-point numbers among them.
- `Board`, `BoardObject`, `LedgerNames`: task files and ledger written separately, with a crash possible
  between any two writes.
- `HoldAbandoned`, `Scorecard`, `ScorecardRun`: the sweep of overdue attempts, and the ledger's own
  statistics.

Beside it, cores of their own: `RetryIds`, `Failover`, `FailoverRuns` and `FailoverObject` (automatic
retries on other families),
`RefreshStore` (the server's refresh requests and snapshot), `Watch` (edge-triggered alarms), `Brief`
and `BriefLaws` (printers and readers of briefs) and `SectionSplice` (one section of a text replaced).

## What does not hold

Where the code does not do what its documentation says, the model keeps the code, and says when it
does hold.

- A wait can be rounded down: for a receive time before the epoch and a delay that is not
  representable, adding and stepping up once can end before the exact sum. On doubles it does
  13510798882111488 seconds before the epoch, for 18014398509481986 seconds to wait
  (`Doubles.DoublesShorten`). The wait is kept exactly when rounding lost on delay and sum together no
  more than the step up gives back (`RetryAfter.DeadlineKeepsExactly`), and so for every receive time
  from the epoch on and every representable delay (`RetryAfter.DeadlineNeverShortens`).
- The scorecard reads the rows, the tasks and the log in three statements. An attempt finished and
  judged between the first and the last is counted as accepted and not as completed, and a run shows it
  (`ScorecardRun.MeanwhileIsUnsound`). What is accepted is completed exactly when none of the attempts
  asked for was read unfinished and is judged acceptable by the log (`Scorecard.AcceptedIsCompletedExactly`).
- A composed brief loses its packet when nothing visible follows the packet's number: stripping cuts the
  heading, and the reader raises. A heading of the packet inside the rules is found before the packet
  itself, and a document shows it (`BriefLaws.HeadingInTheRulesIsFoundFirst`). For all documents, the packet
  is read back exactly when something visible follows its number or, where the rules hold a heading of it,
  exactly when the section says what the rules say of it (`BriefLaws.ComposedReadsBack`).
- A failover is meant never to be lost in a crash because the successor is written first. The brief is
  written before it. Of the crash points of an authoring only the one between these two loses the retry
  (`FailoverRuns.CrashPoints`), a run reaches it (`FailoverRuns.RetryIsLost`), and no later pass writes it
  while the board gives the task the same next id (`FailoverRuns.LostStaysDeclined`); it is due again
  exactly when others have taken that id and the next one's brief is not there
  (`FailoverRuns.LostIsDueAgainExactly`).
- A successor is meant for other families than the failed one. Where the failed family cannot be told, no
  lane is excluded for its family, the failed lane included (`FailoverRuns.FailedLaneIsRetried`): a family
  keeps out exactly when it is the one known to have failed, or has no lane for packets
  (`Failover.FamilyKeptOutExactly`).
- Two tasks may be given the same id for their next retry, exactly when their retries are numbered on the
  same base and every number between their starts is taken (`RetryIds.SameRetryIdExactly`); so any two
  retries of one chain are (`RetryIds.ChainIsDueOneId`). The existence check, and taking retries one at a
  time, keep them apart.
- An alarm announced again is meant to name the whole duration. The kept entry does; the announcement
  carries the current alarm's own start, and the two agree exactly when that is the start the alarm was
  raised with (`Watch.AnnouncedSince`); they can differ (`Watch.AnnouncedWithAnotherStart`).
- Consumed work of an operator's resolution is subtracted when it is resolved, and is not subtracted
  again from a later observation, as completed work is.
- The search for a board task's attempts uses a case-insensitive prefix match on SQLite; the model has
  it so, and a ledger id still names one board task.
- A section that is followed by something, and whose last character breaks no line, runs into the heading
  that follows, and a section under the empty heading, appended, is read back with the empty lines put
  before it. In every other case what was spliced in is read back
  (`SectionSplice.ExtractAfterReplaceExactly`); beside these only a bare heading is, that by coincidence is
  the text's last line too (`SectionSplice.BareHeadingReappears`).

## Model

| member | source | states |
|---|---|---|
| LedgerObject.Ledger.ConfigureAccount | src/inference_grid/ledger.py:218-295 | the new tables are the specified ones: refusals in their order, the windows less the work finished after the observation, and a complete rollback when a name turns out to be bound elsewhere after the account was written |
| LedgerObject.Ledger.SubmitTask | src/inference_grid/ledger.py:297-351 | the task is stored once; the same submission again is accepted without change, another under the same id is refused; every candidate's alias chain ends |
| LedgerObject.Ledger.DeferAccount | src/inference_grid/ledger.py:353-383 | the stored deadline is the later of the old one and the new one, and an event records it |
| LedgerObject.Ledger.ClaimTask | src/inference_grid/ledger.py:413-464 | a refusal changes nothing; an admission adds one queued attempt with the account's next generation, exactly when no refusal applies |
| LedgerObject.Ledger.StartAttempt | src/inference_grid/ledger.py:466-531 | a delivery of a queued attempt starts it when its admission still stands over everything reserved, and holds it otherwise; any other delivery changes nothing |
| LedgerObject.Ledger.HoldAttempt | src/inference_grid/ledger.py:533-541 | only a dispatching attempt is held, with its event |
| LedgerObject.Ledger.FinishAttempt | src/inference_grid/ledger.py:543-574 | only a dispatching attempt of this generation is completed, by a receipt without a fault, and its estimate is debited from every window, clipped at zero |
| LedgerObject.Ledger.ResolveAttempt | src/inference_grid/ledger.py:599-660 | a held attempt is failed with its estimate debited, or abandoned with it dropped, on the word of someone who is not the grid itself |
| LedgerObject.Ledger.AcceptAttempt | src/inference_grid/ledger.py:662-682 | completed work is accepted under the very receipt it was completed with, by a reviewer of another family |
| LedgerObject.Ledger.RecordOutcomeOf | src/inference_grid/ledger.py:684-721 | an outcome is recorded for settled attempts only, an accepted one for completed or accepted work only |
| LedgerObject.Ledger.RecordExternalWork | src/inference_grid/ledger.py:724-792 | two transactions: the attempt, born completed and reserving nothing, stays recorded when its outcome is refused |
| Transitions.BindAliasesMeaning | src/inference_grid/ledger.py:287-295 | binding keeps every name that was bound, binds every name asked for to the account, and adds no other |
| Transitions.StepShape | src/inference_grid/ledger.py:184-196 | every transaction changes nothing that matters, applies one observation, adds one attempt, or moves one attempt along its life, and which it does follows from the step |
| Transitions.RunEvolves | src/inference_grid/ledger.py:184-196 | over any run tasks, aliases and events stay, attempts keep their work and only move forward, and every attempt's account and task exist |
| Aliases.CanonicalAccount | src/inference_grid/aliases.py:1-21 | the loop over the chain returns the specified end, and refuses ids that are blank and cycles |
| Aliases.CanonicalIsChainEnd | src/inference_grid/aliases.py:14-21 | it returns a name exactly when that name is the end of the alias chain from the given one; there is none exactly when an id is blank or the chain has a cycle |
| Receipts.ValidateReceipt | src/inference_grid/receipts.py:23-53 | the errors are the specified list, and empty exactly for an acceptable receipt |
| Receipts.FaultFreeIsAcceptable | src/inference_grid/receipts.py:7-53 | no fault means every header field right and a nonempty list of artifacts at safe, pairwise different paths with well-formed digests, and conversely |
| EventLog.LogDeterminesStates | src/inference_grid/ledger.py:448-790 | in every reachable state replaying the log, with each transition checked, gives exactly the attempts table's states |
| EventLog.StepRecords | src/inference_grid/ledger.py:499-541 | a step changes an attempt's state exactly when the event it appends records that very change, and then no other attempt's |
| EventLog.AtMostThreeMoves | src/inference_grid/ledger.py:466-682 | no attempt changes state more than three times in any run, its rank bounding what is left |
| QuotaHistory.RemainingIsRecomputed | src/inference_grid/ledger.py:248-279 | in every reachable state each stored window is the last applied observation less the estimates charged since, clipped once |
| QuotaHistory.RecomputedCharge | src/inference_grid/ledger.py:570-573 | one clip after another equals one clip of the whole sum |
| QuotaHistory.ReplayChangesNoQuota | src/inference_grid/ledger.py:245-249 | an observation configured again changes no account, no observation and no log |
| QuotaHistory.DelayedObservationKeepsDebits | src/inference_grid/ledger.py:250-264 | an applied observation keeps every completion later than it subtracted |
| Reservations.EstimatesPartition | src/inference_grid/ledger.py:404-411 | an account's estimates are reserved, debited or released, in one of these ways only |
| Reservations.NothingAutomaticFrees | src/inference_grid/ledger.py:533-660 | an account's reservations rise only by an admission's estimate and fall only by that of an attempt finished with a faultless receipt or resolved by an operator; every other step leaves them |
| Reservations.LeavingIsFreeing | src/inference_grid/ledger.py:543-660 | an attempt stops being ACTIVE exactly when a faultless completion or an attested resolution of it does so |
| Reservations.QuotaIsConserved | src/inference_grid/ledger.py:436-447 | from a state whose reservations fit the windows, until the next applied observation, they keep fitting under every interleaving, and remaining plus debited is constant per window |
| Reservations.DebitsAreNeverClipped | src/inference_grid/ledger.py:570-573 | along such a run every debit is the plain difference |
| Exclusion.ActiveAttemptsAreExclusive | src/inference_grid/ledger.py:433-441 | in every reachable state ACTIVE attempts share no workspace, and an account has at most as many as the largest capacity it ever had |
| Exclusion.GenerationsAreConsecutive | src/inference_grid/ledger.py:448-464 | the admitted generations of an account are exactly one to its own, each used once, in order |
| Exclusion.DispatchRechecks | src/inference_grid/ledger.py:478-531 | an attempt becomes dispatching exactly by a start that finds it admissible over all the account has reserved |
| Exclusion.StartsAtMostOnce | src/inference_grid/ledger.py:466-476 | two deliveries that both start concern different tasks, however late and often they come |
| Exclusion.HeldNeverCompletes | src/inference_grid/ledger.py:553-563 | an attempt once held stays held, or ends failed or abandoned |
| Scheduler.Tick | src/inference_grid/scheduler.py:9-45 | the nested loops take the unattempted tasks in the order of priority and id, and compute the specified verdicts and ledger |
| Scheduler.SortPending | src/inference_grid/scheduler.py:14 | the order lists exactly the pending tasks, by priority and then id |
| Scheduler.RefusalIsMonotone | src/inference_grid/ledger.py:413-447 | what is refused stays refused when others are admitted at the same time |
| Scheduler.GreedyAdmissionIsMaximal | src/inference_grid/scheduler.py:9-45 | from any reachable state no lookup raises, each admitted task got its first admissible candidate in the state the earlier tasks left, and each blocked one is still refused everywhere at the end |
| Scheduler.SecondTickAdmitsNothing | src/inference_grid/scheduler.py:9-45 | a second tick at the same time, in whatever order, changes nothing and blocks everything |
| Worker.Execute | src/inference_grid/worker.py:76-155 | a duplicate or stale delivery runs nothing; any other runs the adapter at most once and leaves the attempt settled, completed only with a receipt that fits and artifacts that match |
| Worker.DispatchedAtMostOnce | src/inference_grid/worker.py:76-79 | over any run with any deliveries a task is dispatched at most once |
| HoldAbandoned.HoldAbandoned | src/inference_grid/ledger.py:851-863 | one read, then one hold for each overdue attempt in a transaction of its own, with other actors' steps before each |
| HoldAbandoned.SweepStopsEveryOverdue | src/inference_grid/ledger.py:851-863 | whatever others do meanwhile, no attempt that was overdue is queued or dispatching afterwards |
| HoldAbandoned.QuietSweepHoldsExactly | src/inference_grid/ledger.py:851-863 | left alone, a sweep holds exactly the overdue attempts, each with its event, and frees nothing |
| Scorecard.LatestOutcomes | src/inference_grid/ledger.py:802-807 | the dictionary holds for each attempt its last outcome by time |
| Scorecard.Scorecard | src/inference_grid/ledger.py:794-844 | the entries counted in the loop are those of the rows, tasks and log as the three reads found them, one for every key that occurs, named after the first row of it |
| Scorecard.EveryAttemptIsCountedOnce | src/inference_grid/ledger.py:808-842 | the entries report together exactly the attempts asked for, and each is in the one entry of its own key |
| Scorecard.StatesAddUp | src/inference_grid/ledger.py:836-840 | completed, held, resolved and still open add up to the attempts of an entry |
| Scorecard.OutcomesStayHonest | src/inference_grid/ledger.py:704-711 | in every reachable state an accepted outcome is about work that is completed or accepted |
| Scorecard.ScorecardSound | src/inference_grid/ledger.py:794-844 | over every history, whatever falls between the reads, the states add up, every row's task is found, and accepted exceeds completed by exactly the attempts judged while reading less the completed ones not accepted |
| Scorecard.AcceptedExactly | src/inference_grid/ledger.py:808-842 | an entry reports no more accepted than completed exactly when the rows accepted without being completed are no more than the completed ones not accepted |
| Scorecard.AcceptedIsCompletedExactly | src/inference_grid/ledger.py:796-842 | over every history each row asked for that counts as accepted counts as completed, exactly when none was read unfinished and is accepted by its latest outcome in the later read of the log |
| Scorecard.OneMomentIsSound | src/inference_grid/ledger.py:794-844 | read in one moment, accepted is within completed and completed within attempts |
| ScorecardRun.MeanwhileIsUnsound | src/inference_grid/ledger.py:796-807 | a run of configuring, submitting, claiming and starting, read, then finished and judged, and read on: the one entry reports one accepted and no completed attempt |
| Collector.SingleFlight | src/inference_grid/collector.py:56-97 | under any interleaving and crashes an account has at most one collection in flight or unreconciled |
| Collector.OnlyTheOwnerClears | src/inference_grid/collector.py:147-157 | a claim is given up exactly by the last transaction of the process that took it |
| Collector.LostClaimStaysTaken | src/inference_grid/collector.py:75-80 | a claim whose process is gone stays taken, and no call of its account begins |
| Collector.NoCallUnderCooldown | src/inference_grid/collector.py:65-72 | in every run each call was begun at a time when every usage cooldown stored for its account until then had run out |
| Collector.RateLimitIsKept | src/inference_grid/collector.py:112-128 | after a 429 the process goes on to store a deadline that keeps the wait, in delay seconds or the fallback, or is gone with its claim taken |
| Collector.ClearedAfterCooldown | src/inference_grid/collector.py:115-157 | a claim that asked for a cooldown is cleared only in a state where that deadline, or a later one, is stored |
| CollectorObject.Collections.Collect | src/inference_grid/collector.py:45-157 | around any turns of other processes: a status is returned only with the claim cleared, reconciliation only with it still taken, and a 429's status only once its cooldown is stored |
| RetryAfter.RetryDeadline | src/inference_grid/retry_after.py:18-52 | the branches compute the specified deadline on a grid of representable instants, or an error |
| RetryAfter.DeadlineKeepsExactly | src/inference_grid/retry_after.py:41-52 | on every grid the deadline is at or after the exact sum exactly when what rounding lost on the delay and on the sum is at most the one step up |
| RetryAfter.DeadlineNeverShortens | src/inference_grid/retry_after.py:41-52 | so for a receive time from the epoch on, or a representable delay |
| RetryAfter.DeadlineIsLeast | src/inference_grid/retry_after.py:41-52 | for a representable delay it is the least representable instant at or after the exact sum |
| RetryAfter.DeadlineIsNotPast | src/inference_grid/retry_after.py:38-52 | the deadline is never before now |
| Doubles.GridIsValid | src/inference_grid/retry_after.py:6-15 | binary floating-point numbers, rounded to the nearest and of two to the even one, are such a grid |
| Doubles.NegativeNowShortens | src/inference_grid/retry_after.py:41-52 | on every binary format with the range there are a time before the epoch and delay seconds that end one second early |
| Doubles.DoublesShorten | src/inference_grid/retry_after.py:41-52 | the same on doubles, in numbers, with the default fallback |
| LedgerNames.AttributedOnce | src/inference_grid/board/runner.py:1511-1530 | a ledger task is attributed to one board id at most |
| LedgerNames.LedgerIdIsAttributed | src/inference_grid/board/runner.py:628-636 | the id drawn for an attempt of a board task is attributed to it |
| Board.TurnKeepsSound | src/inference_grid/board/runner.py:2204-2230 | every single write of a pass, every step of another actor and every crash keeps the invariant between files, ledger and what the pass has in memory |
| Board.ReadyHasNoActiveAttempt | src/inference_grid/board/runner.py:1533-1572 | in every reachable state a task file that says ready has no ACTIVE attempt |
| Board.AtMostOneActiveAttempt | src/inference_grid/board/runner.py:2204-2230 | no board task ever has two ACTIVE attempts |
| BoardObject.Runner.DispatchTask | src/inference_grid/board/runner.py:2208-2230 | the file is marked before admission and says ready again exactly when staging or admission was refused; when a lookup raises the pass ends with the file still marked; an admitted attempt ends with the file in a state other than ready |
| BoardObject.Runner.Admit | src/inference_grid/board/runner.py:585-654 | inputs staged or refused, then submitted under a fresh name, then a hundredth of a unit claimed on every window; a refusal or a missing account leaves no attempt |
| BoardObject.Runner.FindNewest | src/inference_grid/board/runner.py:1520-1529 | the attempt found is the last updated, ties broken by the ledger id |
| BoardObject.Runner.RequeueDead | src/inference_grid/board/runner.py:1533-1572 | a stranded task is made ready exactly when it has attempts, none is ACTIVE and the newest failed or was abandoned; finished work is reported and left |
| RetryIds.NextRetryId | src/inference_grid/board/new.py:111-139 | the loops end on any finite board and compute the specified id |
| RetryIds.RetryId | src/inference_grid/board/new.py:111-139 | the id of a retry is not on the board |
| RetryIds.NextFree | src/inference_grid/board/new.py:132-138 | the number is the first one from the start on that is not taken |
| RetryIds.FirstRetry | src/inference_grid/board/new.py:114-139 | the first retry of an id that continues no chain is numbered two |
| RetryIds.ChainReadsAsSequence | src/inference_grid/board/new.py:114-121 | on any board that holds a chain and not its next number, the last of the chain is retried under that number |
| RetryIds.SameRetryIdExactly | src/inference_grid/board/new.py:122-139 | two tasks are due the same next id exactly when their retries are numbered on the same base and every number between the two starts is taken |
| RetryIds.ChainIsDueOneId | src/inference_grid/board/new.py:122-139 | any two retries of a chain on the board are due one id |
| Failover.FailoverCandidates | src/inference_grid/board/failover.py:73-81 | the sorted list of exactly the lanes of another family that declare packets and have a packet kind |
| Failover.OtherFamiliesOnly | src/inference_grid/board/failover.py:73-116 | over every run with crashes, every successor written names a lane, and of the configuration it was decided on exactly the packet lanes whose family is not the failed one |
| Failover.FamilyKeptOutExactly | src/inference_grid/board/failover.py:73-116 | over every run a family has no lane in a successor exactly when it is known to be the failed one, or has no packet lane |
| FailoverObject.BoardDir.AuthorFailover | src/inference_grid/board/failover.py:119-183 | which of the five outcomes applies; an authored retry leaves the directory and the pass exactly as the five turns of the machine do, successor, superseded predecessor, copied brief and swap written out, and every other outcome leaves the directory as it was |
| Failover.AtMostOneSuccessor | src/inference_grid/board/failover.py:55-70 | over every run with crashes between the writes a task gets at most one authored successor, a failover task none, and every successor stands linked |
| Failover.NothingIsOverwritten | src/inference_grid/board/failover.py:161-168 | no write of an authoring replaces a task file but the predecessor's, or any brief, and what the history gains is the successor just written |
| FailoverRuns.CrashPoints | src/inference_grid/board/failover.py:163-182 | over every run, after a crash at any point of an authoring and a new pass: the task is due again exactly when nothing was written, has its successor exactly when that was, and is left with neither exactly when only the brief was |
| FailoverRuns.LostStaysDeclined | src/inference_grid/board/failover.py:163-165 | a retry so lost is written by no later pass, over any turns and on any lanes, while the board gives the task the same next id and the same brief |
| FailoverRuns.LostIsDueAgainExactly | src/inference_grid/board/failover.py:149-165 | at any later time it is due again exactly when others have taken the id and the next name is free |
| FailoverRuns.RetryIsLost | src/inference_grid/board/failover.py:163-168 | a run from the empty board that loses one |
| FailoverRuns.FailedLaneIsRetried | src/inference_grid/board/failover.py:84-116 | a run in which the failed family was not found and the successor names the lane that failed |
| RefreshStore.Server.Put | deployments/capacity/cloud_server.py:223-234 | a snapshot is stored exactly when it was captured later than the one there |
| RefreshStore.Server.ExpireRows | deployments/capacity/cloud_server.py:264-279 | the three statements in their order fail the overdue requests and delete those ended more than a day ago |
| RefreshStore.Server.RequestRefresh | deployments/capacity/cloud_server.py:281-296 | an open request is returned instead of a second one; a new one is made exactly when none is open |
| RefreshStore.Server.ClaimRefresh | deployments/capacity/cloud_server.py:310-329 | a queued request is claimed when none is collecting; none is claimed only when one is collecting or none is open |
| RefreshStore.Server.CompleteRefresh | deployments/capacity/cloud_server.py:331-342 | a collecting request, and no other, is ended with its outcome |
| RefreshStore.Server.GetRefresh | deployments/capacity/cloud_server.py:298-308 | the request asked for, or one with the latest time of request |
| RefreshStore.AtMostOneOpen | deployments/capacity/cloud_server.py:281-329 | in every reachable state at most one request is queued or collecting |
| RefreshStore.NoneOverdue | deployments/capacity/cloud_server.py:264-279 | after any operation none has been queued for over two minutes or collecting for over five |
| RefreshStore.CompletesInTime | deployments/capacity/cloud_server.py:331-342 | a completion succeeds exactly for a request that has been collecting for at most five minutes |
| RefreshStore.CompletedAtMostOnce | deployments/capacity/cloud_server.py:331-342 | a second completion under an id is that of another request for which the id was drawn again |
| RefreshStore.NeverAfterExpiry | deployments/capacity/cloud_server.py:264-279 | an expired request is never completed |
| RefreshStore.EndedIsFinal | deployments/capacity/cloud_server.py:331-342 | an ended request stays as it is until its row is deleted, and when that is |
| RefreshStore.SnapshotsAdvance | deployments/capacity/cloud_server.py:223-234 | stored snapshots have strictly increasing capture times, the last of them served |
| RefreshStore.TheLatestIsServed | deployments/capacity/cloud_server.py:223-234 | the snapshot served is the latest ever offered |
| Watch.Evaluate | src/inference_grid/watch.py:287-318 | the loops compute the specified delta and kept entries |
| Watch.IdIsInjective | src/inference_grid/watch.py:294-298 | a kind without the separator and a key make an identity of their own |
| Watch.Watcher.Watch | src/inference_grid/watch.py:368-375 | the state after a pass is what was kept, written or not |
| Watch.SilenceKeeps | src/inference_grid/watch.py:368-375 | with an empty delta the kept entries are the old ones |
| Watch.DeltasReplay | src/inference_grid/watch.py:287-318 | over any run a listener that takes only what fits follows every delta and ends with exactly the alarms of the last pass |
| Watch.RaisedAndClearedAlternate | src/inference_grid/watch.py:296-310 | over any run of passes, between two raises of an alarm it is cleared, and between two clearings raised |
| Watch.AnnouncementsAreApart | src/inference_grid/watch.py:303-307 | two announcements of an alarm not cleared in between are at least the interval apart |
| Watch.AnnouncedAgain | src/inference_grid/watch.py:296-307 | for any alarms and entries, exactly the current alarms of entries that are due are announced again, and these entries kept with only the time changed |
| Watch.AnnouncedSince | src/inference_grid/watch.py:288-307 | over any run, the announcement and the kept entry agree on the start exactly when the alarm names the start it was raised with |
| Watch.AnnouncedWithAnotherStart | src/inference_grid/watch.py:288-307 | two passes after which they do not |
| Brief.CutPacket | src/inference_grid/lanes/brief.py:60-73 | the loop over the headings cuts the specified section, or finds no such packet |
| Brief.CheckedIsCut | src/inference_grid/board/from_brief.py:121-138 | the check passes exactly the documents whose rules can be cut |
| BriefLaws.RulesOf | src/inference_grid/lanes/brief.py:76-82 | what is cut opens with the heading, is not closed inside, and ends visibly |
| BriefLaws.PrintedIsReadExactly | src/inference_grid/lanes/brief.py:60-82 | rules printed are read back; a section printed with them is read back exactly when it is one section of that packet or, where the rules hold a heading of it, exactly when it is what the rules say of it |
| BriefLaws.RulesAreReadFirst | src/inference_grid/lanes/brief.py:60-73 | for all rules that hold a heading of the packet, what is read runs from that heading to the next one or to the closing line, whatever the section says |
| BriefLaws.ComposedReadsBack | src/inference_grid/board/from_brief.py:141-144 | of every document, a composed brief gives the same rules, and the same packet exactly when something visible follows the packet's number or, where the rules hold a heading of it, exactly when its section is what the rules say of it |
| BriefLaws.ComposedLosesPacket | src/inference_grid/board/from_brief.py:141-144 | without such a heading the packet is not found at all exactly when nothing visible follows its number |
| BriefLaws.PacketBriefReadsBack | src/inference_grid/board/plan_task.py:280-317 | a packet brief gives the same rules, and the whole body exactly when it is one section (visible, with one packet heading and no phase heading) or, where the rules hold a heading of it, exactly when it is what the rules say of it |
| BriefLaws.HeadingInTheRulesIsFoundFirst | src/inference_grid/lanes/brief.py:62-72 | a document whose composed brief holds its section, and out of which another one is read |
| SectionSplice.SectionBounds | src/inference_grid/evaluation.py:159-175 | the two scans find the heading's first line and the next line of its level |
| SectionSplice.ReplaceSection | src/inference_grid/evaluation.py:188-199 | the new text is the specified one |
| SectionSplice.ExtractSection | src/inference_grid/evaluation.py:178-185 | the section taken out is the specified one |
| SectionSplice.ExtractAfterReplaceExactly | src/inference_grid/evaluation.py:178-199 | a section that opens with its heading and holds no second of its level is read back as it was spliced in exactly when its heading is not the empty string or was there before, and nothing follows it or its last character breaks a line (or it is a bare heading that the text ends with as well) |
| SectionSplice.ReplaceAfterReplace | src/inference_grid/evaluation.py:188-199 | a second replacement undoes the first, so replacing twice is replacing once |
| SectionSplice.OutsideSurvives | src/inference_grid/evaluation.py:188-199 | the lines outside the section survive in their place exactly when nothing follows it or its last character breaks a line |
| SectionSplice.AppendKeepsAll | src/inference_grid/evaluation.py:193-197 | where the heading is not, the whole text survives before the section, ended and followed by an empty line |
| SectionSplice.ReplaceWithExtracted | src/inference_grid/evaluation.py:178-199 | putting back what was taken out changes nothing |
| SectionSplice.BareHeadingReappears | src/inference_grid/evaluation.py:178-199 | a text in which a bare heading, not ended, is read back although it ran into the next heading |

## Left out

- SQL, the lock rows and the two database dialects: a transaction is one atomic step.
- Hashing, identifiers and random tokens: a digest stands for its value, a new attempt's identifier is its row number, and tokens are fresh.
- The clock: one reading serves each transaction, and readings may come in any order. Where the code reads it twice in one call, the model has one value.
- Type checks, not-a-number and infinity: quantities and times are reals, so refusals for values of the wrong type have no counterpart.
- Resolving the workspace path in `submit`, the payload of events beyond what decides a state, and the outbox table.
- Usage sums in outcomes and scorecard, and the order of the scorecard's rows. Of outcomes recorded at the same time the last in the log is the latest one, an order the query leaves open.
- The lanes and model catalogue tables, collected observations being published, and `cooldown_status`.
- Worker processes, files, sandbox and the polling loop: what they come to is a parameter of a delivery.
- The collector's parsing of a provider's reading, beyond which status it leads to.
- Packet attempts in the board's invariant: their loop finishes attempts outside the guarded part.
- Board: other actors never claim a ledger task under a name the board would take for its own, never write a file as ready other than by authoring a new task, and delete no task file. Landing, reviews, plans and merges are writes of a file to some other state.
- The event of a requeue, and the event of a failover as rows of the ledger's log: the failover's swap is kept as a list beside the files.
- Failover: others write task files and briefs between authorings, not during one, delete none, keep a file's link to its predecessor, and give a new file no such link but a copy of one on the board (`retry_task` copies it); attempts settling at the same time in several threads, and a successor that its own validation refuses, are not modelled.
- FailoverObject.BoardDir.AuthorFailover: takes the failed family and the wording of the swap as given, since finding the family in the ledger by the reason's text is a lookup of its own.
- `retry_task` and the other authors of task files; the 60-character limit of ids on retries; numerals longer than Python converts.
- Digits in packet headings and ids are the ASCII ones, where a pattern's digit class is wider.
- A watcher without a state file, or with an unreadable one: it starts from no entries.
- Whether an alarm holds, and the notifiers.
- Brief.PacketBody: the JSON block of a drafted packet is not modelled.
- Dashboards, HTTP handlers, reports, launch configuration and row cleaners.
