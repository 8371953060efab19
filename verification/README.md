# Verification of the outbound-calling protocols

A Dafny 4.11 model of the protocols of the outbound-calling backend that several workers, crashes and
restarts run through at once, and proofs of what they are for: nobody is called twice, no job and no
analysis is lost, provider work and spending stay bounded, scans and clean-up jobs equal their simple
specification although the data changes under them.

Verify with `dafny verify dfyconfig.toml`.

## How the model is built

- A protocol is a labelled transition system. Every step is one committed transaction, one Redis command
  (or script) or one provider request; a worker may stop for ever between any two of its steps. `Run` is
  any finite sequence of steps from the empty system, and the results hold in every state of every run.
- What a statement does to the rows is one function (`AnalysisRows`, `DialRows`, `LeaseStore`,
  `Retention.Act`, ...). The classes (`CallAnalysisRepository`, `Worker`, `CallStore`, `JobQueue`,
  `RedisLeases`, `AdmissionController`, `Controls`, `Engine`, `Lifecycle`) run the statements on fields
  in the order and with the branches of the source, and are proved equal to those functions.
- What a statement means is also written out field by field, without those functions: whom a look lets through
  (`DialLooks`), what outside reports make of a row (`DialReports`, and the contracts of `DialStore`), how
  an analysis is claimed and ends (`AnalysisFacts`, `AnalysisOutcomes`), what retention may touch
  (`RetentionFacts`).
- Files: `Analysis*` post-call analysis; `Dial*` the dial protocol (Dograh engine); `Lease*` concurrency
  leases; `Admission*` rate counters and their leases; `EnqueueScan` the keyset enqueue; `CallingWindow`
  the windows; `OutboundControl` kill switch and provider halt; `LifecycleData`, `Retention`, `Erasure` the
  data lifecycle; `Basics` sums and sizes.

## What the proofs show about the code

- **Dialling.** The unique attempt row alone does not make a held attempt safe: two workers could both
  resume it. What keeps it safe is the lease per job together with the commit order (claim, trigger,
  record, release, acknowledge), assuming no dial outlives its lease. `DialSafety.AtMostOneCall` is about
  one (contact, number).
- **Two numbers of one contact can be dialled at once.** A retry is taken on only once every earlier
  attempt stands, with one exception, in both directions (`DialOrder.OrderLostExactly`, over runs
  `EarlierStandIff`): a rebuild that takes on the attempt after one that is held or may yet be taken back
  (`Outruns`). It comes about so: a stale entry of a number that has its row is postponed (a paused
  campaign or a closed window is looked at before the row, `dispatch.py:126-150`) while its contact waits
  with empty columns. That writes a due time without a number (`Unnumbers`), and the rebuild reads the
  latest attempt plus one out of it (`rebuild.py:81-94`). Without such a postponement a rebuild takes on
  nothing (`RebuildTakesOnNothing`), with it the derived job can be taken on at once
  (`UnnumberedIsDerived`). `DialWitness.TwoDialsAtOnce` is a run from the empty system to two calls of one
  contact under way, three attempts spent and a count of two. Without `Outruns` one worker at most can
  write a contact's count, and the count is right (`OneWriterPerContact`, `AttemptsAreCounted`); exactly a
  look beside another writer brings a second one (`OneWriterIff`), and exactly a write of a stale count
  makes the count wrong (`AttemptsAreCountedIff`).
- **No job is lost, but for retries after named steps.** A first attempt is never lost
  (`DialLosses.NoJobIsLost`). A retry without a row lives in its contact's retry columns, and exactly three
  steps take it from there while the contact goes on waiting (`DialRetries.StrandedExactly`, in every
  reachable state, in both directions):
  - a webhook or late commit of an earlier attempt that schedules the retry after that one
    (`Overtakes`): it overwrites the columns of the later retry;
  - the dispatch of a stale schedule entry (`Clears`): for a number that has its row already
    `dispatch.py:144-150` clears the columns without asking whether they name that number;
  - a hold of another number that has the contact wait again over columns that do not name this retry
    (`Uncovers`), which needs a rebuild that outran an attempt (`DialOrder.OrderedHoldUncoversNothing`).

  `DialWitness.WaitingRetryIsOvertaken` and `WaitingRetryIsCleared` are runs from the empty system to the
  first two; after a wipe of Redis nothing remembers the retry.
- **A held retry lives in its stream message only.** A hold leaves the three retry columns cleared
  (`dialer_worker.py:697-700`, `1176-1177`), contrary to its comment, and the dispatcher never enqueues a
  number that has its row. The message is kept (`DialRetries.HeldRetryKeepsItsMessage`) unless the gate
  before a retry lets go of it, a closed window reschedules it, it is dead-lettered, Redis is wiped, or
  another delivery of it acknowledges it as the hold is recorded (`Forsakes`). The gate lets go of a retry
  held after an unresolved ambiguous trigger whenever the run listing answers: it re-reads the attempt of
  the very same number, finds the held row, and acknowledges the job (`dialer_worker.py:1006-1014`;
  `GateLetsGoIff` has the exact condition, `DialWitness.HeldRetryIsDropped` the run). A retry that
  nothing remembers any more is not dialled again (`DialLosses.ForgottenIsNotDialled`) unless a step revives
  it, exactly: it has no row, and recovery decides anew on it or a dispatch writes a due time into columns
  without a number (`RevivedExactly`). A held one is never revived.
- **A hold puts back what its worker once read.** In every run it writes the status and the count of the look,
  over whatever an operator, the sweeper or a webhook wrote since (`DialAccounting.HoldRestoresWhatWasLookedAt`).
  `DialWitness.ClosedContactIsReopened`: a contact closed while its trigger is out is PENDING again.
- **Bounded analysis work.** The bound `max_attempts + ceil(4 * deadline / (3 * base))` on claims is exceeded
  when a budget deferral lands after another worker has claimed and polled the same row:
  `DocumentedBoundExceeded` is a reachable state. It holds with one more claim for each such late
  deferral (`ClaimsAreBounded`), hence as documented when there is none.
- **FAILED_TERMINAL** is answered for every exhausted row; the row becomes terminal exactly when no live
  lease protects it (`Worker.HandleUnclaimed`).
- **Outbound control.** A change made by a process is seen by its later reads if no reader of the process
  is between its read and its store when the cache is reset (`QuietResetIsSeen`); otherwise the reader
  puts the old state back for up to the cache's life (`ResetCanBeUndone`), contrary to "invalidates it at
  once" (`outbound_control.py:12-13`).
- **Erasure** scrubs the rows that store the canonical form of the number, whether the request names a
  phone or a contact. After a granted request no contact keeps the line exactly when every contact of the
  line stores it in canonical form (`LineIsErasedIff`, and per contact `ErasedIffCanonical`);
  `OtherFormSurvives` has the input, for both kinds of request. Re-application compares canonical forms
  and does reach the others (`ReapplicationReachesEveryForm`).
- **A failed retention run** does not report the class it broke off in, although its earlier batches are
  committed; every other exit reports exactly what was removed (`Engine.RunRetention`).

## Model

| member | source | states |
|---|---|---|
| DialSafety.AtMostOneCall | backend/app/services/queue/dialer_worker.py:591-704 | in every state of every run, of two requests for one job the earlier was definitely rejected: at most one request per (contact, number) can have produced a call |
| DialSafety.TriggerIsSafe | backend/app/services/queue/dialer_worker.py:1204-1260 | whenever a trigger may leave, the attempt row stands without a call id, every earlier request for the job was rejected, and no other worker is on the job |
| DialSafety.NeverDialledAgain | backend/app/services/queue/dialer_worker.py:629-644 | a job whose row stands, with no worker who may still take it back, gets no further request in any continuation, through redelivery, reclaim, rescheduling, sweeps and Redis loss |
| DialSafety.SweeperNeverDials | backend/app/services/queue/stuck_call_sweeper.py:58-133 | a sweep sends and queues nothing, and what it takes over is never requested again unless a worker may still take its row back |
| DialLooks.RequestFollowsLook | backend/app/services/queue/dialer_worker.py:591-704 | in every run every request in the log was sent by a worker whose look let that job through, on a contact PENDING, DIALING or RETRY_SCHEDULED with every gate open, and which had done nothing since but claim it |
| DialLooks.LookClearsExactly | backend/app/services/queue/dialer_worker.py:591-704 | a look clears a job if and only if its contact may be called, nothing is paused, closed or forbidden, the final gate is open, the job has no row or one taken back by a hold, and the attempt before it is over; it remembers what the contact says |
| DialLooks.LookRefusesExactly | backend/app/services/eligibility_service.py:100-120 | the verdict not to dial is given if and only if the contact is gone, or the job is undialled, not paused, and not permitted or its contact not in a callable status |
| DialLooks.LookSettlesExactly | backend/app/services/queue/dialer_worker.py:591-650 | a job is settled if and only if it is undialled and its campaign is paused, or everything but the window allows it |
| DialLooks.LookKeepsExactly | backend/app/services/queue/dialer_worker.py:640-676 | a message is kept for later if and only if a trigger may be in flight, the listing before a retry failed and may be repeated, or the final gate is closed |
| DialLooks.LookResolvesExactly | backend/app/services/queue/dialer_worker.py:707-728 | an unresolved claim is taken up if and only if its row is in flight for longer than a trigger may take |
| DialLooks.LookAcknowledgesExactly | backend/app/services/queue/dialer_worker.py:629-660 | a message is acknowledged by a look if and only if the job was refused, has an outcome, or stops at the attempt before it |
| DialLooks.LookWritesExactly | backend/app/services/queue/dialer_worker.py:916-1032 | what a look writes: a retry given up, or a run found for the attempt before it; one run is adopted, of several none |
| DialProtocol.RunKeepsInv | backend/app/services/queue/dialer_worker.py:490-745 | the safety invariant (rows, request log, workers, stream) holds in every reachable state |
| DialProtocol.ClaimKeepsRows | backend/app/services/queue/dialer_worker.py:678-701 | claiming a job whose row does not stand leaves a standing row no earlier request can have reached, and the order of rows as it was |
| DialProtocol.HoldKeepsRows | backend/app/services/queue/dialer_worker.py:1141-1195 | a hold takes the row back without breaking the order of rows or the log |
| DialProtocol.ReopenKeepsRows | backend/app/services/queue/dialer_worker.py:965-1032 | adopting a run for the previous attempt before a retry disturbs no claim and no other job |
| DialLosses.NoJobIsLost | backend/app/services/queue/dialer_worker.py:319-457 | every job ever owed, in every state of every run including after crashes and a Redis wipe, has been answered (its attempt stands, it was refused, its contact moved on) or will be found again (enqueueing selects it and nothing stands in the way, the columns hold it, or its message is kept); for a retry on runs without a step that loses it, for a first attempt on all runs |
| DialLosses.FindableCanBeDelivered | backend/app/services/recovery/dispatch.py:91-196 | what will be found again can be had at once, or when its guard has expired: a first attempt is queued, a retry goes into the schedule and from there onto the stream, a held retry is delivered |
| DialLosses.ForgottenIsNotDialled | backend/app/services/recovery/dispatch.py:144-150 | a retry no message, schedule entry or column remembers gets no further request in any continuation without a step that revives it; a held one in no continuation at all |
| DialLosses.RevivedExactly | backend/app/services/recovery/rebuild.py:81-100 | a step revives a forgotten retry if and only if it has no row and recovery schedules this very number, or a dispatch that does not clear the columns writes a due time where they hold no number |
| DialLosses.RetryAckIsEarned | backend/app/services/queue/dialer_worker.py:573-588 | a worker turns to acknowledging a retry only because its attempt stands, it was refused, it has a schedule entry, the contact was given up, the previous attempt is in flight, or the gate took the held row for another delivery's work |
| DialRetries.StrandedExactly | backend/app/services/recovery/dispatch.py:144-150 | in every reachable state, a step leaves an open retry of a waiting contact unknown to PostgreSQL if and only if it schedules another retry of the contact meanwhile, dispatches a stale entry of it, or is a hold of another number that has the contact wait over columns that do not name the retry |
| DialRetries.StrandedOnlyBy | backend/app/services/recovery/manager.py:171-224 | over whole runs: without such a step the rebuild keeps finding the retry in the columns |
| DialRetries.StrandedMeans | backend/app/services/recovery/rebuild.py:81-100 | a retry without a row is the one after the latest attempt, and it is stranded exactly when its contact waits and the rebuild does not read it from the columns |
| DialRetries.HeldRetryKeepsItsMessage | backend/app/services/queue/dialer_worker.py:1141-1195 | over whole runs: without one of the named steps a held retry keeps a message that nobody is about to acknowledge |
| DialRetries.GateLetsGoIff | backend/app/services/queue/dialer_worker.py:965-1032 | exactly when the gate before a retry acknowledges or expires a held retry |
| DialWitness.HeldRetryIsDropped | backend/app/services/queue/dialer_worker.py:1006-1014 | a run from the empty system after which a held retry of a waiting contact has no message and is forgotten |
| DialWitness.WaitingRetryIsOvertaken | backend/app/services/recovery/manager.py:171-224 | a run in which a late webhook of attempt 1 overwrites the columns of waiting attempt 3, and a wipe then leaves nothing of it |
| DialWitness.WaitingRetryIsCleared | backend/app/services/recovery/dispatch.py:144-150 | a run in which the stale entry of attempt 2 clears the columns of waiting attempt 3, and a wipe then leaves nothing of it |
| DialWitness.ClosedContactIsReopened | backend/app/services/queue/dialer_worker.py:1165-1178 | a run in which a hold puts a contact closed meanwhile back to PENDING, where enqueueing selects it |
| DialWitness.TwoDialsAtOnce | backend/app/services/recovery/rebuild.py:81-100 | a run in which attempts 2 (held, resumed) and 3 (derived by the rebuild) of one contact are written by two workers, both call, and the count is wrong |
| DialOrder.OrderLostExactly | backend/app/services/recovery/rebuild.py:81-94 | in every reachable state in which earlier attempts stand, a step ends that if and only if it is a rebuild that takes on the attempt after one that does not stand for good |
| DialOrder.EarlierStandIff | backend/app/services/recovery/rebuild.py:81-94 | a whole run keeps the order of attempts if and only if it has no such rebuild |
| DialOrder.RebuildTakesOnNothing | backend/app/services/recovery/dispatch.py:126-138 | on runs without a postponed dispatch of an entry whose number has its row while its contact waits with empty columns, a rebuild takes on no new job |
| DialOrder.UnnumberedIsDerived | backend/app/services/recovery/dispatch.py:126-138 | right after such a dispatch the rebuild of the attempt after the latest is enabled, and outruns exactly if that one is not owed and the latest may not stand |
| DialOrder.OrderedHoldUncoversNothing | backend/app/services/queue/dialer_worker.py:1165-1178 | while earlier attempts stand no hold strands another retry |
| DialHomes.DispatchKeepsHomes | backend/app/services/recovery/dispatch.py:91-196 | no dispatch, whatever it finds, takes the home of a first attempt |
| DialHomes.AckIsEarned | backend/app/services/queue/dialer_worker.py:573-588 | a first attempt is acknowledged only if its attempt stands for good, it was refused, or the guard put on with this message is gone (retries: `DialLosses.RetryAckIsEarned`) |
| DialHomes.AckKeepsHomes | backend/app/services/queue/dialer_worker.py:586-588 | taking the message away leaves every first attempt done, or its way back open |
| DialHomes.DropGuardKeepsHomes | backend/app/services/queue/dialer_worker.py:346-350 | so does dropping the guard before the acknowledgement |
| DialHomes.HoldKeepsHomes | backend/app/services/queue/dialer_worker.py:1165-1195 | so does a provider-halt hold, for the held first attempt too |
| DialHomes.DeadLetterKeepsHomes | backend/app/services/queue/dialer_worker.py:213-256 | so does dead-lettering, whether or not its database write succeeds |
| DialAccounting.AttemptsAreCounted | backend/app/services/queue/dialer_worker.py:679-701 | in every state of a run without a rebuild that outruns an attempt, a contact's attempt count is the number of its attempts that are not held |
| DialAccounting.AttemptsAreCountedIff | backend/app/services/queue/dialer_worker.py:679-701 | the counts are right throughout a run if and only if no claim or hold writes a count made of one that is not the contact's any more |
| DialAccounting.OneWriterPerContact | backend/app/services/queue/dialer_worker.py:678-704 | in every state of a run without a rebuild that outruns an attempt, at most one worker holds a count of a contact it will write back |
| DialAccounting.OneWriterIff | backend/app/services/queue/dialer_worker.py:678-704 | no contact ever has two writers in a run if and only if no look clears a job of a contact another worker is at |
| DialAccounting.HoldUndoesClaim | backend/app/services/queue/dialer_worker.py:1097-1195 | claim then hold restores status and count and every other row exactly, and clears the retry columns |
| DialAccounting.HoldRestoresWhatWasLookedAt | backend/app/services/queue/dialer_worker.py:1165-1178 | in every run a hold writes status and count of its worker's look and leaves the retry columns; the status it overwrites is the claim's DIALING, or another step wrote it since |
| DialStore.CallStore.GetOrCreate | backend/app/repositories/call_attempt_repository.py:46-73 | one row per key afterwards, created by exactly one caller, an existing or rival row returned unchanged |
| DialStore.CallStore.ClaimAttempt | backend/app/services/queue/dialer_worker.py:678-701 | wins and writes exactly as the protocol's claim, field by field; remembers the prior status and count; a lost insert race leaves the contact alone |
| DialStore.CallStore.HoldForProviderHalt | backend/app/services/queue/dialer_worker.py:1165-1178 | attempt marked held, status and count put back, retry columns and everything else as they were |
| DialStore.CallStore.RecordTriggerFailure | backend/app/services/queue/dialer_worker.py:748-795 | attempt failed with the given event, contact as recovery decides, nothing else |
| DialStore.CallStore.ResolveFoundRuns | backend/app/services/queue/dialer_worker.py:845-893 | exactly one run is adopted as the call id, of several none and the call id stays; the other fields and rows as they were |
| DialStore.CallStore.Reconcile | backend/app/services/queue/dialer_worker.py:896-913 | resolved exactly when the listing was available and not empty |
| DialStore.CallStore.RecordAnswer | backend/app/services/queue/dialer_worker.py:1244-1377 | for every provider answer, field by field, what row and contact become: accepted takes the run, a single listed run is adopted, several are not, a failure is recorded and recovery followed; holds exactly on configuration and systemic failures; equal to the protocol's record |
| DialStore.CallStore.ResolveUnresolvedClaim | backend/app/services/queue/dialer_worker.py:707-745 | which of the four outcomes, exactly when; waiting or resolved claims change nothing, an orphan adopts a single run, chooses none of several, or fails as ambiguous, never triggered |
| DialStore.CallStore.SelectStuck | backend/app/services/queue/stuck_call_sweeper.py:80-96 | at most `limit` unlocked stuck attempts, oldest first, none older left out |
| DialStore.CallStore.SweepStuckAttempts | backend/app/services/queue/stuck_call_sweeper.py:58-96 | exactly the selected attempts are taken out of flight and their contacts parked; a blocked sweep does nothing |
| DialStore.CallStore.MarkForReview | backend/app/services/queue/stuck_call_sweeper.py:99-133 | contact parked; a row without a call id failed and ambiguous, still open to a late webhook; as the protocol's sweep step leaves them |
| DialStore.SweptIsNotStuckAgain | backend/app/services/queue/stuck_call_sweeper.py:73-96 | a sweep removes exactly the swept contact's attempts from every later selection |
| DialReports.CallIdIsReported | backend/app/services/queue/dialer_worker.py:845-913 | in every state of every run a call id on a row is one the provider reported for that job earlier: an accepted answer, the only run of a listing, or a webhook |
| DialReports.AnswerIsLogged | backend/app/services/queue/dialer_worker.py:1244-1377 | in every run the answer a worker is about to record is in the log of requests |
| DialReports.WebhookLands | backend/app/services/telephony/dograh_webhook_service.py:229-430 | a completion webhook is taken exactly for a row in flight or failed ambiguously without a run; what it makes of row, contact, columns and the next retry |
| DialReports.SweepLands | backend/app/services/queue/stuck_call_sweeper.py:99-133 | exactly which attempts a sweep may take; a row without a call id fails as ambiguous, so a late webhook finds it open |
| DialReports.DeadLetterParks | backend/app/services/queue/dialer_worker.py:213-256 | a dead letter parks its contact, with cleared columns, exactly if that write works and it was PENDING or RETRY_SCHEDULED |
| DialReports.DispatchQueuesExactly | backend/app/services/recovery/dispatch.py:144-196 | a due retry goes onto the stream exactly if nothing is against it, its contact waits, it has no row and no guard |
| DialReports.DispatchWritesColumns | backend/app/services/recovery/dispatch.py:105-202 | exactly when a dispatch clears the three columns, and that it writes the due time alone otherwise |
| DialReports.FirstAttemptsAreQueued | backend/app/services/recovery/dispatch.py:232-275 | first attempts go onto the stream, from enqueueing or from the schedule, exactly if PENDING, unspent and unguarded |
| DialReports.RebuildReads | backend/app/services/recovery/rebuild.py:46-100 | exactly which retries a rebuild reads from the contact rows |
| DialReports.LeaveGoesOn | backend/app/services/queue/dialer_worker.py:573-588 | a worker that leaves gives its lease back and then acknowledges, keeps or settles, as decided |
| DialSettling.JobQueue.SettlePaused | backend/app/services/queue/dialer_worker.py:319-365 | which disposition, exactly when; wherever the worker dies, a message is gone only if the job can be enqueued at once or was dialled |
| DialSettling.JobQueue.SettleOutsideWindow | backend/app/services/queue/dialer_worker.py:387-457 | the same for a closed window: the schedule entry exists before the guard goes, the guard is gone before the message |
| AnalysisProtocol.RunKeepsInv | backend/app/services/analysis/repository.py:107-353 | every reachable state satisfies the row, worker and ledger invariant |
| AnalysisProtocol.ReachableRow | backend/app/services/analysis/repository.py:107-353 | 0 <= attempts <= max; PROCESSING has token and lease; RETRY_WAIT has a due time and attempts < max; at most one terminal write and one reservation per row |
| AnalysisProtocol.TerminalIsForever | backend/app/services/analysis/repository.py:193-300 | a finished row never changes again, in any column |
| AnalysisProtocol.SupersededIsForever | backend/app/services/analysis/repository.py:193-208 | a superseded token stays superseded and every write under it leaves rows and ledger unchanged |
| AnalysisProtocol.ClaimsAreBounded | backend/app/services/analysis/worker.py:451-518 | claims of one analysis are at most max_attempts + ceil(4*deadline/(3*base)) + late deferrals |
| AnalysisLateDeferral.DocumentedBoundExceeded | backend/app/services/analysis/repository.py:156-191 | a reachable state with more claims than the bound without late deferrals |
| AnalysisLateDeferral.DocumentedBoundWithoutLateDeferral | backend/app/services/analysis/failure.py:94-101 | without a late deferral the documented bound holds on every run |
| AnalysisProtocol.LedgerIsConserved | backend/app/services/analysis/budget.py:47-93 | each day's ledger is the sum of the reservations charged to it and within the cap; releasing never reaches the clamp |
| AnalysisProtocol.DeniedClaimChangesNothing | backend/app/services/analysis/repository.py:107-169 | a refused reservation leaves row and ledger as they were |
| AnalysisProtocol.SweeperCoversEveryRow | backend/app/services/analysis/sweeper.py:159-205 | from a computable instant on every unfinished row left alone is finalized or published, and what is published is claimable |
| AnalysisProtocol.SweepThenClaim | backend/app/services/analysis/repository.py:305-353 | one sweep and one delivery after that instant settle the row: failed, claimed, or deferred by the budget; a live lease is never finalized |
| AnalysisOutcomes.EndsIff | backend/app/services/analysis/repository.py:210-353 | in every state of every run a row is COMPLETED if and only if its owner committed a success, SKIPPED if and only if it committed that there is nothing to analyse, FAILED if and only if it committed a final failure or a sweep found the row exhausted |
| AnalysisOutcomes.WriteFollowsVerdict | backend/app/services/analysis/worker.py:421-518 | the write a worker decides on leaves the row in the status its conclusion calls for |
| AnalysisOutcomes.RegisteredWaits | backend/app/services/analysis/admission.py:72-112 | a registered analysis can be claimed exactly from its initial delay on, and is put on the queue by a sweep at once only if unpublished and without delay |
| AnalysisOutcomes.RenewalExactly | backend/app/services/analysis/repository.py:193-216 | a renewal extends the lease exactly if the row is still its owner's, otherwise the worker stops and nothing changes |
| AnalysisFacts.ConditionsAgree | backend/app/services/analysis/repository.py:107-169 | claimable, exhausted and due for the queue, written out on the columns |
| AnalysisFacts.BudgetDayHolds | backend/app/services/analysis/budget.py:43-45 | the budget's day is the day that holds the instant |
| AnalysisTiming.PollDelayBounds | backend/app/services/analysis/failure.py:94-101 | a poll waits between 3/4 base and the cap, never shorter as the wait grows |
| AnalysisTiming.BackoffDelayBounds | backend/app/services/analysis/failure.py:77-91 | a backoff lies between half the base and the cap and honours Retry-After up to the cap |
| AnalysisTiming.BackoffDoubles | backend/app/services/analysis/failure.py:77-91 | the undithered delay starts at the base and doubles with every attempt, up to the cap |
| AnalysisTiming.BackoffSpread | backend/app/services/analysis/failure.py:77-91 | jitter spreads it evenly over its upper half; Retry-After raises it, at most to the cap |
| AnalysisTiming.PollFollowsAge | backend/app/services/analysis/failure.py:94-101 | at full jitter a poll waits half the age so far between base and cap, without jitter three quarters of that |
| AnalysisRepository.CallAnalysisRepository.ReserveBudget | backend/app/services/analysis/budget.py:47-79 | refused exactly when out of budget, else charged to row and ledger; equal to the reservation transaction |
| AnalysisRepository.CallAnalysisRepository.ClaimForProcessing | backend/app/services/analysis/repository.py:107-169 | claimed, deferred or not, exactly when; what the claimed row, its reservation and the ledger become, field by field; equal to the claim transaction with its savepoint |
| AnalysisRepository.CallAnalysisRepository.Defer | backend/app/services/analysis/repository.py:171-191 | only a PENDING or RETRY_WAIT row is rescheduled |
| AnalysisRepository.CallAnalysisRepository.Fenced | backend/app/services/analysis/repository.py:193-208 | applied exactly under the current token of a PROCESSING row; otherwise nothing changes |
| AnalysisRepository.CallAnalysisRepository.ScheduleRetry | backend/app/services/analysis/repository.py:233-257 | fenced retry, the attempt given back only when asked |
| AnalysisRepository.CallAnalysisRepository.Skip | backend/app/services/analysis/repository.py:274-300 | fenced skip; the reservation returns to the ledger only if the write applied |
| AnalysisRepository.CallAnalysisRepository.ReturnBudget | backend/app/services/analysis/budget.py:82-93 | the day's ledger lowered by the cost, clamped at zero |
| AnalysisRepository.CallAnalysisRepository.FinalizeExhausted | backend/app/services/analysis/repository.py:305-353 | exactly the chosen exhausted rows without a live owner fail, rows locked elsewhere are passed over; all the others if fewer than the limit match |
| AnalysisRepository.CallAnalysisRepository.PublishDue | backend/app/services/analysis/sweeper.py:159-205 | exactly the rows whose job was queued are marked published, in order of due time, rows locked elsewhere passed over; a pass without error below the batch limit leaves no unlocked row due |
| AnalysisWorker.Worker.HandleUnclaimed | backend/app/services/analysis/worker.py:205-242 | always acknowledges; which outcome, exactly when; the row becomes terminal exactly when it is exhausted without a live lease and not locked by a sweep |
| AnalysisWorker.Worker.PersistFailure | backend/app/services/analysis/worker.py:421-518 | for exactly which failures the row is SKIPPED, RETRY_WAIT with which due time, or FAILED, with attempts, reservation and ledger in each case; a stale worker changes nothing |
| AnalysisWorker.Worker.PersistSuccess | backend/app/services/analysis/worker.py:331-385 | under the fence the row is COMPLETED with attempts and reservation kept, otherwise nothing changes; acknowledged either way |
| AnalysisWorker.Worker.PersistSkip | backend/app/services/analysis/worker.py:388-418 | under the fence the row is SKIPPED and its reservation goes back to the ledger, otherwise nothing changes |
| AnalysisWorker.Worker.PersistRetry | backend/app/services/analysis/worker.py:521-560 | under the fence the row is RETRY_WAIT with that due time, the attempt given back only when asked, otherwise nothing changes |
| LeaseProtocol.RunRefines | backend/app/services/queue/concurrency_lease.py:55-141 | every reachable Redis state, with lazy pruning and key expiry, refines a simple table of leases |
| LeaseProtocol.AcquireAnswers | backend/app/services/queue/concurrency_lease.py:55-93 | the acquire script answers exactly as the simple table does |
| LeaseProtocol.RenewAnswers | backend/app/services/queue/concurrency_lease.py:95-129 | so does the renew script |
| LeaseProtocol.ReleaseAnswers | backend/app/services/queue/concurrency_lease.py:131-141 | a live lease is released and reported; reported exactly when some scope still stores it; never twice |
| LeaseProtocol.EvictionKeeps | backend/app/services/queue/concurrency_lease.py:84-92 | no key expiry drops a live lease |
| LeaseProtocol.ReachableLeases | backend/app/services/queue/concurrency_lease.py:55-141 | live leases per scope never exceed the limit; each is in all three scopes with one expiry, its holder record names it, one per holder |
| LeaseProtocol.ForeignHandleIsHarmless | backend/app/services/queue/concurrency_lease.py:95-141 | renew or release by any other handle leaves a live lease, its scopes and its holder record as they were |
| LeaseProtocol.DeadForever | backend/app/services/queue/concurrency_lease.py:95-141 | a released or expired lease is never revived |
| LeaseStore.RedisLeases.Acquire | backend/app/services/queue/concurrency_lease.py:55-93 | the scripted loop over scopes equals the acquire transaction: all three scopes and the holder, or nothing but pruning |
| LeaseStore.RedisLeases.Renew | backend/app/services/queue/concurrency_lease.py:95-129 | equals the renew transaction |
| LeaseStore.RedisLeases.Release | backend/app/services/queue/concurrency_lease.py:131-141 | equals the release transaction |
| AdmissionRates.RateIsSafe | backend/app/services/queue/admission_controller.py:115-172 | under any interleaving, crash or rollback no second admits more than a scope's limit, and no live counter falls below the admitted |
| AdmissionRates.BumpExactly | backend/app/services/queue/admission_controller.py:128-142 | an increment goes on exactly if its counter, one higher, is within the limit, else the rollback begins |
| AdmissionLeases.NoCallNoLease | backend/app/services/queue/admission_controller.py:115-168 | in every run of counters and lease scripts together, an admission that ended on rate or by an error has no live lease in the table, then and ever after, unless the command that gives it back did not reach Redis |
| AdmissionLeases.LiveLeaseIsOwned | backend/app/services/queue/admission_controller.py:115-168 | every live lease belongs to an admission under way or admitted, unless its grant was not answered or its release did not reach Redis |
| AdmissionLeases.AdmissionKeepsLease | backend/app/services/queue/admission_controller.py:115-168 | the lease of an admission stays in the table for its handle until somebody releases it |
| AdmissionLeases.RunsOfBoth | backend/app/services/queue/admission_controller.py:115-172 | a run of the whole is a run of the rate counters and a run of the lease protocol, so what is proved of each holds of it |
| AdmissionControl.AdmissionController.Admit | backend/app/services/queue/admission_controller.py:92-168 | admitted exactly when breaker, lease and all three counters allow and no command fails; each counter then one higher; a rate rejection restores the counters; an error at any command leaves exactly the counters raised and not yet lowered; rejection and error, a lost reply to the grant included, give the lease back if the release reaches Redis |
| AdmissionControl.AdmissionController.CountCall | backend/app/services/queue/admission_controller.py:128-142 | counts in all three scopes or in none; a failing INCR or DECR leaves exactly what was done until then |
| AdmissionControl.AdmissionController.Rollback | backend/app/services/queue/admission_controller.py:170-172 | undoes exactly the increments made, up to a DECR that fails |
| EnqueueScan.EnqueueCampaign | backend/app/services/queue/enqueue_service.py:64-214 | no contact twice and none jumped over; a contact is skipped exactly if suppressed at its page and any other offered to the queue; each counter is the number of contacts with that answer, at every exit, a Redis or database error included; a complete run handled every contact that stayed eligible; an incomplete one leaves one unhandled |
| EnqueueScan.Scan | backend/app/services/queue/enqueue_service.py:96-141 | the keyset loop over a table that changes between pages: coverage, soundness, termination, the log of what was done with each contact, and which refusal or read ended it |
| EnqueueScan.HandlePage | backend/app/services/queue/enqueue_service.py:110-136 | a page handled in order up to the point that stops it: suppressed contacts skipped and never offered, the others offered once and counted by the queue's answer |
| EnqueueScan.PageIsSound | backend/app/repositories/contact_repository.py:66-82 | a page holds only eligible contacts after the cursor, increasing |
| EnqueueScan.PageMissesNone | backend/app/repositories/contact_repository.py:66-82 | no eligible contact after the cursor is skipped by a page |
| CallingWindow.NextWindowOpen | backend/app/services/calling_window.py:97-137 | raises exactly on a bad window, says never exactly when no instant is dialable, else the earliest dialable instant not before now; the three-day search never comes back empty |
| CallingWindow.DialableMeansOpen | backend/app/services/calling_window.py:68-86 | dialable exactly when the local time of day is in both windows, overnight windows included |
| CallingWindow.WithinBoundIsInclusion | backend/app/services/calling_window.py:89-94 | the save-time check holds exactly when every time of day of the window is in the hard bound |
| CallingWindow.AcceptedPolicyNeedsNoClamp | backend/app/services/calling_window.py:75-94 | for an accepted policy the clamp changes nothing and an opening always exists |
| CallingWindow.OpenSpansMeanOpen | backend/app/services/calling_window.py:46-59 | the intersected spans are exactly the open times of day |
| CallingWindow.BestIsEarliest | backend/app/services/calling_window.py:112-137 | the best of three days of candidates is the earliest opening |
| OutboundControl.ReadsAreRecent | backend/app/services/outbound_control.py:98-117 | any value a read returns was the committed state at one instant less than the cache's life before the read began, slow readers included |
| OutboundControl.TransitionsAlternate | backend/app/services/outbound_control.py:124-193 | successful engages and releases of a control alternate over any interleaving |
| OutboundControl.AuditIsExact | backend/app/services/outbound_control.py:133-169 | the audit trail is exactly the audited engages that changed something |
| OutboundControl.OneEventPerMove | backend/app/services/outbound_control.py:133-169 | when every engage of a control is audited its audit events are as many as the off-to-on moves the committed tables show |
| OutboundControl.QuietResetIsSeen | backend/app/services/outbound_control.py:78-82 | after a reset with no reader between read and store no later read of the process is older |
| OutboundControl.ResetCanBeUndone | backend/app/services/outbound_control.py:107-117 | with such a reader the next read returns the old state |
| OutboundControl.ForcedReadIsFresh | backend/app/services/outbound_control.py:98-117 | in every run a read told not to use the cache returns what the database held after it began |
| OutboundControl.Controls.Engage | backend/app/services/outbound_control.py:124-169 | true exactly on an off-to-on move, with reason and category clipped and the instant recorded; one audit event exactly then; a failure changes nothing |
| OutboundControl.Controls.Release | backend/app/services/outbound_control.py:172-193 | true exactly on an on-to-off move, no audit event |
| OutboundControl.Controls.ReadAll | backend/app/services/outbound_control.py:98-117 | a hit exactly within the cache's life; a failed read is neither cached nor read as off |
| Retention.Engine.RunRetention | backend/app/services/data_lifecycle/retention.py:385-440 | a dry run only counts; row by row, at every exit only what may go is gone, and after a completed run all of it (`RetentionFacts.Leaves`); a partial or failed one can be completed to the same state; what is reported is what was removed, but for the class a failed run broke off in; one finishing record at every exit |
| Retention.CleanIsExact | backend/app/services/data_lifecycle/retention.py:124-294 | of an unbounded run, on the rows themselves: a row is deleted or cleared if and only if it is older than its class's period and no hold, unfinished analysis, open campaign or own run excludes it |
| Retention.AlwaysStays | backend/app/services/data_lifecycle/retention.py:132-136 | whatever the periods, the input and text of an unfinished analysis, the numbers of a campaign not closed, and the run's own row stay |
| Retention.DueIsWhatGoes | backend/app/services/data_lifecycle/retention.py:124-294 | the eight selectors pick exactly the rows that may go |
| Retention.Engine.WorkOff | backend/app/services/data_lifecycle/retention.py:418-432 | one class in batches under the runtime budget: ends, counts what it removed, touches no other class; a failing transaction, its commit lost or not, keeps the outcome |
| Retention.BatchKeepsOutcome | backend/app/services/data_lifecycle/retention.py:297-307 | any batch of still-due rows leaves the outcome of the unbounded run unchanged |
| Retention.BatchShrinksItsClass | backend/app/services/data_lifecycle/retention.py:124-294 | a batch removes exactly its rows from its own candidates |
| Retention.BatchKeepsOtherClasses | backend/app/services/data_lifecycle/retention.py:124-294 | and no candidate of any other class |
| Retention.CleanLeavesNothingDue | backend/app/services/data_lifecycle/retention.py:324-335 | after a run nothing is due in the classes it went through, the others as before |
| Retention.DryRunAfterwardsCountsZero | backend/app/services/data_lifecycle/retention.py:412-417 | a dry run at the same instant under another run id counts zero |
| Retention.RunIdDoesNotMatter | backend/app/services/data_lifecycle/retention.py:287-291 | completing a run later, under another id, at the same instant gives the same state |
| Retention.CleanIsStable | backend/app/services/data_lifecycle/retention.py:385-440 | running again at the same instant changes nothing |
| Retention.HeldRowsAreKept | backend/app/services/data_lifecycle/holds.py:16-26 | contact, sessions, messages, snapshots, analyses and audit rows under a legal hold come through unchanged |
| Retention.NumbersStayUnique | backend/app/services/data_lifecycle/retention.py:244-258 | UNIQUE(campaign, number) survives every run |
| LifecycleData.ScrubKeepsUnique | backend/app/services/data_lifecycle/fingerprint.py:31-34 | placeholders made of contact ids keep numbers unique for any set of contacts |
| Erasure.Lifecycle.Erase | backend/app/services/data_lifecycle/erasure.py:133-211 | every error case exactly; a hold on any covered contact, its own or its campaign's, changes nothing; otherwise exactly the scrub, one suppression, and one record whose four counts are the rows actually changed |
| Erasure.LineIsErasedIff | backend/app/services/data_lifecycle/erasure.py:145-183 | after a granted request, by phone or by contact, no contact keeps the line if and only if every contact of the line stored it in canonical form |
| Erasure.ErasedIffCanonical | backend/app/services/data_lifecycle/erasure.py:145-183 | contact by contact: of the line asked for, number and content are gone if and only if it is stored in canonical form; every other contact keeps everything; a repeat finds nothing |
| Erasure.OtherFormSurvives | backend/app/services/data_lifecycle/erasure.py:145-170 | a concrete second contact of the line that keeps number and message after a request by phone, by the first contact or by itself |
| Erasure.CountsAreChanges | backend/app/services/data_lifecycle/erasure.py:56-118 | every count of an erasure is the number of rows it changed or deleted |
| Erasure.ReapplicationReachesEveryForm | backend/app/services/data_lifecycle/erasure.py:246-285 | after re-application only held contacts keep a logged line, in whatever form they store it |
| Erasure.ScrubErases | backend/app/services/data_lifecycle/erasure.py:56-118 | number, messages, links, snapshots and analysis text of a scrubbed contact are gone and its status cannot be dialled |
| Erasure.ScrubSparesOthers | backend/app/services/data_lifecycle/erasure.py:56-118 | every other contact and its content is unchanged |
| Erasure.ScrubsAddUp | backend/app/services/data_lifecycle/erasure.py:260-276 | scrubbing page after page equals scrubbing all at once |
| Erasure.Lifecycle.NextPage | backend/app/services/data_lifecycle/erasure.py:228-243 | a page is the smallest unpurged ids after the cursor |
| Erasure.Lifecycle.ReapplyErasures | backend/app/services/data_lifecycle/erasure.py:246-285 | paging over the set it shrinks scrubs exactly the unheld unpurged contacts whose fingerprint is logged; the counts are the same dry or applied |
| Erasure.ReapplicationIsComplete | backend/app/services/data_lifecycle/erasure.py:246-285 | afterwards only held matches remain and a second application has nothing to do |
| Erasure.MatchesMean | backend/app/services/data_lifecycle/erasure.py:246-285 | who is unpurged, whose number is logged in canonical form, and whom no hold of their own or of their campaign covers |
| Erasure.ScrubKeepsNumbersUnique | backend/app/services/data_lifecycle/erasure.py:111-118 | erasure keeps numbers unique per campaign |

## Assumptions

- One monotone clock; times are exact (no microsecond rounding). Tokens, lease ids and message ids never
  repeat. Jitter is any value in [0, 1]. Settings do not change during a run. The budget's time zone and
  a campaign's zone have a fixed offset.
- Dialling: a worker keeps its lease until it has recorded the answer and released it, so a lease expires,
  and Redis is wiped, only while no dial of it is under way. The provider has a run for an attempt only if
  a request for it was not definitely rejected, and the listing before a retry shows one only then.
- Leases: a Redis key is visible up to and including its expiry instant; the lease life is constant.
- Rate counters: one admission finishes within the life of its counter keys.
- Scheduling a retry and the commit that decides it are one step. The code adds the schedule entry first; an
  entry dispatched before the commit is dropped, which the model allows at any time, and an entry whose commit
  then fails is not modelled. Entries may be rebuilt from the retry columns at any time.

## Left out

- ClaimsAreBounded: the bound has one more claim per late deferral than documented, because the documented one is false of the code (`DocumentedBoundExceeded`).
- NoJobIsLost: for a retry, only on runs without the steps that lose it, because the code loses it there (`StrandedExactly`, `GateLetsGoIff`, `DialWitness`).
- AttemptsAreCounted: only on runs without a rebuild that outruns an attempt, because the code miscounts there (`AttemptsAreCountedIff`, `TwoDialsAtOnce`).
- OneWriterPerContact: likewise (`OneWriterIff`, `TwoDialsAtOnce`).
- ForgottenIsNotDialled: not through a step that revives the retry (`RevivedExactly`).
- ReadsAreRecent: nothing is said about a process's own changes beyond the cache's life; see `QuietResetIsSeen`.
- The look of a dial worker at contact, attempts and gates is one step; the code reads them in one transaction around the run listing, and re-reads the previous attempt under a lock as modelled.
- NOT_ADMITTED leaves the job unacked like a hold but without resetting its delivery counter; delivery counters are not modelled, dead-lettering may happen to any message at any time.
- Due times of schedule entries: an entry may be dispatched at any time.
- Spend cap, kill switch and provider halt are an arbitrary yes or no for the dialer (spend_cap.py is documented as approximate).
- Moving a contact to another campaign, and `requeue_after_resume`'s report, are not modelled.
- Events, audit rows of the dial and analysis protocols, and error texts are reduced to what a decision reads.
- RecoveryManager's policy is an arbitrary decision (retry, stop with a status, undecided); transcript fetching, the LLM and its parsing are an arbitrary outcome.
- The native and mock calling engines, the conversation code, routes, migrations, backup, the frontend, lead scores, masking and dashboards.
- Daylight-saving transitions of calling windows, where the earliest opening can be missed.
- The last four digits and the reason an erasure records.
