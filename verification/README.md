# Verified models of a language-exchange server

This project models the stateful cores of the server in Dafny and proves what every run of their operations keeps.
Each core has the same layout: specification functions on a value that holds the whole state, a class whose methods
update fields in place as the program does and are proved equal to those functions, and modules of theorems over all
runs, that is over every sequence of calls with arbitrary arguments, outcomes and clocks. Beside what runs keep, each
core has a module (`*Runs`, `*Windows` or `*Outcomes`) that says, in the columns of the records and in plain numbers
only, whom each operation lets through, whom it refuses, and what it leaves behind: both directions, so that an
operation that refuses too much or grants too much contradicts it.

- **Attachment objects** (`AttachmentObjectLedger`, `AttachmentCleanupLedger`, `AttachmentSupervision`,
  `AttachmentSendRecord`, `AttachmentProtocol`, `AttachmentSafety`, `AttachmentTheorems`, `AttachmentPutRuns`,
  `AttachmentLeaseRuns`, `AttachmentSupervisionRuns`, `AttachmentSchema`). Two ledgers that never call each other
  share object and job rows. Their joint safety, never deleting while a write is in doubt and never writing after
  cleanup has claimed, follows from an invariant on rows and on the claims handed out. The record of sends, with its
  handles, certificates and closures, runs beside them: what is abandoned was never sent. Which results are accepted
  and which workers are granted a deletion is stated exactly, over runs. The database checks, keys and triggers are
  modelled a second time, from the SQL, as an independent reference.
- **Attachment quotas** (`AttachmentQuota*`). Bounded counters changed in batches under one lock order: conservation
  between subjects and deployment, deadlock freedom for any number of transactions, and, with the row locks held to
  the end, overlapping transactions that commit what a serial run in commit order would. The limits per hour, day and
  minute are stated about the times of the committed operations alone (`AttachmentQuotaWindows`).
- **AI requests** (`AiQuota`, `AiRuntime`, `AiAccounting`, `AiLoss`, `AiOutcomes`, `AiReconciliation*`). A request is
  a machine whose steps are the stretches between two awaits, so all requests interleave at every await; providers and
  the usage ledger may fail in any way. Reservations never leak, tokens are accounted for, how a call ends follows
  from what it was answered, and the auditor accepts what the runtime writes.
- **Events** (`Event*`). The incrementally maintained waitlist against sorting from scratch, and the reminder table
  that follows it through every service call. Who is let in, who moves up and what is written for them.
- **Accepted responses** (`Corrections`, `CorrectionsRuns`, `CorrectionOutcomes`). Cascading invalidation of library
  candidates, three separately written eligibility checks that agree, and an event log from which the current
  acceptances can be replayed.
- **Post search** (`PostPaging`, `PostWalks`, `PostWalkAccounts`, `PostOutcomes`). Keyset paging with a bounded refill
  while posts and their usefulness counts change between any two repository calls.
- **Challenges** (`Challenges`, `ChallengeRuns`, `ChallengeOutcomes`). Exactly-once progress accounting. The replay
  key is modelled as in the in-memory repository, by challenge, activity type and source without the user; the
  Postgres repository keys by challenge, user and key.
- **Hint stream** (`HintStream`, `HintStreamRuns`, `HintOutcomes`). One server-sent event stream whose setup,
  subscriber, timer, ticks and abort signal interleave at every await, including the teardown that re-enters `stop`.

Some properties one might expect are false of the code and are stated with the condition under which they hold.

- The waitlist is the from-scratch one iff nobody waits behind a later arrival. A tie in registration time breaks this
  (`EventWaitlist.TieBreaksOrder`) and a strictly increasing clock restores it.
- When all requests are done, used AI tokens equal the recorded ones iff no append of a SUCCEEDED record with tokens
  failed on the way (`AiLoss.LedgersAgreeExactly`). The retry loop can settle tokens, lose the success record and end
  with a FAILED one (`AiLoss.SettledTokensCanGoUnrecorded`).
- A search sorted by usefulness can return a post twice or miss one that was available throughout
  (`PostWalks.FallingCountRepeats`, `PostWalks.RisingCountIsMissed`). It returns a post once for each batch at which
  the post is available with its place in the batch's stretch of the listing (`PostWalkAccounts.WalkReturnsExactly`),
  so it repeats one iff two batches hold it, whose count then fell in between, and misses one iff no batch holds it.
  Sorted by newest, neither happens.

Modelling conventions: identifiers are opaque numbers with a total order, dates are integers in milliseconds, a
fingerprint is the tuple that is hashed, and a random identifier is one not used before. `dafny verify dfyconfig.toml`
checks the whole project.

## Model

| member | source | states |
|---|---|---|
| `AttachmentObjectLedger.Ledger.ClaimPutOn` | src/attachments/attachment-object-ledger.ts:21-30 | Row updates of a PUT claim: refused without a live fence or on a row already claimed; otherwise claim, doubt and version set together. Proved equal to the specification the protocol theorems are about. |
| `AttachmentObjectLedger.Ledger.BindSupervisionOn` | src/attachments/attachment-object-ledger.ts:32-40 | The handle must be authentic, unreleased, unsent and minted for the claimed object; its identity is bound once, to an unsettled reserved row of exactly this claim, and moves the version by one. |
| `AttachmentObjectLedger.Ledger.AbandonUnsentOn` | src/attachments/attachment-object-ledger.ts:44-51 | Abandonment needs a retired attachment, the certificate of the bound handle and the closure of this very claim; it is idempotent, ends the doubt and enqueues at most one deletion job. |
| `AttachmentSupervision.Supervisor.CreateAuthority` | src/attachments/storage/put-supervision-proof.ts:18-27 | A new handle, unsent and unreleased, under an identity of its own. |
| `AttachmentSupervision.Supervisor.ReleaseHandle` | src/attachments/storage/put-supervision-proof.ts:23-23 | Releasing a handle, idempotent. |
| `AttachmentSupervision.Supervisor.Retire` | src/attachments/storage/put-supervision-proof.ts:24-24 | Only an unsent, unreleased handle is retired; this alone creates its certificate. |
| `AttachmentSupervision.Supervisor.StartSend` | src/attachments/storage/put-supervision-proof.ts:26-26 | A send starts at most once, and never under a retired or released handle. |
| `AttachmentSupervision.Supervisor.SettleSend` | src/attachments/storage/put-supervision-proof.ts:26-26 | Only a started send settles. |
| `AttachmentSupervision.Supervisor.BeginClosure` | src/attachments/storage/put-supervision-proof.ts:31-33 | A closure is awaited for a usable handle of the claimed object. |
| `AttachmentSupervision.Supervisor.EndClosure` | src/attachments/storage/put-supervision-proof.ts:33-34 | It proves something only once the local work has ended. |
| `AttachmentSupervision.Supervisor.IdentityOf` | src/attachments/storage/put-supervision-proof.ts:36-38 | The identity of an unsent handle, for its own locator only. |
| `AttachmentSupervision.Supervisor.Verify` | src/attachments/storage/put-supervision-proof.ts:39-41 | Certificate and closure must be authentic and about the persisted identity, the object and the claim. |
| `AttachmentSendRecord.FateExactly` | src/attachments/storage/put-supervision-proof.ts:18-27 | Whatever else happens to the record, a fresh handle is started, retired or left unsent by whichever of start, retirement and release comes first; it settles only once started and is released iff somebody releases it. |
| `AttachmentSendRecord.OnlyTheRetiredAreCertified` | src/attachments/storage/put-supervision-proof.ts:24-24 | After any acts exactly the retired handles are certified, each for its own object. |
| `AttachmentSendRecord.ClosuresExactly` | src/attachments/storage/put-supervision-proof.ts:31-35 | After any acts a closure proves something iff its local work was waited for on an unreleased handle of the claimed object and has ended since. |
| `AttachmentSendRecord.ProofsAreOwn` | src/attachments/storage/put-supervision-proof.ts:36-41 | An identity is given only by an unsent handle for its own object; proofs are accepted iff both are authentic and about the persisted identity, the object and the claim. |
| `AttachmentObjectLedger.Ledger.RecordPutResultOn` | src/attachments/attachment-object-ledger.ts:52-64 | Settlement with every refusal, the replay answer, and the late write turned into a deletion with its job. Proved equal to the specification whose answers `AttachmentPutRuns.ResultsAnsweredExactly` characterizes. |
| `AttachmentCleanupLedger.Ledger.Lock` | src/attachments/attachment-cleanup-ledger.ts:92-133 | When cleanup may touch a row at all, including the exception for a quarantined original of a READY attachment. |
| `AttachmentCleanupLedger.Ledger.ClaimOn` | src/attachments/attachment-cleanup-ledger.ts:134-171 | A cleanup claim: due, unleased, under ten attempts, row moved to DELETE_PENDING with a new version carried in the claim. Proved equal to the specification that `AttachmentLeaseRuns` characterizes over runs. |
| `AttachmentCleanupLedger.Ledger.FinishOn` | src/attachments/attachment-cleanup-ledger.ts:204-243 | Absence evidence checked first, then the winner replay, then the fence; object and job end together. |
| `AttachmentCleanupLedger.Ledger.FailOn` | src/attachments/attachment-cleanup-ledger.ts:244-269 | INTEGRITY for an unknown failure code, before any lock; otherwise a live claim gives its lease back with the code recorded and the backed-off next attempt, and the object row is unchanged. |
| `AttachmentCleanupLedger.BackoffIsMonotone` | src/attachments/attachment-cleanup-ledger.ts:261-264 | Later attempts never wait less than earlier ones, up to the cap. |
| `AttachmentTheorems.StatusMovesForward` | src/attachments/attachment-object-ledger.ts:20-65 | Over every run, object versions strictly increase with every change, status only moves forward, DELETED rows are frozen. |
| `AttachmentTheorems.NoDeletionInDoubt` | src/attachments/attachment-cleanup-ledger.ts:112-158 | No cleanup claim is granted on, and no DELETED object is left with, a PUT in doubt; every issued claim is on a closed row. |
| `AttachmentTheorems.NoWriteAfterCleanup` | src/attachments/attachment-object-ledger.ts:25-27 | After cleanup claimed an object, at any later time, no PUT can be claimed on it and no PUT call writes its row. |
| `AttachmentTheorems.DoubtIsExact` | src/attachments/attachment-object-ledger.ts:25-29 | Every reachable row is uncertain iff claimed and neither settled nor abandoned; settled and abandoned exclude each other; settled implies a tag. |
| `AttachmentTheorems.RecordingSettles` | src/attachments/attachment-object-ledger.ts:60-63 | A result that is accepted or refused as late leaves the row settled with exactly the observed tag; a late one is no longer usable. Which results are accepted is `AttachmentPutRuns.ResultsAnsweredExactly`. |
| `AttachmentPutRuns.ResultsAnsweredExactly` | src/attachments/attachment-object-ledger.ts:52-64 | In every run the first well-formed result of an issued claim is accepted iff the row is as claimed or bound and version, lease and expiry of the attachment still stand, a redelivered one iff the object is still usable; a result is refused as CLAIM_CONFLICT iff the PUT was abandoned and as INTEGRITY iff it is ill-formed or carries another tag. |
| `AttachmentPutRuns.FirstResultCounts` | src/attachments/attachment-object-ledger.ts:58-63 | A timely first result leaves the row WRITTEN with its tag and nothing else changed; an untimely one is kept with its tag as DELETE_PENDING and its deletion is owed. |
| `AttachmentPutRuns.WrittenUnderFence` | src/attachments/attachment-object-ledger.ts:58-61 | In every run a row becomes WRITTEN only by an accepted result of a claim on it, in a step at which version, lease owner, lease and expiry of that claim stand. |
| `AttachmentPutRuns.PutGrantedExactly` | src/attachments/attachment-object-ledger.ts:21-30 | Who is granted a PUT, in the columns of the two rows, and the whole new state. |
| `AttachmentPutRuns.OneGrantPerObject` | src/attachments/attachment-object-ledger.ts:25-29 | In every run an object is granted to at most one PUT. |
| `AttachmentPutRuns.BoundExactly` | src/attachments/attachment-object-ledger.ts:32-40 | In every run which claims are bound to a handle, both directions. |
| `AttachmentPutRuns.AbandonedExactly` | src/attachments/attachment-object-ledger.ts:42-51 | In every run which claims can be abandoned, both directions. |
| `AttachmentTheorems.RedeliveryChangesNothing` | src/attachments/attachment-object-ledger.ts:59-59 | A recorded result redelivered at any later time changes nothing; a different tag is an INTEGRITY refusal. |
| `AttachmentTheorems.RefusalIsFinal` | src/attachments/attachment-object-ledger.ts:55-60 | A result refused or declared unusable once is never accepted later. |
| `AttachmentTheorems.FenceIsLostForGood` | src/attachments/attachment-object-ledger.ts:58-58 | A PUT claim that lost its fence never regains it, because attachments only move on. |
| `AttachmentTheorems.AtMostOneLiveClaim` | src/attachments/attachment-cleanup-ledger.ts:193-203 | Issued claims on one object have distinct versions, and at most one passes the fence. |
| `AttachmentTheorems.SupersededWorkerIsRefused` | src/attachments/attachment-cleanup-ledger.ts:204-260 | A superseded worker is refused by finish and fail for ever. |
| `AttachmentTheorems.OnlyTheWinnerReplays` | src/attachments/attachment-cleanup-ledger.ts:226-234 | An issued claim finishes a deleted object iff it is the winning claim and its rows and evidence qualify; nothing changes. |
| `AttachmentTheorems.WinnerMayAlwaysReplay` | src/attachments/attachment-cleanup-ledger.ts:226-233 | For a deleted or rejected attachment the winner can always replay with qualifying evidence. |
| `AttachmentTheorems.DebtIsNeverLost` | src/attachments/attachment-cleanup-ledger.ts:141-161 | A DELETE_PENDING object stays owed by exactly one incomplete job until evidence of its own absence, no earlier than the winning claim, deletes it. |
| `AttachmentTheorems.AtMostTenClaims` | src/attachments/attachment-cleanup-ledger.ts:145-159 | The claims granted on a job are exactly its attempts, at most ten. |
| `AttachmentLeaseRuns.LeaseIsExclusive` | src/attachments/attachment-cleanup-ledger.ts:141-161 | In every run a job granted once is granted again no sooner than two minutes later unless its holder reports a failure in between. |
| `AttachmentLeaseRuns.FailureKeepsItsPause` | src/attachments/attachment-cleanup-ledger.ts:259-266 | In every run a failed job is granted again no sooner than its pause, which grows with the claims spent on it. |
| `AttachmentLeaseRuns.PauseDoubles` | src/attachments/attachment-cleanup-ledger.ts:261-264 | The pause is one minute, doubled each time, at most an hour. |
| `AttachmentLeaseRuns.DueIsGranted` | src/attachments/attachment-cleanup-ledger.ts:134-161 | In every run an object of a deleted or rejected attachment is granted iff no PUT is in doubt and its job is unfinished, due, unleased and under ten attempts. |
| `AttachmentLeaseRuns.LiveAttachmentKeepsItsParts` | src/attachments/attachment-cleanup-ledger.ts:112-133 | Of a live attachment only the spare original of a READY one is granted, and iff every published derivative is written and nobody processes it. |
| `AttachmentLeaseRuns.LockedExactly` | src/attachments/attachment-cleanup-ledger.ts:92-133 | In every run which rows may be worked on at all, in their columns. |
| `AttachmentLeaseRuns.UnlockedIsRefused` | src/attachments/attachment-cleanup-ledger.ts:134-260 | On other rows no claim, finish or failure changes anything. |
| `AttachmentLeaseRuns.HolderFinishesExactly` | src/attachments/attachment-cleanup-ledger.ts:204-243 | In every run a finish changes something iff the worker holds the job and proves absence; then the row is DELETED and the job closed, both written out. |
| `AttachmentLeaseRuns.HolderFailsExactly` | src/attachments/attachment-cleanup-ledger.ts:244-269 | In every run a failure is taken iff its code is known and the worker holds the job; the job row afterwards written out. |
| `AttachmentTheorems.CleanupNeverSeesMissingTag` | src/attachments/attachment-cleanup-ledger.ts:149-149 | The INTEGRITY branch of the cleanup claim is unreachable. |
| `AttachmentSafety.Forward` | src/attachments/attachment-cleanup-ledger.ts:91-270 | Every continuation of a run keeps the joint invariant of both ledgers and only moves rows and claims forward. |
| `AttachmentProtocol.EnvironmentKeeps` | src/attachments/attachment-policy.ts:86-93 | Moving attachments along their lifecycle edges, reserving, retiring and orphaning objects, and time passing keep the row invariant. |
| `AttachmentSupervisionRuns.IdentitiesAreDistinct` | src/attachments/attachment-object-ledger.ts:32-40 | In every run a supervision identity is bound to at most one object, the one its handle was minted for. |
| `AttachmentSupervisionRuns.BoundBeforeSent` | src/attachments/storage/put-supervision-proof.ts:36-38 | A handle under which a send was started, or that was retired or released, is never bound afterwards. |
| `AttachmentSupervisionRuns.AbandonedWasNeverSent` | src/attachments/attachment-object-ledger.ts:42-51 | In every run the handle of an abandoned row was never started before, is retired, and can never be started; the local work of its own claim had ended. |
| `AttachmentSupervisionRuns.SentIsNeverAbandoned` | src/attachments/attachment-object-ledger.ts:47-47 | Once a send was started, no proofs that a run can produce abandon its row. |
| `AttachmentSchema.LedgersRespectSchema` | database/migrations/0039_phase30_attachments.sql:87-264 | In every run every update of either ledger passes the column and row checks, the keys of attempts, supervision identities and open jobs, the foreign key of jobs, and the update guards, all written here independently from the SQL. |
| `AttachmentQuotaLedger.SortSorts` | src/attachments/attachment-quota-ledger.ts:41-43 | The lock order sort is a permutation in canonical order. |
| `AttachmentQuotaLedger.Client.ApplyBatch` | src/attachments/attachment-quota-ledger.ts:40-55 | The loop over counters: lock-order check, bounds, remembered locks, and poisoning on any refusal. |
| `AttachmentQuotaLedger.Client.Execute` | src/attachments/attachment-quota-ledger.ts:57-90 | Each public operation with its argument checks, counters, ceilings and error code; its windows are pinned by `AttachmentQuotaWindows.BatchAmount`. |
| `AttachmentQuotaLedger.RefusalPoisons` | src/attachments/attachment-quota-ledger.ts:31-36 | After a refusal no later batch of the transaction changes any counter. |
| `AttachmentQuotaConservation.OpIsEven` | src/attachments/attachment-quota-ledger.ts:57-90 | Every operation charges the deployment exactly what it charges its subject, per resource and window. |
| `AttachmentQuotaConservation.Conservation` | src/attachments/attachment-quota-ledger.ts:48-90 | After any history of committed or rolled back transactions each deployment counter is the sum of the subjects, and all counters are within 0..ceiling. |
| `AttachmentQuotaConservation.OneActiveUpload` | src/attachments/attachment-quota-ledger.ts:63-63 | At most one actor ever holds an active upload. |
| `AttachmentQuotaLocking.WaitsUpwards` | src/attachments/attachment-quota-ledger.ts:45-53 | A transaction only waits for a counter after every counter it holds, for any number of interleaved transactions. |
| `AttachmentQuotaLocking.ChainsClimb` | src/attachments/attachment-quota-ledger.ts:45-53 | Along any chain of waits the counters waited for strictly increase. |
| `AttachmentQuotaLocking.NoDeadlock` | src/attachments/attachment-quota-ledger.ts:41-53 | The wait-for graph never has a cycle. |
| `AttachmentQuotaLocking.SomeoneCanRun` | src/attachments/attachment-quota-ledger.ts:41-53 | Whenever some transaction waits, a holder of a waited-for counter can proceed. |
| `AttachmentQuotaInterleaving.AttemptIsLocal` | src/attachments/attachment-quota-ledger.ts:48-54 | What a transaction answers and does depends only on the counters its operations name, and changes no other. |
| `AttachmentQuotaInterleaving.CommittedIsSerial` | src/attachments/attachment-quota-ledger.ts:40-56 | However any number of transactions overlap, one row at a time, the committed counters are those of running the committed transactions one after another in commit order. |
| `AttachmentQuotaInterleaving.InterleavedConservation` | src/attachments/attachment-quota-ledger.ts:48-90 | Under every interleaving each committed deployment counter is the sum of the subjects, and all counters are within 0..ceiling. |
| `AttachmentQuotaInterleaving.NeverDeadlocked` | src/attachments/attachment-quota-ledger.ts:41-53 | The same transactions, with the counters deciding who is admitted, never wait in a circle. |
| `AttachmentQuotaWindows.BatchAmount` | src/attachments/attachment-quota-ledger.ts:57-90 | What an operation adds for an actor, an address or the deployment in a given hour, day or minute, from its arguments and its time. |
| `AttachmentQuotaWindows.CountersAreTotals` | src/attachments/attachment-quota-ledger.ts:48-90 | However transactions overlap, a committed counter is the sum over the committed operations whose time lies in its hour, day or minute. |
| `AttachmentQuotaWindows.NobodyExceeds` | src/attachments/attachment-quota-ledger.ts:57-90 | However transactions overlap, no actor commits more than 10 initiations and the deployment more than 40 in an hour; likewise bytes of a day, upload attempts, reads of a minute, reservations and slots. |
| `AttachmentQuotaWindows.RefusedOnlyAtTheLimit` | src/attachments/attachment-quota-ledger.ts:31-90 | However transactions overlap, an accepted operation in lock order goes through iff the committed operations, those of its transaction and itself stay within every limit; a consumption is otherwise RATE_LIMITED. |
| `AttachmentQuotaWindows.AdmittedExactly` | src/attachments/attachment-quota-ledger.ts:31-56 | The same for one transaction over counters that show any list of operations. |
| `AttachmentQuotaWindows.ArgumentsExactly` | src/attachments/attachment-quota-ledger.ts:57-90 | Which arguments are accepted; others change nothing. |
| `AiQuota.Ledger.ReserveTokens` | src/ai/ai.usage.ts:63-101 | Reservation on the window containing now, with both refusals. |
| `AiQuota.Ledger.SettleTokens` | src/ai/ai.usage.ts:103-113 | Settlement of an outstanding reservation by at most its own tokens. |
| `AiQuota.Ledger.ReleaseTokens` | src/ai/ai.usage.ts:115-121 | Release; a no-op for an identifier that is not outstanding. |
| `AiQuota.WindowsAreAccounted` | src/ai/ai.usage.ts:84-120 | After any calls each window reserves exactly its outstanding reservations and respects a fixed cap. |
| `AiQuota.QuotaHolds` | src/ai/ai.usage.ts:77-83 | From empty: used plus reserved of a key never exceeds the largest cap ever asked for it, and neither is negative. |
| `AiQuota.SpentForGood` | src/ai/ai.usage.ts:103-121 | A settled or released identifier can never be settled again. |
| `AiQuota.WindowsPartitionTime` | src/ai/ai.usage.ts:77-78 | An instant is charged to exactly the fixed window that contains it. |
| `AiRuntime.WindowAdmitsLimit` | src/ai/ai.usage.ts:140-152 | From the request that opens a window to its end exactly the first limit requests of a key are admitted, whatever other keys do. |
| `AiRuntime.RoundingStaysInRange` | src/ai/ai.usage.ts:193-200 | Rounding a cost to six places moves it by at most half a millionth and keeps it in range. |
| `AiRuntime.Service.Complete` | src/ai/ai.runtime.ts:71-202 | A whole call runs the request machine against what the world answers; what that comes to in terms of the answers is `AiOutcomes.CallEndsWell`, `CallEndsBadly` and `CallIsRejected`. |
| `AiRuntime.Service.Retry` | src/ai/ai.runtime.ts:137-201 | The retry loop is the machine from its first attempt on; which answers it repeats is `AiOutcomes.CallEndsWell` and `CallEndsBadly`. |
| `AiRuntime.Service.TryOnce` | src/ai/ai.runtime.ts:140-173 | One turn of the loop: validation, price, settlement, success record. |
| `AiRuntime.Service.ConsumeOne` | src/ai/ai.usage.ts:140-152 | The fixed-window rate limiter. |
| `AiAccounting.NothingLeaks` | src/ai/ai.runtime.ts:123-201 | Over every interleaving of requests and failures, a reservation is outstanding iff one request that has not settled it is in its retry loop; when all are done nothing is reserved. |
| `AiAccounting.UsedTokensAreExplained` | src/ai/ai.runtime.ts:151-165 | At every moment used tokens equal the recorded ones plus the settled tokens of requests whose success record is missing. |
| `AiLoss.EveryTokenIsPlaced` | src/ai/ai.runtime.ts:151-176 | At every moment of every run the used tokens are the recorded ones, those whose success record is being written, and those of success records that could not be written. |
| `AiLoss.LedgersAgreeExactly` | src/ai/ai.runtime.ts:152-165 | When all requests are done, used tokens equal recorded tokens iff no append of a success with tokens failed; failures of other appends do not matter. |
| `AiLoss.SettledTokensCanGoUnrecorded` | src/ai/ai.runtime.ts:151-191 | A concrete run: two tokens used and settled, the success append fails, one FAILED record with no tokens. |
| `AiLoss.CompleteExplainsItsTokens` | src/ai/ai.runtime.ts:71-202 | For one call alone, used tokens grow by the recorded ones plus those of its failed success appends. |
| `AiAccounting.LedgersAgree` | src/ai/ai.runtime.ts:143-192 | If every append succeeded and all requests are done, total used tokens equal the summed tokens of SUCCEEDED records, one record per request. |
| `AiAccounting.OneRecordEach` | src/ai/ai.runtime.ts:152-191 | With a usage ledger that never fails every finished request has exactly one record. |
| `AiAccounting.ChargedAtMostOnce` | src/ai/ai.runtime.ts:142-176 | A valid answer is always charged the first time; a request that lost its success record is never charged again and ends as a failure. |
| `AiAccounting.CapHolds` | src/ai/ai.usage.ts:79-83 | Under a fixed cap per key no interleaving of requests exceeds it. |
| `AiAccounting.StretchIsOneCall` | src/ai/ai.runtime.ts:123-200 | Between two awaits a request makes at most one quota call, reserving only what its policy allows. |
| `AiAccounting.CompleteGivesBack` | src/ai/ai.runtime.ts:71-202 | A whole call alone leaves the outstanding reservations as they were and explains every token it used. |
| `AiOutcomes.BegunExactly` | src/ai/ai.runtime.ts:71-89 | Which calls begin, in the fields of policy, model, selection and input. |
| `AiOutcomes.FaultCodes` | src/ai/ai.runtime.ts:348-377 | The code recorded for each fault. |
| `AiOutcomes.ReservedExactly` | src/ai/ai.usage.ts:63-101 | A reservation is granted iff what is used and reserved in the window that contains now leaves room for it, for input and output tokens together. |
| `AiOutcomes.Admitted` | src/ai/ai.runtime.ts:90-140 | A request without an obstacle makes its first attempt with its tokens reserved. |
| `AiOutcomes.CallEndsWell` | src/ai/ai.runtime.ts:137-173 | If answers 1 to n-1 are genuine retryable provider errors and answer n, within the attempts allowed, is a fitting, readable and payable completion that can be recorded, the call returns it with n attempts and one SUCCEEDED record. |
| `AiOutcomes.CallEndsBadly` | src/ai/ai.runtime.ts:174-201 | If answer n is any other fault or completion, or the last retryable error allowed, the call ends with one FAILED record of n attempts and the code of that answer. |
| `AiOutcomes.CallIsRejected` | src/ai/ai.runtime.ts:90-136 | A call with an obstacle is recorded as REJECTED with no attempt and refused with the fault itself. |
| `AiOutcomes.CallLosesItsSuccess` | src/ai/ai.runtime.ts:160-201 | A call whose success cannot be recorded fails, at once with that fault's code when it is final. |
| `AiAccounting.WrittenRecordsReconcile` | src/ai/ai.reconciliation.ts:40-134 | Any batch of runtime-written records passes the audit iff it has at most 1000 records, no repeated request id, and safe attempt counters. |
| `AiReconciliation.Reconcile` | src/ai/ai.reconciliation.ts:40-134 | The auditor over untyped rows: verdict, the first hundred issues, truncation flag and limits. |
| `AiReconciliation.NoIssuesExactlyWhenClean` | src/ai/ai.reconciliation.ts:63-131 | No issue iff every row is clean and no request id repeats. |
| `AiReconciliationOutcomes.IssuesExactly` | src/ai/ai.reconciliation.ts:63-131 | Each of the thirteen issues is raised for a row iff the fields of that row, and for repeats an earlier row, say so. |
| `AiReconciliationOutcomes.IssuesInOrder` | src/ai/ai.reconciliation.ts:63-131 | Issues are raised row by row. |
| `AiReconciliationOutcomes.PassesExactly` | src/ai/ai.reconciliation.ts:40-62 | A batch passes iff it is within the limits and nothing is wrong with any row. |
| `EventParticipation.Repository.SortedWaiting` | src/events/event.participation.repository.ts:392-394 | The waitlist of one event sorted by registration time and identifier. |
| `EventParticipation.Repository.RebalanceEvent` | src/events/event.participation.repository.ts:384-409 | Promote from the front, renumber the rest: equal to a closed form by rank, promoted users included. |
| `EventParticipation.Repository.RegisterUser` | src/events/event.participation.repository.ts:172-218 | Registration, replay and re-registration of a cancelled user. |
| `EventParticipation.Repository.CancelUser` | src/events/event.participation.repository.ts:220-251 | Cancellation with promotion, replay and the missing case. |
| `EventParticipation.Repository.CancelEveryone` | src/events/event.participation.repository.ts:261-269 | Cancelling a whole event. |
| `EventParticipation.TwoPassesRebalance` | src/events/event.participation.repository.ts:384-409 | The two passes over sorted lists compute the closed form. |
| `EventWaitlist.FromScratchExactly` | src/events/event.participation.repository.ts:384-409 | A table that fits is the sorted-from-scratch table iff nobody waits behind a later arrival. |
| `EventWaitlist.RebalanceFits` | src/events/event.participation.repository.ts:384-409 | Rebalancing fills free places, keeps capacity and numbers the waitlist 1..n. |
| `EventWaitlist.RegisterKeeps` | src/events/event.participation.repository.ts:172-218 | Registering keeps the table in shape, touches no other event and never promotes. |
| `EventWaitlist.RegisterStaysOrderedExactly` | src/events/event.participation.repository.ts:188-211 | A registration keeps the table from-scratch iff there was room or it comes after everybody who is in. |
| `EventWaitlist.CancelKeeps` | src/events/event.participation.repository.ts:220-251 | Cancelling keeps shape and order. |
| `EventWaitlist.WaitlistHolds` | src/events/event.participation.repository.ts:172-269 | Under any clock and any history: capacity, no waiting beside a free place, positions 1..n. |
| `EventWaitlist.ClockKeepsOrder` | src/events/event.participation.repository.ts:172-251 | While the clock strictly increases the maintained table always equals sorting from scratch. |
| `EventWaitlist.TieBreaksOrder` | src/events/event.participation.repository.ts:442-447 | With two registrations in one millisecond the equality fails: a concrete run. |
| `EventReminders.Store.UpsertIntents` | src/events/event.participation.repository.ts:280-312 | Both reminder intents of one registration. |
| `EventReminders.Store.DropIntents` | src/events/event.participation.repository.ts:314-323 | Cancelling the intents of a user or of an event. |
| `EventService.Service.SyncPromoted` | src/events/event.service.ts:441-443 | The loop over promoted registrations rewrites exactly their intents. |
| `EventService.Service.Register` | src/events/event.service.ts:407-457 | Registration with its checks, the table and the reminders; proved equal to the specification that `EventOutcomes.RegistersExactly` characterizes. |
| `EventService.Service.Withdraw` | src/events/event.service.ts:459-487 | Cancellation, reminders dropped, promoted users synchronised. |
| `EventService.Service.Invite` | src/events/event.service.ts:299-338 | Inviting to a private event. |
| `EventService.Service.Revoke` | src/events/event.service.ts:363-405 | Revoking an invitation cancels the registration it allowed. |
| `EventService.Service.CallOff` | src/events/event.service.ts:239-297 | Cancelling an event cancels its registrations and reminders. |
| `EventService.Service.Reconcile` | src/events/event.service.ts:489-510 | Rewriting the reminders of a registered attendee. |
| `EventRuns.RemindersFollowRegistrations` | src/events/event.service.ts:434-443 | After any service calls a reminder of either kind is live iff its user is registered, promoted users included, and is about that registration and start. |
| `EventRuns.CalledOffEventsAreQuiet` | src/events/event.service.ts:267-271 | A cancelled event has no active registration and no live reminder. |
| `EventRuns.ServiceKeepsWaitlist` | src/events/event.service.ts:407-487 | Capacity and waitlist hold in every state the service reaches. |
| `EventRuns.ServiceKeepsOrder` | src/events/event.service.ts:407-487 | While registrations read an increasing clock, after any service calls every event's table equals sorting from scratch. |
| `EventRuns.PrivateSeatsAreInvited` | src/events/event.service.ts:388-397 | Every active registration is in an event not cancelled, never the host's, and in a private event still has its invitation. |
| `EventOutcomes.NobodyRegistersLate` | src/events/event.service.ts:425-430 | After any service calls every registration, promoted ones included, was made before its event starts. |
| `EventOutcomes.RegistersExactly` | src/events/event.service.ts:407-457 | In every run an active user who is not the host, may see the event and asks before its start while it stands is registered, and nobody else; the refusal otherwise, the row and the seat taken, everybody else unmoved, and both reminders written out. |
| `EventOutcomes.PlacesAreCounted` | src/events/event.participation.repository.ts:384-409 | After any service calls seats are within capacity, somebody waits only when all are taken, and each waiting position is one more than those who arrived sooner. |
| `EventOutcomes.WithdrawsExactly` | src/events/event.service.ts:459-487 | In every run who may withdraw; a seat given up goes to the one who waited longest, if anybody waits, with reminders written, and nobody else moves. |
| `EventOutcomes.InvitesExactly` | src/events/event.service.ts:299-338 | Who may invite whom, and that nothing but the invitation changes. |
| `EventOutcomes.RevokesExactly` | src/events/event.service.ts:363-405 | In every run revoking a standing invitation withdraws the registration it allowed, in the same sense. |
| `EventOutcomes.CallsOffExactly` | src/events/event.service.ts:239-297 | In every run the host calls an event off until it has ended or again later; every active row of it is cancelled and every reminder dropped, and nothing else. |
| `EventOutcomes.CalledOffForGood` | src/events/event.repository.ts:112-126 | An event never changes but to be called off, and that is for good. |
| `EventOutcomes.ReconcilesExactly` | src/events/event.service.ts:489-510 | In every run the reminders of one's own seat are written anew, and without a seat nothing is. |
| `Corrections.Repository.RespondTo` | src/corrections/corrections.repository.ts:203-249 | Creating a response, with the parent checks and its event. |
| `Corrections.Repository.SetActive` | src/corrections/corrections.repository.ts:314-364 | Accepting a response: no-op, first acceptance or replacement with its cascade. |
| `Corrections.Repository.RevokeActive` | src/corrections/corrections.repository.ts:320-337 | Revocation, invalidation of the candidates made from it, and its event. |
| `Corrections.Repository.RevokeIfActive` | src/corrections/corrections.repository.ts:366-391 | Revoking the current acceptance if there is one. |
| `Corrections.Repository.SetModeration` | src/corrections/corrections.repository.ts:393-424 | Moderation with the cascade to candidates. |
| `Corrections.Repository.Nominate` | src/corrections/corrections.repository.ts:426-482 | Candidate creation with every refusal and the existing-candidate case. |
| `Corrections.Repository.InvalidateCandidates` | src/corrections/corrections.repository.ts:570-588 | The invalidation loop. |
| `Corrections.Repository.AppendEvent` | src/corrections/corrections.repository.ts:590-595 | Appending an event once per idempotency key. |
| `Corrections.Repository.SearchAcceptance` | src/corrections/corrections.repository.ts:531-533 | Finding an acceptance by identifier across all histories. |
| `Corrections.Repository.ListPending` | src/corrections/corrections.repository.ts:484-505 | Filter, sort and cut of the pending candidates. |
| `Corrections.Repository.Inspect` | src/corrections/corrections.repository.ts:524-554 | The inspection evaluates the row it reads. |
| `CorrectionsRuns.RunKeeps` | src/corrections/corrections.repository.ts:314-482 | Every run, with posts changing at any time, keeps the joint invariant of histories, candidates and log. |
| `CorrectionsRuns.OneActivePerPost` | src/corrections/corrections.repository.ts:566-568 | At most one acceptance per post is active and identifiers name acceptances. |
| `CorrectionsRuns.ReplayRebuilds` | src/corrections/corrections.repository.ts:314-391 | Replaying the event log rebuilds the current acceptance of every post. |
| `CorrectionsRuns.EachAcceptanceIsToldOnce` | src/corrections/corrections.repository.ts:323-362 | Each acceptance has exactly one accepted event and, iff revoked, exactly one later revoked event. |
| `CorrectionsRuns.KeysAreUnique` | src/corrections/corrections.repository.ts:590-595 | Idempotency keys in the log are unique. |
| `CorrectionsRuns.PendingIsBacked` | src/corrections/corrections.repository.ts:426-482 | A pending candidate points at the current acceptance of its post, for its own active response. |
| `CorrectionsRuns.EligibilityAgrees` | src/corrections/corrections.repository.ts:484-554 | The filter of the list, the lookup and the health check agree, and reduce to a pending candidate on a healthy post. |
| `CorrectionsRuns.PageHoldsTheNewest` | src/corrections/corrections.repository.ts:500-504 | In every run a page of the list holds exactly the candidates the lookup finds that fewer than `limit` newer ones precede, newest first. |
| `CorrectionsRuns.HealthReasonExactly` | src/corrections/corrections.source-health.ts:47-86 | The reason for every reference; the acceptance and response reasons are unreachable. |
| `CorrectionsRuns.EndingsAreFinal` | src/corrections/corrections.repository.ts:570-588 | Invalidated candidates and revoked acceptances never change again, and the log only grows. |
| `CorrectionOutcomes.AcceptsExactly` | src/corrections/corrections.repository.ts:314-364 | In every run accepting a response that stands changes nothing; any other becomes the standing one, the one before is revoked, every pending candidate of the post ends, and both are told once. |
| `CorrectionOutcomes.RevokesExactly` | src/corrections/corrections.repository.ts:366-391 | In every run revoking ends the standing acceptance with the pending candidates of its post and tells it once; without one nothing happens. |
| `CorrectionOutcomes.ModeratesExactly` | src/corrections/corrections.repository.ts:393-424 | In every run a moderation is kept and told once for its instant; taking a response down ends exactly its pending candidates. |
| `CorrectionOutcomes.NominatesExactly` | src/corrections/corrections.repository.ts:426-482 | In every run a response can be nominated iff it is active, its post is public and active, and it stands accepted; one candidate results, and a second nomination changes nothing. |
| `CorrectionOutcomes.RespondsExactly` | src/corrections/corrections.repository.ts:203-249 | In every run for which posts a response is created, and what is written. |
| `CorrectionOutcomes.PageIsTheLatest` | src/corrections/corrections.repository.ts:484-505 | In every run a page holds the pending candidates on public and active posts that fewer than `limit` later ones precede, latest first. |
| `PostPaging.ListPosts` | src/community/community.repository.ts:232-299 | The page is the front of the sorted listing of the matching posts below the cursor, with its has-more flag. |
| `PostPaging.Gather` | src/community/community.service.ts:246-260 | The fresh check keeps exactly the scanned posts that still match and can be shown. |
| `PostPaging.FreshCheckIsExact` | src/community/community.service.ts:248-254 | Asking again for the scanned ids with their number as limit loses none of them. |
| `PostPaging.Search` | src/community/community.service.ts:200-271 | The bounded refill loop and its continuation cursor. |
| `PostWalks.CursorAdvances` | src/community/community.service.ts:261-270 | However the stores change, a returned cursor lies strictly past the one given and is the place of a post that was scanned. |
| `PostWalks.WalkDescends` | src/community/community.service.ts:226-270 | However the stores change, posts are returned at strictly descending places, each from a batch that scanned it there and could show it. |
| `PostWalks.WalkTerminates` | src/community/community.service.ts:226-270 | A walk from a cursor ends, however counts change, after at most one call more than there are places past the cursor that known posts could have. |
| `PostWalks.WalkIsBounded` | src/community/community.service.ts:226-270 | From a cursor at count h that is at most h + 1 calls for each known post and one more; sorted by newest, one for each post and one more. |
| `PostWalks.FreshWalkTerminates` | src/community/community.service.ts:226-270 | A walk from the start ends too; its first cursor fixes the bound. |
| `PostWalkAccounts.BatchIsExact` | src/community/community.service.ts:226-262 | A batch returns exactly the posts that are available at it and whose place lies in its stretch. |
| `PostWalkAccounts.WalkReturnsExactly` | src/community/community.service.ts:218-270 | However the stores change, a walk returns a post once for each of its batches that holds it in this sense; the stretches meet, from the first cursor to the last. |
| `PostWalkAccounts.WalkMissesExactly` | src/community/community.service.ts:218-270 | A walk misses a post iff none of its batches holds it. |
| `PostWalkAccounts.WalkRepeatsExactly` | src/community/community.service.ts:218-270 | A walk repeats a post iff two of its batches hold it. |
| `PostWalkAccounts.RepeatsNeedFallingCounts` | src/community/community.service.ts:255-262 | A post is returned twice only under USEFUL and only if its count fell between the two batches that returned it. |
| `PostWalkAccounts.WalkNeverRepeats` | src/community/community.service.ts:255-262 | Under NEWEST, or while no count falls, no post is returned twice. |
| `PostWalks.FallingCountRepeats` | src/community/community.repository.ts:278-282 | A concrete walk by usefulness that returns one post twice. |
| `PostWalks.MissesNeedRisingCounts` | src/community/community.service.ts:218-270 | A finished walk misses a post that was past its first cursor and available throughout only under USEFUL and only if its count rose. |
| `PostWalks.WalkIsComplete` | src/community/community.service.ts:218-270 | Under NEWEST, or while its count does not rise, a post past the first cursor and available throughout is returned by a finished walk. |
| `PostWalks.RisingCountIsMissed` | src/community/community.repository.ts:278-282 | A concrete finished walk by usefulness that never returns a post available throughout. |
| `PostWalks.UnchangedStoreIsListed` | src/community/community.service.ts:218-270 | On an unchanged store a finished walk is exactly the sorted listing of what can be shown, for either sort and any limit. |
| `PostOutcomes.PageExactly` | src/community/community.repository.ts:232-299 | A page holds exactly the public, active posts with every property asked for and past the cursor that fewer than `limit` others come before, in the order asked for; there is more iff some are left. |
| `PostOutcomes.CallIsOnePage` | src/community/community.service.ts:218-270 | On an unchanged store whose answers can all be shown, a call returns one full page, with a cursor iff there is more. |
| `PostOutcomes.CallIsBounded` | src/community/community.service.ts:226-262 | However the stores change, no call returns more posts than its limit. |
| `PostOutcomes.ShortCallTriedEverything` | src/community/community.service.ts:226-270 | A call that is short of posts and names a cursor stopped at its last batch: the cursor is a post of that scan. |
| `PostOutcomes.WalkAnswersExactly` | src/community/community.service.ts:218-270 | On an unchanged store a finished walk returns exactly the posts asked for that are past its cursor and can be shown, each once, in the order asked for. |
| `Challenges.Repository.JoinMember` | src/challenges/challenge.repository.ts:118-148 | Join, replay and rejoin keeping progress; refused without the challenge. |
| `Challenges.Repository.LeaveMember` | src/challenges/challenge.repository.ts:150-159 | Leaving, without effect once completed; refused without a participation. |
| `Challenges.Repository.AppendProgress` | src/challenges/challenge.repository.ts:177-224 | Replay by fingerprint, conflict, completion and both indexes. |
| `Challenges.Repository.JoinAs` | src/challenges/challenge.service.ts:169-184 | Joining through the service. |
| `Challenges.Repository.LeaveAs` | src/challenges/challenge.service.ts:186-199 | Leaving through the service. |
| `Challenges.Repository.Record` | src/challenges/challenge.service.ts:201-272 | Recording an activity: the replay path after the end, eligibility, and the append. |
| `ChallengeRuns.ProgressIsEarned` | src/challenges/challenge.repository.ts:177-224 | In every run progress is the sum of recorded units; completed iff at target iff dated. |
| `ChallengeRuns.ProgressIsBounded` | src/challenges/challenge.rules.ts:143-155 | Through the service progress is at most target plus 999. |
| `ChallengeRuns.CompletionIsPermanent` | src/challenges/challenge.repository.ts:192-192 | A completed participation never changes again. |
| `ChallengeRuns.ResubmissionReplays` | src/challenges/challenge.service.ts:214-258 | An accepted activity sent again is a replay that changes nothing, running, over, cancelled or completed, unless the clock is before the activity itself. |
| `ChallengeRuns.ConflictChangesNothing` | src/challenges/challenge.service.ts:227-233 | A conflicting resubmission is refused and changes nothing. |
| `ChallengeRuns.SourceIndexIsRedundant` | src/challenges/challenge.repository.ts:193-195 | Through the service the second uniqueness index never refuses anything. |
| `ChallengeOutcomes.RecordsExactly` | src/challenges/challenge.service.ts:201-272 | In every run through the service which activities are credited, which are replays, and the refusal of every other; what is credited leaves exactly its event and its progress. |
| `ChallengeOutcomes.JoinsExactly` | src/challenges/challenge.service.ts:169-184 | In every run who joins, and with what: what was earned before leaving, or nothing. |
| `ChallengeOutcomes.LeavesExactly` | src/challenges/challenge.service.ts:186-199 | In every run who leaves; what was earned stays, and once done nothing changes. |
| `HintStream.Session.StopNow` | src/communication/hint-stream.service.ts:27-37 | Stopping, with the subscriber teardown that runs it again inside itself. |
| `HintStream.Session.ScheduleNext` | src/communication/hint-stream.service.ts:53-58 | Arming the next timer unless closed. |
| `HintStream.Session.SetupAuthorized` | src/communication/hint-stream.service.ts:43-51 | Both authorizations of setup. |
| `HintStream.Session.LeaseAcquired` | src/communication/hint-stream.service.ts:46-47 | A lease that arrives after cancellation is recorded and then released. |
| `HintStream.Session.FirstPolled` | src/communication/hint-stream.service.ts:48-49 | The first version against the cursor of the client. |
| `HintStream.Session.Attach` | src/communication/hint-stream.service.ts:81-89 | The first subscriber gets the initial hint and a timer; others get nothing. |
| `HintStream.Session.TickAuthorization` | src/communication/hint-stream.service.ts:59-79 | Both authorizations of a tick with its hint, keepalive and rescheduling. |
| `HintStream.Session.TickPollReturned` | src/communication/hint-stream.service.ts:63-64 | The poll of a tick. |
| `HintStream.Session.Announce` | src/communication/hint-stream.service.ts:69-77 | A regressed version stops the stream; a newer one is hinted once; keepalives are spaced. |
| `HintStreamRuns.RunKeeps` | src/communication/hint-stream.service.ts:16-95 | Every interleaving of abort, setup, subscriber, timer and ticks keeps lease, timer and feed invariants. |
| `HintStreamRuns.HintsIncrease` | src/communication/hint-stream.service.ts:69-86 | Emitted versions strictly increase and are never below the client cursor. |
| `HintStreamRuns.NothingAfterStop` | src/communication/hint-stream.service.ts:27-31 | After a stop nothing is emitted and no timer is armed. |
| `HintStreamRuns.OneTimer` | src/communication/hint-stream.service.ts:53-79 | At most one timer is armed, and while a subscriber is served exactly one of timer and tick is alive. |
| `HintStreamRuns.LeaseIsReleasedOnce` | src/communication/hint-stream.service.ts:32-36 | An acquired lease is released exactly once when the stream stops or setup fails, never before. |
| `HintStreamRuns.LeaseStays` | src/communication/hint-stream.service.ts:46-46 | The lease released is the one acquired. |
| `HintOutcomes.NewsIsSent` | src/communication/hint-stream.service.ts:59-79 | In every run, a tick of a served stream whose three awaits succeed ends with the version it read as the last hint if that is later, sends no hint if it is not, and stops if it is earlier. |
| `HintOutcomes.TickEndsExactly` | src/communication/hint-stream.service.ts:67-79 | Whatever interleaved, what the end of a tick sends, when it stops the stream, and that otherwise one timer is armed. |
| `HintOutcomes.TickStartsExactly` | src/communication/hint-stream.service.ts:59-66 | While a tick waits for its first authorization or its poll nothing is sent, and a failure stops the stream. |
| `HintOutcomes.OpensExactly` | src/communication/hint-stream.service.ts:41-52 | An undisturbed setup opens iff both authorizations, the lease and a version not behind the cursor are given; its first hint is that version. |
| `HintOutcomes.SubscribesExactly` | src/communication/hint-stream.service.ts:81-89 | In every run the first subscriber of an open stream gets the version read last; a second gets nothing. |
| `HintOutcomes.LeavingStops` | src/communication/hint-stream.service.ts:27-37 | In every run a subscriber that leaves or an abort stops a served stream and releases its lease. |
| `HintOutcomes.FiresExactly` | src/communication/hint-stream.service.ts:53-59 | In every run the one armed timer starts the next tick. |

## Left out

- Identifier shapes: UUID, subject and hash patterns are not modelled; every identifier is taken as well formed.
- Postgres repositories: SQL text, row mapping and index choice; only the attachment triggers and checks are modelled, in `AttachmentSchema`.
- Awaits inside one repository or service operation of events, corrections and challenges: each public call is one step, so a race between, say, the parent lookup and the candidate write is not covered.
- Attachment clocks: all statements of one ledger call read one clock value, and clocks never run backwards.
- Sends: the storage adapter's own table of handles and its limits, unsupervised sends, and the session that dispatches only after the binding has committed. A handle lost with its process counts as released.
- Retention, terminal purges, metadata edits and physical cleanup orchestration of attachments: only their effect on rows as environment steps.
- Quota batch queue per client: the batches of one transaction run one after another, as the queue makes them.
- AI request parsing: structured output parsing is a boolean per answer, the provider registry is its outcome, and numbers that are not integers are not represented.
- AI time stamps, timeouts and delays: an attempt yields an answer or an error marked retryable or not; `occurredAt` is always a valid date.
- AiRuntime.RoundingStaysInRange: real arithmetic with halves upwards stands for the decimal rounding of doubles.
- `getSnapshot` on quota keys: prefix matching of key strings.
- Text length is counted in characters, not UTF-16 units.
- PostPaging.ListPosts: does not model the case folding of the search text, nor the `responseState` filter, which the in-memory repository refuses before it reads anything.
- Event reads, attendance, recurrence and languages; response texts, votes and listings; post comments, reactions, reports and feeds: they add no cross-operation state to the properties above.
- Event profile and preference lookups always succeed, and a refused call changes nothing.
- Identifier order: one total order stands for both `localeCompare` and `<`.
- Search cursors: a decoded cursor is the position that was encoded; encryption is not part of this model.
- Language and sign-in checks before a search.
- Challenge projections: completion percentage and reward event.
- HintStream.Session.LeaseAcquired: a lease that is acquired but whose stream is never subscribed, aborted or failed is kept, as in the code; its database expiry is not part of this model.
- Controllers, guards, configuration, command-line tools and backups.
