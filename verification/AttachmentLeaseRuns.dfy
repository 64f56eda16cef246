/**
 * Who may work on a deletion, and when. A granted job is its holder's alone until the lease ends or is given back, a
 * failed attempt keeps its pause, and whatever is due and free is granted.
 */
module AttachmentLeaseRuns {
  import opened Common
  import opened AttachmentRows
  import opened AttachmentProtocol
  import opened AttachmentSafety
  import opened AttachmentSupervision
  import opened AttachmentTheorems
  import Put = AttachmentObjectLedger
  import Cleanup = AttachmentCleanupLedger

  // ---------------------------------------------------------------- while a lease runs

  /** The job is done, or the time has come, or it is still leased to claim c on the row c was granted. */
  predicate HeldUntil(s: Db, c: Cleanup.CleanupClaim, until: Time) {
    && c.identity.jobId in s.jobs && c.identity.objectId in s.objects
    && var j := s.jobs[c.identity.jobId];
    && j.objectId == c.identity.objectId
    && (j.completedAt.Some? || until <= s.now
        || (j.leaseOwner == Some(c.leaseOwner) && j.leaseExpiresAt == Some(until)
            && s.objects[c.identity.objectId].objectVersion == c.objectVersion))
  }

  /** The job is done, or the time has come, or it is leased to nobody and not due before. */
  predicate PausedUntil(s: Db, job: Id, until: Time) {
    && job in s.jobs
    && var j := s.jobs[job];
    && (j.completedAt.Some? || until <= s.now || (j.leaseOwner.None? && until <= j.nextAttemptAt))
  }

  predicate JobsAsBefore(s: Db, t: Db) {
    forall j :: j in s.jobs ==> j in t.jobs && t.jobs[j] == s.jobs[j]
  }

  lemma AbandonKeepsJobs(s: Db, p: Proofs, c: PutClaim, certificate: Certificate, closure: Closure, j: Id)
    requires j !in s.jobs
    ensures var t := Put.AbandonUnsent(s, p, c, certificate, closure, j).0; JobsAsBefore(s, t) && t.now == s.now
  {}

  lemma RecordKeepsJobs(s: Db, c: PutClaim, observed: StoredObject, j: Id)
    requires j !in s.jobs
    ensures var t := Put.RecordPutResult(s, c, observed, j).0; JobsAsBefore(s, t) && t.now == s.now
  {}

  lemma EnvironmentKeepsJobs(s: Db, step: Step)
    ensures var t := Environment(s, step); JobsAsBefore(s, t) && s.now <= t.now
  {}

  predicate CleanupCall(step: Step) {
    step.ClaimCleanup? || step.FinishCleanup? || step.FailCleanup?
  }

  /** Only the cleanup ledger touches jobs that exist. */
  lemma OthersKeepJobs(s: Sys, step: Step, t: Sys)
    requires t == Next(s, step) && !CleanupCall(step)
    ensures JobsAsBefore(s.db, t.db) && s.db.now <= t.db.now
  {
    if t.db != s.db {
      match step
      case ClaimPut(a, k, f, id) => ClaimKeepsJobs(s.db, a, k, f, id);
      case BindSupervision(c, h) => BindKeepsJobs(s.db, s.proofs, c, h);
      case AbandonUnsent(c, cert, closure, j) => AbandonKeepsJobs(s.db, s.proofs, c, cert, closure, j);
      case RecordPutResult(c, observed, j) => RecordKeepsJobs(s.db, c, observed, j);
      case _ => EnvironmentKeepsJobs(s.db, step);
    }
  }

  lemma ClaimKeepsJobs(s: Db, a: Id, k: Id, f: Put.Fence, claimId: Id)
    ensures var t := Put.ClaimPut(s, a, k, f, claimId).0; JobsAsBefore(s, t) && t.now == s.now
  {}

  lemma BindKeepsJobs(s: Db, p: Proofs, c: PutClaim, handle: Id)
    ensures var t := Put.BindSupervision(s, p, c, handle).0; JobsAsBefore(s, t) && t.now == s.now
  {}

  lemma PutsKeepClosedRow(s: Sys, step: Step, t: Sys, k: Id)
    requires t == Next(s, step)
    requires step.ClaimPut? || step.BindSupervision? || step.AbandonUnsent? || step.RecordPutResult?
    requires k in s.db.objects && RowOk(s.db.objects[k]) && Closed(s.db.objects[k])
    ensures k in t.db.objects && t.db.objects[k] == s.db.objects[k]
  {
    match step
    case ClaimPut(a, o, f, id) => if o == k { ClosedClaim(s.db, a, k, f, id); }
    case BindSupervision(c, h) => if c.objectId == k { ClosedBind(s.db, s.proofs, c, h); }
    case AbandonUnsent(c, cert, closure, j) =>
      if c.objectId == k { ClosedAbandon(s.db, s.proofs, c, cert, closure, j); }
    case RecordPutResult(c, observed, j) => if c.objectId == k { ClosedRecord(s.db, c, observed, j); }
  }

  lemma EnvironmentKeepsClosedRow(s: Db, step: Step, k: Id)
    requires k in s.objects && Closed(s.objects[k])
    ensures k in Environment(s, step).objects && Environment(s, step).objects[k] == s.objects[k]
  {}

  /** A row on its way out, without a doubtful PUT, is left alone by everything but the cleanup ledger. */
  lemma OthersKeepClosedRow(s: Sys, step: Step, t: Sys, k: Id)
    requires t == Next(s, step) && !CleanupCall(step)
    requires k in s.db.objects && RowOk(s.db.objects[k]) && Closed(s.db.objects[k])
    ensures k in t.db.objects && t.db.objects[k] == s.db.objects[k]
  {
    if step.ClaimPut? || step.BindSupervision? || step.AbandonUnsent? || step.RecordPutResult? {
      PutsKeepClosedRow(s, step, t, k);
    } else {
      EnvironmentKeepsClosedRow(s.db, step, k);
    }
  }

  lemma ClosedClaim(s: Db, a: Id, k: Id, f: Put.Fence, claimId: Id)
    requires k in s.objects && Closed(s.objects[k])
    ensures Put.ClaimPut(s, a, k, f, claimId).0 == s
  {}

  lemma ClosedBind(s: Db, p: Proofs, c: PutClaim, handle: Id)
    requires c.objectId in s.objects && Closed(s.objects[c.objectId])
    ensures Put.BindSupervision(s, p, c, handle).0 == s
  {}

  lemma ClosedAbandon(s: Db, p: Proofs, c: PutClaim, certificate: Certificate, closure: Closure, j: Id)
    requires c.objectId in s.objects && RowOk(s.objects[c.objectId]) && Closed(s.objects[c.objectId])
    ensures Put.AbandonUnsent(s, p, c, certificate, closure, j).0 == s
  {}

  lemma ClosedRecord(s: Db, c: PutClaim, observed: StoredObject, j: Id)
    requires c.objectId in s.objects && RowOk(s.objects[c.objectId]) && Closed(s.objects[c.objectId])
    ensures Put.RecordPutResult(s, c, observed, j).0 == s
  {}

  // ---------------------------------------------------------------- the cleanup ledger's own steps

  /** A grant on any job while c holds its own leaves c's job and row alone. */
  lemma GrantKeepsHeld(s: Db, id: Cleanup.Identity, owner: Id, c: Cleanup.CleanupClaim, until: Time)
    requires HeldUntil(s, c, until) && SoleDebts(s.jobs)
    ensures HeldUntil(Cleanup.Claim(s, id, owner).0, c, until)
  {
    var j := c.identity.jobId;
    if id.objectId == c.identity.objectId && id.jobId != j && Cleanup.Claim(s, id, owner).1.Ok? {
      assert Incomplete(s.jobs, id.jobId, id.objectId);
      assert s.jobs[j].completedAt.None? ==> Incomplete(s.jobs, j, id.objectId);
    }
  }

  lemma FinishKeepsHeld(s: Db, d: Cleanup.CleanupClaim, e: Cleanup.Absence, c: Cleanup.CleanupClaim, until: Time)
    requires HeldUntil(s, c, until) && SoleDebts(s.jobs)
    ensures HeldUntil(Cleanup.Finish(s, d, e).0, c, until)
  {
    var j := c.identity.jobId;
    if d.identity.objectId == c.identity.objectId && d.identity.jobId != j && Cleanup.Finish(s, d, e).0 != s {
      assert Incomplete(s.jobs, d.identity.jobId, d.identity.objectId);
      assert s.jobs[j].completedAt.None? ==> Incomplete(s.jobs, j, d.identity.objectId);
    }
  }

  lemma FailKeepsHeld(s: Db, d: Cleanup.CleanupClaim, code: string, c: Cleanup.CleanupClaim, until: Time)
    requires HeldUntil(s, c, until)
    requires d.identity.jobId == c.identity.jobId && d.objectVersion == c.objectVersion ==>
               Cleanup.Fail(s, d, code).0 == s
    ensures HeldUntil(Cleanup.Fail(s, d, code).0, c, until)
  {}

  lemma GrantKeepsPaused(s: Db, id: Cleanup.Identity, owner: Id, job: Id, until: Time)
    requires PausedUntil(s, job, until)
    ensures PausedUntil(Cleanup.Claim(s, id, owner).0, job, until)
  {}

  lemma FinishKeepsPaused(s: Db, d: Cleanup.CleanupClaim, e: Cleanup.Absence, job: Id, until: Time)
    requires PausedUntil(s, job, until)
    ensures PausedUntil(Cleanup.Finish(s, d, e).0, job, until)
  {}

  lemma FailKeepsPaused(s: Db, d: Cleanup.CleanupClaim, code: string, job: Id, until: Time)
    requires PausedUntil(s, job, until)
    ensures PausedUntil(Cleanup.Fail(s, d, code).0, job, until)
  {}

  // ---------------------------------------------------------------- runs

  /** The step is a failure report by c that is accepted. */
  predicate GivesBack(s: Sys, step: Step, c: Cleanup.CleanupClaim) {
    step.FailCleanup? && step.cleanup == c && Next(s, step).db != s.db
  }

  predicate NeverGivenBack(s: Sys, steps: seq<Step>, c: Cleanup.CleanupClaim)
    decreases |steps|
  {
    |steps| == 0 || (!GivesBack(s, steps[0], c) && NeverGivenBack(Next(s, steps[0]), steps[1..], c))
  }

  lemma StepKeepsHeld(s: Sys, step: Step, t: Sys, c: Cleanup.CleanupClaim, until: Time)
    requires SysInv(s) && c in s.cleanups && t == Next(s, step) && HeldUntil(s.db, c, until) && !GivesBack(s, step, c)
    ensures HeldUntil(t.db, c, until)
  {
    var k := c.identity.objectId;
    IssuedRow(s, c);
    if !CleanupCall(step) {
      RowIsOk(s.db, k);
      OthersKeepJobs(s, step, t);
      OthersKeepClosedRow(s, step, t, k);
    } else if step.ClaimCleanup? {
      GrantKeepsHeld(s.db, step.cleanupOf, step.leaseOwner, c, until);
    } else if step.FinishCleanup? {
      if step.cleanup in s.cleanups { FinishKeepsHeld(s.db, step.cleanup, step.absence, c, until); }
    } else if step.cleanup in s.cleanups {
      var d := step.cleanup;
      if d.identity.jobId == c.identity.jobId && d.objectVersion == c.objectVersion {
        IssuedRow(s, d);
        VersionsTellApart(s.cleanups, d, c);
      }
      FailKeepsHeld(s.db, d, step.code, c, until);
    }
  }

  lemma {:induction false} RunGoesOn(s: Sys, steps: seq<Step>, step: Step)
    ensures Run(s, steps + [step]) == Next(Run(s, steps), step)
    decreases |steps|
  {
    if |steps| > 0 {
      assert (steps + [step])[1..] == steps[1..] + [step];
      RunGoesOn(Next(s, steps[0]), steps[1..], step);
    } else {
      assert steps + [step] == [step] && [step][1..] == [];
    }
  }

  lemma ReachableNext(s: Sys, step: Step)
    requires ReachableSys(s)
    ensures ReachableSys(Next(s, step))
  {
    var steps :| s == Run(Initial(), steps);
    RunGoesOn(Initial(), steps, step);
  }

  lemma ClaimsStay(s: Sys, step: Step)
    ensures s.cleanups <= Next(s, step).cleanups
  {}

  lemma {:induction false} RunKeepsHeld(s: Sys, steps: seq<Step>, c: Cleanup.CleanupClaim, until: Time)
    requires ReachableSys(s) && c in s.cleanups && HeldUntil(s.db, c, until) && NeverGivenBack(s, steps, c)
    ensures HeldUntil(Run(s, steps).db, c, until)
    decreases |steps|
  {
    if |steps| > 0 {
      var t := Next(s, steps[0]);
      ReachableInv(s);
      StepKeepsHeld(s, steps[0], t, c, until);
      ReachableNext(s, steps[0]);
      ClaimsStay(s, steps[0]);
      RunKeepsHeld(t, steps[1..], c, until);
    }
  }

  lemma StepKeepsPaused(s: Sys, step: Step, t: Sys, job: Id, until: Time)
    requires t == Next(s, step) && PausedUntil(s.db, job, until)
    ensures PausedUntil(t.db, job, until)
  {
    if !CleanupCall(step) {
      OthersKeepJobs(s, step, t);
    } else if step.ClaimCleanup? {
      GrantKeepsPaused(s.db, step.cleanupOf, step.leaseOwner, job, until);
    } else if step.FinishCleanup? {
      FinishKeepsPaused(s.db, step.cleanup, step.absence, job, until);
    } else {
      FailKeepsPaused(s.db, step.cleanup, step.code, job, until);
    }
  }

  lemma {:induction false} RunKeepsPaused(s: Sys, steps: seq<Step>, job: Id, until: Time)
    requires PausedUntil(s.db, job, until)
    ensures PausedUntil(Run(s, steps).db, job, until)
    decreases |steps|
  {
    if |steps| > 0 {
      var t := Next(s, steps[0]);
      StepKeepsPaused(s, steps[0], t, job, until);
      RunKeepsPaused(t, steps[1..], job, until);
    }
  }

  // ---------------------------------------------------------------- the promises

  lemma GrantIsHeld(s: Db, id: Cleanup.Identity, owner: Id, t: Db, c: Cleanup.CleanupClaim)
    requires Cleanup.Claim(s, id, owner) == (t, Ok(c))
    ensures HeldUntil(t, c, s.now + 120000) && c.identity == id && c.claimedAt == s.now && c.leaseOwner == owner
  {}

  lemma GrantNeedsFree(s: Db, id: Cleanup.Identity, owner: Id)
    requires Cleanup.Claim(s, id, owner).1.Ok?
    ensures id.jobId in s.jobs && s.jobs[id.jobId].completedAt.None? && s.jobs[id.jobId].nextAttemptAt <= s.now
    ensures s.jobs[id.jobId].leaseExpiresAt.Some? ==> s.jobs[id.jobId].leaseExpiresAt.value <= s.now
  {}

  /**
   * In every run, a job granted to one worker is granted again, to anybody, no sooner than two minutes later, unless
   * the first worker has reported a failure in between.
   */
  lemma LeaseIsExclusive(s: Sys, id: Cleanup.Identity, owner: Id, later: seq<Step>, again: Cleanup.Identity,
                         other: Id)
    requires ReachableSys(s) && Cleanup.Claim(s.db, id, owner).1.Ok? && again.jobId == id.jobId
    requires var r := Next(s, ClaimCleanup(id, owner));
             && NeverGivenBack(r, later, Cleanup.Claim(s.db, id, owner).1.value)
             && Cleanup.Claim(Run(r, later).db, again, other).1.Ok?
    ensures var first := Cleanup.Claim(s.db, id, owner).1.value;
            var second := Cleanup.Claim(Run(Next(s, ClaimCleanup(id, owner)), later).db, again, other).1.value;
            second.claimedAt >= first.claimedAt + 120000
  {
    var r, c := Next(s, ClaimCleanup(id, owner)), Cleanup.Claim(s.db, id, owner).1.value;
    GrantedJobIsHeld(s, id, owner, c, r, later);
    GrantWaits(Run(r, later).db, again, other, c, s.db.now + 120000);
  }

  lemma GrantedJobIsHeld(s: Sys, id: Cleanup.Identity, owner: Id, c: Cleanup.CleanupClaim, r: Sys, later: seq<Step>)
    requires ReachableSys(s) && Cleanup.Claim(s.db, id, owner).1 == Ok(c) && r == Next(s, ClaimCleanup(id, owner))
    requires NeverGivenBack(r, later, c)
    ensures HeldUntil(Run(r, later).db, c, s.db.now + 120000) && c.identity == id && c.claimedAt == s.db.now
  {
    ReachableNext(s, ClaimCleanup(id, owner));
    GrantedStep(s, id, owner, c, r);
    GrantIsHeld(s.db, id, owner, r.db, c);
    RunKeepsHeld(r, later, c, s.db.now + 120000);
  }

  lemma GrantedStep(s: Sys, id: Cleanup.Identity, owner: Id, c: Cleanup.CleanupClaim, r: Sys)
    requires Cleanup.Claim(s.db, id, owner).1 == Ok(c) && r == Next(s, ClaimCleanup(id, owner))
    ensures c in r.cleanups && Cleanup.Claim(s.db, id, owner) == (r.db, Ok(c))
  {}

  lemma GrantWaits(s: Db, again: Cleanup.Identity, other: Id, c: Cleanup.CleanupClaim, until: Time)
    requires HeldUntil(s, c, until) && again.jobId == c.identity.jobId && Cleanup.Claim(s, again, other).1.Ok?
    ensures Cleanup.Claim(s, again, other).1.value.claimedAt >= until
  {
    GrantNeedsFree(s, again, other);
    GrantIsHeld(s, again, other, Cleanup.Claim(s, again, other).0, Cleanup.Claim(s, again, other).1.value);
  }

  /** One minute after the first attempt, twice as long after each further one, at most an hour. */
  lemma PauseDoubles(n: nat)
    requires n >= 1
    ensures Cleanup.Backoff(1) == 60000
    ensures Cleanup.Backoff(n + 1) == if Cleanup.Backoff(n) < 1800000 then 2 * Cleanup.Backoff(n) else 3600000
  {
    assert Cleanup.Pow2(0) == 1 && Cleanup.Pow2(n) == 2 * Cleanup.Pow2(n - 1);
  }

  lemma FailPauses(s: Db, c: Cleanup.CleanupClaim, code: string)
    requires Cleanup.Fail(s, c, code).1.Ok?
    ensures c.identity.jobId in s.jobs
    ensures PausedUntil(Cleanup.Fail(s, c, code).0, c.identity.jobId,
                        s.now + Cleanup.Backoff(s.jobs[c.identity.jobId].attempts))
  {}

  /** In every run, a failed job is granted again no sooner than its pause, which grows with the claims spent on it. */
  lemma FailureKeepsItsPause(s: Sys, c: Cleanup.CleanupClaim, code: string, later: seq<Step>, again: Cleanup.Identity,
                             other: Id)
    requires ReachableSys(s) && c in s.cleanups && Cleanup.Fail(s.db, c, code).1.Ok? && again.jobId == c.identity.jobId
    requires Cleanup.Claim(Run(Next(s, FailCleanup(c, code)), later).db, again, other).1.Ok?
    ensures var next := Cleanup.Claim(Run(Next(s, FailCleanup(c, code)), later).db, again, other).1.value;
            next.claimedAt >= s.db.now + Cleanup.Backoff(|ClaimsOn(s.cleanups, c.identity.jobId)|)
  {
    var r := Next(s, FailCleanup(c, code));
    var t := Run(r, later);
    ReachableInv(s);
    FailPauses(s.db, c, code);
    AttemptsAreClaims(s, c.identity.jobId);
    RunKeepsPaused(r, later, c.identity.jobId, s.db.now + Cleanup.Backoff(s.db.jobs[c.identity.jobId].attempts));
    PauseWaits(t.db, again, other, s.db.now + Cleanup.Backoff(s.db.jobs[c.identity.jobId].attempts));
  }

  lemma PauseWaits(s: Db, again: Cleanup.Identity, other: Id, until: Time)
    requires PausedUntil(s, again.jobId, until) && Cleanup.Claim(s, again, other).1.Ok?
    ensures Cleanup.Claim(s, again, other).1.value.claimedAt >= until
  {
    GrantNeedsFree(s, again, other);
    GrantIsHeld(s, again, other, Cleanup.Claim(s, again, other).0, Cleanup.Claim(s, again, other).1.value);
  }

  lemma AttemptsAreClaims(s: Sys, job: Id)
    requires AttemptsCounted(s) && job in s.db.jobs
    ensures s.db.jobs[job].attempts == |ClaimsOn(s.cleanups, job)|
  {}

  // ---------------------------------------------------------------- what is due and free is granted

  /** The rows of one attachment, object and job that belong together. */
  predicate Together(s: Db, id: Cleanup.Identity) {
    && id.attachmentId in s.attachments && id.objectId in s.objects && id.jobId in s.jobs
    && s.objects[id.objectId].attachmentId == id.attachmentId
    && s.jobs[id.jobId].attachmentId == id.attachmentId && s.jobs[id.jobId].objectId == id.objectId
  }

  /** The job is unfinished and due, nobody's lease on it is running, and it has attempts left. */
  predicate Free(j: Job, now: Time) {
    && j.completedAt.None? && j.nextAttemptAt <= now && j.attempts < 10
    && (j.leaseExpiresAt.None? || j.leaseExpiresAt.value <= now)
  }

  lemma UnfinishedIsNotDeleted(s: Db, j: Id)
    requires DebtsFit(s) && JobsOk(s) && j in s.jobs && s.jobs[j].completedAt.None?
    ensures s.jobs[j].objectId in s.objects && s.objects[s.jobs[j].objectId].status != ObjectStatus.Deleted
  {
    assert JobOk(s.jobs[j]);
    assert Incomplete(s.jobs, j, s.jobs[j].objectId);
    assert HasDebt(s.jobs, s.jobs[j].objectId);
  }

  lemma GrantsExactly(s: Db, id: Cleanup.Identity, owner: Id)
    requires Together(s, id) && RowOk(s.objects[id.objectId])
    requires s.jobs[id.jobId].completedAt.None? ==> s.objects[id.objectId].status != ObjectStatus.Deleted
    ensures Cleanup.Claim(s, id, owner).1.Ok? <==> Cleanup.Lockable(s, id) && Free(s.jobs[id.jobId], s.now)
    ensures Cleanup.Claim(s, id, owner).1.Ok? ==>
              var (t, r) := Cleanup.Claim(s, id, owner);
              var o, j := s.objects[id.objectId], s.jobs[id.jobId];
              && t == s.(objects := s.objects[id.objectId := o.(status := DeletePending,
                                                                objectVersion := o.objectVersion + 1)],
                         jobs := s.jobs[id.jobId := j.(leaseOwner := Some(owner), attempts := j.attempts + 1,
                                                       leaseExpiresAt := Some(s.now + 120000))])
              && r.value.identity == id && r.value.leaseOwner == owner && r.value.claimedAt == s.now
              && r.value.objectVersion == o.objectVersion + 1
  {}

  /**
   * In every run: an object of a deleted or rejected attachment whose PUT is not in doubt is granted for deletion
   * exactly when its job is unfinished, due, not leased and under ten attempts.
   */
  lemma DueIsGranted(s: Sys, id: Cleanup.Identity, owner: Id)
    requires ReachableSys(s) && Together(s.db, id)
    requires s.db.attachments[id.attachmentId].state == AttachmentState.Deleted
             || s.db.attachments[id.attachmentId].state == AttachmentState.Rejected
    ensures Cleanup.Claim(s.db, id, owner).1.Ok? <==>
            !s.db.objects[id.objectId].putUncertain && Free(s.db.jobs[id.jobId], s.db.now)
  {
    ReachableInv(s);
    RowIsOk(s.db, id.objectId);
    if s.db.jobs[id.jobId].completedAt.None? { UnfinishedIsNotDeleted(s.db, id.jobId); }
    GrantsExactly(s.db, id, owner);
  }

  /** A derivative that readers are served: written, settled and within its limit. */
  predicate Served(s: Db, attachmentId: Id, id: Option<Id>, variant: Variant, content: ContentType, limit: nat) {
    exists k :: k in s.objects && id == Some(k) && ServedRow(s.objects[k], attachmentId, variant, content, limit)
  }

  predicate ServedRow(o: Object, attachmentId: Id, variant: Variant, content: ContentType, limit: nat) {
    o.attachmentId == attachmentId && o.variant == variant && o.status == Written && o.etag.Some?
    && o.contentType == content && o.byteCount <= limit
  }

  /** An image keeps a web picture and a thumbnail, a video a film and a thumbnail, a text only itself. */
  predicate Published(s: Db, attachmentId: Id, a: Attachment) {
    match a.format
    case Image => Served(s, attachmentId, a.normalizedId, Normalized, Webp, 4194304)
                  && Served(s, attachmentId, a.thumbnailId, Thumbnail, Webp, 262144)
    case Video => Served(s, attachmentId, a.normalizedId, Normalized, Mp4, 3145728)
                  && Served(s, attachmentId, a.thumbnailId, Thumbnail, Jpeg, 262144)
    case Text => Served(s, attachmentId, a.normalizedId, Normalized, OctetStream, 65536) && a.thumbnailId.None?
  }

  lemma SettledIsServed(s: Db, attachmentId: Id, id: Option<Id>, variant: Variant, content: ContentType, limit: nat)
    requires id.Some? && id.value in s.objects ==> RowOk(s.objects[id.value])
    ensures Served(s, attachmentId, id, variant, content, limit) <==>
            Cleanup.Settled(s, attachmentId, id, variant) && s.objects[id.value].contentType == content
            && s.objects[id.value].byteCount <= limit
  {
    if id.Some? && id.value in s.objects {
      assert ServedRow(s.objects[id.value], attachmentId, variant, content, limit) ==>
               Served(s, attachmentId, id, variant, content, limit);
    }
  }

  lemma PublishedIsDisposable(s: Db, id: Cleanup.Identity)
    requires Together(s, id) && RowsOk(s)
    ensures var a, o := s.attachments[id.attachmentId], s.objects[id.objectId];
            Cleanup.OriginalDisposable(s, id) <==>
            && a.state == Ready && a.leaseOwner.None? && o.variant == Source && a.sourceId == Some(id.objectId)
            && Published(s, id.attachmentId, a)
            && !(s.processing.owner.Some? && s.processing.attachmentId == Some(id.attachmentId))
  {
    var a := s.attachments[id.attachmentId];
    if a.normalizedId.Some? && a.normalizedId.value in s.objects { RowIsOk(s, a.normalizedId.value); }
    if a.thumbnailId.Some? && a.thumbnailId.value in s.objects { RowIsOk(s, a.thumbnailId.value); }
    SettledIsServed(s, id.attachmentId, a.normalizedId, Normalized, Webp, 4194304);
    SettledIsServed(s, id.attachmentId, a.normalizedId, Normalized, Mp4, 3145728);
    SettledIsServed(s, id.attachmentId, a.normalizedId, Normalized, OctetStream, 65536);
    SettledIsServed(s, id.attachmentId, a.thumbnailId, Thumbnail, Webp, 262144);
    SettledIsServed(s, id.attachmentId, a.thumbnailId, Thumbnail, Jpeg, 262144);
  }

  /**
   * In every run: of an attachment that is still alive only the original of a published one is granted for deletion,
   * and only while every derivative readers are served is written and nobody is processing it.
   */
  lemma LiveAttachmentKeepsItsParts(s: Sys, id: Cleanup.Identity, owner: Id)
    requires ReachableSys(s) && Together(s.db, id)
    requires s.db.attachments[id.attachmentId].state != AttachmentState.Deleted
             && s.db.attachments[id.attachmentId].state != AttachmentState.Rejected
    ensures var a, o := s.db.attachments[id.attachmentId], s.db.objects[id.objectId];
            Cleanup.Claim(s.db, id, owner).1.Ok? <==>
            && !o.putUncertain && Free(s.db.jobs[id.jobId], s.db.now)
            && a.state == Ready && a.leaseOwner.None? && o.variant == Source && a.sourceId == Some(id.objectId)
            && Published(s.db, id.attachmentId, a)
            && !(s.db.processing.owner.Some? && s.db.processing.attachmentId == Some(id.attachmentId))
  {
    ReachableInv(s);
    RowIsOk(s.db, id.objectId);
    PublishedIsDisposable(s.db, id);
    if s.db.jobs[id.jobId].completedAt.None? { UnfinishedIsNotDeleted(s.db, id.jobId); }
    GrantsExactly(s.db, id, owner);
  }

  /**
   * In every run: which rows the cleanup ledger may work on at all. The three belong together, no PUT is in doubt, and
   * the attachment is over, or published with this as its spare original.
   */
  lemma LockedExactly(s: Sys, id: Cleanup.Identity)
    requires ReachableSys(s)
    ensures Cleanup.Lockable(s.db, id) <==>
            && Together(s.db, id) && !s.db.objects[id.objectId].putUncertain
            && var a := s.db.attachments[id.attachmentId];
               || a.state == AttachmentState.Deleted || a.state == AttachmentState.Rejected
               || (a.state == Ready && a.leaseOwner.None? && s.db.objects[id.objectId].variant == Source
                   && a.sourceId == Some(id.objectId) && Published(s.db, id.attachmentId, a)
                   && !(s.db.processing.owner.Some? && s.db.processing.attachmentId == Some(id.attachmentId)))
  {
    ReachableInv(s);
    if Together(s.db, id) {
      RowIsOk(s.db, id.objectId);
      PublishedIsDisposable(s.db, id);
    }
  }

  /** Nothing is granted, finished or failed on rows that may not be worked on. */
  lemma UnlockedIsRefused(s: Db, c: Cleanup.CleanupClaim, owner: Id, e: Cleanup.Absence, code: string)
    requires !Cleanup.Lockable(s, c.identity)
    ensures Cleanup.Claim(s, c.identity, owner) == (s, Refused(ClaimConflict))
    ensures Cleanup.Finish(s, c, e) == (s, Refused(ClaimConflict))
    ensures Cleanup.Fail(s, c, code).0 == s && Cleanup.Fail(s, c, code).1.Refused?
  {}

  // ---------------------------------------------------------------- ending the work

  /** The claim is the last one granted and its lease is still running. */
  predicate Holding(s: Db, c: Cleanup.CleanupClaim)
    requires c.identity.objectId in s.objects && c.identity.jobId in s.jobs
  {
    var o, j := s.objects[c.identity.objectId], s.jobs[c.identity.jobId];
    && o.objectVersion == c.objectVersion && c.objectVersion <= 0x1F_FFFF_FFFF_FFFF
    && j.completedAt.None? && j.leaseOwner == Some(c.leaseOwner)
    && j.leaseExpiresAt.Some? && s.now < j.leaseExpiresAt.value
  }

  /** The store was asked for exactly this object after the grant, and had nothing left of it. */
  predicate Absent(s: Db, c: Cleanup.CleanupClaim, e: Cleanup.Absence) {
    && e.confirmedLocator == c.manifest.locator && e.headMissing && e.ownedListingResidual == 0
    && c.claimedAt <= e.observedAt && e.observedAt <= s.now + 1000
  }

  lemma HoldingIsLive(s: Db, c: Cleanup.CleanupClaim)
    requires CleanupIssued(s, c) && c.objectVersion >= 0
    requires s.jobs[c.identity.jobId].completedAt.None? ==>
               s.objects[c.identity.objectId].status != ObjectStatus.Deleted
    ensures Cleanup.Live(s, c) <==> Holding(s, c)
  {}

  lemma HeldJobIsOpen(s: Sys, c: Cleanup.CleanupClaim)
    requires SysInv(s) && c in s.cleanups
    ensures CleanupIssued(s.db, c)
    ensures s.db.jobs[c.identity.jobId].completedAt.None? ==>
              s.db.objects[c.identity.objectId].status != ObjectStatus.Deleted
    ensures Holding(s.db, c) <==> Cleanup.Live(s.db, c)
  {
    IssuedRow(s, c);
    if s.db.jobs[c.identity.jobId].completedAt.None? { UnfinishedIsNotDeleted(s.db, c.identity.jobId); }
    if c.objectVersion >= 0 { HoldingIsLive(s.db, c); }
  }

  /**
   * In every run: a worker that holds its job ends it exactly with proof of absence, and then the row is deleted and
   * the job closed. Without proof nothing changes.
   */
  lemma HolderFinishesExactly(s: Sys, c: Cleanup.CleanupClaim, e: Cleanup.Absence)
    requires ReachableSys(s) && c in s.cleanups && Cleanup.Lockable(s.db, c.identity)
    ensures c.identity.objectId in s.db.objects && c.identity.jobId in s.db.jobs
    ensures Cleanup.Finish(s.db, c, e).0 != s.db <==> Holding(s.db, c) && Absent(s.db, c, e)
    ensures Holding(s.db, c) && Absent(s.db, c, e) ==>
              var o, j := s.db.objects[c.identity.objectId], s.db.jobs[c.identity.jobId];
              && Cleanup.Finish(s.db, c, e).1 == Ok(())
              && Cleanup.Finish(s.db, c, e).0 ==
                 s.db.(objects := s.db.objects[c.identity.objectId :=
                         o.(status := ObjectStatus.Deleted, deletedAt := Some(s.db.now),
                            objectVersion := o.objectVersion + 1)],
                       jobs := s.db.jobs[c.identity.jobId :=
                         j.(completedAt := Some(s.db.now), leaseOwner := None, leaseExpiresAt := None,
                            lastError := None)])
    ensures !Absent(s.db, c, e) ==> Cleanup.Finish(s.db, c, e) == (s.db, Refused(Integrity))
  {
    ReachableInv(s);
    HeldJobIsOpen(s, c);
  }

  /** In every run: a worker reports a known failure exactly while it holds its job, which is free after its pause. */
  lemma HolderFailsExactly(s: Sys, c: Cleanup.CleanupClaim, code: string)
    requires ReachableSys(s) && c in s.cleanups && Cleanup.Lockable(s.db, c.identity)
    ensures c.identity.objectId in s.db.objects && c.identity.jobId in s.db.jobs
    ensures Cleanup.Fail(s.db, c, code).1.Ok? <==>
            && Holding(s.db, c)
            && (code == "STORAGE_UNAVAILABLE" || code == "STORAGE_INTEGRITY" || code == "STORAGE_OWNERSHIP"
                || code == "RESIDUAL_FOUND" || code == "CLEANUP_CANCELLED")
    ensures Cleanup.Fail(s.db, c, code).1.Ok? ==>
              var j := s.db.jobs[c.identity.jobId];
              Cleanup.Fail(s.db, c, code).0 ==
              s.db.(jobs := s.db.jobs[c.identity.jobId :=
                      j.(leaseOwner := None, leaseExpiresAt := None, lastError := Some(code),
                         nextAttemptAt := s.db.now + Cleanup.Backoff(j.attempts))])
  {
    ReachableInv(s);
    HeldJobIsOpen(s, c);
  }
}
