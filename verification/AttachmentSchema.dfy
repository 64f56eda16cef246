/**
 * The database's own defence: row checks and update guards that the schema enforces
 * independently of the ledgers. No ledger call on a reachable system is rejected by them.
 */
module AttachmentSchema {
  import opened Common
  import opened AttachmentRows
  import opened AttachmentProtocol
  import opened AttachmentSafety
  import opened AttachmentTheorems
  import opened AttachmentSupervision
  import opened AttachmentSupervisionRuns
  import Put = AttachmentObjectLedger
  import Cleanup = AttachmentCleanupLedger

  predicate PrintableTag(v: string) {
    1 <= |v| <= 256 && forall i :: 0 <= i < |v| ==> '!' <= v[i] <= '~'
  }

  predicate ErrorCode(v: string) {
    1 <= |v| <= 64 && forall i :: 0 <= i < |v| ==> 'A' <= v[i] <= 'Z' || v[i] == '_'
  }

  /** The CHECK constraints of single columns, and of the claim with its time. */
  predicate ColumnChecks(o: Object) {
    && 1 <= o.byteCount <= 4194304 && LowerHex(o.sha256)
    && (o.etag.None? || PrintableTag(o.etag.value))
    && (o.putClaim.None? <==> o.claimedAt.None?)
  }

  /** The CHECK constraints that relate the columns of an object row. */
  predicate ObjectChecks(o: Object) {
    && (o.status == ObjectStatus.Deleted <==> o.deletedAt.Some?)
    && (o.status != Written || (o.etag.Some? && o.settledAt.Some?))
    && (o.putClaim.Some? || (o.settledAt.None? && o.abandonedAt.None? && o.supervision.None? && !o.putUncertain))
    && (o.settledAt.None? || (!o.putUncertain && o.etag.Some?))
    && (o.putClaim.None? || o.putUncertain == (o.settledAt.None? && o.abandonedAt.None?))
    && (o.abandonedAt.None? || (o.supervision.Some? && o.settledAt.None? && o.etag.None? && !o.putUncertain
                                && o.status in {DeletePending, ObjectStatus.Deleted}))
    && (o.status != ObjectStatus.Deleted || !o.putUncertain)
  }

  /** The guard trigger's single-use rules for the claim, settlement, supervision and abandonment. */
  predicate ClaimIsSingleUse(s: Db, o: Object, p: Object) {
    && (o.putClaim.Some? ==> p.putClaim == o.putClaim && p.claimedAt == o.claimedAt)
    && (o.putClaim.None? && p.putClaim.Some? ==> o.status == Reserved && p.putUncertain && p.settledAt.None?)
    && (o.settledAt.Some? ==> p.settledAt == o.settledAt && p.putUncertain == o.putUncertain)
    && Keeps(o.supervision, p.supervision)
    && (o.supervision.None? && p.supervision.Some? ==>
          o.putClaim.Some? && o.putUncertain && o.settledAt.None? && o.abandonedAt.None?)
    && (o.abandonedAt.Some? ==> p.abandonedAt == o.abandonedAt && p.putUncertain == o.putUncertain
                                && p.settledAt == o.settledAt && p.etag == o.etag)
    && (o.abandonedAt.None? && p.abandonedAt.Some? ==>
          o.supervision.Some? && o.attachmentId in s.attachments
          && s.attachments[o.attachmentId].state in {AttachmentState.Rejected, AttachmentState.Deleted})
  }

  /** The guard's lifecycle edges, including the reopening of a deleted object by a late write. */
  predicate LifecycleEdge(s: Db, k: Id, o: Object, p: Object) {
    || o.status == p.status
    || (o.status == Reserved && p.status in {Written, DeletePending})
    || (o.status == Written && p.status == DeletePending)
    || (o.status == DeletePending && p.status == ObjectStatus.Deleted)
    || (o.status == ObjectStatus.Deleted && p.status == DeletePending
        && exists j :: j in s.jobs && Incomplete(s.jobs, j, k) && s.jobs[j].reason == LateWrite)
  }

  predicate ObjectGuard(s: Db, k: Id, o: Object, p: Object) {
    && p.objectVersion == o.objectVersion + 1
    && ClaimIsSingleUse(s, o, p)
    && SameIdentity(o, p) && Keeps(o.etag, p.etag)
    && LifecycleEdge(s, k, o, p)
    && (o.status == p.status == ObjectStatus.Deleted ==> p.deletedAt == o.deletedAt)
  }

  predicate JobGuard(i: Job, j: Job) {
    && i.attachmentId == j.attachmentId && i.objectId == j.objectId && i.reason == j.reason
    && (i.completedAt.Some? ==> j == i)
    && i.attempts <= j.attempts
  }

  predicate JobChecks(j: Job) {
    0 <= j.attempts <= 10 && (j.leaseOwner.None? <==> j.leaseExpiresAt.None?)
  }

  predicate JobColumnChecks(j: Job) {
    j.lastError.None? || ErrorCode(j.lastError.value)
  }

  /** The foreign key of a cleanup job. */
  predicate OwnsObject(s: Db, j: Job) {
    j.objectId in s.objects && s.objects[j.objectId].attachmentId == j.attachmentId
  }

  /** UNIQUE(attachment_id, attempt_id, variant). */
  predicate AttemptsDistinct(s: Db) {
    forall i, k :: i in s.objects && k in s.objects && SameAttempt(s.objects[i], s.objects[k]) ==> i == k
  }

  /** Column checks, foreign keys and the key of attempts hold of all rows. */
  ghost predicate ColumnsOk(s: Db) {
    && (forall k :: k in s.objects ==> ColumnChecks(s.objects[k]))
    && (forall j :: j in s.jobs ==> JobColumnChecks(s.jobs[j]) && OwnsObject(s, s.jobs[j]))
    && AttemptsDistinct(s)
  }

  /** Every update and insert of a transaction from s to t passes the schema. */
  ghost predicate SchemaAccepts(s: Db, t: Db) {
    && (forall k :: k in s.objects ==> k in t.objects)
    && (forall k :: k in s.objects && t.objects[k] != s.objects[k] ==>
          ObjectGuard(s, k, s.objects[k], t.objects[k]) && ObjectChecks(t.objects[k]))
    && (forall j :: j in s.jobs ==> j in t.jobs)
    && (forall j :: j in s.jobs && t.jobs[j] != s.jobs[j] ==> JobGuard(s.jobs[j], t.jobs[j]))
    && (forall j :: j in t.jobs ==> JobChecks(t.jobs[j]))
    && (forall i, j, k :: Incomplete(t.jobs, i, k) && Incomplete(t.jobs, j, k) ==> i == j)
    && ColumnsOk(t) && SupervisionsDistinct(t)
  }

  lemma RowOkImpliesChecks(o: Object)
    requires RowOk(o)
    ensures ObjectChecks(o)
  {}

  predicate NewJobFits(s: Db, j: Job) {
    OwnsObject(s, j) && JobColumnChecks(j)
  }

  predicate RowGuarded(s: Db, k: Id, o: Object, p: Object) {
    ObjectGuard(s, k, o, p) && (ColumnChecks(o) ==> ColumnChecks(p))
  }

  predicate JobGuarded(i: Job, j: Job) {
    JobGuard(i, j) && (JobColumnChecks(i) ==> JobColumnChecks(j))
  }

  predicate JobsGuarded(s: Db, t: Db) {
    && (forall j :: j in s.jobs ==> j in t.jobs && JobGuarded(s.jobs[j], t.jobs[j]))
    && (forall j :: j in t.jobs && j !in s.jobs ==> NewJobFits(t, t.jobs[j]))
  }

  /** At most one object row changes, through a guarded update; new jobs fit their object. */
  ghost predicate OneRowGuarded(s: Db, t: Db, k: Id) {
    && t.attachments == s.attachments
    && (t.objects == s.objects
        || (k in s.objects && k in t.objects && t.objects == s.objects[k := t.objects[k]]
            && RowGuarded(s, k, s.objects[k], t.objects[k])))
    && JobsGuarded(s, t)
  }

  lemma ClaimPutGuarded(s: Db, a: Id, k: Id, f: Put.Fence, claimId: Id)
    requires k in s.objects ==> RowOk(s.objects[k])
    ensures OneRowGuarded(s, Put.ClaimPut(s, a, k, f, claimId).0, k)
  {}

  lemma BindGuarded(s: Db, p: Proofs, c: PutClaim, handle: Id)
    requires c.objectId in s.objects ==> RowOk(s.objects[c.objectId])
    ensures OneRowGuarded(s, Put.BindSupervision(s, p, c, handle).0, c.objectId)
  {}

  lemma AbandonGuarded(s: Db, p: Proofs, c: PutClaim, certificate: Certificate, closure: Closure, newJob: Id)
    requires newJob !in s.jobs && (c.objectId in s.objects ==> RowOk(s.objects[c.objectId]))
    ensures OneRowGuarded(s, Put.AbandonUnsent(s, p, c, certificate, closure, newJob).0, c.objectId)
  {}

  lemma TagIsPrintable(v: string)
    requires Put.ValidEtag(v)
    ensures PrintableTag(v)
  {}

  lemma RecordGuarded(s: Db, c: PutClaim, observed: StoredObject, newJob: Id)
    requires newJob !in s.jobs && (c.objectId in s.objects ==> RowOk(s.objects[c.objectId]))
    ensures OneRowGuarded(s, Put.RecordPutResult(s, c, observed, newJob).0, c.objectId)
  {
    if Put.ValidEtag(observed.version) { TagIsPrintable(observed.version); }
  }

  lemma CleanupClaimGuarded(s: Db, id: Cleanup.Identity, owner: Id)
    requires id.objectId in s.objects ==> RowOk(s.objects[id.objectId])
    ensures OneRowGuarded(s, Cleanup.Claim(s, id, owner).0, id.objectId)
  {}

  lemma FinishGuarded(s: Db, c: Cleanup.CleanupClaim, e: Cleanup.Absence)
    requires c.identity.objectId in s.objects ==> RowOk(s.objects[c.identity.objectId])
    ensures OneRowGuarded(s, Cleanup.Finish(s, c, e).0, c.identity.objectId)
  {}

  lemma FailuresAreCodes(code: string)
    requires code in Cleanup.FAILURES
    ensures ErrorCode(code)
  {}

  lemma FailGuarded(s: Db, c: Cleanup.CleanupClaim, code: string)
    ensures OneRowGuarded(s, Cleanup.Fail(s, c, code).0, c.identity.objectId)
  {
    if code in Cleanup.FAILURES { FailuresAreCodes(code); }
  }

  lemma RetireGuarded(s: Db, id: Id, reason: Reason, newJob: Id)
    requires id in s.objects ==> RowOk(s.objects[id])
    ensures OneRowGuarded(s, Retire(s, id, reason, newJob), id)
  {}

  lemma OrphanedGuarded(s: Db, id: Id, newJob: Id)
    ensures OneRowGuarded(s, Orphaned(s, id, newJob), id)
  {}

  /** A guarded change keeps every column check and key. */
  lemma GuardedKeepsColumns(s: Db, t: Db, k: Id)
    requires ColumnsOk(s) && OneRowGuarded(s, t, k)
    ensures ColumnsOk(t)
  {
    forall j | j in t.jobs ensures JobColumnChecks(t.jobs[j]) && OwnsObject(t, t.jobs[j]) {
      if j in s.jobs { assert JobGuarded(s.jobs[j], t.jobs[j]) && OwnsObject(s, s.jobs[j]); }
    }
    forall i, l | i in t.objects && l in t.objects && SameAttempt(t.objects[i], t.objects[l]) ensures i == l {
      assert SameAttempt(s.objects[i], s.objects[l]);
    }
  }

  lemma GuardedIsAccepted(s: Db, t: Db, k: Id)
    requires RowsOk(t) && JobsOk(t) && SoleDebts(t.jobs) && OneRowGuarded(s, t, k)
    requires ColumnsOk(t) && SupervisionsDistinct(t)
    ensures SchemaAccepts(s, t)
  {
    forall i | i in s.objects && t.objects[i] != s.objects[i] ensures ObjectChecks(t.objects[i]) {
      RowIsOk(t, i);
      RowOkImpliesChecks(t.objects[i]);
    }
    forall j | j in t.jobs ensures JobChecks(t.jobs[j]) { assert JobOk(t.jobs[j]); }
  }

  predicate LedgerCall(step: Step) {
    step.ClaimPut? || step.BindSupervision? || step.AbandonUnsent? || step.RecordPutResult?
    || step.ClaimCleanup? || step.FinishCleanup? || step.FailCleanup?
  }

  function Target(step: Step): Id
    requires LedgerCall(step)
  {
    match step
    case ClaimPut(_, o, _, _) => o
    case BindSupervision(p, _) => p.objectId
    case AbandonUnsent(p, _, _, _) => p.objectId
    case RecordPutResult(p, _, _) => p.objectId
    case ClaimCleanup(id, _) => id.objectId
    case FinishCleanup(c, _) => c.identity.objectId
    case FailCleanup(c, _) => c.identity.objectId
  }

  lemma CallIsGuarded(s: Sys, step: Step)
    requires LedgerCall(step) && (Target(step) in s.db.objects ==> RowOk(s.db.objects[Target(step)]))
    ensures OneRowGuarded(s.db, Next(s, step).db, Target(step))
  {
    if Next(s, step).db != s.db {
      match step {
        case ClaimPut(a, o, f, c) => ClaimPutGuarded(s.db, a, o, f, c);
        case BindSupervision(p, handle) => BindGuarded(s.db, s.proofs, p, handle);
        case AbandonUnsent(p, certificate, closure, j) => AbandonGuarded(s.db, s.proofs, p, certificate, closure, j);
        case RecordPutResult(p, observed, j) => RecordGuarded(s.db, p, observed, j);
        case ClaimCleanup(id, owner) => CleanupClaimGuarded(s.db, id, owner);
        case FinishCleanup(c, e) => FinishGuarded(s.db, c, e);
        case FailCleanup(c, code) => FailGuarded(s.db, c, code);
      }
    }
  }

  lemma EnvironmentKeepsColumns(s: Db, step: Step, t: Db)
    requires RowsOk(s) && ColumnsOk(s) && t == Environment(s, step)
    ensures ColumnsOk(t)
  {
    match step
    case RetireObject(id, reason, newJob) =>
      RetireKeepsColumns(s, id, reason, newJob);
    case DiscardOriginal(id, newJob) =>
      OrphanedKeepsColumns(s, id, newJob);
    case ReserveObject(id, a, attempt, variant, bytes, sha256, content) =>
      ReserveKeepsColumns(s, id, NewObject(a, attempt, variant, bytes, sha256, content));
    case _ =>
      assert t.objects == s.objects && t.jobs == s.jobs;
  }

  lemma RetireKeepsColumns(s: Db, id: Id, reason: Reason, newJob: Id)
    requires RowsOk(s) && ColumnsOk(s)
    ensures ColumnsOk(Retire(s, id, reason, newJob))
  {
    if id in s.objects { RowIsOk(s, id); }
    RetireGuarded(s, id, reason, newJob);
    GuardedKeepsColumns(s, Retire(s, id, reason, newJob), id);
  }

  lemma OrphanedKeepsColumns(s: Db, id: Id, newJob: Id)
    requires ColumnsOk(s)
    ensures ColumnsOk(Orphaned(s, id, newJob))
  {
    OrphanedGuarded(s, id, newJob);
    GuardedKeepsColumns(s, Orphaned(s, id, newJob), id);
  }

  lemma ReserveKeepsColumns(s: Db, id: Id, o: Object)
    requires ColumnsOk(s) && o.etag.None? && o.putClaim.None? && o.claimedAt.None?
    ensures ColumnsOk(Reserve(s, id, o))
  {
    var t := Reserve(s, id, o);
    if t != s {
      forall j | j in t.jobs ensures OwnsObject(t, t.jobs[j]) { assert OwnsObject(s, s.jobs[j]); }
      forall i, l | i in t.objects && l in t.objects && SameAttempt(t.objects[i], t.objects[l]) ensures i == l {
        if i != id && l != id { assert SameAttempt(s.objects[i], s.objects[l]); }
      }
    }
  }

  lemma StepKeepsColumns(s: Sys, step: Step, t: Sys)
    requires RowsOk(s.db) && ColumnsOk(s.db) && t == Next(s, step)
    ensures ColumnsOk(t.db)
  {
    if LedgerCall(step) {
      if Target(step) in s.db.objects { RowIsOk(s.db, Target(step)); }
      CallIsGuarded(s, step);
      GuardedKeepsColumns(s.db, t.db, Target(step));
    } else if t.db != s.db {
      EnvironmentKeepsColumns(s.db, step, t.db);
    }
  }

  lemma {:induction false} ColumnsStayOk(s: Sys, steps: seq<Step>)
    requires SysInv(s) && ColumnsOk(s.db)
    ensures ColumnsOk(Run(s, steps).db)
    decreases |steps|
  {
    if |steps| > 0 {
      var t := Next(s, steps[0]);
      Preserved(s, steps[0], t);
      StepKeepsColumns(s, steps[0], t);
      ColumnsStayOk(t, steps[1..]);
    }
  }

  lemma ReachableColumns(s: Sys)
    requires ReachableSys(s)
    ensures SysInv(s) && ColumnsOk(s.db) && SupervisionOk(s)
  {
    var steps :| s == Run(Initial(), steps);
    Reachable([]);
    ColumnsStayOk(Initial(), steps);
    SupervisionForward(Initial(), steps);
    Reachable(steps);
  }

  /** In every run, every ledger call's updates pass the schema's checks, keys and guards. */
  lemma LedgersRespectSchema(s: Sys, step: Step)
    requires ReachableSys(s) && LedgerCall(step)
    ensures SchemaAccepts(s.db, Next(s, step).db)
  {
    var t := Next(s, step);
    ReachableColumns(s);
    Preserved(s, step, t);
    StepKeepsColumns(s, step, t);
    StepKeepsSupervision(s, step, t);
    BoundIsDistinct(t.db, t.proofs);
    if Target(step) in s.db.objects { RowIsOk(s.db, Target(step)); }
    CallIsGuarded(s, step);
    GuardedIsAccepted(s.db, t.db, Target(step));
  }
}
