/**
 * The promises of the PUT and cleanup protocol, stated for every run. A run is any
 * sequence of ledger calls and environment steps from the empty database; `later` is any
 * continuation of it.
 */
module AttachmentTheorems {
  import opened Common
  import opened AttachmentRows
  import opened AttachmentProtocol
  import opened AttachmentSafety
  import opened AttachmentSupervision
  import Put = AttachmentObjectLedger
  import Cleanup = AttachmentCleanupLedger

  /** A state of a run, and a state some steps later. */
  ghost predicate Observed(s: Sys, t: Sys) {
    exists steps, later :: s == Run(Initial(), steps) && t == Run(s, later)
  }

  lemma Observe(s: Sys, t: Sys)
    requires Observed(s, t)
    ensures SysInv(s) && SysInv(t) && SysEvolves(s, t)
  {
    var steps, later :| s == Run(Initial(), steps) && t == Run(s, later);
    Reachable(steps);
    Forward(s, later);
  }

  /** Rows only move forward: status along the lifecycle, versions strictly with every change. */
  lemma StatusMovesForward(s: Sys, t: Sys, k: Id)
    requires Observed(s, t) && k in s.db.objects
    ensures k in t.db.objects
    ensures Rank(s.db.objects[k].status) <= Rank(t.db.objects[k].status)
    ensures s.db.objects[k] != t.db.objects[k] ==> s.db.objects[k].objectVersion < t.db.objects[k].objectVersion
    ensures s.db.objects[k].status == ObjectStatus.Deleted ==> t.db.objects[k] == s.db.objects[k]
  {
    Observe(s, t);
    assert ObjectEvolves(s.db.objects[k], t.db.objects[k]);
  }

  /** A cleanup is never granted, and an object never deleted, while its PUT is in doubt. */
  lemma NoDeletionInDoubt(s: Sys, t: Sys, id: Cleanup.Identity, leaseOwner: Id, k: Id)
    requires Observed(s, t) && k in t.db.objects
    ensures t.db.objects[k].status == ObjectStatus.Deleted ==> !Cleanup.InDoubt(t.db.objects[k])
    ensures Cleanup.Claim(t.db, id, leaseOwner).1.Ok? ==> !Cleanup.InDoubt(t.db.objects[id.objectId])
    ensures forall c :: c in t.cleanups ==>
              c.identity.objectId in t.db.objects && Closed(t.db.objects[c.identity.objectId])
  {
    Observe(s, t);
    assert RowOk(t.db.objects[k]);
    forall c | c in t.cleanups
      ensures c.identity.objectId in t.db.objects && Closed(t.db.objects[c.identity.objectId]) {
      assert CleanupIssued(t.db, c);
    }
  }

  /**
   * Once cleanup has claimed an object, no PUT can be claimed on it and no PUT operation
   * writes its row, for any claim, fence, observation or record of sends and at any later time.
   */
  lemma NoWriteAfterCleanup(s: Sys, t: Sys, c: Cleanup.CleanupClaim, put: PutClaim,
                            attachmentId: Id, fence: Put.Fence, claimId: Id, observed: StoredObject, newJob: Id,
                            p: Proofs, handle: Id, certificate: Certificate, closure: Closure)
    requires Observed(s, t) && c in s.cleanups && put.objectId == c.identity.objectId
    ensures Put.ClaimPut(t.db, attachmentId, c.identity.objectId, fence, claimId).1 == Refused(ClaimConflict)
    ensures Put.BindSupervision(t.db, p, put, handle) == (t.db, Refused(BindingRefusal(p, put, handle)))
    ensures Put.RecordPutResult(t.db, put, observed, newJob).0 == t.db
    ensures Put.RecordPutResult(t.db, put, observed, newJob).1 != Ok(true)
    ensures Put.AbandonUnsent(t.db, p, put, certificate, closure, newJob).0 == t.db
  {
    Observe(s, t);
    IssuedRow(t, c);
    RowIsOk(t.db, c.identity.objectId);
    ClosedRowIsFinal(t.db, put, attachmentId, fence, claimId, observed, newJob, p, handle, certificate, closure);
  }

  /** A handle that is not acceptable is refused before the row is read. */
  function BindingRefusal(p: Proofs, put: PutClaim, handle: Id): Failure {
    if SupervisionIdentity(p, handle, put.manifest.locator).Ok? then ClaimConflict else StorageConflict
  }

  lemma ClosedRowIsFinal(s: Db, put: PutClaim, attachmentId: Id, fence: Put.Fence, claimId: Id,
                         observed: StoredObject, newJob: Id, p: Proofs, handle: Id, certificate: Certificate,
                         closure: Closure)
    requires put.objectId in s.objects && RowOk(s.objects[put.objectId]) && Closed(s.objects[put.objectId])
    ensures Put.ClaimPut(s, attachmentId, put.objectId, fence, claimId).1 == Refused(ClaimConflict)
    ensures Put.BindSupervision(s, p, put, handle) == (s, Refused(BindingRefusal(p, put, handle)))
    ensures Put.RecordPutResult(s, put, observed, newJob).0 == s
    ensures Put.RecordPutResult(s, put, observed, newJob).1 != Ok(true)
    ensures Put.AbandonUnsent(s, p, put, certificate, closure, newJob).0 == s
  {}

  // ---------------------------------------------------------------- fencing

  /** At most one issued claim on an object can pass the fence at any time. */
  lemma AtMostOneLiveClaim(s: Sys, t: Sys, c: Cleanup.CleanupClaim, d: Cleanup.CleanupClaim)
    requires Observed(s, t) && c in t.cleanups && d in t.cleanups && c.identity.objectId == d.identity.objectId
    ensures c.objectVersion == d.objectVersion ==> c == d
    ensures c.identity.objectId in t.db.objects && c.identity.jobId in t.db.jobs && d.identity.jobId in t.db.jobs
    ensures Cleanup.Live(t.db, c) && Cleanup.Live(t.db, d) ==> c == d
  {
    Observe(s, t);
    IssuedRow(t, c);
    IssuedRow(t, d);
  }

  /** A worker whose claim was superseded is refused for ever after. */
  lemma SupersededWorkerIsRefused(s: Sys, t: Sys, c: Cleanup.CleanupClaim, d: Cleanup.CleanupClaim, e: Cleanup.Absence,
                                  code: string)
    requires Observed(s, t) && c in s.cleanups && d in s.cleanups && c.identity.objectId == d.identity.objectId
    requires c.objectVersion < d.objectVersion
    ensures Cleanup.Finish(t.db, c, e).1.Refused? && Cleanup.Fail(t.db, c, code).1.Refused?
  {
    Observe(s, t);
    IssuedRow(t, c);
    IssuedRow(t, d);
    OldVersionIsRefused(t.db, c, d, e, code);
  }

  lemma OldVersionIsRefused(s: Db, c: Cleanup.CleanupClaim, d: Cleanup.CleanupClaim, e: Cleanup.Absence, code: string)
    requires CleanupIssued(s, c) && CleanupIssued(s, d) && c.identity.objectId == d.identity.objectId
    requires c.objectVersion < d.objectVersion
    ensures Cleanup.Finish(s, c, e).1.Refused? && Cleanup.Fail(s, c, code).1.Refused?
  {}

  /**
   * A finished deletion is replayed exactly by its winning claim: any issued claim finishes a
   * deleted object iff it won and its rows and evidence still qualify; nothing changes.
   */
  lemma OnlyTheWinnerReplays(s: Sys, t: Sys, c: Cleanup.CleanupClaim, e: Cleanup.Absence, code: string)
    requires Observed(s, t) && c in t.cleanups
    requires c.identity.objectId in t.db.objects && t.db.objects[c.identity.objectId].status == ObjectStatus.Deleted
    ensures c.identity.objectId in t.winners
    ensures Cleanup.Finish(t.db, c, e).0 == t.db
    ensures Cleanup.Finish(t.db, c, e).1.Ok? <==>
            c == t.winners[c.identity.objectId] && Cleanup.Lockable(t.db, c.identity) && Cleanup.Proves(t.db, c, e)
    ensures Cleanup.Fail(t.db, c, code).1.Refused?
  {
    Observe(s, t);
    IssuedRow(t, c);
    var k := c.identity.objectId;
    WinnerOf(t, k);
    var w := t.winners[k];
    if c.objectVersion == w.objectVersion { VersionsTellApart(t.cleanups, c, w); }
    DeletedRowAnswers(t.db, k, w, t.evidence[k], c, e, code);
  }

  lemma VersionsTellApart(cs: set<Cleanup.CleanupClaim>, c: Cleanup.CleanupClaim, d: Cleanup.CleanupClaim)
    requires DistinctVersions(cs) && c in cs && d in cs && SameVersion(c, d)
    ensures c == d
  {}

  lemma DeletedRowAnswers(s: Db, k: Id, w: Cleanup.CleanupClaim, evidence: Cleanup.Absence, c: Cleanup.CleanupClaim,
                          e: Cleanup.Absence, code: string)
    requires DeletedBy(s, k, w, evidence) && CleanupIssued(s, c) && c.identity.objectId == k
    requires c.objectVersion == w.objectVersion ==> c == w
    ensures Cleanup.Finish(s, c, e).0 == s && Cleanup.Fail(s, c, code).1.Refused?
    ensures Cleanup.Finish(s, c, e).1.Ok? <==> c == w && Cleanup.Lockable(s, c.identity) && Cleanup.Proves(s, c, e)
  {}

  /** For an attachment already deleted or rejected, the winner's replay is always accepted. */
  lemma WinnerMayAlwaysReplay(s: Sys, t: Sys, k: Id, e: Cleanup.Absence)
    requires Observed(s, t) && k in s.winners
    requires Cleanup.Proves(t.db, s.winners[k], e)
    requires var a := s.winners[k].identity.attachmentId;
             a in s.db.attachments && s.db.attachments[a].state in {AttachmentState.Deleted, AttachmentState.Rejected}
    ensures Cleanup.Finish(t.db, s.winners[k], e) == (t.db, Ok(()))
  {
    Observe(s, t);
    var w := s.winners[k];
    assert t.winners[k] == w && w in t.cleanups;
    IssuedRow(t, w);
    assert DeletedBy(t.db, k, w, t.evidence[k]);
    assert AttachmentEvolves(s.db.attachments[w.identity.attachmentId], t.db.attachments[w.identity.attachmentId]);
    OnlyTheWinnerReplays(s, t, w, e, "");
  }

  // ---------------------------------------------------------------- deletion debt

  /**
   * Deletion debt is never lost: an object pending deletion stays owed by exactly one
   * incomplete job until issued evidence of its own absence, observed after the winning
   * claim was granted, deletes it.
   */
  lemma DebtIsNeverLost(s: Sys, t: Sys, k: Id)
    requires Observed(s, t) && k in s.db.objects && s.db.objects[k].status == DeletePending
    ensures k in t.db.objects
    ensures || (t.db.objects[k].status == DeletePending
                && exists j :: Incomplete(t.db.jobs, j, k) && forall i :: Incomplete(t.db.jobs, i, k) ==> i == j)
            || (t.db.objects[k].status == ObjectStatus.Deleted && !HasDebt(t.db.jobs, k)
                && k in t.winners && k in t.evidence && t.winners[k] in t.cleanups
                && DeletedBy(t.db, k, t.winners[k], t.evidence[k]))
  {
    Observe(s, t);
    ObjectsEvolve(s.db, t.db, k);
    DebtOf(t.db, k);
    if t.db.objects[k].status != DeletePending {
      WinnerOf(t, k);
    }
  }

  lemma DebtOf(s: Db, k: Id)
    requires DebtsFit(s) && SoleDebts(s.jobs) && k in s.objects
    ensures s.objects[k].status == DeletePending ==>
            exists j :: Incomplete(s.jobs, j, k) && forall i :: Incomplete(s.jobs, i, k) ==> i == j
    ensures s.objects[k].status == ObjectStatus.Deleted ==> !HasDebt(s.jobs, k)
  {
    assert DebtFits(s.objects[k], HasDebt(s.jobs, k));
    if s.objects[k].status == DeletePending {
      var j :| j in s.jobs && Incomplete(s.jobs, j, k);
      assert forall i :: Incomplete(s.jobs, i, k) ==> i == j;
    }
  }

  lemma WinnerOf(s: Sys, k: Id)
    requires WinnersOk(s) && k in s.db.objects && s.db.objects[k].status == ObjectStatus.Deleted
    ensures k in s.winners && k in s.evidence && s.winners[k] in s.cleanups
    ensures DeletedBy(s.db, k, s.winners[k], s.evidence[k])
  {}

  /** The claims granted on a job are counted by its attempts, and are at most ten. */
  lemma AtMostTenClaims(s: Sys, t: Sys, job: Id)
    requires Observed(s, t) && job in t.db.jobs
    ensures |ClaimsOn(t.cleanups, job)| == t.db.jobs[job].attempts <= CLEANUP_ATTEMPTS
  {
    Observe(s, t);
    assert JobOk(t.db.jobs[job]);
  }

  /** An unreachable refusal: no run meets a settled PUT without an entity tag. */
  lemma CleanupNeverSeesMissingTag(s: Sys, t: Sys, id: Cleanup.Identity, leaseOwner: Id)
    requires Observed(s, t)
    ensures Cleanup.Claim(t.db, id, leaseOwner).1 != Refused(Integrity)
  {
    Observe(s, t);
    CleanupClaimKeeps(t.db, id, leaseOwner);
  }

  // ---------------------------------------------------------------- PUT results

  /** In doubt iff claimed and neither settled nor abandoned, in every reachable row. */
  lemma DoubtIsExact(s: Sys, t: Sys, k: Id)
    requires Observed(s, t) && k in t.db.objects
    ensures var o := t.db.objects[k];
            && (o.putUncertain <==> o.putClaim.Some? && o.settledAt.None? && o.abandonedAt.None?)
            && !(o.settledAt.Some? && o.abandonedAt.Some?)
            && (o.settledAt.Some? ==> o.etag.Some?)
  {
    Observe(s, t);
    assert RowOk(t.db.objects[k]);
  }

  /** Recording a result leaves the row settled with exactly the observed tag. */
  lemma RecordingSettles(s: Db, put: PutClaim, observed: StoredObject, j: Id)
    requires Put.RecordPutResult(s, put, observed, j).1.Ok?
    ensures var t := Put.RecordPutResult(s, put, observed, j).0;
            && put.objectId in t.objects && Recorded(t.objects[put.objectId], put, observed)
            && put.attachmentId in t.attachments && Put.ValidEtag(observed.version)
            && (Put.RecordPutResult(s, put, observed, j).1 == Ok(false) ==>
                  t.objects[put.objectId].status != Written || !Put.Eligible(t, put))
  {}

  predicate Recorded(o: Object, put: PutClaim, observed: StoredObject) {
    && o.attachmentId == put.attachmentId && o.putClaim == Some(put.claimId) && o.abandonedAt.None?
    && o.settledAt.Some? && o.etag == Some(observed.version) && observed.manifest == ManifestOf(put.objectId, o)
  }

  lemma RecordedPersists(o: Object, p: Object, put: PutClaim, observed: StoredObject)
    requires Recorded(o, put, observed) && RowOk(o) && ObjectEvolves(o, p)
    ensures Recorded(p, put, observed)
  {}

  /** The answer to a redelivery depends only on the settled row and the fence. */
  lemma Redelivered(s: Db, put: PutClaim, observed: StoredObject, other: StoredObject, i: Id)
    requires put.objectId in s.objects && Recorded(s.objects[put.objectId], put, observed)
    requires put.attachmentId in s.attachments && Put.ValidEtag(observed.version)
    requires other.manifest == observed.manifest && Put.ValidEtag(other.version)
    ensures Put.RecordPutResult(s, put, other, i) ==
            (s, if other.version == observed.version
                then Ok(Put.Eligible(s, put) && s.objects[put.objectId].status == Written) else Refused(Integrity))
  {}

  /**
   * Once a result has been recorded, redelivering it at any later time changes nothing, and
   * a well-formed result with any other entity tag is an integrity failure.
   */
  lemma RedeliveryChangesNothing(s: Sys, t: Sys, put: PutClaim, observed: StoredObject, other: StoredObject,
          j: Id, i: Id)
    requires put in s.puts && j !in s.db.jobs
    requires Put.RecordPutResult(s.db, put, observed, j).1.Ok?
    requires Observed(Next(s, RecordPutResult(put, observed, j)), t)
    requires other.manifest == observed.manifest && Put.ValidEtag(other.version)
    ensures Put.RecordPutResult(t.db, put, observed, i).0 == t.db
    ensures Put.RecordPutResult(t.db, put, observed, i).1.Ok?
    ensures other.version != observed.version ==> Put.RecordPutResult(t.db, put, other, i) == (t.db, Refused(Integrity))
  {
    var r := Next(s, RecordPutResult(put, observed, j));
    Observe(r, t);
    RecordingSettles(s.db, put, observed, j);
    RowIsOk(r.db, put.objectId);
    RecordedPersists(r.db.objects[put.objectId], t.db.objects[put.objectId], put, observed);
    Redelivered(t.db, put, observed, observed, i);
    Redelivered(t.db, put, observed, other, i);
  }

  /** A fence that has been lost is never regained. */
  lemma FenceIsLostForGood(s: Sys, t: Sys, put: PutClaim)
    requires SysInv(s) && SysEvolves(s, t) && put in s.puts
    ensures Put.Eligible(t.db, put) ==> Put.Eligible(s.db, put)
  {
    assert PutIssued(s.db, put);
    assert AttachmentEvolves(s.db.attachments[put.attachmentId], t.db.attachments[put.attachmentId]);
  }

  /** A refusal of an issued claim's result rests on facts that never change again. */
  lemma RefusalPersists(s: Db, t: Db, put: PutClaim, observed: StoredObject, j: Id, i: Id)
    requires PutIssued(s, put) && PutIssued(t, put)
    requires RowOk(s.objects[put.objectId]) && ObjectEvolves(s.objects[put.objectId], t.objects[put.objectId])
    requires Put.RecordPutResult(s, put, observed, j).1.Refused?
    ensures Put.RecordPutResult(t, put, observed, i).1.Refused?
  {}

  ghost predicate ReachableSys(s: Sys) {
    exists steps :: s == Run(Initial(), steps)
  }

  lemma ReachableInv(s: Sys)
    requires ReachableSys(s)
    ensures SysInv(s)
  {
    var steps :| s == Run(Initial(), steps);
    Reachable(steps);
  }

  /** A result once refused, or reported as not usable, is never accepted later. */
  lemma {:induction false} RefusalIsFinal(s: Sys, t: Sys, put: PutClaim, observed: StoredObject, j: Id, i: Id)
    requires ReachableSys(s) && put in s.puts && j !in s.db.jobs
    requires Put.RecordPutResult(s.db, put, observed, j).1 != Ok(true)
    requires Observed(Next(s, RecordPutResult(put, observed, j)), t)
    ensures Put.RecordPutResult(t.db, put, observed, i).1 != Ok(true)
  {
    var r := Next(s, RecordPutResult(put, observed, j));
    ReachableInv(s);
    Observe(r, t);
    if Put.RecordPutResult(s.db, put, observed, j).1.Refused? {
      RefusedLeavesDb(s, put, observed, j);
      RefusedStays(s, t, put, observed, j, i);
    } else {
      RecordingSettles(s.db, put, observed, j);
      UnusableStays(r, t, put, observed, i);
    }
  }

  lemma RefusedStays(s: Sys, t: Sys, put: PutClaim, observed: StoredObject, j: Id, i: Id)
    requires SysInv(s) && SysInv(t) && SysEvolves(s, t) && put in s.puts
    requires Put.RecordPutResult(s.db, put, observed, j).1.Refused?
    ensures Put.RecordPutResult(t.db, put, observed, i).1.Refused?
  {
    IssuedPut(s, put);
    IssuedPut(t, put);
    RowIsOk(s.db, put.objectId);
    ObjectsEvolve(s.db, t.db, put.objectId);
    RefusalPersists(s.db, t.db, put, observed, j, i);
  }

  lemma ObjectsEvolve(s: Db, t: Db, k: Id)
    requires Evolves(s, t) && k in s.objects
    ensures k in t.objects && ObjectEvolves(s.objects[k], t.objects[k])
  {}

  /** A settled row that was not written, or whose fence was lost, is answered so for good. */
  lemma UnusableStays(s: Sys, t: Sys, put: PutClaim, observed: StoredObject, i: Id)
    requires SysInv(s) && SysInv(t) && SysEvolves(s, t) && put in s.puts && put.objectId in s.db.objects
    requires Recorded(s.db.objects[put.objectId], put, observed) && Put.ValidEtag(observed.version)
    requires s.db.objects[put.objectId].status != Written || !Put.Eligible(s.db, put)
    ensures Put.RecordPutResult(t.db, put, observed, i).1 != Ok(true)
  {
    IssuedPut(t, put);
    RowIsOk(s.db, put.objectId);
    ObjectsEvolve(s.db, t.db, put.objectId);
    FenceIsLostForGood(s, t, put);
    RecordedPersists(s.db.objects[put.objectId], t.db.objects[put.objectId], put, observed);
    Redelivered(t.db, put, observed, observed, i);
  }

  lemma RefusedLeavesDb(s: Sys, put: PutClaim, observed: StoredObject, j: Id)
    requires Put.RecordPutResult(s.db, put, observed, j).1.Refused?
    ensures Next(s, RecordPutResult(put, observed, j)) == s
  {}
}
