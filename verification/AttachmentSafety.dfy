/**
 * Safety of every interleaving of the PUT and cleanup ledgers: what all reachable
 * systems satisfy, and what stays true of them forever after.
 */
module AttachmentSafety {
  import opened Common
  import opened AttachmentRows
  import opened AttachmentProtocol
  import opened AttachmentSupervision
  import Put = AttachmentObjectLedger
  import Cleanup = AttachmentCleanupLedger

  // ---------------------------------------------------------------- what issued claims mean

  predicate PutIssued(s: Db, c: PutClaim) {
    && c.objectId in s.objects && c.attachmentId in s.attachments
    && var o := s.objects[c.objectId];
    && o.attachmentId == c.attachmentId && o.putClaim == Some(c.claimId)
    && c.objectVersion <= o.objectVersion && c.manifest == ManifestOf(c.objectId, o)
    && c.attachmentVersion <= s.attachments[c.attachmentId].version
  }

  /** Once cleanup has been granted, the object is on its way out and holds no doubtful PUT. */
  predicate Closed(o: Object) {
    o.status in {DeletePending, ObjectStatus.Deleted} && !Cleanup.InDoubt(o)
  }

  predicate CleanupIssued(s: Db, c: Cleanup.CleanupClaim) {
    && c.identity.objectId in s.objects && c.identity.jobId in s.jobs
    && var o := s.objects[c.identity.objectId];
    && Closed(o)
    && o.attachmentId == c.identity.attachmentId
    && s.jobs[c.identity.jobId].attachmentId == c.identity.attachmentId
    && s.jobs[c.identity.jobId].objectId == c.identity.objectId
    && c.manifest == ManifestOf(c.identity.objectId, o)
    && c.expected == (if o.etag.None? then None else Some(StoredObject(c.manifest, o.etag.value)))
    && c.objectVersion <= o.objectVersion
    && (o.status == ObjectStatus.Deleted ==> c.objectVersion < o.objectVersion)
    && c.claimedAt <= s.now
  }

  predicate SameVersion(c: Cleanup.CleanupClaim, d: Cleanup.CleanupClaim) {
    c.identity.objectId == d.identity.objectId && c.objectVersion == d.objectVersion
  }

  predicate DistinctVersions(cs: set<Cleanup.CleanupClaim>) {
    forall c, d :: c in cs && d in cs && SameVersion(c, d) ==> c == d
  }

  /** The object was deleted by claim c on evidence e of its own absence, observed after c was granted. */
  predicate DeletedBy(s: Db, k: Id, c: Cleanup.CleanupClaim, e: Cleanup.Absence) {
    && k in s.objects && c.identity.objectId == k && c.identity.jobId in s.jobs
    && var o, j := s.objects[k], s.jobs[c.identity.jobId];
    && o.status == ObjectStatus.Deleted && o.objectVersion == c.objectVersion + 1 && SafeInteger(c.objectVersion)
    && j.completedAt.Some? && j.completedAt.value >= c.claimedAt
    && e.confirmedLocator == ManifestOf(k, o).locator && e.headMissing && e.ownedListingResidual == 0
    && e.observedAt >= c.claimedAt
  }

  predicate WinnersHold(s: Sys) {
    && s.winners.Keys == s.evidence.Keys
    && (forall k :: k in s.winners ==> s.winners[k] in s.cleanups && DeletedBy(s.db, k, s.winners[k], s.evidence[k]))
  }

  /** Every deleted object has a winning claim. */
  predicate DeletionsExplained(s: Db, winners: map<Id, Cleanup.CleanupClaim>) {
    forall k :: k in s.objects && s.objects[k].status == ObjectStatus.Deleted ==> k in winners
  }

  predicate WinnersOk(s: Sys) {
    WinnersHold(s) && DeletionsExplained(s.db, s.winners)
  }

  function ClaimsOn(cs: set<Cleanup.CleanupClaim>, job: Id): set<Cleanup.CleanupClaim> {
    set c | c in cs && c.identity.jobId == job
  }

  predicate AttemptsCounted(s: Sys) {
    forall j :: j in s.db.jobs ==> |ClaimsOn(s.cleanups, j)| == s.db.jobs[j].attempts
  }

  predicate PutsIssued(s: Sys) {
    forall c :: c in s.puts ==> PutIssued(s.db, c)
  }

  predicate CleanupsIssued(s: Sys) {
    forall c :: c in s.cleanups ==> CleanupIssued(s.db, c)
  }

  ghost predicate SysInv(s: Sys) {
    && DbInv(s.db)
    && PutsIssued(s)
    && CleanupsIssued(s)
    && DistinctVersions(s.cleanups)
    && WinnersOk(s)
    && AttemptsCounted(s)
  }

  ghost predicate SysEvolves(s: Sys, t: Sys) {
    && Evolves(s.db, t.db)
    && s.puts <= t.puts && s.cleanups <= t.cleanups
    && (forall k :: k in s.winners ==> k in t.winners && t.winners[k] == s.winners[k])
  }

  // ---------------------------------------------------------------- claims keep their meaning

  lemma PutPersists(s: Db, t: Db, c: PutClaim)
    requires PutIssued(s, c) && Evolves(s, t)
    ensures PutIssued(t, c)
  {
    assert ObjectEvolves(s.objects[c.objectId], t.objects[c.objectId]);
    assert AttachmentEvolves(s.attachments[c.attachmentId], t.attachments[c.attachmentId]);
  }

  lemma CleanupPersists(s: Db, t: Db, c: Cleanup.CleanupClaim)
    requires CleanupIssued(s, c) && RowsOk(s) && RowsOk(t) && Evolves(s, t)
    ensures CleanupIssued(t, c)
  {
    var k := c.identity.objectId;
    assert RowOk(s.objects[k]) && RowOk(t.objects[k]) && ObjectEvolves(s.objects[k], t.objects[k]);
    assert JobEvolves(s.jobs[c.identity.jobId], t.jobs[c.identity.jobId]);
  }

  lemma DeletedByPersists(s: Db, t: Db, k: Id, c: Cleanup.CleanupClaim, e: Cleanup.Absence)
    requires DeletedBy(s, k, c, e) && Evolves(s, t)
    ensures DeletedBy(t, k, c, e)
  {
    assert ObjectEvolves(s.objects[k], t.objects[k]);
    assert JobEvolves(s.jobs[c.identity.jobId], t.jobs[c.identity.jobId]);
  }

  lemma HistoryGrows(s: Sys, t: Sys)
    requires Evolves(s.db, t.db) && s.puts <= t.puts && s.cleanups <= t.cleanups
    requires forall k :: k in s.winners ==> k in t.winners && t.winners[k] == s.winners[k]
    ensures SysEvolves(s, t)
  {}

  lemma PutsPersist(s: Sys, t: Sys)
    requires PutsIssued(s) && Evolves(s.db, t.db)
    requires forall c :: c in t.puts && c !in s.puts ==> PutIssued(t.db, c)
    ensures PutsIssued(t)
  {
    forall c | c in t.puts ensures PutIssued(t.db, c) {
      if c in s.puts { PutPersists(s.db, t.db, c); }
    }
  }

  lemma CleanupsPersist(s: Sys, t: Sys)
    requires CleanupsIssued(s) && RowsOk(s.db) && RowsOk(t.db) && Evolves(s.db, t.db)
    requires forall c :: c in t.cleanups && c !in s.cleanups ==> CleanupIssued(t.db, c)
    ensures CleanupsIssued(t)
  {
    forall c | c in t.cleanups ensures CleanupIssued(t.db, c) {
      if c in s.cleanups { CleanupPersists(s.db, t.db, c); }
    }
  }

  lemma ClaimsPersist(s: Sys, t: Sys)
    requires PutsIssued(s) && CleanupsIssued(s) && RowsOk(s.db) && RowsOk(t.db) && Evolves(s.db, t.db)
    requires forall c :: c in t.puts && c !in s.puts ==> PutIssued(t.db, c)
    requires forall c :: c in t.cleanups && c !in s.cleanups ==> CleanupIssued(t.db, c)
    ensures PutsIssued(t) && CleanupsIssued(t)
  {
    PutsPersist(s, t);
    CleanupsPersist(s, t);
  }

  predicate NoNewDeletions(s: Db, t: Db) {
    forall k :: k in t.objects && t.objects[k].status == ObjectStatus.Deleted ==>
      k in s.objects && s.objects[k].status == ObjectStatus.Deleted
  }

  lemma OldWinnersPersist(s: Sys, t: Sys)
    requires WinnersHold(s) && Evolves(s.db, t.db) && s.cleanups <= t.cleanups
    requires t.winners == s.winners && t.evidence == s.evidence
    ensures WinnersHold(t)
  {
    forall k | k in t.winners ensures t.winners[k] in t.cleanups && DeletedBy(t.db, k, t.winners[k], t.evidence[k]) {
      DeletedByPersists(s.db, t.db, k, s.winners[k], s.evidence[k]);
    }
  }

  lemma WinnersPersist(s: Sys, t: Sys)
    requires WinnersOk(s) && Evolves(s.db, t.db) && NoNewDeletions(s.db, t.db) && s.cleanups <= t.cleanups
    requires t.winners == s.winners && t.evidence == s.evidence
    ensures WinnersOk(t)
  {
    OldWinnersPersist(s, t);
    assert DeletionsExplained(t.db, t.winners);
  }

  /** Attempts of known jobs are unchanged; new jobs start unattempted. */
  predicate AttemptsKept(s: Db, t: Db) {
    forall j :: j in t.jobs ==> t.jobs[j].attempts == if j in s.jobs then s.jobs[j].attempts else 0
  }

  lemma CountsPersist(s: Sys, t: Sys)
    requires CleanupsIssued(s) && AttemptsCounted(s) && AttemptsKept(s.db, t.db) && t.cleanups == s.cleanups
    ensures AttemptsCounted(t)
  {
    forall j | j in t.db.jobs ensures |ClaimsOn(t.cleanups, j)| == t.db.jobs[j].attempts {
      if j !in s.db.jobs {
        forall c | c in t.cleanups ensures c.identity.jobId != j { assert CleanupIssued(s.db, c); }
        assert ClaimsOn(t.cleanups, j) == {};
      }
    }
  }

  // ---------------------------------------------------------------- steps that neither grant nor delete

  /** No object becomes deleted and no attempt is spent. */
  predicate Quiet(s: Db, t: Db) {
    NoNewDeletions(s, t) && AttemptsKept(s, t)
  }

  lemma QuietStep(s: Sys, t: Sys)
    requires SysInv(s) && DbInv(t.db) && Evolves(s.db, t.db) && Quiet(s.db, t.db)
    requires t == s.(db := t.db, puts := t.puts) && s.puts <= t.puts
    requires forall c :: c in t.puts && c !in s.puts ==> PutIssued(t.db, c)
    ensures SysInv(t) && SysEvolves(s, t)
  {
    ClaimsPersist(s, t);
    WinnersPersist(s, t);
    CountsPersist(s, t);
  }

  lemma ClaimPutIssues(s: Db, a: Id, o: Id, f: Put.Fence, claimId: Id)
    ensures var r := Put.ClaimPut(s, a, o, f, claimId);
            Quiet(s, r.0) && (r.1.Ok? ==> PutIssued(r.0, r.1.value))
  {}

  lemma BindIssues(s: Db, proofs: Proofs, p: PutClaim, handle: Id)
    requires PutIssued(s, p)
    ensures var r := Put.BindSupervision(s, proofs, p, handle);
            Quiet(s, r.0) && (r.1.Ok? ==> PutIssued(r.0, r.1.value))
  {}

  lemma ClaimPutStep(s: Sys, a: Id, o: Id, f: Put.Fence, claimId: Id, t: Sys)
    requires SysInv(s) && t == Next(s, ClaimPut(a, o, f, claimId))
    ensures SysInv(t) && SysEvolves(s, t)
  {
    ClaimPutKeeps(s.db, a, o, f, claimId);
    ClaimPutIssues(s.db, a, o, f, claimId);
    AddPut(s, t, Put.ClaimPut(s.db, a, o, f, claimId));
  }

  lemma IssuedPut(s: Sys, put: PutClaim)
    requires PutsIssued(s) && put in s.puts
    ensures PutIssued(s.db, put)
  {}

  lemma IssuedRow(s: Sys, c: Cleanup.CleanupClaim)
    requires CleanupsIssued(s) && c in s.cleanups
    ensures CleanupIssued(s.db, c)
  {}

  lemma RowIsOk(s: Db, k: Id)
    requires RowsOk(s) && k in s.objects
    ensures RowOk(s.objects[k])
  {}

  /** Adding an issued PUT claim on a quiet change. */
  lemma AddPut(s: Sys, t: Sys, r: Put.Result<PutClaim>)
    requires SysInv(s) && DbInv(r.0) && Evolves(s.db, r.0) && Quiet(s.db, r.0)
    requires r.1.Ok? ==> PutIssued(r.0, r.1.value)
    requires t == s.(db := r.0, puts := if r.1.Ok? then s.puts + {r.1.value} else s.puts)
    ensures SysInv(t) && SysEvolves(s, t)
  {
    QuietStep(s, t);
  }

  lemma BindStep(s: Sys, p: PutClaim, handle: Id, t: Sys)
    requires SysInv(s) && p in s.puts && t == Next(s, BindSupervision(p, handle))
    ensures SysInv(t) && SysEvolves(s, t)
  {
    BindKeeps(s.db, s.proofs, p, handle);
    IssuedPut(s, p);
    BindIssues(s.db, s.proofs, p, handle);
    AddPut(s, t, Put.BindSupervision(s.db, s.proofs, p, handle));
  }

  lemma AbandonIsQuiet(s: Db, proofs: Proofs, p: PutClaim, certificate: Certificate, closure: Closure, newJob: Id)
    requires newJob !in s.jobs
    ensures Quiet(s, Put.AbandonUnsent(s, proofs, p, certificate, closure, newJob).0)
  {}

  lemma AbandonStep(s: Sys, p: PutClaim, certificate: Certificate, closure: Closure, newJob: Id, t: Sys)
    requires SysInv(s) && newJob !in s.db.jobs
    requires t == s.(db := Put.AbandonUnsent(s.db, s.proofs, p, certificate, closure, newJob).0)
    ensures SysInv(t) && SysEvolves(s, t)
  {
    AbandonKeeps(s.db, s.proofs, p, certificate, closure, newJob);
    AbandonIsQuiet(s.db, s.proofs, p, certificate, closure, newJob);
    QuietStep(s, t);
  }

  lemma RecordIsQuiet(s: Db, p: PutClaim, observed: StoredObject, newJob: Id)
    requires newJob !in s.jobs
    ensures Quiet(s, Put.RecordPutResult(s, p, observed, newJob).0)
  {}

  lemma RecordStep(s: Sys, p: PutClaim, observed: StoredObject, newJob: Id, t: Sys)
    requires SysInv(s) && newJob !in s.db.jobs && t == s.(db := Put.RecordPutResult(s.db, p, observed, newJob).0)
    ensures SysInv(t) && SysEvolves(s, t)
  {
    RecordKeeps(s.db, p, observed, newJob);
    RecordIsQuiet(s.db, p, observed, newJob);
    QuietStep(s, t);
  }

  lemma FailIsQuiet(s: Db, c: Cleanup.CleanupClaim, code: string)
    ensures Quiet(s, Cleanup.Fail(s, c, code).0)
  {}

  lemma FailStep(s: Sys, c: Cleanup.CleanupClaim, code: string, t: Sys)
    requires SysInv(s) && t == s.(db := Cleanup.Fail(s.db, c, code).0)
    ensures SysInv(t) && SysEvolves(s, t)
  {
    FailKeeps(s.db, c, code);
    FailIsQuiet(s.db, c, code);
    QuietStep(s, t);
  }

  lemma EnvironmentIsQuiet(s: Db, step: Step)
    ensures Quiet(s, Environment(s, step))
  {}

  lemma EnvironmentStep(s: Sys, step: Step, t: Sys)
    requires SysInv(s) && t == s.(db := Environment(s.db, step))
    ensures SysInv(t) && SysEvolves(s, t)
  {
    EnvironmentKeeps(s.db, step, t.db);
    EnvironmentIsQuiet(s.db, step);
    QuietStep(s, t);
  }

  // ---------------------------------------------------------------- granting a cleanup claim

  predicate OneAttemptSpent(s: Db, t: Db, j: Id) {
    && j in s.jobs && j in t.jobs && t.jobs == s.jobs[j := t.jobs[j]]
    && t.jobs[j].attempts == s.jobs[j].attempts + 1
  }

  lemma GrantEffect(s: Db, id: Cleanup.Identity, leaseOwner: Id, t: Db, c: Cleanup.CleanupClaim)
    requires Cleanup.Claim(s, id, leaseOwner) == (t, Ok(c))
    ensures NoNewDeletions(s, t) && c.identity == id && OneAttemptSpent(s, t, id.jobId)
  {}

  /** A claim newer than every earlier claim on the same object. */
  predicate Newest(cs: set<Cleanup.CleanupClaim>, c: Cleanup.CleanupClaim) {
    forall d :: d in cs && d.identity.objectId == c.identity.objectId ==> d.objectVersion < c.objectVersion
  }

  lemma GrantIsIssued(s: Db, id: Cleanup.Identity, leaseOwner: Id, t: Db, c: Cleanup.CleanupClaim)
    requires RowsOk(s) && Cleanup.Claim(s, id, leaseOwner) == (t, Ok(c))
    ensures CleanupIssued(t, c)
    ensures id.objectId in s.objects && c.objectVersion == s.objects[id.objectId].objectVersion + 1
  {
    RowIsOk(s, id.objectId);
  }

  lemma NewVersionIsNewest(s: Sys, c: Cleanup.CleanupClaim)
    requires CleanupsIssued(s) && c.identity.objectId in s.db.objects
    requires s.db.objects[c.identity.objectId].objectVersion < c.objectVersion
    ensures Newest(s.cleanups, c)
  {
    forall d | d in s.cleanups && d.identity.objectId == c.identity.objectId ensures d.objectVersion < c.objectVersion {
      IssuedRow(s, d);
    }
  }

  lemma GrantCounts(s: Sys, t: Sys, c: Cleanup.CleanupClaim)
    requires AttemptsCounted(s) && Newest(s.cleanups, c) && t.cleanups == s.cleanups + {c}
    requires OneAttemptSpent(s.db, t.db, c.identity.jobId)
    ensures AttemptsCounted(t)
  {
    forall j | j in t.db.jobs ensures |ClaimsOn(t.cleanups, j)| == t.db.jobs[j].attempts {
      if j == c.identity.jobId {
        assert c !in ClaimsOn(s.cleanups, j);
        assert ClaimsOn(t.cleanups, j) == ClaimsOn(s.cleanups, j) + {c};
      } else {
        assert ClaimsOn(t.cleanups, j) == ClaimsOn(s.cleanups, j);
      }
    }
  }

  lemma NewestIsDistinct(cs: set<Cleanup.CleanupClaim>, c: Cleanup.CleanupClaim)
    requires DistinctVersions(cs) && Newest(cs, c)
    ensures DistinctVersions(cs + {c})
  {}

  /** What a granted claim means for the rows and for the claims issued before. */
  ghost predicate Grants(s: Sys, db: Db, c: Cleanup.CleanupClaim) {
    && DbInv(db) && Evolves(s.db, db) && NoNewDeletions(s.db, db)
    && CleanupIssued(db, c) && Newest(s.cleanups, c) && OneAttemptSpent(s.db, db, c.identity.jobId)
  }

  lemma GrantFacts(s: Sys, id: Cleanup.Identity, leaseOwner: Id, db: Db, c: Cleanup.CleanupClaim)
    requires DbInv(s.db) && CleanupsIssued(s) && Cleanup.Claim(s.db, id, leaseOwner) == (db, Ok(c))
    ensures Grants(s, db, c)
  {
    CleanupClaimKeeps(s.db, id, leaseOwner);
    GrantEffect(s.db, id, leaseOwner, db, c);
    GrantIsIssued(s.db, id, leaseOwner, db, c);
    NewVersionIsNewest(s, c);
  }

  lemma AddClaim(s: Sys, t: Sys, c: Cleanup.CleanupClaim)
    requires WinnersOk(s) && AttemptsCounted(s) && DistinctVersions(s.cleanups)
    requires Evolves(s.db, t.db) && NoNewDeletions(s.db, t.db)
    requires Newest(s.cleanups, c) && OneAttemptSpent(s.db, t.db, c.identity.jobId)
    requires t == s.(db := t.db, cleanups := s.cleanups + {c})
    ensures WinnersOk(t) && AttemptsCounted(t) && DistinctVersions(t.cleanups) && SysEvolves(s, t)
  {
    WinnersPersist(s, t);
    NewestIsDistinct(s.cleanups, c);
    GrantCounts(s, t, c);
    HistoryGrows(s, t);
  }

  lemma AddGrant(s: Sys, t: Sys, c: Cleanup.CleanupClaim)
    requires SysInv(s) && Grants(s, t.db, c) && t == s.(db := t.db, cleanups := s.cleanups + {c})
    ensures SysInv(t) && SysEvolves(s, t)
  {
    ClaimsPersist(s, t);
    AddClaim(s, t, c);
  }

  lemma GrantStep(s: Sys, id: Cleanup.Identity, leaseOwner: Id, t: Sys, c: Cleanup.CleanupClaim)
    requires SysInv(s) && Cleanup.Claim(s.db, id, leaseOwner) == (t.db, Ok(c))
    requires t == s.(db := t.db, cleanups := s.cleanups + {c})
    ensures SysInv(t) && SysEvolves(s, t)
  {
    GrantFacts(s, id, leaseOwner, t.db, c);
    AddGrant(s, t, c);
  }

  // ---------------------------------------------------------------- finishing a deletion

  lemma FinishDeletes(s: Db, c: Cleanup.CleanupClaim, e: Cleanup.Absence, t: Db)
    requires CleanupIssued(s, c) && Cleanup.Finish(s, c, e).0 == t != s
    ensures DeletedBy(t, c.identity.objectId, c, e) && s.objects[c.identity.objectId].status != ObjectStatus.Deleted
  {}

  lemma FinishAttempts(s: Db, c: Cleanup.CleanupClaim, e: Cleanup.Absence)
    ensures AttemptsKept(s, Cleanup.Finish(s, c, e).0)
  {}

  /** What a completed deletion means for the rows. */
  ghost predicate Deletes(s: Db, t: Db, k: Id, c: Cleanup.CleanupClaim, e: Cleanup.Absence) {
    && DbInv(t) && Evolves(s, t) && AttemptsKept(s, t)
    && k in s.objects && s.objects[k].status != ObjectStatus.Deleted
    && k in t.objects && t.objects == s.objects[k := t.objects[k]] && DeletedBy(t, k, c, e)
  }

  lemma FinishFacts(s: Db, c: Cleanup.CleanupClaim, e: Cleanup.Absence, t: Db)
    requires DbInv(s) && CleanupIssued(s, c) && Cleanup.Finish(s, c, e).0 == t != s
    ensures Deletes(s, t, c.identity.objectId, c, e)
  {
    FinishKeeps(s, c, e);
    FinishEffect(s, c, e, t);
    FinishDeletes(s, c, e, t);
    FinishAttempts(s, c, e);
  }

  /** Recording the deletion of an object by an issued claim. */
  lemma WinnerRecorded(s: Sys, t: Sys, k: Id, c: Cleanup.CleanupClaim, e: Cleanup.Absence)
    requires WinnersOk(s) && Evolves(s.db, t.db) && c in s.cleanups && t.cleanups == s.cleanups
    requires k in t.db.objects && t.db.objects == s.db.objects[k := t.db.objects[k]]
    requires DeletedBy(t.db, k, c, e) && k !in s.winners && k !in s.evidence
    requires t.winners == s.winners[k := c] && t.evidence == s.evidence[k := e]
    ensures WinnersOk(t)
  {
    OldWinnersPersist(s, t.(winners := s.winners, evidence := s.evidence));
    OneMoreWinner(t.(winners := s.winners, evidence := s.evidence), t, k, c, e);
    OneMoreExplained(s.db, t.db, s.winners, k, c);
  }

  lemma OneMoreWinner(s: Sys, t: Sys, k: Id, c: Cleanup.CleanupClaim, e: Cleanup.Absence)
    requires WinnersHold(s) && c in s.cleanups && DeletedBy(s.db, k, c, e)
    requires t == s.(winners := s.winners[k := c], evidence := s.evidence[k := e])
    ensures WinnersHold(t)
  {}

  lemma OneMoreExplained(s: Db, t: Db, winners: map<Id, Cleanup.CleanupClaim>, k: Id, c: Cleanup.CleanupClaim)
    requires DeletionsExplained(s, winners) && k in t.objects && t.objects == s.objects[k := t.objects[k]]
    ensures DeletionsExplained(t, winners[k := c])
  {}

  lemma WinnersAreDeleted(s: Sys, k: Id)
    requires WinnersOk(s) && k in s.winners
    ensures k in s.db.objects && s.db.objects[k].status == ObjectStatus.Deleted
  {}

  lemma AddWinner(s: Sys, t: Sys, k: Id, c: Cleanup.CleanupClaim, e: Cleanup.Absence)
    requires WinnersOk(s) && c in s.cleanups && Evolves(s.db, t.db)
    requires k in s.db.objects && s.db.objects[k].status != ObjectStatus.Deleted
    requires k in t.db.objects && t.db.objects == s.db.objects[k := t.db.objects[k]] && DeletedBy(t.db, k, c, e)
    requires t == s.(db := t.db, winners := s.winners[k := c], evidence := s.evidence[k := e])
    ensures WinnersOk(t) && k !in s.winners
  {
    if k in s.winners { WinnersAreDeleted(s, k); }
    WinnerRecorded(s, t, k, c, e);
  }

  lemma AddDeletion(s: Sys, t: Sys, k: Id, c: Cleanup.CleanupClaim, e: Cleanup.Absence)
    requires SysInv(s) && c in s.cleanups && Deletes(s.db, t.db, k, c, e)
    requires t == s.(db := t.db, winners := s.winners[k := c], evidence := s.evidence[k := e])
    ensures SysInv(t)
  {
    ClaimsPersist(s, t);
    AddWinner(s, t, k, c, e);
    CountsPersist(s, t);
  }

  lemma DeletionGrows(s: Sys, t: Sys, k: Id, c: Cleanup.CleanupClaim, e: Cleanup.Absence)
    requires WinnersOk(s) && Deletes(s.db, t.db, k, c, e)
    requires t == s.(db := t.db, winners := s.winners[k := c], evidence := s.evidence[k := e])
    ensures SysEvolves(s, t)
  {
    if k in s.winners { WinnersAreDeleted(s, k); }
  }

  lemma FinishStep(s: Sys, c: Cleanup.CleanupClaim, e: Cleanup.Absence, t: Sys)
    requires SysInv(s) && c in s.cleanups && Cleanup.Finish(s.db, c, e).0 == t.db != s.db
    requires t == s.(db := t.db, winners := s.winners[c.identity.objectId := c],
                     evidence := s.evidence[c.identity.objectId := e])
    ensures SysInv(t) && SysEvolves(s, t)
  {
    IssuedRow(s, c);
    FinishFacts(s.db, c, e, t.db);
    AddDeletion(s, t, c.identity.objectId, c, e);
    DeletionGrows(s, t, c.identity.objectId, c, e);
  }

  /** Sends come and go without touching a row. */
  lemma SuperviseStep(s: Sys, act: Act, t: Sys)
    requires SysInv(s) && t == s.(proofs := Perform(s.proofs, act))
    ensures SysInv(t) && SysEvolves(s, t)
  {
    EvolvesReflexively(s.db);
    assert SysInv(t);
  }

  // ---------------------------------------------------------------- every step

  lemma StandStill(s: Sys)
    ensures SysEvolves(s, s)
  {
    EvolvesReflexively(s.db);
  }

  lemma PutPreserved(s: Sys, step: Step, t: Sys)
    requires SysInv(s) && t == Next(s, step) != s
    requires step.ClaimPut? || step.BindSupervision? || step.AbandonUnsent? || step.RecordPutResult?
    ensures SysInv(t) && SysEvolves(s, t)
  {
    match step {
      case ClaimPut(a, o, f, c) => ClaimPutStep(s, a, o, f, c, t);
      case BindSupervision(p, i) => BindStep(s, p, i, t);
      case AbandonUnsent(p, certificate, closure, j) => AbandonStep(s, p, certificate, closure, j, t);
      case RecordPutResult(p, observed, j) => RecordStep(s, p, observed, j, t);
    }
  }

  lemma CleanupPreserved(s: Sys, step: Step, t: Sys)
    requires SysInv(s) && t == Next(s, step) != s
    requires step.ClaimCleanup? || step.FinishCleanup? || step.FailCleanup?
    ensures SysInv(t) && SysEvolves(s, t)
  {
    match step {
      case ClaimCleanup(id, owner) => GrantStep(s, id, owner, t, Cleanup.Claim(s.db, id, owner).1.value);
      case FinishCleanup(c, e) => FinishStep(s, c, e, t);
      case FailCleanup(c, code) => FailStep(s, c, code, t);
    }
  }

  lemma Preserved(s: Sys, step: Step, t: Sys)
    requires SysInv(s) && t == Next(s, step)
    ensures SysInv(t) && SysEvolves(s, t)
  {
    if t == s {
      StandStill(s);
    } else if step.ClaimPut? || step.BindSupervision? || step.AbandonUnsent? || step.RecordPutResult? {
      PutPreserved(s, step, t);
    } else if step.ClaimCleanup? || step.FinishCleanup? || step.FailCleanup? {
      CleanupPreserved(s, step, t);
    } else if step.Supervise? {
      SuperviseStep(s, step.act, t);
    } else {
      EnvironmentStep(s, step, t);
    }
  }

  /** Every run keeps the invariant and only moves rows and claims forward. */
  lemma {:induction false} Forward(s: Sys, steps: seq<Step>)
    requires SysInv(s)
    ensures SysInv(Run(s, steps)) && SysEvolves(s, Run(s, steps))
    decreases |steps|
  {
    StandStill(s);
    if |steps| > 0 {
      var t := Next(s, steps[0]);
      Preserved(s, steps[0], t);
      Forward(t, steps[1..]);
      EvolvesTransitively(s.db, t.db, Run(s, steps).db);
    }
  }

  lemma Reachable(steps: seq<Step>)
    ensures SysInv(Run(Initial(), steps))
  {
    assert DbInv(Initial().db);
    Forward(Initial(), steps);
  }
}
