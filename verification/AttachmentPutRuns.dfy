/**
 * When a PUT is claimed, bound, accepted or late. The answers are stated in the columns of the rows, over every run,
 * and in both directions: what is refused, and what may not be refused.
 */
module AttachmentPutRuns {
  import opened Common
  import opened AttachmentRows
  import opened AttachmentProtocol
  import opened AttachmentSafety
  import opened AttachmentSupervision
  import opened AttachmentTheorems
  import Put = AttachmentObjectLedger
  import Cleanup = AttachmentCleanupLedger

  // ---------------------------------------------------------------- fence and tag, spelled out

  /** The attachment is as it was claimed, still in production, and neither lease nor expiry has passed. */
  ghost predicate Fenced(a: Attachment, now: Time, version: int, owner: Id) {
    && a.version == version && a.leaseOwner == Some(owner)
    && (exists until :: a.leaseExpiresAt == Some(until) && now < until) && now < a.expiresAt
    && (a.state == Uploading || a.state == AttachmentState.Pending)
  }

  lemma FenceIsFenced(a: Attachment, now: Time, version: int, owner: Id)
    ensures FenceHolds(a, now, version, owner) <==> Fenced(a, now, version, owner)
  {
    if a.leaseExpiresAt.Some? { assert a.leaseExpiresAt == Some(a.leaseExpiresAt.value); }
  }

  /** A quoted, non-empty run of at most 254 printable characters other than the quote. */
  ghost predicate Tag(v: string) {
    exists body: string :: 1 <= |body| <= 254 && v == "\"" + body + "\"" && Plain(body)
  }

  predicate Plain(body: string) {
    forall c :: c in body ==> '!' <= c <= '~' && c != '\"'
  }

  lemma TagIsValid(v: string)
    ensures Put.ValidEtag(v) <==> Tag(v)
  {
    if Put.ValidEtag(v) {
      var body := v[1..|v| - 1];
      assert v == "\"" + body + "\"";
      forall c | c in body ensures '!' <= c <= '~' && c != '\"' {
        var i :| 0 <= i < |body| && body[i] == c;
        assert v[i + 1] == c;
      }
      assert Plain(body);
    }
    if Tag(v) {
      var body: string :| 1 <= |body| <= 254 && v == "\"" + body + "\"" && Plain(body);
      forall i | 0 < i < |v| - 1 ensures v[i] == '!' || '#' <= v[i] <= '~' {
        assert v[i] == body[i - 1] && body[i - 1] in body;
      }
    }
  }

  ghost predicate WellFormed(c: PutClaim, observed: StoredObject) {
    observed.manifest == c.manifest && Tag(observed.version)
  }

  // ---------------------------------------------------------------- what issued claims say about the rows

  /**
   * While the attachment keeps the claimed version it is leased to the claim, in the state its variant needs; while the
   * object keeps it, the row is reserved and untouched.
   */
  predicate PutMeans(s: Db, c: PutClaim) {
    && c.objectId in s.objects && c.attachmentId in s.attachments
    && (s.attachments[c.attachmentId].version == c.attachmentVersion ==>
          LeasedTo(s.attachments[c.attachmentId], c, s.objects[c.objectId].variant))
    && (s.objects[c.objectId].objectVersion == c.objectVersion ==> Untouched(s.objects[c.objectId], c))
  }

  predicate LeasedTo(a: Attachment, c: PutClaim, variant: Variant) {
    a.leaseOwner == Some(c.leaseOwner) && a.leaseExpiresAt.Some?
    && a.state == (if variant == Source then Uploading else AttachmentState.Pending)
  }

  predicate Untouched(o: Object, c: PutClaim) {
    o.status == Reserved && o.settledAt.None? && o.abandonedAt.None? && o.etag.None? && o.supervision == c.supervisionId
  }

  /** All claims on one object come from the same grant. */
  predicate SameGrant(c: PutClaim, d: PutClaim) {
    && c.attachmentId == d.attachmentId && c.claimId == d.claimId
    && c.attachmentVersion == d.attachmentVersion && c.leaseOwner == d.leaseOwner && c.manifest == d.manifest
  }

  predicate GrantedOnce(puts: set<PutClaim>) {
    forall c, d :: c in puts && d in puts && c.objectId == d.objectId ==> SameGrant(c, d)
  }

  ghost predicate PutsMean(s: Sys) {
    (forall c :: c in s.puts ==> PutMeans(s.db, c)) && GrantedOnce(s.puts)
  }

  lemma MeaningPersists(s: Db, t: Db, c: PutClaim)
    requires PutMeans(s, c) && PutIssued(s, c) && PutIssued(t, c) && Evolves(s, t)
    ensures PutMeans(t, c)
  {
    assert ObjectEvolves(s.objects[c.objectId], t.objects[c.objectId]);
    assert AttachmentEvolves(s.attachments[c.attachmentId], t.attachments[c.attachmentId]);
  }

  lemma MeaningsPersist(s: Sys, t: Sys)
    requires PutsMean(s) && PutsIssued(s) && PutsIssued(t) && Evolves(s.db, t.db) && t.puts == s.puts
    ensures PutsMean(t)
  {
    forall c | c in t.puts ensures PutMeans(t.db, c) { MeaningPersists(s.db, t.db, c); }
  }

  lemma AddMeaning(s: Sys, t: Sys, c: PutClaim)
    requires PutsMean(s) && PutsIssued(s) && PutsIssued(t) && Evolves(s.db, t.db) && t.puts == s.puts + {c}
    requires PutMeans(t.db, c) && forall d :: d in s.puts && d.objectId == c.objectId ==> SameGrant(d, c)
    ensures PutsMean(t)
  {
    forall d | d in t.puts ensures PutMeans(t.db, d) {
      if d in s.puts { MeaningPersists(s.db, t.db, d); }
    }
  }

  lemma GrantMeans(s: Db, a: Id, k: Id, f: Put.Fence, claimId: Id, t: Db, c: PutClaim)
    requires Put.ClaimPut(s, a, k, f, claimId) == (t, Ok(c)) && (k in s.objects ==> RowOk(s.objects[k]))
    ensures PutMeans(t, c) && c.objectId == k && k in s.objects && s.objects[k].putClaim.None?
  {}

  lemma BindMeans(s: Db, p: Proofs, c: PutClaim, handle: Id, t: Db, d: PutClaim)
    requires Put.BindSupervision(s, p, c, handle) == (t, Ok(d)) && PutMeans(s, c) && RowOk(s.objects[c.objectId])
    ensures PutMeans(t, d) && d.objectId == c.objectId && SameGrant(c, d)
  {}

  lemma NoClaimYet(s: Sys, k: Id)
    requires PutsIssued(s) && k in s.db.objects && s.db.objects[k].putClaim.None?
    ensures forall d :: d in s.puts ==> d.objectId != k
  {
    forall d | d in s.puts ensures d.objectId != k { IssuedPut(s, d); }
  }

  /** Adding the claim of a granted call, if it was granted. */
  lemma AddAnswer(s: Sys, t: Sys, r: Put.Result<PutClaim>)
    requires PutsMean(s) && PutsIssued(s) && PutsIssued(t) && Evolves(s.db, t.db)
    requires t.puts == if r.1.Ok? then s.puts + {r.1.value} else s.puts
    requires r.1.Ok? ==>
               PutMeans(t.db, r.1.value)
               && forall d :: d in s.puts && d.objectId == r.1.value.objectId ==> SameGrant(d, r.1.value)
    ensures PutsMean(t)
  {
    if r.1.Ok? { AddMeaning(s, t, r.1.value); } else { MeaningsPersist(s, t); }
  }

  lemma GrantStepMeans(s: Sys, a: Id, k: Id, f: Put.Fence, claimId: Id, t: Sys, r: Put.Result<PutClaim>)
    requires RowsOk(s.db) && PutsMean(s) && PutsIssued(s) && PutsIssued(t) && Evolves(s.db, t.db)
    requires r == Put.ClaimPut(s.db, a, k, f, claimId) && t.db == r.0
    requires t.puts == if r.1.Ok? then s.puts + {r.1.value} else s.puts
    ensures PutsMean(t)
  {
    if r.1.Ok? {
      if k in s.db.objects { RowIsOk(s.db, k); }
      GrantMeans(s.db, a, k, f, claimId, t.db, r.1.value);
      NoClaimYet(s, k);
    }
    AddAnswer(s, t, r);
  }

  lemma BindStepMeans(s: Sys, c: PutClaim, handle: Id, t: Sys, r: Put.Result<PutClaim>)
    requires RowsOk(s.db) && PutsMean(s) && PutsIssued(s) && PutsIssued(t) && Evolves(s.db, t.db) && c in s.puts
    requires r == Put.BindSupervision(s.db, s.proofs, c, handle) && t.db == r.0
    requires t.puts == if r.1.Ok? then s.puts + {r.1.value} else s.puts
    ensures PutsMean(t)
  {
    if r.1.Ok? {
      IssuedPut(s, c);
      RowIsOk(s.db, c.objectId);
      BindMeans(s.db, s.proofs, c, handle, t.db, r.1.value);
      CopyOfGrant(s.puts, c, r.1.value);
    }
    AddAnswer(s, t, r);
  }

  lemma CopyOfGrant(puts: set<PutClaim>, c: PutClaim, d: PutClaim)
    requires GrantedOnce(puts) && c in puts && c.objectId == d.objectId && SameGrant(c, d)
    ensures forall e :: e in puts && e.objectId == d.objectId ==> SameGrant(e, d)
  {
    forall e | e in puts && e.objectId == d.objectId ensures SameGrant(e, d) { assert SameGrant(e, c); }
  }

  lemma OthersClaimNothing(s: Sys, step: Step)
    requires !step.ClaimPut? && (step.BindSupervision? ==> step.put !in s.puts)
    ensures Next(s, step).puts == s.puts
  {}

  lemma StepMeans(s: Sys, step: Step, t: Sys)
    requires SysInv(s) && PutsMean(s) && t == Next(s, step) && PutsIssued(t) && Evolves(s.db, t.db)
    ensures PutsMean(t)
  {
    if step.ClaimPut? {
      GrantStepMeans(s, step.attachmentId, step.objectId, step.fence, step.claimId, t,
                     Put.ClaimPut(s.db, step.attachmentId, step.objectId, step.fence, step.claimId));
    } else if step.BindSupervision? && step.put in s.puts {
      BindStepMeans(s, step.put, step.handle, t, Put.BindSupervision(s.db, s.proofs, step.put, step.handle));
    } else {
      OthersClaimNothing(s, step);
      MeaningsPersist(s, t);
    }
  }

  lemma {:induction false} RunMeans(s: Sys, steps: seq<Step>)
    requires SysInv(s) && PutsMean(s)
    ensures PutsMean(Run(s, steps))
    decreases |steps|
  {
    if |steps| > 0 {
      var t := Next(s, steps[0]);
      Preserved(s, steps[0], t);
      StepMeans(s, steps[0], t);
      RunMeans(t, steps[1..]);
    }
  }

  lemma ReachableMeans(s: Sys)
    requires ReachableSys(s)
    ensures SysInv(s) && PutsMean(s)
  {
    var steps :| s == Run(Initial(), steps);
    Reachable([]);
    RunMeans(Initial(), steps);
    Reachable(steps);
  }

  // ---------------------------------------------------------------- the row and the claim that presents it

  /** What a reachable row and an issued claim on it agree on. */
  predicate Facing(s: Db, c: PutClaim) {
    && PutIssued(s, c) && PutMeans(s, c) && RowOk(s.objects[c.objectId])
  }

  lemma ClaimFaces(s: Sys, c: PutClaim)
    requires ReachableSys(s) && c in s.puts
    ensures Facing(s.db, c)
  {
    ReachableMeans(s);
    IssuedPut(s, c);
    RowIsOk(s.db, c.objectId);
  }

  /** The row is as claimed or bound, and the fence of the claim still stands. */
  ghost predicate Timely(s: Db, c: PutClaim)
    requires c.objectId in s.objects && c.attachmentId in s.attachments
  {
    s.objects[c.objectId].objectVersion == c.objectVersion
    && Fenced(s.attachments[c.attachmentId], s.now, c.attachmentVersion, c.leaseOwner)
  }

  /** The same tag was recorded before, the object is still usable and the fence still stands. */
  ghost predicate RecordedUsable(s: Db, c: PutClaim, observed: StoredObject)
    requires c.objectId in s.objects && c.attachmentId in s.attachments
  {
    s.objects[c.objectId].status == Written && s.objects[c.objectId].etag == Some(observed.version)
    && Fenced(s.attachments[c.attachmentId], s.now, c.attachmentVersion, c.leaseOwner)
  }

  lemma AnswersExactly(s: Db, c: PutClaim, observed: StoredObject, j: Id)
    requires Facing(s, c)
    ensures var r, o := Put.RecordPutResult(s, c, observed, j).1, s.objects[c.objectId];
            && (r == Ok(true) <==> WellFormed(c, observed) && (Timely(s, c) || RecordedUsable(s, c, observed)))
            && (r == Refused(ClaimConflict) <==> o.abandonedAt.Some?)
            && (r == Refused(Integrity) <==>
                  o.abandonedAt.None?
                  && (!WellFormed(c, observed) || (o.settledAt.Some? && o.etag != Some(observed.version))))
            && r != Refused(StorageConflict)
  {
    FenceIsFenced(s.attachments[c.attachmentId], s.now, c.attachmentVersion, c.leaseOwner);
    TagIsValid(observed.version);
  }

  /**
   * Every answer to an issued claim, in every run. The first well-formed result is accepted iff the row is as claimed
   * or bound and the fence still stands; a redelivered one iff the object is still usable; refused are the results of
   * an abandoned PUT, ill-formed results and other tags.
   */
  lemma ResultsAnsweredExactly(s: Sys, c: PutClaim, observed: StoredObject, j: Id)
    requires ReachableSys(s) && c in s.puts
    ensures c.objectId in s.db.objects && c.attachmentId in s.db.attachments
    ensures var r, o := Put.RecordPutResult(s.db, c, observed, j).1, s.db.objects[c.objectId];
            && (r == Ok(true) <==> WellFormed(c, observed) && (Timely(s.db, c) || RecordedUsable(s.db, c, observed)))
            && (r == Refused(ClaimConflict) <==> o.abandonedAt.Some?)
            && (r == Refused(Integrity) <==>
                  o.abandonedAt.None?
                  && (!WellFormed(c, observed) || (o.settledAt.Some? && o.etag != Some(observed.version))))
            && r != Refused(StorageConflict)
  {
    ClaimFaces(s, c);
    AnswersExactly(s.db, c, observed, j);
  }

  /** The row after its first well-formed result. */
  function Settling(o: Object, tag: string, now: Time, status: ObjectStatus): Object {
    o.(etag := Some(tag), settledAt := Some(now), putUncertain := false, status := status,
       objectVersion := o.objectVersion + 1)
  }

  lemma FirstResult(s: Db, c: PutClaim, observed: StoredObject, j: Id)
    requires Facing(s, c) && WellFormed(c, observed) && j !in s.jobs
    requires s.objects[c.objectId].abandonedAt.None? && s.objects[c.objectId].settledAt.None?
    ensures var t, o := Put.RecordPutResult(s, c, observed, j).0, s.objects[c.objectId];
            && t.attachments == s.attachments
            && t.objects == s.objects[c.objectId := Settling(o, observed.version, s.now,
                                                             if Timely(s, c) then Written else DeletePending)]
            && (Timely(s, c) ==> t.jobs == s.jobs)
            && (!Timely(s, c) ==> HasDebt(t.jobs, c.objectId))
  {
    FenceIsFenced(s.attachments[c.attachmentId], s.now, c.attachmentVersion, c.leaseOwner);
    TagIsValid(observed.version);
    var t := Put.RecordPutResult(s, c, observed, j).0;
    if !Timely(s, c) && !HasDebt(s.jobs, c.objectId) { assert Incomplete(t.jobs, j, c.objectId); }
  }

  /**
   * A claim whose attachment and object rows are as it was granted, with lease and expiry ahead, has its first
   * well-formed result accepted and its row written. A later one is kept with its tag, and its deletion is owed.
   */
  lemma FirstResultCounts(s: Sys, c: PutClaim, observed: StoredObject, j: Id)
    requires ReachableSys(s) && c in s.puts && WellFormed(c, observed) && j !in s.db.jobs
    ensures c.objectId in s.db.objects && c.attachmentId in s.db.attachments
    ensures var a, o := s.db.attachments[c.attachmentId], s.db.objects[c.objectId];
            var r := Put.RecordPutResult(s.db, c, observed, j);
            && (o.objectVersion == c.objectVersion && a.version == c.attachmentVersion && s.db.now < a.expiresAt
                && a.leaseExpiresAt.Some? && s.db.now < a.leaseExpiresAt.value ==>
                  r.1 == Ok(true)
                  && r.0 == s.db.(objects := r.0.objects)
                  && r.0.objects == s.db.objects[c.objectId := Settling(o, observed.version, s.db.now, Written)])
            && (o.abandonedAt.None? && o.settledAt.None? && !Timely(s.db, c) ==>
                  r.1 == Ok(false) && HasDebt(r.0.jobs, c.objectId)
                  && r.0.objects == s.db.objects[c.objectId := Settling(o, observed.version, s.db.now, DeletePending)])
  {
    ClaimFaces(s, c);
    AnswersExactly(s.db, c, observed, j);
    var a, o := s.db.attachments[c.attachmentId], s.db.objects[c.objectId];
    if o.abandonedAt.None? && o.settledAt.None? { FirstResult(s.db, c, observed, j); }
    if a.leaseExpiresAt.Some? && s.db.now < a.leaseExpiresAt.value {
      assert a.leaseExpiresAt == Some(a.leaseExpiresAt.value);
    }
  }

  // ---------------------------------------------------------------- only a fenced result writes a row

  predicate NoNewWrites(s: Db, t: Db) {
    forall k :: k in t.objects && t.objects[k].status == Written ==> k in s.objects && s.objects[k].status == Written
  }

  lemma ClaimWritesNothing(s: Db, a: Id, k: Id, f: Put.Fence, claimId: Id)
    ensures NoNewWrites(s, Put.ClaimPut(s, a, k, f, claimId).0)
  {}

  lemma BindWritesNothing(s: Db, p: Proofs, c: PutClaim, handle: Id)
    ensures NoNewWrites(s, Put.BindSupervision(s, p, c, handle).0)
  {}

  lemma AbandonWritesNothing(s: Db, p: Proofs, c: PutClaim, certificate: Certificate, closure: Closure, j: Id)
    ensures NoNewWrites(s, Put.AbandonUnsent(s, p, c, certificate, closure, j).0)
  {}

  lemma PutStepWritesNothing(s: Sys, step: Step)
    requires step.ClaimPut? || step.BindSupervision? || step.AbandonUnsent?
    ensures NoNewWrites(s.db, Next(s, step).db)
  {
    match step
    case ClaimPut(a, k, f, id) => ClaimWritesNothing(s.db, a, k, f, id);
    case BindSupervision(c, h) => BindWritesNothing(s.db, s.proofs, c, h);
    case AbandonUnsent(c, cert, closure, j) => AbandonWritesNothing(s.db, s.proofs, c, cert, closure, j);
  }

  lemma CleanupWritesNothing(s: Sys, step: Step)
    requires step.ClaimCleanup? || step.FinishCleanup? || step.FailCleanup?
    ensures NoNewWrites(s.db, Next(s, step).db)
  {}

  lemma EnvironmentWritesNothing(s: Db, step: Step)
    ensures NoNewWrites(s, Environment(s, step))
  {}

  lemma ResultWrites(s: Db, c: PutClaim, observed: StoredObject, j: Id, k: Id)
    requires var t := Put.RecordPutResult(s, c, observed, j).0;
             k in t.objects && t.objects[k].status == Written && !(k in s.objects && s.objects[k].status == Written)
    ensures c.objectId == k && Put.RecordPutResult(s, c, observed, j).1 == Ok(true)
  {}

  /**
   * In every run a row is written only by a result of a claim on it, accepted while the fence of that claim stands; and
   * every claim ever issued on the row has that same fence.
   */
  lemma WrittenUnderFence(s: Sys, step: Step, k: Id)
    requires ReachableSys(s) && k in Next(s, step).db.objects && Next(s, step).db.objects[k].status == Written
    requires !(k in s.db.objects && s.db.objects[k].status == Written)
    ensures step.RecordPutResult? && step.put in s.puts && step.put.objectId == k && WellFormed(step.put, step.observed)
    ensures Put.RecordPutResult(s.db, step.put, step.observed, step.newJob).1 == Ok(true)
    ensures forall c :: c in s.puts && c.objectId == k ==>
              c.attachmentId in s.db.attachments
              && Fenced(s.db.attachments[c.attachmentId], s.db.now, c.attachmentVersion, c.leaseOwner)
  {
    if step.ClaimPut? || step.BindSupervision? || step.AbandonUnsent? {
      PutStepWritesNothing(s, step);
    } else if step.ClaimCleanup? || step.FinishCleanup? || step.FailCleanup? {
      CleanupWritesNothing(s, step);
    } else if !step.RecordPutResult? {
      EnvironmentWritesNothing(s.db, step);
    } else {
      ResultWrites(s.db, step.put, step.observed, step.newJob, k);
      ResultsAnsweredExactly(s, step.put, step.observed, step.newJob);
      ReachableMeans(s);
      forall c | c in s.puts && c.objectId == k ensures SameGrant(c, step.put) {}
    }
  }

  // ---------------------------------------------------------------- granting and binding

  /** A PUT is granted exactly on an unclaimed reserved row, under a live lease in the state its variant needs. */
  lemma PutGrantedExactly(s: Db, a: Id, k: Id, f: Put.Fence, claimId: Id)
    ensures Put.ClaimPut(s, a, k, f, claimId).1.Ok? <==>
            && a in s.attachments && k in s.objects && s.objects[k].attachmentId == a
            && -0x1F_FFFF_FFFF_FFFF <= f.attachmentVersion <= 0x1F_FFFF_FFFF_FFFF
            && Fenced(s.attachments[a], s.now, f.attachmentVersion, f.leaseOwner)
            && s.objects[k].status == Reserved && s.objects[k].putClaim.None?
            && s.attachments[a].state == (if s.objects[k].variant == Source then Uploading else AttachmentState.Pending)
    ensures Put.ClaimPut(s, a, k, f, claimId).1.Ok? ==>
              var t, c := Put.ClaimPut(s, a, k, f, claimId).0, Put.ClaimPut(s, a, k, f, claimId).1.value;
              var o := s.objects[k];
              && t == s.(objects := s.objects[k := o.(putClaim := Some(claimId), claimedAt := Some(s.now),
                                                      putUncertain := true, objectVersion := o.objectVersion + 1)])
              && c == PutClaim(a, k, claimId, f.attachmentVersion, f.leaseOwner, t.objects[k].objectVersion, None,
                               ManifestOf(k, o))
  {
    if a in s.attachments { FenceIsFenced(s.attachments[a], s.now, f.attachmentVersion, f.leaseOwner); }
  }

  /** In every run an object is granted to at most one PUT, of which all its claims are copies. */
  lemma OneGrantPerObject(s: Sys, c: PutClaim, d: PutClaim)
    requires ReachableSys(s) && c in s.puts && d in s.puts && c.objectId == d.objectId
    ensures SameGrant(c, d)
  {
    ReachableMeans(s);
  }

  lemma BindsExactly(s: Db, p: Proofs, c: PutClaim, handle: Id)
    requires Facing(s, c)
    ensures Put.BindSupervision(s, p, c, handle).1.Ok? <==>
            && handle in p.handles && p.handles[handle] == Facts(c.manifest.locator, Issued, false)
            && Timely(s, c) && s.objects[c.objectId].supervision.None?
  {
    FenceIsFenced(s.attachments[c.attachmentId], s.now, c.attachmentVersion, c.leaseOwner);
  }

  /**
   * In every run an issued claim is bound to a handle exactly when the handle is fresh and minted for its object, the
   * fence stands, and the row is as claimed and not bound yet.
   */
  lemma BoundExactly(s: Sys, c: PutClaim, handle: Id)
    requires ReachableSys(s) && c in s.puts
    ensures c.objectId in s.db.objects && c.attachmentId in s.db.attachments
    ensures Put.BindSupervision(s.db, s.proofs, c, handle).1.Ok? <==>
            && handle in s.proofs.handles && s.proofs.handles[handle] == Facts(c.manifest.locator, Issued, false)
            && Timely(s.db, c) && s.db.objects[c.objectId].supervision.None?
  {
    ClaimFaces(s, c);
    BindsExactly(s.db, s.proofs, c, handle);
  }

  /**
   * In every run an issued claim is abandoned exactly when its attachment is over, nothing was recorded, its bound
   * handle was retired unsent and the local work of this very claim has ended.
   */
  lemma AbandonedExactly(s: Sys, c: PutClaim, certificate: Certificate, closure: Closure, j: Id)
    requires ReachableSys(s) && c in s.puts
    ensures c.objectId in s.db.objects && c.attachmentId in s.db.attachments
    ensures var a, o := s.db.attachments[c.attachmentId], s.db.objects[c.objectId];
            Put.AbandonUnsent(s.db, s.proofs, c, certificate, closure, j).1.Ok? <==>
            && (a.state == AttachmentState.Deleted || a.state == AttachmentState.Rejected)
            && o.settledAt.None? && o.supervision.Some?
            && certificate in s.proofs.certificates
            && certificate == Certificate(o.supervision.value, c.manifest.locator)
            && closure in s.proofs.closures && closure == Closure(c, o.supervision.value)
  {
    ClaimFaces(s, c);
  }
}
