/**
 * The two ledgers and their environment as one transition system. The ledgers never call
 * each other; their joint safety is an invariant of the rows they share.
 */
module AttachmentProtocol {
  import opened Common
  import opened AttachmentRows
  import opened AttachmentSupervision
  import Put = AttachmentObjectLedger
  import Cleanup = AttachmentCleanupLedger

  /**
   * The database and the record of sends together with what the ledgers have handed out: the PUT
   * claims and cleanup claims issued so far, and for each deleted object the claim and the evidence
   * that deleted it.
   */
  datatype Sys = Sys(
    db: Db,
    proofs: Proofs,
    puts: set<PutClaim>,
    cleanups: set<Cleanup.CleanupClaim>,
    winners: map<Id, Cleanup.CleanupClaim>,
    evidence: map<Id, Cleanup.Absence>)

  datatype Step =
    | ClaimPut(attachmentId: Id, objectId: Id, fence: Put.Fence, claimId: Id)
    | BindSupervision(put: PutClaim, handle: Id)
    | AbandonUnsent(put: PutClaim, certificate: Certificate, closure: Closure, newJob: Id)
    | RecordPutResult(put: PutClaim, observed: StoredObject, newJob: Id)
    | ClaimCleanup(cleanupOf: Cleanup.Identity, leaseOwner: Id)
    | FinishCleanup(cleanup: Cleanup.CleanupClaim, absence: Cleanup.Absence)
    | FailCleanup(cleanup: Cleanup.CleanupClaim, code: string)
    | Supervise(act: Act)
    | CreateAttachment(id: Id, row: Attachment)
    | MoveAttachment(id: Id, row: Attachment)
    | ReserveObject(id: Id, attachmentId: Id, attemptId: Id, variant: Variant, byteCount: nat, sha256: Digest,
                    contentType: ContentType)
    | RetireObject(id: Id, reason: Reason, newJob: Id)
    | DiscardOriginal(id: Id, newJob: Id)
    | SetProcessing(lease: ProcessingLease)
    | Tick(elapsed: nat)

  // ---------------------------------------------------------------- the environment

  predicate Edge(a: AttachmentState, b: AttachmentState) {
    match a
    case Temporary => b in {Uploading, AttachmentState.Deleted}
    case Uploading => b in {Pending, AttachmentState.Deleted}
    case Pending => b in {Ready, Rejected, AttachmentState.Deleted}
    case Ready => b == AttachmentState.Deleted
    case Rejected => b == AttachmentState.Deleted
    case Deleted => false
  }

  predicate Keeps<T(==)>(a: Option<T>, b: Option<T>) {
    a.Some? ==> b == a
  }

  /** The columns an attachment update may change, and the version it must advance. */
  predicate AttachmentMoves(a: Attachment, b: Attachment) {
    && b.version == a.version + 1
    && (a.state == b.state || Edge(a.state, b.state))
    && a.format == b.format && a.expiresAt == b.expiresAt
    && Keeps(a.sourceId, b.sourceId) && Keeps(a.normalizedId, b.normalizedId) && Keeps(a.thumbnailId, b.thumbnailId)
  }

  /** One row of terminal cleanup scheduling: retire the object and owe its deletion. */
  function Retire(s: Db, id: Id, reason: Reason, newJob: Id): Db {
    if id !in s.objects || newJob in s.jobs then s
    else
      var o := s.objects[id];
      if o.attachmentId !in s.attachments
         || s.attachments[o.attachmentId].state !in {AttachmentState.Deleted, AttachmentState.Rejected}
         || o.status == ObjectStatus.Deleted then s
      else
        var o' := if o.status == DeletePending then o
                  else o.(status := DeletePending, objectVersion := o.objectVersion + 1);
        s.(objects := s.objects[id := o'], jobs := Enqueue(s.jobs, newJob, o', id, reason, s.now))
  }

  /** Publication owes the deletion of the settled original. */
  function Orphaned(s: Db, id: Id, newJob: Id): Db {
    if id !in s.objects || newJob in s.jobs then s
    else
      var o := s.objects[id];
      if o.status != Written || o.putUncertain || o.putClaim.None? || o.settledAt.None? || o.etag.None? then s
      else s.(jobs := Enqueue(s.jobs, newJob, o, id, Orphan, s.now))
  }

  predicate LowerHex(s: Digest) {
    |s| == 64 && forall i :: 0 <= i < |s| ==> 'a' <= s[i] <= 'f' || '0' <= s[i] <= '9'
  }

  predicate SameAttempt(o: Object, p: Object) {
    o.attachmentId == p.attachmentId && o.attemptId == p.attemptId && o.variant == p.variant
  }

  /** What the database demands of a new object row. */
  predicate Reservable(s: Db, o: Object) {
    && o.attachmentId in s.attachments
    && 1 <= o.byteCount <= IMAGE_BYTES && LowerHex(o.sha256)
    && (forall k :: k in s.objects ==> !SameAttempt(s.objects[k], o))
  }

  function NewObject(attachmentId: Id, attemptId: Id, variant: Variant, byteCount: nat, sha256: Digest,
                     contentType: ContentType): Object {
    Object(attachmentId, attemptId, variant, byteCount, sha256, contentType, 0,
           None, None, None, false, None, None, None, Reserved, None)
  }

  function Reserve(s: Db, id: Id, o: Object): Db {
    if id in s.objects || !Reservable(s, o) then s else s.(objects := s.objects[id := o])
  }

  function PutAttachment(s: Db, id: Id, row: Attachment): Db {
    s.(attachments := s.attachments[id := row])
  }

  function Environment(s: Db, step: Step): Db {
    match step
    case CreateAttachment(id, row) => if id in s.attachments then s else PutAttachment(s, id, row)
    case MoveAttachment(id, row) =>
      if id in s.attachments && AttachmentMoves(s.attachments[id], row) then PutAttachment(s, id, row) else s
    case ReserveObject(id, attachmentId, attemptId, variant, byteCount, sha256, contentType) =>
      Reserve(s, id, NewObject(attachmentId, attemptId, variant, byteCount, sha256, contentType))
    case RetireObject(id, reason, newJob) => Retire(s, id, reason, newJob)
    case DiscardOriginal(id, newJob) => Orphaned(s, id, newJob)
    case SetProcessing(lease) => s.(processing := lease)
    case Tick(elapsed) => s.(now := s.now + elapsed)
    case _ => s
  }

  function Initial(): Sys {
    Sys(Db(map[], map[], map[], ProcessingLease(None, None), 0), Proofs(map[], {}, {}, {}), {}, {}, map[], map[])
  }

  /** Claims are capabilities of the ledgers: only an issued claim can be presented again. */
  function Next(s: Sys, step: Step): Sys {
    match step
    case ClaimPut(attachmentId, objectId, fence, claimId) =>
      var r := Put.ClaimPut(s.db, attachmentId, objectId, fence, claimId);
      s.(db := r.0, puts := if r.1.Ok? then s.puts + {r.1.value} else s.puts)
    case BindSupervision(put, handle) =>
      if put !in s.puts then s else
      var r := Put.BindSupervision(s.db, s.proofs, put, handle);
      s.(db := r.0, puts := if r.1.Ok? then s.puts + {r.1.value} else s.puts)
    case AbandonUnsent(put, certificate, closure, newJob) =>
      if put !in s.puts || newJob in s.db.jobs then s
      else s.(db := Put.AbandonUnsent(s.db, s.proofs, put, certificate, closure, newJob).0)
    case RecordPutResult(put, observed, newJob) =>
      if put !in s.puts || newJob in s.db.jobs then s else s.(db := Put.RecordPutResult(s.db, put, observed, newJob).0)
    case ClaimCleanup(id, leaseOwner) =>
      var r := Cleanup.Claim(s.db, id, leaseOwner);
      s.(db := r.0, cleanups := if r.1.Ok? then s.cleanups + {r.1.value} else s.cleanups)
    case FinishCleanup(c, absence) =>
      if c !in s.cleanups then s else
      var r := Cleanup.Finish(s.db, c, absence);
      if r.0 == s.db then s
      else s.(db := r.0, winners := s.winners[c.identity.objectId := c],
              evidence := s.evidence[c.identity.objectId := absence])
    case FailCleanup(c, code) =>
      if c !in s.cleanups then s else s.(db := Cleanup.Fail(s.db, c, code).0)
    case Supervise(act) => s.(proofs := Perform(s.proofs, act))
    case _ => s.(db := Environment(s.db, step))
  }

  function Run(s: Sys, steps: seq<Step>): Sys
    decreases |steps|
  {
    if |steps| == 0 then s else Run(Next(s, steps[0]), steps[1..])
  }

  // ---------------------------------------------------------------- the shared row invariant

  /** In doubt iff claimed and neither settled nor abandoned; the two marks exclude each other. */
  predicate RowOk(o: Object) {
    && (o.putClaim.None? ==> !o.putUncertain && o.settledAt.None? && o.abandonedAt.None? && o.supervision.None?)
    && (o.putClaim.Some? ==> (o.putUncertain <==> o.settledAt.None? && o.abandonedAt.None?))
    && !(o.settledAt.Some? && o.abandonedAt.Some?)
    && (o.settledAt.Some? <==> o.etag.Some?)
    && (o.abandonedAt.Some? ==> o.supervision.Some? && o.status in {DeletePending, ObjectStatus.Deleted})
    && (o.status == Reserved ==> o.settledAt.None?)
    && (o.status == Written ==> o.settledAt.Some?)
    && (o.status == ObjectStatus.Deleted ==> !o.putUncertain)
    && (o.status == ObjectStatus.Deleted <==> o.deletedAt.Some?)
  }

  predicate JobOk(j: Job) {
    && j.attempts <= CLEANUP_ATTEMPTS
    && (j.leaseOwner.Some? <==> j.leaseExpiresAt.Some?)
    && (j.leaseOwner.Some? ==> j.attempts >= 1 && j.completedAt.None?)
  }

  predicate RowsOk(s: Db) {
    forall k :: k in s.objects ==> RowOk(s.objects[k]) && s.objects[k].attachmentId in s.attachments
  }

  predicate JobsOk(s: Db) {
    forall j :: j in s.jobs ==> JobOk(s.jobs[j]) && s.jobs[j].objectId in s.objects
  }

  /** No object is owed by two incomplete jobs. */
  ghost predicate SoleDebts(jobs: map<Id, Job>) {
    forall i, j, k :: Incomplete(jobs, i, k) && Incomplete(jobs, j, k) ==> i == j
  }

  predicate DebtFits(o: Object, owed: bool) {
    && (o.status == DeletePending ==> owed)
    && (o.status == ObjectStatus.Deleted ==> !owed)
  }

  /** Every pending deletion is owed by an incomplete job; a completed deletion by none. */
  predicate DebtsFit(s: Db) {
    forall k {:trigger HasDebt(s.jobs, k)} :: k in s.objects ==> DebtFits(s.objects[k], HasDebt(s.jobs, k))
  }

  ghost predicate DbInv(s: Db) {
    RowsOk(s) && JobsOk(s) && SoleDebts(s.jobs) && DebtsFit(s)
  }

  // ---------------------------------------------------------------- how rows may change

  function Rank(status: ObjectStatus): nat {
    match status case Reserved => 0 case Written => 1 case DeletePending => 2 case Deleted => 3
  }

  predicate SameIdentity(o: Object, p: Object) {
    && o.attachmentId == p.attachmentId && o.attemptId == p.attemptId && o.variant == p.variant
    && o.byteCount == p.byteCount && o.sha256 == p.sha256 && o.contentType == p.contentType
  }

  /** What every later version of an object row keeps of an earlier one. */
  predicate ObjectEvolves(o: Object, p: Object) {
    && SameIdentity(o, p)
    && o.objectVersion <= p.objectVersion
    && (o.objectVersion == p.objectVersion ==> o == p)
    && Rank(o.status) <= Rank(p.status)
    && Keeps(o.putClaim, p.putClaim) && Keeps(o.supervision, p.supervision)
    && Keeps(o.settledAt, p.settledAt) && Keeps(o.abandonedAt, p.abandonedAt) && Keeps(o.etag, p.etag)
    && (o.status != Reserved && o.putClaim.None? ==> p.putClaim.None?)
    && (o.putClaim.Some? && !o.putUncertain ==>
          !p.putUncertain && p.settledAt == o.settledAt && p.abandonedAt == o.abandonedAt && p.etag == o.etag)
    && (o.status == ObjectStatus.Deleted ==> p == o)
  }

  predicate AttachmentEvolves(a: Attachment, b: Attachment) {
    && a.version <= b.version && a.expiresAt == b.expiresAt
    && (a.version == b.version ==> a == b)
    && (a.state == AttachmentState.Deleted ==> b.state == AttachmentState.Deleted)
    && (a.state == AttachmentState.Rejected ==> b.state in {AttachmentState.Rejected, AttachmentState.Deleted})
  }

  predicate JobEvolves(i: Job, j: Job) {
    && i.attachmentId == j.attachmentId && i.objectId == j.objectId
    && i.attempts <= j.attempts
    && (i.completedAt.Some? ==> j == i)
  }

  predicate Evolves(s: Db, t: Db) {
    && s.now <= t.now
    && (forall a :: a in s.attachments ==> a in t.attachments && AttachmentEvolves(s.attachments[a], t.attachments[a]))
    && (forall k :: k in s.objects ==> k in t.objects && ObjectEvolves(s.objects[k], t.objects[k]))
    && (forall j :: j in s.jobs ==> j in t.jobs && JobEvolves(s.jobs[j], t.jobs[j]))
  }

  lemma EvolvesReflexively(s: Db)
    ensures Evolves(s, s)
  {}

  lemma EvolvesTransitively(s: Db, t: Db, u: Db)
    requires Evolves(s, t) && Evolves(t, u)
    ensures Evolves(s, u)
  {
    forall k | k in s.objects ensures k in u.objects && ObjectEvolves(s.objects[k], u.objects[k]) {
      assert ObjectEvolves(s.objects[k], t.objects[k]) && ObjectEvolves(t.objects[k], u.objects[k]);
    }
    forall a | a in s.attachments ensures a in u.attachments && AttachmentEvolves(s.attachments[a], u.attachments[a]) {
      assert AttachmentEvolves(s.attachments[a], t.attachments[a])
        && AttachmentEvolves(t.attachments[a], u.attachments[a]);
    }
    forall j | j in s.jobs ensures j in u.jobs && JobEvolves(s.jobs[j], u.jobs[j]) {
      assert JobEvolves(s.jobs[j], t.jobs[j]) && JobEvolves(t.jobs[j], u.jobs[j]);
    }
  }

  // ---------------------------------------------------------------- every operation keeps the invariant

  /** What a table of jobs must offer to replace the current one. */
  ghost predicate JobsFollow(s: Db, jobs: map<Id, Job>) {
    && (forall j :: j in jobs ==> JobOk(jobs[j]) && jobs[j].objectId in s.objects)
    && (forall j :: j in s.jobs ==> j in jobs && JobEvolves(s.jobs[j], jobs[j]))
    && SoleDebts(jobs)
  }

  lemma RowsStayOk(s: Db, t: Db, k: Id, o: Object)
    requires RowsOk(s) && k in s.objects && RowOk(o) && o.attachmentId == s.objects[k].attachmentId
    requires t.objects == s.objects[k := o] && t.attachments == s.attachments
    ensures RowsOk(t)
  {}

  lemma JobsStayOk(s: Db, t: Db, k: Id, o: Object)
    requires t.objects == s.objects[k := o] && JobsFollow(s, t.jobs)
    ensures JobsOk(t) && SoleDebts(t.jobs)
  {}

  /** Every row but one is unchanged and its debt with it. */
  predicate DebtsElsewhere(s: Db, jobs: map<Id, Job>, k: Id) {
    forall t :: t in s.objects && t != k ==> (HasDebt(jobs, t) <==> HasDebt(s.jobs, t))
  }

  lemma DebtsStayFit(s: Db, t: Db, k: Id, o: Object)
    requires DebtsFit(s) && k in s.objects && t.objects == s.objects[k := o]
    requires DebtsElsewhere(s, t.jobs, k) && DebtFits(o, HasDebt(t.jobs, k))
    ensures DebtsFit(t)
  {
    forall i | i in t.objects ensures DebtFits(t.objects[i], HasDebt(t.jobs, i)) {
      if i != k { assert DebtFits(s.objects[i], HasDebt(s.jobs, i)); }
    }
  }

  lemma OneRowEvolves(s: Db, t: Db, k: Id, o: Object)
    requires k in s.objects && ObjectEvolves(s.objects[k], o) && t == s.(objects := s.objects[k := o], jobs := t.jobs)
    requires forall j :: j in s.jobs ==> j in t.jobs && JobEvolves(s.jobs[j], t.jobs[j])
    ensures Evolves(s, t)
  {
    forall i | i in s.objects ensures i in t.objects && ObjectEvolves(s.objects[i], t.objects[i]) {}
    forall a | a in s.attachments ensures AttachmentEvolves(s.attachments[a], t.attachments[a]) {}
  }

  /** The frame of every object update: one row evolves, and only its own debt may change. */
  lemma UpdateRow(s: Db, k: Id, o: Object, jobs: map<Id, Job>)
    requires DbInv(s) && k in s.objects
    requires RowOk(o) && ObjectEvolves(s.objects[k], o)
    requires JobsFollow(s, jobs)
    requires DebtsElsewhere(s, jobs, k)
    requires DebtFits(o, HasDebt(jobs, k))
    ensures var t := s.(objects := s.objects[k := o], jobs := jobs); DbInv(t) && Evolves(s, t)
  {
    var t := s.(objects := s.objects[k := o], jobs := jobs);
    RowsStayOk(s, t, k, o);
    JobsStayOk(s, t, k, o);
    DebtsStayFit(s, t, k, o);
    OneRowEvolves(s, t, k, o);
  }

  /** An update of one row that leaves the jobs alone. */
  lemma UpdateOnlyRow(s: Db, k: Id, o: Object)
    requires DbInv(s) && k in s.objects && RowOk(o) && ObjectEvolves(s.objects[k], o)
    requires o.status == DeletePending ==> s.objects[k].status == DeletePending
    requires o.status == ObjectStatus.Deleted ==> s.objects[k].status == ObjectStatus.Deleted
    ensures var t := s.(objects := s.objects[k := o]); DbInv(t) && Evolves(s, t)
  {
    JobsFollowThemselves(s);
    assert DebtFits(s.objects[k], HasDebt(s.jobs, k));
    UpdateRow(s, k, o, s.jobs);
  }

  lemma JobsFollowThemselves(s: Db)
    requires JobsOk(s) && SoleDebts(s.jobs)
    ensures JobsFollow(s, s.jobs)
  {}

  /** An update of one job that keeps every debt. */
  lemma UpdateOnlyJob(s: Db, j: Id, job: Job)
    requires DbInv(s) && j in s.jobs
    requires JobOk(job) && JobEvolves(s.jobs[j], job) && (job.completedAt.None? <==> s.jobs[j].completedAt.None?)
    ensures var t := s.(jobs := s.jobs[j := job]); DbInv(t) && Evolves(s, t)
  {
    var t := s.(jobs := s.jobs[j := job]);
    var k := s.jobs[j].objectId;
    ReplaceJob(s, j, job);
    JobsStayOk(s, t, k, s.objects[k]) by { assert t.objects == s.objects[k := s.objects[k]]; }
    forall i | i in t.objects ensures DebtFits(t.objects[i], HasDebt(t.jobs, i)) {
      assert DebtFits(s.objects[i], HasDebt(s.jobs, i));
    }
    EvolvesReflexively(s);
  }

  /** Enqueueing for k makes k owed exactly once and leaves every other debt alone. */
  lemma EnqueueKeeps(s: Db, newJob: Id, o: Object, k: Id, reason: Reason)
    requires DbInv(s) && newJob !in s.jobs && k in s.objects
    ensures var jobs := Enqueue(s.jobs, newJob, o, k, reason, s.now);
            && JobsFollow(s, jobs) && HasDebt(jobs, k)
            && DebtsElsewhere(s, jobs, k)
  {
    var jobs := Enqueue(s.jobs, newJob, o, k, reason, s.now);
    if !HasDebt(s.jobs, k) {
      assert Incomplete(jobs, newJob, k);
      forall i, j, t | Incomplete(jobs, i, t) && Incomplete(jobs, j, t) ensures i == j {
        assert i != newJob ==> Incomplete(s.jobs, i, t);
        assert j != newJob ==> Incomplete(s.jobs, j, t);
      }
      forall t | t in s.objects && t != k ensures HasDebt(jobs, t) <==> HasDebt(s.jobs, t) {
        if HasDebt(s.jobs, t) {
          var j :| j in s.jobs && Incomplete(s.jobs, j, t);
          assert Incomplete(jobs, j, t);
        }
        if HasDebt(jobs, t) {
          var j :| j in jobs && Incomplete(jobs, j, t);
          assert Incomplete(s.jobs, j, t);
        }
      }
    }
  }

  /** Replacing a job for the same target without completing it leaves every debt alone. */
  lemma ReplaceJob(s: Db, j: Id, job: Job)
    requires DbInv(s) && j in s.jobs
    requires JobOk(job) && JobEvolves(s.jobs[j], job) && (job.completedAt.None? <==> s.jobs[j].completedAt.None?)
    ensures JobsFollow(s, s.jobs[j := job])
    ensures forall k :: HasDebt(s.jobs[j := job], k) <==> HasDebt(s.jobs, k)
  {
    var jobs := s.jobs[j := job];
    assert forall i, k :: Incomplete(jobs, i, k) <==> Incomplete(s.jobs, i, k);
    forall k ensures HasDebt(jobs, k) <==> HasDebt(s.jobs, k) {
      if HasDebt(s.jobs, k) {
        var i :| i in s.jobs && Incomplete(s.jobs, i, k);
        assert Incomplete(jobs, i, k);
      }
      if HasDebt(jobs, k) {
        var i :| i in jobs && Incomplete(jobs, i, k);
        assert Incomplete(s.jobs, i, k);
      }
    }
  }

  /** Completing the sole incomplete job of k clears exactly k's debt. */
  lemma CompleteJob(s: Db, j: Id, job: Job, k: Id)
    requires DbInv(s) && Incomplete(s.jobs, j, k)
    requires JobOk(job) && JobEvolves(s.jobs[j], job) && job.completedAt.Some?
    ensures JobsFollow(s, s.jobs[j := job]) && !HasDebt(s.jobs[j := job], k)
    ensures forall t :: t != k ==> (HasDebt(s.jobs[j := job], t) <==> HasDebt(s.jobs, t))
  {
    var jobs := s.jobs[j := job];
    assert forall i, t :: Incomplete(jobs, i, t) <==> Incomplete(s.jobs, i, t) && i != j;
    forall t | t != k ensures HasDebt(jobs, t) <==> HasDebt(s.jobs, t) {
      if HasDebt(s.jobs, t) {
        var i :| i in s.jobs && Incomplete(s.jobs, i, t);
        assert Incomplete(jobs, i, t);
      }
      if HasDebt(jobs, t) {
        var i :| i in jobs && Incomplete(jobs, i, t);
        assert Incomplete(s.jobs, i, t);
      }
    }
  }

  /** A row on its way out together with the job that owes its deletion. */
  lemma EnqueueAndUpdate(s: Db, newJob: Id, k: Id, o: Object, reason: Reason)
    requires DbInv(s) && newJob !in s.jobs && k in s.objects
    requires RowOk(o) && ObjectEvolves(s.objects[k], o) && o.status != ObjectStatus.Deleted
    ensures var t := s.(objects := s.objects[k := o], jobs := Enqueue(s.jobs, newJob, o, k, reason, s.now));
            DbInv(t) && Evolves(s, t)
  {
    EnqueueKeeps(s, newJob, o, k, reason);
    UpdateRow(s, k, o, Enqueue(s.jobs, newJob, o, k, reason, s.now));
  }

  lemma ClaimPutKeeps(s: Db, attachmentId: Id, objectId: Id, fence: Put.Fence, claimId: Id)
    requires DbInv(s)
    ensures var t := Put.ClaimPut(s, attachmentId, objectId, fence, claimId).0; DbInv(t) && Evolves(s, t)
  {
    var t := Put.ClaimPut(s, attachmentId, objectId, fence, claimId).0;
    if t != s {
      UpdateOnlyRow(s, objectId, t.objects[objectId]);
    }
  }

  lemma BindKeeps(s: Db, p: Proofs, c: PutClaim, handle: Id)
    requires DbInv(s)
    ensures var t := Put.BindSupervision(s, p, c, handle).0; DbInv(t) && Evolves(s, t)
  {
    var t := Put.BindSupervision(s, p, c, handle).0;
    if t != s {
      UpdateOnlyRow(s, c.objectId, t.objects[c.objectId]);
    }
  }

  lemma AbandonKeeps(s: Db, p: Proofs, c: PutClaim, certificate: Certificate, closure: Closure, newJob: Id)
    requires DbInv(s) && newJob !in s.jobs
    ensures var t := Put.AbandonUnsent(s, p, c, certificate, closure, newJob).0; DbInv(t) && Evolves(s, t)
  {
    var t := Put.AbandonUnsent(s, p, c, certificate, closure, newJob).0;
    if t != s {
      EnqueueAndUpdate(s, newJob, c.objectId, t.objects[c.objectId], RejectedContent);
    }
  }

  /** What a first recorded result changes: one row, and a debt when it comes too late. */
  lemma RecordEffect(s: Db, c: PutClaim, observed: StoredObject, newJob: Id, t: Db)
    requires t == Put.RecordPutResult(s, c, observed, newJob).0 != s && RowsOk(s)
    ensures var k := c.objectId;
            && k in s.objects && k in t.objects && t == s.(objects := s.objects[k := t.objects[k]], jobs := t.jobs)
            && RowOk(t.objects[k]) && ObjectEvolves(s.objects[k], t.objects[k])
            && (if t.objects[k].status == Written then t.jobs == s.jobs
                else t.objects[k].status == DeletePending
                     && t.jobs == Enqueue(s.jobs, newJob, t.objects[k], k, LateWrite, s.now))
  {
    assert RowOk(s.objects[c.objectId]);
  }

  lemma RecordKeeps(s: Db, c: PutClaim, observed: StoredObject, newJob: Id)
    requires DbInv(s) && newJob !in s.jobs
    ensures var t := Put.RecordPutResult(s, c, observed, newJob).0; DbInv(t) && Evolves(s, t)
  {
    var t := Put.RecordPutResult(s, c, observed, newJob).0;
    if t == s {
      EvolvesReflexively(s);
    } else {
      var o := t.objects[c.objectId];
      RecordEffect(s, c, observed, newJob, t);
      if o.status == DeletePending {
        EnqueueAndUpdate(s, newJob, c.objectId, o, LateWrite);
      } else {
        UpdateOnlyRow(s, c.objectId, o);
      }
    }
  }

  lemma RetireKeeps(s: Db, id: Id, reason: Reason, newJob: Id)
    requires DbInv(s)
    ensures var t := Retire(s, id, reason, newJob); DbInv(t) && Evolves(s, t)
  {
    var t := Retire(s, id, reason, newJob);
    if t != s {
      EnqueueAndUpdate(s, newJob, id, t.objects[id], reason);
    }
  }

  lemma OrphanedKeeps(s: Db, id: Id, newJob: Id)
    requires DbInv(s)
    ensures var t := Orphaned(s, id, newJob); DbInv(t) && Evolves(s, t)
  {
    var t := Orphaned(s, id, newJob);
    if t != s {
      EnqueueAndUpdate(s, newJob, id, s.objects[id], Orphan);
      assert s.objects[id := s.objects[id]] == s.objects;
    }
  }

  /** What a granted claim changes: one row on its way out and its unfinished job. */
  lemma ClaimEffect(s: Db, id: Cleanup.Identity, leaseOwner: Id)
    requires Cleanup.Claim(s, id, leaseOwner).1.Ok? && RowsOk(s) && JobsOk(s)
    ensures var t, k, j := Cleanup.Claim(s, id, leaseOwner).0, id.objectId, id.jobId;
            && k in s.objects && k in t.objects && j in t.jobs && Incomplete(s.jobs, j, k)
            && t == s.(objects := s.objects[k := t.objects[k]], jobs := s.jobs[j := t.jobs[j]])
            && RowOk(t.objects[k]) && ObjectEvolves(s.objects[k], t.objects[k]) && t.objects[k].status == DeletePending
            && JobOk(t.jobs[j]) && JobEvolves(s.jobs[j], t.jobs[j]) && t.jobs[j].completedAt.None?
  {
    assert RowOk(s.objects[id.objectId]) && JobOk(s.jobs[id.jobId]);
  }

  lemma UpdateRowAndJob(s: Db, k: Id, o: Object, j: Id, job: Job)
    requires DbInv(s) && k in s.objects && Incomplete(s.jobs, j, k)
    requires RowOk(o) && ObjectEvolves(s.objects[k], o) && o.status == DeletePending
    requires JobOk(job) && JobEvolves(s.jobs[j], job) && job.completedAt.None?
    ensures var t := s.(objects := s.objects[k := o], jobs := s.jobs[j := job]); DbInv(t) && Evolves(s, t)
  {
    ReplaceJob(s, j, job);
    assert HasDebt(s.jobs, k);
    UpdateRow(s, k, o, s.jobs[j := job]);
  }

  lemma ClaimHasTag(s: Db, id: Cleanup.Identity, leaseOwner: Id)
    requires RowsOk(s)
    ensures Cleanup.Claim(s, id, leaseOwner).1 != Refused(Integrity)
  {
    if id.objectId in s.objects { assert RowOk(s.objects[id.objectId]); }
  }

  /** A granted claim targets an owed object, and the ledger's own integrity refusal is unreachable. */
  lemma CleanupClaimKeeps(s: Db, id: Cleanup.Identity, leaseOwner: Id)
    requires DbInv(s)
    ensures var r := Cleanup.Claim(s, id, leaseOwner); DbInv(r.0) && Evolves(s, r.0) && r.1 != Refused(Integrity)
  {
    var r := Cleanup.Claim(s, id, leaseOwner);
    ClaimHasTag(s, id, leaseOwner);
    if r.1.Ok? {
      ClaimEffect(s, id, leaseOwner);
      UpdateRowAndJob(s, id.objectId, r.0.objects[id.objectId], id.jobId, r.0.jobs[id.jobId]);
    } else {
      EvolvesReflexively(s);
    }
  }

  /** What a failure report changes: the lease and the schedule of one unfinished job. */
  lemma FailEffect(s: Db, c: Cleanup.CleanupClaim, code: string)
    requires Cleanup.Fail(s, c, code).0 != s && JobsOk(s)
    ensures var t, j := Cleanup.Fail(s, c, code).0, c.identity.jobId;
            && j in s.jobs && j in t.jobs && t == s.(jobs := s.jobs[j := t.jobs[j]])
            && JobOk(t.jobs[j]) && JobEvolves(s.jobs[j], t.jobs[j])
            && t.jobs[j].completedAt.None? && s.jobs[j].completedAt.None?
            && t.jobs[j].attempts == s.jobs[j].attempts
  {
    assert JobOk(s.jobs[c.identity.jobId]);
  }

  lemma FailKeeps(s: Db, c: Cleanup.CleanupClaim, code: string)
    requires DbInv(s)
    ensures var t := Cleanup.Fail(s, c, code).0; DbInv(t) && Evolves(s, t)
  {
    var t := Cleanup.Fail(s, c, code).0;
    if t == s {
      EvolvesReflexively(s);
    } else {
      FailEffect(s, c, code);
      UpdateOnlyJob(s, c.identity.jobId, t.jobs[c.identity.jobId]);
    }
  }

  /** What a completion changes: the row is deleted and its job completed. */
  lemma FinishEffect(s: Db, c: Cleanup.CleanupClaim, e: Cleanup.Absence, t: Db)
    requires t == Cleanup.Finish(s, c, e).0 != s && RowsOk(s) && JobsOk(s)
    ensures var k, j := c.identity.objectId, c.identity.jobId;
            && k in s.objects && k in t.objects && j in t.jobs && Incomplete(s.jobs, j, k)
            && t == s.(objects := s.objects[k := t.objects[k]], jobs := s.jobs[j := t.jobs[j]])
            && RowOk(t.objects[k]) && ObjectEvolves(s.objects[k], t.objects[k])
            && t.objects[k].status == ObjectStatus.Deleted
            && JobOk(t.jobs[j]) && JobEvolves(s.jobs[j], t.jobs[j]) && t.jobs[j].completedAt.Some?
            && t.jobs[j].attempts == s.jobs[j].attempts
  {
    assert RowOk(s.objects[c.identity.objectId]) && JobOk(s.jobs[c.identity.jobId]);
  }

  lemma FinishKeeps(s: Db, c: Cleanup.CleanupClaim, e: Cleanup.Absence)
    requires DbInv(s)
    ensures var t := Cleanup.Finish(s, c, e).0; DbInv(t) && Evolves(s, t)
  {
    var t := Cleanup.Finish(s, c, e).0;
    if t == s {
      EvolvesReflexively(s);
    } else {
      var k, j := c.identity.objectId, c.identity.jobId;
      FinishEffect(s, c, e, t);
      CompleteJob(s, j, t.jobs[j], k);
      UpdateRow(s, k, t.objects[k], s.jobs[j := t.jobs[j]]);
    }
  }

  lemma ReserveKeeps(s: Db, id: Id, o: Object)
    requires DbInv(s) && RowOk(o) && o.status == Reserved
    ensures DbInv(Reserve(s, id, o)) && Evolves(s, Reserve(s, id, o))
  {
    EvolvesReflexively(s);
    var t := Reserve(s, id, o);
    assert RowsOk(t) && JobsOk(t);
  }

  lemma PutAttachmentKeeps(s: Db, id: Id, a: Attachment)
    requires DbInv(s) && (id in s.attachments ==> AttachmentEvolves(s.attachments[id], a))
    ensures DbInv(PutAttachment(s, id, a)) && Evolves(s, PutAttachment(s, id, a))
  {
    EvolvesReflexively(s);
    var t := PutAttachment(s, id, a);
    assert RowsOk(t) && JobsOk(t);
  }

  lemma ClockAndLeaseKeep(s: Db, lease: ProcessingLease, elapsed: nat)
    requires DbInv(s)
    ensures var t := s.(processing := lease, now := s.now + elapsed); DbInv(t) && Evolves(s, t)
  {
    EvolvesReflexively(s);
  }

  lemma EnvironmentKeeps(s: Db, step: Step, t: Db)
    requires DbInv(s) && t == Environment(s, step)
    ensures DbInv(t) && Evolves(s, t)
  {
    if t == s {
      EvolvesReflexively(s);
    } else {
      match step
      case CreateAttachment(id, row) => PutAttachmentKeeps(s, id, row);
      case MoveAttachment(id, row) => PutAttachmentKeeps(s, id, row);
      case ReserveObject(id, a, attempt, variant, bytes, sha256, content) =>
        ReserveKeeps(s, id, NewObject(a, attempt, variant, bytes, sha256, content));
      case RetireObject(id, reason, newJob) => RetireKeeps(s, id, reason, newJob);
      case DiscardOriginal(id, newJob) => OrphanedKeeps(s, id, newJob);
      case SetProcessing(lease) => ClockAndLeaseKeep(s, lease, 0);
      case Tick(elapsed) => ClockAndLeaseKeep(s, s.processing, elapsed);
      case _ =>
    }
  }
}
