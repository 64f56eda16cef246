/**
 * The delete side of the protocol: a leased, version-fenced worker deletes the stored
 * bytes and completes only with evidence of absence.
 */
module AttachmentCleanupLedger {
  import opened Common
  import opened AttachmentRows

  datatype Identity = Identity(attachmentId: Id, objectId: Id, jobId: Id)

  datatype CleanupClaim = CleanupClaim(
    identity: Identity,
    leaseOwner: Id,
    objectVersion: int,
    claimedAt: Time,
    manifest: Manifest,
    expected: Option<StoredObject>)

  datatype Absence = Absence(
    confirmedLocator: Locator,
    headMissing: bool,
    ownedListingResidual: int,
    observedAt: Time)

  type Result<T> = (Db, Outcome<T, Failure>)

  function Reject<T>(s: Db, code: Failure): Result<T> {
    (s, Refused(code))
  }

  /** A PUT whose outcome is unknown: the row says so, or it is claimed with no closing mark. */
  predicate InDoubt(o: Object) {
    o.putUncertain || (o.putClaim.Some? && o.settledAt.None? && o.abandonedAt.None?)
  }

  /** A derivative selected by the attachment and durably settled. */
  predicate Settled(s: Db, attachmentId: Id, selected: Option<Id>, variant: Variant) {
    && selected.Some? && selected.value in s.objects
    && var d := s.objects[selected.value];
    && d.attachmentId == attachmentId && d.variant == variant && d.status == Written
    && !d.putUncertain && d.settledAt.Some? && d.etag.Some?
  }

  function NormalizedType(f: Format): ContentType {
    match f case Image => Webp case Video => Mp4 case Text => OctetStream
  }

  function NormalizedLimit(f: Format): nat {
    match f case Image => IMAGE_BYTES case Video => VIDEO_BYTES case Text => TEXT_BYTES
  }

  /** A live READY attachment may discard only its quarantined original. */
  predicate OriginalDisposable(s: Db, id: Identity) {
    && id.attachmentId in s.attachments && id.objectId in s.objects
    && var a, o := s.attachments[id.attachmentId], s.objects[id.objectId];
    && a.state == Ready && a.leaseOwner.None? && o.variant == Source
    && a.sourceId == Some(id.objectId)
    && Settled(s, id.attachmentId, a.normalizedId, Normalized)
    && s.objects[a.normalizedId.value].contentType == NormalizedType(a.format)
    && s.objects[a.normalizedId.value].byteCount <= NormalizedLimit(a.format)
    && (if a.format == Text then a.thumbnailId.None?
        else
          && Settled(s, id.attachmentId, a.thumbnailId, Thumbnail)
          && s.objects[a.thumbnailId.value].contentType == (if a.format == Image then Webp else Jpeg)
          && s.objects[a.thumbnailId.value].byteCount <= THUMBNAIL_BYTES)
    && !(s.processing.owner.Some? && s.processing.attachmentId == Some(id.attachmentId))
  }

  /** The rows exist, belong together, hold no doubtful PUT, and the attachment allows deletion. */
  predicate Lockable(s: Db, id: Identity) {
    && id.attachmentId in s.attachments && id.objectId in s.objects && id.jobId in s.jobs
    && s.objects[id.objectId].attachmentId == id.attachmentId
    && s.jobs[id.jobId].attachmentId == id.attachmentId && s.jobs[id.jobId].objectId == id.objectId
    && !InDoubt(s.objects[id.objectId])
    && (s.attachments[id.attachmentId].state in {AttachmentState.Deleted, AttachmentState.Rejected}
        || OriginalDisposable(s, id))
  }

  function Claim(s: Db, id: Identity, leaseOwner: Id): Result<CleanupClaim> {
    if !Lockable(s, id) then Reject(s, ClaimConflict)
    else
      var o, j := s.objects[id.objectId], s.jobs[id.jobId];
      if j.completedAt.Some? || j.nextAttemptAt > s.now || LeaseLive(j.leaseExpiresAt, s.now)
         || j.attempts >= CLEANUP_ATTEMPTS || o.status == ObjectStatus.Deleted then
        Reject(s, ClaimConflict)
      else if o.putClaim.Some? && o.etag.None? && o.abandonedAt.None? then
        Reject(s, Integrity)
      else
        var o' := o.(status := DeletePending, objectVersion := o.objectVersion + 1);
        var j' := j.(leaseOwner := Some(leaseOwner), leaseExpiresAt := Some(s.now + PROCESSING_LEASE_MS),
                     attempts := j.attempts + 1);
        var manifest := ManifestOf(id.objectId, o');
        (s.(objects := s.objects[id.objectId := o'], jobs := s.jobs[id.jobId := j']),
         Ok(CleanupClaim(id, leaseOwner, o'.objectVersion, s.now, manifest,
                         if o'.etag.None? then None else Some(StoredObject(manifest, o'.etag.value)))))
  }

  predicate Matches(c: CleanupClaim, o: Object) {
    && SafeInteger(c.objectVersion)
    && c.manifest == ManifestOf(c.identity.objectId, o)
    && (if c.expected.None? then o.etag.None?
        else c.expected == Some(StoredObject(ManifestOf(c.identity.objectId, o), c.expected.value.version))
             && o.etag == Some(c.expected.value.version))
  }

  predicate Live(s: Db, c: CleanupClaim)
    requires c.identity.objectId in s.objects && c.identity.jobId in s.jobs
  {
    var o, j := s.objects[c.identity.objectId], s.jobs[c.identity.jobId];
    && Matches(c, o)
    && o.objectVersion == c.objectVersion
    && o.status == DeletePending
    && j.completedAt.None?
    && j.leaseOwner == Some(c.leaseOwner)
    && LeaseLive(j.leaseExpiresAt, s.now)
  }

  predicate Proves(s: Db, c: CleanupClaim, e: Absence) {
    && e.confirmedLocator == c.manifest.locator
    && e.headMissing && e.ownedListingResidual == 0
    && c.claimedAt <= e.observedAt <= s.now + 1000
  }

  /** The replay of a completion: this claim's version is the one just before the deleted version. */
  predicate Replays(s: Db, c: CleanupClaim)
    requires c.identity.objectId in s.objects && c.identity.jobId in s.jobs
  {
    var o, j := s.objects[c.identity.objectId], s.jobs[c.identity.jobId];
    && j.completedAt.Some? && o.status == ObjectStatus.Deleted && o.objectVersion == c.objectVersion + 1
    && Matches(c, o) && j.completedAt.value >= c.claimedAt
  }

  function Finish(s: Db, c: CleanupClaim, e: Absence): Result<()> {
    var id := c.identity;
    if !Lockable(s, id) then Reject(s, ClaimConflict)
    else if !Proves(s, c, e) then Reject(s, Integrity)
    else if Replays(s, c) then (s, Ok(()))
    else if !Live(s, c) then Reject(s, ClaimConflict)
    else
      var o, j := s.objects[id.objectId], s.jobs[id.jobId];
      (s.(objects := s.objects[id.objectId := o.(status := ObjectStatus.Deleted, deletedAt := Some(s.now),
                                                 objectVersion := o.objectVersion + 1)],
          jobs := s.jobs[id.jobId := j.(completedAt := Some(s.now), leaseOwner := None, leaseExpiresAt := None,
                                             lastError := None)]),
       Ok(()))
  }

  function Pow2(n: nat): nat {
    if n == 0 then 1 else 2 * Pow2(n - 1)
  }

  /** min(60000 * 2^(attempts-1), one hour); a failed job has been claimed at least once. */
  function Backoff(attempts: nat): nat {
    var delay := if attempts == 0 then 30000 else 60000 * Pow2(attempts - 1);
    if delay < CLEANUP_MAX_BACKOFF_MS then delay else CLEANUP_MAX_BACKOFF_MS
  }

  /** The failures a worker may report. */
  const FAILURES: set<string> :=
    {"STORAGE_UNAVAILABLE", "STORAGE_INTEGRITY", "STORAGE_OWNERSHIP", "RESIDUAL_FOUND", "CLEANUP_CANCELLED"}

  function Fail(s: Db, c: CleanupClaim, code: string): Result<()> {
    var id := c.identity;
    if code !in FAILURES then Reject(s, Integrity)
    else if !Lockable(s, id) || !Live(s, c) then Reject(s, ClaimConflict)
    else
      var j := s.jobs[id.jobId];
      (s.(jobs := s.jobs[id.jobId := j.(leaseOwner := None, leaseExpiresAt := None, lastError := Some(code),
                                        nextAttemptAt := s.now + Backoff(j.attempts))]),
       Ok(()))
  }

  /** The ledger keeps no state; every method runs inside the caller's transaction. */
  class Ledger {
    constructor () {}

    method ClaimOn(client: Client, id: Identity, leaseOwner: Id) returns (r: Outcome<CleanupClaim, Failure>)
      modifies client
      ensures (client.Snapshot(), r) == Claim(old(client.Snapshot()), id, leaseOwner)
    {
      var locked := Lock(client, id);
      if !locked { return Refused(ClaimConflict); }
      var o, j := client.objects[id.objectId], client.jobs[id.jobId];
      if j.completedAt.Some? || j.nextAttemptAt > client.now || LeaseLive(j.leaseExpiresAt, client.now)
         || j.attempts >= CLEANUP_ATTEMPTS || o.status == ObjectStatus.Deleted {
        return Refused(ClaimConflict);
      }
      if o.putClaim.Some? && o.etag.None? && o.abandonedAt.None? { return Refused(Integrity); }
      o := o.(status := DeletePending);
      o := o.(objectVersion := o.objectVersion + 1);
      client.objects := client.objects[id.objectId := o];
      j := j.(leaseOwner := Some(leaseOwner), leaseExpiresAt := Some(client.now + PROCESSING_LEASE_MS));
      j := j.(attempts := j.attempts + 1);
      client.jobs := client.jobs[id.jobId := j];
      var manifest := ManifestOf(id.objectId, o);
      var expected := if o.etag.None? then None else Some(StoredObject(manifest, o.etag.value));
      r := Ok(CleanupClaim(id, leaseOwner, o.objectVersion, client.now, manifest, expected));
    }

    method FinishOn(client: Client, claim: CleanupClaim, absence: Absence) returns (r: Outcome<(), Failure>)
      modifies client
      ensures (client.Snapshot(), r) == Finish(old(client.Snapshot()), claim, absence)
    {
      var id := claim.identity;
      var locked := Lock(client, id);
      if !locked { return Refused(ClaimConflict); }
      var o, j := client.objects[id.objectId], client.jobs[id.jobId];
      if claim.manifest.locator != absence.confirmedLocator || !absence.headMissing
         || absence.ownedListingResidual != 0 || absence.observedAt < claim.claimedAt
         || absence.observedAt > client.now + 1000 {
        return Refused(Integrity);
      }
      if j.completedAt.Some? && o.status == ObjectStatus.Deleted && o.objectVersion == claim.objectVersion + 1
         && Matches(claim, o) && j.completedAt.value >= claim.claimedAt {
        return Ok(());
      }
      if !Live(Db(client.attachments, client.objects, client.jobs, client.processing, client.now), claim) {
        return Refused(ClaimConflict);
      }
      o := o.(status := ObjectStatus.Deleted, deletedAt := Some(client.now));
      o := o.(objectVersion := o.objectVersion + 1);
      client.objects := client.objects[id.objectId := o];
      j := j.(completedAt := Some(client.now), leaseOwner := None);
      j := j.(leaseExpiresAt := None, lastError := None);
      client.jobs := client.jobs[id.jobId := j];
      r := Ok(());
    }

    method FailOn(client: Client, claim: CleanupClaim, code: string) returns (r: Outcome<(), Failure>)
      modifies client
      ensures (client.Snapshot(), r) == Fail(old(client.Snapshot()), claim, code)
    {
      if code !in FAILURES { return Refused(Integrity); }
      var id := claim.identity;
      var locked := Lock(client, id);
      if !locked || !Live(Db(client.attachments, client.objects, client.jobs, client.processing, client.now), claim) {
        return Refused(ClaimConflict);
      }
      var j := client.jobs[id.jobId];
      j := j.(leaseOwner := None, leaseExpiresAt := None, lastError := Some(code));
      j := j.(nextAttemptAt := client.now + Backoff(j.attempts));
      client.jobs := client.jobs[id.jobId := j];
      r := Ok(());
    }

    method Lock(client: Client, id: Identity) returns (locked: bool)
      ensures locked == Lockable(client.Snapshot(), id)
    {
      if id.attachmentId !in client.attachments || id.objectId !in client.objects || id.jobId !in client.jobs {
        return false;
      }
      var a, o, j := client.attachments[id.attachmentId], client.objects[id.objectId], client.jobs[id.jobId];
      if o.attachmentId != id.attachmentId || j.attachmentId != id.attachmentId || j.objectId != id.objectId {
        return false;
      }
      if o.putUncertain || (o.putClaim.Some? && o.settledAt.None? && o.abandonedAt.None?) { return false; }
      if a.state == AttachmentState.Deleted || a.state == AttachmentState.Rejected { return true; }
      locked := OriginalDisposable(Db(client.attachments, client.objects, client.jobs, client.processing, client.now),
                                   id);
    }
  }

  /** The delay doubles from one minute and is capped at one hour; it never shrinks. */
  lemma {:induction false} BackoffIsMonotone(m: nat, n: nat)
    requires 1 <= m <= n
    ensures 60000 <= Backoff(m) <= Backoff(n) <= CLEANUP_MAX_BACKOFF_MS
    decreases n - m
  {
    PowIsMonotone(0, m - 1);
    PowIsMonotone(m - 1, n - 1);
  }

  lemma {:induction false} PowIsMonotone(m: nat, n: nat)
    requires m <= n
    ensures 1 <= Pow2(m) <= Pow2(n)
    decreases n
  {
    if n > 0 {
      PowIsMonotone(if m > 0 then m - 1 else 0, n - 1);
    }
  }
}
