/**
 * The rows the attachment ledgers lock and update. Ids are opaque, timestamps are
 * integers, and a database client sees one clock reading per transaction.
 */
module AttachmentRows {
  import opened Common

  type Id = nat
  type Time = int
  type Digest = string

  datatype AttachmentState = Temporary | Uploading | Pending | Ready | Rejected | Deleted
  datatype Format = Image | Video | Text
  datatype Variant = Source | Normalized | Thumbnail
  datatype ContentType = OctetStream | Webp | Jpeg | Mp4
  datatype ObjectStatus = Reserved | Written | DeletePending | Deleted
  datatype Reason = Expired | Interrupted | RejectedContent | Removed | Missing | Orphan | LateWrite

  const IMAGE_BYTES := 4 * 1048576
  const VIDEO_BYTES := 3 * 1048576
  const TEXT_BYTES := 65536
  const THUMBNAIL_BYTES := 256 * 1024
  const PROCESSING_LEASE_MS := 120000
  const CLEANUP_ATTEMPTS := 10
  const CLEANUP_MAX_BACKOFF_MS := 3600000

  datatype Attachment = Attachment(
    state: AttachmentState,
    version: nat,
    leaseOwner: Option<Id>,
    leaseExpiresAt: Option<Time>,
    expiresAt: Time,
    format: Format,
    sourceId: Option<Id>,
    normalizedId: Option<Id>,
    thumbnailId: Option<Id>)

  datatype Object = Object(
    attachmentId: Id,
    attemptId: Id,
    variant: Variant,
    byteCount: nat,
    sha256: Digest,
    contentType: ContentType,
    objectVersion: nat,
    putClaim: Option<Id>,
    claimedAt: Option<Time>,
    supervision: Option<Id>,
    putUncertain: bool,
    settledAt: Option<Time>,
    abandonedAt: Option<Time>,
    etag: Option<string>,
    status: ObjectStatus,
    deletedAt: Option<Time>)

  datatype Job = Job(
    attachmentId: Id,
    objectId: Id,
    reason: Reason,
    attempts: nat,
    nextAttemptAt: Time,
    leaseOwner: Option<Id>,
    leaseExpiresAt: Option<Time>,
    lastError: Option<string>,
    completedAt: Option<Time>)

  datatype ProcessingLease = ProcessingLease(owner: Option<Id>, attachmentId: Option<Id>)

  datatype Db = Db(
    attachments: map<Id, Attachment>,
    objects: map<Id, Object>,
    jobs: map<Id, Job>,
    processing: ProcessingLease,
    now: Time)

  datatype Locator = Locator(attachmentId: Id, attemptId: Id, objectId: Id, kind: Variant)
  datatype Manifest = Manifest(locator: Locator, sizeBytes: int, sha256: Digest)
  datatype StoredObject = StoredObject(manifest: Manifest, version: string)

  /** `StorageConflict` is the storage adapter's own refusal of a supervision handle. */
  datatype Failure = ClaimConflict | Integrity | StorageConflict

  datatype PutClaim = PutClaim(
    attachmentId: Id,
    objectId: Id,
    claimId: Id,
    attachmentVersion: int,
    leaseOwner: Id,
    objectVersion: int,
    supervisionId: Option<Id>,
    manifest: Manifest)

  function ManifestOf(id: Id, o: Object): Manifest {
    Manifest(Locator(o.attachmentId, o.attemptId, id, o.variant), o.byteCount, o.sha256)
  }

  /** A SQL comparison with NULL is not true, so a missing lease is not valid. */
  predicate LeaseLive(lease: Option<Time>, now: Time) {
    lease.Some? && lease.value > now
  }

  predicate FenceHolds(a: Attachment, now: Time, version: int, owner: Id) {
    && a.version == version
    && a.leaseOwner == Some(owner)
    && LeaseLive(a.leaseExpiresAt, now) && a.expiresAt > now
    && a.state in {AttachmentState.Uploading, AttachmentState.Pending}
  }

  predicate Incomplete(jobs: map<Id, Job>, j: Id, target: Id) {
    j in jobs && jobs[j].objectId == target && jobs[j].completedAt.None?
  }

  predicate HasDebt(jobs: map<Id, Job>, target: Id) {
    exists j :: j in jobs && Incomplete(jobs, j, target)
  }

  /** INSERT ... ON CONFLICT(object_id) WHERE completed_at IS NULL DO NOTHING. */
  function Enqueue(jobs: map<Id, Job>, newJob: Id, o: Object, target: Id, reason: Reason, now: Time): map<Id, Job> {
    if HasDebt(jobs, target) then jobs
    else jobs[newJob := Job(o.attachmentId, target, reason, 0, now, None, None, None, None)]
  }

  /** One database connection: the tables it can lock, and the transaction's clock reading. */
  class Client {
    var attachments: map<Id, Attachment>
    var objects: map<Id, Object>
    var jobs: map<Id, Job>
    var processing: ProcessingLease
    var now: Time

    constructor ()
      ensures Snapshot() == Db(map[], map[], map[], ProcessingLease(None, None), 0)
    {
      attachments, objects, jobs := map[], map[], map[];
      processing, now := ProcessingLease(None, None), 0;
    }

    ghost function Snapshot(): Db
      reads this
    {
      Db(attachments, objects, jobs, processing, now)
    }
  }
}
