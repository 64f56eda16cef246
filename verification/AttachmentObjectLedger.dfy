/**
 * The write side of the protocol: one physical PUT per object row, claimed before it is
 * sent and settled, abandoned or left in doubt afterwards.
 */
module AttachmentObjectLedger {
  import opened Common
  import opened AttachmentRows
  import opened AttachmentSupervision

  datatype Fence = Fence(attachmentVersion: int, leaseOwner: Id)

  type Result<T> = (Db, Outcome<T, Failure>)

  function Reject<T>(s: Db, code: Failure): Result<T> {
    (s, Refused(code))
  }

  /** The provider version must be a quoted, printable entity tag of at most 256 characters. */
  predicate ValidEtag(v: string) {
    && 3 <= |v| <= 256
    && v[0] == '\"' && v[|v| - 1] == '\"'
    && forall i :: 0 < i < |v| - 1 ==> v[i] == '!' || '#' <= v[i] <= '~'
  }

  function ClaimPut(s: Db, attachmentId: Id, objectId: Id, fence: Fence, claimId: Id): Result<PutClaim> {
    if attachmentId !in s.attachments || !SafeInteger(fence.attachmentVersion)
       || !FenceHolds(s.attachments[attachmentId], s.now, fence.attachmentVersion, fence.leaseOwner)
       || objectId !in s.objects then
      Reject(s, ClaimConflict)
    else
      var a, o := s.attachments[attachmentId], s.objects[objectId];
      if o.attachmentId != attachmentId || o.putClaim.Some? || o.status != Reserved
         || (o.variant == Source) != (a.state == AttachmentState.Uploading) then
        Reject(s, ClaimConflict)
      else
        var o' := o.(putClaim := Some(claimId), claimedAt := Some(s.now), putUncertain := true,
                     objectVersion := o.objectVersion + 1);
        (s.(objects := s.objects[objectId := o']),
         Ok(PutClaim(attachmentId, objectId, claimId, fence.attachmentVersion, fence.leaseOwner,
                     o'.objectVersion, None, ManifestOf(objectId, o'))))
  }

  /** The handle must be authentic, unreleased, unsent and minted for the claimed object. */
  function BindSupervision(s: Db, p: Proofs, c: PutClaim, handle: Id): Result<PutClaim> {
    var identity := SupervisionIdentity(p, handle, c.manifest.locator);
    if identity.Refused? then Reject(s, identity.error)
    else if c.attachmentId !in s.attachments
       || !FenceHolds(s.attachments[c.attachmentId], s.now, c.attachmentVersion, c.leaseOwner)
       || c.objectId !in s.objects then
      Reject(s, ClaimConflict)
    else
      var o := s.objects[c.objectId];
      if o.attachmentId != c.attachmentId || o.putClaim != Some(c.claimId) || o.objectVersion != c.objectVersion
         || o.supervision.Some? || o.settledAt.Some? || o.abandonedAt.Some? || o.status != Reserved
         || c.manifest != ManifestOf(c.objectId, o) then
        Reject(s, ClaimConflict)
      else
        var o' := o.(supervision := Some(identity.value), objectVersion := o.objectVersion + 1);
        (s.(objects := s.objects[c.objectId := o']),
         Ok(c.(objectVersion := c.objectVersion + 1, supervisionId := Some(identity.value))))
  }

  /** Needs the certificate of the bound handle and the closure of this very claim. */
  function AbandonUnsent(s: Db, p: Proofs, c: PutClaim, certificate: Certificate, closure: Closure, newJob: Id)
    : Result<()>
  {
    if c.attachmentId !in s.attachments
       || s.attachments[c.attachmentId].state !in {AttachmentState.Deleted, AttachmentState.Rejected}
       || c.objectId !in s.objects then
      Reject(s, ClaimConflict)
    else
      var o := s.objects[c.objectId];
      if o.attachmentId != c.attachmentId || o.putClaim != Some(c.claimId) || o.supervision.None?
         || o.settledAt.Some? || o.etag.Some? || c.manifest != ManifestOf(c.objectId, o)
         || !VerifyUnsentProof(p, c, o.supervision.value, certificate, closure) then
        Reject(s, ClaimConflict)
      else if o.abandonedAt.Some? then
        (s, Ok(()))
      else
        var o' := o.(abandonedAt := Some(s.now), putUncertain := false, status := DeletePending,
                     objectVersion := o.objectVersion + 1);
        (s.(objects := s.objects[c.objectId := o'],
            jobs := Enqueue(s.jobs, newJob, o', c.objectId, RejectedContent, s.now)), Ok(()))
  }

  function Eligible(s: Db, c: PutClaim): bool {
    c.attachmentId in s.attachments
    && FenceHolds(s.attachments[c.attachmentId], s.now, c.attachmentVersion, c.leaseOwner)
  }

  /** Returns whether the caller may take the next step with the written object. */
  function RecordPutResult(s: Db, c: PutClaim, observed: StoredObject, newJob: Id): Result<bool> {
    if c.attachmentId !in s.attachments || c.objectId !in s.objects then
      Reject(s, ClaimConflict)
    else
      var o := s.objects[c.objectId];
      if o.attachmentId != c.attachmentId || o.putClaim != Some(c.claimId) || o.abandonedAt.Some? then
        Reject(s, ClaimConflict)
      else if observed.manifest != ManifestOf(c.objectId, o) || !ValidEtag(observed.version) then
        Reject(s, Integrity)
      else if o.settledAt.Some? then
        if o.etag != Some(observed.version) then Reject(s, Integrity)
        else (s, Ok(Eligible(s, c) && o.status == Written))
      else
        var accept := Eligible(s, c) && o.objectVersion == c.objectVersion && o.status == Reserved;
        var o' := o.(etag := Some(observed.version), settledAt := Some(s.now), putUncertain := false,
                     status := if accept then Written else DeletePending,
                     objectVersion := o.objectVersion + 1);
        var s' := s.(objects := s.objects[c.objectId := o']);
        (if accept then s' else s'.(jobs := Enqueue(s.jobs, newJob, o', c.objectId, LateWrite, s.now)),
         Ok(accept))
  }

  /** The ledger itself keeps no state; every method runs inside the caller's transaction. */
  class Ledger {
    constructor () {}

    method ClaimPutOn(client: Client, attachmentId: Id, objectId: Id, fence: Fence, claimId: Id)
      returns (r: Outcome<PutClaim, Failure>)
      modifies client
      ensures (client.Snapshot(), r) == ClaimPut(old(client.Snapshot()), attachmentId, objectId, fence, claimId)
    {
      if attachmentId !in client.attachments || !SafeInteger(fence.attachmentVersion) { return Refused(ClaimConflict); }
      var a := client.attachments[attachmentId];
      if !FenceHolds(a, client.now, fence.attachmentVersion, fence.leaseOwner) { return Refused(ClaimConflict); }
      if objectId !in client.objects { return Refused(ClaimConflict); }
      var row := client.objects[objectId];
      if row.attachmentId != attachmentId || row.putClaim.Some? || row.status != Reserved {
        return Refused(ClaimConflict);
      }
      if !(row.variant == Source && a.state == AttachmentState.Uploading)
         && !(row.variant != Source && a.state == AttachmentState.Pending) { return Refused(ClaimConflict); }
      row := row.(putClaim := Some(claimId), claimedAt := Some(client.now));
      row := row.(putUncertain := true);
      row := row.(objectVersion := row.objectVersion + 1);
      client.objects := client.objects[objectId := row];
      r := Ok(PutClaim(attachmentId, objectId, claimId, fence.attachmentVersion, fence.leaseOwner,
                       row.objectVersion, None, ManifestOf(objectId, row)));
    }

    method BindSupervisionOn(client: Client, supervisor: Supervisor, claim: PutClaim, handle: Id)
      returns (r: Outcome<PutClaim, Failure>)
      modifies client
      ensures (client.Snapshot(), r) ==
              BindSupervision(old(client.Snapshot()), supervisor.Snapshot(), claim, handle)
    {
      var identity := supervisor.IdentityOf(handle, claim.manifest.locator);
      if identity.Refused? { return Refused(identity.error); }
      if claim.attachmentId !in client.attachments { return Refused(ClaimConflict); }
      if !FenceHolds(client.attachments[claim.attachmentId], client.now, claim.attachmentVersion, claim.leaseOwner) {
        return Refused(ClaimConflict);
      }
      if claim.objectId !in client.objects { return Refused(ClaimConflict); }
      var o := client.objects[claim.objectId];
      if o.attachmentId != claim.attachmentId || o.putClaim != Some(claim.claimId)
         || o.objectVersion != claim.objectVersion || o.supervision.Some? || o.settledAt.Some?
         || o.abandonedAt.Some? || o.status != Reserved || claim.manifest != ManifestOf(claim.objectId, o) {
        return Refused(ClaimConflict);
      }
      o := o.(supervision := Some(identity.value));
      o := o.(objectVersion := o.objectVersion + 1);
      client.objects := client.objects[claim.objectId := o];
      r := Ok(claim.(objectVersion := claim.objectVersion + 1, supervisionId := Some(identity.value)));
    }

    method AbandonUnsentOn(client: Client, supervisor: Supervisor, claim: PutClaim, certificate: Certificate,
                           closure: Closure, newJob: Id)
      returns (r: Outcome<(), Failure>)
      requires newJob !in client.jobs
      modifies client
      ensures (client.Snapshot(), r) ==
              AbandonUnsent(old(client.Snapshot()), supervisor.Snapshot(), claim, certificate, closure, newJob)
    {
      if claim.attachmentId !in client.attachments { return Refused(ClaimConflict); }
      if client.attachments[claim.attachmentId].state !in {AttachmentState.Deleted, AttachmentState.Rejected} {
        return Refused(ClaimConflict);
      }
      if claim.objectId !in client.objects { return Refused(ClaimConflict); }
      var o := client.objects[claim.objectId];
      if o.attachmentId != claim.attachmentId || o.putClaim != Some(claim.claimId) || o.supervision.None?
         || o.settledAt.Some? || o.etag.Some? || claim.manifest != ManifestOf(claim.objectId, o) {
        return Refused(ClaimConflict);
      }
      var proven := supervisor.Verify(claim, o.supervision.value, certificate, closure);
      if !proven { return Refused(ClaimConflict); }
      if o.abandonedAt.Some? { return Ok(()); }
      o := o.(abandonedAt := Some(client.now), putUncertain := false);
      o := o.(status := DeletePending, objectVersion := o.objectVersion + 1);
      client.objects := client.objects[claim.objectId := o];
      client.jobs := Enqueue(client.jobs, newJob, o, claim.objectId, RejectedContent, client.now);
      r := Ok(());
    }

    method RecordPutResultOn(client: Client, claim: PutClaim, observed: StoredObject, newJob: Id)
      returns (r: Outcome<bool, Failure>)
      requires newJob !in client.jobs
      modifies client
      ensures (client.Snapshot(), r) == RecordPutResult(old(client.Snapshot()), claim, observed, newJob)
    {
      if claim.attachmentId !in client.attachments || claim.objectId !in client.objects {
        return Refused(ClaimConflict);
      }
      var a, o := client.attachments[claim.attachmentId], client.objects[claim.objectId];
      if o.attachmentId != claim.attachmentId || o.putClaim != Some(claim.claimId) || o.abandonedAt.Some? {
        return Refused(ClaimConflict);
      }
      if observed.manifest != ManifestOf(claim.objectId, o) || !ValidEtag(observed.version) {
        return Refused(Integrity);
      }
      var eligible := FenceHolds(a, client.now, claim.attachmentVersion, claim.leaseOwner);
      if o.settledAt.Some? {
        if o.etag != Some(observed.version) { return Refused(Integrity); }
        return Ok(eligible && o.status == Written);
      }
      var accept := eligible && o.objectVersion == claim.objectVersion && o.status == Reserved;
      o := o.(etag := Some(observed.version), settledAt := Some(client.now), putUncertain := false);
      o := o.(status := if accept then Written else DeletePending);
      o := o.(objectVersion := o.objectVersion + 1);
      client.objects := client.objects[claim.objectId := o];
      if !accept {
        client.jobs := Enqueue(client.jobs, newJob, o, claim.objectId, LateWrite, client.now);
      }
      r := Ok(accept);
    }
  }
}
