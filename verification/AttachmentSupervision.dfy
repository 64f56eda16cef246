/**
 * The record of physical sends. Every PUT is supervised by a handle with an identity of its own; a handle that was
 * never started can be retired, which certifies for good that nothing was or will be sent under it.
 */
module AttachmentSupervision {
  import opened Common
  import opened AttachmentRows

  datatype SendState = Issued | Started | Settled | Retired

  /** A handle is named by its identity; `locator` is the object it was minted for. */
  datatype Facts = Facts(locator: Locator, state: SendState, released: bool)
  datatype Certificate = Certificate(identity: Id, locator: Locator)
  datatype Closure = Closure(claim: PutClaim, identity: Id)

  /** `waiting` are closures whose local work has not ended yet; only those in `closures` prove anything. */
  datatype Proofs = Proofs(handles: map<Id, Facts>, certificates: set<Certificate>, waiting: set<Closure>,
                           closures: set<Closure>)

  /** An authentic handle that was not released. A handle lost with its process is as good as released. */
  predicate Usable(p: Proofs, handle: Id) {
    handle in p.handles && !p.handles[handle].released
  }

  predicate Unsent(p: Proofs, handle: Id) {
    Usable(p, handle) && p.handles[handle].state == Issued
  }

  function Moved(p: Proofs, handle: Id, state: SendState): Proofs
    requires handle in p.handles
  {
    p.(handles := p.handles[handle := p.handles[handle].(state := state)])
  }

  /** The identity is random, so it is one not used before. */
  function Issue(p: Proofs, handle: Id, locator: Locator): Proofs {
    if handle in p.handles then p else p.(handles := p.handles[handle := Facts(locator, Issued, false)])
  }

  function Release(p: Proofs, handle: Id): Proofs {
    if handle !in p.handles then p else p.(handles := p.handles[handle := p.handles[handle].(released := true)])
  }

  function RetireUnsent(p: Proofs, handle: Id): (Proofs, Outcome<Certificate, Failure>) {
    if !Unsent(p, handle) then (p, Refused(StorageConflict))
    else
      var c := Certificate(handle, p.handles[handle].locator);
      (Moved(p, handle, Retired).(certificates := p.certificates + {c}), Ok(c))
  }

  /** Called synchronously before the bytes are dispatched. */
  function Start(p: Proofs, handle: Id): (Proofs, Outcome<(), Failure>) {
    if !Unsent(p, handle) then (p, Refused(StorageConflict)) else (Moved(p, handle, Started), Ok(()))
  }

  function Settle(p: Proofs, handle: Id): (Proofs, Outcome<(), Failure>) {
    if handle !in p.handles || p.handles[handle].state != Started then (p, Refused(StorageConflict))
    else (Moved(p, handle, Settled), Ok(()))
  }

  function AwaitClosure(p: Proofs, claim: PutClaim, handle: Id): (Proofs, Outcome<Closure, Failure>) {
    if !Usable(p, handle) || p.handles[handle].locator != claim.manifest.locator then (p, Refused(StorageConflict))
    else (p.(waiting := p.waiting + {Closure(claim, handle)}), Ok(Closure(claim, handle)))
  }

  /** The local work has ended; a failed wait never gets here. */
  function Close(p: Proofs, closure: Closure): Proofs {
    if closure !in p.waiting then p else p.(closures := p.closures + {closure})
  }

  function SupervisionIdentity(p: Proofs, handle: Id, locator: Locator): Outcome<Id, Failure> {
    if !Unsent(p, handle) || p.handles[handle].locator != locator then Refused(StorageConflict) else Ok(handle)
  }

  predicate VerifyUnsentProof(p: Proofs, claim: PutClaim, persisted: Id, certificate: Certificate, closure: Closure) {
    && certificate in p.certificates && closure in p.closures
    && certificate.identity == persisted && closure.identity == persisted
    && certificate.locator == claim.manifest.locator && closure.claim == claim
  }

  // ---------------------------------------------------------------- everything that can happen to the record

  datatype Act =
    | DoIssue(handle: Id, locator: Locator)
    | DoRelease(handle: Id)
    | DoRetire(handle: Id)
    | DoStart(handle: Id)
    | DoSettle(handle: Id)
    | DoAwait(claim: PutClaim, handle: Id)
    | DoClose(closure: Closure)

  function Perform(p: Proofs, act: Act): Proofs {
    match act
    case DoIssue(h, locator) => Issue(p, h, locator)
    case DoRelease(h) => Release(p, h)
    case DoRetire(h) => RetireUnsent(p, h).0
    case DoStart(h) => Start(p, h).0
    case DoSettle(h) => Settle(p, h).0
    case DoAwait(claim, h) => AwaitClosure(p, claim, h).0
    case DoClose(closure) => Close(p, closure)
  }

  class Supervisor {
    var handles: map<Id, Facts>
    var certificates: set<Certificate>
    var waiting: set<Closure>
    var closures: set<Closure>

    constructor ()
      ensures Snapshot() == Proofs(map[], {}, {}, {})
    {
      handles, certificates, waiting, closures := map[], {}, {}, {};
    }

    ghost function Snapshot(): Proofs
      reads this
    {
      Proofs(handles, certificates, waiting, closures)
    }

    method CreateAuthority(handle: Id, locator: Locator)
      requires handle !in handles
      modifies this
      ensures Snapshot() == Issue(old(Snapshot()), handle, locator)
    {
      handles := handles[handle := Facts(locator, Issued, false)];
    }

    method ReleaseHandle(handle: Id)
      modifies this
      ensures Snapshot() == Release(old(Snapshot()), handle)
    {
      if handle in handles && !handles[handle].released {
        handles := handles[handle := handles[handle].(released := true)];
      }
      assert handle in handles ==> handles == old(handles)[handle := old(handles)[handle].(released := true)];
    }

    method Retire(handle: Id) returns (r: Outcome<Certificate, Failure>)
      modifies this
      ensures (Snapshot(), r) == RetireUnsent(old(Snapshot()), handle)
    {
      if handle !in handles || handles[handle].released || handles[handle].state != Issued {
        return Refused(StorageConflict);
      }
      handles := handles[handle := handles[handle].(state := Retired)];
      var certificate := Certificate(handle, handles[handle].locator);
      certificates := certificates + {certificate};
      r := Ok(certificate);
    }

    method StartSend(handle: Id) returns (r: Outcome<(), Failure>)
      modifies this
      ensures (Snapshot(), r) == Start(old(Snapshot()), handle)
    {
      if handle !in handles || handles[handle].released || handles[handle].state != Issued {
        return Refused(StorageConflict);
      }
      handles := handles[handle := handles[handle].(state := Started)];
      r := Ok(());
    }

    method SettleSend(handle: Id) returns (r: Outcome<(), Failure>)
      modifies this
      ensures (Snapshot(), r) == Settle(old(Snapshot()), handle)
    {
      if handle !in handles || handles[handle].state != Started { return Refused(StorageConflict); }
      handles := handles[handle := handles[handle].(state := Settled)];
      r := Ok(());
    }

    method BeginClosure(claim: PutClaim, handle: Id) returns (r: Outcome<Closure, Failure>)
      modifies this
      ensures (Snapshot(), r) == AwaitClosure(old(Snapshot()), claim, handle)
    {
      if handle !in handles || handles[handle].released || handles[handle].locator != claim.manifest.locator {
        return Refused(StorageConflict);
      }
      var closure := Closure(claim, handle);
      waiting := waiting + {closure};
      r := Ok(closure);
    }

    method EndClosure(closure: Closure)
      modifies this
      ensures Snapshot() == Close(old(Snapshot()), closure)
    {
      if closure in waiting { closures := closures + {closure}; }
    }

    method IdentityOf(handle: Id, locator: Locator) returns (r: Outcome<Id, Failure>)
      ensures r == SupervisionIdentity(Snapshot(), handle, locator)
    {
      if handle !in handles || handles[handle].released || handles[handle].state != Issued
         || handles[handle].locator != locator {
        return Refused(StorageConflict);
      }
      r := Ok(handle);
    }

    method Verify(claim: PutClaim, persisted: Id, certificate: Certificate, closure: Closure) returns (proven: bool)
      ensures proven == VerifyUnsentProof(Snapshot(), claim, persisted, certificate, closure)
    {
      if certificate !in certificates || closure !in closures { return false; }
      proven := certificate.identity == persisted && closure.identity == persisted
                && certificate.locator == claim.manifest.locator && closure.claim == claim;
    }
  }
}
