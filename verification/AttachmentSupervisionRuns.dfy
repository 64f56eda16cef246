/**
 * What supervision guarantees over every run: identities belong to one object each, a row is bound before its send,
 * and an abandoned PUT was never sent and never will be.
 */
module AttachmentSupervisionRuns {
  import opened Common
  import opened AttachmentRows
  import opened AttachmentSupervision
  import opened AttachmentProtocol
  import opened AttachmentSafety
  import opened AttachmentTheorems
  import Put = AttachmentObjectLedger
  import Cleanup = AttachmentCleanupLedger

  // ---------------------------------------------------------------- the record of sends only moves on

  predicate StateFollows(a: SendState, b: SendState) {
    a == b || a == Issued || (a == Started && b == Settled)
  }

  predicate FactsFollow(f: Facts, g: Facts) {
    f.locator == g.locator && StateFollows(f.state, g.state) && (f.released ==> g.released)
  }

  predicate ProofsFollow(p: Proofs, q: Proofs) {
    && (forall h :: h in p.handles ==> h in q.handles && FactsFollow(p.handles[h], q.handles[h]))
    && p.certificates <= q.certificates && p.closures <= q.closures
  }

  lemma PerformFollows(p: Proofs, act: Act)
    ensures ProofsFollow(p, Perform(p, act))
  {}

  lemma FollowsTransitively(p: Proofs, q: Proofs, r: Proofs)
    requires ProofsFollow(p, q) && ProofsFollow(q, r)
    ensures ProofsFollow(p, r)
  {
    forall h | h in p.handles ensures h in r.handles && FactsFollow(p.handles[h], r.handles[h]) {
      assert FactsFollow(p.handles[h], q.handles[h]) && FactsFollow(q.handles[h], r.handles[h]);
    }
  }

  /** A certificate is of a retired handle; a closure is of a handle for the claimed object. */
  predicate CapabilitiesOk(p: Proofs) {
    && (forall c :: c in p.certificates ==>
          c.identity in p.handles && p.handles[c.identity].locator == c.locator
          && p.handles[c.identity].state == Retired)
    && (forall c :: c in p.waiting + p.closures ==>
          c.identity in p.handles && p.handles[c.identity].locator == c.claim.manifest.locator)
  }

  lemma PerformKeepsCapabilities(p: Proofs, act: Act)
    requires CapabilitiesOk(p)
    ensures CapabilitiesOk(Perform(p, act))
  {}

  // ---------------------------------------------------------------- rows and their handles

  /** The handle bound to a row was minted for exactly this object. */
  predicate BoundOk(s: Db, p: Proofs) {
    forall k :: k in s.objects ==> RowBound(p, k, s.objects[k])
  }

  predicate RowBound(p: Proofs, k: Id, o: Object) {
    o.supervision.Some? ==>
      o.supervision.value in p.handles && p.handles[o.supervision.value].locator == ManifestOf(k, o).locator
  }

  /** An abandoned row rests on the retirement of its handle and on the end of its claim's local work. */
  predicate AbandonedOk(s: Db, p: Proofs) {
    forall k :: k in s.objects ==> RowAbandoned(p, k, s.objects[k])
  }

  predicate RowAbandoned(p: Proofs, k: Id, o: Object) {
    o.abandonedAt.Some? ==>
      && o.supervision.Some?
      && Certificate(o.supervision.value, ManifestOf(k, o).locator) in p.certificates
      && exists c :: c in p.closures && c.identity == o.supervision.value
                     && c.claim.objectId == k && o.putClaim == Some(c.claim.claimId)
  }

  predicate SupervisionOk(s: Sys) {
    CapabilitiesOk(s.proofs) && BoundOk(s.db, s.proofs) && AbandonedOk(s.db, s.proofs)
  }

  /** Neither the supervision nor the abandonment of a row changes; new rows have neither. */
  predicate SameMarks(o: Object, p: Object) {
    SameIdentity(o, p) && Keeps(o.putClaim, p.putClaim)
    && p.supervision == o.supervision && p.abandonedAt == o.abandonedAt
  }

  predicate MarksKept(s: Db, t: Db) {
    forall k :: k in t.objects ==>
      if k in s.objects then SameMarks(s.objects[k], t.objects[k])
      else t.objects[k].supervision.None? && t.objects[k].abandonedAt.None?
  }

  lemma ClaimPutKeepsMarks(s: Db, a: Id, k: Id, f: Put.Fence, claimId: Id)
    ensures MarksKept(s, Put.ClaimPut(s, a, k, f, claimId).0)
  {}

  lemma RecordKeepsMarks(s: Db, c: PutClaim, observed: StoredObject, newJob: Id)
    ensures MarksKept(s, Put.RecordPutResult(s, c, observed, newJob).0)
  {}

  lemma CleanupKeepsMarks(s: Db, id: Cleanup.Identity, owner: Id)
    ensures MarksKept(s, Cleanup.Claim(s, id, owner).0)
  {}

  lemma FinishKeepsMarks(s: Db, c: Cleanup.CleanupClaim, e: Cleanup.Absence)
    ensures MarksKept(s, Cleanup.Finish(s, c, e).0)
  {}

  lemma FailKeepsMarks(s: Db, c: Cleanup.CleanupClaim, code: string)
    ensures MarksKept(s, Cleanup.Fail(s, c, code).0)
  {}

  lemma EnvironmentKeepsMarks(s: Db, step: Step)
    ensures MarksKept(s, Environment(s, step))
  {}

  /** Only binding and abandoning touch the marks. */
  lemma OthersKeepMarks(s: Sys, step: Step, t: Sys)
    requires t == Next(s, step) && !step.BindSupervision? && !step.AbandonUnsent?
    ensures MarksKept(s.db, t.db)
  {
    if t.db != s.db {
      match step
      case ClaimPut(a, o, f, c) => ClaimPutKeepsMarks(s.db, a, o, f, c);
      case RecordPutResult(p, observed, j) => RecordKeepsMarks(s.db, p, observed, j);
      case ClaimCleanup(id, owner) => CleanupKeepsMarks(s.db, id, owner);
      case FinishCleanup(c, e) => FinishKeepsMarks(s.db, c, e);
      case FailCleanup(c, code) => FailKeepsMarks(s.db, c, code);
      case _ => EnvironmentKeepsMarks(s.db, step);
    }
  }

  /** A granted binding: one row takes the identity of an unsent handle minted for it. */
  lemma BindMarks(s: Db, p: Proofs, c: PutClaim, handle: Id, t: Db)
    requires t == Put.BindSupervision(s, p, c, handle).0 != s
    ensures var k := c.objectId;
            && k in s.objects && k in t.objects && t.objects == s.objects[k := t.objects[k]]
            && t.objects[k] == s.objects[k].(supervision := Some(handle), objectVersion := t.objects[k].objectVersion)
            && s.objects[k].supervision.None? && Unsent(p, handle)
            && p.handles[handle].locator == ManifestOf(k, t.objects[k]).locator
  {}

  /** An abandonment: one row whose handle is certified, by the closure of its own claim. */
  lemma AbandonMarks(s: Db, p: Proofs, c: PutClaim, certificate: Certificate, closure: Closure, newJob: Id, t: Db)
    requires t == Put.AbandonUnsent(s, p, c, certificate, closure, newJob).0 != s
    ensures var k := c.objectId;
            && k in s.objects && k in t.objects && t.objects == s.objects[k := t.objects[k]]
            && SameIdentity(s.objects[k], t.objects[k]) && t.objects[k].supervision == s.objects[k].supervision
            && RowAbandoned(p, k, t.objects[k])
  {
    var o := t.objects[c.objectId];
    assert ManifestOf(c.objectId, o) == ManifestOf(c.objectId, s.objects[c.objectId]);
    assert closure in p.closures && closure.identity == o.supervision.value && closure.claim == c;
  }

  lemma MarksKeepSupervision(s: Db, t: Db, p: Proofs)
    requires BoundOk(s, p) && AbandonedOk(s, p) && MarksKept(s, t)
    ensures BoundOk(t, p) && AbandonedOk(t, p)
  {
    forall k | k in t.objects ensures RowBound(p, k, t.objects[k]) && RowAbandoned(p, k, t.objects[k]) {
      if k in s.objects { assert RowBound(p, k, s.objects[k]) && RowAbandoned(p, k, s.objects[k]); }
    }
  }

  lemma OneRowKeepsSupervision(s: Db, t: Db, p: Proofs, k: Id)
    requires BoundOk(s, p) && AbandonedOk(s, p) && k in t.objects && t.objects == s.objects[k := t.objects[k]]
    requires RowBound(p, k, t.objects[k]) && RowAbandoned(p, k, t.objects[k])
    ensures BoundOk(t, p) && AbandonedOk(t, p)
  {}

  lemma ProofsKeepSupervision(s: Db, p: Proofs, q: Proofs)
    requires BoundOk(s, p) && AbandonedOk(s, p) && ProofsFollow(p, q)
    ensures BoundOk(s, q) && AbandonedOk(s, q)
  {
    forall k | k in s.objects ensures RowBound(q, k, s.objects[k]) && RowAbandoned(q, k, s.objects[k]) {
      assert RowBound(p, k, s.objects[k]) && RowAbandoned(p, k, s.objects[k]);
    }
  }

  lemma BindKeepsSupervision(s: Db, p: Proofs, c: PutClaim, handle: Id, t: Db)
    requires BoundOk(s, p) && AbandonedOk(s, p) && RowsOk(s) && t == Put.BindSupervision(s, p, c, handle).0
    ensures BoundOk(t, p) && AbandonedOk(t, p)
  {
    if t != s {
      BindMarks(s, p, c, handle, t);
      RowIsOk(s, c.objectId);
      OneRowKeepsSupervision(s, t, p, c.objectId);
    }
  }

  lemma AbandonKeepsSupervision(s: Db, p: Proofs, c: PutClaim, certificate: Certificate, closure: Closure, newJob: Id,
                                t: Db)
    requires BoundOk(s, p) && AbandonedOk(s, p)
    requires t == Put.AbandonUnsent(s, p, c, certificate, closure, newJob).0
    ensures BoundOk(t, p) && AbandonedOk(t, p)
  {
    if t != s {
      AbandonMarks(s, p, c, certificate, closure, newJob, t);
      assert RowBound(p, c.objectId, s.objects[c.objectId]);
      OneRowKeepsSupervision(s, t, p, c.objectId);
    }
  }

  lemma StepKeepsSupervision(s: Sys, step: Step, t: Sys)
    requires SupervisionOk(s) && RowsOk(s.db) && t == Next(s, step)
    ensures SupervisionOk(t)
  {
    match step
    case BindSupervision(c, handle) =>
      if c in s.puts { BindKeepsSupervision(s.db, s.proofs, c, handle, t.db); }
    case AbandonUnsent(c, certificate, closure, j) =>
      if t != s { AbandonKeepsSupervision(s.db, s.proofs, c, certificate, closure, j, t.db); }
    case Supervise(act) =>
      PerformFollows(s.proofs, act);
      PerformKeepsCapabilities(s.proofs, act);
      ProofsKeepSupervision(s.db, s.proofs, t.proofs);
    case _ =>
      OthersKeepMarks(s, step, t);
      MarksKeepSupervision(s.db, t.db, s.proofs);
  }

  // ---------------------------------------------------------------- how supervision develops

  predicate Bound(s: Db, k: Id, handle: Id) {
    k in s.objects && s.objects[k].supervision == Some(handle)
  }

  /** Whatever is bound in t and not yet in s was then unsent, or not minted. */
  ghost predicate BindsUnsent(s: Db, p: Proofs, t: Db) {
    forall k, h :: Bound(t, k, h) && !Bound(s, k, h) ==> h !in p.handles || Unsent(p, h)
  }

  ghost predicate SupervisionFollows(s: Sys, t: Sys) {
    ProofsFollow(s.proofs, t.proofs) && BindsUnsent(s.db, s.proofs, t.db)
  }

  lemma BindFollows(s: Db, p: Proofs, c: PutClaim, handle: Id, t: Db)
    requires t == Put.BindSupervision(s, p, c, handle).0
    ensures BindsUnsent(s, p, t)
  {
    if t != s { BindMarks(s, p, c, handle, t); }
  }

  lemma AbandonFollows(s: Db, p: Proofs, c: PutClaim, certificate: Certificate, closure: Closure, newJob: Id, t: Db)
    requires t == Put.AbandonUnsent(s, p, c, certificate, closure, newJob).0
    ensures BindsUnsent(s, p, t)
  {
    if t != s { AbandonMarks(s, p, c, certificate, closure, newJob, t); }
  }

  lemma MarksFollow(s: Db, p: Proofs, t: Db)
    requires MarksKept(s, t)
    ensures BindsUnsent(s, p, t)
  {}

  lemma StepFollows(s: Sys, step: Step, t: Sys)
    requires t == Next(s, step)
    ensures SupervisionFollows(s, t)
  {
    match step
    case BindSupervision(c, handle) =>
      if t.db != s.db { BindFollows(s.db, s.proofs, c, handle, t.db); }
    case AbandonUnsent(c, certificate, closure, j) =>
      if t.db != s.db { AbandonFollows(s.db, s.proofs, c, certificate, closure, j, t.db); }
    case Supervise(act) => PerformFollows(s.proofs, act);
    case _ =>
      OthersKeepMarks(s, step, t);
      MarksFollow(s.db, s.proofs, t.db);
  }

  lemma SupervisionFollowsOn(s: Sys, t: Sys, u: Sys)
    requires SupervisionFollows(s, t) && SupervisionFollows(t, u)
    ensures SupervisionFollows(s, u)
  {
    FollowsTransitively(s.proofs, t.proofs, u.proofs);
    forall k, h | Bound(u.db, k, h) && !Bound(s.db, k, h) ensures h !in s.proofs.handles || Unsent(s.proofs, h) {
      if h in s.proofs.handles {
        assert FactsFollow(s.proofs.handles[h], t.proofs.handles[h]);
        if !Bound(t.db, k, h) { assert Unsent(t.proofs, h); }
      }
    }
  }

  lemma {:induction false} SupervisionForward(s: Sys, steps: seq<Step>)
    requires SysInv(s) && SupervisionOk(s)
    ensures SupervisionOk(Run(s, steps)) && SupervisionFollows(s, Run(s, steps))
    decreases |steps|
  {
    if |steps| > 0 {
      var t := Next(s, steps[0]);
      Preserved(s, steps[0], t);
      StepKeepsSupervision(s, steps[0], t);
      StepFollows(s, steps[0], t);
      SupervisionForward(t, steps[1..]);
      SupervisionFollowsOn(s, t, Run(s, steps));
    }
  }

  lemma ObserveSupervision(s: Sys, t: Sys)
    requires Observed(s, t)
    ensures SupervisionOk(s) && SupervisionOk(t) && SupervisionFollows(s, t)
  {
    var steps, later :| s == Run(Initial(), steps) && t == Run(s, later);
    Reachable([]);
    SupervisionForward(Initial(), steps);
    Reachable(steps);
    SupervisionForward(s, later);
  }

  // ---------------------------------------------------------------- the promises

  predicate SameSupervision(o: Object, p: Object) {
    o.supervision.Some? && o.supervision == p.supervision
  }

  /** UNIQUE on the supervision identity. */
  predicate SupervisionsDistinct(s: Db) {
    forall i, k :: i in s.objects && k in s.objects && SameSupervision(s.objects[i], s.objects[k]) ==> i == k
  }

  lemma BoundIsDistinct(s: Db, p: Proofs)
    requires BoundOk(s, p)
    ensures SupervisionsDistinct(s)
  {
    forall i, k | i in s.objects && k in s.objects && SameSupervision(s.objects[i], s.objects[k]) ensures i == k {
      assert RowBound(p, i, s.objects[i]) && RowBound(p, k, s.objects[k]);
    }
  }

  /** In every run an identity is bound to at most one object, the one its handle was minted for. */
  lemma IdentitiesAreDistinct(s: Sys, t: Sys)
    requires Observed(s, t)
    ensures SupervisionsDistinct(t.db) && BoundOk(t.db, t.proofs)
  {
    ObserveSupervision(s, t);
    BoundIsDistinct(t.db, t.proofs);
  }

  /** A handle under which something was sent, or that was retired or released unbound, is never bound. */
  lemma BoundBeforeSent(s: Sys, t: Sys, k: Id, handle: Id)
    requires Observed(s, t) && handle in s.proofs.handles && !Unsent(s.proofs, handle)
    ensures Bound(t.db, k, handle) ==> Bound(s.db, k, handle)
  {
    ObserveSupervision(s, t);
  }

  /**
   * An abandoned PUT was never sent under its handle: not at any earlier time, and no send can be started now or, since
   * retirement is final, later. Its claim's own local work had ended.
   */
  lemma AbandonedWasNeverSent(s: Sys, t: Sys, k: Id)
    requires Observed(s, t) && k in t.db.objects && t.db.objects[k].abandonedAt.Some?
    ensures t.db.objects[k].supervision.Some?
    ensures var h := t.db.objects[k].supervision.value;
            && (h in s.proofs.handles ==> s.proofs.handles[h].state in {Issued, Retired})
            && h in t.proofs.handles && t.proofs.handles[h].state == Retired
            && Start(t.proofs, h) == (t.proofs, Refused(StorageConflict))
            && exists c :: c in t.proofs.closures && c.identity == h && c.claim.objectId == k
                           && t.db.objects[k].putClaim == Some(c.claim.claimId)
  {
    ObserveSupervision(s, t);
    assert RowAbandoned(t.proofs, k, t.db.objects[k]);
    var h := t.db.objects[k].supervision.value;
    assert t.proofs.handles[h].state == Retired;
    if h in s.proofs.handles { assert FactsFollow(s.proofs.handles[h], t.proofs.handles[h]); }
  }

  /** Once a send was started, its row can never be abandoned, whatever proofs are presented. */
  lemma SentIsNeverAbandoned(s: Sys, t: Sys, put: PutClaim, certificate: Certificate, closure: Closure, newJob: Id)
    requires Observed(s, t) && put.objectId in t.db.objects
    requires var o := t.db.objects[put.objectId];
             && o.supervision.Some? && o.supervision.value in s.proofs.handles
             && s.proofs.handles[o.supervision.value].state in {Started, Settled}
    ensures Put.AbandonUnsent(t.db, t.proofs, put, certificate, closure, newJob) == (t.db, Refused(ClaimConflict))
  {
    ObserveSupervision(s, t);
    var o := t.db.objects[put.objectId];
    var h := o.supervision.value;
    assert FactsFollow(s.proofs.handles[h], t.proofs.handles[h]);
    if o.abandonedAt.Some? { AbandonedWasNeverSent(s, t, put.objectId); }
    assert certificate in t.proofs.certificates ==> certificate.identity != h;
  }
}
