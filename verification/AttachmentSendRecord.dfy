/** The life of one handle in the record of sends: which of start, retirement and release comes first decides it. */
module AttachmentSendRecord {
  import opened Common
  import opened AttachmentRows
  import opened AttachmentSupervision

  function After(p: Proofs, acts: seq<Act>): Proofs
    decreases |acts|
  {
    if acts == [] then p else After(Perform(p, acts[0]), acts[1..])
  }

  // ---------------------------------------------------------------- one handle

  /** What becomes of a fresh handle, from nothing but the acts on it. */
  function Fate(acts: seq<Act>, h: Id): SendState {
    if acts == [] then Issued
    else if acts[0] == DoStart(h) then if DoSettle(h) in acts[1..] then Settled else Started
    else if acts[0] == DoRetire(h) then Retired
    else if acts[0] == DoRelease(h) then Issued
    else Fate(acts[1..], h)
  }

  predicate Holds(p: Proofs, h: Id, locator: Locator, state: SendState, released: bool) {
    h in p.handles && p.handles[h] == Facts(locator, state, released)
  }

  lemma SplitFirst(acts: seq<Act>, act: Act)
    requires acts != []
    ensures act in acts <==> acts[0] == act || act in acts[1..]
  {
    assert acts == [acts[0]] + acts[1..];
  }

  lemma {:induction false} StartedGoesOn(p: Proofs, acts: seq<Act>, h: Id, locator: Locator, released: bool)
    requires Holds(p, h, locator, Started, released)
    ensures Holds(After(p, acts), h, locator, if DoSettle(h) in acts then Settled else Started,
                  released || DoRelease(h) in acts)
    decreases |acts|
  {
    if acts != [] {
      var q := Perform(p, acts[0]);
      SplitFirst(acts, DoSettle(h));
      SplitFirst(acts, DoRelease(h));
      var gone := released || acts[0] == DoRelease(h);
      if acts[0] == DoSettle(h) { FinalGoesOn(q, acts[1..], h, locator, Settled, gone); }
      else { StartedGoesOn(q, acts[1..], h, locator, gone); }
    }
  }

  /** Settled, retired, or released before it was used: nothing but its release can still happen to it. */
  lemma {:induction false} FinalGoesOn(p: Proofs, acts: seq<Act>, h: Id, locator: Locator, state: SendState,
          released: bool)
    requires Holds(p, h, locator, state, released)
    requires state == Settled || state == Retired || (state == Issued && released)
    ensures Holds(After(p, acts), h, locator, state, released || DoRelease(h) in acts)
    decreases |acts|
  {
    if acts != [] {
      SplitFirst(acts, DoRelease(h));
      FinalGoesOn(Perform(p, acts[0]), acts[1..], h, locator, state, released || acts[0] == DoRelease(h));
    }
  }

  /**
   * Whatever else happens to the record: a fresh handle is started, retired or left unsent by whichever of these comes
   * first, settles only once started, and is released exactly when somebody releases it.
   */
  lemma {:induction false} FateExactly(p: Proofs, acts: seq<Act>, h: Id, locator: Locator)
    requires Holds(p, h, locator, Issued, false)
    ensures Holds(After(p, acts), h, locator, Fate(acts, h), DoRelease(h) in acts)
    decreases |acts|
  {
    if acts != [] {
      var q := Perform(p, acts[0]);
      SplitFirst(acts, DoRelease(h));
      if acts[0] == DoStart(h) { StartedGoesOn(q, acts[1..], h, locator, false); }
      else if acts[0] == DoRetire(h) { FinalGoesOn(q, acts[1..], h, locator, Retired, false); }
      else if acts[0] == DoRelease(h) { FinalGoesOn(q, acts[1..], h, locator, Issued, true); }
      else { FateExactly(q, acts[1..], h, locator); }
    }
  }

  // ---------------------------------------------------------------- what certifies

  const NOTHING := Proofs(map[], {}, {}, {})

  /** Certificates are of retired handles and of their objects. */
  ghost predicate CertificatesOk(p: Proofs) {
    forall c :: c in p.certificates <==>
                c.identity in p.handles && p.handles[c.identity].state == Retired
                && p.handles[c.identity].locator == c.locator
  }

  lemma CertificatesStay(p: Proofs, act: Act)
    requires CertificatesOk(p)
    ensures CertificatesOk(Perform(p, act))
  {}

  lemma {:induction false} CertificatesExactly(p: Proofs, acts: seq<Act>)
    requires CertificatesOk(p)
    ensures CertificatesOk(After(p, acts))
    decreases |acts|
  {
    if acts != [] {
      CertificatesStay(p, acts[0]);
      CertificatesExactly(Perform(p, acts[0]), acts[1..]);
    }
  }

  /** Exactly the retired handles are certified, each for its own object. */
  lemma OnlyTheRetiredAreCertified(acts: seq<Act>, c: Certificate)
    ensures c in After(NOTHING, acts).certificates <==>
            Holds(After(NOTHING, acts), c.identity, c.locator, Retired, false)
            || Holds(After(NOTHING, acts), c.identity, c.locator, Retired, true)
  {
    CertificatesExactly(NOTHING, acts);
  }

  /** Somebody waits for the local work of a claim, on an unreleased handle of its object. */
  predicate Awaits(p: Proofs, act: Act, c: Closure) {
    act == DoAwait(c.claim, c.identity) && c.identity in p.handles && !p.handles[c.identity].released
    && p.handles[c.identity].locator == c.claim.manifest.locator
  }

  ghost predicate Awaited(p: Proofs, acts: seq<Act>, c: Closure) {
    exists i :: 0 <= i < |acts| && Awaits(After(p, acts[..i]), acts[i], c)
  }

  ghost predicate Closed(p: Proofs, acts: seq<Act>, c: Closure) {
    exists j :: 0 <= j < |acts| && acts[j] == DoClose(c) && Awaited(p, acts[..j], c)
  }

  lemma {:induction false} AfterOneMore(p: Proofs, acts: seq<Act>, act: Act)
    ensures After(p, acts + [act]) == Perform(After(p, acts), act)
    decreases |acts|
  {
    if acts == [] {
      assert After(p, [act]) == After(Perform(p, act), [act][1..]);
    } else {
      assert (acts + [act])[1..] == acts[1..] + [act];
      AfterOneMore(Perform(p, acts[0]), acts[1..], act);
    }
  }

  lemma AwaitedOneMore(p: Proofs, acts: seq<Act>, act: Act, c: Closure)
    ensures Awaited(p, acts + [act], c) <==> Awaited(p, acts, c) || Awaits(After(p, acts), act, c)
  {
    var more := acts + [act];
    assert more[..|acts|] == acts && more[|acts|] == act;
    assert forall i :: 0 <= i < |acts| ==> more[..i] == acts[..i] && more[i] == acts[i];
    if Awaited(p, acts, c) {
      var i :| 0 <= i < |acts| && Awaits(After(p, acts[..i]), acts[i], c);
      assert Awaits(After(p, more[..i]), more[i], c);
    }
    if Awaits(After(p, acts), act, c) { assert Awaits(After(p, more[..|acts|]), more[|acts|], c); }
  }

  lemma ClosedOneMore(p: Proofs, acts: seq<Act>, act: Act, c: Closure)
    ensures Closed(p, acts + [act], c) <==> Closed(p, acts, c) || (act == DoClose(c) && Awaited(p, acts, c))
  {
    var more := acts + [act];
    assert more[..|acts|] == acts && more[|acts|] == act;
    assert forall i :: 0 <= i < |acts| ==> more[..i] == acts[..i] && more[i] == acts[i];
    if Closed(p, acts, c) {
      var j :| 0 <= j < |acts| && acts[j] == DoClose(c) && Awaited(p, acts[..j], c);
      assert more[j] == DoClose(c) && Awaited(p, more[..j], c);
    }
    if act == DoClose(c) && Awaited(p, acts, c) { assert more[|acts|] == DoClose(c) && Awaited(p, more[..|acts|], c); }
  }

  lemma PerformWaits(p: Proofs, act: Act, c: Closure)
    ensures c in Perform(p, act).waiting <==> c in p.waiting || Awaits(p, act, c)
    ensures c in Perform(p, act).closures <==> c in p.closures || (act == DoClose(c) && c in p.waiting)
  {}

  /** A closure proves something exactly when its local work was waited for in due form and has ended since. */
  lemma {:induction false} ClosuresExactly(acts: seq<Act>, c: Closure)
    ensures c in After(NOTHING, acts).waiting <==> Awaited(NOTHING, acts, c)
    ensures c in After(NOTHING, acts).closures <==> Closed(NOTHING, acts, c)
  {
    if acts != [] {
      var before, act := acts[..|acts| - 1], acts[|acts| - 1];
      assert acts == before + [act];
      ClosuresExactly(before, c);
      AfterOneMore(NOTHING, before, act);
      AwaitedOneMore(NOTHING, before, act, c);
      ClosedOneMore(NOTHING, before, act, c);
      PerformWaits(After(NOTHING, before), act, c);
    }
  }

  /** Only an unsent handle names itself, and only for its own object; proofs are accepted only in their own cause. */
  lemma ProofsAreOwn(p: Proofs, h: Id, locator: Locator, claim: PutClaim, persisted: Id, certificate: Certificate,
                     closure: Closure)
    ensures SupervisionIdentity(p, h, locator) ==
            if Holds(p, h, locator, Issued, false) then Ok(h) else Refused(StorageConflict)
    ensures VerifyUnsentProof(p, claim, persisted, certificate, closure) <==>
            certificate in p.certificates && closure in p.closures
            && certificate == Certificate(persisted, claim.manifest.locator) && closure == Closure(claim, persisted)
  {}
}
