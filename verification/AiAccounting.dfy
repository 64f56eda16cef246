/**
 * Many requests at once over one quota ledger and one usage ledger, interleaved at every await, with
 * providers and usage ledgers that may fail in any way at any time.
 */
module AiAccounting {
  import opened Common
  import opened AiRecords
  import opened AiRuntime
  import A = AiReconciliation
  import Q = AiQuota

  datatype Sys = Sys(shared: Shared, calls: seq<Call>)

  datatype Step =
    | Begin(input: Input, modelId: string, selection: Outcome<Capability, Fault>, policy: RuntimePolicy)
    | Deliver(index: nat, event: Event)

  const INITIAL := Sys(Shared(Q.EMPTY, map[], []), [])

  function Apply(s: Sys, step: Step): Sys {
    match step
    case Begin(input, modelId, selection, policy) =>
      var started := Start(input, modelId, selection, policy);
      if started.Refused? then s else Sys(s.shared, s.calls + [started.value])
    case Deliver(i, e) =>
      if i >= |s.calls| then s
      else
        var (t, d) := Advance(s.shared, s.calls[i], e);
        Sys(t, s.calls[i := d])
  }

  function Run(steps: seq<Step>): Sys {
    if steps == [] then INITIAL else Apply(Run(steps[..|steps| - 1]), steps[|steps| - 1])
  }

  // ---------------------------------------------------------------- per-request facts

  /** The request is inside its retry loop, with its tokens reserved and not yet settled. */
  predicate Holds(c: Call) {
    (c.phase.Calling? || c.phase.Delaying?) && c.charged.None?
  }

  predicate InLoop(c: Call) {
    c.phase.Calling? || c.phase.Delaying? || c.phase.RecordingSuccess?
  }

  predicate CostInRange(cost: Option<real>) {
    cost.Some? ==> 0.0 <= cost.value <= MAX_SAFE_INTEGER as real
  }

  predicate Checked(c: Call) {
    RuntimePolicyValid(c.policy) && CapabilityValid(c.capability) && RequestValid(c.input, c.capability)
  }

  predicate CallOk(c: Call) {
    Checked(c)
    && (c.charged.Some? ==> 0 <= c.charged.value)
    && match c.phase
       case Resolving => c.charged.None?
       case Rejecting(_) => c.charged.None?
       case Calling(_, n) => 1 <= n <= c.policy.maxAttempts
       case Delaying(_, n) => 1 <= n < c.policy.maxAttempts
       case RecordingSuccess(r, n, k, cost) =>
         1 <= n <= c.policy.maxAttempts && CompletionValid(k, c.input, c.capability, r.tokens)
         && CostInRange(cost) && c.charged == Some(k.usage.value.total)
       case RecordingFailure(n, _) => 1 <= n <= c.policy.maxAttempts
       case Done(outcome) => outcome.Ok? ==> c.charged.None?
  }

  /** What the runtime writes, whoever reads it. */
  predicate Written(r: Record) {
    BoundedIdentifier(r.requestId) && BoundedIdentifier(r.userId) && BoundedIdentifier(r.feature)
    && BoundedIdentifier(r.providerId) && BoundedIdentifier(r.modelId)
    && (r.attempts == 0 <==> r.status == Rejected) && r.attempts >= 0
    && (if r.status == Succeeded then
          0 <= r.usage.input && 0 <= r.usage.output
            && r.usage.total == r.usage.input + r.usage.output <= MAX_SAFE_INTEGER
          && CostInRange(r.cost) && r.errorCode == None
        else r.usage == NO_USAGE && r.cost == None && exists code :: r.errorCode == Some(CodeName(code)))
  }

  function Recorded(rs: seq<Record>): int {
    if rs == [] then 0
    else Recorded(rs[..|rs| - 1]) + (if rs[|rs| - 1].status == Succeeded then rs[|rs| - 1].usage.total else 0)
  }

  /** Tokens settled for these requests that no record accounts for. */
  function Unrecorded(cs: seq<Call>): int {
    if cs == [] then 0
    else Unrecorded(cs[..|cs| - 1]) + Charge(cs[|cs| - 1])
  }

  function Charge(c: Call): int {
    if c.charged.Some? then c.charged.value else 0
  }

  lemma {:induction false} UnrecordedUpdate(cs: seq<Call>, i: nat, c: Call)
    requires i < |cs|
    ensures Unrecorded(cs[i := c]) == Unrecorded(cs) - Charge(cs[i]) + Charge(c)
  {
    var last := |cs| - 1;
    if i == last {
      assert cs[i := c][..last] == cs[..last];
    } else {
      assert cs[i := c][..last] == cs[..last][i := c];
      UnrecordedUpdate(cs[..last], i, c);
    }
  }

  lemma RecordedAppend(rs: seq<Record>, r: Record)
    ensures Recorded(rs + [r]) == Recorded(rs) + (if r.status == Succeeded then r.usage.total else 0)
  {
    assert (rs + [r])[..|rs|] == rs;
  }

  // ---------------------------------------------------------------- one stretch of one request

  /** The request and the ledger agree on what the request holds. */
  predicate Agrees(q: Q.Quota, c: Call) {
    (InLoop(c) ==>
       c.phase.reservation.id < q.next && (c.phase.reservation.id in q.reservations <==> Holds(c)))
    && (Holds(c) ==> q.reservations[c.phase.reservation.id] == c.phase.reservation)
  }

  function Own(c: Call): set<nat> {
    if Holds(c) then {c.phase.reservation.id} else {}
  }

  /** Only the request's own reservation comes or goes, and a new one gets a fresh identifier. */
  predicate Touches(q: Q.Quota, c: Call, p: Q.Quota, d: Call) {
    q.next <= p.next && Agrees(p, d)
    && p.reservations - Own(d) == q.reservations - Own(c)
    && (InLoop(d) ==> if InLoop(c) then d.phase.reservation == c.phase.reservation
                      else d.phase.reservation.id == q.next < p.next)
  }

  lemma EstimateInRange(c: Capability, u: Usage)
    ensures EstimateCost(c, u).Ok? ==> CostInRange(EstimateCost(c, u).value)
  {
    if EstimateCost(c, u).Ok? && EstimateCost(c, u).value.Some? {
      ProductNonNegative(u.input as real, c.inputPrice.usd);
      ProductNonNegative(u.output as real, c.outputPrice.usd);
      RoundingStaysInRange((u.input as real * c.inputPrice.usd + u.output as real * c.outputPrice.usd) / 1000000.0);
    }
  }

  lemma ProductNonNegative(x: real, y: real)
    requires x >= 0.0 && y >= 0.0
    ensures x * y >= 0.0
  {}

  lemma FailStaysOk(sh: Shared, c: Call, r: Q.Reservation, attempts: int, f: Fault)
    requires CallOk(c) && 1 <= attempts <= c.policy.maxAttempts
    ensures CallOk(Fail(sh, c, r, attempts, f).1)
  {}

  lemma JudgeStaysOk(sh: Shared, c: Call, r: Q.Reservation, attempts: int, answer: Answer)
    requires CallOk(c) && 1 <= attempts <= c.policy.maxAttempts
    ensures CallOk(Judge(sh, c, r, attempts, answer).1)
  {
    if answer.Returned? && answer.completion.usage.Some? {
      EstimateInRange(c.capability, answer.completion.usage.value);
    }
    forall f ensures CallOk(Fail(sh, c, r, attempts, f).1) { FailStaysOk(sh, c, r, attempts, f); }
  }

  lemma StaysOk(sh: Shared, c: Call, e: Event)
    requires CallOk(c)
    ensures CallOk(Advance(sh, c, e).1)
  {
    match c.phase
    case Calling(r, n) => if e.Answered? { JudgeStaysOk(sh, c, r, n, e.answer); }
    case RecordingSuccess(r, n, k, cost) => if e.Appended? && e.fault.Some? { FailStaysOk(sh, c, r, n, e.fault.value); }
    case _ =>
  }

  lemma FailTouches(sh: Shared, c: Call, f: Fault)
    requires Agrees(sh.quota, c) && (c.phase.Calling? || (c.phase.RecordingSuccess? && c.charged.Some?))
    ensures var (t, d) := Fail(sh, c, c.phase.reservation, c.phase.attempts, f);
            Touches(sh.quota, c, t.quota, d) && d.charged == c.charged
  {}

  lemma JudgeTouches(sh: Shared, c: Call, answer: Answer)
    requires Agrees(sh.quota, c) && c.phase.Calling?
    ensures var (t, d) := Judge(sh, c, c.phase.reservation, c.phase.attempts, answer);
            Touches(sh.quota, c, t.quota, d)
  {
    var d := Judge(sh, c, c.phase.reservation, c.phase.attempts, answer).1;
    if !d.phase.RecordingSuccess? {
      forall f ensures var (t, d) := Fail(sh, c, c.phase.reservation, c.phase.attempts, f);
            Touches(sh.quota, c, t.quota, d) {
        FailTouches(sh, c, f);
      }
    }
  }

  lemma AdmitTouches(sh: Shared, c: Call, usage: Option<UsagePolicy>, rateNow: int, quotaNow: int)
    requires c.phase.Resolving? && c.charged.None? && (forall id :: id in sh.quota.reservations ==> id < sh.quota.next)
    requires c.policy.maxAttempts >= 1
    ensures var (t, d) := Admit(sh, c, usage, rateNow, quotaNow);
            Touches(sh.quota, c, t.quota, d)
  {}

  lemma StaysInTouch(sh: Shared, c: Call, e: Event)
    requires Agrees(sh.quota, c) && CallOk(c) && forall id :: id in sh.quota.reservations ==> id < sh.quota.next
    ensures Touches(sh.quota, c, Advance(sh, c, e).0.quota, Advance(sh, c, e).1)
  {
    match c.phase
    case Resolving => if e.PolicyAnswered? { AdmitTouches(sh, c, e.usage, e.rateNow, e.quotaNow); }
    case Calling(_, _) => if e.Answered? { JudgeTouches(sh, c, e.answer); }
    case RecordingSuccess(_, _, _, _) => if e.Appended? && e.fault.Some? { FailTouches(sh, c, e.fault.value); }
    case _ =>
  }

  /** Settled tokens stay either recorded or charged to a request, and the ledger stays accounted. */
  ghost predicate Balances(sh: Shared, c: Call, t: Shared, d: Call) {
    Q.Accounted(t.quota) && Gap(t, d) == Gap(sh, c)
  }

  /** Used tokens that neither a record nor this request explains: those of the other requests. */
  ghost function Gap(sh: Shared, c: Call): int {
    Q.TotalUsed(sh.quota) - Recorded(sh.records) - Charge(c)
  }

  lemma FailBalances(sh: Shared, c: Call, r: Q.Reservation, attempts: int, f: Fault)
    requires Q.Accounted(sh.quota)
    ensures var (t, d) := Fail(sh, c, r, attempts, f);
            Balances(sh, c, t, d)
  {
    Q.ReleaseKeeps(sh.quota, r.id);
  }

  /** An answer is either settled for the first time or handled as some fault. */
  lemma JudgeOutcome(sh: Shared, c: Call, answer: Answer) returns (fault: Fault)
    requires Agrees(sh.quota, c) && c.phase.Calling?
    ensures var (t, d) := Judge(sh, c, c.phase.reservation, c.phase.attempts, answer);
            if d.phase.RecordingSuccess? then
              answer.Returned? && answer.completion.usage.Some? && c.charged.None?
              && var u := answer.completion.usage.value;
                 Q.Settle(sh.quota, c.phase.reservation.id, u.total).1.Ok?
                 && t == sh.(quota := Q.Settle(sh.quota, c.phase.reservation.id, u.total).0)
                    && d.charged == Some(u.total)
            else (t, d) == Fail(sh, c, c.phase.reservation, c.phase.attempts, fault)
  {
    var r, n := c.phase.reservation, c.phase.attempts;
    if answer.Threw? { fault := answer.fault; return; }
    var k := answer.completion;
    if !CompletionValid(k, c.input, c.capability, r.tokens) { fault := RuntimeError(InvalidResponse); return; }
    if c.input.structured.Some? && !k.parses { fault := ContractError; return; }
    var cost := EstimateCost(c.capability, k.usage.value);
    if cost.Refused? { fault := PolicyError(cost.error); return; }
    var settled := Q.Settle(sh.quota, r.id, k.usage.value.total).1;
    fault := if settled.Refused? then PolicyError(settled.error) else OtherError;
  }

  lemma SettlementBalances(sh: Shared, c: Call, id: nat, total: int, t: Shared, d: Call)
    requires Q.Accounted(sh.quota) && c.charged.None? && d.charged == Some(total)
    requires Q.Settle(sh.quota, id, total).1.Ok? && t == sh.(quota := Q.Settle(sh.quota, id, total).0)
    ensures Balances(sh, c, t, d)
  {
    Q.SettleKeeps(sh.quota, id, total);
  }

  lemma JudgeBalances(sh: Shared, c: Call, answer: Answer)
    requires Q.Accounted(sh.quota) && Agrees(sh.quota, c) && c.phase.Calling?
    ensures var (t, d) := Judge(sh, c, c.phase.reservation, c.phase.attempts, answer);
            Balances(sh, c, t, d)
  {
    var fault := JudgeOutcome(sh, c, answer);
    var (t, d) := Judge(sh, c, c.phase.reservation, c.phase.attempts, answer);
    if d.phase.RecordingSuccess? {
      SettlementBalances(sh, c, c.phase.reservation.id, answer.completion.usage.value.total, t, d);
    } else {
      FailBalances(sh, c, c.phase.reservation, c.phase.attempts, fault);
    }
  }

  lemma AdmitBalances(sh: Shared, c: Call, usage: Option<UsagePolicy>, rateNow: int, quotaNow: int)
    requires Q.Accounted(sh.quota) && c.policy.maxAttempts >= 1
    ensures var (t, d) := Admit(sh, c, usage, rateNow, quotaNow);
            Balances(sh, c, t, d)
  {
    if usage.Some? { Q.ReserveKeeps(sh.quota, DemandOf(c, usage.value), quotaNow); }
  }

  /** A record written with the ledger untouched explains exactly the charge it clears. */
  lemma RecordBalances(sh: Shared, c: Call, t: Shared, d: Call, r: Record)
    requires Q.Accounted(sh.quota) && t.quota == sh.quota && t.records == sh.records + [r]
    requires Charge(c) == Charge(d) + (if r.status == Succeeded then r.usage.total else 0)
    ensures Balances(sh, c, t, d)
  {
    RecordedAppend(sh.records, r);
  }

  lemma SuccessBalances(sh: Shared, c: Call, append: Option<Fault>)
    requires Q.Accounted(sh.quota) && c.phase.RecordingSuccess? && c.phase.completion.usage.Some?
    requires c.charged == Some(c.phase.completion.usage.value.total)
    ensures var p := c.phase;
            var (t, d) := AfterSuccess(sh, c, p.reservation, p.attempts, p.completion, p.cost, append);
            Balances(sh, c, t, d)
  {
    var p := c.phase;
    if append.Some? {
      FailBalances(sh, c, p.reservation, p.attempts, append.value);
    } else {
      var (t, d) := AfterSuccess(sh, c, p.reservation, p.attempts, p.completion, p.cost, append);
      RecordBalances(sh, c, t, d, RecordOf(c, p.attempts, Succeeded, p.completion.usage.value, p.cost, None));
    }
  }

  lemma StaysBalanced(sh: Shared, c: Call, e: Event)
    requires Q.Accounted(sh.quota) && Agrees(sh.quota, c) && CallOk(c)
    ensures Balances(sh, c, Advance(sh, c, e).0, Advance(sh, c, e).1)
  {
    match c.phase
    case Resolving => if e.PolicyAnswered? { AdmitBalances(sh, c, e.usage, e.rateNow, e.quotaNow); }
    case Rejecting(f) =>
      RecordedAppend(sh.records, RecordOf(c, 0, Rejected, NO_USAGE, None, Some(CodeName(Normalize(f)))));
    case Calling(_, _) => if e.Answered? { JudgeBalances(sh, c, e.answer); }
    case Delaying(r, _) => Q.ReleaseKeeps(sh.quota, r.id);
    case RecordingSuccess(_, _, _, _) => if e.Appended? { SuccessBalances(sh, c, e.fault); }
    case RecordingFailure(n, code) =>
      RecordedAppend(sh.records, RecordOf(c, n, Failed, NO_USAGE, None, Some(CodeName(code))));
    case Done(_) =>
  }

  /** A request writes nothing, or finishes and writes one record that the auditor will accept. */
  predicate Writes(sh: Shared, c: Call, t: Shared, d: Call) {
    t.records == sh.records
    || (d.phase.Done? && !c.phase.Done? && |t.records| == |sh.records| + 1 && t.records[..|sh.records|] == sh.records
        && Written(t.records[|sh.records|]) && t.records[|sh.records|].requestId == c.input.requestId)
  }

  lemma WritesWell(sh: Shared, c: Call, e: Event)
    requires CallOk(c)
    ensures Writes(sh, c, Advance(sh, c, e).0, Advance(sh, c, e).1)
  {
    match c.phase
    case Rejecting(f) => assert Written(RecordOf(c, 0, Rejected, NO_USAGE, None, Some(CodeName(Normalize(f)))));
    case RecordingSuccess(_, n, k, cost) => assert Written(RecordOf(c, n, Succeeded, k.usage.value, cost, None));
    case RecordingFailure(n, code) => assert Written(RecordOf(c, n, Failed, NO_USAGE, None, Some(CodeName(code))));
    case _ =>
  }

  // ---------------------------------------------------------------- every run

  predicate AllOk(cs: seq<Call>) {
    forall i :: 0 <= i < |cs| ==> CallOk(cs[i])
  }

  predicate AllAgree(q: Q.Quota, cs: seq<Call>) {
    forall i :: 0 <= i < |cs| ==> Agrees(q, cs[i])
  }

  predicate Apart(cs: seq<Call>) {
    forall i, j :: 0 <= i < |cs| && 0 <= j < |cs| && i != j && InLoop(cs[i]) && InLoop(cs[j]) ==>
      cs[i].phase.reservation.id != cs[j].phase.reservation.id
  }

  /** No reservation is outstanding but those that some request is still working with. */
  predicate Owned(q: Q.Quota, cs: seq<Call>) {
    forall id :: id in q.reservations ==> exists i :: 0 <= i < |cs| && id in Own(cs[i])
  }

  predicate AllWritten(rs: seq<Record>) {
    forall r :: r in rs ==> Written(r)
  }

  ghost predicate Inv(s: Sys) {
    Q.Accounted(s.shared.quota) && AllOk(s.calls) && AllAgree(s.shared.quota, s.calls) && Apart(s.calls)
    && Owned(s.shared.quota, s.calls) && AllWritten(s.shared.records)
    && Q.TotalUsed(s.shared.quota) == Recorded(s.shared.records) + Unrecorded(s.calls)
  }

  lemma OwnedKeeps(q: Q.Quota, cs: seq<Call>, i: nat, p: Q.Quota, d: Call)
    requires i < |cs| && Owned(q, cs) && p.reservations - Own(d) == q.reservations - Own(cs[i])
    ensures Owned(p, cs[i := d])
  {
    var ds := cs[i := d];
    forall id | id in p.reservations ensures exists j :: 0 <= j < |ds| && id in Own(ds[j]) {
      if id in Own(d) { assert id in Own(ds[i]); }
      else {
        assert id in p.reservations - Own(d);
        var j :| 0 <= j < |cs| && id in Own(cs[j]);
        assert id in Own(ds[j]);
      }
    }
  }

  /** Another request's reservation is untouched by this one's step. */
  lemma BystanderAgrees(q: Q.Quota, c: Call, p: Q.Quota, d: Call, b: Call)
    requires Touches(q, c, p, d) && Agrees(q, b) && Agrees(q, c)
    requires InLoop(b) && InLoop(c) ==> b.phase.reservation.id != c.phase.reservation.id
    ensures Agrees(p, b)
    ensures InLoop(b) && InLoop(d) ==> b.phase.reservation.id != d.phase.reservation.id
  {
    if InLoop(b) {
      var id := b.phase.reservation.id;
      assert id !in Own(c) && id !in Own(d);
      assert id in q.reservations - Own(c) <==> id in q.reservations;
      assert id in p.reservations - Own(d) <==> id in p.reservations;
      if id in q.reservations {
        assert (q.reservations - Own(c))[id] == q.reservations[id];
        assert (p.reservations - Own(d))[id] == p.reservations[id];
      }
    }
  }

  lemma BystandersAgree(q: Q.Quota, cs: seq<Call>, i: nat, p: Q.Quota, d: Call)
    requires i < |cs| && AllAgree(q, cs) && Apart(cs) && Touches(q, cs[i], p, d)
    ensures AllAgree(p, cs[i := d]) && Apart(cs[i := d])
  {
    forall j | 0 <= j < |cs| && j != i
      ensures Agrees(p, cs[j])
      ensures InLoop(cs[j]) && InLoop(d) ==> cs[j].phase.reservation.id != d.phase.reservation.id
    {
      BystanderAgrees(q, cs[i], p, d, cs[j]);
    }
  }

  lemma RecordsStayWritten(sh: Shared, c: Call, t: Shared, d: Call)
    requires Writes(sh, c, t, d) && AllWritten(sh.records)
    ensures AllWritten(t.records)
  {
    if t.records != sh.records {
      assert t.records == sh.records + [t.records[|sh.records|]];
    }
  }

  lemma OwnedGrows(q: Q.Quota, cs: seq<Call>, c: Call)
    requires Owned(q, cs)
    ensures Owned(q, cs + [c])
  {
    forall id | id in q.reservations ensures exists i :: 0 <= i < |cs + [c]| && id in Own((cs + [c])[i]) {
      var i :| 0 <= i < |cs| && id in Own(cs[i]);
      assert (cs + [c])[i] == cs[i];
    }
  }

  lemma NewcomerAgrees(q: Q.Quota, cs: seq<Call>, c: Call)
    requires AllOk(cs) && AllAgree(q, cs) && Apart(cs) && CallOk(c) && c.phase == Resolving
    ensures AllOk(cs + [c]) && AllAgree(q, cs + [c]) && Apart(cs + [c])
  {}

  lemma BeginKeeps(s: Sys, c: Call)
    requires Inv(s) && CallOk(c) && c.phase == Resolving && c.charged == None
    ensures Inv(Sys(s.shared, s.calls + [c]))
  {
    assert (s.calls + [c])[..|s.calls|] == s.calls;
    OwnedGrows(s.shared.quota, s.calls, c);
    NewcomerAgrees(s.shared.quota, s.calls, c);
  }

  lemma DeliverKeeps(s: Sys, i: nat, e: Event)
    requires Inv(s) && i < |s.calls|
    ensures Inv(Apply(s, Deliver(i, e)))
  {
    var c, t := s.calls[i], Apply(s, Deliver(i, e));
    var d := t.calls[i];
    assert Agrees(s.shared.quota, c) && CallOk(c);
    StaysOk(s.shared, c, e);
    StaysInTouch(s.shared, c, e);
    StaysBalanced(s.shared, c, e);
    WritesWell(s.shared, c, e);
    DeliverEffect(s, i, t, d);
  }

  lemma DeliverEffect(s: Sys, i: nat, t: Sys, d: Call)
    requires Inv(s) && i < |s.calls| && t.calls == s.calls[i := d]
    requires CallOk(d) && Touches(s.shared.quota, s.calls[i], t.shared.quota, d)
    requires Balances(s.shared, s.calls[i], t.shared, d) && Writes(s.shared, s.calls[i], t.shared, d)
    ensures Inv(t)
  {
    BystandersAgree(s.shared.quota, s.calls, i, t.shared.quota, d);
    OwnedKeeps(s.shared.quota, s.calls, i, t.shared.quota, d);
    UnrecordedUpdate(s.calls, i, d);
    RecordsStayWritten(s.shared, s.calls[i], t.shared, d);
  }

  lemma {:induction false} RunKeeps(steps: seq<Step>)
    ensures Inv(Run(steps))
  {
    if steps == [] {
    } else {
      var s, step := Run(steps[..|steps| - 1]), steps[|steps| - 1];
      RunKeeps(steps[..|steps| - 1]);
      match step
      case Begin(input, modelId, selection, policy) =>
        var started := Start(input, modelId, selection, policy);
        if started.Ok? { BeginKeeps(s, started.value); }
      case Deliver(i, e) =>
        if i < |s.calls| { DeliverKeeps(s, i, e); }
    }
  }

  // ---------------------------------------------------------------- the theorems

  lemma HeldIsOutstanding(q: Q.Quota, cs: seq<Call>)
    requires AllAgree(q, cs) && Owned(q, cs)
    ensures forall id :: id in q.reservations <==> exists i :: 0 <= i < |cs| && id in Own(cs[i])
  {
    forall i, id | 0 <= i < |cs| && id in Own(cs[i]) ensures id in q.reservations {
      assert Agrees(q, cs[i]);
    }
  }

  lemma NothingReserved(q: Q.Quota, cs: seq<Call>)
    requires Q.Accounted(q) && Owned(q, cs) && forall i :: 0 <= i < |cs| ==> Own(cs[i]) == {}
    ensures NothingReservedIn(q)
  {
    assert q.reservations == map[];
    forall w | w in q.windows ensures q.windows[w].reserved == 0 { Q.NothingOutstanding(q, w); }
  }

  /** The identifiers some request is still holding are exactly the outstanding ones. */
  ghost predicate HeldExactly(s: Sys) {
    forall id :: id in s.shared.quota.reservations <==> exists i :: 0 <= i < |s.calls| && id in Own(s.calls[i])
  }

  predicate AllDone(s: Sys) {
    forall i :: 0 <= i < |s.calls| ==> s.calls[i].phase.Done?
  }

  predicate NothingReservedIn(q: Q.Quota) {
    q.reservations == map[] && forall w :: w in q.windows ==> q.windows[w].reserved == 0
  }

  lemma NothingLeaksIn(s: Sys)
    requires Q.Accounted(s.shared.quota) && AllAgree(s.shared.quota, s.calls) && Owned(s.shared.quota, s.calls)
    ensures HeldExactly(s)
    ensures AllDone(s) ==> NothingReservedIn(s.shared.quota)
  {
    HeldIsOutstanding(s.shared.quota, s.calls);
    if AllDone(s) {
      assert forall i :: 0 <= i < |s.calls| ==> Own(s.calls[i]) == {};
      NothingReserved(s.shared.quota, s.calls);
    }
  }

  /**
   * A reservation is outstanding exactly while one request that has not settled it is in its retry loop;
   * once every request is done, nothing is reserved anywhere.
   */
  lemma NothingLeaks(steps: seq<Step>)
    ensures HeldExactly(Run(steps))
    ensures AllDone(Run(steps)) ==> NothingReservedIn(Run(steps).shared.quota)
  {
    RunKeeps(steps);
    NothingLeaksIn(Run(steps));
  }

  lemma {:induction false} UnrecordedZero(cs: seq<Call>)
    requires AllOk(cs)
    ensures Unrecorded(cs) >= 0
    ensures Unrecorded(cs) == 0 <==> forall i :: 0 <= i < |cs| ==> Charge(cs[i]) == 0
  {
    if cs != [] {
      var before := cs[..|cs| - 1];
      UnrecordedZero(before);
      assert forall i :: 0 <= i < |before| ==> before[i] == cs[i];
      assert CallOk(cs[|cs| - 1]);
    }
  }

  /** Used tokens are the recorded ones plus those charged without a record; nothing is counted twice. */
  ghost predicate Explained(s: Sys) {
    Q.TotalUsed(s.shared.quota) == Recorded(s.shared.records) + Unrecorded(s.calls)
    && Q.TotalUsed(s.shared.quota) >= Recorded(s.shared.records)
    && (Q.TotalUsed(s.shared.quota) == Recorded(s.shared.records) <==>
          forall i :: 0 <= i < |s.calls| ==> Charge(s.calls[i]) == 0)
  }

  /** The two ledgers differ by the charges whose record is missing, so they agree exactly when there are none. */
  lemma {:induction false} UsedTokensAreExplained(steps: seq<Step>)
    ensures Explained(Run(steps))
  {
    RunKeeps(steps);
    UnrecordedZero(Run(steps).calls);
  }

  predicate AppendsSucceed(steps: seq<Step>) {
    forall step :: step in steps && step.Deliver? && step.event.Appended? ==> step.event.fault.None?
  }

  function Finished(cs: seq<Call>): nat {
    if cs == [] then 0 else Finished(cs[..|cs| - 1]) + (if cs[|cs| - 1].phase.Done? then 1 else 0)
  }

  lemma {:induction false} FinishedUpdate(cs: seq<Call>, i: nat, c: Call)
    requires i < |cs|
    ensures Finished(cs[i := c]) == Finished(cs) - (if cs[i].phase.Done? then 1 else 0)
            + (if c.phase.Done? then 1 else 0)
  {
    var last := |cs| - 1;
    if i == last {
      assert cs[i := c][..last] == cs[..last];
    } else {
      assert cs[i := c][..last] == cs[..last][i := c];
      FinishedUpdate(cs[..last], i, c);
    }
  }

  lemma {:induction false} AllFinished(cs: seq<Call>)
    ensures (forall i :: 0 <= i < |cs| ==> cs[i].phase.Done?) ==> Finished(cs) == |cs|
  {
    if cs != [] {
      AllFinished(cs[..|cs| - 1]);
    }
  }

  predicate Faithful(c: Call) {
    c.charged.Some? ==> c.phase.RecordingSuccess?
  }

  lemma AdvanceFaithfully(sh: Shared, c: Call, e: Event)
    requires CallOk(c) && Faithful(c) && (e.Appended? ==> e.fault.None?)
    ensures var (t, d) := Advance(sh, c, e);
            Faithful(d) && |t.records| - |sh.records| == (if d.phase.Done? && !c.phase.Done? then 1 else 0)
            && (c.phase.Done? ==> d == c)
  {}

  predicate RecordsMatch(s: Sys) {
    (forall i :: 0 <= i < |s.calls| ==> Faithful(s.calls[i])) && |s.shared.records| == Finished(s.calls)
  }

  lemma BeginMatches(s: Sys, c: Call)
    requires RecordsMatch(s) && c.phase == Resolving && c.charged == None
    ensures RecordsMatch(Sys(s.shared, s.calls + [c]))
  {
    assert (s.calls + [c])[..|s.calls|] == s.calls;
  }

  lemma DeliverMatches(s: Sys, i: nat, e: Event)
    requires RecordsMatch(s) && i < |s.calls| && CallOk(s.calls[i]) && (e.Appended? ==> e.fault.None?)
    ensures RecordsMatch(Apply(s, Deliver(i, e)))
  {
    AdvanceFaithfully(s.shared, s.calls[i], e);
    FinishedUpdate(s.calls, i, Advance(s.shared, s.calls[i], e).1);
  }

  /** One request, one record: with a usage ledger that never fails, every finished request has exactly one. */
  lemma {:induction false} OneRecordEach(steps: seq<Step>)
    requires AppendsSucceed(steps)
    ensures RecordsMatch(Run(steps))
  {
    if steps != [] {
      var before, step := steps[..|steps| - 1], steps[|steps| - 1];
      assert step in steps && forall x :: x in before ==> x in steps;
      OneRecordEach(before);
      RunKeeps(before);
      var s := Run(before);
      match step
      case Begin(input, modelId, selection, policy) =>
        var started := Start(input, modelId, selection, policy);
        if started.Ok? { BeginMatches(s, started.value); }
      case Deliver(i, e) =>
        if i < |s.calls| { DeliverMatches(s, i, e); }
    }
  }

  /** When every append succeeded and every request is done, the two ledgers agree to the token. */
  lemma LedgersAgree(steps: seq<Step>)
    requires AppendsSucceed(steps) && AllDone(Run(steps))
    ensures Q.TotalUsed(Run(steps).shared.quota) == Recorded(Run(steps).shared.records)
    ensures |Run(steps).shared.records| == |Run(steps).calls|
  {
    OneRecordEach(steps);
    UsedTokensAreExplained(steps);
    AllFinished(Run(steps).calls);
  }

  predicate Chargeable(c: Call, k: Completion)
    requires c.phase.Calling?
  {
    CompletionValid(k, c.input, c.capability, c.phase.reservation.tokens)
    && (c.input.structured.Some? ==> k.parses) && EstimateCost(c.capability, k.usage.value).Ok?
  }

  lemma ChargedOnceIn(sh: Shared, c: Call, k: Completion)
    requires Q.Accounted(sh.quota) && Agrees(sh.quota, c) && c.phase.Calling? && Chargeable(c, k)
    ensures var (t, d) := Judge(sh, c, c.phase.reservation, c.phase.attempts, Returned(k));
            if c.charged.None? then d.phase.RecordingSuccess? && d.charged == Some(k.usage.value.total)
            else d.phase == RecordingFailure(c.phase.attempts, PolicyUnavailable) && d.charged == c.charged && t == sh
  {}

  /**
   * A valid, priceable answer is always charged the first time. If the success record was then lost and
   * the request retried, no later answer is charged: it ends as a failure.
   */
  lemma {:induction false} ChargedAtMostOnce(steps: seq<Step>, i: nat, k: Completion)
    requires i < |Run(steps).calls| && Run(steps).calls[i].phase.Calling? && Chargeable(Run(steps).calls[i], k)
    ensures var s := Run(steps);
            var c := s.calls[i];
            var (t, d) := Advance(s.shared, c, Answered(Returned(k)));
            if c.charged.None? then d.phase.RecordingSuccess? && d.charged == Some(k.usage.value.total)
            else (t, d) == (s.shared, c.(phase := RecordingFailure(c.phase.attempts, PolicyUnavailable)))
  {
    RunKeeps(steps);
    assert Agrees(Run(steps).shared.quota, Run(steps).calls[i]);
    ChargedOnceIn(Run(steps).shared, Run(steps).calls[i], k);
  }

  lemma Dwindles(sh: Shared, c: Call, w: World)
    requires Sound(c) && !c.phase.Done?
    ensures var d := Advance(sh, c, Next(c, w)).1;
            Sound(d)
            && (Remaining(d).0 < Remaining(c).0
                || (Remaining(d).0 == Remaining(c).0 && Remaining(d).1 < Remaining(c).1))
  {
    match c.phase
    case Resolving =>
    case Calling(_, _) =>
    case _ =>
  }

  /** The next stretch of a request that is driven alone. */
  lemma DriveStep(sh: Shared, c: Call, w: World) returns (t: Shared, d: Call)
    requires Agrees(sh.quota, c) && CallOk(c) && !c.phase.Done?
    requires forall id :: id in sh.quota.reservations ==> id < sh.quota.next
    ensures (t, d) == Advance(sh, c, Next(c, w)) && Sound(d) && Drive(sh, c, w) == Drive(t, d, w)
    ensures CallOk(d) && Touches(sh.quota, c, t.quota, d)
    ensures Remaining(d).0 < Remaining(c).0 || (Remaining(d).0 == Remaining(c).0 && Remaining(d).1 < Remaining(c).1)
  {
    t, d := Advance(sh, c, Next(c, w)).0, Advance(sh, c, Next(c, w)).1;
    Dwindles(sh, c, w);
    StaysOk(sh, c, Next(c, w));
    StaysInTouch(sh, c, Next(c, w));
  }

  /** Reservations outside the request's own are as they were, and its own is gone. */
  lemma {:induction false} DriveGivesBack(sh: Shared, c: Call, w: World)
    requires Agrees(sh.quota, c) && CallOk(c) && forall id :: id in sh.quota.reservations ==> id < sh.quota.next
    ensures Drive(sh, c, w).0.quota.reservations == sh.quota.reservations - Own(c)
    decreases Remaining(c).0, Remaining(c).1
  {
    if c.phase.Done? {
      assert Own(c) == {};
    } else {
      var t, d := DriveStep(sh, c, w);
      IdsStayBelow(sh.quota, c, t.quota, d);
      DriveGivesBack(t, d, w);
    }
  }

  lemma IdsStayBelow(q: Q.Quota, c: Call, p: Q.Quota, d: Call)
    requires Touches(q, c, p, d) && forall id :: id in q.reservations ==> id < q.next
    ensures forall id :: id in p.reservations ==> id < p.next
  {
    forall id | id in p.reservations ensures id < p.next {
      if id !in Own(d) { assert id in p.reservations - Own(d); }
    }
  }

  lemma {:induction false} DriveBalances(sh: Shared, c: Call, w: World)
    requires Q.Accounted(sh.quota) && Agrees(sh.quota, c) && CallOk(c)
    ensures Q.Accounted(Drive(sh, c, w).0.quota)
    ensures Gap(Drive(sh, c, w).0, Drive(sh, c, w).1) == Gap(sh, c)
    decreases Remaining(c).0, Remaining(c).1
  {
    if !c.phase.Done? {
      var t, d := DriveStep(sh, c, w);
      StaysBalanced(sh, c, Next(c, w));
      DriveBalances(t, d, w);
    }
  }

  /**
   * A whole `complete` run alone, however the world answers: the outstanding reservations are exactly those
   * from before, and the tokens it used are those it recorded plus those it was charged without a record.
   */
  lemma CompleteGivesBack(sh: Shared, input: Input, modelId: string, selection: Outcome<Capability, Fault>,
          policy: RuntimePolicy, w: World)
    requires Q.Accounted(sh.quota) && Start(input, modelId, selection, policy).Ok?
    ensures var (t, d) := Drive(sh, Start(input, modelId, selection, policy).value, w);
            t.quota.reservations == sh.quota.reservations && Q.Accounted(t.quota)
            && Q.TotalUsed(t.quota) - Q.TotalUsed(sh.quota) == Recorded(t.records) - Recorded(sh.records) + Charge(d)
  {
    var c := Start(input, modelId, selection, policy).value;
    DriveGivesBack(sh, c, w);
    DriveBalances(sh, c, w);
    assert sh.quota.reservations - {} == sh.quota.reservations;
  }

  // ---------------------------------------------------------------- the cap

  /** A stretch makes at most one call to the quota ledger, and reserves only what its policy allows. */
  lemma StretchIsOneCall(sh: Shared, c: Call, e: Event) returns (op: Q.Op)
    requires CallOk(c) && Advance(sh, c, e).0.quota != sh.quota
    ensures Advance(sh, c, e).0.quota == Q.Perform(sh.quota, op)
    ensures op.Take? ==> e.PolicyAnswered? && e.usage.Some? && op.demand == DemandOf(c, e.usage.value)
  {
    op := Q.Free(0);
    match c.phase
    case Resolving => op := Q.Take(DemandOf(c, e.usage.value), e.quotaNow);
    case Calling(r, _) =>
      if Advance(sh, c, e).1.phase.RecordingSuccess? {
        op := Q.Spend(r.id, e.answer.completion.usage.value.total);
      } else {
        op := Q.Free(r.id);
      }
    case RecordingSuccess(r, _, _, _) => op := Q.Free(r.id);
    case _ =>
  }

  predicate WithinCap(step: Step, quotaKey: string, cap: int) {
    step.Deliver? && step.event.PolicyAnswered? && step.event.usage.Some? && step.event.usage.value.quotaKey == quotaKey
    ==> step.event.usage.value.maxTokens <= cap
  }

  /** No policy ever asked for more than `cap` on this key. */
  predicate CapRespected(steps: seq<Step>, quotaKey: string, cap: int) {
    forall step :: step in steps ==> WithinCap(step, quotaKey, cap)
  }

  /** Under a fixed cap, used and reserved tokens of a key's window never exceed it, in any interleaving. */
  lemma {:induction false} CapHolds(steps: seq<Step>, quotaKey: string, cap: int)
    requires CapRespected(steps, quotaKey, cap)
    ensures Q.Capped(Run(steps).shared.quota, quotaKey, cap)
  {
    if steps != [] {
      var before, step := steps[..|steps| - 1], steps[|steps| - 1];
      assert step in steps && WithinCap(step, quotaKey, cap) && forall x :: x in before ==> x in steps;
      CapHolds(before, quotaKey, cap);
      RunKeeps(before);
      var s := Run(before);
      if step.Deliver? && step.index < |s.calls| && Apply(s, step).shared.quota != s.shared.quota {
        var op := StretchIsOneCall(s.shared, s.calls[step.index], step.event);
        Q.PerformKeepsCap(s.shared.quota, op, quotaKey, cap);
      }
    }
  }

  // ---------------------------------------------------------------- the auditor

  function AsRow(r: Record): A.Row {
    A.Row(Some(r.requestId), Some(r.userId), Some(r.feature), Some(r.providerId), Some(r.modelId), Some(r.attempts),
          Some(r.status), Some(r.usage.input), Some(r.usage.output), Some(r.usage.total),
          if r.cost.None? then A.NoCost else A.Amount(r.cost.value), true,
          if r.errorCode.None? then A.Absent else A.Text(r.errorCode.value))
  }

  function AsRows(rs: seq<Record>): seq<A.Row> {
    seq(|rs|, i requires 0 <= i < |rs| => AsRow(rs[i]))
  }

  lemma NamesAreNotBlank(c: Code)
    ensures !Blank(CodeName(c))
  {
    assert CodeName(c)[0] == 'A' && !White('A');
    assert 'A' in CodeName(c);
  }

  lemma IdentifiedRow(r: Record)
    requires Written(r)
    ensures A.Present(AsRow(r).requestId) && A.Identified(AsRow(r))
    ensures A.AttemptsValid(AsRow(r)) <==> r.attempts <= MAX_SAFE_INTEGER
  {}

  lemma CleanTokens(r: Record)
    requires Written(r)
    ensures var row := AsRow(r);
            A.TokensCounted(row) && row.total == Some(row.input.value + row.output.value) && A.CostValid(row.cost)
            && (r.status != Succeeded ==> row.total == Some(0) && row.cost == A.NoCost)
  {}

  lemma CleanErrorCode(r: Record)
    requires Written(r)
    ensures if r.status == Succeeded then r.errorCode == None else r.errorCode.Some? && !Blank(r.errorCode.value)
  {
    if r.status != Succeeded {
      var code :| r.errorCode == Some(CodeName(code));
      NamesAreNotBlank(code);
    }
  }

  lemma WrittenIsClean(r: Record)
    requires Written(r)
    ensures A.Clean(AsRow(r)) <==> r.attempts <= MAX_SAFE_INTEGER
  {
    IdentifiedRow(r);
    CleanTokens(r);
    CleanErrorCode(r);
  }

  lemma RowsOfWritten(batch: seq<Record>)
    requires forall i :: 0 <= i < |batch| ==> Written(batch[i])
    ensures A.DistinctIds(AsRows(batch)) <==>
            forall i, j :: 0 <= i < j < |batch| ==> batch[i].requestId != batch[j].requestId
  {
    var rows := AsRows(batch);
    assert forall i :: 0 <= i < |rows| ==> rows[i].Row? && rows[i].requestId == Some(batch[i].requestId);
  }

  lemma CleanRowsOfWritten(batch: seq<Record>)
    requires forall i :: 0 <= i < |batch| ==> Written(batch[i])
    ensures (forall r :: r in AsRows(batch) ==> A.Clean(r)) <==>
            forall r :: r in batch ==> r.attempts <= MAX_SAFE_INTEGER
  {
    var rows := AsRows(batch);
    forall i | 0 <= i < |batch| ensures A.Clean(rows[i]) <==> batch[i].attempts <= MAX_SAFE_INTEGER {
      WrittenIsClean(batch[i]);
    }
    if forall r :: r in rows ==> A.Clean(r) {
      forall r | r in batch ensures r.attempts <= MAX_SAFE_INTEGER {
        var i :| 0 <= i < |batch| && batch[i] == r;
        assert rows[i] in rows;
      }
    }
  }

  /**
   * Whatever the runtime wrote, in any run, any batch of it passes the audit exactly when it is within
   * the record limit, repeats no request id, and no attempt counter left the safe integers.
   */
  lemma WrittenRecordsReconcile(steps: seq<Step>, batch: seq<Record>)
    requires forall r :: r in batch ==> r in Run(steps).shared.records
    ensures A.Passes(AsRows(batch), A.MAX_RECORDS) <==>
            |batch| <= A.MAX_RECORDS
            && (forall i, j :: 0 <= i < j < |batch| ==> batch[i].requestId != batch[j].requestId)
            && forall r :: r in batch ==> r.attempts <= MAX_SAFE_INTEGER
  {
    RunKeeps(steps);
    forall i | 0 <= i < |batch| ensures Written(batch[i]) { assert batch[i] in batch; }
    RowsOfWritten(batch);
    CleanRowsOfWritten(batch);
  }
}
