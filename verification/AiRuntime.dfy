/**
 * One completion request. Every `await` is a point at which other requests may run, so a request is a
 * machine whose steps are the stretches of code between two awaits.
 */
module AiRuntime {
  import opened Common
  import opened AiRecords
  import Q = AiQuota

  const MAX_MESSAGES := 64
  const MAX_MESSAGE_LENGTH := 100000
  const MAX_TOTAL_CONTENT_LENGTH := 200000
  const MAX_RESULT_LENGTH := 100000

  datatype Code =
    | RequestInvalid | ProviderUnavailable | ModelUnavailable | PolicyUnavailable | QuotaExceeded | CostUnavailable
    | RateLimited | InvalidResponse | ProviderTimeout | ProviderFailed

  function CodeName(c: Code): string {
    match c
    case RequestInvalid => "AI_REQUEST_INVALID"
    case ProviderUnavailable => "AI_PROVIDER_UNAVAILABLE"
    case ModelUnavailable => "AI_MODEL_UNAVAILABLE"
    case PolicyUnavailable => "AI_POLICY_UNAVAILABLE"
    case QuotaExceeded => "AI_QUOTA_EXCEEDED"
    case CostUnavailable => "AI_COST_UNAVAILABLE"
    case RateLimited => "AI_RATE_LIMITED"
    case InvalidResponse => "AI_INVALID_RESPONSE"
    case ProviderTimeout => "AI_PROVIDER_TIMEOUT"
    case ProviderFailed => "AI_PROVIDER_ERROR"
  }

  /** Anything that can be thrown. A provider error that only looks like one is not `genuine`. */
  datatype Fault =
    | RuntimeError(code: Code)
    | ContractError
    | AvailabilityError(modelMissing: bool)
    | PolicyError(error: Q.PolicyError)
    | RateLimitError
    | ProviderError(timeout: bool, retryable: bool, genuine: bool)
    | OtherError

  function PolicyCode(e: Q.PolicyError): Code {
    match e
    case QuotaExceeded => QuotaExceeded
    case PolicyUnavailable => PolicyUnavailable
    case CostUnavailable => CostUnavailable
  }

  function Normalize(f: Fault): Code {
    match f
    case RuntimeError(code) => code
    case ContractError => InvalidResponse
    case AvailabilityError(modelMissing) => if modelMissing then ModelUnavailable else ProviderUnavailable
    case PolicyError(e) => PolicyCode(e)
    case RateLimitError => RateLimited
    case ProviderError(timeout, _, _) => if timeout then ProviderTimeout else ProviderFailed
    case OtherError => ProviderFailed
  }

  predicate Retryable(f: Fault) {
    f.ProviderError? && f.genuine && f.retryable
  }

  // ---------------------------------------------------------------- inputs and their validation

  datatype Message = Message(role: string, content: string)
  datatype Price = Unpriced | PerMillion(usd: real) | NotFinite
  datatype Capability = Capability(providerId: string, modelId: string, maxInput: int, maxOutput: int,
                                   inputPrice: Price, outputPrice: Price)
  datatype RuntimePolicy = RuntimePolicy(timeoutMs: int, maxAttempts: int, retryDelayMs: int)
  datatype UsagePolicy = UsagePolicy(quotaKey: string, maxTokens: int, quotaWindowMs: int,
                                     rateLimitKey: string, maxRequests: int, rateLimitWindowMs: int)

  /** `structured` says whether a structured output was asked for and, if so, whether its kind is known. */
  datatype Input = Input(requestId: string, userId: string, feature: string, entitlementKey: Option<string>,
                         messages: seq<Message>, estimatedInput: int, maxOutput: int, temperature: Option<real>,
                         structured: Option<bool>)

  /** `parses` says whether the structured output parser accepts the text. */
  datatype Completion = Completion(text: string, finishReason: string, usage: Option<Usage>, parses: bool)
  datatype Answer = Returned(completion: Completion) | Threw(fault: Fault)
  datatype Response = Response(completion: Completion, providerId: string, modelId: string, attempts: int,
          cost: Option<real>)

  predicate RuntimePolicyValid(p: RuntimePolicy) {
    p.timeoutMs > 0 && p.maxAttempts >= 1 && p.retryDelayMs >= 0
  }

  predicate CapabilityValid(c: Capability) {
    BoundedIdentifier(c.providerId) && BoundedIdentifier(c.modelId)
    && SafeInteger(c.maxInput) && c.maxInput >= 0 && SafeInteger(c.maxOutput) && c.maxOutput >= 1
  }

  predicate MessageValid(m: Message) {
    m.role in {"system", "user", "assistant"} && |m.content| <= MAX_MESSAGE_LENGTH && '\0' !in m.content
  }

  function ContentLength(ms: seq<Message>): nat {
    if ms == [] then 0 else |ms[0].content| + ContentLength(ms[1..])
  }

  predicate RequestValid(i: Input, c: Capability) {
    BoundedIdentifier(i.requestId) && BoundedIdentifier(i.userId) && BoundedIdentifier(i.feature)
    && 0 < |i.messages| <= MAX_MESSAGES && (forall m :: m in i.messages ==> MessageValid(m))
    && ContentLength(i.messages) <= MAX_TOTAL_CONTENT_LENGTH
    && 0 <= i.estimatedInput <= c.maxInput && 1 <= i.maxOutput <= c.maxOutput
    && i.estimatedInput + i.maxOutput <= MAX_SAFE_INTEGER
    && (i.entitlementKey.Some? ==> BoundedIdentifier(i.entitlementKey.value))
    && (i.temperature.Some? ==> 0.0 <= i.temperature.value <= 2.0)
    && i.structured != Some(false)
  }

  predicate UsagePolicyValid(p: UsagePolicy) {
    p.quotaKey != "" && SafeInteger(p.maxTokens) && p.maxTokens >= 0
    && SafeInteger(p.quotaWindowMs) && p.quotaWindowMs > 0
    && p.rateLimitKey != "" && SafeInteger(p.maxRequests) && p.maxRequests >= 0
    && SafeInteger(p.rateLimitWindowMs) && p.rateLimitWindowMs > 0
  }

  predicate UsageValid(u: Usage, i: Input, c: Capability, reserved: int) {
    SafeInteger(u.input) && u.input >= 0 && SafeInteger(u.output) && u.output >= 0
    && u.output <= i.maxOutput && u.input <= c.maxInput
    && SafeInteger(u.total) && u.total == u.input + u.output && u.total <= reserved
  }

  predicate CompletionValid(r: Completion, i: Input, c: Capability, reserved: int) {
    |r.text| <= MAX_RESULT_LENGTH && '\0' !in r.text
    && r.finishReason in {"stop", "length", "content_filter", "unknown"}
    && r.usage.Some? && UsageValid(r.usage.value, i, c, reserved)
  }

  // ---------------------------------------------------------------- cost

  /** To six decimal places, halves upwards. */
  function Round6(x: real): real {
    (x * 1000000.0 + 0.5).Floor as real / 1000000.0
  }

  predicate Priced(p: Price) {
    p.PerMillion? && p.usd >= 0.0
  }

  predicate Counted(n: int) {
    SafeInteger(n) && n >= 0
  }

  function EstimateCost(c: Capability, u: Usage): Outcome<Option<real>, Q.PolicyError> {
    if c.inputPrice.Unpriced? || c.outputPrice.Unpriced? then Ok(None)
    else if !Priced(c.inputPrice) || !Priced(c.outputPrice) || !Counted(u.input) || !Counted(u.output) then
      Refused(Q.CostUnavailable)
    else
      var cost := (u.input as real * c.inputPrice.usd + u.output as real * c.outputPrice.usd) / 1000000.0;
      if cost > MAX_SAFE_INTEGER as real then Refused(Q.CostUnavailable) else Ok(Some(Round6(cost)))
  }

  /** Rounding moves a cost by at most half a millionth and keeps it within the auditor's range. */
  lemma RoundingStaysInRange(x: real)
    requires 0.0 <= x <= MAX_SAFE_INTEGER as real
    ensures 0.0 <= Round6(x) <= MAX_SAFE_INTEGER as real
    ensures -0.0000005 < Round6(x) - x <= 0.0000005
  {
    var scaled := x * 1000000.0 + 0.5;
    var top := MAX_SAFE_INTEGER * 1000000;
    assert 0.5 <= scaled <= top as real + 0.5;
    assert 0 <= scaled.Floor <= top;
    assert scaled.Floor as real <= scaled < scaled.Floor as real + 1.0;
    assert Round6(x) * 1000000.0 == scaled.Floor as real;
  }

  // ---------------------------------------------------------------- rate limiting

  datatype Bucket = Bucket(count: int, resetAt: int)

  function Consume(limiter: map<string, Bucket>, key: string, limit: int, windowMs: int, now: int)
    : (map<string, Bucket>, bool)
  {
    if key == "" || !SafeInteger(limit) || limit < 0 || !SafeInteger(windowMs) || windowMs <= 0 then (limiter, false)
    else if key !in limiter || limiter[key].resetAt <= now then
      (limiter[key := Bucket(1, now + windowMs)], limit >= 1)
    else if limiter[key].count >= limit then (limiter, false)
    else (limiter[key := limiter[key].(count := limiter[key].count + 1)], true)
  }

  datatype Knock = Knock(key: string, limit: int, windowMs: int, now: int)

  /** A series of requests, and how many of those for `key` were admitted. */
  function KnockAll(limiter: map<string, Bucket>, ks: seq<Knock>, key: string): (map<string, Bucket>, nat) {
    if ks == [] then (limiter, 0)
    else
      var (before, n) := KnockAll(limiter, ks[..|ks| - 1], key);
      var k := ks[|ks| - 1];
      var (after, admitted) := Consume(before, k.key, k.limit, k.windowMs, k.now);
      (after, if admitted && k.key == key then n + 1 else n)
  }

  function Knocks(ks: seq<Knock>, key: string): nat {
    if ks == [] then 0 else Knocks(ks[..|ks| - 1], key) + (if ks[|ks| - 1].key == key then 1 else 0)
  }

  function Least(a: int, b: int): int {
    if a < b then a else b
  }

  /**
   * From the request that opens a window until the window ends, exactly the first `limit` requests for the
   * key are admitted, whatever other keys do and even if the clock moves backwards within the window.
   */
  lemma {:induction false} WindowAdmitsLimit(limiter: map<string, Bucket>, ks: seq<Knock>, key: string, limit: int,
          windowMs: int, start: int)
    requires key != "" && SafeInteger(limit) && limit >= 0 && SafeInteger(windowMs) && windowMs > 0
    requires key in limiter ==> limiter[key].resetAt <= start
    requires forall i :: 0 <= i < |ks| && ks[i].key == key ==>
               ks[i].limit == limit && ks[i].windowMs == windowMs && ks[i].now < start + windowMs
    requires ks != [] && ks[0].key == key && ks[0].now == start
    ensures var (after, n) := KnockAll(limiter, ks, key);
            n == Least(limit, Knocks(ks, key))
            && after.Keys >= {key} && after[key].resetAt == start + windowMs
            && after[key].count == (if limit == 0 then 1 else n) && Knocks(ks, key) >= 1
  {
    var front := ks[..|ks| - 1];
    if front == [] {
      assert KnockAll(limiter, front, key) == (limiter, 0) && Knocks(front, key) == 0;
    } else {
      WindowAdmitsLimit(limiter, front, key, limit, windowMs, start);
    }
  }

  // ---------------------------------------------------------------- the machine

  datatype Shared = Shared(quota: Q.Quota, limiter: map<string, Bucket>, records: seq<Record>)

  datatype Phase =
    | Resolving
    | Rejecting(fault: Fault)
    | Calling(reservation: Q.Reservation, attempts: int)
    | Delaying(reservation: Q.Reservation, attempts: int)
    | RecordingSuccess(reservation: Q.Reservation, attempts: int, completion: Completion, cost: Option<real>)
    | RecordingFailure(attempts: int, code: Code)
    | Done(outcome: Outcome<Response, Fault>)

  /** `charged` holds the tokens settled for this request while no record of them exists. */
  datatype Call = Call(input: Input, capability: Capability, policy: RuntimePolicy, phase: Phase, charged: Option<int>)

  /** No policy stands for a null answer and for a resolver that throws. */
  datatype Event =
    | PolicyAnswered(usage: Option<UsagePolicy>, rateNow: int, quotaNow: int)
    | Answered(answer: Answer)
    | Waited
    | Appended(fault: Option<Fault>)

  /** The checks before the first await; none of them leaves a trace. */
  function Start(input: Input, modelId: string, selection: Outcome<Capability, Fault>,
          policy: RuntimePolicy): Outcome<Call, Fault> {
    if !RuntimePolicyValid(policy) then Refused(RuntimeError(PolicyUnavailable))
    else if Blank(modelId) then Refused(RuntimeError(RequestInvalid))
    else if selection.Refused? then Refused(RuntimeError(Normalize(selection.error)))
    else if !CapabilityValid(selection.value) then Refused(RuntimeError(ProviderUnavailable))
    else if !RequestValid(input, selection.value) then Refused(RuntimeError(RequestInvalid))
    else Ok(Call(input, selection.value, policy, Resolving, None))
  }

  function RecordOf(c: Call, attempts: int, status: Status, usage: Usage, cost: Option<real>,
          errorCode: Option<string>): Record {
    Record(c.input.requestId, c.input.userId, c.input.feature, c.capability.providerId, c.capability.modelId,
           attempts, status, usage, cost, errorCode)
  }

  function Reject(sh: Shared, c: Call, f: Fault): (Shared, Call) {
    (sh, c.(phase := Rejecting(f)))
  }

  /** The head of the retry loop. */
  function Attempt(sh: Shared, c: Call, r: Q.Reservation, attempts: int): (Shared, Call) {
    if attempts < c.policy.maxAttempts then (sh, c.(phase := Calling(r, attempts + 1)))
    else (sh.(quota := Q.Release(sh.quota, r.id)), c.(phase := Done(Refused(RuntimeError(ProviderFailed)))))
  }

  function DemandOf(c: Call, p: UsagePolicy): Q.Demand {
    Q.Demand(p.quotaKey, c.input.estimatedInput + c.input.maxOutput, p.maxTokens, p.quotaWindowMs)
  }

  function Admit(sh: Shared, c: Call, usage: Option<UsagePolicy>, rateNow: int, quotaNow: int): (Shared, Call) {
    if usage.None? || !UsagePolicyValid(usage.value) then Reject(sh, c, RuntimeError(PolicyUnavailable))
    else
      var p := usage.value;
      var (limiter, admitted) := Consume(sh.limiter, p.rateLimitKey, p.maxRequests, p.rateLimitWindowMs, rateNow);
      if !admitted then Reject(sh.(limiter := limiter), c, RateLimitError)
      else
        var (quota, reservation) := Q.Reserve(sh.quota, DemandOf(c, p), quotaNow);
        if reservation.Refused? then
          Reject(sh.(limiter := limiter), c, RuntimeError(PolicyCode(reservation.error)))
        else Attempt(Shared(quota, limiter, sh.records), c, reservation.value, 0)
  }

  /** The catch block inside the retry loop. */
  function Fail(sh: Shared, c: Call, r: Q.Reservation, attempts: int, f: Fault): (Shared, Call) {
    if !Retryable(f) || attempts >= c.policy.maxAttempts then
      (sh.(quota := Q.Release(sh.quota, r.id)), c.(phase := RecordingFailure(attempts, Normalize(f))))
    else (sh, c.(phase := Delaying(r, attempts)))
  }

  function Judge(sh: Shared, c: Call, r: Q.Reservation, attempts: int, answer: Answer): (Shared, Call) {
    if answer.Threw? then Fail(sh, c, r, attempts, answer.fault)
    else
      var k := answer.completion;
      if !CompletionValid(k, c.input, c.capability, r.tokens) then
        Fail(sh, c, r, attempts, RuntimeError(InvalidResponse))
      else if c.input.structured.Some? && !k.parses then Fail(sh, c, r, attempts, ContractError)
      else
        var cost := EstimateCost(c.capability, k.usage.value);
        if cost.Refused? then Fail(sh, c, r, attempts, PolicyError(cost.error))
        else
          var (quota, settled) := Q.Settle(sh.quota, r.id, k.usage.value.total);
          if settled.Refused? then Fail(sh, c, r, attempts, PolicyError(settled.error))
          else (sh.(quota := quota),
                c.(phase := RecordingSuccess(r, attempts, k, cost.value), charged := Some(k.usage.value.total)))
  }

  function AfterRejection(sh: Shared, c: Call, f: Fault, append: Option<Fault>): (Shared, Call) {
    if append.Some? then (sh, c.(phase := Done(Refused(append.value))))
    else (sh.(records := sh.records + [RecordOf(c, 0, Rejected, NO_USAGE, None, Some(CodeName(Normalize(f))))]),
          c.(phase := Done(Refused(f))))
  }

  function AfterFailure(sh: Shared, c: Call, attempts: int, code: Code, append: Option<Fault>): (Shared, Call) {
    if append.Some? then (sh, c.(phase := Done(Refused(RuntimeError(Normalize(append.value))))))
    else (sh.(records := sh.records + [RecordOf(c, attempts, Failed, NO_USAGE, None, Some(CodeName(code)))]),
          c.(phase := Done(Refused(RuntimeError(code)))))
  }

  /** A failed append of a success is caught by the same retry loop, after the tokens were settled. */
  function AfterSuccess(sh: Shared, c: Call, r: Q.Reservation, attempts: int, k: Completion, cost: Option<real>,
          append: Option<Fault>)
    : (Shared, Call)
    requires k.usage.Some?
  {
    if append.Some? then Fail(sh, c, r, attempts, append.value)
    else (sh.(records := sh.records + [RecordOf(c, attempts, Succeeded, k.usage.value, cost, None)]),
          c.(phase := Done(Ok(Response(k, c.capability.providerId, c.capability.modelId, attempts, cost))),
             charged := None))
  }

  /** One stretch of code between two awaits. An event the request is not waiting for changes nothing. */
  function Advance(sh: Shared, c: Call, e: Event): (Shared, Call) {
    match c.phase
    case Resolving => if e.PolicyAnswered? then Admit(sh, c, e.usage, e.rateNow, e.quotaNow) else (sh, c)
    case Rejecting(f) => if e.Appended? then AfterRejection(sh, c, f, e.fault) else (sh, c)
    case Calling(r, n) => if e.Answered? then Judge(sh, c, r, n, e.answer) else (sh, c)
    case Delaying(r, n) => if e.Waited? then Attempt(sh, c, r, n) else (sh, c)
    case RecordingSuccess(r, n, k, cost) =>
      if e.Appended? && k.usage.Some? then AfterSuccess(sh, c, r, n, k, cost, e.fault) else (sh, c)
    case RecordingFailure(n, code) => if e.Appended? then AfterFailure(sh, c, n, code, e.fault) else (sh, c)
    case Done(_) => (sh, c)
  }

  // ---------------------------------------------------------------- one request alone

  /** Everything the outside will answer, chosen in advance and without restriction. */
  datatype World = World(usage: Option<UsagePolicy>, rateNow: int, quotaNow: int, answers: int -> Answer,
                         successAppends: int -> Option<Fault>, refusalAppend: Option<Fault>)

  function Next(c: Call, w: World): Event {
    match c.phase
    case Resolving => PolicyAnswered(w.usage, w.rateNow, w.quotaNow)
    case Rejecting(_) => Appended(w.refusalAppend)
    case Calling(_, n) => Answered(w.answers(n))
    case Delaying(_, _) => Waited
    case RecordingSuccess(_, n, _, _) => Appended(w.successAppends(n))
    case RecordingFailure(_, _) => Appended(w.refusalAppend)
    case Done(_) => Waited
  }

  /** Attempts still possible, then the stages left in the current one. */
  function Remaining(c: Call): (int, int) {
    var most := c.policy.maxAttempts;
    match c.phase
    case Resolving => (if most < 0 then 0 else most, 5)
    case Rejecting(_) => (0, 1)
    case Calling(_, n) => (if n > most then 0 else most - n, 4)
    case RecordingSuccess(_, n, _, _) => (if n > most then 0 else most - n, 3)
    case Delaying(_, n) => (if n > most then 0 else most - n, 2)
    case RecordingFailure(_, _) => (0, 1)
    case Done(_) => (0, 0)
  }

  predicate Sound(c: Call) {
    match c.phase
    case RecordingSuccess(_, _, k, _) => k.usage.Some?
    case _ => true
  }

  function Drive(sh: Shared, c: Call, w: World): (Shared, Call)
    requires Sound(c)
    decreases Remaining(c).0, Remaining(c).1
  {
    if c.phase.Done? then (sh, c)
    else
      var (t, d) := Advance(sh, c, Next(c, w));
      Drive(t, d, w)
  }

  /** Driving the request from here ends in `target`. */
  ghost predicate Reaches(here: (Shared, Call), w: World, target: (Shared, Call)) {
    Sound(here.1) && Drive(here.0, here.1, w) == target
  }

  lemma StepReaches(here: (Shared, Call), w: World, target: (Shared, Call))
    requires Reaches(here, w, target) && !here.1.phase.Done?
    ensures Reaches(Advance(here.0, here.1, Next(here.1, w)), w, target)
  {}

  class Service {
    const policy: RuntimePolicy
    const quota: Q.Ledger
    var limiter: map<string, Bucket>
    var records: seq<Record>

    constructor (policy: RuntimePolicy, quota: Q.Ledger)
      ensures this.policy == policy && this.quota == quota && limiter == map[] && records == []
    {
      this.policy, this.quota, limiter, records := policy, quota, map[], [];
    }

    ghost function Snapshot(): Shared
      reads this, quota
    {
      Shared(quota.Snapshot(), limiter, records)
    }

    method ConsumeOne(key: string, limit: int, windowMs: int, now: int) returns (admitted: bool)
      modifies this
      ensures (limiter, admitted) == Consume(old(limiter), key, limit, windowMs, now) && records == old(records)
    {
      if key == "" || !SafeInteger(limit) || limit < 0 || !SafeInteger(windowMs) || windowMs <= 0 { return false; }
      if key !in limiter || limiter[key].resetAt <= now {
        limiter := limiter[key := Bucket(1, now + windowMs)];
        return limit >= 1;
      }
      if limiter[key].count >= limit { return false; }
      limiter := limiter[key := limiter[key].(count := limiter[key].count + 1)];
      admitted := true;
    }

    method Append(r: Record, fault: Option<Fault>)
      modifies this
      ensures limiter == old(limiter)
      ensures records == if fault.Some? then old(records) else old(records) + [r]
    {
      if fault.None? { records := records + [r]; }
    }

    method Refuse(c: Call, f: Fault, w: World) returns (r: Outcome<Response, Fault>)
      requires !c.phase.Done?
      modifies this
      ensures (Snapshot(), c.(phase := Done(r))) == AfterRejection(old(Snapshot()), c, f, w.refusalAppend)
    {
      Append(RecordOf(c, 0, Rejected, NO_USAGE, None, Some(CodeName(Normalize(f)))), w.refusalAppend);
      if w.refusalAppend.Some? { return Refused(w.refusalAppend.value); }
      r := Refused(f);
    }

    /** The validity checks, the price and the settlement of one answer. */
    method Accept(c: Call, r: Q.Reservation, answer: Answer, ghost n: int, ghost was: Option<int>)
      returns (cost: Outcome<Option<real>, Fault>)
      modifies quota
      ensures limiter == old(limiter) && records == old(records)
      ensures cost.Ok? ==> answer.Returned? && answer.completion.usage.Some?
      ensures Judge(old(Snapshot()), c.(charged := was), r, n, answer) ==
                (if cost.Refused? then Fail(Snapshot(), c.(charged := was), r, n, cost.error)
                 else (Snapshot(), c.(phase := RecordingSuccess(r, n, answer.completion, cost.value),
                                      charged := Some(answer.completion.usage.value.total))))
    {
      if answer.Threw? { return Refused(answer.fault); }
      var k := answer.completion;
      if !CompletionValid(k, c.input, c.capability, r.tokens) { return Refused(RuntimeError(InvalidResponse)); }
      if c.input.structured.Some? && !k.parses { return Refused(ContractError); }
      var estimate := EstimateCost(c.capability, k.usage.value);
      if estimate.Refused? { return Refused(PolicyError(estimate.error)); }
      var settled := quota.SettleTokens(r.id, k.usage.value.total);
      if settled.Refused? { return Refused(PolicyError(settled.error)); }
      cost := Ok(estimate.value);
    }

    method Complete(input: Input, modelId: string, selection: Outcome<Capability, Fault>, w: World)
      returns (r: Outcome<Response, Fault>)
      modifies this, quota
      ensures var started := Start(input, modelId, selection, policy);
              if started.Refused? then Snapshot() == old(Snapshot()) && r == Refused(started.error)
              else var (t, d) := Drive(old(Snapshot()), started.value, w);
                   Snapshot() == t && d.phase == Done(r)
    {
      if !RuntimePolicyValid(policy) { return Refused(RuntimeError(PolicyUnavailable)); }
      if Blank(modelId) { return Refused(RuntimeError(RequestInvalid)); }
      if selection.Refused? { return Refused(RuntimeError(Normalize(selection.error))); }
      var capability := selection.value;
      if !CapabilityValid(capability) { return Refused(RuntimeError(ProviderUnavailable)); }
      if !RequestValid(input, capability) { return Refused(RuntimeError(RequestInvalid)); }
      r := Perform(Call(input, capability, policy, Resolving, None), w);
    }

    method Perform(c: Call, w: World) returns (r: Outcome<Response, Fault>)
      requires c.phase == Resolving && c.policy == policy
      modifies this, quota
      ensures var (t, d) := Drive(old(Snapshot()), c, w);
              Snapshot() == t && d.phase == Done(r)
    {
      ghost var target := Drive(Snapshot(), c, w);
      StepReaches((Snapshot(), c), w, target);
      if w.usage.None? || !UsagePolicyValid(w.usage.value) {
        StepReaches(Reject(Snapshot(), c, RuntimeError(PolicyUnavailable)), w, target);
        r := Refuse(c, RuntimeError(PolicyUnavailable), w);
        return;
      }
      var p := w.usage.value;
      var admitted := ConsumeOne(p.rateLimitKey, p.maxRequests, p.rateLimitWindowMs, w.rateNow);
      if !admitted {
        StepReaches(Reject(Snapshot(), c, RateLimitError), w, target);
        r := Refuse(c, RateLimitError, w);
        return;
      }
      var reserved := quota.ReserveTokens(DemandOf(c, p), w.quotaNow);
      if reserved.Refused? {
        StepReaches(Reject(Snapshot(), c, RuntimeError(PolicyCode(reserved.error))), w, target);
        r := Refuse(c, RuntimeError(PolicyCode(reserved.error)), w);
        return;
      }
      r := Retry(c, reserved.value, w);
    }

    method GiveUp(c: Call, id: nat, attempts: int, code: Code, w: World) returns (r: Outcome<Response, Fault>)
      modifies this, quota
      ensures var sh := old(Snapshot());
              var (t, d) := AfterFailure(sh.(quota := Q.Release(sh.quota, id)), c, attempts, code, w.refusalAppend);
              Snapshot() == t && d.phase == Done(r)
    {
      quota.ReleaseTokens(id);
      Append(RecordOf(c, attempts, Failed, NO_USAGE, None, Some(CodeName(code))), w.refusalAppend);
      if w.refusalAppend.Some? { return Refused(RuntimeError(Normalize(w.refusalAppend.value))); }
      r := Refused(RuntimeError(code));
    }

    /** One turn of the retry loop up to its catch block. */
    method TryOnce(c: Call, reservation: Q.Reservation, attempts: int, w: World, ghost was: Option<int>,
            ghost target: (Shared, Call))
      returns (response: Option<Response>, fault: Fault, ghost charged: Option<int>)
      requires Reaches((Snapshot(), c.(phase := Calling(reservation, attempts), charged := was)), w, target)
      modifies this, quota
      ensures response.Some? ==> target.0 == Snapshot() && target.1.phase == Done(Ok(response.value))
      ensures response.None? ==>
                Reaches(Fail(Snapshot(), c.(charged := charged), reservation, attempts, fault), w, target)
    {
      StepReaches((Snapshot(), c.(phase := Calling(reservation, attempts), charged := was)), w, target);
      charged := was;
      var answer := w.answers(attempts);
      var cost := Accept(c, reservation, answer, attempts, was);
      if cost.Refused? { return None, cost.error, was; }
      var k := answer.completion;
      charged := Some(k.usage.value.total);
      StepReaches((Snapshot(), c.(phase := RecordingSuccess(reservation, attempts, k, cost.value), charged := charged)),
                  w, target);
      Append(RecordOf(c, attempts, Succeeded, k.usage.value, cost.value, None), w.successAppends(attempts));
      if w.successAppends(attempts).Some? { return None, w.successAppends(attempts).value, charged; }
      return Some(Response(k, c.capability.providerId, c.capability.modelId, attempts, cost.value)), OtherError, None;
    }

    method Retry(c: Call, reservation: Q.Reservation, w: World) returns (r: Outcome<Response, Fault>)
      requires c.policy == policy
      modifies this, quota
      ensures var start := Attempt(old(Snapshot()), c, reservation, 0);
              var (t, d) := Drive(start.0, start.1, w);
              Snapshot() == t && d.phase == Done(r)
    {
      ghost var target := Drive(Attempt(Snapshot(), c, reservation, 0).0, Attempt(Snapshot(), c, reservation, 0).1, w);
      ghost var charged := c.charged;
      var attempts := 0;
      while attempts < policy.maxAttempts
        invariant attempts >= 0
        invariant Reaches(Attempt(Snapshot(), c.(charged := charged), reservation, attempts), w, target)
        decreases policy.maxAttempts - attempts
      {
        attempts := attempts + 1;
        var response, fault;
        response, fault, charged := TryOnce(c, reservation, attempts, w, charged, target);
        if response.Some? { return Ok(response.value); }
        if !Retryable(fault) || attempts >= policy.maxAttempts {
          StepReaches(Fail(Snapshot(), c.(charged := charged), reservation, attempts, fault), w, target);
          r := GiveUp(c, reservation.id, attempts, Normalize(fault), w);
          return;
        }
        StepReaches(Fail(Snapshot(), c.(charged := charged), reservation, attempts, fault), w, target);
      }
      quota.ReleaseTokens(reservation.id);
      r := Refused(RuntimeError(ProviderFailed));
    }
  }
}
