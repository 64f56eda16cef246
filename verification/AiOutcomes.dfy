/**
 * How one whole call ends, told by what the outside answers: who is admitted, which answers are tried again, which one
 * decides, and what is returned and recorded.
 */
module AiOutcomes {
  import opened Common
  import opened AiRecords
  import opened AiRuntime
  import Q = AiQuota

  // ---------------------------------------------------------------- answers

  /** A provider error, not a look-alike, that the provider itself calls temporary. */
  predicate Transient(f: Fault) {
    f == ProviderError(true, true, true) || f == ProviderError(false, true, true)
  }

  lemma TransientIsRetryable(f: Fault)
    ensures Transient(f) <==> Retryable(f)
  {}

  /** The provider answered this attempt with a temporary error. */
  predicate TriedAgain(w: World, n: int) {
    w.answers(n).Threw? && Transient(w.answers(n).fault)
  }

  /** Text, finish reason and usage are what this request may be answered with. */
  predicate Fitting(k: Completion, i: Input, c: Capability) {
    && |k.text| <= 100000 && (forall j :: 0 <= j < |k.text| ==> k.text[j] != '\0')
    && (k.finishReason == "stop" || k.finishReason == "length" || k.finishReason == "content_filter"
        || k.finishReason == "unknown")
    && k.usage.Some?
    && var u := k.usage.value;
       0 <= u.input <= c.maxInput && 0 <= u.output <= i.maxOutput && u.total == u.input + u.output
       && u.total <= i.estimatedInput + i.maxOutput
  }

  /** A structured output was not asked for, or can be read. */
  predicate Readable(k: Completion, i: Input) {
    i.structured == None || k.parses
  }

  /** What the usage costs before it is rounded to six places. */
  function Cost(u: Usage, input: real, output: real): real {
    (u.input as real * input + u.output as real * output) / 1000000.0
  }

  /** Without a price the cost is unknown; with prices it must be a number that can be kept. */
  predicate Payable(u: Usage, c: Capability) {
    match (c.inputPrice, c.outputPrice)
    case (Unpriced, _) => true
    case (_, Unpriced) => true
    case (PerMillion(p), PerMillion(q)) => p >= 0.0 && q >= 0.0 && Cost(u, p, q) <= 9007199254740991.0
    case _ => false
  }

  /** An estimate is within half a millionth of the cost, and there is one exactly when there are prices. */
  predicate Estimates(cost: Option<real>, u: Usage, c: Capability) {
    match (c.inputPrice, c.outputPrice)
    case (PerMillion(p), PerMillion(q)) =>
      cost.Some? && -0.0000005 < cost.value - Cost(u, p, q) <= 0.0000005
    case _ => cost.None?
  }

  /** The answer that ends a call well. */
  predicate Decides(a: Answer, i: Input, c: Capability) {
    a.Returned? && Fitting(a.completion, i, c) && Readable(a.completion, i) && Payable(a.completion.usage.value, c)
  }

  /** What is wrong with any other answer. */
  function Complaint(a: Answer, i: Input, c: Capability): Code {
    if a.Threw? then Normalize(a.fault)
    else if !Fitting(a.completion, i, c) || !Readable(a.completion, i) then InvalidResponse
    else CostUnavailable
  }

  /** The code of a fault: its own, or the kind of failure it stands for. */
  lemma FaultCodes(f: Fault)
    ensures f.RuntimeError? ==> Normalize(f) == f.code
    ensures f == ContractError ==> Normalize(f) == InvalidResponse
    ensures f == AvailabilityError(true) ==> Normalize(f) == ModelUnavailable
    ensures f == AvailabilityError(false) ==> Normalize(f) == ProviderUnavailable
    ensures f == PolicyError(Q.QuotaExceeded) ==> Normalize(f) == Code.QuotaExceeded
    ensures f == PolicyError(Q.PolicyUnavailable) ==> Normalize(f) == Code.PolicyUnavailable
    ensures f == PolicyError(Q.CostUnavailable) ==> Normalize(f) == Code.CostUnavailable
    ensures f == RateLimitError ==> Normalize(f) == RateLimited
    ensures f.ProviderError? && f.timeout ==> Normalize(f) == ProviderTimeout
    ensures f == OtherError || (f.ProviderError? && !f.timeout) ==> Normalize(f) == ProviderFailed
  {}

  // ---------------------------------------------------------------- requests that are taken up

  predicate Name(s: string) {
    |s| <= 200 && exists i :: 0 <= i < |s| && !White(s[i])
  }

  predicate Speaks(m: Message) {
    (m.role == "system" || m.role == "user" || m.role == "assistant") && |m.content| <= 100000
    && forall i :: 0 <= i < |m.content| ==> m.content[i] != '\0'
  }

  /** A request this model can take: names, messages within their bounds, tokens within the model's. */
  predicate Reasonable(i: Input, c: Capability) {
    && Name(i.requestId) && Name(i.userId) && Name(i.feature)
    && (i.entitlementKey.Some? ==> Name(i.entitlementKey.value))
    && 1 <= |i.messages| <= 64 && (forall j :: 0 <= j < |i.messages| ==> Speaks(i.messages[j]))
    && ContentLength(i.messages) <= 200000
    && 0 <= i.estimatedInput <= c.maxInput && 1 <= i.maxOutput <= c.maxOutput
    && i.estimatedInput + i.maxOutput <= 9007199254740991
    && (i.temperature.Some? ==> 0.0 <= i.temperature.value <= 2.0) && i.structured != Some(false)
  }

  lemma NameIsBounded(s: string)
    ensures Name(s) <==> BoundedIdentifier(s)
  {
    if !Blank(s) {
      var c :| c in s && !White(c);
      var i :| 0 <= i < |s| && s[i] == c;
    }
  }

  lemma ReasonableIsValid(i: Input, c: Capability)
    ensures Reasonable(i, c) <==> RequestValid(i, c)
  {
    NameIsBounded(i.requestId);
    NameIsBounded(i.userId);
    NameIsBounded(i.feature);
    if i.entitlementKey.Some? { NameIsBounded(i.entitlementKey.value); }
    forall j | 0 <= j < |i.messages| ensures Speaks(i.messages[j]) <==> MessageValid(i.messages[j]) {}
  }

  /** A model that names itself and has room for an answer. */
  predicate Usable(c: Capability) {
    Name(c.providerId) && Name(c.modelId) && 0 <= c.maxInput <= 9007199254740991 && 1 <= c.maxOutput <= 9007199254740991
  }

  /** Which calls begin, with nothing done yet; every other one is refused before anything is asked or recorded. */
  lemma BegunExactly(i: Input, modelId: string, selection: Outcome<Capability, Fault>, p: RuntimePolicy)
    ensures Start(i, modelId, selection, p).Ok? <==>
            && p.timeoutMs > 0 && p.maxAttempts > 0 && p.retryDelayMs >= 0
            && (exists j :: 0 <= j < |modelId| && !White(modelId[j]))
            && selection.Ok? && Usable(selection.value) && Reasonable(i, selection.value)
    ensures Start(i, modelId, selection, p).Ok? ==>
              Start(i, modelId, selection, p).value == Call(i, selection.value, p, Resolving, None)
  {
    if !Blank(modelId) {
      var c :| c in modelId && !White(c);
      var j :| 0 <= j < |modelId| && modelId[j] == c;
    }
    if selection.Ok? {
      NameIsBounded(selection.value.providerId);
      NameIsBounded(selection.value.modelId);
      ReasonableIsValid(i, selection.value);
    }
  }

  // ---------------------------------------------------------------- one answer

  /** A request that has begun, with the tokens it asks for reserved. */
  predicate Holding(sh: Shared, c: Call, r: Q.Reservation) {
    && Usable(c.capability) && Reasonable(c.input, c.capability) && c.policy.maxAttempts >= 1
    && r.tokens == c.input.estimatedInput + c.input.maxOutput
    && r.id in sh.quota.reservations && sh.quota.reservations[r.id] == r && r.window in sh.quota.windows
  }

  lemma FittingIsValid(k: Completion, c: Call, r: Q.Reservation)
    requires Usable(c.capability) && Reasonable(c.input, c.capability)
    requires r.tokens == c.input.estimatedInput + c.input.maxOutput
    ensures Fitting(k, c.input, c.capability) <==> CompletionValid(k, c.input, c.capability, r.tokens)
  {
    assert (forall j :: 0 <= j < |k.text| ==> k.text[j] != '\0') <==> '\0' !in k.text;
  }

  lemma PayableIsPriced(u: Usage, c: Capability)
    requires 0 <= u.input <= MAX_SAFE_INTEGER && 0 <= u.output <= MAX_SAFE_INTEGER
    ensures EstimateCost(c, u).Ok? <==> Payable(u, c)
    ensures EstimateCost(c, u).Refused? ==> EstimateCost(c, u).error == Q.CostUnavailable
    ensures EstimateCost(c, u).Ok? ==> Estimates(EstimateCost(c, u).value, u, c)
  {
    if c.inputPrice.PerMillion? && c.outputPrice.PerMillion? && Payable(u, c) {
      var p, q := c.inputPrice.usd, c.outputPrice.usd;
      assert u.input as real * p >= 0.0 && u.output as real * q >= 0.0;
      RoundingStaysInRange(Cost(u, p, q));
    }
  }

  /** The fault with which an answer that does not decide leaves the attempt. */
  lemma OtherAnswers(sh: Shared, c: Call, r: Q.Reservation, n: int, a: Answer) returns (f: Fault)
    requires Holding(sh, c, r) && !Decides(a, c.input, c.capability)
    ensures Judge(sh, c, r, n, a) == Fail(sh, c, r, n, f)
    ensures Normalize(f) == Complaint(a, c.input, c.capability)
    ensures Transient(f) <==> a.Threw? && Transient(a.fault)
  {
    if a.Threw? {
      f := a.fault;
    } else {
      FittingIsValid(a.completion, c, r);
      if !Fitting(a.completion, c.input, c.capability) {
        f := RuntimeError(InvalidResponse);
      } else if !Readable(a.completion, c.input) {
        f := ContractError;
      } else {
        PayableIsPriced(a.completion.usage.value, c.capability);
        f := PolicyError(Q.CostUnavailable);
      }
    }
  }

  /** A deciding answer settles exactly its tokens and goes on to be recorded. */
  lemma DecidingAnswer(sh: Shared, c: Call, r: Q.Reservation, n: int, a: Answer)
    requires Holding(sh, c, r) && Decides(a, c.input, c.capability)
    ensures var u, w := a.completion.usage.value, sh.quota.windows[r.window];
            var (t, d) := Judge(sh, c, r, n, a);
            && d.phase.RecordingSuccess? && d.phase.attempts == n && d.phase.completion == a.completion
            && d == c.(phase := d.phase, charged := Some(u.total)) && d.phase.reservation == r
            && Estimates(d.phase.cost, u, c.capability)
            && t == sh.(quota := t.quota)
            && t.quota == sh.quota.(windows := sh.quota.windows[r.window :=
                                                 Q.Window(w.used + u.total, w.reserved - r.tokens)],
                                    reservations := sh.quota.reservations - {r.id})
  {
    FittingIsValid(a.completion, c, r);
    PayableIsPriced(a.completion.usage.value, c.capability);
  }

  // ---------------------------------------------------------------- attempts

  lemma AnotherTry(sh: Shared, c: Call, r: Q.Reservation, w: World, n: int)
    requires c.phase == Calling(r, n) && TriedAgain(w, n) && n < c.policy.maxAttempts
    ensures Drive(sh, c, w) == Drive(sh, c.(phase := Calling(r, n + 1)), w)
  {
    TransientIsRetryable(w.answers(n).fault);
    assert Advance(sh, c, Next(c, w)) == (sh, c.(phase := Delaying(r, n)));
    var d := c.(phase := Delaying(r, n));
    assert Advance(sh, d, Next(d, w)) == (sh, d.(phase := Calling(r, n + 1)));
    assert d.(phase := Calling(r, n + 1)) == c.(phase := Calling(r, n + 1));
  }

  lemma {:induction false} ManyTries(sh: Shared, c: Call, r: Q.Reservation, w: World, m: int, n: int)
    requires c.phase == Calling(r, m) && m <= n <= c.policy.maxAttempts
    requires forall i :: m <= i < n ==> TriedAgain(w, i)
    ensures Drive(sh, c, w) == Drive(sh, c.(phase := Calling(r, n)), w)
    decreases n - m
  {
    if m < n {
      AnotherTry(sh, c, r, w, m);
      ManyTries(sh, c.(phase := Calling(r, m + 1)), r, w, m + 1, n);
      assert c.(phase := Calling(r, m + 1)).(phase := Calling(r, n)) == c.(phase := Calling(r, n));
    } else {
      assert c.(phase := Calling(r, n)) == c;
    }
  }

  /** The record of an attempt that went well. */
  predicate Success(rec: Record, c: Call, n: int, k: Completion) {
    && rec.requestId == c.input.requestId && rec.userId == c.input.userId && rec.feature == c.input.feature
    && rec.providerId == c.capability.providerId && rec.modelId == c.capability.modelId
    && rec.attempts == n && rec.status == Succeeded && rec.errorCode == None
    && k.usage == Some(rec.usage) && Estimates(rec.cost, rec.usage, c.capability)
  }

  /** The record of a call that did not. */
  function Failure(c: Call, n: int, status: Status, code: Code): Record {
    Record(c.input.requestId, c.input.userId, c.input.feature, c.capability.providerId, c.capability.modelId, n, status,
           Usage(0, 0, 0), None, Some(CodeName(code)))
  }

  lemma DecidedNow(sh: Shared, c: Call, r: Q.Reservation, w: World, n: int)
    requires c.phase == Calling(r, n) && Holding(sh, c, r)
    requires Decides(w.answers(n), c.input, c.capability) && w.successAppends(n).None?
    ensures EndsWell(sh, c, w, n, Drive(sh, c, w).0, Drive(sh, c, w).1)
  {
    DecidingAnswer(sh, c, r, n, w.answers(n));
    var (t, d) := Advance(sh, c, Next(c, w));
    var (u, e) := Advance(t, d, Next(d, w));
    assert e.phase.Done? && Drive(u, e, w) == (u, e);
    assert u.records[..|u.records| - 1] == sh.records;
  }

  /** The response and the record of a call that ended with the n-th attempt, and nothing else recorded. */
  predicate EndsWell(sh: Shared, c: Call, w: World, n: int, t: Shared, d: Call) {
    && w.answers(n).Returned?
    && var k := w.answers(n).completion;
    && |t.records| == |sh.records| + 1 && t.records[..|sh.records|] == sh.records
    && Success(t.records[|sh.records|], c, n, k)
    && d.phase == Done(Ok(Response(k, c.capability.providerId, c.capability.modelId, n, t.records[|sh.records|].cost)))
  }

  /** The call gives its tokens back, leaves one record of its n attempts and is refused with their code. */
  predicate EndsBadly(sh: Shared, c: Call, r: Q.Reservation, n: int, code: Code, t: Shared, d: Call) {
    && t.records == sh.records + [Failure(c, n, Failed, code)] && t.limiter == sh.limiter
    && t.quota == Q.Release(sh.quota, r.id)
    && d.phase == Done(Refused(RuntimeError(code)))
  }

  lemma FailedNow(sh: Shared, c: Call, r: Q.Reservation, w: World, n: int)
    requires c.phase == Calling(r, n) && Holding(sh, c, r) && w.refusalAppend.None?
    requires !Decides(w.answers(n), c.input, c.capability) && (TriedAgain(w, n) ==> n >= c.policy.maxAttempts)
    ensures EndsBadly(sh, c, r, n, Complaint(w.answers(n), c.input, c.capability), Drive(sh, c, w).0, Drive(sh, c, w).1)
  {
    var f := OtherAnswers(sh, c, r, n, w.answers(n));
    TransientIsRetryable(f);
    var (t, d) := Advance(sh, c, Next(c, w));
    var (u, e) := Advance(t, d, Next(d, w));
    assert e.phase.Done? && Drive(u, e, w) == (u, e);
  }

  // ---------------------------------------------------------------- admission

  predicate Sensible(p: UsagePolicy) {
    && p.quotaKey != "" && 0 <= p.maxTokens <= 9007199254740991 && 1 <= p.quotaWindowMs <= 9007199254740991
    && p.rateLimitKey != "" && 0 <= p.maxRequests <= 9007199254740991 && 1 <= p.rateLimitWindowMs <= 9007199254740991
  }

  /** The rate limiter has room: in a window that runs, or with a new one. */
  predicate HasRoom(limiter: map<string, Bucket>, p: UsagePolicy, now: int) {
    if p.rateLimitKey in limiter && now < limiter[p.rateLimitKey].resetAt
    then limiter[p.rateLimitKey].count < p.maxRequests else 1 <= p.maxRequests
  }

  /** The tokens asked for fit into the k-th window of the quota, beside what is used and reserved there. */
  predicate HasTokens(q: Q.Quota, c: Call, p: UsagePolicy, k: int) {
    var w := Q.WindowKey(p.quotaKey, k * p.quotaWindowMs);
    var taken := if w in q.windows then q.windows[w].used + q.windows[w].reserved else 0;
    taken + c.input.estimatedInput + c.input.maxOutput <= p.maxTokens
  }

  /** What stands in the way of a request, in the order in which it is looked for. */
  function Obstacle(sh: Shared, c: Call, w: World, k: int): Option<Fault> {
    if w.usage.None? || !Sensible(w.usage.value) then Some(RuntimeError(PolicyUnavailable))
    else if !HasRoom(sh.limiter, w.usage.value, w.rateNow) then Some(RateLimitError)
    else if !HasTokens(sh.quota, c, w.usage.value, k) then Some(RuntimeError(QuotaExceeded))
    else None
  }

  /** A request before its policy is known. */
  predicate Begun(c: Call) {
    c.phase == Resolving && c.charged.None? && c.policy.maxAttempts >= 1
    && Usable(c.capability) && Reasonable(c.input, c.capability)
  }

  lemma ReservedExactly(q: Q.Quota, c: Call, p: UsagePolicy, now: int, k: int)
    requires Begun(c) && Sensible(p) && k * p.quotaWindowMs <= now < (k + 1) * p.quotaWindowMs
    ensures var (t, r) := Q.Reserve(q, DemandOf(c, p), now);
            && (r.Ok? <==> HasTokens(q, c, p, k))
            && (r.Refused? ==> r.error == Q.QuotaExceeded && t == q)
            && (r.Ok? ==> r.value.tokens == c.input.estimatedInput + c.input.maxOutput
                          && r.value.id in t.reservations && t.reservations[r.value.id] == r.value
                          && r.value.window in t.windows
                          && r.value.window == Q.WindowKey(p.quotaKey, k * p.quotaWindowMs))
  {
    SameWindow(now, p.quotaWindowMs, k);
  }

  lemma SameWindow(now: int, width: int, k: int)
    requires width > 0 && k * width <= now < (k + 1) * width
    ensures now / width * width == k * width
  {
    var q := now / width;
    assert q * width <= now < q * width + width && (k + 1) * width == k * width + width;
    if q < k { Earlier(q, k, width); } else if k < q { Earlier(k, q, width); }
  }

  lemma Earlier(a: int, b: int, width: int)
    requires a < b && width > 0
    ensures a * width + width <= b * width
  {
    var d := b - a - 1;
    assert d * width >= 0 && b * width == a * width + width + d * width;
  }

  /** A request without an obstacle makes its first attempt, with its tokens reserved and nothing recorded. */
  lemma Admitted(sh: Shared, c: Call, w: World, k: int) returns (r: Q.Reservation)
    requires Begun(c) && Obstacle(sh, c, w, k).None?
    requires k * w.usage.value.quotaWindowMs <= w.quotaNow < (k + 1) * w.usage.value.quotaWindowMs
    ensures var (t, d) := Advance(sh, c, Next(c, w));
            d == c.(phase := Calling(r, 1)) && Holding(t, d, r) && t.records == sh.records
  {
    ReservedExactly(sh.quota, c, w.usage.value, w.quotaNow, k);
    r := Q.Reserve(sh.quota, DemandOf(c, w.usage.value), w.quotaNow).1.value;
  }

  /** A request with an obstacle is turned away with it, and nothing is reserved. */
  lemma TurnedAway(sh: Shared, c: Call, w: World, k: int)
    requires Begun(c) && Obstacle(sh, c, w, k).Some?
    requires w.usage.Some? && Sensible(w.usage.value) ==>
               k * w.usage.value.quotaWindowMs <= w.quotaNow < (k + 1) * w.usage.value.quotaWindowMs
    ensures var (t, d) := Advance(sh, c, Next(c, w));
            d == c.(phase := Rejecting(Obstacle(sh, c, w, k).value)) && t.records == sh.records && t.quota == sh.quota
  {
    if w.usage.Some? && Sensible(w.usage.value) {
      ReservedExactly(sh.quota, c, w.usage.value, w.quotaNow, k);
    }
  }

  // ---------------------------------------------------------------- the whole call

  /** The call has begun, now lies in the k-th quota window, and the first n - 1 answers were temporary errors. */
  predicate Arrives(sh: Shared, c: Call, w: World, k: int, n: int) {
    && Begun(c) && Obstacle(sh, c, w, k).None?
    && k * w.usage.value.quotaWindowMs <= w.quotaNow < (k + 1) * w.usage.value.quotaWindowMs
    && 1 <= n <= c.policy.maxAttempts && forall i :: 1 <= i < n ==> TriedAgain(w, i)
  }

  lemma ArrivesAt(sh: Shared, c: Call, w: World, k: int, n: int) returns (t: Shared, d: Call, r: Q.Reservation)
    requires Arrives(sh, c, w, k, n)
    ensures d == c.(phase := Calling(r, n)) && Holding(t, d, r) && t.records == sh.records
    ensures Drive(sh, c, w) == Drive(t, d, w)
  {
    r := Admitted(sh, c, w, k);
    t := Advance(sh, c, Next(c, w)).0;
    var first := c.(phase := Calling(r, 1));
    ManyTries(t, first, r, w, 1, n);
    d := first.(phase := Calling(r, n));
    assert d == c.(phase := Calling(r, n));
  }

  /**
   * An admitted call whose first n - 1 answers are temporary provider errors, and whose n-th within the attempts
   * allowed is a fitting, readable and payable completion that can be recorded, returns it and leaves one success.
   */
  lemma CallEndsWell(sh: Shared, c: Call, w: World, k: int, n: int)
    requires Arrives(sh, c, w, k, n)
    requires Decides(w.answers(n), c.input, c.capability) && w.successAppends(n).None?
    ensures EndsWell(sh, c, w, n, Drive(sh, c, w).0, Drive(sh, c, w).1)
  {
    var t, d, r := ArrivesAt(sh, c, w, k, n);
    DecidedNow(t, d, r, w, n);
  }

  /**
   * If the n-th answer is any other fault or completion, or is the last temporary error allowed, the call ends with one
   * failure of n attempts that carries the code of that answer.
   */
  lemma CallEndsBadly(sh: Shared, c: Call, w: World, k: int, n: int)
    requires Arrives(sh, c, w, k, n) && !Decides(w.answers(n), c.input, c.capability)
    requires (TriedAgain(w, n) ==> n == c.policy.maxAttempts) && w.refusalAppend.None?
    ensures var (t, d) := Drive(sh, c, w);
            var code := Complaint(w.answers(n), c.input, c.capability);
            t.records == sh.records + [Failure(c, n, Failed, code)] && d.phase == Done(Refused(RuntimeError(code)))
  {
    var t, d, r := ArrivesAt(sh, c, w, k, n);
    FailedNow(t, d, r, w, n);
  }

  /** A call that is not admitted is recorded as rejected, with no attempt, and refused with its obstacle. */
  lemma CallIsRejected(sh: Shared, c: Call, w: World, k: int)
    requires Begun(c) && Obstacle(sh, c, w, k).Some? && w.refusalAppend.None?
    requires w.usage.Some? && Sensible(w.usage.value) ==>
               k * w.usage.value.quotaWindowMs <= w.quotaNow < (k + 1) * w.usage.value.quotaWindowMs
    ensures var (t, d) := Drive(sh, c, w);
            var f := Obstacle(sh, c, w, k).value;
            t.records == sh.records + [Failure(c, 0, Rejected, Normalize(f))] && t.quota == sh.quota
            && d.phase == Done(Refused(f))
  {
    TurnedAway(sh, c, w, k);
    var (t, d) := Advance(sh, c, Next(c, w));
    var (u, e) := Advance(t, d, Next(d, w));
    assert e.phase.Done? && Drive(u, e, w) == (u, e);
  }

  /** Once its tokens are settled without a record, a call cannot end well any more, whatever is answered. */
  lemma {:induction false} LostIsLost(sh: Shared, c: Call, w: World)
    requires c.phase.Calling? || c.phase.Delaying?
    requires c.phase.reservation.id !in sh.quota.reservations
    ensures Drive(sh, c, w).1.phase.Done? && Drive(sh, c, w).1.phase.outcome.Refused?
    decreases Remaining(c).0, Remaining(c).1
  {
    var (t, d) := Advance(sh, c, Next(c, w));
    if d.phase.Calling? || d.phase.Delaying? {
      LostIsLost(t, d, w);
    } else if d.phase.RecordingFailure? {
      var (u, e) := Advance(t, d, Next(d, w));
      assert e.phase.Done? && Drive(u, e, w) == (u, e);
    }
  }

  /**
   * If the completion that decided cannot be recorded, the call fails: at once with that fault's code when it is final,
   * and in any case without a response.
   */
  lemma CallLosesItsSuccess(sh: Shared, c: Call, w: World, k: int, n: int)
    requires Arrives(sh, c, w, k, n)
    requires Decides(w.answers(n), c.input, c.capability) && w.successAppends(n).Some?
    ensures LostWith(sh, c, w, n, Drive(sh, c, w).0, Drive(sh, c, w).1)
  {
    var t, d, r := ArrivesAt(sh, c, w, k, n);
    LostNow(t, d, r, w, n);
  }

  lemma LostNow(sh: Shared, c: Call, r: Q.Reservation, w: World, n: int)
    requires c.phase == Calling(r, n) && Holding(sh, c, r) && n <= c.policy.maxAttempts
    requires Decides(w.answers(n), c.input, c.capability) && w.successAppends(n).Some?
    ensures LostWith(sh, c, w, n, Drive(sh, c, w).0, Drive(sh, c, w).1)
  {
    DecidingAnswer(sh, c, r, n, w.answers(n));
    var (t, d) := Advance(sh, c, Next(c, w));
    assert d.phase.completion.usage.Some? && Drive(sh, c, w) == Drive(t, d, w);
    LostAfterwards(t, d, r, w, n);
  }

  /** The call is refused, and if the lost append was final it left the failure that carries its code. */
  predicate LostWith(sh: Shared, c: Call, w: World, n: int, t: Shared, d: Call) {
    && d.phase.Done? && d.phase.outcome.Refused? && w.successAppends(n).Some?
    && var f := w.successAppends(n).value;
       (Transient(f) ==> n == c.policy.maxAttempts) && w.refusalAppend.None? ==>
         t.records == sh.records + [Failure(c, n, Failed, Normalize(f))]
         && d.phase == Done(Refused(RuntimeError(Normalize(f))))
  }

  lemma LostAfterwards(sh: Shared, c: Call, r: Q.Reservation, w: World, n: int)
    requires c.phase.RecordingSuccess? && c.phase.reservation == r && c.phase.attempts == n
    requires c.phase.completion.usage.Some? && r.id !in sh.quota.reservations
    requires n <= c.policy.maxAttempts && w.successAppends(n).Some?
    ensures LostWith(sh, c, w, n, Drive(sh, c, w).0, Drive(sh, c, w).1)
  {
    var f := w.successAppends(n).value;
    TransientIsRetryable(f);
    var (t, d) := Advance(sh, c, Next(c, w));
    assert (t, d) == Fail(sh, c, r, n, f) && Drive(sh, c, w) == Drive(t, d, w);
    if Transient(f) && n < c.policy.maxAttempts {
      LostIsLost(t, d, w);
    } else {
      var (u, e) := Advance(t, d, Next(d, w));
      assert e.phase.Done? && Drive(t, d, w) == (u, e);
    }
  }
}
