/**
 * When the quota ledger and the usage ledger differ: exactly by the tokens of successes whose record the
 * usage ledger failed to append after the tokens had been settled.
 */
module AiLoss {
  import opened Common
  import opened AiRecords
  import opened AiRuntime
  import opened AiAccounting
  import Q = AiQuota

  /** The append of a success fails: its tokens are settled, and no record of them will ever be written. */
  predicate LosesSuccess(s: Sys, step: Step) {
    step.Deliver? && step.index < |s.calls| && s.calls[step.index].phase.RecordingSuccess?
    && s.calls[step.index].phase.completion.usage.Some? && step.event.Appended? && step.event.fault.Some?
  }

  function TokensAt(s: Sys, step: Step): int {
    if LosesSuccess(s, step) then s.calls[step.index].phase.completion.usage.value.total else 0
  }

  /** The tokens of all successes whose append failed during the run. */
  function TokensLost(steps: seq<Step>): int {
    if steps == [] then 0
    else TokensLost(steps[..|steps| - 1]) + TokensAt(Run(steps[..|steps| - 1]), steps[|steps| - 1])
  }

  /** Some append of a success that used tokens failed. */
  predicate SuccessLost(steps: seq<Step>) {
    steps != []
    && (SuccessLost(steps[..|steps| - 1]) || TokensAt(Run(steps[..|steps| - 1]), steps[|steps| - 1]) > 0)
  }

  /** The tokens of one request whose success is being recorded right now. */
  function Recording(c: Call): int {
    if c.phase.RecordingSuccess? && c.phase.completion.usage.Some? then c.phase.completion.usage.value.total else 0
  }

  function InFlight(cs: seq<Call>): int {
    if cs == [] then 0 else InFlight(cs[..|cs| - 1]) + Recording(cs[|cs| - 1])
  }

  lemma {:induction false} InFlightUpdate(cs: seq<Call>, i: nat, c: Call)
    requires i < |cs|
    ensures InFlight(cs[i := c]) == InFlight(cs) - Recording(cs[i]) + Recording(c)
  {
    var last := |cs| - 1;
    if i == last {
      assert cs[i := c][..last] == cs[..last];
    } else {
      assert cs[i := c][..last] == cs[..last][i := c];
      InFlightUpdate(cs[..last], i, c);
    }
  }

  /** What a request is charged beyond what it is recording moves only when a success is lost. */
  lemma ChargeMoves(sh: Shared, c: Call, e: Event)
    requires CallOk(c) && Agrees(sh.quota, c)
    ensures var d := Advance(sh, c, e).1;
            Charge(d) - Recording(d) ==
            Charge(c) - Recording(c)
              + (if c.phase.RecordingSuccess? && e.Appended? && e.fault.Some? then Recording(c) else 0)
  {
    if c.phase.Calling? && e.Answered? {
      var fault := JudgeOutcome(sh, c, e.answer);
    }
  }

  lemma DeliverMoves(s: Sys, i: nat, e: Event)
    requires AllOk(s.calls) && AllAgree(s.shared.quota, s.calls) && i < |s.calls|
    ensures var t := Apply(s, Deliver(i, e));
            Unrecorded(t.calls) - InFlight(t.calls) == Unrecorded(s.calls) - InFlight(s.calls)
              + TokensAt(s, Deliver(i, e))
  {
    var c := s.calls[i];
    var d := Advance(s.shared, c, e).1;
    assert CallOk(c) && Agrees(s.shared.quota, c);
    ChargeMoves(s.shared, c, e);
    UnrecordedUpdate(s.calls, i, d);
    InFlightUpdate(s.calls, i, d);
  }

  lemma BeginMoves(s: Sys, c: Call)
    requires c.phase == Resolving && c.charged == None
    ensures var calls := s.calls + [c];
            Unrecorded(calls) - InFlight(calls) == Unrecorded(s.calls) - InFlight(s.calls)
  {
    assert (s.calls + [c])[..|s.calls|] == s.calls;
  }

  lemma {:induction false} ChargesAreLosses(steps: seq<Step>)
    ensures Unrecorded(Run(steps).calls) == InFlight(Run(steps).calls) + TokensLost(steps)
  {
    if steps != [] {
      var s, step := Run(steps[..|steps| - 1]), steps[|steps| - 1];
      ChargesAreLosses(steps[..|steps| - 1]);
      RunKeeps(steps[..|steps| - 1]);
      match step
      case Begin(input, modelId, selection, policy) =>
        var started := Start(input, modelId, selection, policy);
        if started.Ok? { BeginMoves(s, started.value); }
      case Deliver(i, e) =>
        if i < |s.calls| { DeliverMoves(s, i, e); }
    }
  }

  lemma TokensAtNonNegative(s: Sys, step: Step)
    requires AllOk(s.calls)
    ensures TokensAt(s, step) >= 0
  {
    if LosesSuccess(s, step) { assert CallOk(s.calls[step.index]); }
  }

  lemma {:induction false} LossIsVisible(steps: seq<Step>)
    ensures TokensLost(steps) >= 0
    ensures TokensLost(steps) > 0 <==> SuccessLost(steps)
  {
    if steps != [] {
      LossIsVisible(steps[..|steps| - 1]);
      RunKeeps(steps[..|steps| - 1]);
      TokensAtNonNegative(Run(steps[..|steps| - 1]), steps[|steps| - 1]);
    }
  }

  lemma {:induction false} NothingInFlight(cs: seq<Call>)
    requires forall i :: 0 <= i < |cs| ==> cs[i].phase.Done?
    ensures InFlight(cs) == 0
  {
    if cs != [] { NothingInFlight(cs[..|cs| - 1]); }
  }

  /**
   * At every moment of every run the used tokens are the recorded ones, those of successes whose append is
   * still awaited, and those of successes whose append failed.
   */
  lemma {:induction false} EveryTokenIsPlaced(steps: seq<Step>)
    ensures var s := Run(steps);
            Q.TotalUsed(s.shared.quota) == Recorded(s.shared.records) + InFlight(s.calls) + TokensLost(steps)
  {
    UsedTokensAreExplained(steps);
    ChargesAreLosses(steps);
  }

  /**
   * Once every request is done, the two ledgers agree to the token exactly when no append of a success that
   * used tokens failed; failing appends of FAILED and REJECTED records do not matter.
   */
  lemma LedgersAgreeExactly(steps: seq<Step>)
    requires AllDone(Run(steps))
    ensures Q.TotalUsed(Run(steps).shared.quota) == Recorded(Run(steps).shared.records) <==> !SuccessLost(steps)
  {
    EveryTokenIsPlaced(steps);
    LossIsVisible(steps);
    NothingInFlight(Run(steps).calls);
  }

  /** The tokens one request loses when it is driven alone: those of successes whose append fails. */
  function DriveLost(sh: Shared, c: Call, w: World): int
    requires Sound(c)
    decreases Remaining(c).0, Remaining(c).1
  {
    if c.phase.Done? then 0
    else
      var (t, d) := Advance(sh, c, Next(c, w));
      (if c.phase.RecordingSuccess? && w.successAppends(c.phase.attempts).Some? then Recording(c) else 0)
        + DriveLost(t, d, w)
  }

  lemma {:induction false} DriveCharges(sh: Shared, c: Call, w: World)
    requires Agrees(sh.quota, c) && CallOk(c) && forall id :: id in sh.quota.reservations ==> id < sh.quota.next
    ensures Charge(Drive(sh, c, w).1) == Charge(c) - Recording(c) + DriveLost(sh, c, w)
    decreases Remaining(c).0, Remaining(c).1
  {
    if !c.phase.Done? {
      var t, d := DriveStep(sh, c, w);
      ChargeMoves(sh, c, Next(c, w));
      IdsStayBelow(sh.quota, c, t.quota, d);
      DriveCharges(t, d, w);
      assert DriveLost(sh, c, w) ==
             (if c.phase.RecordingSuccess? && w.successAppends(c.phase.attempts).Some? then Recording(c) else 0)
               + DriveLost(t, d, w);
    } else {
      DriveEnds(sh, c, w);
    }
  }

  lemma DriveEnds(sh: Shared, c: Call, w: World)
    requires c.phase.Done?
    ensures Drive(sh, c, w) == (sh, c)
  {}

  /**
   * A whole `complete` run alone, however the world answers: the outstanding reservations are exactly those
   * from before, and the tokens it used are those it recorded plus those of successes whose append failed.
   */
  lemma CompleteExplainsItsTokens(sh: Shared, input: Input, modelId: string, selection: Outcome<Capability, Fault>,
          policy: RuntimePolicy, w: World)
    requires Q.Accounted(sh.quota) && Start(input, modelId, selection, policy).Ok?
    ensures var c := Start(input, modelId, selection, policy).value;
            var t := Drive(sh, c, w).0;
            t.quota.reservations == sh.quota.reservations
            && Q.TotalUsed(t.quota) - Q.TotalUsed(sh.quota) == Recorded(t.records) - Recorded(sh.records)
               + DriveLost(sh, c, w)
  {
    CompleteGivesBack(sh, input, modelId, selection, policy, w);
    DriveCharges(sh, Start(input, modelId, selection, policy).value, w);
  }

  // ---------------------------------------------------------------- a run that loses tokens

  const ASKED := Input("x", "x", "x", None, [Message("user", "hi")], 1, 1, None, None)
  const MODEL := Capability("x", "x", 1, 1, Unpriced, Unpriced)
  const ONE_ATTEMPT := RuntimePolicy(1000, 1, 0)
  const ALLOWANCE := UsagePolicy("x", 2, 60000, "x", 1, 60000)
  const ANSWER := Completion("hi", "stop", Some(Usage(1, 1, 2)), true)
  const HELD := Q.Reservation(0, Q.WindowKey("x", 0), 2)

  /** One request, one valid answer, and a usage ledger that fails once: on the record of the success. */
  function LosingSteps(): seq<Step> {
    [Begin(ASKED, "x", Ok(MODEL), ONE_ATTEMPT),
     Deliver(0, PolicyAnswered(Some(ALLOWANCE), 0, 0)),
     Deliver(0, Answered(Returned(ANSWER))),
     Deliver(0, Appended(Some(OtherError))),
     Deliver(0, Appended(None))]
  }

  function Asked(phase: Phase, charged: Option<int>): Call {
    Call(ASKED, MODEL, ONE_ATTEMPT, phase, charged)
  }

  lemma XIsAnIdentifier()
    ensures BoundedIdentifier("x")
  {
    assert 'x' in "x" && !White('x');
  }

  lemma AskedIsValid()
    ensures Start(ASKED, "x", Ok(MODEL), ONE_ATTEMPT) == Ok(Asked(Resolving, None))
  {
    XIsAnIdentifier();
    var m := ASKED.messages[0];
    assert MessageValid(m) by { assert m.content == "hi" && m.content[0] == 'h' && m.content[1] == 'i'; }
    assert ASKED.messages[1..] == [];
    assert ContentLength(ASKED.messages) == |m.content| + ContentLength(ASKED.messages[1..]);
    assert RequestValid(ASKED, MODEL);
  }

  lemma AnswerIsValid()
    ensures CompletionValid(ANSWER, ASKED, MODEL, 2)
  {
    assert ANSWER.text[0] == 'h' && ANSWER.text[1] == 'i';
  }

  /** The quota ledger while the tokens are reserved, and after they are settled. */
  function Reserved(): Q.Quota {
    Q.Quota(map[Q.WindowKey("x", 0) := Q.Window(0, 2)], map[0 := HELD], 1)
  }

  function Settled(): Q.Quota {
    Q.Quota(map[Q.WindowKey("x", 0) := Q.Window(2, 0)], map[], 1)
  }

  const LIMITED: map<string, Bucket> := map["x" := Bucket(1, 60000)]

  /** The first reservation of an empty ledger. */
  lemma ReservedFirst(d: Q.Demand, now: int)
    requires Q.Valid(d) && d.requested <= d.cap
    ensures var w := Q.WindowAt(d, now);
            var r := Q.Reservation(0, w, d.requested);
            Q.Reserve(Q.EMPTY, d, now) == (Q.Quota(map[w := Q.Window(0, d.requested)], map[0 := r], 1), Ok(r))
  {
    var w := Q.WindowAt(d, now);
    var none: map<Q.WindowKey, Q.Window> := map[];
    var nobody: map<nat, Q.Reservation> := map[];
    assert none[w := Q.Window(0, d.requested)] == map[w := Q.Window(0, d.requested)];
    assert nobody[0 := Q.Reservation(0, w, d.requested)] == map[0 := Q.Reservation(0, w, d.requested)];
  }

  lemma FirstWindow(d: Q.Demand)
    requires d.windowMs > 0
    ensures Q.WindowAt(d, 0) == Q.WindowKey(d.quotaKey, 0)
  {}

  lemma ReservedOnce()
    ensures Q.Reserve(Q.EMPTY, Q.Demand("x", 2, 2, 60000), 0) == (Reserved(), Ok(HELD))
  {
    ReservedFirst(Q.Demand("x", 2, 2, 60000), 0);
    FirstWindow(Q.Demand("x", 2, 2, 60000));
  }

  lemma LimitedOnce()
    ensures Consume(INITIAL.shared.limiter, "x", 1, 60000, 0) == (LIMITED, true)
  {
    var none: map<string, Bucket> := map[];
    assert none["x" := Bucket(1, 60000)] == LIMITED;
  }

  lemma AdmittedOnce()
    ensures Advance(INITIAL.shared, Asked(Resolving, None), PolicyAnswered(Some(ALLOWANCE), 0, 0))
            == (Shared(Reserved(), LIMITED, []), Asked(Calling(HELD, 1), None))
  {
    ReservedOnce();
    LimitedOnce();
    assert UsagePolicyValid(ALLOWANCE);
    assert DemandOf(Asked(Resolving, None), ALLOWANCE) == Q.Demand("x", 2, 2, 60000);
  }

  lemma SettledOnce(sh: Shared)
    requires sh.quota == Reserved()
    ensures Advance(sh, Asked(Calling(HELD, 1), None), Answered(Returned(ANSWER)))
            == (sh.(quota := Settled()), Asked(RecordingSuccess(HELD, 1, ANSWER, None), Some(2)))
  {
    AnswerIsValid();
    var w := Q.WindowKey("x", 0);
    assert map[0 := HELD] - {0} == map[];
    assert map[w := Q.Window(0, 2)][w := Q.Window(2, 0)] == map[w := Q.Window(2, 0)];
    assert Q.Settle(Reserved(), 0, 2) == (Settled(), Ok(()));
  }

  lemma LostThenFailed(sh: Shared)
    requires sh.quota == Settled()
    ensures var c := Asked(RecordingSuccess(HELD, 1, ANSWER, None), Some(2));
            var d := Asked(RecordingFailure(1, ProviderFailed), Some(2));
            Advance(sh, c, Appended(Some(OtherError))) == (sh, d)
            && Advance(sh, d, Appended(None)).1.phase.Done?
            && Advance(sh, d, Appended(None)).0.records ==
               sh.records + [RecordOf(d, 1, Failed, NO_USAGE, None, Some(CodeName(ProviderFailed)))]
  {}

  lemma Front<T>(xs: seq<T>, x: T)
    ensures (xs + [x])[..|xs|] == xs && (xs + [x])[|xs|] == x
  {}

  /** One more step at the end of a run. */
  lemma RunOn(steps: seq<Step>, step: Step)
    ensures Run(steps + [step]) == Apply(Run(steps), step)
    ensures TokensLost(steps + [step]) == TokensLost(steps) + TokensAt(Run(steps), step)
  {
    Front(steps, step);
  }

  function After(n: nat): Sys {
    if n == 0 then INITIAL
    else if n == 1 then Sys(INITIAL.shared, [Asked(Resolving, None)])
    else if n == 2 then Sys(Shared(Reserved(), LIMITED, []), [Asked(Calling(HELD, 1), None)])
    else if n == 3 then Sys(Shared(Settled(), LIMITED, []), [Asked(RecordingSuccess(HELD, 1, ANSWER, None), Some(2))])
    else Sys(Shared(Settled(), LIMITED, []), [Asked(RecordingFailure(1, ProviderFailed), Some(2))])
  }

  lemma DeliverOnce(c: Call, sh: Shared, e: Event, t: Shared, d: Call)
    requires Advance(sh, c, e) == (t, d)
    ensures Apply(Sys(sh, [c]), Deliver(0, e)) == Sys(t, [d])
  {
    assert [c][0 := d] == [d];
  }

  lemma EachStep(n: nat)
    requires n < 4
    ensures Apply(After(n), LosingSteps()[n]) == After(n + 1)
  {
    if n == 0 { BegunOnce(); }
    else if n == 1 { AdmittedStep(); }
    else if n == 2 { SettledStep(); }
    else { LostStep(); }
  }

  lemma BegunOnce()
    ensures Apply(INITIAL, LosingSteps()[0]) == After(1)
  {
    AskedIsValid();
    assert INITIAL.calls + [Asked(Resolving, None)] == [Asked(Resolving, None)];
  }

  lemma AdmittedStep()
    ensures Apply(After(1), LosingSteps()[1]) == After(2)
  {
    AdmittedOnce();
    DeliverOnce(Asked(Resolving, None), INITIAL.shared, PolicyAnswered(Some(ALLOWANCE), 0, 0),
                Shared(Reserved(), LIMITED, []), Asked(Calling(HELD, 1), None));
  }

  lemma SettledStep()
    ensures Apply(After(2), LosingSteps()[2]) == After(3)
  {
    var sh := Shared(Reserved(), LIMITED, []);
    SettledOnce(sh);
    DeliverOnce(Asked(Calling(HELD, 1), None), sh, Answered(Returned(ANSWER)), sh.(quota := Settled()),
                Asked(RecordingSuccess(HELD, 1, ANSWER, None), Some(2)));
  }

  lemma LostStep()
    ensures Apply(After(3), LosingSteps()[3]) == After(4)
  {
    var sh := Shared(Settled(), LIMITED, []);
    LostThenFailed(sh);
    DeliverOnce(Asked(RecordingSuccess(HELD, 1, ANSWER, None), Some(2)), sh, Appended(Some(OtherError)), sh,
                Asked(RecordingFailure(1, ProviderFailed), Some(2)));
  }

  lemma {:induction false} LosingRun(n: nat)
    requires n <= 4
    ensures Run(LosingSteps()[..n]) == After(n)
    ensures TokensLost(LosingSteps()[..n]) == if n == 4 then 2 else 0
  {
    var steps := LosingSteps();
    if n > 0 {
      LosingRun(n - 1);
      EachStep(n - 1);
      RunOn(steps[..n - 1], steps[n - 1]);
      assert steps[..n] == steps[..n - 1] + [steps[n - 1]];
      LostAt(n - 1);
    }
  }

  lemma LostAt(n: nat)
    requires n < 4
    ensures TokensAt(After(n), LosingSteps()[n]) == if n == 3 then 2 else 0
  {}

  /**
   * The ledgers can differ: two tokens are used and settled, the record of the success is lost, and the only
   * record the request leaves says that it failed and used none.
   */
  lemma SettledTokensCanGoUnrecorded()
    ensures var s := Run(LosingSteps());
            AllDone(s) && SuccessLost(LosingSteps()) && Q.TotalUsed(s.shared.quota) == 2
            && |s.shared.records| == 1 && s.shared.records[0].status == Failed && Recorded(s.shared.records) == 0
  {
    var steps := LosingSteps();
    var s := Run(steps);
    LosingRun(4);
    RunOn(steps[..4], steps[4]);
    assert steps == steps[..4] + [steps[4]];
    LostThenFailed(After(4).shared);
    assert s == Apply(After(4), steps[4]);
    OnlyAFailure(s);
    EveryTokenIsPlaced(steps);
    NothingInFlight(s.calls);
    LossIsVisible(steps);
  }

  lemma OnlyAFailure(s: Sys)
    requires |s.shared.records| == 1 && s.shared.records[0].status == Failed
    ensures Recorded(s.shared.records) == 0
  {
    assert s.shared.records[..0] == [];
  }
}
