/** Progress accounting over every run of challenge operations. */
module ChallengeRuns {
  import opened Common
  import opened Sums
  import opened Challenges

  datatype Step =
    | DoCreate(challenge: nat, record: Challenge)
    | DoSetStatus(challenge: nat, status: ChallengeStatus)
    | DoJoin(challenge: nat, user: nat, active: bool, now: int)
    | DoLeave(challenge: nat, user: nat, active: bool, now: int)
    | DoRecord(challenge: nat, user: nat, active: bool, evidence: Evidence, now: int)
    | DoAppend(entry: Entry)

  const INITIAL := State(map[], map[], map[], map[])

  predicate Definable(c: Challenge) {
    1 <= c.target <= MAX_GOAL_TARGET && c.startAt < c.endAt && c.eligible != {}
  }

  function Apply(s: State, step: Step): State {
    match step
    case DoCreate(k, c) => if k in s.challenges || !Definable(c) then s else s.(challenges := s.challenges[k := c])
    case DoSetStatus(k, status) =>
      if k !in s.challenges then s else s.(challenges := s.challenges[k := s.challenges[k].(status := status)])
    case DoJoin(k, user, active, now) => JoinChallenge(s, k, user, active, now).0
    case DoLeave(k, user, active, now) => LeaveChallenge(s, k, user, active, now).0
    case DoRecord(k, user, active, e, now) => RecordActivity(s, k, user, active, e, now).0
    case DoAppend(entry) => Append(s, entry).0
  }

  function Run(s: State, steps: seq<Step>): State
    decreases |steps|
  {
    if steps == [] then s else Run(Apply(s, steps[0]), steps[1..])
  }

  // ---------------------------------------------------------------- what every run keeps

  ghost function UnitsFor(s: State, m: Member): ReplayKey -> int {
    k => if k in s.events && Member(s.events[k].challenge, s.events[k].user) == m then s.events[k].evidence.units else 0
  }

  ghost function Earned(s: State, m: Member): int {
    Sum(s.events.Keys, UnitsFor(s, m))
  }

  predicate Standing(p: Participation, target: int) {
    (p.status == Completed <==> p.progress >= target) && (p.status == Completed <==> p.completedAt.Some?)
  }

  ghost predicate MemberOk(s: State, m: Member) {
    if m in s.members then
      m.challenge in s.challenges && s.members[m].progress == Earned(s, m)
      && Standing(s.members[m], s.challenges[m.challenge].target)
    else Earned(s, m) == 0
  }

  ghost predicate Core(s: State) {
    (forall k :: k in s.challenges ==> s.challenges[k].target >= 1)
    && forall m :: MemberOk(s, m)
  }

  lemma EarnedMoves(s: State, t: State, k: ReplayKey, m: Member)
    requires k !in s.events && k in t.events && t.events == s.events[k := t.events[k]]
    ensures Earned(t, m) == Earned(s, m)
            + (if Member(t.events[k].challenge, t.events[k].user) == m then t.events[k].evidence.units else 0)
  {
    assert t.events.Keys == s.events.Keys + {k};
    SumAdd(s.events.Keys, k, UnitsFor(t, m));
    SumSame(s.events.Keys, UnitsFor(s, m), UnitsFor(t, m));
  }

  lemma SameEarned(s: State, t: State, m: Member)
    requires t.events == s.events
    ensures Earned(t, m) == Earned(s, m)
  {
    SumSame(s.events.Keys, UnitsFor(s, m), UnitsFor(t, m));
  }

  lemma AppendKeeps(s: State, e: Entry)
    requires Core(s)
    ensures Core(Append(s, e).0)
  {
    var t := Append(s, e).0;
    if Append(s, e).1 == Ok(false) {
      forall m ensures MemberOk(t, m) {
        assert MemberOk(s, m);
        EarnedMoves(s, t, e.key, m);
      }
    }
  }

  /** No event is added; participations keep what they earned, and new ones start from nothing. */
  predicate Quiet(s: State, t: State) {
    t.events == s.events && s.members.Keys <= t.members.Keys
    && (forall k :: k in s.challenges ==> k in t.challenges && t.challenges[k].target == s.challenges[k].target)
    && (forall k :: k in t.challenges ==> t.challenges[k].target >= 1)
    && (forall m :: m in s.members ==>
          t.members[m].progress == s.members[m].progress && t.members[m].completedAt == s.members[m].completedAt
          && (t.members[m].status == Completed <==> s.members[m].status == Completed))
    && forall m :: m in t.members && m !in s.members ==>
         m.challenge in t.challenges && t.members[m].progress == 0 && t.members[m].status == Joined
           && t.members[m].completedAt == None
  }

  predicate Terms(s: State, t: State) {
    t.sources == s.sources
    && forall k :: k in s.challenges ==>
         k in t.challenges && t.challenges[k] == s.challenges[k].(status := t.challenges[k].status)
  }

  lemma SetupIsQuiet(s: State, step: Step)
    requires (step.DoCreate? || step.DoSetStatus?) && forall k :: k in s.challenges ==> s.challenges[k].target >= 1
    ensures Quiet(s, Apply(s, step)) && Terms(s, Apply(s, step))
  {}

  lemma JoinIsQuiet(s: State, step: Step)
    requires step.DoJoin? && forall k :: k in s.challenges ==> s.challenges[k].target >= 1
    ensures Quiet(s, Apply(s, step)) && Terms(s, Apply(s, step))
  {}

  lemma LeaveIsQuiet(s: State, step: Step)
    requires step.DoLeave? && forall k :: k in s.challenges ==> s.challenges[k].target >= 1
    ensures Quiet(s, Apply(s, step)) && Terms(s, Apply(s, step))
  {}

  lemma IsQuiet(s: State, step: Step)
    requires !step.DoRecord? && !step.DoAppend? && forall k :: k in s.challenges ==> s.challenges[k].target >= 1
    ensures Quiet(s, Apply(s, step)) && Terms(s, Apply(s, step))
  {
    if step.DoJoin? { JoinIsQuiet(s, step); }
    else if step.DoLeave? { LeaveIsQuiet(s, step); }
    else { SetupIsQuiet(s, step); }
  }

  lemma QuietKeeps(s: State, t: State)
    requires Core(s) && Quiet(s, t)
    ensures Core(t)
  {
    forall m ensures MemberOk(t, m) {
      assert MemberOk(s, m);
      SameEarned(s, t, m);
    }
  }

  lemma ApplyKeeps(s: State, step: Step)
    requires Core(s)
    ensures Core(Apply(s, step))
  {
    if step.DoAppend? {
      AppendKeeps(s, step.entry);
    } else if step.DoRecord? {
      if step.challenge in s.challenges {
        AppendKeeps(s, EntryFor(s.challenges[step.challenge], step.challenge, step.user, step.evidence, step.now));
      }
    } else {
      IsQuiet(s, step);
      QuietKeeps(s, Apply(s, step));
    }
  }

  lemma {:induction false} RunKeeps(s: State, steps: seq<Step>)
    requires Core(s)
    ensures Core(Run(s, steps))
    decreases |steps|
  {
    if steps != [] {
      ApplyKeeps(s, steps[0]);
      RunKeeps(Apply(s, steps[0]), steps[1..]);
    }
  }

  lemma InitialHolds()
    ensures Core(INITIAL)
  {
    forall m ensures MemberOk(INITIAL, m) {}
  }

  // ---------------------------------------------------------------- what runs through the service keep as well

  predicate ThroughService(steps: seq<Step>) {
    forall step :: step in steps ==> !step.DoAppend?
  }

  /** An event is what the service recorded: its own key and fingerprint, earned within the challenge's window. */
  predicate EventOk(s: State, k: ReplayKey) {
    k in s.events
    && var e := s.events[k];
       e.challenge in s.challenges
       && var c := s.challenges[e.challenge];
          k == KeyOf(e.challenge, e.evidence) && e.fingerprint == PrintOf(e.challenge, c, e.user, e.evidence)
          && Identifiable(e.evidence) && c.startAt <= e.evidence.occurredAt < c.endAt
             && e.evidence.activity in c.eligible
          && Member(e.challenge, e.user) in s.members
  }

  /** The second uniqueness index says nothing the first does not. */
  predicate SourceOk(s: State, x: SourceKey) {
    var k := ReplayKey(x.challenge, x.activity, x.source);
    x in s.sources <==> k in s.events && s.events[k].user == x.user && s.events[k].challenge == x.challenge
  }

  predicate BoundOk(s: State, m: Member) {
    m in s.members && m.challenge in s.challenges
    && s.members[m].progress <= s.challenges[m.challenge].target + MAX_ACTIVITY_UNITS - 1
    && (s.members[m].status != Completed ==> s.members[m].progress < s.challenges[m.challenge].target)
  }

  ghost predicate Served(s: State) {
    (forall k :: k in s.challenges ==> s.challenges[k].target >= 1)
    && (forall k :: k in s.events ==> EventOk(s, k))
    && (forall x :: SourceOk(s, x))
    && forall m :: m in s.members ==> BoundOk(s, m)
  }

  lemma ServedAppend(s: State, c: Challenge, k: nat, user: nat, e: Evidence, now: int)
    requires Served(s) && k in s.challenges && c == s.challenges[k] && Ineligible(c, e, now).None?
    ensures Served(Append(s, EntryFor(c, k, user, e, now)).0)
  {
    var entry := EntryFor(c, k, user, e, now);
    var t := Append(s, entry).0;
    if t != s {
      forall j | j in t.events ensures EventOk(t, j) { if j != entry.key { assert EventOk(s, j); } }
      forall x ensures SourceOk(t, x) { assert SourceOk(s, x); }
    }
  }

  lemma ServedApply(s: State, step: Step)
    requires Served(s) && !step.DoAppend?
    ensures Served(Apply(s, step))
  {
    if step.DoRecord? {
      var k := step.challenge;
      if k in s.challenges && Ineligible(s.challenges[k], step.evidence, step.now).None? {
        ServedAppend(s, s.challenges[k], k, step.user, step.evidence, step.now);
      }
    } else {
      IsQuiet(s, step);
      ServedQuietly(s, Apply(s, step));
    }
  }

  lemma ServedQuietly(s: State, t: State)
    requires Served(s) && Quiet(s, t) && Terms(s, t)
    ensures Served(t)
  {
    forall j | j in t.events ensures EventOk(t, j) { assert EventOk(s, j); }
    forall x ensures SourceOk(t, x) { assert SourceOk(s, x); }
    forall m | m in t.members ensures BoundOk(t, m) { if m in s.members { assert BoundOk(s, m); } }
  }

  lemma {:induction false} ServedRun(s: State, steps: seq<Step>)
    requires Served(s) && ThroughService(steps)
    ensures Served(Run(s, steps))
    decreases |steps|
  {
    if steps != [] {
      assert steps[0] in steps;
      ServedApply(s, steps[0]);
      ServedRun(Apply(s, steps[0]), steps[1..]);
    }
  }

  // ---------------------------------------------------------------- the theorems

  /** In every run, even one that appends to the repository directly with any units and keys. */
  lemma ProgressIsEarned(steps: seq<Step>, m: Member)
    requires m in Run(INITIAL, steps).members
    ensures var s := Run(INITIAL, steps);
            m.challenge in s.challenges && s.members[m].progress == Earned(s, m)
            && (s.members[m].status == Completed <==> s.members[m].progress >= s.challenges[m.challenge].target)
            && (s.members[m].status == Completed <==> s.members[m].completedAt.Some?)
  {
    InitialHolds();
    RunKeeps(INITIAL, steps);
    assert MemberOk(Run(INITIAL, steps), m);
  }

  /** Through the service, progress overshoots the target by less than one activity's units. */
  lemma ProgressIsBounded(steps: seq<Step>, m: Member)
    requires ThroughService(steps) && m in Run(INITIAL, steps).members
    ensures var s := Run(INITIAL, steps);
            m.challenge in s.challenges
              && s.members[m].progress <= s.challenges[m.challenge].target + MAX_ACTIVITY_UNITS - 1
  {
    ServedRun(INITIAL, steps);
  }

  /** A completed participation never changes again. */
  lemma {:induction false} CompletionIsPermanent(s: State, steps: seq<Step>, m: Member)
    requires m in s.members && s.members[m].status == Completed
    ensures m in Run(s, steps).members && Run(s, steps).members[m] == s.members[m]
    decreases |steps|
  {
    if steps != [] {
      CompletionIsPermanent(Apply(s, steps[0]), steps[1..], m);
    }
  }

  /** Recorded events are never changed or removed, nor the terms they were recorded under. */
  lemma {:induction false} EventsStay(s: State, steps: seq<Step>, k: ReplayKey)
    requires k in s.events
    ensures k in Run(s, steps).events && Run(s, steps).events[k] == s.events[k]
    decreases |steps|
  {
    if steps != [] { EventsStay(Apply(s, steps[0]), steps[1..], k); }
  }

  lemma {:induction false} TermsStay(s: State, steps: seq<Step>, k: nat)
    requires k in s.challenges
    ensures var t := Run(s, steps);
            k in t.challenges && t.challenges[k] == s.challenges[k].(status := t.challenges[k].status)
    decreases |steps|
  {
    if steps != [] { TermsStay(Apply(s, steps[0]), steps[1..], k); }
  }

  /**
   * Exactly once: an accepted activity sent again unchanged, after any further service calls, by a user who
   * is active and has not left, is a replay that changes nothing, whether the challenge is running, over,
   * cancelled or completed. The one exception is a clock set back before the activity itself.
   */
  lemma ResubmissionReplays(first: seq<Step>, k: nat, user: nat, e: Evidence, now: int, between: seq<Step>, later: int)
    requires ThroughService(first) && ThroughService(between)
    requires RecordActivity(Run(INITIAL, first), k, user, true, e, now).1 == Ok(false)
    requires var s := Run(RecordActivity(Run(INITIAL, first), k, user, true, e, now).0, between);
             Member(k, user) in s.members && s.members[Member(k, user)].status != Left
    ensures var s := Run(RecordActivity(Run(INITIAL, first), k, user, true, e, now).0, between);
            var (t, r) := RecordActivity(s, k, user, true, e, later);
            t == s
            && (r == Ok(true) <==> k in s.challenges && (s.challenges[k].status != Active || e.occurredAt <= later))
  {
    var a := Run(INITIAL, first);
    ServedRun(INITIAL, first);
    var b := RecordActivity(a, k, user, true, e, now).0;
    var s := Run(b, between);
    EventsStay(b, between, KeyOf(k, e));
    TermsStay(b, between, k);
  }

  /** A submission that conflicts with a recorded event never changes anything. */
  lemma ConflictChangesNothing(s: State, k: nat, user: nat, active: bool, e: Evidence, now: int)
    requires KeyOf(k, e) in s.events && k in s.challenges
    requires s.events[KeyOf(k, e)].fingerprint != PrintOf(k, s.challenges[k], user, e)
    ensures RecordActivity(s, k, user, active, e, now).0 == s
    ensures RecordActivity(s, k, user, active, e, now).1.Refused?
  {}

  /** Through the service the second uniqueness index can never refuse what the first let pass. */
  lemma SourceIndexIsRedundant(steps: seq<Step>, k: nat, user: nat, e: Evidence, now: int)
    requires ThroughService(steps) && k in Run(INITIAL, steps).challenges
    ensures var s := Run(INITIAL, steps);
            var entry := EntryFor(s.challenges[k], k, user, e, now);
            entry.key !in s.events ==> SourceOf(entry) !in s.sources
  {
    ServedRun(INITIAL, steps);
    var s := Run(INITIAL, steps);
    assert SourceOk(s, SourceOf(EntryFor(s.challenges[k], k, user, e, now)));
  }
}
