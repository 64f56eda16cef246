/**
 * Which activities earn progress, and what joining, leaving and recording leave behind, in every state the service
 * reaches and in the columns of the records alone.
 */
module ChallengeOutcomes {
  import opened Common
  import opened Challenges
  import opened ChallengeRuns

  // ---------------------------------------------------------------- recording

  predicate LetterOrDigit(c: char) {
    ('0' <= c && c <= '9') || ('A' <= c && c <= 'Z') || ('a' <= c && c <= 'z')
  }

  /** A source of up to 200 characters that starts with a letter or digit, and between 1 and 1000 units. */
  predicate WellFormed(e: Evidence) {
    1 <= e.units <= 1000 && 0 < |e.source| <= 200 && LetterOrDigit(e.source[0])
    && forall i :: 0 <= i < |e.source| ==> LetterOrDigit(e.source[i]) || e.source[i] in "._:/-"
  }

  /** Joined, or done; whoever left takes no part. */
  predicate TakesPart(s: State, k: nat, user: nat) {
    Member(k, user) in s.members && s.members[Member(k, user)].status != Left
  }

  /** Somebody's activity is already recorded for the challenge under this kind and source. */
  predicate Claimed(s: State, k: nat, e: Evidence) {
    ReplayKey(k, e.activity, e.source) in s.events
  }

  predicate ClaimedBy(s: State, k: nat, user: nat, e: Evidence) {
    Claimed(s, k, e) && s.events[ReplayKey(k, e.activity, e.source)].user == user
  }

  /** This very activity is already recorded, for this user. */
  predicate Counted(s: State, k: nat, user: nat, e: Evidence) {
    ClaimedBy(s, k, user, e) && s.events[ReplayKey(k, e.activity, e.source)].evidence == e
  }

  /** An eligible activity within the window of a challenge that is running, whose member is not done yet. */
  predicate Earns(s: State, k: nat, user: nat, active: bool, e: Evidence, now: int) {
    active && k in s.challenges && TakesPart(s, k, user) && s.members[Member(k, user)].status == Joined
    && WellFormed(e) && !Claimed(s, k, e)
    && var c := s.challenges[k];
       c.status == Active && c.startAt <= e.occurredAt <= now && now < c.endAt && e.activity in c.eligible
  }

  /** The row of a member who earned these units: done from the moment the target is reached. */
  function Advanced(p: Participation, units: int, target: int, now: int): Participation {
    if p.progress + units < target then Participation(p.status, p.joinedAt, p.leftAt, p.completedAt, p.progress + units)
    else Participation(Completed, p.joinedAt, p.leftAt, Some(now), p.progress + units)
  }

  predicate Credits(s: State, t: State, k: nat, user: nat, e: Evidence, now: int)
    requires k in s.challenges && Member(k, user) in s.members
  {
    var m, key, c := Member(k, user), ReplayKey(k, e.activity, e.source), s.challenges[k];
    t.challenges == s.challenges
    && t.members == s.members[m := Advanced(s.members[m], e.units, c.target, now)]
    && t.events == s.events[key := Event(k, user, e, Fingerprint(k, user, e, c.ruleVersion), now)]
    && t.sources == s.sources[SourceKey(k, user, e.activity, e.source) := key]
  }

  lemma FormIsIdentifiable(e: Evidence)
    ensures WellFormed(e) <==> Identifiable(e)
  {
    if Identifiable(e) {
      forall i | 0 <= i < |e.source| ensures LetterOrDigit(e.source[i]) || e.source[i] in "._:/-" {
        assert e.source[i] in e.source;
      }
    }
  }

  /** In a state the service reaches, the fingerprint is the user and the evidence and nothing else. */
  lemma PrintIsClaim(s: State, k: nat, user: nat, e: Evidence)
    requires Served(s) && k in s.challenges && Claimed(s, k, e)
    ensures var found := s.events[ReplayKey(k, e.activity, e.source)];
            found.challenge == k
            && (found.fingerprint == PrintOf(k, s.challenges[k], user, e) <==> Counted(s, k, user, e))
            && (Counted(s, k, user, e) ==>
                  WellFormed(e) && s.challenges[k].startAt <= e.occurredAt < s.challenges[k].endAt
                  && e.activity in s.challenges[k].eligible)
  {
    assert EventOk(s, ReplayKey(k, e.activity, e.source));
    FormIsIdentifiable(e);
  }

  lemma UnclaimedHasNoSource(s: State, k: nat, user: nat, e: Evidence)
    requires Served(s) && !Claimed(s, k, e)
    ensures SourceKey(k, user, e.activity, e.source) !in s.sources
  {
    assert SourceOk(s, SourceKey(k, user, e.activity, e.source));
  }

  /** Sent again, it is answered as before unless the clock was set back before the activity itself. */
  predicate Replays(s: State, k: nat, user: nat, active: bool, e: Evidence, now: int) {
    active && k in s.challenges && TakesPart(s, k, user) && Counted(s, k, user, e)
    && (s.challenges[k].status != Active || e.occurredAt <= now)
  }

  /** Why nothing is recorded: the first of these that applies. */
  function Complaint(s: State, k: nat, user: nat, active: bool, e: Evidence, now: int): Failure {
    if !active then ActorInvalid
    else if k !in s.challenges then NotFound
    else if !TakesPart(s, k, user) then NotJoined
    else
      var c := s.challenges[k];
      var closed := c.status != Active || now >= c.endAt || e.occurredAt >= c.endAt;
      if !WellFormed(e) then ActivityInvalid
      else if closed && ClaimedBy(s, k, user, e) then ReplayConflict
      else if c.status != Active then NotActive
      else if now < e.occurredAt then InFuture
      else if closed then Expired
      else if e.occurredAt < c.startAt || e.activity !in c.eligible then NotEligible
      else if Claimed(s, k, e) then ReplayConflict
      else AlreadyCompleted
  }

  lemma RecordsIn(s: State, k: nat, user: nat, active: bool, e: Evidence, now: int)
    requires Served(s)
    ensures var (t, r) := RecordActivity(s, k, user, active, e, now);
            if Earns(s, k, user, active, e, now) then r == Ok(false) && Credits(s, t, k, user, e, now)
            else if Replays(s, k, user, active, e, now) then r == Ok(true) && t == s
            else r == Refused(Complaint(s, k, user, active, e, now)) && t == s
  {
    FormIsIdentifiable(e);
    if k in s.challenges {
      if Claimed(s, k, e) { PrintIsClaim(s, k, user, e); } else { UnclaimedHasNoSource(s, k, user, e); }
    }
  }

  /**
   * Through the service an activity earns its units exactly once and exactly within the window; sent again it is
   * answered as before, and whatever else is sent is refused for the first reason that applies and changes nothing.
   */
  lemma {:induction false} RecordsExactly(steps: seq<Step>, k: nat, user: nat, active: bool, e: Evidence, now: int)
    requires ThroughService(steps)
    ensures var s := Run(INITIAL, steps);
            var (t, r) := RecordActivity(s, k, user, active, e, now);
            if Earns(s, k, user, active, e, now) then r == Ok(false) && Credits(s, t, k, user, e, now)
            else if Replays(s, k, user, active, e, now) then r == Ok(true) && t == s
            else r == Refused(Complaint(s, k, user, active, e, now)) && t == s
  {
    ServedRun(INITIAL, steps);
    RecordsIn(Run(INITIAL, steps), k, user, active, e, now);
  }

  // ---------------------------------------------------------------- joining and leaving

  /** A challenge is joined while it is running, from nothing or with what was earned before leaving. */
  lemma {:induction false} JoinsExactly(steps: seq<Step>, k: nat, user: nat, active: bool, now: int)
    ensures var s, m := Run(INITIAL, steps), Member(k, user);
            var (t, r) := JoinChallenge(s, k, user, active, now);
            if !active then r == Refused(ActorInvalid) && t == s
            else if k !in s.challenges then r == Refused(NotFound) && t == s
            else if s.challenges[k].status != Active then r == Refused(NotAvailable) && t == s
            else if s.challenges[k].endAt <= now then r == Refused(Expired) && t == s
            else if TakesPart(s, k, user) then r == Ok(true) && t == s
            else
              r == Ok(false) && t.challenges == s.challenges && t.events == s.events && t.sources == s.sources
              && t.members == s.members[m := Participation(Joined, now, None, None, Earned(s, m))]
  {
    var s, m := Run(INITIAL, steps), Member(k, user);
    InitialHolds();
    RunKeeps(INITIAL, steps);
    assert MemberOk(s, m);
  }

  /** Whoever takes part may leave, until done; what was earned stays. */
  lemma {:induction false} LeavesExactly(steps: seq<Step>, k: nat, user: nat, active: bool, now: int)
    ensures var s, m := Run(INITIAL, steps), Member(k, user);
            var (t, r) := LeaveChallenge(s, k, user, active, now);
            if !active then r == Refused(ActorInvalid) && t == s
            else if k !in s.challenges then r == Refused(NotFound) && t == s
            else if m !in s.members then r == Refused(NotJoined) && t == s
            else if s.members[m].progress >= s.challenges[k].target then r == Ok(()) && t == s
            else
              r == Ok(()) && t.challenges == s.challenges && t.events == s.events && t.sources == s.sources
              && t.members == s.members[m := Participation(Left, s.members[m].joinedAt, Some(now), None, Earned(s, m))]
  {
    var s, m := Run(INITIAL, steps), Member(k, user);
    InitialHolds();
    RunKeeps(INITIAL, steps);
    assert MemberOk(s, m);
  }
}
