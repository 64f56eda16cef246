/** Challenges: joining, leaving, and progress from trusted activities with idempotent replay. */
module Challenges {
  import opened Common

  const MAX_ACTIVITY_UNITS := 1000
  const MAX_GOAL_TARGET := 1000000
  const MAX_SOURCE_LENGTH := 200

  datatype Activity = SpeakingRoomAttendance | PracticeCompleted | VocabularyMilestone | CommunityContribution
  datatype ChallengeStatus = Draft | Active | Cancelled
  datatype Challenge = Challenge(status: ChallengeStatus, startAt: int, endAt: int, target: int,
          eligible: set<Activity>, ruleVersion: string)

  datatype ParticipationStatus = Joined | Left | Completed
  datatype Participation = Participation(status: ParticipationStatus, joinedAt: int, leftAt: Option<int>,
          completedAt: Option<int>, progress: int)
  datatype Member = Member(challenge: nat, user: nat)

  datatype Evidence = Evidence(activity: Activity, source: string, units: int, occurredAt: int)

  /** The replay key names the challenge and the activity, not the user. */
  datatype ReplayKey = ReplayKey(challenge: nat, activity: Activity, source: string)
  datatype SourceKey = SourceKey(challenge: nat, user: nat, activity: Activity, source: string)
  datatype Fingerprint = Fingerprint(challenge: nat, user: nat, evidence: Evidence, ruleVersion: string)
  datatype Event = Event(challenge: nat, user: nat, evidence: Evidence, fingerprint: Fingerprint, createdAt: int)

  datatype State = State(challenges: map<nat, Challenge>, members: map<Member, Participation>,
                         events: map<ReplayKey, Event>, sources: map<SourceKey, ReplayKey>)

  datatype Failure =
    | ActorInvalid | NotFound | NotAvailable | Expired | NotJoined | ActivityInvalid | NotActive | InFuture
    | NotEligible | ReplayConflict | AlreadyCompleted

  // ---------------------------------------------------------------- rules

  predicate Alphanumeric(c: char) {
    'a' <= c <= 'z' || 'A' <= c <= 'Z' || '0' <= c <= '9'
  }

  predicate SourceValid(s: string) {
    1 <= |s| <= MAX_SOURCE_LENGTH && Alphanumeric(s[0])
    && forall c :: c in s ==> Alphanumeric(c) || c in {'.', '_', ':', '/', '-'}
  }

  predicate Identifiable(e: Evidence) {
    SourceValid(e.source) && 1 <= e.units <= MAX_ACTIVITY_UNITS
  }

  function KeyOf(challenge: nat, e: Evidence): ReplayKey {
    ReplayKey(challenge, e.activity, e.source)
  }

  function PrintOf(challenge: nat, c: Challenge, user: nat, e: Evidence): Fingerprint {
    Fingerprint(challenge, user, e, c.ruleVersion)
  }

  /** Why an activity earns nothing now, or `None` when it does. */
  function Ineligible(c: Challenge, e: Evidence, now: int): Option<Failure> {
    if !Identifiable(e) then Some(ActivityInvalid)
    else if c.status != Active then Some(NotActive)
    else if e.occurredAt > now then Some(InFuture)
    else if now >= c.endAt || e.occurredAt >= c.endAt then Some(Expired)
    else if e.occurredAt < c.startAt || e.activity !in c.eligible then Some(NotEligible)
    else None
  }

  // ---------------------------------------------------------------- repository

  function Rejoin(p: Participation, now: int): Participation {
    p.(status := Joined, joinedAt := now, leftAt := None)
  }

  /** The boolean says whether the member had already joined. */
  function Join(s: State, m: Member, now: int): (State, Outcome<bool, Failure>) {
    if m.challenge !in s.challenges then (s, Refused(NotFound))
    else if m in s.members && s.members[m].status != Left then (s, Ok(true))
    else
      (s.(members := s.members[m := if m in s.members then Rejoin(s.members[m], now)
                                    else Participation(Joined, now, None, None, 0)]),
       Ok(false))
  }

  function Leave(s: State, m: Member, now: int): (State, Outcome<(), Failure>) {
    if m !in s.members then (s, Refused(NotFound))
    else if s.members[m].status == Completed then (s, Ok(()))
    else (s.(members := s.members[m := s.members[m].(status := Left, leftAt := Some(now))]), Ok(()))
  }

  datatype Entry = Entry(challenge: nat, user: nat, evidence: Evidence, key: ReplayKey, fingerprint: Fingerprint,
          createdAt: int)

  function MemberOf(e: Entry): Member {
    Member(e.challenge, e.user)
  }

  function SourceOf(e: Entry): SourceKey {
    SourceKey(e.challenge, e.user, e.evidence.activity, e.evidence.source)
  }

  function Credited(p: Participation, target: int, units: int, now: int): Participation {
    var progress := p.progress + units;
    if progress >= target then p.(progress := progress, status := Completed, completedAt := Some(now))
    else p.(progress := progress)
  }

  /** The boolean says whether the entry was a replay. */
  function Append(s: State, e: Entry): (State, Outcome<bool, Failure>) {
    var m := MemberOf(e);
    if e.challenge !in s.challenges || m !in s.members then (s, Refused(NotFound))
    else if e.key in s.events then
      (s, if s.events[e.key].fingerprint != e.fingerprint then Refused(ReplayConflict) else Ok(true))
    else if s.members[m].status == Completed then (s, Refused(AlreadyCompleted))
    else if SourceOf(e) in s.sources then (s, Refused(ReplayConflict))
    else
      (s.(events := s.events[e.key := Event(e.challenge, e.user, e.evidence, e.fingerprint, e.createdAt)],
          sources := s.sources[SourceOf(e) := e.key],
          members := s.members[m := Credited(s.members[m], s.challenges[e.challenge].target, e.evidence.units,
                                             e.createdAt)]),
       Ok(false))
  }

  function FindEvent(s: State, challenge: nat, user: nat, k: ReplayKey): Option<Event> {
    if k in s.events && s.events[k].challenge == challenge && s.events[k].user == user then Some(s.events[k]) else None
  }

  // ---------------------------------------------------------------- service

  function JoinChallenge(s: State, challenge: nat, user: nat, active: bool, now: int): (State, Outcome<bool, Failure>) {
    if !active then (s, Refused(ActorInvalid))
    else if challenge !in s.challenges then (s, Refused(NotFound))
    else if s.challenges[challenge].status != Active then (s, Refused(NotAvailable))
    else if now >= s.challenges[challenge].endAt then (s, Refused(Expired))
    else Join(s, Member(challenge, user), now)
  }

  function LeaveChallenge(s: State, challenge: nat, user: nat, active: bool, now: int): (State, Outcome<(), Failure>) {
    if !active then (s, Refused(ActorInvalid))
    else if challenge !in s.challenges then (s, Refused(NotFound))
    else
      var r := Leave(s, Member(challenge, user), now);
      (r.0, if r.1 == Refused(NotFound) then Refused(NotJoined) else r.1)
  }

  function EntryFor(c: Challenge, challenge: nat, user: nat, e: Evidence, now: int): Entry {
    Entry(challenge, user, e, KeyOf(challenge, e), PrintOf(challenge, c, user, e), now)
  }

  predicate Over(c: Challenge, e: Evidence, now: int) {
    c.status != Active || now >= c.endAt || e.occurredAt >= c.endAt
  }

  function RecordActivity(s: State, challenge: nat, user: nat, active: bool, e: Evidence, now: int): (State,
          Outcome<bool, Failure>) {
    var m := Member(challenge, user);
    if !active then (s, Refused(ActorInvalid))
    else if challenge !in s.challenges then (s, Refused(NotFound))
    else if m !in s.members || s.members[m].status == Left then (s, Refused(NotJoined))
    else
      var c := s.challenges[challenge];
      var known := FindEvent(s, challenge, user, KeyOf(challenge, e));
      if Identifiable(e) && Over(c, e, now) && known.Some? then
        (s, if known.value.fingerprint != PrintOf(challenge, c, user, e) then Refused(ReplayConflict) else Ok(true))
      else
        var refusal := Ineligible(c, e, now);
        if refusal.Some? then (s, Refused(refusal.value)) else Append(s, EntryFor(c, challenge, user, e, now))
  }

  class Repository {
    var challenges: map<nat, Challenge>
    var members: map<Member, Participation>
    var events: map<ReplayKey, Event>
    var sources: map<SourceKey, ReplayKey>

    constructor ()
      ensures Snapshot() == State(map[], map[], map[], map[])
    {
      challenges, members, events, sources := map[], map[], map[], map[];
    }

    ghost function Snapshot(): State
      reads this
    {
      State(challenges, members, events, sources)
    }

    method JoinMember(m: Member, now: int) returns (r: Outcome<bool, Failure>)
      modifies this
      ensures (Snapshot(), r) == Join(old(Snapshot()), m, now)
    {
      if m.challenge !in challenges { return Refused(NotFound); }
      if m in members && (members[m].status == Joined || members[m].status == Completed) { return Ok(true); }
      var record := if m in members then Rejoin(members[m], now) else Participation(Joined, now, None, None, 0);
      members := members[m := record];
      r := Ok(false);
    }

    method LeaveMember(m: Member, now: int) returns (r: Outcome<(), Failure>)
      modifies this
      ensures (Snapshot(), r) == Leave(old(Snapshot()), m, now)
    {
      if m !in members { return Refused(NotFound); }
      if members[m].status != Completed {
        members := members[m := members[m].(status := Left, leftAt := Some(now))];
      }
      r := Ok(());
    }

    method AppendProgress(e: Entry) returns (r: Outcome<bool, Failure>)
      modifies this
      ensures (Snapshot(), r) == Append(old(Snapshot()), e)
    {
      if e.challenge !in challenges { return Refused(NotFound); }
      var m := MemberOf(e);
      if m !in members { return Refused(NotFound); }
      if e.key in events {
        if events[e.key].fingerprint != e.fingerprint { return Refused(ReplayConflict); }
        return Ok(true);
      }
      var p := members[m];
      if p.status == Completed { return Refused(AlreadyCompleted); }
      if SourceOf(e) in sources { return Refused(ReplayConflict); }
      events := events[e.key := Event(e.challenge, e.user, e.evidence, e.fingerprint, e.createdAt)];
      sources := sources[SourceOf(e) := e.key];
      p := p.(progress := p.progress + e.evidence.units);
      if p.progress >= challenges[e.challenge].target {
        p := p.(status := Completed, completedAt := Some(e.createdAt));
      }
      members := members[m := p];
      r := Ok(false);
    }

    method JoinAs(challenge: nat, user: nat, active: bool, now: int) returns (r: Outcome<bool, Failure>)
      modifies this
      ensures (Snapshot(), r) == JoinChallenge(old(Snapshot()), challenge, user, active, now)
    {
      if !active { return Refused(ActorInvalid); }
      if challenge !in challenges { return Refused(NotFound); }
      if challenges[challenge].status != Active { return Refused(NotAvailable); }
      if now >= challenges[challenge].endAt { return Refused(Expired); }
      r := JoinMember(Member(challenge, user), now);
    }

    method LeaveAs(challenge: nat, user: nat, active: bool, now: int) returns (r: Outcome<(), Failure>)
      modifies this
      ensures (Snapshot(), r) == LeaveChallenge(old(Snapshot()), challenge, user, active, now)
    {
      if !active { return Refused(ActorInvalid); }
      if challenge !in challenges { return Refused(NotFound); }
      r := LeaveMember(Member(challenge, user), now);
      if r == Refused(NotFound) { r := Refused(NotJoined); }
    }

    method Record(challenge: nat, user: nat, active: bool, e: Evidence, now: int) returns (r: Outcome<bool, Failure>)
      modifies this
      ensures (Snapshot(), r) == RecordActivity(old(Snapshot()), challenge, user, active, e, now)
    {
      if !active { return Refused(ActorInvalid); }
      if challenge !in challenges { return Refused(NotFound); }
      var c := challenges[challenge];
      var m := Member(challenge, user);
      if m !in members || members[m].status == Left { return Refused(NotJoined); }
      var k := KeyOf(challenge, e);
      if Identifiable(e) && (c.status != Active || now >= c.endAt || e.occurredAt >= c.endAt) {
        if k in events && events[k].challenge == challenge && events[k].user == user {
          if events[k].fingerprint != PrintOf(challenge, c, user, e) { return Refused(ReplayConflict); }
          return Ok(true);
        }
      }
      var refusal := Ineligible(c, e, now);
      if refusal.Some? { return Refused(refusal.value); }
      r := AppendProgress(EntryFor(c, challenge, user, e, now));
    }
  }
}
