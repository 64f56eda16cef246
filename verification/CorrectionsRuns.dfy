/** What every run of repository calls keeps, while posts appear, change and disappear at any time. */
module CorrectionsRuns {
  import opened Common
  import opened Corrections

  datatype Sys = Sys(posts: map<nat, Post>, state: State)

  datatype Step =
    | ChangePosts(posts: map<nat, Post>)
    | DoRespond(post: nat, expected: PostType, author: nat, kind: ResponseKind, now: int)
    | DoAccept(post: nat, response: nat, actor: nat, now: int)
    | DoRevoke(post: nat, actor: nat, now: int)
    | DoModerate(response: nat, moderation: Moderation, moderator: Option<nat>, now: int)
    | DoNominate(response: nat, creator: nat, now: int)

  const INITIAL := Sys(map[], State(map[], map[], map[], [], 0))

  function Apply(y: Sys, step: Step): Sys {
    match step
    case ChangePosts(posts) => y.(posts := posts)
    case DoRespond(post, expected, author, kind, now) =>
      y.(state := CreateResponse(y.state, y.posts, post, expected, author, kind, now).0)
    case DoAccept(post, response, actor, now) => y.(state := SetAcceptance(y.state, post, response, actor, now))
    case DoRevoke(post, actor, now) => y.(state := RevokeAcceptance(y.state, post, actor, now))
    case DoModerate(response, m, moderator, now) => y.(state := Moderate(y.state, response, m, moderator, now))
    case DoNominate(response, creator, now) => y.(state := CreateCandidate(y.state, y.posts, response, creator, now).0)
  }

  function Run(y: Sys, steps: seq<Step>): Sys
    decreases |steps|
  {
    if steps == [] then y else Run(Apply(y, steps[0]), steps[1..])
  }

  // ---------------------------------------------------------------- histories

  /** At most the last acceptance of a post is active, and no identifier occurs twice. */
  predicate HistoriesOk(hs: Histories, next: nat) {
    (forall p, i :: p in hs && 0 <= i < |hs[p]| ==> hs[p][i].post == p && hs[p][i].id < next)
    && (forall p, i :: p in hs && 0 <= i < |hs[p]| - 1 ==> hs[p][i].revokedAt.Some?)
    && (forall p, q, i, j :: p in hs && q in hs && 0 <= i < |hs[p]| && 0 <= j < |hs[q]| && hs[p][i].id == hs[q][j].id
                             ==> p == q && i == j)
  }

  function Revoking(hs: Histories, post: nat, now: int): Histories
    requires Current(hs, post).Some?
  {
    var h := HistoryOf(hs, post);
    hs[post := h[FirstActive(h) := h[FirstActive(h)].(revokedAt := Some(now))]]
  }

  lemma RevokingKeeps(hs: Histories, post: nat, now: int, next: nat)
    requires HistoriesOk(hs, next) && Current(hs, post).Some?
    ensures HistoriesOk(Revoking(hs, post, now), next)
  {}

  lemma RevokingCurrent(hs: Histories, post: nat, now: int, next: nat, p: nat)
    requires HistoriesOk(hs, next) && Current(hs, post).Some?
    ensures Current(Revoking(hs, post, now), p) == if p == post then None else Current(hs, p)
  {
    if p == post {
      var h := hs[post];
      assert FirstActive(h) == |h| - 1;
    }
  }

  lemma AcceptingKeeps(hs: Histories, a: Acceptance, next: nat)
    requires HistoriesOk(hs, next) && Current(hs, a.post).None? && a.id == next && a.revokedAt.None?
    ensures HistoriesOk(hs[a.post := HistoryOf(hs, a.post) + [a]], next + 1)
  {}

  lemma AcceptingCurrent(hs: Histories, a: Acceptance, p: nat)
    requires Current(hs, a.post).None? && a.revokedAt.None?
    ensures Current(hs[a.post := HistoryOf(hs, a.post) + [a]], p) == if p == a.post then Some(a) else Current(hs, p)
  {
    if p == a.post {
      var h := HistoryOf(hs, a.post);
      assert FirstActive(h) == |h|;
      assert (h + [a])[|h|] == a;
      assert forall j :: 0 <= j < |h| ==> (h + [a])[j].revokedAt.Some?;
      assert FirstActive(h + [a]) == |h|;
    }
  }

  // ---------------------------------------------------------------- responses and candidates

  predicate ResponsesOk(rs: map<nat, Response>, next: nat) {
    forall r :: r in rs ==> rs[r].id == r < next
  }

  /** Where a candidate comes from never changes. */
  predicate SourceOk(rs: map<nat, Response>, c: Candidate) {
    c.response in rs && rs[c.response].post == c.post && rs[c.response].author == c.contributor
  }

  /** A pending candidate is backed by the current acceptance of its post and by an active response. */
  predicate Backed(rs: map<nat, Response>, hs: Histories, c: Candidate) {
    c.response in rs && rs[c.response].moderation == Active
    && Current(hs, c.post).Some? && Current(hs, c.post).value.id == c.acceptance
    && Current(hs, c.post).value.response == c.response
  }

  predicate SameResponsePending(c: Candidate, d: Candidate) {
    c.state == d.state == PendingReview && c.response == d.response
  }

  predicate CandidatesOk(rs: map<nat, Response>, hs: Histories, cs: map<nat, Candidate>, next: nat) {
    (forall c :: c in cs ==> cs[c].id == c < next && SourceOk(rs, cs[c])
                             && (cs[c].state == PendingReview ==> Backed(rs, hs, cs[c])))
    && (forall c, d :: c in cs && d in cs && SameResponsePending(cs[c], cs[d]) ==> c == d)
  }

  // ---------------------------------------------------------------- the event log

  predicate Known(k: EventKey, next: nat) {
    match k
    case ResponseCreated(r) => r < next
    case Accepted(a) => a < next
    case Revoked(a) => a < next
    case Moderated(r, _, _) => true
    case CandidateCreated(c) => c < next
  }

  predicate UniqueKeys(log: seq<Event>) {
    forall i, j :: 0 <= i < j < |log| ==> log[i].key != log[j].key
  }

  predicate AllKnown(log: seq<Event>, next: nat) {
    forall i :: 0 <= i < |log| ==> Known(log[i].key, next)
  }

  predicate AcceptedAt(log: seq<Event>, i: int, a: Acceptance) {
    0 <= i < |log| && log[i].key == Accepted(a.id) && log[i].post == a.post && log[i].response == a.response
      && log[i].at == a.acceptedAt
  }

  predicate RevokedAt(log: seq<Event>, i: int, a: Acceptance) {
    0 <= i < |log| && log[i].key == Revoked(a.id) && log[i].post == a.post && log[i].response == a.response
    && a.revokedAt == Some(log[i].at)
  }

  /** The acceptance was logged once and, if it was revoked, its revocation was logged later. */
  ghost predicate Told(log: seq<Event>, a: Acceptance) {
    (exists i :: AcceptedAt(log, i, a))
    && (a.revokedAt.Some? ==> exists i, j :: AcceptedAt(log, i, a) && RevokedAt(log, j, a) && i < j)
    && (a.revokedAt.None? ==> !Logged(log, Revoked(a.id)))
  }

  ghost predicate AllTold(hs: Histories, log: seq<Event>) {
    forall p, i :: p in hs && 0 <= i < |hs[p]| ==> Told(log, hs[p][i])
  }

  datatype Standing = Standing(acceptance: nat, response: nat)

  /** The current acceptance of every post, from nothing but the log. */
  function Replay(log: seq<Event>): map<nat, Standing> {
    if log == [] then map[]
    else
      var m, e := Replay(log[..|log| - 1]), log[|log| - 1];
      match e.key
      case Accepted(a) => m[e.post := Standing(a, e.response)]
      case Revoked(a) => if e.post in m && m[e.post].acceptance == a then m - {e.post} else m
      case _ => m
  }

  predicate ReplaysAt(hs: Histories, m: map<nat, Standing>, p: nat) {
    if Current(hs, p).Some? then p in m && m[p] == Standing(Current(hs, p).value.id, Current(hs, p).value.response)
    else p !in m
  }

  ghost predicate Replays(hs: Histories, log: seq<Event>) {
    forall p :: ReplaysAt(hs, Replay(log), p)
  }

  ghost predicate LogOk(hs: Histories, log: seq<Event>, next: nat) {
    UniqueKeys(log) && AllKnown(log, next) && AllTold(hs, log) && Replays(hs, log)
  }

  ghost predicate Inv(s: State) {
    HistoriesOk(s.acceptances, s.next) && ResponsesOk(s.responses, s.next)
    && CandidatesOk(s.responses, s.acceptances, s.candidates, s.next) && LogOk(s.acceptances, s.log, s.next)
  }

  lemma ReplayOnce(log: seq<Event>, e: Event)
    ensures AppendOnce(log, e)[..|log|] == log
    ensures !Logged(log, e.key) ==>
              Replay(AppendOnce(log, e)) ==
              (match e.key
               case Accepted(a) => Replay(log)[e.post := Standing(a, e.response)]
               case Revoked(a) =>
                 if e.post in Replay(log) && Replay(log)[e.post].acceptance == a then Replay(log) - {e.post}
                 else Replay(log)
               case _ => Replay(log))
  {
    if !Logged(log, e.key) { assert (log + [e])[..|log|] == log; }
  }

  lemma AppendUnique(log: seq<Event>, e: Event, next: nat)
    requires UniqueKeys(log) && AllKnown(log, next) && Known(e.key, next)
    ensures UniqueKeys(AppendOnce(log, e)) && AllKnown(AppendOnce(log, e), next)
  {}

  /** Appending an event that is not a revocation of this acceptance leaves its story as it was. */
  lemma StillTold(log: seq<Event>, e: Event, a: Acceptance)
    requires Told(log, a) && e.key != Revoked(a.id)
    ensures Told(AppendOnce(log, e), a)
  {
    var more := AppendOnce(log, e);
    assert forall i :: 0 <= i < |log| ==> more[i] == log[i];
    var i :| AcceptedAt(log, i, a);
    assert AcceptedAt(more, i, a);
    if a.revokedAt.Some? {
      var i, j :| AcceptedAt(log, i, a) && RevokedAt(log, j, a) && i < j;
      assert AcceptedAt(more, i, a) && RevokedAt(more, j, a);
    } else {
      forall j | 0 <= j < |more| ensures more[j].key != Revoked(a.id) { assert j < |log| ==> more[j] == log[j]; }
    }
  }

  lemma RevocationTold(log: seq<Event>, e: Event, a: Acceptance, b: Acceptance)
    requires Told(log, a) && a.revokedAt.None? && b == a.(revokedAt := Some(e.at))
    requires e.key == Revoked(a.id) && e.post == a.post && e.response == a.response
    ensures Told(AppendOnce(log, e), b)
  {
    var more := AppendOnce(log, e);
    var i :| AcceptedAt(log, i, a);
    assert AcceptedAt(more, i, b) && RevokedAt(more, |log|, b);
  }

  lemma NeutralLog(hs: Histories, log: seq<Event>, e: Event, next: nat, after: nat)
    requires LogOk(hs, log, next) && next <= after && Known(e.key, after) && !e.key.Accepted? && !e.key.Revoked?
    ensures LogOk(hs, AppendOnce(log, e), after)
  {
    AppendUnique(log, e, after);
    forall p, i | p in hs && 0 <= i < |hs[p]| ensures Told(AppendOnce(log, e), hs[p][i]) {
      StillTold(log, e, hs[p][i]);
    }
    ReplayOnce(log, e);
    forall p ensures ReplaysAt(hs, Replay(AppendOnce(log, e)), p) { assert ReplaysAt(hs, Replay(log), p); }
  }

  lemma RevokeLog(hs: Histories, log: seq<Event>, e: Event, post: nat, next: nat)
    requires HistoriesOk(hs, next) && LogOk(hs, log, next) && Current(hs, post).Some?
    requires var a := Current(hs, post).value;
             e.key == Revoked(a.id) && e.post == post && e.response == a.response
    ensures LogOk(Revoking(hs, post, e.at), AppendOnce(log, e), next)
  {
    var a, after, more := Current(hs, post).value, Revoking(hs, post, e.at), AppendOnce(log, e);
    AppendUnique(log, e, next);
    var k := FirstActive(hs[post]);
    assert Told(log, hs[post][k]);
    forall p, i | p in after && 0 <= i < |after[p]| ensures Told(more, after[p][i]) {
      if p == post && i == k {
        RevocationTold(log, e, a, after[p][i]);
      } else {
        assert after[p][i] == hs[p][i] && hs[p][i].id != a.id;
        StillTold(log, e, hs[p][i]);
      }
    }
    ReplayOnce(log, e);
    assert ReplaysAt(hs, Replay(log), post);
    forall p ensures ReplaysAt(after, Replay(more), p) {
      assert ReplaysAt(hs, Replay(log), p);
      RevokingCurrent(hs, post, e.at, next, p);
    }
  }

  lemma AcceptLog(hs: Histories, log: seq<Event>, e: Event, a: Acceptance, next: nat)
    requires HistoriesOk(hs, next) && LogOk(hs, log, next) && Current(hs, a.post).None? && a.id == next
             && a.revokedAt.None?
    requires e.key == Accepted(a.id) && e.post == a.post && e.response == a.response && e.at == a.acceptedAt
    ensures LogOk(hs[a.post := HistoryOf(hs, a.post) + [a]], AppendOnce(log, e), next + 1)
  {
    var after, more := hs[a.post := HistoryOf(hs, a.post) + [a]], AppendOnce(log, e);
    assert !Logged(log, e.key) && !Logged(log, Revoked(a.id));
    AppendUnique(log, e, next + 1);
    forall p, i | p in after && 0 <= i < |after[p]| ensures Told(more, after[p][i]) {
      if p == a.post && i == |HistoryOf(hs, a.post)| {
        assert AcceptedAt(more, |log|, a);
      } else {
        assert after[p][i] == hs[p][i];
        StillTold(log, e, hs[p][i]);
      }
    }
    ReplayOnce(log, e);
    forall p ensures ReplaysAt(after, Replay(more), p) {
      assert ReplaysAt(hs, Replay(log), p);
      AcceptingCurrent(hs, a, p);
    }
  }

  // ---------------------------------------------------------------- each call

  lemma RevokeCandidates(rs: map<nat, Response>, hs: Histories, cs: map<nat, Candidate>, post: nat, now: int, next: nat)
    requires HistoriesOk(hs, next) && CandidatesOk(rs, hs, cs, next) && Current(hs, post).Some?
    ensures var a := Current(hs, post).value;
            CandidatesOk(rs, Revoking(hs, post, now), Invalidate(cs, a.response, Some(a.id), AcceptanceRevoked, now),
                         next)
  {
    var a := Current(hs, post).value;
    var ds := Invalidate(cs, a.response, Some(a.id), AcceptanceRevoked, now);
    forall c | c in ds && ds[c].state == PendingReview ensures Backed(rs, Revoking(hs, post, now), ds[c]) {
      assert Backed(rs, hs, cs[c]);
      RevokingCurrent(hs, post, now, next, ds[c].post);
    }
  }

  lemma RevokeKeeps(s: State, post: nat, actor: nat, now: int)
    requires Inv(s) && ActiveAcceptance(s, post).Some?
    ensures Inv(Revoke(s, post, actor, now)) && ActiveAcceptance(Revoke(s, post, actor, now), post).None?
  {
    var a := ActiveAcceptance(s, post).value;
    assert a.post == post;
    RevokingKeeps(s.acceptances, post, now, s.next);
    RevokingCurrent(s.acceptances, post, now, s.next, post);
    RevokeCandidates(s.responses, s.acceptances, s.candidates, post, now, s.next);
    RevokeLog(s.acceptances, s.log, RevocationEvent(s, a, actor, now), post, s.next);
  }

  lemma AcceptKeeps(s: State, post: nat, response: nat, actor: nat, now: int)
    requires Inv(s) && ActiveAcceptance(s, post).None?
    ensures Inv(Accept(s, post, response, actor, now))
  {
    var a := Acceptance(s.next, post, response, actor, now, None);
    var t := Accept(s, post, response, actor, now);
    AcceptingKeeps(s.acceptances, a, s.next);
    var e := Event(Accepted(a.id), post, response, Some(a.id), Some(actor), ContributorOf(s, response), now);
    AcceptLog(s.acceptances, s.log, e, a, s.next);
    forall c | c in t.candidates && t.candidates[c].state == PendingReview
      ensures Backed(t.responses, t.acceptances, t.candidates[c]) {
      assert Backed(s.responses, s.acceptances, s.candidates[c]);
      AcceptingCurrent(s.acceptances, a, s.candidates[c].post);
    }
  }

  lemma RespondKeeps(s: State, posts: map<nat, Post>, post: nat, expected: PostType, author: nat, kind: ResponseKind,
          now: int)
    requires Inv(s)
    ensures Inv(CreateResponse(s, posts, post, expected, author, kind, now).0)
  {
    var t := CreateResponse(s, posts, post, expected, author, kind, now).0;
    if t != s {
      var e := Event(ResponseCreated(s.next), post, s.next, None, Some(author), Some(author), now);
      NeutralLog(s.acceptances, s.log, e, s.next, s.next + 1);
      forall c | c in t.candidates
        ensures SourceOk(t.responses, t.candidates[c])
        ensures t.candidates[c].state == PendingReview ==> Backed(t.responses, t.acceptances, t.candidates[c])
      { assert SourceOk(s.responses, s.candidates[c]); }
    }
  }

  lemma ModerateCandidates(s: State, response: nat, m: Moderation, moderator: Option<nat>, now: int)
    requires ResponsesOk(s.responses, s.next) && CandidatesOk(s.responses, s.acceptances, s.candidates, s.next)
             && response in s.responses
    ensures var t := Moderate(s, response, m, moderator, now);
            CandidatesOk(t.responses, s.acceptances, t.candidates, s.next)
  {
    var t := Moderate(s, response, m, moderator, now);
    forall c | c in t.candidates
      ensures SourceOk(t.responses, t.candidates[c])
      ensures t.candidates[c].state == PendingReview ==> Backed(t.responses, s.acceptances, t.candidates[c])
    {
      assert SourceOk(s.responses, s.candidates[c]);
      assert s.candidates[c].state == PendingReview ==> Backed(s.responses, s.acceptances, s.candidates[c]);
    }
  }

  lemma ModerateKeeps(s: State, response: nat, m: Moderation, moderator: Option<nat>, now: int)
    requires Inv(s)
    ensures Inv(Moderate(s, response, m, moderator, now))
  {
    if response in s.responses {
      var r, active := s.responses[response], ActiveAcceptance(s, s.responses[response].post);
      ModerateCandidates(s, response, m, moderator, now);
      NeutralLog(s.acceptances, s.log, Event(Moderated(r.id, m, now), r.post, r.id,
                 if active.Some? then Some(active.value.id) else None, moderator, Some(r.author), now), s.next, s.next);
    }
  }

  lemma NominateKeeps(s: State, posts: map<nat, Post>, response: nat, creator: nat, now: int)
    requires Inv(s)
    ensures Inv(CreateCandidate(s, posts, response, creator, now).0)
  {
    var t := CreateCandidate(s, posts, response, creator, now).0;
    if t != s {
      var c := t.candidates[s.next];
      var e := Event(CandidateCreated(c.id), c.post, c.response, Some(c.acceptance), Some(creator), Some(c.contributor),
                     now);
      NeutralLog(s.acceptances, s.log, e, s.next, s.next + 1);
      forall d | d in s.candidates && s.candidates[d].state == PendingReview
        ensures s.candidates[d].response != response {
        assert d in PendingFor(s, s.candidates[d].response);
      }
    }
  }

  lemma ApplyKeeps(y: Sys, step: Step)
    requires Inv(y.state)
    ensures Inv(Apply(y, step).state)
  {
    match step
    case ChangePosts(_) =>
    case DoRespond(post, expected, author, kind, now) =>
      RespondKeeps(y.state, y.posts, post, expected, author, kind, now);
    case DoAccept(post, response, actor, now) =>
      var active := ActiveAcceptance(y.state, post);
      if active.None? {
        AcceptKeeps(y.state, post, response, actor, now);
      } else if active.value.response != response {
        RevokeKeeps(y.state, post, actor, now);
        AcceptKeeps(Revoke(y.state, post, actor, now), post, response, actor, now);
      }
    case DoRevoke(post, actor, now) =>
      if ActiveAcceptance(y.state, post).Some? { RevokeKeeps(y.state, post, actor, now); }
    case DoModerate(response, m, moderator, now) => ModerateKeeps(y.state, response, m, moderator, now);
    case DoNominate(response, creator, now) => NominateKeeps(y.state, y.posts, response, creator, now);
  }

  lemma {:induction false} RunKeeps(y: Sys, steps: seq<Step>)
    requires Inv(y.state)
    ensures Inv(Run(y, steps).state)
    decreases |steps|
  {
    if steps != [] {
      ApplyKeeps(y, steps[0]);
      RunKeeps(Apply(y, steps[0]), steps[1..]);
    }
  }

  lemma InitialHolds()
    ensures Inv(INITIAL.state)
  {
    forall p ensures ReplaysAt(map[], Replay([]), p) {}
  }

  // ---------------------------------------------------------------- the theorems

  ghost predicate Reachable(y: Sys) {
    exists steps :: y == Run(INITIAL, steps)
  }

  lemma ReachableHolds(y: Sys)
    requires Reachable(y)
    ensures Inv(y.state)
  {
    var steps :| y == Run(INITIAL, steps);
    InitialHolds();
    RunKeeps(INITIAL, steps);
  }

  /** At most one acceptance per post is active, and identifiers name acceptances. */
  lemma OneActivePerPost(y: Sys, a: Acceptance, b: Acceptance)
    requires Reachable(y) && Recorded(y.state.acceptances, a) && Recorded(y.state.acceptances, b)
    ensures a.post == b.post && a.revokedAt.None? && b.revokedAt.None? ==> a == b
    ensures a.id == b.id ==> a == b
    ensures a.revokedAt.None? <==> ActiveAcceptance(y.state, a.post) == Some(a)
  {
    ReachableHolds(y);
    OneActiveIn(y.state.acceptances, y.state.next, a, b);
  }

  lemma OneActiveIn(hs: Histories, next: nat, a: Acceptance, b: Acceptance)
    requires HistoriesOk(hs, next) && Recorded(hs, a) && Recorded(hs, b)
    ensures a.post == b.post && a.revokedAt.None? && b.revokedAt.None? ==> a == b
    ensures a.id == b.id ==> a == b
    ensures a.revokedAt.None? <==> Current(hs, a.post) == Some(a)
  {
    var p :| p in hs && a in hs[p];
    var i :| 0 <= i < |hs[p]| && hs[p][i] == a;
    var q :| q in hs && b in hs[q];
    var j :| 0 <= j < |hs[q]| && hs[q][j] == b;
  }

  /** The log alone says which acceptance of which post is current. */
  lemma ReplayRebuilds(y: Sys, post: nat)
    requires Reachable(y)
    ensures var active := ActiveAcceptance(y.state, post);
            (post in Replay(y.state.log) <==> active.Some?)
            && (active.Some? ==> Replay(y.state.log)[post] == Standing(active.value.id, active.value.response))
  {
    ReachableHolds(y);
    assert ReplaysAt(y.state.acceptances, Replay(y.state.log), post);
  }

  /**
   * Every acceptance has exactly one log entry for its beginning and, exactly when it is revoked, exactly one
   * later entry for its end; both carry its post, its response and its times.
   */
  lemma EachAcceptanceIsToldOnce(y: Sys, a: Acceptance) returns (i: int, j: int)
    requires Reachable(y) && Recorded(y.state.acceptances, a)
    ensures AcceptedAt(y.state.log, i, a)
    ensures forall k :: 0 <= k < |y.state.log| && y.state.log[k].key == Accepted(a.id) ==> k == i
    ensures Logged(y.state.log, Revoked(a.id)) <==> a.revokedAt.Some?
    ensures a.revokedAt.Some? ==>
              i < j && RevokedAt(y.state.log, j, a)
              && forall k :: 0 <= k < |y.state.log| && y.state.log[k].key == Revoked(a.id) ==> k == j
  {
    ReachableHolds(y);
    var hs, log := y.state.acceptances, y.state.log;
    var p :| p in hs && a in hs[p];
    var m :| 0 <= m < |hs[p]| && hs[p][m] == a;
    assert Told(log, hs[p][m]);
    if a.revokedAt.Some? {
      i, j :| AcceptedAt(log, i, a) && RevokedAt(log, j, a) && i < j;
    } else {
      i :| AcceptedAt(log, i, a);
      j := 0;
    }
  }

  /** No two log entries share an idempotency key. */
  lemma KeysAreUnique(y: Sys, i: nat, j: nat)
    requires Reachable(y) && i < |y.state.log| && j < |y.state.log| && y.state.log[i].key == y.state.log[j].key
    ensures i == j
  {
    ReachableHolds(y);
  }

  /** A pending candidate points at the current acceptance of its own response, which is active, on its post. */
  lemma PendingIsBacked(y: Sys, c: nat)
    requires Reachable(y) && c in y.state.candidates && y.state.candidates[c].state == PendingReview
    ensures var k := y.state.candidates[c];
            k.response in y.state.responses && y.state.responses[k.response].moderation == Active
            && y.state.responses[k.response].post == k.post
            && exists a ::
                 ActiveAcceptance(y.state, k.post) == Some(a) && a.id == k.acceptance && a.response == k.response
  {
    ReachableHolds(y);
    var k := y.state.candidates[c];
    assert SourceOk(y.state.responses, k) && Backed(y.state.responses, y.state.acceptances, k);
    assert ActiveAcceptance(y.state, k.post) == Some(ActiveAcceptance(y.state, k.post).value);
  }

  predicate Matches(ref: Reference, c: Candidate) {
    ref.candidate == c.id && ref.source == c.id && ref.post == c.post && ref.response == c.response
      && ref.acceptance == c.acceptance
  }

  lemma SearchFindsCurrent(s: State, k: Candidate, found: Option<Acceptance>)
    requires Inv(s) && Backed(s.responses, s.acceptances, k) && SearchResult(s, k.acceptance, found)
    ensures found == ActiveAcceptance(s, k.post)
  {
    var h := HistoryOf(s.acceptances, k.post);
    var a := h[FirstActive(h)];
    assert k.post in s.acceptances && a in s.acceptances[k.post];
    assert Recorded(s.acceptances, a);
    var p :| p in s.acceptances && found.value in s.acceptances[p];
    var i :| 0 <= i < |s.acceptances[p]| && s.acceptances[p][i] == found.value;
  }

  /** What the inspection of a pending candidate has to work with. */
  lemma PendingRow(s: State, c: nat, found: Option<Acceptance>)
    requires Inv(s) && c in s.candidates && s.candidates[c].state == PendingReview
    requires SearchResult(s, s.candidates[c].acceptance, found)
    ensures var k := s.candidates[c];
            k.id == c && k.response in s.responses && s.responses[k.response].post == k.post
              && ResponseActive(s, k.response)
            && found.Some? && found == ActiveAcceptance(s, k.post) && found.value.post == k.post
               && found.value.revokedAt.None?
            && found.value.id == k.acceptance && found.value.response == k.response
  {
    var k := s.candidates[c];
    assert SourceOk(s.responses, k) && Backed(s.responses, s.acceptances, k);
    SearchFindsCurrent(s, k, found);
    assert k.post in s.acceptances;
  }

  /** The listing, the lookup and the health check were written separately; they decide alike. */
  lemma EligibilityAgrees(y: Sys, ref: Reference, found: Option<Acceptance>)
    requires Reachable(y)
    requires ref.candidate in y.state.candidates ==>
               SearchResult(y.state, y.state.candidates[ref.candidate].acceptance, found)
    ensures var s := y.state;
            (Listed(s, y.posts, ref.candidate) <==> Find(s, y.posts, ref.candidate).Some?)
            && (Evaluate(ref, RowOf(s, y.posts, ref.candidate, found)) == Valid <==>
                  Listed(s, y.posts, ref.candidate) && Matches(ref, s.candidates[ref.candidate]))
            && (Listed(s, y.posts, ref.candidate) <==>
                  ref.candidate in s.candidates && s.candidates[ref.candidate].state == PendingReview
                  && PostHealthy(y.posts, s.candidates[ref.candidate].post))
  {
    ReachableHolds(y);
    EligibilityAgreesIn(y.state, y.posts, ref, found);
  }

  lemma EligibilityAgreesIn(s: State, posts: map<nat, Post>, ref: Reference, found: Option<Acceptance>)
    requires Inv(s) && (ref.candidate in s.candidates ==>
                        SearchResult(s, s.candidates[ref.candidate].acceptance, found))
    ensures Listed(s, posts, ref.candidate) <==> Find(s, posts, ref.candidate).Some?
    ensures Evaluate(ref, RowOf(s, posts, ref.candidate, found)) == Valid <==>
              Listed(s, posts, ref.candidate) && Matches(ref, s.candidates[ref.candidate])
    ensures Listed(s, posts, ref.candidate) <==>
              ref.candidate in s.candidates && s.candidates[ref.candidate].state == PendingReview
              && PostHealthy(posts, s.candidates[ref.candidate].post)
  {
    if ref.candidate in s.candidates && s.candidates[ref.candidate].state == PendingReview {
      PendingRow(s, ref.candidate, found);
    }
  }

  ghost function NewerListed(s: State, posts: map<nat, Post>, c: nat): set<nat>
    requires c in s.candidates
  {
    set d | d in s.candidates && Listed(s, posts, d) && Newer(s.candidates, d, c)
  }

  lemma {:induction false} FrontSize(cs: map<nat, Candidate>, ids: seq<nat>, n: nat)
    requires NewestFirst(cs, ids) && n <= |ids|
    ensures |set i | 0 <= i < n :: ids[i]| == n
  {
    if n > 0 {
      FrontSize(cs, ids, n - 1);
      assert (set i | 0 <= i < n :: ids[i]) == (set i | 0 <= i < n - 1 :: ids[i]) + {ids[n - 1]};
    }
  }

  /** Before a listed candidate come exactly the newer ones. */
  lemma PlaceInListing(s: State, posts: map<nat, Post>, all: seq<nat>, n: nat)
    requires Listing(s, posts, all) && n < |all|
    ensures |NewerListed(s, posts, all[n])| == n
  {
    var front := set i | 0 <= i < n :: all[i];
    FrontSize(s.candidates, all, n);
    forall d | d in NewerListed(s, posts, all[n]) ensures d in front {
      var i :| 0 <= i < |all| && all[i] == d;
      assert i < n;
    }
    assert front == NewerListed(s, posts, all[n]);
  }

  /**
   * A page of the listing holds exactly the candidates the lookup finds that are among the
   * newest `limit` of them.
   */
  lemma PageHoldsTheNewest(y: Sys, all: seq<nat>, limit: nat, c: nat)
    requires Reachable(y) && Listing(y.state, y.posts, all)
    ensures c in Cut(all, limit) <==>
            Find(y.state, y.posts, c).Some? && |NewerListed(y.state, y.posts, c)| < limit
    ensures NewestFirst(y.state.candidates, Cut(all, limit))
  {
    if Listed(y.state, y.posts, c) {
      var n :| 0 <= n < |all| && all[n] == c;
      PlaceInListing(y.state, y.posts, all, n);
      assert n < limit ==> Cut(all, limit)[n] == c;
      if c in Cut(all, limit) {
        var m :| 0 <= m < |Cut(all, limit)| && Cut(all, limit)[m] == c;
        PlaceInListing(y.state, y.posts, all, m);
      }
    } else {
      assert c !in all;
    }
  }

  /** The one reason a health check gives in each situation. */
  function ReasonFor(s: State, posts: map<nat, Post>, ref: Reference): HealthReason {
    if ref.candidate !in s.candidates then CandidateMissing
    else if s.candidates[ref.candidate].state != PendingReview then CandidateInvalidated
    else if !Matches(ref, s.candidates[ref.candidate]) then ReferenceMismatch
    else if ref.post !in posts || posts[ref.post].moderation != Active then ParentInactive
    else if !posts[ref.post].isPublic then ParentNotPublic
    else Valid
  }

  lemma PendingReason(s: State, posts: map<nat, Post>, ref: Reference, found: Option<Acceptance>)
    requires ref.candidate in s.candidates && s.candidates[ref.candidate].state == PendingReview
    requires var k := s.candidates[ref.candidate];
             k.id == ref.candidate && k.response in s.responses && s.responses[k.response].post == k.post
             && ResponseActive(s, k.response) && found.Some? && found == ActiveAcceptance(s, k.post)
             && found.value.post == k.post && found.value.revokedAt.None?
             && found.value.id == k.acceptance && found.value.response == k.response
    ensures Evaluate(ref, RowOf(s, posts, ref.candidate, found)) == ReasonFor(s, posts, ref)
  {}

  /** Of its eight reasons a health check gives only six, each exactly when this says. */
  lemma HealthReasonExactly(y: Sys, ref: Reference, found: Option<Acceptance>)
    requires Reachable(y)
    requires ref.candidate in y.state.candidates ==>
               SearchResult(y.state, y.state.candidates[ref.candidate].acceptance, found)
    ensures Evaluate(ref, RowOf(y.state, y.posts, ref.candidate, found)) == ReasonFor(y.state, y.posts, ref)
    ensures Evaluate(ref, RowOf(y.state, y.posts, ref.candidate, found)) != AcceptanceReplaced
    ensures Evaluate(ref, RowOf(y.state, y.posts, ref.candidate, found)) != ResponseInactive
  {
    ReachableHolds(y);
    if ref.candidate in y.state.candidates && y.state.candidates[ref.candidate].state == PendingReview {
      PendingRow(y.state, ref.candidate, found);
      PendingReason(y.state, y.posts, ref, found);
    }
  }

  /** What is over stays over: an invalidated candidate and a revoked acceptance never change again. */
  predicate Kept(s: State, t: State) {
    (forall c :: c in s.candidates && s.candidates[c].state != PendingReview ==>
     c in t.candidates && t.candidates[c] == s.candidates[c])
    && (forall p, i :: p in s.acceptances && 0 <= i < |s.acceptances[p]| && s.acceptances[p][i].revokedAt.Some? ==>
          p in t.acceptances && i < |t.acceptances[p]| && t.acceptances[p][i] == s.acceptances[p][i])
    && |s.log| <= |t.log| && t.log[..|s.log|] == s.log
  }

  lemma RevokeKept(s: State, post: nat, actor: nat, now: int)
    requires ActiveAcceptance(s, post).Some?
    ensures Kept(s, Revoke(s, post, actor, now))
  {}

  lemma AcceptKept(s: State, post: nat, response: nat, actor: nat, now: int)
    ensures Kept(s, Accept(s, post, response, actor, now))
  {}

  lemma KeptThrough(s: State, t: State, u: State)
    requires Kept(s, t) && Kept(t, u)
    ensures Kept(s, u)
  {
    assert u.log[..|s.log|] == u.log[..|t.log|][..|s.log|];
  }

  lemma ApplyKept(y: Sys, step: Step)
    requires ResponsesOk(y.state.responses, y.state.next) && forall c :: c in y.state.candidates ==> c < y.state.next
    ensures Kept(y.state, Apply(y, step).state)
  {
    match step
    case ChangePosts(_) =>
    case DoRespond(post, expected, author, kind, now) =>
    case DoAccept(post, response, actor, now) =>
      var active := ActiveAcceptance(y.state, post);
      if active.None? {
        AcceptKept(y.state, post, response, actor, now);
      } else if active.value.response != response {
        RevokeKept(y.state, post, actor, now);
        AcceptKept(Revoke(y.state, post, actor, now), post, response, actor, now);
        KeptThrough(y.state, Revoke(y.state, post, actor, now), Apply(y, step).state);
      }
    case DoRevoke(post, actor, now) =>
      if ActiveAcceptance(y.state, post).Some? { RevokeKept(y.state, post, actor, now); }
    case DoModerate(response, m, moderator, now) =>
    case DoNominate(response, creator, now) =>
  }

  lemma {:induction false} EndingsAreFinal(y: Sys, steps: seq<Step>)
    requires Inv(y.state)
    ensures Kept(y.state, Run(y, steps).state)
    decreases |steps|
  {
    if steps != [] {
      ApplyKept(y, steps[0]);
      ApplyKeeps(y, steps[0]);
      EndingsAreFinal(Apply(y, steps[0]), steps[1..]);
      KeptThrough(y.state, Apply(y, steps[0]).state, Run(y, steps).state);
    }
  }
}
