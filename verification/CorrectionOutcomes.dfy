/**
 * What each correction operation does, in every state a run reaches and in the columns of the records alone: which
 * response is accepted afterwards, which candidates end, what is logged, and who may nominate.
 */
module CorrectionOutcomes {
  import opened Common
  import opened Corrections
  import opened CorrectionsRuns

  // ---------------------------------------------------------------- what stands

  /** An acceptance of this post that nobody revoked. */
  predicate Stands(s: State, post: nat, a: Acceptance) {
    post in s.acceptances && a in s.acceptances[post] && a.revokedAt == None
  }

  ghost predicate Accepted(s: State, post: nat, response: nat) {
    exists a :: Stands(s, post, a) && a.response == response
  }

  function Past(s: State, post: nat): seq<Acceptance> {
    if post in s.acceptances then s.acceptances[post] else []
  }

  /** The same acceptances, none of them standing any more. */
  function Ended(h: seq<Acceptance>, now: int): seq<Acceptance> {
    seq(|h|, i requires 0 <= i < |h| => if h[i].revokedAt == None then h[i].(revokedAt := Some(now)) else h[i])
  }

  function Author(s: State, response: nat): Option<nat> {
    if response in s.responses then Some(s.responses[response].author) else None
  }

  lemma StandingIsCurrent(s: State, post: nat, a: Acceptance)
    requires HistoriesOk(s.acceptances, s.next)
    ensures Stands(s, post, a) <==> ActiveAcceptance(s, post) == Some(a)
  {
    if Stands(s, post, a) {
      var i :| 0 <= i < |s.acceptances[post]| && s.acceptances[post][i] == a;
    }
  }

  lemma NothingStands(s: State, post: nat, now: int)
    requires HistoriesOk(s.acceptances, s.next) && ActiveAcceptance(s, post).None?
    ensures Ended(Past(s, post), now) == Past(s, post)
  {}

  lemma EndedIsRevoked(s: State, post: nat, now: int)
    requires HistoriesOk(s.acceptances, s.next) && ActiveAcceptance(s, post).Some?
    ensures Revoking(s.acceptances, post, now) == s.acceptances[post := Ended(Past(s, post), now)]
  {
    var h := s.acceptances[post];
    assert FirstActive(h) == |h| - 1;
    assert Ended(h, now) == h[FirstActive(h) := h[FirstActive(h)].(revokedAt := Some(now))];
  }

  // ---------------------------------------------------------------- revoking

  function AfterRevocation(c: Candidate, post: nat, now: int): Candidate {
    if c.post == post && c.state == PendingReview then c.(state := Invalidated(AcceptanceRevoked, now)) else c
  }

  /** All pending candidates of the post end, and no other candidate does. */
  predicate PostLosesCandidates(cs: map<nat, Candidate>, ds: map<nat, Candidate>, post: nat, now: int) {
    ds.Keys == cs.Keys && forall c :: c in cs ==> ds[c] == AfterRevocation(cs[c], post, now)
  }

  lemma RevocationReaches(s: State, a: Acceptance, c: nat)
    requires HistoriesOk(s.acceptances, s.next) && CandidatesOk(s.responses, s.acceptances, s.candidates, s.next)
    requires ActiveAcceptance(s, a.post) == Some(a) && c in s.candidates && s.candidates[c].state == PendingReview
    ensures Affected(s.candidates[c], a.response, Some(a.id)) <==> s.candidates[c].post == a.post
  {
    var k := s.candidates[c];
    assert Backed(s.responses, s.acceptances, k);
    var b := Current(s.acceptances, k.post).value;
    assert b in s.acceptances[k.post] && a in s.acceptances[a.post];
  }

  lemma RevocationEndsCandidates(s: State, post: nat, a: Acceptance, now: int)
    requires HistoriesOk(s.acceptances, s.next) && CandidatesOk(s.responses, s.acceptances, s.candidates, s.next)
    requires ActiveAcceptance(s, post) == Some(a)
    ensures PostLosesCandidates(s.candidates,
                                Invalidate(s.candidates, a.response, Some(a.id), AcceptanceRevoked, now), post, now)
  {
    assert a in s.acceptances[post];
    forall c | c in s.candidates && s.candidates[c].state == PendingReview
      ensures Affected(s.candidates[c], a.response, Some(a.id)) <==> s.candidates[c].post == post
    {
      RevocationReaches(s, a, c);
    }
  }

  function RevokedEvent(s: State, a: Acceptance, actor: nat, now: int): Event {
    Event(Revoked(a.id), a.post, a.response, Some(a.id), Some(actor), Author(s, a.response), now)
  }

  lemma RevocationIsNew(s: State, post: nat, a: Acceptance)
    requires AllTold(s.acceptances, s.log) && ActiveAcceptance(s, post) == Some(a)
    ensures !Logged(s.log, Revoked(a.id))
  {
    var h := s.acceptances[post];
    assert Told(s.log, h[FirstActive(h)]);
  }

  /** The standing acceptance of the post is revoked, whatever was made from it ends, and both are told once. */
  predicate Revokes(s: State, t: State, post: nat, a: Acceptance, actor: nat, now: int) {
    t.acceptances == s.acceptances[post := Ended(Past(s, post), now)]
    && PostLosesCandidates(s.candidates, t.candidates, post, now)
    && t.log == s.log + [RevokedEvent(s, a, actor, now)]
    && t.responses == s.responses && t.next == s.next
  }

  lemma RevokesStanding(s: State, post: nat, a: Acceptance, actor: nat, now: int)
    requires Inv(s) && ActiveAcceptance(s, post) == Some(a)
    ensures Revokes(s, Revoke(s, post, actor, now), post, a, actor, now)
  {
    assert a.post == post by { assert a in s.acceptances[post]; }
    EndedIsRevoked(s, post, now);
    RevocationEndsCandidates(s, post, a, now);
    RevocationIsNew(s, post, a);
  }

  /** Revoking ends the acceptance that stands, and without one does nothing. */
  lemma RevokesExactly(y: Sys, post: nat, actor: nat, now: int, a: Acceptance)
    requires Reachable(y)
    ensures var t := RevokeAcceptance(y.state, post, actor, now);
            (Stands(y.state, post, a) ==> Revokes(y.state, t, post, a, actor, now))
            && ((forall b :: !Stands(y.state, post, b)) ==> t == y.state)
            && !Stands(t, post, a)
  {
    ReachableHolds(y);
    var s := y.state;
    var active := ActiveAcceptance(s, post);
    StandingIsCurrent(s, post, a);
    if active.Some? {
      StandingIsCurrent(s, post, active.value);
      RevokesStanding(s, post, active.value, actor, now);
    }
  }

  // ---------------------------------------------------------------- accepting

  function AcceptedEvent(s: State, a: Acceptance): Event {
    Event(EventKey.Accepted(a.id), a.post, a.response, Some(a.id), Some(a.acceptedBy), Author(s, a.response),
          a.acceptedAt)
  }

  predicate Accepts(s: State, t: State, a: Acceptance) {
    t.acceptances == s.acceptances[a.post := Past(s, a.post) + [a]] && t.log == s.log + [AcceptedEvent(s, a)]
    && t.candidates == s.candidates && t.responses == s.responses && t.next == s.next + 1
  }

  lemma AcceptsNew(s: State, post: nat, response: nat, actor: nat, now: int)
    requires AllKnown(s.log, s.next)
    ensures Accepts(s, Accept(s, post, response, actor, now), Acceptance(s.next, post, response, actor, now, None))
  {
    assert !Logged(s.log, EventKey.Accepted(s.next));
  }

  /** The accepted response takes the place of the one before it, in the same step. */
  predicate Replaces(s: State, t: State, was: Acceptance, a: Acceptance) {
    t.acceptances == s.acceptances[a.post := Ended(Past(s, a.post), a.acceptedAt) + [a]]
    && PostLosesCandidates(s.candidates, t.candidates, a.post, a.acceptedAt)
    && t.log == s.log + [RevokedEvent(s, was, a.acceptedBy, a.acceptedAt), AcceptedEvent(s, a)]
    && t.responses == s.responses && t.next == s.next + 1
  }

  lemma RevokesThenAccepts(s: State, m: State, t: State, was: Acceptance, a: Acceptance)
    requires Revokes(s, m, a.post, was, a.acceptedBy, a.acceptedAt) && Accepts(m, t, a)
    ensures Replaces(s, t, was, a)
  {
    assert s.log + [RevokedEvent(s, was, a.acceptedBy, a.acceptedAt)] + [AcceptedEvent(s, a)]
           == s.log + [RevokedEvent(s, was, a.acceptedBy, a.acceptedAt), AcceptedEvent(s, a)];
  }

  /**
   * Accepting a response that stands accepted changes nothing. Any other becomes the one that stands for its post:
   * the one before it, if any, is revoked with the candidates of the post, and each change is told once.
   */
  lemma AcceptsExactly(y: Sys, post: nat, response: nat, actor: nat, now: int, was: Acceptance)
    requires Reachable(y)
    ensures var s, t, a := y.state, SetAcceptance(y.state, post, response, actor, now),
                           Acceptance(y.state.next, post, response, actor, now, None);
            (Stands(s, post, was) && was.response == response ==> t == s)
            && (Stands(s, post, was) && was.response != response ==> Replaces(s, t, was, a))
            && ((forall b :: !Stands(s, post, b)) ==> Accepts(s, t, a))
            && Accepted(t, post, response)
  {
    ReachableHolds(y);
    var s, a := y.state, Acceptance(y.state.next, post, response, actor, now, None);
    var active := ActiveAcceptance(s, post);
    StandingIsCurrent(s, post, was);
    if active.Some? {
      StandingIsCurrent(s, post, active.value);
      if active.value.response == response {
        assert Stands(SetAcceptance(s, post, response, actor, now), post, active.value);
      } else {
        RevokesStanding(s, post, active.value, actor, now);
        RevokeKeeps(s, post, actor, now);
        NewcomerStands(Revoke(s, post, actor, now), post, response, actor, now);
        RevokesThenAccepts(s, Revoke(s, post, actor, now), SetAcceptance(s, post, response, actor, now), active.value,
                           a);
      }
    } else {
      NewcomerStands(s, post, response, actor, now);
    }
  }

  lemma NewcomerStands(s: State, post: nat, response: nat, actor: nat, now: int)
    requires AllKnown(s.log, s.next)
    ensures var t, a := Accept(s, post, response, actor, now), Acceptance(s.next, post, response, actor, now, None);
            Accepts(s, t, a) && Stands(t, post, a) && Accepted(t, post, response)
  {
    AcceptsNew(s, post, response, actor, now);
    var t, a := Accept(s, post, response, actor, now), Acceptance(s.next, post, response, actor, now, None);
    assert t.acceptances[post][|Past(s, post)|] == a;
    assert Stands(t, post, a);
  }

  // ---------------------------------------------------------------- responding

  predicate KindFits(kind: ResponseKind, t: PostType) {
    match kind case Proposal => t == CorrectionRequest case Answer => t == Question
  }

  predicate Responds(s: State, t: State, r: Response, now: int) {
    t.responses == s.responses[r.id := r] && t.acceptances == s.acceptances && t.candidates == s.candidates
    && t.next == s.next + 1
    && t.log == s.log + [Event(ResponseCreated(r.id), r.post, r.id, None, Some(r.author), Some(r.author), now)]
  }

  /** A response is created, active and told once, exactly for an active post of the expected type and its kind. */
  lemma RespondsExactly(y: Sys, post: nat, expected: PostType, author: nat, kind: ResponseKind, now: int)
    requires Reachable(y)
    ensures var (t, answer) := CreateResponse(y.state, y.posts, post, expected, author, kind, now);
            if post in y.posts && y.posts[post].moderation == Active && y.posts[post].postType == expected
               && KindFits(kind, expected) then
              y.state.next !in y.state.responses && answer == Ok(y.state.next)
              && Responds(y.state, t, Response(y.state.next, post, author, kind, Active), now)
            else answer == Refused(ParentInvalid) && t == y.state
  {
    ReachableHolds(y);
    assert !Logged(y.state.log, ResponseCreated(y.state.next));
  }

  // ---------------------------------------------------------------- moderating

  function AfterModeration(c: Candidate, response: nat, now: int): Candidate {
    if c.response == response && c.state == PendingReview then c.(state := Invalidated(ResponseModerated, now)) else c
  }

  /** The response changes its state; when it is taken down, exactly its pending candidates end. */
  predicate Moderates(s: State, t: State, response: nat, m: Moderation, now: int)
    requires response in s.responses
  {
    t.responses == s.responses[response := s.responses[response].(moderation := m)]
    && t.acceptances == s.acceptances && t.next == s.next && t.candidates.Keys == s.candidates.Keys
    && forall c :: c in s.candidates ==>
         t.candidates[c] == if m == Active then s.candidates[c] else AfterModeration(s.candidates[c], response, now)
  }

  function ModeratedEvent(s: State, r: Response, m: Moderation, actor: Option<nat>, now: int, standing: Option<nat>)
    : Event
  {
    Event(Moderated(r.id, m, now), r.post, r.id, standing, actor, Some(r.author), now)
  }

  /** The same decision in the same instant is told once; otherwise with the acceptance that stands, if one does. */
  predicate ModerationTold(s: State, t: State, r: Response, m: Moderation, actor: Option<nat>, now: int,
                           standing: Option<nat>) {
    if exists i :: 0 <= i < |s.log| && s.log[i].key == Moderated(r.id, m, now) then t.log == s.log
    else t.log == s.log + [ModeratedEvent(s, r, m, actor, now, standing)]
  }

  lemma ModeratesRecords(s: State, response: nat, m: Moderation, actor: Option<nat>, now: int)
    requires response in s.responses && s.responses[response].id == response
    ensures Moderates(s, Moderate(s, response, m, actor, now), response, m, now)
  {}

  lemma ModerationIsTold(s: State, response: nat, m: Moderation, actor: Option<nat>, now: int, standing: Option<nat>)
    requires response in s.responses
    requires var active := ActiveAcceptance(s, s.responses[response].post);
             standing == if active.Some? then Some(active.value.id) else None
    ensures ModerationTold(s, Moderate(s, response, m, actor, now), s.responses[response], m, actor, now, standing)
  {}

  /** The identifier of the acceptance that stands for a post. */
  ghost predicate StandsAs(s: State, post: nat, standing: Option<nat>) {
    match standing
    case Some(id) => exists a :: Stands(s, post, a) && a.id == id
    case None => forall a :: !Stands(s, post, a)
  }

  lemma StandsAsCurrent(s: State, post: nat, standing: Option<nat>)
    requires HistoriesOk(s.acceptances, s.next) && StandsAs(s, post, standing)
    ensures var active := ActiveAcceptance(s, post);
            standing == if active.Some? then Some(active.value.id) else None
  {
    var active := ActiveAcceptance(s, post);
    if standing.Some? {
      var a :| Stands(s, post, a) && a.id == standing.value;
      StandingIsCurrent(s, post, a);
    }
    if active.Some? { StandingIsCurrent(s, post, active.value); }
  }

  /** A moderation is kept and told; taking a response down ends its pending candidates and leaves its acceptance. */
  lemma ModeratesExactly(y: Sys, response: nat, m: Moderation, actor: Option<nat>, now: int, standing: Option<nat>)
    requires Reachable(y)
    ensures var s, t := y.state, Moderate(y.state, response, m, actor, now);
            if response !in s.responses then t == s
            else
              Moderates(s, t, response, m, now)
              && (StandsAs(s, s.responses[response].post, standing) ==>
                    ModerationTold(s, t, s.responses[response], m, actor, now, standing))
  {
    ReachableHolds(y);
    var s := y.state;
    if response in s.responses {
      ModeratesRecords(s, response, m, actor, now);
      if StandsAs(s, s.responses[response].post, standing) {
        StandsAsCurrent(s, s.responses[response].post, standing);
        ModerationIsTold(s, response, m, actor, now, standing);
      }
    }
  }

  // ---------------------------------------------------------------- nominating

  ghost predicate AwaitsReview(s: State, response: nat) {
    exists c :: c in s.candidates && s.candidates[c].response == response && s.candidates[c].state == PendingReview
  }

  predicate Showable(posts: map<nat, Post>, post: nat) {
    post in posts && posts[post].moderation == Active && posts[post].isPublic
  }

  predicate Nominates(s: State, t: State, c: Candidate) {
    t.candidates == s.candidates[c.id := c] && t.next == s.next + 1
    && t.responses == s.responses && t.acceptances == s.acceptances
    && t.log == s.log + [Event(CandidateCreated(c.id), c.post, c.response, Some(c.acceptance), Some(c.createdBy),
                               Some(c.contributor), c.createdAt)]
  }

  predicate MayBeNominated(y: Sys, response: nat) {
    response in y.state.responses && y.state.responses[response].moderation == Active
  }

  /** What a response becomes that stands accepted. */
  function NomineeOf(s: State, response: nat, a: Acceptance, creator: nat, now: int): Candidate
    requires response in s.responses
  {
    var r := s.responses[response];
    Candidate(s.next, r.post, response, r.author, a.id, creator, now, PendingReview)
  }

  lemma NewCandidateIsTold(s: State)
    requires AllKnown(s.log, s.next)
    ensures !Logged(s.log, CandidateCreated(s.next))
  {}

  lemma PendingExists(s: State, response: nat)
    ensures PendingFor(s, response) != {} <==> AwaitsReview(s, response)
  {
    if AwaitsReview(s, response) {
      var c :| c in s.candidates && s.candidates[c].response == response && s.candidates[c].state == PendingReview;
      assert c in PendingFor(s, response);
    }
    if PendingFor(s, response) != {} { var c :| c in PendingFor(s, response); }
  }

  lemma AcceptedIsCurrent(s: State, post: nat, response: nat)
    requires HistoriesOk(s.acceptances, s.next)
    ensures Accepted(s, post, response) <==>
            ActiveAcceptance(s, post).Some? && ActiveAcceptance(s, post).value.response == response
  {
    var active := ActiveAcceptance(s, post);
    if Accepted(s, post, response) {
      var b :| Stands(s, post, b) && b.response == response;
      StandingIsCurrent(s, post, b);
    }
    if active.Some? { StandingIsCurrent(s, post, active.value); }
  }

  lemma NominationIsRecorded(s: State, posts: map<nat, Post>, response: nat, creator: nat, now: int, a: Acceptance)
    requires AllKnown(s.log, s.next) && ResponseActive(s, response)
    requires CandidateAllowed(s, posts, s.responses[response]) && PendingFor(s, response) == {}
    requires ActiveAcceptance(s, s.responses[response].post) == Some(a)
    ensures Nominates(s, CreateCandidate(s, posts, response, creator, now).0, NomineeOf(s, response, a, creator, now))
  {
    NewCandidateIsTold(s);
  }

  /**
   * A response can be nominated exactly while it is active, its post can be shown and it stands accepted; then one
   * candidate awaits review, made from that acceptance, and a second nomination changes nothing.
   */
  lemma NominatesExactly(y: Sys, response: nat, creator: nat, now: int, a: Acceptance)
    requires Reachable(y)
    ensures var s, (t, answer) := y.state, CreateCandidate(y.state, y.posts, response, creator, now);
            if !MayBeNominated(y, response) then answer == Refused(ResponseUnavailable) && t == s
            else
              var post := s.responses[response].post;
              if !Showable(y.posts, post) || !Accepted(s, post, response) then
                answer == Refused(SourceUnavailable) && t == s
              else
                answer == Ok(())
                && (AwaitsReview(s, response) ==> t == s)
                && (!AwaitsReview(s, response) && Stands(s, post, a) ==>
                      s.next !in s.candidates && Nominates(s, t, NomineeOf(s, response, a, creator, now)))
  {
    ReachableHolds(y);
    var s := y.state;
    if MayBeNominated(y, response) {
      var post := s.responses[response].post;
      StandingIsCurrent(s, post, a);
      AcceptedIsCurrent(s, post, response);
      PendingExists(s, response);
      if CandidateAllowed(s, y.posts, s.responses[response]) && !AwaitsReview(s, response) && Stands(s, post, a) {
        NominationIsRecorded(s, y.posts, response, creator, now, a);
      }
    }
  }

  // ---------------------------------------------------------------- the list

  predicate Later(c: Candidate, d: Candidate) {
    c.createdAt > d.createdAt || (c.createdAt == d.createdAt && c.id > d.id)
  }

  /** What moderators can still decide. */
  function Open(y: Sys): set<nat> {
    set c | c in y.state.candidates && y.state.candidates[c].state == PendingReview
            && Showable(y.posts, y.state.candidates[c].post)
  }

  function LaterOpen(y: Sys, c: nat): set<nat>
    requires c in y.state.candidates
  {
    set d | d in Open(y) && Later(y.state.candidates[d], y.state.candidates[c])
  }

  lemma OpenIsListed(y: Sys, c: nat)
    requires Reachable(y)
    ensures c in Open(y) <==> Listed(y.state, y.posts, c)
  {
    ReachableHolds(y);
    if c in Open(y) {
      assert Backed(y.state.responses, y.state.acceptances, y.state.candidates[c]);
    }
  }

  lemma LaterIsNewer(y: Sys, c: nat)
    requires Reachable(y) && c in y.state.candidates
    ensures LaterOpen(y, c) == NewerListed(y.state, y.posts, c)
  {
    ReachableHolds(y);
    forall d ensures d in LaterOpen(y, c) <==> d in NewerListed(y.state, y.posts, c) {
      OpenIsListed(y, d);
    }
  }

  /** A page holds the open candidates that fewer than `limit` later ones precede, each before all it is later than. */
  lemma PageIsTheLatest(y: Sys, all: seq<nat>, limit: nat, c: nat)
    requires Reachable(y) && Listing(y.state, y.posts, all)
    ensures c in Cut(all, limit) <==> c in Open(y) && |LaterOpen(y, c)| < limit
    ensures forall i, j :: 0 <= i < j < |Cut(all, limit)| ==>
              Cut(all, limit)[i] in y.state.candidates && Cut(all, limit)[j] in y.state.candidates
              && Later(y.state.candidates[Cut(all, limit)[i]], y.state.candidates[Cut(all, limit)[j]])
  {
    ReachableHolds(y);
    PageHoldsTheNewest(y, all, limit, c);
    OpenIsListed(y, c);
    if c in y.state.candidates { LaterIsNewer(y, c); }
  }
}
