/** Structured responses, their acceptance by the asker, and the library candidates made from accepted ones. */
module Corrections {
  import opened Common

  datatype Moderation = Active | Hidden | Deleted
  datatype PostType = Question | CorrectionRequest | OtherPost
  datatype ResponseKind = Proposal | Answer

  datatype Post = Post(postType: PostType, moderation: Moderation, isPublic: bool)
  datatype Response = Response(id: nat, post: nat, author: nat, kind: ResponseKind, moderation: Moderation)
  datatype Acceptance = Acceptance(id: nat, post: nat, response: nat, acceptedBy: nat, acceptedAt: int,
          revokedAt: Option<int>)
  datatype Reason = AcceptanceRevoked | ResponseModerated
  datatype CandidateState = PendingReview | Invalidated(reason: Reason, at: int)
  datatype Candidate = Candidate(id: nat, post: nat, response: nat, contributor: nat, acceptance: nat, createdBy: nat,
                                 createdAt: int, state: CandidateState)

  /** The kind of a contribution event together with what makes its idempotency key unique. */
  datatype EventKey =
    | ResponseCreated(response: nat)
    | Accepted(acceptance: nat)
    | Revoked(acceptance: nat)
    | Moderated(response: nat, state: Moderation, at: int)
    | CandidateCreated(candidate: nat)

  datatype Event = Event(key: EventKey, post: nat, response: nat, acceptance: Option<nat>, actor: Option<nat>,
                         contributor: Option<nat>, at: int)

  datatype Conflict = ParentInvalid | ResponseUnavailable | SourceUnavailable

  /** `next` is the next identifier the random source will hand out; identifiers never repeat. */
  datatype State = State(responses: map<nat, Response>, acceptances: Histories, candidates: map<nat, Candidate>,
                         log: seq<Event>, next: nat)

  // ---------------------------------------------------------------- reading

  type Histories = map<nat, seq<Acceptance>>

  function HistoryOf(hs: Histories, post: nat): seq<Acceptance> {
    if post in hs then hs[post] else []
  }

  /** The position of the first acceptance that is not revoked. */
  function FirstActive(h: seq<Acceptance>): (i: nat)
    ensures i <= |h| && (i < |h| ==> h[i].revokedAt.None?)
    ensures forall j :: 0 <= j < i ==> h[j].revokedAt.Some?
  {
    if h == [] || h[0].revokedAt.None? then 0 else 1 + FirstActive(h[1..])
  }

  function Current(hs: Histories, post: nat): Option<Acceptance> {
    var h := HistoryOf(hs, post);
    if FirstActive(h) < |h| then Some(h[FirstActive(h)]) else None
  }

  function ActiveAcceptance(s: State, post: nat): Option<Acceptance> {
    Current(s.acceptances, post)
  }

  predicate Logged(log: seq<Event>, k: EventKey) {
    exists i :: 0 <= i < |log| && log[i].key == k
  }

  function AppendOnce(log: seq<Event>, e: Event): seq<Event> {
    if Logged(log, e.key) then log else log + [e]
  }

  function ContributorOf(s: State, response: nat): Option<nat> {
    if response in s.responses then Some(s.responses[response].author) else None
  }

  // ---------------------------------------------------------------- writing

  predicate Suits(kind: ResponseKind, t: PostType) {
    (kind == Proposal ==> t == CorrectionRequest) && (kind == Answer ==> t == Question)
  }

  function CreateResponse(s: State, posts: map<nat, Post>, post: nat, expected: PostType, author: nat,
          kind: ResponseKind, now: int)
    : (State, Outcome<nat, Conflict>)
  {
    if post !in posts || posts[post].moderation != Active || posts[post].postType != expected
       || !Suits(kind, expected) then
      (s, Refused(ParentInvalid))
    else
      var r := Response(s.next, post, author, kind, Active);
      (s.(responses := s.responses[r.id := r], next := s.next + 1,
          log := AppendOnce(s.log, Event(ResponseCreated(r.id), post, r.id, None, Some(author), Some(author), now))),
       Ok(r.id))
  }

  predicate Affected(c: Candidate, response: nat, acceptance: Option<nat>) {
    c.response == response && c.state == PendingReview && (acceptance.None? || c.acceptance == acceptance.value)
  }

  function Invalidate(cs: map<nat, Candidate>, response: nat, acceptance: Option<nat>, reason: Reason,
          now: int): map<nat, Candidate> {
    map c | c in cs ::
      if Affected(cs[c], response, acceptance) then cs[c].(state := Invalidated(reason, now)) else cs[c]
  }

  function RevocationEvent(s: State, a: Acceptance, actor: nat, now: int): Event {
    Event(Revoked(a.id), a.post, a.response, Some(a.id), Some(actor), ContributorOf(s, a.response), now)
  }

  /** The active acceptance revoked, its candidates invalidated and the event logged. */
  function Revoke(s: State, post: nat, actor: nat, now: int): State
    requires ActiveAcceptance(s, post).Some?
  {
    var h := HistoryOf(s.acceptances, post);
    var a := h[FirstActive(h)];
    s.(acceptances := s.acceptances[post := h[FirstActive(h) := a.(revokedAt := Some(now))]],
       candidates := Invalidate(s.candidates, a.response, Some(a.id), AcceptanceRevoked, now),
       log := AppendOnce(s.log, RevocationEvent(s, a, actor, now)))
  }

  function Accept(s: State, post: nat, response: nat, actor: nat, now: int): State {
    var a := Acceptance(s.next, post, response, actor, now, None);
    s.(acceptances := s.acceptances[post := HistoryOf(s.acceptances, post) + [a]], next := s.next + 1,
       log := AppendOnce(s.log, Event(Accepted(a.id), post, response, Some(a.id), Some(actor),
                                      ContributorOf(s, response), now)))
  }

  /** Accepting the accepted response again changes nothing; accepting another replaces it. */
  function SetAcceptance(s: State, post: nat, response: nat, actor: nat, now: int): State {
    var active := ActiveAcceptance(s, post);
    if active.Some? && active.value.response == response then s
    else Accept(if active.Some? then Revoke(s, post, actor, now) else s, post, response, actor, now)
  }

  function RevokeAcceptance(s: State, post: nat, actor: nat, now: int): State {
    if ActiveAcceptance(s, post).None? then s else Revoke(s, post, actor, now)
  }

  function Moderate(s: State, response: nat, state: Moderation, actor: Option<nat>, now: int): State {
    if response !in s.responses then s
    else
      var r := s.responses[response];
      var active := ActiveAcceptance(s, r.post);
      s.(responses := s.responses[response := r.(moderation := state)],
         candidates := if state == Active then s.candidates
                       else Invalidate(s.candidates, r.id, None, ResponseModerated, now),
         log := AppendOnce(s.log, Event(Moderated(r.id, state, now), r.post, r.id,
                                        if active.Some? then Some(active.value.id) else None,
                                        actor, Some(r.author), now)))
  }

  predicate PostHealthy(posts: map<nat, Post>, post: nat) {
    post in posts && posts[post].moderation == Active && posts[post].isPublic
  }

  function PendingFor(s: State, response: nat): set<nat> {
    set c | c in s.candidates && s.candidates[c].response == response && s.candidates[c].state == PendingReview
  }

  predicate CandidateAllowed(s: State, posts: map<nat, Post>, r: Response) {
    PostHealthy(posts, r.post) && ActiveAcceptance(s, r.post).Some?
      && ActiveAcceptance(s, r.post).value.response == r.id
  }

  function CreateCandidate(s: State, posts: map<nat, Post>, response: nat, creator: nat, now: int): (State,
          Outcome<(), Conflict>) {
    if response !in s.responses || s.responses[response].moderation != Active then (s, Refused(ResponseUnavailable))
    else if !CandidateAllowed(s, posts, s.responses[response]) then (s, Refused(SourceUnavailable))
    else if PendingFor(s, response) != {} then (s, Ok(()))
    else
      var r := s.responses[response];
      var a := ActiveAcceptance(s, r.post).value;
      var c := Candidate(s.next, r.post, response, r.author, a.id, creator, now, PendingReview);
      (s.(candidates := s.candidates[c.id := c], next := s.next + 1,
          log := AppendOnce(s.log, Event(CandidateCreated(c.id), c.post, c.response, Some(c.acceptance), Some(creator),
                                        Some(c.contributor), now))),
       Ok(()))
  }

  // ---------------------------------------------------------------- the three eligibility checks

  predicate ResponseActive(s: State, response: nat) {
    response in s.responses && s.responses[response].moderation == Active
  }

  /** As the listing of pending candidates filters. */
  predicate Listed(s: State, posts: map<nat, Post>, c: nat) {
    c in s.candidates && s.candidates[c].state == PendingReview
    && PostHealthy(posts, s.candidates[c].post)
    && ResponseActive(s, s.candidates[c].response)
    && var a := ActiveAcceptance(s, s.candidates[c].post);
       a.Some? && a.value.id == s.candidates[c].acceptance && a.value.response == s.candidates[c].response
  }

  /** The order of the listing: newest first, ties by the greater identifier. */
  predicate Newer(cs: map<nat, Candidate>, c: nat, d: nat)
    requires c in cs && d in cs
  {
    cs[c].createdAt > cs[d].createdAt || (cs[c].createdAt == cs[d].createdAt && c > d)
  }

  predicate NewestFirst(cs: map<nat, Candidate>, ids: seq<nat>) {
    && (forall i :: 0 <= i < |ids| ==> ids[i] in cs)
    && (forall i, j :: 0 <= i < j < |ids| ==> Newer(cs, ids[i], ids[j]))
  }

  /** All listed candidates in the order of the listing. */
  ghost predicate Listing(s: State, posts: map<nat, Post>, ids: seq<nat>) {
    NewestFirst(s.candidates, ids) && forall c :: c in ids <==> Listed(s, posts, c)
  }

  function Cut(ids: seq<nat>, limit: nat): seq<nat> {
    if |ids| <= limit then ids else ids[..limit]
  }

  /** As the lookup by identifier decides, one refusal at a time. */
  function Find(s: State, posts: map<nat, Post>, c: nat): Option<Candidate> {
    if c !in s.candidates || s.candidates[c].state != PendingReview then None
    else
      var k := s.candidates[c];
      var a := ActiveAcceptance(s, k.post);
      if k.post !in posts || posts[k.post].moderation != Active || !posts[k.post].isPublic
         || !ResponseActive(s, k.response) || a.None? || a.value.id != k.acceptance || a.value.response != k.response
      then None else Some(k)
  }

  datatype HealthReason =
    | Valid | CandidateInvalidated | CandidateMissing | AcceptanceReplaced | ResponseInactive | ParentInactive
    | ParentNotPublic | ReferenceMismatch

  datatype Reference = Reference(source: nat, post: nat, response: nat, candidate: nat, acceptance: nat)

  datatype HealthRow = HealthRow(candidate: Candidate, post: Option<Post>, response: Option<Response>,
                                 acceptance: Option<Acceptance>, current: Option<Acceptance>)

  function Evaluate(ref: Reference, row: Option<HealthRow>): HealthReason {
    if row.None? then CandidateMissing
    else
      var r := row.value;
      var c := r.candidate;
      if c.state != PendingReview then CandidateInvalidated
      else if c.id != ref.candidate || c.post != ref.post || c.response != ref.response
              || c.acceptance != ref.acceptance || ref.source != ref.candidate then ReferenceMismatch
      else if r.post.None? || r.post.value.moderation != Active then ParentInactive
      else if !r.post.value.isPublic then ParentNotPublic
      else if r.response.None? || r.response.value.moderation != Active then ResponseInactive
      else if r.response.value.post != ref.post then ReferenceMismatch
      else if r.acceptance.None? || r.acceptance.value.revokedAt.Some? || r.acceptance.value.post != ref.post
              || r.acceptance.value.response != ref.response || r.current.None? || r.current.value.id != ref.acceptance
              || r.current.value.response != ref.response then AcceptanceReplaced
      else Valid
  }

  predicate Recorded(hs: Histories, a: Acceptance) {
    exists p :: p in hs && a in hs[p]
  }

  function Lookup<T>(m: map<nat, T>, k: nat): Option<T> {
    if k in m then Some(m[k]) else None
  }

  /** The row the inspection builds; `found` is what its search for the candidate's acceptance returned. */
  function RowOf(s: State, posts: map<nat, Post>, c: nat, found: Option<Acceptance>): Option<HealthRow> {
    if c !in s.candidates then None
    else
      var k := s.candidates[c];
      Some(HealthRow(k, Lookup(posts, k.post), Lookup(s.responses, k.response), found, ActiveAcceptance(s, k.post)))
  }

  /** A search through every history for an acceptance by identifier. */
  ghost predicate SearchResult(s: State, id: nat, found: Option<Acceptance>) {
    if found.Some? then found.value.id == id && Recorded(s.acceptances, found.value)
    else forall a :: Recorded(s.acceptances, a) ==> a.id != id
  }

  class Repository {
    var responses: map<nat, Response>
    var acceptances: Histories
    var candidates: map<nat, Candidate>
    var log: seq<Event>
    var next: nat

    constructor ()
      ensures Snapshot() == State(map[], map[], map[], [], 0)
    {
      responses, acceptances, candidates, log, next := map[], map[], map[], [], 0;
    }

    ghost function Snapshot(): State
      reads this
    {
      State(responses, acceptances, candidates, log, next)
    }

    method AppendEvent(e: Event)
      modifies `log
      ensures log == AppendOnce(old(log), e)
    {
      for i := 0 to |log|
        invariant log == old(log) && forall j :: 0 <= j < i ==> log[j].key != e.key
      {
        if log[i].key == e.key { return; }
      }
      log := log + [e];
    }

    method InvalidateCandidates(response: nat, acceptance: Option<nat>, reason: Reason, now: int)
      modifies `candidates
      ensures candidates == Invalidate(old(candidates), response, acceptance, reason, now)
    {
      ghost var was := candidates;
      var rest := candidates.Keys;
      while rest != {}
        invariant rest <= was.Keys && candidates.Keys == was.Keys
        invariant forall c :: c in was ==>
                    candidates[c] == if c in rest then was[c] else Invalidate(was, response, acceptance, reason, now)[c]
      {
        var c :| c in rest;
        rest := rest - {c};
        if Affected(candidates[c], response, acceptance) {
          candidates := candidates[c := candidates[c].(state := Invalidated(reason, now))];
        }
      }
    }

    method RespondTo(posts: map<nat, Post>, post: nat, expected: PostType, author: nat, kind: ResponseKind, now: int)
      returns (r: Outcome<nat, Conflict>)
      modifies this
      ensures (Snapshot(), r) == CreateResponse(old(Snapshot()), posts, post, expected, author, kind, now)
    {
      if post !in posts || posts[post].moderation != Active || posts[post].postType != expected
         || (kind == Proposal && expected != CorrectionRequest) || (kind == Answer && expected != Question) {
        return Refused(ParentInvalid);
      }
      var response := Response(next, post, author, kind, Active);
      next := next + 1;
      responses := responses[response.id := response];
      AppendEvent(Event(ResponseCreated(response.id), post, response.id, None, Some(author), Some(author), now));
      r := Ok(response.id);
    }

    method RevokeActive(post: nat, actor: nat, now: int)
      requires ActiveAcceptance(Snapshot(), post).Some?
      modifies this
      ensures Snapshot() == Revoke(old(Snapshot()), post, actor, now)
    {
      var h := acceptances[post];
      var i := FirstActive(h);
      var active := h[i];
      acceptances := acceptances[post := h[i := active.(revokedAt := Some(now))]];
      InvalidateCandidates(active.response, Some(active.id), AcceptanceRevoked, now);
      AppendEvent(Event(Revoked(active.id), active.post, active.response, Some(active.id), Some(actor),
                        if active.response in responses then Some(responses[active.response].author) else None, now));
    }

    method SetActive(post: nat, response: nat, actor: nat, now: int)
      modifies this
      ensures Snapshot() == SetAcceptance(old(Snapshot()), post, response, actor, now)
    {
      var h := if post in acceptances then acceptances[post] else [];
      var i := FirstActive(h);
      if i < |h| {
        if h[i].response == response { return; }
        RevokeActive(post, actor, now);
      }
      var created := Acceptance(next, post, response, actor, now, None);
      next := next + 1;
      acceptances := acceptances[post := (if post in acceptances then acceptances[post] else []) + [created]];
      AppendEvent(Event(Accepted(created.id), post, response, Some(created.id), Some(actor),
                        if response in responses then Some(responses[response].author) else None, now));
    }

    method RevokeIfActive(post: nat, actor: nat, now: int)
      modifies this
      ensures Snapshot() == RevokeAcceptance(old(Snapshot()), post, actor, now)
    {
      if post in acceptances && FirstActive(acceptances[post]) < |acceptances[post]| {
        RevokeActive(post, actor, now);
      }
    }

    method SetModeration(response: nat, state: Moderation, actor: Option<nat>, now: int)
      modifies this
      ensures Snapshot() == Moderate(old(Snapshot()), response, state, actor, now)
    {
      if response !in responses { return; }
      var r := responses[response];
      responses := responses[response := r.(moderation := state)];
      if state != Active { InvalidateCandidates(r.id, None, ResponseModerated, now); }
      var active := if r.post in acceptances && FirstActive(acceptances[r.post]) < |acceptances[r.post]|
                    then Some(acceptances[r.post][FirstActive(acceptances[r.post])].id) else None;
      AppendEvent(Event(Moderated(r.id, state, now), r.post, r.id, active, actor, Some(r.author), now));
    }

    method Nominate(posts: map<nat, Post>, response: nat, creator: nat, now: int) returns (r: Outcome<(), Conflict>)
      requires response in responses ==> responses[response].id == response
      modifies this
      ensures (Snapshot(), r) == CreateCandidate(old(Snapshot()), posts, response, creator, now)
    {
      if response !in responses || responses[response].moderation != Active { return Refused(ResponseUnavailable); }
      var source := responses[response];
      if source.post !in posts || posts[source.post].moderation != Active || !posts[source.post].isPublic
         || source.post !in acceptances || FirstActive(acceptances[source.post]) >= |acceptances[source.post]|
         || acceptances[source.post][FirstActive(acceptances[source.post])].response != source.id {
        return Refused(SourceUnavailable);
      }
      var acceptance := acceptances[source.post][FirstActive(acceptances[source.post])];
      if exists c :: c in candidates && candidates[c].response == response && candidates[c].state == PendingReview {
        assert PendingFor(old(Snapshot()), response) != {} by {
          var c :| c in candidates && candidates[c].response == response && candidates[c].state == PendingReview;
          assert c in PendingFor(old(Snapshot()), response);
        }
        return Ok(());
      }
      var c := Candidate(next, source.post, response, source.author, acceptance.id, creator, now, PendingReview);
      next := next + 1;
      candidates := candidates[c.id := c];
      AppendEvent(Event(CandidateCreated(c.id), c.post, c.response, Some(c.acceptance), Some(creator),
                        Some(c.contributor), now));
      r := Ok(());
    }

    method SearchAcceptance(id: nat) returns (found: Option<Acceptance>)
      ensures SearchResult(Snapshot(), id, found)
    {
      var rest := acceptances.Keys;
      while rest != {}
        invariant rest <= acceptances.Keys
        invariant forall p, a :: p in acceptances && p !in rest && a in acceptances[p] ==> a.id != id
      {
        var p :| p in rest;
        var h := acceptances[p];
        for i := 0 to |h|
          invariant forall j :: 0 <= j < i ==> h[j].id != id
        {
          if h[i].id == id { return Some(h[i]); }
        }
        rest := rest - {p};
      }
      found := None;
    }

    /** Puts one more candidate where it belongs among those already sorted. */
    method Place(sorted: seq<nat>, c: nat) returns (placed: seq<nat>)
      requires NewestFirst(candidates, sorted) && c in candidates && c !in sorted
      ensures NewestFirst(candidates, placed) && forall d :: d in placed <==> d in sorted || d == c
    {
      var i := 0;
      while i < |sorted| && Newer(candidates, sorted[i], c)
        invariant 0 <= i <= |sorted|
        invariant forall j :: 0 <= j < i ==> Newer(candidates, sorted[j], c)
      {
        i := i + 1;
      }
      placed := sorted[..i] + [c] + sorted[i..];
      assert forall d :: d in sorted <==> d in sorted[..i] || d in sorted[i..] by {
        assert sorted == sorted[..i] + sorted[i..];
      }
    }

    method ListPending(posts: map<nat, Post>, limit: nat) returns (page: seq<nat>)
      ensures exists all :: Listing(Snapshot(), posts, all) && page == Cut(all, limit)
    {
      var all: seq<nat> := [];
      var rest := candidates.Keys;
      while rest != {}
        invariant rest <= candidates.Keys && NewestFirst(candidates, all)
        invariant forall c :: c in all <==> c !in rest && Listed(Snapshot(), posts, c)
      {
        var c :| c in rest;
        rest := rest - {c};
        if Listed(State(responses, acceptances, candidates, log, next), posts, c) {
          all := Place(all, c);
        }
      }
      page := Cut(all, limit);
      assert Listing(Snapshot(), posts, all);
    }

    method Inspect(posts: map<nat, Post>, ref: Reference) returns (reason: HealthReason)
      ensures exists found ::
                reason == Evaluate(ref, RowOf(Snapshot(), posts, ref.candidate, found))
                && (ref.candidate in candidates ==>
                    SearchResult(Snapshot(), candidates[ref.candidate].acceptance, found))
    {
      if ref.candidate !in candidates {
        reason := Evaluate(ref, None);
        assert reason == Evaluate(ref, RowOf(Snapshot(), posts, ref.candidate, None));
        return;
      }
      var c := candidates[ref.candidate];
      var found := SearchAcceptance(c.acceptance);
      var h := if c.post in acceptances then acceptances[c.post] else [];
      var current := if FirstActive(h) < |h| then Some(h[FirstActive(h)]) else None;
      reason := Evaluate(ref, Some(HealthRow(c, Lookup(posts, c.post), Lookup(responses, c.response), found, current)));
      assert reason == Evaluate(ref, RowOf(Snapshot(), posts, ref.candidate, found));
    }
  }
}
