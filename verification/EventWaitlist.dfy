/** What the incrementally maintained waitlist is, compared with sorting from scratch. */
module EventWaitlist {
  import opened Common
  import opened EventParticipation

  function Active(t: Table, e: nat): set<Key> {
    set k | k in t && k.event == e && t[k].status != Cancelled
  }

  /** How many active registrations of the event come before this one. */
  function Rank(t: Table, e: nat, k: Key): nat
    requires k in t
  {
    |set j | j in Active(t, e) && Earlier(t[j], t[k])|
  }

  /** Sort all active registrations: the first `capacity` are in, the rest wait at 1, 2, 3, ... */
  predicate FromScratch(t: Table, e: nat, capacity: int) {
    forall k :: k in Active(t, e) ==>
      if Rank(t, e, k) < capacity then t[k].status == Registered && t[k].position == None
      else t[k].status == Waitlisted && t[k].position == Some(Rank(t, e, k) - capacity + 1)
  }

  /** Holds under any clock. */
  predicate Fits(t: Table, e: nat, capacity: int) {
    |With(t, e, Registered)| <= capacity
    && (With(t, e, Waitlisted) != {} ==> |With(t, e, Registered)| == capacity)
    && (forall k :: k in With(t, e, Waitlisted) ==> t[k].position == Some(Ahead(t, e, k) + 1))
    && (forall k :: k in t && k.event == e && t[k].status != Waitlisted ==> t[k].position == None)
  }

  /** Nobody waits who registered before someone who is in. */
  predicate Ordered(t: Table, e: nat) {
    forall r, w :: r in With(t, e, Registered) && w in With(t, e, Waitlisted) ==> Earlier(t[r], t[w])
  }

  // ---------------------------------------------------------------- the two forms compared

  lemma CountBelow(a: set<Key>, b: set<Key>)
    requires a <= b
    ensures |a| <= |b| && (a != b ==> |a| < |b|)
  {
    var rest := b - a;
    assert b == a + rest;
    if a != b { assert rest != {}; }
  }

  lemma WaitingRank(t: Table, e: nat, w: Key)
    requires Ordered(t, e) && w in With(t, e, Waitlisted)
    ensures Rank(t, e, w) == |With(t, e, Registered)| + Ahead(t, e, w)
  {
    var before := set j | j in Active(t, e) && Earlier(t[j], t[w]);
    var waiting := set j | j in With(t, e, Waitlisted) && Earlier(t[j], t[w]);
    assert before == With(t, e, Registered) + waiting;
    assert With(t, e, Registered) !! waiting;
  }

  lemma RegisteredRank(t: Table, e: nat, r: Key)
    requires Ordered(t, e) && r in With(t, e, Registered)
    ensures Rank(t, e, r) < |With(t, e, Registered)|
  {
    var before := set j | j in Active(t, e) && Earlier(t[j], t[r]);
    assert r !in before && before <= With(t, e, Registered);
    CountBelow(before, With(t, e, Registered));
  }

  lemma RankIncreases(t: Table, e: nat, a: Key, b: Key)
    requires a in Active(t, e) && b in t && Earlier(t[a], t[b])
    ensures Rank(t, e, a) < Rank(t, e, b)
  {
    var before := set j | j in Active(t, e) && Earlier(t[j], t[a]);
    var after := set j | j in Active(t, e) && Earlier(t[j], t[b]);
    assert before <= after && a in after && a !in before;
    CountBelow(before, after);
  }

  /** A table that fits is the from-scratch table exactly when nobody waits behind a later arrival. */
  lemma FromScratchExactly(t: Table, e: nat, capacity: int)
    requires DistinctIds(t) && Fits(t, e, capacity)
    ensures FromScratch(t, e, capacity) <==> Ordered(t, e)
  {
    if Ordered(t, e) {
      forall k | k in Active(t, e)
        ensures if Rank(t, e, k) < capacity then t[k].status == Registered && t[k].position == None
                else t[k].status == Waitlisted && t[k].position == Some(Rank(t, e, k) - capacity + 1)
      {
        if t[k].status == Waitlisted {
          assert k in With(t, e, Waitlisted);
          WaitingRank(t, e, k);
        } else {
          RegisteredRank(t, e, k);
        }
      }
    }
    if FromScratch(t, e, capacity) {
      forall r, w | r in With(t, e, Registered) && w in With(t, e, Waitlisted) ensures Earlier(t[r], t[w]) {
        assert r in Active(t, e) && w in Active(t, e) && t[r].id != t[w].id;
        if Earlier(t[w], t[r]) { RankIncreases(t, e, w, r); }
      }
    }
  }

  // ---------------------------------------------------------------- rebalancing

  lemma {:induction false} ListingExists(t: Table, members: set<Key>) returns (ws: seq<Key>)
    requires DistinctIds(t) && forall k :: k in members ==> k in t
    ensures Lists(t, ws, members)
    decreases |members|
  {
    if members == {} {
      ws := [];
    } else {
      var k :| k in members;
      ws := ListingExists(t, members - {k});
      PlaceInOrder(t, ws, k);
      ws := Place(t, ws, k);
    }
  }

  lemma RebalanceAt(t: Table, e: nat, capacity: int, k: Key)
    requires k in t
    ensures var u := Rebalance(t, e, capacity);
            k in u && u[k].registeredAt == t[k].registeredAt && u[k].id == t[k].id
            && (k in With(u, e, Waitlisted) <==> k in With(t, e, Waitlisted) && k !in Promoted(t, e, capacity))
            && (k in With(u, e, Registered) <==> k in With(t, e, Registered) || k in Promoted(t, e, capacity))
  {}

  /** The waitlist after rebalancing is the old one without its promoted front. */
  lemma RebalanceSplits(t: Table, e: nat, capacity: int)
    ensures var u := Rebalance(t, e, capacity);
            u.Keys == t.Keys
            && With(u, e, Waitlisted) == With(t, e, Waitlisted) - Promoted(t, e, capacity)
            && With(u, e, Registered) == With(t, e, Registered) + Promoted(t, e, capacity)
            && forall k :: k in t ==> u[k].registeredAt == t[k].registeredAt && u[k].id == t[k].id
  {
    var u := Rebalance(t, e, capacity);
    assert u.Keys == t.Keys;
    forall k | k in t
      ensures u[k].registeredAt == t[k].registeredAt && u[k].id == t[k].id
      ensures k in With(u, e, Waitlisted) <==> k in With(t, e, Waitlisted) && k !in Promoted(t, e, capacity)
      ensures k in With(u, e, Registered) <==> k in With(t, e, Registered) || k in Promoted(t, e, capacity)
    {
      RebalanceAt(t, e, capacity, k);
    }
  }

  lemma RebalanceCounts(t: Table, e: nat, capacity: int)
    requires DistinctIds(t)
    ensures var u, n, slots := Rebalance(t, e, capacity), |With(t, e, Waitlisted)|, Slots(t, e, capacity);
            |With(u, e, Registered)| == |With(t, e, Registered)| + (if slots < n then slots else n)
            && (slots >= n ==> With(u, e, Waitlisted) == {})
  {
    var ws := ListingExists(t, With(t, e, Waitlisted));
    FrontIsPromoted(t, e, capacity, ws);
    OrderedIsDistinct(t, ws);
    DistinctCount(ws);
    assert Elements(ws) == With(t, e, Waitlisted);
    DistinctCount(ws[..Front(t, e, capacity, ws)]);
    RebalanceSplits(t, e, capacity);
    assert With(t, e, Registered) !! Promoted(t, e, capacity);
    if Slots(t, e, capacity) >= |ws| { assert ws[..|ws|] == ws; }
  }

  lemma SuffixMembers(ws: seq<Key>, p: nat, k: Key)
    requires p <= |ws| && forall i, j :: 0 <= i < j < |ws| ==> ws[i] != ws[j]
    ensures k in ws[p..] <==> k in ws && k !in ws[..p]
  {
    assert ws == ws[..p] + ws[p..];
  }

  /** Taking the promoted entries off the front of a listing lists what still waits. */
  lemma SuffixLists(t: Table, u: Table, ws: seq<Key>, p: nat, waiting: set<Key>, front: set<Key>)
    requires Lists(t, ws, waiting) && p <= |ws| && front == Elements(ws[..p]) && u.Keys == t.Keys
    requires forall k :: k in t ==> u[k].registeredAt == t[k].registeredAt && u[k].id == t[k].id
    ensures Lists(u, ws[p..], waiting - front)
  {
    OrderedIsDistinct(t, ws);
    forall k ensures k in ws[p..] <==> k in waiting - front {
      SuffixMembers(ws, p, k);
    }
    var rest := ws[p..];
    forall i, j | 0 <= i < j < |rest| ensures rest[i] in u && rest[j] in u && Earlier(u[rest[i]], u[rest[j]]) {
      assert rest[i] == ws[p + i] && rest[j] == ws[p + j];
    }
  }

  lemma RemainderIsListed(t: Table, e: nat, capacity: int, ws: seq<Key>)
    requires Lists(t, ws, With(t, e, Waitlisted))
    ensures var u := Rebalance(t, e, capacity);
            Lists(u, ws[Front(t, e, capacity, ws)..], With(u, e, Waitlisted))
  {
    FrontIsPromoted(t, e, capacity, ws);
    RebalanceSplits(t, e, capacity);
    SuffixLists(t, Rebalance(t, e, capacity), ws, Front(t, e, capacity, ws), With(t, e, Waitlisted),
                Promoted(t, e, capacity));
  }

  lemma PositionFollows(u: Table, e: nat, rest: seq<Key>, i: nat)
    requires Lists(u, rest, With(u, e, Waitlisted)) && i < |rest| && u[rest[i]].position == Some(i + 1)
    ensures u[rest[i]].position == Some(Ahead(u, e, rest[i]) + 1)
  {
    AheadIsIndex(u, e, rest, i);
  }

  lemma RebalancePositions(t: Table, e: nat, capacity: int, k: Key)
    requires DistinctIds(t) && k in With(Rebalance(t, e, capacity), e, Waitlisted)
    ensures Rebalance(t, e, capacity)[k].position == Some(Ahead(Rebalance(t, e, capacity), e, k) + 1)
  {
    var ws := ListingExists(t, With(t, e, Waitlisted));
    var p := Front(t, e, capacity, ws);
    RemainderIsListed(t, e, capacity, ws);
    var i :| 0 <= i < |ws[p..]| && ws[p..][i] == k;
    PlaceInList(t, e, capacity, ws, p + i);
    PositionFollows(Rebalance(t, e, capacity), e, ws[p..], i);
  }

  lemma RebalanceFills(t: Table, e: nat, capacity: int)
    requires DistinctIds(t) && |With(t, e, Registered)| <= capacity
    ensures var u := Rebalance(t, e, capacity);
            |With(u, e, Registered)| <= capacity
            && (With(u, e, Waitlisted) != {} ==> |With(u, e, Registered)| == capacity)
  {
    RebalanceCounts(t, e, capacity);
  }

  lemma RebalanceClears(t: Table, e: nat, capacity: int)
    requires forall k :: k in t && k.event == e && t[k].status != Waitlisted ==> t[k].position == None
    ensures var u := Rebalance(t, e, capacity);
            forall k :: k in u && k.event == e && u[k].status != Waitlisted ==> u[k].position == None
  {}

  lemma RebalanceFits(t: Table, e: nat, capacity: int)
    requires DistinctIds(t) && |With(t, e, Registered)| <= capacity
    requires forall k :: k in t && k.event == e && t[k].status != Waitlisted ==> t[k].position == None
    ensures Fits(Rebalance(t, e, capacity), e, capacity)
  {
    var u := Rebalance(t, e, capacity);
    RebalanceFills(t, e, capacity);
    RebalanceClears(t, e, capacity);
    forall k | k in With(u, e, Waitlisted) ensures u[k].position == Some(Ahead(u, e, k) + 1) {
      RebalancePositions(t, e, capacity, k);
    }
  }

  lemma AheadIncreases(t: Table, e: nat, a: Key, b: Key)
    requires a in With(t, e, Waitlisted) && b in t && Earlier(t[a], t[b])
    ensures Ahead(t, e, a) < Ahead(t, e, b)
  {
    var before := set j | j in With(t, e, Waitlisted) && Earlier(t[j], t[a]);
    var after := set j | j in With(t, e, Waitlisted) && Earlier(t[j], t[b]);
    assert before <= after && a in after && a !in before;
    CountBelow(before, after);
  }

  lemma RebalanceStaysOrdered(t: Table, e: nat, capacity: int)
    requires DistinctIds(t) && Ordered(t, e)
    ensures Ordered(Rebalance(t, e, capacity), e)
  {
    var u := Rebalance(t, e, capacity);
    RebalanceSplits(t, e, capacity);
    forall r, w | r in With(u, e, Registered) && w in With(u, e, Waitlisted) ensures Earlier(u[r], u[w]) {
      assert w in With(t, e, Waitlisted);
      if r !in With(t, e, Registered) {
        assert r in Promoted(t, e, capacity) && w !in Promoted(t, e, capacity);
        assert r != w && t[r].id != t[w].id;
        if Earlier(t[w], t[r]) { AheadIncreases(t, e, w, r); }
      }
    }
  }

  // ---------------------------------------------------------------- the operations

  predicate Fresh(t: Table, id: nat) {
    forall k :: k in t ==> t[k].id != id
  }

  /** Whatever happened to one event, the registrations of the others are untouched. */
  predicate Elsewhere(t: Table, u: Table, e: nat) {
    (forall k :: k in t && k.event != e ==> k in u && u[k] == t[k])
    && (forall k :: k in u && k.event != e ==> k in t)
  }

  lemma ElsewhereKeeps(t: Table, u: Table, e: nat, f: nat, capacity: int)
    requires Elsewhere(t, u, e) && f != e
    ensures Fits(t, f, capacity) ==> Fits(u, f, capacity)
    ensures Ordered(t, f) ==> Ordered(u, f)
  {
    assert With(t, f, Registered) == With(u, f, Registered);
    assert With(t, f, Waitlisted) == With(u, f, Waitlisted);
    forall k | k in With(t, f, Waitlisted) ensures Ahead(t, f, k) == Ahead(u, f, k) {
      assert (set j | j in With(t, f, Waitlisted) && Earlier(t[j], t[k]))
             == (set j | j in With(u, f, Waitlisted) && Earlier(u[j], u[k]));
    }
  }

  lemma RebalanceElsewhere(t: Table, e: nat, capacity: int)
    ensures Elsewhere(t, Rebalance(t, e, capacity), e)
  {}

  lemma ReplaceMembers(t: Table, e: nat, k: Key, r: Registration)
    requires k.event == e && r.status != Cancelled && (k in t ==> t[k].status == Cancelled)
    ensures var u := t[k := r];
            With(u, e, r.status) == With(t, e, r.status) + {k} && k !in With(t, e, r.status)
            && (r.status == Registered ==> With(u, e, Waitlisted) == With(t, e, Waitlisted))
            && (r.status == Waitlisted ==> With(u, e, Registered) == With(t, e, Registered))
  {}

  /** The table a registration leaves before it rebalances. */
  lemma EnteredFits(t: Table, e: nat, capacity: int, user: nat, now: int, id: nat)
    requires DistinctIds(t) && Fresh(t, id) && Fits(t, e, capacity) && capacity >= 1
    requires Key(e, user) in t ==> t[Key(e, user)].status == Cancelled
    ensures var k := Key(e, user);
            var u := t[k := Entered(t, e, capacity, user, now, id)];
            DistinctIds(u) && Elsewhere(t, u, e)
            && (if |With(t, e, Registered)| < capacity then With(u, e, Waitlisted) == {}
                else (With(u, e, Registered) == With(t, e, Registered)
                      && With(u, e, Waitlisted) == With(t, e, Waitlisted) + {k}))
            && |With(u, e, Registered)| <= capacity
            && (forall j :: j in u && j.event == e && u[j].status != Waitlisted ==> u[j].position == None)
  {
    var r := Entered(t, e, capacity, user, now, id);
    ReplaceMembers(t, e, Key(e, user), r);
    EnteredIds(t, Key(e, user), r, id);
  }

  lemma EnteredIds(t: Table, k: Key, r: Registration, id: nat)
    requires DistinctIds(t) && Fresh(t, id) && r.id == (if k in t then t[k].id else id)
    ensures DistinctIds(t[k := r]) && Elsewhere(t, t[k := r], k.event)
  {}

  /** Registering keeps the table in shape and never promotes anybody. */
  lemma RegisterKeeps(t: Table, e: nat, capacity: int, user: nat, now: int, id: nat)
    requires DistinctIds(t) && Fresh(t, id) && Fits(t, e, capacity) && capacity >= 1
    ensures var r := Register(t, e, capacity, user, now, id);
            DistinctIds(r.table) && Fits(r.table, e, capacity) && Elsewhere(t, r.table, e) && r.promoted == {}
  {
    var k := Key(e, user);
    if !(k in t && t[k].status != Cancelled) {
      var u := t[k := Entered(t, e, capacity, user, now, id)];
      EnteredFits(t, e, capacity, user, now, id);
      RebalanceFits(u, e, capacity);
      RebalanceElsewhere(u, e, capacity);
      RebalanceSplits(u, e, capacity);
    }
  }

  lemma QueuedIsOrderedExactly(t: Table, u: Table, e: nat, k: Key, r: Registration)
    requires Ordered(t, e) && k !in With(t, e, Registered) && k !in With(t, e, Waitlisted)
    requires With(u, e, Registered) == With(t, e, Registered) && With(u, e, Waitlisted) == With(t, e, Waitlisted) + {k}
    requires forall j :: j in u && j != k ==> j in t && u[j].registeredAt == t[j].registeredAt && u[j].id == t[j].id
    requires u[k].registeredAt == r.registeredAt && u[k].id == r.id
    ensures Ordered(u, e) <==> forall j :: j in With(t, e, Registered) ==> Earlier(t[j], r)
  {
    assert k in With(u, e, Waitlisted);
    if forall j :: j in With(t, e, Registered) ==> Earlier(t[j], r) {
      forall j, w | j in With(u, e, Registered) && w in With(u, e, Waitlisted) ensures Earlier(u[j], u[w]) {
        assert j != k;
      }
    }
    if Ordered(u, e) {
      forall j | j in With(t, e, Registered) ensures Earlier(t[j], r) {
        assert j in With(u, e, Registered) && Earlier(u[j], u[k]);
      }
    }
  }

  lemma RegisterMembers(t: Table, e: nat, capacity: int, user: nat, now: int, id: nat)
    requires DistinctIds(t) && Fresh(t, id) && Fits(t, e, capacity) && capacity >= 1
    requires Key(e, user) in t ==> t[Key(e, user)].status == Cancelled
    ensures var u := t[Key(e, user) := Entered(t, e, capacity, user, now, id)];
            var after := Register(t, e, capacity, user, now, id).table;
            after.Keys == u.Keys && With(after, e, Registered) == With(u, e, Registered)
            && With(after, e, Waitlisted) == With(u, e, Waitlisted)
            && forall j :: j in u ==> after[j].registeredAt == u[j].registeredAt && after[j].id == u[j].id
  {
    var u := t[Key(e, user) := Entered(t, e, capacity, user, now, id)];
    RegisterKeeps(t, e, capacity, user, now, id);
    RebalanceSplits(u, e, capacity);
    assert Promoted(u, e, capacity) == {};
  }

  /**
   * A new registration leaves the table as sorting from scratch would have it exactly when there was room,
   * or it comes, by time and identifier, after everybody who is in.
   */
  lemma RegisterStaysOrderedExactly(t: Table, e: nat, capacity: int, user: nat, now: int, id: nat)
    requires DistinctIds(t) && Fresh(t, id) && Fits(t, e, capacity) && capacity >= 1 && Ordered(t, e)
    requires Key(e, user) in t ==> t[Key(e, user)].status == Cancelled
    ensures FromScratch(Register(t, e, capacity, user, now, id).table, e, capacity) <==>
            |With(t, e, Registered)| < capacity
            || forall r :: r in With(t, e, Registered) ==> Earlier(t[r], Entered(t, e, capacity, user, now, id))
  {
    var k, r := Key(e, user), Entered(t, e, capacity, user, now, id);
    var after := Register(t, e, capacity, user, now, id).table;
    RegisterKeeps(t, e, capacity, user, now, id);
    FromScratchExactly(after, e, capacity);
    EnteredFits(t, e, capacity, user, now, id);
    RegisterMembers(t, e, capacity, user, now, id);
    NewcomerDecides(t, after, t[k := r], e, capacity, k, r);
  }

  lemma NewcomerDecides(t: Table, after: Table, u: Table, e: nat, capacity: int, k: Key, r: Registration)
    requires Ordered(t, e) && k.event == e && (k in t ==> t[k].status == Cancelled) && u == t[k := r]
    requires after.Keys == u.Keys && With(after, e, Registered) == With(u, e, Registered)
             && With(after, e, Waitlisted) == With(u, e, Waitlisted)
    requires forall j :: j in u ==> after[j].registeredAt == u[j].registeredAt && after[j].id == u[j].id
    requires if |With(t, e, Registered)| < capacity then With(u, e, Waitlisted) == {}
             else (With(u, e, Registered) == With(t, e, Registered)
                   && With(u, e, Waitlisted) == With(t, e, Waitlisted) + {k})
    ensures Ordered(after, e) <==>
            |With(t, e, Registered)| < capacity || forall j :: j in With(t, e, Registered) ==> Earlier(t[j], r)
  {
    if |With(t, e, Registered)| >= capacity {
      QueuedIsOrderedExactly(t, after, e, k, r);
    }
  }

  lemma WithdrawnFits(t: Table, e: nat, capacity: int, k: Key, now: int)
    requires DistinctIds(t) && Fits(t, e, capacity) && k in t && k.event == e && t[k].status != Cancelled
    ensures var u := t[k := Withdrawn(t[k], now)];
            DistinctIds(u) && Elsewhere(t, u, e) && |With(u, e, Registered)| <= capacity
            && (forall j :: j in u && j.event == e && u[j].status != Waitlisted ==> u[j].position == None)
            && (Ordered(t, e) ==> Ordered(u, e))
  {
    var u := t[k := Withdrawn(t[k], now)];
    assert With(u, e, Registered) == With(t, e, Registered) - {k};
    assert With(u, e, Waitlisted) == With(t, e, Waitlisted) - {k};
  }

  /** Cancelling keeps the table in shape and can never put a later arrival before an earlier one. */
  lemma CancelKeeps(t: Table, e: nat, capacity: int, user: nat, now: int)
    requires DistinctIds(t) && Fits(t, e, capacity) && Cancel(t, e, capacity, user, now).Some?
    ensures var r := Cancel(t, e, capacity, user, now).value;
            DistinctIds(r.table) && Fits(r.table, e, capacity) && Elsewhere(t, r.table, e)
            && (Ordered(t, e) ==> Ordered(r.table, e))
  {
    var k := Key(e, user);
    if t[k].status != Cancelled {
      var u := t[k := Withdrawn(t[k], now)];
      WithdrawnFits(t, e, capacity, k, now);
      RebalanceFits(u, e, capacity);
      RebalanceElsewhere(u, e, capacity);
      RebalanceSplits(u, e, capacity);
      if Ordered(t, e) { RebalanceStaysOrdered(u, e, capacity); }
    }
  }

  lemma CancelAllKeeps(t: Table, e: nat, capacity: int, now: int)
    requires DistinctIds(t) && Fits(t, e, capacity)
    ensures var u := CancelAll(t, e, now);
            DistinctIds(u) && Fits(u, e, capacity) && Elsewhere(t, u, e) && Ordered(u, e) && Active(u, e) == {}
  {
    var u := CancelAll(t, e, now);
    assert With(u, e, Registered) == {} && With(u, e, Waitlisted) == {};
  }

  // ---------------------------------------------------------------- every history

  datatype Step =
    | Join(event: nat, user: nat, now: int, id: nat)
    | Leave(event: nat, user: nat, now: int)
    | CallOff(event: nat, now: int)

  /** Identifiers are random, so a step that would reuse one does not happen. */
  function Apply(t: Table, cap: nat -> int, s: Step): Table {
    match s
    case Join(e, user, now, id) => if Fresh(t, id) then Register(t, e, cap(e), user, now, id).table else t
    case Leave(e, user, now) =>
      var r := Cancel(t, e, cap(e), user, now);
      if r.Some? then r.value.table else t
    case CallOff(e, now) => CancelAll(t, e, now)
  }

  function History(cap: nat -> int, steps: seq<Step>): Table {
    if steps == [] then map[] else Apply(History(cap, steps[..|steps| - 1]), cap, steps[|steps| - 1])
  }

  ghost predicate AllFit(t: Table, cap: nat -> int) {
    DistinctIds(t) && forall e: nat :: Fits(t, e, cap(e))
  }

  lemma OneEventKeeps(t: Table, u: Table, e: nat, cap: nat -> int)
    requires AllFit(t, cap) && DistinctIds(u) && Fits(u, e, cap(e)) && Elsewhere(t, u, e)
    ensures AllFit(u, cap)
  {
    forall f: nat ensures Fits(u, f, cap(f)) {
      if f != e {
        assert Fits(t, f, cap(f));
        ElsewhereKeeps(t, u, e, f, cap(f));
      }
    }
  }

  lemma ApplyKeeps(t: Table, cap: nat -> int, s: Step)
    requires AllFit(t, cap) && cap(s.event) >= 1
    ensures AllFit(Apply(t, cap, s), cap) && Elsewhere(t, Apply(t, cap, s), s.event)
    ensures !s.Join? && Ordered(t, s.event) ==> Ordered(Apply(t, cap, s), s.event)
  {
    var e, u := s.event, Apply(t, cap, s);
    StepKeeps(t, cap(e), s, u, cap);
    OneEventKeeps(t, u, e, cap);
  }

  lemma StepKeeps(t: Table, capacity: int, s: Step, u: Table, cap: nat -> int)
    requires DistinctIds(t) && Fits(t, s.event, capacity) && capacity >= 1 && capacity == cap(s.event)
             && u == Apply(t, cap, s)
    ensures DistinctIds(u) && Fits(u, s.event, capacity) && Elsewhere(t, u, s.event)
    ensures !s.Join? && Ordered(t, s.event) ==> Ordered(u, s.event)
  {
    match s
    case Join(e, user, now, id) => if Fresh(t, id) { RegisterKeeps(t, e, capacity, user, now, id); }
    case Leave(e, user, now) => if Cancel(t, e, capacity, user, now).Some? { CancelKeeps(t, e, capacity, user, now); }
    case CallOff(e, now) => CancelAllKeeps(t, e, capacity, now);
  }

  /**
   * Under any clock: nobody is over capacity, nobody waits beside a free place, positions are 1..n, and
   * the table is the from-scratch one exactly when nobody waits behind a later arrival.
   */
  lemma {:induction false} WaitlistHolds(cap: nat -> int, steps: seq<Step>, e: nat)
    requires forall f :: cap(f) >= 1
    ensures AllFit(History(cap, steps), cap)
    ensures FromScratch(History(cap, steps), e, cap(e)) <==> Ordered(History(cap, steps), e)
  {
    if steps != [] {
      WaitlistHolds(cap, steps[..|steps| - 1], e);
      ApplyKeeps(History(cap, steps[..|steps| - 1]), cap, steps[|steps| - 1]);
    } else {
      forall f: nat ensures Fits(map[], f, cap(f)) {
        assert With(map[], f, Registered) == {} && With(map[], f, Waitlisted) == {};
      }
    }
    FromScratchExactly(History(cap, steps), e, cap(e));
  }

  /** Every registration reads a later clock than the one before it. */
  predicate Ticks(steps: seq<Step>) {
    forall i, j :: 0 <= i < j < |steps| && steps[i].Join? && steps[j].Join? ==> steps[i].now < steps[j].now
  }

  predicate Before(t: Table, now: int) {
    forall k :: k in t ==> t[k].registeredAt < now
  }

  lemma ApplyStaysBefore(t: Table, cap: nat -> int, s: Step, now: int)
    requires Before(t, now) && (s.Join? ==> s.now < now)
    ensures Before(Apply(t, cap, s), now)
  {}

  lemma {:induction false} HistoryIsBefore(cap: nat -> int, steps: seq<Step>, now: int)
    requires forall s :: s in steps && s.Join? ==> s.now < now
    ensures Before(History(cap, steps), now)
  {
    if steps != [] {
      var last := |steps| - 1;
      assert steps[last] in steps && forall s :: s in steps[..last] ==> s in steps;
      HistoryIsBefore(cap, steps[..last], now);
      ApplyStaysBefore(History(cap, steps[..last]), cap, steps[last], now);
    }
  }

  lemma JoinStaysOrdered(t: Table, e: nat, capacity: int, user: nat, now: int, id: nat)
    requires DistinctIds(t) && Fresh(t, id) && Fits(t, e, capacity) && capacity >= 1 && Ordered(t, e) && Before(t, now)
    ensures Ordered(Register(t, e, capacity, user, now, id).table, e)
  {
    var k := Key(e, user);
    if !(k in t && t[k].status != Cancelled) {
      RegisterStaysOrderedExactly(t, e, capacity, user, now, id);
      RegisterKeeps(t, e, capacity, user, now, id);
      FromScratchExactly(Register(t, e, capacity, user, now, id).table, e, capacity);
    }
  }

  /** While the clock strictly increases, the maintained table is always the from-scratch one. */
  lemma {:induction false} ClockKeepsOrder(cap: nat -> int, steps: seq<Step>, e: nat)
    requires (forall f :: cap(f) >= 1) && Ticks(steps)
    ensures FromScratch(History(cap, steps), e, cap(e))
    decreases |steps|
  {
    WaitlistHolds(cap, steps, e);
    if steps != [] {
      var before, s := steps[..|steps| - 1], steps[|steps| - 1];
      var t := History(cap, before);
      ClockKeepsOrder(cap, before, e);
      WaitlistHolds(cap, before, e);
      ApplyKeeps(t, cap, s);
      if s.event != e {
        ElsewhereKeeps(t, Apply(t, cap, s), s.event, e, cap(e));
      } else if s.Join? && Fresh(t, s.id) {
        forall x | x in before && x.Join? ensures x.now < s.now {
          var i :| 0 <= i < |before| && before[i] == x;
          assert steps[i] == x;
        }
        HistoryIsBefore(cap, before, s.now);
        JoinStaysOrdered(t, e, cap(e), s.user, s.now, s.id);
      }
    }
  }

  /** Two registrations in the same millisecond: the smaller identifier loses the last place to the earlier call. */
  lemma TieBreaksOrder()
    ensures var cap := (_: nat) => 1;
            var steps := [Join(0, 1, 10, 5), Join(0, 2, 10, 3)];
            !FromScratch(History(cap, steps), 0, 1)
  {
    var cap := (_: nat) => 1;
    var first, both := [Join(0, 1, 10, 5)], [Join(0, 1, 10, 5), Join(0, 2, 10, 3)];
    var empty: Table := map[];
    assert first[..0] == [] && both[..1] == first;
    assert With(empty, 0, Registered) == {} && With(empty, 0, Waitlisted) == {};
    var a := Key(0, 1);
    var one := empty[a := Registration(5, Registered, None, 10, None)];
    assert With(one, 0, Waitlisted) == {} && Rebalance(one, 0, 1) == one;
    assert History(cap, []) == empty;
    assert History(cap, first) == one;
    assert With(one, 0, Registered) == {a};
    assert Fits(one, 0, 1) && Ordered(one, 0) && DistinctIds(one);
    RegisterStaysOrderedExactly(one, 0, 1, 2, 10, 3);
    assert a in With(one, 0, Registered);
    assert History(cap, both) == Apply(History(cap, both[..1]), cap, both[1]);
  }
}
