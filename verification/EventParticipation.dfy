/** The registration table of all events: register, cancel, and the rebalancing of a waitlist. */
module EventParticipation {
  import opened Common

  datatype Key = Key(event: nat, user: nat)
  datatype Status = Registered | Waitlisted | Cancelled
  datatype Registration = Registration(id: nat, status: Status, position: Option<nat>, registeredAt: int,
          cancelledAt: Option<int>)
  type Table = map<Key, Registration>

  predicate Earlier(a: Registration, b: Registration) {
    a.registeredAt < b.registeredAt || (a.registeredAt == b.registeredAt && a.id < b.id)
  }

  predicate DistinctIds(t: Table) {
    forall j, k :: j in t && k in t && t[j].id == t[k].id ==> j == k
  }

  /** The registrations of one event that have one status. */
  function With(t: Table, e: nat, s: Status): set<Key> {
    set k | k in t && k.event == e && t[k].status == s
  }

  /** How many waitlisted registrations of the event come before this one. */
  function Ahead(t: Table, e: nat, k: Key): nat
    requires k in t
  {
    |set j | j in With(t, e, Waitlisted) && Earlier(t[j], t[k])|
  }

  function Slots(t: Table, e: nat, capacity: int): nat {
    var n := |With(t, e, Registered)|;
    if capacity > n then capacity - n else 0
  }

  function Promoted(t: Table, e: nat, capacity: int): set<Key> {
    set k | k in With(t, e, Waitlisted) && Ahead(t, e, k) < Slots(t, e, capacity)
  }

  function Promotion(r: Registration): Registration {
    r.(status := Registered, position := None)
  }

  /** Free slots go to the front of the waitlist and the others are numbered from one. */
  function Rebalance(t: Table, e: nat, capacity: int): Table {
    map k | k in t ::
      if k !in With(t, e, Waitlisted) then t[k]
      else if Ahead(t, e, k) < Slots(t, e, capacity) then Promotion(t[k])
      else t[k].(position := Some(Ahead(t, e, k) - Slots(t, e, capacity) + 1))
  }

  datatype Enrolment = Enrolment(table: Table, replayed: bool, promoted: set<Key>)

  function Entered(t: Table, e: nat, capacity: int, user: nat, now: int, id: nat): Registration {
    var full := |With(t, e, Registered)| >= capacity;
    var k := Key(e, user);
    Registration(if k in t then t[k].id else id,
                 if full then Waitlisted else Registered,
                 if full then Some(|With(t, e, Waitlisted)| + 1) else None,
                 now, None)
  }

  /** `id` is the identifier the random source would give a registration that does not exist yet. */
  function Register(t: Table, e: nat, capacity: int, user: nat, now: int, id: nat): Enrolment {
    var k := Key(e, user);
    if k in t && t[k].status != Cancelled then Enrolment(t, true, {})
    else
      var u := t[k := Entered(t, e, capacity, user, now, id)];
      Enrolment(Rebalance(u, e, capacity), false, Promoted(u, e, capacity))
  }

  function Withdrawn(r: Registration, now: int): Registration {
    r.(status := Cancelled, position := None, cancelledAt := Some(now))
  }

  /** `None` when the user never registered. */
  function Cancel(t: Table, e: nat, capacity: int, user: nat, now: int): Option<Enrolment> {
    var k := Key(e, user);
    if k !in t then None
    else if t[k].status == Cancelled then Some(Enrolment(t, true, {}))
    else
      var u := t[k := Withdrawn(t[k], now)];
      Some(Enrolment(Rebalance(u, e, capacity), false, Promoted(u, e, capacity)))
  }

  function CancelAll(t: Table, e: nat, now: int): Table {
    map k | k in t :: if k.event == e && t[k].status != Cancelled then Withdrawn(t[k], now) else t[k]
  }

  // ---------------------------------------------------------------- sorted listings

  function Place(t: Table, ws: seq<Key>, k: Key): seq<Key>
    requires k in t && forall w :: w in ws ==> w in t
  {
    if ws == [] || Earlier(t[k], t[ws[0]]) then [k] + ws
    else [ws[0]] + Place(t, ws[1..], k)
  }

  predicate InOrder(t: Table, ws: seq<Key>)
    requires forall w :: w in ws ==> w in t
  {
    forall i, j :: 0 <= i < j < |ws| ==> Earlier(t[ws[i]], t[ws[j]])
  }

  ghost predicate Lists(t: Table, ws: seq<Key>, members: set<Key>) {
    (forall k :: k in ws <==> k in members) && (forall k :: k in members ==> k in t) && InOrder(t, ws)
  }

  lemma {:induction false} PlaceInOrder(t: Table, ws: seq<Key>, k: Key)
    requires DistinctIds(t) && k in t && k !in ws && (forall w :: w in ws ==> w in t) && InOrder(t, ws)
    ensures forall w :: w in Place(t, ws, k) <==> w in ws || w == k
    ensures InOrder(t, Place(t, ws, k))
  {
    if ws == [] {
    } else if Earlier(t[k], t[ws[0]]) {
      forall j | 0 <= j < |ws| ensures Earlier(t[k], t[ws[j]]) {
        assert j > 0 ==> Earlier(t[ws[0]], t[ws[j]]);
      }
    } else {
      PlaceInOrder(t, ws[1..], k);
      var rest := Place(t, ws[1..], k);
      assert Earlier(t[ws[0]], t[k]) by { assert t[ws[0]].id != t[k].id; }
      forall j | 0 <= j < |rest| ensures Earlier(t[ws[0]], t[rest[j]]) {
        assert rest[j] in rest;
        if rest[j] != k {
          var i :| 0 <= i < |ws[1..]| && ws[1..][i] == rest[j];
          assert ws[i + 1] == rest[j];
        }
      }
    }
  }

  function Elements(ws: seq<Key>): set<Key> {
    set k | k in ws
  }

  lemma {:induction false} DistinctCount(ws: seq<Key>)
    requires forall i, j :: 0 <= i < j < |ws| ==> ws[i] != ws[j]
    ensures |Elements(ws)| == |ws|
  {
    if ws != [] {
      var front, last := ws[..|ws| - 1], ws[|ws| - 1];
      DistinctCount(front);
      assert ws == front + [last];
      assert Elements(ws) == Elements(front) + {last};
      assert last !in front;
    }
  }

  lemma OrderedIsDistinct(t: Table, ws: seq<Key>)
    requires (forall w :: w in ws ==> w in t) && InOrder(t, ws)
    ensures forall i, j :: 0 <= i < j < |ws| ==> ws[i] != ws[j]
  {}

  /** In a listing of the waitlist, the index of an entry is the number of entries ahead of it. */
  lemma AheadIsIndex(t: Table, e: nat, ws: seq<Key>, i: nat)
    requires Lists(t, ws, With(t, e, Waitlisted)) && i < |ws|
    ensures Ahead(t, e, ws[i]) == i && |ws| == |With(t, e, Waitlisted)|
  {
    OrderedIsDistinct(t, ws);
    var before := set j | j in With(t, e, Waitlisted) && Earlier(t[j], t[ws[i]]);
    forall k ensures k in before <==> k in ws[..i] {
      if k in before {
        var j :| 0 <= j < |ws| && ws[j] == k;
        assert j < i;
        assert ws[..i][j] == k;
      }
    }
    assert before == Elements(ws[..i]);
    DistinctCount(ws[..i]);
    DistinctCount(ws);
    assert Elements(ws) == With(t, e, Waitlisted);
  }

  lemma ListingIsUnique(t: Table, e: nat, a: seq<Key>, b: seq<Key>)
    requires Lists(t, a, With(t, e, Waitlisted)) && Lists(t, b, With(t, e, Waitlisted))
    ensures a == b
  {
    OrderedIsDistinct(t, a);
    OrderedIsDistinct(t, b);
    DistinctCount(a);
    DistinctCount(b);
    assert Elements(a) == With(t, e, Waitlisted) == Elements(b);
    forall i | 0 <= i < |a| ensures a[i] == b[i] {
      assert a[i] in b;
      var j :| 0 <= j < |b| && b[j] == a[i];
      AheadIsIndex(t, e, a, i);
      AheadIsIndex(t, e, b, j);
    }
  }

  function PromoteFirst(t: Table, ws: seq<Key>): Table {
    map k | k in t :: if k in ws then Promotion(t[k]) else t[k]
  }

  /** `u` is `t` with the first `n` entries of the list numbered from one. */
  ghost predicate Numbered(t: Table, u: Table, ws: seq<Key>, n: nat)
    requires n <= |ws|
  {
    u.Keys == t.Keys
    && (forall i :: 0 <= i < n ==> ws[i] in t && u[ws[i]] == t[ws[i]].(position := Some(i + 1)))
    && forall k :: k in t && k !in ws[..n] ==> u[k] == t[k]
  }

  lemma StillWaiting(t: Table, e: nat, ws: seq<Key>, p: nat, k: Key)
    requires Lists(t, ws, With(t, e, Waitlisted)) && p <= |ws|
    ensures k in ws[p..] <==> k in With(PromoteFirst(t, ws[..p]), e, Waitlisted)
  {
    OrderedIsDistinct(t, ws);
    var u := PromoteFirst(t, ws[..p]);
    if k in ws[p..] {
      assert k in ws;
      var i :| p <= i < |ws| && ws[i] == k;
      assert k !in ws[..p];
    }
    if k in With(u, e, Waitlisted) {
      assert k !in ws[..p];
      assert k in ws;
      var i :| 0 <= i < |ws| && ws[i] == k;
      assert ws[p..][i - p] == k;
    }
  }

  lemma RemainderLists(t: Table, e: nat, ws: seq<Key>, p: nat)
    requires Lists(t, ws, With(t, e, Waitlisted)) && p <= |ws|
    ensures var u := PromoteFirst(t, ws[..p]);
            Lists(u, ws[p..], With(u, e, Waitlisted))
  {
    var u := PromoteFirst(t, ws[..p]);
    forall k ensures k in ws[p..] <==> k in With(u, e, Waitlisted) { StillWaiting(t, e, ws, p, k); }
    forall i | p <= i < |ws| ensures ws[i] in u && u[ws[i]] == t[ws[i]] {
      assert ws[p..][i - p] == ws[i];
    }
  }

  /** The waitlist entries that a sorted listing puts in front of the free slots. */
  function Front(t: Table, e: nat, capacity: int, ws: seq<Key>): nat
    ensures Front(t, e, capacity, ws) <= |ws|
  {
    if Slots(t, e, capacity) < |ws| then Slots(t, e, capacity) else |ws|
  }

  lemma PlaceInList(t: Table, e: nat, capacity: int, ws: seq<Key>, i: nat)
    requires Lists(t, ws, With(t, e, Waitlisted)) && i < |ws|
    ensures var p := Front(t, e, capacity, ws);
            (i < p ==> Rebalance(t, e, capacity)[ws[i]] == Promotion(t[ws[i]]))
            && (i >= p ==> Rebalance(t, e, capacity)[ws[i]] == t[ws[i]].(position := Some(i - p + 1)))
            && (i < p <==> ws[i] in Promoted(t, e, capacity))
  {
    AheadIsIndex(t, e, ws, i);
    assert ws[i] in With(t, e, Waitlisted);
  }

  /** Promoting a prefix of the sorted waitlist and numbering the rest is the rebalancing above. */
  lemma TwoPassesRebalance(t: Table, e: nat, capacity: int, ws: seq<Key>, final: Table)
    requires Lists(t, ws, With(t, e, Waitlisted))
    requires var p := Front(t, e, capacity, ws);
             Numbered(PromoteFirst(t, ws[..p]), final, ws[p..], |ws| - p)
    ensures final == Rebalance(t, e, capacity)
  {
    OrderedIsDistinct(t, ws);
    var p, spec := Front(t, e, capacity, ws), Rebalance(t, e, capacity);
    var u := PromoteFirst(t, ws[..p]);
    assert ws[p..][..|ws| - p] == ws[p..];
    forall k | k in t ensures final[k] == spec[k] {
      if k in ws {
        var i :| 0 <= i < |ws| && ws[i] == k;
        PlaceInList(t, e, capacity, ws, i);
        if i < p {
          assert ws[..p][i] == k && k !in ws[p..];
        } else {
          assert ws[p..][i - p] == k && k !in ws[..p];
        }
      } else {
        assert k !in ws[..p] && k !in ws[p..];
      }
    }
  }

  lemma FrontIsPromoted(t: Table, e: nat, capacity: int, ws: seq<Key>)
    requires Lists(t, ws, With(t, e, Waitlisted))
    ensures Promoted(t, e, capacity) == Elements(ws[..Front(t, e, capacity, ws)])
  {
    var p := Front(t, e, capacity, ws);
    forall k ensures k in Promoted(t, e, capacity) <==> k in ws[..p] {
      if k in ws {
        var i :| 0 <= i < |ws| && ws[i] == k;
        PlaceInList(t, e, capacity, ws, i);
        if i < p { assert ws[..p][i] == k; }
      }
      if k in ws[..p] {
        var i :| 0 <= i < p && ws[i] == k;
        PlaceInList(t, e, capacity, ws, i);
      }
    }
  }

  class Repository {
    var registrations: Table

    constructor ()
      ensures registrations == map[]
    {
      registrations := map[];
    }

    method SortedWaiting(e: nat) returns (ws: seq<Key>)
      requires DistinctIds(registrations)
      ensures Lists(registrations, ws, With(registrations, e, Waitlisted))
    {
      ws := [];
      var rest := With(registrations, e, Waitlisted);
      while rest != {}
        invariant rest <= With(registrations, e, Waitlisted)
        invariant Lists(registrations, ws, With(registrations, e, Waitlisted) - rest)
      {
        var k :| k in rest;
        PlaceInOrder(registrations, ws, k);
        ws := Place(registrations, ws, k);
        rest := rest - {k};
      }
    }

    method RebalanceEvent(e: nat, capacity: int) returns (promoted: seq<Key>)
      requires DistinctIds(registrations)
      modifies this
      ensures registrations == Rebalance(old(registrations), e, capacity)
      ensures Elements(promoted) == Promoted(old(registrations), e, capacity)
      ensures forall i, j :: 0 <= i < j < |promoted| ==> promoted[i] != promoted[j]
    {
      ghost var was := registrations;
      var waitlisted := SortedWaiting(e);
      var p := Front(registrations, e, capacity, waitlisted);
      promoted := PromoteInOrder(waitlisted, p);
      RemainderLists(was, e, waitlisted, p);
      OrderedIsDistinct(was, waitlisted);
      ghost var middle := registrations;
      var remaining := SortedWaiting(e);
      ListingIsUnique(middle, e, remaining, waitlisted[p..]);
      NumberInOrder(remaining);
      TwoPassesRebalance(was, e, capacity, waitlisted, registrations);
      FrontIsPromoted(was, e, capacity, waitlisted);
    }

    method PromoteInOrder(ws: seq<Key>, p: nat) returns (promoted: seq<Key>)
      requires p <= |ws| && (forall w :: w in ws ==> w in registrations) && InOrder(registrations, ws)
      modifies this
      ensures registrations == PromoteFirst(old(registrations), ws[..p]) && promoted == ws[..p]
    {
      OrderedIsDistinct(registrations, ws);
      promoted := [];
      for i := 0 to p
        invariant promoted == ws[..i] && registrations == PromoteFirst(old(registrations), ws[..i])
      {
        var k := ws[i];
        assert ws[..i + 1] == ws[..i] + [k] && k !in ws[..i];
        registrations := registrations[k := Promotion(registrations[k])];
        promoted := promoted + [k];
      }
    }

    method NumberInOrder(ws: seq<Key>)
      requires (forall w :: w in ws ==> w in registrations) && InOrder(registrations, ws)
      modifies this
      ensures Numbered(old(registrations), registrations, ws, |ws|)
    {
      OrderedIsDistinct(registrations, ws);
      for i := 0 to |ws|
        invariant Numbered(old(registrations), registrations, ws, i)
      {
        var k := ws[i];
        assert ws[..i + 1] == ws[..i] + [k] && k !in ws[..i];
        registrations := registrations[k := registrations[k].(position := Some(i + 1))];
      }
    }

    method RegisterUser(e: nat, capacity: int, user: nat, now: int, id: nat)
      returns (replayed: bool, promoted: seq<Key>)
      requires DistinctIds(registrations) && forall k :: k in registrations ==> registrations[k].id != id
      modifies this
      ensures Enrolment(registrations, replayed, Elements(promoted)) ==
              Register(old(registrations), e, capacity, user, now, id)
      ensures forall i, j :: 0 <= i < j < |promoted| ==> promoted[i] != promoted[j]
    {
      var k := Key(e, user);
      if k in registrations && registrations[k].status != Cancelled {
        return true, [];
      }
      var full := |With(registrations, e, Registered)| >= capacity;
      var position := if full then Some(|With(registrations, e, Waitlisted)| + 1) else None;
      var own := if k in registrations then registrations[k].id else id;
      var r := Registration(own, if full then Waitlisted else Registered, position, now, None);
      registrations := registrations[k := r];
      promoted := RebalanceEvent(e, capacity);
      replayed := false;
    }

    method CancelUser(e: nat, capacity: int, user: nat, now: int)
      returns (found: bool, replayed: bool, promoted: seq<Key>)
      requires DistinctIds(registrations)
      modifies this
      ensures found == Cancel(old(registrations), e, capacity, user, now).Some?
      ensures !found ==> registrations == old(registrations) && promoted == []
      ensures found ==>
                Enrolment(registrations, replayed, Elements(promoted)) ==
                Cancel(old(registrations), e, capacity, user, now).value
      ensures forall i, j :: 0 <= i < j < |promoted| ==> promoted[i] != promoted[j]
    {
      var k := Key(e, user);
      if k !in registrations { return false, false, []; }
      if registrations[k].status == Cancelled { return true, true, []; }
      registrations := registrations[k := Withdrawn(registrations[k], now)];
      promoted := RebalanceEvent(e, capacity);
      found, replayed := true, false;
    }

    method CancelEveryone(e: nat, now: int)
      modifies this
      ensures registrations == CancelAll(old(registrations), e, now)
    {
      ghost var was := registrations;
      var rest := registrations.Keys;
      while rest != {}
        invariant rest <= was.Keys && registrations.Keys == was.Keys
        invariant forall k :: k in was ==> registrations[k] == if k in rest then was[k] else CancelAll(was, e, now)[k]
      {
        var k :| k in rest;
        rest := rest - {k};
        if k.event == e && registrations[k].status != Cancelled {
          registrations := registrations[k := Withdrawn(registrations[k], now)];
        }
      }
    }
  }
}
