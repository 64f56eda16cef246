/** Every sequence of service calls, accepted or refused, keeps reminders, invitations and capacity in step. */
module EventRuns {
  import opened Common
  import opened EventParticipation
  import opened EventReminders
  import opened EventService
  import opened EventWaitlist

  datatype Call =
    | DoCreate(e: nat, event: Event)
    | DoRegister(e: nat, user: nat, now: int, id: nat, people: People)
    | DoCancel(e: nat, user: nat, now: int, people: People)
    | DoInvite(e: nat, host: nat, user: nat, people: People)
    | DoRevoke(e: nat, host: nat, user: nat, now: int, people: People)
    | DoCallOff(e: nat, user: nat, now: int, people: People)
    | DoReconcile(e: nat, user: nat, now: int, people: People)

  const EMPTY := Db(map[], map[], map[], map[])

  function Perform(db: Db, c: Call): Db {
    match c
    case DoCreate(e, event) => Create(db, e, event)
    case DoRegister(e, user, now, id, people) =>
      if EventWaitlist.Fresh(db.table, id) then RegisterEvent(db, e, user, now, id, people).0 else db
    case DoCancel(e, user, now, people) => CancelRegistration(db, e, user, now, people).0
    case DoInvite(e, host, user, people) => InviteUser(db, e, host, user, people).0
    case DoRevoke(e, host, user, now, people) => RevokeInvitation(db, e, host, user, now, people).0
    case DoCallOff(e, user, now, people) => CancelEvent(db, e, user, now, people).0
    case DoReconcile(e, user, now, people) => ReconcileReminders(db, e, user, now, people).0
  }

  function Run(calls: seq<Call>): Db {
    if calls == [] then EMPTY else Perform(Run(calls[..|calls| - 1]), calls[|calls| - 1])
  }

  // ---------------------------------------------------------------- the invariant

  function CapacityOf(events: map<nat, Event>, e: nat): int {
    if e in events then events[e].capacity else 1
  }

  predicate Live(m: Intents, r: ReminderKey) {
    r in m && m[r].status != Dropped
  }

  /** An intent is live exactly for a registered attendee, and then it is about that registration. */
  predicate FollowsAt(m: Intents, t: Table, events: map<nat, Event>, r: ReminderKey) {
    (Live(m, r) <==> IsRegistered(t, Key(r.event, r.user)))
    && (Live(m, r) ==>
          r.event in events && m[r].registrationId == t[Key(r.event, r.user)].id
          && m[r].scheduledFor == events[r.event].startAt - Offset(r.kind))
  }

  ghost predicate Follow(m: Intents, t: Table, events: map<nat, Event>) {
    forall r :: FollowsAt(m, t, events, r)
  }

  predicate EventsOk(events: map<nat, Event>) {
    forall e :: e in events ==> 1 <= events[e].capacity <= MAX_EVENT_CAPACITY && events[e].startAt < events[e].endAt
  }

  /** Active registrations are of scheduled events, never of the host, and invited where the event is private. */
  predicate SeatOk(db: Db, k: Key)
    requires k in db.table
  {
    k.event in db.events
    && (db.table[k].status != Cancelled ==>
          var ev := db.events[k.event];
          !ev.cancelled && ev.host != k.user && (ev.isPrivate ==> Invited(db, k.event, k.user)))
  }

  predicate SeatsOk(db: Db) {
    forall k :: k in db.table ==> SeatOk(db, k)
  }

  ghost predicate TableOk(t: Table, events: map<nat, Event>) {
    DistinctIds(t) && forall e: nat :: Fits(t, e, CapacityOf(events, e))
  }

  ghost predicate Inv(db: Db) {
    EventsOk(db.events) && SeatsOk(db) && TableOk(db.table, db.events) && Follow(db.reminders, db.table, db.events)
  }

  // ---------------------------------------------------------------- reminders

  /** Who is registered after one user's registration changed and others were promoted. */
  predicate Moves(t: Table, u: Table, k: Key, promoted: set<Key>) {
    k !in promoted
    && (forall j :: j in promoted ==> IsRegistered(u, j))
    && (forall j :: j in t ==> j in u && u[j].id == t[j].id)
    && (forall j :: j in u && j != k ==> j in t)
    && (forall j :: j in t && j != k ==> (IsRegistered(u, j) <==> IsRegistered(t, j) || j in promoted))
  }

  lemma SyncFollows(m: Intents, own: Intents, t: Table, u: Table, events: map<nat, Event>, k: Key, promoted: set<Key>,
          people: People, now: int)
    requires Follow(m, t, events) && Moves(t, u, k, promoted) && k.event in events
    requires (forall j :: j in promoted ==> j.event == k.event)
    requires own == if IsRegistered(u, k)
                    then Upsert(m, k.event, k.user, u[k].id, ScheduleOf(events[k.event]), people.preferences(k.user),
                                now)
                    else DropUser(m, k.event, k.user)
    ensures Follow(SyncAll(own, promoted * u.Keys, u, ScheduleOf(events[k.event]), people, now), u, events)
  {
    var s := ScheduleOf(events[k.event]);
    var n := SyncAll(own, promoted * u.Keys, u, s, people, now);
    forall r ensures FollowsAt(n, u, events, r) {
      var j := Key(r.event, r.user);
      assert FollowsAt(m, t, events, r);
      SyncAt(own, promoted * u.Keys, u, s, people, now, r);
      if j == k && IsRegistered(u, k) {
        UpsertAt(m, k.event, k.user, u[k].id, s, people.preferences(k.user), now, r);
      } else if IsRegistered(u, k) {
        UpsertAt(m, k.event, k.user, u[k].id, s, people.preferences(k.user), now, r);
      }
    }
  }

  lemma RegisterMoves(t: Table, e: nat, capacity: int, user: nat, now: int, id: nat)
    requires DistinctIds(t) && EventWaitlist.Fresh(t, id) && Fits(t, e, capacity) && capacity >= 1
    ensures var r := Register(t, e, capacity, user, now, id);
            Moves(t, r.table, Key(e, user), {}) && r.promoted == {} && Key(e, user) in r.table
            && r.table[Key(e, user)].status != Cancelled
            && forall j :: j in t && j != Key(e, user) ==>
                 (r.table[j].status == Cancelled <==> t[j].status == Cancelled)
  {
    var k := Key(e, user);
    RegisterKeeps(t, e, capacity, user, now, id);
    if !(k in t && t[k].status != Cancelled) {
      var u := t[k := Entered(t, e, capacity, user, now, id)];
      RebalanceKeepsSeats(u, e, capacity);
    }
  }

  lemma RebalanceKeepsSeats(t: Table, e: nat, capacity: int)
    ensures var u := Rebalance(t, e, capacity);
            u.Keys == t.Keys
            && forall j :: j in t ==>
                 u[j].id == t[j].id && (u[j].status == Cancelled <==> t[j].status == Cancelled)
                 && (IsRegistered(u, j) <==> IsRegistered(t, j) || j in Promoted(t, e, capacity))
  {}

  lemma CancelMoves(t: Table, e: nat, capacity: int, user: nat, now: int)
    requires Cancel(t, e, capacity, user, now).Some?
    ensures var r := Cancel(t, e, capacity, user, now).value;
            Moves(t, r.table, Key(e, user), r.promoted) && r.table[Key(e, user)].status == Cancelled
            && r.table.Keys == t.Keys && (forall j :: j in r.promoted ==> j.event == e)
            && forall j :: j in t && j != Key(e, user) ==>
                 (r.table[j].status == Cancelled <==> t[j].status == Cancelled)
  {
    var k := Key(e, user);
    if t[k].status != Cancelled {
      var u := t[k := Withdrawn(t[k], now)];
      RebalanceKeepsSeats(u, e, capacity);
    }
  }

  // ---------------------------------------------------------------- each call

  /** Events may change in anything but their capacities. */
  lemma SameCapacities(t: Table, u: Table, events: map<nat, Event>, after: map<nat, Event>, e: nat)
    requires TableOk(t, events) && DistinctIds(u) && Fits(u, e, CapacityOf(events, e)) && Elsewhere(t, u, e)
    requires forall f: nat :: CapacityOf(after, f) == CapacityOf(events, f)
    ensures TableOk(u, after)
  {
    forall f: nat ensures Fits(u, f, CapacityOf(after, f)) {
      if f != e {
        assert Fits(t, f, CapacityOf(events, f));
        ElsewhereKeeps(t, u, e, f, CapacityOf(events, f));
      }
    }
  }

  lemma CreateKeeps(db: Db, e: nat, event: Event)
    requires Inv(db)
    ensures Inv(Create(db, e, event))
  {
    var d := Create(db, e, event);
    if d != db {
      forall f: nat ensures Fits(d.table, f, CapacityOf(d.events, f)) {
        assert Fits(db.table, f, CapacityOf(db.events, f));
        if f == e {
          assert With(db.table, e, Registered) == {} && With(db.table, e, Waitlisted) == {};
        }
      }
      forall r ensures FollowsAt(d.reminders, d.table, d.events, r) {
        assert FollowsAt(db.reminders, db.table, db.events, r);
      }
    }
  }

  lemma RegisterKeepsAll(db: Db, e: nat, user: nat, now: int, id: nat, people: People)
    requires Inv(db) && EventWaitlist.Fresh(db.table, id)
    ensures Inv(RegisterEvent(db, e, user, now, id, people).0)
  {
    if RegisterCheck(db, e, user, now, people).None? {
      var d := RegisterEvent(db, e, user, now, id, people).0;
      var c := db.events[e].capacity;
      assert Fits(db.table, e, CapacityOf(db.events, e));
      RegisterKeeps(db.table, e, c, user, now, id);
      SameCapacities(db.table, d.table, db.events, d.events, e);
      RegisterMoves(db.table, e, c, user, now, id);
      var own := if IsRegistered(d.table, Key(e, user))
                 then Upsert(db.reminders, e, user, d.table[Key(e, user)].id, ScheduleOf(db.events[e]),
                             people.preferences(user), now)
                 else DropUser(db.reminders, e, user);
      SyncFollows(db.reminders, own, db.table, d.table, db.events, Key(e, user), {}, people, now);
      forall k | k in d.table ensures SeatOk(d, k) { if k != Key(e, user) { assert SeatOk(db, k); } }
    }
  }

  /** `invitations` are those after the call: a revoked one may already be gone. */
  lemma CancelAndSyncKeeps(db: Db, e: nat, user: nat, now: int, people: People)
    requires EventsOk(db.events) && TableOk(db.table, db.events) && Follow(db.reminders, db.table, db.events)
             && e in db.events
    requires CancelAndSync(db, e, user, now, people).Some?
    requires forall k :: k in db.table && k != Key(e, user) ==> SeatOk(db, k)
    ensures Inv(CancelAndSync(db, e, user, now, people).value.0)
  {
    var d := CancelAndSync(db, e, user, now, people).value.0;
    var c := db.events[e].capacity;
    assert Fits(db.table, e, CapacityOf(db.events, e));
    CancelKeeps(db.table, e, c, user, now);
    SameCapacities(db.table, d.table, db.events, d.events, e);
    CancelMoves(db.table, e, c, user, now);
    var r := Cancel(db.table, e, c, user, now).value;
    SyncFollows(db.reminders, DropUser(db.reminders, e, user), db.table, d.table, db.events, Key(e, user), r.promoted,
                people, now);
    forall k | k in d.table ensures SeatOk(d, k) { if k != Key(e, user) { assert SeatOk(db, k); } }
  }

  lemma RevokeKeeps(db: Db, e: nat, host: nat, user: nat, now: int, people: People)
    requires Inv(db)
    ensures Inv(RevokeInvitation(db, e, host, user, now, people).0)
  {
    if InviteCheck(db, e, host, people).None? && Invited(db, e, user) {
      var k := Key(e, user);
      var revoked := db.(invitations := db.invitations[k := false]);
      forall j | j in db.table && j != k ensures SeatOk(revoked, j) { assert SeatOk(db, j); }
      if k !in db.table || db.table[k].status == Cancelled {
        forall j | j in db.table ensures SeatOk(revoked, j) { assert SeatOk(db, j); }
      } else {
        CancelAndSyncKeeps(revoked, e, user, now, people);
      }
    }
  }

  lemma InviteKeeps(db: Db, e: nat, host: nat, user: nat, people: People)
    requires Inv(db)
    ensures Inv(InviteUser(db, e, host, user, people).0)
  {
    var d := InviteUser(db, e, host, user, people).0;
    forall k | k in d.table ensures SeatOk(d, k) { assert SeatOk(db, k); }
  }

  lemma CallOffKeeps(db: Db, e: nat, user: nat, now: int, people: People)
    requires Inv(db)
    ensures Inv(CancelEvent(db, e, user, now, people).0)
  {
    var d := CancelEvent(db, e, user, now, people).0;
    if d != db {
      assert Fits(db.table, e, CapacityOf(db.events, e));
      CancelAllKeeps(db.table, e, db.events[e].capacity, now);
      SameCapacities(db.table, d.table, db.events, d.events, e);
      forall r ensures FollowsAt(d.reminders, d.table, d.events, r) {
        assert FollowsAt(db.reminders, db.table, db.events, r);
      }
      forall k | k in d.table ensures SeatOk(d, k) { assert SeatOk(db, k); }
    }
  }

  lemma ReconcileKeeps(db: Db, e: nat, user: nat, now: int, people: People)
    requires Inv(db)
    ensures Inv(ReconcileReminders(db, e, user, now, people).0)
  {
    var d := ReconcileReminders(db, e, user, now, people).0;
    if d != db {
      forall r ensures FollowsAt(d.reminders, d.table, d.events, r) {
        assert FollowsAt(db.reminders, db.table, db.events, r);
        UpsertAt(db.reminders, e, user, db.table[Key(e, user)].id, ScheduleOf(db.events[e]), people.preferences(user),
                 now, r);
      }
      forall k | k in d.table ensures SeatOk(d, k) { assert SeatOk(db, k); }
    }
  }

  lemma PerformKeeps(db: Db, c: Call)
    requires Inv(db)
    ensures Inv(Perform(db, c))
  {
    match c
    case DoCreate(e, event) => CreateKeeps(db, e, event);
    case DoRegister(e, user, now, id, people) =>
      if EventWaitlist.Fresh(db.table, id) { RegisterKeepsAll(db, e, user, now, id, people); }
    case DoCancel(e, user, now, people) =>
      if CancelCheck(db, e, user, people).None? && CancelAndSync(db, e, user, now, people).Some? {
        CancelAndSyncKeeps(db, e, user, now, people);
      }
    case DoInvite(e, host, user, people) => InviteKeeps(db, e, host, user, people);
    case DoRevoke(e, host, user, now, people) => RevokeKeeps(db, e, host, user, now, people);
    case DoCallOff(e, user, now, people) => CallOffKeeps(db, e, user, now, people);
    case DoReconcile(e, user, now, people) => ReconcileKeeps(db, e, user, now, people);
  }

  lemma {:induction false} RunKeeps(calls: seq<Call>)
    ensures Inv(Run(calls))
  {
    if calls == [] {
      forall f: nat ensures Fits(map[], f, 1) {
        assert With(map[], f, Registered) == {} && With(map[], f, Waitlisted) == {};
      }
    } else {
      RunKeeps(calls[..|calls| - 1]);
      PerformKeeps(Run(calls[..|calls| - 1]), calls[|calls| - 1]);
    }
  }

  // ---------------------------------------------------------------- under an increasing clock

  /** Whatever a service call does, to the registration table it is at most one waitlist step. */
  lemma PerformIsOneStep(db: Db, c: Call, cap: nat -> int) returns (s: Option<EventWaitlist.Step>)
    requires forall e :: cap(e) == CapacityOf(db.events, e)
    ensures s.None? ==> Perform(db, c).table == db.table
    ensures s.Some? ==> s.value.event in db.events
    ensures s.Some? ==> Perform(db, c).table == EventWaitlist.Apply(db.table, cap, s.value)
    ensures s.Some? && s.value.Join? ==> c.DoRegister? && c.now == s.value.now
  {
    s := None;
    if Perform(db, c).table != db.table {
      match c
      case DoRegister(e, user, now, id, _) => s := Some(Join(e, user, now, id));
      case DoCancel(e, user, now, _) => s := Some(Leave(e, user, now));
      case DoRevoke(e, _, user, now, _) => s := Some(Leave(e, user, now));
      case DoCallOff(e, _, now, _) => s := Some(CallOff(e, now));
      case _ =>
    }
  }

  ghost predicate AllOrdered(t: Table) {
    forall e: nat :: Ordered(t, e)
  }

  lemma StepStaysOrdered(t: Table, events: map<nat, Event>, cap: nat -> int, s: EventWaitlist.Step)
    requires TableOk(t, events) && (forall e :: cap(e) == CapacityOf(events, e)) && cap(s.event) >= 1
    requires AllOrdered(t) && (s.Join? ==> Before(t, s.now))
    ensures AllOrdered(EventWaitlist.Apply(t, cap, s))
  {
    var e, u := s.event, EventWaitlist.Apply(t, cap, s);
    assert Fits(t, e, CapacityOf(events, e)) && Ordered(t, e);
    StepKeeps(t, cap(e), s, u, cap);
    if s.Join? && EventWaitlist.Fresh(t, s.id) { JoinStaysOrdered(t, e, cap(e), s.user, s.now, s.id); }
    forall f: nat ensures Ordered(u, f) {
      if f != e {
        assert Ordered(t, f);
        ElsewhereKeeps(t, u, e, f, cap(f));
      }
    }
  }

  lemma PerformStaysOrdered(db: Db, c: Call)
    requires Inv(db) && AllOrdered(db.table) && (c.DoRegister? ==> Before(db.table, c.now))
    ensures AllOrdered(Perform(db, c).table)
  {
    var cap := (e: nat) => CapacityOf(db.events, e);
    var s := PerformIsOneStep(db, c, cap);
    if s.Some? { StepStaysOrdered(db.table, db.events, cap, s.value); }
  }

  lemma PerformStaysBefore(db: Db, c: Call, now: int)
    requires Before(db.table, now) && (c.DoRegister? ==> c.now < now)
    ensures Before(Perform(db, c).table, now)
  {
    var cap := (e: nat) => CapacityOf(db.events, e);
    var s := PerformIsOneStep(db, c, cap);
    if s.Some? { ApplyStaysBefore(db.table, cap, s.value, now); }
  }

  lemma {:induction false} RunIsBefore(calls: seq<Call>, now: int)
    requires forall c :: c in calls && c.DoRegister? ==> c.now < now
    ensures Before(Run(calls).table, now)
  {
    if calls != [] {
      var before, last := calls[..|calls| - 1], calls[|calls| - 1];
      assert last in calls && forall c :: c in before ==> c in calls;
      RunIsBefore(before, now);
      PerformStaysBefore(Run(before), last, now);
    }
  }

  /** Every registration reads a later clock than the registrations before it. */
  predicate RegistrationsTick(calls: seq<Call>) {
    forall i, j :: 0 <= i < j < |calls| && calls[i].DoRegister? && calls[j].DoRegister? ==> calls[i].now < calls[j].now
  }

  lemma {:induction false} RunStaysOrdered(calls: seq<Call>)
    requires RegistrationsTick(calls)
    ensures AllOrdered(Run(calls).table)
  {
    if calls != [] {
      var before, last := calls[..|calls| - 1], calls[|calls| - 1];
      RunStaysOrdered(before);
      RunKeeps(before);
      if last.DoRegister? {
        forall c | c in before && c.DoRegister? ensures c.now < last.now {
          var i :| 0 <= i < |before| && before[i] == c;
          assert calls[i] == c;
        }
        RunIsBefore(before, last.now);
      }
      PerformStaysOrdered(Run(before), last);
    }
  }

  // ---------------------------------------------------------------- the theorems

  /**
   * After any calls: a reminder of either kind is live exactly when its user is registered, promoted users
   * included, and it is then about that registration and its event's start.
   */
  lemma {:induction false} RemindersFollowRegistrations(calls: seq<Call>, r: ReminderKey)
    ensures FollowsAt(Run(calls).reminders, Run(calls).table, Run(calls).events, r)
  {
    RunKeeps(calls);
  }

  /** A cancelled event has no active registration and no live reminder, for good. */
  lemma {:induction false} CalledOffEventsAreQuiet(calls: seq<Call>, r: ReminderKey)
    requires r.event in Run(calls).events && Run(calls).events[r.event].cancelled
    ensures Active(Run(calls).table, r.event) == {} && !Live(Run(calls).reminders, r)
  {
    RunKeeps(calls);
    var db := Run(calls);
    forall k ensures k !in Active(db.table, r.event) { if k in db.table { assert SeatOk(db, k); } }
    assert FollowsAt(db.reminders, db.table, db.events, r);
  }

  /** Capacity, waitlist and from-scratch comparison hold in every state the service can reach. */
  lemma ServiceKeepsWaitlist(calls: seq<Call>, e: nat)
    requires e in Run(calls).events
    ensures Fits(Run(calls).table, e, Run(calls).events[e].capacity)
    ensures FromScratch(Run(calls).table, e, Run(calls).events[e].capacity) <==> Ordered(Run(calls).table, e)
  {
    RunKeeps(calls);
    assert Fits(Run(calls).table, e, CapacityOf(Run(calls).events, e));
    FromScratchExactly(Run(calls).table, e, Run(calls).events[e].capacity);
  }

  /** While registrations read an increasing clock, every event's table is the from-scratch one after any calls. */
  lemma ServiceKeepsOrder(calls: seq<Call>, e: nat)
    requires RegistrationsTick(calls) && e in Run(calls).events
    ensures FromScratch(Run(calls).table, e, Run(calls).events[e].capacity)
  {
    RunStaysOrdered(calls);
    ServiceKeepsWaitlist(calls, e);
    assert Ordered(Run(calls).table, e);
  }

  /**
   * Everybody with an active registration is in a scheduled event, is not its host, and in a private event
   * still holds an invitation.
   */
  lemma {:induction false} PrivateSeatsAreInvited(calls: seq<Call>)
    ensures SeatsOk(Run(calls))
  {
    RunKeeps(calls);
  }
}
