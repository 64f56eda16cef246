/**
 * What the event operations do for the people who call them: who may register and until when, what a registration or a
 * withdrawal leaves, who moves up and what is written for them. Stated in the columns of the tables alone, over every
 * run, in both directions.
 */
module EventOutcomes {
  import opened Common
  import opened EventParticipation
  import opened EventReminders
  import opened EventService
  import opened EventWaitlist
  import opened EventRuns

  // ---------------------------------------------------------------- nobody registers late

  predicate InTime(t: Table, events: map<nat, Event>) {
    forall k :: k in t ==> k.event in events && t[k].registeredAt < events[k.event].startAt
  }

  /** Only the key k may have registered, and then now. */
  predicate TimesKept(t: Table, u: Table, k: Key, now: int) {
    forall j :: j in u ==>
      (j in t && u[j].registeredAt == t[j].registeredAt) || (j == k && u[j].registeredAt == now)
  }

  lemma RegisterKeepsTimes(t: Table, e: nat, capacity: int, user: nat, now: int, id: nat)
    ensures TimesKept(t, Register(t, e, capacity, user, now, id).table, Key(e, user), now)
  {}

  predicate NobodyRegistered(t: Table, u: Table) {
    forall j :: j in u ==> j in t && u[j].registeredAt == t[j].registeredAt
  }

  lemma CancelKeepsTimes(t: Table, e: nat, capacity: int, user: nat, now: int)
    requires Cancel(t, e, capacity, user, now).Some?
    ensures NobodyRegistered(t, Cancel(t, e, capacity, user, now).value.table)
  {}

  /** Events neither disappear nor move. */
  predicate StartsKept(events: map<nat, Event>, after: map<nat, Event>) {
    forall e :: e in events ==> e in after && after[e].startAt == events[e].startAt
  }

  lemma StillInTime(t: Table, u: Table, events: map<nat, Event>, after: map<nat, Event>)
    requires InTime(t, events) && NobodyRegistered(t, u) && StartsKept(events, after)
    ensures InTime(u, after)
  {}

  lemma OneMoreInTime(t: Table, u: Table, events: map<nat, Event>, k: Key, now: int)
    requires InTime(t, events) && TimesKept(t, u, k, now) && k.event in events && now < events[k.event].startAt
    ensures InTime(u, events)
  {}

  lemma RegisterInTime(db: Db, e: nat, user: nat, now: int, id: nat, people: People)
    requires InTime(db.table, db.events)
    ensures InTime(RegisterEvent(db, e, user, now, id, people).0.table, db.events)
  {
    if RegisterCheck(db, e, user, now, people).None? {
      var u := Register(db.table, e, db.events[e].capacity, user, now, id).table;
      RegisterKeepsTimes(db.table, e, db.events[e].capacity, user, now, id);
      OneMoreInTime(db.table, u, db.events, Key(e, user), now);
      assert RegisterEvent(db, e, user, now, id, people).0.table == u;
    }
  }

  lemma CancelAndSyncTimes(db: Db, e: nat, user: nat, now: int, people: People)
    requires e in db.events && CancelAndSync(db, e, user, now, people).Some?
    ensures NobodyRegistered(db.table, CancelAndSync(db, e, user, now, people).value.0.table)
    ensures CancelAndSync(db, e, user, now, people).value.0.events == db.events
  {
    CancelKeepsTimes(db.table, e, db.events[e].capacity, user, now);
  }

  lemma OthersKeepTimes(db: Db, c: Call)
    requires !c.DoRegister?
    ensures NobodyRegistered(db.table, Perform(db, c).table) && StartsKept(db.events, Perform(db, c).events)
  {
    match c
    case DoCancel(e, user, now, people) =>
      if e in db.events && CancelAndSync(db, e, user, now, people).Some? {
        CancelAndSyncTimes(db, e, user, now, people);
      }
    case DoRevoke(e, host, user, now, people) =>
      var revoked := db.(invitations := db.invitations[Key(e, user) := false]);
      if e in db.events && CancelAndSync(revoked, e, user, now, people).Some? {
        CancelAndSyncTimes(revoked, e, user, now, people);
      }
    case _ =>
  }

  lemma {:induction false} RunStaysInTime(calls: seq<Call>)
    ensures InTime(Run(calls).table, Run(calls).events)
  {
    if calls != [] {
      var before, c := Run(calls[..|calls| - 1]), calls[|calls| - 1];
      RunStaysInTime(calls[..|calls| - 1]);
      if c.DoRegister? {
        RegisterInTime(before, c.e, c.user, c.now, c.id, c.people);
      } else {
        OthersKeepTimes(before, c);
        StillInTime(before.table, Perform(before, c).table, before.events, Perform(before, c).events);
      }
    }
  }

  /** After any service calls every registration, promoted ones included, was made before its event starts. */
  lemma {:induction false} NobodyRegistersLate(calls: seq<Call>, k: Key)
    requires k in Run(calls).table
    ensures k.event in Run(calls).events && Run(calls).table[k].registeredAt < Run(calls).events[k.event].startAt
  {
    RunStaysInTime(calls);
  }

  // ---------------------------------------------------------------- seats and the line

  function Seated(t: Table, e: nat): set<Key> {
    set k | k in t && k.event == e && t[k].status == Registered
  }

  function InLine(t: Table, e: nat): set<Key> {
    set k | k in t && k.event == e && t[k].status == Waitlisted
  }

  /** Holds a seat or waits for one. */
  predicate Attends(t: Table, k: Key) {
    k in t && t[k].status != Cancelled
  }

  predicate Sooner(a: Registration, b: Registration) {
    a.registeredAt < b.registeredAt || (a.registeredAt == b.registeredAt && a.id < b.id)
  }

  function SoonerInLine(t: Table, e: nat, k: Key): set<Key>
    requires k in t
  {
    set j | j in InLine(t, e) && Sooner(t[j], t[k])
  }

  /**
   * After any service calls: never more seats than places, a line only when every place is taken, and everybody in it
   * knows how many arrived sooner.
   */
  lemma {:induction false} PlacesAreCounted(calls: seq<Call>, e: nat)
    requires e in Run(calls).events
    ensures var t := Run(calls).table;
            |Seated(t, e)| <= Run(calls).events[e].capacity
            && (InLine(t, e) != {} ==> |Seated(t, e)| == Run(calls).events[e].capacity)
            && forall k :: k in InLine(t, e) ==> t[k].position == Some(|SoonerInLine(t, e, k)| + 1)
  {
    RunKeeps(calls);
    TableHasPlaces(Run(calls).table, e, Run(calls).events, Run(calls).events[e].capacity);
  }

  lemma TableHasPlaces(t: Table, e: nat, events: map<nat, Event>, capacity: int)
    requires TableOk(t, events) && e in events && capacity == events[e].capacity
    ensures |Seated(t, e)| <= capacity && (InLine(t, e) != {} ==> |Seated(t, e)| == capacity)
    ensures forall k :: k in InLine(t, e) ==> t[k].position == Some(|SoonerInLine(t, e, k)| + 1)
  {
    assert Fits(t, e, CapacityOf(events, e));
    assert Seated(t, e) == With(t, e, Registered) && InLine(t, e) == With(t, e, Waitlisted);
    forall k | k in InLine(t, e) ensures t[k].position == Some(|SoonerInLine(t, e, k)| + 1) {
      assert SoonerInLine(t, e, k) == set j | j in With(t, e, Waitlisted) && Earlier(t[j], t[k]);
    }
  }

  // ---------------------------------------------------------------- reminders

  /** A scheduled intent for one registration, or one kept back because it is too late or not wanted. */
  predicate Reminds(m: Intents, r: ReminderKey, id: nat, ev: Event, p: Preferences, now: int) {
    var at := ev.startAt - (if r.kind == OneHour then 3600000 else 86400000);
    r in m && m[r].registrationId == id && m[r].scheduledFor == at
    && m[r].timezone == (if p.timezone.Some? then p.timezone.value else ev.timezone)
    && m[r].status == (if now < at && p.inApp then Scheduled else Suppressed)
    && m[r].reason == (if now >= at then Some(WindowPassed) else if p.inApp then None else Some(InAppPreference))
  }

  predicate Silent(m: Intents, r: ReminderKey) {
    r in m ==> m[r].status == Dropped && m[r].reason == Some(RegistrationCancelled)
  }

  predicate SameReminder(m: Intents, n: Intents, r: ReminderKey) {
    (r in n <==> r in m) && (r in m ==> n[r] == m[r])
  }

  lemma UpsertReminds(m: Intents, k: Key, id: nat, ev: Event, p: Preferences, now: int, r: ReminderKey)
    ensures var n := Upsert(m, k.event, k.user, id, ScheduleOf(ev), p, now);
            if Key(r.event, r.user) == k then Reminds(n, r, id, ev, p, now) else SameReminder(m, n, r)
  {
    UpsertAt(m, k.event, k.user, id, ScheduleOf(ev), p, now, r);
  }

  lemma SyncReminds(m: Intents, users: set<Key>, t: Table, ev: Event, people: People, now: int, r: ReminderKey)
    requires users <= t.Keys
    ensures var k, n := Key(r.event, r.user), SyncAll(m, users, t, ScheduleOf(ev), people, now);
            if k in users then Reminds(n, r, t[k].id, ev, people.preferences(k.user), now) else SameReminder(m, n, r)
  {
    SyncAt(m, users, t, ScheduleOf(ev), people, now, r);
  }

  // ---------------------------------------------------------------- registering

  predicate HoldsInvitation(db: Db, e: nat, user: nat) {
    Key(e, user) in db.invitations && db.invitations[Key(e, user)]
  }

  /** An active user other than the host, who may see the event and asks before it starts while it stands. */
  predicate Welcome(db: Db, e: nat, user: nat, now: int, people: People) {
    people.active(user) && e in db.events && db.events[e].host != user && !db.events[e].cancelled
    && now < db.events[e].startAt && (db.events[e].isPrivate ==> HoldsInvitation(db, e, user))
  }

  /** Why a registration is refused: the first of these that applies. */
  function Objection(db: Db, e: nat, user: nat, now: int, people: People): Failure {
    if !people.active(user) then UserNotActive
    else if e !in db.events then EventNotFound
    else if db.events[e].host == user then HostCannotRegister
    else if db.events[e].cancelled || now >= db.events[e].startAt then NotAvailable
    else InviteRequired
  }

  /** Everybody else keeps everything but a place in the line. */
  predicate OthersStay(t: Table, u: Table, k: Key) {
    forall j :: j in t && j != k ==>
      j in u && u[j] == t[j].(position := u[j].position)
      && (t[j].status != Waitlisted || j.event != k.event ==> u[j] == t[j])
  }

  /** A new registration has its own old identifier, or the new one, and a seat exactly when there is one. */
  predicate Enrolled(t: Table, u: Table, k: Key, capacity: int, now: int, id: nat) {
    k in u && u.Keys == t.Keys + {k}
    && u[k].id == (if k in t then t[k].id else id) && u[k].registeredAt == now && u[k].cancelledAt == None
    && u[k].status == (if |Seated(t, k.event)| < capacity then Registered else Waitlisted)
    && OthersStay(t, u, k)
  }

  lemma Seats(t: Table, e: nat)
    ensures Seated(t, e) == With(t, e, Registered) && InLine(t, e) == With(t, e, Waitlisted)
  {}

  lemma NobodyMovesUp(t: Table, e: nat, capacity: int, k: Key)
    requires k in t && k.event == e && Promoted(t, e, capacity) == {}
    ensures Rebalance(t, e, capacity).Keys == t.Keys && OthersStay(t, Rebalance(t, e, capacity), k)
    ensures Rebalance(t, e, capacity)[k] == t[k].(position := Rebalance(t, e, capacity)[k].position)
  {
    var u := Rebalance(t, e, capacity);
    forall j | j in t
      ensures u[j] == t[j].(position := u[j].position)
      ensures t[j].status != Waitlisted || j.event != e ==> u[j] == t[j]
    {
      assert j !in Promoted(t, e, capacity);
    }
  }

  lemma EnrolsOnce(t: Table, e: nat, capacity: int, user: nat, now: int, id: nat)
    requires DistinctIds(t) && EventWaitlist.Fresh(t, id) && Fits(t, e, capacity) && capacity >= 1
    requires !Attends(t, Key(e, user))
    ensures Enrolled(t, Register(t, e, capacity, user, now, id).table, Key(e, user), capacity, now, id)
  {
    var k := Key(e, user);
    var u := t[k := Entered(t, e, capacity, user, now, id)];
    RegisterKeeps(t, e, capacity, user, now, id);
    NobodyMovesUp(u, e, capacity, k);
    Seats(t, e);
  }

  /** What a granted registration leaves of the table. */
  predicate Registers(t: Table, u: Table, k: Key, capacity: int, now: int, id: nat) {
    Attends(u, k) && if Attends(t, k) then u == t else Enrolled(t, u, k, capacity, now, id)
  }

  /** The caller's reminders follow the seat, and nobody else's change. */
  predicate OwnReminders(m: Intents, n: Intents, u: Table, k: Key, ev: Event, p: Preferences, now: int, r: ReminderKey)
    requires k in u
  {
    if Key(r.event, r.user) != k then SameReminder(m, n, r)
    else if u[k].status == Registered then Reminds(n, r, u[k].id, ev, p, now)
    else Silent(n, r)
  }

  lemma GrantedRegistration(db: Db, e: nat, user: nat, now: int, id: nat, people: People, r: ReminderKey)
    requires Inv(db) && EventWaitlist.Fresh(db.table, id) && RegisterCheck(db, e, user, now, people).None?
    ensures var d, k := RegisterEvent(db, e, user, now, id, people).0, Key(e, user);
            Registers(db.table, d.table, k, db.events[e].capacity, now, id)
            && OwnReminders(db.reminders, d.reminders, d.table, k, db.events[e], people.preferences(user), now, r)
            && d.events == db.events && d.invitations == db.invitations
  {
    var k, c := Key(e, user), db.events[e].capacity;
    var d := RegisterEvent(db, e, user, now, id, people).0;
    assert Fits(db.table, e, CapacityOf(db.events, e));
    RegisterKeeps(db.table, e, c, user, now, id);
    if !Attends(db.table, k) { EnrolsOnce(db.table, e, c, user, now, id); }
    GrantedReminders(db.reminders, d.table, k, db.events[e], people, now, r);
  }

  lemma GrantedReminders(m: Intents, u: Table, k: Key, ev: Event, people: People, now: int, r: ReminderKey)
    requires k in u
    ensures var own := if IsRegistered(u, k)
                       then Upsert(m, k.event, k.user, u[k].id, ScheduleOf(ev), people.preferences(k.user), now)
                       else DropUser(m, k.event, k.user);
            OwnReminders(m, SyncAll(own, {} * u.Keys, u, ScheduleOf(ev), people, now), u, k, ev,
                         people.preferences(k.user), now, r)
  {
    UpsertReminds(m, k, u[k].id, ev, people.preferences(k.user), now, r);
    var own := if IsRegistered(u, k)
               then Upsert(m, k.event, k.user, u[k].id, ScheduleOf(ev), people.preferences(k.user), now)
               else DropUser(m, k.event, k.user);
    assert {} * u.Keys == {};
    SyncNobody(own, u, ScheduleOf(ev), people, now);
  }

  /**
   * In every state the service reaches, a user is registered exactly when welcome, and refused for the first reason
   * that applies otherwise, with nothing changed. Whoever was welcome then holds a seat, or waits because none was
   * free; whoever already did is left as they were, and so is everybody else but for a place in the line.
   */
  lemma {:induction false} RegistersExactly(calls: seq<Call>, e: nat, user: nat, now: int, id: nat, people: People,
          r: ReminderKey)
    requires EventWaitlist.Fresh(Run(calls).table, id)
    ensures var db := Run(calls);
            var (d, answer) := RegisterEvent(db, e, user, now, id, people);
            if Welcome(db, e, user, now, people) then
              answer == Ok(Replied(Attends(db.table, Key(e, user)), 0))
              && Registers(db.table, d.table, Key(e, user), db.events[e].capacity, now, id)
              && OwnReminders(db.reminders, d.reminders, d.table, Key(e, user), db.events[e], people.preferences(user),
                              now, r)
              && d.events == db.events && d.invitations == db.invitations
            else answer == Refused(Objection(db, e, user, now, people)) && d == db
  {
    RunKeeps(calls);
    if Welcome(Run(calls), e, user, now, people) {
      GrantedRegistration(Run(calls), e, user, now, id, people, r);
      NobodyPromoted(Run(calls), e, user, now, id);
    }
  }

  lemma NobodyPromoted(db: Db, e: nat, user: nat, now: int, id: nat)
    requires Inv(db) && EventWaitlist.Fresh(db.table, id) && e in db.events
    ensures Register(db.table, e, db.events[e].capacity, user, now, id).promoted == {}
  {
    assert Fits(db.table, e, CapacityOf(db.events, e));
    RegisterKeeps(db.table, e, db.events[e].capacity, user, now, id);
  }

  // ---------------------------------------------------------------- withdrawing

  /** Arrived sooner than everybody else in the line. */
  predicate First(t: Table, e: nat, k: Key) {
    k in InLine(t, e) && forall j :: j in InLine(t, e) && j != k ==> Sooner(t[k], t[j])
  }

  /** Who gets the place that k gives up. */
  predicate MovesUp(t: Table, k: Key, j: Key) {
    k in t && t[k].status == Registered && First(t, k.event, j)
  }

  /** Giving up a registration lets the first in the line in, and changes only places in the line for the others. */
  predicate Withdraws(t: Table, u: Table, k: Key, now: int)
    requires k in t
  {
    if t[k].status == Cancelled then u == t
    else
      u.Keys == t.Keys && u[k] == Registration(t[k].id, Cancelled, None, t[k].registeredAt, Some(now))
      && forall j :: j in t && j != k ==>
           if MovesUp(t, k, j) then u[j] == Registration(t[j].id, Registered, None, t[j].registeredAt, t[j].cancelledAt)
           else u[j] == t[j].(position := u[j].position)
                && (t[j].status != Waitlisted || j.event != k.event ==> u[j] == t[j])
  }

  predicate WithdrawalReminders(m: Intents, n: Intents, t: Table, k: Key, ev: Event, people: People, now: int,
                                r: ReminderKey)
    requires k in t
  {
    var j := Key(r.event, r.user);
    if j == k then Silent(n, r)
    else if MovesUp(t, k, j) then Reminds(n, r, t[j].id, ev, people.preferences(j.user), now)
    else SameReminder(m, n, r)
  }

  lemma FrontIsFirst(t: Table, e: nat, k: Key)
    requires DistinctIds(t) && k in With(t, e, Waitlisted)
    ensures Ahead(t, e, k) == 0 <==> First(t, e, k)
  {
    var sooner := set j | j in With(t, e, Waitlisted) && Earlier(t[j], t[k]);
    Seats(t, e);
    assert First(t, e, k) ==> sooner == {};
    if Ahead(t, e, k) == 0 {
      assert sooner == {};
      forall j | j in InLine(t, e) && j != k ensures Sooner(t[k], t[j]) {
        assert j !in sooner && t[j].id != t[k].id;
      }
    }
  }

  lemma OnePlaceAfter(t: Table, e: nat, capacity: int, k: Key, now: int)
    requires Fits(t, e, capacity) && k in t && k.event == e && t[k].status != Cancelled
    ensures var u := t[k := Withdrawn(t[k], now)];
            With(u, e, Waitlisted) == With(t, e, Waitlisted) - {k}
            && (With(u, e, Waitlisted) != {} ==>
                  Slots(u, e, capacity) == if t[k].status == Registered then 1 else 0)
  {
    var u := t[k := Withdrawn(t[k], now)];
    assert With(u, e, Registered) == With(t, e, Registered) - {k};
    assert With(u, e, Waitlisted) == With(t, e, Waitlisted) - {k};
  }

  lemma SameFirst(t: Table, u: Table, k: Key, j: Key, now: int)
    requires k in t && t[k].status == Registered && u == t[k := Withdrawn(t[k], now)]
    ensures First(u, k.event, j) <==> First(t, k.event, j)
  {
    assert InLine(u, k.event) == InLine(t, k.event);
  }

  lemma PromotedMovesUp(t: Table, e: nat, capacity: int, k: Key, now: int, j: Key)
    requires DistinctIds(t) && Fits(t, e, capacity) && k in t && k.event == e && t[k].status != Cancelled
    ensures j in Promoted(t[k := Withdrawn(t[k], now)], e, capacity) <==> MovesUp(t, k, j)
  {
    var u := t[k := Withdrawn(t[k], now)];
    OnePlaceAfter(t, e, capacity, k, now);
    Seats(t, e);
    if j in With(u, e, Waitlisted) && t[k].status == Registered {
      FrontIsFirst(u, e, j);
      SameFirst(t, u, k, j, now);
    }
  }

  lemma RebalancedAt(t: Table, e: nat, capacity: int, j: Key)
    requires j in t
    ensures var u := Rebalance(t, e, capacity);
            j in u && if j in Promoted(t, e, capacity) then u[j] == t[j].(status := Registered, position := None)
                      else u[j] == t[j].(position := u[j].position)
                           && (t[j].status != Waitlisted || j.event != e ==> u[j] == t[j])
  {}

  lemma CancelWithdraws(t: Table, e: nat, capacity: int, user: nat, now: int)
    requires DistinctIds(t) && Fits(t, e, capacity) && Key(e, user) in t
    ensures Cancel(t, e, capacity, user, now).Some?
    ensures Withdraws(t, Cancel(t, e, capacity, user, now).value.table, Key(e, user), now)
  {
    var k := Key(e, user);
    if t[k].status != Cancelled {
      var u := t[k := Withdrawn(t[k], now)];
      var after := Rebalance(u, e, capacity);
      RebalancedAt(u, e, capacity, k);
      PromotedMovesUp(t, e, capacity, k, now, k);
      forall j | j in t && j != k
        ensures if MovesUp(t, k, j)
                then after[j] == Registration(t[j].id, Registered, None, t[j].registeredAt, t[j].cancelledAt)
                else after[j] == t[j].(position := after[j].position)
                     && (t[j].status != Waitlisted || j.event != k.event ==> after[j] == t[j])
      {
        RebalancedAt(u, e, capacity, j);
        PromotedMovesUp(t, e, capacity, k, now, j);
      }
    }
  }

  /** How many move up: one when a seat is given up and somebody waits. */
  function Advances(t: Table, k: Key): nat {
    if k in t && t[k].status == Registered && InLine(t, k.event) != {} then 1 else 0
  }

  lemma AtMostOneFirst(t: Table, e: nat, promoted: set<Key>)
    requires DistinctIds(t) && forall j :: j in promoted <==> First(t, e, j)
    ensures |promoted| == if InLine(t, e) == {} then 0 else 1
  {
    if InLine(t, e) == {} {
      assert promoted == {};
    } else {
      Seats(t, e);
      var ws := ListingExists(t, InLine(t, e));
      assert ws[0] in InLine(t, e) by {
        var j :| j in InLine(t, e);
        assert j in ws;
        assert ws[0] in ws;
      }
      forall j | j in InLine(t, e) && j != ws[0] ensures Sooner(t[ws[0]], t[j]) {
        assert j in ws;
        var i :| 0 <= i < |ws| && ws[i] == j;
        assert Earlier(t[ws[0]], t[ws[i]]);
      }
      assert First(t, e, ws[0]);
      assert promoted == {ws[0]};
    }
  }

  lemma CancelPromotes(t: Table, e: nat, capacity: int, user: nat, now: int)
    requires DistinctIds(t) && Fits(t, e, capacity) && Key(e, user) in t
    ensures var r := Cancel(t, e, capacity, user, now);
            r.Some? && r.value.replayed == (t[Key(e, user)].status == Cancelled)
            && (forall j :: j in r.value.promoted <==> MovesUp(t, Key(e, user), j))
            && |r.value.promoted| == Advances(t, Key(e, user))
  {
    var k := Key(e, user);
    if t[k].status != Cancelled {
      var promoted := Promoted(t[k := Withdrawn(t[k], now)], e, capacity);
      forall j ensures j in promoted <==> MovesUp(t, k, j) {
        PromotedMovesUp(t, e, capacity, k, now, j);
      }
      if t[k].status == Registered { AtMostOneFirst(t, e, promoted); } else { assert promoted == {}; }
    }
  }

  lemma DroppedIsSilent(m: Intents, k: Key, r: ReminderKey)
    ensures var n := DropUser(m, k.event, k.user);
            if Key(r.event, r.user) == k then Silent(n, r) else SameReminder(m, n, r)
  {}

  lemma WithdrawalIsTold(m: Intents, t: Table, u: Table, k: Key, promoted: set<Key>, ev: Event, people: People,
          now: int, r: ReminderKey)
    requires k in t && u.Keys == t.Keys && forall j :: j in promoted <==> MovesUp(t, k, j)
    requires forall j :: j in promoted ==> j in u && u[j].id == t[j].id
    ensures var n := SyncAll(DropUser(m, k.event, k.user), promoted * u.Keys, u, ScheduleOf(ev), people, now);
            WithdrawalReminders(m, n, t, k, ev, people, now, r)
  {
    DroppedIsSilent(m, k, r);
    SyncReminds(DropUser(m, k.event, k.user), promoted * u.Keys, u, ev, people, now, r);
  }

  /** A registration given up, whoever asked for it. */
  lemma LeavesExactly(db: Db, e: nat, user: nat, now: int, people: People, r: ReminderKey)
    requires TableOk(db.table, db.events) && e in db.events && Key(e, user) in db.table
    ensures CancelAndSync(db, e, user, now, people).Some?
    ensures var k, (d, reply) := Key(e, user), CancelAndSync(db, e, user, now, people).value;
            Withdraws(db.table, d.table, k, now)
            && WithdrawalReminders(db.reminders, d.reminders, db.table, k, db.events[e], people, now, r)
            && d.events == db.events && d.invitations == db.invitations
            && reply == Replied(db.table[k].status == Cancelled, Advances(db.table, k))
  {
    var k, c := Key(e, user), db.events[e].capacity;
    assert Fits(db.table, e, CapacityOf(db.events, e));
    CancelWithdraws(db.table, e, c, user, now);
    CancelPromotes(db.table, e, c, user, now);
    var v := Cancel(db.table, e, c, user, now).value;
    WithdrawalIsTold(db.reminders, db.table, v.table, k, v.promoted, db.events[e], people, now, r);
  }

  predicate MaySee(db: Db, e: nat, user: nat)
    requires e in db.events
  {
    db.events[e].isPrivate && db.events[e].host != user ==> HoldsInvitation(db, e, user)
  }

  /**
   * In every state the service reaches, an active user who may see an event and was ever registered for it withdraws,
   * and nobody else does; a seat given up goes to the one who waited longest, if anybody waits, and nobody else moves.
   */
  lemma {:induction false} WithdrawsExactly(calls: seq<Call>, e: nat, user: nat, now: int, people: People,
          r: ReminderKey)
    ensures var db, k := Run(calls), Key(e, user);
            var (d, answer) := CancelRegistration(db, e, user, now, people);
            if !people.active(user) then answer == Refused(UserNotActive) && d == db
            else if e !in db.events then answer == Refused(EventNotFound) && d == db
            else if !MaySee(db, e, user) then answer == Refused(InviteRequired) && d == db
            else if k !in db.table then answer == Refused(RegistrationNotFound) && d == db
            else answer == Ok(Replied(db.table[k].status == Cancelled, Advances(db.table, k)))
                 && Withdraws(db.table, d.table, k, now)
                 && WithdrawalReminders(db.reminders, d.reminders, db.table, k, db.events[e], people, now, r)
                 && d.events == db.events && d.invitations == db.invitations
  {
    RunKeeps(calls);
    var db := Run(calls);
    if e in db.events && Key(e, user) in db.table { LeavesExactly(db, e, user, now, people, r); }
  }

  // ---------------------------------------------------------------- the host

  /** The host of a private event revokes a standing invitation together with the registration it allowed. */
  lemma {:induction false} RevokesExactly(calls: seq<Call>, e: nat, host: nat, user: nat, now: int, people: People,
          r: ReminderKey)
    ensures var db, k := Run(calls), Key(e, user);
            var (d, answer) := RevokeInvitation(db, e, host, user, now, people);
            if !people.active(host) then answer == Refused(UserNotActive) && d == db
            else if e !in db.events then answer == Refused(EventNotFound) && d == db
            else if !db.events[e].isPrivate || db.events[e].host != host then
              answer == Refused(InviteForbidden) && d == db
            else if !HoldsInvitation(db, e, user) then answer == Ok(Replied(true, 0)) && d == db
            else answer == Ok(Replied(false, 0)) && d.events == db.events
                 && d.invitations == db.invitations[k := false]
                 && if Attends(db.table, k) then
                      Withdraws(db.table, d.table, k, now)
                      && WithdrawalReminders(db.reminders, d.reminders, db.table, k, db.events[e], people, now, r)
                    else d.table == db.table && d.reminders == db.reminders
  {
    RunKeeps(calls);
    var db := Run(calls);
    var revoked := db.(invitations := db.invitations[Key(e, user) := false]);
    if e in db.events && Key(e, user) in db.table { LeavesExactly(revoked, e, user, now, people, r); }
  }

  /** Everybody who attended is out, and the reminders of the event are dropped. */
  predicate CallsOff(db: Db, d: Db, e: nat, now: int, k: Key, r: ReminderKey)
    requires e in db.events
  {
    d.events == db.events[e := db.events[e].(cancelled := true)] && d.invitations == db.invitations
    && d.table.Keys == db.table.Keys && d.reminders.Keys == db.reminders.Keys
    && (k in db.table ==>
          d.table[k] == if k.event == e && Attends(db.table, k)
                        then Registration(db.table[k].id, Cancelled, None, db.table[k].registeredAt, Some(now))
                        else db.table[k])
    && (r in db.reminders ==>
          d.reminders[r] == if r.event == e then db.reminders[r].(status := Dropped, reason := Some(EventCalledOff))
                            else db.reminders[r])
  }

  /** Its host calls an event off until it has ended, and again at any time once that is done. */
  lemma {:induction false} CallsOffExactly(calls: seq<Call>, e: nat, user: nat, now: int, people: People, k: Key,
          r: ReminderKey)
    ensures var db := Run(calls);
            var (d, answer) := CancelEvent(db, e, user, now, people);
            if !people.active(user) then answer == Refused(UserNotActive) && d == db
            else if e !in db.events then answer == Refused(EventNotFound) && d == db
            else if db.events[e].host != user then answer == Refused(HostForbidden) && d == db
            else if !db.events[e].cancelled && now >= db.events[e].endAt then
              answer == Refused(CannotCancel) && d == db
            else answer == Ok(Replied(db.events[e].cancelled, 0)) && CallsOff(db, d, e, now, k, r)
  {
    RunKeeps(calls);
  }

  /** Only the host of a private event invites, and only active users other than the host; nothing else changes. */
  lemma InvitesExactly(db: Db, e: nat, host: nat, user: nat, people: People)
    ensures var (d, answer) := InviteUser(db, e, host, user, people);
            if !people.active(host) || !people.active(user) then answer == Refused(UserNotActive) && d == db
            else if e !in db.events then answer == Refused(EventNotFound) && d == db
            else if !db.events[e].isPrivate || db.events[e].host != host then
              answer == Refused(InviteForbidden) && d == db
            else if user == host then answer == Refused(InvalidInput) && d == db
            else answer == Ok(Replied(HoldsInvitation(db, e, user), 0))
                 && d == db.(invitations := db.invitations[Key(e, user) := true])
  {}

  /** The reminders of one's own seat are written anew; without a seat there is nothing to write. */
  lemma {:induction false} ReconcilesExactly(calls: seq<Call>, e: nat, user: nat, now: int, people: People,
          r: ReminderKey)
    ensures var db, k := Run(calls), Key(e, user);
            var (d, answer) := ReconcileReminders(db, e, user, now, people);
            if !people.active(user) then answer == Refused(UserNotActive) && d == db
            else if e !in db.events then answer == Refused(EventNotFound) && d == db
            else if !MaySee(db, e, user) then answer == Refused(InviteRequired) && d == db
            else if k !in Seated(db.table, e) then answer == Refused(ReminderInvalid) && d == db
            else answer == Ok(Replied(false, 0)) && d == db.(reminders := d.reminders)
                 && OwnReminders(db.reminders, d.reminders, db.table, k, db.events[e], people.preferences(user), now, r)
  {
    var db, k := Run(calls), Key(e, user);
    if e in db.events && k in Seated(db.table, e) {
      UpsertReminds(db.reminders, k, db.table[k].id, db.events[e], people.preferences(user), now, r);
    }
  }

  predicate SameButCalledOff(events: map<nat, Event>, after: map<nat, Event>, e: nat)
    requires e in events
  {
    e in after && (after[e] == events[e] || after[e] == events[e].(cancelled := true))
  }

  lemma CallKeepsEvent(db: Db, c: Call, e: nat)
    requires e in db.events
    ensures SameButCalledOff(db.events, Perform(db, c).events, e)
  {}

  /** An event never changes but to be called off, and that is for good. */
  lemma {:induction false} CalledOffForGood(calls: seq<Call>, more: seq<Call>, e: nat)
    requires e in Run(calls).events
    ensures SameButCalledOff(Run(calls).events, Run(calls + more).events, e)
  {
    if more == [] {
      assert calls + more == calls;
    } else {
      var last := |more| - 1;
      assert (calls + more)[..|calls + more| - 1] == calls + more[..last];
      CalledOffForGood(calls, more[..last], e);
      CallKeepsEvent(Run(calls + more[..last]), more[last], e);
    }
  }
}
