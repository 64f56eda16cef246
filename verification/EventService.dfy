/** The event operations: each sequences registration, invitation and reminder writes. */
module EventService {
  import opened Common
  import opened EventParticipation
  import opened EventReminders

  datatype Event = Event(host: nat, capacity: int, isPrivate: bool, startAt: int, endAt: int, timezone: string,
          cancelled: bool)

  datatype Db = Db(events: map<nat, Event>, table: Table, reminders: Intents, invitations: map<Key, bool>)

  datatype Failure =
    | UserNotActive | EventNotFound | HostForbidden | CannotCancel | HostCannotRegister | NotAvailable | InviteRequired
    | InviteForbidden | InvalidInput | ReminderInvalid | RegistrationNotFound

  datatype Reply = Replied(replayed: bool, promoted: nat)

  /** What the account and preference services answer during one call. */
  datatype People = People(active: nat -> bool, preferences: nat -> Preferences)

  datatype EventState = Upcoming | Live | Ended | CalledOff

  const MAX_EVENT_CAPACITY := 1000

  function StateOf(e: Event, now: int): EventState {
    if e.cancelled then CalledOff
    else if now < e.startAt then Upcoming
    else if now >= e.endAt then Ended
    else Live
  }

  predicate Invited(db: Db, e: nat, user: nat) {
    Key(e, user) in db.invitations && db.invitations[Key(e, user)]
  }

  predicate MayView(db: Db, e: nat, user: nat)
    requires e in db.events
  {
    !db.events[e].isPrivate || db.events[e].host == user || Invited(db, e, user)
  }

  function ScheduleOf(e: Event): Schedule {
    Schedule(e.startAt, e.timezone)
  }

  // ---------------------------------------------------------------- reminder synchronisation

  function RemindersOf(users: set<Key>): set<ReminderKey> {
    set k, kind | k in users && kind in KINDS :: ReminderKey(k.event, k.user, kind)
  }

  lemma RemindersOfExactly(users: set<Key>, r: ReminderKey)
    ensures r in RemindersOf(users) <==> Key(r.event, r.user) in users
  {
    if Key(r.event, r.user) in users {
      assert r.kind in KINDS by { match r.kind case TwentyFourHours => case OneHour => }
      assert ReminderKey(Key(r.event, r.user).event, Key(r.event, r.user).user, r.kind) == r;
    }
  }

  /** Both intents of each of these registrations are rewritten; every other intent stays. */
  function SyncAll(m: Intents, users: set<Key>, table: Table, s: Schedule, people: People, now: int): Intents
    requires users <= table.Keys
  {
    m + (map r | r in RemindersOf(users) && Key(r.event, r.user) in users ::
           IntentFor(s, table[Key(r.event, r.user)].id, people.preferences(r.user), r.kind, now))
  }

  lemma SyncNobody(m: Intents, table: Table, s: Schedule, people: People, now: int)
    ensures SyncAll(m, {}, table, s, people, now) == m
  {}

  lemma SyncAt(m: Intents, users: set<Key>, table: Table, s: Schedule, people: People, now: int, r: ReminderKey)
    requires users <= table.Keys
    ensures var n := SyncAll(m, users, table, s, people, now);
            (r in n <==> r in m || Key(r.event, r.user) in users)
            && (r in n ==> n[r] == if Key(r.event, r.user) in users
                                   then IntentFor(s, table[Key(r.event, r.user)].id, people.preferences(r.user), r.kind,
                                                  now)
                                   else m[r])
  {
    RemindersOfExactly(users, r);
  }

  lemma UpsertAt(m: Intents, e: nat, user: nat, id: nat, s: Schedule, p: Preferences, now: int, r: ReminderKey)
    ensures var n := Upsert(m, e, user, id, s, p, now);
            (r in n <==> r in m || Key(r.event, r.user) == Key(e, user))
            && (r in n ==> n[r] == if Key(r.event, r.user) == Key(e, user) then IntentFor(s, id, p, r.kind, now)
                else m[r])
  {
    match r.kind case TwentyFourHours => case OneHour =>
  }

  lemma SyncOneMore(m: Intents, users: set<Key>, k: Key, table: Table, s: Schedule, people: People, now: int)
    requires users + {k} <= table.Keys && k !in users
    ensures Upsert(SyncAll(m, users, table, s, people, now), k.event, k.user, table[k].id, s,
                   people.preferences(k.user), now)
            == SyncAll(m, users + {k}, table, s, people, now)
  {
    var n := SyncAll(m, users, table, s, people, now);
    var a := Upsert(n, k.event, k.user, table[k].id, s, people.preferences(k.user), now);
    var b := SyncAll(m, users + {k}, table, s, people, now);
    forall r ensures (r in a <==> r in b) && (r in a && r in b ==> a[r] == b[r]) {
      SyncAt(m, users, table, s, people, now, r);
      SyncAt(m, users + {k}, table, s, people, now, r);
      UpsertAt(n, k.event, k.user, table[k].id, s, people.preferences(k.user), now, r);
    }
  }

  lemma SyncNext(m: Intents, promoted: seq<Key>, i: nat, table: Table, s: Schedule, people: People, now: int)
    requires forall i, j :: 0 <= i < j < |promoted| ==> promoted[i] != promoted[j]
    requires i < |promoted| && forall k :: k in promoted ==> k in table
    ensures Elements(promoted[..i]) <= table.Keys && Elements(promoted[..i + 1]) <= table.Keys
    ensures var k := promoted[i];
            Upsert(SyncAll(m, Elements(promoted[..i]), table, s, people, now), k.event, k.user, table[k].id, s,
                   people.preferences(k.user), now)
            == SyncAll(m, Elements(promoted[..i + 1]), table, s, people, now)
  {
    var k := promoted[i];
    assert promoted[..i + 1] == promoted[..i] + [k] && k !in promoted[..i];
    assert Elements(promoted[..i + 1]) == Elements(promoted[..i]) + {k};
    SyncOneMore(m, Elements(promoted[..i]), k, table, s, people, now);
  }

  // ---------------------------------------------------------------- the operations

  function Create(db: Db, e: nat, event: Event): Db {
    if e in db.events || !(1 <= event.capacity <= MAX_EVENT_CAPACITY) || event.endAt <= event.startAt
       || event.cancelled then db
    else db.(events := db.events[e := event])
  }

  function RegisterCheck(db: Db, e: nat, user: nat, now: int, people: People): Option<Failure> {
    if !people.active(user) then Some(UserNotActive)
    else if e !in db.events then Some(EventNotFound)
    else if db.events[e].host == user then Some(HostCannotRegister)
    else if StateOf(db.events[e], now) != Upcoming then Some(NotAvailable)
    else if !MayView(db, e, user) then Some(InviteRequired)
    else None
  }

  predicate IsRegistered(t: Table, k: Key) {
    k in t && t[k].status == Registered
  }

  function RegisterEvent(db: Db, e: nat, user: nat, now: int, id: nat, people: People): (Db, Outcome<Reply, Failure>) {
    var refusal := RegisterCheck(db, e, user, now, people);
    if refusal.Some? then (db, Refused(refusal.value))
    else
      var ev := db.events[e];
      var r := Register(db.table, e, ev.capacity, user, now, id);
      var k := Key(e, user);
      var own := if IsRegistered(r.table, k)
                 then Upsert(db.reminders, e, user, r.table[k].id, ScheduleOf(ev), people.preferences(user), now)
                 else DropUser(db.reminders, e, user);
      (db.(table := r.table,
           reminders := SyncAll(own, r.promoted * r.table.Keys, r.table, ScheduleOf(ev), people, now)),
       Ok(Replied(r.replayed, |r.promoted|)))
  }

  /** A cancelled registration, its reminders dropped and those of the promoted written. */
  function CancelAndSync(db: Db, e: nat, user: nat, now: int, people: People): Option<(Db, Reply)>
    requires e in db.events
  {
    var ev := db.events[e];
    var r := Cancel(db.table, e, ev.capacity, user, now);
    if r.None? then None
    else
      var v := r.value;
      Some((db.(table := v.table,
                reminders := SyncAll(DropUser(db.reminders, e, user), v.promoted * v.table.Keys, v.table,
                                     ScheduleOf(ev), people, now)),
            Replied(v.replayed, |v.promoted|)))
  }

  function CancelCheck(db: Db, e: nat, user: nat, people: People): Option<Failure> {
    if !people.active(user) then Some(UserNotActive)
    else if e !in db.events then Some(EventNotFound)
    else if !MayView(db, e, user) then Some(InviteRequired)
    else None
  }

  function CancelRegistration(db: Db, e: nat, user: nat, now: int, people: People): (Db, Outcome<Reply, Failure>) {
    var refusal := CancelCheck(db, e, user, people);
    if refusal.Some? then (db, Refused(refusal.value))
    else
      var r := CancelAndSync(db, e, user, now, people);
      if r.None? then (db, Refused(RegistrationNotFound)) else (r.value.0, Ok(r.value.1))
  }

  function InviteCheck(db: Db, e: nat, host: nat, people: People): Option<Failure> {
    if !people.active(host) then Some(UserNotActive)
    else if e !in db.events then Some(EventNotFound)
    else if !db.events[e].isPrivate || db.events[e].host != host then Some(InviteForbidden)
    else None
  }

  function InviteUser(db: Db, e: nat, host: nat, user: nat, people: People): (Db, Outcome<Reply, Failure>) {
    var refusal := InviteCheck(db, e, host, people);
    if !people.active(host) || !people.active(user) then (db, Refused(UserNotActive))
    else if refusal.Some? then (db, Refused(refusal.value))
    else if user == host then (db, Refused(InvalidInput))
    else (db.(invitations := db.invitations[Key(e, user) := true]), Ok(Replied(Invited(db, e, user), 0)))
  }

  function RevokeInvitation(db: Db, e: nat, host: nat, user: nat, now: int, people: People): (Db,
          Outcome<Reply, Failure>) {
    var refusal := InviteCheck(db, e, host, people);
    if refusal.Some? then (db, Refused(refusal.value))
    else if !Invited(db, e, user) then (db, Ok(Replied(true, 0)))
    else
      var k := Key(e, user);
      var revoked := db.(invitations := db.invitations[k := false]);
      if k !in db.table || db.table[k].status == Cancelled then (revoked, Ok(Replied(false, 0)))
      else (CancelAndSync(revoked, e, user, now, people).value.0, Ok(Replied(false, 0)))
  }

  function CancelEvent(db: Db, e: nat, user: nat, now: int, people: People): (Db, Outcome<Reply, Failure>) {
    if !people.active(user) then (db, Refused(UserNotActive))
    else if e !in db.events then (db, Refused(EventNotFound))
    else if db.events[e].host != user then (db, Refused(HostForbidden))
    else if StateOf(db.events[e], now) == Ended then (db, Refused(CannotCancel))
    else (Db(db.events[e := db.events[e].(cancelled := true)], CancelAll(db.table, e, now), DropEvent(db.reminders, e),
             db.invitations),
          Ok(Replied(db.events[e].cancelled, 0)))
  }

  function ReconcileReminders(db: Db, e: nat, user: nat, now: int, people: People): (Db, Outcome<Reply, Failure>) {
    var refusal := CancelCheck(db, e, user, people);
    if refusal.Some? then (db, Refused(refusal.value))
    else if !IsRegistered(db.table, Key(e, user)) then (db, Refused(ReminderInvalid))
    else (db.(reminders := Upsert(db.reminders, e, user, db.table[Key(e, user)].id, ScheduleOf(db.events[e]),
                                  people.preferences(user), now)),
          Ok(Replied(false, 0)))
  }

  class Service {
    var events: map<nat, Event>
    var invitations: map<Key, bool>
    const repository: Repository
    const store: Store

    constructor (repository: Repository, store: Store)
      ensures this.repository == repository && this.store == store && events == map[] && invitations == map[]
    {
      this.repository, this.store, events, invitations := repository, store, map[], map[];
    }

    ghost function Snapshot(): Db
      reads this, repository, store
    {
      Db(events, repository.registrations, store.reminders, invitations)
    }

    method SyncPromoted(ev: Event, promoted: seq<Key>, people: People, now: int)
      requires forall i, j :: 0 <= i < j < |promoted| ==> promoted[i] != promoted[j]
      requires forall k :: k in promoted ==> k in repository.registrations
      modifies store
      ensures store.reminders == SyncAll(old(store.reminders), Elements(promoted) * repository.registrations.Keys,
                                         repository.registrations, ScheduleOf(ev), people, now)
    {
      SyncNobody(store.reminders, repository.registrations, ScheduleOf(ev), people, now);
      var i := 0;
      while i < |promoted|
        invariant 0 <= i <= |promoted|
        invariant Elements(promoted[..i]) <= repository.registrations.Keys
        invariant store.reminders == SyncAll(old(store.reminders), Elements(promoted[..i]), repository.registrations,
                                             ScheduleOf(ev), people, now)
      {
        var k := promoted[i];
        SyncNext(old(store.reminders), promoted, i, repository.registrations, ScheduleOf(ev), people, now);
        store.UpsertIntents(k.event, k.user, repository.registrations[k].id, ScheduleOf(ev), people.preferences(k.user),
                            now);
        i := i + 1;
      }
      assert promoted[..|promoted|] == promoted;
      assert Elements(promoted) * repository.registrations.Keys == Elements(promoted);
    }

    method DropOne(e: nat, user: nat)
      modifies store
      ensures store.reminders == DropUser(old(store.reminders), e, user)
    {
      store.DropIntents(e, Some(user), RegistrationCancelled);
    }

    method Register(e: nat, user: nat, now: int, id: nat, people: People) returns (r: Outcome<Reply, Failure>)
      requires DistinctIds(repository.registrations)
      requires forall k :: k in repository.registrations ==> repository.registrations[k].id != id
      modifies repository, store
      ensures (Snapshot(), r) == RegisterEvent(old(Snapshot()), e, user, now, id, people)
    {
      if !people.active(user) { return Refused(UserNotActive); }
      if e !in events { return Refused(EventNotFound); }
      var ev := events[e];
      if ev.host == user { return Refused(HostCannotRegister); }
      if StateOf(ev, now) != Upcoming { return Refused(NotAvailable); }
      if ev.isPrivate && ev.host != user && !(Key(e, user) in invitations && invitations[Key(e, user)]) {
        return Refused(InviteRequired);
      }
      var k := Key(e, user);
      var replayed, promoted := repository.RegisterUser(e, ev.capacity, user, now, id);
      if k in repository.registrations && repository.registrations[k].status == Registered {
        store.UpsertIntents(e, user, repository.registrations[k].id, ScheduleOf(ev), people.preferences(user), now);
      } else {
        DropOne(e, user);
      }
      PromotedExist(old(repository.registrations), e, ev.capacity, user, now, id, promoted);
      SyncPromoted(ev, promoted, people, now);
      DistinctCount(promoted);
      r := Ok(Replied(replayed, |promoted|));
    }

    method CancelOne(e: nat, user: nat, now: int, people: People) returns (found: bool, reply: Reply)
      requires DistinctIds(repository.registrations) && e in events
      modifies repository, store
      ensures found == CancelAndSync(old(Snapshot()), e, user, now, people).Some?
      ensures !found ==> Snapshot() == old(Snapshot())
      ensures found ==> (Snapshot(), reply) == CancelAndSync(old(Snapshot()), e, user, now, people).value
    {
      var replayed, promoted;
      found, replayed, promoted := repository.CancelUser(e, events[e].capacity, user, now);
      reply := Replied(replayed, |promoted|);
      if !found { return; }
      DropOne(e, user);
      CancelPromotedExist(old(repository.registrations), e, events[e].capacity, user, now, promoted);
      SyncPromoted(events[e], promoted, people, now);
      DistinctCount(promoted);
    }

    method Withdraw(e: nat, user: nat, now: int, people: People) returns (r: Outcome<Reply, Failure>)
      requires DistinctIds(repository.registrations)
      modifies repository, store
      ensures (Snapshot(), r) == CancelRegistration(old(Snapshot()), e, user, now, people)
    {
      if !people.active(user) { return Refused(UserNotActive); }
      if e !in events { return Refused(EventNotFound); }
      var ev := events[e];
      if ev.isPrivate && ev.host != user && !(Key(e, user) in invitations && invitations[Key(e, user)]) {
        return Refused(InviteRequired);
      }
      var found, reply := CancelOne(e, user, now, people);
      r := if found then Ok(reply) else Refused(RegistrationNotFound);
    }

    method Invite(e: nat, host: nat, user: nat, people: People) returns (r: Outcome<Reply, Failure>)
      modifies this
      ensures (Snapshot(), r) == InviteUser(old(Snapshot()), e, host, user, people)
    {
      if !people.active(host) || !people.active(user) { return Refused(UserNotActive); }
      if e !in events { return Refused(EventNotFound); }
      if !events[e].isPrivate || events[e].host != host { return Refused(InviteForbidden); }
      if user == host { return Refused(InvalidInput); }
      var k := Key(e, user);
      if k in invitations && invitations[k] {
        assert invitations[k := true] == invitations;
        return Ok(Replied(true, 0));
      }
      invitations := invitations[k := true];
      r := Ok(Replied(false, 0));
    }

    method Revoke(e: nat, host: nat, user: nat, now: int, people: People) returns (r: Outcome<Reply, Failure>)
      requires DistinctIds(repository.registrations)
      modifies this, repository, store
      ensures (Snapshot(), r) == RevokeInvitation(old(Snapshot()), e, host, user, now, people)
    {
      if !people.active(host) { return Refused(UserNotActive); }
      if e !in events { return Refused(EventNotFound); }
      if !events[e].isPrivate || events[e].host != host { return Refused(InviteForbidden); }
      var k := Key(e, user);
      if !(k in invitations && invitations[k]) { return Ok(Replied(true, 0)); }
      invitations := invitations[k := false];
      if k in repository.registrations && repository.registrations[k].status != Cancelled {
        var found, reply := CancelOne(e, user, now, people);
      }
      r := Ok(Replied(false, 0));
    }

    method CallOff(e: nat, user: nat, now: int, people: People) returns (r: Outcome<Reply, Failure>)
      modifies this, repository, store
      ensures (Snapshot(), r) == CancelEvent(old(Snapshot()), e, user, now, people)
    {
      if !people.active(user) { return Refused(UserNotActive); }
      if e !in events { return Refused(EventNotFound); }
      var ev := events[e];
      if ev.host != user { return Refused(HostForbidden); }
      if StateOf(ev, now) == Ended { return Refused(CannotCancel); }
      events := events[e := ev.(cancelled := true)];
      repository.CancelEveryone(e, now);
      store.DropIntents(e, None, EventCalledOff);
      assert store.reminders == DropEvent(old(store.reminders), e);
      r := Ok(Replied(ev.cancelled, 0));
    }

    method Reconcile(e: nat, user: nat, now: int, people: People) returns (r: Outcome<Reply, Failure>)
      modifies store
      ensures (Snapshot(), r) == ReconcileReminders(old(Snapshot()), e, user, now, people)
    {
      if !people.active(user) { return Refused(UserNotActive); }
      if e !in events { return Refused(EventNotFound); }
      var ev := events[e];
      if ev.isPrivate && ev.host != user && !(Key(e, user) in invitations && invitations[Key(e, user)]) {
        return Refused(InviteRequired);
      }
      var k := Key(e, user);
      if k !in repository.registrations || repository.registrations[k].status != Registered {
        return Refused(ReminderInvalid);
      }
      store.UpsertIntents(e, user, repository.registrations[k].id, ScheduleOf(ev), people.preferences(user), now);
      r := Ok(Replied(false, 0));
    }
  }

  lemma PromotedExist(t: Table, e: nat, capacity: int, user: nat, now: int, id: nat, promoted: seq<Key>)
    requires Elements(promoted) == EventParticipation.Register(t, e, capacity, user, now, id).promoted
    ensures forall k :: k in promoted ==> k in EventParticipation.Register(t, e, capacity, user, now, id).table
  {
    forall k | k in promoted ensures k in EventParticipation.Register(t, e, capacity, user, now, id).table {
      assert k in Elements(promoted);
    }
  }

  lemma CancelPromotedExist(t: Table, e: nat, capacity: int, user: nat, now: int, promoted: seq<Key>)
    requires Cancel(t, e, capacity, user, now).Some?
             && Elements(promoted) == Cancel(t, e, capacity, user, now).value.promoted
    ensures forall k :: k in promoted ==> k in Cancel(t, e, capacity, user, now).value.table
  {
    forall k | k in promoted ensures k in Cancel(t, e, capacity, user, now).value.table {
      assert k in Elements(promoted);
    }
  }
}
