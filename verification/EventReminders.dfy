/** Reminder intents: two per registered attendee, scheduled or suppressed when they are written. */
module EventReminders {
  import opened Common

  datatype Kind = TwentyFourHours | OneHour
  datatype IntentStatus = Scheduled | Suppressed | Dropped
  datatype Reason = WindowPassed | InAppPreference | EventCalledOff | RegistrationCancelled
  datatype Intent = Intent(registrationId: nat, scheduledFor: int, timezone: string, status: IntentStatus,
          reason: Option<Reason>)
  datatype ReminderKey = ReminderKey(event: nat, user: nat, kind: Kind)
  type Intents = map<ReminderKey, Intent>

  datatype Schedule = Schedule(startAt: int, timezone: string)
  datatype Preferences = Preferences(timezone: Option<string>, inApp: bool)

  const KINDS := {TwentyFourHours, OneHour}
  const HOUR := 3600000

  function Offset(k: Kind): int {
    match k case TwentyFourHours => 24 * HOUR case OneHour => HOUR
  }

  function Suppression(scheduledFor: int, now: int, inApp: bool): Option<Reason> {
    if scheduledFor <= now then Some(WindowPassed)
    else if !inApp then Some(InAppPreference)
    else None
  }

  function IntentFor(s: Schedule, registrationId: nat, p: Preferences, kind: Kind, now: int): Intent {
    var at := s.startAt - Offset(kind);
    var reason := Suppression(at, now, p.inApp);
    Intent(registrationId, at, if p.timezone.Some? then p.timezone.value else s.timezone,
           if reason.Some? then Suppressed else Scheduled, reason)
  }

  function Upsert(m: Intents, e: nat, user: nat, registrationId: nat, s: Schedule, p: Preferences, now: int): Intents {
    m[ReminderKey(e, user, TwentyFourHours) := IntentFor(s, registrationId, p, TwentyFourHours, now)]
     [ReminderKey(e, user, OneHour) := IntentFor(s, registrationId, p, OneHour, now)]
  }

  function Drop(i: Intent, reason: Reason): Intent {
    i.(status := Dropped, reason := Some(reason))
  }

  function DropUser(m: Intents, e: nat, user: nat): Intents {
    map k | k in m :: if k.event == e && k.user == user then Drop(m[k], RegistrationCancelled) else m[k]
  }

  function DropEvent(m: Intents, e: nat): Intents {
    map k | k in m :: if k.event == e then Drop(m[k], EventCalledOff) else m[k]
  }

  class Store {
    var reminders: Intents

    constructor ()
      ensures reminders == map[]
    {
      reminders := map[];
    }

    method UpsertIntents(e: nat, user: nat, registrationId: nat, s: Schedule, p: Preferences, now: int)
      modifies this
      ensures reminders == Upsert(old(reminders), e, user, registrationId, s, p, now)
    {
      var kinds := [TwentyFourHours, OneHour];
      var i := 0;
      while i < 2
        invariant 0 <= i <= 2
        invariant i == 0 ==> reminders == old(reminders)
        invariant i == 1 ==>
                    reminders == old(reminders)[ReminderKey(e, user, TwentyFourHours) :=
                                                  IntentFor(s, registrationId, p, TwentyFourHours, now)]
        invariant i == 2 ==> reminders == Upsert(old(reminders), e, user, registrationId, s, p, now)
      {
        reminders := reminders[ReminderKey(e, user, kinds[i]) := IntentFor(s, registrationId, p, kinds[i], now)];
        i := i + 1;
      }
    }

    method DropIntents(e: nat, user: Option<nat>, reason: Reason)
      modifies this
      ensures reminders.Keys == old(reminders.Keys)
      ensures forall k :: k in old(reminders) ==>
                reminders[k] == if k.event == e && (user.None? || k.user == user.value)
                                then Drop(old(reminders[k]), reason)
                                else old(reminders[k])
    {
      ghost var was := reminders;
      var rest := reminders.Keys;
      while rest != {}
        invariant rest <= was.Keys && reminders.Keys == was.Keys
        invariant forall k :: k in was ==>
                    reminders[k] == if k !in rest && k.event == e && (user.None? || k.user == user.value)
                                    then Drop(was[k], reason) else was[k]
      {
        var k :| k in rest;
        rest := rest - {k};
        if k.event == e && (user.None? || k.user == user.value) {
          reminders := reminders[k := Drop(reminders[k], reason)];
        }
      }
    }
  }
}
