/**
 * Bounded quota counters, changed in batches whose row locks are taken in one canonical
 * order that is remembered across all batches of a transaction.
 */
module AttachmentQuotaLedger {
  import opened Common

  /** Actions are listed in the alphabetical order in which the ledger compares them. */
  datatype Action = Bytes | Ingress | Initiate | Metadata | Pending | Read | Source | Upload | UploadAttempt
  datatype Kind = Actor | Ip | Deployment
  datatype Key = Key(kind: Kind, subject: nat, action: Action, window: int)
  datatype Change = Change(key: Key, delta: int, ceiling: int)
  datatype Counter = Counter(used: int, ceiling: int)
  datatype Failure = RateLimited | QuotaExceeded | Busy | QuotaIntegrity | LockOrder

  const DEPLOYMENT := 0
  const EPOCH := 0
  const MINUTE := 60000
  const HOUR := 3600000
  const DAY := 86400000

  const MEBIBYTE := 1048576
  const ACTOR_RESERVED_BYTES := 64 * MEBIBYTE
  const DEPLOYMENT_RESERVED_BYTES := 256 * MEBIBYTE
  const DEPLOYMENT_METADATA := 512
  const ACTOR_ACTIVE_UPLOADS := 1
  const DEPLOYMENT_ACTIVE_UPLOADS := 1
  const PENDING_JOBS := 8
  const ACTOR_INITIATIONS_PER_HOUR := 10
  const DEPLOYMENT_INITIATIONS_PER_HOUR := 40
  const ACTOR_SOURCE_BYTES_PER_DAY := 32 * MEBIBYTE
  const DEPLOYMENT_SOURCE_BYTES_PER_DAY := 128 * MEBIBYTE
  const ACTOR_READS_PER_MINUTE := 60
  const ANONYMOUS_READS_PER_MINUTE := 30
  const DEPLOYMENT_READS_PER_MINUTE := 300
  const IMAGE_BYTES := 4 * MEBIBYTE

  // ---------------------------------------------------------------- the canonical order

  function KindRank(k: Kind): nat {
    match k case Actor => 0 case Ip => 1 case Deployment => 2
  }

  function ActionRank(a: Action): nat {
    match a
    case Bytes => 0 case Ingress => 1 case Initiate => 2 case Metadata => 3 case Pending => 4
    case Read => 5 case Source => 6 case Upload => 7 case UploadAttempt => 8
  }

  /** Strictly earlier in lock order: by kind, then subject, then action, then window. */
  predicate Before(a: Key, b: Key) {
    if KindRank(a.kind) != KindRank(b.kind) then KindRank(a.kind) < KindRank(b.kind)
    else if a.subject != b.subject then a.subject < b.subject
    else if ActionRank(a.action) != ActionRank(b.action) then ActionRank(a.action) < ActionRank(b.action)
    else a.window < b.window
  }

  lemma BeforeIsTotal(a: Key, b: Key)
    ensures Before(a, b) || Before(b, a) || a == b
    ensures !(Before(a, b) && Before(b, a)) && !Before(a, a)
  {}

  lemma BeforeIsTransitive(a: Key, b: Key, c: Key)
    requires Before(a, b) && Before(b, c)
    ensures Before(a, c)
  {}

  predicate Ordered(cs: seq<Change>) {
    forall i, j :: 0 <= i < j < |cs| ==> !Before(cs[j].key, cs[i].key)
  }

  function Insert(c: Change, cs: seq<Change>): seq<Change> {
    if cs == [] || !Before(cs[0].key, c.key) then [c] + cs
    else [cs[0]] + Insert(c, cs[1..])
  }

  /** The stable sort of a batch into lock order. */
  function Sort(cs: seq<Change>): seq<Change> {
    if cs == [] then [] else Insert(cs[0], Sort(cs[1..]))
  }

  lemma {:induction false} InsertPermutes(c: Change, cs: seq<Change>)
    ensures multiset(Insert(c, cs)) == multiset(cs) + multiset{c}
  {
    if cs != [] && Before(cs[0].key, c.key) {
      InsertPermutes(c, cs[1..]);
      assert cs == [cs[0]] + cs[1..];
    }
  }

  lemma {:induction false} InsertOrders(c: Change, cs: seq<Change>)
    requires Ordered(cs)
    ensures Ordered(Insert(c, cs))
  {
    if cs == [] || !Before(cs[0].key, c.key) {
      forall j | 0 <= j < |cs| ensures !Before(cs[j].key, c.key) {
        assert j > 0 ==> !Before(cs[j].key, cs[0].key);
      }
    } else {
      InsertOrders(c, cs[1..]);
      InsertPermutes(c, cs[1..]);
      var rest := Insert(c, cs[1..]);
      forall j | 0 <= j < |rest| ensures !Before(rest[j].key, cs[0].key) {
        assert rest[j] in multiset(rest);
        if rest[j] != c {
          assert rest[j] in cs[1..];
        }
      }
    }
  }

  /** Sorting a batch yields the same changes in lock order. */
  lemma {:induction false} SortSorts(cs: seq<Change>)
    ensures multiset(Sort(cs)) == multiset(cs) && Ordered(Sort(cs))
    ensures forall c :: c in Sort(cs) <==> c in cs
  {
    if cs != [] {
      SortSorts(cs[1..]);
      InsertPermutes(cs[0], Sort(cs[1..]));
      InsertOrders(cs[0], Sort(cs[1..]));
      assert cs == [cs[0]] + cs[1..];
    }
    assert forall c :: c in Sort(cs) <==> c in multiset(Sort(cs));
  }

  // ---------------------------------------------------------------- batches

  /** The locks one transaction remembers holding, the greatest of them, and whether it is poisoned. */
  datatype Held = Held(xid: nat, keys: set<Key>, maximum: Option<Key>, failed: bool)

  datatype Session = Session(counters: map<Key, Counter>, xid: nat, held: Option<Held>)

  function CurrentLocks(s: Session): Held {
    if s.held.Some? && s.held.value.xid == s.xid then s.held.value else Held(s.xid, {}, None, false)
  }

  /** The batch would lock a new counter behind one already locked. */
  predicate OutOfOrder(h: Held, sorted: seq<Change>) {
    h.maximum.Some? && exists c :: c in sorted && c.key !in h.keys && Before(c.key, h.maximum.value)
  }

  function Lock(h: Held, k: Key): Held {
    h.(keys := h.keys + {k},
       maximum := if h.maximum.None? || Before(h.maximum.value, k) then Some(k) else h.maximum)
  }

  predicate WellFormed(c: Change) {
    SafeInteger(c.delta) && SafeInteger(c.ceiling) && c.ceiling >= 1
    && -DEPLOYMENT_RESERVED_BYTES <= c.delta <= DEPLOYMENT_RESERVED_BYTES
  }

  function Inserted(counters: map<Key, Counter>, c: Change): map<Key, Counter> {
    if c.key in counters then counters else counters[c.key := Counter(0, c.ceiling)]
  }

  predicate Admits(n: Counter, c: Change) {
    n.ceiling == c.ceiling && 0 <= n.used + c.delta <= n.ceiling
  }

  function ApplyEach(counters: map<Key, Counter>, h: Held, sorted: seq<Change>, code: Failure)
    : (map<Key, Counter>, Held, Outcome<(), Failure>)
    decreases |sorted|
  {
    if sorted == [] then (counters, h, Ok(()))
    else
      var c := sorted[0];
      if !WellFormed(c) then (counters, h, Refused(QuotaIntegrity))
      else
        var inserted := Inserted(counters, c);
        if !Admits(inserted[c.key], c) then (inserted, h, Refused(code))
        else ApplyEach(inserted[c.key := inserted[c.key].(used := inserted[c.key].used + c.delta)],
                       Lock(h, c.key), sorted[1..], code)
  }

  /** One batch on the session; any refusal poisons the transaction's remembered locks. */
  function Apply(s: Session, changes: seq<Change>, code: Failure): (Session, Outcome<(), Failure>) {
    var h, sorted := CurrentLocks(s), Sort(changes);
    if h.failed then (s.(held := Some(h)), Refused(QuotaIntegrity))
    else if OutOfOrder(h, sorted) then (s.(held := Some(h.(failed := true))), Refused(LockOrder))
    else
      var r := ApplyEach(s.counters, h, sorted, code);
      (Session(r.0, s.xid, Some(if r.2.Ok? then r.1 else r.1.(failed := true))), r.2)
  }

  // ---------------------------------------------------------------- the public operations

  datatype CapacityChange = CapacityChange(bytes: int, metadata: int, upload: int, pending: int)
  datatype Reader = ByActor(actor: nat) | ByAddress(hash: nat)

  datatype Slot = UploadSlot | PendingSlot

  datatype Op =
    | ChangeCapacity(actor: nat, change: CapacityChange)
    | ChangeReservation(actor: nat, bytes: int, metadata: int)
    | ChangeSlots(actor: nat, slot: Slot, delta: int)
    | ConsumeInitiation(actor: nat, sourceBytes: int, now: int)
    | ConsumeUploadAttempt(actor: nat, expectedBytes: int, now: int)
    | ConsumeRead(reader: Reader, now: int)

  function Floor(now: int, width: int): int
    requires width > 0
  {
    now / width * width
  }

  /** The counters of one resource: the subject's and the deployment's, moved together. */
  function Pair(kind: Kind, subject: nat, action: Action, window: int, delta: int, own: int, all: int): seq<Change> {
    [Change(Key(kind, subject, action, window), delta, own),
     Change(Key(Deployment, DEPLOYMENT, action, window), delta, all)]
  }

  function CapacityChanges(actor: nat, c: CapacityChange): seq<Change> {
    (if c.bytes != 0 then Pair(Actor, actor, Bytes, EPOCH, c.bytes, ACTOR_RESERVED_BYTES, DEPLOYMENT_RESERVED_BYTES)
     else [])
    + (if c.metadata != 0 then [Change(Key(Deployment, DEPLOYMENT, Metadata, EPOCH), c.metadata, DEPLOYMENT_METADATA)]
       else [])
    + (if c.upload != 0 then Pair(Actor, actor, Upload, EPOCH, c.upload, ACTOR_ACTIVE_UPLOADS,
                                  DEPLOYMENT_ACTIVE_UPLOADS) else [])
    + (if c.pending != 0 then [Change(Key(Deployment, DEPLOYMENT, Pending, EPOCH), c.pending, PENDING_JOBS)] else [])
  }

  function Intake(actor: nat, count: Action, volume: Action, bytes: int, now: int): seq<Change> {
    Pair(Actor, actor, count, Floor(now, HOUR), 1, ACTOR_INITIATIONS_PER_HOUR, DEPLOYMENT_INITIATIONS_PER_HOUR)
    + Pair(Actor, actor, volume, Floor(now, DAY), bytes, ACTOR_SOURCE_BYTES_PER_DAY, DEPLOYMENT_SOURCE_BYTES_PER_DAY)
  }

  function ReadChanges(reader: Reader, now: int): seq<Change> {
    match reader
    case ByActor(a) => Pair(Actor, a, Read, Floor(now, MINUTE), 1, ACTOR_READS_PER_MINUTE, DEPLOYMENT_READS_PER_MINUTE)
    case ByAddress(h) => Pair(Ip, h, Read, Floor(now, MINUTE), 1, ANONYMOUS_READS_PER_MINUTE,
                              DEPLOYMENT_READS_PER_MINUTE)
  }

  predicate UnitDelta(d: int) {
    d in {-1, 0, 1}
  }

  predicate Accepted(op: Op) {
    match op
    case ChangeCapacity(_, c) =>
      SafeInteger(c.bytes) && UnitDelta(c.metadata) && UnitDelta(c.upload) && UnitDelta(c.pending)
    case ChangeReservation(_, b, m) => SafeInteger(b) && UnitDelta(m)
    case ChangeSlots(_, _, d) => d in {1, -1}
    case ConsumeInitiation(_, b, _) => SafeInteger(b) && 1 <= b <= IMAGE_BYTES
    case ConsumeUploadAttempt(_, b, _) => SafeInteger(b) && 1 <= b <= IMAGE_BYTES
    case ConsumeRead(_, _) => true
  }

  function SlotChange(slot: Slot, delta: int): CapacityChange {
    match slot case UploadSlot => CapacityChange(0, 0, delta, 0) case PendingSlot => CapacityChange(0, 0, 0, delta)
  }

  function Batch(op: Op): seq<Change> {
    match op
    case ChangeCapacity(a, c) => CapacityChanges(a, c)
    case ChangeReservation(a, b, m) => CapacityChanges(a, CapacityChange(b, m, 0, 0))
    case ChangeSlots(a, slot, d) => CapacityChanges(a, SlotChange(slot, d))
    case ConsumeInitiation(a, b, now) => Intake(a, Initiate, Source, b, now)
    case ConsumeUploadAttempt(a, b, now) => Intake(a, UploadAttempt, Ingress, b, now)
    case ConsumeRead(r, now) => ReadChanges(r, now)
  }

  function Code(op: Op): Failure {
    match op
    case ChangeCapacity(_, c) => if c.upload > 0 || c.pending > 0 then Busy else QuotaExceeded
    case ChangeReservation(_, _, _) => QuotaExceeded
    case ChangeSlots(_, _, d) => if d > 0 then Busy else QuotaExceeded
    case _ => RateLimited
  }

  function Perform(s: Session, op: Op): (Session, Outcome<(), Failure>) {
    if !Accepted(op) then (s, Refused(QuotaIntegrity))
    else if Batch(op) == [] then (s, Ok(()))
    else Apply(s, Batch(op), Code(op))
  }

  /** How the batch from position i is decided by its first change. */
  lemma EachTakesTheFirst(counters: map<Key, Counter>, h: Held, sorted: seq<Change>, i: nat, code: Failure)
    requires i < |sorted|
    ensures var c := sorted[i];
            var inserted := Inserted(counters, c);
            ApplyEach(counters, h, sorted[i..], code) ==
              if !WellFormed(c) then (counters, h, Refused(QuotaIntegrity))
              else if !Admits(inserted[c.key], c) then (inserted, h, Refused(code))
              else ApplyEach(inserted[c.key := inserted[c.key].(used := inserted[c.key].used + c.delta)],
                             Lock(h, c.key), sorted[i + 1..], code)
  {
    assert sorted[i..][0] == sorted[i] && sorted[i..][1..] == sorted[i + 1..];
  }

  /** One client and its open transaction. */
  class Client {
    var counters: map<Key, Counter>
    var xid: nat
    var held: Option<Held>

    constructor (counters: map<Key, Counter>, xid: nat)
      ensures Snapshot() == Session(counters, xid, None)
    {
      this.counters, this.xid, held := counters, xid, None;
    }

    ghost function Snapshot(): Session
      reads this
    {
      Session(counters, xid, held)
    }

    method ApplyBatch(changes: seq<Change>, code: Failure) returns (r: Outcome<(), Failure>)
      modifies this
      ensures (Snapshot(), r) == Apply(old(Snapshot()), changes, code)
    {
      var sorted := Sort(changes);
      if held.None? || held.value.xid != xid { held := Some(Held(xid, {}, None, false)); }
      var locks := held.value;
      if locks.failed { return Refused(QuotaIntegrity); }
      if OutOfOrder(locks, sorted) {
        held := Some(locks.(failed := true));
        return Refused(LockOrder);
      }
      ghost var result := ApplyEach(counters, locks, sorted, code);
      var i := 0;
      while i < |sorted|
        invariant 0 <= i <= |sorted|
        invariant ApplyEach(counters, locks, sorted[i..], code) == result
        invariant xid == old(xid)
      {
        var c := sorted[i];
        EachTakesTheFirst(counters, locks, sorted, i, code);
        if !WellFormed(c) {
          held := Some(locks.(failed := true));
          return Refused(QuotaIntegrity);
        }
        if c.key !in counters { counters := counters[c.key := Counter(0, c.ceiling)]; }
        var row := counters[c.key];
        if row.ceiling != c.ceiling || row.used + c.delta < 0 || row.used + c.delta > row.ceiling {
          held := Some(locks.(failed := true));
          return Refused(code);
        }
        counters := counters[c.key := row.(used := row.used + c.delta)];
        locks := Lock(locks, c.key);
        i := i + 1;
      }
      held := Some(locks);
      r := Ok(());
    }

    method Execute(op: Op) returns (r: Outcome<(), Failure>)
      modifies this
      ensures (Snapshot(), r) == Perform(old(Snapshot()), op)
    {
      if !Accepted(op) { return Refused(QuotaIntegrity); }
      var changes := Batch(op);
      if changes == [] { return Ok(()); }
      r := ApplyBatch(changes, Code(op));
    }
  }

  /** After a refusal the transaction is poisoned: no later batch in it changes any counter. */
  lemma RefusalPoisons(s: Session, first: Op, later: Op)
    requires Perform(s, first).1.Refused? && Accepted(first)
    ensures var t := Perform(s, first).0;
            Accepted(later) && Batch(later) != [] ==>
              Perform(t, later).1 == Refused(QuotaIntegrity) && Perform(t, later).0.counters == t.counters
  {
    var h := CurrentLocks(s);
    LocksKeepTransaction(s.counters, h, Sort(Batch(first)), Code(first));
  }

  lemma {:induction false} LocksKeepTransaction(counters: map<Key, Counter>, h: Held, cs: seq<Change>, code: Failure)
    ensures ApplyEach(counters, h, cs, code).1.xid == h.xid
    ensures ApplyEach(counters, h, cs, code).1.failed == h.failed
    decreases |cs|
  {
    if cs != [] && WellFormed(cs[0]) {
      var c := cs[0];
      var inserted := Inserted(counters, c);
      if Admits(inserted[c.key], c) {
        LocksKeepTransaction(inserted[c.key := inserted[c.key].(used := inserted[c.key].used + c.delta)],
                             Lock(h, c.key), cs[1..], code);
      }
    }
  }
}
