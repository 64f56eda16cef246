/**
 * What the quota counters mean in time. The use of a resource is counted from the committed operations alone, by the
 * moment each names: the counters are those sums, no sum passes its limit, and nothing is refused before it would.
 */
module AttachmentQuotaWindows {
  import opened Common
  import opened AttachmentQuotaLedger
  import opened AttachmentQuotaConservation
  import Interleaving = AttachmentQuotaInterleaving

  // ---------------------------------------------------------------- what an operation uses

  datatype Party = OfActor(id: nat) | OfAddress(id: nat) | OfAll

  datatype Meter =
    | Initiations(hour: int)
    | SourceBytes(day: int)
    | UploadAttempts(hour: int)
    | IngressBytes(day: int)
    | Reads(minute: int)
    | ReservedBytes
    | MetadataRows
    | ActiveUploads
    | PendingJobs

  /** The n-th stretch of this many milliseconds. */
  predicate During(now: int, width: int, n: int) {
    n * width <= now < (n + 1) * width
  }

  predicate Concerns(p: Party, actor: nat) {
    p == OfAll || p == OfActor(actor)
  }

  function Once(b: bool, amount: int): int {
    if b then amount else 0
  }

  /** What one operation adds to a party's use of a resource. */
  function Amount(op: Op, p: Party, m: Meter): int {
    match op
    case ConsumeInitiation(a, bytes, now) =>
      if !Concerns(p, a) then 0
      else if m.Initiations? then Once(During(now, 3600000, m.hour), 1)
      else if m.SourceBytes? then Once(During(now, 86400000, m.day), bytes) else 0
    case ConsumeUploadAttempt(a, bytes, now) =>
      if !Concerns(p, a) then 0
      else if m.UploadAttempts? then Once(During(now, 3600000, m.hour), 1)
      else if m.IngressBytes? then Once(During(now, 86400000, m.day), bytes) else 0
    case ConsumeRead(ByActor(a), now) => Once(Concerns(p, a) && m.Reads? && During(now, 60000, m.minute), 1)
    case ConsumeRead(ByAddress(h), now) =>
      Once((p == OfAll || p == OfAddress(h)) && m.Reads? && During(now, 60000, m.minute), 1)
    case ChangeCapacity(a, c) =>
      if m.ReservedBytes? then Once(Concerns(p, a), c.bytes)
      else if m.ActiveUploads? then Once(Concerns(p, a), c.upload)
      else if m.MetadataRows? then Once(p == OfAll, c.metadata)
      else if m.PendingJobs? then Once(p == OfAll, c.pending) else 0
    case ChangeReservation(a, bytes, rows) =>
      if m.ReservedBytes? then Once(Concerns(p, a), bytes) else Once(m.MetadataRows? && p == OfAll, rows)
    case ChangeSlots(a, UploadSlot, d) => Once(m.ActiveUploads? && Concerns(p, a), d)
    case ChangeSlots(a, PendingSlot, d) => Once(m.PendingJobs? && p == OfAll, d)
  }

  function Total(ops: seq<Op>, p: Party, m: Meter): int {
    if ops == [] then 0 else Amount(ops[0], p, m) + Total(ops[1..], p, m)
  }

  /** What each party may use; what no operation ever uses is limited to nothing. */
  function Limit(p: Party, m: Meter): nat {
    match m
    case Initiations(_) => if p.OfActor? then 10 else if p == OfAll then 40 else 0
    case UploadAttempts(_) => if p.OfActor? then 10 else if p == OfAll then 40 else 0
    case SourceBytes(_) => if p.OfActor? then 33554432 else if p == OfAll then 134217728 else 0
    case IngressBytes(_) => if p.OfActor? then 33554432 else if p == OfAll then 134217728 else 0
    case Reads(_) => if p.OfActor? then 60 else if p.OfAddress? then 30 else 300
    case ReservedBytes => if p.OfActor? then 67108864 else if p == OfAll then 268435456 else 0
    case ActiveUploads => if p.OfAddress? then 0 else 1
    case MetadataRows => if p == OfAll then 512 else 0
    case PendingJobs => if p == OfAll then 8 else 0
  }

  // ---------------------------------------------------------------- the counter of a party and a resource

  function ActionOf(m: Meter): Action {
    match m
    case Initiations(_) => Initiate case SourceBytes(_) => Source
    case UploadAttempts(_) => UploadAttempt case IngressBytes(_) => Ingress
    case Reads(_) => Read case ReservedBytes => Bytes
    case MetadataRows => Metadata case ActiveUploads => Upload case PendingJobs => Pending
  }

  function WindowOf(m: Meter): int {
    match m
    case Initiations(h) => h * 3600000
    case UploadAttempts(h) => h * 3600000
    case SourceBytes(d) => d * 86400000
    case IngressBytes(d) => d * 86400000
    case Reads(n) => n * 60000
    case _ => 0
  }

  function CounterOf(p: Party, m: Meter): Key {
    match p
    case OfActor(a) => Key(Actor, a, ActionOf(m), WindowOf(m))
    case OfAddress(h) => Key(Ip, h, ActionOf(m), WindowOf(m))
    case OfAll => Key(Deployment, DEPLOYMENT, ActionOf(m), WindowOf(m))
  }

  function UsedAt(counters: map<Key, Counter>, k: Key): int {
    if k in counters then counters[k].used else 0
  }

  function DeltaAt(cs: seq<Change>, k: Key): int {
    if cs == [] then 0 else (if cs[0].key == k then cs[0].delta else 0) + DeltaAt(cs[1..], k)
  }

  lemma {:induction false} DeltasAdd(xs: seq<Change>, ys: seq<Change>, k: Key)
    ensures DeltaAt(xs + ys, k) == DeltaAt(xs, k) + DeltaAt(ys, k)
  {
    if xs == [] {
      assert xs + ys == ys;
    } else {
      assert (xs + ys)[1..] == xs[1..] + ys;
      DeltasAdd(xs[1..], ys, k);
    }
  }

  function One(c: Change, k: Key): int {
    if c.key == k then c.delta else 0
  }

  lemma DeltaOfPair(c: Change, d: Change, k: Key)
    ensures DeltaAt([c], k) == One(c, k) && DeltaAt([c, d], k) == One(c, k) + One(d, k)
  {
    assert [c][1..] == [] && [c, d][1..] == [d] && [d][1..] == [];
  }

  lemma EarlierStretch(a: int, b: int, width: int)
    requires a < b && width > 0
    ensures a * width + width <= b * width
  {
    var d := b - a - 1;
    assert d * width >= 0;
    assert b * width == a * width + width + d * width;
  }

  lemma FloorOf(now: int, width: int, n: int)
    requires width > 0
    ensures Floor(now, width) == n * width <==> During(now, width, n)
  {
    var q := now / width;
    assert Floor(now, width) == q * width <= now < q * width + width;
    assert (n + 1) * width == n * width + width;
    if n < q { EarlierStretch(n, q, width); }
    else if q < n { EarlierStretch(q, n, width); }
  }

  lemma PairDelta(kind: Kind, subject: nat, action: Action, window: int, delta: int, own: int, all: int, k: Key)
    ensures DeltaAt(Pair(kind, subject, action, window, delta, own, all), k)
            == One(Change(Key(kind, subject, action, window), delta, own), k)
               + One(Change(Key(Deployment, DEPLOYMENT, action, window), delta, all), k)
  {
    DeltaOfPair(Change(Key(kind, subject, action, window), delta, own),
                Change(Key(Deployment, DEPLOYMENT, action, window), delta, all), k);
  }

  lemma IntakeDelta(actor: nat, count: Action, volume: Action, bytes: int, now: int, k: Key)
    ensures DeltaAt(Intake(actor, count, volume, bytes, now), k)
            == One(Change(Key(Actor, actor, count, Floor(now, HOUR)), 1, 0), k)
               + One(Change(Key(Deployment, DEPLOYMENT, count, Floor(now, HOUR)), 1, 0), k)
               + One(Change(Key(Actor, actor, volume, Floor(now, DAY)), bytes, 0), k)
               + One(Change(Key(Deployment, DEPLOYMENT, volume, Floor(now, DAY)), bytes, 0), k)
  {
    var x := Pair(Actor, actor, count, Floor(now, HOUR), 1, ACTOR_INITIATIONS_PER_HOUR,
                  DEPLOYMENT_INITIATIONS_PER_HOUR);
    var y := Pair(Actor, actor, volume, Floor(now, DAY), bytes, ACTOR_SOURCE_BYTES_PER_DAY,
                  DEPLOYMENT_SOURCE_BYTES_PER_DAY);
    DeltasAdd(x, y, k);
    PairDelta(Actor, actor, count, Floor(now, HOUR), 1, ACTOR_INITIATIONS_PER_HOUR, DEPLOYMENT_INITIATIONS_PER_HOUR, k);
    PairDelta(Actor, actor, volume, Floor(now, DAY), bytes, ACTOR_SOURCE_BYTES_PER_DAY,
              DEPLOYMENT_SOURCE_BYTES_PER_DAY, k);
  }

  lemma CapacityDelta(actor: nat, c: CapacityChange, k: Key)
    ensures DeltaAt(CapacityChanges(actor, c), k)
            == One(Change(Key(Actor, actor, Bytes, EPOCH), c.bytes, 0), k)
               + One(Change(Key(Deployment, DEPLOYMENT, Bytes, EPOCH), c.bytes, 0), k)
               + One(Change(Key(Deployment, DEPLOYMENT, Metadata, EPOCH), c.metadata, 0), k)
               + One(Change(Key(Actor, actor, Upload, EPOCH), c.upload, 0), k)
               + One(Change(Key(Deployment, DEPLOYMENT, Upload, EPOCH), c.upload, 0), k)
               + One(Change(Key(Deployment, DEPLOYMENT, Pending, EPOCH), c.pending, 0), k)
  {
    var bytes := if c.bytes != 0
                 then Pair(Actor, actor, Bytes, EPOCH, c.bytes, ACTOR_RESERVED_BYTES, DEPLOYMENT_RESERVED_BYTES)
                 else [];
    var rows := if c.metadata != 0
                then [Change(Key(Deployment, DEPLOYMENT, Metadata, EPOCH), c.metadata, DEPLOYMENT_METADATA)] else [];
    var upload := if c.upload != 0
                  then Pair(Actor, actor, Upload, EPOCH, c.upload, ACTOR_ACTIVE_UPLOADS, DEPLOYMENT_ACTIVE_UPLOADS)
                  else [];
    var pending := if c.pending != 0
                   then [Change(Key(Deployment, DEPLOYMENT, Pending, EPOCH), c.pending, PENDING_JOBS)] else [];
    DeltasAdd(bytes + rows + upload, pending, k);
    DeltasAdd(bytes + rows, upload, k);
    DeltasAdd(bytes, rows, k);
    PairDelta(Actor, actor, Bytes, EPOCH, c.bytes, ACTOR_RESERVED_BYTES, DEPLOYMENT_RESERVED_BYTES, k);
    PairDelta(Actor, actor, Upload, EPOCH, c.upload, ACTOR_ACTIVE_UPLOADS, DEPLOYMENT_ACTIVE_UPLOADS, k);
    if rows != [] { DeltaOfPair(rows[0], rows[0], k); }
    if pending != [] { DeltaOfPair(pending[0], pending[0], k); }
  }

  lemma IntakeAmount(op: Op, p: Party, m: Meter)
    requires op.ConsumeInitiation? || op.ConsumeUploadAttempt?
    ensures DeltaAt(Batch(op), CounterOf(p, m)) == Amount(op, p, m)
  {
    var k := CounterOf(p, m);
    match op
    case ConsumeInitiation(a, bytes, now) =>
      IntakeDelta(a, Initiate, Source, bytes, now, k);
      if m.Initiations? { FloorOf(now, HOUR, m.hour); }
      if m.SourceBytes? { FloorOf(now, DAY, m.day); }
    case ConsumeUploadAttempt(a, bytes, now) =>
      IntakeDelta(a, UploadAttempt, Ingress, bytes, now, k);
      if m.UploadAttempts? { FloorOf(now, HOUR, m.hour); }
      if m.IngressBytes? { FloorOf(now, DAY, m.day); }
  }

  lemma ReadAmount(op: Op, p: Party, m: Meter)
    requires op.ConsumeRead?
    ensures DeltaAt(Batch(op), CounterOf(p, m)) == Amount(op, p, m)
  {
    var k := CounterOf(p, m);
    match op
    case ConsumeRead(ByActor(a), now) =>
      PairDelta(Actor, a, Read, Floor(now, MINUTE), 1, ACTOR_READS_PER_MINUTE, DEPLOYMENT_READS_PER_MINUTE, k);
      if m.Reads? { FloorOf(now, MINUTE, m.minute); }
    case ConsumeRead(ByAddress(h), now) =>
      PairDelta(Ip, h, Read, Floor(now, MINUTE), 1, ANONYMOUS_READS_PER_MINUTE, DEPLOYMENT_READS_PER_MINUTE, k);
      if m.Reads? { FloorOf(now, MINUTE, m.minute); }
  }

  lemma CapacityAmount(op: Op, p: Party, m: Meter)
    requires op.ChangeCapacity?
    ensures DeltaAt(Batch(op), CounterOf(p, m)) == Amount(op, p, m)
  {
    CapacityDelta(op.actor, op.change, CounterOf(p, m));
  }

  lemma ReservationAmount(op: Op, p: Party, m: Meter)
    requires op.ChangeReservation?
    ensures DeltaAt(Batch(op), CounterOf(p, m)) == Amount(op, p, m)
  {
    CapacityDelta(op.actor, CapacityChange(op.bytes, op.metadata, 0, 0), CounterOf(p, m));
  }

  lemma SlotsAmount(op: Op, p: Party, m: Meter)
    requires op.ChangeSlots?
    ensures DeltaAt(Batch(op), CounterOf(p, m)) == Amount(op, p, m)
  {
    CapacityDelta(op.actor, SlotChange(op.slot, op.delta), CounterOf(p, m));
  }

  /** A batch moves each counter by what its operation uses. */
  lemma BatchAmount(op: Op, p: Party, m: Meter)
    ensures DeltaAt(Batch(op), CounterOf(p, m)) == Amount(op, p, m)
  {
    if op.ConsumeInitiation? || op.ConsumeUploadAttempt? { IntakeAmount(op, p, m); }
    else if op.ConsumeRead? { ReadAmount(op, p, m); }
    else if op.ChangeCapacity? { CapacityAmount(op, p, m); }
    else if op.ChangeReservation? { ReservationAmount(op, p, m); }
    else { SlotsAmount(op, p, m); }
  }

  // ---------------------------------------------------------------- the counters are the totals

  lemma {:induction false} InsertKeepsDelta(c: Change, cs: seq<Change>, k: Key)
    ensures DeltaAt(Insert(c, cs), k) == One(c, k) + DeltaAt(cs, k)
  {
    if cs == [] || !Before(cs[0].key, c.key) {
      assert ([c] + cs)[1..] == cs;
    } else {
      InsertKeepsDelta(c, cs[1..], k);
      assert ([cs[0]] + Insert(c, cs[1..]))[1..] == Insert(c, cs[1..]);
    }
  }

  lemma {:induction false} SortKeepsDelta(cs: seq<Change>, k: Key)
    ensures DeltaAt(Sort(cs), k) == DeltaAt(cs, k)
  {
    if cs != [] {
      SortKeepsDelta(cs[1..], k);
      InsertKeepsDelta(cs[0], Sort(cs[1..]), k);
    }
  }

  lemma {:induction false} EachMoves(counters: map<Key, Counter>, h: Held, cs: seq<Change>, code: Failure, k: Key)
    requires ApplyEach(counters, h, cs, code).2.Ok?
    ensures UsedAt(ApplyEach(counters, h, cs, code).0, k) == UsedAt(counters, k) + DeltaAt(cs, k)
    decreases |cs|
  {
    if cs != [] {
      EachMoves(After(counters, cs[0]), Lock(h, cs[0].key), cs[1..], code, k);
    }
  }

  lemma PerformUses(s: Session, op: Op, p: Party, m: Meter)
    requires Perform(s, op).1.Ok?
    ensures UsedAt(Perform(s, op).0.counters, CounterOf(p, m)) == UsedAt(s.counters, CounterOf(p, m)) + Amount(op, p, m)
  {
    BatchAmount(op, p, m);
    if Batch(op) != [] {
      SortKeepsDelta(Batch(op), CounterOf(p, m));
      EachMoves(s.counters, CurrentLocks(s), Sort(Batch(op)), Code(op), CounterOf(p, m));
    }
  }

  lemma {:induction false} AttemptUses(s: Session, ops: seq<Op>, p: Party, m: Meter)
    requires Attempt(s, ops).1
    ensures UsedAt(Attempt(s, ops).0.counters, CounterOf(p, m)) ==
            UsedAt(s.counters, CounterOf(p, m)) + Total(ops, p, m)
    decreases |ops|
  {
    if ops != [] {
      PerformUses(s, ops[0], p, m);
      AttemptUses(Perform(s, ops[0]).0, ops[1..], p, m);
    }
  }

  /** The operations of all committed transactions, in commit order. */
  function Committed(log: seq<Interleaving.Commitment>): seq<Op> {
    if log == [] then [] else Committed(log[..|log| - 1]) + log[|log| - 1].ops
  }

  lemma {:induction false} TotalAdds(xs: seq<Op>, ys: seq<Op>, p: Party, m: Meter)
    ensures Total(xs + ys, p, m) == Total(xs, p, m) + Total(ys, p, m)
  {
    if xs == [] {
      assert xs + ys == ys;
    } else {
      assert (xs + ys)[1..] == xs[1..] + ys;
      TotalAdds(xs[1..], ys, p, m);
    }
  }

  /** Every transaction of the log went through when it ran in its place. */
  ghost predicate WentThrough(log: seq<Interleaving.Commitment>) {
    log != [] ==>
      WentThrough(log[..|log| - 1])
      && Attempt(Session(Interleaving.Serial(log[..|log| - 1]), log[|log| - 1].id, None), log[|log| - 1].ops).1
  }

  lemma CommitWentThrough(b: Interleaving.Bank, step: Interleaving.Step)
    requires Interleaving.Inv(b) && WentThrough(b.log)
    ensures WentThrough(Interleaving.Next(b, step).log)
  {
    var c := Interleaving.Next(b, step);
    if c.log != b.log {
      var id := step.id;
      assert Interleaving.TxnExplained(b.rows, id, b.world[id], b.work[id]);
      assert c.log[..|c.log| - 1] == b.log;
    }
  }

  lemma {:induction false} LogWentThrough(steps: seq<Interleaving.Step>)
    ensures WentThrough(Interleaving.Run(steps).log)
  {
    if steps != [] {
      var front := steps[..|steps| - 1];
      LogWentThrough(front);
      Interleaving.Reachable(front);
      CommitWentThrough(Interleaving.Run(front), steps[|steps| - 1]);
    }
  }

  lemma {:induction false} SerialUses(log: seq<Interleaving.Commitment>, p: Party, m: Meter)
    requires WentThrough(log)
    ensures UsedAt(Interleaving.Serial(log), CounterOf(p, m)) == Total(Committed(log), p, m)
  {
    if log != [] {
      var before, last := log[..|log| - 1], log[|log| - 1];
      SerialUses(before, p, m);
      AttemptUses(Session(Interleaving.Serial(before), last.id, None), last.ops, p, m);
      TotalAdds(Committed(before), last.ops, p, m);
    }
  }

  /** However transactions overlap, a committed counter shows what the committed operations used in its time. */
  lemma {:induction false} CountersAreTotals(steps: seq<Interleaving.Step>, p: Party, m: Meter)
    ensures UsedAt(Interleaving.Run(steps).rows, CounterOf(p, m)) == Total(Committed(Interleaving.Run(steps).log), p, m)
  {
    LogWentThrough(steps);
    Interleaving.CommittedIsSerial(steps);
    SerialUses(Interleaving.Run(steps).log, p, m);
  }

  // ---------------------------------------------------------------- nobody exceeds a limit

  /** Only the parties that can use a resource have a limit above nothing. */
  predicate Measured(p: Party, m: Meter) {
    match m
    case Reads(_) => true
    case MetadataRows => p == OfAll
    case PendingJobs => p == OfAll
    case _ => !p.OfAddress?
  }

  lemma CeilingIsLimit(p: Party, m: Meter)
    requires Measured(p, m)
    ensures CeilingOf(CounterOf(p, m).kind, CounterOf(p, m).action) == Limit(p, m)
  {}

  lemma {:induction false} UnmeasuredIsUnused(ops: seq<Op>, p: Party, m: Meter)
    requires !Measured(p, m)
    ensures Total(ops, p, m) == 0
  {
    if ops != [] { UnmeasuredIsUnused(ops[1..], p, m); }
  }

  lemma InRangeIsWithin(counters: map<Key, Counter>, p: Party, m: Meter)
    requires InRange(counters) && Measured(p, m)
    ensures 0 <= UsedAt(counters, CounterOf(p, m)) <= Limit(p, m)
  {
    CeilingIsLimit(p, m);
  }

  /**
   * However transactions overlap: in any hour, day or minute no actor, no address and not the deployment has committed
   * more than its limit, and no more is reserved, active or pending than may be; nor is more given back than was taken.
   */
  lemma {:induction false} NobodyExceeds(steps: seq<Interleaving.Step>, p: Party, m: Meter)
    ensures 0 <= Total(Committed(Interleaving.Run(steps).log), p, m) <= Limit(p, m)
  {
    if Measured(p, m) {
      CountersAreTotals(steps, p, m);
      Interleaving.InterleavedConservation(steps);
      InRangeIsWithin(Interleaving.Run(steps).rows, p, m);
    } else {
      UnmeasuredIsUnused(Committed(Interleaving.Run(steps).log), p, m);
    }
  }

  // ---------------------------------------------------------------- nothing is refused before its time

  predicate DistinctKeys(cs: seq<Change>) {
    forall i, j :: 0 <= i < j < |cs| ==> cs[i].key != cs[j].key
  }

  /** The change would leave its counter within bounds. */
  predicate Fits(counters: map<Key, Counter>, c: Change) {
    0 <= UsedAt(counters, c.key) + c.delta <= c.ceiling
  }

  lemma FitsIsAdmitted(counters: map<Key, Counter>, c: Change)
    requires InRange(counters) && c.ceiling == CeilingOf(c.key.kind, c.key.action)
    ensures Admits(Inserted(counters, c)[c.key], c) <==> Fits(counters, c)
  {}

  predicate AllWellFormed(cs: seq<Change>) {
    forall i :: 0 <= i < |cs| ==> WellFormed(cs[i])
  }

  lemma {:induction false} EachAdmitsExactly(counters: map<Key, Counter>, h: Held, cs: seq<Change>, code: Failure)
    requires InRange(counters) && Conforms(cs) && DistinctKeys(cs) && AllWellFormed(cs)
    ensures ApplyEach(counters, h, cs, code).2 == if AllFit(counters, cs) then Ok(()) else Refused(code)
    decreases |cs|
  {
    if cs != [] {
      var c, after := cs[0], After(counters, cs[0]);
      assert c in cs;
      FitsIsAdmitted(counters, c);
      FirstDecides(counters, h, cs, code);
      if Fits(counters, c) {
        StaysInRange(counters, c);
        FitsRest(counters, after, cs);
        RestIsAlike(cs);
        EachAdmitsExactly(after, Lock(h, c.key), cs[1..], code);
      }
    }
  }

  lemma RestIsAlike(cs: seq<Change>)
    requires cs != [] && Conforms(cs) && DistinctKeys(cs) && AllWellFormed(cs)
    ensures Conforms(cs[1..]) && DistinctKeys(cs[1..]) && AllWellFormed(cs[1..])
  {}

  lemma FirstDecides(counters: map<Key, Counter>, h: Held, cs: seq<Change>, code: Failure)
    requires cs != [] && WellFormed(cs[0])
    ensures ApplyEach(counters, h, cs, code).2 ==
            if Admits(Inserted(counters, cs[0])[cs[0].key], cs[0])
            then ApplyEach(After(counters, cs[0]), Lock(h, cs[0].key), cs[1..], code).2 else Refused(code)
  {}

  lemma StaysInRange(counters: map<Key, Counter>, c: Change)
    requires InRange(counters) && c.ceiling == CeilingOf(c.key.kind, c.key.action) && Fits(counters, c)
    ensures InRange(After(counters, c))
  {}

  predicate AllFit(counters: map<Key, Counter>, cs: seq<Change>) {
    forall i :: 0 <= i < |cs| ==> Fits(counters, cs[i])
  }

  lemma FitsRest(counters: map<Key, Counter>, after: map<Key, Counter>, cs: seq<Change>)
    requires cs != [] && DistinctKeys(cs) && Fits(counters, cs[0]) && after == After(counters, cs[0])
    ensures AllFit(counters, cs) <==> AllFit(after, cs[1..])
  {
    forall i | 0 <= i < |cs[1..]| ensures Fits(after, cs[1..][i]) <==> Fits(counters, cs[i + 1]) {
      assert cs[1..][i] == cs[i + 1] && cs[i + 1].key != cs[0].key;
    }
    if AllFit(after, cs[1..]) {
      forall i | 0 <= i < |cs| ensures Fits(counters, cs[i]) {
        if i > 0 { assert Fits(after, cs[1..][i - 1]); }
      }
    }
  }

  /** An operation whose bytes no batch may carry. */
  predicate Oversized(op: Op) {
    (op.ChangeCapacity? && !(-268435456 <= op.change.bytes <= 268435456))
    || (op.ChangeReservation? && !(-268435456 <= op.bytes <= 268435456))
  }

  /** Some party's use of some resource would fall below nothing or pass its limit. */
  ghost predicate Exceeds(ops: seq<Op>, op: Op) {
    exists p, m :: !(0 <= Total(ops, p, m) + Amount(op, p, m) <= Limit(p, m))
  }

  // ---------------------------------------------------------------- the batch of an operation

  predicate Meters(c: Change, p: Party, m: Meter) {
    c.key == CounterOf(p, m) && Measured(p, m) && c.ceiling == Limit(p, m)
  }

  function PartyOf(k: Key): Party {
    match k.kind case Actor => OfActor(k.subject) case Ip => OfAddress(k.subject) case Deployment => OfAll
  }

  lemma CapacityMeter(actor: nat, cc: CapacityChange, c: Change) returns (m: Meter)
    requires c in CapacityChanges(actor, cc)
    ensures Meters(c, PartyOf(c.key), m)
  {
    m := if c.key.action == Bytes then ReservedBytes else if c.key.action == Metadata then MetadataRows
         else if c.key.action == Upload then ActiveUploads else PendingJobs;
  }

  /** The party and the resource a change of the batch is about. */
  lemma MeterOf(op: Op, c: Change) returns (p: Party, m: Meter)
    requires c in Batch(op)
    ensures Meters(c, p, m)
  {
    p := PartyOf(c.key);
    match op
    case ConsumeInitiation(_, _, now) =>
      m := if c.key.action == Initiate then Initiations(now / 3600000) else SourceBytes(now / 86400000);
    case ConsumeUploadAttempt(_, _, now) =>
      m := if c.key.action == UploadAttempt then UploadAttempts(now / 3600000) else IngressBytes(now / 86400000);
    case ConsumeRead(_, now) => m := Reads(now / 60000);
    case ChangeCapacity(a, cc) => m := CapacityMeter(a, cc, c);
    case ChangeReservation(a, b, r) => m := CapacityMeter(a, CapacityChange(b, r, 0, 0), c);
    case ChangeSlots(a, slot, d) => m := CapacityMeter(a, SlotChange(slot, d), c);
  }

  lemma CapacityIsDistinct(actor: nat, c: CapacityChange)
    ensures DistinctKeys(CapacityChanges(actor, c))
  {}

  lemma IntakeIsDistinct(actor: nat, count: Action, volume: Action, bytes: int, now: int)
    requires count != volume
    ensures DistinctKeys(Intake(actor, count, volume, bytes, now))
  {}

  lemma BatchIsDistinct(op: Op)
    ensures DistinctKeys(Batch(op))
  {
    match op
    case ChangeCapacity(a, c) => CapacityIsDistinct(a, c);
    case ChangeReservation(a, b, r) => CapacityIsDistinct(a, CapacityChange(b, r, 0, 0));
    case ChangeSlots(a, slot, d) => CapacityIsDistinct(a, SlotChange(slot, d));
    case ConsumeInitiation(a, b, now) => IntakeIsDistinct(a, Initiate, Source, b, now);
    case ConsumeUploadAttempt(a, b, now) => IntakeIsDistinct(a, UploadAttempt, Ingress, b, now);
    case ConsumeRead(_, _) =>
  }

  lemma {:induction false} InsertIsDistinct(c: Change, cs: seq<Change>)
    requires DistinctKeys(cs) && forall d :: d in cs ==> d.key != c.key
    ensures DistinctKeys(Insert(c, cs))
  {
    if cs != [] && Before(cs[0].key, c.key) {
      var rest := Insert(c, cs[1..]);
      InsertIsDistinct(c, cs[1..]);
      InsertPermutes(c, cs[1..]);
      forall j | 0 <= j < |rest| ensures rest[j].key != cs[0].key {
        assert rest[j] in multiset(rest);
        if rest[j] != c { assert rest[j] in cs[1..]; } else { assert cs[0] in cs; }
      }
    }
  }

  lemma {:induction false} SortIsDistinct(cs: seq<Change>)
    requires DistinctKeys(cs)
    ensures DistinctKeys(Sort(cs))
  {
    if cs != [] {
      SortIsDistinct(cs[1..]);
      SortSorts(cs[1..]);
      forall d | d in Sort(cs[1..]) ensures d.key != cs[0].key {
        var i :| 0 <= i < |cs[1..]| && cs[1..][i] == d;
        assert cs[i + 1] == d;
      }
      InsertIsDistinct(cs[0], Sort(cs[1..]));
    }
  }

  lemma {:induction false} DeltaIsTheChange(cs: seq<Change>, k: Key)
    requires DistinctKeys(cs)
    ensures (forall c :: c in cs && c.key == k ==> DeltaAt(cs, k) == c.delta)
    ensures (forall c :: c in cs ==> c.key != k) ==> DeltaAt(cs, k) == 0
  {
    if cs != [] {
      DeltaIsTheChange(cs[1..], k);
      forall c | c in cs[1..] ensures c.key != cs[0].key {
        var i :| 0 <= i < |cs[1..]| && cs[1..][i] == c;
        assert cs[i + 1] == c;
      }
    }
  }

  /** The counters show exactly what these operations used. */
  ghost predicate Shows(counters: map<Key, Counter>, ops: seq<Op>) {
    forall p, m :: UsedAt(counters, CounterOf(p, m)) == Total(ops, p, m)
  }

  lemma BatchFitsExactly(counters: map<Key, Counter>, ops: seq<Op>, op: Op)
    requires InRange(counters) && Shows(counters, ops)
    ensures (forall c :: c in Batch(op) ==> Fits(counters, c)) <==> !Exceeds(ops, op)
  {
    BatchIsDistinct(op);
    forall c | c in Batch(op) && !Fits(counters, c) ensures Exceeds(ops, op) {
      var p, m := MeterOf(op, c);
      DeltaIsTheChange(Batch(op), c.key);
      BatchAmount(op, p, m);
      assert !(0 <= Total(ops, p, m) + Amount(op, p, m) <= Limit(p, m));
    }
    if forall c :: c in Batch(op) ==> Fits(counters, c) {
      forall p, m ensures 0 <= Total(ops, p, m) + Amount(op, p, m) <= Limit(p, m) {
        FittingStaysWithin(counters, ops, op, p, m);
      }
    }
  }

  lemma FittingStaysWithin(counters: map<Key, Counter>, ops: seq<Op>, op: Op, p: Party, m: Meter)
    requires InRange(counters) && Shows(counters, ops) && DistinctKeys(Batch(op))
    requires forall c :: c in Batch(op) ==> Fits(counters, c)
    ensures 0 <= Total(ops, p, m) + Amount(op, p, m) <= Limit(p, m)
  {
    var k := CounterOf(p, m);
    if Measured(p, m) {
      BatchAmount(op, p, m);
      DeltaIsTheChange(Batch(op), k);
      InRangeIsWithin(counters, p, m);
      CeilingIsLimit(p, m);
      if c :| c in Batch(op) && c.key == k { OpConforms(op); }
    } else {
      UnmeasuredIsUnused(ops, p, m);
    }
  }

  lemma BatchIsWellFormed(op: Op)
    requires Accepted(op) && !Oversized(op)
    ensures forall c :: c in Batch(op) ==> WellFormed(c)
  {}

  /** The bytes come first in lock order, so an oversized batch fails before anything else is looked at. */
  lemma OversizedComesFirst(actor: nat, cc: CapacityChange)
    requires cc.bytes != 0
    ensures var sorted := Sort(CapacityChanges(actor, cc));
            sorted != [] && sorted[0] == Change(Key(Actor, actor, Bytes, EPOCH), cc.bytes, ACTOR_RESERVED_BYTES)
  {
    var cs := CapacityChanges(actor, cc);
    var rest := Sort(cs[1..]);
    SortSorts(cs[1..]);
    if rest != [] {
      assert rest[0] in cs[1..];
      CapacityAfterBytes(actor, cc, rest[0]);
    }
  }

  lemma CapacityAfterBytes(actor: nat, cc: CapacityChange, c: Change)
    requires cc.bytes != 0 && c in CapacityChanges(actor, cc)[1..]
    ensures !Before(c.key, Key(Actor, actor, Bytes, EPOCH))
  {}

  lemma OversizedIsRefused(counters: map<Key, Counter>, h: Held, op: Op)
    requires Oversized(op)
    ensures Batch(op) != [] && ApplyEach(counters, h, Sort(Batch(op)), Code(op)).2 == Refused(QuotaIntegrity)
  {
    match op
    case ChangeCapacity(a, cc) => OversizedComesFirst(a, cc);
    case ChangeReservation(a, b, r) => OversizedComesFirst(a, CapacityChange(b, r, 0, 0));
    case _ =>
  }

  /** How an operation that would pass a limit is refused: a rate, a slot that is taken, or a quota. */
  function Refusal(op: Op): Failure {
    if op.ConsumeInitiation? || op.ConsumeUploadAttempt? || op.ConsumeRead? then RateLimited
    else if Amount(op, OfAll, ActiveUploads) > 0 || Amount(op, OfAll, PendingJobs) > 0 then Busy
    else QuotaExceeded
  }

  lemma SortedFits(counters: map<Key, Counter>, cs: seq<Change>)
    ensures AllFit(counters, Sort(cs)) <==> forall c :: c in cs ==> Fits(counters, c)
  {
    SortSorts(cs);
    if AllFit(counters, Sort(cs)) {
      forall c | c in cs ensures Fits(counters, c) {
        assert c in Sort(cs);
        var i :| 0 <= i < |Sort(cs)| && Sort(cs)[i] == c;
      }
    }
  }

  lemma NothingBatched(ops: seq<Op>, op: Op, counters: map<Key, Counter>)
    requires InRange(counters) && Shows(counters, ops) && Batch(op) == []
    ensures !Exceeds(ops, op)
  {
    BatchFitsExactly(counters, ops, op);
  }

  /** An accepted operation in an unpoisoned transaction and in lock order is refused exactly when it would exceed. */
  lemma AdmittedExactly(s: Session, ops: seq<Op>, op: Op)
    requires InRange(s.counters) && Shows(s.counters, ops) && !CurrentLocks(s).failed
    requires Accepted(op) && !OutOfOrder(CurrentLocks(s), Sort(Batch(op)))
    ensures Perform(s, op).1 == if Oversized(op) then Refused(QuotaIntegrity)
                                else if Exceeds(ops, op) then Refused(Refusal(op)) else Ok(())
  {
    if Oversized(op) {
      OversizedIsRefused(s.counters, CurrentLocks(s), op);
    } else if Batch(op) == [] {
      NothingBatched(ops, op, s.counters);
    } else {
      WholeBatch(s, ops, op, Sort(Batch(op)));
    }
  }

  lemma WholeBatch(s: Session, ops: seq<Op>, op: Op, sorted: seq<Change>)
    requires InRange(s.counters) && Shows(s.counters, ops)
    requires Accepted(op) && !Oversized(op) && sorted == Sort(Batch(op))
    ensures ApplyEach(s.counters, CurrentLocks(s), sorted, Code(op)).2 ==
            if Exceeds(ops, op) then Refused(Refusal(op)) else Ok(())
  {
    SortSorts(Batch(op));
    BatchIsDistinct(op);
    SortIsDistinct(Batch(op));
    OpConforms(op);
    BatchIsWellFormed(op);
    forall i | 0 <= i < |sorted| ensures WellFormed(sorted[i]) { assert sorted[i] in Batch(op); }
    EachAdmitsExactly(s.counters, CurrentLocks(s), sorted, Code(op));
    SortedFits(s.counters, Batch(op));
    BatchFitsExactly(s.counters, ops, op);
    CodeIsRefusal(op);
  }

  lemma CodeIsRefusal(op: Op)
    requires Accepted(op)
    ensures Code(op) == Refusal(op)
  {}

  lemma {:induction false} AttemptIsUnpoisoned(s: Session, ops: seq<Op>)
    requires InRange(s.counters) && !CurrentLocks(s).failed && Attempt(s, ops).1
    ensures InRange(Attempt(s, ops).0.counters) && !CurrentLocks(Attempt(s, ops).0).failed
    decreases |ops|
  {
    if ops != [] {
      PerformStaysInRange(s, ops[0]);
      LocksKeepTransaction(s.counters, CurrentLocks(s), Sort(Batch(ops[0])), Code(ops[0]));
      AttemptIsUnpoisoned(Perform(s, ops[0]).0, ops[1..]);
    }
  }

  /**
   * However transactions overlap: in a transaction that has done `done` since it began on the committed counters, an
   * accepted operation in lock order goes through unless the committed operations, `done` and itself together would
   * pass some party's limit or give back more than was taken. For a consumption that refusal is RateLimited.
   */
  lemma {:induction false} RefusedOnlyAtTheLimit(steps: seq<Interleaving.Step>, id: nat, done: seq<Op>, op: Op)
    requires var r := Attempt(Session(Interleaving.Run(steps).rows, id, None), done);
             r.1 && Accepted(op) && !OutOfOrder(CurrentLocks(r.0), Sort(Batch(op)))
    ensures Perform(Attempt(Session(Interleaving.Run(steps).rows, id, None), done).0, op).1 ==
            if Oversized(op) then Refused(QuotaIntegrity)
            else if Exceeds(Committed(Interleaving.Run(steps).log) + done, op) then Refused(Refusal(op)) else Ok(())
  {
    var b := Interleaving.Run(steps);
    var start := Session(b.rows, id, None);
    Interleaving.InterleavedConservation(steps);
    AttemptIsUnpoisoned(start, done);
    forall p, m
      ensures UsedAt(Attempt(start, done).0.counters, CounterOf(p, m)) == Total(Committed(b.log) + done, p, m)
    {
      CountersAreTotals(steps, p, m);
      AttemptUses(start, done, p, m);
      TotalAdds(Committed(b.log), done, p, m);
    }
    AdmittedExactly(Attempt(start, done).0, Committed(b.log) + done, op);
  }

  /** Which arguments are accepted at all: the bytes of one image, and single steps of rows and slots. */
  lemma ArgumentsExactly(op: Op, s: Session)
    ensures !Accepted(op) ==> Perform(s, op) == (s, Refused(QuotaIntegrity))
    ensures op.ConsumeInitiation? ==> (Accepted(op) <==> 0 < op.sourceBytes <= 4194304)
    ensures op.ConsumeUploadAttempt? ==> (Accepted(op) <==> 0 < op.expectedBytes <= 4194304)
    ensures op.ConsumeRead? ==> Accepted(op)
    ensures op.ChangeSlots? ==> (Accepted(op) <==> op.delta == 1 || op.delta == -1)
    ensures op.ChangeReservation? ==>
              (Accepted(op) <==> -1 <= op.metadata <= 1 && -0x1F_FFFF_FFFF_FFFF <= op.bytes <= 0x1F_FFFF_FFFF_FFFF)
    ensures op.ChangeCapacity? ==>
              (Accepted(op) <==> -1 <= op.change.metadata <= 1 && -1 <= op.change.upload <= 1
                                 && -1 <= op.change.pending <= 1
                                 && -0x1F_FFFF_FFFF_FFFF <= op.change.bytes <= 0x1F_FFFF_FFFF_FFFF)
  {}

  /** The first operation of a transaction is always in lock order. */
  lemma FirstIsInOrder(counters: map<Key, Counter>, id: nat, op: Op)
    ensures !OutOfOrder(CurrentLocks(Session(counters, id, None)), Sort(Batch(op)))
  {}
}