/**
 * Conservation: over any history of transactions, committed whole or rolled back whole,
 * each deployment counter is the sum of the subjects' counters it stands for.
 */
module AttachmentQuotaConservation {
  import opened Common
  import opened Sums
  import opened AttachmentQuotaLedger

  /** The operations of one transaction; the first refusal abandons the rest. */
  function Attempt(s: Session, ops: seq<Op>): (Session, bool)
    decreases |ops|
  {
    if ops == [] then (s, true)
    else
      var r := Perform(s, ops[0]);
      if r.1.Refused? then (r.0, false) else Attempt(r.0, ops[1..])
  }

  /** Commit keeps the transaction's counters; any refusal rolls the whole transaction back. */
  function Transact(counters: map<Key, Counter>, xid: nat, ops: seq<Op>): map<Key, Counter> {
    var r := Attempt(Session(counters, xid, None), ops);
    if r.1 then r.0.counters else counters
  }

  function History(txns: seq<seq<Op>>): map<Key, Counter> {
    if txns == [] then map[]
    else Transact(History(txns[..|txns| - 1]), |txns|, txns[|txns| - 1])
  }

  // ---------------------------------------------------------------- what is conserved

  /** Resources tracked per subject as well as for the deployment. */
  predicate Paired(a: Action) {
    a != Metadata && a != Pending
  }

  predicate Owned(k: Key, a: Action, window: int) {
    k.kind != Deployment && k.action == a && k.window == window
  }

  ghost function Share(counters: map<Key, Counter>, a: Action, window: int): Key -> int {
    k => if k in counters && Owned(k, a, window) then counters[k].used else 0
  }

  /** What all actors and addresses together have used. */
  ghost function OwnedTotal(counters: map<Key, Counter>, a: Action, window: int): int {
    Sum(counters.Keys, Share(counters, a, window))
  }

  function DeploymentKey(a: Action, window: int): Key {
    Key(Deployment, DEPLOYMENT, a, window)
  }

  function DeploymentUsed(counters: map<Key, Counter>, a: Action, window: int): int {
    if DeploymentKey(a, window) in counters then counters[DeploymentKey(a, window)].used else 0
  }

  ghost predicate Balanced(counters: map<Key, Counter>) {
    forall a, w :: Paired(a) ==> DeploymentUsed(counters, a, w) == OwnedTotal(counters, a, w)
  }

  function CeilingOf(k: Kind, a: Action): int {
    match a
    case Bytes => if k == Deployment then DEPLOYMENT_RESERVED_BYTES else ACTOR_RESERVED_BYTES
    case Metadata => DEPLOYMENT_METADATA
    case Pending => PENDING_JOBS
    case Upload => if k == Deployment then DEPLOYMENT_ACTIVE_UPLOADS else ACTOR_ACTIVE_UPLOADS
    case Initiate => if k == Deployment then DEPLOYMENT_INITIATIONS_PER_HOUR else ACTOR_INITIATIONS_PER_HOUR
    case UploadAttempt => if k == Deployment then DEPLOYMENT_INITIATIONS_PER_HOUR else ACTOR_INITIATIONS_PER_HOUR
    case Source => if k == Deployment then DEPLOYMENT_SOURCE_BYTES_PER_DAY else ACTOR_SOURCE_BYTES_PER_DAY
    case Ingress => if k == Deployment then DEPLOYMENT_SOURCE_BYTES_PER_DAY else ACTOR_SOURCE_BYTES_PER_DAY
    case Read =>
      match k
      case Deployment => DEPLOYMENT_READS_PER_MINUTE
      case Actor => ACTOR_READS_PER_MINUTE
      case Ip => ANONYMOUS_READS_PER_MINUTE
  }

  predicate InRange(counters: map<Key, Counter>) {
    forall k :: k in counters ==> 0 <= counters[k].used <= counters[k].ceiling == CeilingOf(k.kind, k.action)
  }

  // ---------------------------------------------------------------- one change

  function OwnedDelta(c: Change, a: Action, w: int): int {
    if Owned(c.key, a, w) then c.delta else 0
  }

  function DeploymentDelta(c: Change, a: Action, w: int): int {
    if c.key == DeploymentKey(a, w) then c.delta else 0
  }

  function After(counters: map<Key, Counter>, c: Change): map<Key, Counter> {
    var inserted := Inserted(counters, c);
    inserted[c.key := inserted[c.key].(used := inserted[c.key].used + c.delta)]
  }

  lemma InsertIsFree(counters: map<Key, Counter>, c: Change, a: Action, w: int)
    ensures OwnedTotal(Inserted(counters, c), a, w) == OwnedTotal(counters, a, w)
    ensures DeploymentUsed(Inserted(counters, c), a, w) == DeploymentUsed(counters, a, w)
  {
    if c.key !in counters {
      var inserted := Inserted(counters, c);
      SumAdd(counters.Keys, c.key, Share(inserted, a, w));
      SumSame(counters.Keys, Share(inserted, a, w), Share(counters, a, w));
      assert inserted.Keys == counters.Keys + {c.key};
    }
  }

  lemma ChangeMoves(counters: map<Key, Counter>, c: Change, a: Action, w: int)
    ensures OwnedTotal(After(counters, c), a, w) == OwnedTotal(counters, a, w) + OwnedDelta(c, a, w)
    ensures DeploymentUsed(After(counters, c), a, w) == DeploymentUsed(counters, a, w) + DeploymentDelta(c, a, w)
  {
    InsertIsFree(counters, c, a, w);
    var inserted, after := Inserted(counters, c), After(counters, c);
    assert after.Keys == inserted.Keys;
    SumChange(inserted.Keys, c.key, Share(inserted, a, w), Share(after, a, w));
  }

  // ---------------------------------------------------------------- one batch

  function OwnedFlow(cs: seq<Change>, a: Action, w: int): int {
    if cs == [] then 0 else OwnedDelta(cs[0], a, w) + OwnedFlow(cs[1..], a, w)
  }

  function DeploymentFlow(cs: seq<Change>, a: Action, w: int): int {
    if cs == [] then 0 else DeploymentDelta(cs[0], a, w) + DeploymentFlow(cs[1..], a, w)
  }

  lemma {:induction false} BatchMoves(counters: map<Key, Counter>, h: Held, cs: seq<Change>, code: Failure, a: Action,
          w: int)
    requires ApplyEach(counters, h, cs, code).2.Ok?
    ensures var t := ApplyEach(counters, h, cs, code).0;
            && OwnedTotal(t, a, w) == OwnedTotal(counters, a, w) + OwnedFlow(cs, a, w)
            && DeploymentUsed(t, a, w) == DeploymentUsed(counters, a, w) + DeploymentFlow(cs, a, w)
    decreases |cs|
  {
    if cs != [] {
      ChangeMoves(counters, cs[0], a, w);
      BatchMoves(After(counters, cs[0]), Lock(h, cs[0].key), cs[1..], code, a, w);
    }
  }

  lemma {:induction false} InsertKeepsFlow(c: Change, cs: seq<Change>, a: Action, w: int)
    ensures OwnedFlow(Insert(c, cs), a, w) == OwnedDelta(c, a, w) + OwnedFlow(cs, a, w)
    ensures DeploymentFlow(Insert(c, cs), a, w) == DeploymentDelta(c, a, w) + DeploymentFlow(cs, a, w)
  {
    if cs == [] || !Before(cs[0].key, c.key) {
      assert ([c] + cs)[1..] == cs;
    } else {
      InsertKeepsFlow(c, cs[1..], a, w);
      assert ([cs[0]] + Insert(c, cs[1..]))[1..] == Insert(c, cs[1..]);
    }
  }

  lemma {:induction false} SortKeepsFlow(cs: seq<Change>, a: Action, w: int)
    ensures OwnedFlow(Sort(cs), a, w) == OwnedFlow(cs, a, w)
    ensures DeploymentFlow(Sort(cs), a, w) == DeploymentFlow(cs, a, w)
  {
    if cs != [] {
      SortKeepsFlow(cs[1..], a, w);
      InsertKeepsFlow(cs[0], Sort(cs[1..]), a, w);
    }
  }

  lemma {:induction false} FlowAdds(xs: seq<Change>, ys: seq<Change>, a: Action, w: int)
    ensures OwnedFlow(xs + ys, a, w) == OwnedFlow(xs, a, w) + OwnedFlow(ys, a, w)
    ensures DeploymentFlow(xs + ys, a, w) == DeploymentFlow(xs, a, w) + DeploymentFlow(ys, a, w)
  {
    if xs == [] {
      assert xs + ys == ys;
    } else {
      assert (xs + ys)[1..] == xs[1..] + ys;
      FlowAdds(xs[1..], ys, a, w);
    }
  }

  predicate Even(cs: seq<Change>, a: Action, w: int) {
    OwnedFlow(cs, a, w) == DeploymentFlow(cs, a, w)
  }

  lemma PairIsEven(kind: Kind, subject: nat, action: Action, window: int, delta: int, own: int, all: int, a: Action,
          w: int)
    requires kind != Deployment
    ensures Even(Pair(kind, subject, action, window, delta, own, all), a, w)
  {
    var cs := Pair(kind, subject, action, window, delta, own, all);
    FlowOfOne(cs[0], a, w);
    FlowOfOne(cs[1], a, w);
    FlowAdds([cs[0]], [cs[1]], a, w);
    assert cs == [cs[0]] + [cs[1]];
  }

  lemma FlowOfOne(c: Change, a: Action, w: int)
    ensures OwnedFlow([c], a, w) == OwnedDelta(c, a, w)
    ensures DeploymentFlow([c], a, w) == DeploymentDelta(c, a, w)
  {
    assert [c][1..] == [];
  }

  lemma EvenAdds(xs: seq<Change>, ys: seq<Change>, a: Action, w: int)
    requires Even(xs, a, w) && Even(ys, a, w)
    ensures Even(xs + ys, a, w)
  {
    FlowAdds(xs, ys, a, w);
  }

  lemma CapacityIsEven(actor: nat, c: CapacityChange, a: Action, w: int)
    requires Paired(a)
    ensures Even(CapacityChanges(actor, c), a, w)
  {
    var bytes :=
      if c.bytes != 0 then Pair(Actor, actor, Bytes, EPOCH, c.bytes, ACTOR_RESERVED_BYTES, DEPLOYMENT_RESERVED_BYTES)
        else [];
    var metadata :=
      if c.metadata != 0 then [Change(Key(Deployment, DEPLOYMENT, Metadata, EPOCH), c.metadata, DEPLOYMENT_METADATA)]
        else [];
    var upload :=
      if c.upload != 0 then Pair(Actor, actor, Upload, EPOCH, c.upload, ACTOR_ACTIVE_UPLOADS, DEPLOYMENT_ACTIVE_UPLOADS)
        else [];
    var pending := if c.pending != 0 then [Change(Key(Deployment, DEPLOYMENT, Pending, EPOCH), c.pending, PENDING_JOBS)]
      else [];
    PairIsEven(Actor, actor, Bytes, EPOCH, c.bytes, ACTOR_RESERVED_BYTES, DEPLOYMENT_RESERVED_BYTES, a, w);
    PairIsEven(Actor, actor, Upload, EPOCH, c.upload, ACTOR_ACTIVE_UPLOADS, DEPLOYMENT_ACTIVE_UPLOADS, a, w);
    FlowOfOne(Change(Key(Deployment, DEPLOYMENT, Metadata, EPOCH), c.metadata, DEPLOYMENT_METADATA), a, w);
    FlowOfOne(Change(Key(Deployment, DEPLOYMENT, Pending, EPOCH), c.pending, PENDING_JOBS), a, w);
    EvenAdds(bytes, metadata, a, w);
    EvenAdds(bytes + metadata, upload, a, w);
    EvenAdds(bytes + metadata + upload, pending, a, w);
  }

  /** Every operation charges the deployment exactly what it charges its subject. */
  lemma OpIsEven(op: Op, a: Action, w: int)
    requires Paired(a)
    ensures Even(Batch(op), a, w)
  {
    match op
    case ChangeCapacity(actor, c) => CapacityIsEven(actor, c, a, w);
    case ChangeReservation(actor, b, m) => CapacityIsEven(actor, CapacityChange(b, m, 0, 0), a, w);
    case ChangeSlots(actor, slot, d) => CapacityIsEven(actor, SlotChange(slot, d), a, w);
    case ConsumeInitiation(actor, bytes, now) => IntakeIsEven(actor, Initiate, Source, bytes, now, a, w);
    case ConsumeUploadAttempt(actor, bytes, now) => IntakeIsEven(actor, UploadAttempt, Ingress, bytes, now, a, w);
    case ConsumeRead(ByActor(actor), now) =>
      PairIsEven(Actor, actor, Read, Floor(now, MINUTE), 1, ACTOR_READS_PER_MINUTE, DEPLOYMENT_READS_PER_MINUTE, a, w);
    case ConsumeRead(ByAddress(hash), now) =>
      PairIsEven(Ip, hash, Read, Floor(now, MINUTE), 1, ANONYMOUS_READS_PER_MINUTE, DEPLOYMENT_READS_PER_MINUTE, a, w);
  }

  lemma IntakeIsEven(actor: nat, count: Action, volume: Action, bytes: int, now: int, a: Action, w: int)
    ensures Even(Intake(actor, count, volume, bytes, now), a, w)
  {
    var x := Pair(Actor, actor, count, Floor(now, HOUR), 1, ACTOR_INITIATIONS_PER_HOUR,
                  DEPLOYMENT_INITIATIONS_PER_HOUR);
    var y := Pair(Actor, actor, volume, Floor(now, DAY), bytes, ACTOR_SOURCE_BYTES_PER_DAY,
                  DEPLOYMENT_SOURCE_BYTES_PER_DAY);
    PairIsEven(Actor, actor, count, Floor(now, HOUR), 1, ACTOR_INITIATIONS_PER_HOUR, DEPLOYMENT_INITIATIONS_PER_HOUR, a,
               w);
    PairIsEven(Actor, actor, volume, Floor(now, DAY), bytes, ACTOR_SOURCE_BYTES_PER_DAY,
               DEPLOYMENT_SOURCE_BYTES_PER_DAY, a, w);
    FlowAdds(x, y, a, w);
  }

  predicate Conforms(cs: seq<Change>) {
    forall c :: c in cs ==> c.ceiling == CeilingOf(c.key.kind, c.key.action)
  }

  lemma {:induction false} EachInRange(counters: map<Key, Counter>, h: Held, cs: seq<Change>, code: Failure)
    requires InRange(counters) && Conforms(cs)
    ensures InRange(ApplyEach(counters, h, cs, code).0)
    decreases |cs|
  {
    if cs != [] {
      assert cs[0] in cs;
      if WellFormed(cs[0]) && Admits(Inserted(counters, cs[0])[cs[0].key], cs[0]) {
        EachInRange(After(counters, cs[0]), Lock(h, cs[0].key), cs[1..], code);
      }
    }
  }

  ghost predicate Sound(counters: map<Key, Counter>) {
    InRange(counters) && Balanced(counters)
  }

  lemma CapacityConforms(actor: nat, c: CapacityChange)
    ensures Conforms(CapacityChanges(actor, c))
  {}

  lemma IntakeConforms(actor: nat, count: Action, volume: Action, bytes: int, now: int)
    requires (count == Initiate && volume == Source) || (count == UploadAttempt && volume == Ingress)
    ensures Conforms(Intake(actor, count, volume, bytes, now))
  {}

  lemma ReadConforms(reader: Reader, now: int)
    ensures Conforms(ReadChanges(reader, now))
  {}

  /** Every change names the one ceiling its counter may have. */
  lemma OpConforms(op: Op)
    ensures Conforms(Batch(op))
  {
    match op
    case ChangeCapacity(actor, c) => CapacityConforms(actor, c);
    case ChangeReservation(actor, b, m) => CapacityConforms(actor, CapacityChange(b, m, 0, 0));
    case ChangeSlots(actor, slot, d) => CapacityConforms(actor, SlotChange(slot, d));
    case ConsumeInitiation(actor, bytes, now) => IntakeConforms(actor, Initiate, Source, bytes, now);
    case ConsumeUploadAttempt(actor, bytes, now) => IntakeConforms(actor, UploadAttempt, Ingress, bytes, now);
    case ConsumeRead(reader, now) => ReadConforms(reader, now);
  }

  lemma PerformStaysInRange(s: Session, op: Op)
    requires InRange(s.counters)
    ensures InRange(Perform(s, op).0.counters)
  {
    SortSorts(Batch(op));
    OpConforms(op);
    EachInRange(s.counters, CurrentLocks(s), Sort(Batch(op)), Code(op));
  }

  /** A successful operation moves the deployment counter and its subjects' total together. */
  lemma PerformMoves(s: Session, op: Op, a: Action, w: int)
    requires Perform(s, op).1.Ok? && Paired(a)
    ensures var t := Perform(s, op).0.counters;
            DeploymentUsed(t, a, w) - DeploymentUsed(s.counters, a, w) ==
              OwnedTotal(t, a, w) - OwnedTotal(s.counters, a, w)
  {
    if Batch(op) != [] {
      BatchMoves(s.counters, CurrentLocks(s), Sort(Batch(op)), Code(op), a, w);
      SortKeepsFlow(Batch(op), a, w);
      OpIsEven(op, a, w);
    }
  }

  lemma PerformIsSound(s: Session, op: Op)
    requires Sound(s.counters) && Perform(s, op).1.Ok?
    ensures Sound(Perform(s, op).0.counters)
  {
    PerformStaysInRange(s, op);
    var t := Perform(s, op).0.counters;
    forall a, w | Paired(a) ensures DeploymentUsed(t, a, w) == OwnedTotal(t, a, w) {
      PerformMoves(s, op, a, w);
    }
  }

  lemma {:induction false} AttemptIsSound(s: Session, ops: seq<Op>)
    requires Sound(s.counters) && Attempt(s, ops).1
    ensures Sound(Attempt(s, ops).0.counters)
    decreases |ops|
  {
    if ops != [] {
      PerformIsSound(s, ops[0]);
      AttemptIsSound(Perform(s, ops[0]).0, ops[1..]);
    }
  }

  /**
   * After any history: every counter is within its ceiling, and for every paired resource and
   * window the deployment has used exactly what all its actors and addresses have used.
   */
  lemma {:induction false} Conservation(txns: seq<seq<Op>>)
    ensures InRange(History(txns)) && Balanced(History(txns))
  {
    if txns == [] {
      assert forall a, w :: Sum({}, Share(map[], a, w)) == 0;
    } else {
      var before, ops := History(txns[..|txns| - 1]), txns[|txns| - 1];
      Conservation(txns[..|txns| - 1]);
      if Attempt(Session(before, |txns|, None), ops).1 {
        AttemptIsSound(Session(before, |txns|, None), ops);
      }
    }
  }

  predicate Uploading(counters: map<Key, Counter>, actor: nat) {
    Key(Actor, actor, Upload, EPOCH) in counters && counters[Key(Actor, actor, Upload, EPOCH)].used > 0
  }

  /** At most one actor ever holds an active upload, and it holds exactly one. */
  lemma OneActiveUpload(txns: seq<seq<Op>>, x: nat, y: nat)
    requires Uploading(History(txns), x) && Uploading(History(txns), y)
    ensures x == y && History(txns)[Key(Actor, x, Upload, EPOCH)].used == 1
  {
    var c := History(txns);
    Conservation(txns);
    assert DeploymentUsed(c, Upload, EPOCH) == OwnedTotal(c, Upload, EPOCH);
    if x != y {
      SumAtLeastPair(c.Keys, Key(Actor, x, Upload, EPOCH), Key(Actor, y, Upload, EPOCH), Share(c, Upload, EPOCH));
    }
  }
}
