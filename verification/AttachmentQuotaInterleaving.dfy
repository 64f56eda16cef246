/**
 * Quota transactions that overlap. Each sees the committed counters with its own uncommitted changes on top, and keeps
 * its row locks until it commits or rolls back. What is committed is what a serial run in commit order would leave.
 */
module AttachmentQuotaInterleaving {
  import opened Common
  import opened AttachmentQuotaLedger
  import opened AttachmentQuotaConservation
  import Locking = AttachmentQuotaLocking

  /** A transaction's uncommitted counters, the operations it has completed, and the one it is in. */
  datatype Work = Work(dirty: map<Key, Counter>, done: seq<Op>, current: Option<Op>, refused: bool)

  /** The operations of one committed transaction. */
  datatype Commitment = Commitment(id: nat, ops: seq<Op>)

  /** `rows` are the committed counters; the locks are those of the locking machine. */
  datatype Bank = Bank(rows: map<Key, Counter>, world: Locking.World, work: map<nat, Work>, log: seq<Commitment>)

  datatype Step =
    | Open(id: nat)
    | Submit(id: nat, op: Op)
    | Advance(id: nat)
    | Commit(id: nat)
    | Rollback(id: nat)

  function View(b: Bank, id: nat): map<Key, Counter>
    requires id in b.work
  {
    b.rows + b.work[id].dirty
  }

  predicate Live(b: Bank, id: nat) {
    id in b.world && id in b.work && !b.work[id].refused && !b.world[id].held.failed
  }

  function Begin(b: Bank, id: nat, op: Op): Bank
    requires Live(b, id)
  {
    var k := b.work[id];
    if !Accepted(op) then b.(work := b.work[id := k.(refused := true)])
    else if Batch(op) == [] then b.(work := b.work[id := k.(done := k.done + [op])])
    else b.(world := Locking.Next(b.world, Locking.Submit(id, Batch(op))),
            work := b.work[id := k.(current := Some(op))])
  }

  /** The transaction's view after one admitted change, which may complete the operation. */
  function Wrote(rows: map<Key, Counter>, t: Locking.Txn, k: Work): Work
    requires t.pending != []
  {
    var c := t.pending[0];
    var w := k.(dirty := k.dirty[c.key := After(rows + k.dirty, c)[c.key]]);
    if |t.pending| > 1 || k.current.None? then w else w.(done := k.done + [k.current.value], current := None)
  }

  predicate Admitted(rows: map<Key, Counter>, t: Locking.Txn, k: Work) {
    t.pending != [] && WellFormed(t.pending[0])
    && Admits(Inserted(rows + k.dirty, t.pending[0])[t.pending[0].key], t.pending[0])
  }

  /** The first pending change, unless its row is locked by another transaction. */
  function Proceed(b: Bank, id: nat): Bank
    requires Live(b, id) && b.world[id].pending != []
  {
    var t, k := b.world[id], b.work[id];
    if Locking.Waits(b.world, id) then b
    else
      b.(world := Locking.Next(b.world, Locking.Advance(id, Admitted(b.rows, t, k))),
         work := if Admitted(b.rows, t, k) then b.work[id := Wrote(b.rows, t, k)] else b.work)
  }

  function Without(work: map<nat, Work>, id: nat): map<nat, Work> {
    map u | u in work && u != id :: work[u]
  }

  function Next(b: Bank, step: Step): Bank {
    match step
    case Open(id) =>
      if id in b.world then b
      else b.(world := Locking.Next(b.world, Locking.Open(id)), work := b.work[id := Work(map[], [], None, false)])
    case Submit(id, op) => if Live(b, id) && b.world[id].pending == [] then Begin(b, id, op) else b
    case Advance(id) => if Live(b, id) && b.world[id].pending != [] then Proceed(b, id) else b
    case Commit(id) =>
      if Live(b, id) && b.world[id].pending == [] then
        Bank(View(b, id), Locking.Next(b.world, Locking.Close(id)), Without(b.work, id),
             b.log + [Commitment(id, b.work[id].done)])
      else b
    case Rollback(id) =>
      b.(world := Locking.Next(b.world, Locking.Close(id)), work := Without(b.work, id))
  }

  function Run(steps: seq<Step>): Bank {
    if steps == [] then Bank(map[], map[], map[], []) else Next(Run(steps[..|steps| - 1]), steps[|steps| - 1])
  }

  /** The same transactions one after another. */
  function Serial(log: seq<Commitment>): map<Key, Counter> {
    if log == [] then map[]
    else Transact(Serial(log[..|log| - 1]), log[|log| - 1].id, log[|log| - 1].ops)
  }

  // ---------------------------------------------------------------- operations touch only the counters they name

  predicate SameAt(x: map<Key, Counter>, y: map<Key, Counter>, k: Key) {
    (k in x <==> k in y) && (k in x ==> k in y && x[k] == y[k])
  }

  predicate AgreeOn(x: map<Key, Counter>, y: map<Key, Counter>, keys: set<Key>) {
    forall k :: k in keys ==> SameAt(x, y, k)
  }

  ghost predicate AgreeOff(x: map<Key, Counter>, y: map<Key, Counter>, keys: set<Key>) {
    forall k :: k !in keys ==> SameAt(x, y, k)
  }

  predicate Within(cs: seq<Change>, keys: set<Key>) {
    forall i :: 0 <= i < |cs| ==> cs[i].key in keys
  }

  lemma {:induction false} EachIsLocal(x: map<Key, Counter>, y: map<Key, Counter>, h: Held, cs: seq<Change>,
                                       code: Failure, keys: set<Key>)
    requires AgreeOn(x, y, keys) && Within(cs, keys)
    ensures var p, q := ApplyEach(x, h, cs, code), ApplyEach(y, h, cs, code);
            p.1 == q.1 && p.2 == q.2 && AgreeOn(p.0, q.0, keys) && AgreeOff(x, p.0, keys) && AgreeOff(y, q.0, keys)
    decreases |cs|
  {
    if cs != [] {
      var c := cs[0];
      assert SameAt(x, y, c.key);
      if WellFormed(c) && Admits(Inserted(x, c)[c.key], c) {
        EachIsLocal(After(x, c), After(y, c), Lock(h, c.key), cs[1..], code, keys);
      }
    }
  }

  predicate OpWithin(op: Op, keys: set<Key>) {
    Within(Sort(Batch(op)), keys)
  }

  predicate OpsWithin(ops: seq<Op>, keys: set<Key>) {
    forall i :: 0 <= i < |ops| ==> OpWithin(ops[i], keys)
  }

  lemma PerformIsLocal(x: map<Key, Counter>, y: map<Key, Counter>, xid: nat, held: Option<Held>, op: Op, keys: set<Key>)
    requires AgreeOn(x, y, keys) && OpWithin(op, keys)
    ensures var p, q := Perform(Session(x, xid, held), op), Perform(Session(y, xid, held), op);
            p.1 == q.1 && p.0.held == q.0.held && p.0.xid == q.0.xid == xid
            && AgreeOn(p.0.counters, q.0.counters, keys)
            && AgreeOff(x, p.0.counters, keys) && AgreeOff(y, q.0.counters, keys)
  {
    EachIsLocal(x, y, CurrentLocks(Session(x, xid, held)), Sort(Batch(op)), Code(op), keys);
  }

  lemma {:induction false} AttemptIsLocal(x: map<Key, Counter>, y: map<Key, Counter>, xid: nat, held: Option<Held>,
                                          ops: seq<Op>, keys: set<Key>)
    requires AgreeOn(x, y, keys) && OpsWithin(ops, keys)
    ensures var p, q := Attempt(Session(x, xid, held), ops), Attempt(Session(y, xid, held), ops);
            p.1 == q.1 && p.0.held == q.0.held && p.0.xid == q.0.xid == xid
            && AgreeOn(p.0.counters, q.0.counters, keys)
            && AgreeOff(x, p.0.counters, keys) && AgreeOff(y, q.0.counters, keys)
    decreases |ops|
  {
    if ops != [] {
      PerformIsLocal(x, y, xid, held, ops[0], keys);
      var p, q := Perform(Session(x, xid, held), ops[0]).0, Perform(Session(y, xid, held), ops[0]).0;
      if Perform(Session(x, xid, held), ops[0]).1.Ok? {
        AttemptIsLocal(p.counters, q.counters, xid, p.held, ops[1..], keys);
      }
    }
  }

  // ---------------------------------------------------------------- one more change, one more operation

  lemma {:induction false} EachThenOne(x: map<Key, Counter>, h: Held, cs: seq<Change>, c: Change, code: Failure)
    requires var p := ApplyEach(x, h, cs, code);
             p.2.Ok? && WellFormed(c) && Admits(Inserted(p.0, c)[c.key], c)
    ensures var p := ApplyEach(x, h, cs, code);
            ApplyEach(x, h, cs + [c], code) == (After(p.0, c), Lock(p.1, c.key), Ok(()))
    decreases |cs|
  {
    if cs == [] {
      assert cs + [c] == [c] && [c][1..] == [];
    } else {
      assert (cs + [c])[1..] == cs[1..] + [c];
      EachThenOne(After(x, cs[0]), Lock(h, cs[0].key), cs[1..], c, code);
    }
  }

  lemma {:induction false} AttemptThenOne(s: Session, ops: seq<Op>, op: Op)
    requires Attempt(s, ops).1
    ensures Attempt(s, ops + [op]) == var r := Perform(Attempt(s, ops).0, op); (r.0, r.1.Ok?)
    decreases |ops|
  {
    if ops == [] {
      assert ops + [op] == [op] && [op][1..] == [];
    } else {
      assert (ops + [op])[1..] == ops[1..] + [op];
      AttemptThenOne(Perform(s, ops[0]).0, ops[1..], op);
    }
  }

  // ---------------------------------------------------------------- what a live transaction has done

  /** The session as it would be had the completed operations run alone on the committed counters. */
  function Alone(rows: map<Key, Counter>, id: nat, done: seq<Op>): (Session, bool) {
    Attempt(Session(rows, id, None), done)
  }

  /** Between two operations the transaction sees what running alone would have left. */
  predicate IdleOk(rows: map<Key, Counter>, id: nat, t: Locking.Txn, k: Work) {
    var a := Alone(rows, id, k.done);
    t.pending == [] && a.1 && a.0.counters == rows + k.dirty && CurrentLocks(a.0) == t.held
  }

  /** A sorted batch that has been applied up to the pending changes, starting from session `a`. */
  predicate Underway(a: Session, sorted: seq<Change>, code: Failure, t: Locking.Txn, view: map<Key, Counter>) {
    var n := |sorted| - |t.pending|;
    && t.pending != [] && 0 <= n && t.pending == sorted[n..]
    && !OutOfOrder(CurrentLocks(a), sorted) && Within(sorted[..n], t.locks)
    && ApplyEach(a.counters, CurrentLocks(a), sorted[..n], code) == (view, t.held, Ok(()))
  }

  /** Within an operation it sees that with the changes applied so far. */
  predicate BusyOk(rows: map<Key, Counter>, id: nat, t: Locking.Txn, k: Work, op: Op) {
    var a := Alone(rows, id, k.done);
    Accepted(op) && Batch(op) != [] && a.1 && Underway(a.0, Sort(Batch(op)), Code(op), t, rows + k.dirty)
  }

  predicate TxnExplained(rows: map<Key, Counter>, id: nat, t: Locking.Txn, k: Work) {
    && k.dirty.Keys <= t.locks && OpsWithin(k.done, t.locks)
    && (if k.current.None? then IdleOk(rows, id, t, k) else BusyOk(rows, id, t, k, k.current.value))
  }

  ghost predicate Inv(b: Bank) {
    && Locking.Inv(b.world) && b.work.Keys == b.world.Keys
    && b.rows == Serial(b.log)
    && AllExplained(b)
  }

  ghost predicate AllExplained(b: Bank) {
    forall id :: Live(b, id) ==> TxnExplained(b.rows, id, b.world[id], b.work[id])
  }

  /** What agrees on the locked counters and with the new rows elsewhere is the new rows under the same changes. */
  lemma OverlayMoves(rows: map<Key, Counter>, moved: map<Key, Counter>, dirty: map<Key, Counter>, r: map<Key, Counter>,
                     keys: set<Key>)
    requires AgreeOn(rows, moved, keys) && dirty.Keys <= keys
    requires AgreeOn(rows + dirty, r, keys) && AgreeOff(moved, r, keys)
    ensures r == moved + dirty
  {
    forall k ensures SameAt(r, moved + dirty, k) {
      if k in keys { assert SameAt(rows, moved, k) && SameAt(rows + dirty, r, k); }
      else { assert SameAt(moved, r, k); }
    }
    MapsAreEqual(r, moved + dirty);
  }

  lemma MapsAreEqual(x: map<Key, Counter>, y: map<Key, Counter>)
    requires forall k :: SameAt(x, y, k)
    ensures x == y
  {
    forall k ensures (k in x <==> k in y) && (k in x ==> x[k] == y[k]) { assert SameAt(x, y, k); }
  }

  /** Changes committed to counters it has not locked do not disturb a transaction. */
  lemma Undisturbed(rows: map<Key, Counter>, moved: map<Key, Counter>, id: nat, t: Locking.Txn, k: Work)
    requires TxnExplained(rows, id, t, k) && AgreeOn(rows, moved, t.locks)
    ensures TxnExplained(moved, id, t, k)
  {
    var a, after := Alone(rows, id, k.done), Alone(moved, id, k.done);
    AttemptIsLocal(rows, moved, id, None, k.done, t.locks);
    if k.current.None? {
      OverlayMoves(rows, moved, k.dirty, after.0.counters, t.locks);
    } else {
      var op := k.current.value;
      UnderwayUndisturbed(rows, moved, t, k.dirty, a.0, after.0, Sort(Batch(op)), Code(op));
    }
  }

  lemma UnderwayUndisturbed(rows: map<Key, Counter>, moved: map<Key, Counter>, t: Locking.Txn, dirty: map<Key, Counter>,
                            a: Session, after: Session, sorted: seq<Change>, code: Failure)
    requires Underway(a, sorted, code, t, rows + dirty) && dirty.Keys <= t.locks
    requires AgreeOn(rows, moved, t.locks) && AgreeOn(a.counters, after.counters, t.locks)
    requires AgreeOff(moved, after.counters, t.locks) && CurrentLocks(a) == CurrentLocks(after)
    ensures Underway(after, sorted, code, t, moved + dirty)
  {
    var cs := sorted[..|sorted| - |t.pending|];
    EachIsLocal(a.counters, after.counters, CurrentLocks(a), cs, code, t.locks);
    var r := ApplyEach(after.counters, CurrentLocks(after), cs, code).0;
    forall x | x !in t.locks ensures SameAt(moved, r, x) {
      assert SameAt(moved, after.counters, x) && SameAt(after.counters, r, x);
    }
    OverlayMoves(rows, moved, dirty, r, t.locks);
  }

  // ---------------------------------------------------------------- every step keeps it

  predicate SameElsewhere(b: Bank, c: Bank, id: nat) {
    && (forall u :: u in b.world && u != id ==> u in c.world && c.world[u] == b.world[u])
    && (forall u :: u in c.world && u != id ==> u in b.world)
    && (forall u :: u in b.work && u != id ==> u in c.work && c.work[u] == b.work[u])
    && (forall u :: u in c.work && u != id ==> u in b.work)
  }

  /** A step of one transaction that commits nothing. */
  lemma OwnStep(b: Bank, c: Bank, id: nat)
    requires AllExplained(b) && c.rows == b.rows && SameElsewhere(b, c, id)
    requires Live(c, id) ==> TxnExplained(b.rows, id, c.world[id], c.work[id])
    ensures AllExplained(c)
  {
    forall u | Live(c, u) ensures TxnExplained(c.rows, u, c.world[u], c.work[u]) {
      if u != id { assert Live(b, u); }
    }
  }

  lemma SortKeepsLength(cs: seq<Change>)
    ensures |Sort(cs)| == |cs|
  {
    SortSorts(cs);
    assert |multiset(Sort(cs))| == |multiset(cs)|;
  }

  lemma NothingDone(rows: map<Key, Counter>)
    ensures rows + map[] == rows
  {
    MapsAreEqual(rows + map[], rows);
  }

  lemma OpenKeeps(b: Bank, id: nat)
    requires Inv(b)
    ensures Inv(Next(b, Open(id)))
  {
    Locking.Preserved(b.world, Locking.Open(id));
    if id !in b.world {
      NothingDone(b.rows);
      OwnStep(b, Next(b, Open(id)), id);
    }
  }

  lemma EmptyOpIsDone(rows: map<Key, Counter>, id: nat, t: Locking.Txn, k: Work, op: Op)
    requires TxnExplained(rows, id, t, k) && k.current.None? && Accepted(op) && Batch(op) == []
    ensures TxnExplained(rows, id, t, k.(done := k.done + [op]))
  {
    AttemptThenOne(Session(rows, id, None), k.done, op);
    assert OpWithin(op, t.locks);
  }

  lemma OpStarts(rows: map<Key, Counter>, id: nat, t: Locking.Txn, k: Work, op: Op, sorted: seq<Change>)
    requires TxnExplained(rows, id, t, k) && k.current.None? && Accepted(op) && Batch(op) != []
    requires sorted == Sort(Batch(op)) && !OutOfOrder(t.held, sorted)
    ensures TxnExplained(rows, id, t.(pending := sorted), k.(current := Some(op)))
  {
    SortKeepsLength(Batch(op));
    UnderwayFromTheStart(Alone(rows, id, k.done).0, sorted, Code(op), t, rows + k.dirty);
  }

  lemma UnderwayFromTheStart(a: Session, sorted: seq<Change>, code: Failure, t: Locking.Txn, view: map<Key, Counter>)
    requires a.counters == view && CurrentLocks(a) == t.held && !OutOfOrder(t.held, sorted) && sorted != []
    ensures Underway(a, sorted, code, t.(pending := sorted), view)
  {
    assert sorted[..0] == [] && sorted[0..] == sorted;
  }

  lemma BeginKeeps(b: Bank, id: nat, op: Op)
    requires Inv(b) && Live(b, id) && b.world[id].pending == []
    ensures Inv(Begin(b, id, op))
  {
    var t, k := b.world[id], b.work[id];
    assert TxnExplained(b.rows, id, t, k);
    if !Accepted(op) {
      OwnStep(b, Begin(b, id, op), id);
    } else if Batch(op) == [] {
      EmptyOpIsDone(b.rows, id, t, k, op);
      OwnStep(b, Begin(b, id, op), id);
    } else {
      SubmitKeeps(b, id, op, Batch(op));
    }
  }

  lemma SubmitKeeps(b: Bank, id: nat, op: Op, cs: seq<Change>)
    requires Inv(b) && Live(b, id) && b.world[id].pending == []
    requires Accepted(op) && cs == Batch(op) && cs != []
    ensures Inv(b.(world := Locking.Next(b.world, Locking.Submit(id, cs)),
                   work := b.work[id := b.work[id].(current := Some(op))]))
  {
    Locking.Preserved(b.world, Locking.Submit(id, cs));
    SubmitExplained(b, id, op, cs);
  }

  lemma SubmitExplained(b: Bank, id: nat, op: Op, cs: seq<Change>)
    requires AllExplained(b) && Live(b, id) && b.world[id].pending == []
    requires Accepted(op) && cs == Batch(op) && cs != []
    ensures AllExplained(b.(world := Locking.Next(b.world, Locking.Submit(id, cs)),
                            work := b.work[id := b.work[id].(current := Some(op))]))
  {
    var t, k := b.world[id], b.work[id];
    var c := b.(world := Locking.Next(b.world, Locking.Submit(id, cs)), work := b.work[id := k.(current := Some(op))]);
    if !OutOfOrder(t.held, Sort(cs)) {
      assert TxnExplained(b.rows, id, t, k);
      OpStarts(b.rows, id, t, k, op, Sort(cs));
    }
    OwnStep(b, c, id);
  }

  lemma OverlayOne(rows: map<Key, Counter>, dirty: map<Key, Counter>, c: Change)
    ensures rows + dirty[c.key := After(rows + dirty, c)[c.key]] == After(rows + dirty, c)
  {
    MapsAreEqual(rows + dirty[c.key := After(rows + dirty, c)[c.key]], After(rows + dirty, c));
  }

  /** One admitted change of the current operation. */
  lemma ChangeIsApplied(a: Session, sorted: seq<Change>, code: Failure, t: Locking.Txn, view: map<Key, Counter>)
    requires Underway(a, sorted, code, t, view)
    requires WellFormed(t.pending[0]) && Admits(Inserted(view, t.pending[0])[t.pending[0].key], t.pending[0])
    ensures var c, n := t.pending[0], |sorted| - |t.pending| + 1;
            && n <= |sorted| && t.pending[1..] == sorted[n..] && Within(sorted[..n], t.locks + {c.key})
            && ApplyEach(a.counters, CurrentLocks(a), sorted[..n], code) ==
               (After(view, c), Lock(t.held, c.key), Ok(()))
  {
    var c, n := t.pending[0], |sorted| - |t.pending|;
    assert sorted[n] == c && sorted[..n + 1] == sorted[..n] + [c];
    EachThenOne(a.counters, CurrentLocks(a), sorted[..n], c, code);
  }

  lemma WithinMore(ops: seq<Op>, keys: set<Key>, k: Key)
    requires OpsWithin(ops, keys)
    ensures OpsWithin(ops, keys + {k})
  {
    forall i | 0 <= i < |ops| ensures OpWithin(ops[i], keys + {k}) { assert OpWithin(ops[i], keys); }
  }

  function Advanced(t: Locking.Txn): Locking.Txn
    requires t.pending != []
  {
    Locking.Txn(Lock(t.held, t.pending[0].key), t.locks + {t.pending[0].key}, t.pending[1..])
  }

  lemma OpContinues(rows: map<Key, Counter>, id: nat, t: Locking.Txn, k: Work, op: Op)
    requires TxnExplained(rows, id, t, k) && k.current == Some(op) && |t.pending| > 1 && Admitted(rows, t, k)
    ensures TxnExplained(rows, id, Advanced(t), Wrote(rows, t, k))
  {
    ChangeIsApplied(Alone(rows, id, k.done).0, Sort(Batch(op)), Code(op), t, rows + k.dirty);
    OverlayOne(rows, k.dirty, t.pending[0]);
    WithinMore(k.done, t.locks, t.pending[0].key);
  }

  /** The last change of a batch leaves the session the whole batch leaves. */
  lemma BatchEnds(a: Session, op: Op, sorted: seq<Change>, t: Locking.Txn, view: map<Key, Counter>)
    requires Accepted(op) && Batch(op) != [] && sorted == Sort(Batch(op)) && !t.held.failed && |t.pending| == 1
    requires Underway(a, sorted, Code(op), t, view)
    requires WellFormed(t.pending[0]) && Admits(Inserted(view, t.pending[0])[t.pending[0].key], t.pending[0])
    ensures Perform(a, op) == (Session(After(view, t.pending[0]), a.xid, Some(Lock(t.held, t.pending[0].key))), Ok(()))
    ensures Lock(t.held, t.pending[0].key).xid == a.xid && Within(sorted, t.locks + {t.pending[0].key})
  {
    ChangeIsApplied(a, sorted, Code(op), t, view);
    assert sorted[..|sorted|] == sorted;
    LocksKeepTransaction(a.counters, CurrentLocks(a), sorted, Code(op));
  }

  lemma OpEnds(rows: map<Key, Counter>, id: nat, t: Locking.Txn, k: Work, op: Op)
    requires TxnExplained(rows, id, t, k) && k.current == Some(op) && |t.pending| == 1 && !t.held.failed
    requires Admitted(rows, t, k)
    ensures TxnExplained(rows, id, Advanced(t), Wrote(rows, t, k))
  {
    var a, c := Alone(rows, id, k.done).0, t.pending[0];
    BatchEnds(a, op, Sort(Batch(op)), t, rows + k.dirty);
    OverlayOne(rows, k.dirty, c);
    WithinMore(k.done, t.locks, c.key);
    DoneGrows(k.done, op, t.locks + {c.key});
    AttemptThenOne(Session(rows, id, None), k.done, op);
  }

  lemma DoneGrows(done: seq<Op>, op: Op, keys: set<Key>)
    requires OpsWithin(done, keys) && OpWithin(op, keys)
    ensures OpsWithin(done + [op], keys)
  {}

  lemma ChangeExplained(rows: map<Key, Counter>, id: nat, t: Locking.Txn, k: Work)
    requires TxnExplained(rows, id, t, k) && Admitted(rows, t, k) && !t.held.failed
    ensures TxnExplained(rows, id, Advanced(t), Wrote(rows, t, k))
  {
    if |t.pending| > 1 { OpContinues(rows, id, t, k, k.current.value); }
    else { OpEnds(rows, id, t, k, k.current.value); }
  }

  lemma ProceedKeeps(b: Bank, id: nat)
    requires Inv(b) && Live(b, id) && b.world[id].pending != []
    ensures Inv(Proceed(b, id))
  {
    if !Locking.Waits(b.world, id) {
      Locking.Preserved(b.world, Locking.Advance(id, Admitted(b.rows, b.world[id], b.work[id])));
      ProceedExplained(b, id, Proceed(b, id));
    }
  }

  lemma ProceedMoves(b: Bank, id: nat, c: Bank)
    requires Live(b, id) && b.world[id].pending != [] && !Locking.Waits(b.world, id)
    requires c == Proceed(b, id)
    ensures c.rows == b.rows && SameElsewhere(b, c, id)
    ensures Live(c, id) ==>
              Admitted(b.rows, b.world[id], b.work[id]) && c.world[id] == Advanced(b.world[id])
              && c.work[id] == Wrote(b.rows, b.world[id], b.work[id])
  {}

  lemma ProceedExplained(b: Bank, id: nat, c: Bank)
    requires AllExplained(b) && Live(b, id) && b.world[id].pending != [] && !Locking.Waits(b.world, id)
    requires c == Proceed(b, id)
    ensures AllExplained(c)
  {
    ProceedMoves(b, id, c);
    if Live(c, id) { ChangeExplained(b.rows, id, b.world[id], b.work[id]); }
    OwnStep(b, c, id);
  }

  lemma CommitIsSerial(b: Bank, id: nat)
    requires Inv(b) && Live(b, id) && b.world[id].pending == []
    ensures Next(b, Commit(id)).rows == Serial(Next(b, Commit(id)).log)
  {
    assert TxnExplained(b.rows, id, b.world[id], b.work[id]);
    var log := b.log + [Commitment(id, b.work[id].done)];
    assert log[..|log| - 1] == b.log;
  }

  lemma CommitKeeps(b: Bank, id: nat)
    requires Inv(b) && Live(b, id) && b.world[id].pending == []
    ensures Inv(Next(b, Commit(id)))
  {
    var c := Next(b, Commit(id));
    Locking.Preserved(b.world, Locking.Close(id));
    CommitIsSerial(b, id);
    assert TxnExplained(b.rows, id, b.world[id], b.work[id]);
    forall u | Live(c, u) ensures TxnExplained(c.rows, u, c.world[u], c.work[u]) {
      assert Live(b, u) && TxnExplained(b.rows, u, b.world[u], b.work[u]);
      forall k | k in b.world[u].locks ensures SameAt(b.rows, c.rows, k) { assert k !in b.world[id].locks; }
      Undisturbed(b.rows, c.rows, u, b.world[u], b.work[u]);
    }
  }

  lemma RollbackKeeps(b: Bank, id: nat)
    requires Inv(b)
    ensures Inv(Next(b, Rollback(id)))
  {
    Locking.Preserved(b.world, Locking.Close(id));
    OwnStep(b, Next(b, Rollback(id)), id);
  }

  lemma Preserved(b: Bank, step: Step)
    requires Inv(b)
    ensures Inv(Next(b, step))
  {
    match step
    case Open(id) => OpenKeeps(b, id);
    case Submit(id, op) => if Live(b, id) && b.world[id].pending == [] { BeginKeeps(b, id, op); }
    case Advance(id) => if Live(b, id) && b.world[id].pending != [] { ProceedKeeps(b, id); }
    case Commit(id) => if Live(b, id) && b.world[id].pending == [] { CommitKeeps(b, id); }
    case Rollback(id) => RollbackKeeps(b, id);
  }

  lemma {:induction false} Reachable(steps: seq<Step>)
    ensures Inv(Run(steps))
  {
    if steps != [] {
      Reachable(steps[..|steps| - 1]);
      Preserved(Run(steps[..|steps| - 1]), steps[|steps| - 1]);
    }
  }

  // ---------------------------------------------------------------- the theorems

  /** However transactions overlap, the committed counters are those of a serial run in commit order. */
  lemma {:induction false} CommittedIsSerial(steps: seq<Step>)
    ensures Run(steps).rows == Serial(Run(steps).log)
  {
    Reachable(steps);
  }

  lemma {:induction false} SerialIsSound(log: seq<Commitment>)
    ensures Sound(Serial(log))
  {
    if log == [] {
      Conservation([]);
      assert History([]) == map[];
    } else {
      var before, last := Serial(log[..|log| - 1]), log[|log| - 1];
      SerialIsSound(log[..|log| - 1]);
      if Attempt(Session(before, last.id, None), last.ops).1 {
        AttemptIsSound(Session(before, last.id, None), last.ops);
      }
    }
  }

  /**
   * However transactions overlap, every committed counter is within its ceiling, and for every paired resource and
   * window the deployment has used exactly what its actors and addresses have used.
   */
  lemma {:induction false} InterleavedConservation(steps: seq<Step>)
    ensures InRange(Run(steps).rows) && Balanced(Run(steps).rows)
  {
    CommittedIsSerial(steps);
    SerialIsSound(Run(steps).log);
  }

  /** The locks are those of a run of the locking machine, so everything proved of it holds here. */
  lemma {:induction false} LocksAreShared(steps: seq<Step>)
    ensures exists ls :: Run(steps).world == Locking.Run(ls)
  {
    if steps == [] {
      assert Run(steps).world == Locking.Run([]);
    } else {
      var b, step := Run(steps[..|steps| - 1]), steps[|steps| - 1];
      LocksAreShared(steps[..|steps| - 1]);
      var ls :| b.world == Locking.Run(ls);
      var l := LockStep(b, step);
      if l.Some? {
        assert (ls + [l.value])[..|ls|] == ls;
        assert Next(b, step).world == Locking.Run(ls + [l.value]);
      }
    }
  }

  /** The locking step behind a step, if it has one. */
  lemma LockStep(b: Bank, step: Step) returns (l: Option<Locking.Step>)
    ensures Next(b, step).world == if l.Some? then Locking.Next(b.world, l.value) else b.world
  {
    l := None;
    match step
    case Open(id) => if id !in b.world { l := Some(Locking.Open(id)); }
    case Submit(id, op) =>
      if Live(b, id) && b.world[id].pending == [] && Accepted(op) && Batch(op) != [] {
        l := Some(Locking.Submit(id, Batch(op)));
      }
    case Advance(id) =>
      if Live(b, id) && b.world[id].pending != [] && !Locking.Waits(b.world, id) {
        l := Some(Locking.Advance(id, Admitted(b.rows, b.world[id], b.work[id])));
      }
    case Commit(id) => if Live(b, id) && b.world[id].pending == [] { l := Some(Locking.Close(id)); }
    case Rollback(id) => l := Some(Locking.Close(id));
  }

  /** Overlapping transactions never wait for each other in a circle. */
  lemma {:induction false} NeverDeadlocked(steps: seq<Step>, cycle: seq<nat>)
    requires |cycle| >= 2 && cycle[|cycle| - 1] == cycle[0]
    ensures exists i :: 0 <= i < |cycle| - 1 && !Locking.WaitsFor(Run(steps).world, cycle[i], cycle[i + 1])
  {
    LocksAreShared(steps);
    var ls :| Run(steps).world == Locking.Run(ls);
    Locking.NoDeadlock(ls, cycle);
  }
}
