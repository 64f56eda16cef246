/**
 * Deadlock freedom of the quota counters: any number of transactions, each submitting any
 * batches, taking one row lock at a time under the ledger's lock-order rule.
 */
module AttachmentQuotaLocking {
  import opened Common
  import opened AttachmentQuotaLedger

  /**
   * One open transaction: the locks its session remembers, every row lock the database
   * holds for it, and the rest of the batch it is applying.
   */
  datatype Txn = Txn(held: Held, locks: set<Key>, pending: seq<Change>)

  type World = map<nat, Txn>

  datatype Step =
    | Open(id: nat)
    | Submit(id: nat, changes: seq<Change>)
    | Advance(id: nat, admitted: bool)
    | Close(id: nat)

  predicate HeldByOther(w: World, id: nat, k: Key) {
    exists u :: u in w && u != id && k in w[u].locks
  }

  /** A transaction with a pending change whose row another transaction has locked. */
  predicate Waits(w: World, id: nat) {
    id in w && w[id].pending != [] && HeldByOther(w, id, w[id].pending[0].key)
  }

  predicate WaitsFor(w: World, id: nat, u: nat) {
    Waits(w, id) && u in w && u != id && w[id].pending[0].key in w[u].locks
  }

  /**
   * A batch is refused on a poisoned session or out of lock order, otherwise it is applied
   * row by row. `admitted` is the database's answer to one row update; a refused update
   * still holds the inserted row's lock until the transaction closes.
   */
  function Next(w: World, step: Step): World {
    match step
    case Open(id) =>
      if id in w then w else w[id := Txn(Held(id, {}, None, false), {}, [])]
    case Submit(id, changes) =>
      if id !in w || w[id].pending != [] || w[id].held.failed then w
      else if OutOfOrder(w[id].held, Sort(changes)) then w[id := w[id].(held := w[id].held.(failed := true))]
      else w[id := w[id].(pending := Sort(changes))]
    case Advance(id, admitted) =>
      if id !in w || w[id].pending == [] || Waits(w, id) then w
      else
        var t := w[id];
        var c := t.pending[0];
        if !WellFormed(c) then w[id := t.(held := t.held.(failed := true), pending := [])]
        else if !admitted then
          w[id := t.(held := t.held.(failed := true), pending := [], locks := t.locks + {c.key})]
        else w[id := Txn(Lock(t.held, c.key), t.locks + {c.key}, t.pending[1..])]
    case Close(id) => map u | u in w && u != id :: w[u]
  }

  function Run(steps: seq<Step>): World {
    if steps == [] then map[] else Next(Run(steps[..|steps| - 1]), steps[|steps| - 1])
  }

  // ---------------------------------------------------------------- the invariant

  /** The remembered maximum is the greatest remembered key. */
  predicate MaximumOk(h: Held) {
    && (h.maximum.None? ==> h.keys == {})
    && (h.maximum.Some? ==> h.maximum.value in h.keys
                            && forall k :: k in h.keys ==> k == h.maximum.value || Before(k, h.maximum.value))
  }

  predicate PendingOk(t: Txn) {
    && Ordered(t.pending)
    && forall c :: c in t.pending ==> c.key in t.locks || forall l :: l in t.locks ==> Before(l, c.key)
  }

  predicate TxnOk(t: Txn) {
    && MaximumOk(t.held) && PendingOk(t)
    && (!t.held.failed ==> t.locks == t.held.keys)
    && (t.held.failed ==> t.pending == [])
  }

  predicate Disjoint(w: World) {
    forall t, u, k :: t in w && u in w && t != u && k in w[t].locks ==> k !in w[u].locks
  }

  ghost predicate Inv(w: World) {
    (forall t :: t in w ==> TxnOk(w[t])) && Disjoint(w)
  }

  /** A batch that passes the order check only asks for held rows or rows after all held ones. */
  lemma SubmitOk(t: Txn, changes: seq<Change>)
    requires TxnOk(t) && !t.held.failed && !OutOfOrder(t.held, Sort(changes))
    ensures PendingOk(t.(pending := Sort(changes)))
  {
    SortSorts(changes);
    forall c, l | c in Sort(changes) && c.key !in t.locks && l in t.locks ensures Before(l, c.key) {
      BeforeIsTotal(c.key, t.held.maximum.value);
      if l != t.held.maximum.value {
        BeforeIsTransitive(l, t.held.maximum.value, c.key);
      }
    }
  }

  lemma LockOk(h: Held, k: Key)
    requires MaximumOk(h)
    ensures MaximumOk(Lock(h, k))
  {
    if h.maximum.Some? {
      BeforeIsTotal(k, h.maximum.value);
      forall l | l in h.keys && l != h.maximum.value && Before(h.maximum.value, k) ensures Before(l, k) {
        BeforeIsTransitive(l, h.maximum.value, k);
      }
    }
  }

  lemma AdvanceOk(t: Txn)
    requires TxnOk(t) && t.pending != []
    ensures TxnOk(Txn(Lock(t.held, t.pending[0].key), t.locks + {t.pending[0].key}, t.pending[1..]))
  {
    var k, rest := t.pending[0].key, t.pending[1..];
    LockOk(t.held, k);
    forall c | c in rest && c.key !in t.locks + {k} ensures Before(k, c.key) {
      var j :| 0 <= j < |rest| && rest[j] == c;
      assert t.pending[j + 1] == c && !Before(c.key, k);
      BeforeIsTotal(c.key, k);
    }
    assert Ordered(rest);
  }

  /** Replacing one transaction by a sound one that took no other transaction's lock. */
  lemma ReplaceOk(w: World, id: nat, t: Txn)
    requires Inv(w) && id in w && TxnOk(t)
    requires forall k :: k in t.locks ==> k in w[id].locks || !HeldByOther(w, id, k)
    ensures Inv(w[id := t])
  {
    var w' := w[id := t];
    forall x, y, k | x in w' && y in w' && x != y && k in w'[x].locks ensures k !in w'[y].locks {
      if x == id && k !in w[id].locks {
        assert !HeldByOther(w, id, k);
      } else if y == id && k in t.locks {
        assert k !in w[id].locks;
        assert HeldByOther(w, id, k);
      }
    }
  }

  lemma AdvancePreserves(w: World, id: nat, admitted: bool)
    requires Inv(w) && id in w && w[id].pending != [] && !Waits(w, id)
    ensures Inv(Next(w, Advance(id, admitted)))
  {
    AdvanceOk(w[id]);
    ReplaceOk(w, id, Next(w, Advance(id, admitted))[id]);
  }

  lemma Preserved(w: World, step: Step)
    requires Inv(w)
    ensures Inv(Next(w, step))
  {
    match step
    case Open(id) =>
    case Submit(id, changes) =>
      if id in w && w[id].pending == [] && !w[id].held.failed {
        if !OutOfOrder(w[id].held, Sort(changes)) {
          SubmitOk(w[id], changes);
        }
        ReplaceOk(w, id, Next(w, step)[id]);
      }
    case Advance(id, admitted) =>
      if id in w && w[id].pending != [] && !Waits(w, id) {
        AdvancePreserves(w, id, admitted);
      }
    case Close(id) =>
  }

  lemma {:induction false} Reachable(steps: seq<Step>)
    ensures Inv(Run(steps))
  {
    if steps != [] {
      Reachable(steps[..|steps| - 1]);
      Preserved(Run(steps[..|steps| - 1]), steps[|steps| - 1]);
    }
  }

  // ---------------------------------------------------------------- deadlock freedom

  /** A transaction only ever waits for a counter after every counter whose lock it holds. */
  lemma WaitsUpwards(steps: seq<Step>, id: nat, held: Key)
    requires Waits(Run(steps), id) && held in Run(steps)[id].locks
    ensures Before(held, Run(steps)[id].pending[0].key)
  {
    var w := Run(steps);
    Reachable(steps);
    var k := w[id].pending[0].key;
    var u :| u in w && u != id && k in w[u].locks;
    assert k !in w[id].locks;
  }

  /** Along a chain of waits the counters waited for strictly increase. */
  lemma {:induction false} ChainsClimb(steps: seq<Step>, chain: seq<nat>, n: nat)
    requires 0 < n < |chain|
    requires forall i :: 0 <= i < |chain| - 1 ==> WaitsFor(Run(steps), chain[i], chain[i + 1])
    requires Waits(Run(steps), chain[n])
    ensures Waits(Run(steps), chain[0])
    ensures Before(Run(steps)[chain[0]].pending[0].key, Run(steps)[chain[n]].pending[0].key)
  {
    var w := Run(steps);
    assert WaitsFor(w, chain[0], chain[1]) && WaitsFor(w, chain[n - 1], chain[n]);
    WaitsUpwards(steps, chain[n], w[chain[n - 1]].pending[0].key);
    if n > 1 {
      ChainsClimb(steps, chain, n - 1);
      BeforeIsTransitive(w[chain[0]].pending[0].key, w[chain[n - 1]].pending[0].key, w[chain[n]].pending[0].key);
    }
  }

  /** No reachable state has a cycle of transactions each waiting for the next. */
  lemma NoDeadlock(steps: seq<Step>, cycle: seq<nat>)
    requires |cycle| >= 2 && cycle[|cycle| - 1] == cycle[0]
    ensures exists i :: 0 <= i < |cycle| - 1 && !WaitsFor(Run(steps), cycle[i], cycle[i + 1])
  {
    var w := Run(steps);
    if forall i :: 0 <= i < |cycle| - 1 ==> WaitsFor(w, cycle[i], cycle[i + 1]) {
      assert WaitsFor(w, cycle[0], cycle[1]);
      ChainsClimb(steps, cycle, |cycle| - 1);
    }
  }

  /** Following the waits from `id`: every transaction visited so far waits for an earlier counter. */
  lemma {:induction false} ChainEnds(steps: seq<Step>, id: nat, visited: set<nat>)
    requires Waits(Run(steps), id)
    requires visited <= Run(steps).Keys && id !in visited
    requires forall v :: v in visited ==>
               Waits(Run(steps), v) && Before(Run(steps)[v].pending[0].key, Run(steps)[id].pending[0].key)
    ensures exists t, u :: WaitsFor(Run(steps), t, u) && !Waits(Run(steps), u)
    decreases |Run(steps).Keys - visited|
  {
    var w := Run(steps);
    var k := w[id].pending[0].key;
    var u :| u in w && u != id && k in w[u].locks;
    assert WaitsFor(w, id, u);
    if Waits(w, u) {
      WaitsUpwards(steps, u, k);
      var next := w[u].pending[0].key;
      forall v | v in visited ensures Before(w[v].pending[0].key, next) {
        BeforeIsTransitive(w[v].pending[0].key, k, next);
      }
      BeforeIsTotal(k, next);
      assert Run(steps).Keys - (visited + {id}) < Run(steps).Keys - visited;
      ChainEnds(steps, u, visited + {id});
    }
  }

  /** Whoever waits, some transaction holding a waited-for counter can run. */
  lemma SomeoneCanRun(steps: seq<Step>, id: nat)
    requires Waits(Run(steps), id)
    ensures exists t, u :: WaitsFor(Run(steps), t, u) && !Waits(Run(steps), u)
  {
    ChainEnds(steps, id, {});
  }
}
