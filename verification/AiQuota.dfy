/** Token quotas per key and fixed window: reserve before a request, then settle or release. */
module AiQuota {
  import opened Common
  import opened Sums

  datatype WindowKey = WindowKey(quotaKey: string, start: int)
  datatype Window = Window(used: int, reserved: int)
  datatype Reservation = Reservation(id: nat, window: WindowKey, tokens: int)
  datatype PolicyError = QuotaExceeded | PolicyUnavailable | CostUnavailable

  /** `next` is the next identifier the random source will hand out; identifiers never repeat. */
  datatype Quota = Quota(windows: map<WindowKey, Window>, reservations: map<nat, Reservation>, next: nat)

  datatype Demand = Demand(quotaKey: string, requested: int, cap: int, windowMs: int)

  const EMPTY := Quota(map[], map[], 0)

  predicate Valid(d: Demand) {
    d.quotaKey != "" && SafeInteger(d.requested) && d.requested >= 0
    && SafeInteger(d.cap) && d.cap >= 0 && SafeInteger(d.windowMs) && d.windowMs > 0
  }

  function WindowAt(d: Demand, now: int): WindowKey
    requires d.windowMs > 0
  {
    WindowKey(d.quotaKey, now / d.windowMs * d.windowMs)
  }

  function Current(q: Quota, w: WindowKey): Window {
    if w in q.windows then q.windows[w] else Window(0, 0)
  }

  function Reserve(q: Quota, d: Demand, now: int): (Quota, Outcome<Reservation, PolicyError>) {
    if !Valid(d) then (q, Refused(PolicyUnavailable))
    else
      var key := WindowAt(d, now);
      var window := Current(q, key);
      if window.used + window.reserved + d.requested > d.cap then (q, Refused(QuotaExceeded))
      else
        var r := Reservation(q.next, key, d.requested);
        (Quota(q.windows[key := window.(reserved := window.reserved + d.requested)],
               q.reservations[r.id := r], q.next + 1), Ok(r))
  }

  function Settle(q: Quota, id: nat, actual: int): (Quota, Outcome<(), PolicyError>) {
    if id !in q.reservations || !SafeInteger(actual) || actual < 0 || actual > q.reservations[id].tokens then
      (q, Refused(PolicyUnavailable))
    else
      var r := q.reservations[id];
      if r.window !in q.windows then (q, Refused(PolicyUnavailable))
      else
        var w := q.windows[r.window];
        (q.(windows := q.windows[r.window := Window(w.used + actual, w.reserved - r.tokens)],
            reservations := q.reservations - {id}), Ok(()))
  }

  function Release(q: Quota, id: nat): Quota {
    if id !in q.reservations then q
    else
      var r := q.reservations[id];
      var windows := if r.window !in q.windows then q.windows
                     else
                       var w := q.windows[r.window];
                       q.windows[r.window := w.(reserved := w.reserved - r.tokens)];
      q.(windows := windows, reservations := q.reservations - {id})
  }

  class Ledger {
    var windows: map<WindowKey, Window>
    var reservations: map<nat, Reservation>
    var next: nat

    constructor ()
      ensures Snapshot() == EMPTY
    {
      windows, reservations, next := map[], map[], 0;
    }

    ghost function Snapshot(): Quota
      reads this
    {
      Quota(windows, reservations, next)
    }

    method ReserveTokens(d: Demand, now: int) returns (r: Outcome<Reservation, PolicyError>)
      modifies this
      ensures (Snapshot(), r) == Reserve(old(Snapshot()), d, now)
    {
      if !Valid(d) { return Refused(PolicyUnavailable); }
      var key := WindowAt(d, now);
      var window := if key in windows then windows[key] else Window(0, 0);
      if window.used + window.reserved + d.requested > d.cap { return Refused(QuotaExceeded); }
      windows := windows[key := window.(reserved := window.reserved + d.requested)];
      var reservation := Reservation(next, key, d.requested);
      next := next + 1;
      reservations := reservations[reservation.id := reservation];
      r := Ok(reservation);
    }

    method SettleTokens(id: nat, actual: int) returns (r: Outcome<(), PolicyError>)
      modifies this
      ensures (Snapshot(), r) == Settle(old(Snapshot()), id, actual)
    {
      if id !in reservations || !SafeInteger(actual) || actual < 0 || actual > reservations[id].tokens {
        return Refused(PolicyUnavailable);
      }
      var current := reservations[id];
      if current.window !in windows { return Refused(PolicyUnavailable); }
      var window := windows[current.window];
      windows := windows[current.window := Window(window.used + actual, window.reserved - current.tokens)];
      reservations := reservations - {id};
      r := Ok(());
    }

    method ReleaseTokens(id: nat)
      modifies this
      ensures Snapshot() == Release(old(Snapshot()), id)
    {
      if id !in reservations { return; }
      var current := reservations[id];
      if current.window in windows {
        var window := windows[current.window];
        windows := windows[current.window := window.(reserved := window.reserved - current.tokens)];
      }
      reservations := reservations - {id};
    }
  }

  // ---------------------------------------------------------------- what the ledger keeps

  ghost function TokensOn(q: Quota, w: WindowKey): nat -> int {
    id => if id in q.reservations && q.reservations[id].window == w then q.reservations[id].tokens else 0
  }

  /** The tokens of all outstanding reservations on one window. */
  ghost function Outstanding(q: Quota, w: WindowKey): int {
    Sum(q.reservations.Keys, TokensOn(q, w))
  }

  ghost function UsedOf(q: Quota): WindowKey -> int {
    w => if w in q.windows then q.windows[w].used else 0
  }

  ghost function TotalUsed(q: Quota): int {
    Sum(q.windows.Keys, UsedOf(q))
  }

  ghost predicate Accounted(q: Quota) {
    (forall id :: id in q.reservations ==>
       id < q.next && q.reservations[id].tokens >= 0 && q.reservations[id].window in q.windows)
    && forall w :: w in q.windows ==> q.windows[w].used >= 0 && q.windows[w].reserved == Outstanding(q, w)
  }

  ghost predicate Capped(q: Quota, quotaKey: string, cap: int) {
    forall w :: w in q.windows && w.quotaKey == quotaKey ==> q.windows[w].used + q.windows[w].reserved <= cap
  }

  lemma NothingOutstanding(q: Quota, w: WindowKey)
    requires forall id :: id in q.reservations ==> q.reservations[id].window != w
    ensures Outstanding(q, w) == 0
  {
    SumSame(q.reservations.Keys, TokensOn(q, w), _ => 0);
    SumZero(q.reservations.Keys);
  }

  lemma {:induction false} SumZero<T(!new)>(xs: set<T>)
    ensures Sum(xs, (_: T) => 0) == 0
    decreases |xs|
  {
    if xs != {} {
      var x :| x in xs;
      SumTake(xs, x, (_: T) => 0);
      SumZero(xs - {x});
    }
  }

  lemma Inserted(q: Quota, t: Quota, r: Reservation, w: WindowKey)
    requires r.id !in q.reservations && t.reservations == q.reservations[r.id := r]
    ensures Outstanding(t, w) == Outstanding(q, w) + (if r.window == w then r.tokens else 0)
  {
    assert t.reservations.Keys == q.reservations.Keys + {r.id};
    SumAdd(q.reservations.Keys, r.id, TokensOn(t, w));
    SumSame(q.reservations.Keys, TokensOn(q, w), TokensOn(t, w));
  }

  lemma Removed(q: Quota, t: Quota, id: nat, w: WindowKey)
    requires id in q.reservations && t.reservations == q.reservations - {id}
    ensures Outstanding(t, w) ==
            Outstanding(q, w) - (if q.reservations[id].window == w then q.reservations[id].tokens else 0)
  {
    SumTake(q.reservations.Keys, id, TokensOn(q, w));
    assert t.reservations.Keys == q.reservations.Keys - {id};
    SumSame(t.reservations.Keys, TokensOn(q, w), TokensOn(t, w));
  }

  /** Writing one window moves the total by that window's change. */
  lemma UsedMoves(q: Quota, t: Quota, w: WindowKey)
    requires w in t.windows && t.windows == q.windows[w := t.windows[w]]
    ensures TotalUsed(t) == TotalUsed(q) + t.windows[w].used - Current(q, w).used
  {
    assert t.windows.Keys == q.windows.Keys + {w};
    SumTake(t.windows.Keys, w, UsedOf(t));
    assert t.windows.Keys - {w} == q.windows.Keys - {w};
    SumSame(t.windows.Keys - {w}, UsedOf(q), UsedOf(t));
    if w in q.windows {
      SumTake(q.windows.Keys, w, UsedOf(q));
    } else {
      assert q.windows.Keys - {w} == q.windows.Keys;
    }
  }

  lemma Opened(q: Quota, t: Quota, r: Reservation)
    requires Accounted(q) && r.id == q.next && r.tokens >= 0
    requires t.reservations == q.reservations[r.id := r] && t.next == q.next + 1
    requires var was := Current(q, r.window);
             t.windows == q.windows[r.window := Window(was.used, was.reserved + r.tokens)]
    ensures Accounted(t) && TotalUsed(t) == TotalUsed(q)
  {
    forall w | w in t.windows ensures t.windows[w].used >= 0 && t.windows[w].reserved == Outstanding(t, w) {
      Inserted(q, t, r, w);
      if w !in q.windows { NothingOutstanding(q, w); }
    }
    UsedMoves(q, t, r.window);
  }

  lemma Closed(q: Quota, t: Quota, id: nat, spent: nat)
    requires Accounted(q) && id in q.reservations && t.next == q.next
    requires t.reservations == q.reservations - {id}
    requires var r := q.reservations[id];
             var was := q.windows[r.window];
             t.windows == q.windows[r.window := Window(was.used + spent, was.reserved - r.tokens)]
    ensures Accounted(t) && TotalUsed(t) == TotalUsed(q) + spent
  {
    forall w | w in t.windows ensures t.windows[w].used >= 0 && t.windows[w].reserved == Outstanding(t, w) {
      Removed(q, t, id, w);
    }
    UsedMoves(q, t, q.reservations[id].window);
  }

  lemma ReserveKeeps(q: Quota, d: Demand, now: int)
    requires Accounted(q)
    ensures Accounted(Reserve(q, d, now).0)
    ensures TotalUsed(Reserve(q, d, now).0) == TotalUsed(q)
  {
    var (t, r) := Reserve(q, d, now);
    if r.Ok? { Opened(q, t, r.value); }
  }

  lemma SettleKeeps(q: Quota, id: nat, actual: int)
    requires Accounted(q)
    ensures var (t, r) := Settle(q, id, actual);
            Accounted(t) && TotalUsed(t) == TotalUsed(q) + (if r.Ok? then actual else 0)
  {
    var (t, r) := Settle(q, id, actual);
    if r.Ok? { Closed(q, t, id, actual); }
  }

  lemma ReleaseKeeps(q: Quota, id: nat)
    requires Accounted(q)
    ensures Accounted(Release(q, id)) && TotalUsed(Release(q, id)) == TotalUsed(q)
  {
    if id in q.reservations { Closed(q, Release(q, id), id, 0); }
  }

  // ---------------------------------------------------------------- every history

  datatype Op = Take(demand: Demand, now: int) | Spend(id: nat, actual: int) | Free(id: nat)

  function Perform(q: Quota, op: Op): Quota {
    match op
    case Take(d, now) => Reserve(q, d, now).0
    case Spend(id, actual) => Settle(q, id, actual).0
    case Free(id) => Release(q, id)
  }

  function Run(q: Quota, ops: seq<Op>): Quota
    decreases |ops|
  {
    if ops == [] then q else Run(Perform(q, ops[0]), ops[1..])
  }

  lemma PerformKeeps(q: Quota, op: Op)
    requires Accounted(q)
    ensures Accounted(Perform(q, op))
  {
    match op
    case Take(d, now) => ReserveKeeps(q, d, now);
    case Spend(id, actual) => SettleKeeps(q, id, actual);
    case Free(id) => ReleaseKeeps(q, id);
  }

  lemma PerformKeepsCap(q: Quota, op: Op, quotaKey: string, cap: int)
    requires forall id :: id in q.reservations ==> q.reservations[id].tokens >= 0
    requires Capped(q, quotaKey, cap)
    requires op.Take? && op.demand.quotaKey == quotaKey ==> op.demand.cap <= cap
    ensures Capped(Perform(q, op), quotaKey, cap)
  {
    match op
    case Take(d, now) =>
    case Spend(id, actual) =>
    case Free(id) =>
  }

  /**
   * After any calls in any order, every window's reserved total is the sum of its outstanding
   * reservations, and a key whose reservations never asked for a cap above `cap` stays within it.
   */
  lemma {:induction false} WindowsAreAccounted(q: Quota, ops: seq<Op>, quotaKey: string, cap: int)
    requires Accounted(q) && Capped(q, quotaKey, cap)
    requires forall op :: op in ops && op.Take? && op.demand.quotaKey == quotaKey ==> op.demand.cap <= cap
    ensures Accounted(Run(q, ops)) && Capped(Run(q, ops), quotaKey, cap)
    decreases |ops|
  {
    if ops != [] {
      assert ops[0] in ops;
      PerformKeeps(q, ops[0]);
      PerformKeepsCap(q, ops[0], quotaKey, cap);
      forall op | op in ops[1..] && op.Take? && op.demand.quotaKey == quotaKey ensures op.demand.cap <= cap {
        assert op in ops;
      }
      WindowsAreAccounted(Perform(q, ops[0]), ops[1..], quotaKey, cap);
    }
  }

  /** From empty, with no starting assumption; outstanding tokens are never negative. */
  lemma QuotaHolds(ops: seq<Op>, quotaKey: string, cap: int, w: WindowKey)
    requires forall op :: op in ops && op.Take? && op.demand.quotaKey == quotaKey ==> op.demand.cap <= cap
    requires w in Run(EMPTY, ops).windows && w.quotaKey == quotaKey
    ensures var t := Run(EMPTY, ops);
            0 <= t.windows[w].used && 0 <= t.windows[w].reserved == Outstanding(t, w)
            && t.windows[w].used + t.windows[w].reserved <= cap
  {
    WindowsAreAccounted(EMPTY, ops, quotaKey, cap);
    var t := Run(EMPTY, ops);
    SumNonNegative(t.reservations.Keys, TokensOn(t, w));
  }

  /** An identifier handed out earlier and no longer outstanding can never be settled again. */
  lemma {:induction false} SpentForGood(q: Quota, ops: seq<Op>, id: nat, actual: int)
    requires id < q.next && id !in q.reservations
    ensures id !in Run(q, ops).reservations
    ensures Settle(Run(q, ops), id, actual) == (Run(q, ops), Refused(PolicyUnavailable))
    ensures Release(Run(q, ops), id) == Run(q, ops)
    decreases |ops|
  {
    if ops != [] { SpentForGood(Perform(q, ops[0]), ops[1..], id, actual); }
  }

  /** `k * m` is the start of exactly one interval of length `m` around `n`. */
  lemma FloorIsUnique(n: int, m: int, k: int)
    requires m > 0
    ensures n / m == k <==> k * m <= n < k * m + m
  {
    var d := n / m;
    assert n == d * m + n % m;
    if d < k { assert (d + 1) * m <= k * m; }
    if k < d { assert (k + 1) * m <= d * m; }
  }

  /** With one window length, an instant is charged to the only window that contains it. */
  lemma WindowsPartitionTime(d: Demand, now: int, later: int)
    requires Valid(d)
    ensures WindowAt(d, now).start <= now < WindowAt(d, now).start + d.windowMs
    ensures WindowAt(d, now) == WindowAt(d, later) <==>
            WindowAt(d, now).start <= later < WindowAt(d, now).start + d.windowMs
  {
    FloorIsUnique(now, d.windowMs, now / d.windowMs);
    FloorIsUnique(later, d.windowMs, now / d.windowMs);
    FloorIsUnique(now, d.windowMs, later / d.windowMs);
    FloorIsUnique(later, d.windowMs, later / d.windowMs);
  }
}
