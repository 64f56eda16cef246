/**
 * The exact account of a walk: the batches it ran, the stretch of the listing each of them covered, and for every post
 * how often it was returned, and by which batches.
 */
module PostWalkAccounts {
  import opened Common
  import opened PostPaging
  import opened PostWalks

  /** One batch that was run: its number among all batches offered, the stores it met, its cursor and its limit. */
  datatype Stretch = Stretch(batch: nat, world: World, before: Option<Position>, limit: nat)

  ghost function Got(f: Filters, actor: Option<nat>, t: Stretch): Result {
    Batch(f, actor, t.before, t.world, t.limit)
  }

  ghost function CallStretches(f: Filters, actor: Option<nat>, before: Option<Position>, k: nat, ws: seq<World>,
                               base: nat): seq<Stretch>
    decreases |ws|
  {
    if ws == [] || k >= f.limit then []
    else
      var t := Stretch(base, ws[0], before, f.limit - k);
      var b := Got(f, actor, t);
      [t] + if b.next.None? then [] else CallStretches(f, actor, b.next, k + |b.ids|, ws[1..], base + 1)
  }

  ghost function Stretches(f: Filters, actor: Option<nat>, cursor: Option<Position>, calls: seq<seq<World>>,
                           base: nat): seq<Stretch>
    decreases |calls|
  {
    if calls == [] then []
    else
      var r := Refill(f, actor, cursor, None, 0, calls[0]);
      CallStretches(f, actor, cursor, 0, calls[0], base)
      + if r.next.None? then [] else Stretches(f, actor, r.next, calls[1..], base + |calls[0]|)
  }

  ghost function Joined(f: Filters, actor: Option<nat>, ts: seq<Stretch>): seq<nat> {
    if ts == [] then [] else Got(f, actor, ts[0]).ids + Joined(f, actor, ts[1..])
  }

  lemma {:induction false} JoinedAdds(f: Filters, actor: Option<nat>, ts: seq<Stretch>, us: seq<Stretch>)
    ensures Joined(f, actor, ts + us) == Joined(f, actor, ts) + Joined(f, actor, us)
  {
    if ts == [] {
      assert ts + us == us;
    } else {
      assert (ts + us)[1..] == ts[1..] + us;
      JoinedAdds(f, actor, ts[1..], us);
    }
  }

  // ---------------------------------------------------------------- the batches of a walk

  /** Where a run of stretches that began at `before` has got to. */
  ghost function End(f: Filters, actor: Option<nat>, before: Option<Position>, ts: seq<Stretch>): Option<Position>
    decreases |ts|
  {
    if ts == [] then before else End(f, actor, Got(f, actor, ts[0]).next, ts[1..])
  }

  /** Each stretch begins where the one before it ended; only the last may reach the end of the listing. */
  ghost predicate Chain(f: Filters, actor: Option<nat>, before: Option<Position>, ts: seq<Stretch>)
    decreases |ts|
  {
    ts != [] ==>
      && ts[0].before == before && ts[0].limit >= 1 && (Got(f, actor, ts[0]).next.None? ==> |ts| == 1)
      && Chain(f, actor, Got(f, actor, ts[0]).next, ts[1..])
  }

  /** The stretches are of these batches, in order. */
  predicate RunOn(ts: seq<Stretch>, ws: seq<World>, base: nat) {
    && (forall i :: 0 <= i < |ts| ==> base <= ts[i].batch < base + |ws| && ts[i].world == ws[ts[i].batch - base])
    && forall i, j :: 0 <= i < j < |ts| ==> ts[i].batch < ts[j].batch
  }

  lemma {:induction false} ChainJoins(f: Filters, actor: Option<nat>, before: Option<Position>, ts: seq<Stretch>,
                                      us: seq<Stretch>)
    requires Chain(f, actor, before, ts) && Chain(f, actor, End(f, actor, before, ts), us)
    requires ts != [] && End(f, actor, before, ts).None? ==> us == []
    ensures Chain(f, actor, before, ts + us)
    ensures End(f, actor, before, ts + us) == End(f, actor, End(f, actor, before, ts), us)
    decreases |ts|
  {
    if ts == [] {
      assert ts + us == us;
    } else {
      assert (ts + us)[1..] == ts[1..] + us;
      ChainJoins(f, actor, Got(f, actor, ts[0]).next, ts[1..], us);
    }
  }

  lemma RunOnJoins(ts: seq<Stretch>, us: seq<Stretch>, ws: seq<World>, vs: seq<World>, base: nat)
    requires RunOn(ts, ws, base) && RunOn(us, vs, base + |ws|)
    ensures RunOn(ts + us, ws + vs, base)
  {}

  lemma RunsOnAfter(ts: seq<Stretch>, ws: seq<World>, base: nat)
    requires ts != [] && ws != [] && ts[0].batch == base && ts[0].world == ws[0]
    requires RunOn(ts[1..], ws[1..], base + 1)
    ensures RunOn(ts, ws, base)
  {
    assert RunOn([ts[0]], [ws[0]], base);
    assert ts == [ts[0]] + ts[1..] && ws == [ws[0]] + ws[1..];
    RunOnJoins([ts[0]], ts[1..], [ws[0]], ws[1..], base);
  }

  lemma CallStarts(f: Filters, actor: Option<nat>, before: Option<Position>, k: nat, ws: seq<World>, base: nat,
                   ts: seq<Stretch>)
    requires ts == CallStretches(f, actor, before, k, ws, base) && ts != []
    ensures k < f.limit && ws != [] && ts[0] == Stretch(base, ws[0], before, f.limit - k)
    ensures var b := Got(f, actor, ts[0]);
            ts[1..] == if b.next.None? then [] else CallStretches(f, actor, b.next, k + |b.ids|, ws[1..], base + 1)
  {}

  lemma ChainStarts(f: Filters, actor: Option<nat>, before: Option<Position>, ts: seq<Stretch>)
    requires ts != [] && ts[0].before == before && ts[0].limit >= 1
    requires Got(f, actor, ts[0]).next.None? ==> ts[1..] == []
    requires Chain(f, actor, Got(f, actor, ts[0]).next, ts[1..])
    ensures Chain(f, actor, before, ts)
  {}

  lemma {:induction false} CallChains(f: Filters, actor: Option<nat>, before: Option<Position>, k: nat, ws: seq<World>,
                                      base: nat, ts: seq<Stretch>)
    requires ts == CallStretches(f, actor, before, k, ws, base)
    ensures Chain(f, actor, before, ts)
    decreases |ws|
  {
    if ts != [] {
      var b := Got(f, actor, ts[0]);
      CallStarts(f, actor, before, k, ws, base, ts);
      if b.next.Some? {
        CallChains(f, actor, b.next, k + |b.ids|, ws[1..], base + 1, ts[1..]);
      }
      ChainStarts(f, actor, before, ts);
    }
  }

  lemma {:induction false} CallRunsOn(f: Filters, actor: Option<nat>, before: Option<Position>, k: nat, ws: seq<World>,
                                      base: nat, ts: seq<Stretch>)
    requires ts == CallStretches(f, actor, before, k, ws, base)
    ensures RunOn(ts, ws, base)
    decreases |ws|
  {
    if ts != [] {
      var b := Got(f, actor, ts[0]);
      CallStarts(f, actor, before, k, ws, base, ts);
      if b.next.Some? {
        CallRunsOn(f, actor, b.next, k + |b.ids|, ws[1..], base + 1, ts[1..]);
      }
      RunsOnAfter(ts, ws, base);
    }
  }

  /** What the batches of a call return, joined, is what the call returns. */
  ghost predicate JoinedAs(f: Filters, actor: Option<nat>, before: Option<Position>, k: nat, ws: seq<World>,
                           ts: seq<Stretch>)
  {
    Refill(f, actor, before, before, k, ws) == Result(Joined(f, actor, ts), End(f, actor, before, ts))
  }

  lemma NothingJoined(f: Filters, actor: Option<nat>, before: Option<Position>, k: nat, ws: seq<World>)
    requires ws == [] || k >= f.limit
    ensures JoinedAs(f, actor, before, k, ws, [])
  {}

  lemma JoinedStarts(f: Filters, actor: Option<nat>, before: Option<Position>, t: Stretch, us: seq<Stretch>)
    ensures Joined(f, actor, [t] + us) == Got(f, actor, t).ids + Joined(f, actor, us)
    ensures End(f, actor, before, [t] + us) == End(f, actor, Got(f, actor, t).next, us)
  {
    assert ([t] + us)[1..] == us;
  }

  lemma JoinedEnds(f: Filters, actor: Option<nat>, before: Option<Position>, k: nat, ws: seq<World>, t: Stretch)
    requires ws != [] && k < f.limit && Got(f, actor, t).next.None?
    requires Got(f, actor, t) == Batch(f, actor, before, ws[0], f.limit - k)
    ensures JoinedAs(f, actor, before, k, ws, [t])
  {
    assert [t] + [] == [t];
    JoinedStarts(f, actor, before, t, []);
    StopsHere(f, actor, before, before, k, ws, Got(f, actor, t));
  }

  lemma JoinedGoesOn(f: Filters, actor: Option<nat>, before: Option<Position>, k: nat, ws: seq<World>, t: Stretch,
                     us: seq<Stretch>)
    requires ws != [] && k < f.limit && Got(f, actor, t).next.Some?
    requires Got(f, actor, t) == Batch(f, actor, before, ws[0], f.limit - k)
    requires JoinedAs(f, actor, Got(f, actor, t).next, k + |Got(f, actor, t).ids|, ws[1..], us)
    ensures JoinedAs(f, actor, before, k, ws, [t] + us)
  {
    JoinedStarts(f, actor, before, t, us);
    GoesOn(f, actor, before, before, k, ws, Got(f, actor, t));
  }

  lemma StretchesStart(f: Filters, actor: Option<nat>, before: Option<Position>, k: nat, ws: seq<World>, base: nat,
                       t: Stretch, b: Result)
    requires ws != [] && k < f.limit && t == Stretch(base, ws[0], before, f.limit - k) && b == Got(f, actor, t)
    ensures CallStretches(f, actor, before, k, ws, base)
            == [t] + if b.next.None? then [] else CallStretches(f, actor, b.next, k + |b.ids|, ws[1..], base + 1)
  {}

  lemma {:induction false} CallIsJoined(f: Filters, actor: Option<nat>, before: Option<Position>, k: nat,
                                        ws: seq<World>, base: nat)
    ensures JoinedAs(f, actor, before, k, ws, CallStretches(f, actor, before, k, ws, base))
    decreases |ws|
  {
    if ws == [] || k >= f.limit {
      NothingJoined(f, actor, before, k, ws);
    } else {
      var t := Stretch(base, ws[0], before, f.limit - k);
      var b := Got(f, actor, t);
      StretchesStart(f, actor, before, k, ws, base, t, b);
      if b.next.Some? {
        CallIsJoined(f, actor, b.next, k + |b.ids|, ws[1..], base + 1);
        JoinedGoesOn(f, actor, before, k, ws, t, CallStretches(f, actor, b.next, k + |b.ids|, ws[1..], base + 1));
      } else {
        JoinedEnds(f, actor, before, k, ws, t);
        assert [t] + [] == [t];
      }
    }
  }

  /** Where a call that runs at all would resume does not matter. */
  lemma ResumeIsIdle(f: Filters, actor: Option<nat>, before: Option<Position>, resume: Option<Position>, k: nat,
                     ws: seq<World>)
    requires ws != [] && k < f.limit
    ensures Refill(f, actor, before, resume, k, ws) == Refill(f, actor, before, before, k, ws)
  {}

  /** The stretches are exactly the batches that produced this result. */
  ghost predicate Accounts(f: Filters, actor: Option<nat>, before: Option<Position>, r: Result, ts: seq<Stretch>,
                           ws: seq<World>, base: nat) {
    && r == Result(Joined(f, actor, ts), End(f, actor, before, ts))
    && Chain(f, actor, before, ts) && RunOn(ts, ws, base)
  }

  lemma AccountsJoin(f: Filters, actor: Option<nat>, before: Option<Position>, a: Result, b: Result,
                     ts: seq<Stretch>, us: seq<Stretch>, ws: seq<World>, vs: seq<World>, base: nat)
    requires Accounts(f, actor, before, a, ts, ws, base) && (a.next.None? ==> us == [])
    requires Accounts(f, actor, a.next, b, us, vs, base + |ws|)
    ensures Accounts(f, actor, before, Result(a.ids + b.ids, b.next), ts + us, ws + vs, base)
  {
    JoinedAdds(f, actor, ts, us);
    ChainJoins(f, actor, before, ts, us);
    RunOnJoins(ts, us, ws, vs, base);
  }

  lemma CallAccount(f: Filters, actor: Option<nat>, before: Option<Position>, ws: seq<World>, base: nat)
    requires ws != [] && f.limit >= 1
    ensures Accounts(f, actor, before, Refill(f, actor, before, None, 0, ws),
                     CallStretches(f, actor, before, 0, ws, base), ws, base)
  {
    var ts := CallStretches(f, actor, before, 0, ws, base);
    ResumeIsIdle(f, actor, before, None, 0, ws);
    CallIsJoined(f, actor, before, 0, ws, base);
    CallChains(f, actor, before, 0, ws, base, ts);
    CallRunsOn(f, actor, before, 0, ws, base, ts);
  }

  /** A walk is its batches one after another, each going on from where the last one stopped. */
  lemma {:induction false} WalkAccount(f: Filters, actor: Option<nat>, cursor: Option<Position>,
                                       calls: seq<seq<World>>, base: nat)
    requires Served(f, calls)
    ensures var w := Walk(f, actor, cursor, calls);
            Accounts(f, actor, cursor, Result(w.ids, w.end), Stretches(f, actor, cursor, calls, base), Flatten(calls),
                     base)
    decreases |calls|
  {
    if calls != [] {
      var r, later := Refill(f, actor, cursor, None, 0, calls[0]), calls[1..];
      var ts := CallStretches(f, actor, cursor, 0, calls[0], base);
      CallAccount(f, actor, cursor, calls[0], base);
      if r.next.None? {
        AccountsJoin(f, actor, cursor, r, Result([], None), ts, [], calls[0], Flatten(later), base);
        assert r.ids + [] == r.ids;
      } else {
        var w := Walk(f, actor, r.next, later);
        WalkAccount(f, actor, r.next, later, base + |calls[0]|);
        AccountsJoin(f, actor, cursor, r, Result(w.ids, w.end), ts,
                     Stretches(f, actor, r.next, later, base + |calls[0]|), calls[0], Flatten(later), base);
      }
    }
  }

  // ---------------------------------------------------------------- one batch, exactly

  /** The post is available at the batch and its place lies in the batch's stretch. */
  ghost predicate Holds(f: Filters, actor: Option<nat>, t: Stretch, x: nat) {
    Available(f, actor, t.world, x)
    && Between(f, PositionOf(f, t.world.scan, x), t.before, Got(f, actor, t).next)
  }

  /** A batch returns exactly the available posts of its stretch. */
  lemma BatchIsExact(f: Filters, actor: Option<nat>, t: Stretch, x: nat)
    requires t.limit >= 1
    ensures x in Got(f, actor, t).ids <==> Holds(f, actor, t, x)
  {
    var b := Got(f, actor, t);
    var ts := BatchTrace(f, actor, t.before, t.world, t.limit);
    if x in b.ids {
      var i :| 0 <= i < |b.ids| && b.ids[i] == x;
      assert StopOk(f, actor, [t.world], ts[i]);
    }
    if Holds(f, actor, t, x) {
      BatchFinds(f, actor, t.before, t.world, t.limit, x);
      if b.next.Some? { AdvanceIsNormal(f, actor, t.before, [t.world], b.next); }
    }
  }

  lemma BatchIsDistinct(f: Filters, actor: Option<nat>, t: Stretch)
    ensures var ids := Got(f, actor, t).ids;
            forall i, j :: 0 <= i < j < |ids| ==> ids[i] != ids[j]
  {
    var ids := Got(f, actor, t).ids;
    var ts := BatchTrace(f, actor, t.before, t.world, t.limit);
    forall i, j | 0 <= i < j < |ids| ensures ids[i] != ids[j] {
      assert StopOk(f, actor, [t.world], ts[i]) && StopOk(f, actor, [t.world], ts[j]);
      assert Precedes(ts[i].place, ts[j].place);
    }
  }

  lemma {:induction false} DistinctCount(ids: seq<nat>, x: nat)
    requires forall i, j :: 0 <= i < j < |ids| ==> ids[i] != ids[j]
    ensures multiset(ids)[x] == if x in ids then 1 else 0
  {
    if ids != [] {
      assert ids == [ids[0]] + ids[1..];
      DistinctCount(ids[1..], x);
    }
  }

  // ---------------------------------------------------------------- how often a post is returned

  ghost function Times(f: Filters, actor: Option<nat>, ts: seq<Stretch>, x: nat): nat {
    if ts == [] then 0 else (if Holds(f, actor, ts[0], x) then 1 else 0) + Times(f, actor, ts[1..], x)
  }

  lemma {:induction false} JoinedCounts(f: Filters, actor: Option<nat>, before: Option<Position>, ts: seq<Stretch>,
                                        x: nat)
    requires Chain(f, actor, before, ts)
    ensures multiset(Joined(f, actor, ts))[x] == Times(f, actor, ts, x)
    decreases |ts|
  {
    if ts != [] {
      BatchIsExact(f, actor, ts[0], x);
      BatchIsDistinct(f, actor, ts[0]);
      DistinctCount(Got(f, actor, ts[0]).ids, x);
      JoinedCounts(f, actor, Got(f, actor, ts[0]).next, ts[1..], x);
    }
  }

  lemma {:induction false} TimesOnce(f: Filters, actor: Option<nat>, ts: seq<Stretch>, x: nat)
    ensures Times(f, actor, ts, x) >= 1 <==> exists i :: 0 <= i < |ts| && Holds(f, actor, ts[i], x)
  {
    if ts != [] {
      TimesOnce(f, actor, ts[1..], x);
      if i :| 0 <= i < |ts[1..]| && Holds(f, actor, ts[1..][i], x) { assert Holds(f, actor, ts[i + 1], x); }
      if i :| 1 <= i < |ts| && Holds(f, actor, ts[i], x) { assert Holds(f, actor, ts[1..][i - 1], x); }
    }
  }

  /** Two different stretches hold the post. */
  ghost predicate HeldTwice(f: Filters, actor: Option<nat>, ts: seq<Stretch>, x: nat) {
    exists i, j :: 0 <= i < j < |ts| && Holds(f, actor, ts[i], x) && Holds(f, actor, ts[j], x)
  }

  lemma {:induction false} TwiceIsHeld(f: Filters, actor: Option<nat>, ts: seq<Stretch>, x: nat)
    requires Times(f, actor, ts, x) >= 2
    ensures HeldTwice(f, actor, ts, x)
  {
    var rest := ts[1..];
    if Times(f, actor, rest, x) >= 2 {
      TwiceIsHeld(f, actor, rest, x);
      var i, j :| 0 <= i < j < |rest| && Holds(f, actor, rest[i], x) && Holds(f, actor, rest[j], x);
      assert Holds(f, actor, ts[i + 1], x) && Holds(f, actor, ts[j + 1], x);
    } else {
      TimesOnce(f, actor, rest, x);
      var j :| 0 <= j < |rest| && Holds(f, actor, rest[j], x);
      assert Holds(f, actor, ts[0], x) && Holds(f, actor, ts[j + 1], x);
    }
  }

  lemma {:induction false} HeldIsTwice(f: Filters, actor: Option<nat>, ts: seq<Stretch>, x: nat, i: nat, j: nat)
    requires i < j < |ts| && Holds(f, actor, ts[i], x) && Holds(f, actor, ts[j], x)
    ensures Times(f, actor, ts, x) >= 2
    decreases |ts|
  {
    var rest := ts[1..];
    assert rest[j - 1] == ts[j];
    if i > 0 {
      HeldIsTwice(f, actor, rest, x, i - 1, j - 1);
    } else {
      TimesOnce(f, actor, rest, x);
    }
  }

  /**
   * However the stores change, a walk returns a post once for each of its batches at which the post is available with
   * its place in the batch's stretch; the stretches meet, from the first cursor to where the walk stands.
   */
  lemma WalkReturnsExactly(f: Filters, actor: Option<nat>, cursor: Option<Position>, calls: seq<seq<World>>, x: nat)
    requires Served(f, calls)
    ensures var w, ts := Walk(f, actor, cursor, calls), Stretches(f, actor, cursor, calls, 0);
            && multiset(w.ids)[x] == Times(f, actor, ts, x)
            && Chain(f, actor, cursor, ts) && w.end == End(f, actor, cursor, ts) && RunOn(ts, Flatten(calls), 0)
  {
    WalkAccount(f, actor, cursor, calls, 0);
    JoinedCounts(f, actor, cursor, Stretches(f, actor, cursor, calls, 0), x);
  }

  /** A walk misses a post iff at each of its batches the post is unavailable or its place is outside the stretch. */
  lemma WalkMissesExactly(f: Filters, actor: Option<nat>, cursor: Option<Position>, calls: seq<seq<World>>, x: nat)
    requires Served(f, calls)
    ensures var ts := Stretches(f, actor, cursor, calls, 0);
            x !in Walk(f, actor, cursor, calls).ids <==> forall i :: 0 <= i < |ts| ==> !Holds(f, actor, ts[i], x)
  {
    WalkReturnsExactly(f, actor, cursor, calls, x);
    TimesOnce(f, actor, Stretches(f, actor, cursor, calls, 0), x);
    assert x in Walk(f, actor, cursor, calls).ids <==> multiset(Walk(f, actor, cursor, calls).ids)[x] >= 1;
  }

  /** A walk repeats a post iff two of its batches hold it. */
  lemma WalkRepeatsExactly(f: Filters, actor: Option<nat>, cursor: Option<Position>, calls: seq<seq<World>>, x: nat)
    requires Served(f, calls)
    ensures var ts := Stretches(f, actor, cursor, calls, 0);
            multiset(Walk(f, actor, cursor, calls).ids)[x] >= 2 <==> HeldTwice(f, actor, ts, x)
  {
    var ts := Stretches(f, actor, cursor, calls, 0);
    WalkReturnsExactly(f, actor, cursor, calls, x);
    if Times(f, actor, ts, x) >= 2 {
      TwiceIsHeld(f, actor, ts, x);
    } else if HeldTwice(f, actor, ts, x) {
      var i, j :| 0 <= i < j < |ts| && Holds(f, actor, ts[i], x) && Holds(f, actor, ts[j], x);
      HeldIsTwice(f, actor, ts, x, i, j);
    }
  }

  // ---------------------------------------------------------------- the two batches of a repetition

  /** What lies past the cursor of a later stretch lies past that of an earlier one. */
  lemma {:induction false} PastLaterCursor(f: Filters, actor: Option<nat>, before: Option<Position>, ts: seq<Stretch>,
                                           j: nat, p: Position)
    requires Chain(f, actor, before, ts) && j < |ts| && Below(f, p, ts[j].before)
    ensures Below(f, p, before)
    decreases |ts|
  {
    if j > 0 {
      var next := Got(f, actor, ts[0]).next;
      PastLaterCursor(f, actor, next, ts[1..], j - 1, p);
      var us := BatchTrace(f, actor, before, ts[0].world, ts[0].limit);
      AdvanceIsNormal(f, actor, before, [ts[0].world], next);
      BelowBelow(f, p, next.value, before);
    }
  }

  /** A post held by two stretches stands strictly further down at the later one. */
  lemma {:induction false} HeldTwiceFell(f: Filters, actor: Option<nat>, before: Option<Position>, ts: seq<Stretch>,
                                         i: nat, j: nat, x: nat)
    requires Chain(f, actor, before, ts) && i < j < |ts|
    requires Holds(f, actor, ts[i], x) && Holds(f, actor, ts[j], x)
    ensures Precedes(PositionOf(f, ts[i].world.scan, x), PositionOf(f, ts[j].world.scan, x))
    decreases |ts|
  {
    var next := Got(f, actor, ts[0]).next;
    if i > 0 {
      HeldTwiceFell(f, actor, next, ts[1..], i - 1, j - 1, x);
    } else {
      PastLaterCursor(f, actor, next, ts[1..], j - 1, PositionOf(f, ts[j].world.scan, x));
      var us := BatchTrace(f, actor, before, ts[0].world, ts[0].limit);
      AdvanceIsNormal(f, actor, before, [ts[0].world], next);
    }
  }

  /** The stretch that returned the post at position m. */
  ghost function Source(f: Filters, actor: Option<nat>, ts: seq<Stretch>, m: nat): nat
    requires m < |Joined(f, actor, ts)|
    decreases |ts|
  {
    var n := |Got(f, actor, ts[0]).ids|;
    if m < n then 0 else 1 + Source(f, actor, ts[1..], m - n)
  }

  lemma {:induction false} SourceReturns(f: Filters, actor: Option<nat>, ts: seq<Stretch>, m: nat)
    requires m < |Joined(f, actor, ts)|
    ensures var i := Source(f, actor, ts, m);
            i < |ts| && Joined(f, actor, ts)[m] in Got(f, actor, ts[i]).ids
    decreases |ts|
  {
    var n := |Got(f, actor, ts[0]).ids|;
    if m >= n { SourceReturns(f, actor, ts[1..], m - n); }
  }

  lemma {:induction false} SourcesInOrder(f: Filters, actor: Option<nat>, ts: seq<Stretch>, m: nat, n: nat)
    requires m < n < |Joined(f, actor, ts)| && Joined(f, actor, ts)[m] == Joined(f, actor, ts)[n]
    ensures Source(f, actor, ts, m) < Source(f, actor, ts, n)
    decreases |ts|
  {
    var ids := Got(f, actor, ts[0]).ids;
    if m >= |ids| {
      SourcesInOrder(f, actor, ts[1..], m - |ids|, n - |ids|);
    } else if n < |ids| {
      BatchIsDistinct(f, actor, ts[0]);
    }
  }

  lemma ChainLimits(f: Filters, actor: Option<nat>, before: Option<Position>, ts: seq<Stretch>, i: nat)
    requires Chain(f, actor, before, ts) && i < |ts|
    ensures ts[i].limit >= 1
    decreases |ts|
  {
    if i > 0 { ChainLimits(f, actor, Got(f, actor, ts[0]).next, ts[1..], i - 1); }
  }

  /**
   * A post is returned twice only if its usefulness count fell between the two batches that returned it; sorted by
   * newest, never.
   */
  lemma RepeatsNeedFallingCounts(f: Filters, actor: Option<nat>, cursor: Option<Position>, calls: seq<seq<World>>,
                                 born: nat -> int, m: nat, n: nat)
    requires Served(f, calls) && Born(Flatten(calls), born)
    requires m < n < |Walk(f, actor, cursor, calls).ids|
    requires Walk(f, actor, cursor, calls).ids[m] == Walk(f, actor, cursor, calls).ids[n]
    ensures var got, ts := Walk(f, actor, cursor, calls).ids, Stretches(f, actor, cursor, calls, 0);
            && got == Joined(f, actor, ts)
            && var i, j := Source(f, actor, ts, m), Source(f, actor, ts, n);
               && i < |ts| && j < |ts| && got[m] in Got(f, actor, ts[i]).ids && got[m] in Got(f, actor, ts[j]).ids
               && CountFell(f, Flatten(calls), got[m], ts[i].batch, ts[j].batch)
  {
    var w, ts := Walk(f, actor, cursor, calls), Stretches(f, actor, cursor, calls, 0);
    WalkAccount(f, actor, cursor, calls, 0);
    var x, i, j := w.ids[m], Source(f, actor, ts, m), Source(f, actor, ts, n);
    SourceReturns(f, actor, ts, m);
    SourceReturns(f, actor, ts, n);
    SourcesInOrder(f, actor, ts, m, n);
    BatchesFell(f, actor, cursor, Flatten(calls), born, ts, i, j, x);
  }

  lemma BatchesFell(f: Filters, actor: Option<nat>, cursor: Option<Position>, ws: seq<World>, born: nat -> int,
                    ts: seq<Stretch>, i: nat, j: nat, x: nat)
    requires Born(ws, born) && Chain(f, actor, cursor, ts) && RunOn(ts, ws, 0) && i < j < |ts|
    requires x in Got(f, actor, ts[i]).ids && x in Got(f, actor, ts[j]).ids
    ensures CountFell(f, ws, x, ts[i].batch, ts[j].batch)
  {
    ChainLimits(f, actor, cursor, ts, i);
    ChainLimits(f, actor, cursor, ts, j);
    BatchIsExact(f, actor, ts[i], x);
    BatchIsExact(f, actor, ts[j], x);
    HeldTwiceFell(f, actor, cursor, ts, i, j, x);
    SameBirth(f, ws, born, x, ts[i].batch);
    SameBirth(f, ws, born, x, ts[j].batch);
  }

  lemma FellSomewhere(f: Filters, actor: Option<nat>, cursor: Option<Position>, calls: seq<seq<World>>,
                      born: nat -> int, m: nat, n: nat) returns (i: nat, j: nat)
    requires Served(f, calls) && Born(Flatten(calls), born)
    requires m < n < |Walk(f, actor, cursor, calls).ids|
    requires Walk(f, actor, cursor, calls).ids[m] == Walk(f, actor, cursor, calls).ids[n]
    ensures CountFell(f, Flatten(calls), Walk(f, actor, cursor, calls).ids[m], i, j)
  {
    var ts := Stretches(f, actor, cursor, calls, 0);
    RepeatsNeedFallingCounts(f, actor, cursor, calls, born, m, n);
    i, j := ts[Source(f, actor, ts, m)].batch, ts[Source(f, actor, ts, n)].batch;
  }

  ghost predicate NoCountFalls(f: Filters, ws: seq<World>) {
    forall x, i, j :: !CountFell(f, ws, x, i, j)
  }

  lemma NoneFell(f: Filters, ws: seq<World>, x: nat, i: nat, j: nat)
    requires f.sort == Newest || NoCountFalls(f, ws)
    ensures !CountFell(f, ws, x, i, j)
  {}

  /** Sorted by newest, or while no count falls, no post is returned twice. */
  lemma WalkNeverRepeats(f: Filters, actor: Option<nat>, cursor: Option<Position>, calls: seq<seq<World>>,
                         born: nat -> int)
    requires Served(f, calls) && Born(Flatten(calls), born)
    requires f.sort == Newest || NoCountFalls(f, Flatten(calls))
    ensures var got := Walk(f, actor, cursor, calls).ids;
            forall m, n :: 0 <= m < n < |got| ==> got[m] != got[n]
  {
    var got := Walk(f, actor, cursor, calls).ids;
    forall m, n | 0 <= m < n < |got| ensures got[m] != got[n] {
      if got[m] == got[n] {
        var i, j := FellSomewhere(f, actor, cursor, calls, born, m, n);
        NoneFell(f, Flatten(calls), got[m], i, j);
      }
    }
  }
}
