/**
 * Following the cursors from call to call, while posts come, change, are found more or less helpful, and go between
 * any two repository calls.
 */
module PostWalks {
  import opened Common
  import opened PostPaging

  /** `end` is the cursor still to follow, unless the walk is finished. */
  datatype Walked = Walked(ids: seq<nat>, finished: bool, end: Option<Position>)

  /** The posts of successive calls, each starting at the cursor the one before it returned. */
  ghost function Walk(f: Filters, actor: Option<nat>, cursor: Option<Position>, calls: seq<seq<World>>): Walked
    decreases |calls|
  {
    if calls == [] then Walked([], false, cursor)
    else
      var r := Refill(f, actor, cursor, None, 0, calls[0]);
      if r.next.None? then Walked(r.ids, true, None)
      else
        var rest := Walk(f, actor, r.next, calls[1..]);
        Walked(r.ids + rest.ids, rest.finished, rest.end)
  }

  /** Every call is made of as many batches as the service allows, for at least one post. */
  predicate Served(f: Filters, calls: seq<seq<World>>) {
    f.limit >= 1 && forall i :: 0 <= i < |calls| ==> |calls[i]| == MAX_BATCHES
  }

  function Flatten(calls: seq<seq<World>>): seq<World> {
    if calls == [] then [] else calls[0] + Flatten(calls[1..])
  }

  // ---------------------------------------------------------------- places and traces

  /** A post that the scan selects, at its place. */
  predicate Placed(f: Filters, actor: Option<nat>, s: Store, p: Position) {
    Matches(f, actor, s, p.id) && PositionOf(f, s, p.id) == p
  }

  predicate Available(f: Filters, actor: Option<nat>, w: World, x: nat) {
    Matches(f, actor, w.scan, x) && Shown(f, actor, w, x)
  }

  /** A returned post: the batch that returned it and the place it had then. */
  datatype Stop = Stop(batch: nat, place: Position)

  predicate StopOk(f: Filters, actor: Option<nat>, ws: seq<World>, t: Stop) {
    t.batch < |ws| && Placed(f, actor, ws[t.batch].scan, t.place) && Shown(f, actor, ws[t.batch], t.place.id)
  }

  /** Later stops are at strictly later places, and at no earlier batch. */
  predicate Descending(ts: seq<Stop>) {
    forall i, j :: 0 <= i < j < |ts| ==> Precedes(ts[i].place, ts[j].place) && ts[i].batch <= ts[j].batch
  }

  /** From just after one position to another one inclusive, or to the end. */
  predicate Between(f: Filters, p: Position, before: Option<Position>, next: Option<Position>) {
    Below(f, p, before) && (next.None? || !Precedes(next.value, p))
  }

  /** Where and when each returned post was scanned. */
  predicate Traces(f: Filters, actor: Option<nat>, before: Option<Position>, ws: seq<World>, r: Result, ts: seq<Stop>) {
    && |ts| == |r.ids| && Descending(ts)
    && forall i :: 0 <= i < |ts| ==>
         ts[i].place.id == r.ids[i] && Between(f, ts[i].place, before, r.next) && StopOk(f, actor, ws, ts[i])
  }

  /** The continuation is the place of a post that some batch selected, strictly after the cursor. */
  predicate Advances(f: Filters, actor: Option<nat>, before: Option<Position>, ws: seq<World>, next: Option<Position>) {
    next.Some? ==>
      Below(f, next.value, before) && exists i :: 0 <= i < |ws| && Placed(f, actor, ws[i].scan, next.value)
  }

  // ---------------------------------------------------------------- one batch

  lemma PageScans(f: Filters, actor: Option<nat>, s: Store, before: Option<Position>, limit: nat)
    ensures var items := Query(f, actor, s, before, None, limit).items;
            && (forall i :: 0 <= i < |items| ==> Placed(f, actor, s, items[i]) && Below(f, items[i], before))
            && forall i, j :: 0 <= i < j < |items| ==> Precedes(items[i], items[j])
  {
    var ws := Listing(Selected(f, actor, s, before, None));
    forall i | 0 <= i < |ws| ensures Placed(f, actor, s, ws[i]) && Below(f, ws[i], before) {
      assert ws[i] in Selected(f, actor, s, before, None);
    }
  }

  /** A selected post is on the page or after it. */
  lemma PageReaches(f: Filters, actor: Option<nat>, s: Store, before: Option<Position>, limit: nat, p: Position)
    requires Placed(f, actor, s, p) && Below(f, p, before) && limit >= 1
    ensures var page := Query(f, actor, s, before, None, limit);
            p in page.items || (PageEnd(page).Some? && Precedes(PageEnd(page).value, p))
  {
    var chosen := Selected(f, actor, s, before, None);
    var ws := Listing(chosen);
    assert p in chosen && p in ws;
    var i :| 0 <= i < |ws| && ws[i] == p;
    if |ws| > limit {
      assert i < limit ==> ws[..limit][i] == p;
      assert i >= limit ==> Precedes(ws[limit - 1], ws[i]);
    }
  }

  lemma {:induction false} KeptReturns(f: Filters, actor: Option<nat>, w: World, items: seq<Position>)
    ensures forall p :: p in items && Shown(f, actor, w, p.id) ==> p.id in Kept(f, actor, w, items)
  {
    if items != [] {
      KeptReturns(f, actor, w, items[..|items| - 1]);
      assert items == items[..|items| - 1] + [items[|items| - 1]];
    }
  }

  lemma {:induction false} KeptTrace(f: Filters, actor: Option<nat>, w: World,
                                     items: seq<Position>) returns (ts: seq<Stop>)
    requires forall i :: 0 <= i < |items| ==> Placed(f, actor, w.scan, items[i])
    requires forall i, j :: 0 <= i < j < |items| ==> Precedes(items[i], items[j])
    ensures |ts| == |Kept(f, actor, w, items)| && Descending(ts)
    ensures forall i :: 0 <= i < |ts| ==> ts[i].place in items && ts[i].place.id == Kept(f, actor, w, items)[i]
    ensures forall i :: 0 <= i < |ts| ==> StopOk(f, actor, [w], ts[i])
  {
    if items == [] {
      ts := [];
    } else {
      var front, last := items[..|items| - 1], items[|items| - 1];
      assert items == front + [last];
      var before := KeptTrace(f, actor, w, front);
      ts := before;
      if Shown(f, actor, w, last.id) {
        forall i | 0 <= i < |before| ensures Precedes(before[i].place, last) {
          var j :| 0 <= j < |front| && front[j] == before[i].place;
          assert items[j] == front[j];
        }
        ts := before + [Stop(0, last)];
      }
    }
  }

  lemma BatchTrace(f: Filters, actor: Option<nat>, before: Option<Position>, w: World,
                   limit: nat) returns (ts: seq<Stop>)
    ensures Traces(f, actor, before, [w], Batch(f, actor, before, w, limit), ts)
    ensures Advances(f, actor, before, [w], Batch(f, actor, before, w, limit).next)
  {
    var page := Query(f, actor, w.scan, before, None, limit);
    PageScans(f, actor, w.scan, before, limit);
    ts := KeptTrace(f, actor, w, page.items);
    if PageEnd(page).Some? {
      assert Placed(f, actor, [w][0].scan, PageEnd(page).value);
    }
  }

  // ---------------------------------------------------------------- stretches that meet

  function Shifted(ts: seq<Stop>, n: nat): seq<Stop> {
    seq(|ts|, i requires 0 <= i < |ts| => ts[i].(batch := ts[i].batch + n))
  }

  /** Places are compared with each other as they are: sorting by newest, they carry no count. */
  lemma PlacedIsNormal(f: Filters, actor: Option<nat>, s: Store, p: Position)
    requires Placed(f, actor, s, p)
    ensures Normal(f, p) == p
  {}

  lemma LaterStop(f: Filters, actor: Option<nat>, ws: seq<World>, vs: seq<World>, t: Stop)
    requires StopOk(f, actor, vs, t)
    ensures StopOk(f, actor, ws + vs, t.(batch := t.batch + |ws|))
  {
    assert (ws + vs)[t.batch + |ws|] == vs[t.batch];
  }

  lemma BelowBelow(f: Filters, p: Position, next: Position, before: Option<Position>)
    requires Normal(f, next) == next && Below(f, next, before) && Below(f, p, Some(next))
    ensures Below(f, p, before) && Precedes(next, p)
  {}

  /** Two stretches that meet make one. */
  lemma TracesJoin(f: Filters, actor: Option<nat>, before: Option<Position>, ws: seq<World>, vs: seq<World>,
                   a: Result, b: Result, ts: seq<Stop>, us: seq<Stop>)
    requires a.next.Some? && Normal(f, a.next.value) == a.next.value && Below(f, a.next.value, before)
    requires Traces(f, actor, before, ws, a, ts) && Traces(f, actor, a.next, vs, b, us)
    requires b.next.Some? ==> b.next == a.next || Precedes(a.next.value, b.next.value)
    ensures Traces(f, actor, before, ws + vs, Result(a.ids + b.ids, b.next), ts + Shifted(us, |ws|))
  {
    JoinDescends(f, actor, before, ws, vs, a, b, ts, us);
    var all := ts + Shifted(us, |ws|);
    forall i | 0 <= i < |all|
      ensures all[i].place.id == (a.ids + b.ids)[i] && Between(f, all[i].place, before, b.next)
              && StopOk(f, actor, ws + vs, all[i])
    {
      if i < |ts| {
        assert StopOk(f, actor, ws, ts[i]) && (ws + vs)[ts[i].batch] == ws[ts[i].batch];
      } else {
        LaterStop(f, actor, ws, vs, us[i - |ts|]);
        BelowBelow(f, all[i].place, a.next.value, before);
      }
    }
  }

  lemma JoinDescends(f: Filters, actor: Option<nat>, before: Option<Position>, ws: seq<World>, vs: seq<World>,
                     a: Result, b: Result, ts: seq<Stop>, us: seq<Stop>)
    requires a.next.Some? && Normal(f, a.next.value) == a.next.value
    requires Traces(f, actor, before, ws, a, ts) && Traces(f, actor, a.next, vs, b, us)
    ensures Descending(ts + Shifted(us, |ws|))
  {
    var all := ts + Shifted(us, |ws|);
    forall i, j | 0 <= i < j < |all| ensures Precedes(all[i].place, all[j].place) && all[i].batch <= all[j].batch {
      if i < |ts| <= j { StopsInOrder(f, actor, before, ws, vs, a, ts[i], us[j - |ts|]); }
    }
  }

  lemma StopsInOrder(f: Filters, actor: Option<nat>, before: Option<Position>, ws: seq<World>, vs: seq<World>,
                     a: Result, t: Stop, u: Stop)
    requires a.next.Some? && Normal(f, a.next.value) == a.next.value && StopOk(f, actor, ws, t)
    requires Between(f, t.place, before, a.next) && Below(f, u.place, a.next)
    ensures Precedes(t.place, u.place) && t.batch <= u.batch + |ws|
  {}

  /** Batches that were not needed change nothing. */
  lemma TraceExtends(f: Filters, actor: Option<nat>, before: Option<Position>, ws: seq<World>, vs: seq<World>,
                     r: Result, ts: seq<Stop>)
    requires Traces(f, actor, before, ws, r, ts)
    ensures Traces(f, actor, before, ws + vs, r, ts)
  {
    forall i | 0 <= i < |ts| ensures StopOk(f, actor, ws + vs, ts[i]) {
      assert StopOk(f, actor, ws, ts[i]) && (ws + vs)[ts[i].batch] == ws[ts[i].batch];
    }
  }

  lemma AdvancesExtends(f: Filters, actor: Option<nat>, before: Option<Position>, ws: seq<World>, vs: seq<World>,
                        next: Option<Position>)
    requires Advances(f, actor, before, ws, next)
    ensures Advances(f, actor, before, ws + vs, next) && Advances(f, actor, before, vs + ws, next)
  {
    if next.Some? {
      var i :| 0 <= i < |ws| && Placed(f, actor, ws[i].scan, next.value);
      assert Placed(f, actor, (ws + vs)[i].scan, next.value) && Placed(f, actor, (vs + ws)[i + |vs|].scan, next.value);
    }
  }

  lemma AdvanceIsNormal(f: Filters, actor: Option<nat>, before: Option<Position>, ws: seq<World>,
                        next: Option<Position>)
    requires Advances(f, actor, before, ws, next) && next.Some?
    ensures Normal(f, next.value) == next.value
  {
    var i :| 0 <= i < |ws| && Placed(f, actor, ws[i].scan, next.value);
    PlacedIsNormal(f, actor, ws[i].scan, next.value);
  }

  lemma AdvancesJoin(f: Filters, actor: Option<nat>, before: Option<Position>, ws: seq<World>, vs: seq<World>,
                     mid: Position, next: Option<Position>)
    requires Advances(f, actor, before, ws, Some(mid)) && Advances(f, actor, Some(mid), vs, next)
    ensures Advances(f, actor, before, ws + vs, next)
  {
    if next.Some? {
      AdvanceIsNormal(f, actor, before, ws, Some(mid));
      BelowBelow(f, next.value, mid, before);
      AdvancesExtends(f, actor, Some(mid), vs, ws, next);
    }
  }

  // ---------------------------------------------------------------- one call

  /** A first batch, and the remaining ones while they are needed. */
  lemma {:induction false} CallTrace(f: Filters, actor: Option<nat>, before: Option<Position>, resume: Option<Position>,
                                     k: nat, ws: seq<World>) returns (ts: seq<Stop>)
    requires ws != [] && k < f.limit
    ensures Traces(f, actor, before, ws, Refill(f, actor, before, resume, k, ws), ts)
    ensures Advances(f, actor, before, ws, Refill(f, actor, before, resume, k, ws).next)
    decreases |ws|
  {
    var first, rest := [ws[0]], ws[1..];
    var b := Batch(f, actor, before, ws[0], f.limit - k);
    ts := BatchTrace(f, actor, before, ws[0], f.limit - k);
    assert ws == first + rest;
    if b.next.None? || rest == [] || k + |b.ids| >= f.limit {
      StopsHere(f, actor, before, resume, k, ws, b);
      TraceExtends(f, actor, before, first, rest, b, ts);
      AdvancesExtends(f, actor, before, first, rest, b.next);
    } else {
      var more := Refill(f, actor, b.next, b.next, k + |b.ids|, rest);
      var us := CallTrace(f, actor, b.next, b.next, k + |b.ids|, rest);
      GoesOn(f, actor, before, resume, k, ws, b);
      StretchesMeet(f, actor, before, first, rest, b, more, ts, us);
      ts := ts + Shifted(us, |first|);
    }
  }

  /** A stretch and what follows its continuation. */
  lemma StretchesMeet(f: Filters, actor: Option<nat>, before: Option<Position>, ws: seq<World>, vs: seq<World>,
                      a: Result, b: Result, ts: seq<Stop>, us: seq<Stop>)
    requires a.next.Some?
    requires Traces(f, actor, before, ws, a, ts) && Advances(f, actor, before, ws, a.next)
    requires Traces(f, actor, a.next, vs, b, us) && Advances(f, actor, a.next, vs, b.next)
    ensures Traces(f, actor, before, ws + vs, Result(a.ids + b.ids, b.next), ts + Shifted(us, |ws|))
    ensures Advances(f, actor, before, ws + vs, b.next)
  {
    AdvanceIsNormal(f, actor, before, ws, a.next);
    AdvancesJoin(f, actor, before, ws, vs, a.next.value, b.next);
    TracesJoin(f, actor, before, ws, vs, a, b, ts, us);
  }

  lemma StopsHere(f: Filters, actor: Option<nat>, before: Option<Position>, resume: Option<Position>, k: nat,
                  ws: seq<World>, b: Result)
    requires ws != [] && k < f.limit && b == Batch(f, actor, before, ws[0], f.limit - k)
    requires b.next.None? || ws[1..] == [] || k + |b.ids| >= f.limit
    ensures Refill(f, actor, before, resume, k, ws) == b
  {
    assert b.ids + [] == b.ids;
  }

  lemma GoesOn(f: Filters, actor: Option<nat>, before: Option<Position>, resume: Option<Position>, k: nat,
               ws: seq<World>, b: Result)
    requires ws != [] && k < f.limit && b == Batch(f, actor, before, ws[0], f.limit - k) && b.next.Some?
    ensures var more := Refill(f, actor, b.next, b.next, k + |b.ids|, ws[1..]);
            Refill(f, actor, before, resume, k, ws) == Result(b.ids + more.ids, more.next)
  {}

  /** Each call that returns a cursor has moved strictly on, to a post it scanned; however the stores change. */
  lemma CursorAdvances(f: Filters, actor: Option<nat>, cursor: Option<Position>, ws: seq<World>)
    requires Served(f, [ws])
    ensures Advances(f, actor, cursor, ws, Refill(f, actor, cursor, None, 0, ws).next)
  {
    assert |[ws][0]| == MAX_BATCHES;
    var ts := CallTrace(f, actor, cursor, None, 0, ws);
  }

  // ---------------------------------------------------------------- the whole walk

  lemma {:induction false} WalkTrace(f: Filters, actor: Option<nat>, cursor: Option<Position>, calls: seq<seq<World>>)
    returns (ts: seq<Stop>)
    requires Served(f, calls) && calls != []
    ensures var w := Walk(f, actor, cursor, calls);
            Traces(f, actor, cursor, Flatten(calls), Result(w.ids, w.end), ts)
            && Advances(f, actor, cursor, Flatten(calls), w.end)
    decreases |calls|
  {
    var r := Refill(f, actor, cursor, None, 0, calls[0]);
    var rest := Flatten(calls[1..]);
    ts := CallTrace(f, actor, cursor, None, 0, calls[0]);
    if r.next.None? || calls[1..] == [] {
      TraceExtends(f, actor, cursor, calls[0], rest, r, ts);
      AdvancesExtends(f, actor, cursor, calls[0], rest, r.next);
      assert r.ids + [] == r.ids;
    } else {
      var w := Walk(f, actor, r.next, calls[1..]);
      var us := WalkTrace(f, actor, r.next, calls[1..]);
      StretchesMeet(f, actor, cursor, calls[0], rest, r, Result(w.ids, w.end), ts, us);
      ts := ts + Shifted(us, |calls[0]|);
    }
  }

  /**
   * However the stores change, a walk returns posts at strictly descending places, each at a batch that selected it
   * there and could show it, and no later post at an earlier batch.
   */
  lemma WalkDescends(f: Filters, actor: Option<nat>, cursor: Option<Position>, calls: seq<seq<World>>)
    requires Served(f, calls)
    ensures var w := Walk(f, actor, cursor, calls);
            exists ts: seq<Stop> :: |ts| == |w.ids| && Descending(ts)
                         && forall i :: 0 <= i < |ts| ==>
                              ts[i].place.id == w.ids[i] && Below(f, ts[i].place, cursor)
                              && StopOk(f, actor, Flatten(calls), ts[i])
  {
    var ts: seq<Stop> := [];
    if calls != [] {
      ts := WalkTrace(f, actor, cursor, calls);
    }
    assert |ts| == |Walk(f, actor, cursor, calls).ids| && Descending(ts);
  }

  // ---------------------------------------------------------------- posts that keep their creation time

  /** Creation times never change. */
  ghost predicate Born(ws: seq<World>, born: nat -> int) {
    forall i, id :: 0 <= i < |ws| && id in ws[i].scan.posts ==> ws[i].scan.posts[id].createdAt == born(id)
  }

  /** Sorted by usefulness, the post was less helpful at a later batch. */
  predicate CountFell(f: Filters, ws: seq<World>, x: nat, i: nat, j: nat) {
    f.sort == Useful && i < j < |ws| && x in ws[i].scan.posts && x in ws[j].scan.posts
    && ws[i].scan.posts[x].helpful > ws[j].scan.posts[x].helpful
  }

  lemma SameBirth(f: Filters, ws: seq<World>, born: nat -> int, x: nat, i: nat)
    requires Born(ws, born) && i < |ws| && x in ws[i].scan.posts
    ensures PositionOf(f, ws[i].scan, x).createdAt == born(x) == ws[i].scan.posts[x].createdAt
  {}

  // ---------------------------------------------------------------- completeness

  predicate AlwaysAvailable(f: Filters, actor: Option<nat>, ws: seq<World>, x: nat) {
    forall i :: 0 <= i < |ws| ==> Available(f, actor, ws[i], x)
  }

  /** The post's place never moves towards the front. */
  predicate NeverRises(f: Filters, ws: seq<World>, x: nat) {
    forall i, j :: 0 <= i < j < |ws| && x in ws[i].scan.posts && x in ws[j].scan.posts ==>
      !Precedes(PositionOf(f, ws[j].scan, x), PositionOf(f, ws[i].scan, x))
  }

  lemma BatchFinds(f: Filters, actor: Option<nat>, before: Option<Position>, w: World, limit: nat, x: nat)
    requires Available(f, actor, w, x) && Below(f, PositionOf(f, w.scan, x), before) && limit >= 1
    ensures var b := Batch(f, actor, before, w, limit);
            x in b.ids || (b.next.Some? && Below(f, PositionOf(f, w.scan, x), b.next))
  {
    var p := PositionOf(f, w.scan, x);
    var page := Query(f, actor, w.scan, before, None, limit);
    PageReaches(f, actor, w.scan, before, limit, p);
    PageScans(f, actor, w.scan, before, limit);
    KeptReturns(f, actor, w, page.items);
    if PageEnd(page).Some? { PlacedIsNormal(f, actor, w.scan, PageEnd(page).value); }
  }

  /** Available at every batch, and never moving towards the front. */
  predicate Stays(f: Filters, actor: Option<nat>, ws: seq<World>, x: nat) {
    AlwaysAvailable(f, actor, ws, x) && NeverRises(f, ws, x)
  }

  lemma StaysInParts(f: Filters, actor: Option<nat>, ws: seq<World>, vs: seq<World>, x: nat)
    requires Stays(f, actor, ws + vs, x)
    ensures Stays(f, actor, ws, x) && Stays(f, actor, vs, x)
  {
    var all := ws + vs;
    forall i | 0 <= i < |ws| ensures ws[i] == all[i] && Available(f, actor, ws[i], x) {
      assert Available(f, actor, all[i], x);
    }
    forall i | 0 <= i < |vs| ensures vs[i] == all[|ws| + i] && Available(f, actor, vs[i], x) {
      assert Available(f, actor, all[|ws| + i], x);
    }
  }

  lemma StaysBelow(f: Filters, actor: Option<nat>, ws: seq<World>, x: nat, i: nat, j: nat, next: Option<Position>)
    requires Stays(f, actor, ws, x) && i <= j < |ws| && x in ws[i].scan.posts && x in ws[j].scan.posts
    requires Below(f, PositionOf(f, ws[i].scan, x), next)
    ensures Below(f, PositionOf(f, ws[j].scan, x), next)
  {}

  /** The post is selected by a batch, strictly after the cursor. */
  predicate Ahead(f: Filters, w: World, x: nat, cursor: Option<Position>) {
    x in w.scan.posts && Below(f, PositionOf(f, w.scan, x), cursor)
  }

  /** After a first batch that did not return it, the post is ahead of the continuation at every later one. */
  lemma FirstBatchFinds(f: Filters, actor: Option<nat>, before: Option<Position>, limit: nat, ws: seq<World>, x: nat)
    requires ws != [] && limit >= 1 && Stays(f, actor, ws, x) && Ahead(f, ws[0], x, before)
    ensures var b := Batch(f, actor, before, ws[0], limit);
            x in b.ids || (b.next.Some? && forall j :: 0 <= j < |ws| ==> Ahead(f, ws[j], x, b.next))
  {
    var b := Batch(f, actor, before, ws[0], limit);
    assert Available(f, actor, ws[0], x);
    BatchFinds(f, actor, before, ws[0], limit, x);
    if x !in b.ids {
      forall j | 0 <= j < |ws| ensures Ahead(f, ws[j], x, b.next) {
        assert Available(f, actor, ws[j], x);
        StaysBelow(f, actor, ws, x, 0, j, b.next);
      }
    }
  }

  lemma RestStays(f: Filters, actor: Option<nat>, ws: seq<World>, x: nat)
    requires Stays(f, actor, ws, x) && ws != []
    ensures Stays(f, actor, ws[1..], x)
  {
    assert ws == [ws[0]] + ws[1..];
    StaysInParts(f, actor, [ws[0]], ws[1..], x);
  }

  /** What is ahead of the cursor at the first batch is returned by the call or still ahead at its last batch. */
  lemma {:induction false} CallFinds(f: Filters, actor: Option<nat>, before: Option<Position>, resume: Option<Position>,
                                     k: nat, ws: seq<World>, x: nat)
    requires ws != [] && k < f.limit && Stays(f, actor, ws, x) && Ahead(f, ws[0], x, before)
    ensures var r := Refill(f, actor, before, resume, k, ws);
            x in r.ids || (r.next.Some? && Ahead(f, ws[|ws| - 1], x, r.next))
    decreases |ws|
  {
    var b, rest := Batch(f, actor, before, ws[0], f.limit - k), ws[1..];
    FirstBatchFinds(f, actor, before, f.limit - k, ws, x);
    if b.next.None? || rest == [] || k + |b.ids| >= f.limit {
      StopsHere(f, actor, before, resume, k, ws, b);
    } else {
      GoesOn(f, actor, before, resume, k, ws, b);
      if x !in b.ids {
        RestStays(f, actor, ws, x);
        CallFinds(f, actor, b.next, b.next, k + |b.ids|, rest, x);
      }
    }
  }

  lemma {:induction false} WalkFinds(f: Filters, actor: Option<nat>, cursor: Option<Position>, calls: seq<seq<World>>,
                                     x: nat)
    requires Served(f, calls) && Walk(f, actor, cursor, calls).finished
    requires Stays(f, actor, Flatten(calls), x) && Ahead(f, Flatten(calls)[0], x, cursor)
    ensures x in Walk(f, actor, cursor, calls).ids
    decreases |calls|
  {
    var ws, later := calls[0], Flatten(calls[1..]);
    var r := Refill(f, actor, cursor, None, 0, ws);
    StaysInParts(f, actor, ws, later, x);
    CallFinds(f, actor, cursor, None, 0, ws, x);
    if x !in r.ids {
      assert calls[1..] != [] && |calls[1]| == MAX_BATCHES;
      assert (ws + later)[|ws| - 1] == ws[|ws| - 1] && (ws + later)[|ws|] == later[0];
      assert Available(f, actor, later[0], x);
      StaysBelow(f, actor, ws + later, x, |ws| - 1, |ws|, r.next);
      WalkFinds(f, actor, r.next, calls[1..], x);
    }
  }

  /** Sorted by usefulness, the post was more helpful at a later batch. */
  predicate CountRose(f: Filters, ws: seq<World>, x: nat, i: nat, j: nat) {
    f.sort == Useful && i < j < |ws| && x in ws[i].scan.posts && x in ws[j].scan.posts
    && ws[i].scan.posts[x].helpful < ws[j].scan.posts[x].helpful
  }

  /**
   * A finished walk misses a post that was ahead of its first cursor and available throughout only if the post's
   * usefulness count rose on the way; sorted by newest, it misses none.
   */
  lemma MissesNeedRisingCounts(f: Filters, actor: Option<nat>, cursor: Option<Position>, calls: seq<seq<World>>,
                               born: nat -> int, x: nat)
    requires Served(f, calls) && Born(Flatten(calls), born) && Walk(f, actor, cursor, calls).finished
    requires AlwaysAvailable(f, actor, Flatten(calls), x)
    requires Ahead(f, Flatten(calls)[0], x, cursor) && x !in Walk(f, actor, cursor, calls).ids
    ensures exists i, j :: CountRose(f, Flatten(calls), x, i, j)
  {
    var ws := Flatten(calls);
    if NeverRises(f, ws, x) {
      WalkFinds(f, actor, cursor, calls, x);
    } else {
      RoseSomewhere(f, ws, born, x);
    }
  }

  lemma RoseSomewhere(f: Filters, ws: seq<World>, born: nat -> int, x: nat)
    requires Born(ws, born) && !NeverRises(f, ws, x)
    ensures exists i, j :: CountRose(f, ws, x, i, j)
  {
    var i, j :| 0 <= i < j < |ws| && x in ws[i].scan.posts && x in ws[j].scan.posts
                && Precedes(PositionOf(f, ws[j].scan, x), PositionOf(f, ws[i].scan, x));
    SameBirth(f, ws, born, x, i);
    SameBirth(f, ws, born, x, j);
    assert CountRose(f, ws, x, i, j);
  }

  /** Sorted by newest, or while the post's count does not rise, a finished walk has returned it. */
  lemma WalkIsComplete(f: Filters, actor: Option<nat>, cursor: Option<Position>, calls: seq<seq<World>>,
                       born: nat -> int, x: nat)
    requires Served(f, calls) && Born(Flatten(calls), born) && Walk(f, actor, cursor, calls).finished
    requires AlwaysAvailable(f, actor, Flatten(calls), x) && Ahead(f, Flatten(calls)[0], x, cursor)
    requires f.sort == Newest || forall i, j :: !CountRose(f, Flatten(calls), x, i, j)
    ensures x in Walk(f, actor, cursor, calls).ids
  {
    if x !in Walk(f, actor, cursor, calls).ids {
      MissesNeedRisingCounts(f, actor, cursor, calls, born, x);
    }
  }

  // ---------------------------------------------------------------- termination

  /** All posts ever scanned have these identifiers, and their creation times never change. */
  ghost predicate Known(ws: seq<World>, born: nat -> int, ids: set<nat>) {
    Born(ws, born) && forall i, id :: 0 <= i < |ws| && id in ws[i].scan.posts ==> id in ids
  }

  ghost predicate AllKnown(calls: seq<seq<World>>, born: nat -> int, ids: set<nat>) {
    forall i :: 0 <= i < |calls| ==> Known(calls[i], born, ids)
  }

  /** Every place after the cursor that a known post could have, whatever its count. */
  ghost function Places(f: Filters, cursor: Position, born: nat -> int, ids: set<nat>): set<Position> {
    set h, id | 0 <= h <= Normal(f, cursor).helpful && id in ids
      && Precedes(Normal(f, cursor), Position(h, born(id), id))
      :: Position(h, born(id), id)
  }

  lemma FewerPlaces(f: Filters, actor: Option<nat>, cursor: Position, ws: seq<World>, next: Position, born: nat -> int,
                    ids: set<nat>)
    requires Known(ws, born, ids) && Advances(f, actor, Some(cursor), ws, Some(next))
    ensures |Places(f, next, born, ids)| < |Places(f, cursor, born, ids)|
  {
    var a, b := Places(f, next, born, ids), Places(f, cursor, born, ids);
    AdvanceIsNormal(f, actor, Some(cursor), ws, Some(next));
    var i :| 0 <= i < |ws| && Placed(f, actor, ws[i].scan, next);
    assert next.id in ids && next == Position(next.helpful, born(next.id), next.id);
    assert 0 <= next.helpful <= Normal(f, cursor).helpful;
    assert next in b;
    assert a <= b - {next};
    var c := b - {next};
    assert c == a + (c - a);
  }

  /**
   * Any walk from a cursor ends, however the counts change: it takes at most one call more than there are places
   * after the cursor.
   */
  lemma {:induction false} WalkTerminates(f: Filters, actor: Option<nat>, cursor: Position, calls: seq<seq<World>>,
                                          born: nat -> int, ids: set<nat>)
    requires Served(f, calls) && AllKnown(calls, born, ids) && |calls| > |Places(f, cursor, born, ids)|
    ensures Walk(f, actor, Some(cursor), calls).finished
    decreases |calls|
  {
    var r := Refill(f, actor, Some(cursor), None, 0, calls[0]);
    var ts := CallTrace(f, actor, Some(cursor), None, 0, calls[0]);
    if r.next.Some? {
      FewerPlaces(f, actor, cursor, calls[0], r.next.value, born, ids);
      WalkTerminates(f, actor, r.next.value, calls[1..], born, ids);
    }
  }

  lemma {:induction false} PlacesAreFew(n: nat, born: nat -> int, ids: set<nat>)
    ensures |set h, id | 0 <= h < n && id in ids :: Position(h, born(id), id)| <= n * |ids|
  {
    if n > 0 {
      var all := set h, id | 0 <= h < n && id in ids :: Position(h, born(id), id);
      var front := set h, id | 0 <= h < n - 1 && id in ids :: Position(h, born(id), id);
      var layer := set id | id in ids :: Position(n - 1, born(id), id);
      PlacesAreFew(n - 1, born, ids);
      LayerIsFew(n - 1, born, ids);
      assert all == front + layer;
      assert n * |ids| == (n - 1) * |ids| + |ids|;
    }
  }

  lemma {:induction false} LayerIsFew(h: nat, born: nat -> int, ids: set<nat>)
    ensures |set id | id in ids :: Position(h, born(id), id)| <= |ids|
    decreases |ids|
  {
    if ids != {} {
      var x :| x in ids;
      LayerIsFew(h, born, ids - {x});
      assert (set id | id in ids :: Position(h, born(id), id))
          == (set id | id in ids - {x} :: Position(h, born(id), id)) + {Position(h, born(x), x)};
    }
  }

  lemma {:induction false} SubsetIsFewer<T>(a: set<T>, b: set<T>)
    requires a <= b
    ensures |a| <= |b|
  {
    assert b == a + (b - a);
  }

  /** From a cursor at count h a walk takes at most (h + 1) calls for each known post, and one more. */
  lemma WalkIsBounded(f: Filters, actor: Option<nat>, cursor: Position, calls: seq<seq<World>>, born: nat -> int,
                      ids: set<nat>)
    requires Served(f, calls) && AllKnown(calls, born, ids) && Normal(f, cursor).helpful >= 0
    requires |calls| > (Normal(f, cursor).helpful + 1) * |ids|
    ensures Walk(f, actor, Some(cursor), calls).finished
  {
    var n := Normal(f, cursor).helpful + 1;
    PlacesAreFew(n, born, ids);
    SubsetIsFewer(Places(f, cursor, born, ids), set h, id | 0 <= h < n && id in ids :: Position(h, born(id), id));
    WalkTerminates(f, actor, cursor, calls, born, ids);
  }

  /** A walk from the start ends too: its first call fixes how far there is to go. */
  lemma FreshWalkTerminates(f: Filters, actor: Option<nat>, calls: seq<seq<World>>, born: nat -> int, ids: set<nat>)
    requires Served(f, calls) && AllKnown(calls, born, ids) && calls != []
    requires var next := Refill(f, actor, None, None, 0, calls[0]).next;
             next.Some? ==> |calls| > 1 + |Places(f, next.value, born, ids)|
    ensures Walk(f, actor, None, calls).finished
  {
    var next := Refill(f, actor, None, None, 0, calls[0]).next;
    if next.Some? { WalkTerminates(f, actor, next.value, calls[1..], born, ids); }
  }

  // ---------------------------------------------------------------- an unchanged store

  /** What a client that saw everything at once would be shown after the cursor. */
  function Visible(f: Filters, actor: Option<nat>, s: Store, cursor: Option<Position>,
                   readable: set<nat>): set<Position> {
    set p | p in Selected(f, actor, s, cursor, None) && p.id in readable
  }

  predicate Unchanged(calls: seq<seq<World>>, w: World) {
    forall i, j :: 0 <= i < |calls| && 0 <= j < |calls[i]| ==> calls[i][j] == w
  }

  lemma {:induction false} FlattenSame(calls: seq<seq<World>>, w: World)
    requires Unchanged(calls, w)
    ensures forall i :: 0 <= i < |Flatten(calls)| ==> Flatten(calls)[i] == w
    decreases |calls|
  {
    if calls != [] {
      forall i, j | 0 <= i < |calls[1..]| && 0 <= j < |calls[1..][i]| ensures calls[1..][i][j] == w {
        assert calls[1..][i] == calls[i + 1];
      }
      FlattenSame(calls[1..], w);
      assert forall j :: 0 <= j < |calls[0]| ==> calls[0][j] == w;
    }
  }

  /**
   * On an unchanged store, for either order and any limit, a finished walk returns exactly the sorted listing
   * of the matching posts that can be shown, page cuts and refills notwithstanding.
   */
  lemma UnchangedStoreIsListed(f: Filters, actor: Option<nat>, cursor: Option<Position>, s: Store, readable: set<nat>,
                               calls: seq<seq<World>>)
    requires Served(f, calls) && Unchanged(calls, World(s, s, readable)) && Walk(f, actor, cursor, calls).finished
    ensures var got, all := Walk(f, actor, cursor, calls).ids, Listing(Visible(f, actor, s, cursor, readable));
            |got| == |all| && forall i :: 0 <= i < |got| ==> got[i] == all[i].id
  {
    var members := Visible(f, actor, s, cursor, readable);
    var ts := WalkTrace(f, actor, cursor, calls);
    var places := seq(|ts|, i requires 0 <= i < |ts| => ts[i].place);
    FlattenSame(calls, World(s, s, readable));
    forall i | 0 <= i < |places| ensures places[i] in members { assert StopOk(f, actor, Flatten(calls), ts[i]); }
    forall p | p in members ensures p in places {
      MemberIsReturned(f, actor, cursor, s, readable, calls, p);
      var i :| 0 <= i < |ts| && ts[i].place.id == p.id;
      assert StopOk(f, actor, Flatten(calls), ts[i]) && places[i] == p;
    }
    assert Lists(places, members);
    ListingIsUnique(places, Listing(members), members);
  }

  lemma MemberIsReturned(f: Filters, actor: Option<nat>, cursor: Option<Position>, s: Store, readable: set<nat>,
                         calls: seq<seq<World>>, p: Position)
    requires Served(f, calls) && Unchanged(calls, World(s, s, readable)) && Walk(f, actor, cursor, calls).finished
    requires p in Visible(f, actor, s, cursor, readable)
    ensures p.id in Walk(f, actor, cursor, calls).ids
  {
    FlattenSame(calls, World(s, s, readable));
    assert |calls[0]| == MAX_BATCHES && Flatten(calls)[0] == World(s, s, readable);
    WalkFinds(f, actor, cursor, calls, p.id);
  }

  // ---------------------------------------------------------------- counts that change do disturb a walk

  const BY_USE := Filters(None, None, None, None, false, Useful, 1)

  function Liked(n: nat): Post {
    Post(0, "", 0, None, true, true, 0, n)
  }

  function Holding(posts: map<nat, Post>): World {
    World(Store(posts, {}), Store(posts, {}), posts.Keys)
  }

  function Repeated(w: World): seq<World> {
    [w, w, w, w]
  }

  lemma ListingIs(ws: seq<Position>, members: set<Position>)
    requires Lists(ws, members)
    ensures Listing(members) == ws
  {
    ListingIsUnique(ws, Listing(members), members);
  }

  const FIRST := Holding(map[1 := Liked(5), 2 := Liked(3)])
  const FIRST_END := Position(5, 0, 1)

  lemma FirstCall()
    ensures Refill(BY_USE, None, None, None, 0, Repeated(FIRST)) == Result([1], Some(FIRST_END))
  {
    var chosen := Selected(BY_USE, None, FIRST.scan, None, None);
    assert PositionOf(BY_USE, FIRST.scan, 1) == FIRST_END && PositionOf(BY_USE, FIRST.scan, 2) == Position(3, 0, 2);
    assert FIRST_END in chosen && Position(3, 0, 2) in chosen;
    assert chosen == {FIRST_END, Position(3, 0, 2)};
    ListingIs([FIRST_END, Position(3, 0, 2)], chosen);
    var items := Query(BY_USE, None, FIRST.scan, None, None, 1).items;
    assert items == [FIRST_END] && items[..0] == [];
    assert Kept(BY_USE, None, FIRST, items[..0]) == [];
    StopsHere(BY_USE, None, None, None, 0, Repeated(FIRST), Batch(BY_USE, None, None, FIRST, 1));
  }

  lemma LastCall(posts: map<nat, Post>, ps: seq<Position>)
    requires Lists(ps, Selected(BY_USE, None, Store(posts, {}), Some(FIRST_END), None)) && |ps| <= 1
    ensures var r := Refill(BY_USE, None, Some(FIRST_END), None, 0, Repeated(Holding(posts)));
            r == Result(if ps == [] then [] else [ps[0].id], None)
  {
    var w := Holding(posts);
    ListingIs(ps, Selected(BY_USE, None, w.scan, Some(FIRST_END), None));
    var items := Query(BY_USE, None, w.scan, Some(FIRST_END), None, 1).items;
    assert items == ps;
    if ps != [] {
      assert ps[0] in Selected(BY_USE, None, w.scan, Some(FIRST_END), None);
      assert items[..0] == [] && Kept(BY_USE, None, w, items[..0]) == [];
    }
    StopsHere(BY_USE, None, Some(FIRST_END), None, 0, Repeated(w), Batch(BY_USE, None, Some(FIRST_END), w, 1));
  }

  lemma TwoCalls(w: World, last: Result)
    requires last == Refill(BY_USE, None, Some(FIRST_END), None, 0, Repeated(w)) && last.next.None?
    ensures Walk(BY_USE, None, None, [Repeated(FIRST), Repeated(w)]) == Walked([1] + last.ids, true, None)
  {
    var calls := [Repeated(FIRST), Repeated(w)];
    FirstCall();
    assert calls[1..] == [Repeated(w)] && [Repeated(w)][0] == Repeated(w);
  }

  /** A post whose count falls between two calls is returned by both. */
  lemma FallingCountRepeats()
    ensures Walk(BY_USE, None, None, [Repeated(FIRST), Repeated(Holding(map[1 := Liked(1)]))]).ids == [1, 1]
  {
    var posts := map[1 := Liked(1)];
    var chosen := Selected(BY_USE, None, Store(posts, {}), Some(FIRST_END), None);
    assert PositionOf(BY_USE, Store(posts, {}), 1) == Position(1, 0, 1);
    assert chosen == {Position(1, 0, 1)};
    LastCall(posts, [Position(1, 0, 1)]);
    TwoCalls(Holding(posts), Result([1], None));
  }

  /** A post whose count rises past the cursor between two calls is returned by neither. */
  lemma RisingCountIsMissed()
    ensures var w := Walk(BY_USE, None, None, [Repeated(FIRST), Repeated(Holding(map[1 := Liked(5), 2 := Liked(9)]))]);
            w.ids == [1] && w.finished
  {
    var posts := map[1 := Liked(5), 2 := Liked(9)];
    var chosen := Selected(BY_USE, None, Store(posts, {}), Some(FIRST_END), None);
    assert chosen == {};
    LastCall(posts, []);
    TwoCalls(Holding(posts), Result([], None));
  }
}
