/** Searching posts page by page: the repository's scan and the service's bounded refill. */
module PostPaging {
  import opened Common

  /** Where a post stands in the listing; `helpful` is zero unless the listing is sorted by usefulness. */
  datatype Position = Position(helpful: int, createdAt: int, id: nat)

  datatype Sort = Newest | Useful
  datatype Filters = Filters(language: Option<nat>, text: Option<string>, postType: Option<nat>, topic: Option<string>,
                             savedByMe: bool, sort: Sort, limit: nat)
  datatype Post = Post(language: nat, content: string, postType: nat, topic: Option<string>, isPublic: bool,
                       isActive: bool, createdAt: int, helpful: nat)
  datatype Store = Store(posts: map<nat, Post>, saved: set<(nat, nat)>)

  predicate Precedes(a: Position, b: Position) {
    if a.helpful != b.helpful then a.helpful > b.helpful
    else if a.createdAt != b.createdAt then a.createdAt > b.createdAt
    else a.id > b.id
  }

  /** A cursor's usefulness count only matters when sorting by it. */
  function Normal(f: Filters, p: Position): Position {
    if f.sort == Useful then p else p.(helpful := 0)
  }

  predicate Below(f: Filters, p: Position, cursor: Option<Position>) {
    cursor.None? || Precedes(Normal(f, cursor.value), p)
  }

  predicate OccursAt(content: string, text: string, i: nat) {
    i + |text| <= |content| && content[i..i + |text|] == text
  }

  predicate Contains(content: string, text: string) {
    exists i :: 0 <= i <= |content| && OccursAt(content, text, i)
  }

  predicate Matches(f: Filters, actor: Option<nat>, s: Store, id: nat) {
    id in s.posts
    && var p := s.posts[id];
       p.isPublic && p.isActive
       && (f.language.Some? ==> p.language == f.language.value)
       && (f.text.Some? && f.text.value != "" ==> Contains(p.content, f.text.value))
       && (f.postType.Some? ==> p.postType == f.postType.value)
       && (f.topic.Some? && f.topic.value != "" ==> p.topic == f.topic)
       && (f.savedByMe ==> actor.Some? && (actor.value, id) in s.saved)
  }

  function PositionOf(f: Filters, s: Store, id: nat): Position
    requires id in s.posts
  {
    Position(if f.sort == Useful then s.posts[id].helpful else 0, s.posts[id].createdAt, id)
  }

  /** The positions a query selects, before they are sorted and cut to a page. */
  function Selected(f: Filters, actor: Option<nat>, s: Store, before: Option<Position>,
          ids: Option<set<nat>>): set<Position> {
    set id | id in s.posts && Matches(f, actor, s, id) && (ids.None? || id in ids.value)
      && Below(f, PositionOf(f, s, id), before)
      :: PositionOf(f, s, id)
  }

  // ---------------------------------------------------------------- sorted listings

  ghost predicate Lists(ws: seq<Position>, members: set<Position>) {
    (forall p :: p in ws <==> p in members) && forall i, j :: 0 <= i < j < |ws| ==> Precedes(ws[i], ws[j])
  }

  function Place(ws: seq<Position>, p: Position): seq<Position> {
    if ws == [] || Precedes(p, ws[0]) then [p] + ws else [ws[0]] + Place(ws[1..], p)
  }

  lemma {:induction false} PlaceLists(ws: seq<Position>, members: set<Position>, p: Position)
    requires Lists(ws, members) && p !in members
    ensures Lists(Place(ws, p), members + {p})
  {
    if ws == [] {
    } else if Precedes(p, ws[0]) {
      forall j | 0 <= j < |ws| ensures Precedes(p, ws[j]) { assert j > 0 ==> Precedes(ws[0], ws[j]); }
    } else {
      var rest := ws[1..];
      forall q ensures q in rest <==> q in members - {ws[0]} {
        if q in members - {ws[0]} {
          var i :| 0 <= i < |ws| && ws[i] == q;
          assert rest[i - 1] == q;
        }
        if q in rest {
          var i :| 0 <= i < |rest| && rest[i] == q;
          assert ws[i + 1] == q && Precedes(ws[0], ws[i + 1]);
        }
      }
      PlaceLists(rest, members - {ws[0]}, p);
      var placed := Place(rest, p);
      assert ws[0] in members && Precedes(ws[0], p);
      forall j | 0 <= j < |placed| ensures Precedes(ws[0], placed[j]) {
        assert placed[j] in members - {ws[0]} + {p};
        if placed[j] != p {
          var i :| 0 <= i < |ws| && ws[i] == placed[j];
        }
      }
    }
  }

  lemma {:induction false} ListingIsUnique(a: seq<Position>, b: seq<Position>, members: set<Position>)
    requires Lists(a, members) && Lists(b, members)
    ensures a == b
    decreases |a|
  {
    if a != [] || b != [] {
      var p := if a != [] then a[0] else b[0];
      assert p in members;
      FirstIsGreatest(a, members, p);
      FirstIsGreatest(b, members, p);
      FirstIsGreatest(a, members, b[0]);
      FirstIsGreatest(b, members, a[0]);
      TailLists(a, members);
      TailLists(b, members);
      ListingIsUnique(a[1..], b[1..], members - {a[0]});
    }
  }

  lemma FirstIsGreatest(a: seq<Position>, members: set<Position>, p: Position)
    requires Lists(a, members) && p in members
    ensures a != [] && (p == a[0] || Precedes(a[0], p))
  {
    var i :| 0 <= i < |a| && a[i] == p;
  }

  lemma TailLists(a: seq<Position>, members: set<Position>)
    requires Lists(a, members) && a != []
    ensures Lists(a[1..], members - {a[0]})
  {
    forall q ensures q in a[1..] <==> q in members - {a[0]} {
      if q in members - {a[0]} {
        var i :| 0 <= i < |a| && a[i] == q;
        assert a[1..][i - 1] == q;
      }
      if q in a[1..] {
        var i :| 0 <= i < |a[1..]| && a[1..][i] == q;
        assert a[i + 1] == q && Precedes(a[0], a[i + 1]);
      }
    }
  }

  lemma {:induction false} ListingExists(members: set<Position>) returns (ws: seq<Position>)
    ensures Lists(ws, members)
    decreases |members|
  {
    if members == {} {
      ws := [];
    } else {
      var p :| p in members;
      ws := ListingExists(members - {p});
      PlaceLists(ws, members - {p}, p);
      ws := Place(ws, p);
      assert members - {p} + {p} == members;
    }
  }

  ghost function Listing(members: set<Position>): (ws: seq<Position>)
    ensures Lists(ws, members)
  {
    assert exists ws :: Lists(ws, members) by { var ws := ListingExists(members); }
    var ws :| Lists(ws, members);
    ws
  }

  // ---------------------------------------------------------------- the repository

  datatype Page = Page(items: seq<Position>, hasMore: bool)

  function Cut(ws: seq<Position>, limit: nat): Page {
    Page(if |ws| > limit then ws[..limit] else ws, |ws| > limit)
  }

  ghost function Query(f: Filters, actor: Option<nat>, s: Store, before: Option<Position>, ids: Option<set<nat>>,
          limit: nat): Page {
    Cut(Listing(Selected(f, actor, s, before, ids)), limit)
  }

  method ListPosts(f: Filters, actor: Option<nat>, s: Store, before: Option<Position>, ids: Option<set<nat>>,
                   limit: nat)
    returns (page: Page)
    ensures page == Query(f, actor, s, before, ids, limit)
  {
    var rest, ws := Selected(f, actor, s, before, ids), [];
    while rest != {}
      invariant rest <= Selected(f, actor, s, before, ids)
      invariant Lists(ws, Selected(f, actor, s, before, ids) - rest)
    {
      var p :| p in rest;
      PlaceLists(ws, Selected(f, actor, s, before, ids) - rest, p);
      ws := Place(ws, p);
      assert Selected(f, actor, s, before, ids) - rest + {p} == Selected(f, actor, s, before, ids) - (rest - {p});
      rest := rest - {p};
    }
    assert Selected(f, actor, s, before, ids) - {} == Selected(f, actor, s, before, ids);
    ListingIsUnique(ws, Listing(Selected(f, actor, s, before, ids)), Selected(f, actor, s, before, ids));
    page := Cut(ws, limit);
  }

  // ---------------------------------------------------------------- the service

  const MAX_BATCHES := 4

  /** What one batch meets: the store when it scans, the store when it checks again, and who can be shown. */
  datatype World = World(scan: Store, check: Store, readable: set<nat>)

  function IdsOf(ps: seq<Position>): set<nat> {
    set p | p in ps :: p.id
  }

  predicate Shown(f: Filters, actor: Option<nat>, w: World, id: nat) {
    Matches(f, actor, w.check, id) && id in w.readable
  }

  /** The scanned posts that still match and can be shown, in scan order. */
  function Kept(f: Filters, actor: Option<nat>, w: World, items: seq<Position>): seq<nat> {
    if items == [] then []
    else Kept(f, actor, w, items[..|items| - 1])
         + (if Shown(f, actor, w, items[|items| - 1].id) then [items[|items| - 1].id] else [])
  }

  datatype Result = Result(ids: seq<nat>, next: Option<Position>)

  /** One scan and its check; no continuation when the scan found nothing more. */
  ghost function Batch(f: Filters, actor: Option<nat>, before: Option<Position>, w: World, limit: nat): Result {
    var page := Query(f, actor, w.scan, before, None, limit);
    Result(Kept(f, actor, w, page.items), PageEnd(page))
  }

  function PageEnd(page: Page): Option<Position> {
    if page.hasMore && page.items != [] then Some(page.items[|page.items| - 1]) else None
  }

  /** `resume` is the continuation if the loop stops here, `k` the number of posts gathered so far. */
  ghost function Refill(f: Filters, actor: Option<nat>, before: Option<Position>, resume: Option<Position>, k: nat,
          ws: seq<World>): Result
    decreases |ws|
  {
    if ws == [] || k >= f.limit then Result([], resume)
    else
      var b := Batch(f, actor, before, ws[0], f.limit - k);
      if b.next.None? then b
      else
        var rest := Refill(f, actor, b.next, b.next, k + |b.ids|, ws[1..]);
        Result(b.ids + rest.ids, rest.next)
  }

  lemma {:induction false} SetBound(ids: set<nat>, items: seq<Position>)
    requires forall id :: id in ids ==> exists i :: 0 <= i < |items| && items[i].id == id
    ensures |ids| <= |items|
  {
    if items != [] {
      var front, last := items[..|items| - 1], items[|items| - 1].id;
      var rest := ids - {last};
      forall id | id in rest ensures exists i :: 0 <= i < |front| && front[i].id == id {
        var i :| 0 <= i < |items| && items[i].id == id;
        assert front[i].id == id;
      }
      SetBound(rest, front);
      assert ids <= rest + {last};
    } else {
      assert ids == {};
    }
  }

  /** Asking again for the scanned posts, as many as were scanned, returns exactly those that still match. */
  lemma FreshCheckIsExact(f: Filters, actor: Option<nat>, s: Store, items: seq<Position>, id: nat)
    requires id in IdsOf(items)
    ensures id in IdsOf(Query(f, actor, s, None, Some(IdsOf(items)), |items|).items) <==> Matches(f, actor, s, id)
  {
    var chosen := Selected(f, actor, s, None, Some(IdsOf(items)));
    var ws := Listing(chosen);
    ListingLength(f, s, ws, items);
    assert Query(f, actor, s, None, Some(IdsOf(items)), |items|).items == ws;
    if Matches(f, actor, s, id) {
      assert PositionOf(f, s, id) in chosen;
      assert PositionOf(f, s, id) in ws;
    }
    if id in IdsOf(ws) {
      var p :| p in ws && p.id == id;
      assert p in chosen;
    }
  }

  lemma ListingLength(f: Filters, s: Store, ws: seq<Position>, items: seq<Position>)
    requires forall i, j :: 0 <= i < j < |ws| ==> Precedes(ws[i], ws[j])
    requires forall p :: p in ws ==> p.id in s.posts && p == PositionOf(f, s, p.id) && p.id in IdsOf(items)
    ensures |ws| <= |items|
  {
    var ids := IdsOf(ws);
    forall id | id in ids ensures exists i :: 0 <= i < |items| && items[i].id == id {
      var q :| q in items && q.id == id;
      var i :| 0 <= i < |items| && items[i] == q;
      assert items[i].id == id;
    }
    SetBound(ids, items);
    forall i, j | 0 <= i < j < |ws| ensures ws[i].id != ws[j].id {
      assert ws[i] in ws && ws[j] in ws && Precedes(ws[i], ws[j]);
    }
    DistinctIdsCount(ws);
  }

  lemma {:induction false} DistinctIdsCount(ws: seq<Position>)
    requires forall i, j :: 0 <= i < j < |ws| ==> ws[i].id != ws[j].id
    ensures |IdsOf(ws)| == |ws|
  {
    if ws != [] {
      var front, last := ws[..|ws| - 1], ws[|ws| - 1];
      DistinctIdsCount(front);
      assert ws == front + [last];
      assert IdsOf(ws) == IdsOf(front) + {last.id};
    }
  }

  /** The scanned posts are looked up again and those that still match and can be shown are kept. */
  method Gather(f: Filters, actor: Option<nat>, w: World, scanned: seq<Position>) returns (kept: seq<nat>)
    ensures kept == Kept(f, actor, w, scanned)
  {
    var current := ListPosts(f, actor, w.check, None, Some(IdsOf(scanned)), |scanned|);
    kept := [];
    for i := 0 to |scanned|
      invariant kept == Kept(f, actor, w, scanned[..i])
    {
      assert scanned[i].id in IdsOf(scanned);
      FreshCheckIsExact(f, actor, w.check, scanned, scanned[i].id);
      assert scanned[..i + 1][..i] == scanned[..i];
      if scanned[i].id in IdsOf(current.items) && scanned[i].id in w.readable {
        kept := kept + [scanned[i].id];
      }
    }
    assert scanned[..|scanned|] == scanned;
  }

  method ScanOnce(f: Filters, actor: Option<nat>, before: Option<Position>, w: World, limit: nat) returns (b: Result)
    ensures b == Batch(f, actor, before, w, limit)
  {
    var page := ListPosts(f, actor, w.scan, before, None, limit);
    if page.items == [] { return Result([], None); }
    var kept := Gather(f, actor, w, page.items);
    b := Result(kept, if page.hasMore then Some(page.items[|page.items| - 1]) else None);
  }

  /** `r` is a first batch and, if that has a continuation, the remaining batches after it. */
  ghost predicate Splits(f: Filters, actor: Option<nat>, k: nat, b: Result, rest: seq<World>, r: Result) {
    if b.next.None? then r == b
    else
      var more := Refill(f, actor, b.next, b.next, k + |b.ids|, rest);
      r == Result(b.ids + more.ids, more.next)
  }

  lemma RefillSplits(f: Filters, actor: Option<nat>, before: Option<Position>, resume: Option<Position>, k: nat,
          ws: seq<World>)
    requires ws != [] && k < f.limit
    ensures Splits(f, actor, k, Batch(f, actor, before, ws[0], f.limit - k), ws[1..],
                   Refill(f, actor, before, resume, k, ws))
  {}

  /** With these posts gathered, the remaining batches end in `target`. */
  ghost predicate LeadsTo(f: Filters, actor: Option<nat>, before: Option<Position>, resume: Option<Position>,
          items: seq<nat>,
                          ws: seq<World>, target: Result)
  {
    var rest := Refill(f, actor, before, resume, |items|, ws);
    target == Result(items + rest.ids, rest.next)
  }

  lemma BatchLeadsTo(f: Filters, actor: Option<nat>, before: Option<Position>, resume: Option<Position>,
                     items: seq<nat>, ws: seq<World>, b: Result, target: Result)
    requires LeadsTo(f, actor, before, resume, items, ws, target) && ws != [] && |items| < f.limit
    requires b == Batch(f, actor, before, ws[0], f.limit - |items|)
    ensures b.next.None? ==> target == Result(items + b.ids, None)
    ensures b.next.Some? ==> LeadsTo(f, actor, b.next, b.next, items + b.ids, ws[1..], target)
  {
    RefillSplits(f, actor, before, resume, |items|, ws);
    if b.next.Some? {
      var more := Refill(f, actor, b.next, b.next, |items| + |b.ids|, ws[1..]);
      assert items + (b.ids + more.ids) == items + b.ids + more.ids;
    }
  }

  lemma NoMoreBatches(f: Filters, actor: Option<nat>, before: Option<Position>, resume: Option<Position>,
                      items: seq<nat>, ws: seq<World>, target: Result)
    requires LeadsTo(f, actor, before, resume, items, ws, target) && (ws == [] || |items| >= f.limit)
    ensures target == Result(items, resume)
  {
    assert items + [] == items;
  }

  lemma FromTheStart(f: Filters, actor: Option<nat>, cursor: Option<Position>, ws: seq<World>)
    ensures LeadsTo(f, actor, cursor, None, [], ws[0..], Refill(f, actor, cursor, None, 0, ws))
  {
    var target := Refill(f, actor, cursor, None, 0, ws);
    assert [] + target.ids == target.ids && ws[0..] == ws;
  }

  /** One call: at most four batches, each scanning on from where the last one stopped. */
  method Search(f: Filters, actor: Option<nat>, cursor: Option<Position>, ws: seq<World>) returns (r: Result)
    requires |ws| == MAX_BATCHES
    ensures r == Refill(f, actor, cursor, None, 0, ws)
  {
    var items: seq<nat> := [];
    var before, lastScanned := cursor, None;
    var batch := 0;
    ghost var target := Refill(f, actor, cursor, None, 0, ws);
    FromTheStart(f, actor, cursor, ws);
    while batch < MAX_BATCHES && |items| < f.limit
      invariant 0 <= batch <= MAX_BATCHES
      invariant LeadsTo(f, actor, before, lastScanned, items, ws[batch..], target)
    {
      assert ws[batch..][0] == ws[batch] && ws[batch..][1..] == ws[batch + 1..];
      var b := ScanOnce(f, actor, before, ws[batch], f.limit - |items|);
      BatchLeadsTo(f, actor, before, lastScanned, items, ws[batch..], b, target);
      items := items + b.ids;
      if b.next.None? { return Result(items, None); }
      lastScanned, before := b.next, b.next;
      batch := batch + 1;
    }
    NoMoreBatches(f, actor, before, lastScanned, items, ws[batch..], target);
    r := Result(items, lastScanned);
  }
}
