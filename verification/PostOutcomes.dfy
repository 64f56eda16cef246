/**
 * What a page and a whole walk hold, in the fields of the posts and of the query alone: which posts are on them, in
 * which order, and when there is more.
 */
module PostOutcomes {
  import opened Common
  import opened PostPaging
  import opened PostWalks

  // ---------------------------------------------------------------- what a query asks for

  ghost predicate Within(text: string, content: string) {
    exists a: string, b: string :: content == a + text + b
  }

  /** Public, active, and with every property asked for; an empty text or topic asks for nothing. */
  ghost predicate Asked(f: Filters, actor: Option<nat>, s: Store, x: nat) {
    x in s.posts && s.posts[x].isPublic && s.posts[x].isActive
    && (f.language == None || f.language == Some(s.posts[x].language))
    && (f.text == None || f.text == Some("") || Within(f.text.value, s.posts[x].content))
    && (f.postType == None || f.postType == Some(s.posts[x].postType))
    && (f.topic == None || f.topic == Some("") || f.topic == s.posts[x].topic)
    && (f.savedByMe ==> actor != None && (actor.value, x) in s.saved)
  }

  predicate Younger(t: int, x: nat, u: int, y: nat) {
    t > u || (t == u && x > y)
  }

  /** Younger first, and when sorted by usefulness the more helpful before that. */
  predicate Comes(sort: Sort, s: Store, x: nat, y: nat)
    requires x in s.posts && y in s.posts
  {
    var p, q := s.posts[x], s.posts[y];
    match sort
    case Newest => Younger(p.createdAt, x, q.createdAt, y)
    case Useful => p.helpful > q.helpful || (p.helpful == q.helpful && Younger(p.createdAt, x, q.createdAt, y))
  }

  /** Strictly past the place the cursor names. */
  predicate Past(sort: Sort, s: Store, x: nat, cursor: Option<Position>)
    requires x in s.posts
  {
    cursor == None
    || var p, c := s.posts[x], cursor.value;
       match sort
       case Newest => Younger(c.createdAt, c.id, p.createdAt, x)
       case Useful => c.helpful > p.helpful || (c.helpful == p.helpful && Younger(c.createdAt, c.id, p.createdAt, x))
  }

  lemma OccursWithin(text: string, content: string, a: string, b: string)
    requires content == a + text + b
    ensures OccursAt(content, text, |a|)
  {}

  lemma WithinFrom(text: string, content: string, i: nat)
    requires OccursAt(content, text, i)
    ensures content == content[..i] + text + content[i + |text|..]
  {}

  lemma WithinIsContains(text: string, content: string)
    ensures Within(text, content) <==> Contains(content, text)
  {
    if Within(text, content) {
      var a, b :| content == a + text + b;
      OccursWithin(text, content, a, b);
    }
    if Contains(content, text) {
      var i :| 0 <= i <= |content| && OccursAt(content, text, i);
      WithinFrom(text, content, i);
    }
  }

  lemma AskedIsMatched(f: Filters, actor: Option<nat>, s: Store, x: nat)
    ensures Asked(f, actor, s, x) <==> Matches(f, actor, s, x)
  {
    if x in s.posts && f.text.Some? { WithinIsContains(f.text.value, s.posts[x].content); }
  }

  lemma ComesIsPrecedes(f: Filters, s: Store, x: nat, y: nat)
    requires x in s.posts && y in s.posts
    ensures Comes(f.sort, s, x, y) <==> Precedes(PositionOf(f, s, x), PositionOf(f, s, y))
  {}

  lemma PastIsBelow(f: Filters, s: Store, x: nat, cursor: Option<Position>)
    requires x in s.posts
    ensures Past(f.sort, s, x, cursor) <==> Below(f, PositionOf(f, s, x), cursor)
  {}

  // ---------------------------------------------------------------- one page

  /** The posts a query is about, wherever its page is cut. */
  ghost function Answers(f: Filters, actor: Option<nat>, s: Store, before: Option<Position>, ids: Option<set<nat>>)
    : set<nat>
  {
    set x | x in s.posts && Asked(f, actor, s, x) && (ids == None || x in ids.value) && Past(f.sort, s, x, before)
  }

  ghost function AnswersBefore(f: Filters, actor: Option<nat>, s: Store, before: Option<Position>,
          ids: Option<set<nat>>, x: nat): set<nat>
    requires x in s.posts
  {
    set y | y in Answers(f, actor, s, before, ids) && Comes(f.sort, s, y, x)
  }

  lemma AnswerIsSelected(f: Filters, actor: Option<nat>, s: Store, before: Option<Position>, ids: Option<set<nat>>,
          x: nat)
    requires x in s.posts
    ensures x in Answers(f, actor, s, before, ids) <==>
            PositionOf(f, s, x) in Selected(f, actor, s, before, ids)
  {
    AskedIsMatched(f, actor, s, x);
    PastIsBelow(f, s, x, before);
    if PositionOf(f, s, x) in Selected(f, actor, s, before, ids) {
      var y :| y in s.posts && PositionOf(f, s, y) == PositionOf(f, s, x) && Matches(f, actor, s, y)
               && (ids.None? || y in ids.value) && Below(f, PositionOf(f, s, y), before);
      assert y == x;
    }
  }

  /** The list names each answer once, in the order asked for. */
  ghost predicate Ranks(f: Filters, s: Store, ws: seq<Position>, answers: set<nat>) {
    (forall p :: p in ws <==> p.id in answers && p.id in s.posts && p == PositionOf(f, s, p.id))
    && forall i, j :: 0 <= i < j < |ws| ==> Precedes(ws[i], ws[j])
  }

  lemma ListingRanks(f: Filters, actor: Option<nat>, s: Store, before: Option<Position>, ids: Option<set<nat>>)
    ensures Ranks(f, s, Listing(Selected(f, actor, s, before, ids)), Answers(f, actor, s, before, ids))
  {
    var ws, chosen := Listing(Selected(f, actor, s, before, ids)), Selected(f, actor, s, before, ids);
    forall p
      ensures p in ws <==>
              p.id in Answers(f, actor, s, before, ids) && p.id in s.posts && p == PositionOf(f, s, p.id)
    {
      if p.id in s.posts { AnswerIsSelected(f, actor, s, before, ids, p.id); }
      assert p in ws <==> p in chosen;
    }
  }

  lemma RankedIdsDiffer(f: Filters, s: Store, ws: seq<Position>, answers: set<nat>)
    requires Ranks(f, s, ws, answers)
    ensures forall i, j :: 0 <= i < j < |ws| ==> ws[i].id != ws[j].id
  {
    forall i, j | 0 <= i < j < |ws| ensures ws[i].id != ws[j].id {
      assert ws[i] in ws && ws[j] in ws && Precedes(ws[i], ws[j]);
    }
  }

  lemma RankedAll(f: Filters, s: Store, ws: seq<Position>, answers: set<nat>)
    requires Ranks(f, s, ws, answers) && answers <= s.posts.Keys
    ensures |ws| == |answers| && IdsOf(ws) == answers
  {
    RankedIdsDiffer(f, s, ws, answers);
    DistinctIdsCount(ws);
    forall x ensures x in IdsOf(ws) <==> x in answers {
      if x in answers { assert PositionOf(f, s, x) in ws; }
    }
    assert IdsOf(ws) == answers;
  }

  /** The place of an answer in the list is the number of answers that come before it. */
  lemma RankIsCount(f: Filters, s: Store, ws: seq<Position>, answers: set<nat>, i: nat)
    requires Ranks(f, s, ws, answers) && answers <= s.posts.Keys && i < |ws|
    ensures ws[i].id in s.posts && |set y | y in answers && Comes(f.sort, s, y, ws[i].id)| == i
  {
    assert ws[i] in ws;
    RankedIdsDiffer(f, s, ws, answers);
    var sooner := set y | y in answers && Comes(f.sort, s, y, ws[i].id);
    forall y ensures y in sooner <==> y in IdsOf(ws[..i]) {
      if y in sooner {
        ComesIsPrecedes(f, s, y, ws[i].id);
        assert PositionOf(f, s, y) in ws;
        var j :| 0 <= j < |ws| && ws[j] == PositionOf(f, s, y);
        assert j < i;
        assert ws[..i][j] == ws[j];
      }
      if y in IdsOf(ws[..i]) {
        var p :| p in ws[..i] && p.id == y;
        var j :| 0 <= j < i && ws[j] == p;
        assert ws[j] in ws && Precedes(ws[j], ws[i]);
        ComesIsPrecedes(f, s, y, ws[i].id);
      }
    }
    assert sooner == IdsOf(ws[..i]);
    DistinctIdsCount(ws[..i]);
  }

  lemma CutHolds(f: Filters, s: Store, ws: seq<Position>, answers: set<nat>, limit: nat, x: nat)
    requires Ranks(f, s, ws, answers) && answers <= s.posts.Keys && x in answers
    ensures x in IdsOf(Cut(ws, limit).items) <==> |set y | y in answers && Comes(f.sort, s, y, x)| < limit
  {
    RankedIdsDiffer(f, s, ws, answers);
    assert PositionOf(f, s, x) in ws;
    var i :| 0 <= i < |ws| && ws[i] == PositionOf(f, s, x);
    RankIsCount(f, s, ws, answers, i);
    if i < limit { assert Cut(ws, limit).items[i] == ws[i]; }
    if x in IdsOf(Cut(ws, limit).items) {
      var p :| p in Cut(ws, limit).items && p.id == x;
      var j :| 0 <= j < |Cut(ws, limit).items| && Cut(ws, limit).items[j] == p;
      assert ws[j].id == ws[i].id;
    }
  }

  lemma CutHoldsOnly(f: Filters, s: Store, ws: seq<Position>, answers: set<nat>, limit: nat)
    requires Ranks(f, s, ws, answers)
    ensures var items := Cut(ws, limit).items;
            (forall i :: 0 <= i < |items| ==> items[i].id in answers && items[i].id in s.posts)
            && forall i, j :: 0 <= i < j < |items| ==> Comes(f.sort, s, items[i].id, items[j].id)
  {
    var items := Cut(ws, limit).items;
    forall i | 0 <= i < |items| ensures items[i] in ws { assert items[i] == ws[i]; }
    forall i, j | 0 <= i < j < |items| ensures Comes(f.sort, s, items[i].id, items[j].id) {
      assert items[i] == ws[i] && items[j] == ws[j] && ws[i] in ws && ws[j] in ws && Precedes(ws[i], ws[j]);
      ComesIsPrecedes(f, s, items[i].id, items[j].id);
    }
  }

  /**
   * A page holds exactly the answers that fewer than `limit` others come before, in the order asked for, and says
   * that there is more exactly when some answer is not on it.
   */
  lemma PageExactly(f: Filters, actor: Option<nat>, s: Store, before: Option<Position>, ids: Option<set<nat>>,
                    limit: nat, x: nat)
    ensures var page, answers := Query(f, actor, s, before, ids, limit), Answers(f, actor, s, before, ids);
            (x in IdsOf(page.items) <==>
                 x in answers && |AnswersBefore(f, actor, s, before, ids, x)| < limit)
            && (forall i :: 0 <= i < |page.items| ==> page.items[i].id in s.posts)
            && (forall i, j :: 0 <= i < j < |page.items| ==>
                  Comes(f.sort, s, page.items[i].id, page.items[j].id))
            && (page.hasMore <==> |answers| > limit)
            && |page.items| == if |answers| > limit then limit else |answers|
  {
    var ws, answers := Listing(Selected(f, actor, s, before, ids)), Answers(f, actor, s, before, ids);
    ListingRanks(f, actor, s, before, ids);
    RankedAll(f, s, ws, answers);
    CutHoldsOnly(f, s, ws, answers, limit);
    if x in IdsOf(Cut(ws, limit).items) {
      var p :| p in Cut(ws, limit).items && p.id == x;
      assert x in answers;
    }
    if x in answers {
      CutHolds(f, s, ws, answers, limit, x);
      assert AnswersBefore(f, actor, s, before, ids, x) == set y | y in answers && Comes(f.sort, s, y, x);
    }
  }

  // ---------------------------------------------------------------- one call and one walk

  lemma {:induction false} EverythingIsKept(f: Filters, actor: Option<nat>, w: World, items: seq<Position>)
    requires forall i :: 0 <= i < |items| ==> Shown(f, actor, w, items[i].id)
    ensures |Kept(f, actor, w, items)| == |items|
    ensures forall i :: 0 <= i < |items| ==> Kept(f, actor, w, items)[i] == items[i].id
  {
    if items != [] { EverythingIsKept(f, actor, w, items[..|items| - 1]); }
  }

  /**
   * While nothing changes and everything found can be shown, one call returns a full page of what the query asks
   * for, or all of it, and names a continuation exactly when there is more.
   */
  lemma CallIsOnePage(f: Filters, actor: Option<nat>, cursor: Option<Position>, s: Store, readable: set<nat>,
                      ws: seq<World>)
    requires f.limit >= 1 && ws != [] && ws[0] == World(s, s, readable)
    requires Answers(f, actor, s, cursor, None) <= readable
    ensures var r, page := Refill(f, actor, cursor, None, 0, ws), Query(f, actor, s, cursor, None, f.limit);
            |r.ids| == |page.items| && (forall i :: 0 <= i < |r.ids| ==> r.ids[i] == page.items[i].id)
            && (r.next.Some? <==> |Answers(f, actor, s, cursor, None)| > f.limit)
            && (r.next.Some? ==> page.items != [] && r.next.value == page.items[|page.items| - 1])
  {
    var page := Query(f, actor, s, cursor, None, f.limit);
    PageExactly(f, actor, s, cursor, None, f.limit, 0);
    forall i | 0 <= i < |page.items| ensures Shown(f, actor, ws[0], page.items[i].id) {
      PageExactly(f, actor, s, cursor, None, f.limit, page.items[i].id);
      assert page.items[i].id in IdsOf(page.items);
      AskedIsMatched(f, actor, s, page.items[i].id);
    }
    EverythingIsKept(f, actor, ws[0], page.items);
  }

  /** However the stores change, no call returns more posts than the query allows. */
  lemma {:induction false} CallIsBounded(f: Filters, actor: Option<nat>, cursor: Option<Position>,
          resume: Option<Position>, k: nat, ws: seq<World>)
    requires k <= f.limit
    ensures k + |Refill(f, actor, cursor, resume, k, ws).ids| <= f.limit
    decreases |ws|
  {
    if ws != [] && k < f.limit {
      var page := Query(f, actor, ws[0].scan, cursor, None, f.limit - k);
      KeptIsBounded(f, actor, ws[0], page.items);
      var b := Batch(f, actor, cursor, ws[0], f.limit - k);
      if b.next.Some? { CallIsBounded(f, actor, b.next, b.next, k + |b.ids|, ws[1..]); }
    }
  }

  lemma {:induction false} KeptIsBounded(f: Filters, actor: Option<nat>, w: World, items: seq<Position>)
    ensures |Kept(f, actor, w, items)| <= |items|
  {
    if items != [] { KeptIsBounded(f, actor, w, items[..|items| - 1]); }
  }

  /** A post that a store held at this place and that the query asks for. */
  ghost predicate FoundAt(f: Filters, actor: Option<nat>, s: Store, p: Position) {
    Asked(f, actor, s, p.id) && s.posts[p.id].createdAt == p.createdAt
    && p.helpful == match f.sort case Newest => 0 case Useful => s.posts[p.id].helpful
  }

  lemma BatchEndIsFound(f: Filters, actor: Option<nat>, before: Option<Position>, w: World, limit: nat)
    ensures var next := Batch(f, actor, before, w, limit).next;
            next.Some? ==> FoundAt(f, actor, w.scan, next.value)
  {
    var next := Batch(f, actor, before, w, limit).next;
    if next.Some? {
      PageScans(f, actor, w.scan, before, limit);
      AskedIsMatched(f, actor, w.scan, next.value.id);
    }
  }

  /** A call that says there is more and is short of posts has used all its batches: it stopped at the last scan. */
  lemma {:induction false} ShortCallTriedEverything(f: Filters, actor: Option<nat>, cursor: Option<Position>,
          resume: Option<Position>, k: nat, ws: seq<World>)
    requires ws != []
    ensures var r := Refill(f, actor, cursor, resume, k, ws);
            r.next.Some? && k + |r.ids| < f.limit ==> FoundAt(f, actor, ws[|ws| - 1].scan, r.next.value)
    decreases |ws|
  {
    if k < f.limit {
      var b := Batch(f, actor, cursor, ws[0], f.limit - k);
      RefillSplits(f, actor, cursor, resume, k, ws);
      if |ws| > 1 {
        ShortCallTriedEverything(f, actor, b.next, b.next, k + |b.ids|, ws[1..]);
      } else {
        BatchEndIsFound(f, actor, cursor, ws[0], f.limit - k);
      }
    }
  }

  /**
   * On an unchanged store a finished walk of calls of four batches returns exactly the posts asked for that are past
   * its first cursor and can be shown, each once and in the order asked for.
   */
  lemma WalkAnswersExactly(f: Filters, actor: Option<nat>, cursor: Option<Position>, s: Store, readable: set<nat>,
                           calls: seq<seq<World>>, x: nat)
    requires f.limit >= 1 && forall i :: 0 <= i < |calls| ==> |calls[i]| == 4
    requires Unchanged(calls, World(s, s, readable)) && Walk(f, actor, cursor, calls).finished
    ensures var got := Walk(f, actor, cursor, calls).ids;
            (x in got <==> x in s.posts && Asked(f, actor, s, x) && Past(f.sort, s, x, cursor) && x in readable)
            && (forall i :: 0 <= i < |got| ==> got[i] in s.posts)
            && forall i, j :: 0 <= i < j < |got| ==> Comes(f.sort, s, got[i], got[j])
  {
    var got, members := Walk(f, actor, cursor, calls).ids, Visible(f, actor, s, cursor, readable);
    var all := Listing(members);
    UnchangedStoreIsListed(f, actor, cursor, s, readable, calls);
    VisibleExactly(f, actor, s, cursor, readable, x);
    if x in got {
      var i :| 0 <= i < |got| && got[i] == x;
      assert all[i] in members;
    }
    if exists p :: p in members && p.id == x {
      var p :| p in members && p.id == x;
      assert p in all;
      var i :| 0 <= i < |all| && all[i] == p;
      assert got[i] == x;
    }
    forall i | 0 <= i < |got| ensures all[i] in members && got[i] in s.posts && all[i] == PositionOf(f, s, got[i]) {
      assert all[i] in all;
    }
    forall i, j | 0 <= i < j < |got| ensures Comes(f.sort, s, got[i], got[j]) {
      assert Precedes(all[i], all[j]);
      ComesIsPrecedes(f, s, got[i], got[j]);
    }
  }

  lemma VisibleExactly(f: Filters, actor: Option<nat>, s: Store, cursor: Option<Position>, readable: set<nat>, x: nat)
    ensures (exists p :: p in Visible(f, actor, s, cursor, readable) && p.id == x) <==>
            x in s.posts && Asked(f, actor, s, x) && Past(f.sort, s, x, cursor) && x in readable
  {
    AskedIsMatched(f, actor, s, x);
    if x in s.posts {
      PastIsBelow(f, s, x, cursor);
      if Matches(f, actor, s, x) && Below(f, PositionOf(f, s, x), cursor) && x in readable {
        assert PositionOf(f, s, x) in Visible(f, actor, s, cursor, readable);
      }
    }
  }
}
