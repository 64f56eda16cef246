/** What every interleaving of setup, subscriber, timer, ticks and abort keeps. */
module HintStreamRuns {
  import opened Common
  import opened HintStream

  // ---------------------------------------------------------------- what every interleaving keeps

  function Hints(es: seq<Emission>): seq<int> {
    if es == [] then []
    else Hints(es[..|es| - 1]) + (if es[|es| - 1].Hint? then [es[|es| - 1].version] else [])
  }

  predicate Increasing(vs: seq<int>) {
    forall i, j :: 0 <= i < j < |vs| ==> vs[i] < vs[j]
  }

  lemma HintsAppend(es: seq<Emission>, e: Emission)
    ensures Hints(es + [e]) == Hints(es) + (if e.Hint? then [e.version] else [])
  {
    assert (es + [e])[..|es|] == es;
  }

  /** Released once if stopped with a lease, and never otherwise. */
  predicate LeaseOk(s: Stream) {
    var stopped := s.closed && s.hold.lease.Some?;
    s.hold.releases == (if stopped then [s.hold.lease.value] else [])
    && s.hold.releasing == stopped
    && (s.setup == Authorizing || s.setup == Acquiring ==> s.hold.lease.None?)
    && (s.setup == Polling || s.setup == Reauthorizing || s.setup == Opened ==> s.hold.lease.Some?)
    && (s.setup == SetupFailed ==> s.closed)
    && (s.listening <==> !s.closed)
  }

  predicate TimersOk(t: Timers) {
    t.armed <= (if t.handle.Some? then {t.handle.value} else {}) && forall x :: x in t.armed ==> x < t.next
  }

  /** While subscribed and open, exactly one of a timer and a tick is under way. */
  predicate TimerOk(s: Stream) {
    TimersOk(s.timers)
    && (s.closed ==> s.timers.armed == {})
    && (!s.subscribed ==> s.tick == Idle && s.timers.armed == {})
    && (s.subscribed && !s.closed ==> (s.tick == Idle <==> s.timers.armed != {}))
    && (s.subscribed && !s.closed ==> s.live)
  }

  /** The hints sent so far, and what they say about where the feed stands. */
  predicate FeedOk(f: Feed, cursor: Option<int>) {
    var hints := Hints(f.emitted);
    Increasing(hints)
    && (hints != [] ==> hints[|hints| - 1] == f.version)
    && forall v :: v in hints ==> cursor.Some? ==> cursor.value <= v
  }

  predicate HintsOk(s: Stream) {
    FeedOk(s.feed, s.cursor)
    && (s.cursor.Some? && (s.setup == Reauthorizing || s.setup == Opened) ==> s.cursor.value <= s.feed.version)
    && (s.subscribed ==> s.setup == Opened && Hints(s.feed.emitted) != [])
    && (!s.subscribed ==> s.feed.emitted == [])
  }

  ghost predicate Inv(s: Stream) {
    LeaseOk(s) && TimerOk(s) && HintsOk(s)
  }

  lemma SendHint(f: Feed, cursor: Option<int>, v: int)
    requires FeedOk(f, cursor) && (Hints(f.emitted) != [] ==> f.version < v) && (cursor.Some? ==> cursor.value <= v)
    ensures FeedOk(Emit(f.(version := v), Hint(v)), cursor) && Hints(Emit(f.(version := v), Hint(v)).emitted) != []
  {
    HintsAppend(f.emitted, Hint(v));
  }

  lemma SendKeepAlive(f: Feed, cursor: Option<int>, now: int)
    requires FeedOk(f, cursor)
    ensures var g := Emit(f.(heartbeatAt := now), KeepAlive);
            FeedOk(g, cursor) && Hints(g.emitted) == Hints(f.emitted) && g.emitted != []
  {
    HintsAppend(f.emitted, KeepAlive);
  }

  lemma StopKeeps(s: Stream)
    requires LeaseOk(s) || (s.hold.lease.Some? && s.hold.releasing == (s.hold.releases != [])
                            && s.hold.releases <= [s.hold.lease.value])
    requires TimersOk(s.timers)
    ensures var t := Stop(s);
            t.timers.armed == {} && TimersOk(t.timers) && t.hold.releasing == t.hold.lease.Some?
            && t.hold.releases == (if t.hold.lease.Some? then [t.hold.lease.value] else [])
  {}

  lemma SetupKeeps(s: Stream, e: Event)
    requires Inv(s) && (e.Authorized? || e.Acquired? || e.Polled?)
    ensures Inv(Apply(s, e))
  {
    StopKeeps(s);
    if e.Acquired? && s.setup == Acquiring && e.lease.Some? { StopKeeps(s.(hold := s.hold.(lease := e.lease))); }
  }

  lemma SubscribeKeeps(s: Stream, leaves: bool)
    requires Inv(s)
    ensures Inv(OnSubscribe(s, leaves))
  {
    if s.setup == Opened && !s.closed && !s.subscribed {
      assert Hints(s.feed.emitted) == [];
      SendHint(s.feed, s.cursor, s.feed.version);
      assert s.feed.(version := s.feed.version) == s.feed;
    }
  }

  /** Pieces of a tick that leave the invariants of the lease and the feed alone. */
  predicate Ticking(s: Stream) {
    LeaseOk(s) && TimersOk(s.timers) && HintsOk(s) && s.subscribed && (s.closed ==> s.timers.armed == {})
    && (!s.closed ==> s.live && s.timers.armed == {})
  }

  lemma FinishKeeps(s: Stream)
    requires Ticking(s)
    ensures Inv(Finish(s))
  {}

  lemma StopTicking(s: Stream)
    requires Ticking(s)
    ensures Ticking(Stop(s))
  {}

  lemma AdvanceTicking(s: Stream, current: int, leaves: bool)
    requires Ticking(s)
    ensures Ticking(Advance(s, current, leaves))
  {
    if current > s.feed.version {
      SendHint(s.feed, s.cursor, current);
      var t := s.(feed := Emit(s.feed.(version := current), Hint(current)));
      assert Ticking(t);
      StopTicking(t);
    }
  }

  lemma BeatTicking(s: Stream, now: int, leaves: bool)
    requires Ticking(s)
    ensures Ticking(Beat(s, now, leaves))
  {
    SendKeepAlive(s.feed, s.cursor, now);
    var t := s.(feed := Emit(s.feed.(heartbeatAt := now), KeepAlive));
    assert Ticking(t);
    StopTicking(t);
  }

  /** Every way a tick can end. */
  lemma TickEndKeeps(s: Stream, current: int, now: int, leavesAfterHint: bool, leavesAfterKeepAlive: bool)
    requires Ticking(s)
    ensures Inv(Finish(s)) && Inv(Finish(Stop(s)))
    ensures Inv(Finish(Beat(Advance(s, current, leavesAfterHint), now, leavesAfterKeepAlive)))
  {
    StopTicking(s);
    FinishKeeps(s);
    FinishKeeps(Stop(s));
    AdvanceTicking(s, current, leavesAfterHint);
    BeatTicking(Advance(s, current, leavesAfterHint), now, leavesAfterKeepAlive);
    FinishKeeps(Beat(Advance(s, current, leavesAfterHint), now, leavesAfterKeepAlive));
  }

  /** A tick that goes on waits for something else, and that is all. */
  lemma TickGoesOn(s: Stream, tick: Tick)
    requires Inv(s) && s.tick != Idle && tick != Idle
    ensures Inv(s.(tick := tick))
  {}

  lemma TickShape(s: Stream, e: Event)
    requires e.TickAuthorized? || e.TickPolled?
    ensures var t := Apply(s, e);
            t == s || t == Finish(s) || t == Finish(Stop(s)) || (t.tick != Idle && t == s.(tick := t.tick))
            || (s.tick.AfterPoll? && e.TickAuthorized?
                && t == Finish(Beat(Advance(s, s.tick.current, e.leavesAfterHint), e.now, e.leavesAfterKeepAlive)))
  {}

  lemma TickKeeps(s: Stream, e: Event)
    requires Inv(s) && (e.TickAuthorized? || e.TickPolled?)
    ensures Inv(Apply(s, e))
  {
    if s.tick != Idle {
      assert Ticking(s);
      TickShape(s, e);
      var t := Apply(s, e);
      if s.tick.AfterPoll? && e.TickAuthorized? {
        TickEndKeeps(s, s.tick.current, e.now, e.leavesAfterHint, e.leavesAfterKeepAlive);
      } else {
        TickEndKeeps(s, 0, 0, false, false);
      }
      if t.tick != Idle { TickGoesOn(s, t.tick); }
    }
  }

  lemma EdgeKeeps(s: Stream, e: Event)
    requires Inv(s) && (e.Abort? || e.Unsubscribe? || e.Fire?)
    ensures Inv(Apply(s, e))
  {
    StopKeeps(s);
  }

  lemma {:induction false} RunKeeps(s: Stream, events: seq<Event>)
    requires Inv(s)
    ensures Inv(Run(s, events))
    decreases |events|
  {
    if events != [] {
      var e := events[0];
      if e.TickAuthorized? || e.TickPolled? { TickKeeps(s, e); }
      else if e.Subscribe? { SubscribeKeeps(s, e.leaves); }
      else if e.Abort? || e.Unsubscribe? || e.Fire? { EdgeKeeps(s, e); }
      else { SetupKeeps(s, e); }
      RunKeeps(Apply(s, e), events[1..]);
    }
  }

  lemma BeginHolds(aborted: bool, cursor: Option<int>)
    ensures Inv(Begin(aborted, cursor))
  {}

  // ---------------------------------------------------------------- the theorems

  /** What no tick ever touches. */
  predicate SameFrame(s: Stream, t: Stream) {
    t.cursor == s.cursor && t.setup == s.setup && t.hold.lease == s.hold.lease
  }

  lemma BeatFrame(s: Stream, now: int, leaves: bool)
    ensures SameFrame(s, Beat(s, now, leaves))
  {}

  lemma AdvanceFrame(s: Stream, current: int, leaves: bool)
    ensures SameFrame(s, Advance(s, current, leaves))
  {}

  lemma TickFrame(s: Stream, e: Event)
    requires e.TickAuthorized? || e.TickPolled?
    ensures SameFrame(s, Apply(s, e))
  {
    TickShape(s, e);
    if e.TickAuthorized? && s.tick.AfterPoll? {
      AdvanceFrame(s, s.tick.current, e.leavesAfterHint);
      BeatFrame(Advance(s, s.tick.current, e.leavesAfterHint), e.now, e.leavesAfterKeepAlive);
    }
  }

  lemma CursorStaysOnce(s: Stream, e: Event)
    ensures Apply(s, e).cursor == s.cursor
  {
    if e.TickAuthorized? || e.TickPolled? { TickFrame(s, e); }
  }

  lemma {:induction false} CursorStays(s: Stream, events: seq<Event>)
    ensures Run(s, events).cursor == s.cursor
    decreases |events|
  {
    if events != [] {
      CursorStaysOnce(s, events[0]);
      CursorStays(Apply(s, events[0]), events[1..]);
    }
  }

  /** Hints strictly increase and never fall below the client's cursor. */
  lemma HintsIncrease(aborted: bool, cursor: Option<int>, events: seq<Event>)
    ensures var hints := Hints(Run(Begin(aborted, cursor), events).feed.emitted);
            Increasing(hints) && forall v :: v in hints ==> cursor.Some? ==> cursor.value <= v
  {
    BeginHolds(aborted, cursor);
    RunKeeps(Begin(aborted, cursor), events);
    CursorStays(Begin(aborted, cursor), events);
  }

  lemma QuietTick(s: Stream, e: Event)
    requires s.closed && (e.TickAuthorized? || e.TickPolled?)
    ensures var t := Apply(s, e);
            t.closed && t.feed.emitted == s.feed.emitted && t.timers.armed <= s.timers.armed
  {}

  lemma QuietOnce(s: Stream, e: Event)
    requires s.closed
    ensures var t := Apply(s, e);
            t.closed && t.feed.emitted == s.feed.emitted && t.timers.armed <= s.timers.armed
  {
    if e.TickAuthorized? || e.TickPolled? { QuietTick(s, e); }
  }

  /** Once stopped, a stream stays stopped, emits nothing more and arms no timer. */
  lemma {:induction false} NothingAfterStop(s: Stream, events: seq<Event>)
    requires s.closed
    ensures var t := Run(s, events);
            t.closed && t.feed.emitted == s.feed.emitted && t.timers.armed <= s.timers.armed
    decreases |events|
  {
    if events != [] {
      QuietOnce(s, events[0]);
      NothingAfterStop(Apply(s, events[0]), events[1..]);
    }
  }

  /** At most one timer is armed, and while a subscriber is served exactly one of a timer and a tick is alive. */
  lemma OneTimer(aborted: bool, cursor: Option<int>, events: seq<Event>)
    ensures var s := Run(Begin(aborted, cursor), events);
            |s.timers.armed| <= 1 && (s.closed ==> s.timers.armed == {})
            && (s.subscribed && !s.closed ==> (s.tick == Idle <==> s.timers.armed != {}))
  {
    BeginHolds(aborted, cursor);
    RunKeeps(Begin(aborted, cursor), events);
    var t := Run(Begin(aborted, cursor), events).timers;
    if t.handle.Some? {
      assert t.armed == {} || t.armed == {t.handle.value};
    }
  }

  /** An acquired lease is released exactly once when the stream stops or setup fails, and not before. */
  lemma LeaseIsReleasedOnce(aborted: bool, cursor: Option<int>, events: seq<Event>)
    ensures var s := Run(Begin(aborted, cursor), events);
            s.hold.releases == (if s.closed && s.hold.lease.Some? then [s.hold.lease.value] else [])
            && (s.setup == SetupFailed ==> s.closed)
  {
    BeginHolds(aborted, cursor);
    RunKeeps(Begin(aborted, cursor), events);
  }

  predicate PastAcquiring(s: Stream) {
    s.setup != Authorizing && s.setup != Acquiring
  }

  lemma LeaseStaysOnce(s: Stream, e: Event)
    requires PastAcquiring(s)
    ensures Apply(s, e).hold.lease == s.hold.lease && PastAcquiring(Apply(s, e))
  {
    if e.TickAuthorized? || e.TickPolled? { TickFrame(s, e); }
  }

  /** Once setup is past acquiring, the lease never changes: the one released is the one acquired. */
  lemma {:induction false} LeaseStays(s: Stream, events: seq<Event>)
    requires PastAcquiring(s)
    ensures Run(s, events).hold.lease == s.hold.lease
    decreases |events|
  {
    if events != [] {
      LeaseStaysOnce(s, events[0]);
      LeaseStays(Apply(s, events[0]), events[1..]);
    }
  }
}
