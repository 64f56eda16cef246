/**
 * What a client of the stream is sent: whatever has interleaved before, each piece of a tick, of setup and of the
 * subscriber does exactly this.
 */
module HintOutcomes {
  import opened Common
  import opened HintStream
  import opened HintStreamRuns

  /** The version the client was told last. */
  function LastHint(es: seq<Emission>): Option<int> {
    if es == [] then None
    else match es[|es| - 1]
         case Hint(v) => Some(v)
         case KeepAlive => LastHint(es[..|es| - 1])
  }

  lemma {:induction false} LastOfHints(es: seq<Emission>)
    ensures LastHint(es) == if Hints(es) == [] then None else Some(Hints(es)[|Hints(es)| - 1])
  {
    if es != [] { LastOfHints(es[..|es| - 1]); }
  }

  ghost predicate Reachable(s: Stream) {
    exists aborted: bool, cursor: Option<int>, events: seq<Event> :: s == Run(Begin(aborted, cursor), events)
  }

  lemma ReachableHolds(s: Stream)
    requires Reachable(s)
    ensures Inv(s)
  {
    var aborted: bool, cursor: Option<int>, events: seq<Event> :| s == Run(Begin(aborted, cursor), events);
    BeginHolds(aborted, cursor);
    RunKeeps(Begin(aborted, cursor), events);
  }

  /** A subscriber is attached and nothing stopped the stream. */
  predicate Serving(s: Stream) {
    s.subscribed && !s.closed
  }

  /** Closed for good, with no timer, nothing more sent, and the lease it held released once. */
  predicate Stopped(s: Stream, t: Stream) {
    t.closed && t.timers.armed == {} && t.feed.emitted == s.feed.emitted
    && (s.hold.lease.Some? ==> t.hold.releases == [s.hold.lease.value])
    && (s.hold.lease.None? ==> t.hold.releases == [])
  }

  lemma VersionIsLastHint(s: Stream)
    requires Inv(s) && Serving(s)
    ensures LastHint(s.feed.emitted) == Some(s.feed.version) && s.hold.lease.Some? && s.hold.releases == []
  {
    LastOfHints(s.feed.emitted);
  }

  // ---------------------------------------------------------------- the end of a tick

  /** What a tick that read this version sends. */
  function Sent(last: int, read: int, beats: bool): seq<Emission> {
    (if read > last then [Hint(read)] else []) + (if beats then [KeepAlive] else [])
  }

  /** One timer is running, and no tick. */
  predicate WaitsForTimer(t: Stream) {
    t.tick == Idle && exists x :: x in t.timers.armed && t.timers.armed == {x}
  }

  lemma FinishWaits(s: Stream)
    requires Ticking(s)
    ensures Finish(s).tick == Idle && Finish(s).feed == s.feed && Finish(s).closed == s.closed
    ensures Finish(s).hold == s.hold && (s.closed ==> Finish(s).timers == s.timers)
    ensures !s.closed ==> WaitsForTimer(Finish(s))
  {
    if !s.closed { assert Finish(s).timers.armed == {s.timers.next}; }
  }

  /** Where the feed stands after a tick whose stream stayed up until it sent what it had to. */
  predicate Announced(s: Stream, t: Stream, read: int, now: int, leavesAfterHint: bool, leavesAfterKeepAlive: bool) {
    var last := s.feed.version;
    var gone := read > last && leavesAfterHint;
    var beats := !gone && now - s.feed.heartbeatAt >= 25000;
    t.feed.emitted == s.feed.emitted + Sent(last, read, beats)
    && t.feed.version == (if read > last then read else last)
    && t.feed.heartbeatAt == (if beats then now else s.feed.heartbeatAt)
    && (t.closed <==> gone || (beats && leavesAfterKeepAlive))
  }

  lemma AnnouncesOnce(s: Stream, read: int, now: int, leavesAfterHint: bool, leavesAfterKeepAlive: bool)
    requires !s.closed
    ensures Announced(s, Beat(Advance(s, read, leavesAfterHint), now, leavesAfterKeepAlive), read, now, leavesAfterHint,
                      leavesAfterKeepAlive)
  {}

  /** The last await of a tick has returned. */
  predicate TickEnds(s: Stream, t: Stream, ok: bool, now: int, leavesAfterHint: bool, leavesAfterKeepAlive: bool)
    requires s.tick.AfterPoll? && LastHint(s.feed.emitted).Some? && s.hold.lease.Some?
  {
    var read, last := s.tick.current, LastHint(s.feed.emitted).value;
    t.tick == Idle
    && if !ok || read < last then Stopped(s, t)
       else
         Announced(s, t, read, now, leavesAfterHint, leavesAfterKeepAlive)
         && (t.closed ==> t.timers.armed == {} && t.hold.releases == [s.hold.lease.value])
         && (!t.closed ==> WaitsForTimer(t) && t.hold.releases == [])
  }

  /** A tick that ends the stream. */
  lemma TickStops(s: Stream)
    requires Ticking(s) && !s.closed && s.hold.lease.Some? && s.hold.releases == []
    ensures Stopped(s, Finish(Stop(s))) && Finish(Stop(s)).tick == Idle
  {
    StopTicking(s);
    FinishWaits(Stop(s));
  }

  lemma TickAnnounces(s: Stream, read: int, now: int, leavesAfterHint: bool, leavesAfterKeepAlive: bool)
    requires Ticking(s) && !s.closed && s.hold.lease.Some?
    ensures var t := Finish(Beat(Advance(s, read, leavesAfterHint), now, leavesAfterKeepAlive));
            t.tick == Idle && Announced(s, t, read, now, leavesAfterHint, leavesAfterKeepAlive)
            && (t.closed ==> t.timers.armed == {} && t.hold.releases == [s.hold.lease.value])
            && (!t.closed ==> WaitsForTimer(t) && t.hold.releases == [])
  {
    var a := Advance(s, read, leavesAfterHint);
    var b := Beat(a, now, leavesAfterKeepAlive);
    AnnouncesOnce(s, read, now, leavesAfterHint, leavesAfterKeepAlive);
    AdvanceTicking(s, read, leavesAfterHint);
    BeatTicking(a, now, leavesAfterKeepAlive);
    AdvanceFrame(s, read, leavesAfterHint);
    BeatFrame(a, now, leavesAfterKeepAlive);
    FinishWaits(b);
  }

  /**
   * However setup, subscriber, abort and earlier ticks have interleaved: a tick that reads a version behind the last
   * hint, or that loses its authorization, stops the stream; a later version is sent, and every 25 seconds a sign of
   * life, and unless the subscriber leaves the next tick is due.
   */
  lemma TickEndsExactly(s: Stream, ok: bool, now: int, leavesAfterHint: bool, leavesAfterKeepAlive: bool)
    requires Reachable(s) && Serving(s) && s.tick.AfterPoll?
    ensures LastHint(s.feed.emitted).Some? && s.hold.lease.Some?
    ensures TickEnds(s, Apply(s, TickAuthorized(ok, now, leavesAfterHint, leavesAfterKeepAlive)), ok, now,
                     leavesAfterHint, leavesAfterKeepAlive)
  {
    ReachableHolds(s);
    VersionIsLastHint(s);
    assert Ticking(s);
    if !ok || s.tick.current < s.feed.version {
      TickStops(s);
    } else {
      TickAnnounces(s, s.tick.current, now, leavesAfterHint, leavesAfterKeepAlive);
    }
  }

  // ---------------------------------------------------------------- the whole tick

  /** While a tick waits for its first authorization or for its poll, nothing is sent, and any failure stops. */
  lemma TickStartsExactly(s: Stream, ok: bool, now: int, version: Option<int>, a: bool, b: bool)
    requires Reachable(s) && Serving(s)
    ensures s.tick == BeforePoll ==>
              var t := Apply(s, TickAuthorized(ok, now, a, b));
              if ok then t == s.(tick := DuringPoll) else Stopped(s, t) && t.tick == Idle
    ensures s.tick == DuringPoll ==>
              var t := Apply(s, TickPolled(version));
              if version.Some? then t == s.(tick := AfterPoll(version.value)) else Stopped(s, t) && t.tick == Idle
  {
    ReachableHolds(s);
    VersionIsLastHint(s);
    if s.tick != Idle {
      assert Ticking(s);
      TickStops(s);
    }
  }

  lemma ReachesOn(s: Stream, e: Event)
    requires Reachable(s)
    ensures Reachable(Apply(s, e))
  {
    var aborted: bool, cursor: Option<int>, events: seq<Event> :| s == Run(Begin(aborted, cursor), events);
    RunOn(Begin(aborted, cursor), events, e);
  }

  lemma {:induction false} RunOn(s: Stream, events: seq<Event>, e: Event)
    ensures Run(s, events + [e]) == Apply(Run(s, events), e)
    decreases |events|
  {
    if events == [] {
      assert Run(s, [e]) == Run(Apply(s, e), [e][1..]);
    } else {
      assert (events + [e])[1..] == events[1..] + [e];
      RunOn(Apply(s, events[0]), events[1..], e);
    }
  }

  /** A tick whose three awaits succeed tells the client the version it read, if that is news. */
  lemma NewsIsSent(s: Stream, version: int, first: int, now: int, leavesAfterHint: bool, leavesAfterKeepAlive: bool)
    requires Reachable(s) && Serving(s) && s.tick == BeforePoll
    ensures LastHint(s.feed.emitted).Some?
    ensures var last := LastHint(s.feed.emitted).value;
            var t := Run(s, [TickAuthorized(true, first, false, false), TickPolled(Some(version)),
                             TickAuthorized(true, now, leavesAfterHint, leavesAfterKeepAlive)]);
            (version > last ==>
                 LastHint(t.feed.emitted) == Some(version) && s.feed.emitted + [Hint(version)] <= t.feed.emitted
                 && (!leavesAfterHint && !leavesAfterKeepAlive ==> Serving(t) && WaitsForTimer(t)))
            && (version <= last ==> LastHint(t.feed.emitted) == Some(last))
            && (version < last ==> Stopped(s, t))
  {
    ReachableHolds(s);
    VersionIsLastHint(s);
    var e1, e2 := TickAuthorized(true, first, false, false), TickPolled(Some(version));
    var e3 := TickAuthorized(true, now, leavesAfterHint, leavesAfterKeepAlive);
    TickStartsExactly(s, true, first, None, false, false);
    var a := Apply(s, e1);
    ReachesOn(s, e1);
    TickStartsExactly(a, true, first, Some(version), false, false);
    var b := Apply(a, e2);
    ReachesOn(a, e2);
    TickEndsExactly(b, true, now, leavesAfterHint, leavesAfterKeepAlive);
    var t := Apply(b, e3);
    ThreeSteps(s, e1, e2, e3);
    if version >= s.feed.version {
      SentLast(s.feed.emitted, s.feed.version, version, false);
      SentLast(s.feed.emitted, s.feed.version, version, true);
      TickKeepsSubscriber(b, e3);
    }
  }

  lemma ThreeSteps(s: Stream, e1: Event, e2: Event, e3: Event)
    ensures Run(s, [e1, e2, e3]) == Apply(Apply(Apply(s, e1), e2), e3)
  {
    assert [e1, e2, e3][1..] == [e2, e3] && [e2, e3][1..] == [e3] && [e3][1..] == [];
    var a := Apply(s, e1);
    assert Run(s, [e1, e2, e3]) == Run(a, [e2, e3]) && Run(a, [e2, e3]) == Run(Apply(a, e2), [e3]);
  }

  lemma TickKeepsSubscriber(s: Stream, e: Event)
    requires e.TickAuthorized? && s.subscribed
    ensures Apply(s, e).subscribed
  {}

  lemma SentLast(es: seq<Emission>, last: int, read: int, beats: bool)
    requires LastHint(es) == Some(last)
    ensures LastHint(es + Sent(last, read, beats)) == Some(if read > last then read else last)
    ensures read > last ==> es + [Hint(read)] <= es + Sent(last, read, beats)
  {
    var hinted := es + (if read > last then [Hint(read)] else []);
    if read > last {
      assert hinted[|hinted| - 1] == Hint(read);
    } else {
      assert hinted == es;
    }
    if beats {
      assert es + Sent(last, read, beats) == hinted + [KeepAlive];
      assert (hinted + [KeepAlive])[..|hinted|] == hinted;
    } else {
      assert es + Sent(last, read, beats) == hinted;
    }
  }

  // ---------------------------------------------------------------- setup, subscriber and abort

  /**
   * An undisturbed setup opens the stream exactly when both authorizations pass, a lease is granted and a version is
   * read that is not behind the client's cursor; its first subscriber is told that version at once.
   */
  lemma OpensExactly(cursor: Option<int>, first: bool, lease: Option<nat>, version: Option<int>, second: bool, t0: int,
                     now: int)
    ensures var s := Run(Begin(false, cursor),
                         [Authorized(first, t0), Acquired(lease), Polled(version), Authorized(second, now)]);
            var opens := first && lease.Some? && version.Some? && (cursor.Some? ==> cursor.value <= version.value)
                         && second;
            (s.setup == Opened <==> opens) && (s.setup == SetupFailed <==> !opens) && (s.closed <==> !opens)
            && s.feed.emitted == [] && s.timers.armed == {}
            && s.hold.releases == (if !opens && first && lease.Some? then [lease.value] else [])
            && (opens ==>
                  var t := Apply(s, Subscribe(false));
                  t.feed == Feed(version.value, now, [Hint(version.value)]) && Serving(t) && WaitsForTimer(t))
  {
    var e1, e2, e3, e4 := Authorized(first, t0), Acquired(lease), Polled(version), Authorized(second, now);
    var s0 := Begin(false, cursor);
    assert [e1, e2, e3, e4][1..] == [e2, e3, e4];
    ThreeSteps(Apply(s0, e1), e2, e3, e4);
    var s := Apply(Apply(Apply(Apply(s0, e1), e2), e3), e4);
    assert Run(s0, [e1, e2, e3, e4]) == s;
    if s.setup == Opened {
      assert Apply(s, Subscribe(false)).timers.armed == {0};
    }
  }

  /** An open stream takes one subscriber, told the version read last; a second one gets nothing. */
  lemma SubscribesExactly(s: Stream, leaves: bool)
    requires Reachable(s)
    ensures var t := Apply(s, Subscribe(leaves));
            if s.setup != Opened || s.closed || s.subscribed then t == s
            else
              t.feed == s.feed.(emitted := [Hint(s.feed.version)]) && t.subscribed && (t.closed <==> leaves)
              && (leaves ==> t.timers.armed == {} && s.hold.lease.Some? && t.hold.releases == [s.hold.lease.value])
              && (!leaves ==> WaitsForTimer(t))
  {
    ReachableHolds(s);
    if !(s.setup != Opened || s.closed || s.subscribed) {
      assert Apply(s, Subscribe(false)).timers.armed == {s.timers.next};
    }
  }

  /** A subscriber that leaves, or an abort at any moment, stops a stream that is served. */
  lemma LeavingStops(s: Stream, e: Event)
    requires Reachable(s) && Serving(s) && (e.Abort? || e.Unsubscribe?)
    ensures Stopped(s, Apply(s, e))
  {
    ReachableHolds(s);
    VersionIsLastHint(s);
  }

  /** The timer that is running starts the next tick, and no other does. */
  lemma FiresExactly(s: Stream, timer: nat)
    requires Reachable(s) && Serving(s) && s.tick == Idle
    ensures var t := Apply(s, Fire(timer));
            if s.timers.armed == {timer} then
              t.tick == BeforePoll && t.timers.armed == {} && t.feed == s.feed && !t.closed
            else t == s
  {
    ReachableHolds(s);
    assert s.timers.armed != {};
    var x :| x in s.timers.armed;
    assert s.timers.armed == {x};
  }
}
