/**
 * One server-sent event stream of version hints. Every await, the timer, the subscriber and the abort
 * signal may interleave with the others; each piece of code in between runs to completion.
 */
module HintStream {
  import opened Common

  const HEARTBEAT_MS := 25000

  /** What setup is waiting for, or how it ended. */
  datatype Setup = Authorizing | Acquiring | Polling | Reauthorizing | Opened | SetupFailed
  /** What the running tick is waiting for. */
  datatype Tick = Idle | BeforePoll | DuringPoll | AfterPoll(current: int)
  datatype Emission = Hint(version: int) | KeepAlive

  /** `releases` lists every call that released a lease. */
  datatype Hold = Hold(lease: Option<nat>, releasing: bool, releases: seq<nat>)
  datatype Timers = Timers(armed: set<nat>, handle: Option<nat>, next: nat)
  datatype Feed = Feed(version: int, heartbeatAt: int, emitted: seq<Emission>)

  /** `live` says that a subscriber is attached. */
  datatype Stream = Stream(
    setup: Setup, tick: Tick, cursor: Option<int>, closed: bool, aborted: bool, listening: bool, hold: Hold,
    timers: Timers, subscribed: bool, live: bool, feed: Feed)

  function LetGo(h: Hold): Hold {
    if h.lease.Some? && !h.releasing then Hold(h.lease, true, h.releases + [h.lease.value]) else h
  }

  function Disarm(t: Timers): Timers {
    if t.handle.Some? then t.(armed := t.armed - {t.handle.value}) else t
  }

  function Arm(t: Timers): Timers {
    Timers(t.armed + {t.next}, Some(t.next), t.next + 1)
  }

  /** Stopping is idempotent and releases an acquired lease the first time it sees one. */
  function Stop(s: Stream): Stream {
    s.(closed := true, timers := Disarm(s.timers), listening := false, live := false, hold := LetGo(s.hold))
  }

  function Schedule(s: Stream): Stream {
    if s.closed then s else s.(timers := Arm(s.timers))
  }

  function Fail(s: Stream): Stream {
    Stop(s).(setup := SetupFailed)
  }

  predicate Cancelled(s: Stream) {
    s.closed || s.aborted
  }

  /** `open` up to its first await. */
  function Begin(aborted: bool, cursor: Option<int>): Stream {
    var s := Stream(Authorizing, Idle, cursor, false, aborted, true, Hold(None, false, []), Timers({}, None, 0),
                    false, false, Feed(0, 0, []));
    if aborted then Fail(s) else s
  }

  datatype Event =
    | Abort
    | Authorized(ok: bool, now: int)
    | Acquired(lease: Option<nat>)
    | Polled(version: Option<int>)
    | Subscribe(leaves: bool)
    | Unsubscribe
    | Fire(timer: nat)
    | TickAuthorized(ok: bool, now: int, leavesAfterHint: bool, leavesAfterKeepAlive: bool)
    | TickPolled(version: Option<int>)

  function OnAbort(s: Stream): Stream {
    var t := s.(aborted := true);
    if s.listening then Stop(t) else t
  }

  function OnAuthorized(s: Stream, ok: bool, now: int): Stream {
    if s.setup == Authorizing then (if !ok || Cancelled(s) then Fail(s) else s.(setup := Acquiring))
    else if s.setup == Reauthorizing then
      (if !ok || Cancelled(s) then Fail(s) else s.(setup := Opened, feed := s.feed.(heartbeatAt := now)))
    else s
  }

  /** A lease that arrives after cancellation is still recorded, so that failing releases it. */
  function OnAcquired(s: Stream, lease: Option<nat>): Stream {
    if s.setup != Acquiring then s
    else if lease.None? then Fail(s)
    else
      var t := s.(hold := s.hold.(lease := lease));
      if Cancelled(t) then Fail(t) else t.(setup := Polling)
  }

  function OnPolled(s: Stream, version: Option<int>): Stream {
    if s.setup != Polling then s
    else if version.None? then Fail(s)
    else
      var t := s.(feed := s.feed.(version := version.value));
      if s.cursor.Some? && s.cursor.value > version.value then Fail(t) else t.(setup := Reauthorizing)
  }

  function Emit(f: Feed, e: Emission): Feed {
    f.(emitted := f.emitted + [e])
  }

  function OnSubscribe(s: Stream, leaves: bool): Stream {
    if s.setup != Opened || s.closed || s.subscribed then s
    else
      var t := Schedule(s.(subscribed := true, live := true, feed := Emit(s.feed, Hint(s.feed.version))));
      if leaves then Stop(t) else t
  }

  function OnUnsubscribe(s: Stream): Stream {
    if s.live then Stop(s) else s
  }

  function OnFire(s: Stream, timer: nat): Stream {
    if timer !in s.timers.armed then s
    else s.(timers := s.timers.(armed := s.timers.armed - {timer}), tick := BeforePoll)
  }

  /** The end of a tick: the next one is scheduled unless the stream is closed. */
  function Finish(s: Stream): Stream {
    Schedule(s.(tick := Idle))
  }

  function Advance(s: Stream, current: int, leaves: bool): Stream {
    if current <= s.feed.version then s
    else
      var t := s.(feed := Emit(s.feed.(version := current), Hint(current)));
      if leaves then Stop(t) else t
  }

  function Beat(s: Stream, now: int, leaves: bool): Stream {
    if s.closed || now - s.feed.heartbeatAt < HEARTBEAT_MS then s
    else
      var t := s.(feed := Emit(s.feed.(heartbeatAt := now), KeepAlive));
      if leaves then Stop(t) else t
  }

  function OnTickAuthorized(s: Stream, ok: bool, now: int, leavesAfterHint: bool, leavesAfterKeepAlive: bool): Stream {
    match s.tick
    case BeforePoll =>
      if !ok then Finish(Stop(s)) else if s.closed then Finish(s) else s.(tick := DuringPoll)
    case AfterPoll(current) =>
      if !ok then Finish(Stop(s))
      else if s.closed then Finish(s)
      else if current < s.feed.version then Finish(Stop(s))
      else Finish(Beat(Advance(s, current, leavesAfterHint), now, leavesAfterKeepAlive))
    case _ => s
  }

  function OnTickPolled(s: Stream, version: Option<int>): Stream {
    if s.tick != DuringPoll then s
    else if version.None? then Finish(Stop(s))
    else if s.closed then Finish(s)
    else s.(tick := AfterPoll(version.value))
  }

  function Apply(s: Stream, e: Event): Stream {
    match e
    case Abort => OnAbort(s)
    case Authorized(ok, now) => OnAuthorized(s, ok, now)
    case Acquired(lease) => OnAcquired(s, lease)
    case Polled(v) => OnPolled(s, v)
    case Subscribe(leaves) => OnSubscribe(s, leaves)
    case Unsubscribe => OnUnsubscribe(s)
    case Fire(timer) => OnFire(s, timer)
    case TickAuthorized(ok, now, a, b) => OnTickAuthorized(s, ok, now, a, b)
    case TickPolled(v) => OnTickPolled(s, v)
  }

  function Run(s: Stream, events: seq<Event>): Stream
    decreases |events|
  {
    if events == [] then s else Run(Apply(s, events[0]), events[1..])
  }

  /** The closures of one `open` call over its local variables. */
  class Session {
    var setup: Setup
    var tick: Tick
    const cursor: Option<int>
    var closed: bool
    var aborted: bool
    var listening: bool
    var lease: Option<nat>
    var releasing: bool
    var releases: seq<nat>
    var armed: set<nat>
    var handle: Option<nat>
    var nextTimer: nat
    var subscribed: bool
    var live: bool
    var version: int
    var heartbeatAt: int
    var emitted: seq<Emission>

    constructor (alreadyAborted: bool, cursor: Option<int>)
      ensures Snapshot() == Begin(alreadyAborted, cursor)
    {
      this.cursor := cursor;
      setup, tick, closed, aborted, listening := Authorizing, Idle, false, alreadyAborted, true;
      lease, releasing, releases, armed, handle, nextTimer := None, false, [], {}, None, 0;
      subscribed, live, version, heartbeatAt, emitted := false, false, 0, 0, [];
      new;
      if alreadyAborted {
        StopNow();
        setup := SetupFailed;
      }
    }

    ghost function Snapshot(): Stream
      reads this
    {
      Stream(setup, tick, cursor, closed, aborted, listening, Hold(lease, releasing, releases),
             Timers(armed, handle, nextTimer), subscribed, live, Feed(version, heartbeatAt, emitted))
    }

    /** Completing a live subscriber runs its teardown, which is this method again. */
    method StopNow()
      modifies this
      ensures Snapshot() == Stop(old(Snapshot()))
      decreases live
    {
      closed := true;
      if handle.Some? { armed := armed - {handle.value}; }
      listening := false;
      if live {
        live := false;
        StopNow();
      }
      if lease.Some? && !releasing {
        releasing := true;
        releases := releases + [lease.value];
      }
    }

    method ScheduleNext()
      modifies this
      ensures Snapshot() == Schedule(old(Snapshot()))
    {
      if !closed {
        armed := armed + {nextTimer};
        handle := Some(nextTimer);
        nextTimer := nextTimer + 1;
      }
    }

    method FailSetup()
      modifies this
      ensures Snapshot() == Fail(old(Snapshot()))
    {
      StopNow();
      setup := SetupFailed;
    }

    method SignalAbort()
      modifies this
      ensures Snapshot() == OnAbort(old(Snapshot()))
    {
      aborted := true;
      if listening { StopNow(); }
    }

    method SetupAuthorized(ok: bool, now: int)
      modifies this
      ensures Snapshot() == OnAuthorized(old(Snapshot()), ok, now)
    {
      if setup != Authorizing && setup != Reauthorizing { return; }
      if !ok || closed || aborted {
        FailSetup();
      } else if setup == Authorizing {
        setup := Acquiring;
      } else {
        setup, heartbeatAt := Opened, now;
      }
    }

    method LeaseAcquired(granted: Option<nat>)
      modifies this
      ensures Snapshot() == OnAcquired(old(Snapshot()), granted)
    {
      if setup != Acquiring { return; }
      if granted.None? {
        FailSetup();
        return;
      }
      lease := granted;
      if closed || aborted { FailSetup(); } else { setup := Polling; }
    }

    method FirstPolled(v: Option<int>)
      modifies this
      ensures Snapshot() == OnPolled(old(Snapshot()), v)
    {
      if setup != Polling { return; }
      if v.None? {
        FailSetup();
        return;
      }
      version := v.value;
      if cursor.Some? && cursor.value > version { FailSetup(); } else { setup := Reauthorizing; }
    }

    method Attach(leaves: bool)
      modifies this
      ensures Snapshot() == OnSubscribe(old(Snapshot()), leaves)
    {
      if setup != Opened || closed || subscribed { return; }
      subscribed, live := true, true;
      emitted := emitted + [Hint(version)];
      ScheduleNext();
      if leaves { StopNow(); }
    }

    method Detach()
      modifies this
      ensures Snapshot() == OnUnsubscribe(old(Snapshot()))
    {
      if live {
        live := false;
        StopNow();
      }
    }

    method TimerFired(timer: nat)
      modifies this
      ensures Snapshot() == OnFire(old(Snapshot()), timer)
    {
      if timer in armed {
        armed := armed - {timer};
        tick := BeforePoll;
      }
    }

    method TickPollReturned(v: Option<int>)
      modifies this
      ensures Snapshot() == OnTickPolled(old(Snapshot()), v)
    {
      if tick != DuringPoll { return; }
      if v.Some? && !closed {
        tick := AfterPoll(v.value);
        return;
      }
      if v.None? { StopNow(); }
      tick := Idle;
      ScheduleNext();
    }

    method TickAuthorization(ok: bool, now: int, leavesAfterHint: bool, leavesAfterKeepAlive: bool)
      modifies this
      ensures Snapshot() == OnTickAuthorized(old(Snapshot()), ok, now, leavesAfterHint, leavesAfterKeepAlive)
    {
      if tick == Idle || tick == DuringPoll { return; }
      if tick == BeforePoll && ok && !closed {
        tick := DuringPoll;
        return;
      }
      if !ok {
        StopNow();
      } else if !closed {
        Announce(tick.current, now, leavesAfterHint, leavesAfterKeepAlive);
      }
      tick := Idle;
      ScheduleNext();
    }

    method Announce(current: int, now: int, leavesAfterHint: bool, leavesAfterKeepAlive: bool)
      requires !closed
      modifies this
      ensures Snapshot() == if current < old(version) then Stop(old(Snapshot()))
                            else Beat(Advance(old(Snapshot()), current, leavesAfterHint), now, leavesAfterKeepAlive)
    {
      if current < version {
        StopNow();
        return;
      }
      if current > version {
        version := current;
        emitted := emitted + [Hint(version)];
        if leavesAfterHint { StopNow(); }
      }
      if !closed && now - heartbeatAt >= HEARTBEAT_MS {
        heartbeatAt := now;
        emitted := emitted + [KeepAlive];
        if leavesAfterKeepAlive { StopNow(); }
      }
    }
  }
}
