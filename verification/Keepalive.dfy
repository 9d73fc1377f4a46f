/** The keepalive in discrete time: the ticker of `keepaliveLoop`, its pings, the browser's pongs (RFC 6455
    sections 5.5.2 and 5.5.3) and the read deadline that only a pong moves (internal/session/manager.go,
    internal/websocket/conn.go). */
module Keepalive {
  import opened Prelude

  /** `interval` and `timeout` are configuration. The others bound delays: from `ConfigureKeepalive` to the start
      of the loop, from a tick to its ping, and from a ping to the processing of its pong. */
  datatype Params = Params(interval: nat, timeout: nat, startup: nat, lag: nat, echo: nat)

  /** `tick` is the pending tick, if any, with the time it was delivered: the ticker's channel holds one.
      `pings` are the unanswered pings, by the time they were sent. */
  datatype Timeline = Timeline(
    now: nat, deadline: nat, started: bool, nextTick: nat, tick: Option<nat>, pings: seq<nat>, expired: bool)

  datatype Event = Begin | Deliver | Ping | Pong | Data | Pass | Expire

  /** `ConfigureKeepalive` at time `at`. */
  function Configured(p: Params, at: nat): Timeline {
    Timeline(at, at + p.timeout, false, 0, None, [], false)
  }

  /** Time may pass only while nothing is overdue. */
  predicate Punctual(p: Params, at: nat, t: Timeline) {
    && (!t.started ==> t.now < at + p.startup)
    && (t.started ==> t.now < t.nextTick)
    && (t.tick.Some? ==> t.now < t.tick.value + p.lag)
    && (t.pings != [] ==> t.now < t.pings[0] + p.echo)
  }

  predicate Can(p: Params, at: nat, t: Timeline, e: Event) {
    !t.expired &&
    match e
    case Begin => !t.started
    case Deliver => t.started && t.now == t.nextTick
    case Ping => t.started && t.tick.Some?
    case Pong => t.pings != []
    case Data => true
    case Pass => Punctual(p, at, t)
    case Expire => p.timeout > 0 && t.now >= t.deadline
  }

  function Step(p: Params, at: nat, t: Timeline, e: Event): Timeline
    requires Can(p, at, t, e)
  {
    match e
    case Begin => t.(started := true, nextTick := t.now + p.interval)
    case Deliver => t.(nextTick := t.nextTick + p.interval, tick := if t.tick.None? then Some(t.now) else t.tick)
    case Ping => t.(tick := None, pings := t.pings + [t.now])
    case Pong => t.(deadline := t.now + p.timeout, pings := t.pings[1..])
    case Data => t
    case Pass => t.(now := t.now + 1)
    case Expire => t.(expired := true)
  }

  predicate Runs(p: Params, at: nat, t: Timeline, es: seq<Event>, end: Timeline)
    decreases |es|
  {
    if es == [] then end == t
    else Can(p, at, t, es[0]) && Runs(p, at, Step(p, at, t, es[0]), es[1..], end)
  }

  /** There is no deadline, or the delays together leave room before it. */
  predicate Generous(p: Params) {
    p.timeout == 0 || p.startup + p.interval + p.lag + p.echo < p.timeout
  }

  // ---- sound: a browser that answers in time is never timed out ----

  /** The next pong is on its way: each stage of its chain is due in time, counted from the last pong (or from
      `ConfigureKeepalive`), `p.timeout` before the deadline. */
  predicate OnTime(p: Params, at: nat, t: Timeline) {
    var slack := p.startup + p.interval;
    && !t.expired
    && at <= t.now && at + p.timeout <= t.deadline
    && (!t.started ==> t.tick.None? && t.pings == [] && t.now <= at + p.startup)
    && (t.started ==> t.now <= t.nextTick <= t.now + p.interval)
    && (t.tick.Some? ==> t.tick.value <= t.now <= t.tick.value + p.lag)
    && (forall i :: 0 <= i < |t.pings| ==> t.pings[i] <= t.now <= t.pings[i] + p.echo)
    && (if t.pings != [] then t.pings[0] + p.timeout <= t.deadline + slack + p.lag
        else if t.tick.Some? then t.tick.value + p.timeout <= t.deadline + slack
        else t.started ==> t.nextTick + p.timeout <= t.deadline + slack)
  }

  lemma OnTimeKept(p: Params, at: nat, t: Timeline, e: Event)
    requires p.timeout > 0 && Generous(p) && OnTime(p, at, t) && Can(p, at, t, e)
    requires forall i :: 0 < i < |t.pings| ==> t.pings[0] <= t.pings[i]
    ensures OnTime(p, at, Step(p, at, t, e))
  {
  }

  predicate Sorted(s: seq<nat>) {
    forall i, j :: 0 <= i < j < |s| ==> s[i] <= s[j]
  }

  lemma {:induction false} OnTimeRun(p: Params, at: nat, t: Timeline, es: seq<Event>, end: Timeline)
    requires p.timeout > 0 && Generous(p) && OnTime(p, at, t) && Sorted(t.pings) && Runs(p, at, t, es, end)
    ensures OnTime(p, at, end)
    decreases |es|
  {
    if es != [] {
      OnTimeKept(p, at, t, es[0]);
      OnTimeRun(p, at, Step(p, at, t, es[0]), es[1..], end);
    }
  }

  /** Without a deadline nothing expires. */
  lemma {:induction false} NoDeadlineRun(p: Params, at: nat, t: Timeline, es: seq<Event>, end: Timeline)
    requires p.timeout == 0 && !t.expired && Runs(p, at, t, es, end)
    ensures !end.expired
    decreases |es|
  {
    if es != [] {
      NoDeadlineRun(p, at, Step(p, at, t, es[0]), es[1..], end);
    }
  }

  // ---- tight: otherwise some admissible run times out ----

  /** No pong has been processed yet, and none need be before the deadline. */
  predicate Lazy(p: Params, at: nat, t: Timeline) {
    && !t.expired && at <= t.now <= t.deadline == at + p.timeout
    && (!t.started ==> t.now <= at + p.startup && t.tick.None? && t.pings == [])
    && (t.started ==> t.now <= t.nextTick)
    && (if t.pings != [] then t.pings[0] >= at + p.startup + p.interval + p.lag
        else if t.tick.Some? then t.tick.value >= at + p.startup + p.interval
        else t.started ==> t.nextTick >= at + p.startup + p.interval)
  }

  /** The least that must happen next. */
  function Forced(p: Params, at: nat, t: Timeline): Event {
    if t.now >= t.deadline then Expire
    else if Punctual(p, at, t) then Pass
    else if !t.started then Begin
    else if t.tick.Some? && t.now >= t.tick.value + p.lag then Ping
    else Deliver
  }

  lemma LazyKept(p: Params, at: nat, t: Timeline)
    requires !Generous(p) && Lazy(p, at, t)
    ensures var e := Forced(p, at, t);
            Can(p, at, t, e) && (e.Expire? || Lazy(p, at, Step(p, at, t, e)))
  {
  }

  /** Doing only what is forced runs into the deadline. */
  lemma {:induction false} LazyExpires(p: Params, at: nat, t: Timeline) returns (es: seq<Event>, end: Timeline)
    requires p.interval > 0 && !Generous(p) && Lazy(p, at, t)
    ensures Runs(p, at, t, es, end) && end.expired
    decreases at + p.timeout - t.now, !t.started, t.started && t.nextTick == t.now, t.tick.Some?
  {
    var e := Forced(p, at, t);
    LazyKept(p, at, t);
    var next := Step(p, at, t, e);
    if e.Expire? {
      es, end := [e], next;
      assert Runs(p, at, next, [], end);
    } else {
      var rest;
      rest, end := LazyExpires(p, at, next);
      es := [e] + rest;
      assert es[1..] == rest;
    }
  }

  /** A run from `ConfigureKeepalive` in which the session's read ends at its deadline. */
  predicate TimesOut(p: Params, at: nat, es: seq<Event>, end: Timeline) {
    Runs(p, at, Configured(p, at), es, end) && end.expired
  }

  /** A session never ends in `keepalive_timeout` while the browser answers its pings, however idle its user is,
      exactly when start-up delay, interval and answering delays together stay below the timeout, or it is zero,
      for which no deadline is set. */
  lemma KeepaliveIsSoundIffGenerous(p: Params, at: nat)
    requires p.interval > 0
    ensures Generous(p) <==> !exists es, end :: TimesOut(p, at, es, end)
  {
    if Generous(p) {
      forall es, end | TimesOut(p, at, es, end) ensures false {
        if p.timeout == 0 {
          NoDeadlineRun(p, at, Configured(p, at), es, end);
        } else {
          OnTimeRun(p, at, Configured(p, at), es, end);
        }
      }
    } else {
      var es, end := LazyExpires(p, at, Configured(p, at));
      assert TimesOut(p, at, es, end);
    }
  }

  // ---- and nothing but a pong moves the deadline ----

  /** If no pong is processed after some time, the deadline stays where the last one put it, whatever data
      arrives. */
  lemma {:induction false} OnlyPongsMoveTheDeadline(p: Params, at: nat, t: Timeline, es: seq<Event>, end: Timeline)
    requires Runs(p, at, t, es, end) && Pong !in es
    ensures end.deadline == t.deadline
    ensures end.expired && !t.expired ==> end.now >= t.deadline
    decreases |es|
  {
    if es != [] {
      assert forall e :: e in es[1..] ==> e in es;
      OnlyPongsMoveTheDeadline(p, at, Step(p, at, t, es[0]), es[1..], end);
      if es[0].Expire? { ExpiredStays(p, at, Step(p, at, t, es[0]), es[1..], end); }
    }
  }

  /** Nothing happens after the read has failed. */
  lemma ExpiredStays(p: Params, at: nat, t: Timeline, es: seq<Event>, end: Timeline)
    requires t.expired && Runs(p, at, t, es, end)
    ensures end == t
  {
  }

  /** The default configuration (interval 30 s, timeout 75 s; time in milliseconds) tolerates delays of up to
      45 s in all. */
  lemma DefaultsAreGenerous(startup: nat, lag: nat, echo: nat)
    ensures Generous(Params(30_000, 75_000, startup, lag, echo)) <==> startup + lag + echo < 45_000
  {
  }
}
