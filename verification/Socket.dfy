/** A browser connection's deadlines and its closing: internal/websocket/conn.go. What the peer does is a script of
    timed events; times are those at which the gateway's read sees them. */
module Socket {
  import opened Prelude
  import opened Protocol
  import opened Results
  import opened Admission
  import M = Machine

  /** What one WebSocket frame, or the loss of the connection, is to `ReadMessage`. `expected` marks the close codes
      that `IsPeerClosed` accepts, of which a connection that just ends is one. */
  datatype Incoming =
    | PongFrame | DataFrame(frame: Frame) | TooLarge | OddFrame | CloseFrame(expected: bool) | Lost(expected: bool)

  datatype Timed = Timed(at: nat, what: Incoming)

  /** `fires` is when the context's own timer has run, which is when `ctx.Err()` is set. */
  datatype Context = Background | Deadline(deadline: nat, fires: nat)

  datatype RawError = Timeout(at: nat) | Closed | Other

  /** How one read of the underlying connection ends: with a frame, with an error, or at the read deadline.
      `used` events were consumed; `deadline` is the read deadline it leaves; `replied` says that the library has
      answered a close frame. */
  datatype RawRead = RawRead(result: Result<Frame, RawError>, used: nat, deadline: Option<nat>, replied: bool)

  /** An event seen at the deadline or later is not seen: the read has ended. */
  predicate Late(deadline: Option<nat>, e: Timed) {
    deadline.Some? && e.at >= deadline.value
  }

  /** What the installed pong handler makes of the deadline. */
  function AfterPong(pong: Option<nat>, deadline: Option<nat>, at: nat): Option<nat> {
    if pong.Some? then Some(at + pong.value) else deadline
  }

  function Ended(what: Incoming): Result<Frame, RawError>
    requires !what.PongFrame?
  {
    match what
    case DataFrame(frame) => Ok(frame)
    case CloseFrame(expected) => Err(if expected then Closed else Other)
    case Lost(expected) => Err(if expected then Closed else Other)
    case _ => Err(Other)
  }

  /** When the script runs out, the connection stays silent up to the deadline, or is dropped if there is none. */
  function AtEnd(deadline: Option<nat>): RawRead {
    RawRead(Err(if deadline.Some? then Timeout(deadline.value) else Other), 0, deadline, false)
  }

  /** A read of an open connection: it goes through pongs, each moving the deadline, to the first other event in
      time. */
  function OpenSpec(deadline: Option<nat>, pong: Option<nat>, events: seq<Timed>): (r: RawRead)
    ensures r.used <= |events| && (r.result.Ok? ==> r.used > 0)
    decreases |events|
  {
    if events == [] then AtEnd(deadline)
    else if Late(deadline, events[0]) then RawRead(Err(Timeout(deadline.value)), 0, deadline, false)
    else if events[0].what.PongFrame? then
      var rest := OpenSpec(AfterPong(pong, deadline, events[0].at), pong, events[1..]);
      rest.(used := rest.used + 1)
    else RawRead(Ended(events[0].what), 1, deadline, events[0].what.CloseFrame?)
  }

  /** A read of a connection the gateway has closed: the script is what had been buffered. It waits for nothing, so no
      deadline ends it; a pong handler fails, as it can set no deadline any more, and so does the read. */
  function ClosedSpec(deadline: Option<nat>, pong: Option<nat>, events: seq<Timed>): (r: RawRead)
    ensures r.used <= |events| && (r.result.Ok? ==> r.used > 0)
    decreases |events|
  {
    if events == [] then RawRead(Err(Other), 0, deadline, false)
    else if !events[0].what.PongFrame? then RawRead(Ended(events[0].what), 1, deadline, false)
    else if pong.Some? then RawRead(Err(Other), 1, deadline, false)
    else
      var rest := ClosedSpec(deadline, pong, events[1..]);
      rest.(used := rest.used + 1)
  }

  function RawSpec(closed: bool, deadline: Option<nat>, pong: Option<nat>, events: seq<Timed>): (r: RawRead)
    ensures r.used <= |events| && (r.result.Ok? ==> r.used > 0)
  {
    if closed then ClosedSpec(deadline, pong, events) else OpenSpec(deadline, pong, events)
  }

  /** A timed-out read returns `delay` after the deadline; it is the context's error only if the context's timer
      has run by then. */
  function Classify(result: Result<Frame, RawError>, ctx: Context, delay: nat): Result<Frame, ReadError> {
    match result
    case Ok(frame) => Ok(frame)
    case Err(Closed) => Err(PeerClosed)
    case Err(Other) => Err(ReadFailed)
    case Err(Timeout(at)) =>
      Err(if ctx.Deadline? && ctx.fires <= at + delay then DeadlineExceeded else NetTimeout)
  }

  // ---- what a read means ----

  /** Nothing but pongs comes before the last event used. */
  predicate OnlyPongsBefore(events: seq<Timed>, used: nat) {
    used <= |events| && forall i :: 0 <= i < used - 1 ==> events[i].what == PongFrame
  }

  /** The event a read ended with, if it ended with one. */
  function LastUsed(events: seq<Timed>, used: nat): Option<Incoming> {
    if 0 < used <= |events| then Some(events[used - 1].what) else None
  }

  /** The result of a read against the script: a frame is the one that arrived, an error is that of the event that
      ended the read; a read that no event ended has timed out, or the connection was dropped with all events used; on a
      closed connection a pong may end it as well. */
  predicate Means(result: Result<Frame, RawError>, closed: bool, events: seq<Timed>, used: nat) {
    && OnlyPongsBefore(events, used)
    && match LastUsed(events, used)
       case Some(DataFrame(frame)) => result == Ok(frame)
       case Some(CloseFrame(expected)) => result == Err(if expected then Closed else Other)
       case Some(Lost(expected)) => result == Err(if expected then Closed else Other)
       case Some(TooLarge) => result == Err(Other)
       case Some(OddFrame) => result == Err(Other)
       case Some(PongFrame) =>
         result.Err? && !result.error.Closed? && (!closed ==> result.error.Timeout? || used == |events|)
       case None => result.Err? && !result.error.Closed? && (result.error.Other? ==> used == |events|)
  }

  lemma {:induction false} OpenReadMeans(deadline: Option<nat>, pong: Option<nat>, events: seq<Timed>)
    ensures var r := OpenSpec(deadline, pong, events); Means(r.result, false, events, r.used)
    decreases |events|
  {
    if events != [] && !Late(deadline, events[0]) && events[0].what.PongFrame? {
      var later := AfterPong(pong, deadline, events[0].at);
      OpenReadMeans(later, pong, events[1..]);
      PongBefore(OpenSpec(later, pong, events[1..]), false, events);
    }
  }

  lemma PongBefore(r: RawRead, closed: bool, events: seq<Timed>)
    requires events != [] && events[0].what.PongFrame? && Means(r.result, closed, events[1..], r.used)
    ensures Means(r.result, closed, events, r.used + 1)
  {
    forall i | 0 <= i < r.used ensures events[i].what == PongFrame {
      if i > 0 { assert events[1..][i - 1] == events[i]; }
    }
    if r.used > 0 {
      assert events[1..][r.used - 1] == events[r.used];
    }
  }

  lemma {:induction false} ClosedReadMeans(deadline: Option<nat>, pong: Option<nat>, events: seq<Timed>)
    ensures var r := ClosedSpec(deadline, pong, events); Means(r.result, true, events, r.used)
    decreases |events|
  {
    if events != [] && events[0].what.PongFrame? && pong.None? {
      ClosedReadMeans(deadline, pong, events[1..]);
      PongBefore(ClosedSpec(deadline, pong, events[1..]), true, events);
    }
  }

  lemma RawReadMeans(closed: bool, deadline: Option<nat>, pong: Option<nat>, events: seq<Timed>)
    ensures var r := RawSpec(closed, deadline, pong, events); Means(r.result, closed, events, r.used)
  {
    ClosedReadMeans(deadline, pong, events);
    OpenReadMeans(deadline, pong, events);
  }

  class GorillaConn {
    var readDeadline: Option<nat>
    var pong: Option<nat>
    var closed: bool
    var closeSent: bool

    constructor ()
      ensures readDeadline.None? && pong.None? && !closed && !closeSent
    {
      readDeadline, pong, closed, closeSent := None, None, false, false;
    }

    /** The loop inside the library's `ReadMessage`: control frames are handled on the way to a data frame. */
    method RawReadMessage(events: seq<Timed>) returns (r: RawRead)
      modifies this`readDeadline, this`closeSent
      ensures r == RawSpec(closed, old(readDeadline), pong, events)
      ensures readDeadline == r.deadline && closeSent == (old(closeSent) || r.replied)
      ensures Means(r.result, closed, events, r.used)
    {
      RawReadMeans(closed, readDeadline, pong, events);
      hide Ended;
      var i := 0;
      while i < |events| && events[i].what.PongFrame? && (if closed then pong.None? else !Late(readDeadline, events[i]))
        invariant i <= |events| && (closed ==> readDeadline == old(readDeadline)) && closeSent == old(closeSent)
        invariant RawSpec(closed, old(readDeadline), pong, events) ==
                  var rest := RawSpec(closed, readDeadline, pong, events[i..]); rest.(used := rest.used + i)
      {
        assert events[i..][1..] == events[i + 1..];
        if !closed {
          readDeadline := AfterPong(pong, readDeadline, events[i].at);
        }
        i := i + 1;
      }
      if i == |events| {
        r := if closed then RawRead(Err(Other), i, readDeadline, false) else AtEnd(readDeadline).(used := i);
      } else if !closed && Late(readDeadline, events[i]) {
        r := RawRead(Err(Timeout(readDeadline.value)), i, readDeadline, false);
      } else if events[i].what.PongFrame? {
        r := RawRead(Err(Other), i + 1, readDeadline, false);
      } else {
        r := RawRead(Ended(events[i].what), i + 1, readDeadline, !closed && events[i].what.CloseFrame?);
      }
      closeSent := closeSent || r.replied;
    }

    /** With a deadline in the context, the read deadline is set to it and cleared on return; without, the read
        deadline is left to the keepalive. On a closed connection no deadline can be set. */
    method ReadMessage(ctx: Context, now: nat, delay: nat, events: seq<Timed>)
      returns (r: Result<Frame, ReadError>, used: nat)
      modifies this`readDeadline, this`closeSent
      ensures ctx.Deadline? && ctx.fires <= now ==>
                r == Err(DeadlineExceeded) && used == 0 && readDeadline == old(readDeadline)
      ensures ctx.Deadline? && ctx.fires > now && closed ==>
                r == Err(ReadFailed) && used == 0 && readDeadline == old(readDeadline)
      ensures ctx.Deadline? && ctx.fires > now && !closed ==>
                var raw := RawSpec(false, Some(ctx.deadline), pong, events);
                r == Classify(raw.result, ctx, delay) && used == raw.used && readDeadline.None?
      ensures ctx.Background? ==>
                var raw := RawSpec(closed, old(readDeadline), pong, events);
                r == Classify(raw.result, ctx, delay) && used == raw.used && readDeadline == raw.deadline
      ensures OnlyPongsBefore(events, used)
      ensures r.Ok? <==> LastUsed(events, used).Some? && LastUsed(events, used).value.DataFrame?
      ensures r.Ok? ==> LastUsed(events, used) == Some(DataFrame(r.value))
      ensures r == Err(PeerClosed) <==> LastUsed(events, used) in {Some(CloseFrame(true)), Some(Lost(true))}
      ensures LastUsed(events, used) in {Some(TooLarge), Some(OddFrame), Some(CloseFrame(false)), Some(Lost(false))} ==>
                r == Err(ReadFailed)
      ensures r == Err(DeadlineExceeded) ==> ctx.Deadline?
      ensures r != Err(Canceled)
      ensures ctx.Background? ==>
                var raw := RawSpec(closed, old(readDeadline), pong, events).result;
                r == Err(NetTimeout) <==> raw.Err? && raw.error.Timeout?
    {
      if ctx.Deadline? && ctx.fires <= now {
        return Err(DeadlineExceeded), 0;
      }
      if ctx.Deadline? {
        if closed {
          return Err(ReadFailed), 0;
        }
        readDeadline := Some(ctx.deadline);
      }
      var raw := RawReadMessage(events);
      r, used := Classify(raw.result, ctx, delay), raw.used;
      if ctx.Deadline? {
        readDeadline := None;
      }
    }

    method ConfigureKeepalive(timeout: nat, now: nat) returns (ok: bool)
      modifies this`readDeadline, this`pong
      ensures ok <==> timeout == 0 || !closed
      ensures timeout == 0 || closed ==> readDeadline == old(readDeadline) && pong == old(pong)
      ensures timeout > 0 && !closed ==> readDeadline == Some(now + timeout) && pong == Some(timeout)
    {
      ok := true;
      if timeout > 0 {
        if closed {
          return false;
        }
        readDeadline := Some(now + timeout);
        pong := Some(timeout);
      }
    }

    /** After a close frame has been sent, the library refuses further control frames as if the peer had closed. */
    method WritePing(writable: bool) returns (outcome: M.PingOutcome)
      ensures outcome.PingPeerClosed? <==> closeSent
      ensures outcome.PingOk? <==> !closeSent && !closed && writable
    {
      outcome := if closeSent then M.PingPeerClosed else if closed || !writable then M.PingFailed else M.PingOk;
    }

    /** The connection ends up closed in any case. It reports success once at most, and only if a close frame has been
        sent, its own or the library's answer to the peer's. */
    method Close(writable: bool) returns (ok: bool)
      modifies this`closed, this`closeSent
      ensures closed
      ensures ok <==> !old(closed) && closeSent
      ensures closeSent <==> old(closeSent) || (!old(closed) && writable)
    {
      if !closeSent {
        if closed || !writable {
          closed := true;
          return false;
        }
        closeSent := true;
      }
      ok := !closed;
      closed := true;
    }
  }

  // ---- one read ----

  /** Nothing but pongs is seen before the deadline. */
  ghost predicate Silent(deadline: nat, events: seq<Timed>) {
    forall i :: 0 <= i < |events| && !events[i].what.PongFrame? ==> exists j :: 0 <= j <= i && events[j].at >= deadline
  }

  /** Before authorization no pong handler is installed: the read ends in a timeout exactly when nothing but pongs
      arrives before the deadline. */
  lemma {:induction false} TimesOutIffSilent(deadline: nat, events: seq<Timed>)
    ensures OpenSpec(Some(deadline), None, events).result == Err(Timeout(deadline)) <==> Silent(deadline, events)
    decreases |events|
  {
    if events != [] && events[0].at < deadline {
      if events[0].what.PongFrame? {
        TimesOutIffSilent(deadline, events[1..]);
        SilentTail(deadline, events);
      } else {
        assert !exists j :: 0 <= j <= 0 && events[j].at >= deadline;
      }
    } else if events != [] {
      forall i | 0 <= i < |events| && !events[i].what.PongFrame?
        ensures exists j :: 0 <= j <= i && events[j].at >= deadline
      {
        assert events[0].at >= deadline;
      }
    }
  }

  lemma SilentTail(deadline: nat, events: seq<Timed>)
    requires events != [] && events[0].at < deadline && events[0].what.PongFrame?
    ensures Silent(deadline, events) <==> Silent(deadline, events[1..])
  {
    var rest := events[1..];
    if Silent(deadline, events) {
      forall i | 0 <= i < |rest| && !rest[i].what.PongFrame?
        ensures exists j :: 0 <= j <= i && rest[j].at >= deadline
      {
        assert rest[i] == events[i + 1];
        var j :| 0 <= j <= i + 1 && events[j].at >= deadline;
        assert rest[j - 1].at >= deadline;
      }
    }
    if Silent(deadline, rest) {
      forall i | 0 <= i < |events| && !events[i].what.PongFrame?
        ensures exists j :: 0 <= j <= i && events[j].at >= deadline
      {
        assert rest[i - 1] == events[i];
        var j :| 0 <= j <= i - 1 && rest[j].at >= deadline;
        assert events[j + 1].at >= deadline;
      }
    }
  }

  lemma {:induction false} TimeoutIsAtDeadline(deadline: nat, events: seq<Timed>)
    ensures var r := OpenSpec(Some(deadline), None, events).result;
            r.Err? && r.error.Timeout? ==> r.error.at == deadline
    decreases |events|
  {
    if events != [] && events[0].at < deadline && events[0].what.PongFrame? {
      TimeoutIsAtDeadline(deadline, events[1..]);
    }
  }

  /** What the read for the first frame returns, on a connection as it was opened. */
  function FirstRead(ctx: Context, delay: nat, events: seq<Timed>): Result<Frame, ReadError>
    requires ctx.Deadline?
  {
    Classify(OpenSpec(Some(ctx.deadline), None, events).result, ctx, delay)
  }

  /** An authorization that does not come in time is reported as such (the context's error) exactly when, besides the
      silence, the context's timer has run by the time the timed-out read returns. */
  lemma AuthorizeTimeoutIff(ctx: Context, delay: nat, events: seq<Timed>)
    requires ctx.Deadline?
    ensures var r := FirstRead(ctx, delay, events);
            && (r == Err(DeadlineExceeded) <==> Silent(ctx.deadline, events) && ctx.fires <= ctx.deadline + delay)
            && (r == Err(NetTimeout) <==> Silent(ctx.deadline, events) && ctx.fires > ctx.deadline + delay)
  {
    TimesOutIffSilent(ctx.deadline, events);
    TimeoutIsAtDeadline(ctx.deadline, events);
  }

  /** A browser whose first read failed hears an error with this code, and then why it is closed. */
  predicate IsTold(e: ReadError, code: string, reason: string) {
    && OnFirstError(e).Say?
    && var heard := Heard(FailureFrames(OnFirstError(e).failure));
       |heard| == 2 && heard[0].Failed? && heard[0].code == code && heard[1] == CloseNotice(reason)
  }

  lemma ErrorsAreTold(e: ReadError)
    ensures IsTold(e, "authorize_timeout", "authorize_timeout") <==> e.DeadlineExceeded?
    ensures IsTold(e, "websocket_read_failed", "internal_error") <==> e.NetTimeout? || e.ReadFailed?
  {
    SilenceIsAnswered(e);
    hide OnFirstError, FailureFrames, Heard;
    assert "authorize_timeout"[0] == 'a' && "websocket_read_failed"[0] == 'w';
  }

  /** So a browser that stays silent hears `authorize_timeout`, and is closed for it, exactly under that condition; when
      the timer is late it hears `websocket_read_failed`. */
  lemma SilentBrowserIsTold(ctx: Context, delay: nat, events: seq<Timed>)
    requires ctx.Deadline?
    ensures var r := FirstRead(ctx, delay, events);
            && (r.Err? && IsTold(r.error, "authorize_timeout", "authorize_timeout")
                <==> Silent(ctx.deadline, events) && ctx.fires <= ctx.deadline + delay)
            && (Silent(ctx.deadline, events) && ctx.fires > ctx.deadline + delay ==>
                  r.Err? && IsTold(r.error, "websocket_read_failed", "internal_error"))
  {
    AuthorizeTimeoutIff(ctx, delay, events);
    var r := FirstRead(ctx, delay, events);
    if r.Err? {
      ErrorsAreTold(r.error);
    }
    hide IsTold, OpenSpec, Silent;
  }

  /** A browser that sends nothing at all, and a timer that runs two ticks after its deadline. */
  lemma SilenceIsMisreported()
    ensures var ctx := Deadline(120_000, 120_002);
            && Silent(ctx.deadline, [])
            && FirstRead(ctx, 1, []) == Err(NetTimeout)
            && IsTold(NetTimeout, "websocket_read_failed", "internal_error")
  {
    ErrorsAreTold(NetTimeout);
    hide IsTold;
  }

  // ---- a connection from authorization to its end ----

  /** Reads one after another, until one fails or there have been `n`. */
  datatype Reads = Reads(frames: seq<Frame>, error: Option<RawError>, used: nat, deadline: Option<nat>)

  function ReadsSpec(n: nat, closed: bool, deadline: Option<nat>, pong: Option<nat>, events: seq<Timed>): (s: Reads)
    ensures s.used <= |events|
    decreases n
  {
    if n == 0 then Reads([], None, 0, deadline) else
    var r := RawSpec(closed, deadline, pong, events);
    match r.result
    case Err(e) => Reads([], Some(e), r.used, r.deadline)
    case Ok(frame) =>
      var rest := ReadsSpec(n - 1, closed, r.deadline, pong, events[r.used..]);
      After([frame], r.used, rest)
  }

  /** With these frames read before, from so many events. */
  function After(frames: seq<Frame>, used: nat, rest: Reads): Reads {
    rest.(frames := frames + rest.frames, used := used + rest.used)
  }

  /** When the last pong was seen, or `at` if there was none. */
  function LastPong(at: nat, events: seq<Timed>): nat
    decreases |events|
  {
    if events == [] then at else LastPong(if events[0].what.PongFrame? then events[0].at else at, events[1..])
  }

  lemma PongFree(at: nat)
    ensures LastPong(at, []) == at
  {
  }

  lemma {:induction false} LastPongAppends(at: nat, a: seq<Timed>, b: seq<Timed>)
    ensures LastPong(at, a + b) == LastPong(LastPong(at, a), b)
    decreases |a|
  {
    if a == [] {
      assert a + b == b;
    } else {
      assert (a + b)[1..] == a[1..] + b;
      LastPongAppends(if a[0].what.PongFrame? then a[0].at else at, a[1..], b);
    }
  }

  /** A read under keepalive leaves the deadline where its last pong put it, or where it was; if it times out, then at
      that deadline, and nothing arrived before it. */
  lemma {:induction false} OnlyPongsMoveIt(at: nat, timeout: nat, events: seq<Timed>)
    ensures var r := OpenSpec(Some(at + timeout), Some(timeout), events);
            var due := LastPong(at, events[..r.used]) + timeout;
            && r.deadline == Some(due)
            && (r.result.Err? && r.result.error.Timeout? ==>
                  r.result.error.at == due && (r.used < |events| ==> events[r.used].at >= due))
    decreases |events|
  {
    if events != [] && events[0].at < at + timeout && events[0].what.PongFrame? {
      OnlyPongsMoveIt(events[0].at, timeout, events[1..]);
      var r := OpenSpec(Some(events[0].at + timeout), Some(timeout), events[1..]);
      assert events[..r.used + 1][1..] == events[1..][..r.used];
    } else if events != [] && events[0].at < at + timeout {
      assert events[..1][1..] == [];
    }
  }

  /** Every event such a read uses came in time: before the deadline as the pongs before it had left it. */
  lemma {:induction false} UsedInTime(at: nat, timeout: nat, events: seq<Timed>, i: nat)
    requires i < OpenSpec(Some(at + timeout), Some(timeout), events).used
    ensures events[i].at < LastPong(at, events[..i]) + timeout
    decreases |events|
  {
    if i > 0 {
      UsedInTime(events[0].at, timeout, events[1..], i - 1);
      assert events[..i][1..] == events[1..][..i - 1];
    }
  }

  /** However many reads there are after `ConfigureKeepalive` at time `at`, the deadline is always there, and is the
      timeout after the last pong, or after `at`; a read that times out does so at that deadline, with nothing seen
      before it. */
  lemma {:induction false} DeadlineFollowsPongs(n: nat, at: nat, timeout: nat, events: seq<Timed>)
    ensures var s := ReadsSpec(n, false, Some(at + timeout), Some(timeout), events);
            var due := LastPong(at, events[..s.used]) + timeout;
            && s.deadline == Some(due)
            && (s.error.Some? && s.error.value.Timeout? ==>
                  s.error.value.at == due && (s.used < |events| ==> events[s.used].at >= due))
    decreases n
  {
    hide OpenSpec, ClosedSpec, LastPong;
    assert LastPong(at, []) == at by { PongFree(at); }
    if n > 0 {
      var r := OpenSpec(Some(at + timeout), Some(timeout), events);
      OnlyPongsMoveIt(at, timeout, events);
      if r.result.Ok? {
        var last, rest := LastPong(at, events[..r.used]), events[r.used..];
        DeadlineFollowsPongs(n - 1, last, timeout, rest);
        var s := ReadsSpec(n - 1, false, Some(last + timeout), Some(timeout), rest);
        LastPongAppends(at, events[..r.used], rest[..s.used]);
        Slices(events, r.used, s.used);
      }
    }
  }

  lemma {:induction false} ClosedReadFails(deadline: Option<nat>, pong: Option<nat>, events: seq<Timed>)
    ensures var r := ClosedSpec(deadline, pong, events);
            r.deadline == deadline && (r.result.Err? ==> !r.result.error.Timeout?)
    decreases |events|
  {
    if events != [] && events[0].what.PongFrame? && pong.None? {
      ClosedReadFails(deadline, pong, events[1..]);
    }
  }

  /** Once the gateway has closed a connection, its reads come to an error after the frames that were buffered, and
      none of them times out: a session that has been closed never ends its `readLoop` in a keepalive timeout. */
  lemma {:induction false} ClosedReadsEnd(n: nat, deadline: Option<nat>, pong: Option<nat>, events: seq<Timed>)
    ensures var s := ReadsSpec(n, true, deadline, pong, events);
            && |s.frames| <= s.used && s.deadline == deadline
            && (n > |events| ==> s.error.Some?)
            && (s.error.Some? ==> !s.error.value.Timeout?)
    decreases n
  {
    if n > 0 {
      ClosedReadFails(deadline, pong, events);
      var r := ClosedSpec(deadline, pong, events);
      if r.result.Ok? {
        ClosedReadsEnd(n - 1, deadline, pong, events[r.used..]);
      }
    }
  }

  lemma AfterAfter(frames: seq<Frame>, used: nat, frame: Frame, count: nat, rest: Reads)
    ensures After([], 0, rest) == rest
    ensures After(frames, used, After([frame], count, rest)) == After(frames + [frame], used + count, rest)
  {
    assert frames + ([frame] + rest.frames) == frames + [frame] + rest.frames;
  }

  /** The data frames among the events, in order. */
  function DataFrames(events: seq<Timed>): seq<Frame> {
    if events == [] then [] else
    (if events[0].what.DataFrame? then [events[0].what.frame] else []) + DataFrames(events[1..])
  }

  lemma {:induction false} DataFramesAppend(a: seq<Timed>, b: seq<Timed>)
    ensures DataFrames(a + b) == DataFrames(a) + DataFrames(b)
    decreases |a|
  {
    if a == [] {
      assert a + b == b;
    } else {
      DataFramesAppend(a[1..], b);
      assert (a + b)[1..] == a[1..] + b;
    }
  }

  lemma {:induction false} PongsCarryNothing(events: seq<Timed>)
    requires forall i :: 0 <= i < |events| ==> events[i].what == PongFrame
    ensures DataFrames(events) == []
  {
    if events != [] { PongsCarryNothing(events[1..]); }
  }

  /** The data frame one read uses, if it uses one. */
  lemma OneReadsData(events: seq<Timed>, used: nat)
    requires OnlyPongsBefore(events, used)
    ensures DataFrames(events[..used]) == match LastUsed(events, used)
                                          case Some(DataFrame(frame)) => [frame]
                                          case _ => []
  {
    if used > 0 {
      var last := [events[used - 1]];
      assert events[..used] == events[..used - 1] + last;
      DataFramesAppend(events[..used - 1], last);
      PongsCarryNothing(events[..used - 1]);
      assert DataFrames(last[1..]) == [];
    }
  }

  lemma Slices(events: seq<Timed>, a: nat, b: nat)
    requires a + b <= |events|
    ensures events[..a] + events[a..][..b] == events[..a + b]
    ensures b < |events[a..]| ==> events[a..][b] == events[a + b]
  {
  }

  lemma {:induction false} ReadsAreData(n: nat, closed: bool, deadline: Option<nat>, pong: Option<nat>,
                                        events: seq<Timed>)
    ensures var s := ReadsSpec(n, closed, deadline, pong, events); s.frames == DataFrames(events[..s.used])
    decreases n
  {
    hide RawSpec, DataFrames;
    if n == 0 {
      PongsCarryNothing(events[..0]);
    } else {
      var r := RawSpec(closed, deadline, pong, events);
      RawReadMeans(closed, deadline, pong, events);
      OneReadsData(events, r.used);
      if r.result.Ok? {
        ReadsAreData(n - 1, closed, r.deadline, pong, events[r.used..]);
        var s := ReadsSpec(n - 1, closed, r.deadline, pong, events[r.used..]);
        Slices(events, r.used, s.used);
        DataFramesAppend(events[..r.used], events[r.used..][..s.used]);
      }
    }
  }

  /** `readLoop`'s reads on one connection, at most `n` of them. */
  method ReadOut(conn: GorillaConn, n: nat, delay: nat, events: seq<Timed>)
    returns (frames: seq<Frame>, error: Option<ReadError>, used: nat)
    modifies conn`readDeadline, conn`closeSent
    ensures used <= |events| && frames == DataFrames(events[..used])
    ensures var s := ReadsSpec(n, conn.closed, old(conn.readDeadline), conn.pong, events);
            && frames == s.frames && used == s.used && conn.readDeadline == s.deadline
            && (error.Some? <==> s.error.Some?)
            && (error.Some? ==> Err(error.value) == Classify(Err(s.error.value), Background, delay))
  {
    hide RawSpec, LastUsed, OnlyPongsBefore;
    ReadsAreData(n, conn.closed, conn.readDeadline, conn.pong, events);
    hide DataFrames;
    frames, error, used := [], None, 0;
    var i := 0;
    ghost var whole := ReadsSpec(n, conn.closed, conn.readDeadline, conn.pong, events);
    assert events[0..] == events;
    while i < n
      invariant i <= n && used <= |events|
      invariant whole ==
                After(frames, used, ReadsSpec(n - i, conn.closed, conn.readDeadline, conn.pong, events[used..]))
    {
      var message, count := conn.ReadMessage(Background, 0, delay, events[used..]);
      if message.Err? {
        used := used + count;
        return frames, Some(message.error), used;
      }
      assert events[used..][count..] == events[used + count..];
      AfterAfter(frames, used, message.value, count,
                 ReadsSpec(n - i - 1, conn.closed, conn.readDeadline, conn.pong, events[used + count..]));
      hide After;
      used := used + count;
      frames := frames + [message.value];
      i := i + 1;
    }
  }

  /** A connection from its opening: the read for the first frame, under the deadline for authorization, then
      `ConfigureKeepalive` at time `at`, then the session's reads. The first deadline is gone before the second is set,
      and from then on there always is one: the timeout after the last pong, or after `at`. */
  method Lifetime(conn: GorillaConn, ctx: Context, now: nat, delay: nat, timeout: nat, at: nat, n: nat,
                  events: seq<Timed>)
    returns (first: Result<Frame, ReadError>, frames: seq<Frame>, error: Option<ReadError>, start: nat, used: nat)
    requires conn.readDeadline.None? && conn.pong.None? && !conn.closed && timeout > 0
    requires ctx.Deadline? && ctx.fires > now
    modifies conn`readDeadline, conn`pong, conn`closeSent
    ensures first == FirstRead(ctx, delay, events)
    ensures first.Ok? ==> OnlyPongsBefore(events, start) && LastUsed(events, start) == Some(DataFrame(first.value))
    ensures first.Err? ==> conn.readDeadline.None? && frames == [] && error.None?
    ensures first.Ok? ==>
              && start <= used <= |events| && frames == DataFrames(events[start..used])
              && conn.readDeadline == Some(LastPong(at, events[start..used]) + timeout)
              && (error == Some(NetTimeout) ==>
                    used < |events| ==> events[used].at >= LastPong(at, events[start..used]) + timeout)
  {
    hide LastUsed, OnlyPongsBefore, DataFrames, LastPong, ReadsSpec, OpenSpec;
    frames, error, used := [], None, 0;
    first, start := conn.ReadMessage(ctx, now, delay, events);
    assert conn.readDeadline.None?;
    if first.Ok? {
      var _ := conn.ConfigureKeepalive(timeout, at);
      var count;
      frames, error, count := ReadOut(conn, n, delay, events[start..]);
      DeadlineFollowsPongs(n, at, timeout, events[start..]);
      used := start + count;
      assert events[start..][..count] == events[start..used];
    }
  }
}
