/** Why a session ended: the call of `close` that took effect is traced to the event behind it. */
module Causes {
  import opened Prelude
  import opened Protocol
  import opened Results
  import opened Admission
  import opened Machine
  import opened Invariants
  import opened Growth
  import opened Gateway
  import opened Safety

  /** `outputLoop` returned this because of an error its last read brought. */
  ghost predicate FromConsole(R: Rules, c: Conn, r: LoopResult) {
    exists e :: c.seen.consoleError == Some(e) && r == R.consoleError(e)
  }

  /** `keepaliveLoop` sent this because a ping failed. */
  predicate FromPing(R: Rules, c: Conn, r: LoopResult) {
    || (c.seen.ping == Some(PingPeerClosed) && r == R.pingPeerClosed)
    || (c.seen.ping == Some(PingFailed) && r == R.pingFailed)
  }

  /** `outputLoop` gives up on the queue only when `close` has been entered. */
  predicate FromOverflow(R: Rules, c: Conn, r: LoopResult) {
    r == R.overflow && !c.life.once.Fresh?
  }

  /** What one of the three loops returned, and why. */
  ghost predicate Returned(R: Rules, c: Conn, r: LoopResult) {
    c.rd == RDone(r) || FromConsole(R, c, r) || FromPing(R, c, r) || FromOverflow(R, c, r)
  }

  /** A frame met a queue that held as many frames as it can. */
  predicate QueueWasFull(c: Conn) {
    c.seen.refused.Some? && |c.seen.refused.value| == c.depth
  }

  /** `readLoop` returned this, and for a read error, it was the socket that failed and not the gateway that closed
      it. */
  ghost predicate FromReader(R: Rules, c: Conn, r: LoopResult) {
    c.rd == RDone(r) && Explained(R, Tail(c.net.received), c.typed, false, c.net.fault, r)
  }

  /** The cause of the end, by who entered `close`. */
  ghost predicate Caused(R: Rules, c: Conn, holder: Closer, call: CloseCall) {
    match holder
    case Starter => call == R.slowCall && QueueWasFull(c)
    case Outputter => call == R.slowCall && QueueWasFull(c)
    case Writer => call == R.writeFailedCall && c.seen.unwritten.Some?
    case Runner => exists r: LoopResult ::
        call == r.call && (FromReader(R, c, r) || FromConsole(R, c, r) || FromPing(R, c, r))
    case Sweeper(_, reason) => call == R.sweepCall(reason)
  }

  ghost predicate RunTraced(R: Rules, c: Conn) {
    match c.run
    case XSayError(r) => Returned(R, c, r)
    case XSayClose(r) => Returned(R, c, r)
    case XClosing(r) => Returned(R, c, r)
    case _ => true
  }

  ghost predicate OutputTraced(R: Rules, c: Conn) {
    && (c.out.OReading? ==> c.seen.consoleError.None?)
    && (c.out.OCheck? || c.out.OPush? ==> c.seen.consoleError == c.out.chunk.err)
    && (c.out.OPost? ==> FromConsole(R, c, c.out.result) || FromOverflow(R, c, c.out.result))
  }

  predicate PingTraced(R: Rules, c: Conn) {
    && (c.ka.KSelect? || c.ka.KPinging? ==> c.seen.ping.None?)
    && (c.ka.KPost? ==> FromPing(R, c, c.ka.result))
  }

  ghost predicate Traced(R: Rules, c: Conn) {
    && (c.run.XIdle? ==> c.seen.consoleError.None? && c.seen.ping.None?)
    && OutputTraced(R, c)
    && PingTraced(R, c)
    && (c.h.HClosing? || c.out.OClosing? ==> QueueWasFull(c))
    && (c.wr.WClosing? ==> c.seen.unwritten.Some?)
    && (forall i :: 0 <= i < |c.results| ==> Returned(R, c, c.results[i]))
    && RunTraced(R, c)
    && (!c.life.once.Fresh? ==> Caused(R, c, c.life.once.holder, c.life.once.call))
  }

  // ---- what is traced stays traced ----

  /** Evidence is never lost. */
  predicate Kept(c: Conn, d: Conn) {
    && (c.rd.RDone? ==> d.rd == c.rd && d.net.received == c.net.received && d.typed == c.typed)
    && (c.net.fault.Some? ==> d.net.fault == c.net.fault)
    && (c.seen.consoleError.Some? ==> d.seen.consoleError == c.seen.consoleError)
    && (c.seen.ping.Some? ==> d.seen.ping == c.seen.ping)
    && (QueueWasFull(c) ==> QueueWasFull(d))
    && (c.seen.unwritten.Some? ==> d.seen.unwritten.Some?)
    && (!c.life.once.Fresh? ==> !d.life.once.Fresh?)
  }

  lemma ReturnedKept(R: Rules, c: Conn, d: Conn, r: LoopResult)
    requires Kept(c, d)
    ensures Returned(R, c, r) ==> Returned(R, d, r)
    ensures FromConsole(R, c, r) ==> FromConsole(R, d, r)
    ensures FromPing(R, c, r) ==> FromPing(R, d, r)
    ensures FromOverflow(R, c, r) ==> FromOverflow(R, d, r)
    ensures FromReader(R, c, r) ==> FromReader(R, d, r)
  {
    hide LastAsks, Fold;
  }

  lemma CausedKept(R: Rules, c: Conn, d: Conn, holder: Closer, call: CloseCall)
    requires Kept(c, d) && Caused(R, c, holder, call)
    ensures Caused(R, d, holder, call)
  {
    hide FromReader, FromConsole, FromPing, QueueWasFull;
    if holder.Runner? {
      var r: LoopResult :| call == r.call && (FromReader(R, c, r) || FromConsole(R, c, r) || FromPing(R, c, r));
      ReturnedKept(R, c, d, r);
    }
  }

  lemma ResultsKept(R: Rules, c: Conn, d: Conn)
    requires Kept(c, d) && forall i :: 0 <= i < |c.results| ==> Returned(R, c, c.results[i])
    ensures forall i :: 0 <= i < |c.results| ==> Returned(R, d, c.results[i])
  {
    hide Returned, Kept;
    forall i | 0 <= i < |c.results| ensures Returned(R, d, c.results[i]) { ReturnedKept(R, c, d, c.results[i]); }
  }

  /** A step that keeps all evidence, and moves neither `close` nor `results` nor `run`. */
  lemma TracedFrame(R: Rules, c: Conn, d: Conn)
    requires Traced(R, c) && Kept(c, d)
    requires d.life.once.Fresh? ==> c.life.once.Fresh?
    requires !d.life.once.Fresh? ==>
               && !c.life.once.Fresh?
               && d.life.once.holder == c.life.once.holder && d.life.once.call == c.life.once.call
    requires d.results == c.results && (d.run == c.run || d.run.XReceive? || d.run.XJoining? || d.run.XDone?)
    requires d.run.XIdle? ==> d.seen.consoleError == c.seen.consoleError && d.seen.ping == c.seen.ping
    requires OutputTraced(R, d) && PingTraced(R, d)
    requires d.h.HClosing? || d.out.OClosing? ==> QueueWasFull(d)
    requires d.wr.WClosing? ==> d.seen.unwritten.Some?
    ensures Traced(R, d)
  {
    hide Returned, Kept, OutputTraced, PingTraced, Caused, QueueWasFull;
    ResultsKept(R, c, d);
    if d.run.XSayError? || d.run.XSayClose? || d.run.XClosing? { ReturnedKept(R, c, d, d.run.result); }
    if !c.life.once.Fresh? { CausedKept(R, c, d, c.life.once.holder, c.life.once.call); }
  }

  lemma OutputKept(R: Rules, c: Conn, d: Conn)
    requires OutputTraced(R, c) && d.out == c.out && d.seen.consoleError == c.seen.consoleError
    requires d.life.once.Fresh? ==> c.life.once.Fresh?
    ensures OutputTraced(R, d)
  {
  }

  // ---- every step ----

  /** A step of the handler or of the environment starts the loops, or leaves them alone. */
  predicate Leaves(c: Conn, d: Conn) {
    && d.life == c.life && d.results == c.results && d.depth == c.depth
    && (c.run.XIdle? || (d.rd == c.rd && d.net.received == c.net.received))
    && d.typed == c.typed
    && (c.net.fault.Some? ==> d.net.fault == c.net.fault)
    && d.seen.consoleError == c.seen.consoleError && d.seen.ping == c.seen.ping
    && d.seen.unwritten == c.seen.unwritten
    && (d.seen.refused == c.seen.refused || (d.seen.refused == Some(c.q.waiting) && |c.q.waiting| >= c.depth))
    && (d.h.HClosing? ==> c.h.HClosing? || (d.seen.refused == Some(c.q.waiting) && |c.q.waiting| >= c.depth))
    && (d.out == c.out || (c.run.XIdle? && d.out.OReading?)) && (d.wr == c.wr || d.wr.WSelect?)
    && (d.ka == c.ka || (c.run.XIdle? && d.ka.KSelect?)) && (d.run == c.run || d.run.XReceive?)
  }

  lemma EnvLeaves(c: Conn, e: EnvAct)
    requires EnvCan(c, e)
    ensures Leaves(c, EnvStep(c, e))
  {
  }

  lemma EnqueueLeaves(R: Rules, c: Conn)
    ensures Leaves(c, HandlerEnqueue(R, c))
  {
  }

  lemma JoinLeaves(R: Rules, c: Conn, text: string)
    requires SpawnOk(c.h.HServed?, c.rd, c.wr, c.out, c.ka, c.run)
    ensures Leaves(c, JoinStep(R, c, text))
  {
  }

  lemma OpenLeaves(R: Rules, c: Conn, ok: bool, text: string, full: bool)
    ensures Leaves(c, OpenStep(R, c, ok, text, full))
  {
  }

  lemma SayLeaves(R: Rules, c: Conn, ok: bool)
    ensures Leaves(c, SayStep(R, c, ok))
  {
  }

  lemma HandlerLeaves(R: Rules, c: Conn, a: Act, full: bool, now: nat)
    requires Can(R, c, a) && HandlerAct(a) && SpawnOk(c.h.HServed?, c.rd, c.wr, c.out, c.ka, c.run)
    ensures Leaves(c, Step(R, c, a, full, now))
  {
    hide BodyLife, BodyWorld, EnterStep, FlushStep, PingStep, ReaderStep, ReaderTake, OutputEnqueue, OutputTake,
      WriterPull, WriterStep, JoinStep, OpenStep, SayStep, HandlerEnqueue, EnvStep, EnvCan;
    match a {
      case Env(e) => EnvLeaves(c, e);
      case HEnqueue => EnqueueLeaves(R, c);
      case HJoin(text) => JoinLeaves(R, c, text);
      case HGo(ok, text) => OpenLeaves(R, c, ok, text, full);
      case HSay(ok) => SayLeaves(R, c, ok);
      case _ =>
    }
  }

  lemma HandlerTraced(R: Rules, c: Conn, d: Conn)
    requires Traced(R, c) && Leaves(c, d) && |c.q.waiting| <= c.depth
    requires SpawnOk(c.h.HServed?, c.rd, c.wr, c.out, c.ka, c.run)
    ensures Traced(R, d)
  {
    OutputLeft(R, c, d);
    TracedFrame(R, c, d);
  }

  lemma OutputLeft(R: Rules, c: Conn, d: Conn)
    requires Traced(R, c) && Leaves(c, d) && |c.q.waiting| <= c.depth
    ensures OutputTraced(R, d) && PingTraced(R, d)
  {
    hide Returned, RunTraced, Caused;
  }

  lemma ReaderTraced(R: Rules, c: Conn, a: Act, full: bool, now: nat)
    requires Traced(R, c) && Can(R, c, a) && (a.RTake? || a.RTakeError? || a.RGo?)
    requires |c.q.waiting| <= c.depth && c.depth >= 1
    ensures Traced(R, Step(R, c, a, full, now))
  {
    var d := Step(R, c, a, full, now);
    ReaderLeaves(R, c, a, full, now);
    OutputKept(R, c, d);
    if a.RGo? && c.rd.RPost? {
      Sent(R, c, c.(rd := d.rd), c.rd.result);
    } else {
      TracedFrame(R, c, d);
    }
  }

  lemma ReaderLeaves(R: Rules, c: Conn, a: Act, full: bool, now: nat)
    requires Can(R, c, a) && (a.RTake? || a.RTakeError? || a.RGo?)
    ensures var d := Step(R, c, a, full, now);
            && d.life == c.life && d.h == c.h && d.wr == c.wr && d.out == c.out && d.ka == c.ka && d.run == c.run
            && d.seen == c.seen && d.depth == c.depth && d.net.fault == c.net.fault && !c.rd.RDone?
            && (if a.RGo? && c.rd.RPost? then d == c.(rd := RDone(c.rd.result), results := c.results + [c.rd.result])
                else d.results == c.results)
  {
    hide BodyLife, BodyWorld, EnterStep, FlushStep, OpenStep, JoinStep, SayStep, HandlerEnqueue, HandlerTake, EnvStep,
      HandlerVerdict, PingStep, OutputEnqueue, OutputTake, WriterPull, WriterStep;
  }

  /** A loop's result enters the channel. */
  lemma Sent(R: Rules, c: Conn, d: Conn, r: LoopResult)
    requires Traced(R, c) && Kept(c, d) && Returned(R, d, r)
    requires d.life == c.life && d.results == c.results && d.run == c.run && d.seen == c.seen && d.depth == c.depth
    requires d.h == c.h && d.wr == c.wr
    requires OutputTraced(R, d) && PingTraced(R, d) && (d.out.OClosing? ==> c.out.OClosing?)
    ensures Traced(R, d.(results := c.results + [r]))
  {
    hide Returned, Kept, FromConsole, FromPing, FromOverflow;
    TracedFrame(R, c, d);
    var e := d.(results := c.results + [r]);
    SameEvidence(R, d, e);
    forall i | 0 <= i < |e.results| ensures Returned(R, e, e.results[i]) {
      if i < |c.results| { assert e.results[i] == d.results[i]; }
      ReturnedKept(R, d, e, e.results[i]);
    }
    if d.run.XSayError? || d.run.XSayClose? || d.run.XClosing? { ReturnedKept(R, d, e, d.run.result); }
    if !d.life.once.Fresh? { CausedKept(R, d, e, d.life.once.holder, d.life.once.call); }
  }

  lemma SameEvidence(R: Rules, d: Conn, e: Conn)
    requires e == d.(results := e.results)
    ensures Kept(d, e) && (OutputTraced(R, d) ==> OutputTraced(R, e)) && (PingTraced(R, d) ==> PingTraced(R, e))
  {
  }

  lemma WriterTraced(R: Rules, c: Conn, a: Act, full: bool, now: nat)
    requires Traced(R, c) && Can(R, c, a) && (a.WStop? || a.WPull? || a.WWrite? || a.WReturn?)
    ensures Traced(R, Step(R, c, a, full, now))
  {
    hide BodyLife, BodyWorld, EnterStep, FlushStep, OpenStep, JoinStep, SayStep, HandlerEnqueue, HandlerTake, EnvStep,
      HandlerVerdict, PingStep, OutputEnqueue, OutputTake, ReaderStep, ReaderTake, Caused, Returned, RunTraced;
    var d := Step(R, c, a, full, now);
    OutputKept(R, c, d);
    TracedFrame(R, c, d);
  }

  lemma OutputStepTraced(R: Rules, c: Conn, a: Act, full: bool, now: nat)
    requires Traced(R, c) && Can(R, c, a) && (a.OTake? || a.OTakeError? || a.OEnqueue? || a.OReturn?)
    requires LifeOk(c.life, c.hook) && |c.q.waiting| <= c.depth && !c.run.XIdle?
    ensures Traced(R, Step(R, c, a, full, now))
  {
    OutputLeaves(R, c, a, full, now);
    TracedFrame(R, c, Step(R, c, a, full, now));
  }

  /** A step of `outputLoop` that sends nothing. */
  ghost predicate OutputMoves(R: Rules, c: Conn, d: Conn) {
    && OutputTraced(R, d) && PingTraced(R, d) && Kept(c, d)
    && d.life == c.life && d.results == c.results && d.run == c.run && d.wr == c.wr
    && (d.h.HClosing? || d.out.OClosing? ==> QueueWasFull(d))
    && d.seen.unwritten == c.seen.unwritten
  }

  lemma PushMoves(R: Rules, c: Conn)
    requires OutputTraced(R, c) && PingTraced(R, c) && (c.h.HClosing? || c.out.OClosing? ==> QueueWasFull(c))
    requires c.out.OCheck? || c.out.OPush?
    requires (c.life.closed ==> !c.life.once.Fresh?) && |c.q.waiting| <= c.depth
    ensures OutputMoves(R, c, OutputEnqueue(R, c))
  {
  }

  lemma OutputLeaves(R: Rules, c: Conn, a: Act, full: bool, now: nat)
    requires OutputTraced(R, c) && PingTraced(R, c) && (c.h.HClosing? || c.out.OClosing? ==> QueueWasFull(c))
    requires Can(R, c, a) && (a.OTake? || a.OTakeError? || a.OEnqueue? || a.OReturn?)
    requires (c.life.closed ==> !c.life.once.Fresh?) && |c.q.waiting| <= c.depth
    ensures OutputMoves(R, c, Step(R, c, a, full, now))
  {
    hide BodyLife, BodyWorld, EnterStep, FlushStep, OpenStep, JoinStep, SayStep, HandlerEnqueue, HandlerTake, EnvStep,
      HandlerVerdict, PingStep, WriterPull, WriterStep, ReaderStep, ReaderTake, OutputEnqueue;
    if a.OEnqueue? { PushMoves(R, c); }
  }

  lemma OutputSendTraced(R: Rules, c: Conn)
    requires Traced(R, c) && c.out.OPost?
    ensures Traced(R, c.(results := c.results + [c.out.result], out := ODone))
  {
    hide Caused, RunTraced;
    Sent(R, c, c.(out := ODone), c.out.result);
  }

  lemma KeepaliveTraced(R: Rules, c: Conn, a: Act, full: bool, now: nat)
    requires Traced(R, c) && Can(R, c, a) && (a.KStop? || a.KTake? || a.KPing?) && !c.run.XIdle?
    ensures Traced(R, Step(R, c, a, full, now))
  {
    hide BodyLife, BodyWorld, EnterStep, FlushStep, OpenStep, JoinStep, SayStep, HandlerEnqueue, HandlerTake, EnvStep,
      HandlerVerdict, OutputEnqueue, OutputTake, WriterPull, WriterStep, ReaderStep, ReaderTake, Caused, Returned,
      RunTraced;
    var d := Step(R, c, a, full, now);
    OutputKept(R, c, d);
    TracedFrame(R, c, d);
  }

  lemma PingSendTraced(R: Rules, c: Conn)
    requires Traced(R, c) && c.ka.KPost?
    ensures Traced(R, c.(results := c.results + [c.ka.result], ka := KDone(true)))
  {
    hide Caused, RunTraced, FromConsole;
    OutputKept(R, c, c.(ka := KDone(true)));
    Sent(R, c, c.(ka := KDone(true)), c.ka.result);
  }

  lemma ReceiveTraced(R: Rules, c: Conn)
    requires Traced(R, c) && c.results != [] && c.run.XReceive?
    ensures Traced(R, c.(results := c.results[1..], run := XSayError(c.results[0])))
  {
    var d := c.(results := c.results[1..], run := XSayError(c.results[0]));
    SameBut(R, c, d);
    hide Returned, Kept, OutputTraced, PingTraced, Caused;
    forall i | 0 <= i < |d.results| ensures Returned(R, d, d.results[i]) {
      assert d.results[i] == c.results[i + 1];
      ReturnedKept(R, c, d, d.results[i]);
    }
    ReturnedKept(R, c, d, c.results[0]);
    if !c.life.once.Fresh? { CausedKept(R, c, d, c.life.once.holder, c.life.once.call); }
  }

  lemma SameBut(R: Rules, c: Conn, d: Conn)
    requires d.rd == c.rd && d.out == c.out && d.ka == c.ka && d.seen == c.seen && d.depth == c.depth
    requires d.life.once.Fresh? == c.life.once.Fresh?
    requires d.net.received == c.net.received && d.net.fault == c.net.fault && d.typed == c.typed
    ensures Kept(c, d) && (OutputTraced(R, c) ==> OutputTraced(R, d)) && (PingTraced(R, c) ==> PingTraced(R, d))
  {
  }

  lemma RunStepTraced(R: Rules, c: Conn, d: Conn)
    requires Traced(R, c) && !c.run.XIdle?
    requires d.rd == c.rd && d.out == c.out && d.ka == c.ka && d.seen == c.seen && d.life == c.life
    requires d.depth == c.depth
    requires d.net.received == c.net.received && d.net.fault == c.net.fault && d.typed == c.typed
    requires d.h == c.h && d.wr == c.wr && d.results == c.results && !d.run.XIdle?
    requires match d.run
             case XSayClose(r) => c.run == XSayError(r)
             case XClosing(r) => c.run == XSayClose(r)
             case run => run.XJoining? || run.XDone?
    ensures Traced(R, d)
  {
    SameBut(R, c, d);
    hide Returned, Kept, OutputTraced, PingTraced, Caused;
    ResultsKept(R, c, d);
    if d.run.XSayClose? || d.run.XClosing? { ReturnedKept(R, c, d, d.run.result); }
    if !c.life.once.Fresh? { CausedKept(R, c, d, c.life.once.holder, c.life.once.call); }
  }

  lemma FlushTraced(R: Rules, c: Conn, ok: bool)
    requires Traced(R, c) && (c.run.XSayError? || c.run.XSayClose?)
    ensures Traced(R, FlushStep(R, c, ok))
  {
    hide Traced;
    RunStepTraced(R, c, FlushStep(R, c, ok));
  }

  /** Who enters `close` first has a cause: with a result in hand, one that did not come from the queue. */
  lemma EnterTraced(R: Rules, c: Conn, who: Closer)
    requires Good(R, c) && Traced(R, c) && c.life.once.Fresh? && CallOf(R, c, who).Some?
    ensures Traced(R, EnterStep(R, c, who))
  {
    var d := EnterStep(R, c, who);
    EnteringKeepsEvidence(R, c, who);
    if who.Runner? {
      ReaderExplained(R, c, c.run.result);
    }
    hide Returned, OutputTraced, PingTraced, FromReader, FromConsole, FromPing, QueueWasFull, Good;
    ResultsKept(R, c, d);
    if d.run.XSayError? || d.run.XSayClose? || d.run.XClosing? { ReturnedKept(R, c, d, d.run.result); }
    if who.Runner? {
      ReturnedKept(R, c, d, c.run.result);
    }
  }

  lemma EnteringKeepsEvidence(R: Rules, c: Conn, who: Closer)
    requires Good(R, c) && CallOf(R, c, who).Some? && Traced(R, c)
    ensures var d := EnterStep(R, c, who);
            && Kept(c, d) && OutputTraced(R, d) && PingTraced(R, d)
            && (who.Outputter? || who.Starter? ==> QueueWasFull(d)) && (who.Writer? ==> d.seen.unwritten.Some?)
            && (d.h.HClosing? || d.out.OClosing? ==> QueueWasFull(d))
  {
    hide Returned, Caused, RunTraced, Good;
  }

  /** Nobody has hung up yet, so a read error is the socket's own. */
  lemma ReaderExplained(R: Rules, c: Conn, r: LoopResult)
    requires Good(R, c) && c.life.once.Fresh? && c.h.HServed? && Returned(R, c, r)
    ensures FromReader(R, c, r) || FromConsole(R, c, r) || FromPing(R, c, r)
  {
    hide LastAsks, Fold, OutputOf, QueueOk, OutputOk, WireOk, DirectOk, HolderOk, ResultsOk;
    assert !c.net.hung;
  }

  lemma BodyTraced(R: Rules, c: Conn, now: nat)
    requires Traced(R, c) && c.life.once.Running?
    ensures Traced(R, BodyWorld(c, BodyLife(c.life, c.hook, now)))
  {
    hide BodyWorld, BodyLife, Returned, Caused, RunTraced, OutputTraced, PingTraced, Kept, QueueWasFull;
    var d := BodyWorld(c, BodyLife(c.life, c.hook, now));
    BodyLeaves(c, now);
    SameBut(R, c, d);
    TracedFrame(R, c, d);
  }

  lemma BodyLeaves(c: Conn, now: nat)
    requires c.life.once.Running?
    ensures var d := BodyWorld(c, BodyLife(c.life, c.hook, now));
            && d.rd == c.rd && d.out == c.out && d.ka == c.ka && d.wr == c.wr && d.h == c.h && d.run == c.run
            && d.seen == c.seen && d.depth == c.depth && d.results == c.results && d.typed == c.typed
            && d.net.received == c.net.received && d.net.fault == c.net.fault
            && !d.life.once.Fresh?
            && d.life.once.holder == c.life.once.holder && d.life.once.call == c.life.once.call
  {
  }

  lemma LoopTraced(R: Rules, c: Conn, a: Act, full: bool, now: nat)
    requires Good(R, c) && Traced(R, c) && Can(R, c, a) && LoopAct(a)
    ensures Traced(R, Step(R, c, a, full, now))
  {
    hide Traced, LifeOk, HolderOk, StartOk, TeardownOk, ResultsOk, OutputOk, WireOk, DirectOk, Upstream, ReaderTake,
      ReaderStep, WriterPull, WriterStep, OutputTake, OutputEnqueue;
    match a {
      case RTake => ReaderTraced(R, c, a, full, now);
      case RTakeError(_) => ReaderTraced(R, c, a, full, now);
      case RGo(_, _) => ReaderTraced(R, c, a, full, now);
      case OTake => OutputStepTraced(R, c, a, full, now);
      case OTakeError(_) => OutputStepTraced(R, c, a, full, now);
      case OEnqueue => OutputStepTraced(R, c, a, full, now);
      case OReturn => OutputStepTraced(R, c, a, full, now);
      case OSend => OutputSendTraced(R, c);
      case _ => WriterTraced(R, c, a, full, now);
    }
  }

  lemma CloseActTraced(R: Rules, c: Conn, a: Act, full: bool, now: nat)
    requires Good(R, c) && Traced(R, c) && Can(R, c, a) && CloseAct(a)
    ensures Traced(R, Step(R, c, a, full, now))
  {
    hide Traced, LifeOk, HolderOk, StartOk, TeardownOk, ResultsOk, Downstream, Upstream, PingStep, FlushStep,
      EnterStep, BodyWorld, BodyLife;
    match a {
      case KSend => PingSendTraced(R, c);
      case XTake => ReceiveTraced(R, c);
      case XSay(ok) => FlushTraced(R, c, ok);
      case XReturn => RunStepTraced(R, c, c.(run := XJoining));
      case XJoin => RunStepTraced(R, c, c.(run := XDone));
      case Enter(who) => EnterTraced(R, c, who);
      case Body => BodyTraced(R, c, now);
      case _ => KeepaliveTraced(R, c, a, full, now);
    }
  }

  lemma StepTraced(R: Rules, c: Conn, a: Act, full: bool, now: nat)
    requires Good(R, c) && Traced(R, c) && Can(R, c, a)
    ensures Traced(R, Step(R, c, a, full, now))
  {
    hide Traced, Step, Can, LifeOk, HolderOk, StartOk, TeardownOk, ResultsOk, OutputOk, WireOk, DirectOk, Upstream;
    if HandlerAct(a) {
      HandlerLeaves(R, c, a, full, now);
      HandlerTraced(R, c, Step(R, c, a, full, now));
    } else if LoopAct(a) {
      LoopTraced(R, c, a, full, now);
    } else {
      CloseActTraced(R, c, a, full, now);
    }
  }

  // ---- over runs ----

  /** A session closed by `CloseAll` was in the snapshot of a call with that reason. */
  predicate SweptBy(c: Conn, id: nat, sweeps: map<nat, Sweep>) {
    !c.life.once.Fresh? && c.life.once.holder.Sweeper? ==>
      var who := c.life.once.holder;
      who.k in sweeps && sweeps[who.k].reason == who.reason && id in sweeps[who.k].taken
  }

  ghost predicate AllTraced(R: Rules, g: State) {
    forall id :: id in g.conns ==> Traced(R, g.conns[id]) && SweptBy(g.conns[id], id, g.sweeps)
  }

  /** Snapshots are never changed. */
  predicate SweepsGrow(before: map<nat, Sweep>, after: map<nat, Sweep>) {
    forall k :: k in before ==> k in after && after[k].reason == before[k].reason && after[k].taken == before[k].taken
  }

  lemma ActSwept(R: Rules, g: State, id: nat, a: Act)
    requires GoodState(R, g) && Enabled(R, g, At(id, a)) && SweptBy(g.conns[id], id, g.sweeps)
    ensures SweptBy(Apply(R, g, At(id, a)).conns[id], id, g.sweeps)
  {
    hide Machine.Step, Can, Downstream, Upstream, Control;
    var c, d := g.conns[id], Apply(R, g, At(id, a)).conns[id];
    HolderStays(R, c, a, AtCapacity(g), g.now);
    if a.Enter? && a.who.Sweeper? {
      assert SweepOk(g.sweeps[a.who.k], g.conns);
    }
  }

  /** Only entering `close` sets its caller. */
  lemma HolderStays(R: Rules, c: Conn, a: Act, full: bool, now: nat)
    requires Can(R, c, a)
    ensures var once := Step(R, c, a, full, now).life.once;
            if a.Enter? then c.life.once.Fresh? && !once.Fresh? && once.holder == a.who
            else once.Fresh? == c.life.once.Fresh? && (!once.Fresh? ==> once.holder == c.life.once.holder)
  {
    if a.Body? {
    } else if HandlerAct(a) || LoopAct(a) {
      LifeLeft(R, c, a, full, now);
    } else {
      hide HandlerTake, HandlerVerdict, OpenStep, JoinStep, SayStep, HandlerEnqueue, ReaderTake, ReaderStep,
        WriterPull, WriterStep, OutputTake, OutputEnqueue, EnvStep;
    }
  }

  lemma LifeLeft(R: Rules, c: Conn, a: Act, full: bool, now: nat)
    requires Can(R, c, a) && (HandlerAct(a) || LoopAct(a))
    ensures Step(R, c, a, full, now).life == c.life
  {
    hide Machine.Step;
    if HandlerAct(a) { HandlerGrows(R, c, a, full, now); } else { LoopGrows(R, c, a, full, now); }
  }

  lemma SweptStays(c: Conn, id: nat, before: map<nat, Sweep>, after: map<nat, Sweep>)
    requires SweptBy(c, id, before) && SweepsGrow(before, after)
    ensures SweptBy(c, id, after)
  {
  }

  lemma EventSweeps(R: Rules, g: State, e: Event)
    requires Enabled(R, g, e)
    ensures SweepsGrow(g.sweeps, Apply(R, g, e).sweeps)
  {
    hide Machine.Step;
  }

  lemma NewIsTraced(R: Rules, depth: nat, hook: bool)
    ensures Traced(R, NewConn(depth, hook))
  {
  }

  lemma EventTraced(R: Rules, g: State, e: Event)
    requires GoodState(R, g) && AllTraced(R, g) && Enabled(R, g, e)
    ensures AllTraced(R, Apply(R, g, e))
  {
    hide Machine.Step, Can, Control, Downstream, Upstream, SweepOk, Traced, SweptBy, SweepsGrow;
    EventSweeps(R, g, e);
    var next := Apply(R, g, e);
    forall id | id in next.conns ensures Traced(R, next.conns[id]) && SweptBy(next.conns[id], id, next.sweeps) {
      if e.At? && e.id == id {
        StepTraced(R, g.conns[id], e.act, AtCapacity(g), g.now);
        ActSwept(R, g, id, e.act);
      } else if id in g.conns {
        SweptStays(g.conns[id], id, g.sweeps, next.sweeps);
      } else {
        NewIsTraced(R, g.depth, e.hook);
        NewIsUnswept(g.depth, e.hook, id, next.sweeps);
      }
    }
  }

  lemma NewIsUnswept(depth: nat, hook: bool, id: nat, sweeps: map<nat, Sweep>)
    ensures SweptBy(NewConn(depth, hook), id, sweeps)
  {
  }

  lemma {:induction false} RunIsTraced(R: Rules, g: State, es: seq<Event>, end: State)
    requires GoodState(R, g) && Faithful(R) && AllTraced(R, g) && Runs(R, g, es, end)
    ensures AllTraced(R, end)
    decreases |es|
  {
    hide GoodState, AllTraced, Faithful, Enabled, Apply;
    if es != [] {
      EventKeeps(R, g, es[0]);
      EventTraced(R, g, es[0]);
      RunIsTraced(R, Apply(R, g, es[0]), es[1..], end);
    }
  }

  lemma ReachableIsTraced(R: Rules, g: State)
    requires Faithful(R) && Reachable(R, g)
    ensures AllTraced(R, g)
  {
    var start, es :| Initial(start) && Runs(R, start, es, g);
    assert Sessions(start.conns) == {};
    RunIsTraced(R, start, es, g);
  }

  // ---- the theorems ----

  /** What `run` received and closed the session with: `readLoop` returned it at its last frame or for the error the
      socket had met, or the console's last read brought an error, or a ping failed. */
  ghost predicate LoopEnded(c: Conn, r: LoopResult) {
    || (c.rd == RDone(r)
        && ReadLoopOutcome(React, Tail(c.net.received), c.typed.ops, r, false, c.net.fault))
    || (c.seen.consoleError == Some(Eof)
        && ReportOf(r) == Report(ConsoleClosed, 1000, "console_closed", [CloseNotice("console_closed")]))
    || (exists text ::
          && c.seen.consoleError == Some(IoError(text))
          && ReportOf(r) == Report(SSHError, 1011, "ssh_read_failed",
                                   [Failed("ssh_read_failed", text), CloseNotice("ssh_error")]))
    || (c.seen.ping == Some(PingPeerClosed)
        && ReportOf(r) == Report(BrowserDisconnect, 1000, "browser_disconnect", []))
    || (c.seen.ping == Some(PingFailed)
        && ReportOf(r) == Report(InternalError, 1011, "keepalive_ping_failed",
                                 [Failed("keepalive_ping_failed", "failed to write websocket keepalive ping"),
                                  CloseNotice("internal_error")]))
  }

  /** Every end has its cause, by who entered `close` first: for `Enqueue`, a frame met a queue filled to its depth;
      for `writeLoop`, a frame could not be written; for `CloseAll`, a call with that reason had the session in its
      snapshot; for `run`, one of the loops had returned, with its own cause. */
  lemma EndIsExplained(g: State, id: nat)
    requires Reachable(GATEWAY, g) && id in g.conns && !g.conns[id].life.once.Fresh?
    ensures var c, call := g.conns[id], g.conns[id].life.once.call;
            match c.life.once.holder
            case Starter => call == CloseCall(SlowClient, 1008, "outbound_queue_exhausted") && QueueWasFull(c)
            case Outputter => call == CloseCall(SlowClient, 1008, "outbound_queue_exhausted") && QueueWasFull(c)
            case Writer => call == CloseCall(BrowserDisconnect, 1006, "write_failed") && c.seen.unwritten.Some?
            case Sweeper(k, reason) =>
              && call == CloseCall(reason, 1001, ReasonText(reason))
              && k in g.sweeps && g.sweeps[k].reason == reason && id in g.sweeps[k].taken
            case Runner => exists r: LoopResult :: call == r.call && LoopEnded(c, r)
  {
    hide React, Reachable, Good, ConsoleErrorResult, LoopEnded, ReadLoopOutcome, QueueWasFull, FromReader,
      FromConsole, FromPing;
    GatewayIsFaithful();
    ReachableIsTraced(GATEWAY, g);
    var c := g.conns[id];
    if c.life.once.holder.Runner? {
      var r: LoopResult :|
        && c.life.once.call == r.call
        && (FromReader(GATEWAY, c, r) || FromConsole(GATEWAY, c, r) || FromPing(GATEWAY, c, r));
      SourceMeans(c, r);
    }
  }

  lemma SourceMeans(c: Conn, r: LoopResult)
    requires FromReader(GATEWAY, c, r) || FromConsole(GATEWAY, c, r) || FromPing(GATEWAY, c, r)
    ensures LoopEnded(c, r)
  {
    hide React, ReportOf, Heard, LastAsks, Fold, ReadLoopOutcome, Explained;
    if FromReader(GATEWAY, c, r) {
      ReaderMeans(c, r);
    } else if FromConsole(GATEWAY, c, r) {
      ConsoleErrorReport(c.seen.consoleError.value);
      hide ConsoleErrorResult;
    } else if c.seen.ping == Some(PingPeerClosed) {
      ReadErrorReport(PeerClosed);
    } else {
      PingReport();
    }
  }

  lemma ReaderMeans(c: Conn, r: LoopResult)
    requires FromReader(GATEWAY, c, r)
    ensures ReadLoopOutcome(React, Tail(c.net.received), c.typed.ops, r, false, c.net.fault)
  {
    hide React, LastAsks, Fold;
  }

  lemma PingReport()
    ensures ReportOf(GATEWAY.pingFailed) ==
            Report(InternalError, 1011, "keepalive_ping_failed",
                   [Failed("keepalive_ping_failed", "failed to write websocket keepalive ping"),
                    CloseNotice("internal_error")])
  {
    FlushIsHeard(GATEWAY.pingFailed);
    hide FlushFrames;
  }

  lemma BlamedFrame(c: Conn, r: LoopResult)
    requires LoopEnded(c, r) && r.call.reason in {ProtocolViolation, ClientClose}
    ensures c.rd == RDone(r) && LastAsks(React, Tail(c.net.received), c.typed.ops, Return(r))
  {
    hide React, LastAsks, Fold, Heard;
  }

  /** The client is blamed for the end only if it is to blame: unless `CloseAll` was told to say so, a recorded
      `protocol_violation` or `client_close` is the result of the last frame `readLoop` took, and all operations of
      the frames before it, none of which ended the loop, have reached the console. */
  lemma BlameIsDeserved(g: State, id: nat)
    requires Reachable(GATEWAY, g) && id in g.conns && !g.conns[id].life.once.Fresh?
    requires g.conns[id].life.once.call.reason in {ProtocolViolation, ClientClose}
    requires !g.conns[id].life.once.holder.Sweeper?
    ensures var c := g.conns[id];
            && c.rd.RDone? && c.rd.result.call == c.life.once.call
            && LastAsks(React, Tail(c.net.received), c.typed.ops, Return(c.rd.result))
  {
    hide React, Fold, Reachable, LoopEnded, LastAsks, QueueWasFull;
    EndIsExplained(g, id);
    var c := g.conns[id];
    if c.life.once.holder.Runner? {
      var r: LoopResult :| c.life.once.call == r.call && LoopEnded(c, r);
      BlamedFrame(c, r);
    }
  }
}
