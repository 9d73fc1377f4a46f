/** What holds in every reachable state of every interleaving of connections, closers and `CloseAll` calls. */
module Safety {
  import opened Prelude
  import opened Protocol
  import opened Results
  import opened Admission
  import opened Machine
  import opened Invariants
  import opened Growth
  import opened Gateway

  lemma GatewayIsFaithful()
    ensures Faithful(GATEWAY)
  {
    ServerFramesAreUnderstood("", "", "");
    forall data ensures OutputData(NewServerOutput(data)) == data {
      OutputIsLossless(data);
    }
  }

  /** Every connection of a reachable state satisfies the machine's invariant. */
  lemma ConnIsGood(g: State, id: nat)
    requires Reachable(GATEWAY, g) && id in g.conns
    ensures Good(GATEWAY, g.conns[id]) && Faithful(GATEWAY)
  {
    GatewayIsFaithful();
    ReachableIsGood(GATEWAY, g);
  }

  // ---- consoles and capacity ----

  /** No console is leaked: a console that is open belongs to a `Start` call in flight or to a session in the
      registry; a session that has left the registry, or never entered it and whose `Start` is over, has no
      open console. */
  lemma NoConsoleLeaks(g: State, id: nat)
    requires Reachable(GATEWAY, g) && id in g.conns
    ensures var c := g.conns[id];
            && (c.term.state.Open? ==> InStart(c.h) || id in Sessions(g.conns))
            && (c.desk.joined && id !in Sessions(g.conns) ==> c.term.state.Shut?)
            && c.desk.opens <= 1
  {
    ConnIsGood(g, id);
  }

  function OpenConsoles(conns: map<nat, Conn>): set<nat> {
    set id | id in conns && conns[id].term.state.Open?
  }

  function StartsInFlight(conns: map<nat, Conn>): set<nat> {
    set id | id in conns && InStart(conns[id].h)
  }

  lemma UnionIsNoLarger<T>(a: set<T>, b: set<T>)
    ensures |a + b| <= |a| + |b|
  {
    assert a + b == a + (b - a);
    CardinalityOfSubset(b - a, b);
  }

  /** The registry never exceeds its limit, although `Start` checks it twice and opens the console in between;
      the consoles open at any time exceed it by at most the number of `Start` calls in flight. */
  lemma CapacityIsRespected(g: State)
    requires Reachable(GATEWAY, g)
    ensures |Sessions(g.conns)| <= g.max
    ensures |OpenConsoles(g.conns)| <= g.max + |StartsInFlight(g.conns)|
  {
    GatewayIsFaithful();
    ReachableIsGood(GATEWAY, g);
    forall id | id in OpenConsoles(g.conns) ensures id in Sessions(g.conns) + StartsInFlight(g.conns) {
      NoConsoleLeaks(g, id);
    }
    CardinalityOfSubset(OpenConsoles(g.conns), Sessions(g.conns) + StartsInFlight(g.conns));
    UnionIsNoLarger(Sessions(g.conns), StartsInFlight(g.conns));
  }

  // ---- close ----

  /** `close` takes effect once, and everything it leaves behind agrees: the end reason, the close frame's code
      and reason, and the `session_ended` record all come from one call; whoever sees the channel `closed`
      closed finds the end reason and time already set. */
  lemma CloseTakesEffectOnce(g: State, id: nat)
    requires Reachable(GATEWAY, g) && id in g.conns
    ensures var life := g.conns[id].life;
            && |life.hangUps| <= 1 && |life.ended| <= 1 && life.cleanups <= 1
            && (life.closed ==> life.endReason.Some? && life.endedAt.Some?)
            && (life.once.Fresh? <==> life == NewConn(1, false).life)
            && (!life.once.Fresh? ==>
                  && (life.endReason.Some? ==> life.endReason.value == life.once.call.reason)
                  && (life.hangUps != [] ==> life.hangUps[0] == HangUp(life.once.call.code, life.once.call.text))
                  && (life.ended != [] ==> life.ended[0] == life.once.call))
            && (life.once.Done? ==>
                  && life.state.Closed? && life.closed && life.endReason.Some? && life.ended != []
                  && life.hangUps != [] && (life.cleanups == 1 <==> g.conns[id].hook))
  {
    ConnIsGood(g, id);
  }

  /** Once set, the end reason and the end time never change, whoever else calls `close`; the state only moves
      from active to closing to closed. */
  lemma EndIsFinal(g: State, es: seq<Event>, end: State, id: nat)
    requires Reachable(GATEWAY, g) && Runs(GATEWAY, g, es, end) && id in g.conns
    ensures id in end.conns && LifeGrows(g.conns[id].life, end.conns[id].life)
  {
    GatewayIsFaithful();
    ReachableIsGood(GATEWAY, g);
    RunGrows(GATEWAY, g, es, end, id);
  }

  /** Everything a session's end leaves behind comes from `call`. */
  predicate EndsBy(life: Life, call: CloseCall) {
    && !life.once.Fresh? && life.once.call == call
    && (life.endReason.Some? ==> life.endReason.value == call.reason)
    && (life.ended != [] ==> life.ended == [call])
    && (life.hangUps != [] ==> life.hangUps == [HangUp(call.code, call.text)])
  }

  lemma EnteringSetsCall(R: Rules, g: State, id: nat, who: Closer)
    requires Enabled(R, g, At(id, Enter(who)))
    ensures var next := Apply(R, g, At(id, Enter(who)));
            id in next.conns && next.conns[id].life.once == Running(who, CallOf(R, g.conns[id], who).value, BMark)
  {
  }

  lemma CallStays(R: Rules, c: Conn, d: Conn)
    requires Good(R, d) && Grows(c, d) && !c.life.once.Fresh?
    ensures EndsBy(d.life, c.life.once.call)
  {
    hide Downstream, Upstream, StartOk, TeardownOk, HolderOk, ResultsOk, HistoryGrows;
  }

  lemma GoodAt(R: Rules, g: State, id: nat)
    requires GoodState(R, g) && id in g.conns
    ensures Good(R, g.conns[id])
  {
  }

  /** Whoever enters `close` first decides how the session ends, whatever happens from then on. */
  lemma FirstCallerDecides(g: State, id: nat, who: Closer, es: seq<Event>, end: State)
    requires Reachable(GATEWAY, g) && Enabled(GATEWAY, g, At(id, Enter(who)))
    requires Runs(GATEWAY, Apply(GATEWAY, g, At(id, Enter(who))), es, end)
    ensures id in end.conns && EndsBy(end.conns[id].life, CallOf(GATEWAY, g.conns[id], who).value)
  {
    hide Reachable, GoodState, Good, Runs, Apply, EndsBy, CallOf, Grows;
    GatewayIsFaithful();
    ReachableIsGood(GATEWAY, g);
    EnteringSetsCall(GATEWAY, g, id, who);
    EventKeeps(GATEWAY, g, At(id, Enter(who)));
    var next := Apply(GATEWAY, g, At(id, Enter(who)));
    RunGrows(GATEWAY, next, es, end, id);
    RunKeeps(GATEWAY, next, es, end);
    GoodAt(GATEWAY, end, id);
    CallStays(GATEWAY, next.conns[id], end.conns[id]);
  }

  /** From the moment its first statement runs, the session's end has that time and that call's reason. */
  lemma EndIsTimed(g: State, id: nat, es: seq<Event>, end: State)
    requires Reachable(GATEWAY, g) && Enabled(GATEWAY, g, At(id, Body)) && g.conns[id].life.once.at == BMark
    requires Runs(GATEWAY, Apply(GATEWAY, g, At(id, Body)), es, end)
    ensures id in end.conns
    ensures end.conns[id].life.endedAt == Some(g.now)
    ensures end.conns[id].life.endReason == Some(g.conns[id].life.once.call.reason)
  {
    hide Reachable, GoodState, Good, Runs, Enabled, Apply, HistoryGrows;
    GatewayIsFaithful();
    ReachableIsGood(GATEWAY, g);
    MarkSets(GATEWAY, g, id);
    EventKeeps(GATEWAY, g, At(id, Body));
    RunGrows(GATEWAY, Apply(GATEWAY, g, At(id, Body)), es, end, id);
  }

  lemma MarkSets(R: Rules, g: State, id: nat)
    requires Enabled(R, g, At(id, Body)) && g.conns[id].life.once.at == BMark
    ensures var next := Apply(R, g, At(id, Body));
            && id in next.conns && next.conns[id].life.endedAt == Some(g.now)
            && next.conns[id].life.endReason == Some(g.conns[id].life.once.call.reason)
  {
  }

  /** An `Enqueue` that has passed its check of `closed` and stands before the queue. */
  function Pushing(c: Conn): nat {
    One(c.h.HPush?) + One(c.out.OPush?)
  }

  lemma ClosedStep(R: Rules, c: Conn, a: Act, full: bool, now: nat)
    requires Control(R, c) && Can(R, c, a) && c.life.closed
    ensures var d := Step(R, c, a, full, now);
            d.life.closed && |d.q.accepted| + Pushing(d) <= |c.q.accepted| + Pushing(c)
  {
    StepGrows(R, c, a, full, now);
    if HandlerAct(a) {
      ClosedHandler(R, c, a, full, now);
    } else if LoopAct(a) {
      ClosedLoop(R, c, a, full, now);
    } else {
      ClosedRest(R, c, a, full, now);
    }
    hide Machine.Step, Can, Control, HistoryGrows;
  }

  lemma ClosedJoin(R: Rules, c: Conn, text: string)
    requires SpawnOk(c.h.HServed?, c.rd, c.wr, c.out, c.ka, c.run)
    ensures var d := JoinStep(R, c, text); |d.q.accepted| + Pushing(d) <= |c.q.accepted| + Pushing(c)
  {
  }

  lemma ClosedEnqueue(R: Rules, c: Conn)
    requires c.life.closed
    ensures var d := HandlerEnqueue(R, c); |d.q.accepted| + Pushing(d) <= |c.q.accepted| + Pushing(c)
  {
  }

  lemma ClosedOpen(R: Rules, c: Conn, ok: bool, text: string, full: bool)
    ensures var d := OpenStep(R, c, ok, text, full); |d.q.accepted| + Pushing(d) <= |c.q.accepted| + Pushing(c)
  {
  }

  lemma ClosedHandler(R: Rules, c: Conn, a: Act, full: bool, now: nat)
    requires Control(R, c) && Can(R, c, a) && c.life.closed && HandlerAct(a)
    ensures var d := Step(R, c, a, full, now); |d.q.accepted| + Pushing(d) <= |c.q.accepted| + Pushing(c)
  {
    hide EnvCan, StartOk, LifeOk, TeardownOk, HolderOk, ResultsOk, JoinStep, HandlerEnqueue, OpenStep, BodyLife,
      BodyWorld, EnterStep, FlushStep, PingStep, ReaderTake, ReaderStep, OutputTake, OutputEnqueue, WriterPull,
      WriterStep;
    match a {
      case HJoin(text) => ClosedJoin(R, c, text);
      case HEnqueue => ClosedEnqueue(R, c);
      case HGo(ok, text) => ClosedOpen(R, c, ok, text, full);
      case _ =>
    }
  }

  lemma ClosedLoop(R: Rules, c: Conn, a: Act, full: bool, now: nat)
    requires Can(R, c, a) && c.life.closed && LoopAct(a)
    ensures var d := Step(R, c, a, full, now); |d.q.accepted| + Pushing(d) <= |c.q.accepted| + Pushing(c)
  {
    hide BodyLife, BodyWorld, EnterStep, FlushStep, OpenStep, JoinStep, SayStep, HandlerEnqueue, HandlerTake, EnvStep,
      HandlerVerdict, PingStep;
  }

  lemma ClosedRest(R: Rules, c: Conn, a: Act, full: bool, now: nat)
    requires Can(R, c, a) && CloseAct(a)
    ensures var d := Step(R, c, a, full, now); |d.q.accepted| + Pushing(d) <= |c.q.accepted| + Pushing(c)
  {
    hide BodyLife, OpenStep, JoinStep, SayStep, HandlerEnqueue, HandlerTake, EnvStep, HandlerVerdict, ReaderTake,
      ReaderStep, OutputTake, OutputEnqueue, WriterPull, WriterStep;
  }

  /** A session whose channel `closed` is closed accepts no frame any more, but for the one whose `Enqueue` had passed
      its check before. */
  lemma {:induction false} ClosedAcceptsNoMore(R: Rules, g: State, es: seq<Event>, end: State, id: nat)
    requires GoodState(R, g) && Faithful(R) && Runs(R, g, es, end) && id in g.conns && g.conns[id].life.closed
    ensures id in end.conns && end.conns[id].life.closed
    ensures |end.conns[id].q.accepted| + Pushing(end.conns[id]) <= |g.conns[id].q.accepted| + Pushing(g.conns[id])
    ensures Pushing(g.conns[id]) <= 1
    decreases |es|
  {
    hide Machine.Step, Can, Pushing, Downstream, Upstream, SweepOk;
    OnePushes(R, g.conns[id]);
    if es != [] {
      var e, next := es[0], Apply(R, g, es[0]);
      if e.At? && e.id == id {
        ClosedStep(R, g.conns[id], e.act, AtCapacity(g), g.now);
      }
      EventKeeps(R, g, e);
      ClosedAcceptsNoMore(R, next, es[1..], end, id);
    }
  }

  lemma OnePushes(R: Rules, c: Conn)
    requires Control(R, c)
    ensures Pushing(c) <= 1
  {
  }

  /** What `CloseAll` has dealt with is closed, has its console shut and is gone from the map, in whatever
      order it went and whoever else closed it first. */
  lemma SweptSessionsAreGone(g: State, k: nat, id: nat)
    requires Reachable(GATEWAY, g) && k in g.sweeps
    requires id in g.sweeps[k].taken && id !in g.sweeps[k].pending && g.sweeps[k].at != Some(id)
    ensures id in g.conns && id !in Sessions(g.conns)
    ensures var c := g.conns[id];
            c.life.once.Done? && c.life.closed && c.life.state.Closed? && c.term.state.Shut? && c.net.hung
  {
    GatewayIsFaithful();
    ReachableIsGood(GATEWAY, g);
    assert SweepOk(g.sweeps[k], g.conns);
    ConnIsGood(g, id);
  }

  // ---- output ----

  function FramesOf(wire: seq<Sent>): seq<Frame> {
    if wire == [] then [] else FramesOf(wire[..|wire| - 1]) + [wire[|wire| - 1].frame]
  }

  lemma {:induction false} OutputPrefix(R: Rules, a: seq<Frame>, b: seq<Frame>)
    requires a <= b
    ensures OutputOf(R, a) <= OutputOf(R, b)
    decreases |b|
  {
    if |a| < |b| {
      OutputPrefix(R, a, b[..|b| - 1]);
    } else {
      assert a == b;
    }
  }

  /** Frames written past the queue carry no console output. */
  lemma {:induction false} DirectIsSilent(R: Rules, wire: seq<Sent>)
    requires forall f :: f in DirectOf(wire) ==> R.payload(f) == []
    ensures OutputOf(R, FramesOf(wire)) == OutputOf(R, QueuedOf(wire))
    decreases |wire|
  {
    if wire != [] {
      var front, last := wire[..|wire| - 1], wire[|wire| - 1];
      assert forall f :: f in DirectOf(front) ==> f in DirectOf(wire);
      DirectIsSilent(R, front);
      OutputSnoc(R, FramesOf(front), last.frame);
      if last.Queued? {
        OutputSnoc(R, QueuedOf(front), last.frame);
      } else {
        assert last.frame in DirectOf(wire);
        assert QueuedOf(wire) == QueuedOf(front);
      }
    }
  }

  lemma DirectFramesAreSilent(direct: seq<Frame>, f: Frame)
    requires UpToClose(GATEWAY, direct) && f in direct
    ensures OutputData(f) == []
  {
    if IsErrorFrame(GATEWAY, f) {
      var code, message :| f == NewServerError(code, message);
      ServerFramesAreUnderstood(code, message, "");
    } else {
      var reason :| f == NewServerClose(reason);
      ServerFramesAreUnderstood("", "", reason);
    }
  }

  lemma DirectIsUpToClose(R: Rules, c: Conn)
    requires Downstream(R, c)
    ensures UpToClose(R, DirectOf(c.net.wire))
  {
    if c.h.HServed? && (c.run.XSayClose? || c.run.XClosing?) {
      var r := c.run.result;
      SaidIsUpToClose(R, r.clientErrorCode, r.clientErrorText, r.clientCloseReason, DirectOf(c.net.wire));
    } else if c.h.HSayClose? || c.h.HHangUp? {
      var f := c.h.failure;
      SaidIsUpToClose(R, f.errorCode, f.message, f.reason, DirectOf(c.net.wire));
    }
  }

  /** What the browser has heard of the console is a prefix of what was read from it: no gap, no duplicate, no
      reordering, whatever the interleaving; the queue conserves frames at all times. */
  lemma OutputFidelity(g: State, id: nat)
    requires Reachable(GATEWAY, g) && id in g.conns
    ensures var c := g.conns[id];
            && c.q.accepted == c.q.pulled + c.q.waiting
            && |c.q.waiting| <= g.depth
            && OutputOf(GATEWAY, FramesOf(c.net.wire)) <= c.term.output
  {
    hide Understand;
    ConnIsGood(g, id);
    var c := g.conns[id];
    DirectIsUpToClose(GATEWAY, c);
    forall f | f in DirectOf(c.net.wire) ensures GATEWAY.payload(f) == [] {
      DirectFramesAreSilent(DirectOf(c.net.wire), f);
    }
    DirectIsSilent(GATEWAY, c.net.wire);
    QueuedIsPulled(GATEWAY, c);
    OutputPrefix(GATEWAY, QueuedOf(c.net.wire), c.q.pulled);
    OutputPrefix(GATEWAY, c.q.pulled, c.q.accepted);
    ReachableIsGood(GATEWAY, g);
  }

  lemma QueuedIsPulled(R: Rules, c: Conn)
    requires Good(R, c)
    ensures QueuedOf(c.net.wire) <= c.q.pulled <= c.q.accepted
    ensures OutputOf(R, c.q.accepted) <= c.term.output
  {
  }

  /** When `outputLoop` is back at its read, the queue is empty and `writeLoop` is waiting, the browser has heard
      everything. */
  lemma DrainedOutputIsComplete(g: State, id: nat)
    requires Reachable(GATEWAY, g) && id in g.conns
    requires g.conns[id].out.OReading? && g.conns[id].q.waiting == [] && g.conns[id].wr.WSelect?
    ensures OutputOf(GATEWAY, FramesOf(g.conns[id].net.wire)) == g.conns[id].term.output
  {
    hide Understand;
    ConnIsGood(g, id);
    var c := g.conns[id];
    DirectIsUpToClose(GATEWAY, c);
    forall f | f in DirectOf(c.net.wire) ensures GATEWAY.payload(f) == [] {
      DirectFramesAreSilent(DirectOf(c.net.wire), f);
    }
    DirectIsSilent(GATEWAY, c.net.wire);
    assert QueuedOf(c.net.wire) == c.q.accepted;
  }

  /** Server frame order: without the frames of `flush` and `writeWebSocketFailure` (at most one error, then at
      most one close), the browser received a prefix of what the queue accepted, which is one `authorized`
      followed by console output only. Before `close` is called with a result, and before the handler hangs up on a
      failure, those frames say what that result or failure says. */
  lemma FrameOrder(g: State, id: nat)
    requires Reachable(GATEWAY, g) && id in g.conns
    ensures var queued := QueuedOf(g.conns[id].net.wire);
            && queued <= g.conns[id].q.accepted
            && (forall i :: 0 <= i < |queued| ==> (Understand(queued[i]).Authorized? <==> i == 0))
            && (forall i :: 0 <= i < |queued| ==> (IsOutput(queued[i]) <==> i > 0))
    ensures UpToClose(GATEWAY, DirectOf(g.conns[id].net.wire))
    ensures match g.conns[id].run
            case XClosing(r) =>
              Said(GATEWAY, r.clientErrorCode, r.clientErrorText, r.clientCloseReason, DirectOf(g.conns[id].net.wire))
            case _ => true
    ensures match g.conns[id].h
            case HHangUp(f) => Said(GATEWAY, f.errorCode, f.message, f.reason, DirectOf(g.conns[id].net.wire))
            case _ => true
  {
    hide Understand;
    ConnIsGood(g, id);
    var c := g.conns[id];
    DirectIsUpToClose(GATEWAY, c);
    QueuedIsPulled(GATEWAY, c);
    var queued := QueuedOf(c.net.wire);
    forall i | 0 <= i < |queued|
      ensures (Understand(queued[i]).Authorized? <==> i == 0) && (IsOutput(queued[i]) <==> i > 0)
    {
      assert queued[i] == c.q.accepted[i];
      if i == 0 {
        ServerFramesAreUnderstood("", "", "");
      } else {
        assert IsOutputFrame(GATEWAY, c.q.accepted[i]);
        var data :| c.q.accepted[i] == NewServerOutput(data);
        OutputIsLossless(data);
      }
    }
  }

  // ---- input and authorization ----

  lemma ConsoleBehindGrant(R: Rules, c: Conn)
    requires Good(R, c)
    ensures c.desk.opens <= 1
    ensures c.desk.opens == 1 || c.typed.ops != [] ==> c.desk.grant.Some? && c.desk.grant.value.address != ""
    ensures c.desk.grant.Some? ==> c.net.received != [] && R.first(c.net.received[0]) == Admit(c.desk.grant.value.token)
    ensures c.typed.ops <= Fold(R.react, Tail(c.net.received)).ops
  {
    hide LifeOk, TeardownOk, HolderOk, ResultsOk, QueueOk, OutputOk, WireOk, DirectOk;
  }

  /** Nothing reaches a console without authorization: a console is opened at most once, behind a first frame
      that is a well-formed `authorize` whose token the validator accepted; and every write or resize is an
      effect of a later frame, in order, and is a non-empty write or a positive resize. */
  lemma AuthorizationSafety(g: State, id: nat)
    requires Reachable(GATEWAY, g) && id in g.conns
    ensures var c := g.conns[id];
            && c.desk.opens <= 1
            && (c.desk.opens == 1 || c.typed.ops != [] ==>
                  && c.desk.grant.Some? && c.desk.grant.value.address != "" && c.net.received != []
                  && OnFirstFrame(c.net.received[0]) == Admit(c.desk.grant.value.token)
                  && c.desk.grant.value.token != "" && TrimSpace(c.desk.grant.value.token) == c.desk.grant.value.token)
            && c.typed.ops <= Fold(React, Tail(c.net.received)).ops
  {
    hide OnFirstFrame, React, Good;
    ConnIsGood(g, id);
    ConsoleBehindGrant(GATEWAY, g.conns[id]);
    var c := g.conns[id];
    if c.desk.grant.Some? {
      AdmittedToken(c.net.received[0]);
    }
  }

  /** The input path refines the fold: when `readLoop` has returned, its operations are the fold's over the frames it
      took, up to the last one, which gave its result or asked for an operation that failed; or the socket failed
      after the last one, closed by the gateway or with the error it has met. */
  lemma InputRefinesFold(g: State, id: nat, result: LoopResult)
    requires Reachable(GATEWAY, g) && id in g.conns && g.conns[id].rd == RDone(result)
    ensures var c := g.conns[id];
            ReadLoopOutcome(React, Tail(c.net.received), c.typed.ops, result, c.net.hung, c.net.fault)
  {
    hide React;
    ConnIsGood(g, id);
  }

  /** A frame that ends the loop ends the fold of any frames it is among. */
  lemma EndingFrameEnds(react: Frame -> Reaction, frames: seq<Frame>, j: nat)
    requires j < |frames| && react(frames[j]).Return?
    ensures Fold(react, frames).end.Some?
    ensures j < |frames| - 1 ==> Fold(react, frames[..|frames| - 1]).end.Some?
  {
    assert frames[..j + 1][..j] == frames[..j];
    FoldPrefix(react, frames, j + 1);
    if j < |frames| - 1 {
      var front := frames[..|frames| - 1];
      assert front[..j + 1] == frames[..j + 1];
      FoldPrefix(react, front, j + 1);
    }
  }

  /** A frame after the first one that ends the loop is the last one the reader took, and gives its result; nothing
      has failed, and the operations are those of the frames before it. */
  lemma EndingFrameIsLast(R: Rules, c: Conn, i: nat)
    requires Good(R, c) && 1 <= i < |c.net.received| && R.react(c.net.received[i]).Return?
    ensures i == |c.net.received| - 1
    ensures var result := R.react(c.net.received[i]).result; c.rd == RPost(result) || c.rd == RDone(result)
    ensures c.typed.failed.None? && Fold(R.react, c.net.received[1..i]) == Trace(c.typed.ops, None)
  {
    hide Fold, Control, Downstream;
    var frames := Tail(c.net.received);
    assert frames[i - 1] == c.net.received[i];
    EndingFrameEnds(R.react, frames, i - 1);
    assert frames[..|frames| - 1] == c.net.received[1..|c.net.received| - 1];
  }

  /** A second `authorize` is the last frame the reader takes: it adds nothing to the operations of the frames before
      it, and the reader returns, or has returned, that protocol violation. */
  lemma SecondAuthorizeIsRefused(g: State, id: nat, i: nat)
    requires Reachable(GATEWAY, g) && id in g.conns
    requires 1 <= i < |g.conns[id].net.received| && OnFirstFrame(g.conns[id].net.received[i]).Admit?
    ensures var c := g.conns[id];
            && i == |c.net.received| - 1
            && Fold(React, c.net.received[1..i]) == Trace(c.typed.ops, None) && c.typed.failed.None?
            && (c.rd == RPost(UNEXPECTED_AUTHORIZE) || c.rd == RDone(UNEXPECTED_AUTHORIZE))
  {
    ConnIsGood(g, id);
    AuthorizeReturns(g.conns[id].net.received[i]);
    hide React, Good, OnFirstFrame, Reachable;
    EndingFrameIsLast(GATEWAY, g.conns[id], i);
  }

  lemma AuthorizeReturns(f: Frame)
    requires OnFirstFrame(f).Admit?
    ensures React(f) == Return(UNEXPECTED_AUTHORIZE)
  {
    AdmittedToken(f);
  }

  // ---- the results channel ----

  /** `readLoop`, `outputLoop` and `keepaliveLoop` never wait for room in `results`. */
  lemma ProducersNeverBlock(g: State, id: nat)
    requires Reachable(GATEWAY, g) && id in g.conns
    ensures var c := g.conns[id];
            && |c.results| <= 3
            && (c.rd.RPost? || c.out.OPost? || c.ka.KPost? ==> |c.results| < 3)
  {
    ConnIsGood(g, id);
  }
}
