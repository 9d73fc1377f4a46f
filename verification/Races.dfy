/** Orders that the program does not promise, each shown by a run of the gateway that breaks it. */
module Races {
  import opened Prelude
  import opened Protocol
  import opened Results
  import opened Admission
  import opened Machine
  import opened Invariants
  import opened Gateway
  import opened Growth
  import opened Safety
  import opened Causes
  import opened Teardown

  lemma {:induction false} RunsSnoc(R: Rules, g: State, es: seq<Event>, mid: State, e: Event)
    requires Runs(R, g, es, mid) && Enabled(R, mid, e)
    ensures Runs(R, g, es + [e], Apply(R, mid, e))
    decreases |es|
  {
    hide Machine.Step, Enabled, Apply;
    if es == [] {
      assert (es + [e])[1..] == [];
    } else {
      RunsSnoc(R, Apply(R, g, es[0]), es[1..], mid, e);
      assert (es + [e])[1..] == es[1..] + [e];
    }
  }

  lemma Extend(R: Rules, g: State, e: Event) returns (next: State)
    requires Reachable(R, g) && Enabled(R, g, e)
    ensures next == Apply(R, g, e) && Reachable(R, next)
  {
    hide Enabled, Apply, Runs;
    next := Apply(R, g, e);
    var start, es :| Initial(start) && Runs(R, start, es, g);
    RunsSnoc(R, start, es, g, e);
  }

  /** A gateway with one connection, in state `c`. */
  predicate Alone(g: State, c: Conn) {
    g.conns == map[0 := c] && g.max == 1
  }

  lemma Move(R: Rules, g: State, c: Conn, a: Act) returns (next: State, d: Conn)
    requires Reachable(R, g) && Alone(g, c) && Can(R, c, a) && !a.Enter?
    ensures Reachable(R, next) && d == Step(R, c, a, c.desk.entry, g.now) && Alone(next, d) && next.sweeps == g.sweeps
  {
    hide Machine.Step, Can, Reachable;
    assert Sessions(g.conns) == if c.desk.entry then {0} else {};
    next := Extend(R, g, At(0, a));
    d := Step(R, c, a, c.desk.entry, g.now);
  }

  /** `CloseAll` finds the session and is the first to call `close`. */
  lemma Sweep(R: Rules, g: State, c: Conn, reason: EndReason) returns (next: State, d: Conn)
    requires Reachable(R, g) && Alone(g, c) && g.sweeps == map[] && c.desk.entry && c.life.once.Fresh?
    ensures Reachable(R, next) && Alone(next, d)
    ensures d == c.(life := c.life.(once := Running(Sweeper(0, reason), R.sweepCall(reason), BMark)))
  {
    hide Reachable, BodyLife, BodyWorld, OpenStep, JoinStep, SayStep, HandlerEnqueue, FlushStep, ReaderStep,
      OutputEnqueue;
    assert Sessions(g.conns) == {0};
    next := Extend(R, g, SweepStart(0, reason));
    next := Extend(R, next, SweepNext(0, 0));
    next := Extend(R, next, At(0, Enter(Sweeper(0, reason))));
    d := next.conns[0];
  }

  lemma Connected(R: Rules) returns (g: State)
    ensures Reachable(R, g) && Alone(g, NewConn(1, false)) && g.sweeps == map[]
  {
    var start := State(1, 1, 0, map[], map[]);
    assert Runs(R, start, [], start) && Reachable(R, start);
    hide Reachable, Runs, Machine.Step, Can;
    g := Extend(R, start, Connect(0, false));
  }

  /** A connection whose validated client has sent one more frame. */
  lemma Validated(R: Rules, first: Frame, later: Frame, token: string) returns (g: State, c: Conn)
    requires R.first(first) == Admit(token)
    ensures Reachable(R, g) && Alone(g, c) && g.sweeps == map[]
    ensures c == NewConn(1, false).(
                   net := Net([later], None, false, [first], []), h := HCapacity("10.0.0.1"),
                   desk := Desk(false, false, 0, 0, Some(Grant(token, "10.0.0.1")), []))
  {
    hide Reachable, Enabled, Apply;
    c := NewConn(1, false);
    g := Connected(R);
    g, c := Move(R, g, c, Env(Arrive(first)));
    g, c := Move(R, g, c, Env(Arrive(later)));
    g, c := Move(R, g, c, HTake);
    g, c := Move(R, g, c, HVerdict(Granted("10.0.0.1")));
  }

  /** Its session has just been entered in the registry. */
  lemma Entered(R: Rules, first: Frame, later: Frame, token: string) returns (g: State, c: Conn)
    requires R.first(first) == Admit(token)
    ensures Reachable(R, g) && Alone(g, c) && g.sweeps == map[]
    ensures c == NewConn(1, false).(
                   net := Net([later], None, false, [first], []), h := HStarted, term := Terminal(Open, [], []),
                   desk := Desk(true, true, 1, 0, Some(Grant(token, "10.0.0.1")), []))
  {
    hide Reachable;
    g, c := Validated(R, first, later, token);
    g, c := Move(R, g, c, HGo(true, ""));
    g, c := Move(R, g, c, HGo(true, ""));
    g, c := Move(R, g, c, HGo(true, ""));
    g, c := Move(R, g, c, HGo(true, ""));
  }

  /** Its goroutines have started, the `authorized` frame is in the queue, and `readLoop` has returned. */
  lemma ReaderReturned(R: Rules, first: Frame, later: Frame, token: string, result: LoopResult)
    returns (g: State, c: Conn)
    requires R.first(first) == Admit(token) && R.react(later) == Return(result)
    ensures Reachable(R, g) && Alone(g, c) && g.sweeps == map[]
    ensures c.run == XReceive && c.results == [result] && c.wr == WSelect && c.q.waiting == [R.authorized]
    ensures !c.net.hung && c.net.wire == [] && c.desk.entry && c.life == NewConn(1, false).life
  {
    hide Reachable;
    g, c := Entered(R, first, later, token);
    g, c := Move(R, g, c, HJoin(""));
    g, c := Move(R, g, c, HEnqueue);
    g, c := Move(R, g, c, HEnqueue);
    g, c := Move(R, g, c, HJoin(""));
    g, c := Move(R, g, c, RTake);
    g, c := Move(R, g, c, RGo(true, ""));
  }

  /** `run` has flushed the reader's result, and stands before its `close`. */
  lemma Flushed(R: Rules, first: Frame, later: Frame, token: string, result: LoopResult) returns (g: State, c: Conn)
    requires R.first(first) == Admit(token) && R.react(later) == Return(result)
    requires result.clientErrorCode == "" && result.clientCloseReason != ""
    ensures Reachable(R, g) && Alone(g, c) && g.sweeps == map[]
    ensures c.run == XClosing(result) && c.wr == WSelect && c.q.waiting == [R.authorized]
    ensures c.net.wire == [Direct(R.close(result.clientCloseReason))]
    ensures !c.net.hung && c.desk.entry && c.life == NewConn(1, false).life
  {
    hide Reachable;
    g, c := ReaderReturned(R, first, later, token, result);
    g, c := Move(R, g, c, XTake);
    g, c := Move(R, g, c, XSay(true));
    g, c := Move(R, g, c, XSay(true));
  }

  const HELLO: Frame := Text(Object(map["type" := JString("authorize"), "token" := JString("t")]))

  /** A client may send `{"type":"close"}`, just as the gateway may. */
  const GOODBYE: Frame := NewServerClose("")

  const GOODBYE_RESULT: LoopResult := ClientCloseResult("client_close")

  lemma HelloIsAdmitted()
    ensures OnFirstFrame(HELLO) == Admit("t")
  {
    TypeNameIsRead(TAuthorize);
    TrimSpaceKeeps("t");
    assert HELLO.doc.fields.Keys == {"type", "token"};
  }

  lemma GoodbyeIsClose()
    ensures ParseClientMessage(GOODBYE) == Ok(EMPTY.(kind := TClose))
  {
    hide ParseAuthorize, ParseInput, ParseResize, TypeNamed, TrimSpace;
    TypeNameIsRead(TClose);
    TrimSpaceKeeps("");
    assert GOODBYE.doc.fields.Keys == {"type"};
  }

  lemma GoodbyeEndsTheLoop()
    ensures React(GOODBYE) == Return(GOODBYE_RESULT)
  {
    hide ParseClientMessage;
    GoodbyeIsClose();
  }

  // ---- the first frame and the last one ----

  /** `authorized` need not be the first frame a browser receives, nor `close` the last: `flush` writes past the
      queue, and `writeLoop` goes on until `close` stops it. */
  lemma CloseFrameOvertakesTheQueue() returns (g: State, c: Conn)
    ensures Reachable(GATEWAY, g) && Alone(g, c)
    ensures c.net.wire == [Direct(NewServerClose("client_close")), Queued(NewServerAuthorized())]
  {
    hide Reachable, OnFirstFrame, React;
    HelloIsAdmitted();
    GoodbyeEndsTheLoop();
    g, c := Flushed(GATEWAY, HELLO, GOODBYE, "t", GOODBYE_RESULT);
    g, c := Move(GATEWAY, g, c, WPull);
    g, c := Move(GATEWAY, g, c, WWrite(true));
  }

  lemma {:induction false} HeadOf(wire: seq<Sent>)
    requires wire != []
    ensures var part := if wire[0].Queued? then QueuedOf(wire) else DirectOf(wire);
            part != [] && part[0] == wire[0].frame
    decreases |wire|
  {
    if |wire| > 1 { HeadOf(wire[..|wire| - 1]); }
  }

  /** A first frame is `authorized` or one of those written past the queue. */
  lemma HeadIsGreetingOrDirect(g: State, id: nat)
    requires Reachable(GATEWAY, g) && id in g.conns && g.conns[id].net.wire != []
    ensures var head := g.conns[id].net.wire[0];
            Understand(head.frame).Authorized? <==> head.Queued?
  {
    hide Understand;
    FrameOrder(g, id);
    var c := g.conns[id];
    HeadOf(c.net.wire);
    if c.net.wire[0].Direct? {
      DirectIsNoGreeting(DirectOf(c.net.wire), c.net.wire[0].frame);
    }
  }

  lemma DirectIsNoGreeting(direct: seq<Frame>, f: Frame)
    requires UpToClose(GATEWAY, direct) && f in direct
    ensures !Understand(f).Authorized?
  {
    hide Understand;
    if IsErrorFrame(GATEWAY, f) {
      var code, message :| f == NewServerError(code, message);
      ServerFramesAreUnderstood(code, message, "");
    } else {
      var reason :| f == NewServerClose(reason);
      ServerFramesAreUnderstood("", "", reason);
    }
  }

  /** At most one frame is added, past the queue. */
  predicate Appends(before: seq<Sent>, after: seq<Sent>) {
    after == before || (|after| == |before| + 1 && before <= after && after[|before|].Direct?)
  }

  lemma HandlerAppends(R: Rules, c: Conn, ok: bool)
    ensures Appends(c.net.wire, SayStep(R, c, ok).net.wire)
  {
  }

  lemma FlushAppends(R: Rules, c: Conn, ok: bool)
    ensures Appends(c.net.wire, FlushStep(R, c, ok).net.wire)
  {
  }

  lemma SayAppends(R: Rules, c: Conn, a: Act, full: bool, now: nat)
    requires Can(R, c, a) && (a.XSay? || a.HSay?)
    ensures Appends(c.net.wire, Step(R, c, a, full, now).net.wire)
  {
    hide Appends, FlushStep, SayStep;
    if a.XSay? { FlushAppends(R, c, a.ok); } else { HandlerAppends(R, c, a.ok); }
  }

  lemma ActStays(R: Rules, g: State, id: nat, a: Act)
    requires Enabled(R, g, At(id, a))
    ensures var next := Apply(R, g, At(id, a));
            id in next.conns && next.conns[id] == Step(R, g.conns[id], a, AtCapacity(g), g.now)
  {
    hide Machine.Step, Can;
  }

  /** The first write past the queue decides the race: whatever happens later, the browser's first frame is
      `authorized` exactly when it had received a frame before that write. */
  lemma FirstDirectWriteDecides(g: State, id: nat, a: Act, es: seq<Event>, end: State)
    requires Reachable(GATEWAY, g) && Enabled(GATEWAY, g, At(id, a)) && (a.XSay? || a.HSay?)
    requires DirectOf(g.conns[id].net.wire) == []
    requires Apply(GATEWAY, g, At(id, a)).conns[id].net.wire != g.conns[id].net.wire
    requires Runs(GATEWAY, Apply(GATEWAY, g, At(id, a)), es, end)
    ensures id in end.conns && end.conns[id].net.wire != []
    ensures Understand(end.conns[id].net.wire[0].frame).Authorized? <==> g.conns[id].net.wire != []
  {
    var c, next := g.conns[id], Apply(GATEWAY, g, At(id, a));
    ActStays(GATEWAY, g, id, a);
    SayAppends(GATEWAY, c, a, AtCapacity(g), g.now);
    hide Machine.Step, Can, Understand, Reachable, GoodState, Runs, Enabled, Apply, LifeGrows;
    var _ := Extend(GATEWAY, g, At(id, a));
    GatewayIsFaithful();
    ReachableIsGood(GATEWAY, next);
    RunGrows(GATEWAY, next, es, end, id);
    HeadIsGreetingOrDirect(next, id);
    if c.net.wire != [] {
      HeadOf(c.net.wire);
    }
  }

  /** How many frames `writeLoop` writes to a browser in a run. */
  function Writes(es: seq<Event>, id: nat): nat {
    if es == [] then 0 else One(es[0] == At(id, WWrite(true))) + Writes(es[1..], id)
  }

  /** `flush` is over. */
  predicate PastFlush(c: Conn) {
    c.h.HServed? && (c.run.XClosing? || c.run.XJoining? || c.run.XDone?)
  }

  /** A step that writes nothing and does not undo a hang-up. */
  predicate Silent(c: Conn, d: Conn) {
    d.net.wire == c.net.wire && (c.net.hung ==> d.net.hung)
  }

  lemma HandlerIsSilent(R: Rules, c: Conn, a: Act, full: bool, now: nat)
    requires Can(R, c, a) && HandlerAct(a) && !a.HSay?
    ensures Silent(c, Step(R, c, a, full, now))
  {
    hide SayStep, EnvCan;
  }

  lemma LoopIsSilent(R: Rules, c: Conn, a: Act, full: bool, now: nat)
    requires Can(R, c, a) && LoopAct(a) && a != WWrite(true)
    ensures Silent(c, Step(R, c, a, full, now))
  {
    hide BodyLife, BodyWorld, EnterStep, FlushStep, OpenStep, JoinStep, SayStep, HandlerEnqueue, HandlerTake, EnvStep,
      HandlerVerdict, PingStep;
  }

  lemma CloseIsSilent(R: Rules, c: Conn, a: Act, full: bool, now: nat)
    requires Can(R, c, a) && CloseAct(a) && !a.XSay?
    ensures Silent(c, Step(R, c, a, full, now))
  {
    hide BodyLife, FlushStep, OpenStep, JoinStep, SayStep, HandlerEnqueue, HandlerTake, EnvStep, HandlerVerdict,
      ReaderTake, ReaderStep, OutputTake, OutputEnqueue, WriterPull, WriterStep;
  }

  /** Only `writeLoop`, `flush` and `writeWebSocketFailure` write to a browser. */
  lemma OthersAreSilent(R: Rules, c: Conn, a: Act, full: bool, now: nat)
    requires Can(R, c, a) && a != WWrite(true) && !a.XSay? && !a.HSay?
    ensures Silent(c, Step(R, c, a, full, now))
  {
    hide Machine.Step, Can, Silent;
    if HandlerAct(a) { HandlerIsSilent(R, c, a, full, now); }
    else if LoopAct(a) { LoopIsSilent(R, c, a, full, now); }
    else { CloseIsSilent(R, c, a, full, now); }
  }

  /** Where the handler and `run` go once `flush` is over. */
  lemma FlushIsOver(R: Rules, c: Conn, a: Act, full: bool, now: nat)
    requires Can(R, c, a) && PastFlush(c)
    ensures PastFlush(Step(R, c, a, full, now)) && !a.XSay? && !a.HSay?
  {
    hide BodyLife, OpenStep, FlushStep, SayStep, HandlerEnqueue, HandlerTake, HandlerVerdict, EnvCan;
  }

  lemma WireAfterFlush(R: Rules, c: Conn, a: Act, full: bool, now: nat)
    requires Can(R, c, a) && PastFlush(c)
    ensures var d := Step(R, c, a, full, now);
            PastFlush(d) && if a == WWrite(true) then d.net.wire == c.net.wire + [Queued(c.wr.frame)]
                            else d.net.wire == c.net.wire
  {
    FlushIsOver(R, c, a, full, now);
    if a == WWrite(true) {
      assert Step(R, c, a, full, now) == WriterStep(c, true);
    } else {
      OthersAreSilent(R, c, a, full, now);
    }
    hide Machine.Step, PastFlush;
  }

  /** After `flush`, the wire grows by the frames `writeLoop` writes, and by nothing else. */
  lemma {:induction false} WireAfterFlushRun(R: Rules, g: State, es: seq<Event>, end: State, id: nat)
    requires Runs(R, g, es, end) && id in g.conns && PastFlush(g.conns[id])
    ensures id in end.conns
    ensures var before, after := g.conns[id].net.wire, end.conns[id].net.wire;
            && before <= after && |after| == |before| + Writes(es, id)
            && forall i :: |before| <= i < |after| ==> after[i].Queued?
    decreases |es|
  {
    hide Machine.Step, Can, PastFlush;
    if es != [] {
      var e, next := es[0], Apply(R, g, es[0]);
      if e.At? && e.id == id {
        WireAfterFlush(R, g.conns[id], e.act, AtCapacity(g), g.now);
      }
      WireAfterFlushRun(R, next, es[1..], end, id);
    }
  }

  lemma LastQueued(wire: seq<Sent>)
    requires wire != [] && wire[|wire| - 1].Queued?
    ensures QueuedOf(wire) != [] && QueuedOf(wire)[|QueuedOf(wire)| - 1] == wire[|wire| - 1].frame
  {
  }

  /** A close frame written by `flush` is still the last frame, at any later time, exactly when `writeLoop` has
      written none since. */
  lemma CloseStaysLastIff(g: State, id: nat, es: seq<Event>, end: State)
    requires Reachable(GATEWAY, g) && id in g.conns && PastFlush(g.conns[id]) && g.conns[id].net.wire != []
    requires Understand(g.conns[id].net.wire[|g.conns[id].net.wire| - 1].frame).CloseNotice?
    requires Runs(GATEWAY, g, es, end)
    ensures id in end.conns && end.conns[id].net.wire != []
    ensures Understand(end.conns[id].net.wire[|end.conns[id].net.wire| - 1].frame).CloseNotice? <==> Writes(es, id) == 0
  {
    hide Understand, Runs, Reachable, PastFlush;
    WireAfterFlushRun(GATEWAY, g, es, end, id);
    var wire := end.conns[id].net.wire;
    if Writes(es, id) > 0 {
      RunReaches(GATEWAY, g, es, end);
      FrameOrder(end, id);
      LastQueued(wire);
      var queued := QueuedOf(wire);
      assert Understand(queued[|queued| - 1]).Authorized? || IsOutput(queued[|queued| - 1]);
    }
  }

  lemma {:induction false} RunReaches(R: Rules, g: State, es: seq<Event>, end: State)
    requires Reachable(R, g) && Runs(R, g, es, end)
    ensures Reachable(R, end)
    decreases |es|
  {
    hide Reachable, Enabled, Apply;
    if es != [] {
      var next := Extend(R, g, es[0]);
      RunReaches(R, next, es[1..], end);
    }
  }

  lemma HungStep(R: Rules, c: Conn, a: Act, full: bool, now: nat)
    requires Can(R, c, a) && c.net.hung
    ensures Silent(c, Step(R, c, a, full, now))
  {
    if !a.XSay? && !a.HSay? {
      OthersAreSilent(R, c, a, full, now);
    }
    hide BodyLife, BodyWorld, OpenStep, JoinStep, HandlerEnqueue, EnvStep, EnvCan, WriterStep;
  }

  /** Once the gateway has hung up, the browser receives nothing more. */
  lemma {:induction false} NothingAfterHangUp(R: Rules, g: State, es: seq<Event>, end: State, id: nat)
    requires Runs(R, g, es, end) && id in g.conns && g.conns[id].net.hung
    ensures id in end.conns && end.conns[id].net.hung && end.conns[id].net.wire == g.conns[id].net.wire
    decreases |es|
  {
    hide Machine.Step, Can;
    if es != [] {
      var e, next := es[0], Apply(R, g, es[0]);
      if e.At? && e.id == id {
        HungStep(R, g.conns[id], e.act, AtCapacity(g), g.now);
      }
      NothingAfterHangUp(R, next, es[1..], end, id);
    }
  }

  /** The frame that is last when `close` hangs up is last for ever. */
  lemma HangUpSettlesTheWire(R: Rules, g: State, id: nat, es: seq<Event>, end: State)
    requires Enabled(R, g, At(id, Body)) && g.conns[id].life.once.at == BBrowser
    requires Runs(R, Apply(R, g, At(id, Body)), es, end)
    ensures id in end.conns && end.conns[id].net.wire == g.conns[id].net.wire
  {
    hide Runs;
    NothingAfterHangUp(R, Apply(R, g, At(id, Body)), es, end, id);
  }

  // ---- the close frame and the end reason ----

  /** The close frame's reason need not be the recorded end reason: between `flush` and `close`, another closer
      can win. */
  lemma AnotherCloserWins() returns (g: State, c: Conn)
    ensures Reachable(GATEWAY, g) && Alone(g, c)
    ensures c.net.wire == [Direct(NewServerClose("client_close"))] && c.life.endReason == Some(ServerShutdown)
  {
    hide Reachable, OnFirstFrame, React;
    HelloIsAdmitted();
    GoodbyeEndsTheLoop();
    g, c := Flushed(GATEWAY, HELLO, GOODBYE, "t", GOODBYE_RESULT);
    g, c := Sweep(GATEWAY, g, c, ServerShutdown);
    g, c := Move(GATEWAY, g, c, Body);
  }

  /** Nor need it be when `run` itself wins: a client that closes gets its own reason back, and `client_close` is
      recorded. */
  lemma ClientReasonIsEchoed() returns (g: State, c: Conn)
    ensures Reachable(GATEWAY, g) && Alone(g, c) && c.life.once.Running? && c.life.once.holder == Runner
    ensures c.net.wire == [Direct(NewServerClose("bye"))] && c.life.endReason == Some(ClientClose)
  {
    hide Reachable, OnFirstFrame, React;
    HelloIsAdmitted();
    ByeEndsTheLoop();
    g, c := Flushed(GATEWAY, HELLO, NewServerClose("bye"), "t", ClientCloseResult("bye"));
    g, c := RunnerCloses(GATEWAY, g, c, ClientCloseResult("bye"));
  }

  /** `run` is the first to call `close`. */
  lemma RunnerCloses(R: Rules, before: State, b: Conn, r: LoopResult) returns (g: State, c: Conn)
    requires Reachable(R, before) && Alone(before, b) && b.run == XClosing(r) && b.life.once.Fresh?
    ensures Reachable(R, g) && Alone(g, c)
    ensures c == b.(life := b.life.(state := Closing, endReason := Some(r.call.reason), endedAt := Some(before.now),
                                    once := Running(Runner, r.call, BSignal)))
  {
    hide Reachable, OpenStep, JoinStep, SayStep, HandlerEnqueue, FlushStep, ReaderStep, OutputEnqueue;
    g := Extend(R, before, At(0, Enter(Runner)));
    c := g.conns[0];
    g, c := Move(R, g, c, Body);
  }

  lemma ByeIsClose()
    ensures ParseClientMessage(NewServerClose("bye")) == Ok(EMPTY.(kind := TClose, reason := "bye"))
  {
    hide ParseAuthorize, ParseInput, ParseResize, TypeNamed, TrimSpace;
    TypeNameIsRead(TClose);
    TrimSpaceKeeps("bye");
    assert NewServerClose("bye").doc.fields.Keys == {"type", "reason"};
  }

  lemma ByeEndsTheLoop()
    ensures React(NewServerClose("bye")) == Return(ClientCloseResult("bye"))
  {
    hide ParseClientMessage;
    ByeIsClose();
  }

  /** When `close` has been entered, whether the close frame `run` has flushed, or is flushing, agrees with the end
      reason is settled by the winning call. */
  lemma EnteredAgreesIff(g: State, id: nat, r: LoopResult, es: seq<Event>, end: State)
    requires Reachable(GATEWAY, g) && id in g.conns && !g.conns[id].life.once.Fresh?
    requires Runs(GATEWAY, g, es, end)
    ensures id in end.conns
    ensures var reason := end.conns[id].life.endReason;
            reason.Some? ==> (ReasonText(reason.value) == r.clientCloseReason
                              <==> ReasonText(g.conns[id].life.once.call.reason) == r.clientCloseReason)
  {
    hide Reachable, GoodState, Good, Runs, ReasonText, Grows;
    GatewayIsFaithful();
    ReachableIsGood(GATEWAY, g);
    RunGrows(GATEWAY, g, es, end, id);
    RunKeeps(GATEWAY, g, es, end);
    GoodAt(GATEWAY, end, id);
    CallStays(GATEWAY, g.conns[id], end.conns[id]);
  }

  /** Before that, it is settled by whoever enters: the close frame's reason is the recorded one in all later states
      exactly when it is the reason of that caller's call. */
  lemma CloseFrameAgreesIff(g: State, id: nat, r: LoopResult, who: Closer, call: CloseCall, es: seq<Event>, end: State)
    requires Reachable(GATEWAY, g) && Enabled(GATEWAY, g, At(id, Enter(who)))
    requires g.conns[id].run == XClosing(r) && CallOf(GATEWAY, g.conns[id], who) == Some(call)
    requires Runs(GATEWAY, Apply(GATEWAY, g, At(id, Enter(who))), es, end)
    ensures id in end.conns
    ensures var reason := end.conns[id].life.endReason;
            reason.Some? ==> (ReasonText(reason.value) == r.clientCloseReason
                              <==> ReasonText(call.reason) == r.clientCloseReason)
  {
    EnteringSetsCall(GATEWAY, g, id, who);
    hide Reachable, Runs, ReasonText, Enabled, Apply, CallOf;
    var next := Extend(GATEWAY, g, At(id, Enter(who)));
    EnteredAgreesIff(next, id, r, es, end);
  }

  /** A client's `close` with a reason of its own. */
  predicate OwnReason(frame: Frame) {
    match ParseClientMessage(frame)
    case Ok(m) => m.kind.TClose? && m.reason != "" && m.reason != "client_close"
    case Err(_) => false
  }

  lemma ReturnsItsReason(frame: Frame, r: LoopResult)
    requires React(frame) == Return(r)
    ensures ReasonText(r.call.reason) == r.clientCloseReason <==> !OwnReason(frame)
    ensures r.clientCloseReason != ""
  {
    ParserContract(frame);
  }

  lemma OwnReasonReturns(frame: Frame)
    requires OwnReason(frame)
    ensures React(frame).Return? && !OnFirstFrame(frame).Admit?
  {
  }

  /** A result that names a close reason and is not the last frame's doing names its own reason. */
  lemma OthersAgree(r: LoopResult)
    requires r.clientCloseReason != ""
    requires (exists op, text :: r == OpFailedResult(op, text)) || (exists e :: r == ReadErrorResult(e))
             || (exists e :: r == ConsoleErrorResult(e)) || r == BrowserDisconnectResult() || r == OverflowResult()
             || (exists code, text :: r == InternalErrorResult(code, text))
    ensures ReasonText(r.call.reason) == r.clientCloseReason
  {
  }

  /** With `run`'s own call winning, the two agree unless the last frame the client sent was a `close` with a reason of
      its own and that is what ended the session. */
  lemma RunnerAgreesIff(g: State, id: nat)
    requires Reachable(GATEWAY, g) && id in g.conns && g.conns[id].run.XClosing?
    requires g.conns[id].run.result.clientCloseReason != ""
    ensures var c := g.conns[id];
            var r := c.run.result;
            && c.net.received != []
            && (ReasonText(r.call.reason) == r.clientCloseReason
                <==> !(c.rd == RDone(r) && OwnReason(c.net.received[|c.net.received| - 1])))
  {
    hide React, OnFirstFrame, Reachable, ReasonText, OwnReason, Good, ConsoleErrorResult, ReadErrorResult,
      OpFailedResult, QueueWasFull;
    GatewayIsFaithful();
    ReachableIsTraced(GATEWAY, g);
    ConnIsGood(g, id);
    var c := g.conns[id];
    var r := c.run.result;
    ServedHasRead(GATEWAY, c);
    assert Returned(GATEWAY, c, r);
    if c.rd == RDone(r) {
      InputRefinesFold(g, id, r);
      ReaderAgreesIff(c, r);
    } else {
      OthersAgree(r);
    }
  }

  lemma ServedHasRead(R: Rules, c: Conn)
    requires Good(R, c) && c.run.XClosing?
    ensures c.net.received != [] && R.first(c.net.received[0]).Admit?
  {
    hide LifeOk, TeardownOk, HolderOk, ResultsOk, Downstream, InputOk;
  }

  lemma ReaderAgreesIff(c: Conn, r: LoopResult)
    requires c.net.received != [] && OnFirstFrame(c.net.received[0]).Admit? && r.clientCloseReason != ""
    requires ReadLoopOutcome(React, Tail(c.net.received), c.typed.ops, r, c.net.hung, c.net.fault)
    ensures ReasonText(r.call.reason) == r.clientCloseReason <==> !OwnReason(c.net.received[|c.net.received| - 1])
  {
    hide React, OnFirstFrame, ReasonText, OwnReason, ReadErrorResult, OpFailedResult, Fold;
    var frames, last := Tail(c.net.received), c.net.received[|c.net.received| - 1];
    assert frames != [] ==> frames[|frames| - 1] == last;
    if LastAsks(React, frames, c.typed.ops, Return(r)) {
      ReturnsItsReason(last, r);
    } else {
      OthersAgree(r);
      if OwnReason(last) {
        OwnReasonReturns(last);
        assert frames != [];
        EndingFrameEnds(React, frames, |frames| - 1);
      }
    }
  }

  // ---- the two records ----

  /** `session_ended` can be recorded before `session_started`: `CloseAll` finds the session as soon as it is in
      the map. */
  lemma EndedBeforeStarted() returns (g: State, c: Conn)
    ensures Reachable(GATEWAY, g) && Alone(g, c)
    ensures c.life.ended != [] && c.desk.started == 0
  {
    g, c := ClosedInStart();
  }

  /** A session that `CloseAll` has closed before `Start` recorded it. */
  lemma ClosedInStart() returns (g: State, c: Conn)
    ensures Reachable(GATEWAY, g) && Alone(g, c)
    ensures c.h.HStarted? && c.desk.started == 0 && c.desk.hangUps == [] && c.term.state.Shut?
    ensures c.life.once.Done? && c.life.closed && |c.life.ended| == 1 && |c.life.hangUps| == 1
  {
    hide Reachable, OnFirstFrame, React;
    HelloIsAdmitted();
    g, c := Entered(GATEWAY, HELLO, GOODBYE, "t");
    g, c := Sweep(GATEWAY, g, c, ServerShutdown);
    g, c := Move(GATEWAY, g, c, Body);
    g, c := Move(GATEWAY, g, c, Body);
    g, c := Move(GATEWAY, g, c, Body);
    g, c := Move(GATEWAY, g, c, Body);
    g, c := Move(GATEWAY, g, c, Body);
    g, c := Move(GATEWAY, g, c, Body);
    g, c := Move(GATEWAY, g, c, Body);
    g, c := Move(GATEWAY, g, c, Body);
    g, c := Move(GATEWAY, g, c, Body);
  }

  /** At the step that records `session_ended`: `session_started` has not been recorded before exactly when `Start`
      still stands between its locked region and that record; then the closer is a call of `CloseAll`, and the record
      is still to come. */
  lemma EndedBeforeStartedIff(g: State, id: nat)
    requires Reachable(GATEWAY, g) && Enabled(GATEWAY, g, At(id, Body)) && g.conns[id].life.once.at == BAudit
    ensures var c, d := g.conns[id], Apply(GATEWAY, g, At(id, Body)).conns[id];
            && |d.life.ended| == |c.life.ended| + 1
            && (d.desk.started == 0 <==> c.h.HStarted?)
            && (d.desk.started == 0 ==> c.life.once.holder.Sweeper? && Can(GATEWAY, d, HJoin("")))
  {
    hide Good, Machine.Step, Apply, Reachable, HandlerEnqueueCan, SayCan, ReaderCan, EnvCan;
    ConnIsGood(g, id);
    OnlySweepsCloseInStart(GATEWAY, g.conns[id]);
    ActStays(GATEWAY, g, id, Body);
    AuditStep(GATEWAY, g.conns[id], AtCapacity(g), g.now);
  }

  lemma AuditStep(R: Rules, c: Conn, full: bool, now: nat)
    requires Can(R, c, Body) && c.life.once.at == BAudit
    ensures var d := Step(R, c, Body, full, now);
            && |d.life.ended| == |c.life.ended| + 1 && d.desk == c.desk && d.h == c.h
            && (d.h.HStarted? ==> Can(R, d, HJoin("")))
  {
  }

  lemma OnlySweepsCloseInStart(R: Rules, c: Conn)
    requires Good(R, c) && c.life.once.Running?
    ensures c.h.HStarted? ==> c.life.once.holder.Sweeper?
    ensures c.desk.started == 0 <==> c.h.HStarted?
  {
    hide LifeOk, ResultsOk, Downstream, Upstream;
  }

  // ---- the browser's socket ----

  lemma FailedAfterTheEnd(R: Rules, before: State, b: Conn) returns (g: State, c: Conn)
    requires Reachable(R, before) && Alone(before, b) && b.h.HStarted? && b.life.closed && b.desk.hangUps == []
    ensures Reachable(R, g) && Alone(g, c) && c.h.HHangUp? && c.life == b.life && c.desk.hangUps == []
  {
    hide Reachable;
    g, c := Move(R, before, b, HJoin(""));
    g, c := Move(R, g, c, HEnqueue);
    g, c := Move(R, g, c, HJoin(""));
    g, c := Move(R, g, c, HJoin(""));
    g, c := NothingIsSaid(R, g, c);
  }

  lemma NothingIsSaid(R: Rules, before: State, b: Conn) returns (g: State, c: Conn)
    requires Reachable(R, before) && Alone(before, b) && b.h.HSayError?
    ensures Reachable(R, g) && Alone(g, c) && c.h.HHangUp? && c.life == b.life && c.desk.hangUps == b.desk.hangUps
  {
    hide Reachable;
    g, c := Move(R, before, b, HSay(false));
    g, c := Move(R, g, c, HSay(false));
  }

  /** The handler fails after the session has ended, and closes the browser's socket a second time. */
  lemma BrowserIsClosedTwice() returns (g: State, c: Conn)
    ensures Reachable(GATEWAY, g) && Alone(g, c)
    ensures c.h.HEnd? && BrowserCloses(c) == 2
  {
    hide Reachable;
    g, c := ClosedInStart();
    g, c := FailedAfterTheEnd(GATEWAY, g, c);
    g, c := Move(GATEWAY, g, c, HSay(false));
  }
}
