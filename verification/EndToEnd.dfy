/** From one end to the other, over whole runs: what a client sent against what reached the console, and what the
    console sent against what reached the browser. */
module EndToEnd {
  import opened Prelude
  import opened Protocol
  import opened Results
  import opened Admission
  import opened Machine
  import opened Invariants
  import opened Growth
  import opened Gateway
  import opened Safety

  /** The frames that arrive at a connection in a run. */
  function Arrived(es: seq<Event>, id: nat): seq<Frame> {
    if es == [] then []
    else (if es[0].At? && es[0].id == id then ArrivedBy(es[0].act) else []) + Arrived(es[1..], id)
  }

  function ArrivedBy(a: Act): seq<Frame> {
    if a.Env? && a.env.Arrive? then [a.env.frame] else []
  }

  /** The octets its console sends. */
  function Emitted(es: seq<Event>, id: nat): seq<byte> {
    if es == [] then []
    else (if es[0].At? && es[0].id == id then EmittedBy(es[0].act) else []) + Emitted(es[1..], id)
  }

  function EmittedBy(a: Act): seq<byte> {
    if a.Env? && a.env.Emit? then a.env.chunk.data else []
  }

  function BytesOf(chunks: seq<Chunk>): seq<byte> {
    if chunks == [] then [] else chunks[0].data + BytesOf(chunks[1..])
  }

  lemma {:induction false} BytesAppend(chunks: seq<Chunk>, chunk: Chunk)
    ensures BytesOf(chunks + [chunk]) == BytesOf(chunks) + chunk.data
  {
    if chunks == [] {
      assert (chunks + [chunk])[1..] == [];
    } else {
      BytesAppend(chunks[1..], chunk);
      assert (chunks + [chunk])[1..] == chunks[1..] + [chunk];
    }
  }

  /** All a client has sent: what has been read, then what waits to be. */
  function SentIn(c: Conn): seq<Frame> {
    c.net.received + c.net.inbox
  }

  /** All a console has sent. */
  function SentOut(c: Conn): seq<byte> {
    c.term.output + BytesOf(c.term.ready)
  }

  /** A step neither loses nor reorders anything at either end. */
  predicate Conserves(c: Conn, d: Conn, a: Act) {
    SentIn(d) == SentIn(c) + ArrivedBy(a) && SentOut(d) == SentOut(c) + EmittedBy(a)
  }

  lemma EnvConserves(c: Conn, e: EnvAct)
    ensures Conserves(c, EnvStep(c, e), Env(e))
  {
    if e.Emit? { BytesAppend(c.term.ready, e.chunk); }
  }

  lemma HandlerConserves(R: Rules, c: Conn, a: Act, full: bool, now: nat)
    requires Can(R, c, a) && HandlerAct(a)
    ensures Conserves(c, Step(R, c, a, full, now), a)
  {
    hide BodyLife, BodyWorld, EnterStep, FlushStep, PingStep, ReaderTake, ReaderStep, OutputTake, OutputEnqueue,
      WriterPull, WriterStep, BytesOf, OpenStep, JoinStep, EnvStep, SayStep;
    match a {
      case Env(e) => EnvConserves(c, e);
      case HGo(ok, text) => OpenConserves(R, c, ok, text, full);
      case HJoin(text) => JoinConserves(R, c, text);
      case HSay(ok) => SayConserves(R, c, ok);
      case _ =>
    }
  }

  lemma OpenConserves(R: Rules, c: Conn, ok: bool, text: string, full: bool)
    ensures SentIn(OpenStep(R, c, ok, text, full)) == SentIn(c) && SentOut(OpenStep(R, c, ok, text, full)) == SentOut(c)
  {
    hide BytesOf;
  }

  lemma JoinConserves(R: Rules, c: Conn, text: string)
    ensures SentIn(JoinStep(R, c, text)) == SentIn(c) && SentOut(JoinStep(R, c, text)) == SentOut(c)
  {
    hide BytesOf;
  }

  lemma SayConserves(R: Rules, c: Conn, ok: bool)
    ensures SentIn(SayStep(R, c, ok)) == SentIn(c) && SentOut(SayStep(R, c, ok)) == SentOut(c)
  {
    hide BytesOf;
  }

  lemma LoopConserves(R: Rules, c: Conn, a: Act, full: bool, now: nat)
    requires Can(R, c, a) && LoopAct(a)
    ensures Conserves(c, Step(R, c, a, full, now), a)
  {
    hide BodyLife, BodyWorld, EnterStep, FlushStep, OpenStep, JoinStep, SayStep, HandlerEnqueue, HandlerTake, EnvStep,
      HandlerVerdict, PingStep;
  }

  lemma CloseConserves(R: Rules, c: Conn, a: Act, full: bool, now: nat)
    requires Can(R, c, a) && CloseAct(a)
    ensures Conserves(c, Step(R, c, a, full, now), a)
  {
    hide BodyLife, OpenStep, JoinStep, SayStep, HandlerEnqueue, HandlerTake, EnvStep, HandlerVerdict, ReaderTake,
      ReaderStep, OutputTake, OutputEnqueue, WriterPull, WriterStep, BytesOf;
  }

  lemma StepConserves(R: Rules, c: Conn, a: Act, full: bool, now: nat)
    requires Can(R, c, a)
    ensures Conserves(c, Step(R, c, a, full, now), a)
  {
    hide Machine.Step, Can, Conserves;
    if HandlerAct(a) { HandlerConserves(R, c, a, full, now); }
    else if LoopAct(a) { LoopConserves(R, c, a, full, now); }
    else { CloseConserves(R, c, a, full, now); }
  }

  function InAt(g: State, id: nat): seq<Frame> {
    if id in g.conns then SentIn(g.conns[id]) else []
  }

  function OutAt(g: State, id: nat): seq<byte> {
    if id in g.conns then SentOut(g.conns[id]) else []
  }

  lemma EventConserves(R: Rules, g: State, e: Event, id: nat)
    requires Enabled(R, g, e)
    ensures var own := e.At? && e.id == id; var next := Apply(R, g, e);
            && InAt(next, id) == InAt(g, id) + (if own then ArrivedBy(e.act) else [])
            && OutAt(next, id) == OutAt(g, id) + (if own then EmittedBy(e.act) else [])
  {
    hide Machine.Step, Can, ArrivedBy, EmittedBy;
    if e.At? && e.id == id {
      StepConserves(R, g.conns[id], e.act, AtCapacity(g), g.now);
    }
    hide SentIn, SentOut;
    if e == Connect(id, if e.Connect? then e.hook else false) {
      NothingSent(g.depth, e.hook);
    }
  }

  lemma NothingSent(depth: nat, hook: bool)
    ensures SentIn(NewConn(depth, hook)) == [] && SentOut(NewConn(depth, hook)) == []
  {
  }

  lemma {:induction false} RunConserves(R: Rules, g: State, es: seq<Event>, end: State, id: nat)
    requires Runs(R, g, es, end)
    ensures InAt(end, id) == InAt(g, id) + Arrived(es, id) && OutAt(end, id) == OutAt(g, id) + Emitted(es, id)
    decreases |es|
  {
    hide InAt, OutAt, Enabled, Apply, ArrivedBy, EmittedBy;
    if es != [] {
      EventConserves(R, g, es[0], id);
      RunConserves(R, Apply(R, g, es[0]), es[1..], end, id);
    }
  }

  lemma MoreFramesMoreOps(react: Frame -> Reaction, received: seq<Frame>, sent: seq<Frame>, ops: seq<ConsoleOp>)
    requires received <= sent && ops <= Fold(react, Tail(received)).ops
    ensures ops <= Fold(react, Tail(sent)).ops
  {
    var n := |Tail(received)|;
    assert Tail(sent)[..n] == Tail(received);
    FoldPrefix(react, Tail(sent), n);
  }

  lemma AllSent(R: Rules, start: State, es: seq<Event>, end: State, id: nat)
    requires Initial(start) && Runs(R, start, es, end) && id in end.conns
    ensures end.conns[id].net.received <= Arrived(es, id) && end.conns[id].term.output <= Emitted(es, id)
  {
    RunConserves(R, start, es, end, id);
    hide Runs, Arrived, Emitted, BytesOf;
    assert InAt(start, id) == [] && OutAt(start, id) == [];
    assert [] + Arrived(es, id) == Arrived(es, id) && [] + Emitted(es, id) == Emitted(es, id);
    assert Arrived(es, id) == end.conns[id].net.received + end.conns[id].net.inbox;
    assert Emitted(es, id) == end.conns[id].term.output + BytesOf(end.conns[id].term.ready);
  }

  /** What the gateway has read from a client is a prefix of what arrived from it, and what its browser has heard of the
      console is a prefix of what the console has sent: nothing is lost in between, repeated or reordered, in any
      interleaving. */
  lemma NothingIsReordered(start: State, es: seq<Event>, end: State, id: nat)
    requires Initial(start) && Runs(GATEWAY, start, es, end) && id in end.conns
    ensures end.conns[id].net.received <= Arrived(es, id)
    ensures OutputOf(GATEWAY, FramesOf(end.conns[id].net.wire)) <= Emitted(es, id)
    ensures end.conns[id].typed.ops <= Fold(React, Tail(Arrived(es, id))).ops
  {
    assert Reachable(GATEWAY, end);
    hide Reachable, Runs, React, FramesOf, OutputOf, Arrived, Emitted, Fold, Tail, OnFirstFrame;
    AllSent(GATEWAY, start, es, end, id);
    OutputFidelity(end, id);
    AuthorizationSafety(end, id);
    MoreFramesMoreOps(React, end.conns[id].net.received, Arrived(es, id), end.conns[id].typed.ops);
  }
}
