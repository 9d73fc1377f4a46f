/** Once a session is doomed (some loop has returned, or someone has called `close`), nothing can stop its
    teardown: there is always a step of the program to take that waits for nobody outside, every step of the
    program lowers a measure, and when no step is left everything has finished. */
module Teardown {
  import opened Prelude
  import opened Protocol
  import opened Results
  import opened Admission
  import opened Machine
  import opened Invariants
  import opened Growth
  import opened Gateway
  import opened Safety

  /** A step of the program, as opposed to an event of its environment. */
  predicate IsProgram(a: Act) { !a.Env? }

  /** The step is possible, and waits for nothing outside the connection: an operation on a console that is
      still open may block, and a call of `CloseAll` may never come, so neither is counted on. */
  predicate Ready(R: Rules, c: Conn, a: Act) {
    && Can(R, c, a) && IsProgram(a)
    && (a.RGo? && c.rd.ROp? ==> c.term.state.Shut?)
    && !(a.Enter? && a.who.Sweeper?)
  }

  /** A loop has returned, or `close` has been called. */
  predicate Doomed(c: Conn) {
    || !c.life.once.Fresh?
    || c.results != []
    || !(c.run.XIdle? || c.run.XReceive?)
    || c.out.OClosing? || c.wr.WClosing? || c.h.HClosing?
    || c.rd.RPost? || c.out.OPost? || c.ka.KPost?
  }

  /** The handler has returned and so have all five goroutines, and `close` has run to its end. */
  predicate Finished(c: Conn) {
    && c.life.once.Done?
    && (c.h.HEnd? || (c.h.HServed? && c.rd.RDone? && c.wr.WDone? && c.out.ODone? && c.ka.KDone? && c.run.XDone?))
  }

  // ---- no deadlock ----

  /** The next thing the handler does once it is past the start of the session. */
  lemma HandlerProgress(R: Rules, c: Conn)
    requires Control(R, c) && c.desk.joined && !c.h.HServed? && !c.h.HEnd?
    requires c.h.HClosing? ==> c.life.once.Done?
    ensures exists a :: Ready(R, c, a)
  {
    if c.h.HSayError? || c.h.HSayClose? || c.h.HHangUp? {
      assert Ready(R, c, HSay(false));
    } else if c.h.HCheck? || c.h.HPush? || c.h.HClosing? {
      assert Ready(R, c, HEnqueue);
    } else {
      assert Ready(R, c, HJoin(""));
    }
  }

  lemma ReaderProgress(R: Rules, c: Conn)
    requires c.net.hung && c.term.state.Shut? && !c.rd.RIdle? && !c.rd.RDone? && |c.results| < 3
    ensures exists a :: Ready(R, c, a)
  {
    if c.rd.RReading? { assert Ready(R, c, RTakeError(ReadFailed)); } else { assert Ready(R, c, RGo(false, "")); }
  }

  lemma WriterProgress(R: Rules, c: Conn)
    requires c.life.closed && c.life.once.Done? && !c.wr.WIdle? && !c.wr.WDone?
    ensures exists a :: Ready(R, c, a)
  {
    if c.wr.WSelect? { assert Ready(R, c, WStop); }
    else if c.wr.WWriting? { assert Ready(R, c, WWrite(false)); }
    else { assert Ready(R, c, WReturn); }
  }

  lemma OutputProgress(R: Rules, c: Conn)
    requires c.term.state.Shut? && c.life.once.Done? && !c.out.OIdle? && !c.out.ODone? && |c.results| < 3
    ensures exists a :: Ready(R, c, a)
  {
    if c.out.OReading? { assert Ready(R, c, OTakeError(Eof)); }
    else if c.out.OClosing? { assert Ready(R, c, OReturn); }
    else if c.out.OPost? { assert Ready(R, c, OSend); }
    else { assert Ready(R, c, OEnqueue); }
  }

  lemma KeepaliveProgress(R: Rules, c: Conn)
    requires c.life.closed && !c.ka.KIdle? && !c.ka.KDone? && |c.results| < 3
    ensures exists a :: Ready(R, c, a)
  {
    if c.ka.KSelect? { assert Ready(R, c, KStop); }
    else if c.ka.KPinging? { assert Ready(R, c, KPing(PingFailed)); }
    else { assert Ready(R, c, KSend); }
  }

  lemma RunProgress(R: Rules, c: Conn)
    requires !c.run.XIdle? && !c.run.XDone?
    requires c.run.XReceive? ==> c.results != []
    requires c.run.XClosing? ==> !c.life.once.Running?
    requires c.run.XJoining? ==> c.wr.WDone?
    ensures exists a :: Ready(R, c, a)
  {
    if c.run.XReceive? { assert Ready(R, c, XTake); }
    else if c.run.XClosing? && c.life.once.Fresh? { assert Ready(R, c, Enter(Runner)); }
    else if c.run.XClosing? { assert Ready(R, c, XReturn); }
    else if c.run.XJoining? { assert Ready(R, c, XJoin); }
    else { assert Ready(R, c, XSay(false)); }
  }

  /** While `close` has not run to its end, a doomed session has a step to take. */
  lemma ProgressToClose(R: Rules, c: Conn)
    requires Control(R, c) && Doomed(c) && !c.life.once.Done?
    ensures exists a :: Ready(R, c, a)
  {
    hide LifeOk, StartOk, TeardownOk, HolderOk, EnvCan, SayCan;
    if c.life.once.Running? { assert Ready(R, c, Body); }
    else if c.h.HClosing? { assert Ready(R, c, Enter(Starter)); }
    else if c.out.OClosing? { assert Ready(R, c, Enter(Outputter)); }
    else if c.wr.WClosing? { assert Ready(R, c, Enter(Writer)); }
    else if c.rd.RPost? { assert Ready(R, c, RGo(false, "")); }
    else if c.out.OPost? { assert Ready(R, c, OSend); }
    else if c.ka.KPost? { assert Ready(R, c, KSend); }
    else { RunProgress(R, c); }
  }

  /** No deadlock: a doomed session that has not finished always has a step of the program to take. */
  lemma TeardownNeverBlocks(R: Rules, c: Conn)
    requires Good(R, c) && Doomed(c) && !Finished(c)
    ensures exists a :: Ready(R, c, a)
  {
    if !c.life.once.Done? {
      ProgressToClose(R, c);
    } else if !c.h.HServed? {
      HandlerProgress(R, c);
    } else if !c.rd.RDone? {
      ReaderProgress(R, c);
    } else if !c.wr.WDone? {
      WriterProgress(R, c);
    } else if !c.out.ODone? {
      OutputProgress(R, c);
    } else if !c.ka.KDone? {
      KeepaliveProgress(R, c);
    } else {
      RunProgress(R, c);
    }
  }

  // ---- a measure every program step lowers ----

  function HandlerWeight(h: HandlerPc): nat {
    match h
    case HRead => 60
    case HValidate(_) => 56
    case HCapacity(_) => 52
    case HOpen => 48
    case HConfigure => 44
    case HInsert => 40
    case HStarted => 36
    case HCheck => 32
    case HPush => 28
    case HClosing => 24
    case HDrop(_) => 24
    case HUndoConsole => 20
    case HSpawn => 20
    case HUndoEntry => 16
    case HSayError(_) => 12
    case HSayClose(_) => 8
    case HHangUp(_) => 4
    case HServed => 0
    case HEnd => 0
  }

  function ReaderWeight(rd: ReaderPc): nat {
    match rd
    case ROp(_) => 6
    case RPost(_) => 3
    case RDone(_) => 0
    case _ => 5
  }

  function WriterWeight(wr: WriterPc): nat {
    match wr
    case WWriting(_) => 6
    case WClosing => 3
    case WDone => 0
    case _ => 4
  }

  function OutputWeight(out: OutputPc): nat {
    match out
    case OCheck(_) => 17
    case OPush(_) => 16
    case OClosing => 11
    case OPost(_) => 4
    case ODone => 0
    case _ => 10
  }

  /** A tick counts only while the browser's socket is open: after that, one more ping ends the loop. */
  function KeepaliveWeight(ka: KeepalivePc, tick: bool, hung: bool): nat {
    var t := if tick && !hung then 4 else 0;
    match ka
    case KPinging => if hung then 5 else 8 + t
    case KPost(_) => 2
    case KDone(_) => 0
    case _ => 6 + t
  }

  function RunWeight(run: RunPc): nat {
    match run
    case XSayError(_) => 5
    case XSayClose(_) => 4
    case XClosing(_) => 3
    case XJoining => 1
    case XDone => 0
    case _ => 6
  }

  function OnceWeight(once: Once): nat {
    if once.Fresh? then 10 else 9 - Rank(once)
  }

  function Measure(c: Conn): nat {
    HandlerWeight(c.h) + ReaderWeight(c.rd) + WriterWeight(c.wr) + OutputWeight(c.out)
    + KeepaliveWeight(c.ka, c.tick, c.net.hung) + RunWeight(c.run) + OnceWeight(c.life.once)
    + 3 * |c.net.inbox| + 3 * |c.q.waiting| + 8 * |c.term.ready|
  }

  /** What an event of the environment can add to the measure. */
  const ARRIVAL := 8

  lemma OpenLowers(R: Rules, c: Conn, ok: bool, text: string, full: bool)
    requires OpenCan(c.h)
    ensures Measure(OpenStep(R, c, ok, text, full)) < Measure(c)
  {
  }

  lemma EnqueueLowers(R: Rules, c: Conn)
    requires HandlerEnqueueCan(c)
    ensures Measure(HandlerEnqueue(R, c)) < Measure(c)
  {
  }

  lemma JoinLowers(R: Rules, c: Conn, text: string)
    requires JoinCan(c.h) && (c.h.HSpawn? ==> c.run.XIdle? && c.rd.RIdle? && c.wr.WIdle? && c.out.OIdle? && c.ka.KIdle?)
    ensures Measure(JoinStep(R, c, text)) < Measure(c)
  {
  }

  lemma SayLowers(R: Rules, c: Conn, ok: bool)
    requires SayCan(c, ok)
    ensures Measure(SayStep(R, c, ok)) < Measure(c)
  {
  }

  lemma FlushLowers(R: Rules, c: Conn, ok: bool)
    requires c.run.XSayError? || c.run.XSayClose?
    ensures Measure(FlushStep(R, c, ok)) < Measure(c)
  {
  }

  lemma HandlerLowers(R: Rules, c: Conn, a: Act, full: bool, now: nat)
    requires Can(R, c, a) && HandlerAct(a) && IsProgram(a)
    requires SpawnOk(c.h.HServed?, c.rd, c.wr, c.out, c.ka, c.run)
    ensures Measure(Step(R, c, a, full, now)) < Measure(c)
  {
    match a {
      case HGo(ok, text) => OpenLowers(R, c, ok, text, full);
      case HEnqueue => EnqueueLowers(R, c);
      case HJoin(text) => JoinLowers(R, c, text);
      case HSay(ok) => SayLowers(R, c, ok);
      case _ =>
    }
  }

  lemma ReaderLowers(R: Rules, c: Conn, ok: bool, text: string)
    requires ReaderCan(c, ok)
    ensures Measure(ReaderStep(R, c, ok, text)) < Measure(c)
  {
  }

  lemma OutputEnqueueLowers(R: Rules, c: Conn)
    requires c.out.OCheck? || c.out.OPush?
    ensures Measure(OutputEnqueue(R, c)) < Measure(c)
  {
  }

  lemma ReaderActLowers(R: Rules, c: Conn, a: Act, full: bool, now: nat)
    requires Can(R, c, a) && (a.RTake? || a.RTakeError? || a.RGo?)
    ensures Measure(Step(R, c, a, full, now)) < Measure(c)
  {
    hide BodyLife, BodyWorld, EnterStep, FlushStep, OpenStep, JoinStep, SayStep, HandlerEnqueue, HandlerTake,
      HandlerVerdict, PingStep, ReaderStep, OutputEnqueue, OutputTake, WriterPull, WriterStep;
    if a.RGo? { ReaderLowers(R, c, a.ok, a.text); }
  }

  lemma WriterActLowers(R: Rules, c: Conn, a: Act, full: bool, now: nat)
    requires Can(R, c, a) && (a.WStop? || a.WPull? || a.WWrite? || a.WReturn?)
    ensures Measure(Step(R, c, a, full, now)) < Measure(c)
  {
    hide BodyLife, BodyWorld, EnterStep, FlushStep, OpenStep, JoinStep, SayStep, HandlerEnqueue, HandlerTake,
      HandlerVerdict, PingStep, ReaderStep, ReaderTake, OutputEnqueue, OutputTake;
  }

  lemma OutputActLowers(R: Rules, c: Conn, a: Act, full: bool, now: nat)
    requires Can(R, c, a) && (a.OTake? || a.OTakeError? || a.OEnqueue? || a.OReturn? || a.OSend?)
    ensures Measure(Step(R, c, a, full, now)) < Measure(c)
  {
    hide BodyLife, BodyWorld, EnterStep, FlushStep, OpenStep, JoinStep, SayStep, HandlerEnqueue, HandlerTake,
      HandlerVerdict, PingStep, ReaderStep, ReaderTake, OutputEnqueue, WriterPull, WriterStep;
    if a.OEnqueue? { OutputEnqueueLowers(R, c); }
  }

  lemma BodyLifeLowers(life: Life, hook: bool, now: nat)
    requires life.once.Running?
    ensures OnceWeight(BodyLife(life, hook, now).once) < OnceWeight(life.once)
  {
  }

  lemma BodyWorldLowers(c: Conn, next: Life)
    requires c.life.once.Running? && OnceWeight(next.once) < OnceWeight(c.life.once)
    ensures Measure(BodyWorld(c, next)) < Measure(c)
  {
  }

  lemma KeepaliveLowers(R: Rules, c: Conn, a: Act, full: bool, now: nat)
    requires Can(R, c, a) && (a.KStop? || a.KTake? || a.KPing? || a.KSend?)
    ensures Measure(Step(R, c, a, full, now)) < Measure(c)
  {
    hide BodyLife, BodyWorld, FlushStep, OpenStep, JoinStep, SayStep, HandlerEnqueue, OutputEnqueue;
  }

  lemma CloseLowers(R: Rules, c: Conn, a: Act, full: bool, now: nat)
    requires Can(R, c, a) && CloseAct(a)
    ensures Measure(Step(R, c, a, full, now)) < Measure(c)
  {
    hide BodyLife, BodyWorld, FlushStep, OpenStep, JoinStep, SayStep, HandlerEnqueue, HandlerTake, HandlerVerdict,
      OutputEnqueue, OutputTake, ReaderStep, ReaderTake, WriterPull, WriterStep, PingStep;
    if a.KStop? || a.KTake? || a.KPing? || a.KSend? {
      KeepaliveLowers(R, c, a, full, now);
    } else if a.XSay? {
      FlushLowers(R, c, a.ok);
    } else if a.Body? {
      BodyLifeLowers(c.life, c.hook, now);
      BodyWorldLowers(c, BodyLife(c.life, c.hook, now));
    }
  }

  /** Every step of the program lowers the measure, in any state. */
  lemma ProgramLowers(R: Rules, c: Conn, a: Act, full: bool, now: nat)
    requires Can(R, c, a) && IsProgram(a)
    requires SpawnOk(c.h.HServed?, c.rd, c.wr, c.out, c.ka, c.run)
    ensures Measure(Step(R, c, a, full, now)) < Measure(c)
  {
    if HandlerAct(a) { HandlerLowers(R, c, a, full, now); }
    else if a.RTake? || a.RTakeError? || a.RGo? { ReaderActLowers(R, c, a, full, now); }
    else if a.WStop? || a.WPull? || a.WWrite? || a.WReturn? { WriterActLowers(R, c, a, full, now); }
    else if LoopAct(a) { OutputActLowers(R, c, a, full, now); }
    else { CloseLowers(R, c, a, full, now); }
  }

  /** An event of the environment raises it by a bounded amount; once the browser's socket and the console are
      closed, not at all. */
  lemma EnvironmentRaises(c: Conn, e: EnvAct)
    requires EnvCan(c, e)
    ensures Measure(EnvStep(c, e)) <= Measure(c) + (if c.net.hung && c.term.state.Shut? then 0 else ARRIVAL)
  {
  }

  lemma RankAdvances(life: Life, hook: bool, now: nat)
    requires life.once.Running?
    ensures !BodyLife(life, hook, now).once.Fresh?
  {
  }

  lemma EnvDoomed(R: Rules, c: Conn, a: Act, full: bool, now: nat)
    requires Can(R, c, a) && Doomed(c) && a.Env?
    ensures Doomed(Step(R, c, a, full, now))
  {
    hide Step;
    EnvIsEnvStep(R, c, a, full, now);
  }

  lemma HandlerDoomed(R: Rules, c: Conn, a: Act, full: bool, now: nat)
    requires Control(R, c) && Can(R, c, a) && Doomed(c) && HandlerAct(a) && !a.Env?
    ensures Doomed(Step(R, c, a, full, now))
  {
    hide EnvStep, PingStep, WriterPull, WriterStep, OutputTake, ReaderTake, EnterStep, BodyLife, BodyWorld, FlushStep,
      OutputEnqueue, ReaderStep, StartOk, LifeOk, TeardownOk, HolderOk, ResultsOk;
  }

  lemma LoopDoomed(R: Rules, c: Conn, a: Act, full: bool, now: nat)
    requires Control(R, c) && Can(R, c, a) && Doomed(c) && LoopAct(a)
    ensures Doomed(Step(R, c, a, full, now))
  {
    hide BodyLife, BodyWorld, FlushStep, OpenStep, JoinStep, SayStep, HandlerEnqueue, StartOk, LifeOk, TeardownOk,
      HolderOk, ResultsOk;
  }

  lemma CloseDoomed(R: Rules, c: Conn, a: Act, full: bool, now: nat)
    requires Control(R, c) && Can(R, c, a) && Doomed(c) && CloseAct(a)
    ensures Doomed(Step(R, c, a, full, now))
  {
    hide BodyLife, OpenStep, JoinStep, SayStep, HandlerEnqueue, HandlerTake, HandlerVerdict, OutputEnqueue,
      OutputTake, ReaderTake, ReaderStep, WriterPull, WriterStep, EnvStep, StartOk, LifeOk, TeardownOk, HolderOk,
      ResultsOk;
    if a.Body? { RankAdvances(c.life, c.hook, now); }
  }

  /** A doomed session stays doomed. */
  lemma DoomedStays(R: Rules, c: Conn, a: Act, full: bool, now: nat)
    requires Control(R, c) && Can(R, c, a) && Doomed(c)
    ensures Doomed(Step(R, c, a, full, now))
  {
    hide Step, Control, Doomed;
    if a.Env? { EnvDoomed(R, c, a, full, now); }
    else if HandlerAct(a) { HandlerDoomed(R, c, a, full, now); }
    else if LoopAct(a) { LoopDoomed(R, c, a, full, now); }
    else { CloseDoomed(R, c, a, full, now); }
  }

  // ---- over whole runs ----

  /** How many steps of the program a run takes on one connection. */
  function ProgramSteps(es: seq<Event>, id: nat): nat {
    if es == [] then 0
    else One(es[0].At? && es[0].id == id && IsProgram(es[0].act)) + ProgramSteps(es[1..], id)
  }

  /** How many events its environment contributes. */
  function Arrivals(es: seq<Event>, id: nat): nat {
    if es == [] then 0
    else One(es[0].At? && es[0].id == id && !IsProgram(es[0].act)) + Arrivals(es[1..], id)
  }

  /** `close` has closed both the browser and the console. */
  predicate CutOff(c: Conn) {
    Rank(c.life.once) >= 4
  }

  lemma ActBound(R: Rules, c: Conn, a: Act, full: bool, now: nat)
    requires Control(R, c) && Can(R, c, a)
    ensures One(IsProgram(a)) + Measure(Step(R, c, a, full, now))
            <= Measure(c) + (if CutOff(c) then 0 else ARRIVAL * One(!IsProgram(a)))
  {
    hide Step, Measure, Can, StartOk, LifeOk, HolderOk, ResultsOk, JoinOk;
    if IsProgram(a) {
      ProgramLowers(R, c, a, full, now);
    } else {
      EnvIsEnvStep(R, c, a, full, now);
      EnvironmentRaises(c, a.env);
    }
  }

  lemma EventBound(R: Rules, g: State, e: Event, id: nat)
    requires GoodState(R, g) && Enabled(R, g, e) && id in g.conns
    ensures id in Apply(R, g, e).conns
    ensures var c, d := g.conns[id], Apply(R, g, e).conns[id];
            One(e.At? && e.id == id && IsProgram(e.act)) + Measure(d)
            <= Measure(c) + (if CutOff(c) then 0 else ARRIVAL * One(e.At? && e.id == id && !IsProgram(e.act)))
  {
    hide Step, Measure, Can, Control, Downstream, Upstream, CutOff, SweepOk, IsProgram;
    if e.At? && e.id == id {
      ActBound(R, g.conns[id], e.act, AtCapacity(g), g.now);
    }
  }

  lemma EnvIsEnvStep(R: Rules, c: Conn, a: Act, full: bool, now: nat)
    requires Can(R, c, a) && a.Env?
    ensures EnvCan(c, a.env) && Step(R, c, a, full, now) == EnvStep(c, a.env)
  {
  }

  /** Termination of the teardown, over every run: on one connection, the steps the program takes are bounded
      by the measure it starts with and the events its environment contributes; once `close` has closed the
      browser and the console, by the measure alone. */
  lemma {:induction false} StepsAreBounded(R: Rules, g: State, es: seq<Event>, end: State, id: nat)
    requires GoodState(R, g) && Faithful(R) && Runs(R, g, es, end) && id in g.conns
    ensures id in end.conns
    ensures ProgramSteps(es, id) + Measure(end.conns[id])
            <= Measure(g.conns[id]) + (if CutOff(g.conns[id]) then 0 else ARRIVAL * Arrivals(es, id))
    decreases |es|
  {
    hide Step, Measure;
    if es != [] {
      var next := Apply(R, g, es[0]);
      EventKeeps(R, g, es[0]);
      EventGrows(R, g, es[0], id);
      EventBound(R, g, es[0], id);
      StepsAreBounded(R, next, es[1..], end, id);
    }
  }

  lemma {:induction false} TeardownRun(R: Rules, g: State, id: nat) returns (es: seq<Event>, end: State)
    requires GoodState(R, g) && Faithful(R) && id in g.conns && Doomed(g.conns[id])
    ensures Runs(R, g, es, end) && id in end.conns && Finished(end.conns[id])
    ensures ProgramSteps(es, id) == |es| <= Measure(g.conns[id])
    decreases Measure(g.conns[id])
  {
    hide Step, Measure, Can, Control, Downstream, Upstream, Doomed, Finished, SweepOk;
    es, end := [], g;
    var c := g.conns[id];
    if !Finished(c) {
      TeardownNeverBlocks(R, c);
      var a :| Ready(R, c, a);
      EventKeeps(R, g, At(id, a));
      EventBound(R, g, At(id, a), id);
      DoomedStays(R, c, a, AtCapacity(g), g.now);
      var rest;
      rest, end := TeardownRun(R, Apply(R, g, At(id, a)), id);
      es := [At(id, a)] + rest;
      assert es[1..] == rest;
    }
  }

  /** Left to itself, a doomed session finishes: by steps of its own threads alone, and no more of them than its
      measure. */
  lemma DoomedSessionsCanFinish(g: State, id: nat) returns (es: seq<Event>, end: State)
    requires Reachable(GATEWAY, g) && id in g.conns && Doomed(g.conns[id])
    ensures Runs(GATEWAY, g, es, end) && id in end.conns && Finished(end.conns[id])
    ensures ProgramSteps(es, id) == |es| <= Measure(g.conns[id])
  {
    GatewayIsFaithful();
    ReachableIsGood(GATEWAY, g);
    es, end := TeardownRun(GATEWAY, g, id);
  }

  /** How often the gateway has called `Close` on the browser's socket: in `Session.close`, and in
      `writeWebSocketFailure`. */
  function BrowserCloses(c: Conn): nat {
    |c.life.hangUps| + |c.desk.hangUps|
  }

  /** The browser's socket is not always closed exactly once: when `Start` fails after the session has entered the
      registry, both ways close it. In all other connections that are over it is closed once. */
  lemma ClosedTwiceIffStartFailedLate(g: State, id: nat)
    requires Reachable(GATEWAY, g) && id in g.conns && (Finished(g.conns[id]) || g.conns[id].h.HEnd?)
    requires !g.conns[id].life.once.Running?
    ensures BrowserCloses(g.conns[id]) == if g.conns[id].h.HEnd? && g.conns[id].life.once.Done? then 2 else 1
    ensures g.conns[id].life.once.Done? <==> g.conns[id].desk.joined
  {
    ConnIsGood(g, id);
  }

  /** The teardown of every session that is doomed in a reachable state: if it has not finished, a step is
      ready; if no step is ready, the handler and all five goroutines have returned, `close` has run to its end,
      the browser and the console are closed and the session is out of the registry. */
  lemma TeardownCompletes(g: State, id: nat)
    requires Reachable(GATEWAY, g) && id in g.conns && Doomed(g.conns[id])
    ensures Finished(g.conns[id]) || exists a :: Ready(GATEWAY, g.conns[id], a) && Enabled(GATEWAY, g, At(id, a))
    ensures var c := g.conns[id];
            Finished(c) ==> c.life.closed && c.life.state.Closed? && c.net.hung && c.term.state.Shut?
                            && id !in Sessions(g.conns)
  {
    ConnIsGood(g, id);
    var c := g.conns[id];
    if !Finished(c) {
      TeardownNeverBlocks(GATEWAY, c);
      var a :| Ready(GATEWAY, c, a);
      assert Enabled(GATEWAY, g, At(id, a));
    }
  }

  /** Event `e` helps the `k`th call of `CloseAll` along: a step of its own, or a ready step of the session whose
      `close` it is in. */
  predicate Helps(R: Rules, g: State, k: nat, e: Event)
    requires k in g.sweeps
  {
    && Enabled(R, g, e)
    && (|| (e.SweepNext? && e.k == k)
        || e == SweepReturn(k)
        || (e.At? && g.sweeps[k].at == Some(e.id)
            && (Ready(R, g.conns[e.id], e.act) || e.act == Enter(Sweeper(k, g.sweeps[k].reason)))))
  }

  lemma SweepHasHelp(R: Rules, g: State, k: nat)
    requires k in g.sweeps && SweepOk(g.sweeps[k], g.conns)
    requires g.sweeps[k].pending != {} || g.sweeps[k].at.Some?
    ensures exists e :: Helps(R, g, k, e)
  {
    var s := g.sweeps[k];
    if s.at.None? {
      var id :| id in s.pending;
      assert Helps(R, g, k, SweepNext(k, id));
    } else {
      var id := s.at.value;
      var once := g.conns[id].life.once;
      if once.Fresh? {
        assert Helps(R, g, k, At(id, Enter(Sweeper(k, s.reason))));
      } else if once.Running? {
        assert Helps(R, g, k, At(id, Body));
      } else {
        assert Helps(R, g, k, SweepReturn(k));
      }
    }
  }

  /** `CloseAll` is never stuck: until it is done, it has a step of its own to take, or the session it is
      closing has one, because another caller of `close` holds it. */
  lemma CloseAllNeverBlocks(g: State, k: nat)
    requires Reachable(GATEWAY, g) && k in g.sweeps
    requires g.sweeps[k].pending != {} || g.sweeps[k].at.Some?
    ensures exists e :: Helps(GATEWAY, g, k, e)
  {
    hide Helps;
    GatewayIsFaithful();
    ReachableIsGood(GATEWAY, g);
    SweepHasHelp(GATEWAY, g, k);
  }

  // ---- `CloseAll` returns ----

  /** A step of the loop of the `k`th call of `CloseAll`. */
  predicate OwnStep(e: Event, k: nat) {
    (e.SweepNext? || e.SweepReturn?) && e.k == k
  }

  /** How many such steps it takes in a run. */
  function SweepSteps(es: seq<Event>, k: nat): nat {
    if es == [] then 0 else One(OwnStep(es[0], k)) + SweepSteps(es[1..], k)
  }

  /** How many it has still to take: a call of `close` and its return for each session left. */
  function SweepWeight(s: Sweep): nat {
    2 * |s.pending| + One(s.at.Some?)
  }

  lemma EventSweepWeight(R: Rules, g: State, e: Event, k: nat)
    requires Enabled(R, g, e) && k in g.sweeps
    ensures k in Apply(R, g, e).sweeps && Apply(R, g, e).sweeps[k].taken == g.sweeps[k].taken
    ensures One(OwnStep(e, k)) + SweepWeight(Apply(R, g, e).sweeps[k]) == SweepWeight(g.sweeps[k])
  {
    hide Machine.Step, Can;
  }

  /** Over any run, the steps `CloseAll` takes and those it has still to take add up: it never takes more than two for
      each session of its snapshot. */
  lemma {:induction false} SweepStepsAreCounted(R: Rules, g: State, es: seq<Event>, end: State, k: nat)
    requires Runs(R, g, es, end) && k in g.sweeps
    ensures k in end.sweeps && end.sweeps[k].taken == g.sweeps[k].taken
    ensures SweepSteps(es, k) + SweepWeight(end.sweeps[k]) == SweepWeight(g.sweeps[k])
    decreases |es|
  {
    hide Enabled, Apply, SweepWeight;
    if es != [] {
      EventSweepWeight(R, g, es[0], k);
      SweepStepsAreCounted(R, Apply(R, g, es[0]), es[1..], end, k);
    }
  }

  /** How far the session a sweep is in is from having been closed. */
  function HelpLeft(g: State, k: nat): nat
    requires k in g.sweeps
  {
    var s := g.sweeps[k];
    if s.at.Some? && s.at.value in g.conns then OnceWeight(g.conns[s.at.value].life.once) else 0
  }

  /** All steps, its own and those of `close` in its sessions, that bring a sweep to its end at the latest. */
  function SweepBound(g: State, k: nat): nat
    requires k in g.sweeps
  {
    12 * |g.sweeps[k].pending| + One(g.sweeps[k].at.Some?) + HelpLeft(g, k)
  }

  /** A step that brings the sweep nearer to its end: its own, or one of the `close` it is in. */
  predicate Advances(R: Rules, g: State, k: nat, e: Event)
    requires k in g.sweeps
  {
    Enabled(R, g, e) && k in Apply(R, g, e).sweeps && SweepBound(Apply(R, g, e), k) < SweepBound(g, k)
  }

  lemma CloseAdvances(R: Rules, g: State, k: nat, a: Act)
    requires k in g.sweeps && g.sweeps[k].at.Some? && Enabled(R, g, At(g.sweeps[k].at.value, a))
    requires a.Body? || a.Enter?
    ensures Advances(R, g, k, At(g.sweeps[k].at.value, a))
  {
    var id := g.sweeps[k].at.value;
    var c := g.conns[id];
    if a.Body? {
      BodyLifeLowers(c.life, c.hook, g.now);
    }
    hide BodyLife, OpenStep, JoinStep, SayStep, HandlerEnqueue, FlushStep, ReaderStep, OutputEnqueue, OnceWeight;
    EnteredWeight();
  }

  lemma EnteredWeight()
    ensures forall once: Once, who: Closer, call: CloseCall ::
              once.Fresh? ==> OnceWeight(Running(who, call, BMark)) < OnceWeight(once)
  {
  }

  lemma OwnStepAdvances(R: Rules, g: State, k: nat, e: Event)
    requires k in g.sweeps && Enabled(R, g, e) && OwnStep(e, k)
    ensures Advances(R, g, k, e)
  {
    hide Machine.Step, Can;
  }

  lemma SweepAdvances(R: Rules, g: State, k: nat) returns (e: Event)
    requires k in g.sweeps && SweepOk(g.sweeps[k], g.conns)
    requires g.sweeps[k].pending != {} || g.sweeps[k].at.Some?
    ensures Advances(R, g, k, e)
  {
    hide Advances, Machine.Step, EnvCan, HandlerEnqueueCan, SayCan, ReaderCan;
    var s := g.sweeps[k];
    if s.at.None? {
      var id :| id in s.pending;
      e := SweepNext(k, id);
      OwnStepAdvances(R, g, k, e);
    } else {
      var id := s.at.value;
      var once := g.conns[id].life.once;
      if once.Done? {
        e := SweepReturn(k);
        OwnStepAdvances(R, g, k, e);
      } else {
        var a := if once.Fresh? then Enter(Sweeper(k, s.reason)) else Body;
        e := At(id, a);
        CloseAdvances(R, g, k, a);
      }
    }
  }

  /** `CloseAll` is done: every session of its snapshot has ended and is out of the map. */
  predicate Swept(g: State, k: nat) {
    && k in g.sweeps && g.sweeps[k].pending == {} && g.sweeps[k].at.None?
    && forall id :: id in g.sweeps[k].taken ==>
         && id in g.conns && g.conns[id].life.once.Done? && g.conns[id].life.closed
         && !g.conns[id].desk.entry && g.conns[id].term.state.Shut? && g.conns[id].net.hung
  }

  lemma DoneIsGone(R: Rules, c: Conn)
    requires Good(R, c) && c.life.once.Done?
    ensures c.life.closed && !c.desk.entry && c.term.state.Shut? && c.net.hung
  {
  }

  lemma SweptAtEnd(R: Rules, g: State, k: nat)
    requires GoodState(R, g) && k in g.sweeps && g.sweeps[k].pending == {} && g.sweeps[k].at.None?
    ensures Swept(g, k)
  {
    hide Good;
    assert SweepOk(g.sweeps[k], g.conns);
    forall id | id in g.sweeps[k].taken
      ensures g.conns[id].life.closed && !g.conns[id].desk.entry && g.conns[id].term.state.Shut? && g.conns[id].net.hung
    {
      DoneIsGone(R, g.conns[id]);
    }
  }

  lemma {:induction false} SweepRun(R: Rules, g: State, k: nat) returns (es: seq<Event>, end: State)
    requires GoodState(R, g) && Faithful(R) && k in g.sweeps
    ensures Runs(R, g, es, end) && |es| <= SweepBound(g, k)
    ensures k in end.sweeps && end.sweeps[k].taken == g.sweeps[k].taken && Swept(end, k)
    decreases SweepBound(g, k)
  {
    hide GoodState, Swept, Enabled, Apply, SweepBound;
    es, end := [], g;
    if g.sweeps[k].pending != {} || g.sweeps[k].at.Some? {
      SweepIsOk(R, g, k);
      var e := SweepAdvances(R, g, k);
      EventKeeps(R, g, e);
      EventSweepWeight(R, g, e, k);
      var rest;
      rest, end := SweepRun(R, Apply(R, g, e), k);
      es := [e] + rest;
      assert es[1..] == rest;
    } else {
      SweptAtEnd(R, g, k);
    }
  }

  lemma SweepIsOk(R: Rules, g: State, k: nat)
    requires GoodState(R, g) && k in g.sweeps
    ensures SweepOk(g.sweeps[k], g.conns)
  {
  }

  /** From every reachable state a call of `CloseAll` can return, and within a bounded number of steps: at most twelve
      for each session it has still to close. Then all sessions of its snapshot have ended and are gone. */
  lemma CloseAllReturns(g: State, k: nat) returns (es: seq<Event>, end: State)
    requires Reachable(GATEWAY, g) && k in g.sweeps
    ensures Runs(GATEWAY, g, es, end) && |es| <= 12 * |g.sweeps[k].pending| + 11
    ensures k in end.sweeps && end.sweeps[k].taken == g.sweeps[k].taken && Swept(end, k)
  {
    GatewayIsFaithful();
    ReachableIsGood(GATEWAY, g);
    hide GoodState, Reachable, Runs, Swept;
    es, end := SweepRun(GATEWAY, g, k);
  }
}
