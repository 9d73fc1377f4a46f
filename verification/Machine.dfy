/** One browser connection as a concurrent machine: `handleBrowserSocket` with the `Registry.Start` it
    calls (internal/httpserver/server.go, internal/session/manager.go), and the five goroutines of the
    session it starts. Every channel operation, lock region and statement of `Session.close` is a step of
    its own. A step is an action `a` with `Can(c, a)`; the choices of the environment are part of the
    action, so `Step` is a function. */
module Machine {
  import opened Prelude
  import opened Protocol
  import opened Results
  import opened Admission

  /** The fixed texts and the pure decisions the machine consults, as one table: every property below that
      does not depend on a particular text is proved for all tables. `GATEWAY` is the table of the program. */
  datatype Rules = Rules(
    first: Frame -> FirstStep,
    firstError: ReadError -> FirstError,
    denied: GrantError -> Failure,
    unconfigured: Failure,
    limit: Failure,
    noAddress: Failure,
    bridge: string -> Failure,
    react: Frame -> Reaction,
    readError: ReadError -> LoopResult,
    opFailed: (ConsoleOp, string) -> LoopResult,
    consoleError: ConsoleError -> LoopResult,
    overflow: LoopResult,
    pingPeerClosed: LoopResult,
    pingFailed: LoopResult,
    slowCall: CloseCall,
    writeFailedCall: CloseCall,
    sweepCall: EndReason -> CloseCall,
    authorized: Frame,
    output: seq<byte> -> Frame,
    error: (string, string) -> Frame,
    close: string -> Frame,
    payload: Frame -> seq<byte>)  // the console octets a browser finds in a frame

  /** `outputLoop`'s answer to a console read error. */
  function ConsoleErrorResult(e: ConsoleError): LoopResult {
    match e
    case Eof => ConsoleClosedResult()
    case IoError(text) => SSHErrorResult("ssh_read_failed", text)
  }

  /** The end of the console ends the session normally; an error ends it as the SSH connection's. */
  lemma ConsoleErrorReport(e: ConsoleError)
    ensures ReportOf(ConsoleErrorResult(e)) ==
            match e
            case Eof => Report(ConsoleClosed, 1000, "console_closed", [CloseNotice("console_closed")])
            case IoError(text) =>
              Report(SSHError, 1011, "ssh_read_failed", [Failed("ssh_read_failed", text), CloseNotice("ssh_error")])
  {
    FlushIsHeard(ConsoleErrorResult(e));
    hide FlushFrames;
  }

  const GATEWAY: Rules := Rules(
    OnFirstFrame, OnFirstError, GrantFailure, NO_VALIDATOR, LIMIT_REACHED,
    BridgeFailure("validated grant is missing target ip"), BridgeFailure,
    React, ReadErrorResult, OpFailedResult, ConsoleErrorResult, OverflowResult(), BrowserDisconnectResult(),
    InternalErrorResult("keepalive_ping_failed", "failed to write websocket keepalive ping"),
    SLOW_CLIENT_CALL, WRITE_FAILED_CALL, SweepCall,
    NewServerAuthorized(), NewServerOutput, NewServerError, NewServerClose, OutputData)

  // ---- program counters ----

  /** `handleBrowserSocket`, with `Start` inlined from `HCapacity` to `HSpawn`. */
  datatype HandlerPc =
    | HRead
    | HValidate(token: string)
    | HCapacity(address: string)
    | HOpen
    | HConfigure
    | HInsert
    | HStarted
    | HCheck
    | HPush
    | HClosing
    | HUndoConsole
    | HUndoEntry
    | HDrop(failure: Failure)
    | HSpawn
    | HServed
    | HSayError(failure: Failure)
    | HSayClose(failure: Failure)
    | HHangUp(failure: Failure)
    | HEnd

  datatype ReaderPc = RIdle | RReading | ROp(op: ConsoleOp) | RPost(result: LoopResult) | RDone(result: LoopResult)

  datatype WriterPc = WIdle | WSelect | WWriting(frame: Frame) | WClosing | WDone

  datatype OutputPc =
    | OIdle | OReading | OCheck(chunk: Chunk) | OPush(chunk: Chunk) | OClosing | OPost(result: LoopResult) | ODone

  datatype KeepalivePc = KIdle | KSelect | KPinging | KPost(result: LoopResult) | KDone(posted: bool)

  datatype RunPc =
    | XIdle | XReceive | XSayError(result: LoopResult) | XSayClose(result: LoopResult)
    | XClosing(result: LoopResult) | XJoining | XDone

  /** The callers of `Session.close`; a sweeper is a call of `CloseAll`. */
  datatype Closer = Starter | Outputter | Writer | Runner | Sweeper(k: nat, reason: EndReason)

  /** The next statement of the function under `closeOnce`. */
  datatype BodyPc = BMark | BSignal | BBrowser | BConsole | BEntry | BSettle | BAudit | BHook | BExit

  /** `sync.Once`: while it is `Running`, every other caller of `close` waits. */
  datatype Once = Fresh | Running(holder: Closer, call: CloseCall, at: BodyPc) | Done(holder: Closer, call: CloseCall)

  datatype BrowserState = Active | Closing | Closed

  datatype Console = NotOpen | Open | Shut

  datatype ConsoleError = Eof | IoError(text: string)

  /** One return of `console.Read`; both parts can be present. */
  datatype Chunk = Chunk(data: seq<byte>, err: Option<ConsoleError>)

  const READ_BUFFER := 4096

  /** A frame the browser received, by the way it was written. */
  datatype Sent = Queued(frame: Frame) | Direct(frame: Frame)

  datatype HangUp = HangUp(code: int, reason: string)

  datatype Grant = Grant(token: string, address: string)

  // ---- state ----

  /** The browser socket: frames that have arrived, an error it has met, whether the gateway closed it;
      then the frames read from it and the frames the browser received. */
  datatype Net = Net(inbox: seq<Frame>, fault: Option<ReadError>, hung: bool, received: seq<Frame>, wire: seq<Sent>)

  /** The SSH console: reads that are ready, and the octets `outputLoop` has read. */
  datatype Terminal = Terminal(state: Console, ready: seq<Chunk>, output: seq<byte>)

  /** `Session.outbound`, with all frames it ever accepted and all that `writeLoop` took. */
  datatype Outbound = Outbound(waiting: seq<Frame>, accepted: seq<Frame>, pulled: seq<Frame>)

  /** What `close` works on: `closeOnce`, the fields under `stateMu`, the channel `closed`; then the
      `session_ended` records, the runs of the cleanup hook, and its calls of `browser.Close`. */
  datatype Life = Life(once: Once, state: BrowserState, closed: bool, endReason: Option<EndReason>,
                       endedAt: Option<nat>, ended: seq<CloseCall>, cleanups: nat, hangUps: seq<HangUp>)

  /** What `Start` works on: the session's entry in `Registry.sessions`, whether it was ever entered, the
      consoles opened, the `session_started` records, the grant, and the handler's own `browser.Close`. */
  datatype Desk = Desk(entry: bool, joined: bool, opens: nat, started: nat, grant: Option<Grant>, hangUps: seq<HangUp>)

  /** Console operations that succeeded, and the one that failed. */
  datatype Typed = Typed(ops: seq<ConsoleOp>, failed: Option<ConsoleOp>)

  /** The failures its loops have met: what was waiting in the queue when it refused a frame, the frame `writeLoop`
      could not write, the error that came with the console's last read, and the ping that failed. */
  datatype Seen = Seen(refused: Option<seq<Frame>>, unwritten: Option<Frame>, consoleError: Option<ConsoleError>,
                       ping: Option<PingOutcome>)

  /** A connection; `depth` is the queue's capacity, `hook` says whether there is a cleanup hook. */
  datatype Conn = Conn(
    depth: nat, hook: bool,
    h: HandlerPc, rd: ReaderPc, wr: WriterPc, out: OutputPc, ka: KeepalivePc, run: RunPc,
    net: Net, term: Terminal, q: Outbound, life: Life, desk: Desk, typed: Typed, seen: Seen,
    tick: bool, results: seq<LoopResult>)

  function NewConn(depth: nat, hook: bool): Conn {
    Conn(depth, hook, HRead, RIdle, WIdle, OIdle, KIdle, XIdle,
         Net([], None, false, [], []), Terminal(NotOpen, [], []), Outbound([], [], []),
         Life(Fresh, Active, false, None, None, [], 0, []), Desk(false, false, 0, 0, None, []), Typed([], None),
         Seen(None, None, None, None), false, [])
  }

  // ---- actions ----

  datatype EnvAct = Arrive(frame: Frame) | Break(error: ReadError) | Emit(chunk: Chunk) | Tick

  datatype PingOutcome = PingOk | PingPeerClosed | PingFailed

  datatype Act =
    | Env(env: EnvAct)
    | HTake | HTakeError(error: ReadError) | HVerdict(verdict: Verdict)
    | HGo(ok: bool, text: string) | HEnqueue | HJoin(text: string) | HSay(ok: bool)
    | RTake | RTakeError(error: ReadError) | RGo(ok: bool, text: string)
    | WStop | WPull | WWrite(ok: bool) | WReturn
    | OTake | OTakeError(cause: ConsoleError) | OEnqueue | OReturn | OSend
    | KStop | KTake | KPing(outcome: PingOutcome) | KSend
    | XTake | XSay(ok: bool) | XReturn | XJoin
    | Enter(who: Closer) | Body

  // ---- enabledness ----

  /** A read fails when the socket was closed by the gateway, or with the error the socket has met. */
  predicate ReadCanFail(net: Net, e: ReadError) {
    net.hung || net.fault == Some(e)
  }

  predicate EnvCan(c: Conn, e: EnvAct) {
    match e
    case Arrive(_) => !c.net.hung
    case Break(_) => c.net.fault.None?
    case Emit(chunk) => c.term.state.Open? && |chunk.data| <= READ_BUFFER
    case Tick => c.ka.KSelect? || c.ka.KPinging?
  }

  /** The part of `Start` before the session is in the registry. */
  predicate OpenCan(h: HandlerPc) {
    h.HCapacity? || h.HOpen? || h.HConfigure? || h.HInsert? || h.HDrop?
  }

  /** The call of `Enqueue` in `Start`. */
  predicate HandlerEnqueueCan(c: Conn) {
    c.h.HCheck? || c.h.HPush? || (c.h.HClosing? && c.life.once.Done?)
  }

  /** The rest of `Start`. */
  predicate JoinCan(h: HandlerPc) {
    h.HStarted? || h.HUndoConsole? || h.HUndoEntry? || h.HSpawn?
  }

  predicate SayCan(c: Conn, ok: bool) {
    match c.h
    case HSayError(_) => ok ==> !c.net.hung
    case HSayClose(_) => ok ==> !c.net.hung
    case HHangUp(_) => true
    case _ => false
  }

  predicate ReaderCan(c: Conn, ok: bool) {
    match c.rd
    case ROp(_) => ok ==> c.term.state.Open?
    case RPost(_) => |c.results| < 3
    case _ => false
  }

  /** The call with which `who` stands at `closeOnce.Do`. */
  function CallOf(R: Rules, c: Conn, who: Closer): Option<CloseCall> {
    match who
    case Starter => if c.h.HClosing? then Some(R.slowCall) else None
    case Outputter => if c.out.OClosing? then Some(R.slowCall) else None
    case Writer => if c.wr.WClosing? then Some(R.writeFailedCall) else None
    case Runner => if c.run.XClosing? then Some(c.run.result.call) else None
    case Sweeper(_, reason) => Some(R.sweepCall(reason))
  }

  predicate Can(R: Rules, c: Conn, a: Act) {
    match a
    case Env(e) => EnvCan(c, e)
    case HTake => c.h.HRead? && c.net.inbox != []
    case HTakeError(e) => c.h.HRead? && ReadCanFail(c.net, e)
    case HVerdict(_) => c.h.HValidate?
    case HGo(_, _) => OpenCan(c.h)
    case HEnqueue => HandlerEnqueueCan(c)
    case HJoin(_) => JoinCan(c.h)
    case HSay(ok) => SayCan(c, ok)
    case RTake => c.rd.RReading? && c.net.inbox != []
    case RTakeError(e) => c.rd.RReading? && ReadCanFail(c.net, e)
    case RGo(ok, _) => ReaderCan(c, ok)
    case WStop => c.wr.WSelect? && c.life.closed
    case WPull => c.wr.WSelect? && c.q.waiting != []
    case WWrite(ok) => c.wr.WWriting? && (ok ==> !c.net.hung)
    case WReturn => c.wr.WClosing? && c.life.once.Done?
    case OTake => c.out.OReading? && c.term.ready != []
    case OTakeError(_) => c.out.OReading? && c.term.state.Shut?
    case OEnqueue => c.out.OCheck? || c.out.OPush?
    case OReturn => c.out.OClosing? && c.life.once.Done?
    case OSend => c.out.OPost? && |c.results| < 3
    case KStop => c.ka.KSelect? && c.life.closed
    case KTake => c.ka.KSelect? && c.tick
    case KPing(outcome) => c.ka.KPinging? && (outcome.PingOk? ==> !c.net.hung)
    case KSend => c.ka.KPost? && |c.results| < 3
    case XTake => c.run.XReceive? && c.results != []
    case XSay(ok) => (c.run.XSayError? || c.run.XSayClose?) && (ok ==> !c.net.hung)
    case XReturn => c.run.XClosing? && c.life.once.Done?
    case XJoin => c.run.XJoining? && c.wr.WDone?
    case Enter(who) => c.life.once.Fresh? && CallOf(R, c, who).Some?
    case Body => c.life.once.Running?
  }

  // ---- steps ----

  function EnvStep(c: Conn, e: EnvAct): Conn {
    match e
    case Arrive(frame) => c.(net := c.net.(inbox := c.net.inbox + [frame]))
    case Break(error) => c.(net := c.net.(fault := Some(error)))
    case Emit(chunk) => c.(term := c.term.(ready := c.term.ready + [chunk]))
    case Tick => c.(tick := true)
  }

  /** `ReadMessage` returns the oldest frame. */
  function TakeFrame(net: Net): Net
    requires net.inbox != []
  {
    net.(inbox := net.inbox[1..], received := net.received + [net.inbox[0]])
  }

  function HandlerTake(R: Rules, c: Conn): Conn
    requires c.net.inbox != []
  {
    c.(net := TakeFrame(c.net),
       h := match R.first(c.net.inbox[0])
            case Admit(token) => HValidate(token)
            case Refuse(failure) => HSayError(failure))
  }

  function HandlerTakeError(R: Rules, c: Conn, e: ReadError): Conn {
    c.(h := match R.firstError(e)
            case Say(f) => HSayError(f)
            case HangUpOnly(f) => HHangUp(f))
  }

  function HandlerVerdict(R: Rules, c: Conn, v: Verdict): Conn
    requires c.h.HValidate?
  {
    match v
    case Granted(address) => c.(desk := c.desk.(grant := Some(Grant(c.h.token, address))), h := HCapacity(address))
    case Denied(error) => c.(h := HSayError(R.denied(error)))
    case Unconfigured => c.(h := HSayError(R.unconfigured))
  }

  /** `Enqueue`'s `s.outbound <- message`. */
  function Push(q: Outbound, f: Frame): Outbound {
    q.(waiting := q.waiting + [f], accepted := q.accepted + [f])
  }

  /** The part of `Start` before the session is in the registry; `full`: the registry has no room. */
  function OpenStep(R: Rules, c: Conn, ok: bool, text: string, full: bool): Conn {
    match c.h
    case HCapacity(address) =>
      c.(h := if address == "" then HSayError(R.noAddress) else if full then HSayError(R.limit) else HOpen)
    case HOpen =>
      if ok then c.(term := c.term.(state := Open), desk := c.desk.(opens := c.desk.opens + 1), h := HConfigure)
      else c.(h := HSayError(R.bridge(text)))
    case HConfigure => c.(h := if ok then HInsert else HDrop(R.bridge(text)))
    case HInsert =>
      if full then c.(h := HDrop(R.limit)) else c.(desk := c.desk.(entry := true, joined := true), h := HStarted)
    case HDrop(failure) => c.(term := c.term.(state := Shut), h := HSayError(failure))
    case _ => c
  }

  /** `Enqueue` of the `authorized` frame. */
  function HandlerEnqueue(R: Rules, c: Conn): Conn {
    match c.h
    case HCheck => c.(h := if c.life.closed then HUndoConsole else HPush)
    case HPush =>
      if |c.q.waiting| < c.depth then c.(q := Push(c.q, R.authorized), h := HSpawn)
      else c.(seen := c.seen.(refused := Some(c.q.waiting)), h := HClosing)
    case HClosing => c.(h := HUndoConsole)
    case _ => c
  }

  function JoinStep(R: Rules, c: Conn, text: string): Conn {
    match c.h
    case HStarted => c.(desk := c.desk.(started := c.desk.started + 1), h := HCheck)
    case HUndoConsole => c.(term := c.term.(state := Shut), h := HUndoEntry)
    case HUndoEntry => c.(desk := c.desk.(entry := false), h := HSayError(R.bridge(text)))
    case HSpawn => c.(h := HServed, rd := RReading, wr := WSelect, out := OReading, ka := KSelect, run := XReceive)
    case _ => c
  }

  /** `WriteMessage` past the queue, skipped when there is nothing to say. */
  function SayDirect(net: Net, nonEmpty: bool, ok: bool, f: Frame): Net {
    if nonEmpty && ok then net.(wire := net.wire + [Direct(f)]) else net
  }

  /** `writeWebSocketFailure`. */
  function SayStep(R: Rules, c: Conn, ok: bool): Conn {
    match c.h
    case HSayError(f) =>
      c.(h := HSayClose(f), net := SayDirect(c.net, f.errorCode != "", ok, R.error(f.errorCode, f.message)))
    case HSayClose(f) =>
      c.(h := HHangUp(f), net := SayDirect(c.net, f.reason != "", ok, R.close(f.reason)))
    case HHangUp(f) =>
      c.(h := HEnd, net := c.net.(hung := true),
         desk := c.desk.(hangUps := c.desk.hangUps + [HangUp(f.code, f.reason)]))
    case _ => c
  }

  function ReaderTake(R: Rules, c: Conn): Conn
    requires c.net.inbox != []
  {
    c.(net := TakeFrame(c.net),
       rd := match R.react(c.net.inbox[0])
             case Skip => RReading
             case Do(op) => ROp(op)
             case Return(result) => RPost(result))
  }

  function ReaderStep(R: Rules, c: Conn, ok: bool, text: string): Conn {
    match c.rd
    case ROp(op) =>
      if ok then c.(typed := c.typed.(ops := c.typed.ops + [op]), rd := RReading)
      else c.(typed := c.typed.(failed := Some(op)), rd := RPost(R.opFailed(op, text)))
    case RPost(result) => c.(results := c.results + [result], rd := RDone(result))
    case _ => c
  }

  /** The end of one turn of `outputLoop`. */
  function AfterChunk(R: Rules, err: Option<ConsoleError>): OutputPc {
    if err.Some? then OPost(R.consoleError(err.value)) else OReading
  }

  function OutputTake(R: Rules, c: Conn): Conn
    requires c.term.ready != []
  {
    var chunk := c.term.ready[0];
    c.(term := c.term.(ready := c.term.ready[1..], output := c.term.output + chunk.data),
       seen := c.seen.(consoleError := chunk.err),
       out := if chunk.data != [] then OCheck(chunk) else AfterChunk(R, chunk.err))
  }

  /** `Enqueue` of an output frame. */
  function OutputEnqueue(R: Rules, c: Conn): Conn {
    match c.out
    case OCheck(chunk) => c.(out := if c.life.closed then OPost(R.overflow) else OPush(chunk))
    case OPush(chunk) =>
      if |c.q.waiting| < c.depth then c.(q := Push(c.q, R.output(chunk.data)), out := AfterChunk(R, chunk.err))
      else c.(seen := c.seen.(refused := Some(c.q.waiting)), out := OClosing)
    case _ => c
  }

  function PingStep(R: Rules, c: Conn, outcome: PingOutcome): Conn {
    c.(seen := if outcome.PingOk? then c.seen else c.seen.(ping := Some(outcome)),
       ka := match outcome
             case PingOk => KSelect
             case PingPeerClosed => KPost(R.pingPeerClosed)
             case PingFailed => KPost(R.pingFailed))
  }

  /** The two writes of `flush`. */
  function FlushStep(R: Rules, c: Conn, ok: bool): Conn {
    match c.run
    case XSayError(r) =>
      c.(run := XSayClose(r),
         net := SayDirect(c.net, r.clientErrorCode != "", ok, R.error(r.clientErrorCode, r.clientErrorText)))
    case XSayClose(r) =>
      c.(run := XClosing(r), net := SayDirect(c.net, r.clientCloseReason != "", ok, R.close(r.clientCloseReason)))
    case _ => c
  }

  function WriterPull(c: Conn): Conn
    requires c.q.waiting != []
  {
    c.(q := c.q.(waiting := c.q.waiting[1..], pulled := c.q.pulled + [c.q.waiting[0]]), wr := WWriting(c.q.waiting[0]))
  }

  function WriterStep(c: Conn, ok: bool): Conn
    requires c.wr.WWriting?
  {
    if ok then c.(net := c.net.(wire := c.net.wire + [Queued(c.wr.frame)]), wr := WSelect)
    else c.(seen := c.seen.(unwritten := Some(c.wr.frame)), wr := WClosing)
  }

  /** The effect of one statement of `close` on the session's own fields. */
  function BodyLife(life: Life, hook: bool, now: nat): Life
    requires life.once.Running?
  {
    var once, call := life.once, life.once.call;
    match once.at
    case BMark => life.(state := Closing, endedAt := Some(now), endReason := Some(call.reason),
                          once := once.(at := BSignal))
    case BSignal => life.(closed := true, once := once.(at := BBrowser))
    case BBrowser => life.(hangUps := life.hangUps + [HangUp(call.code, call.text)], once := once.(at := BConsole))
    case BConsole => life.(once := once.(at := BEntry))
    case BEntry => life.(once := once.(at := BSettle))
    case BSettle => life.(state := Closed, once := once.(at := BAudit))
    case BAudit => life.(ended := life.ended + [call], once := once.(at := BHook))
    case BHook => life.(cleanups := if hook then life.cleanups + 1 else life.cleanups, once := once.(at := BExit))
    case BExit => life.(once := Done(once.holder, call))
  }

  /** The effect of the same statement on the browser, the console and the registry. */
  function BodyWorld(c: Conn, life: Life): Conn
    requires c.life.once.Running?
  {
    match c.life.once.at
    case BBrowser => c.(life := life, net := c.net.(hung := true))
    case BConsole => c.(life := life, term := c.term.(state := Shut))
    case BEntry => c.(life := life, desk := c.desk.(entry := false))
    case _ => c.(life := life)
  }

  function EnterStep(R: Rules, c: Conn, who: Closer): Conn
    requires CallOf(R, c, who).Some?
  {
    c.(life := c.life.(once := Running(who, CallOf(R, c, who).value, BMark)))
  }

  function Step(R: Rules, c: Conn, a: Act, full: bool, now: nat): Conn
    requires Can(R, c, a)
  {
    match a
    case Env(e) => EnvStep(c, e)
    case HTake => HandlerTake(R, c)
    case HTakeError(e) => HandlerTakeError(R, c, e)
    case HVerdict(v) => HandlerVerdict(R, c, v)
    case HGo(ok, text) => OpenStep(R, c, ok, text, full)
    case HEnqueue => HandlerEnqueue(R, c)
    case HJoin(text) => JoinStep(R, c, text)
    case HSay(ok) => SayStep(R, c, ok)
    case RTake => ReaderTake(R, c)
    case RTakeError(e) => c.(rd := RPost(R.readError(e)))
    case RGo(ok, text) => ReaderStep(R, c, ok, text)
    case WStop => c.(wr := WDone)
    case WPull => WriterPull(c)
    case WWrite(ok) => WriterStep(c, ok)
    case WReturn => c.(wr := WDone)
    case OTake => OutputTake(R, c)
    case OTakeError(e) => c.(seen := c.seen.(consoleError := Some(e)), out := OPost(R.consoleError(e)))
    case OEnqueue => OutputEnqueue(R, c)
    case OReturn => c.(out := OPost(R.overflow))
    case OSend => c.(results := c.results + [c.out.result], out := ODone)
    case KStop => c.(ka := KDone(false))
    case KTake => c.(tick := false, ka := KPinging)
    case KPing(outcome) => PingStep(R, c, outcome)
    case KSend => c.(results := c.results + [c.ka.result], ka := KDone(true))
    case XTake => c.(results := c.results[1..], run := XSayError(c.results[0]))
    case XSay(ok) => FlushStep(R, c, ok)
    case XReturn => c.(run := XJoining)
    case XJoin => c.(run := XDone)
    case Enter(who) => EnterStep(R, c, who)
    case Body => BodyWorld(c, BodyLife(c.life, c.hook, now))
  }
}
