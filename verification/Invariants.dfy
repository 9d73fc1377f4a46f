/** What every step of the connection machine keeps. */
module Invariants {
  import opened Prelude
  import opened Protocol
  import opened Results
  import opened Admission
  import opened Machine

  // ---- who is where ----

  predicate Early(h: HandlerPc) { h.HRead? || h.HValidate? || h.HCapacity? || h.HOpen? }

  predicate Holding(h: HandlerPc) { h.HConfigure? || h.HInsert? || h.HDrop? }

  predicate Joining(h: HandlerPc) {
    h.HStarted? || h.HCheck? || h.HPush? || h.HClosing? || h.HUndoConsole? || h.HUndoEntry? || h.HSpawn?
  }

  predicate Failing(h: HandlerPc) { h.HSayError? || h.HSayClose? || h.HHangUp? || h.HEnd? }

  /** `Start` has been called and has not returned. */
  predicate InStart(h: HandlerPc) { h.HCapacity? || h.HOpen? || Holding(h) || Joining(h) }

  /** The goroutines exist exactly when `Start` has succeeded. */
  predicate SpawnOk(served: bool, rd: ReaderPc, wr: WriterPc, out: OutputPc, ka: KeepalivePc, run: RunPc) {
    && served == !run.XIdle?
    && served == !rd.RIdle?
    && served == !wr.WIdle?
    && served == !out.OIdle?
    && served == !ka.KIdle?
  }

  /** Where the session's console and registry entry stand during and after `Start`. */
  predicate StartOk(h: HandlerPc, console: Console, desk: Desk, untouched: bool) {
    && desk.opens == (if console.NotOpen? then 0 else 1)
    && (Early(h) ==> console.NotOpen? && !desk.joined)
    && (Holding(h) ==> console.Open? && !desk.joined)
    && (Joining(h) || h.HServed? ==> desk.joined)
    && (Failing(h) ==> !console.Open? && !desk.entry)
    && (desk.joined ==> !console.NotOpen?)
    && (!desk.joined ==> untouched && !desk.entry)
    && (desk.joined && !desk.entry ==> console.Shut?)
    && (h.HUndoEntry? ==> console.Shut?)
    && (desk.joined && (h.HUndoConsole? || h.HUndoEntry? || Failing(h)) ==> !untouched)
    && desk.started == (if desk.joined && !h.HStarted? then 1 else 0)
    && |desk.hangUps| == (if h.HEnd? then 1 else 0)
  }

  /** A console exists only behind a validated `authorize` frame, and that frame came first. */
  ghost predicate AuthOk(R: Rules, h: HandlerPc, received: seq<Frame>, grant: Option<Grant>, hasConsole: bool) {
    && (h.HRead? ==> received == [])
    && (h.HValidate? ==> received != [] && R.first(received[0]) == Admit(h.token))
    && (grant.Some? ==> received != [] && R.first(received[0]) == Admit(grant.value.token))
    && (h.HCapacity? ==> grant.Some? && grant.value.address == h.address)
    && (hasConsole || h.HOpen? ==> grant.Some? && grant.value.address != "")
  }

  // ---- the once-only close ----

  /** How many statements of `close` have been executed. */
  function Rank(once: Once): nat {
    match once
    case Fresh => 0
    case Running(_, _, at) => RankAt(at)
    case Done(_, _) => 9
  }

  function RankAt(at: BodyPc): nat {
    match at
    case BMark => 0
    case BSignal => 1
    case BBrowser => 2
    case BConsole => 3
    case BEntry => 4
    case BSettle => 5
    case BAudit => 6
    case BHook => 7
    case BExit => 8
  }

  /** Everything `close` leaves in the session is a function of how far the one winning call has got. */
  predicate LifeOk(life: Life, hook: bool) {
    var r := Rank(life.once);
    && life.state == (if r == 0 then Active else if r < 6 then Closing else Closed)
    && life.endReason == (if r == 0 then None else Some(life.once.call.reason))
    && (life.endedAt.Some? <==> r >= 1)
    && (life.closed <==> r >= 2)
    && life.hangUps == (if r >= 3 then [HangUp(life.once.call.code, life.once.call.text)] else [])
    && life.ended == (if r >= 7 then [life.once.call] else [])
    && life.cleanups == (if r >= 8 && hook then 1 else 0)
  }

  /** ... and so is what it leaves in the browser, the console and the registry. */
  predicate TeardownOk(rank: nat, h: HandlerPc, hung: bool, console: Console, entry: bool) {
    && (hung <==> rank >= 3 || h.HEnd?)
    && (rank >= 4 ==> console.Shut?)
    && (rank >= 5 ==> !entry)
  }

  /** The holder of the running `close` still stands at its call. */
  ghost predicate HolderOk(R: Rules, c: Conn) {
    c.life.once.Running? ==> CallOf(R, c, c.life.once.holder) == Some(c.life.once.call)
  }

  // ---- output ----

  /** The console octets carried by `frames`, in order. */
  function OutputOf(R: Rules, frames: seq<Frame>): seq<byte> {
    if frames == [] then [] else OutputOf(R, frames[..|frames| - 1]) + R.payload(frames[|frames| - 1])
  }

  /** Frames the browser received through the queue. */
  function QueuedOf(wire: seq<Sent>): seq<Frame> {
    if wire == [] then [] else
    var last := wire[|wire| - 1];
    QueuedOf(wire[..|wire| - 1]) + (if last.Queued? then [last.frame] else [])
  }

  /** Frames the browser received past the queue: those of `flush` and `writeWebSocketFailure`. */
  function DirectOf(wire: seq<Sent>): seq<Frame> {
    if wire == [] then [] else
    var last := wire[|wire| - 1];
    DirectOf(wire[..|wire| - 1]) + (if last.Direct? then [last.frame] else [])
  }

  ghost predicate IsOutputFrame(R: Rules, f: Frame) { exists data :: f == R.output(data) }

  /** The `authorized` frame, then output frames only. */
  ghost predicate Greeted(R: Rules, frames: seq<Frame>) {
    frames != [] ==>
      && frames[0] == R.authorized
      && forall i :: 1 <= i < |frames| ==> IsOutputFrame(R, frames[i])
  }

  /** The queue conserves frames. */
  ghost predicate QueueOk(R: Rules, h: HandlerPc, q: Outbound, depth: nat) {
    && q.accepted == q.pulled + q.waiting
    && |q.waiting| <= depth
    && Greeted(R, q.accepted)
    && (h.HSpawn? || h.HServed? <==> q.accepted != [])
  }

  /** Octets read from the console against octets in accepted frames, at each point of `outputLoop`. */
  ghost predicate OutputOk(R: Rules, out: OutputPc, accepted: seq<Frame>, output: seq<byte>) {
    match out
    case OIdle => OutputOf(R, accepted) == output == []
    case OReading => OutputOf(R, accepted) == output
    case OCheck(chunk) => OutputOf(R, accepted) + chunk.data == output && chunk.data != []
    case OPush(chunk) => OutputOf(R, accepted) + chunk.data == output && chunk.data != []
    case _ => OutputOf(R, accepted) <= output
  }

  /** Frames pulled against frames the browser got through the queue. */
  predicate WireOk(wr: WriterPc, queued: seq<Frame>, pulled: seq<Frame>) {
    match wr
    case WIdle => queued == pulled == []
    case WSelect => queued == pulled
    case WWriting(frame) => queued + [frame] == pulled
    case _ => queued <= pulled
  }

  ghost predicate IsErrorFrame(R: Rules, f: Frame) { exists code, message :: f == R.error(code, message) }

  ghost predicate IsCloseFrame(R: Rules, f: Frame) { exists reason :: f == R.close(reason) }

  /** At most one error frame. */
  ghost predicate UpToError(R: Rules, direct: seq<Frame>) {
    direct == [] || (|direct| == 1 && IsErrorFrame(R, direct[0]))
  }

  /** At most one error frame, then at most one close frame. */
  ghost predicate UpToClose(R: Rules, direct: seq<Frame>) {
    || UpToError(R, direct)
    || (|direct| == 1 && IsCloseFrame(R, direct[0]))
    || (|direct| == 2 && IsErrorFrame(R, direct[0]) && IsCloseFrame(R, direct[1]))
  }

  /** The error frame for this code and message, unless there is no code or it could not be written. */
  predicate SaidError(R: Rules, code: string, message: string, direct: seq<Frame>) {
    direct == [] || (code != "" && direct == [R.error(code, message)])
  }

  /** That, then the close frame for this reason, unless it is empty or could not be written. */
  predicate Said(R: Rules, code: string, message: string, reason: string, direct: seq<Frame>) {
    || SaidError(R, code, message, direct)
    || (reason != "" && direct == [R.close(reason)])
    || (code != "" && reason != "" && direct == [R.error(code, message), R.close(reason)])
  }

  lemma SaidIsUpToClose(R: Rules, code: string, message: string, reason: string, direct: seq<Frame>)
    ensures SaidError(R, code, message, direct) ==> UpToError(R, direct)
    ensures Said(R, code, message, reason, direct) ==> UpToClose(R, direct)
  {
  }

  /** The frames written past the queue say what the handler's failure, or the result `run` received, says. */
  ghost predicate DirectOk(R: Rules, h: HandlerPc, run: RunPc, direct: seq<Frame>) {
    match h
    case HServed =>
      (match run
       case XReceive => direct == []
       case XSayError(_) => direct == []
       case XSayClose(r) => SaidError(R, r.clientErrorCode, r.clientErrorText, direct)
       case XClosing(r) => Said(R, r.clientErrorCode, r.clientErrorText, r.clientCloseReason, direct)
       case _ => UpToClose(R, direct))
    case HSayClose(f) => SaidError(R, f.errorCode, f.message, direct)
    case HHangUp(f) => Said(R, f.errorCode, f.message, f.reason, direct)
    case HEnd => UpToClose(R, direct)
    case _ => direct == []
  }

  // ---- input ----

  function Tail(frames: seq<Frame>): seq<Frame> {
    if frames == [] then [] else frames[1..]
  }

  /** How the reader's result is explained: the last frame it took ended the loop, or asked for the console operation
      that failed, or after that frame the socket failed, closed by the gateway or with the error it had met. */
  ghost predicate Explained(R: Rules, frames: seq<Frame>, typed: Typed, hung: bool, fault: Option<ReadError>,
                            result: LoopResult)
  {
    if typed.failed.Some? then
      && LastAsks(R.react, frames, typed.ops, Do(typed.failed.value))
      && exists text :: result == R.opFailed(typed.failed.value, text)
    else
      || LastAsks(R.react, frames, typed.ops, Return(result))
      || (&& Fold(R.react, frames) == Trace(typed.ops, None)
          && exists e :: (hung || fault == Some(e)) && result == R.readError(e))
  }

  ghost predicate InputOk(R: Rules, rd: ReaderPc, received: seq<Frame>, typed: Typed, hung: bool,
                          fault: Option<ReadError>)
  {
    match rd
    case RIdle => |received| <= 1 && typed == Typed([], None)
    case RReading => Fold(R.react, Tail(received)) == Trace(typed.ops, None) && typed.failed.None? && received != []
    case ROp(op) => LastAsks(R.react, Tail(received), typed.ops, Do(op)) && typed.failed.None? && received != []
    case RPost(result) => Explained(R, Tail(received), typed, hung, fault, result) && received != []
    case RDone(result) => Explained(R, Tail(received), typed, hung, fault, result) && received != []
  }

  // ---- the results channel ----

  function One(b: bool): nat { if b then 1 else 0 }

  /** `run` takes one result; each of the three producers sends at most one. */
  predicate ResultsOk(results: seq<LoopResult>, rd: ReaderPc, out: OutputPc, ka: KeepalivePc, run: RunPc) {
    |results| + One(!run.XIdle? && !run.XReceive?) == One(rd.RDone?) + One(out.ODone?) + One(ka.KDone? && ka.posted)
  }

  // ---- all of it ----

  /** `run` gets past its own `close` only when `close` is over. */
  predicate JoinOk(run: RunPc, once: Once) {
    run.XJoining? || run.XDone? ==> once.Done?
  }

  /** Control: program counters, `close`, the console, the registry entry. */
  ghost predicate Control(R: Rules, c: Conn) {
    && c.depth >= 1
    && SpawnOk(c.h.HServed?, c.rd, c.wr, c.out, c.ka, c.run)
    && StartOk(c.h, c.term.state, c.desk, c.life.once.Fresh?)
    && LifeOk(c.life, c.hook)
    && TeardownOk(Rank(c.life.once), c.h, c.net.hung, c.term.state, c.desk.entry)
    && HolderOk(R, c)
    && JoinOk(c.run, c.life.once)
    && ResultsOk(c.results, c.rd, c.out, c.ka, c.run)
  }

  /** Data towards the browser. */
  ghost predicate Downstream(R: Rules, c: Conn) {
    && QueueOk(R, c.h, c.q, c.depth)
    && OutputOk(R, c.out, c.q.accepted, c.term.output)
    && WireOk(c.wr, QueuedOf(c.net.wire), c.q.pulled)
    && DirectOk(R, c.h, c.run, DirectOf(c.net.wire))
  }

  /** Data from the browser. */
  ghost predicate Upstream(R: Rules, c: Conn) {
    && AuthOk(R, c.h, c.net.received, c.desk.grant, !c.term.state.NotOpen?)
    && InputOk(R, c.rd, c.net.received, c.typed, c.net.hung, c.net.fault)
  }

  ghost predicate Good(R: Rules, c: Conn) {
    Control(R, c) && Downstream(R, c) && Upstream(R, c)
  }

  /** Only a session that is in the registry's map can be found by `CloseAll`. */
  predicate Found(c: Conn, a: Act) {
    a.Enter? && a.who.Sweeper? ==> c.desk.joined
  }

  /** What the machine needs of the encoding: a browser finds in an output frame the octets it was made
      from, and none in the `authorized` frame. */
  ghost predicate Faithful(R: Rules) {
    R.payload(R.authorized) == [] && forall data :: R.payload(R.output(data)) == data
  }

  // ---- sequences that grow at the end ----

  lemma OutputSnoc(R: Rules, frames: seq<Frame>, f: Frame)
    ensures OutputOf(R, frames + [f]) == OutputOf(R, frames) + R.payload(f)
  {
    assert (frames + [f])[..|frames|] == frames;
  }

  lemma WireSnoc(wire: seq<Sent>, s: Sent)
    ensures QueuedOf(wire + [s]) == QueuedOf(wire) + (if s.Queued? then [s.frame] else [])
    ensures DirectOf(wire + [s]) == DirectOf(wire) + (if s.Direct? then [s.frame] else [])
  {
    assert (wire + [s])[..|wire|] == wire;
  }

  lemma OutputMoves(R: Rules, c: Conn, q: Outbound, seen: Seen, out: OutputPc)
    requires Control(R, c) && (c.out.OCheck? || c.out.OPush?) && !out.OIdle? && !out.ODone?
    ensures Control(R, c.(q := q, seen := seen, out := out))
  {
  }

  lemma GreetingPushed(R: Rules, q: Outbound, depth: nat)
    requires Faithful(R) && q == Outbound([], [], []) && depth >= 1
    ensures QueueOk(R, HSpawn, Push(q, R.authorized), depth)
    ensures OutputOf(R, Push(q, R.authorized).accepted) == []
  {
    OutputSnoc(R, [], R.authorized);
  }

  lemma PushedOutput(R: Rules, q: Outbound, output: seq<byte>, chunk: Chunk)
    requires Faithful(R) && OutputOf(R, q.accepted) + chunk.data == output
    ensures OutputOk(R, AfterChunk(R, chunk.err), Push(q, R.output(chunk.data)).accepted, output)
  {
    OutputSnoc(R, q.accepted, R.output(chunk.data));
  }

  lemma PushKeeps(R: Rules, h: HandlerPc, q: Outbound, depth: nat, f: Frame)
    requires QueueOk(R, h, q, depth) && q.accepted != [] && |q.waiting| < depth && IsOutputFrame(R, f)
    ensures QueueOk(R, h, Push(q, f), depth)
  {
  }

  lemma SayDirectSnoc(net: Net, nonEmpty: bool, ok: bool, f: Frame)
    ensures var said := SayDirect(net, nonEmpty, ok, f);
            && QueuedOf(said.wire) == QueuedOf(net.wire)
            && DirectOf(said.wire) == DirectOf(net.wire) + (if nonEmpty && ok then [f] else [])
  {
    WireSnoc(net.wire, Direct(f));
  }

  // ---- preservation ----

  lemma NewIsGood(R: Rules, depth: nat, hook: bool)
    requires depth >= 1
    ensures Good(R, NewConn(depth, hook))
  {
  }

  lemma EnvKeepsControl(R: Rules, c: Conn, e: EnvAct)
    requires Control(R, c) && EnvCan(c, e)
    ensures Control(R, EnvStep(c, e)) && SameData(c, EnvStep(c, e))
  {
    hide LifeOk, ResultsOk;
    HolderFrame(R, c, EnvStep(c, e));
  }

  lemma EnvKeeps(R: Rules, c: Conn, e: EnvAct)
    requires Good(R, c)
    requires EnvCan(c, e)
    ensures Good(R, EnvStep(c, e))
  {
    hide Control, Downstream, Upstream, EnvStep;
    EnvKeepsControl(R, c, e);
    DataFrame(R, c, EnvStep(c, e));
  }

  lemma HandlerTakeKeeps(R: Rules, c: Conn)
    requires Good(R, c)
    requires c.h.HRead? && c.net.inbox != []
    ensures Good(R, HandlerTake(R, c))
  {
  }

  lemma HandlerTakeErrorKeeps(R: Rules, c: Conn, e: ReadError)
    requires Good(R, c)
    requires c.h.HRead?
    ensures Good(R, HandlerTakeError(R, c, e))
  {
  }

  lemma HandlerVerdictKeepsControl(R: Rules, c: Conn, v: Verdict)
    requires Control(R, c)
    requires c.h.HValidate?
    ensures Control(R, HandlerVerdict(R, c, v))
  {
  }

  lemma HandlerVerdictKeepsDownstream(R: Rules, c: Conn, v: Verdict)
    requires Control(R, c) && Downstream(R, c)
    requires c.h.HValidate?
    ensures Downstream(R, HandlerVerdict(R, c, v))
  {
  }

  lemma HandlerVerdictKeepsUpstream(R: Rules, c: Conn, v: Verdict)
    requires Control(R, c) && Upstream(R, c)
    requires c.h.HValidate?
    ensures Upstream(R, HandlerVerdict(R, c, v))
  {
  }

  lemma OpenKeepsControl(R: Rules, c: Conn, ok: bool, text: string, full: bool)
    requires Control(R, c)
    requires OpenCan(c.h)
    ensures Control(R, OpenStep(R, c, ok, text, full))
  {
  }

  lemma OpenKeepsDownstream(R: Rules, c: Conn, ok: bool, text: string, full: bool)
    requires Control(R, c) && Downstream(R, c)
    requires OpenCan(c.h)
    ensures Downstream(R, OpenStep(R, c, ok, text, full))
  {
  }

  lemma OpenKeepsUpstream(R: Rules, c: Conn, ok: bool, text: string, full: bool)
    requires Control(R, c) && Upstream(R, c)
    requires OpenCan(c.h)
    ensures Upstream(R, OpenStep(R, c, ok, text, full))
  {
  }

  lemma HandlerEnqueueKeepsControlPush(R: Rules, c: Conn)
    requires Control(R, c)
    requires HandlerEnqueueCan(c) && c.h.HPush?
    ensures Control(R, HandlerEnqueue(R, c))
  {
    HolderFrame(R, c, HandlerEnqueue(R, c));
  }

  lemma HandlerEnqueueKeepsControlRest(R: Rules, c: Conn)
    requires Control(R, c)
    requires HandlerEnqueueCan(c) && !c.h.HPush?
    ensures Control(R, HandlerEnqueue(R, c))
  {
    HolderFrame(R, c, HandlerEnqueue(R, c));
  }

  lemma HandlerEnqueueKeepsControl(R: Rules, c: Conn)
    requires Control(R, c)
    requires HandlerEnqueueCan(c)
    ensures Control(R, HandlerEnqueue(R, c))
  {
    if c.h.HPush? { HandlerEnqueueKeepsControlPush(R, c); } else { HandlerEnqueueKeepsControlRest(R, c); }
  }

  lemma HandlerEnqueueKeepsDownstream(R: Rules, c: Conn)
    requires Control(R, c) && Downstream(R, c) && Faithful(R)
    requires HandlerEnqueueCan(c)
    ensures Downstream(R, HandlerEnqueue(R, c))
  {
    hide IsOutputFrame, IsErrorFrame, IsCloseFrame, StartOk, LifeOk, TeardownOk, HolderOk, ResultsOk, OutputOf,
      QueuedOf, DirectOf, UpToError, UpToClose;
    if c.h.HPush? { GreetingPushed(R, c.q, c.depth); }
  }

  lemma HandlerEnqueueKeepsUpstream(R: Rules, c: Conn)
    requires Control(R, c) && Upstream(R, c)
    requires HandlerEnqueueCan(c)
    ensures Upstream(R, HandlerEnqueue(R, c))
  {
  }

  lemma JoinKeepsControlSpawn(R: Rules, c: Conn, text: string)
    requires Control(R, c)
    requires JoinCan(c.h) && c.h.HSpawn?
    ensures Control(R, JoinStep(R, c, text))
  {
  }

  lemma JoinKeepsControlRest(R: Rules, c: Conn, text: string)
    requires Control(R, c)
    requires JoinCan(c.h) && !c.h.HSpawn?
    ensures Control(R, JoinStep(R, c, text))
  {
  }

  lemma JoinKeepsControl(R: Rules, c: Conn, text: string)
    requires Control(R, c)
    requires JoinCan(c.h)
    ensures Control(R, JoinStep(R, c, text))
  {
    if c.h.HSpawn? { JoinKeepsControlSpawn(R, c, text); } else { JoinKeepsControlRest(R, c, text); }
  }

  lemma JoinKeepsDownstream(R: Rules, c: Conn, text: string)
    requires Control(R, c) && Downstream(R, c)
    requires JoinCan(c.h)
    ensures Downstream(R, JoinStep(R, c, text))
  {
  }

  lemma JoinKeepsUpstream(R: Rules, c: Conn, text: string)
    requires Control(R, c) && Upstream(R, c)
    requires JoinCan(c.h)
    ensures Upstream(R, JoinStep(R, c, text))
  {
  }

  lemma SayKeepsControl(R: Rules, c: Conn, ok: bool)
    requires Control(R, c)
    requires SayCan(c, ok)
    ensures Control(R, SayStep(R, c, ok))
  {
    HolderFrame(R, c, SayStep(R, c, ok));
  }

  lemma SayKeepsDownstream(R: Rules, c: Conn, ok: bool)
    requires Control(R, c) && Downstream(R, c)
    requires SayCan(c, ok)
    ensures Downstream(R, SayStep(R, c, ok))
  {
    hide UpToError, UpToClose, OutputOf, QueuedOf, DirectOf, StartOk, LifeOk, TeardownOk, HolderOk, ResultsOk;
    match c.h {
      case HSayError(f) => SayDirectSnoc(c.net, f.errorCode != "", ok, R.error(f.errorCode, f.message));
      case HSayClose(f) => SayDirectSnoc(c.net, f.reason != "", ok, R.close(f.reason));
      case HHangUp(f) => SaidIsUpToClose(R, f.errorCode, f.message, f.reason, DirectOf(c.net.wire));
    }
  }

  lemma SayKeepsUpstream(R: Rules, c: Conn, ok: bool)
    requires Control(R, c) && Upstream(R, c)
    requires SayCan(c, ok)
    ensures Upstream(R, SayStep(R, c, ok))
  {
  }

  lemma ReaderTakeKeepsControl(R: Rules, c: Conn)
    requires Control(R, c)
    requires c.rd.RReading? && c.net.inbox != []
    ensures Control(R, ReaderTake(R, c))
  {
  }

  lemma ReaderTakeKeepsDownstream(R: Rules, c: Conn)
    requires Control(R, c) && Downstream(R, c)
    requires c.rd.RReading? && c.net.inbox != []
    ensures Downstream(R, ReaderTake(R, c))
  {
  }

  lemma ReaderTakeKeepsUpstream(R: Rules, c: Conn)
    requires Control(R, c) && Upstream(R, c)
    requires c.rd.RReading? && c.net.inbox != []
    ensures Upstream(R, ReaderTake(R, c))
  {
    var f := c.net.inbox[0];
    FoldSnoc(R.react, Tail(c.net.received), f);
    assert Tail(c.net.received + [f]) == Tail(c.net.received) + [f];
    assert (Tail(c.net.received) + [f])[..|Tail(c.net.received)|] == Tail(c.net.received);
  }

  lemma ReaderKeepsControl(R: Rules, c: Conn, ok: bool, text: string)
    requires Control(R, c)
    requires ReaderCan(c, ok)
    ensures Control(R, ReaderStep(R, c, ok, text))
  {
  }

  lemma ReaderKeepsDownstream(R: Rules, c: Conn, ok: bool, text: string)
    requires Control(R, c) && Downstream(R, c)
    requires ReaderCan(c, ok)
    ensures Downstream(R, ReaderStep(R, c, ok, text))
  {
  }

  lemma ReaderKeepsUpstream(R: Rules, c: Conn, ok: bool, text: string)
    requires Control(R, c) && Upstream(R, c)
    requires ReaderCan(c, ok)
    ensures Upstream(R, ReaderStep(R, c, ok, text))
  {
    if c.rd.ROp? { LastDecides(R.react, Tail(c.net.received), c.typed.ops, Do(c.rd.op)); }
  }

  lemma OutputTakeKeeps(R: Rules, c: Conn)
    requires Good(R, c)
    requires c.out.OReading? && c.term.ready != []
    ensures Good(R, OutputTake(R, c))
  {
  }

  lemma OutputEnqueueKeepsControl(R: Rules, c: Conn)
    requires Control(R, c)
    requires c.out.OCheck? || c.out.OPush?
    ensures Control(R, OutputEnqueue(R, c))
  {
    OutputMoves(R, c, OutputEnqueue(R, c).q, OutputEnqueue(R, c).seen, OutputEnqueue(R, c).out);
  }

  lemma OutputEnqueueKeepsDownstream(R: Rules, c: Conn)
    requires Control(R, c) && Downstream(R, c) && Faithful(R)
    requires c.out.OCheck? || c.out.OPush?
    ensures Downstream(R, OutputEnqueue(R, c))
  {
    if c.out.OPush? && |c.q.waiting| < c.depth {
      PushKeeps(R, c.h, c.q, c.depth, R.output(c.out.chunk.data));
      PushedOutput(R, c.q, c.term.output, c.out.chunk);
    }
  }

  lemma OutputEnqueueKeepsUpstream(R: Rules, c: Conn)
    requires Control(R, c) && Upstream(R, c)
    requires c.out.OCheck? || c.out.OPush?
    ensures Upstream(R, OutputEnqueue(R, c))
  {
  }

  lemma PingKeeps(R: Rules, c: Conn, outcome: PingOutcome)
    requires Good(R, c)
    requires c.ka.KPinging?
    ensures Good(R, PingStep(R, c, outcome))
  {
  }

  lemma FlushKeepsControl(R: Rules, c: Conn, ok: bool)
    requires Control(R, c)
    requires c.run.XSayError? || c.run.XSayClose?
    ensures Control(R, FlushStep(R, c, ok))
  {
  }

  lemma FlushKeepsDownstream(R: Rules, c: Conn, ok: bool)
    requires Control(R, c) && Downstream(R, c)
    requires c.run.XSayError? || c.run.XSayClose?
    ensures Downstream(R, FlushStep(R, c, ok))
  {
    hide UpToError, UpToClose, OutputOf, QueuedOf, DirectOf, StartOk, LifeOk, TeardownOk, HolderOk, ResultsOk;
    match c.run {
      case XSayError(r) =>
        SayDirectSnoc(c.net, r.clientErrorCode != "", ok, R.error(r.clientErrorCode, r.clientErrorText));
      case XSayClose(r) => SayDirectSnoc(c.net, r.clientCloseReason != "", ok, R.close(r.clientCloseReason));
      case _ =>
    }
  }

  lemma FlushKeepsUpstream(R: Rules, c: Conn, ok: bool)
    requires Control(R, c) && Upstream(R, c)
    requires c.run.XSayError? || c.run.XSayClose?
    ensures Upstream(R, FlushStep(R, c, ok))
  {
  }

  lemma PullKeepsControl(R: Rules, c: Conn)
    requires Control(R, c) && c.wr.WSelect? && c.q.waiting != []
    ensures Control(R, WriterPull(c))
  {
    hide LifeOk, ResultsOk;
  }

  lemma PullKeepsDownstream(R: Rules, c: Conn)
    requires Downstream(R, c) && c.wr.WSelect? && c.q.waiting != []
    ensures Downstream(R, WriterPull(c))
  {
    hide OutputOk, DirectOk, Greeted, QueuedOf;
  }

  lemma PullKeeps(R: Rules, c: Conn)
    requires Good(R, c)
    requires c.wr.WSelect? && c.q.waiting != []
    ensures Good(R, WriterPull(c))
  {
    hide Control, Downstream, InputOk, AuthOk;
    PullKeepsControl(R, c);
    PullKeepsDownstream(R, c);
  }

  lemma WriteKeepsControl(R: Rules, c: Conn, ok: bool)
    requires Control(R, c)
    requires c.wr.WWriting?
    ensures Control(R, WriterStep(c, ok))
  {
  }

  lemma WriteKeepsDownstream(R: Rules, c: Conn, ok: bool)
    requires Control(R, c) && Downstream(R, c)
    requires c.wr.WWriting?
    ensures Downstream(R, WriterStep(c, ok))
  {
    WireSnoc(c.net.wire, Queued(c.wr.frame));
  }

  lemma WriteKeepsUpstream(R: Rules, c: Conn, ok: bool)
    requires Control(R, c) && Upstream(R, c)
    requires c.wr.WWriting?
    ensures Upstream(R, WriterStep(c, ok))
  {
  }

  lemma EnterKeeps(R: Rules, c: Conn, who: Closer)
    requires Good(R, c)
    requires c.life.once.Fresh? && CallOf(R, c, who).Some? && (who.Sweeper? ==> c.desk.joined)
    ensures Good(R, EnterStep(R, c, who))
  {
  }

  lemma ReaderFailKeeps(R: Rules, c: Conn, e: ReadError)
    requires Good(R, c) && c.rd.RReading? && ReadCanFail(c.net, e)
    ensures Good(R, c.(rd := RPost(R.readError(e))))
  {
  }

  lemma OutputFailKeeps(R: Rules, c: Conn, seen: Seen, result: LoopResult)
    requires Good(R, c) && (c.out.OReading? || (c.out.OClosing? && c.life.once.Done?))
    ensures Good(R, c.(seen := seen, out := OPost(result)))
  {
  }

  lemma OutputSendKeeps(R: Rules, c: Conn)
    requires Good(R, c) && c.out.OPost?
    ensures Good(R, c.(results := c.results + [c.out.result], out := ODone))
  {
  }

  lemma WriterEndKeepsControl(R: Rules, c: Conn)
    requires Control(R, c) && (c.wr.WSelect? || (c.wr.WClosing? && c.life.once.Done?))
    ensures Control(R, c.(wr := WDone))
  {
  }

  lemma WriterEndKeeps(R: Rules, c: Conn)
    requires Good(R, c) && (c.wr.WSelect? || (c.wr.WClosing? && c.life.once.Done?))
    ensures Good(R, c.(wr := WDone))
  {
    WriterEndKeepsControl(R, c);
    assert WireOk(WDone, QueuedOf(c.net.wire), c.q.pulled);
  }

  lemma KeepaliveKeepsControl(R: Rules, c: Conn)
    requires Control(R, c) && c.ka.KSelect?
    ensures Control(R, c.(ka := KDone(false))) && Control(R, c.(tick := false, ka := KPinging))
  {
  }

  lemma KeepaliveKeeps(R: Rules, c: Conn)
    requires Good(R, c) && c.ka.KSelect?
    ensures Good(R, c.(ka := KDone(false))) && Good(R, c.(tick := false, ka := KPinging))
  {
    KeepaliveKeepsControl(R, c);
    DataFrame(R, c, c.(ka := KDone(false)));
    DataFrame(R, c, c.(tick := false, ka := KPinging));
  }

  lemma KeepaliveSendKeeps(R: Rules, c: Conn)
    requires Good(R, c) && c.ka.KPost?
    ensures Good(R, c.(results := c.results + [c.ka.result], ka := KDone(true)))
  {
    DataFrame(R, c, c.(results := c.results + [c.ka.result], ka := KDone(true)));
  }

  lemma ReceiveKeeps(R: Rules, c: Conn)
    requires Good(R, c) && c.run.XReceive? && c.results != []
    ensures Good(R, c.(results := c.results[1..], run := XSayError(c.results[0])))
  {
  }

  lemma RunEndKeeps(R: Rules, c: Conn, run: RunPc)
    requires Good(R, c)
    requires (c.run.XClosing? && c.life.once.Done? && run == XJoining) || (c.run.XJoining? && run == XDone)
    ensures Good(R, c.(run := run))
  {
    if c.run.XClosing? {
      var r := c.run.result;
      SaidIsUpToClose(R, r.clientErrorCode, r.clientErrorText, r.clientCloseReason, DirectOf(c.net.wire));
    }
  }

  lemma BodyLifeKeeps(life: Life, hook: bool, now: nat)
    requires LifeOk(life, hook) && life.once.Running?
    ensures var next := BodyLife(life, hook, now);
            && LifeOk(next, hook)
            && Rank(next.once) == Rank(life.once) + 1
            && !next.once.Fresh?
            && next.once.call == life.once.call
            && (next.once.Running? ==> next.once.holder == life.once.holder)
  {
  }

  lemma BodyWorldTeardown(c: Conn, next: Life)
    requires c.life.once.Running? && Rank(next.once) == Rank(c.life.once) + 1 && !next.once.Fresh?
    requires StartOk(c.h, c.term.state, c.desk, false)
    requires TeardownOk(Rank(c.life.once), c.h, c.net.hung, c.term.state, c.desk.entry)
    ensures var d := BodyWorld(c, next);
            && StartOk(d.h, d.term.state, d.desk, false)
            && TeardownOk(Rank(next.once), d.h, d.net.hung, d.term.state, d.desk.entry)
  {
  }

  lemma HolderFrame(R: Rules, c: Conn, d: Conn)
    requires HolderOk(R, c)
    requires (d.h == c.h || !c.h.HClosing? || c.life.once.Done?) && d.out == c.out && d.wr == c.wr && d.run == c.run
    requires d.life.once.Running? ==>
      c.life.once.Running? && d.life.once.holder == c.life.once.holder && d.life.once.call == c.life.once.call
    ensures HolderOk(R, d)
  {
  }

  /** A step of `close` moves no program counter. */
  lemma ControlFrame(R: Rules, c: Conn, d: Conn)
    requires Control(R, c) && HolderOk(R, d)
    requires d.h == c.h && d.rd == c.rd && d.wr == c.wr && d.out == c.out && d.ka == c.ka && d.run == c.run
    requires d.results == c.results && d.depth == c.depth && d.hook == c.hook
    requires !c.life.once.Fresh? && !d.life.once.Fresh? && LifeOk(d.life, d.hook) && JoinOk(d.run, d.life.once)
    requires StartOk(d.h, d.term.state, d.desk, false)
    requires TeardownOk(Rank(d.life.once), d.h, d.net.hung, d.term.state, d.desk.entry)
    ensures Control(R, d)
  {
  }

  lemma BodyWorldKeeps(R: Rules, c: Conn, next: Life)
    requires Control(R, c) && c.life.once.Running?
    requires LifeOk(next, c.hook) && Rank(next.once) == Rank(c.life.once) + 1
    requires !next.once.Fresh? && next.once.call == c.life.once.call
    requires next.once.Running? ==> next.once.holder == c.life.once.holder
    ensures Control(R, BodyWorld(c, next))
  {
    hide LifeOk, ResultsOk;
    var d := BodyWorld(c, next);
    BodyWorldTeardown(c, next);
    assert d.life == next && d.hook == c.hook;
    HolderFrame(R, c, d);
    ControlFrame(R, c, d);
  }

  predicate SameData(c: Conn, d: Conn) {
    && d.h == c.h && d.rd == c.rd && d.wr == c.wr && d.out == c.out && d.run == c.run
    && d.depth == c.depth && d.q == c.q && d.typed == c.typed && d.term.output == c.term.output
    && d.net.wire == c.net.wire && d.net.received == c.net.received && d.desk.grant == c.desk.grant
    && (c.term.state.NotOpen? ==> d.term.state.NotOpen?)
    && (c.net.hung ==> d.net.hung) && (c.net.fault.Some? ==> d.net.fault == c.net.fault)
  }

  lemma BodyWorldFrame(c: Conn, next: Life)
    requires c.life.once.Running? && !c.term.state.NotOpen?
    ensures SameData(c, BodyWorld(c, next))
  {
  }

  /** The data invariants do not look at `close`, at the registry entry or at the socket's state. */
  lemma DataFrame(R: Rules, c: Conn, d: Conn)
    requires Downstream(R, c) && Upstream(R, c)
    requires SameData(c, d)
    ensures Downstream(R, d) && Upstream(R, d)
  {
  }

  lemma RunningMeansOpened(R: Rules, c: Conn)
    requires Control(R, c) && !c.life.once.Fresh?
    ensures c.desk.joined && !c.term.state.NotOpen?
  {
  }

  lemma BodyKeeps(R: Rules, c: Conn, now: nat)
    requires Good(R, c) && c.life.once.Running?
    ensures Good(R, BodyWorld(c, BodyLife(c.life, c.hook, now)))
  {
    BodyLifeKeeps(c.life, c.hook, now);
    BodyWorldKeeps(R, c, BodyLife(c.life, c.hook, now));
    RunningMeansOpened(R, c);
    BodyWorldFrame(c, BodyLife(c.life, c.hook, now));
    DataFrame(R, c, BodyWorld(c, BodyLife(c.life, c.hook, now)));
  }

  predicate HandlerAct(a: Act) {
    a.Env? || a.HTake? || a.HTakeError? || a.HVerdict? || a.HGo? || a.HEnqueue? || a.HJoin? || a.HSay?
  }

  lemma HandlerActKeeps(R: Rules, c: Conn, a: Act, full: bool, now: nat)
    requires Good(R, c) && Faithful(R) && Can(R, c, a) && Found(c, a) && HandlerAct(a)
    ensures Good(R, Step(R, c, a, full, now))
  {
    hide Control, Downstream, Upstream, Faithful, EnvStep, HandlerTake, HandlerTakeError, HandlerVerdict, OpenStep,
      JoinStep, SayStep, HandlerEnqueue, ReaderTake, ReaderStep, WriterPull, WriterStep, OutputTake, OutputEnqueue,
      PingStep, FlushStep, BodyWorld, BodyLife;
    match a {
      case Env(e) => EnvKeeps(R, c, e);
      case HTake => HandlerTakeKeeps(R, c);
      case HTakeError(e) => HandlerTakeErrorKeeps(R, c, e);
      case HVerdict(v) =>
        HandlerVerdictKeepsControl(R, c, v);
        HandlerVerdictKeepsDownstream(R, c, v);
        HandlerVerdictKeepsUpstream(R, c, v);
      case HGo(ok, text) =>
        OpenKeepsControl(R, c, ok, text, full); OpenKeepsDownstream(R, c, ok, text, full);
        OpenKeepsUpstream(R, c, ok, text, full);
      case HEnqueue =>
        HandlerEnqueueKeepsControl(R, c); HandlerEnqueueKeepsDownstream(R, c); HandlerEnqueueKeepsUpstream(R, c);
      case HJoin(text) => JoinKeepsControl(R, c, text); JoinKeepsDownstream(R, c, text); JoinKeepsUpstream(R, c, text);
      case HSay(ok) => SayKeepsControl(R, c, ok); SayKeepsDownstream(R, c, ok); SayKeepsUpstream(R, c, ok);
    }
  }

  predicate LoopAct(a: Act) {
    || a.RTake? || a.RTakeError? || a.RGo?
    || a.WStop? || a.WPull? || a.WWrite? || a.WReturn?
    || a.OTake? || a.OTakeError? || a.OEnqueue? || a.OReturn? || a.OSend?
  }

  lemma LoopActKeeps(R: Rules, c: Conn, a: Act, full: bool, now: nat)
    requires Good(R, c) && Faithful(R) && Can(R, c, a) && Found(c, a) && LoopAct(a)
    ensures Good(R, Step(R, c, a, full, now))
  {
    hide Control, Downstream, Upstream, Faithful, EnvStep, HandlerTake, HandlerTakeError, HandlerVerdict, OpenStep,
      JoinStep, SayStep, HandlerEnqueue, ReaderTake, ReaderStep, WriterPull, WriterStep, OutputTake, OutputEnqueue,
      PingStep, FlushStep, BodyWorld, BodyLife;
    match a {
      case RTake => ReaderTakeKeepsControl(R, c); ReaderTakeKeepsDownstream(R, c); ReaderTakeKeepsUpstream(R, c);
      case RTakeError(e) => ReaderFailKeeps(R, c, e);
      case RGo(ok, text) =>
        ReaderKeepsControl(R, c, ok, text); ReaderKeepsDownstream(R, c, ok, text); ReaderKeepsUpstream(R, c, ok, text);
      case WStop => WriterEndKeeps(R, c);
      case WPull => PullKeeps(R, c);
      case WWrite(ok) => WriteKeepsControl(R, c, ok); WriteKeepsDownstream(R, c, ok); WriteKeepsUpstream(R, c, ok);
      case WReturn => WriterEndKeeps(R, c);
      case OTake => OutputTakeKeeps(R, c);
      case OTakeError(e) => OutputFailKeeps(R, c, c.seen.(consoleError := Some(e)), R.consoleError(e));
      case OEnqueue =>
        OutputEnqueueKeepsControl(R, c); OutputEnqueueKeepsDownstream(R, c); OutputEnqueueKeepsUpstream(R, c);
      case OReturn => OutputFailKeeps(R, c, c.seen, R.overflow);
      case OSend => OutputSendKeeps(R, c);
    }
  }

  predicate CloseAct(a: Act) {
    a.KStop? || a.KTake? || a.KPing? || a.KSend? || a.XTake? || a.XSay? || a.XReturn? || a.XJoin? || a.Enter? || a.Body?
  }

  lemma CloseActKeeps(R: Rules, c: Conn, a: Act, full: bool, now: nat)
    requires Good(R, c) && Faithful(R) && Can(R, c, a) && Found(c, a) && CloseAct(a)
    ensures Good(R, Step(R, c, a, full, now))
  {
    hide Control, Downstream, Upstream, Faithful, EnvStep, HandlerTake, HandlerTakeError, HandlerVerdict, OpenStep,
      JoinStep, SayStep, HandlerEnqueue, ReaderTake, ReaderStep, WriterPull, WriterStep, OutputTake, OutputEnqueue,
      PingStep, FlushStep, BodyWorld, BodyLife;
    match a {
      case KStop => KeepaliveKeeps(R, c);
      case KTake => KeepaliveKeeps(R, c);
      case KPing(outcome) => PingKeeps(R, c, outcome);
      case KSend => KeepaliveSendKeeps(R, c);
      case XTake => ReceiveKeeps(R, c);
      case XSay(ok) => FlushKeepsControl(R, c, ok); FlushKeepsDownstream(R, c, ok); FlushKeepsUpstream(R, c, ok);
      case XReturn => RunEndKeeps(R, c, XJoining);
      case XJoin => RunEndKeeps(R, c, XDone);
      case Enter(who) => EnterKeeps(R, c, who);
      case Body => BodyKeeps(R, c, now);
    }
  }

  /** Every step of every goroutine, and every event of the environment, keeps the invariant. */
  lemma StepKeeps(R: Rules, c: Conn, a: Act, full: bool, now: nat)
    requires Good(R, c) && Faithful(R) && Can(R, c, a) && Found(c, a)
    ensures Good(R, Step(R, c, a, full, now))
  {
    if HandlerAct(a) { HandlerActKeeps(R, c, a, full, now); }
    else if LoopAct(a) { LoopActKeeps(R, c, a, full, now); }
    else { CloseActKeeps(R, c, a, full, now); }
  }
}
