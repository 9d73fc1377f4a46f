/** Why sessions end: the end reasons, the `loopResult` constructors of internal/session/manager.go,
    and the pure specification of what `readLoop` makes of a browser's frames. */
module Results {
  import opened Prelude
  import opened Protocol
  import Utf8

  datatype EndReason =
    | ClientClose | BrowserDisconnect | ProtocolViolation | SlowClient | ServerShutdown | InternalError
    | ConsoleClosed | SSHError | AuthorizeTimeout | KeepaliveTimeout | SessionLimit

  function ReasonText(r: EndReason): string {
    match r
    case ClientClose => "client_close"
    case BrowserDisconnect => "browser_disconnect"
    case ProtocolViolation => "protocol_violation"
    case SlowClient => "slow_client"
    case ServerShutdown => "server_shutdown"
    case InternalError => "internal_error"
    case ConsoleClosed => "console_closed"
    case SSHError => "ssh_error"
    case AuthorizeTimeout => "authorize_timeout"
    case KeepaliveTimeout => "keepalive_timeout"
    case SessionLimit => "session_limit_reached"
  }

  // Close codes, RFC 6455 section 7.4.1 (1013 is "try again later" in the IANA registry).
  const NORMAL_CLOSURE := 1000
  const GOING_AWAY := 1001
  const ABNORMAL_CLOSURE := 1006
  const POLICY_VIOLATION := 1008
  const INTERNAL_SERVER_ERR := 1011
  const TRY_AGAIN_LATER := 1013

  /** The arguments of `Session.close`. */
  datatype CloseCall = CloseCall(reason: EndReason, code: int, text: string)

  datatype LoopResult = LoopResult(
    call: CloseCall, clientErrorCode: string, clientErrorText: string, clientCloseReason: string)

  function ProtocolViolationResult(code: string, message: string): LoopResult {
    LoopResult(CloseCall(ProtocolViolation, POLICY_VIOLATION, code), code, message, ReasonText(ProtocolViolation))
  }

  const UNEXPECTED_AUTHORIZE: LoopResult :=
    ProtocolViolationResult("unexpected_authorize", "authorize is only allowed before the session is active")

  function InternalErrorResult(code: string, message: string): LoopResult {
    LoopResult(CloseCall(InternalError, INTERNAL_SERVER_ERR, code), code, message, ReasonText(InternalError))
  }

  function SSHErrorResult(code: string, message: string): LoopResult {
    LoopResult(CloseCall(SSHError, INTERNAL_SERVER_ERR, code), code, message, ReasonText(SSHError))
  }

  function ConsoleClosedResult(): LoopResult {
    LoopResult(CloseCall(ConsoleClosed, NORMAL_CLOSURE, ReasonText(ConsoleClosed)), "", "", ReasonText(ConsoleClosed))
  }

  function BrowserDisconnectResult(): LoopResult {
    LoopResult(CloseCall(BrowserDisconnect, NORMAL_CLOSURE, ReasonText(BrowserDisconnect)), "", "", "")
  }

  function ServerShutdownResult(): LoopResult {
    LoopResult(CloseCall(ServerShutdown, GOING_AWAY, ReasonText(ServerShutdown)), "", "", ReasonText(ServerShutdown))
  }

  function ClientCloseResult(reason: string): LoopResult {
    LoopResult(CloseCall(ClientClose, NORMAL_CLOSURE, reason), "", "", reason)
  }

  function KeepaliveTimeoutResult(): LoopResult {
    LoopResult(CloseCall(KeepaliveTimeout, GOING_AWAY, ReasonText(KeepaliveTimeout)), "", "", "")
  }

  const SLOW_CLIENT_CALL: CloseCall := CloseCall(SlowClient, POLICY_VIOLATION, "outbound_queue_exhausted")

  /** What `outputLoop` returns when `Enqueue` fails. */
  function OverflowResult(): LoopResult {
    LoopResult(SLOW_CLIENT_CALL, "", "", "")
  }

  const WRITE_FAILED_CALL: CloseCall := CloseCall(BrowserDisconnect, ABNORMAL_CLOSURE, "write_failed")

  /** `CloseAll`'s call. */
  function SweepCall(reason: EndReason): CloseCall {
    CloseCall(reason, GOING_AWAY, ReasonText(reason))
  }

  // ---- the input path ----

  /** The kinds of error `Connection.ReadMessage` can return, as its callers tell them apart.
      `context.DeadlineExceeded` is itself a timeout in the sense of `net.Error`. */
  datatype ReadError = DeadlineExceeded | Canceled | NetTimeout | PeerClosed | ReadFailed

  /** `readLoop`'s answer to a read error. */
  function ReadErrorResult(e: ReadError): LoopResult {
    match e
    case Canceled => ServerShutdownResult()
    case DeadlineExceeded => KeepaliveTimeoutResult()
    case NetTimeout => KeepaliveTimeoutResult()
    case PeerClosed => BrowserDisconnectResult()
    case ReadFailed => InternalErrorResult("websocket_read_failed", "websocket read failed")
  }

  /** An operation on the console. */
  datatype ConsoleOp = Write(data: seq<byte>) | Resize(rows: int, columns: int)

  /** `readLoop`'s answer to a failed console operation. */
  function OpFailedResult(op: ConsoleOp, text: string): LoopResult {
    match op
    case Write(_) => SSHErrorResult("ssh_write_failed", "failed to write input to ssh session")
    case Resize(_, _) => SSHErrorResult("resize_failed", text)
  }

  /** What one frame asks of `readLoop`: nothing, one console operation, or to return. */
  datatype Reaction = Skip | Do(op: ConsoleOp) | Return(result: LoopResult)

  function React(frame: Frame): Reaction {
    match ParseClientMessage(frame)
    case Err(ProtocolError(code, message)) => Return(ProtocolViolationResult(code, message))
    case Err(OtherError(_)) => Return(InternalErrorResult("message_parsing_failed", "message parsing failed"))
    case Ok(m) =>
      match m.kind
      case TAuthorize => Return(UNEXPECTED_AUTHORIZE)
      case TInput => if Payload(m) == [] then Skip else Do(Write(Payload(m)))
      case TResize => Do(Resize(m.rows, m.columns))
      case TClose => Return(ClientCloseResult(if m.reason == "" then ReasonText(ClientClose) else m.reason))
      case _ => Return(ProtocolViolationResult("unsupported_message",
          "message type is not supported in the current plan"))
  }

  /** The fold the input path refines: console operations in frame order up to the first frame that ends
      the loop, and the result that frame gives; `react` says what each frame asks for. */
  datatype Trace = Trace(ops: seq<ConsoleOp>, end: Option<LoopResult>)

  function Fold(react: Frame -> Reaction, frames: seq<Frame>): Trace {
    if frames == [] then Trace([], None) else
    var before := Fold(react, frames[..|frames| - 1]);
    if before.end.Some? then before else
    match react(frames[|frames| - 1])
    case Skip => before
    case Do(op) => before.(ops := before.ops + [op])
    case Return(r) => before.(end := Some(r))
  }

  /** The fold went through all frames but the last one, with these operations, and that one asks for `reaction`. */
  predicate LastAsks(react: Frame -> Reaction, frames: seq<Frame>, ops: seq<ConsoleOp>, reaction: Reaction) {
    && frames != []
    && Fold(react, frames[..|frames| - 1]) == Trace(ops, None)
    && react(frames[|frames| - 1]) == reaction
  }

  /** What a finished `readLoop` owes, of the frames it took, the operations it completed and its result: the last
      frame ended the loop, or asked for an operation that failed, or after the last frame the socket failed, with
      the error it had met or because the gateway had closed it. */
  ghost predicate ReadLoopOutcome(react: Frame -> Reaction, frames: seq<Frame>, ops: seq<ConsoleOp>,
                                  result: LoopResult, hung: bool, fault: Option<ReadError>)
  {
    || LastAsks(react, frames, ops, Return(result))
    || (exists op, text :: LastAsks(react, frames, ops, Do(op)) && result == OpFailedResult(op, text))
    || (&& Fold(react, frames) == Trace(ops, None)
        && exists e :: (hung || fault == Some(e)) && result == ReadErrorResult(e))
  }

  /** Where the last frame leaves the fold. */
  lemma LastDecides(react: Frame -> Reaction, frames: seq<Frame>, ops: seq<ConsoleOp>, reaction: Reaction)
    requires LastAsks(react, frames, ops, reaction)
    ensures Fold(react, frames) ==
            match reaction
            case Skip => Trace(ops, None)
            case Do(op) => Trace(ops + [op], None)
            case Return(r) => Trace(ops, Some(r))
  {
  }

  lemma FoldSnoc(react: Frame -> Reaction, frames: seq<Frame>, f: Frame)
    requires Fold(react, frames).end.None?
    ensures Fold(react, frames + [f]) ==
            match react(f)
            case Skip => Fold(react, frames)
            case Do(op) => Trace(Fold(react, frames).ops + [op], None)
            case Return(r) => Trace(Fold(react, frames).ops, Some(r))
  {
    assert (frames + [f])[..|frames|] == frames;
  }

  /** The fold from the other end: the first frame's operation, then those of the rest. */
  lemma {:induction false} FoldCons(react: Frame -> Reaction, f: Frame, frames: seq<Frame>)
    requires !react(f).Return?
    ensures Fold(react, [f] + frames) ==
            var t := Fold(react, frames); t.(ops := (if react(f).Do? then [react(f).op] else []) + t.ops)
    decreases |frames|
  {
    if frames == [] {
      assert ([f] + frames)[..0] == [];
    } else {
      FoldCons(react, f, frames[..|frames| - 1]);
      assert ([f] + frames)[..|frames|] == [f] + frames[..|frames| - 1];
    }
  }

  /** Frames after the one that ended the loop are never looked at: the fold of any prefix is a prefix. */
  lemma {:induction false} FoldPrefix(react: Frame -> Reaction, frames: seq<Frame>, n: nat)
    requires n <= |frames|
    ensures Fold(react, frames[..n]).ops <= Fold(react, frames).ops
    ensures Fold(react, frames[..n]).end.Some? ==> Fold(react, frames) == Fold(react, frames[..n])
  {
    if n == |frames| {
      assert frames[..n] == frames;
    } else {
      var front := frames[..|frames| - 1];
      FoldPrefix(react, front, n);
      assert front[..n] == frames[..n];
    }
  }

  /** Every reaction is what the frame says: nothing for empty input, a write of its non-empty octets, a resize to its
      positive sizes, or an end for a client's close or a protocol violation; `readLoop`'s default branch and
      `message_parsing_failed` are never reached. */
  lemma ReactContract(frame: Frame)
    ensures match React(frame)
            case Skip => exists m :: Spells(frame, m) && m.kind.TInput? && Payload(m) == []
            case Do(Write(data)) => data != [] && exists m :: Spells(frame, m) && m.kind.TInput? && Payload(m) == data
            case Do(Resize(rows, columns)) =>
              && rows > 0 && columns > 0
              && exists m :: Spells(frame, m) && m.kind.TResize? && m.rows == rows && m.columns == columns
            case Return(r) => r.call.reason in {ProtocolViolation, ClientClose}
    ensures ParseClientMessage(frame).Ok? ==>
              ParseClientMessage(frame).value.kind in {TAuthorize, TInput, TResize, TClose}
  {
    hide Spells, ParseClientMessage, Payload;
    ParserContract(frame);
    if ParseClientMessage(frame).Ok? {
      ParserIsExact(frame, ParseClientMessage(frame).value);
    }
  }

  /** What a frame that says something gets: its octets are written, its size is set, or the loop ends. */
  lemma SpokenIsAnswered(frame: Frame, m: ClientMessage)
    requires Spells(frame, m)
    ensures m.kind.TInput? ==>
              var octets := if frame.Binary? then frame.data else Utf8.Encode(m.input);
              React(frame) == if octets == [] then Skip else Do(Write(octets))
    ensures m.kind.TResize? ==> React(frame) == Do(Resize(m.rows, m.columns))
    ensures m.kind.TClose? ==>
              var reason := if m.reason == "" then "client_close" else m.reason;
              React(frame) == Return(LoopResult(CloseCall(ClientClose, 1000, reason), "", "", reason))
    ensures m.kind.TAuthorize? ==>
              React(frame) == Return(LoopResult(
                                       CloseCall(ProtocolViolation, 1008, "unexpected_authorize"),
                                       "unexpected_authorize",
                                       "authorize is only allowed before the session is active", "protocol_violation"))
  {
    hide Spells, ParseClientMessage, Utf8.Encode;
    ParserIsExact(frame, m);
    if m.kind.TInput? { InputOfSpelled(frame, m); }
  }

  lemma InputOfSpelled(frame: Frame, m: ClientMessage)
    requires Spells(frame, m) && m.kind.TInput?
    ensures Payload(m) == if frame.Binary? then frame.data else Utf8.Encode(m.input)
  {
    assert Utf8.Encode("") == [];
  }

  /** A frame that says nothing ends the loop: the code and the text of the parser's error are what the browser gets. */
  lemma NonsenseIsRefused(frame: Frame)
    requires forall m :: !Spells(frame, m)
    ensures exists code, message ::
              && ParseClientMessage(frame) == Err(ProtocolError(code, message)) && code != ""
              && React(frame) == Return(LoopResult(
                                          CloseCall(ProtocolViolation, 1008, code), code, message,
                                          "protocol_violation"))
  {
    hide Spells, ParseClientMessage;
    ParserContract(frame);
    if ParseClientMessage(frame).Ok? {
      ParserIsExact(frame, ParseClientMessage(frame).value);
    }
  }

  // ---- what an end means ----

  /** The frames `flush` writes for a result, in order. */
  function FlushFrames(r: LoopResult): seq<Frame> {
    (if r.clientErrorCode != "" then [NewServerError(r.clientErrorCode, r.clientErrorText)] else [])
    + (if r.clientCloseReason != "" then [NewServerClose(r.clientCloseReason)] else [])
  }

  /** What a result amounts to: the recorded reason, the close code and its text, and what the browser hears. */
  datatype Report = Report(reason: EndReason, code: int, text: string, heard: seq<ServerEvent>)

  function ReportOf(r: LoopResult): Report {
    Report(r.call.reason, r.call.code, r.call.text, Heard(FlushFrames(r)))
  }

  lemma FlushIsHeard(r: LoopResult)
    ensures Heard(FlushFrames(r)) ==
            (if r.clientErrorCode != "" then [Failed(r.clientErrorCode, r.clientErrorText)] else [])
            + (if r.clientCloseReason != "" then [CloseNotice(r.clientCloseReason)] else [])
  {
    ServerFramesAreUnderstood(r.clientErrorCode, r.clientErrorText, r.clientCloseReason);
    hide Understand, NewServerError, NewServerClose;
  }

  /** What a read error ends a session as. */
  lemma ReadErrorReport(e: ReadError)
    ensures ReportOf(ReadErrorResult(e)) ==
            match e
            case Canceled => Report(ServerShutdown, 1001, "server_shutdown", [CloseNotice("server_shutdown")])
            case DeadlineExceeded => Report(KeepaliveTimeout, 1001, "keepalive_timeout", [])
            case NetTimeout => Report(KeepaliveTimeout, 1001, "keepalive_timeout", [])
            case PeerClosed => Report(BrowserDisconnect, 1000, "browser_disconnect", [])
            case ReadFailed =>
              Report(InternalError, 1011, "websocket_read_failed",
                     [Failed("websocket_read_failed", "websocket read failed"), CloseNotice("internal_error")])
  {
    FlushIsHeard(ReadErrorResult(e));
    hide FlushFrames;
  }

  /** What a failed operation on the console ends a session as. */
  lemma OpFailedReport(op: ConsoleOp, text: string)
    ensures ReportOf(OpFailedResult(op, text)) ==
            match op
            case Write(_) =>
              Report(SSHError, 1011, "ssh_write_failed",
                     [Failed("ssh_write_failed", "failed to write input to ssh session"), CloseNotice("ssh_error")])
            case Resize(_, _) =>
              Report(SSHError, 1011, "resize_failed", [Failed("resize_failed", text), CloseNotice("ssh_error")])
  {
    FlushIsHeard(OpFailedResult(op, text));
    hide FlushFrames;
  }

  /** When the queue overflows, the browser is told nothing but the close code. */
  lemma OverflowReport()
    ensures ReportOf(OverflowResult()) == Report(SlowClient, 1008, "outbound_queue_exhausted", [])
  {
    FlushIsHeard(OverflowResult());
    hide FlushFrames;
  }

  /** No two reasons have the same text. */
  lemma ReasonTextsDiffer(a: EndReason, b: EndReason)
    ensures ReasonText(a) == ReasonText(b) ==> a == b
  {
  }
}
