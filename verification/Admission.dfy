/** The decisions `handleBrowserSocket` takes before a session exists: internal/httpserver/server.go. */
module Admission {
  import opened Prelude
  import opened Protocol
  import opened Results

  /** The error kinds of `Validator.ValidateToken`. */
  datatype GrantError =
    | InvalidGrant(code: string, message: string)
    | BackendError(code: string, message: string)
    | TransportError(text: string)
    | OtherGrantError(text: string)

  /** The validator's answer; `Unconfigured` stands for a server without a validator. */
  datatype Verdict = Granted(address: string) | Denied(error: GrantError) | Unconfigured

  /** The arguments of `writeWebSocketFailure`. */
  datatype Failure = Failure(code: int, errorCode: string, message: string, reason: string)

  datatype ErrorPayload = ErrorPayload(status: int, code: string, message: string)

  function OrDefault(text: string, default: string): string {
    if TrimSpace(text) == "" then default else text
  }

  function ClassifyGrantError(e: GrantError): ErrorPayload {
    match e
    case InvalidGrant(code, message) => ErrorPayload(403, code, message)
    case BackendError(code, message) =>
      ErrorPayload(502, OrDefault(code, "backend_validation_failed"), OrDefault(message, "backend validation failed"))
    case TransportError(text) => ErrorPayload(502, "backend_unreachable", text)
    case OtherGrantError(text) => ErrorPayload(502, "grant_validation_failed", text)
  }

  /** `classifyGrantClose`. */
  function GrantClose(e: GrantError): (int, string) {
    if e.InvalidGrant? then (POLICY_VIOLATION, "authorization_failed")
    else (INTERNAL_SERVER_ERR, ReasonText(InternalError))
  }

  function GrantFailure(e: GrantError): Failure {
    Failure(GrantClose(e).0, ClassifyGrantError(e).code, ClassifyGrantError(e).message, GrantClose(e).1)
  }

  const NO_VALIDATOR: Failure :=
    Failure(INTERNAL_SERVER_ERR, "grant_validator_unavailable", "grant validation is not configured",
            ReasonText(InternalError))

  const LIMIT_REACHED: Failure :=
    Failure(TRY_AGAIN_LATER, "session_limit_reached", "gateway session capacity exhausted", ReasonText(SessionLimit))

  function BridgeFailure(text: string): Failure {
    Failure(INTERNAL_SERVER_ERR, "ssh_bridge_failed", text, "session_start_failed")
  }

  /** What the first frame leads to: a token to validate, or a refusal. A `close` is refused without an
      error frame. */
  datatype FirstStep = Admit(token: string) | Refuse(failure: Failure)

  function OnFirstFrame(frame: Frame): FirstStep {
    match ParseClientMessage(frame)
    case Err(ProtocolError(code, message)) =>
      Refuse(Failure(POLICY_VIOLATION, code, message, ReasonText(ProtocolViolation)))
    case Err(OtherError(_)) =>
      Refuse(Failure(INTERNAL_SERVER_ERR, "message_parsing_failed", "message parsing failed",
                     ReasonText(InternalError)))
    case Ok(m) =>
      match m.kind
      case TAuthorize => Admit(m.token)
      case TClose =>
        Refuse(Failure(NORMAL_CLOSURE, "", "", if m.reason == "" then ReasonText(ClientClose) else m.reason))
      case _ =>
        Refuse(Failure(POLICY_VIOLATION, "unexpected_first_message", "authorize must be the first client message",
                       ReasonText(ProtocolViolation)))
  }

  /** The answer to an error while waiting for the first frame; a peer that is gone gets no frames at all. */
  datatype FirstError = Say(failure: Failure) | HangUpOnly(failure: Failure)

  function OnFirstError(e: ReadError): FirstError {
    match e
    case DeadlineExceeded =>
      Say(Failure(POLICY_VIOLATION, "authorize_timeout", "authorization message not received before timeout",
                  ReasonText(AuthorizeTimeout)))
    case Canceled => HangUpOnly(Failure(NORMAL_CLOSURE, "", "", ReasonText(BrowserDisconnect)))
    case PeerClosed => HangUpOnly(Failure(NORMAL_CLOSURE, "", "", ReasonText(BrowserDisconnect)))
    case _ =>
      Say(Failure(INTERNAL_SERVER_ERR, "websocket_read_failed", "failed to read authorization message",
                  ReasonText(InternalError)))
  }

  /** The frames `writeWebSocketFailure` tries to write, in order. */
  function FailureFrames(f: Failure): seq<Frame> {
    (if f.errorCode != "" then [NewServerError(f.errorCode, f.message)] else [])
    + (if f.reason != "" then [NewServerClose(f.reason)] else [])
  }

  /** That is what a browser hears of a failure: the error it names, then the reason it closes with. */
  lemma FailureIsHeard(f: Failure)
    ensures Heard(FailureFrames(f)) ==
            (if f.errorCode != "" then [Failed(f.errorCode, f.message)] else [])
            + (if f.reason != "" then [CloseNotice(f.reason)] else [])
  {
    ServerFramesAreUnderstood(f.errorCode, f.message, f.reason);
    hide Understand, NewServerError, NewServerClose;
  }

  // ---- what a browser is told before it has a session ----

  /** What it hears, then the close code and its text. */
  datatype Answer = Answer(heard: seq<ServerEvent>, code: int, reason: string)

  function ErrorAnswer(code: int, errorCode: string, message: string, reason: string): Answer {
    Answer([Failed(errorCode, message), CloseNotice(reason)], code, reason)
  }

  /** When the first frame does not come. */
  function AnswerToSilence(e: ReadError): Answer {
    match e
    case DeadlineExceeded =>
      ErrorAnswer(1008, "authorize_timeout", "authorization message not received before timeout", "authorize_timeout")
    case NetTimeout =>
      ErrorAnswer(1011, "websocket_read_failed", "failed to read authorization message", "internal_error")
    case ReadFailed =>
      ErrorAnswer(1011, "websocket_read_failed", "failed to read authorization message", "internal_error")
    case PeerClosed => Answer([], 1000, "browser_disconnect")
    case Canceled => Answer([], 1000, "browser_disconnect")
  }

  /** When the first frame is not an `authorize`. */
  function AnswerToMessage(m: ClientMessage): Option<Answer> {
    match m.kind
    case TAuthorize => None
    case TClose =>
      var reason := if m.reason == "" then "client_close" else m.reason;
      Some(Answer([CloseNotice(reason)], 1000, reason))
    case _ =>
      Some(ErrorAnswer(1008, "unexpected_first_message", "authorize must be the first client message",
                       "protocol_violation"))
  }

  /** When the token is not accepted. A blank code or text from the backend is replaced; an empty code of a rejected
      grant is not, and then there is no error to hear. */
  function AnswerToVerdict(v: Verdict): Option<Answer> {
    match v
    case Granted(_) => None
    case Unconfigured =>
      Some(ErrorAnswer(1011, "grant_validator_unavailable", "grant validation is not configured", "internal_error"))
    case Denied(InvalidGrant(code, message)) =>
      Some(if code == "" then Answer([CloseNotice("authorization_failed")], 1008, "authorization_failed")
           else ErrorAnswer(1008, code, message, "authorization_failed"))
    case Denied(BackendError(code, message)) =>
      Some(ErrorAnswer(1011, if AllSpace(code) then "backend_validation_failed" else code,
                       if AllSpace(message) then "backend validation failed" else message, "internal_error"))
    case Denied(TransportError(text)) => Some(ErrorAnswer(1011, "backend_unreachable", text, "internal_error"))
    case Denied(OtherGrantError(text)) => Some(ErrorAnswer(1011, "grant_validation_failed", text, "internal_error"))
  }

  /** The failure says what the answer says. */
  predicate Says(f: Failure, a: Answer) {
    Heard(FailureFrames(f)) == a.heard && f.code == a.code && f.reason == a.reason
  }

  predicate SaysFirst(e: FirstError, a: Answer) {
    match e
    case Say(f) => Says(f, a)
    case HangUpOnly(f) => a == Answer([], f.code, f.reason)
  }

  /** A browser that does not send its first frame is told so, or, when it is gone, just hung up on. */
  lemma SilenceIsAnswered(e: ReadError)
    ensures SaysFirst(OnFirstError(e), AnswerToSilence(e))
    ensures OnFirstError(e).HangUpOnly? <==> e in {PeerClosed, Canceled}
  {
    FailureIsHeard(OnFirstError(e).failure);
    hide FailureFrames;
  }

  /** The first frame is admitted exactly when it is an `authorize`; any other message, and what is no message, gets
      its answer. */
  lemma FirstFrameIsAnswered(frame: Frame)
    ensures match ParseClientMessage(frame)
            case Ok(m) =>
              (match AnswerToMessage(m)
               case None => OnFirstFrame(frame) == Admit(m.token)
               case Some(a) => OnFirstFrame(frame).Refuse? && Says(OnFirstFrame(frame).failure, a))
            case Err(e) =>
              && e.ProtocolError? && OnFirstFrame(frame).Refuse?
              && Says(OnFirstFrame(frame).failure, ErrorAnswer(1008, e.code, e.message, "protocol_violation"))
  {
    ParserContract(frame);
    hide ParseClientMessage, FailureFrames;
    if OnFirstFrame(frame).Refuse? {
      FailureIsHeard(OnFirstFrame(frame).failure);
    }
  }

  lemma BlankIsReplaced(text: string, default: string)
    ensures OrDefault(text, default) == if AllSpace(text) then default else text
  {
    var _, _ := TrimSpaceShape(text);
  }

  lemma VerdictIsAnswered(v: Verdict)
    requires !v.Granted?
    ensures Says(if v.Denied? then GrantFailure(v.error) else NO_VALIDATOR, AnswerToVerdict(v).value)
  {
    var f := if v.Denied? then GrantFailure(v.error) else NO_VALIDATOR;
    FailureIsHeard(f);
    hide FailureFrames, OrDefault;
    if v.Denied? && v.error.BackendError? {
      BlankIsReplaced(v.error.code, "backend_validation_failed");
      BlankIsReplaced(v.error.message, "backend validation failed");
      assert AllSpace("");
    }
  }

  /** A token is admitted only from a well-formed `authorize` frame, and is non-empty and trimmed: the
      validator's own trimming leaves it as it is. */
  lemma AdmittedToken(frame: Frame)
    requires OnFirstFrame(frame).Admit?
    ensures var token := OnFirstFrame(frame).token;
            && token != "" && TrimSpace(token) == token
            && ParseClientMessage(frame).Ok? && ParseClientMessage(frame).value.kind.TAuthorize?
            && ParseClientMessage(frame).value.token == token
  {
    ParserContract(frame);
  }

  /** Every refusal names a close reason; it carries an error frame unless the client itself asked to
      close. */
  lemma RefusalShape(frame: Frame)
    requires OnFirstFrame(frame).Refuse?
    ensures var f := OnFirstFrame(frame).failure;
            && f.reason != ""
            && (f.errorCode == "" <==> ParseClientMessage(frame).Ok? && ParseClientMessage(frame).value.kind.TClose?)
            && (f.code == NORMAL_CLOSURE <==> f.errorCode == "")
  {
    ParserContract(frame);
  }

  /** A denied grant is answered without an error frame exactly when the backend rejected it with an empty
      code; every other denial names a code. */
  lemma DenialSpeaksUnlessCodeEmpty(e: GrantError)
    ensures |FailureFrames(GrantFailure(e))| == (if e.InvalidGrant? && e.code == "" then 1 else 2)
    ensures GrantFailure(e).code == POLICY_VIOLATION <==> e.InvalidGrant?
  {
    if e.BackendError? {
      var _, _ := TrimSpaceShape(e.code);
      assert OrDefault(e.code, "backend_validation_failed") != "";
    }
  }
}
