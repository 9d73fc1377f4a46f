/** `handleBrowserSocket` of internal/httpserver/server.go as a method over the objects of `Sequential`: one
    connection from its first frame to the start of its session. */
module Frontend {
  import opened Prelude
  import opened Protocol
  import opened Results
  import opened Admission
  import opened Sequential
  import M = Machine

  /** The frames a browser still takes, of those written to it in a row. */
  function Deliverable(browser: Browser, frames: seq<Frame>): seq<Frame>
    reads browser
  {
    if browser.hangUps != [] then [] else if |frames| <= browser.patience then frames else frames[..browser.patience]
  }

  method WriteWebSocketFailure(browser: Browser, f: Failure)
    modifies browser
    ensures browser.sent == old(browser.sent) + old(Deliverable(browser, FailureFrames(f)))
    ensures browser.hangUps == old(browser.hangUps) + [M.HangUp(f.code, f.reason)]
    ensures browser.taken == old(browser.taken)
    ensures old(browser.hangUps) == [] ==>
              forall a :: Says(f, a) ==> Told(browser, old(browser.sent), old(browser.patience), a)
  {
    hide NewServerError, NewServerClose, Heard;
    if f.errorCode != "" {
      var _ := browser.WriteMessage(NewServerError(f.errorCode, f.message));
    }
    if f.reason != "" {
      var _ := browser.WriteMessage(NewServerClose(f.reason));
    }
    browser.Close(f.code, f.reason);
  }

  /** The text of `Start`'s errors. */
  function StartErrorText(e: StartError): string {
    match e
    case NoBrowser => "browser connection is required"
    case NoBridge => "ssh bridge is required"
    case NoAddress => "validated grant is missing target ip"
    case LimitReached => "session limit reached"
    case BridgeFailed => "open ssh bridge"
    case KeepaliveFailed => "configure websocket keepalive"
    case QueueFull => "enqueue initial websocket message: outbound queue exhausted"
  }

  function StartFailure(e: StartError): Failure {
    if e.LimitReached? then LIMIT_REACHED else BridgeFailure(StartErrorText(e))
  }

  /** Where a connection ends up: refused before `Start` was called, refused by `Start`, or served. */
  datatype Outcome = Refused(answer: FirstError) | StartFailed(error: StartError) | Served(session: Session)

  /** What becomes of a connection before `Start`, from its first read and the validator's verdict; `None` is the
      way to `Start`. */
  function BeforeStart(first: Result<Frame, ReadError>, verdict: Verdict): Option<FirstError> {
    match first
    case Err(e) => Some(OnFirstError(e))
    case Ok(frame) =>
      match OnFirstFrame(frame)
      case Refuse(f) => Some(Say(f))
      case Admit(_) =>
        match verdict
        case Granted(_) => None
        case Denied(e) => Some(Say(GrantFailure(e)))
        case Unconfigured => Some(Say(NO_VALIDATOR))
  }

  function FirstRead(incoming: seq<Result<Frame, ReadError>>): Result<Frame, ReadError> {
    if incoming == [] then Err(PeerClosed) else incoming[0]
  }

  /** What the browser is to be told by then; the way to `Start` is silent. */
  function AnswerBeforeStart(first: Result<Frame, ReadError>, verdict: Verdict): Option<Answer> {
    match first
    case Err(e) => Some(AnswerToSilence(e))
    case Ok(frame) =>
      match ParseClientMessage(frame)
      case Ok(m) => if AnswerToMessage(m).Some? then AnswerToMessage(m) else AnswerToVerdict(verdict)
      case Err(ProtocolError(code, message)) => Some(ErrorAnswer(1008, code, message, "protocol_violation"))
      case Err(OtherError(_)) =>
        Some(ErrorAnswer(1011, "message_parsing_failed", "message parsing failed", "internal_error"))
  }

  /** What it is to be told when `Start` fails, but for an overflow, after which nothing can be told. */
  function AnswerToStart(e: StartError): Answer {
    if e.LimitReached? then
      ErrorAnswer(1013, "session_limit_reached", "gateway session capacity exhausted", "session_limit_reached")
    else if e.NoAddress? then
      ErrorAnswer(1011, "ssh_bridge_failed", "validated grant is missing target ip", "session_start_failed")
    else ErrorAnswer(1011, "ssh_bridge_failed", StartErrorText(e), "session_start_failed")
  }

  lemma BeforeStartIsAnswered(first: Result<Frame, ReadError>, verdict: Verdict)
    ensures BeforeStart(first, verdict).Some? <==> AnswerBeforeStart(first, verdict).Some?
    ensures BeforeStart(first, verdict).Some? ==>
              SaysFirst(BeforeStart(first, verdict).value, AnswerBeforeStart(first, verdict).value)
  {
    hide OnFirstFrame, OnFirstError, GrantFailure, ParseClientMessage, Says, ErrorAnswer, AnswerToSilence;
    match first {
      case Err(e) => SilenceIsAnswered(e);
      case Ok(frame) =>
        FirstFrameIsAnswered(frame);
        if !verdict.Granted? { VerdictIsAnswered(verdict); }
    }
  }

  lemma StartIsAnswered(e: StartError)
    ensures Says(StartFailure(e), AnswerToStart(e))
  {
    FailureIsHeard(StartFailure(e));
    hide FailureFrames;
  }

  /** The browser was told this, if it takes two frames, and in any case hung up on with it. */
  predicate Told(browser: Browser, before: seq<Frame>, patience: nat, a: Answer)
    reads browser
  {
    && before <= browser.sent && browser.hangUps == [M.HangUp(a.code, a.reason)]
    && (patience >= 2 ==> Heard(browser.sent[|before|..]) == a.heard)
  }

  /** The end of `handleBrowserSocket`: the call of `Start`, and the answer when it fails. */
  method StartSession(browser: Browser, registry: Registry, bridge: Bridge?, address: string, id: string, now: nat)
    returns (outcome: Outcome)
    requires registry.Valid() && id !in registry.sessions
    requires forall k :: k in registry.sessions ==> registry.sessions[k].browser != browser
    requires browser.hangUps == []
    modifies browser, registry`sessions, bridge
    ensures registry.Valid() && !outcome.Refused?
    ensures var check := StartCheck(true, bridge != null, address, 0 < registry.max <= |old(registry.sessions)|,
                                    bridge != null && bridge.willing, browser.keepaliveOk, registry.depth >= 1);
            && (outcome.Served? <==> check.None?)
            && (outcome.StartFailed? ==> Some(outcome.error) == check)
    ensures outcome.StartFailed? && !outcome.error.QueueFull? ==>
              && Told(browser, old(browser.sent), old(browser.patience), AnswerToStart(outcome.error))
              && browser.sent
                 == old(browser.sent) + old(Deliverable(browser, FailureFrames(StartFailure(outcome.error))))
              && browser.hangUps == [M.HangUp(StartFailure(outcome.error).code, StartFailure(outcome.error).reason)]
    ensures outcome.StartFailed? && outcome.error.QueueFull? ==>
              && browser.sent == old(browser.sent)
              && browser.hangUps == [M.HangUp(1008, "outbound_queue_exhausted"),
                                     M.HangUp(1011, "session_start_failed")]
    ensures outcome.StartFailed? ==> registry.sessions == old(registry.sessions)
    ensures outcome.StartFailed? && bridge != null ==>
              old(bridge.consoles) <= bridge.consoles
              && forall i :: |old(bridge.consoles)| <= i < |bridge.consoles| ==> !bridge.consoles[i].open
    ensures outcome.Served? ==>
              var s := outcome.session;
              && registry.sessions == old(registry.sessions)[id := s]
              && bridge != null && bridge.consoles == old(bridge.consoles) + [s.console] && s.console.open
              && s.browser == browser && s.outbound == [NewServerAuthorized()] && Heard(s.outbound) == [Authorized]
              && browser.sent == old(browser.sent) && browser.hangUps == []
  {
    hide FailureFrames, NewServerAuthorized, StartErrorText, Says, Heard, AnswerToStart, Told;
    var started := registry.Start(id, browser, bridge, address, [NewServerAuthorized()], false, now);
    if started.Err? {
      StartIsAnswered(started.error);
      WriteWebSocketFailure(browser, StartFailure(started.error));
      return StartFailed(started.error);
    }
    outcome := Served(started.value);
    GreetingIsHeard();
  }

  /** A connection is served exactly when its first frame is a well-formed `authorize`, its token is accepted and
      every check of `Start` passes. The bridge is not touched before the token is accepted. A refused connection
      gets the frames of its refusal, in order and as far as it takes them, and is hung up on; the registry is as
      before and no console is left open. */
  method HandleBrowserSocket(browser: Browser, registry: Registry, bridge: Bridge?, verdict: Verdict, id: string,
                             now: nat)
    returns (outcome: Outcome)
    requires registry.Valid() && id !in registry.sessions
    requires forall k :: k in registry.sessions ==> registry.sessions[k].browser != browser
    requires browser.hangUps == []
    modifies browser, registry`sessions, bridge
    ensures registry.Valid()
    ensures var before := BeforeStart(FirstRead(old(browser.incoming)), verdict);
            outcome.Refused? <==> before.Some? && (outcome.Refused? ==> outcome.answer == before.value)
    ensures outcome.Served? <==>
              && BeforeStart(FirstRead(old(browser.incoming)), verdict).None?
              && StartCheck(true, bridge != null, verdict.address,
                                                   0 < registry.max <= |old(registry.sessions)|,
                            bridge != null && bridge.willing,
                            browser.keepaliveOk, registry.depth >= 1).None?
    ensures outcome.StartFailed? ==>
              && verdict.Granted?
              && Some(outcome.error) == StartCheck(true, bridge != null, verdict.address,
                                                   0 < registry.max <= |old(registry.sessions)|,
                                                   bridge != null && bridge.willing, browser.keepaliveOk,
                                                   registry.depth >= 1)
    ensures var before := AnswerBeforeStart(FirstRead(old(browser.incoming)), verdict);
            && (outcome.Refused? <==> before.Some?)
            && (outcome.Refused? ==> Told(browser, old(browser.sent), old(browser.patience), before.value))
    ensures outcome.StartFailed? && !outcome.error.QueueFull? ==>
              Told(browser, old(browser.sent), old(browser.patience), AnswerToStart(outcome.error))
    ensures outcome.Refused? && bridge != null ==> bridge.consoles == old(bridge.consoles)
    ensures !outcome.Served? ==> registry.sessions == old(registry.sessions)
    ensures !outcome.Served? && bridge != null ==>
              old(bridge.consoles) <= bridge.consoles
              && forall i :: |old(bridge.consoles)| <= i < |bridge.consoles| ==> !bridge.consoles[i].open
    ensures match outcome
            case Refused(Say(f)) =>
              && browser.sent == old(browser.sent) + old(Deliverable(browser, FailureFrames(f)))
              && browser.hangUps == [M.HangUp(f.code, f.reason)]
            case Refused(HangUpOnly(f)) =>
              browser.sent == old(browser.sent) && browser.hangUps == [M.HangUp(f.code, f.reason)]
            case StartFailed(QueueFull) =>
              && browser.sent == old(browser.sent)
              && browser.hangUps == [M.HangUp(1008, "outbound_queue_exhausted"),
                                     M.HangUp(1011, "session_start_failed")]
            case StartFailed(e) =>
              && browser.sent == old(browser.sent) + old(Deliverable(browser, FailureFrames(StartFailure(e))))
              && browser.hangUps == [M.HangUp(StartFailure(e).code, StartFailure(e).reason)]
            case Served(s) =>
              && registry.sessions == old(registry.sessions)[id := s]
              && bridge != null && bridge.consoles == old(bridge.consoles) + [s.console] && s.console.open
              && s.browser == browser && s.outbound == [NewServerAuthorized()] && Heard(s.outbound) == [Authorized]
              && browser.sent == old(browser.sent) && browser.hangUps == []
  {
    hide OnFirstFrame, OnFirstError, GrantFailure, FailureFrames, NewServerAuthorized, StartErrorText, Says, Heard,
      AnswerBeforeStart, AnswerToStart, StartCheck, StartFailure, Fits;
    BeforeStartIsAnswered(FirstRead(browser.incoming), verdict);
    var first := browser.ReadMessage();
    if first.Err? {
      match OnFirstError(first.error) {
        case Say(f) =>
          WriteWebSocketFailure(browser, f);
        case HangUpOnly(f) =>
          browser.Close(f.code, f.reason);
          NothingIsHeard(browser.sent);
      }
      return Refused(OnFirstError(first.error));
    }
    match OnFirstFrame(first.value) {
      case Refuse(f) =>
        WriteWebSocketFailure(browser, f);
        return Refused(Say(f));
      case Admit(_) =>
    }
    match verdict {
      case Unconfigured =>
        WriteWebSocketFailure(browser, NO_VALIDATOR);
        return Refused(Say(NO_VALIDATOR));
      case Denied(e) =>
        WriteWebSocketFailure(browser, GrantFailure(e));
        return Refused(Say(GrantFailure(e)));
      case Granted(address) =>
        outcome := StartSession(browser, registry, bridge, address, id, now);
    }
  }

  lemma NothingIsHeard(sent: seq<Frame>)
    ensures Heard(sent[|sent|..]) == []
  {
  }

  lemma GreetingIsHeard()
    ensures Heard([NewServerAuthorized()]) == [Authorized]
  {
    ServerFramesAreUnderstood("", "", "");
    hide Understand;
  }
}
