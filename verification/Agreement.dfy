/** The concurrent machine and the sequential front end answer a browser alike, and the machine admits a session exactly
    when there is room. */
module Agreement {
  import opened Prelude
  import opened Protocol
  import opened Results
  import opened Admission
  import opened Machine
  import opened Invariants
  import opened Gateway
  import opened Safety
  import F = Frontend
  import S = Sequential

  /** These actions of one connection lead from `c` to `d`. */
  predicate Leads(R: Rules, c: Conn, acts: seq<Act>, d: Conn)
    decreases |acts|
  {
    if acts == [] then d == c
    else Can(R, c, acts[0]) && Leads(R, Step(R, c, acts[0], false, 0), acts[1..], d)
  }

  /** The browser has received these frames past the queue, after all else. */
  predicate Received(c: Conn, d: Conn, frames: seq<Frame>) {
    && |d.net.wire| == |c.net.wire| + |frames| && c.net.wire <= d.net.wire
    && forall i :: 0 <= i < |frames| ==> d.net.wire[|c.net.wire| + i] == Direct(frames[i])
  }

  /** The browser has received these frames past the queue, and been hung up on. */
  predicate Ended(c: Conn, d: Conn, frames: seq<Frame>, code: int, reason: string) {
    && d.h.HEnd? && d.net.hung
    && Received(c, d, frames)
    && d.desk.hangUps == c.desk.hangUps + [HangUp(code, reason)]
  }

  lemma LeadsThree(R: Rules, c: Conn, x: Act, y: Act, z: Act) returns (d: Conn)
    requires Can(R, c, x) && Can(R, Step(R, c, x, false, 0), y)
    requires Can(R, Step(R, Step(R, c, x, false, 0), y, false, 0), z)
    ensures d == Step(R, Step(R, Step(R, c, x, false, 0), y, false, 0), z, false, 0) && Leads(R, c, [x, y, z], d)
  {
    hide Machine.Step, Can;
    var c1 := Step(R, c, x, false, 0);
    var c2 := Step(R, c1, y, false, 0);
    d := Step(R, c2, z, false, 0);
    assert [x, y, z][1..] == [y, z] && [y, z][1..] == [z] && [z][1..] == [];
    assert Leads(R, d, [], d);
    assert Leads(R, c2, [z], d);
    assert Leads(R, c1, [y, z], d);
  }

  /** `writeWebSocketFailure` on an open socket, in the machine. */
  lemma FailureIsSaid(c: Conn, f: Failure) returns (d: Conn)
    requires c.h == HSayError(f) && !c.net.hung
    ensures Leads(GATEWAY, c, [HSay(true), HSay(true), HSay(true)], d)
    ensures Ended(c, d, FailureFrames(f), f.code, f.reason)
  {
    hide NewServerError, NewServerClose, BodyLife, BodyWorld, EnterStep, FlushStep, OpenStep, JoinStep, HandlerEnqueue,
      HandlerTake, HandlerVerdict, EnvStep, PingStep, ReaderTake, ReaderStep, OutputTake, OutputEnqueue, WriterPull,
      WriterStep;
    d := LeadsThree(GATEWAY, c, HSay(true), HSay(true), HSay(true));
    hide Leads;
  }

  /** `flush` on an open socket: the browser receives all of the result's frames, and `run` goes on to close with that
      result. */
  lemma ResultIsSaid(c: Conn, r: LoopResult) returns (d: Conn)
    requires c.run == XSayError(r) && !c.net.hung
    ensures Leads(GATEWAY, c, [XSay(true), XSay(true)], d)
    ensures d.run == XClosing(r) && Received(c, d, FlushFrames(r)) && Heard(FlushFrames(r)) == ReportOf(r).heard
  {
    hide NewServerError, NewServerClose, Heard;
    var c1 := FlushStep(GATEWAY, c, true);
    d := FlushStep(GATEWAY, c1, true);
    assert [XSay(true), XSay(true)][1..] == [XSay(true)] && [XSay(true)][1..] == [];
    assert Leads(GATEWAY, d, [], d);
    assert Leads(GATEWAY, c1, [XSay(true)], d);
  }

  /** What the handler does with its first read and the validator's verdict. */
  function AfterFirst(c: Conn, first: Result<Frame, ReadError>, v: Verdict): Conn
    requires c.h.HRead? && (first.Ok? ==> c.net.inbox != [] && first.value == c.net.inbox[0])
  {
    match first
    case Err(e) => HandlerTakeError(GATEWAY, c, e)
    case Ok(_) =>
      var d := HandlerTake(GATEWAY, c);
      if d.h.HValidate? then HandlerVerdict(GATEWAY, d, v) else d
  }

  /** It is on its way to `Start` exactly when the front end is, with the address of the grant; and otherwise about to
      say the front end's answer, or to hang up with it. */
  lemma MachineAnswers(c: Conn, first: Result<Frame, ReadError>, v: Verdict)
    requires c.h.HRead? && (first.Ok? ==> c.net.inbox != [] && first.value == c.net.inbox[0])
    ensures var d, answer := AfterFirst(c, first, v), F.AnswerBeforeStart(first, v);
            && d.net.wire == c.net.wire && d.net.hung == c.net.hung && d.desk.hangUps == c.desk.hangUps
            && (answer.None? ==> v.Granted? && d.h == HCapacity(v.address))
            && (answer.Some? ==>
                  || (d.h.HSayError? && Says(d.h.failure, answer.value))
                  || (d.h.HHangUp? && answer.value == Answer([], d.h.failure.code, d.h.failure.reason)))
  {
    F.BeforeStartIsAnswered(first, v);
    hide OnFirstFrame, OnFirstError, GrantFailure, F.AnswerBeforeStart, Says;
  }

  lemma HungUpOnly(c: Conn, f: Failure) returns (d: Conn)
    requires c.h == HHangUp(f)
    ensures Leads(GATEWAY, c, [HSay(true)], d) && Ended(c, d, [], f.code, f.reason)
  {
    d := SayStep(GATEWAY, c, true);
    assert [HSay(true)][1..] == [];
    assert Leads(GATEWAY, d, [], d);
  }

  lemma NoFrames()
    ensures Heard([]) == []
  {
  }

  /** A silent browser, and one whose first message or token is refused, hears in the machine what the front end says,
      past the queue and after nothing else, and is hung up on with it. */
  lemma RefusedBrowserIsTold(c: Conn, first: Result<Frame, ReadError>, v: Verdict)
    returns (acts: seq<Act>, d: Conn, frames: seq<Frame>)
    requires c.h.HRead? && (first.Ok? ==> c.net.inbox != [] && first.value == c.net.inbox[0])
    requires !c.net.hung && F.AnswerBeforeStart(first, v).Some?
    ensures Leads(GATEWAY, AfterFirst(c, first, v), acts, d) && AfterFirst(c, first, v).net.wire == c.net.wire
    ensures var a := F.AnswerBeforeStart(first, v).value;
            Heard(frames) == a.heard && Ended(AfterFirst(c, first, v), d, frames, a.code, a.reason)
  {
    MachineAnswers(c, first, v);
    hide F.AnswerBeforeStart, FailureFrames, AfterFirst, Ended, Leads, Heard;
    var e := AfterFirst(c, first, v);
    if e.h.HSayError? {
      acts, frames := [HSay(true), HSay(true), HSay(true)], FailureFrames(e.h.failure);
      d := FailureIsSaid(e, e.h.failure);
    } else {
      acts, frames := [HSay(true)], [];
      d := HungUpOnly(e, e.h.failure);
      NoFrames();
    }
  }

  /** `Start` opens a console exactly when there is an address and the registry has room, goes on exactly when the
      bridge has opened it and the keepalive is set, and enters the session exactly when there is still room; otherwise
      it says why. */
  lemma AdmittedIffRoom(g: State, id: nat, ok: bool, text: string)
    requires Reachable(GATEWAY, g) && Enabled(GATEWAY, g, At(id, HGo(ok, text)))
    ensures var c, d := g.conns[id], Apply(GATEWAY, g, At(id, HGo(ok, text))).conns[id];
            var room := |Sessions(g.conns)| < g.max;
            && (c.h.HCapacity? ==>
                  && (d.h.HOpen? <==> c.h.address != "" && room)
                  && (c.h.address == "" ==> d.h.HSayError? && Says(d.h.failure, F.AnswerToStart(S.NoAddress)))
                  && (c.h.address != "" && !room ==>
                        d.h.HSayError? && Says(d.h.failure, F.AnswerToStart(S.LimitReached))))
            && (c.h.HOpen? ==>
                  && (d.h.HConfigure? <==> ok)
                  && (!ok ==> d.h.HSayError? && Says(d.h.failure, BridgeAnswer(text))))
            && (c.h.HConfigure? ==>
                  && (d.h.HInsert? <==> ok)
                  && (!ok ==> d.h.HDrop? && Says(d.h.failure, BridgeAnswer(text))))
            && (c.h.HInsert? ==>
                  && (d.h.HStarted? <==> room) && (d.desk.entry <==> room)
                  && (!room ==> d.h.HDrop? && Says(d.h.failure, F.AnswerToStart(S.LimitReached))))
  {
    GatewayIsFaithful();
    ReachableIsGood(GATEWAY, g);
    F.StartIsAnswered(S.NoAddress);
    F.StartIsAnswered(S.LimitReached);
    BridgeIsAnswered(text);
    EntryIsNew(GATEWAY, g.conns[id]);
    OpenMeans(g, id, ok, text);
    hide Reachable, GoodState, F.AnswerToStart, BridgeAnswer, BridgeFailure, Says, Apply, Enabled;
  }

  function BridgeAnswer(text: string): Answer {
    ErrorAnswer(1011, "ssh_bridge_failed", text, "session_start_failed")
  }

  lemma BridgeIsAnswered(text: string)
    ensures Says(BridgeFailure(text), BridgeAnswer(text))
  {
    FailureIsHeard(BridgeFailure(text));
    hide FailureFrames;
  }

  lemma EntryIsNew(R: Rules, c: Conn)
    ensures Good(R, c) && c.h.HInsert? ==> !c.desk.entry
  {
  }

  lemma OpenMeans(g: State, id: nat, ok: bool, text: string)
    requires Enabled(GATEWAY, g, At(id, HGo(ok, text))) && g.max >= 1
    ensures var c, d := g.conns[id], Apply(GATEWAY, g, At(id, HGo(ok, text))).conns[id];
            && (c.h.HCapacity? ==>
                  d.h == if c.h.address == "" then HSayError(F.StartFailure(S.NoAddress))
                         else if |Sessions(g.conns)| >= g.max then HSayError(F.StartFailure(S.LimitReached)) else HOpen)
            && (c.h.HOpen? ==> d.h == if ok then HConfigure else HSayError(BridgeFailure(text)))
            && (c.h.HConfigure? ==> d.h == if ok then HInsert else HDrop(BridgeFailure(text)))
            && (c.h.HInsert? ==>
                  if |Sessions(g.conns)| >= g.max
                  then d.h == HDrop(F.StartFailure(S.LimitReached)) && d.desk == c.desk
                  else d.h == HStarted && d.desk.entry)
  {
  }
}
