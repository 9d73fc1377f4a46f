/** `Registry` and `Session` of internal/session/manager.go as objects, each method run to its end by one
    caller. What browser, console and bridge do is scripted. Interleavings are the subject of `Machine`. */
module Sequential {
  import opened Prelude
  import opened Protocol
  import opened Results
  import M = Machine

  /** A browser connection: `incoming` are its next reads; `patience` is how many more writes will succeed. */
  class Browser {
    const keepaliveOk: bool
    var incoming: seq<Result<Frame, ReadError>>
    var patience: nat
    var sent: seq<Frame>
    var hangUps: seq<M.HangUp>
    ghost var taken: seq<Frame>

    constructor (keepaliveOk: bool, incoming: seq<Result<Frame, ReadError>>, patience: nat)
      ensures this.keepaliveOk == keepaliveOk && this.incoming == incoming && this.patience == patience
      ensures sent == [] && hangUps == [] && taken == []
    {
      this.keepaliveOk, this.incoming, this.patience := keepaliveOk, incoming, patience;
      sent, hangUps, taken := [], [], [];
    }

    /** When the script is over, the peer is gone. */
    method ReadMessage() returns (r: Result<Frame, ReadError>)
      modifies this`incoming, this`taken
      ensures old(incoming) == [] ==> r == Err(PeerClosed) && incoming == []
      ensures old(incoming) != [] ==> r == old(incoming)[0] && incoming == old(incoming)[1..]
      ensures taken == old(taken) + (if r.Ok? then [r.value] else [])
    {
      if incoming == [] {
        return Err(PeerClosed);
      }
      r, incoming := incoming[0], incoming[1..];
      if r.Ok? {
        taken := taken + [r.value];
      }
    }

    predicate Accepts()
      reads this
    {
      hangUps == [] && patience > 0
    }

    method WriteMessage(f: Frame) returns (ok: bool)
      modifies this`sent, this`patience
      ensures ok == old(Accepts())
      ensures sent == old(sent) + (if ok then [f] else [])
      ensures patience == old(patience) - (if ok then 1 else 0)
    {
      ok := Accepts();
      if ok {
        sent, patience := sent + [f], patience - 1;
      }
    }

    method Close(code: int, reason: string)
      modifies this`hangUps
      ensures hangUps == old(hangUps) + [M.HangUp(code, reason)]
    {
      hangUps := hangUps + [M.HangUp(code, reason)];
    }
  }

  const CONSOLE_CLOSED := "console is closed"

  /** The outcome of a console's next operation. */
  function NextVerdict(verdicts: seq<Option<string>>, open: bool): Option<string> {
    if !open then Some(CONSOLE_CLOSED) else if verdicts == [] then None else verdicts[0]
  }

  /** What is left of the script after it. */
  function LaterVerdicts(verdicts: seq<Option<string>>, open: bool): seq<Option<string>> {
    if !open || verdicts == [] then verdicts else verdicts[1..]
  }

  /** A console: `verdicts` are the outcomes of its next operations, all of which succeed once the script is over. */
  class Terminal {
    var verdicts: seq<Option<string>>
    var ops: seq<ConsoleOp>
    var open: bool

    constructor (verdicts: seq<Option<string>>)
      ensures this.verdicts == verdicts && ops == [] && open
    {
      this.verdicts, ops, open := verdicts, [], true;
    }

    method Perform(op: ConsoleOp) returns (err: Option<string>)
      modifies this`verdicts, this`ops
      ensures ops == old(ops) + (if err.None? then [op] else [])
      ensures err == NextVerdict(old(verdicts), open) && verdicts == LaterVerdicts(old(verdicts), open)
    {
      err := None;
      if !open {
        err := Some(CONSOLE_CLOSED);
      } else if verdicts != [] {
        err, verdicts := verdicts[0], verdicts[1..];
      }
      if err.None? {
        ops := ops + [op];
      }
    }

    method Close()
      modifies this`open
      ensures !open
    {
      open := false;
    }
  }

  /** A bridge that opens a console, or refuses to. */
  class Bridge {
    const willing: bool
    var consoles: seq<Terminal>

    constructor (willing: bool)
      ensures this.willing == willing && consoles == []
    {
      this.willing, consoles := willing, [];
    }

    method Open(address: string) returns (c: Terminal?)
      modifies this
      ensures c != null <==> willing
      ensures c != null ==> fresh(c) && c.open && c.ops == [] && consoles == old(consoles) + [c]
      ensures c == null ==> consoles == old(consoles)
    {
      c := null;
      if willing {
        c := new Terminal([]);
        consoles := consoles + [c];
      }
    }
  }

  /** What `readLoop` makes of a script of reads and console verdicts: the frames it takes and the operations it
      completes, its result, and what it leaves of the script. */
  datatype Reading = Reading(taken: seq<Frame>, ops: seq<ConsoleOp>, result: LoopResult,
                             incoming: seq<Result<Frame, ReadError>>, verdicts: seq<Option<string>>)

  /** It stops at the first frame that ends it, at the first operation that fails, or at the first read error. */
  function ReadScript(incoming: seq<Result<Frame, ReadError>>, verdicts: seq<Option<string>>, open: bool): Reading
    decreases |incoming|
  {
    if incoming == [] then Reading([], [], ReadErrorResult(PeerClosed), [], verdicts)
    else if incoming[0].Err? then Reading([], [], ReadErrorResult(incoming[0].error), incoming[1..], verdicts)
    else
      var f := incoming[0].value;
      match React(f)
      case Return(r) => Reading([f], [], r, incoming[1..], verdicts)
      case Skip => Before([f], [], ReadScript(incoming[1..], verdicts, open))
      case Do(op) =>
        var err, later := NextVerdict(verdicts, open), LaterVerdicts(verdicts, open);
        if err.Some? then Reading([f], [], OpFailedResult(op, err.value), incoming[1..], later)
        else Before([f], [op], ReadScript(incoming[1..], later, open))
  }

  function Before(taken: seq<Frame>, ops: seq<ConsoleOp>, rest: Reading): Reading {
    rest.(taken := taken + rest.taken, ops := ops + rest.ops)
  }

  lemma NothingBefore(rest: Reading)
    ensures Before([], [], rest) == rest
  {
    assert [] + rest.taken == rest.taken && [] + rest.ops == rest.ops;
  }

  lemma LastBefore(taken: seq<Frame>, ops: seq<ConsoleOp>, rest: Reading)
    ensures var b := Before(taken, ops, rest);
            && b.taken == taken + rest.taken && b.ops == ops + rest.ops && b.result == rest.result
            && b.incoming == rest.incoming && b.verdicts == rest.verdicts
  {
  }

  lemma BeforeBefore(taken: seq<Frame>, ops: seq<ConsoleOp>, f: Frame, more: seq<ConsoleOp>, rest: Reading)
    ensures Before(taken, ops, Before([f], more, rest)) == Before(taken + [f], ops + more, rest)
  {
    assert taken + ([f] + rest.taken) == taken + [f] + rest.taken;
    assert ops + (more + rest.ops) == ops + more + rest.ops;
  }

  /** The error that ends the first frames of the script. */
  function ErrorAt(incoming: seq<Result<Frame, ReadError>>, n: nat): ReadError {
    if n < |incoming| && incoming[n].Err? then incoming[n].error else PeerClosed
  }

  lemma LastAsksCons(f: Frame, taken: seq<Frame>, ops: seq<ConsoleOp>, reaction: Reaction)
    requires LastAsks(React, taken, ops, reaction) && !React(f).Return?
    ensures LastAsks(React, [f] + taken, (if React(f).Do? then [React(f).op] else []) + ops, reaction)
  {
    hide React;
    FoldCons(React, f, taken[..|taken| - 1]);
    assert ([f] + taken)[..|taken|] == [f] + taken[..|taken| - 1];
  }

  lemma OutcomeCons(f: Frame, r: Reading, fault: Option<ReadError>)
    requires ReadLoopOutcome(React, r.taken, r.ops, r.result, false, fault) && !React(f).Return?
    ensures var b := Before([f], if React(f).Do? then [React(f).op] else [], r);
            ReadLoopOutcome(React, b.taken, b.ops, b.result, false, fault)
  {
    hide React, Fold;
    if LastAsks(React, r.taken, r.ops, Return(r.result)) {
      LastAsksCons(f, r.taken, r.ops, Return(r.result));
    } else if op, text :| LastAsks(React, r.taken, r.ops, Do(op)) && r.result == OpFailedResult(op, text) {
      LastAsksCons(f, r.taken, r.ops, Do(op));
    } else {
      FoldCons(React, f, r.taken);
    }
  }

  /** A reading by the fold: the frames taken are the first ones of the script, and the last of them ended the loop,
      or asked for an operation that failed, or the read after it failed. */
  lemma {:induction false} ReadScriptFollowsFold(incoming: seq<Result<Frame, ReadError>>, verdicts: seq<Option<string>>,
                                                 open: bool)
    ensures var r := ReadScript(incoming, verdicts, open);
            && |r.taken| <= |incoming| && (forall i :: 0 <= i < |r.taken| ==> incoming[i] == Ok(r.taken[i]))
            && ReadLoopOutcome(React, r.taken, r.ops, r.result, false, Some(ErrorAt(incoming, |r.taken|)))
    decreases |incoming|
  {
    hide React;
    if incoming != [] && incoming[0].Ok? {
      var f := incoming[0].value;
      assert [f][..0] == [];
      var later := if React(f).Do? then LaterVerdicts(verdicts, open) else verdicts;
      if !React(f).Return? && !(React(f).Do? && NextVerdict(verdicts, open).Some?) {
        ReadScriptFollowsFold(incoming[1..], later, open);
        var r := ReadScript(incoming[1..], later, open);
        OutcomeCons(f, r, Some(ErrorAt(incoming[1..], |r.taken|)));
        assert ErrorAt(incoming[1..], |r.taken|) == ErrorAt(incoming, |r.taken| + 1);
      }
    }
  }

  class Session {
    const id: string
    const browser: Browser
    const console: Terminal
    const manager: Registry
    const depth: nat
    const hook: bool
    var outbound: seq<Frame>
    var closed: bool
    var state: M.BrowserState
    var endReason: Option<EndReason>
    var endedAt: Option<nat>
    var ended: seq<CloseCall>
    var cleanups: nat

    constructor (id: string, browser: Browser, console: Terminal, manager: Registry, hook: bool)
      ensures this.id == id && this.browser == browser && this.console == console && this.manager == manager
      ensures this.hook == hook && depth == manager.depth && IsNew()
    {
      this.id, this.browser, this.console, this.manager, this.depth := id, browser, console, manager, manager.depth;
      this.hook := hook;
      outbound, closed, state, endReason, endedAt, ended, cleanups := [], false, M.Active, None, None, [], 0;
    }

    predicate IsNew()
      reads this
    {
      outbound == [] && !closed && state == M.Active && endReason.None? && endedAt.None? && ended == []
      && cleanups == 0
    }

    /** This session was live before, and has been ended by `call`. */
    twostate predicate EndedBy(call: CloseCall, now: nat)
      reads this, browser, console
    {
      EndedSince(call, now, old(ended), old(browser.hangUps), old(cleanups)) && outbound == old(outbound)
    }

    /** The same, against what `ended`, the browser's `hangUps` and `cleanups` were before. */
    predicate EndedSince(call: CloseCall, now: nat, endedBefore: seq<CloseCall>, hangUpsBefore: seq<M.HangUp>,
                         cleanupsBefore: nat)
      reads this, browser, console
    {
      && closed && state == M.Closed && endReason == Some(call.reason) && endedAt == Some(now)
      && ended == endedBefore + [call] && cleanups == cleanupsBefore + (if hook then 1 else 0)
      && browser.hangUps == hangUpsBefore + [M.HangUp(call.code, call.text)]
      && !console.open
    }

    /** Nothing that `close` works on has changed. */
    twostate predicate Untouched()
      reads this, browser, console
    {
      && closed == old(closed) && state == old(state) && endReason == old(endReason) && endedAt == old(endedAt)
      && ended == old(ended) && cleanups == old(cleanups)
      && browser.hangUps == old(browser.hangUps) && console.open == old(console.open)
    }

    /** Only the first call has an effect. */
    method Close(call: CloseCall, now: nat)
      modifies this`closed, this`state, this`endReason, this`endedAt, this`ended, this`cleanups
      modifies browser`hangUps, console`open, manager`sessions
      ensures old(closed) ==> Untouched() && manager.sessions == old(manager.sessions)
      ensures !old(closed) ==> EndedBy(call, now) && manager.sessions == old(manager.sessions) - {id}
    {
      if closed {
        return;
      }
      state, endedAt, endReason := M.Closing, Some(now), Some(call.reason);
      closed := true;
      browser.Close(call.code, call.text);
      console.Close();
      manager.sessions := manager.sessions - {id};
      state := M.Closed;
      ended := ended + [call];
      if hook {
        cleanups := cleanups + 1;
      }
    }

    /** Never waits: the frame is queued, or the session is closed as a slow client's. */
    method Enqueue(f: Frame, now: nat) returns (ok: bool)
      modifies this, browser`hangUps, console`open, manager`sessions
      ensures ok <==> !old(closed) && |old(outbound)| < depth
      ensures outbound == old(outbound) + (if ok then [f] else [])
      ensures ok || old(closed) ==> Untouched() && manager.sessions == old(manager.sessions)
      ensures !ok && !old(closed) ==>
                && EndedBy(CloseCall(SlowClient, 1008, "outbound_queue_exhausted"), now)
                && manager.sessions == old(manager.sessions) - {id}
    {
      if closed {
        return false;
      }
      if |outbound| < depth {
        outbound := outbound + [f];
        return true;
      }
      Close(SLOW_CLIENT_CALL, now);
      ok := false;
    }

    /** The loop of `Start` over the initial messages: they are queued in order while they fit; the first one that
        does not fit ends the session. */
    method EnqueueAll(messages: seq<Frame>, now: nat) returns (ok: bool)
      requires !closed && outbound == []
      modifies this, browser`hangUps, console`open, manager`sessions
      ensures ok <==> |messages| <= depth
      ensures ok ==> outbound == messages && Untouched() && manager.sessions == old(manager.sessions)
      ensures !ok ==>
                && closed && !console.open && manager.sessions == old(manager.sessions) - {id}
                && endReason == Some(SlowClient)
                && browser.hangUps == old(browser.hangUps) + [M.HangUp(1008, "outbound_queue_exhausted")]
    {
      for i := 0 to |messages|
        invariant i <= depth && outbound == messages[..i]
        invariant Untouched() && manager.sessions == old(manager.sessions)
      {
        ok := Enqueue(messages[i], now);
        if !ok {
          return;
        }
        assert messages[..i + 1] == messages[..i] + [messages[i]];
      }
      assert messages[..|messages|] == messages;
      ok := true;
    }

    /** Exactly what the script makes of it: see `ReadScriptFollowsFold`. */
    method ReadLoop() returns (result: LoopResult)
      modifies browser`incoming, browser`taken, console`verdicts, console`ops
      ensures var r := ReadScript(old(browser.incoming), old(console.verdicts), console.open);
              && result == r.result
              && browser.taken == old(browser.taken) + r.taken && browser.incoming == r.incoming
              && console.ops == old(console.ops) + r.ops && console.verdicts == r.verdicts
    {
      hide React, ReadErrorResult, OpFailedResult, Before;
      ghost var whole := ReadScript(browser.incoming, console.verdicts, console.open);
      ghost var took: seq<Frame>, did: seq<ConsoleOp> := [], [];
      assert Before([], [], whole) == whole by {
        NothingBefore(whole);
      }
      while true
        invariant browser.taken == old(browser.taken) + took && console.ops == old(console.ops) + did
        invariant whole == Before(took, did, ReadScript(browser.incoming, console.verdicts, console.open))
        decreases |browser.incoming|
      {
        ghost var rest := ReadScript(browser.incoming, console.verdicts, console.open);
        var message := browser.ReadMessage();
        if message.Err? {
          LastBefore(took, did, rest);
          return ReadErrorResult(message.error);
        }
        match React(message.value) {
          case Skip =>
            BeforeBefore(took, did, message.value, [], ReadScript(browser.incoming, console.verdicts, console.open));
            assert did + [] == did;
          case Return(r) =>
            LastBefore(took, did, rest);
            return r;
          case Do(op) =>
            var err := console.Perform(op);
            if err.Some? {
              LastBefore(took, did, rest);
              return OpFailedResult(op, err.value);
            }
            BeforeBefore(took, did, message.value, [op], ReadScript(browser.incoming, console.verdicts, console.open));
            did := did + [op];
        }
        took := took + [message.value];
      }
    }

    /** The queue is written out in order. On an open session that goes on until the queue is empty, where `writeLoop`
        waits; on a closed one, for as long as `select` prefers the queue to `closed`, which it may do `luck` times.
        A write that fails loses the frame in hand and closes the session, if nobody has. */
    method WriteLoop(now: nat, luck: nat)
      modifies this, browser`sent, browser`patience, browser`hangUps, console`open, manager`sessions
      ensures var turns := if old(closed) && luck < |old(outbound)| then luck else |old(outbound)|;
              var room := if old(browser.hangUps) == [] then old(browser.patience) else 0;
              var n := if turns <= room then turns else room;
              && browser.sent == old(browser.sent) + old(outbound)[..n] && browser.patience == old(browser.patience) - n
              && outbound == old(outbound)[if n < turns then n + 1 else n..]
              && (n == turns || old(closed) ==> Untouched() && manager.sessions == old(manager.sessions))
              && (n < turns && !old(closed) ==>
                    && EndedSince(CloseCall(BrowserDisconnect, 1006, "write_failed"), now, old(ended),
                                  old(browser.hangUps), old(cleanups))
                    && manager.sessions == old(manager.sessions) - {id})
    {
      ghost var queue := outbound;
      var n := 0;
      while outbound != [] && (!closed || n < luck)
        invariant n <= |queue| && outbound == queue[n..] && (closed ==> n <= luck || n == 0)
        invariant n <= if old(browser.hangUps) == [] then old(browser.patience) else 0
        invariant browser.sent == old(browser.sent) + queue[..n] && browser.patience == old(browser.patience) - n
        invariant Untouched() && manager.sessions == old(manager.sessions)
        decreases |outbound|
      {
        var message := outbound[0];
        outbound := outbound[1..];
        var ok := browser.WriteMessage(message);
        if !ok {
          Close(WRITE_FAILED_CALL, now);
          return;
        }
        n := n + 1;
        assert queue[..n] == queue[..n - 1] + [message];
      }
    }
  }

  datatype StartError = NoBrowser | NoBridge | NoAddress | LimitReached | BridgeFailed | KeepaliveFailed | QueueFull

  /** The first of `Start`'s checks that fails, in their order. */
  function StartCheck(hasBrowser: bool, hasBridge: bool, address: string, full: bool, willing: bool, keepaliveOk: bool,
                      fits: bool): Option<StartError> {
    if !hasBrowser then Some(NoBrowser)
    else if !hasBridge then Some(NoBridge)
    else if address == "" then Some(NoAddress)
    else if full then Some(LimitReached)
    else if !willing then Some(BridgeFailed)
    else if !keepaliveOk then Some(KeepaliveFailed)
    else if !fits then Some(QueueFull)
    else None
  }

  /** A limit of zero is none. */
  predicate Fits<T>(max: nat, m: map<string, T>) {
    max > 0 ==> |m| <= max
  }

  /** Below the limit a map takes one more, and taking it out again restores the map. */
  lemma Takes<T>(max: nat, m: map<string, T>, key: string, value: T)
    requires key !in m && (max > 0 ==> |m| < max)
    ensures Fits(max, m[key := value]) && m[key := value] - {key} == m
  {
    assert m[key := value].Keys == m.Keys + {key};
  }

  /** What a session held when a sweep began. */
  datatype Earlier = Earlier(outbound: seq<Frame>, ended: seq<CloseCall>, hangUps: seq<M.HangUp>, cleanups: nat)

  class Registry {
    const max: nat
    const depth: nat
    var sessions: map<string, Session>

    constructor (max: nat, depth: nat)
      ensures this.max == max && this.depth == depth && sessions == map[] && Valid()
    {
      this.max, this.depth, sessions := max, depth, map[];
    }

    /** The map respects the limit, and holds live sessions under their own ids, no two of which share a browser or a
        console. */
    ghost predicate Valid()
      reads this, sessions.Values
    {
      && Fits(max, sessions)
      && (forall id :: id in sessions ==>
            && sessions[id].id == id && sessions[id].manager == this
            && !sessions[id].closed && sessions[id].state == M.Active)
      && (forall a, b :: a in sessions && b in sessions && a != b ==>
            sessions[a].browser != sessions[b].browser && sessions[a].console != sessions[b].console)
    }

    predicate AtCapacity()
      reads this
    {
      max > 0 && |sessions| >= max
    }

    /** The last part of `Start`: the session enters the map and its initial messages are queued; if they do not
        fit, everything is taken back. */
    method Admit(session: Session, initial: seq<Frame>, now: nat) returns (ok: bool)
      requires Valid() && session.id !in sessions && (max > 0 ==> |sessions| < max)
      requires session.manager == this && session.depth == depth && session.IsNew() && session.console.open
      requires forall k :: k in sessions ==> sessions[k] != session
      requires forall k :: k in sessions ==>
                 sessions[k].browser != session.browser && sessions[k].console != session.console
      modifies this`sessions, session, session.browser`hangUps, session.console`open
      ensures Valid()
      ensures ok <==> |initial| <= depth
      ensures ok ==>
                && sessions == old(sessions)[session.id := session] && session.outbound == initial
                && session.console.open && session.browser.hangUps == old(session.browser.hangUps)
      ensures !ok ==>
                && sessions == old(sessions) && !session.console.open
                && session.browser.hangUps
                   == old(session.browser.hangUps) + [M.HangUp(1008, "outbound_queue_exhausted")]
    {
      hide Fits;
      Takes(max, sessions, session.id, session);
      sessions := sessions[session.id := session];
      ok := session.EnqueueAll(initial, now);
      if ok {
        assert sessions == old(sessions)[session.id := session];
      } else {
        session.console.Close();
        sessions := sessions - {session.id};
        assert sessions == old(sessions);
      }
    }

    /** All or nothing. It succeeds exactly when every check passes, there is room, the bridge opens, and the
        initial messages fit the queue; then the map gains one active session whose queue is exactly the initial
        messages. On every error the map is as before and a console the bridge opened is closed again. */
    method Start(id: string, browser: Browser?, bridge: Bridge?, address: string, initial: seq<Frame>, hook: bool,
                 now: nat)
      returns (r: Result<Session, StartError>)
      requires Valid() && id !in sessions
      requires browser != null ==> forall k :: k in sessions ==> sessions[k].browser != browser
      modifies this`sessions, browser, bridge
      ensures Valid()
      ensures r.Ok? <==>
                && browser != null && bridge != null && address != "" && !(0 < max <= |old(sessions)|)
                && bridge.willing && browser.keepaliveOk && |initial| <= depth
      ensures r.Err? ==> sessions == old(sessions)
      ensures r.Err? ==>
                Some(r.error) == StartCheck(browser != null, bridge != null, address, 0 < max <= |old(sessions)|,
                                            bridge != null && bridge.willing, browser != null && browser.keepaliveOk,
                                            |initial| <= depth)
      ensures r == Err(LimitReached) <==>
                browser != null && bridge != null && address != "" && 0 < max <= |old(sessions)|
      ensures r.Err? && bridge != null ==>
                old(bridge.consoles) <= bridge.consoles
                && forall i :: |old(bridge.consoles)| <= i < |bridge.consoles| ==> !bridge.consoles[i].open
      ensures browser != null ==>
                browser.incoming == old(browser.incoming) && browser.sent == old(browser.sent)
                && browser.patience == old(browser.patience) && browser.taken == old(browser.taken)
      ensures r.Err? && browser != null ==>
                browser.hangUps == old(browser.hangUps)
                  + (if r.error.QueueFull? then [M.HangUp(1008, "outbound_queue_exhausted")] else [])
      ensures r.Ok? ==>
                var s := r.value;
                && fresh(s) && sessions == old(sessions)[id := s]
                && s.browser == browser && bridge.consoles == old(bridge.consoles) + [s.console] && s.console.open
                && s.outbound == initial && s.hook == hook && browser.hangUps == old(browser.hangUps)
    {
      if browser == null {
        return Err(NoBrowser);
      }
      if bridge == null {
        return Err(NoBridge);
      }
      if address == "" {
        return Err(NoAddress);
      }
      if AtCapacity() {
        return Err(LimitReached);
      }
      var console := bridge.Open(address);
      if console == null {
        return Err(BridgeFailed);
      }
      var session := new Session(id, browser, console, this, hook);
      if !browser.keepaliveOk {
        console.Close();
        return Err(KeepaliveFailed);
      }
      // The second capacity check, under the lock, can only fail through another caller: see `Machine`.
      var ok := Admit(session, initial, now);
      if !ok {
        return Err(QueueFull);
      }
      r := Ok(session);
    }

    /** The sessions of a map are distinct objects, and share neither browser nor console. */
    ghost predicate Apart(snapshot: map<string, Session>) {
      forall a, b :: a in snapshot && b in snapshot && a != b ==>
        && snapshot[a] != snapshot[b]
        && snapshot[a].browser != snapshot[b].browser && snapshot[a].console != snapshot[b].console
    }

    /** How far `CloseAll` has got: the sessions in `pending` are live and in the map, those it has dealt with are
        ended, given what each session's queue, end records and hang-ups were at the start. */
    ghost predicate Sweeping(snapshot: map<string, Session>, pending: set<string>, call: CloseCall, now: nat,
                             before: map<string, Earlier>)
      reads this, snapshot.Values
      reads set id | id in snapshot :: snapshot[id].browser
      reads set id | id in snapshot :: snapshot[id].console
    {
      && pending <= snapshot.Keys == before.Keys && Apart(snapshot)
      && sessions.Keys == pending && (forall id :: id in pending ==> sessions[id] == snapshot[id])
      && (forall id :: id in snapshot ==>
            snapshot[id].id == id && snapshot[id].manager == this && snapshot[id].outbound == before[id].outbound)
      && (forall id :: id in pending ==>
            && !snapshot[id].closed && snapshot[id].ended == before[id].ended
            && snapshot[id].browser.hangUps == before[id].hangUps && snapshot[id].cleanups == before[id].cleanups)
      && (forall id :: id in snapshot && id !in pending ==>
            snapshot[id].EndedSince(call, now, before[id].ended, before[id].hangUps, before[id].cleanups))
    }

    /** One turn of `CloseAll`'s loop leaves the other sessions alone. */
    method CloseOne(ghost snapshot: map<string, Session>, session: Session, ghost id: string, call: CloseCall, now: nat)
      requires Apart(snapshot) && id in snapshot && snapshot[id] == session
      requires session.id == id && session.manager == this
      modifies this`sessions, session, session.browser`hangUps, session.console`open
      ensures !old(session.closed) ==> session.EndedBy(call, now) && sessions == old(sessions) - {id}
      ensures forall k :: k in snapshot && k != id ==>
                snapshot[k].Untouched() && snapshot[k].outbound == old(snapshot[k].outbound)
    {
      session.Close(call, now);
    }

    method CloseNext(ghost snapshot: map<string, Session>, ghost pending: set<string>, session: Session,
                     call: CloseCall, now: nat, ghost before: map<string, Earlier>)
      requires Sweeping(snapshot, pending, call, now, before)
      requires session.id in pending && snapshot[session.id] == session
      modifies this`sessions, session, session.browser`hangUps, session.console`open
      ensures Sweeping(snapshot, pending - {session.id}, call, now, before)
    {
      CloseOne(snapshot, session, session.id, call, now);
      forall k | k in snapshot && k !in pending
        ensures snapshot[k].EndedSince(call, now, before[k].ended, before[k].hangUps, before[k].cleanups)
      {
        assert snapshot[k].Untouched();
      }
      forall k | k in pending && k != session.id
        ensures && !snapshot[k].closed && snapshot[k].ended == before[k].ended
                && snapshot[k].browser.hangUps == before[k].hangUps && snapshot[k].cleanups == before[k].cleanups
      {
        assert snapshot[k].Untouched();
      }
    }

    /** Everything a sweep may touch. */
    ghost function Reach(): set<object>
      reads this
    {
      sessions.Values
      + (set id | id in sessions :: sessions[id].browser)
      + (set id | id in sessions :: sessions[id].console)
    }

    /** Every session of the snapshot ends with the given reason, whatever the order; the map is left empty. */
    method CloseAll(reason: EndReason, now: nat)
      requires Valid()
      modifies this`sessions, Reach()
      ensures Valid() && sessions == map[]
      ensures forall id :: id in old(sessions) ==>
                var s := old(sessions)[id];
                s.EndedSince(CloseCall(reason, 1001, ReasonText(reason)), now, old(s.ended), old(s.browser.hangUps),
                             old(s.cleanups))
                && s.outbound == old(s.outbound)
    {
      var snapshot, pending := sessions, sessions.Keys;
      ghost var before := map id | id in sessions ::
          Earlier(sessions[id].outbound, sessions[id].ended, sessions[id].browser.hangUps, sessions[id].cleanups);
      while pending != {}
        invariant Sweeping(snapshot, pending, SweepCall(reason), now, before)
        decreases pending
      {
        var id :| id in pending;
        CloseNext(snapshot, pending, snapshot[id], SweepCall(reason), now, before);
        pending := pending - {id};
      }
    }
  }
}
