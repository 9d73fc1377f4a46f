# The terminal session gateway, verified

The gateway lets a browser drive an SSH console over one WebSocket. A connection is authorized by its first frame,
then served by a session of five goroutines (`run`, `readLoop`, `writeLoop`, `outputLoop`, `keepaliveLoop`) that share a
bounded queue, a channel `results` of capacity three, a `close` that runs once, and a registry with a limit on the
number of sessions. This project models that system in Dafny and proves what it keeps in every interleaving, what its
objects do when run alone, and when its timers may fire.

## How the model is laid out

| file | subject |
|---|---|
| `Prelude.dfy`, `Utf8.dfy` | `strings.TrimSpace`; UTF-8 by RFC 3629 sections 3 and 4, with the replacement a JSON encoder makes |
| `Protocol.dfy` | client parsing and server frames; a browser's own reading of a server frame is the reference |
| `Results.dfy`, `Admission.dfy` | the decisions: how a loop ends, what one frame asks for, how a connection is refused |
| `Machine.dfy` | one connection as a concurrent machine, a step for each channel operation, lock region and statement of `close` |
| `Invariants.dfy`, `Growth.dfy` | what every step keeps; what no step undoes |
| `Gateway.dfy` | any number of connections and of `CloseAll` calls over one registry; runs and reachable states |
| `Safety.dfy`, `Teardown.dfy` | the theorems over reachable states and over runs |
| `Causes.dfy` | every end of a session traced to its cause |
| `Races.dfy` | runs that break orders one might expect, and exactly when each order does hold |
| `Keepalive.dfy` | ticker, pings, pongs and read deadline in discrete time |
| `Socket.dfy` | `GorillaConn` as an object: read deadline, pong handler, closed state; a connection from opening to end |
| `EndToEnd.dfy` | whole runs, from a client to its console and from the console to its browser |
| `Agreement.dfy` | the machine and the sequential front end answer alike |
| `Client.dfy` | from what a client types to what the console is asked for |
| `Sequential.dfy`, `Frontend.dfy`, `OutputPath.dfy` | `Registry`, `Session`, `handleBrowserSocket` and `outputLoop` as objects and methods, with arrays where the source has buffers |
| `Config.dfy` | merging, resolving and validating the configuration, up to the registry |

Three choices shape the machine. The registry's map is one bit per connection (`desk.entry`), and `Gateway.Sessions`
collects it, so that `Start`, `close` and `CloseAll` work on the same map. The decisions and fixed texts are a table of
functions (`Machine.Rules`): the invariants are proved for every table, and the theorems are stated for `Machine.GATEWAY`,
the table of this program. `sync.Once` is `Fresh`, `Running` or `Done`; a caller that finds it `Running` stays at its call
until it is `Done`.

The machine remembers what its loops have met (`Machine.Seen`): the queue that refused a frame, the frame that could not
be written, the console's error, the ping that failed. Nothing depends on it; it is the evidence of `Causes.dfy`.

`Start` looks at the limit twice, once before it opens the console and once under the lock. The machine has both
looks, with anything in between; the objects of `Sequential`, which run alone, can only fail the first.

## What is assumed of the environment

* Session ids are fresh: `newSessionID` draws them at random.
* Closing a console twice is the same as closing it once.
* Writes and pings to a browser return, and fail once the gateway has closed the socket.
* A socket closed by the gateway yields the finitely many frames it has buffered, then an error.
* The read of a closed console returns, with what was buffered or an error; other operations on it fail.
* The context of a session is never cancelled (`handleBrowserSocket` passes `context.Background()`).
* The ticker's channel holds at most one tick.
* Environment, configuration file, grant validator and SSH bridge answer anything their types allow. The validator, the
  bridge and the library's parsers are parameters.

## Where the code and the documentation differ

* `README.md` line 223 explains `authorize_timeout` as the authorization message not arriving in time. The code reports
  it only if the context's own timer has also run when the timed-out read returns, and otherwise reports
  `websocket_read_failed`; `Socket.SilentBrowserIsTold` gives the exact condition and `Socket.SilenceIsMisreported` an
  input.
* `README.md` lines 131 and 151 list a session inactivity timeout. The code has none: a session whose user is idle
  lives as long as its pings are answered (`Keepalive.KeepaliveIsSoundIffGenerous`).
* `README.md` lines 78 and 79 give 30 s and 75 s as defaults; `NewRegistry` applies each on its own, so that an
  interval of 80 s with no timeout gives a registry whose timeout is below its interval. `Config.RunnableIff` says when;
  configurations that `Validate` accepts never get there.

## Model

| member | source | states |
|---|---|---|
| `Safety.NoConsoleLeaks` | internal/session/manager.go:121-191 | In every reachable state an open console belongs to a `Start` in flight or to a session in the map; a session that has left the map has its console shut; one connection opens at most one console |
| `Safety.CapacityIsRespected` | internal/session/manager.go:112-169 | The map never exceeds the limit, and open consoles never exceed the limit plus the number of `Start` calls in flight |
| `Safety.CloseTakesEffectOnce` | internal/session/manager.go:415-448 | At most one browser close, one `session_ended` record and one cleanup per session; end reason, close code, close reason and record come from the one winning call; whoever sees `closed` closed finds end reason and time set |
| `Safety.EndIsFinal` | internal/session/manager.go:415-448 | Along any run the winning call, the end reason and the end time never change once set, and the state only moves from active to closing to closed |
| `Safety.FirstCallerDecides` | internal/session/manager.go:415-448 | Whoever enters `close` first determines reason, close frame and end record of the session in every later state of every run |
| `Safety.EndIsTimed` | internal/session/manager.go:416-423 | From the moment the first statement under `closeOnce` runs, that moment is the end time and the winning call's reason the end reason, in every later state |
| `Safety.ClosedAcceptsNoMore` | internal/session/manager.go:247-260 | Over any run from a state in which `closed` is closed, the queue accepts at most the one frame whose `Enqueue` had passed its check before |
| `Safety.SweptSessionsAreGone` | internal/session/manager.go:194-206 | A session `CloseAll` has dealt with is closed, its console is shut, its browser hung up, and it is out of the map, whatever the order and whoever closed it first |
| `Safety.OutputFidelity` | internal/session/manager.go:336-407 | Accepted frames are the pulled ones followed by those waiting; the octets the browser finds in all frames it received are a prefix of the octets read from the console |
| `Safety.DrainedOutputIsComplete` | internal/session/manager.go:336-407 | With `outputLoop` at its read, the queue empty and `writeLoop` waiting, the browser has all octets read from the console |
| `EndToEnd.NothingIsReordered` | internal/session/manager.go:276-407 | Over every run from an empty registry: the frames read are a prefix of those that arrived, the console's operations are a prefix of the fold over those that arrived, and the octets the browser heard are a prefix of those the console sent |
| `Safety.FrameOrder` | internal/session/manager.go:389-413 | Without the frames written past the queue, at most one error then at most one close, the browser received a prefix of the accepted frames: one `authorized`, then output only; until `close` is called or the handler hangs up, the frames past the queue say exactly what the result or failure says |
| `Safety.AuthorizationSafety` | internal/httpserver/server.go:154-216 | A console exists, and anything reaches it, only behind a first frame that is a well-formed `authorize` with a non-empty trimmed token that the validator accepted with an address; every console operation comes from a later frame, in frame order |
| `Safety.InputRefinesFold` | internal/session/manager.go:276-334 | When `readLoop` has returned in any interleaving, the fold went through all frames it took but the last with exactly its console operations, and the last one gave its result or asked for the operation that failed; or the fold went through all of them and the socket failed, hung up by the gateway or with the error it had met; what a frame asks for is `SpokenIsAnswered` |
| `Client.TypingReachesTheConsole` | internal/session/manager.go:306-323 | In every reachable state, of what a validated client has typed and sized and the reader has taken, all but at most the last has been asked of the console, in order; at the reader's next read all of it, and the octets written are the octets sent |
| `Causes.EndIsExplained` | internal/session/manager.go:247-448 | Every end has its event, by who entered `close` first, with code, text and what the browser is told: a frame met a queue filled to its depth; a frame could not be written; a call of `CloseAll` with that reason had the session in its snapshot; or `run` held the result of `readLoop` (its last frame, a failed operation, or an error the socket itself had met), of the console's end or error, or of a failed ping |
| `Causes.BlameIsDeserved` | internal/session/manager.go:297-332 | Unless `CloseAll` entered first, a recorded `protocol_violation` or `client_close` is the result of the last frame `readLoop` took; no frame before it ended the loop, and all their operations reached the console |
| `Safety.SecondAuthorizeIsRefused` | internal/session/manager.go:306-308 | In every reachable state, an admissible `authorize` after the first frame is the last frame the reader took; the console's operations are those of the frames before it; the reader returns, or has returned, the `unexpected_authorize` violation |
| `Safety.ProducersNeverBlock` | internal/session/manager.go:262-274 | `results` never holds more than three values, and there is room whenever one of the three producers wants to send |
| `Teardown.TeardownNeverBlocks` | internal/session/manager.go:262-274 | A doomed session (a loop has returned or `close` was called) that has not finished always has a program step to take that waits for nobody outside |
| `Teardown.ProgramLowers` | internal/session/manager.go:262-448 | Every step of the program, by any goroutine in any state, lowers a natural-number measure of the connection |
| `Teardown.EnvironmentRaises` | internal/session/manager.go:262-448 | An event of the environment raises the measure by a bounded amount, and not at all once browser and console are closed |
| `Teardown.StepsAreBounded` | internal/session/manager.go:262-448 | Over any run, the steps the program takes on a connection are bounded by its measure plus a constant for each arrival; after `close` has closed browser and console, by the measure alone |
| `Teardown.DoomedStays` | internal/session/manager.go:262-274 | No step of anyone makes a doomed session not doomed |
| `Teardown.TeardownCompletes` | internal/session/manager.go:262-448 | A doomed session of a reachable state has finished or has a step enabled; finished means handler and five goroutines returned, `close` run to its end, browser and console closed, session out of the map |
| `Teardown.DoomedSessionsCanFinish` | internal/session/manager.go:262-448 | From every reachable state, the threads of a doomed session alone bring it to its end, in at most as many steps as its measure |
| `Teardown.CloseAllNeverBlocks` | internal/session/manager.go:194-206 | A call of `CloseAll` that is not done has a step of its own, or the `close` it waits for has one |
| `Teardown.SweepStepsAreCounted` | internal/session/manager.go:194-206 | Over any run, the steps a call of `CloseAll` has taken and those still to take add up to two for each session left, and its snapshot never changes |
| `Teardown.CloseAllReturns` | internal/session/manager.go:194-206 | From every reachable state a call of `CloseAll` can return, in at most twelve steps for each session left and eleven for the one it is in, all its own or of the `close` it waits for; then every session of its snapshot has ended, with console shut and browser hung up, and is out of the map |
| `Teardown.ClosedTwiceIffStartFailedLate` | internal/session/manager.go:180-188 | A connection that is over had its browser closed twice if `Start` failed after the session entered the map, and once otherwise |
| `Races.BrowserIsClosedTwice` | internal/session/manager.go:180-188 | A reachable state in which that has happened |
| `Races.CloseFrameOvertakesTheQueue` | internal/session/manager.go:515-522 | A reachable state in which the browser received the close frame first and `authorized` after it |
| `Races.FirstDirectWriteDecides` | internal/session/manager.go:409-413 | The first write past the queue, by `flush` or by `writeWebSocketFailure`, decides: in every later state of every run the first frame is `authorized` exactly when the browser had received a frame before that write |
| `Races.CloseStaysLastIff` | internal/session/manager.go:270-274 | After `flush`, a close frame is still the last frame at any later time exactly when the run contains no successful write of `writeLoop` |
| `Races.NothingAfterHangUp` | internal/session/manager.go:415-426 | From the hang-up on, no run changes what the browser has received |
| `Races.HangUpSettlesTheWire` | internal/session/manager.go:425-425 | What is last on the wire when `close` hangs up is last in every later state |
| `Races.AnotherCloserWins` | internal/session/manager.go:270-272 | A reachable state in which the close frame says `client_close` and the recorded end reason is the server's shutdown |
| `Races.ClientReasonIsEchoed` | internal/session/manager.go:324-329 | A reachable state in which `run` itself won, the close frame repeats the client's own reason and `client_close` is recorded |
| `Races.CloseFrameAgreesIff` | internal/session/manager.go:270-272 | With `run` before its `close` and nobody in it yet: in every later state the recorded reason is the close frame's exactly when the reason of the call of whoever enters first is |
| `Races.EnteredAgreesIff` | internal/session/manager.go:270-272 | With `close` already entered, the same, for the call that has won |
| `Races.RunnerAgreesIff` | internal/session/manager.go:270-272 | With `run`'s own call, the two agree exactly unless that result is `readLoop`'s and the last frame was a `close` with a reason of the client's own |
| `Races.EndedBeforeStarted` | internal/session/manager.go:157-179 | A reachable state in which `session_ended` is recorded and `session_started` is not |
| `Races.EndedBeforeStartedIff` | internal/session/manager.go:157-179 | At the step that records `session_ended`, `session_started` is not recorded yet exactly when `Start` still stands between its locked region and that record; then the closer is a call of `CloseAll`, and the record can still follow |
| `Gateway.ReachableIsGood` | internal/session/manager.go:101-448 | The invariant of connections, registry and sweeps holds in every reachable state of every interleaving |
| `Gateway.RunGrows` | internal/session/manager.go:101-448 | Along any run histories only grow and the outcome of `close` is stable |
| `Agreement.AdmittedIffRoom` | internal/session/manager.go:108-169 | In every reachable state `Start` goes on to open a console exactly when there is an address and fewer sessions than the limit, goes on from there exactly when the bridge opens it and the keepalive is set, and enters the session exactly when there are still fewer; otherwise the failure says which |
| `Agreement.MachineAnswers` | internal/httpserver/server.go:154-207 | After the first read and the verdict the machine's handler is on its way to `Start`, with the grant's address, exactly when the front end is; otherwise it stands before the front end's answer |
| `Agreement.RefusedBrowserIsTold` | internal/httpserver/server.go:154-256 | From there, on an open socket, the browser receives frames that it hears as exactly that answer, and is hung up on with its code and reason |
| `Agreement.ResultIsSaid` | internal/session/manager.go:515-522 | `flush` on an open socket: the browser receives, past the queue, exactly the frames of the result, and `run` goes on to close with it |
| `Invariants.StepKeeps` | internal/session/manager.go:262-448 | Every step of handler, goroutines, closers and environment keeps the connection's invariant |
| `Invariants.BodyLifeKeeps` | internal/session/manager.go:416-447 | Each statement under `closeOnce` keeps the session's fields a function of how far the one winning call has got, and advances it by one |
| `Growth.OnlyStartEnters` | internal/session/manager.go:157-169 | A step that puts a session in the map is the locked region of `Start`, and the map had room |
| `Keepalive.KeepaliveIsSoundIffGenerous` | internal/session/manager.go:358-387 | No run ends in `keepalive_timeout`, however idle the user, exactly when start-up delay, interval and answering delays together stay below the timeout, or the timeout is zero; otherwise a run that times out is constructed |
| `Keepalive.OnlyPongsMoveTheDeadline` | internal/websocket/conn.go:133-144 | Without a pong the read deadline stays where it is whatever data arrives, and the read fails no earlier |
| `Socket.GorillaConn.RawReadMessage` | internal/websocket/conn.go:76-85 | The library's read loop, on an open and on a closed connection: a frame read is the one that arrived, with only pongs before it; an error is that of the event that ended the read; events consumed, read deadline left, and whether a close frame was answered are those of the recursive reference |
| `Socket.GorillaConn.ReadMessage` | internal/websocket/conn.go:62-95 | It returns a frame exactly when one ended the read, and that frame; a peer's close exactly for an expected close or end, an ordinary error for anything too large, odd or unexpected; with a context deadline the read is bounded by it and the read deadline is cleared after, without one the keepalive's bounds it and stays; a context that is already done reads nothing; on a closed connection no deadline can be set |
| `Socket.GorillaConn.ConfigureKeepalive` | internal/websocket/conn.go:133-144 | Sets the read deadline and the pong handler, or on a closed connection fails and changes nothing |
| `Socket.GorillaConn.Close` | internal/websocket/conn.go:146-159 | The connection ends closed; success is reported once at most, and exactly if the connection was open and a close frame has been sent, by this call or in answer to the peer's |
| `Socket.GorillaConn.WritePing` | internal/websocket/conn.go:119-131 | A ping succeeds only on an open connection; once a close frame has been sent it fails as if the peer had closed |
| `Socket.ClosedReadsEnd` | internal/websocket/conn.go:146-159 | Once the gateway has closed a connection, its reads yield no more frames than were buffered, then an error, which is never a timeout; no deadline moves |
| `Socket.OnlyPongsMoveIt` | internal/websocket/conn.go:133-144 | A read under keepalive leaves the deadline the timeout after its last pong, or unchanged; a timeout is at that deadline, with nothing seen before it |
| `Socket.UsedInTime` | internal/websocket/conn.go:133-144 | Every event such a read uses came before the deadline as the pongs before it had left it |
| `Socket.DeadlineFollowsPongs` | internal/websocket/conn.go:133-144 | After any number of reads since `ConfigureKeepalive` the deadline is set, and is the timeout after the last pong or after the configuration |
| `Socket.ReadOut` | internal/session/manager.go:276-294 | Reads one after another, up to the first error: the frames are the data frames among the events used, in order; error, events used and deadline left are those of the recursive reference |
| `Socket.Lifetime` | internal/websocket/conn.go:62-144 | A connection from its opening: the first frame and those after it are the ones that arrived; the authorization deadline is gone before the keepalive deadline is set, and from then on there is always one, the timeout after the last pong or the configuration; without a first frame none is left |
| `Socket.TimesOutIffSilent` | internal/websocket/conn.go:69-85 | Before authorization a read times out exactly when nothing but pongs arrives before the deadline |
| `Socket.AuthorizeTimeoutIff` | internal/websocket/conn.go:76-85 | An elapsed authorization deadline is reported as such exactly when, besides the silence, the context's timer has run by the time the read returns; otherwise it is an ordinary timeout |
| `Socket.SilentBrowserIsTold` | internal/httpserver/server.go:154-168 | A browser hears the error `authorize_timeout`, then that close reason, exactly under that condition; when it was silent but the timer had not run, it hears `websocket_read_failed` and `internal_error` |
| `Socket.SilenceIsMisreported` | internal/httpserver/server.go:154-168 | An input for the latter: nothing sent at all, and a timer two ticks late |
| `Sequential.Registry.Start` | internal/session/manager.go:101-192 | All or nothing: success exactly when browser, bridge and address are given, the map holds fewer sessions than the limit, the bridge opens, the keepalive is set and the initial messages fit; the map then gains one active session whose queue is those messages, and never exceeds the limit; on every error, named as the first check that fails, the map is as before and every console opened is closed; the limit is the error exactly when it is reached and the checks before it pass |
| `Sequential.Registry.Admit` | internal/session/manager.go:168-188 | The session is in the map with its initial messages queued in order exactly if they fit; otherwise the map is as before, the console closed and the browser hung up as a slow client |
| `Sequential.Registry.CloseAll` | internal/session/manager.go:194-206 | Every session of the map ends with the given reason, exactly once, in any order; the map is left empty and the queues untouched |
| `Sequential.Session.Close` | internal/session/manager.go:415-448 | The first call ends the session completely, with its record and its cleanup hook, and removes it from the map; any later call changes nothing |
| `Sequential.Session.Enqueue` | internal/session/manager.go:247-260 | Queued exactly when open and not full; on a full queue the session ends as a slow client; on a closed one nothing changes |
| `Sequential.Session.EnqueueAll` | internal/session/manager.go:180-188 | Succeeds exactly when the messages fit the depth, and then the queue is exactly the messages in order |
| `Sequential.Session.ReadLoop` | internal/session/manager.go:276-334 | For every script of frames, read errors and console verdicts: the frames taken, the operations completed, the result and what is left of the script are exactly those of the recursive reading, which does with a frame what `SpokenIsAnswered` says |
| `Client.Serve` | internal/session/manager.go:306-323 | On a script of typed texts, octets and sizes and an open console that accepts: exactly these are asked of the console, in order, nothing for empty input; the octets written are the octets sent |
| `Client.SpeechIsHeard` | internal/session/manager.go:309-323 | From a text, octets or a size to the frame that spells it to the operation it causes |
| `Sequential.ReadScriptFollowsFold` | internal/session/manager.go:276-334 | That reading takes the first frames of the script, and the fold explains it: the last frame ended the loop, or asked for the operation that failed, or the next read brought the error |
| `Sequential.Session.WriteLoop` | internal/session/manager.go:389-407 | The queue is written in order: all of it on an open session, on a closed one as long as `select` prefers the queue; at the first failed write one frame is lost and the session ends, unless it had ended before |
| `Frontend.HandleBrowserSocket` | internal/httpserver/server.go:150-234 | Served exactly when the first frame is a well-formed `authorize`, its token is accepted and `Start` succeeds, with `authorized` alone in the queue; otherwise the browser hears exactly the error and the close reason that silence, its message, the verdict or the first failing check of `Start` calls for, and is hung up on with the code for it; the registry is as before and no console is left open; the bridge is not touched before the token is accepted |
| `Frontend.StartSession` | internal/httpserver/server.go:209-230 | The part from `Start` on: served, or told which check failed, with the limit of sessions told apart |
| `Frontend.WriteWebSocketFailure` | internal/httpserver/server.go:248-256 | The browser gets the non-empty ones of error and close frame, in order and as far as it takes them, and is hung up on once |
| `OutputPath.OutputLoop` | internal/session/manager.go:336-356 | However often the one buffer is overwritten: if what the reads bring fits the queue, exactly that is queued, and the loop ends at the first error or the end: the console's end is `console_closed` with 1000 and no error, an error is `ssh_read_failed` with 1011 and its text; otherwise exactly the first pieces are queued, as many as fit, the next one is lost, the rest is unread, and the end is `slow_client` with 1008 |
| `OutputPath.ReadsDeliver` | internal/session/manager.go:337-345 | Wherever the reads cut the stream, they bring all octets of the chunks up to the first error, in order, in pieces of 1 to 4096 octets, then that error, or the end if there is none |
| `OutputPath.ReadsAreGreedy` | internal/session/manager.go:337-339 | A read brings a chunk whole if it has up to 4096 octets, and else its first 4096 |
| `OutputPath.Turn` | internal/session/manager.go:338-346 | One read and one enqueue: what was read is queued as it was, if there was room for it, and every queued frame is as before |
| `OutputPath.NewServerOutput` | internal/websocket/protocol.go:137-143 | The frame's payload is a fresh copy of the octets, as text exactly when they are valid UTF-8 |
| `Protocol.OutputIsLossless` | internal/websocket/protocol.go:137-143 | A browser recovers exactly the octets sent, for every octet sequence; text is chosen exactly when a text frame would not alter them |
| `Utf8.TextIsLosslessIffValid` | internal/websocket/protocol.go:137-143 | Replacing what is no valid sequence is the identity exactly on valid UTF-8 |
| `Utf8.EncodedIsValid` | internal/websocket/protocol.go:137-143 | Every encoded text is valid and decodes to itself |
| `Protocol.ServerFramesAreUnderstood` | internal/websocket/protocol.go:132-153 | Authorized, error and close frames tell a browser what they were built from, an omitted empty reason included |
| `Protocol.ParserContract` | internal/websocket/protocol.go:79-130 | Every frame gives a protocol error with a code, or an authorize with a non-empty trimmed token, an input, a resize with both sizes positive, or a close with a trimmed reason |
| `Protocol.ParserIsExact` | internal/websocket/protocol.go:79-130 | The parser accepts exactly the frames that spell a message, and reads what they spell: which member is which field, no unknown member, missing and null members empty, blanks around type, token and reason not counting |
| `Protocol.RejectionIsNamed` | internal/websocket/protocol.go:84-129 | The code of each refusal, from the type the frame names |
| `Protocol.InputFormsAgree` | internal/websocket/protocol.go:79-105 | Text input and binary input of the same octets have the same payload |
| `Protocol.ServerFramesAreNotClientMessages` | internal/websocket/protocol.go:121-126 | Authorized, error and text output frames sent back by a client are refused |
| `Results.SpokenIsAnswered` | internal/session/manager.go:306-332 | A frame that says something gets what it says: its octets are written unless there are none, its sizes are set in that order, a close ends the session with its reason and 1000, an `authorize` as a violation with 1008, each with what the browser is told |
| `Results.NonsenseIsRefused` | internal/session/manager.go:297-304 | A frame that says nothing ends the session with the parser's code and text |
| `Results.ReactContract` | internal/session/manager.go:297-332 | Conversely, `Skip` is for empty input, a write for input of those non-empty octets, a resize for those positive sizes; the default branch and `message_parsing_failed` are never reached |
| `Results.ReadErrorReport` | internal/session/manager.go:278-294 | For each read error the recorded reason, the close code and text, and what the browser hears |
| `Results.OpFailedReport` | internal/session/manager.go:317-323 | The same for a failed write and a failed resize |
| `Machine.ConsoleErrorReport` | internal/session/manager.go:346-354 | The same for the console's end and its errors |
| `Results.FoldPrefix` | internal/session/manager.go:276-334 | Operations of a prefix of the frames are a prefix of the operations, and nothing after the frame that ends the loop matters |
| `Admission.AdmittedToken` | internal/httpserver/server.go:170-201 | Only a well-formed `authorize` is admitted, with a token that is non-empty and trimmed |
| `Admission.RefusalShape` | internal/httpserver/server.go:170-194 | Every refused first frame is answered by a close reason; the error frame is missing, and the closure normal, exactly when the client asked to close |
| `Admission.DenialSpeaksUnlessCodeEmpty` | internal/httpserver/server.go:126-148 | A denied grant is answered without an error frame exactly when the backend rejected it with an empty code; it is a policy violation exactly when the grant was invalid |
| `Admission.SilenceIsAnswered` | internal/httpserver/server.go:155-168 | Without a first frame the browser hears `authorize_timeout` or `websocket_read_failed` and the reason for each, or, when it is gone, nothing; with code and reason of the hang-up |
| `Admission.FirstFrameIsAnswered` | internal/httpserver/server.go:170-194 | An `authorize` is admitted with its token; a client's close is answered by its own reason, any other message by `unexpected_first_message`, and what is no message by the parser's code and text |
| `Admission.VerdictIsAnswered` | internal/httpserver/server.go:126-147 | What a browser hears for each way a token can fail, blank codes and texts of the backend replaced, and the code and reason of the hang-up |
| `Config.LoadFile` | internal/config/config.go:369-399 | Fails at the first malformed line, and otherwise holds exactly the variables the lines assign, each with the value of its last assignment |
| `Config.LineMeans` | internal/config/config.go:379-389 | A line is blank or a comment, or assigns around its first equals sign, or is malformed |
| `Config.QuotesMean` | internal/config/config.go:401-412 | One pair of like quotes is taken off a value, and nothing else |
| `Config.LastValueIsLast` | internal/config/config.go:376-392 | The value the reference gives a variable is that of its last assignment, and absent exactly if no line assigns it |
| `Config.MergeEnvironment` | internal/config/config.go:341-364 | A listed variable set in the environment overrides the file; nothing else changes |
| `Config.LoadVars` | internal/config/config.go:326-367 | Fails exactly when a named file cannot be opened or has a malformed line; otherwise environment over file, last assignment winning |
| `Config.Resolve` | internal/config/config.go:112-246 | Accepts exactly the one configuration the variables spell if it is valid: each field is its variable's default when that is blank and else what it parses to, the legacy variable counting only when the new one is blank; a variable that does not parse is refused |
| `Config.Load` | internal/config/config.go:103-110 | What is accepted is what environment and file spell, and reaches the registry unchanged as a runnable configuration; what is refused has an unreadable file or no valid configuration spelled |
| `Config.DefaultsAreValid` | internal/config/config.go:37-53 | With only address and backend URL set, the configuration is valid exactly if they are not blank and the URL is, and the registry gets the documented defaults |
| `Config.AcceptedReachesRegistry` | internal/session/manager.go:76-96 | No default of `NewRegistry` replaces a field of a valid configuration: timeout above interval above zero, queue depth and limit at least one |
| `Config.RunnableIff` | internal/session/manager.go:76-96 | `NewRegistry` alone gives a registry whose timeout does not exceed its interval in exactly three cases of the given fields, with an input for one of them |

## Left out

- Sequential.Registry.Start: the second capacity check is not modelled here, because alone it cannot fail; the machine has both checks and the consoles they close.
- Sequential.Session.ReadLoop: `touch` and the context are not modelled.
- Sequential.Session.Close: the cleanup hook is counted, and its snapshot and its own time limit are not modelled.
- Frontend.HandleBrowserSocket: the error texts of bridge and keepalive are fixed strings instead of wrapped errors; in the machine they are arbitrary.
- OutputPath.OutputLoop: runs on a queue nobody reads from; that `writeLoop` takes frames at any time is in the machine, on values.
- Socket.GorillaConn.ReadMessage: a frame that arrives in parts is not modelled, and setting a deadline fails only on a closed connection.
- Socket.ClosedReadsEnd: it is about reads that begin after the close; a read interrupted by it is in the machine, where any error is allowed.
- Keepalive.KeepaliveIsSoundIffGenerous: pings do not fail and pongs come back in order; delays are bounds on the whole way, and a timeout is a read that ends at or after its deadline.
- Teardown.CloseAllReturns: gives one finishing schedule; that every schedule has one is `SweepStepsAreCounted` with `StepsAreBounded` and `CloseAllNeverBlocks`.
- Teardown.DoomedSessionsCanFinish: gives one finishing schedule; that every schedule finishes is `TeardownNeverBlocks` with `StepsAreBounded`.
- `lastActive`, `touch`, `startedAt`, durations, `Snapshot` and `Count`: they decide nothing.
- Logging and the contents of audit records; `session_started` and `session_ended` are counted, `session_rejected` is not modelled.
- SSH, PTY and pipes: the console is read, write, resize and an idempotent close; the bridge opens one or refuses.
- The WebSocket codec, HTTP routing, upgrade and origin checks, and the health endpoints.
- The HTTP exchange with the grant backend: the validator is its verdict.
- JSON text: a payload is a flat object, `null`, another value or no JSON; duplicate keys, key case and escapes are not modelled.
- Context cancellation inside sessions, and the timing of `ListenAndServe`, which is only a caller of `CloseAll`.
- The branch of `keepaliveLoop` for an interval that is not positive, which `NewRegistry` excludes; likewise a queue depth of zero in the machine. The objects of `Sequential` allow any depth.
- Calls of the exported `Enqueue` from outside the package, and cleanup hooks that call back into the session.
- `slowClientResult`, which nothing calls.
- Writes that reach the browser or the console in part, write deadlines and `writeMu`: a write is one step that succeeds or fails.
- Read errors of the configuration file after it is open, and lines too long for the scanner.
- `time.ParseDuration`, `strconv`, `url.Parse` and log levels are parameters; Unicode beyond `strings.TrimSpace` and UTF-8 is not modelled.
