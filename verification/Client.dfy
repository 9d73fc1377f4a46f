/** What a client types reaches the console: from the texts, octets and sizes it sends, through the frames that spell
    them, to the operations on the console. */
module Client {
  import opened Prelude
  import opened Protocol
  import opened Results
  import opened Machine
  import opened Invariants
  import opened Gateway
  import opened Safety
  import Utf8
  import S = Sequential

  /** What a client can say without ending its session. */
  datatype Speech = Typed(text: string) | Octets(data: seq<byte>) | Sized(rows: int, columns: int)

  predicate Sensible(s: Speech) {
    s.Sized? ==> 0 < s.rows <= MAX_INT && 0 < s.columns <= MAX_INT
  }

  /** How a client says it. */
  function Spoken(s: Speech): Frame {
    match s
    case Typed(text) => Text(Object(map["type" := JString("input"), "data" := JString(text)]))
    case Octets(data) => Binary(data)
    case Sized(rows, columns) =>
      Text(Object(map["type" := JString("resize"), "rows" := JInteger(rows), "columns" := JInteger(columns)]))
  }

  function Frames(said: seq<Speech>): seq<Frame> {
    seq(|said|, i requires 0 <= i < |said| => Spoken(said[i]))
  }

  /** The octets it stands for. */
  function OctetsOf(s: Speech): seq<byte> {
    match s
    case Typed(text) => Utf8.Encode(text)
    case Octets(data) => data
    case Sized(_, _) => []
  }

  /** What the console is to be asked for: nothing for empty input. */
  function Asked(said: seq<Speech>): seq<ConsoleOp> {
    if said == [] then [] else
    var first := said[0];
    (if first.Sized? then [Resize(first.rows, first.columns)]
     else if OctetsOf(first) == [] then [] else [Write(OctetsOf(first))])
    + Asked(said[1..])
  }

  function AllOctets(said: seq<Speech>): seq<byte> {
    if said == [] then [] else OctetsOf(said[0]) + AllOctets(said[1..])
  }

  function Written(ops: seq<ConsoleOp>): seq<byte> {
    if ops == [] then [] else (if ops[0].Write? then ops[0].data else []) + Written(ops[1..])
  }

  lemma SpokenSpells(s: Speech) returns (m: ClientMessage)
    requires Sensible(s)
    ensures Spells(Spoken(s), m)
    ensures match s
            case Typed(text) => m.kind.TInput? && m.input == text
            case Octets(_) => m.kind.TInput?
            case Sized(rows, columns) => m.kind.TResize? && m.rows == rows && m.columns == columns
  {
    TrimSpaceKeeps("input");
    TrimSpaceKeeps("resize");
    hide TrimSpace;
    m := match s
      case Typed(text) => ClientMessage(TInput, "", text, None, 0, 0, "")
      case Octets(data) => ClientMessage(TInput, "", "", if data == [] then None else Some(data), 0, 0, "")
      case Sized(rows, columns) => ClientMessage(TResize, "", "", None, rows, columns, "");
    if s.Typed? {
      assert HoldsText(Spoken(s).doc.fields, "type", "input");
    } else if s.Sized? {
      assert HoldsText(Spoken(s).doc.fields, "type", "resize");
    }
  }

  /** A keystroke is written, as text or as octets; a size is set; nothing is done about nothing. */
  lemma SpeechIsHeard(s: Speech)
    requires Sensible(s)
    ensures React(Spoken(s)) ==
            match s
            case Typed(text) => if Utf8.Encode(text) == [] then Skip else Do(Write(Utf8.Encode(text)))
            case Octets(data) => if data == [] then Skip else Do(Write(data))
            case Sized(rows, columns) => Do(Resize(rows, columns))
  {
    hide React, Spells;
    var m := SpokenSpells(s);
    SpokenIsAnswered(Spoken(s), m);
  }

  /** Text is empty exactly when its octets are. */
  lemma EmptyTextHasNoOctets(text: string)
    ensures Utf8.Encode(text) == [] <==> text == ""
  {
  }

  /** The octets asked for are the octets sent, in order. */
  lemma {:induction false} AskedOctets(said: seq<Speech>)
    ensures Written(Asked(said)) == AllOctets(said)
  {
    if said != [] {
      AskedOctets(said[1..]);
      var first, rest := said[0], Asked(said[1..]);
      assert [] + rest == rest;
      if first.Sized? {
        assert ([Resize(first.rows, first.columns)] + rest)[1..] == rest;
      } else if OctetsOf(first) != [] {
        assert ([Write(OctetsOf(first))] + rest)[1..] == rest;
      }
    }
  }

  lemma {:induction false} FoldOfSpeech(said: seq<Speech>)
    requires forall i :: 0 <= i < |said| ==> Sensible(said[i])
    ensures Fold(React, Frames(said)) == Trace(Asked(said), None)
  {
    hide React, Spoken;
    if said != [] {
      FoldOfSpeech(said[1..]);
      SpeechIsHeard(said[0]);
      FoldCons(React, Spoken(said[0]), Frames(said[1..]));
      assert Frames(said) == [Spoken(said[0])] + Frames(said[1..]);
    }
  }

  function Script(said: seq<Speech>): seq<Result<Frame, ReadError>> {
    seq(|said|, i requires 0 <= i < |said| => Ok(Spoken(said[i])))
  }

  lemma {:induction false} ReadingOfSpeech(said: seq<Speech>)
    requires forall i :: 0 <= i < |said| ==> Sensible(said[i])
    ensures S.ReadScript(Script(said), [], true)
            == S.Reading(Frames(said), Asked(said), ReadErrorResult(PeerClosed), [], [])
  {
    hide React, Spoken, ReadErrorResult;
    if said == [] {
      assert Frames(said) == [];
    } else {
      var rest := said[1..];
      ReadingOfSpeech(rest);
      SpeechIsHeard(said[0]);
      assert Script(said)[1..] == Script(rest);
      assert Frames(said) == [Spoken(said[0])] + Frames(rest);
    }
  }

  /** What `ReadLoop` does with such a script, on an open console that accepts everything: all of it is asked of the
      console, in order; the octets written are the octets sent; then the browser has gone. */
  method Serve(session: S.Session, said: seq<Speech>) returns (result: LoopResult)
    requires forall i :: 0 <= i < |said| ==> Sensible(said[i])
    requires session.browser.incoming == Script(said) && session.console.open && session.console.verdicts == []
    requires session.console.ops == []
    modifies session.browser`incoming, session.browser`taken, session.console`verdicts, session.console`ops
    ensures session.console.ops == Asked(said) && Written(session.console.ops) == AllOctets(said)
    ensures session.browser.incoming == [] && session.browser.taken == old(session.browser.taken) + Frames(said)
    ensures ReportOf(result) == Report(BrowserDisconnect, 1000, "browser_disconnect", [])
  {
    hide S.ReadScript, Asked, React, ReportOf, ReadErrorResult;
    ReadingOfSpeech(said);
    AskedOctets(said);
    ReadErrorReport(PeerClosed);
    result := session.ReadLoop();
    assert [] + Asked(said) == Asked(said);
  }

  /** And in every interleaving: what a validated client has said and the reader has taken is what the console was
      asked for, in order; at most the last of it is missing, while it is being done or because it failed. */
  lemma TypingReachesTheConsole(g: State, id: nat, said: seq<Speech>)
    requires Reachable(GATEWAY, g) && id in g.conns
    requires forall i :: 0 <= i < |said| ==> Sensible(said[i])
    requires g.conns[id].net.received != [] && g.conns[id].net.received[1..] == Frames(said)
    ensures var c := g.conns[id];
            && c.typed.ops <= Asked(said)
            && (c.rd.RReading? ==> c.typed.ops == Asked(said) && Written(c.typed.ops) == AllOctets(said))
            && (!c.rd.RIdle? ==> |Asked(said)| <= |c.typed.ops| + 1)
            && (!c.rd.RIdle? && !c.rd.ROp? && c.typed.failed.None? ==> c.typed.ops == Asked(said))
  {
    ConnIsGood(g, id);
    hide React, Reachable;
    FoldOfSpeech(said);
    AskedOctets(said);
    InputStands(GATEWAY, g.conns[id]);
    NothingReturns(said);
  }

  lemma NothingReturns(said: seq<Speech>)
    requires forall i :: 0 <= i < |said| ==> Sensible(said[i])
    ensures forall i :: 0 <= i < |said| ==> !React(Frames(said)[i]).Return?
  {
    hide React;
    forall i | 0 <= i < |said| ensures !React(Frames(said)[i]).Return? { SpeechIsHeard(said[i]); }
  }

  /** Where the operations stand against the fold, when no frame ends the loop. */
  lemma InputStands(R: Rules, c: Conn)
    requires Good(R, c) && c.net.received != []
    ensures var frames := c.net.received[1..];
            var t := Fold(R.react, frames);
            (forall i :: 0 <= i < |frames| ==> !R.react(frames[i]).Return?) ==>
              && c.typed.ops <= t.ops
              && (c.rd.RReading? ==> c.typed.ops == t.ops)
              && (!c.rd.RIdle? ==> |t.ops| <= |c.typed.ops| + 1)
              && (!c.rd.RIdle? && !c.rd.ROp? && c.typed.failed.None? ==> c.typed.ops == t.ops)
  {
    hide Control, Downstream;
    var frames := Tail(c.net.received);
    if c.rd.ROp? {
      LastDecides(R.react, frames, c.typed.ops, Do(c.rd.op));
    } else if c.typed.failed.Some? && !c.rd.RReading? && !c.rd.RIdle? {
      LastDecides(R.react, frames, c.typed.ops, Do(c.typed.failed.value));
    }
  }
}
