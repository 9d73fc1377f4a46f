/** The browser protocol: internal/websocket/protocol.go. A text payload is abstracted to the JSON
    document it spells; a binary payload is its octets. */
module Protocol {
  import opened Prelude
  import Utf8

  datatype JValue = JString(text: string) | JInteger(n: int) | JNull | JOther

  /** What `json.Unmarshal` sees: no JSON at all, `null`, another non-object value, or a flat object. */
  datatype Doc = Malformed | Null | NonObject | Object(fields: map<string, JValue>)

  datatype Frame = Text(doc: Doc) | Binary(data: seq<byte>)

  datatype MessageType = TAuthorize | TAuthorized | TInput | TOutput | TResize | TError | TClose

  datatype ClientMessage = ClientMessage(
    kind: MessageType, token: string, input: string, binary: Option<seq<byte>>, rows: int, columns: int, reason: string)

  /** A Go error value: a `*ProtocolError`, or any other error. */
  datatype Error = ProtocolError(code: string, message: string) | OtherError(text: string)

  const MAX_INT: int := 0x7FFF_FFFF_FFFF_FFFF

  // ---- decoding ----

  /** `json.Unmarshal` into a string field: a missing or null value leaves the zero value. */
  function StringField(fields: map<string, JValue>, key: string): Option<string> {
    if key !in fields || fields[key].JNull? then Some("")
    else if fields[key].JString? then Some(fields[key].text)
    else None
  }

  /** `json.Unmarshal` into a 64-bit `int` field. */
  function IntField(fields: map<string, JValue>, key: string): Option<int> {
    if key !in fields || fields[key].JNull? then Some(0)
    else if fields[key].JInteger? && -MAX_INT - 1 <= fields[key].n <= MAX_INT then Some(fields[key].n)
    else None
  }

  /** The `type` member as `json.Unmarshal` into `controlMessage` reads it. */
  function BaseType(doc: Doc): Option<string> {
    match doc
    case Malformed => None
    case NonObject => None
    case Null => Some("")
    case Object(fields) => StringField(fields, "type")
  }

  /** `DisallowUnknownFields`. */
  predicate OnlyFields(fields: map<string, JValue>, known: set<string>) {
    fields.Keys <= known
  }

  function TypeName(t: MessageType): string {
    match t
    case TAuthorize => "authorize"
    case TAuthorized => "authorized"
    case TInput => "input"
    case TOutput => "output"
    case TResize => "resize"
    case TError => "error"
    case TClose => "close"
  }

  /** The `switch` over message type names. */
  function TypeNamed(name: string): Option<MessageType> {
    if name == "authorize" then Some(TAuthorize)
    else if name == "authorized" then Some(TAuthorized)
    else if name == "input" then Some(TInput)
    else if name == "output" then Some(TOutput)
    else if name == "resize" then Some(TResize)
    else if name == "error" then Some(TError)
    else if name == "close" then Some(TClose)
    else None
  }

  const EMPTY: ClientMessage := ClientMessage(TInput, "", "", None, 0, 0, "")

  function Reject(code: string, message: string): Result<ClientMessage, Error> {
    Err(ProtocolError(code, message))
  }

  function ParseAuthorize(fields: map<string, JValue>): Result<ClientMessage, Error> {
    var token := StringField(fields, "token");
    if !OnlyFields(fields, {"type", "token"}) || token.None? then
      Reject("invalid_authorize", "authorize message is malformed")
    else if TrimSpace(token.value) == "" then
      Reject("invalid_authorize", "authorize token must not be empty")
    else Ok(EMPTY.(kind := TAuthorize, token := TrimSpace(token.value)))
  }

  function ParseInput(fields: map<string, JValue>): Result<ClientMessage, Error> {
    var data := StringField(fields, "data");
    if !OnlyFields(fields, {"type", "data"}) || data.None? then
      Reject("invalid_input", "input message is malformed")
    else Ok(EMPTY.(kind := TInput, input := data.value))
  }

  function ParseResize(fields: map<string, JValue>): Result<ClientMessage, Error> {
    var rows, columns := IntField(fields, "rows"), IntField(fields, "columns");
    if !OnlyFields(fields, {"type", "rows", "columns"}) || rows.None? || columns.None? then
      Reject("invalid_resize", "resize message is malformed")
    else if rows.value <= 0 || columns.value <= 0 then
      Reject("invalid_resize", "resize rows and columns must be greater than zero")
    else Ok(EMPTY.(kind := TResize, rows := rows.value, columns := columns.value))
  }

  function ParseClose(fields: map<string, JValue>): Result<ClientMessage, Error> {
    var reason := StringField(fields, "reason");
    if !OnlyFields(fields, {"type", "reason"}) || reason.None? then
      Reject("invalid_close", "close message is malformed")
    else Ok(EMPTY.(kind := TClose, reason := TrimSpace(reason.value)))
  }

  /** `append([]byte(nil), data...)` is nil when there is nothing to append. */
  function CopyOf(data: seq<byte>): Option<seq<byte>> {
    if data == [] then None else Some(data)
  }

  function ParseClientMessage(frame: Frame): Result<ClientMessage, Error> {
    match frame
    case Binary(data) => Ok(EMPTY.(kind := TInput, binary := CopyOf(data)))
    case Text(doc) =>
      var base := BaseType(doc);
      if base.None? then Reject("invalid_json", "control message must be valid JSON") else
      var fields := if doc.Object? then doc.fields else map[];
      match TypeNamed(TrimSpace(base.value))
      case Some(TAuthorize) => ParseAuthorize(fields)
      case Some(TInput) => ParseInput(fields)
      case Some(TResize) => ParseResize(fields)
      case Some(TClose) => ParseClose(fields)
      case Some(TOutput) => Reject("unexpected_output", "output messages are server-to-client only")
      case Some(TError) => Reject("unexpected_error", "error messages are server-to-client only")
      case Some(TAuthorized) => Reject("unexpected_authorized", "authorized messages are server-to-client only")
      case None => Reject("unknown_message_type", "unsupported control message type")
  }

  /** `readLoop`'s choice between the two input forms of a message. */
  function Payload(m: ClientMessage): seq<byte> {
    if m.binary.Some? then m.binary.value else Utf8.Encode(m.input)
  }

  // ---- encoding ----

  function NewServerAuthorized(): Frame {
    Text(Object(map["type" := JString(TypeName(TAuthorized))]))
  }

  function NewServerOutput(data: seq<byte>): Frame {
    if Utf8.Valid(data)
    then Text(Object(map["type" := JString(TypeName(TOutput)), "data" := JString(Utf8.Decode(data))]))
    else Binary(data)
  }

  function NewServerError(code: string, message: string): Frame {
    Text(Object(map["type" := JString(TypeName(TError)), "code" := JString(code), "message" := JString(message)]))
  }

  /** `omitempty` drops an empty reason. */
  function NewServerClose(reason: string): Frame {
    Text(Object(if reason == "" then map["type" := JString(TypeName(TClose))]
                else map["type" := JString(TypeName(TClose)), "reason" := JString(reason)]))
  }

  // ---- what a browser makes of a server frame ----

  datatype ServerEvent =
    | Authorized
    | Output(data: seq<byte>)
    | Failed(code: string, message: string)
    | CloseNotice(reason: string)
    | Unreadable

  function Understand(frame: Frame): ServerEvent {
    match frame
    case Binary(data) => Output(data)
    case Text(doc) =>
      if !doc.Object? || "type" !in doc.fields then Unreadable else
      var t := doc.fields["type"];
      var get := (key: string) => StringField(doc.fields, key);
      if t == JString("authorized") then Authorized
      else if t == JString("output") && get("data").Some? then Output(Utf8.Encode(get("data").value))
      else if t == JString("error") && get("code").Some? && get("message").Some?
      then Failed(get("code").value, get("message").value)
      else if t == JString("close") && get("reason").Some? then CloseNotice(get("reason").value)
      else Unreadable
  }

  /** What a browser makes of server frames. */
  function Heard(frames: seq<Frame>): seq<ServerEvent> {
    seq(|frames|, i requires 0 <= i < |frames| => Understand(frames[i]))
  }

  predicate IsOutput(frame: Frame) {
    Understand(frame).Output?
  }

  /** The console octets a browser finds in a frame. */
  function OutputData(frame: Frame): seq<byte> {
    if IsOutput(frame) then Understand(frame).data else []
  }

  // ---- properties ----

  /** Every octet string reaches the browser unchanged; text is used exactly when it can carry it:
      for every other input, a text frame would have altered the octets. */
  lemma OutputIsLossless(data: seq<byte>)
    ensures Understand(NewServerOutput(data)) == Output(data)
    ensures NewServerOutput(data).Text? <==> Utf8.Encode(Utf8.Decode(data)) == data
    ensures NewServerOutput(data).Text? <==> Utf8.Valid(data)
  {
    Utf8.TextIsLosslessIffValid(data);
  }

  /** Error, close and authorized frames say what they were built from. */
  lemma ServerFramesAreUnderstood(code: string, message: string, reason: string)
    ensures Understand(NewServerAuthorized()) == Authorized
    ensures Understand(NewServerError(code, message)) == Failed(code, message)
    ensures Understand(NewServerClose(reason)) == CloseNotice(reason)
  {
    assert "reason" !in map["type" := JString(TypeName(TClose))];
  }

  /** A message that `readLoop` and `handleBrowserSocket` have a case for. */
  predicate WellFormed(m: ClientMessage) {
    || (m.kind.TAuthorize? && m.token != "" && Trimmed(m.token) && TrimSpace(m.token) == m.token)
    || m.kind.TInput?
    || (m.kind.TResize? && 0 < m.rows <= MAX_INT && 0 < m.columns <= MAX_INT)
    || (m.kind.TClose? && Trimmed(m.reason))
  }

  lemma AuthorizeIsWellFormed(fields: map<string, JValue>)
    requires ParseAuthorize(fields).Ok?
    ensures WellFormed(ParseAuthorize(fields).value) && ParseAuthorize(fields).value.kind.TAuthorize?
  {
    var _, _ := TrimSpaceShape(StringField(fields, "token").value);
  }

  lemma CloseIsWellFormed(fields: map<string, JValue>)
    requires ParseClose(fields).Ok?
    ensures WellFormed(ParseClose(fields).value) && ParseClose(fields).value.kind.TClose?
  {
    var _, _ := TrimSpaceShape(StringField(fields, "reason").value);
  }

  /** The parser is total: a protocol error, or a message of one of four well-formed kinds. */
  lemma ParserContract(frame: Frame)
    ensures match ParseClientMessage(frame)
            case Ok(m) => WellFormed(m)
            case Err(e) => e.ProtocolError? && e.code != ""
  {
    if frame.Text? && BaseType(frame.doc).Some? {
      var fields := if frame.doc.Object? then frame.doc.fields else map[];
      match TypeNamed(TrimSpace(BaseType(frame.doc).value)) {
        case Some(TAuthorize) => if ParseAuthorize(fields).Ok? { AuthorizeIsWellFormed(fields); }
        case Some(TClose) => if ParseClose(fields).Ok? { CloseIsWellFormed(fields); }
        case _ =>
      }
    }
  }

  // ---- the messages, as the protocol defines them ----

  /** A missing or null member stands for the empty text. */
  predicate HoldsText(fields: map<string, JValue>, key: string, text: string) {
    if key !in fields || fields[key] == JNull then text == "" else fields[key] == JString(text)
  }

  predicate HoldsNumber(fields: map<string, JValue>, key: string, n: int) {
    if key !in fields || fields[key] == JNull then n == 0 else fields[key] == JInteger(n)
  }

  /** `frame` is a client's way to say `m`: octets are input, and an object says what its type calls for, with no
      other members; blanks around type, token and reason do not count. */
  ghost predicate Spells(frame: Frame, m: ClientMessage) {
    match frame
    case Binary(data) => m == ClientMessage(TInput, "", "", if data == [] then None else Some(data), 0, 0, "")
    case Text(doc) => doc.Object? && exists name :: HoldsText(doc.fields, "type", name) && SpellsAs(doc.fields, name, m)
  }

  ghost predicate SpellsAs(fields: map<string, JValue>, name: string, m: ClientMessage) {
    match m.kind
    case TAuthorize =>
      && TrimSpace(name) == "authorize" && fields.Keys <= {"type", "token"}
      && (exists token :: HoldsText(fields, "token", token) && m.token == TrimSpace(token)) && m.token != ""
      && m == ClientMessage(TAuthorize, m.token, "", None, 0, 0, "")
    case TInput =>
      && TrimSpace(name) == "input" && fields.Keys <= {"type", "data"} && HoldsText(fields, "data", m.input)
      && m == ClientMessage(TInput, "", m.input, None, 0, 0, "")
    case TResize =>
      && TrimSpace(name) == "resize" && fields.Keys <= {"type", "rows", "columns"}
      && HoldsNumber(fields, "rows", m.rows) && HoldsNumber(fields, "columns", m.columns)
      && 0 < m.rows <= MAX_INT && 0 < m.columns <= MAX_INT
      && m == ClientMessage(TResize, "", "", None, m.rows, m.columns, "")
    case TClose =>
      && TrimSpace(name) == "close" && fields.Keys <= {"type", "reason"}
      && (exists reason :: HoldsText(fields, "reason", reason) && m.reason == TrimSpace(reason))
      && m == ClientMessage(TClose, "", "", None, 0, 0, m.reason)
    case _ => false
  }

  lemma StringFieldHolds(fields: map<string, JValue>, key: string)
    ensures forall text :: StringField(fields, key) == Some(text) <==> HoldsText(fields, key, text)
  {
  }

  lemma IntFieldHolds(fields: map<string, JValue>, key: string)
    ensures forall n ::
              IntField(fields, key) == Some(n) <==> HoldsNumber(fields, key, n) && -MAX_INT - 1 <= n <= MAX_INT
  {
  }

  lemma AuthorizeIsExact(fields: map<string, JValue>, name: string, m: ClientMessage)
    requires TrimSpace(name) == "authorize"
    ensures ParseAuthorize(fields) == Ok(m) <==> SpellsAs(fields, name, m)
  {
    hide TrimSpace;
    StringFieldHolds(fields, "token");
  }

  lemma InputIsExact(fields: map<string, JValue>, name: string, m: ClientMessage)
    requires TrimSpace(name) == "input"
    ensures ParseInput(fields) == Ok(m) <==> SpellsAs(fields, name, m)
  {
    hide TrimSpace;
    StringFieldHolds(fields, "data");
  }

  lemma ResizeIsExact(fields: map<string, JValue>, name: string, m: ClientMessage)
    requires TrimSpace(name) == "resize"
    ensures ParseResize(fields) == Ok(m) <==> SpellsAs(fields, name, m)
  {
    hide TrimSpace;
    IntFieldHolds(fields, "rows");
    IntFieldHolds(fields, "columns");
  }

  lemma CloseIsExact(fields: map<string, JValue>, name: string, m: ClientMessage)
    requires TrimSpace(name) == "close"
    ensures ParseClose(fields) == Ok(m) <==> SpellsAs(fields, name, m)
  {
    hide TrimSpace;
    StringFieldHolds(fields, "reason");
  }

  lemma OtherTypesSpellNothing(fields: map<string, JValue>, name: string, m: ClientMessage)
    requires TrimSpace(name) !in {"authorize", "input", "resize", "close"}
    ensures !SpellsAs(fields, name, m)
  {
    hide TrimSpace;
  }

  lemma ObjectIsExact(fields: map<string, JValue>, name: string, m: ClientMessage)
    requires HoldsText(fields, "type", name)
    ensures ParseClientMessage(Text(Object(fields))) == Ok(m) <==> SpellsAs(fields, name, m)
  {
    hide TrimSpace, ParseAuthorize, ParseInput, ParseResize, ParseClose, SpellsAs;
    StringFieldHolds(fields, "type");
    match TrimSpace(name) {
      case "authorize" => AuthorizeIsExact(fields, name, m);
      case "input" => InputIsExact(fields, name, m);
      case "resize" => ResizeIsExact(fields, name, m);
      case "close" => CloseIsExact(fields, name, m);
      case _ => OtherTypesSpellNothing(fields, name, m);
    }
  }

  /** The parser accepts exactly the frames that say something, and reads what they say. */
  lemma ParserIsExact(frame: Frame, m: ClientMessage)
    ensures ParseClientMessage(frame) == Ok(m) <==> Spells(frame, m)
  {
    hide TrimSpace, ParseAuthorize, ParseInput, ParseResize, ParseClose, SpellsAs;
    TrimSpaceKeeps("");
    if frame.Text? && frame.doc.Object? {
      var fields := frame.doc.fields;
      StringFieldHolds(fields, "type");
      assert StringField(fields, "type").Some? ==> HoldsText(fields, "type", StringField(fields, "type").value);
      forall name | HoldsText(fields, "type", name)
        ensures ParseClientMessage(frame) == Ok(m) <==> SpellsAs(fields, name, m)
      {
        ObjectIsExact(fields, name, m);
      }
    }
  }

  /** The code a frame is refused with. */
  lemma RejectionIsNamed(frame: Frame, code: string, message: string)
    requires ParseClientMessage(frame) == Err(ProtocolError(code, message))
    ensures frame.Text?
    ensures BaseType(frame.doc).None? ==> code == "invalid_json"
    ensures BaseType(frame.doc).Some? ==>
              code == match TrimSpace(BaseType(frame.doc).value)
                      case "authorize" => "invalid_authorize"
                      case "input" => "invalid_input"
                      case "resize" => "invalid_resize"
                      case "close" => "invalid_close"
                      case "output" => "unexpected_output"
                      case "error" => "unexpected_error"
                      case "authorized" => "unexpected_authorized"
                      case _ => "unknown_message_type"
  {
    hide TrimSpace;
  }

  /** Text and binary input are treated alike: text that spells the same octets is the same input. */
  lemma InputFormsAgree(text: string)
    ensures var t := ParseClientMessage(Text(Object(map["type" := JString("input"), "data" := JString(text)])));
            var b := ParseClientMessage(Binary(Utf8.Encode(text)));
            t.Ok? && b.Ok? && t.value.kind == b.value.kind == TInput && Payload(t.value) == Payload(b.value)
  {
    var fields := map["type" := JString("input"), "data" := JString(text)];
    assert fields.Keys == {"type", "data"};
    TypeNameIsRead(TInput);
    assert Utf8.Encode("") == [];
  }

  lemma TypeNameIsRead(t: MessageType)
    ensures TypeNamed(TypeName(t)) == Some(t)
    ensures TrimSpace(TypeName(t)) == TypeName(t)
  {
    TrimSpaceKeeps(TypeName(t));
  }

  lemma ParseByType(fields: map<string, JValue>, t: MessageType)
    requires "type" in fields && fields["type"] == JString(TypeName(t))
    requires t in {TAuthorized, TOutput, TError}
    ensures ParseClientMessage(Text(Object(fields))).Err?
  {
    TypeNameIsRead(t);
  }

  /** Server frames sent back by a client never drive a session: only `close` has a client meaning. */
  lemma ServerFramesAreNotClientMessages(data: seq<byte>, code: string, message: string)
    ensures ParseClientMessage(NewServerAuthorized()).Err?
    ensures ParseClientMessage(NewServerError(code, message)).Err?
    ensures Utf8.Valid(data) ==> ParseClientMessage(NewServerOutput(data)).Err?
  {
    ParseByType(NewServerAuthorized().doc.fields, TAuthorized);
    ParseByType(NewServerError(code, message).doc.fields, TError);
    if Utf8.Valid(data) { ParseByType(NewServerOutput(data).doc.fields, TOutput); }
  }
}
