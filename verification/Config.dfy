/** Configuration: internal/config/config.go, and the hand-over to the registry in `newSessionRegistry` and
    `NewRegistry`. Library parsers are parameters; durations are integers. */
module Config {
  import opened Prelude

  const CONFIG_FILE := "GATEWAY_CONFIG_FILE"
  const LISTEN_ADDRESS := "GATEWAY_LISTEN_ADDRESS"
  const HTTP_READ_HEADER_TIMEOUT := "GATEWAY_HTTP_READ_HEADER_TIMEOUT"
  const BACKEND_BASE_URL := "GATEWAY_BACKEND_BASE_URL"
  const BACKEND_TIMEOUT := "GATEWAY_BACKEND_TIMEOUT"
  const LOG_LEVEL := "GATEWAY_LOG_LEVEL"
  const SSH_PRIVATE_KEY_PATH := "GATEWAY_SSH_PRIVATE_KEY_PATH"
  const SSH_PUBLIC_KEY_PATH := "GATEWAY_SSH_PUBLIC_KEY_PATH"
  const SSH_USERNAME := "GATEWAY_SSH_USERNAME"
  const SSH_PORT := "GATEWAY_SSH_PORT"
  const SSH_CONNECT_TIMEOUT := "GATEWAY_SSH_CONNECT_TIMEOUT"
  const SSH_INSECURE_IGNORE_HOST_KEY := "GATEWAY_SSH_INSECURE_IGNORE_HOST_KEY"
  const SESSION_AUTHORIZE_TIMEOUT := "GATEWAY_SESSION_AUTHORIZE_TIMEOUT"
  const SESSION_IDLE_TIMEOUT := "GATEWAY_SESSION_IDLE_TIMEOUT"
  const SESSION_MAX_CONCURRENT := "GATEWAY_SESSION_MAX_CONCURRENT"
  const SESSION_OUTBOUND_QUEUE := "GATEWAY_SESSION_OUTBOUND_QUEUE_DEPTH"
  const WEBSOCKET_MAX_MESSAGE_BYTES := "GATEWAY_WEBSOCKET_MAX_MESSAGE_BYTES"
  const WEBSOCKET_KEEPALIVE_INTERVAL := "GATEWAY_WEBSOCKET_KEEPALIVE_INTERVAL"
  const WEBSOCKET_KEEPALIVE_TIMEOUT := "GATEWAY_WEBSOCKET_KEEPALIVE_TIMEOUT"

  /** The variables read from the environment. */
  const ENVIRONMENT: seq<string> := [
    CONFIG_FILE, LISTEN_ADDRESS, HTTP_READ_HEADER_TIMEOUT, BACKEND_BASE_URL, BACKEND_TIMEOUT, LOG_LEVEL,
    SSH_PRIVATE_KEY_PATH, SSH_PUBLIC_KEY_PATH, SSH_USERNAME, SSH_PORT, SSH_CONNECT_TIMEOUT,
    SSH_INSECURE_IGNORE_HOST_KEY, SESSION_AUTHORIZE_TIMEOUT, SESSION_IDLE_TIMEOUT, SESSION_MAX_CONCURRENT,
    SESSION_OUTBOUND_QUEUE, WEBSOCKET_MAX_MESSAGE_BYTES, WEBSOCKET_KEEPALIVE_INTERVAL, WEBSOCKET_KEEPALIVE_TIMEOUT]

  type Vars = map<string, string>

  // ---- the configuration file ----

  datatype Line = Blank | Malformed | Assign(key: string, value: string)

  /** Where the first `=` is. */
  function IndexOfEquals(s: string): (n: nat)
    ensures n <= |s|
    ensures n < |s| ==> s[n] == '='
    ensures forall i :: 0 <= i < n ==> s[i] != '='
  {
    if s == [] || s[0] == '=' then 0 else IndexOfEquals(s[1..]) + 1
  }

  function TrimQuotes(value: string): string {
    var n := |value|;
    if n >= 2 && ((value[0] == '"' && value[n - 1] == '"') || (value[0] == '\'' && value[n - 1] == '\''))
    then value[1..n - 1] else value
  }

  function ParseLine(line: string): Line {
    var text := TrimSpace(line);
    var cut := IndexOfEquals(text);
    if text == "" || text[0] == '#' then Blank
    else if cut == |text| then Malformed
    else Assign(TrimSpace(text[..cut]), TrimQuotes(TrimSpace(text[cut + 1..])))
  }

  lemma CutAt(text: string, n: nat)
    requires n < |text| && text[n] == '=' && '=' !in text[..n]
    ensures IndexOfEquals(text) == n
  {
    forall i | 0 <= i < n ensures text[i] != '=' { assert text[..n][i] == text[i]; }
  }

  /** A line says nothing when it is blank or a comment; it assigns a variable when it has an equals sign, the first one
      being the one that counts: around it blanks do not count, and around a value one pair of like quotes does not;
      otherwise it is malformed. */
  lemma LineMeans(line: string)
    ensures var text := TrimSpace(line);
            && (ParseLine(line).Blank? <==> text == "" || text[0] == '#')
            && (ParseLine(line).Malformed? <==> text != "" && text[0] != '#' && '=' !in text)
            && forall n :: 0 <= n < |text| && text[0] != '#' && text[n] == '=' && '=' !in text[..n] ==>
                 ParseLine(line) == Assign(TrimSpace(text[..n]), TrimQuotes(TrimSpace(text[n + 1..])))
  {
    hide TrimSpace, TrimQuotes;
    var text := TrimSpace(line);
    var cut := IndexOfEquals(text);
    if '=' in text {
      assert cut < |text|;
    }
    forall n | 0 <= n < |text| && text[n] == '=' && '=' !in text[..n] ensures cut == n { CutAt(text, n); }
  }

  /** Quotes are taken off a value that has the same kind at both ends, and only then. */
  lemma QuotesMean(value: string)
    ensures TrimQuotes("\"" + value + "\"") == value && TrimQuotes("'" + value + "'") == value
    ensures TrimQuotes(value) != value ==>
              value == "\"" + TrimQuotes(value) + "\"" || value == "'" + TrimQuotes(value) + "'"
  {
    assert ("\"" + value + "\"")[1..|value| + 1] == value;
    assert ("'" + value + "'")[1..|value| + 1] == value;
    if TrimQuotes(value) != value {
      var n := |value|;
      assert value == [value[0]] + value[1..n - 1] + [value[n - 1]];
    }
  }

  /** What the file says: its assignments from top to bottom, or the number of the first malformed line. */
  method LoadFile(lines: seq<string>) returns (r: Result<Vars, nat>)
    ensures r.Ok? <==> forall i :: 0 <= i < |lines| ==> !ParseLine(lines[i]).Malformed?
    ensures r.Ok? ==> Reflects(r.value, lines)
    ensures r.Err? ==>
              && 1 <= r.error <= |lines| && ParseLine(lines[r.error - 1]).Malformed?
              && forall i :: 0 <= i < r.error - 1 ==> !ParseLine(lines[i]).Malformed?
  {
    hide ParseLine, Reflects;
    var vars: Vars := map[];
    NothingReflected();
    for n := 0 to |lines|
      invariant forall i :: 0 <= i < n ==> !ParseLine(lines[i]).Malformed?
      invariant Reflects(vars, lines[..n])
    {
      assert lines[..n + 1] == lines[..n] + [lines[n]];
      LineReflected(vars, lines[..n], lines[n]);
      match ParseLine(lines[n]) {
        case Blank =>
        case Malformed => return Err(n + 1);
        case Assign(key, value) => vars := vars[key := value];
      }
    }
    assert lines[..|lines|] == lines;
    r := Ok(vars);
  }

  predicate Assigns(line: string, key: string) {
    ParseLine(line).Assign? && ParseLine(line).key == key
  }

  /** The last of the lines that assigns a variable. */
  ghost predicate Last(lines: seq<string>, i: int, key: string) {
    0 <= i < |lines| && Assigns(lines[i], key) && forall j :: i < j < |lines| ==> !Assigns(lines[j], key)
  }

  /** What the lines give a variable, read from the bottom up. */
  function LastValue(lines: seq<string>, key: string): Option<string> {
    var n := |lines| - 1;
    if lines == [] then None
    else if Assigns(lines[n], key) then Some(ParseLine(lines[n]).value)
    else LastValue(lines[..n], key)
  }

  /** That is the value of the last assignment, wherever it stands. */
  lemma {:induction false} LastValueIsLast(lines: seq<string>, key: string)
    ensures LastValue(lines, key).None? <==> forall i :: 0 <= i < |lines| ==> !Assigns(lines[i], key)
    ensures forall i :: Last(lines, i, key) ==> LastValue(lines, key) == Some(ParseLine(lines[i]).value)
  {
    hide ParseLine;
    var n := |lines| - 1;
    if lines != [] && !Assigns(lines[n], key) {
      LastValueIsLast(lines[..n], key);
      forall i | Last(lines, i, key) ensures Last(lines[..n], i, key) { }
    }
  }

  /** `vars` holds exactly the keys the lines assign, each with the value of its last assignment. */
  ghost predicate Reflects(vars: Vars, lines: seq<string>) {
    forall key :: LastValue(lines, key) == if key in vars then Some(vars[key]) else None
  }

  lemma NothingReflected()
    ensures Reflects(map[], [])
  {
  }

  lemma LineReflected(vars: Vars, lines: seq<string>, line: string)
    requires Reflects(vars, lines)
    ensures ParseLine(line).Assign? ==> Reflects(vars[ParseLine(line).key := ParseLine(line).value], lines + [line])
    ensures !ParseLine(line).Assign? ==> Reflects(vars, lines + [line])
  {
    hide ParseLine;
    forall key
      ensures LastValue(lines + [line], key)
              == if Assigns(line, key) then Some(ParseLine(line).value) else LastValue(lines, key)
    {
      assert (lines + [line])[..|lines|] == lines;
    }
  }

  // ---- environment over file ----

  datatype LoadError = CannotOpen | BadLine(number: nat)

  /** The last loop of `loadVars`. */
  method MergeEnvironment(file: Vars, environment: Vars, keys: seq<string>) returns (vars: Vars)
    ensures forall key :: key in vars <==> key in file || (key in keys && key in environment)
    ensures forall key :: key in vars ==>
              vars[key] == if key in keys && key in environment then environment[key] else file[key]
  {
    vars := file;
    for i := 0 to |keys|
      invariant forall key :: key in vars <==> key in file || (key in keys[..i] && key in environment)
      invariant forall key :: key in vars ==>
                  vars[key] == if key in keys[..i] && key in environment then environment[key] else file[key]
    {
      if keys[i] in environment {
        vars := vars[keys[i] := environment[keys[i]]];
      }
    }
  }

  /** Does the environment name a configuration file? */
  predicate NamesFile(environment: Vars) {
    CONFIG_FILE in environment && TrimSpace(environment[CONFIG_FILE]) != ""
  }

  lemma NamesFileIff(environment: Vars)
    ensures NamesFile(environment) <==>
              "GATEWAY_CONFIG_FILE" in environment && !AllSpace(environment["GATEWAY_CONFIG_FILE"])
  {
    if CONFIG_FILE in environment {
      var _, _ := TrimSpaceShape(environment[CONFIG_FILE]);
    }
  }

  /** The lines that count: none when no file is named. */
  function FileLines(environment: Vars, lines: Option<seq<string>>): seq<string> {
    if NamesFile(environment) && lines.Some? then lines.value else []
  }

  /** All of the gateway's variables are read from the environment. */
  lemma EnvironmentIsComplete()
    ensures forall key :: key in ENVIRONMENT <==>
              key in {CONFIG_FILE, LISTEN_ADDRESS, HTTP_READ_HEADER_TIMEOUT, BACKEND_BASE_URL, BACKEND_TIMEOUT,
                      LOG_LEVEL, SSH_PRIVATE_KEY_PATH, SSH_PUBLIC_KEY_PATH, SSH_USERNAME, SSH_PORT, SSH_CONNECT_TIMEOUT,
                      SSH_INSECURE_IGNORE_HOST_KEY, SESSION_AUTHORIZE_TIMEOUT, SESSION_IDLE_TIMEOUT,
                      SESSION_MAX_CONCURRENT, SESSION_OUTBOUND_QUEUE, WEBSOCKET_MAX_MESSAGE_BYTES,
                      WEBSOCKET_KEEPALIVE_INTERVAL, WEBSOCKET_KEEPALIVE_TIMEOUT}
  {
  }

  /** What a variable is after the merge: its value in the environment if it is a known variable set there, else
      the value of its last assignment in the file. */
  function MergedValue(environment: Vars, lines: seq<string>, key: string): Option<string> {
    if key in ENVIRONMENT && key in environment then Some(environment[key]) else LastValue(lines, key)
  }

  ghost predicate Spells(vars: Vars, environment: Vars, lines: seq<string>) {
    forall key :: MergedValue(environment, lines, key) == if key in vars then Some(vars[key]) else None
  }

  /** `lines` is the content of the named file, if it can be opened. */
  method LoadVars(environment: Vars, lines: Option<seq<string>>) returns (r: Result<Vars, LoadError>)
    ensures r.Ok? <==>
              || "GATEWAY_CONFIG_FILE" !in environment || AllSpace(environment["GATEWAY_CONFIG_FILE"])
              || (lines.Some? && forall i :: 0 <= i < |lines.value| ==> !ParseLine(lines.value[i]).Malformed?)
    ensures r.Ok? ==> Spells(r.value, environment, FileLines(environment, lines))
  {
    NamesFileIff(environment);
    hide ParseLine, NamesFile, LastValue, ENVIRONMENT;
    var file: Vars := map[];
    if NamesFile(environment) {
      if lines.None? {
        return Err(CannotOpen);
      }
      var loaded := LoadFile(lines.value);
      if loaded.Err? {
        return Err(BadLine(loaded.error));
      }
      file := loaded.value;
    } else {
      NothingReflected();
    }
    var vars := MergeEnvironment(file, environment, ENVIRONMENT);
    r := Ok(vars);
  }

  // ---- resolving ----

  datatype Config = Config(
    listenAddress: string, baseURL: string, privateKeyPath: string, publicKeyPath: string, username: string,
    validationTimeout: int, readHeaderTimeout: int, port: int, connectTimeout: int, insecureIgnoreHostKey: bool,
    authorizeTimeout: int, maxConcurrent: int, outboundQueueDepth: int,
    maxMessageBytes: int, keepaliveInterval: int, keepaliveTimeout: int, level: int)

  /** `time.ParseDuration`, `strconv.Atoi`, `strconv.ParseInt`, `strconv.ParseBool`, `parseLogLevel`, and the checks
      on the parsed backend URL. */
  datatype Parsers = Parsers(
    duration: string -> Option<int>, integer: string -> Option<int>, long: string -> Option<int>,
    boolean: string -> Option<bool>, level: string -> Option<int>, urlOk: string -> bool)

  const SECOND: int := 1_000_000_000

  function Lookup(vars: Vars, key: string): string {
    if key in vars then TrimSpace(vars[key]) else ""
  }

  function FirstNonEmpty(value: string, default: string): string {
    if value != "" then value else default
  }

  /** A variable's value, its default when it is blank, or nothing when it does not parse. */
  function Field<T>(text: string, default: T, parse: string -> Option<T>): Option<T> {
    if text == "" then Some(default) else parse(text)
  }

  /** `GATEWAY_SESSION_AUTHORIZE_TIMEOUT`, or the legacy variable when that is blank. */
  function AuthorizeText(vars: Vars): string {
    FirstNonEmpty(Lookup(vars, SESSION_AUTHORIZE_TIMEOUT), Lookup(vars, SESSION_IDLE_TIMEOUT))
  }

  predicate Validate(c: Config, urlOk: string -> bool) {
    && TrimSpace(c.listenAddress) != "" && TrimSpace(c.baseURL) != "" && urlOk(c.baseURL)
    && c.validationTimeout > 0 && c.readHeaderTimeout > 0
    && TrimSpace(c.privateKeyPath) != "" && TrimSpace(c.publicKeyPath) != "" && TrimSpace(c.username) != ""
    && 0 < c.port <= 65535 && c.connectTimeout > 0
    && c.authorizeTimeout > 0 && c.maxConcurrent > 0 && c.outboundQueueDepth > 0
    && c.maxMessageBytes > 0 && c.keepaliveInterval > 0 && c.keepaliveTimeout > 0
    && c.keepaliveTimeout > c.keepaliveInterval
  }

  /** How `Resolve` reads its fields is what the fields stand for. */
  lemma FieldsStand(vars: Vars, p: Parsers)
    ensures forall text, default, value ::
              Field(text, default, p.duration) == Some(value) <==> StandsFor(value, text, default, p.duration)
    ensures forall text, default, value ::
              Field(text, default, p.integer) == Some(value) <==> StandsFor(value, text, default, p.integer)
    ensures forall text, default, value ::
              Field(text, default, p.long) == Some(value) <==> StandsFor(value, text, default, p.long)
    ensures forall text, default, value ::
              Field(text, default, p.level) == Some(value) <==> StandsFor(value, text, default, p.level)
    ensures forall text, default, value ::
              Field(text, default, p.boolean) == Some(value) <==> StandsFor(value, text, default, p.boolean)
    ensures forall key, field, default ::
              TextStandsFor(field, vars, key, default) <==> field == FirstNonEmpty(Lookup(vars, key), default)
  {
  }

  /** Every numeric field of an accepted configuration is its variable's value, or its default when that is blank;
      it is accepted exactly when every variable parses and the result is valid. */
  method Resolve(vars: Vars, p: Parsers) returns (r: Option<Config>)
    ensures r.Some? ==> Validate(r.value, p.urlOk) && Agrees(vars, p, r.value)
    ensures r.None? ==> forall c :: Agrees(vars, p, c) ==> !Validate(c, p.urlOk)
  {
    hide TrimSpace, Validate, Field, StandsFor, TextStandsFor, Lookup;
    FieldsStand(vars, p);
    var c := Config(
      Lookup(vars, LISTEN_ADDRESS), Lookup(vars, BACKEND_BASE_URL),
      FirstNonEmpty(Lookup(vars, SSH_PRIVATE_KEY_PATH), "secrets/gateway_ssh_ed25519"),
      FirstNonEmpty(Lookup(vars, SSH_PUBLIC_KEY_PATH), "secrets/gateway_ssh_ed25519.pub"),
      FirstNonEmpty(Lookup(vars, SSH_USERNAME), "pi"),
      5 * SECOND, 5 * SECOND, 22, 5 * SECOND, true, 120 * SECOND, 32, 16, 65536, 30 * SECOND, 75 * SECOND, 0);
    var duration := Field(Lookup(vars, BACKEND_TIMEOUT), c.validationTimeout, p.duration);
    if duration.None? { return None; }
    c := c.(validationTimeout := duration.value);
    duration := Field(Lookup(vars, HTTP_READ_HEADER_TIMEOUT), c.readHeaderTimeout, p.duration);
    if duration.None? { return None; }
    c := c.(readHeaderTimeout := duration.value);
    var integer := Field(Lookup(vars, SSH_PORT), c.port, p.integer);
    if integer.None? { return None; }
    c := c.(port := integer.value);
    duration := Field(Lookup(vars, SSH_CONNECT_TIMEOUT), c.connectTimeout, p.duration);
    if duration.None? { return None; }
    c := c.(connectTimeout := duration.value);
    var boolean := Field(Lookup(vars, SSH_INSECURE_IGNORE_HOST_KEY), c.insecureIgnoreHostKey, p.boolean);
    if boolean.None? { return None; }
    c := c.(insecureIgnoreHostKey := boolean.value);
    duration := Field(AuthorizeText(vars), c.authorizeTimeout, p.duration);
    if duration.None? { return None; }
    c := c.(authorizeTimeout := duration.value);
    integer := Field(Lookup(vars, SESSION_MAX_CONCURRENT), c.maxConcurrent, p.integer);
    if integer.None? { return None; }
    c := c.(maxConcurrent := integer.value);
    integer := Field(Lookup(vars, SESSION_OUTBOUND_QUEUE), c.outboundQueueDepth, p.integer);
    if integer.None? { return None; }
    c := c.(outboundQueueDepth := integer.value);
    var long := Field(Lookup(vars, WEBSOCKET_MAX_MESSAGE_BYTES), c.maxMessageBytes, p.long);
    if long.None? { return None; }
    c := c.(maxMessageBytes := long.value);
    duration := Field(Lookup(vars, WEBSOCKET_KEEPALIVE_INTERVAL), c.keepaliveInterval, p.duration);
    if duration.None? { return None; }
    c := c.(keepaliveInterval := duration.value);
    duration := Field(Lookup(vars, WEBSOCKET_KEEPALIVE_TIMEOUT), c.keepaliveTimeout, p.duration);
    if duration.None? { return None; }
    c := c.(keepaliveTimeout := duration.value);
    var level := Field(Lookup(vars, LOG_LEVEL), c.level, p.level);
    if level.None? { return None; }
    c := c.(level := level.value);
    r := if Validate(c, p.urlOk) then Some(c) else None;
  }

  /** A field stands for a variable: its default when the variable is blank, else what the variable parses to. */
  predicate StandsFor<T(==)>(field: T, text: string, default: T, parse: string -> Option<T>) {
    (text == "" ==> field == default) && (text != "" ==> parse(text) == Some(field))
  }

  /** A text field stands for a variable: its default when the variable is missing or blank, else its trimmed value. */
  predicate TextStandsFor(field: string, vars: Vars, key: string, default: string) {
    field == if key !in vars || TrimSpace(vars[key]) == "" then default else TrimSpace(vars[key])
  }

  /** The configuration the variables spell; there is at most one. */
  predicate Agrees(vars: Vars, p: Parsers, c: Config) {
    && TextStandsFor(c.listenAddress, vars, "GATEWAY_LISTEN_ADDRESS", "")
    && TextStandsFor(c.baseURL, vars, "GATEWAY_BACKEND_BASE_URL", "")
    && TextStandsFor(c.privateKeyPath, vars, "GATEWAY_SSH_PRIVATE_KEY_PATH", "secrets/gateway_ssh_ed25519")
    && TextStandsFor(c.publicKeyPath, vars, "GATEWAY_SSH_PUBLIC_KEY_PATH", "secrets/gateway_ssh_ed25519.pub")
    && TextStandsFor(c.username, vars, "GATEWAY_SSH_USERNAME", "pi")
    && StandsFor(c.validationTimeout, Lookup(vars, "GATEWAY_BACKEND_TIMEOUT"), 5 * SECOND, p.duration)
    && StandsFor(c.readHeaderTimeout, Lookup(vars, "GATEWAY_HTTP_READ_HEADER_TIMEOUT"), 5 * SECOND, p.duration)
    && StandsFor(c.port, Lookup(vars, "GATEWAY_SSH_PORT"), 22, p.integer)
    && StandsFor(c.connectTimeout, Lookup(vars, "GATEWAY_SSH_CONNECT_TIMEOUT"), 5 * SECOND, p.duration)
    && StandsFor(c.insecureIgnoreHostKey, Lookup(vars, "GATEWAY_SSH_INSECURE_IGNORE_HOST_KEY"), true, p.boolean)
    && StandsFor(c.authorizeTimeout,
                 if Lookup(vars, "GATEWAY_SESSION_AUTHORIZE_TIMEOUT") != ""
                 then Lookup(vars, "GATEWAY_SESSION_AUTHORIZE_TIMEOUT")
                 else Lookup(vars, "GATEWAY_SESSION_IDLE_TIMEOUT"),
                 120 * SECOND, p.duration)
    && StandsFor(c.maxConcurrent, Lookup(vars, "GATEWAY_SESSION_MAX_CONCURRENT"), 32, p.integer)
    && StandsFor(c.outboundQueueDepth, Lookup(vars, "GATEWAY_SESSION_OUTBOUND_QUEUE_DEPTH"), 16, p.integer)
    && StandsFor(c.maxMessageBytes, Lookup(vars, "GATEWAY_WEBSOCKET_MAX_MESSAGE_BYTES"), 65536, p.long)
    && StandsFor(c.keepaliveInterval, Lookup(vars, "GATEWAY_WEBSOCKET_KEEPALIVE_INTERVAL"), 30 * SECOND, p.duration)
    && StandsFor(c.keepaliveTimeout, Lookup(vars, "GATEWAY_WEBSOCKET_KEEPALIVE_TIMEOUT"), 75 * SECOND, p.duration)
    && StandsFor(c.level, Lookup(vars, "GATEWAY_LOG_LEVEL"), 0, p.level)
  }

  // ---- the registry's own defaults ----

  datatype RegistryConfig = RegistryConfig(interval: int, timeout: int, maxConcurrent: int, queueDepth: int)

  /** `newSessionRegistry` hands these over. */
  function HandedOver(c: Config): RegistryConfig {
    RegistryConfig(c.keepaliveInterval, c.keepaliveTimeout, c.maxConcurrent, c.outboundQueueDepth)
  }

  /** `NewRegistry` replaces what is not positive by a default. */
  function NewRegistryConfig(given: RegistryConfig): RegistryConfig {
    RegistryConfig(
      if given.interval > 0 then given.interval else 30 * SECOND,
      if given.timeout > 0 then given.timeout else 75 * SECOND,
      if given.maxConcurrent > 0 then given.maxConcurrent else 32,
      if given.queueDepth > 0 then given.queueDepth else 16)
  }

  /** What the rest of the gateway relies on. */
  predicate Runnable(r: RegistryConfig) {
    r.timeout > r.interval > 0 && r.maxConcurrent >= 1 && r.queueDepth >= 1
  }

  /** A configuration `Validate` accepts reaches the registry unchanged, and makes it runnable. */
  lemma AcceptedReachesRegistry(c: Config, urlOk: string -> bool)
    requires Validate(c, urlOk)
    ensures NewRegistryConfig(HandedOver(c)) == HandedOver(c)
    ensures Runnable(NewRegistryConfig(HandedOver(c)))
  {
  }

  lemma DefaultsStand(vars: Vars, p: Parsers, c: Config)
    requires Agrees(vars, p, c) && vars.Keys == {LISTEN_ADDRESS, BACKEND_BASE_URL}
    ensures c == Config(
                   TrimSpace(vars[LISTEN_ADDRESS]), TrimSpace(vars[BACKEND_BASE_URL]), "secrets/gateway_ssh_ed25519",
                   "secrets/gateway_ssh_ed25519.pub", "pi", 5 * SECOND, 5 * SECOND, 22, 5 * SECOND, true, 120 * SECOND,
                   32, 16, 65536, 30 * SECOND, 75 * SECOND, 0)
  {
    hide TrimSpace;
  }

  lemma DefaultNamesAreGiven()
    ensures TrimSpace("secrets/gateway_ssh_ed25519") != "" && TrimSpace("secrets/gateway_ssh_ed25519.pub") != ""
    ensures TrimSpace("pi") != ""
  {
    TrimSpaceKeeps("secrets/gateway_ssh_ed25519");
    TrimSpaceKeeps("secrets/gateway_ssh_ed25519.pub");
    TrimSpaceKeeps("pi");
    hide TrimSpace;
  }

  /** With nothing set but the address to listen at and the backend's URL, the defaults make a valid configuration. */
  lemma DefaultsAreValid(vars: Vars, p: Parsers, c: Config)
    requires Agrees(vars, p, c) && vars.Keys == {LISTEN_ADDRESS, BACKEND_BASE_URL}
    ensures Validate(c, p.urlOk) <==>
              && !AllSpace(vars[LISTEN_ADDRESS]) && !AllSpace(vars[BACKEND_BASE_URL])
              && p.urlOk(TrimSpace(vars[BACKEND_BASE_URL]))
    ensures HandedOver(c) == RegistryConfig(30 * SECOND, 75 * SECOND, 32, 16) && c.authorizeTimeout == 120 * SECOND
  {
    var _, _ := TrimSpaceShape(vars[LISTEN_ADDRESS]);
    var _, _ := TrimSpaceShape(vars[BACKEND_BASE_URL]);
    DefaultNamesAreGiven();
    DefaultsStand(vars, p, c);
    hide TrimSpace, Agrees;
  }

  /** On its own, `NewRegistry` gives positive values, and a registry that is not runnable in exactly three cases: a
      given timeout that does not exceed a given interval, a given interval that the default timeout does not exceed,
      and a given timeout that does not exceed the default interval. */
  lemma RunnableIff(given: RegistryConfig)
    ensures var r := NewRegistryConfig(given);
            && r.interval > 0 && r.timeout > 0
            && (!Runnable(r) <==>
                  || (given.interval > 0 && 0 < given.timeout <= given.interval)
                  || (given.interval >= 75 * SECOND && given.timeout <= 0)
                  || (given.interval <= 0 && 0 < given.timeout <= 30 * SECOND))
    ensures !Runnable(NewRegistryConfig(RegistryConfig(80 * SECOND, 0, 0, 0)))
  {
  }

  lemma AcceptedIsSane(c: Config, urlOk: string -> bool)
    requires Validate(c, urlOk)
    ensures 1 <= c.port <= 65535 && c.authorizeTimeout > 0 && c.maxMessageBytes > 0
    ensures c.validationTimeout > 0 && c.connectTimeout > 0 && c.readHeaderTimeout > 0
    ensures urlOk(c.baseURL) && !AllSpace(c.listenAddress) && !AllSpace(c.username)
    ensures !AllSpace(c.privateKeyPath) && !AllSpace(c.publicKeyPath)
  {
    var _, _ := TrimSpaceShape(c.listenAddress);
    var _, _ := TrimSpaceShape(c.username);
    var _, _ := TrimSpaceShape(c.privateKeyPath);
    var _, _ := TrimSpaceShape(c.publicKeyPath);
  }

  /** `Load`, up to the registry: what it accepts is what environment and file spell, and makes a runnable registry
      without any of `NewRegistry`'s own defaults. */
  method Load(environment: Vars, lines: Option<seq<string>>, p: Parsers) returns (r: Option<Config>)
    ensures r.Some? ==>
              && (exists vars :: Spells(vars, environment, FileLines(environment, lines)) && Agrees(vars, p, r.value))
              && NewRegistryConfig(HandedOver(r.value)) == HandedOver(r.value)
              && Runnable(HandedOver(r.value))
              && 1 <= r.value.port <= 65535 && r.value.authorizeTimeout > 0 && r.value.maxMessageBytes > 0
              && r.value.validationTimeout > 0 && r.value.connectTimeout > 0 && r.value.readHeaderTimeout > 0
              && p.urlOk(r.value.baseURL) && !AllSpace(r.value.listenAddress) && !AllSpace(r.value.username)
              && !AllSpace(r.value.privateKeyPath) && !AllSpace(r.value.publicKeyPath)
    ensures r.None? ==>
              || (NamesFile(environment)
                  && (lines.None? || exists i :: 0 <= i < |lines.value| && ParseLine(lines.value[i]).Malformed?))
              || (exists vars :: Spells(vars, environment, FileLines(environment, lines))
                                 && forall c :: Agrees(vars, p, c) ==> !Validate(c, p.urlOk))
  {
    NamesFileIff(environment);
    hide Spells, Agrees, Validate, NewRegistryConfig, HandedOver, Runnable, NamesFile, FileLines, ParseLine;
    var vars := LoadVars(environment, lines);
    if vars.Err? {
      return None;
    }
    r := Resolve(vars.value, p);
    if r.Some? {
      AcceptedReachesRegistry(r.value, p.urlOk);
      AcceptedIsSane(r.value, p.urlOk);
    }
  }
}
