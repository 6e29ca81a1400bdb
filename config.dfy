/**
 * The configuration model: the configuration record and its defaults, the
 * `.clauderc` key=value format (parse and serialise), detection of the
 * file format from a path, the dotted-key setter and getter, environment
 * overrides and validation.
 *
 * `f32` fields are kept as reals; parsing and printing them is the
 * `FloatFormat` parameter. Environment variables, the current directory
 * and file existence are parameters too. JSON, YAML and TOML files are
 * read and written by libraries and are not part of this model.
 */
module Config {
  import opened Wrappers
  import opened Errors
  import opened Text

  const U32: nat := 0x1_0000_0000
  const U64: nat := 0x1_0000_0000_0000_0000

  /** How `f32` values are read from and written as text. */
  datatype FloatFormat = FloatFormat(parse: string -> Option<real>, show: real -> string)

  datatype ApiConfig = ApiConfig(
    anthropicApiKey: Option<string>,
    baseUrl: string,
    defaultModel: string,
    maxTokens: nat,
    temperature: real,
    topP: real,
    topK: nat,
    timeout: nat,
    maxRetries: nat,
    stream: bool,
    apiVersion: string)

  datatype McpServerConfig = McpServerConfig(
    name: string, command: string, args: seq<string>, env: map<string, string>,
    workingDir: Option<string>, autoStart: bool)

  datatype UiConfig = UiConfig(theme: string, vimMode: bool, terminalWidth: Option<nat>, showLineNumbers: bool, enableTui: bool)

  datatype PermissionConfig = PermissionConfig(allowedTools: seq<string>, deniedTools: seq<string>, requireConfirmation: bool)

  datatype MemoryConfig = MemoryConfig(maxEntries: nat, memoryFile: Option<string>, autoSave: bool)

  datatype LoggingConfig = LoggingConfig(level: string, file: Option<string>, console: bool, structured: bool, format: string)

  datatype PerformanceConfig = PerformanceConfig(
    maxConcurrentRequests: nat, cacheSizeMb: nat, enableMonitoring: bool, metricsInterval: nat)

  datatype CodeStyleConfig = CodeStyleConfig(indentSize: nat, useTabs: bool, maxLineLength: nat, autoFormat: bool)

  datatype UserPreferences = UserPreferences(
    editor: Option<string>, shell: Option<string>, autosaveInterval: nat,
    enableAutocomplete: bool, enableSyntaxHighlighting: bool, codeStyle: CodeStyleConfig)

  datatype ClaudeConfig = ClaudeConfig(
    api: ApiConfig,
    mcpServers: map<string, McpServerConfig>,
    ui: UiConfig,
    permissions: PermissionConfig,
    workingDirs: seq<string>,
    memory: MemoryConfig,
    logging: LoggingConfig,
    performance: PerformanceConfig,
    preferences: UserPreferences,
    model: Option<string>)

  // ---------------------------------------------------------------------
  // Defaults

  /** `ApiConfig::default`; the key comes from the ANTHROPIC_API_KEY environment variable. */
  function DefaultApi(envKey: Option<string>): ApiConfig {
    ApiConfig(envKey, "https://api.anthropic.com", "claude-3-haiku-20240307", 4096, 0.7, 0.9, 40, 30, 3, true, "2023-06-01")
  }

  /** `ClaudeConfig::default`; the one working directory is the current one, or "." when it cannot be read. */
  function DefaultConfig(envKey: Option<string>, cwd: Option<string>): (c: ClaudeConfig)
    ensures c.api.maxTokens == 4096 && c.api.stream && c.api.anthropicApiKey == envKey
    ensures c.permissions.allowedTools == ["file_read", "file_write", "network_request"]
    ensures c.permissions.deniedTools == [] && c.permissions.requireConfirmation
    ensures |c.workingDirs| == 1
    ensures c.preferences.editor.None? && c.preferences.shell.None? && c.model.None?
  {
    ClaudeConfig(
      DefaultApi(envKey),
      map[],
      UiConfig("default", false, None, true, false),
      PermissionConfig(["file_read", "file_write", "network_request"], [], true),
      [if cwd.Some? then cwd.value else "."],
      MemoryConfig(1000, None, true),
      LoggingConfig("info", None, true, false, "pretty"),
      PerformanceConfig(10, 100, false, 60),
      UserPreferences(None, None, 300, true, true, CodeStyleConfig(4, false, 100, true)),
      None)
  }

  // ---------------------------------------------------------------------
  // Value parsing

  /** Rust's `bool::from_str`: exactly "true" or "false". */
  function ParseBool(s: string): (r: Option<bool>)
    ensures r == Some(true) <==> s == "true"
    ensures r == Some(false) <==> s == "false"
  {
    if s == "true" then Some(true) else if s == "false" then Some(false) else None
  }

  function BoolToString(b: bool): string {
    if b then "true" else "false"
  }

  /** `value.parse().unwrap_or(fallback)` for an unsigned integer type below `bound`. */
  function NatOr(s: string, bound: nat, fallback: nat): (n: nat)
    ensures ParseUnsigned(s, bound).Some? ==> n == ParseUnsigned(s, bound).value
    ensures ParseUnsigned(s, bound).None? ==> n == fallback
  {
    match ParseUnsigned(s, bound)
    case Some(v) => v
    case None => fallback
  }

  function BoolOr(s: string, fallback: bool): bool {
    match ParseBool(s)
    case Some(b) => b
    case None => fallback
  }

  function RealOr(ff: FloatFormat, s: string, fallback: real): real {
    match ff.parse(s)
    case Some(x) => x
    case None => fallback
  }

  // ---------------------------------------------------------------------
  // The .clauderc format

  /** Rust's `str::trim_matches` with a `char` pattern: the character is stripped from both ends. */
  function TrimMatches(s: string, c: char): (r: string)
    ensures r == [] || (r[0] != c && r[|r| - 1] != c)
  {
    TrimEndChar(TrimStartChar(s, c), c)
  }

  /** A value as `parse_rc_format` reads it: trimmed, then stripped of double and then single quotes. */
  function RcValue(raw: string): string {
    TrimMatches(TrimMatches(Trim(raw), '"'), '\'')
  }

  /** The nine keys `parse_rc_format` recognises. */
  datatype RcField = ApiKeyField | BaseUrlField | ModelField | MaxTokensField | TemperatureField
                   | StreamField | LogLevelField | EditorField | ShellField

  function RcFieldOf(key: string): Option<RcField> {
    match key
    case "ANTHROPIC_API_KEY" => Some(ApiKeyField)
    case "API_BASE_URL" => Some(BaseUrlField)
    case "DEFAULT_MODEL" => Some(ModelField)
    case "MAX_TOKENS" => Some(MaxTokensField)
    case "TEMPERATURE" => Some(TemperatureField)
    case "STREAM" => Some(StreamField)
    case "LOG_LEVEL" => Some(LogLevelField)
    case "EDITOR" => Some(EditorField)
    case "SHELL" => Some(ShellField)
    case _ => None
  }

  /** The assignment of one recognised key; numbers and booleans that do not parse fall back to the defaults. */
  function AssignRc(c: ClaudeConfig, f: RcField, value: string, ff: FloatFormat): ClaudeConfig {
    match f
    case ApiKeyField => c.(api := c.api.(anthropicApiKey := Some(value)))
    case BaseUrlField => c.(api := c.api.(baseUrl := value))
    case ModelField => c.(api := c.api.(defaultModel := value))
    case MaxTokensField => c.(api := c.api.(maxTokens := NatOr(value, U32, 4096)))
    case TemperatureField => c.(api := c.api.(temperature := RealOr(ff, value, 0.7)))
    case StreamField => c.(api := c.api.(stream := BoolOr(value, true)))
    case LogLevelField => c.(logging := c.logging.(level := value))
    case EditorField => c.(preferences := c.preferences.(editor := Some(value)))
    case ShellField => c.(preferences := c.preferences.(shell := Some(value)))
  }

  /** Which field each recognised key assigns, and that it assigns nothing else. */
  lemma AssignRcEffect(c: ClaudeConfig, f: RcField, value: string, ff: FloatFormat)
    ensures f == ApiKeyField ==> AssignRc(c, f, value, ff) == c.(api := c.api.(anthropicApiKey := Some(value)))
    ensures f == BaseUrlField ==> AssignRc(c, f, value, ff) == c.(api := c.api.(baseUrl := value))
    ensures f == ModelField ==> AssignRc(c, f, value, ff) == c.(api := c.api.(defaultModel := value))
    ensures f == MaxTokensField ==> AssignRc(c, f, value, ff) == c.(api := c.api.(maxTokens := NatOr(value, U32, 4096)))
    ensures f == TemperatureField ==> AssignRc(c, f, value, ff) == c.(api := c.api.(temperature := RealOr(ff, value, 0.7)))
    ensures f == StreamField ==> AssignRc(c, f, value, ff) == c.(api := c.api.(stream := BoolOr(value, true)))
    ensures f == LogLevelField ==> AssignRc(c, f, value, ff) == c.(logging := c.logging.(level := value))
    ensures f == EditorField ==> AssignRc(c, f, value, ff) == c.(preferences := c.preferences.(editor := Some(value)))
    ensures f == ShellField ==> AssignRc(c, f, value, ff) == c.(preferences := c.preferences.(shell := Some(value)))
  {
  }

  /** The assignment one `.clauderc` key makes; an unknown key changes nothing. */
  function SetRcKey(c: ClaudeConfig, key: string, value: string, ff: FloatFormat): ClaudeConfig {
    match RcFieldOf(key)
    case Some(f) => AssignRc(c, f, value, ff)
    case None => c
  }

  /**
   * One line of `parse_rc_format`: blank lines, '#' comments and lines
   * without '=' are skipped; otherwise the line splits at its first '='
   * into a trimmed key and a value.
   */
  function ApplyRcLine(c: ClaudeConfig, raw: string, ff: FloatFormat): ClaudeConfig {
    var line := Trim(raw);
    if line == [] || StartsWith(line, "#") then c
    else match Find(line, '=')
      case None => c
      case Some(k) => SetRcKey(c, Trim(line[..k]), RcValue(line[k + 1..]), ff)
  }

  function ApplyRcLines(c: ClaudeConfig, lines: seq<string>, ff: FloatFormat): ClaudeConfig
    decreases |lines|
  {
    if lines == [] then c else ApplyRcLines(ApplyRcLine(c, lines[0], ff), lines[1..], ff)
  }

  /** `parse_rc_format`: the default configuration with every line of the text applied in order. */
  method ParseRc(content: string, envKey: Option<string>, cwd: Option<string>, ff: FloatFormat) returns (c: ClaudeConfig)
    ensures c == ApplyRcLines(DefaultConfig(envKey, cwd), Lines(content), ff)
  {
    var lines := Lines(content);
    c := DefaultConfig(envKey, cwd);
    var i := 0;
    while i < |lines|
      invariant i <= |lines|
      invariant ApplyRcLines(c, lines[i..], ff) == ApplyRcLines(DefaultConfig(envKey, cwd), lines, ff)
    {
      assert lines[i..][1..] == lines[i + 1..];
      c := ApplyRcLine(c, lines[i], ff);
      i := i + 1;
    }
  }

  /** A blank line, a comment, or a line without '=' leaves the configuration unchanged. */
  lemma SkippedRcLine(c: ClaudeConfig, raw: string, ff: FloatFormat)
    requires Trim(raw) == [] || StartsWith(Trim(raw), "#") || '=' !in raw
    ensures ApplyRcLine(c, raw, ff) == c
  {
    var line := Trim(raw);
    if '=' !in raw {
      NoNewCharInTrim(raw, '=');
    }
  }

  /** A line whose key is none of the nine known ones leaves the configuration unchanged. */
  lemma UnknownRcKey(c: ClaudeConfig, raw: string, ff: FloatFormat)
    requires Trim(raw) != [] && Find(Trim(raw), '=').Some?
    requires Trim(Trim(raw)[..Find(Trim(raw), '=').value]) !in RcKeys
    ensures ApplyRcLine(c, raw, ff) == c
  {
    var line := Trim(raw);
    var k := Find(line, '=').value;
    if !StartsWith(line, "#") {
      assert ApplyRcLine(c, raw, ff) == SetRcKey(c, Trim(line[..k]), RcValue(line[k + 1..]), ff);
    }
    UnknownKeyUnchanged(c, Trim(line[..k]), RcValue(line[k + 1..]), ff);
  }

  lemma UnknownKeyUnchanged(c: ClaudeConfig, key: string, value: string, ff: FloatFormat)
    requires key !in RcKeys
    ensures SetRcKey(c, key, value, ff) == c
  {
  }

  lemma NoNewCharInTrim(s: string, x: char)
    requires x !in s
    ensures x !in Trim(s)
  {
    forall k | 0 <= k < |Trim(s)|
      ensures Trim(s)[k] != x
    {
      TrimInside(s, k);
    }
  }

  const RcKeys: set<string> := {"ANTHROPIC_API_KEY", "API_BASE_URL", "DEFAULT_MODEL", "MAX_TOKENS", "TEMPERATURE", "STREAM", "LOG_LEVEL", "EDITOR", "SHELL"}

  /** Every character of the trimmed text comes from the text. */
  lemma TrimInside(s: string, k: nat)
    requires k < |Trim(s)|
    ensures Trim(s)[k] in s
  {
    var t := TrimStart(s);
    TrimStartSuffix(s);
    TrimEndPrefix(t);
    assert Trim(s) == TrimEnd(t);
    assert Trim(s)[k] == t[k];
    assert t[k] == s[|s| - |t| + k];
  }

  /** An unparsable MAX_TOKENS value falls back to 4096. */
  lemma BadMaxTokensFallsBack(c: ClaudeConfig, value: string, ff: FloatFormat)
    requires ParseUnsigned(value, U32).None?
    ensures SetRcKey(c, "MAX_TOKENS", value, ff).api.maxTokens == 4096
  {
  }

  /** A value survives the trip through a `.clauderc` line when it has no newline and no quote at either end. */
  predicate RcSafe(v: string) {
    && '\n' !in v
    && (v == [] || (v[0] != '"' && v[0] != '\'' && v[|v| - 1] != '"' && v[|v| - 1] != '\''))
  }

  function Quoted(v: string): string {
    "\"" + v + "\""
  }

  /** A `KEY=value` line of a `.clauderc` file. */
  function RcLine(key: string, value: string): string {
    key + "=" + value
  }

  const RcHeader: seq<string> := ["# Claude Code Configuration", "# This file is automatically generated", "", "# API Configuration"]

  /** A quoted line for an optional value, written only when the value is present. */
  function RcOptLine(key: string, v: Option<string>): seq<string> {
    if v.Some? then [RcLine(key, Quoted(v.value))] else []
  }

  function RcApiLines(c: ClaudeConfig, ff: FloatFormat): seq<string> {
    [RcLine("API_BASE_URL", Quoted(c.api.baseUrl)),
     RcLine("DEFAULT_MODEL", Quoted(c.api.defaultModel)),
     RcLine("MAX_TOKENS", NatToString(c.api.maxTokens)),
     RcLine("TEMPERATURE", ff.show(c.api.temperature)),
     RcLine("STREAM", BoolToString(c.api.stream))]
  }

  function RcLoggingLines(c: ClaudeConfig): seq<string> {
    ["", "# Logging Configuration", RcLine("LOG_LEVEL", Quoted(c.logging.level)), "", "# User Preferences"]
  }

  /** The lines `serialize_rc_format` writes, in order. */
  function RcLines(c: ClaudeConfig, ff: FloatFormat): seq<string> {
    RcHeader + RcOptLine("ANTHROPIC_API_KEY", c.api.anthropicApiKey) + RcApiLines(c, ff) + RcLoggingLines(c)
    + RcOptLine("EDITOR", c.preferences.editor) + RcOptLine("SHELL", c.preferences.shell)
  }

  /** `serialize_rc_format`: the lines joined by '\n'. */
  function SerializeRc(c: ClaudeConfig, ff: FloatFormat): string {
    Join(RcLines(c, ff), "\n")
  }

  lemma TrimEndAppend(p: string, s: string)
    requires p != [] && !IsWhitespace(p[|p| - 1])
    ensures TrimEnd(p + s) == p + TrimEnd(s)
    decreases |s|
  {
    if s != [] && IsWhitespace(s[|s| - 1]) {
      assert (p + s)[..|p + s| - 1] == p + s[..|s| - 1];
      TrimEndAppend(p, s[..|s| - 1]);
    } else if s == [] {
      assert p + s == p;
    }
  }

  /** A key the `.clauderc` reader finds again: no surrounding whitespace, no '=' and not a comment. */
  predicate PlainKey(key: string) {
    key != [] && !IsWhitespace(key[0]) && !IsWhitespace(key[|key| - 1]) && key[0] != '#' && '=' !in key
  }

  /** A line `key=rest` with a plain key assigns that key the value read from `rest`. */
  lemma KeyLine(c: ClaudeConfig, key: string, rest: string, ff: FloatFormat)
    requires PlainKey(key)
    ensures ApplyRcLine(c, RcLine(key, rest), ff) == SetRcKey(c, key, RcValue(TrimEnd(rest)), ff)
  {
    var t := TrimEnd(rest);
    var line := key + "=" + t;
    KeyLineTrim(key, rest);
    KeyLineSplit(key, t);
    assert TrimStart(key) == key;
    assert TrimEnd(key) == key;
  }

  lemma KeyLineTrim(key: string, rest: string)
    requires PlainKey(key)
    ensures Trim(RcLine(key, rest)) == key + "=" + TrimEnd(rest)
  {
    var raw := key + "=" + rest;
    assert TrimStart(raw) == raw;
    TrimEndAppend(key + "=", rest);
  }

  lemma KeyLineSplit(key: string, t: string)
    requires PlainKey(key)
    ensures var line := key + "=" + t;
      && line != [] && !StartsWith(line, "#")
      && Find(line, '=') == Some(|key|)
      && line[..|key|] == key && line[|key| + 1..] == t
  {
    var line := key + "=" + t;
    AppendAssoc(key, "=", t);
    FindAfterFree(key, '=', "=" + t);
    assert line[0] == key[0];
    NotStartsWithChar(line, "#");
  }

  lemma TrimMatchesKeeps(s: string, c: char)
    requires s == [] || (s[0] != c && s[|s| - 1] != c)
    ensures TrimMatches(s, c) == s
  {
  }

  lemma QuotedTrim(v: string)
    ensures TrimEnd(Quoted(v)) == Quoted(v) && Trim(Quoted(v)) == Quoted(v)
  {
    var q := Quoted(v);
    assert TrimEnd(q) == q;
    assert TrimStart(q) == q;
  }

  lemma QuotedStrip(v: string)
    requires RcSafe(v)
    ensures TrimMatches(Quoted(v), '"') == v
  {
    var q := Quoted(v);
    assert q[1..] == v + "\"";
    var w := v + "\"";
    if v == [] {
      assert TrimStartChar(q, '"') == [];
    } else {
      assert TrimStartChar(q, '"') == w;
      assert w[..|v|] == v;
      assert TrimEndChar(w, '"') == TrimEndChar(v, '"');
    }
  }

  /** A quoted safe value reads back as the value itself. */
  lemma QuotedValue(v: string)
    requires RcSafe(v)
    ensures RcValue(TrimEnd(Quoted(v))) == v
  {
    var q := Quoted(v);
    QuotedTrim(v);
    assert RcValue(TrimEnd(q)) == TrimMatches(TrimMatches(q, '"'), '\'');
    QuotedStrip(v);
    assert v == [] || (v[0] != '\'' && v[|v| - 1] != '\'');
    TrimMatchesKeeps(v, '\'');
  }

  /** A value with no whitespace and no quote at either end reads back unchanged. */
  lemma PlainValue(v: string)
    requires v != [] && !IsWhitespace(v[0]) && !IsWhitespace(v[|v| - 1])
    requires v[0] != '"' && v[0] != '\'' && v[|v| - 1] != '"' && v[|v| - 1] != '\''
    ensures RcValue(TrimEnd(v)) == v
  {
    assert TrimEnd(v) == v;
    assert TrimStart(v) == v;
    TrimMatchesKeeps(v, '"');
    TrimMatchesKeeps(v, '\'');
  }

  lemma NumberValue(n: nat)
    ensures RcValue(TrimEnd(NatToString(n))) == NatToString(n)
  {
    var s := NatToString(n);
    assert IsAsciiDigit(s[0]) && IsAsciiDigit(s[|s| - 1]);
    PlainValue(s);
  }

  /** What the serialised configuration brings back: the fields `serialize_rc_format` writes. */
  predicate RcFieldsAgree(p: ClaudeConfig, c: ClaudeConfig, envKey: Option<string>) {
    && p.api.anthropicApiKey == (if c.api.anthropicApiKey.Some? then c.api.anthropicApiKey else envKey)
    && p.api.baseUrl == c.api.baseUrl
    && p.api.defaultModel == c.api.defaultModel
    && p.api.maxTokens == c.api.maxTokens
    && p.api.stream == c.api.stream
    && p.logging.level == c.logging.level
    && p.preferences.editor == c.preferences.editor
    && p.preferences.shell == c.preferences.shell
  }

  /** The string fields the `.clauderc` format carries are all safe, and the token limit is a `u32`. */
  predicate RcRepresentable(c: ClaudeConfig, ff: FloatFormat) {
    && (c.api.anthropicApiKey.Some? ==> RcSafe(c.api.anthropicApiKey.value))
    && RcSafe(c.api.baseUrl) && RcSafe(c.api.defaultModel) && RcSafe(c.logging.level)
    && (c.preferences.editor.Some? ==> RcSafe(c.preferences.editor.value))
    && (c.preferences.shell.Some? ==> RcSafe(c.preferences.shell.value))
    && c.api.maxTokens < U32
    && '\n' !in ff.show(c.api.temperature) && '\r' !in ff.show(c.api.temperature)
  }

  /**
   * Parsing the serialised configuration restores the API key (or, when
   * there was none, the environment's), the base URL, the model, the
   * token limit, streaming, the log level, the editor and the shell.
   */
  lemma {:induction false} RcRoundTrip(c: ClaudeConfig, envKey: Option<string>, cwd: Option<string>, ff: FloatFormat)
    requires RcRepresentable(c, ff)
    ensures RcFieldsAgree(ApplyRcLines(DefaultConfig(envKey, cwd), Lines(SerializeRc(c, ff)), ff), c, envKey)
  {
    var parts := RcLines(c, ff);
    RcLinesShape(c, ff);
    LinesOfJoin(parts);
    RcLinesApply(c, DefaultConfig(envKey, cwd), ff);
  }

  lemma RcLinePlain(key: string, value: string)
    requires '\n' !in key && PlainLine(value)
    ensures PlainLine(RcLine(key, value))
  {
    var l := RcLine(key, value);
    if value != [] {
      assert l[|l| - 1] == value[|value| - 1];
    }
  }

  lemma QuotedPlain(v: string)
    requires '\n' !in v
    ensures PlainLine(Quoted(v))
  {
  }

  lemma OptLinePlain(key: string, v: Option<string>)
    requires '\n' !in key && (v.Some? ==> '\n' !in v.value)
    ensures PlainLines(RcOptLine(key, v))
  {
    if v.Some? {
      QuotedPlain(v.value);
      RcLinePlain(key, Quoted(v.value));
    }
  }

  lemma ApiLinesPlain(c: ClaudeConfig, ff: FloatFormat)
    requires RcRepresentable(c, ff)
    ensures PlainLines(RcApiLines(c, ff))
  {
    QuotedPlain(c.api.baseUrl);
    RcLinePlain("API_BASE_URL", Quoted(c.api.baseUrl));
    QuotedPlain(c.api.defaultModel);
    RcLinePlain("DEFAULT_MODEL", Quoted(c.api.defaultModel));
    var n := NatToString(c.api.maxTokens);
    assert IsAsciiDigit(n[|n| - 1]);
    RcLinePlain("MAX_TOKENS", n);
    RcLinePlain("TEMPERATURE", ff.show(c.api.temperature));
    RcLinePlain("STREAM", BoolToString(c.api.stream));
  }

  lemma LoggingLinesPlain(c: ClaudeConfig)
    requires RcSafe(c.logging.level)
    ensures PlainLines(RcLoggingLines(c))
  {
    QuotedPlain(c.logging.level);
    RcLinePlain("LOG_LEVEL", Quoted(c.logging.level));
    CommentPlain("# Logging Configuration");
    CommentPlain("# User Preferences");
  }

  lemma HeaderPlain()
    ensures PlainLines(RcHeader)
  {
    CommentPlain("# Claude Code Configuration");
    CommentPlain("# This file is automatically generated");
    CommentPlain("# API Configuration");
  }

  lemma CommentPlain(line: string)
    requires forall i :: 0 <= i < |line| ==> ' ' <= line[i] <= '~'
    ensures PlainLine(line)
  {
  }

  lemma {:induction false} RcLinesShape(c: ClaudeConfig, ff: FloatFormat)
    requires RcRepresentable(c, ff)
    ensures var parts := RcLines(c, ff);
      |parts| >= 1 && parts[|parts| - 1] != [] && PlainLines(parts)
  {
    OptLinePlain("ANTHROPIC_API_KEY", c.api.anthropicApiKey);
    OptLinePlain("EDITOR", c.preferences.editor);
    OptLinePlain("SHELL", c.preferences.shell);
    ApiLinesPlain(c, ff);
    LoggingLinesPlain(c);
    HeaderPlain();
    var k := RcHeader + RcOptLine("ANTHROPIC_API_KEY", c.api.anthropicApiKey);
    PlainLinesAppend(RcHeader, RcOptLine("ANTHROPIC_API_KEY", c.api.anthropicApiKey));
    PlainLinesAppend(k, RcApiLines(c, ff));
    PlainLinesAppend(k + RcApiLines(c, ff), RcLoggingLines(c));
    var g := k + RcApiLines(c, ff) + RcLoggingLines(c);
    PlainLinesAppend(g, RcOptLine("EDITOR", c.preferences.editor));
    PlainLinesAppend(g + RcOptLine("EDITOR", c.preferences.editor), RcOptLine("SHELL", c.preferences.shell));
    var parts := RcLines(c, ff);
    assert parts[|parts| - 1] != [] by {
      if c.preferences.shell.Some? {
        assert parts[|parts| - 1] == RcLine("SHELL", Quoted(c.preferences.shell.value));
      } else if c.preferences.editor.Some? {
        assert parts[|parts| - 1] == RcLine("EDITOR", Quoted(c.preferences.editor.value));
      } else {
        assert parts[|parts| - 1] == "# User Preferences";
      }
    }
  }

  lemma {:induction false} ApplyRcLinesAppend(c: ClaudeConfig, a: seq<string>, b: seq<string>, ff: FloatFormat)
    ensures ApplyRcLines(c, a + b, ff) == ApplyRcLines(ApplyRcLines(c, a, ff), b, ff)
    decreases |a|
  {
    if a == [] {
      assert a + b == b;
    } else {
      assert (a + b)[1..] == a[1..] + b;
      ApplyRcLinesAppend(ApplyRcLine(c, a[0], ff), a[1..], b, ff);
    }
  }

  /** Applying the lines from index `i` on is applying line `i` and then the rest. */
  lemma ApplyRcLinesStep(c: ClaudeConfig, lines: seq<string>, i: nat, ff: FloatFormat)
    requires i < |lines|
    ensures ApplyRcLines(c, lines[i..], ff) == ApplyRcLines(ApplyRcLine(c, lines[i], ff), lines[i + 1..], ff)
  {
    assert lines[i..][1..] == lines[i + 1..];
  }

  /** A line of a recognised key assigns that key's field the value read from the rest of the line. */
  lemma FieldLine(c: ClaudeConfig, key: string, f: RcField, rest: string, ff: FloatFormat)
    requires PlainKey(key) && RcFieldOf(key) == Some(f)
    ensures ApplyRcLine(c, RcLine(key, rest), ff) == AssignRc(c, f, RcValue(TrimEnd(rest)), ff)
  {
    KeyLine(c, key, rest, ff);
  }

  /** A quoted line of a recognised key assigns exactly the safe value it quotes. */
  lemma QuotedLine(c: ClaudeConfig, key: string, f: RcField, v: string, ff: FloatFormat)
    requires PlainKey(key) && RcFieldOf(key) == Some(f) && RcSafe(v)
    ensures ApplyRcLine(c, RcLine(key, Quoted(v)), ff) == AssignRc(c, f, v, ff)
  {
    FieldLine(c, key, f, Quoted(v), ff);
    QuotedValue(v);
  }

  lemma OptLineApply(c: ClaudeConfig, key: string, f: RcField, v: Option<string>, ff: FloatFormat)
    requires PlainKey(key) && RcFieldOf(key) == Some(f) && (v.Some? ==> RcSafe(v.value))
    ensures ApplyRcLines(c, RcOptLine(key, v), ff) == if v.Some? then AssignRc(c, f, v.value, ff) else c
  {
    if v.Some? {
      QuotedLine(c, key, f, v.value, ff);
    }
  }

  lemma BlankLine(c: ClaudeConfig, ff: FloatFormat)
    ensures ApplyRcLine(c, "", ff) == c
  {
  }

  /** A comment line changes nothing. */
  lemma CommentLine(c: ClaudeConfig, line: string, ff: FloatFormat)
    requires line != [] && line[0] == '#' && !IsWhitespace(line[|line| - 1])
    ensures ApplyRcLine(c, line, ff) == c
  {
    assert TrimStart(line) == line;
    assert TrimEnd(line) == line;
    assert Trim(line) == line;
    assert line[..1] == "#";
    assert StartsWith(Trim(line), "#");
  }

  lemma HeaderApply(d: ClaudeConfig, ff: FloatFormat)
    ensures ApplyRcLines(d, RcHeader, ff) == d
  {
    var h := RcHeader;
    CommentLine(d, "# Claude Code Configuration", ff);
    CommentLine(d, "# This file is automatically generated", ff);
    BlankLine(d, ff);
    CommentLine(d, "# API Configuration", ff);
    ApplyRcLinesStep(d, h, 0, ff);
    ApplyRcLinesStep(d, h, 1, ff);
    ApplyRcLinesStep(d, h, 2, ff);
    ApplyRcLinesStep(d, h, 3, ff);
    assert h[0..] == h;
  }

  lemma MaxTokensLine(d: ClaudeConfig, n: nat, ff: FloatFormat)
    requires n < U32
    ensures ApplyRcLine(d, RcLine("MAX_TOKENS", NatToString(n)), ff) == d.(api := d.api.(maxTokens := n))
  {
    var s := NatToString(n);
    FieldLine(d, "MAX_TOKENS", MaxTokensField, s, ff);
    NumberValue(n);
    ParseRendered(n, U32);
    AssignRcEffect(d, MaxTokensField, s, ff);
  }

  lemma TemperatureLine(d: ClaudeConfig, t: string, ff: FloatFormat)
    ensures var e := ApplyRcLine(d, RcLine("TEMPERATURE", t), ff);
      && e.api.anthropicApiKey == d.api.anthropicApiKey && e.api.baseUrl == d.api.baseUrl
      && e.api.defaultModel == d.api.defaultModel && e.api.maxTokens == d.api.maxTokens
      && e.api.stream == d.api.stream && e.logging == d.logging && e.preferences == d.preferences
  {
    FieldLine(d, "TEMPERATURE", TemperatureField, t, ff);
    AssignRcEffect(d, TemperatureField, RcValue(TrimEnd(t)), ff);
  }

  lemma StreamLine(d: ClaudeConfig, b: bool, ff: FloatFormat)
    ensures ApplyRcLine(d, RcLine("STREAM", BoolToString(b)), ff) == d.(api := d.api.(stream := b))
  {
    if b {
      StreamValueLine(d, "true", ff);
    } else {
      StreamValueLine(d, "false", ff);
    }
  }

  lemma StreamValueLine(d: ClaudeConfig, s: string, ff: FloatFormat)
    requires s == "true" || s == "false"
    ensures ApplyRcLine(d, RcLine("STREAM", s), ff) == d.(api := d.api.(stream := s == "true"))
  {
    StreamKey();
    FieldLine(d, "STREAM", StreamField, s, ff);
    StreamValueRead(s);
    StreamAssign(d, s, ff);
  }
  lemma StreamKey()
    ensures PlainKey("STREAM") && RcFieldOf("STREAM") == Some(StreamField)
  {
  }
  lemma StreamAssign(d: ClaudeConfig, s: string, ff: FloatFormat)
    requires BoolOr(s, true) == (s == "true")
    ensures AssignRc(d, StreamField, s, ff) == d.(api := d.api.(stream := s == "true"))
  {
    AssignRcEffect(d, StreamField, s, ff);
  }

  lemma StreamValueRead(s: string)
    requires s == "true" || s == "false"
    ensures RcValue(TrimEnd(s)) == s && BoolOr(s, true) == (s == "true")
  {
    PlainValue(s);
  }

  lemma BaseUrlLine(d: ClaudeConfig, v: string, ff: FloatFormat)
    requires RcSafe(v)
    ensures ApplyRcLine(d, RcLine("API_BASE_URL", Quoted(v)), ff) == d.(api := d.api.(baseUrl := v))
  {
    QuotedLine(d, "API_BASE_URL", BaseUrlField, v, ff);
    AssignRcEffect(d, BaseUrlField, v, ff);
  }

  lemma ModelLine(d: ClaudeConfig, v: string, ff: FloatFormat)
    requires RcSafe(v)
    ensures ApplyRcLine(d, RcLine("DEFAULT_MODEL", Quoted(v)), ff) == d.(api := d.api.(defaultModel := v))
  {
    QuotedLine(d, "DEFAULT_MODEL", ModelField, v, ff);
    AssignRcEffect(d, ModelField, v, ff);
  }

  lemma LogLevelLine(d: ClaudeConfig, v: string, ff: FloatFormat)
    requires RcSafe(v)
    ensures ApplyRcLine(d, RcLine("LOG_LEVEL", Quoted(v)), ff) == d.(logging := d.logging.(level := v))
  {
    QuotedLine(d, "LOG_LEVEL", LogLevelField, v, ff);
    AssignRcEffect(d, LogLevelField, v, ff);
  }

  lemma ApiKeyLines(d: ClaudeConfig, v: Option<string>, ff: FloatFormat)
    requires v.Some? ==> RcSafe(v.value)
    ensures ApplyRcLines(d, RcOptLine("ANTHROPIC_API_KEY", v), ff) == if v.Some? then d.(api := d.api.(anthropicApiKey := v)) else d
  {
    OptLineApply(d, "ANTHROPIC_API_KEY", ApiKeyField, v, ff);
    if v.Some? {
      AssignRcEffect(d, ApiKeyField, v.value, ff);
    }
  }

  lemma EditorLines(d: ClaudeConfig, v: Option<string>, ff: FloatFormat)
    requires v.Some? ==> RcSafe(v.value)
    ensures ApplyRcLines(d, RcOptLine("EDITOR", v), ff) == if v.Some? then d.(preferences := d.preferences.(editor := v)) else d
  {
    OptLineApply(d, "EDITOR", EditorField, v, ff);
    if v.Some? {
      AssignRcEffect(d, EditorField, v.value, ff);
    }
  }

  lemma ShellLines(d: ClaudeConfig, v: Option<string>, ff: FloatFormat)
    requires v.Some? ==> RcSafe(v.value)
    ensures ApplyRcLines(d, RcOptLine("SHELL", v), ff) == if v.Some? then d.(preferences := d.preferences.(shell := v)) else d
  {
    OptLineApply(d, "SHELL", ShellField, v, ff);
    if v.Some? {
      AssignRcEffect(d, ShellField, v.value, ff);
    }
  }

  /** The API block sets the base URL, the model, the token limit, the temperature and streaming. */
  lemma ApiLinesApply(c: ClaudeConfig, d: ClaudeConfig, ff: FloatFormat)
    requires RcRepresentable(c, ff)
    ensures var e := ApplyRcLines(d, RcApiLines(c, ff), ff);
      && e.api.anthropicApiKey == d.api.anthropicApiKey
      && e.api.baseUrl == c.api.baseUrl && e.api.defaultModel == c.api.defaultModel
      && e.api.maxTokens == c.api.maxTokens && e.api.stream == c.api.stream
      && e.logging == d.logging && e.preferences == d.preferences
  {
    var l := RcApiLines(c, ff);
    BaseUrlLine(d, c.api.baseUrl, ff);
    var e1 := d.(api := d.api.(baseUrl := c.api.baseUrl));
    ModelLine(e1, c.api.defaultModel, ff);
    var e2 := e1.(api := e1.api.(defaultModel := c.api.defaultModel));
    MaxTokensLine(e2, c.api.maxTokens, ff);
    var e3 := e2.(api := e2.api.(maxTokens := c.api.maxTokens));
    TemperatureLine(e3, ff.show(c.api.temperature), ff);
    var e4 := ApplyRcLine(e3, l[3], ff);
    StreamLine(e4, c.api.stream, ff);
    var e5 := e4.(api := e4.api.(stream := c.api.stream));
    ApplyRcLinesStep(d, l, 0, ff);
    assert l[0..] == l;
    ApplyRcLinesStep(e1, l, 1, ff);
    ApplyRcLinesStep(e2, l, 2, ff);
    ApplyRcLinesStep(e3, l, 3, ff);
    ApplyRcLinesStep(e4, l, 4, ff);
    assert l[5..] == [];
  }

  /** The logging block sets the log level and nothing else. */
  lemma LoggingLinesApply(c: ClaudeConfig, d: ClaudeConfig, ff: FloatFormat)
    requires RcSafe(c.logging.level)
    ensures ApplyRcLines(d, RcLoggingLines(c), ff) == d.(logging := d.logging.(level := c.logging.level))
  {
    var l := RcLoggingLines(c);
    LogLevelLine(d, c.logging.level, ff);
    var e := d.(logging := d.logging.(level := c.logging.level));
    BlankLine(d, ff);
    ApplyRcLinesStep(d, l, 0, ff);
    assert l[0..] == l;
    assert ApplyRcLines(d, l, ff) == ApplyRcLines(d, l[1..], ff);
    CommentLine(d, "# Logging Configuration", ff);
    ApplyRcLinesStep(d, l, 1, ff);
    assert ApplyRcLines(d, l, ff) == ApplyRcLines(d, l[2..], ff);
    ApplyRcLinesStep(d, l, 2, ff);
    assert ApplyRcLines(d, l, ff) == ApplyRcLines(e, l[3..], ff);
    BlankLine(e, ff);
    ApplyRcLinesStep(e, l, 3, ff);
    CommentLine(e, "# User Preferences", ff);
    ApplyRcLinesStep(e, l, 4, ff);
    assert l[5..] == [];
  }

  /** Applying the serialised lines is applying their six blocks one after another. */
  lemma RcLinesSplit(c: ClaudeConfig, d: ClaudeConfig, ff: FloatFormat)
    ensures ApplyRcLines(d, RcLines(c, ff), ff) ==
      ApplyRcLines(ApplyRcLines(ApplyRcLines(ApplyRcLines(ApplyRcLines(ApplyRcLines(d,
        RcHeader, ff),
        RcOptLine("ANTHROPIC_API_KEY", c.api.anthropicApiKey), ff),
        RcApiLines(c, ff), ff),
        RcLoggingLines(c), ff),
        RcOptLine("EDITOR", c.preferences.editor), ff),
        RcOptLine("SHELL", c.preferences.shell), ff)
  {
    var keyPart := RcOptLine("ANTHROPIC_API_KEY", c.api.anthropicApiKey);
    var api := RcApiLines(c, ff);
    var logging := RcLoggingLines(c);
    var editorPart := RcOptLine("EDITOR", c.preferences.editor);
    var shellPart := RcOptLine("SHELL", c.preferences.shell);
    ApplyRcLinesAppend(d, RcHeader + keyPart + api + logging + editorPart, shellPart, ff);
    ApplyRcLinesAppend(d, RcHeader + keyPart + api + logging, editorPart, ff);
    ApplyRcLinesAppend(d, RcHeader + keyPart + api, logging, ff);
    ApplyRcLinesAppend(d, RcHeader + keyPart, api, ff);
    ApplyRcLinesAppend(d, RcHeader, keyPart, ff);
  }

  /** The lines after the API block set the log level and the optional preferences and keep the API settings. */
  lemma TailLinesApply(c: ClaudeConfig, d: ClaudeConfig, ff: FloatFormat)
    requires RcRepresentable(c, ff)
    requires d.preferences.editor.None? && d.preferences.shell.None?
    ensures var e := ApplyRcLines(ApplyRcLines(ApplyRcLines(d,
        RcLoggingLines(c), ff),
        RcOptLine("EDITOR", c.preferences.editor), ff),
        RcOptLine("SHELL", c.preferences.shell), ff);
      && e.api == d.api && e.logging.level == c.logging.level
      && e.preferences.editor == c.preferences.editor && e.preferences.shell == c.preferences.shell
  {
    LoggingLinesApply(c, d, ff);
    PreferenceLinesApply(c, d.(logging := d.logging.(level := c.logging.level)), ff);
  }

  /** The editor and shell lines set those preferences and nothing else. */
  lemma PreferenceLinesApply(c: ClaudeConfig, d: ClaudeConfig, ff: FloatFormat)
    requires RcRepresentable(c, ff)
    requires d.preferences.editor.None? && d.preferences.shell.None?
    ensures var e := ApplyRcLines(ApplyRcLines(d, RcOptLine("EDITOR", c.preferences.editor), ff),
        RcOptLine("SHELL", c.preferences.shell), ff);
      && e.api == d.api && e.logging == d.logging
      && e.preferences.editor == c.preferences.editor && e.preferences.shell == c.preferences.shell
  {
    EditorLines(d, c.preferences.editor, ff);
    var d5 := ApplyRcLines(d, RcOptLine("EDITOR", c.preferences.editor), ff);
    ShellLines(d5, c.preferences.shell, ff);
  }

  /** The header and the key line set the API key when the configuration has one. */
  lemma HeadLinesApply(c: ClaudeConfig, d: ClaudeConfig, ff: FloatFormat)
    requires RcRepresentable(c, ff)
    ensures ApplyRcLines(ApplyRcLines(d, RcHeader, ff), RcOptLine("ANTHROPIC_API_KEY", c.api.anthropicApiKey), ff)
      == if c.api.anthropicApiKey.Some? then d.(api := d.api.(anthropicApiKey := c.api.anthropicApiKey)) else d
  {
    HeaderApply(d, ff);
    ApiKeyLines(d, c.api.anthropicApiKey, ff);
  }

  lemma {:induction false} RcLinesApply(c: ClaudeConfig, d: ClaudeConfig, ff: FloatFormat)
    requires RcRepresentable(c, ff)
    requires d.preferences.editor.None? && d.preferences.shell.None?
    ensures RcFieldsAgree(ApplyRcLines(d, RcLines(c, ff), ff), c, d.api.anthropicApiKey)
  {
    RcLinesSplit(c, d, ff);
    HeadLinesApply(c, d, ff);
    var d2 := if c.api.anthropicApiKey.Some? then d.(api := d.api.(anthropicApiKey := c.api.anthropicApiKey)) else d;
    ApiLinesApply(c, d2, ff);
    var d3 := ApplyRcLines(d2, RcApiLines(c, ff), ff);
    TailLinesApply(c, d3, ff);
  }
}
