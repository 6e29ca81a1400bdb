/**
 * The configuration manager: detection of a configuration file's format
 * from its path, the search for an existing configuration file, the
 * dotted-key setter and getter, environment overrides, the example
 * configuration and validation. The configuration record, its defaults
 * and the `.clauderc` format are in the `Config` module.
 */
module ConfigStore {
  import opened Wrappers
  import opened Errors
  import opened Text
  import opened Config

  datatype ConfigFormat = JsonFormat | YamlFormat | TomlFormat | RcFormat

  // ---------------------------------------------------------------------
  // Paths

  /** The index of the last occurrence of `c` in `s`. */
  function FindLast(s: string, c: char): (r: Option<nat>)
    ensures r.Some? ==> r.value < |s| && s[r.value] == c && c !in s[r.value + 1..]
    ensures r.None? ==> c !in s
  {
    if s == [] then None
    else if s[|s| - 1] == c then Some(|s| - 1)
    else
      var r := FindLast(s[..|s| - 1], c);
      assert s == s[..|s| - 1] + [s[|s| - 1]];
      r
  }

  /** The path without its trailing '/' separators. */
  function DropTrailingSlashes(path: string): (r: string)
    ensures r == [] || r[|r| - 1] != '/'
    ensures |r| <= |path| && r == path[..|r|]
  {
    if path != [] && path[|path| - 1] == '/' then DropTrailingSlashes(path[..|path| - 1]) else path
  }

  /**
   * `Path::file_name`: the last component, or nothing when the path is
   * empty, is the root, or ends in "..".
   */
  function FileName(path: string): (r: Option<string>)
    ensures r.Some? ==> r.value != [] && '/' !in r.value && r.value != ".."
  {
    var p := DropTrailingSlashes(path);
    var name := match FindLast(p, '/') case Some(i) => p[i + 1..] case None => p;
    if name == [] || name == ".." then None else Some(name)
  }

  /**
   * `Path::extension`: what follows the last '.' of the file name, unless
   * that '.' is the name's first character (a hidden file such as
   * `.clauderc` has no extension).
   */
  function Extension(name: Option<string>): (r: Option<string>)
    ensures r.Some? ==> name.Some? && '.' !in r.value && EndsWith(name.value, "." + r.value)
  {
    match name
    case None => None
    case Some(n) =>
      match FindLast(n, '.')
      case Some(i) =>
        if i == 0 then None
        else
          assert n[i..] == "." + n[i + 1..];
          Some(n[i + 1..])
      case None => None
  }

  /**
   * `detect_format`: the extension, lower-cased, selects JSON, YAML (both
   * spellings) or TOML; a file named `.clauderc` is in the rc format;
   * anything else is an error.
   */
  function DetectFormat(path: string): (r: Result<ConfigFormat, ClaudeError>)
    ensures r == Ok(JsonFormat) <==> Extension(FileName(path)).Some? && ToLowerAscii(Extension(FileName(path)).value) == "json"
    ensures r == Ok(YamlFormat) <==> Extension(FileName(path)).Some? && ToLowerAscii(Extension(FileName(path)).value) in {"yaml", "yml"}
    ensures r == Ok(TomlFormat) <==> Extension(FileName(path)).Some? && ToLowerAscii(Extension(FileName(path)).value) == "toml"
    ensures r == Ok(RcFormat) <==> FileName(path) == Some(".clauderc")
  {
    var name := FileName(path);
    match Extension(name)
    case Some(ext) =>
      var lower := ToLowerAscii(ext);
      if lower == "json" then Ok(JsonFormat)
      else if lower == "yaml" || lower == "yml" then Ok(YamlFormat)
      else if lower == "toml" then Ok(TomlFormat)
      else if name == Some(".clauderc") then Ok(RcFormat)
      else Err(General("Unsupported config file format: " + ext))
    case None =>
      if name == Some(".clauderc") then Ok(RcFormat)
      else Err(General("Cannot detect config file format"))
  }

  /** A file named `.clauderc` is in the rc format in any directory. */
  lemma DetectRcFile(dir: string)
    ensures DetectFormat(dir + "/.clauderc") == Ok(RcFormat)
  {
    RcNameIsComponent();
    FileNameJoin(dir, ".clauderc");
    assert dir + "/" + ".clauderc" == dir + "/.clauderc";
  }

  lemma RcNameIsComponent()
    ensures '/' !in ".clauderc" && ".clauderc" != ".."
  {
    var name := ".clauderc";
    assert name[0] == '.' && name[1] == 'c' && |name| == 9;
    assert forall i :: 0 <= i < |name| ==> name[i] != '/';
  }

  /** The file name of `dir/name` is `name` when `name` is a single component. */
  lemma FileNameJoin(dir: string, name: string)
    requires name != [] && '/' !in name && name != ".."
    ensures FileName(dir + "/" + name) == Some(name)
  {
    var p := dir + "/" + name;
    assert DropTrailingSlashes(p) == p;
    FindLastAfterFree(dir + "/", name, '/');
    assert p == (dir + "/") + name;
    assert FindLast(dir + "/", '/') == Some(|dir|);
    assert p[|dir| + 1..] == name;
  }

  /** Appending text free of `c` does not move its last occurrence. */
  lemma {:induction false} FindLastAfterFree(a: string, b: string, c: char)
    requires c !in b
    ensures FindLast(a + b, c) == if c in a then FindLast(a, c) else None
    decreases |b|
  {
    if b == [] {
      assert a + b == a;
    } else {
      var s := a + b;
      assert s[..|s| - 1] == a + b[..|b| - 1];
      assert s[|s| - 1] == b[|b| - 1];
      FindLastAfterFree(a, b[..|b| - 1], c);
    }
  }

  /** The places `find_config_file` looks, in order: the current directory, the home directory, then `~/.config/claude`. */
  function ConfigCandidates(home: string): seq<(string, ConfigFormat)> {
    [("./claude.json", JsonFormat), ("./claude.yaml", YamlFormat), ("./claude.yml", YamlFormat), ("./claude.toml", TomlFormat),
     ("./.clauderc", RcFormat),
     (home + "/.claude/config.json", JsonFormat), (home + "/.claude/config.yaml", YamlFormat),
     (home + "/.claude/config.yml", YamlFormat), (home + "/.claude/config.toml", TomlFormat), (home + "/.clauderc", RcFormat),
     (home + "/.config/claude/config.json", JsonFormat), (home + "/.config/claude/config.yaml", YamlFormat),
     (home + "/.config/claude/config.toml", TomlFormat)]
  }

  /**
   * `find_config_file`: the first candidate that exists, with its format;
   * an error when none exists. `home` is the HOME variable, "." when unset.
   */
  method FindConfigFile(home: Option<string>, exists_: string -> bool) returns (r: Result<(string, ConfigFormat), ClaudeError>)
    ensures var cs := ConfigCandidates(if home.Some? then home.value else ".");
      && (r.Ok? <==> exists i :: 0 <= i < |cs| && exists_(cs[i].0))
      && (r.Ok? ==> exists i :: 0 <= i < |cs| && r.value == cs[i] && exists_(cs[i].0)
                               && forall j :: 0 <= j < i ==> !exists_(cs[j].0))
      && (r.Err? ==> r.error == General("No config file found"))
  {
    var cs := ConfigCandidates(if home.Some? then home.value else ".");
    var i := 0;
    while i < |cs|
      invariant i <= |cs|
      invariant forall j :: 0 <= j < i ==> !exists_(cs[j].0)
    {
      if exists_(cs[i].0) {
        return Ok(cs[i]);
      }
      i := i + 1;
    }
    r := Err(General("No config file found"));
  }

  // ---------------------------------------------------------------------
  // Dotted keys

  /** The keys `set_value` and `get_value` accept. */
  datatype ConfigKey =
    | ApiKeyKey | BaseUrlKey | DefaultModelKey | MaxTokensKey | TemperatureKey | TopPKey | TopKKey | TimeoutKey | StreamKey
    | ThemeKey | VimModeKey
    | LogLevelKey | LogConsoleKey | LogStructuredKey
    | MaxConcurrentRequestsKey | CacheSizeMbKey | EnableMonitoringKey
    | EditorKey | ShellKey | AutocompleteKey | SyntaxHighlightingKey
    | IndentSizeKey | UseTabsKey | MaxLineLengthKey | AutoFormatKey

  function KeyOf(key: string): Option<ConfigKey>
  {
    match key
    case "api.anthropic_api_key" => Some(ApiKeyKey)
    case "api.base_url" => Some(BaseUrlKey)
    case "api.default_model" => Some(DefaultModelKey)
    case "api.max_tokens" => Some(MaxTokensKey)
    case "api.temperature" => Some(TemperatureKey)
    case "api.top_p" => Some(TopPKey)
    case "api.top_k" => Some(TopKKey)
    case "api.timeout" => Some(TimeoutKey)
    case "api.stream" => Some(StreamKey)
    case "ui.theme" => Some(ThemeKey)
    case "ui.vim_mode" => Some(VimModeKey)
    case "logging.level" => Some(LogLevelKey)
    case "logging.console" => Some(LogConsoleKey)
    case "logging.structured" => Some(LogStructuredKey)
    case "performance.max_concurrent_requests" => Some(MaxConcurrentRequestsKey)
    case "performance.cache_size_mb" => Some(CacheSizeMbKey)
    case "performance.enable_monitoring" => Some(EnableMonitoringKey)
    case "preferences.editor" => Some(EditorKey)
    case "preferences.shell" => Some(ShellKey)
    case "preferences.enable_autocomplete" => Some(AutocompleteKey)
    case "preferences.enable_syntax_highlighting" => Some(SyntaxHighlightingKey)
    case "preferences.code_style.indent_size" => Some(IndentSizeKey)
    case "preferences.code_style.use_tabs" => Some(UseTabsKey)
    case "preferences.code_style.max_line_length" => Some(MaxLineLengthKey)
    case "preferences.code_style.auto_format" => Some(AutoFormatKey)
    case _ => None
  }


  predicate IsTextKey(k: ConfigKey) {
    k in {ApiKeyKey, BaseUrlKey, DefaultModelKey, ThemeKey, LogLevelKey, EditorKey, ShellKey}
  }

  predicate IsNumberKey(k: ConfigKey) {
    k in {MaxTokensKey, TopKKey, TimeoutKey, MaxConcurrentRequestsKey, CacheSizeMbKey, IndentSizeKey, MaxLineLengthKey}
  }

  predicate IsBoolKey(k: ConfigKey) {
    k in {StreamKey, VimModeKey, LogConsoleKey, LogStructuredKey, EnableMonitoringKey,
          AutocompleteKey, SyntaxHighlightingKey, UseTabsKey, AutoFormatKey}
  }

  /** The integer type of a numeric key: `timeout` is a `u64`, the others `u32`. */
  function NumberBound(k: ConfigKey): nat {
    if k == TimeoutKey then U64 else U32
  }

  /** The value `set_value` stores when a numeric key's text does not parse. */
  function NumberFallback(k: ConfigKey): nat {
    match k
    case MaxTokensKey => 4096
    case TopKKey => 40
    case TimeoutKey => 30
    case MaxConcurrentRequestsKey => 10
    case CacheSizeMbKey => 100
    case IndentSizeKey => 4
    case MaxLineLengthKey => 100
    case _ => 0
  }

  /** The value `set_value` stores when a boolean key's text is neither "true" nor "false". */
  function BoolFallback(k: ConfigKey): bool {
    k in {StreamKey, LogConsoleKey, AutocompleteKey, SyntaxHighlightingKey, AutoFormatKey}
  }

  /** The assignment `set_value` makes for a recognised key. */
  function SetKey(c: ClaudeConfig, k: ConfigKey, value: string, ff: FloatFormat): ClaudeConfig {
    var n := NatOr(value, NumberBound(k), NumberFallback(k));
    var b := BoolOr(value, BoolFallback(k));
    match k
    case ApiKeyKey => c.(api := c.api.(anthropicApiKey := Some(value)))
    case BaseUrlKey => c.(api := c.api.(baseUrl := value))
    case DefaultModelKey => c.(api := c.api.(defaultModel := value))
    case MaxTokensKey => c.(api := c.api.(maxTokens := n))
    case TemperatureKey => c.(api := c.api.(temperature := RealOr(ff, value, 0.7)))
    case TopPKey => c.(api := c.api.(topP := RealOr(ff, value, 0.9)))
    case TopKKey => c.(api := c.api.(topK := n))
    case TimeoutKey => c.(api := c.api.(timeout := n))
    case StreamKey => c.(api := c.api.(stream := b))
    case ThemeKey => c.(ui := c.ui.(theme := value))
    case VimModeKey => c.(ui := c.ui.(vimMode := b))
    case LogLevelKey => c.(logging := c.logging.(level := value))
    case LogConsoleKey => c.(logging := c.logging.(console := b))
    case LogStructuredKey => c.(logging := c.logging.(structured := b))
    case MaxConcurrentRequestsKey => c.(performance := c.performance.(maxConcurrentRequests := n))
    case CacheSizeMbKey => c.(performance := c.performance.(cacheSizeMb := n))
    case EnableMonitoringKey => c.(performance := c.performance.(enableMonitoring := b))
    case EditorKey => c.(preferences := c.preferences.(editor := Some(value)))
    case ShellKey => c.(preferences := c.preferences.(shell := Some(value)))
    case AutocompleteKey => c.(preferences := c.preferences.(enableAutocomplete := b))
    case SyntaxHighlightingKey => c.(preferences := c.preferences.(enableSyntaxHighlighting := b))
    case IndentSizeKey => c.(preferences := c.preferences.(codeStyle := c.preferences.codeStyle.(indentSize := n)))
    case UseTabsKey => c.(preferences := c.preferences.(codeStyle := c.preferences.codeStyle.(useTabs := b)))
    case MaxLineLengthKey => c.(preferences := c.preferences.(codeStyle := c.preferences.codeStyle.(maxLineLength := n)))
    case AutoFormatKey => c.(preferences := c.preferences.(codeStyle := c.preferences.codeStyle.(autoFormat := b)))
  }

  function OptText(v: Option<string>): string {
    if v.Some? then v.value else ""
  }

  /** The text `get_value` returns for a recognised key; a missing optional string reads as "". */
  function GetKey(c: ClaudeConfig, k: ConfigKey, ff: FloatFormat): string {
    match k
    case ApiKeyKey => OptText(c.api.anthropicApiKey)
    case BaseUrlKey => c.api.baseUrl
    case DefaultModelKey => c.api.defaultModel
    case MaxTokensKey => NatToString(c.api.maxTokens)
    case TemperatureKey => ff.show(c.api.temperature)
    case TopPKey => ff.show(c.api.topP)
    case TopKKey => NatToString(c.api.topK)
    case TimeoutKey => NatToString(c.api.timeout)
    case StreamKey => BoolToString(c.api.stream)
    case ThemeKey => c.ui.theme
    case VimModeKey => BoolToString(c.ui.vimMode)
    case LogLevelKey => c.logging.level
    case LogConsoleKey => BoolToString(c.logging.console)
    case LogStructuredKey => BoolToString(c.logging.structured)
    case MaxConcurrentRequestsKey => NatToString(c.performance.maxConcurrentRequests)
    case CacheSizeMbKey => NatToString(c.performance.cacheSizeMb)
    case EnableMonitoringKey => BoolToString(c.performance.enableMonitoring)
    case EditorKey => OptText(c.preferences.editor)
    case ShellKey => OptText(c.preferences.shell)
    case AutocompleteKey => BoolToString(c.preferences.enableAutocomplete)
    case SyntaxHighlightingKey => BoolToString(c.preferences.enableSyntaxHighlighting)
    case IndentSizeKey => NatToString(c.preferences.codeStyle.indentSize)
    case UseTabsKey => BoolToString(c.preferences.codeStyle.useTabs)
    case MaxLineLengthKey => NatToString(c.preferences.codeStyle.maxLineLength)
    case AutoFormatKey => BoolToString(c.preferences.codeStyle.autoFormat)
  }

  const UnknownKeyError: ClaudeError := Validation("key", "Unknown configuration key")

  /** Reading a text key after setting it gives the text back. */
  lemma GetAfterSetText(c: ClaudeConfig, k: ConfigKey, v: string, ff: FloatFormat)
    requires IsTextKey(k)
    ensures GetKey(SetKey(c, k, v, ff), k, ff) == v
  {
  }

  /** Reading a numeric key after setting it to an in-range number gives the same digits back. */
  lemma GetAfterSetNumber(c: ClaudeConfig, k: ConfigKey, n: nat, ff: FloatFormat)
    requires IsNumberKey(k) && n < NumberBound(k)
    ensures GetKey(SetKey(c, k, NatToString(n), ff), k, ff) == NatToString(n)
  {
    ParseRendered(n, NumberBound(k));
  }

  /** A numeric key set to text that does not parse holds its fallback. */
  lemma SetNumberFallback(c: ClaudeConfig, k: ConfigKey, v: string, ff: FloatFormat)
    requires IsNumberKey(k) && ParseUnsigned(v, NumberBound(k)).None?
    ensures GetKey(SetKey(c, k, v, ff), k, ff) == NatToString(NumberFallback(k))
  {
  }

  /** A boolean key reads back "true" or "false" as set, and its fallback for any other text. */
  lemma GetAfterSetBool(c: ClaudeConfig, k: ConfigKey, v: string, ff: FloatFormat)
    requires IsBoolKey(k)
    ensures GetKey(SetKey(c, k, v, ff), k, ff) == if v == "true" || v == "false" then v else BoolToString(BoolFallback(k))
  {
  }

  /** Setting one key leaves the value of every other key as it was. */
  lemma SetKeyFrame(c: ClaudeConfig, k: ConfigKey, other: ConfigKey, v: string, ff: FloatFormat)
    requires k != other
    ensures GetKey(SetKey(c, k, v, ff), other, ff) == GetKey(c, other, ff)
  {
    if k in {ApiKeyKey, BaseUrlKey, DefaultModelKey, MaxTokensKey, TemperatureKey, TopPKey, TopKKey, TimeoutKey, StreamKey} {
      SetKeyFrameApi(c, k, other, v, ff);
    } else if k in {ThemeKey, VimModeKey, LogLevelKey, LogConsoleKey, LogStructuredKey} {
      SetKeyFrameUiLogging(c, k, other, v, ff);
    } else if k in {MaxConcurrentRequestsKey, CacheSizeMbKey, EnableMonitoringKey} {
      SetKeyFramePerformance(c, k, other, v, ff);
    } else {
      SetKeyFramePreferences(c, k, other, v, ff);
    }
  }

  lemma SetKeyFrameApi(c: ClaudeConfig, k: ConfigKey, other: ConfigKey, v: string, ff: FloatFormat)
    requires k != other && k in {ApiKeyKey, BaseUrlKey, DefaultModelKey, MaxTokensKey, TemperatureKey, TopPKey, TopKKey, TimeoutKey, StreamKey}
    ensures GetKey(SetKey(c, k, v, ff), other, ff) == GetKey(c, other, ff)
  {
  }

  lemma SetKeyFrameUiLogging(c: ClaudeConfig, k: ConfigKey, other: ConfigKey, v: string, ff: FloatFormat)
    requires k != other && k in {ThemeKey, VimModeKey, LogLevelKey, LogConsoleKey, LogStructuredKey}
    ensures GetKey(SetKey(c, k, v, ff), other, ff) == GetKey(c, other, ff)
  {
  }

  lemma SetKeyFramePerformance(c: ClaudeConfig, k: ConfigKey, other: ConfigKey, v: string, ff: FloatFormat)
    requires k != other && k in {MaxConcurrentRequestsKey, CacheSizeMbKey, EnableMonitoringKey}
    ensures GetKey(SetKey(c, k, v, ff), other, ff) == GetKey(c, other, ff)
  {
  }

  lemma SetKeyFramePreferences(c: ClaudeConfig, k: ConfigKey, other: ConfigKey, v: string, ff: FloatFormat)
    requires k != other && k in {EditorKey, ShellKey, AutocompleteKey, SyntaxHighlightingKey, IndentSizeKey, UseTabsKey, MaxLineLengthKey, AutoFormatKey}
    ensures GetKey(SetKey(c, k, v, ff), other, ff) == GetKey(c, other, ff)
  {
  }

  /**
   * `validate`: the API key must be present, the model non-empty, and the
   * temperature and top-p within [0, 1], checked in that order.
   */
  function Validate(c: ClaudeConfig): (r: Result<(), ClaudeError>)
    ensures r.Ok? <==> c.api.anthropicApiKey.Some? && c.api.defaultModel != []
                       && 0.0 <= c.api.temperature <= 1.0 && 0.0 <= c.api.topP <= 1.0
    ensures c.api.anthropicApiKey.None? ==> r == Err(Validation("api.anthropic_api_key", "API key is required"))
    ensures c.api.anthropicApiKey.Some? && c.api.defaultModel == [] ==>
      r == Err(Validation("api.default_model", "Default model cannot be empty"))
    ensures c.api.anthropicApiKey.Some? && c.api.defaultModel != [] && !(0.0 <= c.api.temperature <= 1.0) ==>
      r == Err(Validation("api.temperature", "Temperature must be between 0.0 and 1.0"))
    ensures c.api.anthropicApiKey.Some? && c.api.defaultModel != [] && 0.0 <= c.api.temperature <= 1.0 && !(0.0 <= c.api.topP <= 1.0) ==>
      r == Err(Validation("api.top_p", "Top-p must be between 0.0 and 1.0"))
  {
    if c.api.anthropicApiKey.None? then Err(Validation("api.anthropic_api_key", "API key is required"))
    else if c.api.defaultModel == [] then Err(Validation("api.default_model", "Default model cannot be empty"))
    else if c.api.temperature < 0.0 || c.api.temperature > 1.0 then
      Err(Validation("api.temperature", "Temperature must be between 0.0 and 1.0"))
    else if c.api.topP < 0.0 || c.api.topP > 1.0 then Err(Validation("api.top_p", "Top-p must be between 0.0 and 1.0"))
    else Ok(())
  }

  /** The defaults validate exactly when the environment supplies an API key. */
  lemma DefaultValidates(envKey: Option<string>, cwd: Option<string>)
    ensures Validate(DefaultConfig(envKey, cwd)).Ok? <==> envKey.Some?
  {
  }

  /** `create_example_config`'s configuration: the defaults with a placeholder key, `code` as editor and zsh as shell. */
  function ExampleConfig(envKey: Option<string>, cwd: Option<string>): (c: ClaudeConfig)
    ensures Validate(c).Ok?
    ensures c.preferences.editor == Some("code") && c.preferences.shell == Some("/bin/zsh")
  {
    var d := DefaultConfig(envKey, cwd);
    d.(api := d.api.(anthropicApiKey := Some("your-api-key-here")),
       preferences := d.preferences.(editor := Some("code"), shell := Some("/bin/zsh")))
  }

  /** The environment variables `load_from_env` reads. */
  function EnvOverrides(c: ClaudeConfig, env: string -> Option<string>): (r: ClaudeConfig)
    ensures env("ANTHROPIC_API_KEY").Some? ==> r.api.anthropicApiKey == env("ANTHROPIC_API_KEY")
    ensures env("ANTHROPIC_API_KEY").None? ==> r.api.anthropicApiKey == c.api.anthropicApiKey
    ensures r.api.baseUrl == (if env("ANTHROPIC_BASE_URL").Some? then env("ANTHROPIC_BASE_URL").value else c.api.baseUrl)
    ensures r.api.defaultModel == (if env("CLAUDE_DEFAULT_MODEL").Some? then env("CLAUDE_DEFAULT_MODEL").value else c.api.defaultModel)
    ensures r.logging.level == (if env("CLAUDE_LOG_LEVEL").Some? then env("CLAUDE_LOG_LEVEL").value else c.logging.level)
    ensures r.preferences.editor == (if env("EDITOR").Some? then env("EDITOR") else c.preferences.editor)
    ensures r.preferences.shell == (if env("SHELL").Some? then env("SHELL") else c.preferences.shell)
    ensures r.api.temperature == c.api.temperature && r.api.topP == c.api.topP && r.api.maxTokens == c.api.maxTokens
    ensures r.ui == c.ui && r.permissions == c.permissions && r.performance == c.performance && r.memory == c.memory
  {
    var a := env("ANTHROPIC_API_KEY");
    var u := env("ANTHROPIC_BASE_URL");
    var m := env("CLAUDE_DEFAULT_MODEL");
    var l := env("CLAUDE_LOG_LEVEL");
    var e := env("EDITOR");
    var s := env("SHELL");
    c.(api := c.api.(anthropicApiKey := if a.Some? then a else c.api.anthropicApiKey,
                     baseUrl := if u.Some? then u.value else c.api.baseUrl,
                     defaultModel := if m.Some? then m.value else c.api.defaultModel),
       logging := c.logging.(level := if l.Some? then l.value else c.logging.level),
       preferences := c.preferences.(editor := if e.Some? then e else c.preferences.editor,
                                     shell := if s.Some? then s else c.preferences.shell))
  }

  /** With an API key in the environment, a configuration that otherwise validates still validates. */
  lemma EnvKeyKeepsValid(c: ClaudeConfig, env: string -> Option<string>)
    requires Validate(c).Ok?
    requires env("CLAUDE_DEFAULT_MODEL").Some? ==> env("CLAUDE_DEFAULT_MODEL").value != []
    ensures Validate(EnvOverrides(c, env)).Ok?
  {
  }

  /**
   * What `from_path` finds at `path`: with the file present, the detected
   * format and then the parsed file (`read` is that parse); with it absent,
   * the defaults are first written out (`saved` is that write) and the
   * format is detected afterwards.
   */
  function OpenOutcome(path: string, fileExists: bool, read: Result<ClaudeConfig, ClaudeError>, saved: Result<(), ClaudeError>,
                       envKey: Option<string>, cwd: Option<string>): (r: Result<(ClaudeConfig, ConfigFormat), ClaudeError>)
    ensures r.Ok? <==> DetectFormat(path).Ok? && (if fileExists then read.Ok? else saved.Ok?)
    ensures r.Ok? ==> r.value.1 == DetectFormat(path).value
    ensures r.Ok? ==> r.value.0 == (if fileExists then read.value else DefaultConfig(envKey, cwd))
    ensures DetectFormat(path).Err? && (fileExists || saved.Ok?) ==> r == Err(DetectFormat(path).error)
    ensures !fileExists && saved.Err? ==> r == Err(saved.error)
    ensures fileExists && DetectFormat(path).Ok? && read.Err? ==> r == Err(read.error)
  {
    if fileExists then
      match DetectFormat(path)
      case Err(e) => Err(e)
      case Ok(f) => if read.Err? then Err(read.error) else Ok((read.value, f))
    else if saved.Err? then Err(saved.error)
    else
      match DetectFormat(path)
      case Err(e) => Err(e)
      case Ok(f) => Ok((DefaultConfig(envKey, cwd), f))
  }

  /** The configuration manager: the configuration, where it lives, and its format. */
  class ConfigManager {
    var config: ClaudeConfig
    var configPath: string
    var configFormat: ConfigFormat
    const floatFormat: FloatFormat

    constructor Init(loaded: ClaudeConfig, path: string, format: ConfigFormat, ff: FloatFormat)
      ensures config == loaded && configPath == path && configFormat == format && floatFormat == ff
    {
      config := loaded;
      configPath := path;
      configFormat := format;
      floatFormat := ff;
    }

    /**
     * `from_path`: a manager for the configuration at `path`, or the error
     * loading it or detecting its format gave.
     */
    static method FromPath(path: string, fileExists: bool, read: Result<ClaudeConfig, ClaudeError>, saved: Result<(), ClaudeError>,
                           envKey: Option<string>, cwd: Option<string>, ff: FloatFormat)
      returns (r: Result<ConfigManager, ClaudeError>)
      ensures var o := OpenOutcome(path, fileExists, read, saved, envKey, cwd);
        (r.Ok? <==> o.Ok?) && (r.Err? ==> r.error == o.error)
        && (r.Ok? ==> fresh(r.value) && r.value.config == o.value.0 && r.value.configPath == path
                      && r.value.configFormat == o.value.1 && r.value.floatFormat == ff)
    {
      var o := OpenOutcome(path, fileExists, read, saved, envKey, cwd);
      if o.Err? {
        return Err(o.error);
      }
      var m := new ConfigManager.Init(o.value.0, path, o.value.1, ff);
      return Ok(m);
    }

    /** `set_value`: an unknown key is an error and changes nothing; a known key is assigned. */
    method SetValue(key: string, value: string) returns (r: Result<(), ClaudeError>)
      modifies this
      ensures KeyOf(key).None? ==> r == Err(UnknownKeyError) && config == old(config)
      ensures KeyOf(key).Some? ==> r == Ok(()) && config == SetKey(old(config), KeyOf(key).value, value, floatFormat)
      ensures configPath == old(configPath) && configFormat == old(configFormat)
    {
      match KeyOf(key) {
        case None => return Err(UnknownKeyError);
        case Some(k) => config := SetKey(config, k, value, floatFormat);
      }
      r := Ok(());
    }

    /** `get_value`: an unknown key is an error; the setter and the getter accept the same keys. */
    function GetValue(key: string): (r: Result<string, ClaudeError>)
      reads this
      ensures r.Err? <==> KeyOf(key).None?
      ensures r.Err? ==> r.error == UnknownKeyError
    {
      match KeyOf(key)
      case None => Err(UnknownKeyError)
      case Some(k) => Ok(GetKey(config, k, floatFormat))
    }

    /** `load_from_env`: each variable that is set overrides its field. */
    method LoadFromEnv(env: string -> Option<string>) returns (r: Result<(), ClaudeError>)
      modifies this
      ensures r.Ok? && config == EnvOverrides(old(config), env)
      ensures configPath == old(configPath) && configFormat == old(configFormat)
    {
      config := EnvOverrides(config, env);
      r := Ok(());
    }

  }

}
