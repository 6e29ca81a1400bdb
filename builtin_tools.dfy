/**
 * The four built-in tools (read, write, list, bash): their definitions,
 * the checks each performs before touching the file system or starting a
 * process, and their registration. The file system and the shell are not
 * modelled; each tool's check says whether the call is refused, and how.
 *
 * Paths are sequences of components, as the path library compares them:
 * separators split components, empty components and "." are dropped, and
 * ".." stays a component of its own.
 */
module BuiltinTools {
  import opened Wrappers
  import opened Errors
  import opened Text
  import JsonValue
  import opened Tools

  const ReadDefinition := ToolDefinition(
    "read", "Read the contents of a file", "1.0.0",
    [ToolParameter("path", "string", "Path to the file to read", true, None),
     ToolParameter("encoding", "string", "File encoding (default: utf-8)", false, Some(JsonValue.Str("utf-8")))],
    "filesystem", false, Safe)

  const WriteDefinition := ToolDefinition(
    "write", "Write content to a file", "1.0.0",
    [ToolParameter("path", "string", "Path to the file to write", true, None),
     ToolParameter("content", "string", "Content to write to the file", true, None),
     ToolParameter("create_dirs", "boolean", "Create parent directories if they don't exist", false, Some(JsonValue.Bool(false)))],
    "filesystem", true, Medium)

  const ListDefinition := ToolDefinition(
    "list", "List files and directories", "1.0.0",
    [ToolParameter("path", "string", "Path to list (default: current directory)", false, Some(JsonValue.Str("."))),
     ToolParameter("recursive", "boolean", "List recursively", false, Some(JsonValue.Bool(false))),
     ToolParameter("show_hidden", "boolean", "Show hidden files", false, Some(JsonValue.Bool(false)))],
    "filesystem", false, Safe)

  const BashDefinition := ToolDefinition(
    "bash", "Execute bash commands", "1.0.0",
    [ToolParameter("command", "string", "Bash command to execute", true, None),
     ToolParameter("timeout", "number", "Timeout in seconds (default: 30)", false, Some(JsonValue.Number(30)))],
    "system", true, Dangerous)

  /** A string parameter: present and a JSON string. */
  function StringParam(params: JsonValue.Value, name: string): (r: Option<string>)
    ensures r.Some? <==> JsonValue.Get(params, name).Some? && JsonValue.Get(params, name).value.Str?
  {
    var v := JsonValue.Get(params, name);
    if v.Some? && v.value.Str? then Some(v.value.s) else None
  }

  // ---------------------------------------------------------------- paths

  datatype Path = Path(absolute: bool, components: seq<string>)

  /** The components of the pieces between separators. */
  function Components(pieces: seq<string>): (r: seq<string>)
    ensures forall i :: 0 <= i < |r| ==> r[i] != "" && r[i] != "."
    ensures forall x :: x in r ==> x in pieces
  {
    if pieces == [] then []
    else if pieces[0] == "" || pieces[0] == "." then Components(pieces[1..])
    else [pieces[0]] + Components(pieces[1..])
  }

  /** A path as the path library reads it: absolute after a leading '/', then its components. */
  function ParsePath(s: string): (r: Path)
    ensures r.absolute <==> |s| > 0 && s[0] == '/'
    ensures forall i :: 0 <= i < |r.components| ==>
      r.components[i] != "" && r.components[i] != "." && '/' !in r.components[i]
  {
    var pieces := Split(s, '/');
    assert forall x :: x in pieces ==> '/' !in x;
    Path(|s| > 0 && s[0] == '/', Components(pieces))
  }

  /** `Path::join`: an absolute path replaces the base; a relative one extends it. */
  function JoinPath(base: Path, p: Path): (r: Path)
    ensures p.absolute ==> r == p
    ensures !p.absolute ==> r.absolute == base.absolute && r.components == base.components + p.components
  {
    if p.absolute then p else Path(base.absolute, base.components + p.components)
  }

  /** `Path::starts_with`: whole components, from the start. */
  function PathStartsWith(p: Path, base: Path): (r: bool)
    ensures r <==> p.absolute == base.absolute && base.components <= p.components
  {
    p.absolute == base.absolute && |base.components| <= |p.components|
    && p.components[..|base.components|] == base.components
  }

  /**
   * The guard the read, write and list tools apply, as written: the
   * joined path must start with the working directory. The ".."
   * components are compared as they stand, not resolved, so every
   * relative path passes and only an absolute one can be refused.
   */
  function PathInsideAsWritten(wd: Path, p: Path): (r: bool)
    ensures !p.absolute ==> r
    ensures p.absolute ==> (r <==> PathStartsWith(p, wd))
  {
    assert !p.absolute ==> (wd.components + p.components)[..|wd.components|] == wd.components;
    PathStartsWith(JoinPath(wd, p), wd)
  }

  /** The guard as written on the texts: a path not starting with '/' always passes. */
  function InsideAsWritten(workingDirectory: string, path: string): (r: bool)
    ensures (|path| == 0 || path[0] != '/') ==> r
  {
    PathInsideAsWritten(ParsePath(workingDirectory), ParsePath(path))
  }

  /**
   * Lexical resolution of "..": each one removes the component before
   * it; at the root of an absolute path it is dropped, and at the start
   * of a relative path it is kept.
   */
  function Resolve(absolute: bool, done: seq<string>, rest: seq<string>): (r: seq<string>)
    ensures absolute && ".." !in done ==> ".." !in r
    ensures |r| <= |done| + |rest|
    decreases |rest|
  {
    if rest == [] then done
    else if rest[0] == ".." then
      if done != [] && done[|done| - 1] != ".." then Resolve(absolute, done[..|done| - 1], rest[1..])
      else if absolute then Resolve(absolute, done, rest[1..])
      else Resolve(absolute, done + [".."], rest[1..])
    else Resolve(absolute, done + [rest[0]], rest[1..])
  }

  /** `..` resolved lexically: an absolute path keeps none, and a path without any is unchanged. */
  function Normalize(p: Path): (r: Path)
    ensures r.absolute == p.absolute
    ensures p.absolute ==> ".." !in r.components
    ensures ".." !in p.components ==> r == p
  {
    if ".." in p.components then Path(p.absolute, Resolve(p.absolute, [], p.components))
    else
      ResolvePlain(p.absolute, [], p.components);
      assert [] + p.components == p.components;
      Path(p.absolute, Resolve(p.absolute, [], p.components))
  }

  /** Without "..", resolution changes nothing. */
  lemma {:induction false} ResolvePlain(absolute: bool, done: seq<string>, rest: seq<string>)
    requires ".." !in rest
    ensures Resolve(absolute, done, rest) == done + rest
    decreases |rest|
  {
    if rest != [] {
      assert rest[1..] == rest[1..];
      assert forall x :: x in rest[1..] ==> x in rest;
      ResolvePlain(absolute, done + [rest[0]], rest[1..]);
      assert done + [rest[0]] + rest[1..] == done + rest;
    }
  }

  /**
   * The guard as evidently intended: the joined path, with ".." resolved,
   * lies inside the (resolved) working directory.
   */
  function PathInside(wd: Path, p: Path): (r: bool)
    ensures !p.absolute && ".." !in wd.components && ".." !in p.components ==> r
  {
    PathStartsWith(Normalize(JoinPath(wd, p)), Normalize(wd))
  }

  /** The resolving guard on the texts: an absolute working directory is inside itself. */
  function Inside(workingDirectory: string, path: string): (r: bool)
    ensures |workingDirectory| > 0 && workingDirectory[0] == '/' && path == workingDirectory ==> r
  {
    PathInside(ParsePath(workingDirectory), ParsePath(path))
  }

  /** Where neither side has "..", the two guards agree. */
  lemma InsideAgreesWithoutParent(wd: Path, p: Path)
    requires ".." !in wd.components && ".." !in p.components
    ensures PathInside(wd, p) == PathInsideAsWritten(wd, p)
  {
    var j := JoinPath(wd, p);
    ResolvePlain(wd.absolute, [], wd.components);
    ResolvePlain(j.absolute, [], j.components);
    assert [] + wd.components == wd.components;
    assert [] + j.components == j.components;
  }

  /**
   * "../../etc/passwd" from "/home/user": the guard as written lets it
   * through, although it names "/etc/passwd"; the intended guard refuses it.
   */
  lemma TraversalPassesAsWritten()
    ensures var wd := Path(true, ["home", "user"]);
            var p := Path(false, ["..", "..", "etc", "passwd"]);
            PathInsideAsWritten(wd, p)
            && Normalize(JoinPath(wd, p)) == Path(true, ["etc", "passwd"])
            && !PathInside(wd, p)
  {
    var wd := Path(true, ["home", "user"]);
    var p := Path(false, ["..", "..", "etc", "passwd"]);
    var joined: seq<string> := ["home", "user", "..", "..", "etc", "passwd"];
    assert JoinPath(wd, p) == Path(true, joined);
    assert joined[..2] == wd.components;
    assert Resolve(true, [], joined) == ["etc", "passwd"];
    ResolvePlain(true, [], ["home", "user"]);
  }

  /**
   * The path check of the file tools: a missing (or non-string) required
   * path is a validation error; a path outside the working directory is an
   * error result; `None` means the tool goes on to the file system.
   */
  function PathCheck(params: JsonValue.Value, c: ToolContext, required: bool): (r: Result<Option<ToolResult>, ClaudeError>)
    ensures required && StringParam(params, "path").None? ==> r == Err(Validation("path", "Path parameter is required"))
    ensures r.Ok? && r.value.Some? ==> r.value == Some(ErrorResult("Path traversal not allowed"))
    ensures r == Ok(None) <==> ((StringParam(params, "path").Some? || !required) &&
      Inside(c.workingDirectory, if StringParam(params, "path").Some? then StringParam(params, "path").value else "."))
  {
    var p := StringParam(params, "path");
    if required && p.None? then Err(Validation("path", "Path parameter is required"))
    else
      var path := if p.Some? then p.value else ".";
      if !Inside(c.workingDirectory, path) then Ok(Some(ErrorResult("Path traversal not allowed")))
      else Ok(None)
  }

  /** The read tool's check: the path is required. */
  function ReadCheck(params: JsonValue.Value, c: ToolContext): (r: Result<Option<ToolResult>, ClaudeError>)
    ensures StringParam(params, "path").None? ==> r == Err(Validation("path", "Path parameter is required"))
    ensures StringParam(params, "path").Some? ==>
      r == if Inside(c.workingDirectory, StringParam(params, "path").value) then Ok(None)
           else Ok(Some(ErrorResult("Path traversal not allowed")))
  {
    PathCheck(params, c, true)
  }

  /** The write tool's check: a path and then content are required before the path is judged. */
  function WriteCheck(params: JsonValue.Value, c: ToolContext): (r: Result<Option<ToolResult>, ClaudeError>)
    ensures StringParam(params, "path").None? ==> r == Err(Validation("path", "Path parameter is required"))
    ensures StringParam(params, "path").Some? && StringParam(params, "content").None? ==>
      r == Err(Validation("content", "Content parameter is required"))
    ensures r == Ok(None) ==> StringParam(params, "content").Some? && Inside(c.workingDirectory, StringParam(params, "path").value)
    ensures StringParam(params, "path").Some? && StringParam(params, "content").Some? ==>
      r == if Inside(c.workingDirectory, StringParam(params, "path").value) then Ok(None)
           else Ok(Some(ErrorResult("Path traversal not allowed")))
  {
    var p := StringParam(params, "path");
    if p.None? then Err(Validation("path", "Path parameter is required"))
    else if StringParam(params, "content").None? then Err(Validation("content", "Content parameter is required"))
    else PathCheck(params, c, true)
  }

  /** The list tool's check: the path defaults to ".". */
  function ListCheck(params: JsonValue.Value, c: ToolContext): (r: Result<Option<ToolResult>, ClaudeError>)
    ensures r.Ok?
    ensures r == Ok(None) <==>
      Inside(c.workingDirectory, if StringParam(params, "path").Some? then StringParam(params, "path").value else ".")
  {
    PathCheck(params, c, false)
  }

  /** The three file tools agree on a read-style path check. */
  lemma FileToolChecks(params: JsonValue.Value, c: ToolContext)
    ensures StringParam(params, "path").None? ==> ReadCheck(params, c).Err? && ReadCheck(params, c).error.Validation?
    ensures StringParam(params, "path").None? ==> ListCheck(params, c).Err? == false
    ensures StringParam(params, "path").Some? ==> ReadCheck(params, c) == ListCheck(params, c)
  {
  }

  // ------------------------------------------------------------ the shell

  /** The substrings that make a command dangerous, in the order they are tried. */
  const DangerousCommands: seq<string> := ["rm -rf", "sudo", "su", "chmod 777", "mkfs", "dd"]

  /** The first listed dangerous substring the command contains. */
  function FirstDangerous(command: string, patterns: seq<string>): (r: Option<string>)
    ensures r.None? <==> forall i :: 0 <= i < |patterns| ==> !Contains(command, patterns[i])
    ensures r.Some? ==> exists i :: 0 <= i < |patterns| && patterns[i] == r.value && Contains(command, r.value)
                          && forall j :: 0 <= j < i ==> !Contains(command, patterns[j])
  {
    if patterns == [] then None
    else if Contains(command, patterns[0]) then Some(patterns[0])
    else
      var r := FirstDangerous(command, patterns[1..]);
      assert forall i :: 1 <= i < |patterns| ==> patterns[i] == patterns[1..][i - 1];
      if r.Some? then
        var k :| 0 <= k < |patterns[1..]| && patterns[1..][k] == r.value && Contains(command, r.value)
                 && forall j :: 0 <= j < k ==> !Contains(command, patterns[1..][j]);
        assert patterns[k + 1] == patterns[1..][k];
        r
      else r
  }

  /**
   * The bash tool's check: a missing command is a validation error; a
   * command containing a dangerous substring is an error result naming
   * it; `None` means the command is run.
   */
  function BashCheck(params: JsonValue.Value): (r: Result<Option<ToolResult>, ClaudeError>)
    ensures StringParam(params, "command").None? ==> r == Err(Validation("command", "Command parameter is required"))
    ensures StringParam(params, "command").Some? ==> r.Ok?
    ensures r == Ok(None) <==> (StringParam(params, "command").Some? &&
      forall d :: d in DangerousCommands ==> !Contains(StringParam(params, "command").value, d))
    ensures r.Ok? && r.value.Some? ==>
      (exists d :: (d in DangerousCommands && Contains(StringParam(params, "command").value, d)
                    && r.value.value == ErrorResult("Dangerous command not allowed: " + d)))
  {
    match StringParam(params, "command")
    case None => Err(Validation("command", "Command parameter is required"))
    case Some(command) =>
      match FirstDangerous(command, DangerousCommands)
      case Some(d) =>
        assert d in DangerousCommands && Contains(command, d);
        Ok(Some(ErrorResult("Dangerous command not allowed: " + d)))
      case None => Ok(None)
  }

  /** The timeout in seconds: a whole number given as "timeout", else 30. */
  function BashTimeout(params: JsonValue.Value): (t: nat)
    ensures JsonValue.Get(params, "timeout").None? ==> t == 30
    ensures (JsonValue.Get(params, "timeout").Some? && JsonValue.Get(params, "timeout").value.Number? &&
             JsonValue.Get(params, "timeout").value.n >= 0) ==> t == JsonValue.Get(params, "timeout").value.n
  {
    var v := JsonValue.Get(params, "timeout");
    if v.Some? && v.value.Number? && v.value.n >= 0 then v.value.n else 30
  }

  /**
   * Substring matching refuses ordinary commands whose text merely
   * contains a listed word: "git add ." contains "dd".
   */
  lemma SubstringMatchRefusesGitAdd()
    ensures FirstDangerous("git add .", DangerousCommands) == Some("dd")
  {
    var c := "git add .";
    assert c[5..7] == "dd";
    ContainsAt(c, "dd", 5);
    OnlyDdMatches(c);
  }

  /** A command that contains "dd" but none of the letters r, s, c, m is refused for "dd". */
  lemma OnlyDdMatches(c: string)
    requires Contains(c, "dd") && 'r' !in c && 's' !in c && 'c' !in c && 'm' !in c
    ensures FirstDangerous(c, DangerousCommands) == Some("dd")
  {
    var p := DangerousCommands;
    MissingCharNotContained(c, "rm -rf", 0);
    MissingCharNotContained(c, "sudo", 0);
    MissingCharNotContained(c, "su", 0);
    MissingCharNotContained(c, "chmod 777", 0);
    MissingCharNotContained(c, "mkfs", 0);
    assert p[5..] == ["dd"];
    assert FirstDangerous(c, p[5..]) == Some("dd");
    assert p[4..][1..] == p[5..] && p[4] == "mkfs";
    assert FirstDangerous(c, p[4..]) == Some("dd");
    assert p[3..][1..] == p[4..] && p[3] == "chmod 777";
    assert FirstDangerous(c, p[3..]) == Some("dd");
    assert p[2..][1..] == p[3..] && p[2] == "su";
    assert FirstDangerous(c, p[2..]) == Some("dd");
    assert p[1..][1..] == p[2..] && p[1] == "sudo";
    assert FirstDangerous(c, p[1..]) == Some("dd");
  }

  /** A text lacking one of the pattern's characters does not contain the pattern. */
  lemma MissingCharNotContained(s: string, sub: string, i: nat)
    requires i < |sub| && sub[i] !in s
    ensures !Contains(s, sub)
  {
    if Contains(s, sub) {
      ContainedCharsOccur(s, sub, i);
    }
  }

  lemma ContainedCharsOccur(s: string, sub: string, i: nat)
    requires Contains(s, sub) && i < |sub|
    ensures sub[i] in s
  {
    var k := ContainsWitness(s, sub);
    assert s[k + i] == s[k..k + |sub|][i];
  }

  // --------------------------------------------------------- registration

  /** Whether one of the built-in names is already registered. */
  predicate BuiltinNameTaken(tools: map<string, ToolDefinition>) {
    "read" in tools || "write" in tools || "list" in tools || "bash" in tools
  }

  /** The tools, their statistics and the outcome so far of a run of registrations. */
  datatype Registration = Registration(tools: map<string, ToolDefinition>, stats: map<string, ToolUsageStats>, outcome: Result<(), ClaudeError>)

  /**
   * One `register_tool` call of a run propagated with `?`: after a failure
   * nothing more happens; a taken name fails; otherwise the tool is added
   * with zero statistics.
   */
  function RegisterStep(g: Registration, def: ToolDefinition): Registration {
    if g.outcome.Err? then g
    else if def.name in g.tools then g.(outcome := Err(General("Tool '" + def.name + "' is already registered")))
    else Registration(g.tools[def.name := def], g.stats[def.name := NoUsage], Ok(()))
  }

  /** `register_builtin_tools` on the registry's tools and statistics. */
  function RegisterBuiltins(tools: map<string, ToolDefinition>, stats: map<string, ToolUsageStats>): Registration {
    var g0 := Registration(tools, stats, Ok(()));
    RegisterStep(RegisterStep(RegisterStep(RegisterStep(g0, ReadDefinition), WriteDefinition), ListDefinition), BashDefinition)
  }

  /** The first of `names` that `tools` already holds. */
  function FirstTaken(tools: map<string, ToolDefinition>, names: seq<string>): (r: Option<string>)
    ensures r.None? <==> forall i :: 0 <= i < |names| ==> names[i] !in tools
    ensures r.Some? ==> r.value in names && r.value in tools
  {
    if names == [] then None
    else if names[0] in tools then Some(names[0])
    else FirstTaken(tools, names[1..])
  }

  /**
   * Registering the built-ins into tools that hold none of their names adds
   * all four; otherwise the first taken name is reported, and the built-ins
   * before it are added.
   */
  lemma RegisterBuiltinsOutcome(tools: map<string, ToolDefinition>, stats: map<string, ToolUsageStats>)
    ensures !BuiltinNameTaken(tools) ==>
      RegisterBuiltins(tools, stats) ==
        Registration(tools["read" := ReadDefinition]["write" := WriteDefinition]["list" := ListDefinition]["bash" := BashDefinition],
                     stats["read" := NoUsage]["write" := NoUsage]["list" := NoUsage]["bash" := NoUsage], Ok(()))
    ensures BuiltinNameTaken(tools) ==>
      var t := FirstTaken(tools, ["read", "write", "list", "bash"]);
      t.Some? && RegisterBuiltins(tools, stats).outcome == Err(General("Tool '" + t.value + "' is already registered"))
    ensures "read" in tools ==> RegisterBuiltins(tools, stats).tools == tools
  {
    assert ReadDefinition.name == "read" && WriteDefinition.name == "write";
    assert ListDefinition.name == "list" && BashDefinition.name == "bash";
    assert "list" != "read" by { assert "list"[0] != "read"[0]; }
    assert "bash" != "read" by { assert "bash"[0] != "read"[0]; }
    assert "bash" != "list" by { assert "bash"[0] != "list"[0]; }
    var g0 := Registration(tools, stats, Ok(()));
    var g1 := RegisterStep(g0, ReadDefinition);
    var g2 := RegisterStep(g1, WriteDefinition);
    var g3 := RegisterStep(g2, ListDefinition);
    var names := ["read", "write", "list", "bash"];
    assert names[1..] == ["write", "list", "bash"];
    assert names[1..][1..] == ["list", "bash"];
    assert names[1..][1..][1..] == ["bash"];
    if "read" in tools {
      assert FirstTaken(tools, names) == Some("read");
    } else if "write" in tools {
      assert FirstTaken(tools, names) == Some("write");
      assert g1.outcome.Ok? && g2.outcome.Err?;
    } else if "list" in tools {
      assert FirstTaken(tools, names) == FirstTaken(tools, names[1..]) == FirstTaken(tools, names[1..][1..]) == Some("list");
      assert g2.outcome.Ok? && g3.outcome.Err?;
    } else if "bash" in tools {
      assert FirstTaken(tools, names) == FirstTaken(tools, names[1..]) == FirstTaken(tools, names[1..][1..]);
      assert FirstTaken(tools, names[1..][1..]) == FirstTaken(tools, names[1..][1..][1..]) == Some("bash");
      assert g3.outcome.Ok? && g3.tools == tools["read" := ReadDefinition]["write" := WriteDefinition]["list" := ListDefinition];
    } else {
      assert g3.tools == tools["read" := ReadDefinition]["write" := WriteDefinition]["list" := ListDefinition];
    }
  }

  /**
   * `register_builtin_tools`: read, write, list and bash, in that order;
   * the first name already taken stops the registration with its error,
   * the built-ins before it staying registered.
   */
  method RegisterBuiltinTools(registry: ToolRegistry) returns (r: Result<(), ClaudeError>)
    requires registry.Valid()
    modifies registry
    ensures registry.Valid()
    ensures Registration(registry.tools, registry.usageStats, r) == RegisterBuiltins(old(registry.tools), old(registry.usageStats))
  {
    ghost var g := Registration(registry.tools, registry.usageStats, Ok(()));
    r := registry.RegisterTool(ReadDefinition);
    g := StepAgrees(g, ReadDefinition, registry.tools, registry.usageStats, r);
    if r.Err? { return; }
    r := registry.RegisterTool(WriteDefinition);
    g := StepAgrees(g, WriteDefinition, registry.tools, registry.usageStats, r);
    if r.Err? { return; }
    r := registry.RegisterTool(ListDefinition);
    g := StepAgrees(g, ListDefinition, registry.tools, registry.usageStats, r);
    if r.Err? { return; }
    r := registry.RegisterTool(BashDefinition);
    g := StepAgrees(g, BashDefinition, registry.tools, registry.usageStats, r);
  }

  /** What one `register_tool` call did is one registration step. */
  lemma StepAgrees(g: Registration, def: ToolDefinition, tools: map<string, ToolDefinition>,
                   stats: map<string, ToolUsageStats>, r: Result<(), ClaudeError>) returns (g': Registration)
    requires g.outcome.Ok?
    requires def.name in g.tools ==> r == Err(General("Tool '" + def.name + "' is already registered")) && tools == g.tools && stats == g.stats
    requires def.name !in g.tools ==> r == Ok(()) && tools == g.tools[def.name := def] && stats == g.stats[def.name := NoUsage]
    ensures g' == RegisterStep(g, def) == Registration(tools, stats, r)
  {
    g' := RegisterStep(g, def);
  }

  /** On a new registry the built-ins make exactly four tools. */
  method RegisterIntoEmpty() returns (count: nat)
    ensures count == 4
  {
    var registry := new ToolRegistry();
    var r := RegisterBuiltinTools(registry);
    RegisterBuiltinsOutcome(map[], map[]);
    assert ReadDefinition.name == "read" && WriteDefinition.name == "write";
    assert ListDefinition.name == "list" && BashDefinition.name == "bash";
    assert registry.tools.Keys == {"read", "write", "list", "bash"};
    count := |registry.tools|;
  }
}
