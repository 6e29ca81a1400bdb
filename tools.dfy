/**
 * The tool-calling system: tool definitions and results, the parameter and
 * security checks every tool inherits, and the registry that registers,
 * lists and runs tools and keeps per-tool usage statistics.
 *
 * A tool's own `execute` is code the registry cannot see; the registry's
 * `ExecuteTool` takes what that call returned (`outcome`) and the measured
 * time (`elapsedMs`) as parameters.
 */
module Tools {
  import opened Wrappers
  import opened Errors
  import opened Text
  import JsonValue

  datatype SecurityLevel = Safe | Medium | Dangerous

  datatype ToolParameter = ToolParameter(
    name: string, paramType: string, description: string, required: bool,
    default: Option<JsonValue.Value>)

  datatype ToolDefinition = ToolDefinition(
    name: string, description: string, version: string, parameters: seq<ToolParameter>,
    category: string, requiresConfirmation: bool, securityLevel: SecurityLevel)

  datatype ToolResult = ToolResult(
    success: bool, data: JsonValue.Value, error: Option<string>, executionTimeMs: nat, logs: seq<string>)

  /** `ToolResult::success`. */
  function SuccessResult(data: JsonValue.Value): (r: ToolResult)
    ensures r.success && r.data == data && r.error.None? && r.executionTimeMs == 0 && r.logs == []
  {
    ToolResult(true, data, None, 0, [])
  }

  /** `ToolResult::error`: no data, the message as the error. */
  function ErrorResult(message: string): (r: ToolResult)
    ensures !r.success && r.data == JsonValue.Null && r.error == Some(message) && r.executionTimeMs == 0
  {
    ToolResult(false, JsonValue.Null, Some(message), 0, [])
  }

  /** The context a tool runs in; the environment variables are not modelled. */
  datatype ToolContext = ToolContext(workingDirectory: string, permissions: seq<string>, sessionId: string, debugMode: bool)

  /** `ToolContext::new`: the working directory is supplied; read and write are granted. */
  function NewContext(workingDirectory: string, sessionId: string): (c: ToolContext)
    ensures "read" in c.permissions && "write" in c.permissions && "execute" !in c.permissions
    ensures !c.debugMode && c.sessionId == sessionId
  {
    ToolContext(workingDirectory, ["read", "write"], sessionId, false)
  }

  predicate HasPermission(c: ToolContext, permission: string) {
    permission in c.permissions
  }

  /** Whether the parameters hold a value (any value, null included) under the name. */
  predicate Supplied(params: JsonValue.Value, name: string) {
    JsonValue.Get(params, name).Some?
  }

  /**
   * `validate_parameters`: the first required parameter, in definition
   * order, that the parameters do not supply is reported.
   */
  function ValidateParameters(defs: seq<ToolParameter>, params: JsonValue.Value): (r: Result<(), ClaudeError>)
    ensures r.Ok? <==> forall i :: 0 <= i < |defs| && defs[i].required ==> Supplied(params, defs[i].name)
    ensures r.Err? ==> exists i :: 0 <= i < |defs| && defs[i].required && !Supplied(params, defs[i].name)
                         && r.error == Validation(defs[i].name, "Required parameter missing")
                         && forall j :: 0 <= j < i && defs[j].required ==> Supplied(params, defs[j].name)
  {
    if defs == [] then Ok(())
    else if defs[0].required && !Supplied(params, defs[0].name) then
      Err(Validation(defs[0].name, "Required parameter missing"))
    else
      var r := ValidateParameters(defs[1..], params);
      assert forall i :: 1 <= i < |defs| ==> defs[i] == defs[1..][i - 1];
      if r.Err? then
        var k :| 0 <= k < |defs[1..]| && defs[1..][k].required && !Supplied(params, defs[1..][k].name)
                 && r.error == Validation(defs[1..][k].name, "Required parameter missing")
                 && forall j :: 0 <= j < k && defs[1..][j].required ==> Supplied(params, defs[1..][j].name);
        assert defs[k + 1] == defs[1..][k];
        r
      else r
  }

  /**
   * `check_security`: a safe tool always runs; a medium one needs the
   * "write" permission and a dangerous one the "execute" permission.
   */
  function CheckSecurity(level: SecurityLevel, c: ToolContext): (r: Result<(), ClaudeError>)
    ensures level == Safe ==> r.Ok?
    ensures level == Medium ==> (r.Ok? <==> "write" in c.permissions)
    ensures level == Dangerous ==> (r.Ok? <==> "execute" in c.permissions)
    ensures r.Err? ==> r.error.Permission?
  {
    match level
    case Safe => Ok(())
    case Medium =>
      if HasPermission(c, "write") then Ok(()) else Err(Permission("Medium security tool execution"))
    case Dangerous =>
      if HasPermission(c, "execute") then Ok(()) else Err(Permission("Dangerous tool execution"))
  }

  /** The test tool's definition: one required string parameter, "input". */
  const TestToolDefinition := ToolDefinition(
    "test_tool", "A test tool", "1.0.0",
    [ToolParameter("input", "string", "Test input", true, None)],
    "test", false, Safe)

  /** Supplying "input" passes validation; an empty object does not. */
  lemma ValidationExamples()
    ensures ValidateParameters(TestToolDefinition.parameters, JsonValue.Object([("input", JsonValue.Str("test"))])).Ok?
    ensures ValidateParameters(TestToolDefinition.parameters, JsonValue.Object([]))
            == Err(Validation("input", "Required parameter missing"))
  {
    assert JsonValue.Get(JsonValue.Object([("input", JsonValue.Str("test"))]), "input").Some?;
  }

  datatype ToolUsageStats = ToolUsageStats(callCount: nat, successCount: nat, errorCount: nat, totalExecutionTimeMs: nat)

  const NoUsage := ToolUsageStats(0, 0, 0, 0)

  /** Every call was counted as exactly one success or one error. */
  predicate Balanced(s: ToolUsageStats) {
    s.successCount + s.errorCount == s.callCount
  }

  /** Whether the tool's call counts as a success: it returned a result that says so. */
  predicate Succeeded(outcome: Result<ToolResult, ClaudeError>) {
    outcome.Ok? && outcome.value.success
  }

  /** `update_stats` on one tool's statistics. */
  function RecordCall(s: ToolUsageStats, outcome: Result<ToolResult, ClaudeError>, elapsedMs: nat): (r: ToolUsageStats)
    ensures r.callCount == s.callCount + 1
    ensures r.totalExecutionTimeMs == s.totalExecutionTimeMs + elapsedMs
    ensures Succeeded(outcome) ==> r.successCount == s.successCount + 1 && r.errorCount == s.errorCount
    ensures !Succeeded(outcome) ==> r.errorCount == s.errorCount + 1 && r.successCount == s.successCount
    ensures Balanced(s) ==> Balanced(r)
  {
    var s1 := s.(callCount := s.callCount + 1, totalExecutionTimeMs := s.totalExecutionTimeMs + elapsedMs);
    if Succeeded(outcome) then s1.(successCount := s.successCount + 1)
    else s1.(errorCount := s.errorCount + 1)
  }

  /** Whether a call gets past the registry's own checks and reaches the tool. */
  predicate Admitted(def: ToolDefinition, params: JsonValue.Value, c: ToolContext) {
    ValidateParameters(def.parameters, params).Ok? && CheckSecurity(def.securityLevel, c).Ok?
  }

  /**
   * What `execute_tool` returns: an unknown tool, invalid parameters and a
   * failed security check are errors; otherwise the tool's result carries
   * the elapsed time, and a tool's own error becomes an error result.
   */
  function ExecuteResult(name: string, tool: Option<ToolDefinition>, params: JsonValue.Value, c: ToolContext,
                         outcome: Result<ToolResult, ClaudeError>, elapsedMs: nat): (r: Result<ToolResult, ClaudeError>)
    ensures tool.None? ==> r == Err(General("Tool '" + name + "' not found"))
    ensures tool.Some? && ValidateParameters(tool.value.parameters, params).Err? ==>
      r == Err(ValidateParameters(tool.value.parameters, params).error)
    ensures (tool.Some? && ValidateParameters(tool.value.parameters, params).Ok? &&
             CheckSecurity(tool.value.securityLevel, c).Err?) ==> r == Err(CheckSecurity(tool.value.securityLevel, c).error)
    ensures tool.Some? && Admitted(tool.value, params, c) ==>
      r.Ok? && r.value.executionTimeMs == elapsedMs && (r.value.success <==> Succeeded(outcome))
    ensures tool.Some? && Admitted(tool.value, params, c) && outcome.Ok? ==>
      r == Ok(outcome.value.(executionTimeMs := elapsedMs))
    ensures tool.Some? && Admitted(tool.value, params, c) && outcome.Err? ==>
      r == Ok(ErrorResult(Display(outcome.error)).(executionTimeMs := elapsedMs))
  {
    if tool.None? then Err(General("Tool '" + name + "' not found"))
    else
      var v := ValidateParameters(tool.value.parameters, params);
      if v.Err? then Err(v.error)
      else
        var sec := CheckSecurity(tool.value.securityLevel, c);
        if sec.Err? then Err(sec.error)
        else if outcome.Ok? then Ok(outcome.value.(executionTimeMs := elapsedMs))
        else Ok(ErrorResult(Display(outcome.error)).(executionTimeMs := elapsedMs))
  }

  /** A definition comes before another when its name does not sort after the other's. */
  predicate SortedByName(defs: seq<ToolDefinition>) {
    forall i, j :: 0 <= i < j < |defs| ==> StrLe(defs[i].name, defs[j].name)
  }

  function InsertByName(d: ToolDefinition, defs: seq<ToolDefinition>): seq<ToolDefinition>
    decreases |defs|
  {
    if defs == [] || StrLe(d.name, defs[0].name) then [d] + defs
    else [defs[0]] + InsertByName(d, defs[1..])
  }

  lemma {:induction false} InsertByNameMultiset(d: ToolDefinition, defs: seq<ToolDefinition>)
    ensures multiset(InsertByName(d, defs)) == multiset(defs) + multiset{d}
    decreases |defs|
  {
    if defs != [] && !StrLe(d.name, defs[0].name) {
      InsertByNameMultiset(d, defs[1..]);
      assert defs == [defs[0]] + defs[1..];
    }
  }

  lemma {:induction false} InsertByNameSorted(d: ToolDefinition, defs: seq<ToolDefinition>)
    requires SortedByName(defs)
    ensures SortedByName(InsertByName(d, defs))
    decreases |defs|
  {
    if defs == [] {
    } else if StrLe(d.name, defs[0].name) {
      var r := [d] + defs;
      forall j | 1 < j < |r|
        ensures StrLe(d.name, r[j].name)
      {
        StrLeTransitive(d.name, defs[0].name, r[j].name);
      }
    } else {
      StrLeTotal(d.name, defs[0].name);
      var rest := InsertByName(d, defs[1..]);
      InsertByNameSorted(d, defs[1..]);
      InsertByNameMultiset(d, defs[1..]);
      var r := [defs[0]] + rest;
      forall j | 0 < j < |r|
        ensures StrLe(defs[0].name, r[j].name)
      {
        assert r[j] in multiset(rest);
        if r[j] != d {
          assert r[j] in multiset(defs[1..]);
          var k :| 0 <= k < |defs[1..]| && defs[1..][k] == r[j];
          assert defs[k + 1] == r[j];
        }
      }
    }
  }

  /** `sort_by` on names (an insertion sort, which is stable like the library's). */
  function SortByName(defs: seq<ToolDefinition>): seq<ToolDefinition> {
    if defs == [] then [] else InsertByName(defs[0], SortByName(defs[1..]))
  }

  /** Sorting orders the definitions by name and keeps each of them, as often as it occurs. */
  lemma {:induction false} SortByNameSpec(defs: seq<ToolDefinition>)
    ensures SortedByName(SortByName(defs))
    ensures multiset(SortByName(defs)) == multiset(defs)
  {
    if defs != [] {
      SortByNameSpec(defs[1..]);
      InsertByNameSorted(defs[0], SortByName(defs[1..]));
      InsertByNameMultiset(defs[0], SortByName(defs[1..]));
      assert defs == [defs[0]] + defs[1..];
    }
  }

  /** Two sequences with the same multiset have the same length and members. */
  lemma SameMembers(a: seq<ToolDefinition>, b: seq<ToolDefinition>)
    requires multiset(a) == multiset(b)
    ensures |a| == |b|
    ensures forall d :: d in a <==> d in b
  {
    assert |multiset(a)| == |multiset(b)|;
    assert forall d :: d in a <==> d in multiset(a);
    assert forall d :: d in b <==> d in multiset(b);
  }

  /**
   * The tool registry. Each tool is keyed by its definition's name and
   * has statistics from its registration on.
   */
  class ToolRegistry {
    var tools: map<string, ToolDefinition>
    var usageStats: map<string, ToolUsageStats>

    predicate Valid()
      reads this
    {
      (forall n :: n in tools ==> tools[n].name == n && n in usageStats)
      && (forall n :: n in usageStats ==> n in tools && Balanced(usageStats[n]))
    }

    constructor()
      ensures Valid() && tools == map[] && usageStats == map[]
    {
      tools := map[];
      usageStats := map[];
    }

    /**
     * `register_tool`: a name already taken is an error and changes
     * nothing (the first tool and its statistics stay); otherwise the tool
     * is added with zero statistics.
     */
    method RegisterTool(def: ToolDefinition) returns (r: Result<(), ClaudeError>)
      requires Valid()
      modifies this
      ensures Valid()
      ensures def.name in old(tools) ==>
        r == Err(General("Tool '" + def.name + "' is already registered"))
        && tools == old(tools) && usageStats == old(usageStats)
      ensures def.name !in old(tools) ==>
        r == Ok(()) && tools == old(tools)[def.name := def] && usageStats == old(usageStats)[def.name := NoUsage]
    {
      if def.name in tools {
        return Err(General("Tool '" + def.name + "' is already registered"));
      }
      tools := tools[def.name := def];
      usageStats := usageStats[def.name := NoUsage];
      r := Ok(());
    }

    /** `get_tool`. */
    function GetTool(name: string): (r: Option<ToolDefinition>)
      reads this
      requires Valid()
      ensures r.Some? <==> name in tools
      ensures r.Some? ==> r.value == tools[name] && r.value.name == name
    {
      if name in tools then Some(tools[name]) else None
    }

    /** `list_tools`: every registered definition once, sorted by name. */
    method ListTools() returns (r: seq<ToolDefinition>)
      requires Valid()
      ensures SortedByName(r)
      ensures |r| == |tools|
      ensures forall d :: d in r <==> d in tools.Values
    {
      var definitions: seq<ToolDefinition> := [];
      var remaining := tools.Keys;
      while remaining != {}
        invariant remaining <= tools.Keys
        invariant |definitions| + |remaining| == |tools.Keys|
        invariant forall i :: 0 <= i < |definitions| ==> definitions[i] in tools.Values
        invariant forall n :: n in tools && n !in remaining ==> tools[n] in definitions
        decreases |remaining|
      {
        var n :| n in remaining;
        definitions := definitions + [tools[n]];
        remaining := remaining - {n};
      }
      assert |tools.Keys| == |tools|;
      forall d | d in tools.Values
        ensures d in definitions
      {
        var n :| n in tools && tools[n] == d;
      }
      SortByNameSpec(definitions);
      r := SortByName(definitions);
      SameMembers(r, definitions);
    }

    /**
     * `execute_tool`: the result `ExecuteResult` describes; the statistics
     * of the tool change only when the call reached the tool.
     */
    method ExecuteTool(name: string, params: JsonValue.Value, c: ToolContext,
                       outcome: Result<ToolResult, ClaudeError>, elapsedMs: nat)
      returns (r: Result<ToolResult, ClaudeError>)
      requires Valid()
      modifies this
      ensures Valid() && tools == old(tools)
      ensures r == ExecuteResult(name, old(GetTool(name)), params, c, outcome, elapsedMs)
      ensures name in tools && Admitted(tools[name], params, c) ==>
        usageStats == old(usageStats)[name := RecordCall(old(usageStats)[name], outcome, elapsedMs)]
      ensures !(name in tools && Admitted(tools[name], params, c)) ==> usageStats == old(usageStats)
    {
      var tool := GetTool(name);
      if tool.None? {
        return Err(General("Tool '" + name + "' not found"));
      }
      var v := ValidateParameters(tool.value.parameters, params);
      if v.Err? {
        return Err(v.error);
      }
      var sec := CheckSecurity(tool.value.securityLevel, c);
      if sec.Err? {
        return Err(sec.error);
      }
      UpdateStats(name, outcome, elapsedMs);
      match outcome {
        case Ok(res) => r := Ok(res.(executionTimeMs := elapsedMs));
        case Err(e) => r := Ok(ErrorResult(Display(e)).(executionTimeMs := elapsedMs));
      }
    }

    /** `update_stats`: a registered tool's statistics record the call; others are ignored. */
    method UpdateStats(name: string, outcome: Result<ToolResult, ClaudeError>, elapsedMs: nat)
      requires Valid()
      modifies this
      ensures Valid() && tools == old(tools)
      ensures name in old(usageStats) ==>
        usageStats == old(usageStats)[name := RecordCall(old(usageStats)[name], outcome, elapsedMs)]
      ensures name !in old(usageStats) ==> usageStats == old(usageStats)
    {
      if name in usageStats {
        usageStats := usageStats[name := RecordCall(usageStats[name], outcome, elapsedMs)];
      }
    }

    /** `get_tool_stats`: a registered tool's counters, each call a success or an error. */
    function GetToolStats(name: string): (r: Option<ToolUsageStats>)
      reads this
      requires Valid()
      ensures r.Some? <==> name in tools
      ensures r.Some? ==> Balanced(r.value)
    {
      if name in usageStats then Some(usageStats[name]) else None
    }
  }

  /** A tool whose call reached it and failed is counted as an error, whatever it returned. */
  lemma FailedCallCountsAsError(s: ToolUsageStats, e: ClaudeError, elapsedMs: nat)
    ensures RecordCall(s, Err(e), elapsedMs).errorCount == s.errorCount + 1
    ensures ExecuteResult("t", Some(TestToolDefinition), JsonValue.Object([("input", JsonValue.Null)]),
                          NewContext("/w", "s"), Err(e), elapsedMs).Ok?
  {
    assert JsonValue.Get(JsonValue.Object([("input", JsonValue.Null)]), "input").Some?;
  }
}
