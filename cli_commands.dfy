/**
 * The command handlers of the command-line entry point that compute
 * something rather than only print: the tags a memory entry gets, the
 * highlighting of search hits, the project type and build commands the
 * `init` command writes, the security and performance pattern counts of
 * the review command, and the permission sub-commands that edit the
 * configuration's tool lists.
 *
 * Printing is not modelled; where a handler's outcome is a line it
 * prints, the method returns that line (without its emoji). Saving the
 * configuration is a parameter: its failure is reported, not returned.
 */
module CliCommands {
  import opened Wrappers
  import opened Text
  import Config
  import ConfigStore

  // ---------------------------------------------------------------------
  // Tags
  // ---------------------------------------------------------------------

  /** The keywords a memory entry is tagged with, in the order they are tried. */
  const Keywords: seq<string> := [
    "rust", "python", "javascript", "typescript", "java", "c++", "c#", "go", "php", "ruby",
    "function", "class", "struct", "enum", "trait", "interface", "async", "await",
    "error", "bug", "fix", "todo", "note", "important", "warning",
    "api", "database", "sql", "http", "json", "xml", "yaml", "config"]

  const MaxTags: nat := 5

  /** The keywords occurring in `text`, in keyword order. */
  function Found(keywords: seq<string>, text: string): (r: seq<string>)
    ensures |r| <= |keywords|
  {
    if keywords == [] then []
    else
      var last := keywords[|keywords| - 1];
      Found(keywords[..|keywords| - 1], text) + (if Contains(text, last) then [last] else [])
  }

  /** A keyword is found exactly when it occurs in the text. */
  lemma {:induction false} FoundMembers(keywords: seq<string>, text: string)
    ensures forall t :: t in Found(keywords, text) <==> t in keywords && Contains(text, t)
    decreases |keywords|
  {
    if keywords != [] {
      var init := keywords[..|keywords| - 1];
      FoundMembers(init, text);
      assert keywords == init + [keywords[|keywords| - 1]];
    }
  }

  /** The loop of `extract_tags`: every keyword that occurs in the lowered content, in keyword order. */
  method CollectKeywords(lower: string) returns (found: seq<string>)
    ensures found == Found(Keywords, lower)
  {
    found := [];
    for i := 0 to |Keywords|
      invariant found == Found(Keywords[..i], lower)
    {
      assert Keywords[..i + 1][..i] == Keywords[..i];
      if Contains(lower, Keywords[i]) {
        found := found + [Keywords[i]];
      }
    }
    assert Keywords[..|Keywords|] == Keywords;
  }

  /** Ascending in Rust's string order. */
  predicate SortedStrings(s: seq<string>) {
    forall i, j :: 0 <= i < j < |s| ==> StrLe(s[i], s[j])
  }

  /** Strictly ascending: no duplicates. */
  predicate StrictlySorted(s: seq<string>) {
    forall i, j :: 0 <= i < j < |s| ==> StrLess(s[i], s[j])
  }

  function InsertString(x: string, s: seq<string>): seq<string>
    decreases |s|
  {
    if s == [] || StrLe(x, s[0]) then [x] + s
    else [s[0]] + InsertString(x, s[1..])
  }

  lemma {:induction false} InsertStringMultiset(x: string, s: seq<string>)
    ensures multiset(InsertString(x, s)) == multiset(s) + multiset{x}
    decreases |s|
  {
    if s != [] && !StrLe(x, s[0]) {
      InsertStringMultiset(x, s[1..]);
      assert s == [s[0]] + s[1..];
    }
  }

  lemma {:induction false} InsertStringSorted(x: string, s: seq<string>)
    requires SortedStrings(s)
    ensures SortedStrings(InsertString(x, s))
    decreases |s|
  {
    if s == [] {
    } else if StrLe(x, s[0]) {
      var r := [x] + s;
      forall j | 1 < j < |r|
        ensures StrLe(x, r[j])
      {
        StrLeTransitive(x, s[0], r[j]);
      }
    } else {
      StrLeTotal(x, s[0]);
      var rest := InsertString(x, s[1..]);
      InsertStringSorted(x, s[1..]);
      InsertStringMultiset(x, s[1..]);
      var r := [s[0]] + rest;
      forall j | 0 < j < |r|
        ensures StrLe(s[0], r[j])
      {
        assert r[j] in multiset(rest);
        if r[j] != x {
          assert r[j] in multiset(s[1..]);
          var k :| 0 <= k < |s[1..]| && s[1..][k] == r[j];
          assert s[k + 1] == r[j];
        }
      }
    }
  }

  /** `sort` on strings (an insertion sort; for strings stability is invisible). */
  function SortStrings(s: seq<string>): seq<string> {
    if s == [] then [] else InsertString(s[0], SortStrings(s[1..]))
  }

  /** Sorting orders the strings and keeps each of them, as often as it occurs. */
  lemma {:induction false} SortStringsSpec(s: seq<string>)
    ensures SortedStrings(SortStrings(s))
    ensures multiset(SortStrings(s)) == multiset(s)
  {
    if s != [] {
      SortStringsSpec(s[1..]);
      InsertStringSorted(s[0], SortStrings(s[1..]));
      InsertStringMultiset(s[0], SortStrings(s[1..]));
      assert s == [s[0]] + s[1..];
    }
  }

  /** `dedup`: drops each element equal to the one before it. */
  function Dedup(s: seq<string>): (r: seq<string>)
    ensures |r| <= |s|
  {
    if |s| <= 1 then s
    else if s[0] == s[1] then Dedup(s[1..])
    else [s[0]] + Dedup(s[1..])
  }

  /** Deduplicating keeps the same members and starts with the same element. */
  lemma {:induction false} DedupMembers(s: seq<string>)
    ensures forall x :: x in Dedup(s) <==> x in s
    ensures s != [] ==> Dedup(s) != [] && Dedup(s)[0] == s[0]
  {
    if |s| > 1 {
      DedupMembers(s[1..]);
      assert s == [s[0]] + s[1..];
    }
  }

  /** A non-strict step between different strings is a strict one. */
  lemma StrLeDistinct(a: string, b: string)
    requires StrLe(a, b) && a != b
    ensures StrLess(a, b)
  {
    StrLessTotal(a, b);
  }

  /** Deduplicating a sorted sequence leaves it strictly sorted. */
  lemma {:induction false} DedupStrict(s: seq<string>)
    requires SortedStrings(s)
    ensures StrictlySorted(Dedup(s))
  {
    if |s| > 1 {
      DedupStrict(s[1..]);
      if s[0] != s[1] {
        DedupMembers(s[1..]);
        var r := Dedup(s);
        StrLeDistinct(s[0], s[1]);
        forall j | 0 < j < |r|
          ensures StrLess(s[0], r[j])
        {
          assert r[j] in Dedup(s[1..]);
          assert r[j] in s[1..];
          var k :| 0 <= k < |s[1..]| && s[1..][k] == r[j];
          if s[1] != r[j] {
            assert k > 0 && StrLe(s[1], s[k + 1]);
            StrLeDistinct(s[1], r[j]);
            StrLessTransitive(s[0], s[1], r[j]);
          }
        }
      }
    }
  }

  /** `extract_tags` as a value: the first five keywords found, sorted, without duplicates. */
  function Tags(content: string): seq<string> {
    var found := Found(Keywords, ToLowerAscii(content));
    Dedup(SortStrings(found[..if |found| < MaxTags then |found| else MaxTags]))
  }

  /**
   * At most five tags, strictly ascending, and they are exactly the first
   * five keywords (in keyword order) that occur in the lowered content.
   */
  lemma TagsSpec(content: string)
    ensures |Tags(content)| <= MaxTags
    ensures StrictlySorted(Tags(content))
    ensures forall t :: t in Tags(content) ==> t in Keywords && Contains(ToLowerAscii(content), t)
    ensures var found := Found(Keywords, ToLowerAscii(content));
      forall t :: t in Tags(content) <==> t in found[..if |found| < MaxTags then |found| else MaxTags]
  {
    var found := Found(Keywords, ToLowerAscii(content));
    var first := found[..if |found| < MaxTags then |found| else MaxTags];
    SortStringsSpec(first);
    DedupStrict(SortStrings(first));
    DedupMembers(SortStrings(first));
    FoundMembers(Keywords, ToLowerAscii(content));
    forall t | t in SortStrings(first)
      ensures t in first
    {
      assert t in multiset(SortStrings(first));
    }
    forall t | t in first
      ensures t in SortStrings(first)
    {
      assert t in multiset(first);
    }
  }

  /** `extract_tags`. */
  method ExtractTags(content: string) returns (tags: seq<string>)
    ensures tags == Tags(content)
  {
    var found := CollectKeywords(ToLowerAscii(content));
    if |found| > MaxTags {
      found := found[..MaxTags];
    } else {
      assert found[..|found|] == found;
    }
    tags := Dedup(SortStrings(found));
  }

  // ---------------------------------------------------------------------
  // Search highlighting
  // ---------------------------------------------------------------------

  /**
   * Rust's `str::replace`: every non-overlapping occurrence of `from`,
   * left to right, becomes `to`; an empty `from` matches at every
   * character boundary.
   */
  function ReplaceAll(s: string, from: string, to: string): string
    decreases |s|, |from|
  {
    if from == [] then
      if s == [] then to else to + [s[0]] + ReplaceAll(s[1..], from, to)
    else if StartsWith(s, from) then to + ReplaceAll(s[|from|..], from, to)
    else if s == [] then []
    else [s[0]] + ReplaceAll(s[1..], from, to)
  }

  /** A text without the (non-empty) pattern is left as it is. */
  lemma {:induction false} ReplaceAbsent(s: string, from: string, to: string)
    requires from != [] && !Contains(s, from)
    ensures ReplaceAll(s, from, to) == s
    decreases |s|
  {
    if s != [] {
      ReplaceAbsent(s[1..], from, to);
      assert s == [s[0]] + s[1..];
    }
  }

  /** The pattern on its own is replaced whole. */
  lemma ReplaceWhole(q: string, to: string)
    requires q != []
    ensures ReplaceAll(q, q, to) == to
  {
    assert StartsWith(q, q);
    assert q[|q|..] == [];
  }

  /** The text a line becomes: hits wrapped in `**` when the line matches case-insensitively, then a newline. */
  function HighlightLine(line: string, query: string): string {
    (if Contains(ToLowerAscii(line), ToLowerAscii(query)) then ReplaceAll(line, query, "**" + query + "**") else line) + "\n"
  }

  /** The highlighted lines, one after another. */
  function Highlighted(lines: seq<string>, query: string): (r: string)
    ensures lines != [] ==> r != [] && r[|r| - 1] == '\n'
  {
    if lines == [] then ""
    else Highlighted(lines[..|lines| - 1], query) + HighlightLine(lines[|lines| - 1], query)
  }

  /** `highlight_matches`. */
  method HighlightMatches(content: string, query: string) returns (result: string)
    ensures result == Highlighted(Lines(content), query)
  {
    var queryLower := ToLowerAscii(query);
    var lines := Lines(content);
    result := "";
    for i := 0 to |lines|
      invariant result == Highlighted(lines[..i], query)
    {
      assert lines[..i + 1][..i] == lines[..i];
      var line := lines[i];
      if Contains(ToLowerAscii(line), queryLower) {
        result := result + ReplaceAll(line, query, "**" + query + "**");
      } else {
        result := result + line;
      }
      result := result + "\n";
    }
    assert lines[..|lines|] == lines;
  }

  /** Lines that do not match come back as written, each followed by a newline. */
  lemma {:induction false} HighlightWithoutHits(parts: seq<string>, query: string)
    requires |parts| >= 1
    requires forall i :: 0 <= i < |parts| ==> !Contains(ToLowerAscii(parts[i]), ToLowerAscii(query))
    ensures Highlighted(parts, query) == Join(parts, "\n") + "\n"
    decreases |parts|
  {
    var init := parts[..|parts| - 1];
    if |parts| > 1 {
      HighlightWithoutHits(init, query);
      JoinSnoc(init, parts[|parts| - 1], "\n");
      assert parts == init + [parts[|parts| - 1]];
    }
  }

  /** So a text of plain lines without hits is returned unchanged, plus a final newline. */
  lemma NoHitsRoundTrip(parts: seq<string>, query: string)
    requires |parts| >= 1 && parts[|parts| - 1] != [] && PlainLines(parts)
    requires forall i :: 0 <= i < |parts| ==> !Contains(ToLowerAscii(parts[i]), ToLowerAscii(query))
    ensures Highlighted(Lines(Join(parts, "\n")), query) == Join(parts, "\n") + "\n"
  {
    LinesOfJoin(parts);
    HighlightWithoutHits(parts, query);
  }

  /** A line that is the query is wrapped in `**`. */
  lemma QueryLineWrapped(query: string)
    requires query != []
    ensures HighlightLine(query, query) == "**" + query + "**\n"
  {
    ContainsAt(ToLowerAscii(query), ToLowerAscii(query), 0);
    ReplaceWhole(query, "**" + query + "**");
  }

  /**
   * The match test ignores case but the replacement does not: a line that
   * matches only in another case is counted as a hit yet nothing in it is
   * wrapped.
   */
  lemma CaseOnlyHitNotWrapped()
    ensures HighlightLine("Rust", "rust") == "Rust\n"
  {
    assert ToLowerAscii("Rust") == "rust";
    assert ToLowerAscii("rust") == "rust";
    assert ReplaceAll("Rust", "rust", "**rust**") == "Rust" by {
      assert !StartsWith("Rust", "rust");
      assert !StartsWith("ust", "rust");
      assert !StartsWith("st", "rust");
      assert !StartsWith("t", "rust");
      assert !StartsWith("", "rust");
    }
  }

  // ---------------------------------------------------------------------
  // Project detection
  // ---------------------------------------------------------------------

  /** The project type a configuration file announces, if it is a recognised one. */
  function ProjectTypeOf(file: string): Option<string> {
    if file == "package.json" then Some("Node.js/JavaScript")
    else if file == "Cargo.toml" then Some("Rust")
    else if file == "pyproject.toml" || file == "setup.py" then Some("Python")
    else if file == "go.mod" then Some("Go")
    else if file == "pom.xml" then Some("Java (Maven)")
    else if file == "build.gradle" then Some("Java/Kotlin (Gradle)")
    else if file == "Makefile" then Some("C/C++ (Make)")
    else if file == "CMakeLists.txt" then Some("C/C++ (CMake)")
    else None
  }

  /** `detect_project_type`: the type of the first recognised file, else "Unknown". */
  function DetectProjectType(files: seq<string>): (r: string)
    ensures (forall i :: 0 <= i < |files| ==> ProjectTypeOf(files[i]).None?) ==> r == "Unknown"
    ensures forall i :: (0 <= i < |files| && ProjectTypeOf(files[i]).Some?
                         && (forall j :: 0 <= j < i ==> ProjectTypeOf(files[j]).None?))
                        ==> r == ProjectTypeOf(files[i]).value
  {
    if files == [] then "Unknown"
    else match ProjectTypeOf(files[0])
      case Some(t) => t
      case None =>
        var r := DetectProjectType(files[1..]);
        assert forall i :: 1 <= i < |files| ==> files[1..][i - 1] == files[i];
        r
  }

  /** `generate_build_commands`: (label, command) pairs per project type; Python's depend on pyproject.toml. */
  function BuildCommands(projectType: string, configFiles: seq<string>): (r: seq<(string, string)>)
    ensures projectType == "Python" ==>
      (|r| == 2 && r[1].0 == "Test" && (r[0].1 == "pip install -e ." <==> "pyproject.toml" in configFiles))
    ensures projectType in {"C/C++ (Make)", "C/C++ (CMake)", "Unknown"} ==> r == []
  {
    if projectType == "Node.js/JavaScript" then
      [("Build", "npm run build"), ("Test", "npm test"), ("Dev Server", "npm run dev"), ("Lint", "npm run lint")]
    else if projectType == "Rust" then
      [("Build", "cargo build"), ("Test", "cargo test"), ("Run", "cargo run"), ("Check", "cargo check")]
    else if projectType == "Python" then
      if "pyproject.toml" in configFiles then [("Install", "pip install -e ."), ("Test", "pytest")]
      else [("Install", "pip install -r requirements.txt"), ("Test", "python -m pytest")]
    else if projectType == "Go" then
      [("Build", "go build"), ("Test", "go test ./..."), ("Run", "go run .")]
    else if projectType == "Java (Maven)" then
      [("Build", "mvn compile"), ("Test", "mvn test"), ("Package", "mvn package")]
    else if projectType == "Java/Kotlin (Gradle)" then
      [("Build", "./gradlew build"), ("Test", "./gradlew test"), ("Run", "./gradlew run")]
    else []
  }

  /** A project with setup.py listed before pyproject.toml is Python and installs from pyproject. */
  lemma SetupPyThenPyproject()
    ensures DetectProjectType(["setup.py", "pyproject.toml"]) == "Python"
    ensures BuildCommands("Python", ["setup.py", "pyproject.toml"])[0].1 == "pip install -e ."
  {
  }

  /** A Make or CMake project is recognised but gets no build commands. */
  lemma MakeProjectHasNoCommands(files: seq<string>)
    requires files != [] && files[0] == "Makefile"
    ensures DetectProjectType(files) == "C/C++ (Make)"
    ensures BuildCommands(DetectProjectType(files), files) == []
  {
  }

  // ---------------------------------------------------------------------
  // Review patterns
  // ---------------------------------------------------------------------

  const SecurityPatterns: seq<string> := ["password", "api_key", "secret", "eval(", "exec(", "system(", "shell_exec", "unsafe {"]

  const PerformancePatterns: seq<string> := ["for i in range(len(", "while True:", "sleep(", "clone()", "unwrap()", "Vec::new()"]

  /** How many of the patterns occur in the text (each counted once). */
  function Matched(patterns: seq<string>, text: string): (n: nat)
    ensures n <= |patterns|
  {
    if patterns == [] then 0
    else Matched(patterns[..|patterns| - 1], text) + (if Contains(text, patterns[|patterns| - 1]) then 1 else 0)
  }

  /** The count is zero exactly when no pattern occurs, and all of them when every one does. */
  lemma {:induction false} MatchedBounds(patterns: seq<string>, text: string)
    ensures Matched(patterns, text) == 0 <==> forall i :: 0 <= i < |patterns| ==> !Contains(text, patterns[i])
    ensures Matched(patterns, text) == |patterns| <==> forall i :: 0 <= i < |patterns| ==> Contains(text, patterns[i])
    decreases |patterns|
  {
    if patterns != [] {
      var init := patterns[..|patterns| - 1];
      MatchedBounds(init, text);
      assert forall i :: 0 <= i < |init| ==> init[i] == patterns[i];
    }
  }

  /** The counting loop both checks share. */
  method CountPatterns(text: string, patterns: seq<string>) returns (count: nat)
    ensures count == Matched(patterns, text)
  {
    count := 0;
    for i := 0 to |patterns|
      invariant count == Matched(patterns[..i], text)
    {
      assert patterns[..i + 1][..i] == patterns[..i];
      if Contains(text, patterns[i]) {
        count := count + 1;
      }
    }
    assert patterns[..|patterns|] == patterns;
  }

  /** `check_security_patterns`: matched case-insensitively, at most eight. */
  method CheckSecurityPatterns(content: string) returns (issues: nat)
    ensures issues == Matched(SecurityPatterns, ToLowerAscii(content))
    ensures issues <= 8
  {
    issues := CountPatterns(ToLowerAscii(content), SecurityPatterns);
  }

  /** `check_performance_patterns`: matched as written, at most six. */
  method CheckPerformancePatterns(content: string) returns (suggestions: nat)
    ensures suggestions == Matched(PerformancePatterns, content)
    ensures suggestions <= 6
  {
    suggestions := CountPatterns(content, PerformancePatterns);
  }

  /** Upper-case letters do not hide a security pattern. */
  lemma UpperCaseSecurityHit()
    ensures Matched(SecurityPatterns, ToLowerAscii("PASSWORD")) >= 1
  {
    assert ToLowerAscii("PASSWORD") == "password";
    assert Contains("password", SecurityPatterns[0]) by {
      assert StartsWith("password", "password");
    }
    MatchedBounds(SecurityPatterns, "password");
  }

  // ---------------------------------------------------------------------
  // Permission sub-commands
  // ---------------------------------------------------------------------

  /** `retain(|t| t != tool)` as a value. */
  function Without(list: seq<string>, tool: string): (r: seq<string>)
    ensures tool !in r
    ensures forall x :: x != tool ==> multiset(r)[x] == multiset(list)[x]
  {
    if list == [] then []
    else
      var init := list[..|list| - 1];
      assert list == init + [list[|list| - 1]];
      Without(init, tool) + (if list[|list| - 1] != tool then [list[|list| - 1]] else [])
  }

  /** The retain loop. */
  method RemoveTool(list: seq<string>, tool: string) returns (kept: seq<string>)
    ensures kept == Without(list, tool)
  {
    kept := [];
    for i := 0 to |list|
      invariant kept == Without(list[..i], tool)
    {
      assert list[..i + 1][..i] == list[..i];
      if list[i] != tool {
        kept := kept + [list[i]];
      }
    }
    assert list[..|list|] == list;
  }

  /** `permissions allow <tool>`: the tool leaves the denied list and is in the allowed list once added. */
  function Allowed(p: Config.PermissionConfig, tool: string): Config.PermissionConfig {
    p.(deniedTools := Without(p.deniedTools, tool),
       allowedTools := if tool in p.allowedTools then p.allowedTools else p.allowedTools + [tool])
  }

  /** `permissions deny <tool>`: the reverse of allow. */
  function Denied(p: Config.PermissionConfig, tool: string): Config.PermissionConfig {
    p.(allowedTools := Without(p.allowedTools, tool),
       deniedTools := if tool in p.deniedTools then p.deniedTools else p.deniedTools + [tool])
  }

  /** `permissions reset`: both lists empty and no confirmation required. */
  function Reset(p: Config.PermissionConfig): (r: Config.PermissionConfig)
    ensures r.allowedTools == [] && r.deniedTools == [] && !r.requireConfirmation
  {
    Config.PermissionConfig([], [], false)
  }

  /**
   * After allow the tool is allowed (added only if it was missing) and not
   * denied; every other tool keeps its entries, and the confirmation flag
   * is untouched.
   */
  lemma AllowSpec(p: Config.PermissionConfig, tool: string)
    ensures var q := Allowed(p, tool);
      tool in q.allowedTools && tool !in q.deniedTools
      && multiset(q.allowedTools)[tool] == (if tool in p.allowedTools then multiset(p.allowedTools)[tool] else 1)
      && (forall x :: x != tool ==>
            (multiset(q.allowedTools)[x] == multiset(p.allowedTools)[x] && multiset(q.deniedTools)[x] == multiset(p.deniedTools)[x]))
      && q.requireConfirmation == p.requireConfirmation
  {
    if tool !in p.allowedTools {
      assert multiset(p.allowedTools)[tool] == 0;
    }
  }

  /** After deny the tool is denied (added only if it was missing) and not allowed; every other tool keeps its entries. */
  lemma DenySpec(p: Config.PermissionConfig, tool: string)
    ensures var q := Denied(p, tool);
      tool in q.deniedTools && tool !in q.allowedTools
      && multiset(q.deniedTools)[tool] == (if tool in p.deniedTools then multiset(p.deniedTools)[tool] else 1)
      && (forall x :: x != tool ==>
            (multiset(q.allowedTools)[x] == multiset(p.allowedTools)[x] && multiset(q.deniedTools)[x] == multiset(p.deniedTools)[x]))
      && q.requireConfirmation == p.requireConfirmation
  {
    if tool !in p.deniedTools {
      assert multiset(p.deniedTools)[tool] == 0;
    }
  }

  /** Removing a tool that is not there changes nothing. */
  lemma {:induction false} WithoutAbsent(list: seq<string>, tool: string)
    requires tool !in list
    ensures Without(list, tool) == list
    decreases |list|
  {
    if list != [] {
      var init := list[..|list| - 1];
      WithoutAbsent(init, tool);
      assert list == init + [list[|list| - 1]];
    }
  }

  /** Allowing twice is allowing once; so is denying. */
  lemma AllowDenyIdempotent(p: Config.PermissionConfig, tool: string)
    ensures Allowed(Allowed(p, tool), tool) == Allowed(p, tool)
    ensures Denied(Denied(p, tool), tool) == Denied(p, tool)
  {
    WithoutAbsent(Allowed(p, tool).deniedTools, tool);
    WithoutAbsent(Denied(p, tool).allowedTools, tool);
  }

  /** The line reporting the save: success names the tool, failure quotes the error. */
  function SaveReport(saveError: Option<string>, success: string): string {
    if saveError.None? then success else "Failed to save configuration: " + saveError.value
  }

  /** The allow handler; the change stays in memory whether or not the save succeeds. */
  method AllowTool(manager: ConfigStore.ConfigManager, tool: string, saveError: Option<string>) returns (report: string)
    modifies manager
    ensures manager.config == old(manager.config).(permissions := Allowed(old(manager.config.permissions), tool))
    ensures manager.configPath == old(manager.configPath) && manager.configFormat == old(manager.configFormat)
    ensures report == SaveReport(saveError, "Tool '" + tool + "' is now allowed")
  {
    var p := manager.config.permissions;
    var denied := RemoveTool(p.deniedTools, tool);
    var allowed := p.allowedTools;
    if tool !in allowed {
      allowed := allowed + [tool];
    }
    manager.config := manager.config.(permissions := p.(deniedTools := denied, allowedTools := allowed));
    report := SaveReport(saveError, "Tool '" + tool + "' is now allowed");
  }

  /** The deny handler. */
  method DenyTool(manager: ConfigStore.ConfigManager, tool: string, saveError: Option<string>) returns (report: string)
    modifies manager
    ensures manager.config == old(manager.config).(permissions := Denied(old(manager.config.permissions), tool))
    ensures manager.configPath == old(manager.configPath) && manager.configFormat == old(manager.configFormat)
    ensures report == SaveReport(saveError, "Tool '" + tool + "' is now denied")
  {
    var p := manager.config.permissions;
    var allowed := RemoveTool(p.allowedTools, tool);
    var denied := p.deniedTools;
    if tool !in denied {
      denied := denied + [tool];
    }
    manager.config := manager.config.(permissions := p.(allowedTools := allowed, deniedTools := denied));
    report := SaveReport(saveError, "Tool '" + tool + "' is now denied");
  }

  /** The reset handler. */
  method ResetPermissions(manager: ConfigStore.ConfigManager, saveError: Option<string>) returns (report: string)
    modifies manager
    ensures manager.config == old(manager.config).(permissions := Reset(old(manager.config.permissions)))
    ensures manager.configPath == old(manager.configPath) && manager.configFormat == old(manager.configFormat)
    ensures report == SaveReport(saveError, "All permissions reset to defaults")
  {
    manager.config := manager.config.(permissions := Config.PermissionConfig([], [], false));
    report := SaveReport(saveError, "All permissions reset to defaults");
  }
}
