/**
 * The refactor engine: rules that match single lines and propose a
 * replacement built from a template with "$i" placeholders, suggestions
 * applied to the lines of a file, and line-level edit operations.
 * Regular-expression matching is not part of this model: a rule keeps its
 * pattern as text and the matcher is a parameter that returns the capture
 * groups of a line (group 0 is the whole match), or `None` when the line
 * does not match. Reading and writing files are parameters too: the text
 * read (or the read error) comes in, the text to write (or the write
 * error) goes out.
 */
module Refactor {
  import opened Wrappers
  import opened Errors
  import opened Text
  import ConfigStore

  // ---------------------------------------------------------------------
  // Replacement templates
  // ---------------------------------------------------------------------

  /** The capture groups of one match; a group that did not take part is `None`. */
  type Captures = seq<Option<string>>

  /**
   * Rust's `str::replace`: every non-overlapping occurrence of `pat`,
   * scanning from the left, is replaced by `rep`.
   */
  function ReplaceAll(s: string, pat: string, rep: string): (r: string)
    requires pat != []
    ensures !Contains(s, pat) ==> r == s
    decreases |s|
  {
    if StartsWith(s, pat) then rep + ReplaceAll(s[|pat|..], pat, rep)
    else if s == [] then []
    else [s[0]] + ReplaceAll(s[1..], pat, rep)
  }

  /** The placeholder for group `i`: "$" followed by the decimal index. */
  function Placeholder(i: nat): (p: string)
    ensures |p| >= 2 && p[0] == '$'
  {
    "$" + NatToString(i)
  }

  /**
   * `apply_replacement` as a fold: group by group in increasing order,
   * every occurrence of the group's placeholder in the text built so far
   * is replaced by the group's text; groups that did not match are skipped.
   */
  function Substituted(template: string, caps: Captures, n: nat): string
    requires n <= |caps|
  {
    if n == 0 then template
    else
      var prev := Substituted(template, caps, n - 1);
      if caps[n - 1].Some? then ReplaceAll(prev, Placeholder(n - 1), caps[n - 1].value) else prev
  }

  /** `apply_replacement`: the loop over the capture groups. */
  method ApplyReplacement(template: string, caps: Captures) returns (r: string)
    ensures r == Substituted(template, caps, |caps|)
  {
    r := template;
    var i := 0;
    while i < |caps|
      invariant i <= |caps|
      invariant r == Substituted(template, caps, i)
    {
      if caps[i].Some? {
        r := ReplaceAll(r, Placeholder(i), caps[i].value);
      }
      i := i + 1;
    }
  }

  /** A template seen as literal text and placeholders. */
  datatype Piece = Literal(text: string) | Hole(group: nat)

  function RenderPiece(p: Piece): string {
    match p
    case Literal(t) => t
    case Hole(k) => Placeholder(k)
  }

  /** The template text the pieces spell. */
  function Render(ps: seq<Piece>): string {
    if ps == [] then "" else RenderPiece(ps[0]) + Render(ps[1..])
  }

  /**
   * The intended result: each placeholder stands for its group's text when
   * that group exists and matched, and stays as it is otherwise.
   */
  function Fill(ps: seq<Piece>, caps: Captures): string {
    if ps == [] then ""
    else
      var head := match ps[0]
        case Literal(t) => t
        case Hole(k) => if k < |caps| && caps[k].Some? then caps[k].value else Placeholder(k);
      head + Fill(ps[1..], caps)
  }

  /** Literals free of '$' and placeholders of one digit. */
  predicate PlainTemplate(ps: seq<Piece>) {
    forall i :: 0 <= i < |ps| ==> (ps[i].Literal? ==> '$' !in ps[i].text) && (ps[i].Hole? ==> ps[i].group < 10)
  }

  /** Group texts free of '$'. */
  predicate PlainCaptures(caps: Captures) {
    forall i :: 0 <= i < |caps| && caps[i].Some? ==> '$' !in caps[i].value
  }

  /** The pieces once the groups below `n` have been substituted. */
  function ResolvePiece(p: Piece, caps: Captures, n: nat): Piece {
    if p.Hole? && p.group < n && p.group < |caps| && caps[p.group].Some? then Literal(caps[p.group].value) else p
  }

  function Resolve(ps: seq<Piece>, caps: Captures, n: nat): (r: seq<Piece>)
    ensures |r| == |ps|
  {
    if ps == [] then [] else [ResolvePiece(ps[0], caps, n)] + Resolve(ps[1..], caps, n)
  }

  /** Replacing skips text that holds no '$' when the pattern starts with '$'. */
  lemma {:induction false} ReplaceSkipsFree(a: string, b: string, pat: string, rep: string)
    requires pat != [] && pat[0] == '$' && '$' !in a
    ensures ReplaceAll(a + b, pat, rep) == a + ReplaceAll(b, pat, rep)
  {
    if a != [] {
      assert (a + b)[0] == a[0];
      assert !StartsWith(a + b, pat);
      assert (a + b)[1..] == a[1..] + b;
      ReplaceSkipsFree(a[1..], b, pat, rep);
    } else {
      assert a + b == b;
    }
  }

  /** Single-digit placeholders of different groups do not match each other. */
  lemma ReplaceSkipsOtherHole(k: nat, i: nat, b: string, rep: string)
    requires k < 10 && i < 10 && k != i
    ensures ReplaceAll(Placeholder(k) + b, Placeholder(i), rep) == Placeholder(k) + ReplaceAll(b, Placeholder(i), rep)
  {
    var s := Placeholder(k) + b;
    assert s[1] != Placeholder(i)[1];
    assert !StartsWith(s, Placeholder(i));
    assert s[1..] == [Placeholder(k)[1]] + b;
    ReplaceSkipsFree([Placeholder(k)[1]], b, Placeholder(i), rep);
    assert Placeholder(k) == [s[0]] + [Placeholder(k)[1]];
  }

  lemma ReplaceAtHole(i: nat, b: string, rep: string)
    ensures ReplaceAll(Placeholder(i) + b, Placeholder(i), rep) == rep + ReplaceAll(b, Placeholder(i), rep)
  {
    var s := Placeholder(i) + b;
    assert s[..|Placeholder(i)|] == Placeholder(i);
    assert s[|Placeholder(i)|..] == b;
  }

  /** One step of the fold fills exactly the holes of group `n`. */
  lemma {:induction false} ReplaceStep(ps: seq<Piece>, caps: Captures, n: nat)
    requires PlainTemplate(ps) && PlainCaptures(caps)
    requires n < |caps| && n < 10 && caps[n].Some?
    ensures ReplaceAll(Render(Resolve(ps, caps, n)), Placeholder(n), caps[n].value) == Render(Resolve(ps, caps, n + 1))
  {
    if ps != [] {
      assert PlainTemplate(ps[1..]) by {
        forall i | 0 <= i < |ps[1..]|
          ensures (ps[1..][i].Literal? ==> '$' !in ps[1..][i].text) && (ps[1..][i].Hole? ==> ps[1..][i].group < 10)
        {
          assert ps[1..][i] == ps[i + 1];
        }
      }
      ReplaceStep(ps[1..], caps, n);
      var pat := Placeholder(n);
      var c := caps[n].value;
      var rest := Render(Resolve(ps[1..], caps, n));
      var p := ResolvePiece(ps[0], caps, n);
      assert Render(Resolve(ps, caps, n)) == RenderPiece(p) + rest;
      assert Render(Resolve(ps, caps, n + 1)) == RenderPiece(ResolvePiece(ps[0], caps, n + 1)) + Render(Resolve(ps[1..], caps, n + 1));
      if p.Literal? {
        assert '$' !in p.text;
        ReplaceSkipsFree(p.text, rest, pat, c);
      } else if p.group == n {
        ReplaceAtHole(n, rest, c);
      } else {
        assert p.group < 10;
        ReplaceSkipsOtherHole(p.group, n, rest, c);
      }
    }
  }

  /** A group that did not match changes nothing. */
  lemma {:induction false} ResolveSkip(ps: seq<Piece>, caps: Captures, n: nat)
    requires n < |caps| && caps[n].None?
    ensures Resolve(ps, caps, n + 1) == Resolve(ps, caps, n)
  {
    if ps != [] {
      ResolveSkip(ps[1..], caps, n);
    }
  }

  lemma {:induction false} ResolveNone(ps: seq<Piece>, caps: Captures)
    ensures Resolve(ps, caps, 0) == ps
  {
    if ps != [] {
      ResolveNone(ps[1..], caps);
    }
  }

  lemma {:induction false} ResolveAll(ps: seq<Piece>, caps: Captures)
    ensures Render(Resolve(ps, caps, |caps|)) == Fill(ps, caps)
  {
    if ps != [] {
      ResolveAll(ps[1..], caps);
    }
  }

  lemma {:induction false} SubstitutedResolves(ps: seq<Piece>, caps: Captures, n: nat)
    requires PlainTemplate(ps) && PlainCaptures(caps)
    requires n <= |caps| <= 10
    ensures Substituted(Render(ps), caps, n) == Render(Resolve(ps, caps, n))
  {
    if n == 0 {
      ResolveNone(ps, caps);
    } else {
      SubstitutedResolves(ps, caps, n - 1);
      if caps[n - 1].Some? {
        ReplaceStep(ps, caps, n - 1);
      } else {
        ResolveSkip(ps, caps, n - 1);
      }
    }
  }

  /**
   * `apply_replacement` puts every group's text where its placeholder
   * stands, for templates with single-digit placeholders and groups whose
   * text holds no '$'.
   */
  lemma SubstituteFills(ps: seq<Piece>, caps: Captures)
    requires PlainTemplate(ps) && PlainCaptures(caps) && |caps| <= 10
    ensures Substituted(Render(ps), caps, |caps|) == Fill(ps, caps)
  {
    SubstitutedResolves(ps, caps, |caps|);
    ResolveAll(ps, caps);
  }

  /** A template without placeholders is returned as it is. */
  lemma {:induction false} NoPlaceholderUnchanged(template: string, caps: Captures, n: nat)
    requires n <= |caps| && '$' !in template
    ensures Substituted(template, caps, n) == template
  {
    if n > 0 {
      NoPlaceholderUnchanged(template, caps, n - 1);
      if caps[n - 1].Some? {
        ReplaceSkipsFree(template, [], Placeholder(n - 1), caps[n - 1].value);
        assert template + [] == template;
      }
    }
  }

  /** The "use_const" template: `const `, group 1, ` = `, group 2, `;`. */
  function UseConstPieces(): seq<Piece> {
    [Literal("const "), Hole(1), Literal(" = "), Hole(2), Literal(";")]
  }

  lemma UseConstRenders()
    ensures Render(UseConstPieces()) == "const $1 = $2;"
  {
    var ps := UseConstPieces();
    assert Render(ps[4..]) == ";";
    assert Render(ps[3..]) == "$2;";
    assert Render(ps[2..]) == " = $2;";
    assert Render(ps[1..]) == "$1 = $2;";
  }

  lemma UseConstFills()
    ensures Fill(UseConstPieces(), [Some("let x = 5;"), Some("x"), Some("5")]) == "const x = 5;"
  {
    var ps := UseConstPieces();
    var caps: Captures := [Some("let x = 5;"), Some("x"), Some("5")];
    assert Fill(ps[4..], caps) == ";";
    assert Fill(ps[3..], caps) == "5;";
    assert Fill(ps[2..], caps) == " = 5;";
    assert Fill(ps[1..], caps) == "x = 5;";
  }

  /** The "use_const" template applied to `let x = 5;`, whose groups are the line, "x" and "5". */
  lemma UseConstExample()
    ensures Substituted("const $1 = $2;", [Some("let x = 5;"), Some("x"), Some("5")], 3) == "const x = 5;"
  {
    var caps: Captures := [Some("let x = 5;"), Some("x"), Some("5")];
    UseConstRenders();
    UseConstFills();
    assert PlainCaptures(caps);
    SubstituteFills(UseConstPieces(), caps);
  }

  // ---------------------------------------------------------------------
  // Rules and suggestions
  // ---------------------------------------------------------------------

  datatype ImpactLevel = Low | Medium | High

  datatype SuggestionType =
    | Rename(from: string, to: string)
    | ExtractFunction(functionName: string)
    | InlineFunction(functionName: string)
    | RemoveUnused
    | SimplifyExpression
    | FormatCode
    | AddDocumentation
    | PerformanceOptimization
    | SecurityFix

  /** A suggestion; `lineRange` holds 1-based line numbers. */
  datatype Suggestion = Suggestion(
    id: string,
    suggestionType: SuggestionType,
    filePath: string,
    lineRange: (nat, nat),
    originalCode: string,
    suggestedCode: string,
    description: string,
    impact: ImpactLevel)

  /** A rule; `pattern` is the text of its regular expression. */
  datatype Rule = Rule(
    name: string,
    fileExtensions: seq<string>,
    pattern: string,
    replacement: string,
    description: string,
    impact: ImpactLevel)

  /** The regular-expression engine: the groups of a line matched against a pattern. */
  type Matcher = (string, string) -> Option<Captures>

  /** `determine_suggestion_type`: three rule names have their own type, every other name simplifies. */
  function SuggestionTypeFor(ruleName: string): (t: SuggestionType)
    ensures t == RemoveUnused <==> ruleName == "remove_unused_imports"
    ensures t == FormatCode <==> ruleName == "format_code"
    ensures t == AddDocumentation <==> ruleName == "add_documentation"
    ensures t.RemoveUnused? || t.FormatCode? || t.AddDocumentation? || t.SimplifyExpression?
  {
    if ruleName == "remove_unused_imports" then RemoveUnused
    else if ruleName == "format_code" then FormatCode
    else if ruleName == "add_documentation" then AddDocumentation
    else SimplifyExpression
  }

  /** The suggestion for the line at 0-based index `j`. */
  function SuggestionAt(rule: Rule, path: string, line: string, j: nat, caps: Captures): Suggestion {
    Suggestion(
      rule.name + "_" + NatToString(j + 1),
      SuggestionTypeFor(rule.name),
      path,
      (j + 1, j + 1),
      line,
      Substituted(rule.replacement, caps, |caps|),
      rule.description,
      rule.impact)
  }

  /**
   * The suggestions a rule yields for the first `n` lines: one per line
   * the pattern matches, in line order.
   */
  function RuleSuggestions(rule: Rule, path: string, lines: seq<string>, m: Matcher, n: nat): (r: seq<Suggestion>)
    requires n <= |lines|
    ensures |r| <= n
  {
    if n == 0 then []
    else
      var prev := RuleSuggestions(rule, path, lines, m, n - 1);
      var caps := m(rule.pattern, lines[n - 1]);
      if caps.Some? then prev + [SuggestionAt(rule, path, lines[n - 1], n - 1, caps.value)] else prev
  }

  /** The suggestion spans one of the first `n` lines alone, that line matches, and it is quoted. */
  predicate OnMatchingLine(s: Suggestion, pattern: string, lines: seq<string>, m: Matcher, n: nat)
    requires n <= |lines|
  {
    1 <= s.lineRange.0 <= n && s.lineRange.1 == s.lineRange.0
    && m(pattern, lines[s.lineRange.0 - 1]).Some?
    && s.originalCode == lines[s.lineRange.0 - 1]
  }

  /** Each suggestion spans exactly one matching line and quotes it. */
  lemma {:induction false} SuggestionsOnMatchingLines(rule: Rule, path: string, lines: seq<string>, m: Matcher, n: nat)
    requires n <= |lines|
    ensures forall s :: s in RuleSuggestions(rule, path, lines, m, n) ==> OnMatchingLine(s, rule.pattern, lines, m, n)
  {
    if n > 0 {
      SuggestionsOnMatchingLines(rule, path, lines, m, n - 1);
      var prev := RuleSuggestions(rule, path, lines, m, n - 1);
      forall s | s in prev
        ensures OnMatchingLine(s, rule.pattern, lines, m, n)
      {
        assert OnMatchingLine(s, rule.pattern, lines, m, n - 1);
      }
    }
  }

  predicate IncreasingLines(r: seq<Suggestion>) {
    forall k, l :: 0 <= k < l < |r| ==> r[k].lineRange.0 < r[l].lineRange.0
  }

  /** Suggestions come in increasing line order, so no two share a range or an id. */
  lemma {:induction false} SuggestionsOrdered(rule: Rule, path: string, lines: seq<string>, m: Matcher, n: nat)
    requires n <= |lines|
    ensures IncreasingLines(RuleSuggestions(rule, path, lines, m, n))
  {
    if n > 0 {
      SuggestionsOnMatchingLines(rule, path, lines, m, n - 1);
      SuggestionsOrdered(rule, path, lines, m, n - 1);
      var r := RuleSuggestions(rule, path, lines, m, n);
      var prev := RuleSuggestions(rule, path, lines, m, n - 1);
      var caps := m(rule.pattern, lines[n - 1]);
      if caps.Some? {
        assert r == prev + [SuggestionAt(rule, path, lines[n - 1], n - 1, caps.value)];
        forall k, l | 0 <= k < l < |r|
          ensures r[k].lineRange.0 < r[l].lineRange.0
        {
          assert r[k] == prev[k];
          if l < |prev| {
            assert r[l] == prev[l];
          } else {
            assert prev[k] in prev;
            assert OnMatchingLine(prev[k], rule.pattern, lines, m, n - 1);
          }
        }
      }
    }
  }

  predicate HasLine(r: seq<Suggestion>, line: nat) {
    exists k :: 0 <= k < |r| && r[k].lineRange.0 == line
  }

  /** Every matching line has its suggestion. */
  lemma {:induction false} SuggestionsComplete(rule: Rule, path: string, lines: seq<string>, m: Matcher, n: nat, j: nat)
    requires j < n <= |lines| && m(rule.pattern, lines[j]).Some?
    ensures HasLine(RuleSuggestions(rule, path, lines, m, n), j + 1)
  {
    var r := RuleSuggestions(rule, path, lines, m, n);
    var prev := RuleSuggestions(rule, path, lines, m, n - 1);
    var caps := m(rule.pattern, lines[n - 1]);
    if j == n - 1 {
      assert r == prev + [SuggestionAt(rule, path, lines[n - 1], n - 1, caps.value)];
      assert r[|prev|].lineRange.0 == j + 1;
    } else {
      SuggestionsComplete(rule, path, lines, m, n - 1, j);
      var k :| 0 <= k < |prev| && prev[k].lineRange.0 == j + 1;
      if caps.Some? {
        assert r == prev + [SuggestionAt(rule, path, lines[n - 1], n - 1, caps.value)];
        assert r[k] == prev[k];
      }
      assert r[k].lineRange.0 == j + 1;
    }
  }

  /** `apply_rule`: the loop over the lines of the file. */
  method ApplyRule(content: string, path: string, rule: Rule, m: Matcher) returns (r: seq<Suggestion>)
    ensures r == RuleSuggestions(rule, path, Lines(content), m, |Lines(content)|)
  {
    var lines := Lines(content);
    r := [];
    var i := 0;
    while i < |lines|
      invariant i <= |lines|
      invariant r == RuleSuggestions(rule, path, lines, m, i)
    {
      var caps := m(rule.pattern, lines[i]);
      if caps.Some? {
        var suggested := ApplyReplacement(rule.replacement, caps.value);
        var s := Suggestion(
          rule.name + "_" + NatToString(i + 1),
          SuggestionTypeFor(rule.name),
          path,
          (i + 1, i + 1),
          lines[i],
          suggested,
          rule.description,
          rule.impact);
        assert s == SuggestionAt(rule, path, lines[i], i, caps.value);
        r := r + [s];
      }
      i := i + 1;
    }
  }

  // ---------------------------------------------------------------------
  // The engine and its rule tables
  // ---------------------------------------------------------------------

  function RustRules(): seq<Rule> {
    [ Rule("remove_unused_imports", ["rs"], "^use\\s+([^;]+);$", "// Unused import: use $1;",
           "Remove unused import", Low),
      Rule("add_documentation", ["rs"], "^pub fn\\s+(\\w+)", "/// TODO: Add documentation\npub fn $1",
           "Add documentation for public function", Low) ]
  }

  function ScriptRules(): seq<Rule> {
    [ Rule("use_const", ["js", "ts"], "^let\\s+(\\w+)\\s*=\\s*([^;]+);$", "const $1 = $2;",
           "Use const instead of let for immutable variables", Low) ]
  }

  /** The rules a new engine starts with, by file extension. */
  function DefaultRules(): map<string, seq<Rule>> {
    map["rs" := RustRules(), "js" := ScriptRules(), "ts" := ScriptRules()]
  }

  /** The custom rules that list the extension, in the order they were added. */
  function CustomFor(rules: seq<Rule>, ext: string): (r: seq<Rule>)
    ensures forall x :: x in r <==> x in rules && ext in x.fileExtensions
  {
    if rules == [] then []
    else
      var prev := CustomFor(rules[..|rules| - 1], ext);
      var last := rules[|rules| - 1];
      assert rules == rules[..|rules| - 1] + [last];
      if ext in last.fileExtensions then prev + [last] else prev
  }

  /** The suggestions of several rules over one text, rule after rule. */
  function AllSuggestions(rules: seq<Rule>, content: string, path: string, m: Matcher): seq<Suggestion> {
    if rules == [] then []
    else
      AllSuggestions(rules[..|rules| - 1], content, path, m)
        + RuleSuggestions(rules[|rules| - 1], path, Lines(content), m, |Lines(content)|)
  }

  lemma AllSuggestionsSnoc(rules: seq<Rule>, rule: Rule, content: string, path: string, m: Matcher)
    ensures AllSuggestions(rules + [rule], content, path, m)
      == AllSuggestions(rules, content, path, m) + RuleSuggestions(rule, path, Lines(content), m, |Lines(content)|)
  {
    assert (rules + [rule])[..|rules|] == rules;
  }

  /** Every suggestion from a list of rules lies on a line one of those rules matches. */
  lemma {:induction false} AllSuggestionsFromRules(rules: seq<Rule>, content: string, path: string, m: Matcher)
    ensures forall s :: s in AllSuggestions(rules, content, path, m) ==>
      exists x :: x in rules && OnMatchingLine(s, x.pattern, Lines(content), m, |Lines(content)|)
  {
    if rules != [] {
      var init := rules[..|rules| - 1];
      var last := rules[|rules| - 1];
      AllSuggestionsFromRules(init, content, path, m);
      SuggestionsOnMatchingLines(last, path, Lines(content), m, |Lines(content)|);
      assert last in rules;
      forall s | s in AllSuggestions(rules, content, path, m)
        ensures exists x :: x in rules && OnMatchingLine(s, x.pattern, Lines(content), m, |Lines(content)|)
      {
        if s in AllSuggestions(init, content, path, m) {
          var x :| x in init && OnMatchingLine(s, x.pattern, Lines(content), m, |Lines(content)|);
          assert x in rules;
        } else {
          assert OnMatchingLine(s, last.pattern, Lines(content), m, |Lines(content)|);
        }
      }
    }
  }

  /** The loop over a list of rules, each run over the whole text. */
  method RunRules(content: string, path: string, rules: seq<Rule>, m: Matcher) returns (found: seq<Suggestion>)
    ensures found == AllSuggestions(rules, content, path, m)
  {
    found := [];
    var i := 0;
    while i < |rules|
      invariant i <= |rules|
      invariant found == AllSuggestions(rules[..i], content, path, m)
    {
      var more := ApplyRule(content, path, rules[i], m);
      AllSuggestionsSnoc(rules[..i], rules[i], content, path, m);
      assert rules[..i + 1] == rules[..i] + [rules[i]];
      found := found + more;
      i := i + 1;
    }
    assert rules[..i] == rules;
  }

  /** One more custom rule adds its suggestions when it lists the extension, and nothing otherwise. */
  lemma CustomStep(builtin: seq<Rule>, rules: seq<Rule>, j: nat, ext: string, content: string, path: string, m: Matcher)
    requires j < |rules|
    ensures AllSuggestions(builtin + CustomFor(rules[..j + 1], ext), content, path, m)
      == AllSuggestions(builtin + CustomFor(rules[..j], ext), content, path, m)
        + (if ext in rules[j].fileExtensions then RuleSuggestions(rules[j], path, Lines(content), m, |Lines(content)|) else [])
  {
    assert rules[..j + 1][..j] == rules[..j];
    if ext in rules[j].fileExtensions {
      assert builtin + CustomFor(rules[..j + 1], ext) == (builtin + CustomFor(rules[..j], ext)) + [rules[j]];
      AllSuggestionsSnoc(builtin + CustomFor(rules[..j], ext), rules[j], content, path, m);
    }
  }

  /** The extension `analyze_file` looks rules up by: the file name's extension, or "" when it has none. */
  function ExtensionOf(path: string): (r: string)
    ensures ConfigStore.Extension(ConfigStore.FileName(path)).None? ==> r == ""
    ensures '.' !in r
    ensures r != [] ==> ConfigStore.FileName(path).Some? && EndsWith(ConfigStore.FileName(path).value, "." + r)
  {
    var e := ConfigStore.Extension(ConfigStore.FileName(path));
    if e.Some? then e.value else ""
  }

  class RefactorEngine {
    /** Rules by file extension. */
    var languageRules: map<string, seq<Rule>>
    /** Rules added by the user; each lists the extensions it applies to. */
    var customRules: seq<Rule>

    /** `new`: the built-in rules for Rust, JavaScript and TypeScript, no custom rules. */
    constructor()
      ensures languageRules == DefaultRules() && customRules == []
      ensures SupportedLanguages() == {"rs", "js", "ts"}
    {
      languageRules := DefaultRules();
      customRules := [];
    }

    /** `get_supported_languages`: the extensions with built-in rules. */
    function SupportedLanguages(): set<string>
      reads this
    {
      languageRules.Keys
    }

    /** `is_supported_language`: built-in rules exist for the extension, or a custom rule lists it. */
    predicate IsSupportedLanguage(ext: string)
      reads this
    {
      ext in languageRules || exists x :: x in customRules && ext in x.fileExtensions
    }

    /** The rules `analyze_file` runs for an extension: the built-in ones, then the matching custom ones. */
    function ApplicableRules(ext: string): (r: seq<Rule>)
      reads this
      ensures !IsSupportedLanguage(ext) ==> r == []
    {
      var custom := CustomFor(customRules, ext);
      assert custom != [] ==> custom[0] in customRules;
      (if ext in languageRules then languageRules[ext] else []) + custom
    }

    method AddCustomRule(rule: Rule)
      modifies this
      ensures customRules == old(customRules) + [rule]
      ensures languageRules == old(languageRules)
      ensures forall e :: e in rule.fileExtensions ==> IsSupportedLanguage(e)
    {
      customRules := customRules + [rule];
    }

    /**
     * `analyze_file`: the text comes from reading the file (or the read
     * fails); every applicable rule is run over its lines.
     */
    method AnalyzeFile(read: Result<string, ClaudeError>, path: string, m: Matcher)
      returns (r: Result<seq<Suggestion>, ClaudeError>)
      ensures read.Err? ==> r == Err(read.error)
      ensures read.Ok? ==> r == Ok(AllSuggestions(ApplicableRules(ExtensionOf(path)), read.value, path, m))
    {
      if read.Err? {
        return Err(read.error);
      }
      var ext := ExtensionOf(path);
      var content := read.value;
      var builtin: seq<Rule> := if ext in languageRules then languageRules[ext] else [];
      var found := RunRules(content, path, builtin, m);
      assert builtin + CustomFor(customRules[..0], ext) == builtin;
      var j := 0;
      while j < |customRules|
        invariant j <= |customRules|
        invariant found == AllSuggestions(builtin + CustomFor(customRules[..j], ext), content, path, m)
      {
        CustomStep(builtin, customRules, j, ext, content, path, m);
        if ext in customRules[j].fileExtensions {
          var more := ApplyRule(content, path, customRules[j], m);
          found := found + more;
        }
        j := j + 1;
      }
      assert customRules[..j] == customRules;
      r := Ok(found);
    }
  }

  /** A file whose extension no rule names gets no suggestions. */
  lemma UnsupportedFileHasNoSuggestions(e: RefactorEngine, ext: string, content: string, path: string, m: Matcher)
    requires !e.IsSupportedLanguage(ext)
    ensures AllSuggestions(e.ApplicableRules(ext), content, path, m) == []
  {
  }

  // ---------------------------------------------------------------------
  // Line edits
  // ---------------------------------------------------------------------

  datatype EditPosition = EditPosition(line: nat, column: nat, length: Option<nat>)

  datatype EditKind = Insert | Delete | Replace | Move(toPosition: EditPosition)

  datatype EditOperation = EditOperation(kind: EditKind, filePath: string, position: EditPosition, content: string)

  /** A 1-based line number as an index: Rust's `saturating_sub(1)`, so line 0 is index 0 too. */
  function LineIndex(line: nat): (i: nat)
    ensures line >= 1 ==> i + 1 == line
    ensures line == 0 ==> i == 0
  {
    if line == 0 then 0 else line - 1
  }

  /** The lines with the one at `from` taken out and put back at index `to` of the shorter list. */
  function MoveLine(lines: seq<string>, from: nat, to: nat): (r: seq<string>)
    requires from < |lines| && to < |lines|
    ensures |r| == |lines| && r[to] == lines[from]
    ensures multiset(r) == multiset(lines)
  {
    var rest := lines[..from] + lines[from + 1..];
    assert lines == lines[..from] + [lines[from]] + lines[from + 1..];
    assert multiset(lines) == multiset(rest) + multiset{lines[from]};
    assert rest == rest[..to] + rest[to..];
    assert multiset(rest[..to] + [lines[from]] + rest[to..]) == multiset(rest) + multiset{lines[from]};
    rest[..to] + [lines[from]] + rest[to..]
  }

  /**
   * `execute_edit` on the lines of a file: Insert at an index up to the
   * length, Delete and Replace at an index below it, Move when both
   * indices lie below the length; any other position leaves the lines as
   * they were.
   */
  function EditLines(lines: seq<string>, op: EditOperation): (r: seq<string>)
    ensures var i := LineIndex(op.position.line);
      (op.kind.Insert? && i <= |lines| ==>
        |r| == |lines| + 1 && r[i] == op.content && r[..i] == lines[..i] && r[i + 1..] == lines[i..])
      && (op.kind.Delete? && i < |lines| ==>
        |r| + 1 == |lines| && r[..i] == lines[..i] && r[i..] == lines[i + 1..])
      && (op.kind.Replace? && i < |lines| ==>
        |r| == |lines| && r[i] == op.content && forall j :: 0 <= j < |r| && j != i ==> r[j] == lines[j])
      && (op.kind.Move? ==> multiset(r) == multiset(lines))
      && ((op.kind.Insert? && i > |lines|) || (!op.kind.Insert? && i >= |lines|) ==> r == lines)
  {
    var i := LineIndex(op.position.line);
    match op.kind
    case Insert => if i <= |lines| then lines[..i] + [op.content] + lines[i..] else lines
    case Delete => if i < |lines| then lines[..i] + lines[i + 1..] else lines
    case Replace => if i < |lines| then lines[i := op.content] else lines
    case Move(to) =>
      var t := LineIndex(to.line);
      if i < |lines| && t < |lines| then MoveLine(lines, i, t) else lines
  }

  /**
   * `execute_edit`'s Move as written: the target index is checked against
   * the length before the line is removed, so a target equal to the old
   * length passes the check and the insertion past the end panics (`None`).
   */
  function MoveAsWritten(lines: seq<string>, from: nat, to: nat): (r: Option<seq<string>>)
  {
    if from < |lines| && to <= |lines| then
      var rest := lines[..from] + lines[from + 1..];
      if to <= |rest| then Some(rest[..to] + [lines[from]] + rest[to..]) else None
    else Some(lines)
  }

  /** Moving line 1 of a two-line file to line 3 panics as written. */
  lemma MovePastEndPanics()
    ensures MoveAsWritten(["a", "b"], LineIndex(1), LineIndex(3)) == None
  {
  }

  /** Below that one target the check as written and the corrected one agree. */
  lemma MoveAgreesBelowLength(lines: seq<string>, from: nat, to: nat)
    requires to != |lines|
    ensures MoveAsWritten(lines, from, to) == Some(if from < |lines| && to < |lines| then MoveLine(lines, from, to) else lines)
  {
  }

  /** Deleting the line just inserted gives the lines back. */
  lemma InsertThenDelete(lines: seq<string>, line: nat, text: string, path: string, pos: EditPosition)
    requires LineIndex(line) <= |lines| && pos.line == line
    ensures EditLines(EditLines(lines, EditOperation(Insert, path, pos, text)), EditOperation(Delete, path, pos, text)) == lines
  {
    var i := LineIndex(line);
    var inserted := EditLines(lines, EditOperation(Insert, path, pos, text));
    assert inserted[..i] + inserted[i + 1..] == lines[..i] + lines[i..];
    assert lines[..i] + lines[i..] == lines;
  }

  /** Moving a line and moving it back restores the lines. */
  lemma MoveBack(lines: seq<string>, from: nat, to: nat)
    requires from < |lines| && to < |lines|
    ensures MoveLine(MoveLine(lines, from, to), to, from) == lines
  {
    var moved := MoveLine(lines, from, to);
    var rest := lines[..from] + lines[from + 1..];
    assert moved[..to] + moved[to + 1..] == rest;
    assert rest[..from] + [lines[from]] + rest[from..] == lines;
  }

  /**
   * `execute_edit`: the edited lines joined with '\n' are written back;
   * a failed read or write is returned as the error. The result is the
   * text written.
   */
  function ExecuteEdit(read: Result<string, ClaudeError>, op: EditOperation, writeError: Option<ClaudeError>): (r: Result<string, ClaudeError>)
    ensures read.Err? ==> r == Err(read.error)
    ensures read.Ok? && writeError.Some? ==> r == Err(writeError.value)
    ensures r.Ok? ==> r.value == Join(EditLines(Lines(read.value), op), "\n")
  {
    if read.Err? then Err(read.error)
    else
      var text := Join(EditLines(Lines(read.value), op), "\n");
      if writeError.Some? then Err(writeError.value) else Ok(text)
  }

  /** Reading the written file back gives the edited lines, when they are plain lines and the last is not empty. */
  lemma ExecuteEditReadsBack(read: Result<string, ClaudeError>, op: EditOperation)
    requires read.Ok?
    requires var e := EditLines(Lines(read.value), op); e != [] && e[|e| - 1] != [] && PlainLines(e)
    ensures Lines(ExecuteEdit(read, op, None).value) == EditLines(Lines(read.value), op)
  {
    LinesOfJoin(EditLines(Lines(read.value), op));
  }

  // ---------------------------------------------------------------------
  // Applying suggestions
  // ---------------------------------------------------------------------

  function Min(a: nat, b: nat): nat {
    if a <= b then a else b
  }

  /** Where the kept tail starts after the lines `start..=end` are taken out (none when `start > end`). */
  function TailStart(n: nat, start: nat, end: nat): (t: nat)
    requires start <= n
    ensures start <= t <= n
  {
    if start <= end then Min(n, end + 1) else start
  }

  /** The lines with `start..=end` (cut at the end of the file) replaced by `added`. */
  function Spliced(lines: seq<string>, start: nat, end: nat, added: seq<string>): (r: seq<string>)
    requires start <= |lines|
    ensures |r| == |lines| - (TailStart(|lines|, start, end) - start) + |added|
    ensures r[..start] == lines[..start]
    ensures r[start..start + |added|] == added
    ensures r[start + |added|..] == lines[TailStart(|lines|, start, end)..]
  {
    lines[..start] + added + lines[TailStart(|lines|, start, end)..]
  }

  /**
   * `apply_suggestion` on the lines of a file, with the range check
   * corrected to refuse a start past the end as well.
   */
  function SuggestionResult(lines: seq<string>, range: (nat, nat), added: seq<string>): (r: Result<seq<string>, ClaudeError>)
    ensures r.Err? <==> range.1 > |lines| || LineIndex(range.0) > |lines|
    ensures r.Err? ==> r.error == General("Line range exceeds file length")
  {
    if range.1 > |lines| || LineIndex(range.0) > |lines| then Err(General("Line range exceeds file length"))
    else Ok(Spliced(lines, LineIndex(range.0), LineIndex(range.1), added))
  }

  /**
   * `apply_suggestion` as written: only the end of the range is checked.
   * A start past the end of the file then reaches the insertion loop,
   * whose first insertion is out of bounds and panics (`None`).
   */
  function SuggestionResultAsWritten(lines: seq<string>, range: (nat, nat), added: seq<string>): Option<Result<seq<string>, ClaudeError>> {
    if range.1 > |lines| then Some(Err(General("Line range exceeds file length")))
    else if LineIndex(range.0) > |lines| then (if added == [] then Some(Ok(lines)) else None)
    else Some(Ok(Spliced(lines, LineIndex(range.0), LineIndex(range.1), added)))
  }

  /** The range (3, 1) over a one-line file passes the check as written and the insertion panics. */
  lemma ReversedRangePanics()
    ensures SuggestionResultAsWritten(["a"], (3, 1), ["x"]) == None
    ensures SuggestionResult(["a"], (3, 1), ["x"]).Err?
  {
  }

  /** Whenever the start lies within the file, the check as written and the corrected one agree. */
  lemma SuggestionAgreesWithinFile(lines: seq<string>, range: (nat, nat), added: seq<string>)
    requires LineIndex(range.0) <= |lines|
    ensures SuggestionResultAsWritten(lines, range, added) == Some(SuggestionResult(lines, range, added))
  {
  }

  /** A suggestion for line `n` of the file replaces exactly that line. */
  lemma SingleLineSuggestion(lines: seq<string>, n: nat, added: seq<string>)
    requires 1 <= n <= |lines|
    ensures SuggestionResult(lines, (n, n), added) == Ok(lines[..n - 1] + added + lines[n..])
  {
  }

  /** The loops of `apply_suggestion`: remove at `start` once per line of the range, then insert the new lines. */
  /** Removing the element at `start` from `a[..start] + a[m..]` drops `a[m]`. */
  lemma DropOneAt<T>(a: seq<T>, start: nat, m: nat)
    requires start <= m < |a|
    ensures var cur := a[..start] + a[m..];
      cur[..start] + cur[start + 1..] == a[..start] + a[m + 1..]
  {
    var cur := a[..start] + a[m..];
    assert cur[..start] == a[..start];
    assert cur[start + 1..] == a[m + 1..];
  }

  /** Inserting `b[i]` after `pre + b[..i]` extends the inserted part by one. */
  lemma InsertOneAt<T>(pre: seq<T>, b: seq<T>, i: nat, tail: seq<T>)
    requires i < |b|
    ensures var cur := pre + b[..i] + tail;
      cur[..|pre| + i] + [b[i]] + cur[|pre| + i..] == pre + b[..i + 1] + tail
  {
    var cur := pre + b[..i] + tail;
    assert cur[..|pre| + i] == pre + b[..i];
    assert cur[|pre| + i..] == tail;
    assert b[..i + 1] == b[..i] + [b[i]];
  }

  method ApplySuggestionLines(lines: seq<string>, range: (nat, nat), added: seq<string>) returns (r: Result<seq<string>, ClaudeError>)
    ensures r == SuggestionResult(lines, range, added)
  {
    if range.1 > |lines| || LineIndex(range.0) > |lines| {
      return Err(General("Line range exceeds file length"));
    }
    var start := LineIndex(range.0);
    var end := LineIndex(range.1);
    var cur := lines;
    var total := if start <= end then end - start + 1 else 0;
    var c := 0;
    while c < total
      invariant c <= total
      invariant cur == lines[..start] + lines[Min(|lines|, start + c)..]
    {
      if start < |cur| {
        DropOneAt(lines, start, Min(|lines|, start + c));
        cur := cur[..start] + cur[start + 1..];
      }
      c := c + 1;
    }
    assert Min(|lines|, start + total) == TailStart(|lines|, start, end);
    ghost var tail := lines[TailStart(|lines|, start, end)..];
    var i := 0;
    while i < |added|
      invariant i <= |added|
      invariant cur == lines[..start] + added[..i] + tail
    {
      InsertOneAt(lines[..start], added, i, tail);
      cur := cur[..start + i] + [added[i]] + cur[start + i..];
      i := i + 1;
    }
    assert added[..i] == added;
    r := Ok(cur);
  }

  /**
   * `apply_suggestion`: read the file, splice the suggested lines in and
   * write the lines joined with '\n'. The result is the text written.
   */
  method ApplySuggestion(read: Result<string, ClaudeError>, s: Suggestion, writeError: Option<ClaudeError>)
    returns (r: Result<string, ClaudeError>)
    ensures read.Err? ==> r == Err(read.error)
    ensures read.Ok? ==> (
      var edited := SuggestionResult(Lines(read.value), s.lineRange, Lines(s.suggestedCode));
      if edited.Err? then r == Err(edited.error)
      else if writeError.Some? then r == Err(writeError.value)
      else r == Ok(Join(edited.value, "\n")))
  {
    if read.Err? {
      return Err(read.error);
    }
    var edited := ApplySuggestionLines(Lines(read.value), s.lineRange, Lines(s.suggestedCode));
    if edited.Err? {
      return Err(edited.error);
    }
    if writeError.Some? {
      return Err(writeError.value);
    }
    r := Ok(Join(edited.value, "\n"));
  }

  /** The ids of the suggestions applied without error, in order. */
  function AppliedIds(ss: seq<Suggestion>, failures: seq<Option<ClaudeError>>): (r: seq<string>)
    requires |failures| == |ss|
    ensures (forall i :: 0 <= i < |failures| ==> failures[i].None?) ==>
      |r| == |ss| && forall i :: 0 <= i < |ss| ==> r[i] == ss[i].id
  {
    if ss == [] then []
    else
      var n := |ss| - 1;
      var prev := AppliedIds(ss[..n], failures[..n]);
      if failures[n].None? then prev + [ss[n].id] else prev
  }

  /** "Failed to apply <id>: <error>" for each failure, in order. */
  function FailureMessages(ss: seq<Suggestion>, failures: seq<Option<ClaudeError>>): (r: seq<string>)
    requires |failures| == |ss|
    ensures r == [] <==> forall i :: 0 <= i < |failures| ==> failures[i].None?
  {
    if ss == [] then []
    else
      var n := |ss| - 1;
      var prev := FailureMessages(ss[..n], failures[..n]);
      assert forall i :: 0 <= i < n ==> failures[..n][i] == failures[i];
      if failures[n].Some? then prev + ["Failed to apply " + ss[n].id + ": " + Display(failures[n].value)] else prev
  }

  /** One more suggestion extends the applied ids or the failure messages. */
  lemma OutcomeStep(ss: seq<Suggestion>, failures: seq<Option<ClaudeError>>, i: nat)
    requires |failures| == |ss| && i < |ss|
    ensures AppliedIds(ss[..i + 1], failures[..i + 1])
      == AppliedIds(ss[..i], failures[..i]) + (if failures[i].None? then [ss[i].id] else [])
    ensures FailureMessages(ss[..i + 1], failures[..i + 1])
      == FailureMessages(ss[..i], failures[..i])
         + (if failures[i].Some? then ["Failed to apply " + ss[i].id + ": " + Display(failures[i].value)] else [])
  {
    assert ss[..i + 1][..i] == ss[..i] && ss[..i + 1][i] == ss[i];
    assert failures[..i + 1][..i] == failures[..i] && failures[..i + 1][i] == failures[i];
  }

  /**
   * `apply_suggestions`: each suggestion is applied in turn (`failures[i]`
   * is the error applying the i-th one gave, if any); the ids of all of
   * them come back when none failed, and one error listing every failure
   * otherwise.
   */
  method ApplySuggestions(ss: seq<Suggestion>, failures: seq<Option<ClaudeError>>) returns (r: Result<seq<string>, ClaudeError>)
    requires |failures| == |ss|
    ensures r.Ok? <==> forall i :: 0 <= i < |failures| ==> failures[i].None?
    ensures r.Ok? ==> |r.value| == |ss| && forall i :: 0 <= i < |ss| ==> r.value[i] == ss[i].id
    ensures r.Err? ==> r.error == General("Some suggestions failed to apply: " + Join(FailureMessages(ss, failures), ", "))
  {
    var applied: seq<string> := [];
    var errors: seq<string> := [];
    var i := 0;
    while i < |ss|
      invariant i <= |ss|
      invariant applied == AppliedIds(ss[..i], failures[..i])
      invariant errors == FailureMessages(ss[..i], failures[..i])
    {
      OutcomeStep(ss, failures, i);
      match failures[i] {
        case None => applied := applied + [ss[i].id];
        case Some(e) => errors := errors + ["Failed to apply " + ss[i].id + ": " + Display(e)];
      }
      i := i + 1;
    }
    assert ss[..i] == ss && failures[..i] == failures;
    if errors != [] {
      return Err(General("Some suggestions failed to apply: " + Join(errors, ", ")));
    }
    r := Ok(applied);
  }
}
