/**
 * The git integration's output parsers: `git status --porcelain` file
 * lists, the `## branch...upstream [ahead N, behind M]` header, the
 * `%H|%s|%an|%ad` log format, `git branch -a` and `git diff`.
 *
 * Running git is not part of this model: each parser takes the command's
 * standard output, or `None` when the command did not succeed. Lines are
 * indexed by character; git's output here is ASCII.
 */
module Git {
  import opened Wrappers
  import opened Errors
  import opened Text

  const U32: nat := 0x1_0000_0000

  datatype RemoteStatus = RemoteStatus(ahead: nat, behind: nat, remoteBranch: Option<string>)

  datatype GitStatus = GitStatus(
    currentBranch: string,
    hasChanges: bool,
    stagedFiles: seq<string>,
    unstagedFiles: seq<string>,
    untrackedFiles: seq<string>,
    remoteStatus: RemoteStatus)

  datatype GitCommit = GitCommit(hash: string, message: string, author: string, timestamp: string, filesChanged: seq<string>)

  datatype GitBranch = GitBranch(name: string, isCurrent: bool, isRemote: bool, lastCommit: Option<string>)

  datatype GitDiff = GitDiff(filePath: string, diffContent: string, linesAdded: nat, linesDeleted: nat)

  // ---------------------------------------------------------------------
  // Words

  /** The length of the run of non-whitespace characters `t` starts with. */
  function WordEnd(t: string): (n: nat)
    ensures n <= |t|
    ensures forall i :: 0 <= i < n ==> !IsWhitespace(t[i])
    ensures n < |t| ==> IsWhitespace(t[n])
  {
    if t == [] || IsWhitespace(t[0]) then 0 else 1 + WordEnd(t[1..])
  }

  /** Rust's `str::split_whitespace`. */
  function Words(s: string): (r: seq<string>)
    ensures forall i :: 0 <= i < |r| ==> r[i] != []
    decreases |s|
  {
    TrimStartSuffix(s);
    var t := TrimStart(s);
    if t == [] then []
    else
      var n := WordEnd(t);
      [t[..n]] + Words(t[n..])
  }

  /** `split_whitespace().nth(n)`. */
  function NthWord(s: string, n: nat): Option<string> {
    var w := Words(s);
    if n < |w| then Some(w[n]) else None
  }

  // ---------------------------------------------------------------------
  // git status --porcelain

  datatype Column = StagedColumn | UnstagedColumn | UntrackedColumn

  /**
   * Whether `get_file_status` lists a porcelain line's file in a column:
   * lines shorter than 3 are skipped, "??" is untracked, and otherwise a
   * non-space status letter in column 0 (index) or 1 (work tree) counts.
   */
  predicate InColumn(line: string, col: Column) {
    && |line| >= 3
    && match col
       case UntrackedColumn => line[..2] == "??"
       case StagedColumn => line[..2] != "??" && line[0] != ' '
       case UnstagedColumn => line[..2] != "??" && line[1] != ' '
  }

  /** The paths (from index 3 on) of the lines listed in a column, in order. */
  function FilesIn(lines: seq<string>, col: Column): (r: seq<string>)
    ensures |r| <= |lines|
  {
    if lines == [] then []
    else
      var last := lines[|lines| - 1];
      FilesIn(lines[..|lines| - 1], col) + (if InColumn(last, col) then [last[3..]] else [])
  }

  /** A path is listed in a column exactly when some line in that column names it. */
  lemma {:induction false} FilesInMembership(lines: seq<string>, col: Column, p: string)
    ensures p in FilesIn(lines, col) <==> exists i :: 0 <= i < |lines| && InColumn(lines[i], col) && lines[i][3..] == p
  {
    if lines != [] {
      var init := lines[..|lines| - 1];
      FilesInMembership(init, col, p);
      if p in FilesIn(init, col) {
        var i :| 0 <= i < |init| && InColumn(init[i], col) && init[i][3..] == p;
        assert lines[i] == init[i];
      }
      if exists i :: 0 <= i < |lines| && InColumn(lines[i], col) && lines[i][3..] == p {
        var i :| 0 <= i < |lines| && InColumn(lines[i], col) && lines[i][3..] == p;
        if i < |init| {
          assert init[i] == lines[i];
        }
      }
    }
  }

  /** A column is empty exactly when no line belongs to it. */
  lemma {:induction false} FilesInEmpty(lines: seq<string>, col: Column)
    ensures FilesIn(lines, col) == [] <==> forall i :: 0 <= i < |lines| ==> !InColumn(lines[i], col)
  {
    if lines != [] {
      var init := lines[..|lines| - 1];
      FilesInEmpty(init, col);
      forall i | 0 <= i < |init|
        ensures init[i] == lines[i]
      {
      }
    }
  }

  /** `get_file_status`: the staged, unstaged and untracked paths of `git status --porcelain`. */
  method GetFileStatus(output: Option<string>) returns (r: Result<(seq<string>, seq<string>, seq<string>), ClaudeError>)
    ensures output.None? ==> r == Err(General("Failed to get file status"))
    ensures output.Some? ==> (r.Ok?
      && r.value.0 == FilesIn(Lines(output.value), StagedColumn)
      && r.value.1 == FilesIn(Lines(output.value), UnstagedColumn)
      && r.value.2 == FilesIn(Lines(output.value), UntrackedColumn))
  {
    if output.None? {
      return Err(General("Failed to get file status"));
    }
    var lines := Lines(output.value);
    var staged: seq<string> := [];
    var unstaged: seq<string> := [];
    var untracked: seq<string> := [];
    var i := 0;
    while i < |lines|
      invariant i <= |lines|
      invariant staged == FilesIn(lines[..i], StagedColumn)
      invariant unstaged == FilesIn(lines[..i], UnstagedColumn)
      invariant untracked == FilesIn(lines[..i], UntrackedColumn)
    {
      var line := lines[i];
      assert lines[..i + 1][..i] == lines[..i];
      if |line| >= 3 {
        var path := line[3..];
        if line[..2] == "??" {
          untracked := untracked + [path];
        } else {
          if line[0] != ' ' {
            staged := staged + [path];
          }
          if line[1] != ' ' {
            unstaged := unstaged + [path];
          }
        }
      }
      i := i + 1;
    }
    assert lines[..i] == lines;
    r := Ok((staged, unstaged, untracked));
  }

  /** A porcelain line that `get_status` reports as a change: long enough, and not two blank status columns. */
  predicate ChangeLine(line: string) {
    |line| >= 3 && (line[0] != ' ' || line[1] != ' ')
  }

  /** `has_changes` holds exactly when some porcelain line reports a change. */
  lemma HasChangesIff(lines: seq<string>)
    ensures (FilesIn(lines, StagedColumn) != [] || FilesIn(lines, UnstagedColumn) != [] || FilesIn(lines, UntrackedColumn) != [])
      <==> exists i :: 0 <= i < |lines| && ChangeLine(lines[i])
  {
    FilesInEmpty(lines, StagedColumn);
    FilesInEmpty(lines, UnstagedColumn);
    FilesInEmpty(lines, UntrackedColumn);
    forall i | 0 <= i < |lines|
      ensures ChangeLine(lines[i]) <==> InColumn(lines[i], StagedColumn) || InColumn(lines[i], UnstagedColumn) || InColumn(lines[i], UntrackedColumn)
    {
      ChangeLineColumns(lines[i]);
    }
  }

  /** A line reports a change exactly when it lands in some column. */
  lemma ChangeLineColumns(l: string)
    ensures ChangeLine(l) <==> InColumn(l, StagedColumn) || InColumn(l, UnstagedColumn) || InColumn(l, UntrackedColumn)
  {
    if |l| >= 3 && l[..2] == "??" {
      assert l[0] == l[..2][0] == '?';
    }
  }

  // ---------------------------------------------------------------------
  // The branch header: ## branch...upstream [ahead N, behind M]

  /** Rust's `str::split` with a string separator. */
  function SplitStr(s: string, sep: string): (r: seq<string>)
    requires sep != []
    ensures |r| >= 1
    decreases |s|
  {
    match FindSub(s, sep)
    case None => [s]
    case Some(i) => [s[..i]] + SplitStr(s[i + |sep|..], sep)
  }

  /** `lines().next().unwrap_or("")`. */
  function FirstLine(output: string): string {
    var ls := Lines(output);
    if ls == [] then "" else ls[0]
  }

  /** The text after the first "..." of a "## " header, up to any further "...". */
  function TrackingInfo(firstLine: string): Option<string> {
    if StartsWith(firstLine, "## ") then
      var pieces := SplitStr(firstLine[3..], "...");
      if |pieces| >= 2 then Some(pieces[1]) else None
    else None
  }

  /** `parse::<u32>().unwrap_or(0)`. */
  function CountOr0(s: string): (n: nat)
    ensures n < U32
  {
    match ParseUnsigned(s, U32)
    case Some(v) => v
    case None => 0
  }

  /** One ", "-separated piece of the bracket: "ahead N" or "behind M" sets its count. */
  function CountPart(counts: (nat, nat), part: string): (nat, nat) {
    if StartsWith(part, "ahead ") then (CountOr0(part[6..]), counts.1)
    else if StartsWith(part, "behind ") then (counts.0, CountOr0(part[7..]))
    else counts
  }

  /** The counts after reading the pieces in order; a later piece overrides an earlier one. */
  function CountParts(parts: seq<string>): (r: (nat, nat))
    ensures r.0 < U32 && r.1 < U32
  {
    if parts == [] then (0, 0) else CountPart(CountParts(parts[..|parts| - 1]), parts[|parts| - 1])
  }

  /**
   * The text between the brackets of the tracking information: from the
   * first '[' to the first ']' after it.
   */
  function BracketPart(t: string): Option<string> {
    match Find(t, '[')
    case None => None
    case Some(s) => UpToClose(t[s + 1..])
  }

  /** The text before the first ']', if there is one. */
  function UpToClose(u: string): Option<string> {
    match Find(u, ']')
    case None => None
    case Some(e) => Some(u[..e])
  }

  /** What `get_remote_status` reports for a header line. */
  function RemoteStatusOf(firstLine: string): RemoteStatus {
    match TrackingInfo(firstLine)
    case None => RemoteStatus(0, 0, None)
    case Some(t) =>
      var counts := match BracketPart(t) case Some(b) => CountParts(SplitStr(b, ", ")) case None => (0, 0);
      RemoteStatus(counts.0, counts.1, NthWord(t, 0))
  }

  /** The loop over the bracket's pieces. */
  method ReadCounts(parts: seq<string>) returns (ahead: nat, behind: nat)
    ensures (ahead, behind) == CountParts(parts)
    ensures ahead < U32 && behind < U32
  {
    ahead, behind := 0, 0;
    var i := 0;
    while i < |parts|
      invariant i <= |parts|
      invariant (ahead, behind) == CountParts(parts[..i])
    {
      assert parts[..i + 1][..i] == parts[..i];
      var part := parts[i];
      if StartsWith(part, "ahead ") {
        ahead := CountOr0(part[6..]);
      } else if StartsWith(part, "behind ") {
        behind := CountOr0(part[7..]);
      }
      i := i + 1;
    }
    assert parts[..i] == parts;
  }

  /** `get_remote_status`: zero counts and no upstream unless the first line is a header with tracking information. */
  method GetRemoteStatus(output: Option<string>) returns (r: RemoteStatus)
    ensures output.None? ==> r == RemoteStatus(0, 0, None)
    ensures output.Some? ==> r == RemoteStatusOf(FirstLine(output.value))
    ensures r.ahead < U32 && r.behind < U32
  {
    if output.None? {
      return RemoteStatus(0, 0, None);
    }
    var line := FirstLine(output.value);
    match TrackingInfo(line) {
      case None => r := RemoteStatus(0, 0, None);
      case Some(t) =>
        var ahead, behind := 0, 0;
        match BracketPart(t) {
          case Some(b) => ahead, behind := ReadCounts(SplitStr(b, ", "));
          case None =>
        }
        r := RemoteStatus(ahead, behind, NthWord(t, 0));
    }
  }

  /** Without a "## " header carrying "...", there is no upstream and both counts are 0. */
  lemma NoTrackingMeansZero(firstLine: string)
    requires !StartsWith(firstLine, "## ") || !Contains(firstLine[3..], "...")
    ensures RemoteStatusOf(firstLine) == RemoteStatus(0, 0, None)
  {
  }

  /** A count that does not parse reads as 0, and "ahead N, behind M" reads as N and M. */
  lemma {:induction false} CountsOfBracket(n: nat, m: nat, bad: string)
    requires n < U32 && m < U32 && ParseUnsigned(bad, U32).None?
    ensures CountParts(["ahead " + NatToString(n), "behind " + NatToString(m)]) == (n, m)
    ensures CountParts(["ahead " + bad]) == (0, 0)
  {
    var a := "ahead " + NatToString(n);
    var b := "behind " + NatToString(m);
    var parts := [a, b];
    assert parts[..1] == [a];
    var none: seq<string> := [];
    assert [a][..0] == none;
    assert a[..6] == "ahead " && a[6..] == NatToString(n);
    assert b[..6] != "ahead " by {
      assert b[0] == 'b';
    }
    assert b[..7] == "behind " && b[7..] == NatToString(m);
    ParseRendered(n, U32);
    ParseRendered(m, U32);
    var c := "ahead " + bad;
    assert [c][..0] == none;
    assert c[..6] == "ahead " && c[6..] == bad;
  }

  /**
   * The source's own bracket search: the first ']' anywhere, so a ']'
   * before the '[' makes the slice start after its end, which panics
   * (`Panics`).
   */
  datatype Sliced = Slice(text: string) | NoBracket | Panics

  function BracketPartAsWritten(t: string): Sliced {
    match Find(t, '[')
    case None => NoBracket
    case Some(s) =>
      match Find(t, ']')
      case None => NoBracket
      case Some(e) => if s + 1 <= e then Slice(t[s + 1..e]) else Panics
  }

  /** The tracking information of a branch `a]b` whose upstream `origin/a]b` is one commit ahead. */
  const BracketExample := "origin/a]b [ahead 1]"

  /**
   * A branch named `a]b` is legal in git; with upstream `origin/a]b` one
   * commit ahead, the source's search panics while the corrected search
   * reads the bracket.
   */
  lemma BracketPanicExample()
    ensures BracketPartAsWritten(BracketExample) == Panics
    ensures BracketPart(BracketExample) == Some("ahead 1")
  {
    ExampleOpen();
    ExampleClose();
    ExampleInner();
  }

  lemma ExampleOpen()
    ensures Find(BracketExample, '[') == Some(11)
  {
    FindAfterFree("origin/a]b ", '[', "[ahead 1]");
    assert BracketExample == "origin/a]b " + "[ahead 1]";
  }

  lemma ExampleClose()
    ensures Find(BracketExample, ']') == Some(8)
  {
    FindAfterFree("origin/a", ']', "]b [ahead 1]");
    assert BracketExample == "origin/a" + "]b [ahead 1]";
  }

  lemma ExampleInner()
    ensures Find(BracketExample[12..], ']') == Some(7) && BracketExample[12..][..7] == "ahead 1"
  {
    assert BracketExample[12..] == "ahead 1" + "]";
    FindAfterFree("ahead 1", ']', "]");
  }

  /** When the first ']' follows the first '[', the corrected search reads what the source reads. */
  lemma BracketAgreesWhenOrdered(t: string, s: nat, e: nat)
    requires Find(t, '[') == Some(s) && Find(t, ']') == Some(e) && s < e
    ensures BracketPartAsWritten(t) == Slice(t[s + 1..e])
    ensures BracketPart(t) == Some(t[s + 1..e])
  {
    AsWrittenOrdered(t, s, e);
    CorrectedOrdered(t, s, e);
  }

  lemma AsWrittenOrdered(t: string, s: nat, e: nat)
    requires Find(t, '[') == Some(s) && Find(t, ']') == Some(e) && s < e
    ensures BracketPartAsWritten(t) == Slice(t[s + 1..e])
  {
  }

  lemma CorrectedOrdered(t: string, s: nat, e: nat)
    requires Find(t, '[') == Some(s) && Find(t, ']') == Some(e) && s < e
    ensures BracketPart(t) == Some(t[s + 1..e])
  {
    FindAfterOpen(t, s, e);
    BracketPartOf(t, s, e - s - 1);
    SliceOfSuffix(t, s + 1, e);
  }

  lemma SliceOfSuffix<T>(t: seq<T>, i: nat, j: nat)
    requires i <= j <= |t|
    ensures t[i..][..j - i] == t[i..j]
  {
  }

  /** The corrected search, once both positions are known. */
  lemma BracketPartOf(t: string, s: nat, e: nat)
    requires Find(t, '[') == Some(s) && Find(t[s + 1..], ']') == Some(e)
    ensures BracketPart(t) == Some(t[s + 1..][..e])
  {
    var u := t[s + 1..];
    assert UpToClose(u) == Some(u[..e]);
  }

  /** The first ']' of the text, past index `s`, is the first ']' of what follows `s`. */
  lemma FindAfterOpen(t: string, s: nat, e: nat)
    requires s < e && Find(t, ']') == Some(e)
    ensures Find(t[s + 1..], ']') == Some(e - s - 1)
  {
    var u := t[s + 1..];
    assert u[e - s - 1] == ']';
    forall j | 0 <= j < e - s - 1
      ensures u[j] != ']'
    {
      assert u[j] == t[s + 1 + j];
    }
    FindAt(u, ']', e - s - 1);
  }

  /** `Find` gives the index of the first occurrence. */
  lemma {:induction false} FindAt(s: string, c: char, k: nat)
    requires k < |s| && s[k] == c && forall j :: 0 <= j < k ==> s[j] != c
    ensures Find(s, c) == Some(k)
  {
    if k > 0 {
      FindAt(s[1..], c, k - 1);
    }
  }

  // ---------------------------------------------------------------------
  // git log --pretty=format:%H|%s|%an|%ad

  /** A log line with at least four '|'-separated fields is a commit; extra fields are ignored. */
  function ParseCommitLine(line: string): (r: Option<GitCommit>)
    ensures r.Some? <==> |Split(line, '|')| >= 4
    ensures r.Some? ==> r.value.filesChanged == []
  {
    var parts := Split(line, '|');
    if |parts| >= 4 then Some(GitCommit(parts[0], parts[1], parts[2], parts[3], [])) else None
  }

  function CommitsOf(lines: seq<string>): (r: seq<GitCommit>)
    ensures |r| <= |lines|
  {
    if lines == [] then []
    else
      var c := ParseCommitLine(lines[|lines| - 1]);
      CommitsOf(lines[..|lines| - 1]) + (if c.Some? then [c.value] else [])
  }

  /** `get_commit_history`: one commit per well-formed log line, in order; nothing when git fails. */
  method GetCommitHistory(output: Option<string>) returns (commits: seq<GitCommit>)
    ensures output.None? ==> commits == []
    ensures output.Some? ==> commits == CommitsOf(Lines(output.value))
  {
    commits := [];
    if output.None? {
      return;
    }
    var lines := Lines(output.value);
    var i := 0;
    while i < |lines|
      invariant i <= |lines|
      invariant commits == CommitsOf(lines[..i])
    {
      assert lines[..i + 1][..i] == lines[..i];
      var parts := Split(lines[i], '|');
      if |parts| >= 4 {
        commits := commits + [GitCommit(parts[0], parts[1], parts[2], parts[3], [])];
      }
      i := i + 1;
    }
    assert lines[..i] == lines;
  }

  /** The line git prints for a commit in this format. */
  function FormatCommit(c: GitCommit): string {
    Join([c.hash, c.message, c.author, c.timestamp], "|")
  }

  predicate LogSafe(c: GitCommit) {
    && '|' !in c.hash && '|' !in c.message && '|' !in c.author && '|' !in c.timestamp
    && c.filesChanged == []
  }

  /** A commit whose fields hold no '|' is read back from its log line. */
  lemma CommitRoundTrip(c: GitCommit)
    requires LogSafe(c)
    ensures ParseCommitLine(FormatCommit(c)) == Some(c)
  {
    var parts := [c.hash, c.message, c.author, c.timestamp];
    SplitJoin(parts, '|');
  }

  /** Reading the log lines of several such commits gives them back in order. */
  lemma {:induction false} CommitsRoundTrip(cs: seq<GitCommit>)
    requires forall i :: 0 <= i < |cs| ==> LogSafe(cs[i])
    ensures CommitsOf(seq(|cs|, i requires 0 <= i < |cs| => FormatCommit(cs[i]))) == cs
  {
    if cs != [] {
      var lines := seq(|cs|, i requires 0 <= i < |cs| => FormatCommit(cs[i]));
      var init := cs[..|cs| - 1];
      assert lines[..|lines| - 1] == seq(|init|, i requires 0 <= i < |init| => FormatCommit(init[i]));
      CommitsRoundTrip(init);
      CommitRoundTrip(cs[|cs| - 1]);
      assert cs == init + [cs[|cs| - 1]];
    }
  }

  // ---------------------------------------------------------------------
  // git branch -a

  /**
   * `line[2..]` panics on the trimmed line "*": the source demands that
   * no branch line is a bare '*'.
   */
  predicate NoBareStar(lines: seq<string>) {
    forall i :: 0 <= i < |lines| ==> Trim(lines[i]) != "*"
  }

  /**
   * One line of `git branch -a`: blank lines are skipped; "* " marks the
   * current branch; a "remotes/" prefix is removed and marks a remote.
   */
  function ParseBranchLine(raw: string): (r: Option<GitBranch>)
    requires Trim(raw) != "*"
    ensures r.None? <==> Trim(raw) == []
    ensures r.Some? ==> (r.value.isCurrent <==> Trim(raw)[0] == '*') && r.value.lastCommit.None?
  {
    var line := Trim(raw);
    if line == [] then None
    else
      var isCurrent := line[0] == '*';
      var name := if isCurrent then Trim(line[2..]) else line;
      var isRemote := StartsWith(name, "remotes/");
      Some(GitBranch(if isRemote then name[8..] else name, isCurrent, isRemote, None))
  }

  function BranchesOf(lines: seq<string>): (r: seq<GitBranch>)
    requires NoBareStar(lines)
    ensures |r| <= |lines|
  {
    if lines == [] then []
    else
      var b := ParseBranchLine(lines[|lines| - 1]);
      BranchesOf(lines[..|lines| - 1]) + (if b.Some? then [b.value] else [])
  }

  /** `get_branches`: one branch per non-blank line, in order; nothing when git fails. */
  method GetBranches(output: Option<string>) returns (branches: seq<GitBranch>)
    requires output.Some? ==> NoBareStar(Lines(output.value))
    ensures output.None? ==> branches == []
    ensures output.Some? ==> branches == BranchesOf(Lines(output.value))
  {
    branches := [];
    if output.None? {
      return;
    }
    var lines := Lines(output.value);
    var i := 0;
    while i < |lines|
      invariant i <= |lines|
      invariant branches == BranchesOf(lines[..i])
    {
      assert lines[..i + 1][..i] == lines[..i];
      var line := Trim(lines[i]);
      if line != [] {
        var isCurrent := line[0] == '*';
        var name := if isCurrent then Trim(line[2..]) else line;
        var isRemote := StartsWith(name, "remotes/");
        var clean := if isRemote then name[8..] else name;
        branches := branches + [GitBranch(clean, isCurrent, isRemote, None)];
      }
      i := i + 1;
    }
    assert lines[..i] == lines;
  }

  /** How `git branch -a` lists a branch: "* " or two spaces, then "remotes/" for a remote. */
  function FormatBranch(b: GitBranch): string {
    (if b.isCurrent then "* " else "  ") + (if b.isRemote then "remotes/" else "") + b.name
  }

  /** A name `git branch` prints without ambiguity: non-empty, not padded, not starting with '*' or "remotes/". */
  predicate PlainBranchName(name: string) {
    name != [] && !IsWhitespace(name[0]) && !IsWhitespace(name[|name| - 1]) && name[0] != '*'
    && !StartsWith(name, "remotes/")
  }

  /** A listed branch is read back as it was. */
  lemma BranchRoundTrip(b: GitBranch)
    requires PlainBranchName(b.name) && b.lastCommit.None?
    ensures Trim(FormatBranch(b)) != "*"
    ensures ParseBranchLine(FormatBranch(b)) == Some(b)
  {
    var q := Qualified(b);
    QualifiedPlain(b);
    if b.isCurrent {
      CurrentLine(b, q);
    } else {
      OtherLine(b, q);
    }
  }

  function Qualified(b: GitBranch): string {
    (if b.isRemote then "remotes/" else "") + b.name
  }

  /** The qualified name is not padded, and stripping "remotes/" from it gives the branch's name and remoteness. */
  lemma QualifiedPlain(b: GitBranch)
    requires PlainBranchName(b.name)
    ensures var q := Qualified(b);
      && q != [] && !IsWhitespace(q[0]) && !IsWhitespace(q[|q| - 1])
      && (StartsWith(q, "remotes/") <==> b.isRemote)
      && (if b.isRemote then q[8..] else q) == b.name
  {
    var q := Qualified(b);
    if b.isRemote {
      assert q[0] == 'r';
      assert q[|q| - 1] == b.name[|b.name| - 1];
      assert q[..8] == "remotes/";
      assert q[8..] == b.name;
    }
  }

  lemma CurrentLine(b: GitBranch, q: string)
    requires b.isCurrent && b.lastCommit.None? && q == Qualified(b)
    requires q != [] && !IsWhitespace(q[0]) && !IsWhitespace(q[|q| - 1])
    requires (StartsWith(q, "remotes/") <==> b.isRemote) && (if b.isRemote then q[8..] else q) == b.name
    ensures Trim(FormatBranch(b)) != "*"
    ensures ParseBranchLine(FormatBranch(b)) == Some(b)
  {
    var line := FormatBranch(b);
    assert line == "* " + q;
    TrimSpacesAfterStar(q);
    assert line[2..] == q;
    PlainTrim(q);
    assert |line| > 1;
  }

  lemma OtherLine(b: GitBranch, q: string)
    requires !b.isCurrent && b.lastCommit.None? && q == Qualified(b) && b.name != [] && b.name[0] != '*'
    requires q != [] && !IsWhitespace(q[0]) && !IsWhitespace(q[|q| - 1])
    requires (StartsWith(q, "remotes/") <==> b.isRemote) && (if b.isRemote then q[8..] else q) == b.name
    ensures Trim(FormatBranch(b)) != "*"
    ensures ParseBranchLine(FormatBranch(b)) == Some(b)
  {
    var line := FormatBranch(b);
    assert line == "  " + q;
    TrimLeadingSpaces(q);
    assert q[0] != '*' by {
      if b.isRemote {
        assert q[0] == 'r';
      }
    }
  }

  lemma PlainTrim(s: string)
    requires s != [] && !IsWhitespace(s[0]) && !IsWhitespace(s[|s| - 1])
    ensures Trim(s) == s
  {
  }

  lemma TrimLeadingSpaces(s: string)
    requires s != [] && !IsWhitespace(s[0]) && !IsWhitespace(s[|s| - 1])
    ensures Trim("  " + s) == s
  {
    var t := "  " + s;
    assert t[0] == ' ' && t[1..] == " " + s;
    assert t[1..][0] == ' ' && t[1..][1..] == s;
    assert TrimStart(t) == TrimStart(t[1..]) == TrimStart(s) == s;
  }

  lemma TrimSpacesAfterStar(s: string)
    requires s != [] && !IsWhitespace(s[0]) && !IsWhitespace(s[|s| - 1])
    ensures Trim("* " + s) == "* " + s
  {
    var t := "* " + s;
    assert t[0] == '*';
    assert t[|t| - 1] == s[|s| - 1];
  }

  // ---------------------------------------------------------------------
  // git diff

  /** The parser's state between lines. */
  datatype DiffState = DiffState(diffs: seq<GitDiff>, currentFile: Option<string>, content: string, added: nat, deleted: nat)

  const DiffStart := DiffState([], None, "", 0, 0)

  predicate IsAddedLine(line: string) {
    StartsWith(line, "+") && !StartsWith(line, "+++")
  }

  predicate IsDeletedLine(line: string) {
    StartsWith(line, "-") && !StartsWith(line, "---")
  }

  /** The file of a "diff --git a/x b/x" header: the fourth word without its "b/". */
  function HeaderFile(line: string): Option<string> {
    match NthWord(line, 3)
    case None => None
    case Some(w) => Some(if StartsWith(w, "b/") then w[2..] else w)
  }

  /**
   * One line of `get_diff`. A header closes the open file's entry (and
   * only then clears the collected text and counts) and opens the file it
   * names; other lines are collected, '+' and '-' lines counted.
   */
  function DiffStep(st: DiffState, line: string): DiffState {
    if StartsWith(line, "diff --git") then
      var closed :=
        if st.currentFile.Some? then
          DiffState(st.diffs + [GitDiff(st.currentFile.value, st.content, st.added, st.deleted)], None, "", 0, 0)
        else st;
      closed.(currentFile := HeaderFile(line))
    else if IsAddedLine(line) then st.(added := st.added + 1, content := st.content + line + "\n")
    else if IsDeletedLine(line) then st.(deleted := st.deleted + 1, content := st.content + line + "\n")
    else st.(content := st.content + line + "\n")
  }

  function DiffFold(lines: seq<string>): DiffState {
    if lines == [] then DiffStart else DiffStep(DiffFold(lines[..|lines| - 1]), lines[|lines| - 1])
  }

  /** The entries once the last open file is closed. */
  function DiffsOf(lines: seq<string>): seq<GitDiff> {
    var st := DiffFold(lines);
    if st.currentFile.Some? then st.diffs + [GitDiff(st.currentFile.value, st.content, st.added, st.deleted)] else st.diffs
  }

  /** `get_diff`: the entries of `git diff`'s output; nothing when git fails. */
  method GetDiff(output: Option<string>) returns (diffs: seq<GitDiff>)
    ensures output.None? ==> diffs == []
    ensures output.Some? ==> diffs == DiffsOf(Lines(output.value))
  {
    diffs := [];
    if output.None? {
      return;
    }
    var lines := Lines(output.value);
    var currentFile: Option<string> := None;
    var content := "";
    var added, deleted := 0, 0;
    var i := 0;
    while i < |lines|
      invariant i <= |lines|
      invariant DiffState(diffs, currentFile, content, added, deleted) == DiffFold(lines[..i])
    {
      assert lines[..i + 1][..i] == lines[..i];
      var line := lines[i];
      if StartsWith(line, "diff --git") {
        if currentFile.Some? {
          diffs := diffs + [GitDiff(currentFile.value, content, added, deleted)];
          content := "";
          added, deleted := 0, 0;
        }
        currentFile := HeaderFile(line);
      } else if IsAddedLine(line) {
        added := added + 1;
        content := content + line + "\n";
      } else if IsDeletedLine(line) {
        deleted := deleted + 1;
        content := content + line + "\n";
      } else {
        content := content + line + "\n";
      }
      i := i + 1;
    }
    assert lines[..i] == lines;
    if currentFile.Some? {
      diffs := diffs + [GitDiff(currentFile.value, content, added, deleted)];
    }
  }

  predicate FileHeader(line: string) {
    StartsWith(line, "diff --git") && HeaderFile(line).Some?
  }

  function CountHeaders(lines: seq<string>): nat {
    if lines == [] then 0
    else CountHeaders(lines[..|lines| - 1]) + (if FileHeader(lines[|lines| - 1]) then 1 else 0)
  }

  /** There is one entry per header that names a file. */
  lemma DiffCount(lines: seq<string>)
    ensures |DiffsOf(lines)| == CountHeaders(lines)
  {
    DiffFoldCount(lines);
  }

  lemma {:induction false} DiffFoldCount(lines: seq<string>)
    ensures var st := DiffFold(lines); |st.diffs| + (if st.currentFile.Some? then 1 else 0) == CountHeaders(lines)
  {
    if lines != [] {
      DiffFoldCount(lines[..|lines| - 1]);
    }
  }

  /** The collected text of body lines, each followed by '\n'. */
  function BodyText(body: seq<string>): string {
    if body == [] then "" else BodyText(body[..|body| - 1]) + body[|body| - 1] + "\n"
  }

  function CountAdded(body: seq<string>): nat {
    if body == [] then 0 else CountAdded(body[..|body| - 1]) + (if IsAddedLine(body[|body| - 1]) then 1 else 0)
  }

  function CountDeleted(body: seq<string>): nat {
    if body == [] then 0 else CountDeleted(body[..|body| - 1]) + (if IsDeletedLine(body[|body| - 1]) then 1 else 0)
  }

  predicate NoHeaders(body: seq<string>) {
    forall i :: 0 <= i < |body| ==> !StartsWith(body[i], "diff --git")
  }

  /**
   * The diff of one file: the header's file, every following line as
   * text, and the counts of added and deleted lines, headers of the form
   * "+++"/"---" not counted.
   */
  lemma OneFileDiff(header: string, body: seq<string>)
    requires FileHeader(header) && NoHeaders(body)
    ensures DiffsOf([header] + body) == [GitDiff(HeaderFile(header).value, BodyText(body), CountAdded(body), CountDeleted(body))]
  {
    OneFileFold(header, body);
  }

  lemma {:induction false} OneFileFold(header: string, body: seq<string>)
    requires FileHeader(header) && NoHeaders(body)
    ensures DiffFold([header] + body) == DiffState([], HeaderFile(header), BodyText(body), CountAdded(body), CountDeleted(body))
  {
    var lines := [header] + body;
    if body == [] {
      assert lines[..0] == [];
    } else {
      var init := body[..|body| - 1];
      assert lines[..|lines| - 1] == [header] + init;
      assert NoHeaders(init) by {
        forall i | 0 <= i < |init|
          ensures !StartsWith(init[i], "diff --git")
        {
          assert init[i] == body[i];
        }
      }
      OneFileFold(header, init);
      assert lines[|lines| - 1] == body[|body| - 1];
    }
  }

  // ---------------------------------------------------------------------
  // git status

  /**
   * `get_status`: an error outside a repository or when the branch or the
   * file status cannot be read; otherwise the trimmed branch, the three
   * file lists, whether any is non-empty, and the remote status.
   */
  method GetStatus(isRepository: bool, branchOutput: Option<string>, statusOutput: Option<string>, headerOutput: Option<string>)
    returns (r: Result<GitStatus, ClaudeError>)
    ensures !isRepository ==> r == Err(General("Not a git repository"))
    ensures isRepository && branchOutput.None? ==> r == Err(General("Failed to get current branch"))
    ensures isRepository && branchOutput.Some? && statusOutput.None? ==> r == Err(General("Failed to get file status"))
    ensures r.Ok? <==> isRepository && branchOutput.Some? && statusOutput.Some?
    ensures r.Ok? ==> (r.value.currentBranch == Trim(branchOutput.value)
      && r.value.stagedFiles == FilesIn(Lines(statusOutput.value), StagedColumn)
      && r.value.unstagedFiles == FilesIn(Lines(statusOutput.value), UnstagedColumn)
      && r.value.untrackedFiles == FilesIn(Lines(statusOutput.value), UntrackedColumn)
      && (r.value.hasChanges <==> exists i :: 0 <= i < |Lines(statusOutput.value)| && ChangeLine(Lines(statusOutput.value)[i]))
      && r.value.remoteStatus == (if headerOutput.None? then RemoteStatus(0, 0, None) else RemoteStatusOf(FirstLine(headerOutput.value))))
  {
    if !isRepository {
      return Err(General("Not a git repository"));
    }
    if branchOutput.None? {
      return Err(General("Failed to get current branch"));
    }
    var branch := Trim(branchOutput.value);
    var files := GetFileStatus(statusOutput);
    if files.Err? {
      return Err(files.error);
    }
    var (staged, unstaged, untracked) := files.value;
    var remote := GetRemoteStatus(headerOutput);
    HasChangesIff(Lines(statusOutput.value));
    r := Ok(GitStatus(branch, staged != [] || unstaged != [] || untracked != [], staged, unstaged, untracked, remote));
  }
}
