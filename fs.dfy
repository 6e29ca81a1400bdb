/**
 * The file manager's text edits and the file-system manager's working
 * directories. A file's text is split into lines as Rust's `str::lines`
 * does and the edited lines are joined again with '\n'. Reading, writing,
 * backups and syntax validation are I/O and are not part of this model:
 * the original text of a file is given to `ApplyEdit` as an argument, and
 * path existence is a predicate passed to `ResolvePath`.
 */
module FileSystem {
  import opened Wrappers
  import opened Errors
  import opened Text

  /** The kinds of edit; line numbers are 0-based indices into the file's lines. */
  datatype EditType =
    | Replace
    | Insert(line: nat)
    | Delete(start: nat, end: nat)
    | ReplaceRange(start: nat, end: nat)
    | Append

  datatype Edit = Edit(filePath: string, editType: EditType, content: string, lineRange: Option<(nat, nat)>)

  /** The line vector after inserting `text` before index `line`. */
  function InsertedLines(lines: seq<string>, line: nat, text: string): (r: seq<string>)
    requires line <= |lines|
    ensures |r| == |lines| + 1
    ensures r[line] == text
    ensures r[..line] == lines[..line] && r[line + 1..] == lines[line..]
  {
    lines[..line] + [text] + lines[line..]
  }

  /**
   * `insert_at_line`: an index past the last line is an error; otherwise
   * the text becomes the line at that index.
   */
  function InsertAtLine(content: string, line: nat, text: string): (r: Result<string, ClaudeError>)
    ensures r.Err? <==> line > |Lines(content)|
    ensures r.Ok? ==> r.value == Join(InsertedLines(Lines(content), line, text), "\n")
  {
    var lines := Lines(content);
    if line > |lines| then
      Err(FsError("Line " + NatToString(line) + " is beyond file length " + NatToString(|lines|)))
    else Ok(Join(InsertedLines(lines, line, text), "\n"))
  }

  /** The range check `delete_lines` and `replace_lines` share. */
  predicate ValidRange(n: nat, start: nat, end: nat) {
    start <= end < n
  }

  /** The line vector without the lines `start..=end`. */
  function DeletedLines(lines: seq<string>, start: nat, end: nat): (r: seq<string>)
    requires ValidRange(|lines|, start, end)
    ensures |r| == |lines| - (end - start + 1)
    ensures r[..start] == lines[..start] && r[start..] == lines[end + 1..]
  {
    lines[..start] + lines[end + 1..]
  }

  /** `delete_lines`: the range must lie inside the file; then exactly its lines go. */
  function DeleteLines(content: string, start: nat, end: nat): (r: Result<string, ClaudeError>)
    ensures r.Err? <==> !ValidRange(|Lines(content)|, start, end)
    ensures r.Ok? ==> r.value == Join(DeletedLines(Lines(content), start, end), "\n")
  {
    var lines := Lines(content);
    if start >= |lines| || end >= |lines| || start > end then
      Err(FsError("Invalid line range for deletion"))
    else Ok(Join(DeletedLines(lines, start, end), "\n"))
  }

  /** The line vector with the lines `start..=end` replaced by `added`. */
  function ReplacedLines(lines: seq<string>, start: nat, end: nat, added: seq<string>): (r: seq<string>)
    requires ValidRange(|lines|, start, end)
    ensures |r| == |lines| - (end - start + 1) + |added|
    ensures r[start..start + |added|] == added
    ensures r[..start] == lines[..start] && r[start + |added|..] == lines[end + 1..]
  {
    lines[..start] + added + lines[end + 1..]
  }

  /**
   * `replace_lines`: the same range check as deletion; the lines of the
   * new content are then inserted one by one from index `start`.
   */
  method ReplaceLines(content: string, start: nat, end: nat, text: string) returns (r: Result<string, ClaudeError>)
    ensures r.Err? <==> !ValidRange(|Lines(content)|, start, end)
    ensures r.Ok? ==> r.value == Join(ReplacedLines(Lines(content), start, end, Lines(text)), "\n")
  {
    var lines := Lines(content);
    if start >= |lines| || end >= |lines| || start > end {
      return Err(FsError("Invalid line range for replacement"));
    }
    ghost var kept := lines;
    lines := lines[..start] + lines[end + 1..];
    var added := Lines(text);
    var i := 0;
    while i < |added|
      invariant i <= |added|
      invariant lines == kept[..start] + added[..i] + kept[end + 1..]
    {
      assert added[..i + 1] == added[..i] + [added[i]];
      lines := lines[..start + i] + [added[i]] + lines[start + i..];
      i := i + 1;
    }
    assert added[..i] == added;
    r := Ok(Join(lines, "\n"));
  }

  /**
   * The text an edit produces from the file's current text; `original` is
   * `None` when the file cannot be read. Only a whole-file replacement may
   * start from a missing file.
   */
  method ApplyEdit(original: Option<string>, edit: Edit) returns (r: Result<string, ClaudeError>)
    ensures original.None? && !edit.editType.Replace? ==> r == Err(FsError("File not found: " + edit.filePath))
    ensures edit.editType.Replace? ==> r == Ok(edit.content)
    ensures original.Some? && edit.editType.Append? ==> r == Ok(original.value + "\n" + edit.content)
    ensures original.Some? && edit.editType.Insert? ==> r == InsertAtLine(original.value, edit.editType.line, edit.content)
    ensures original.Some? && edit.editType.Delete? ==>
      r == DeleteLines(original.value, edit.editType.start, edit.editType.end)
    ensures original.Some? && edit.editType.ReplaceRange? ==>
      (r.Err? <==> !ValidRange(|Lines(original.value)|, edit.editType.start, edit.editType.end))
    ensures original.Some? && edit.editType.ReplaceRange? && r.Ok? ==>
      r.value == Join(ReplacedLines(Lines(original.value), edit.editType.start, edit.editType.end, Lines(edit.content)), "\n")
  {
    var text: string;
    match original {
      case Some(t) => text := t;
      case None =>
        if edit.editType.Replace? {
          text := "";
        } else {
          return Err(FsError("File not found: " + edit.filePath));
        }
    }
    match edit.editType {
      case Replace => r := Ok(edit.content);
      case Insert(line) => r := InsertAtLine(text, line, edit.content);
      case Delete(start, end) => r := DeleteLines(text, start, end);
      case ReplaceRange(start, end) => r := ReplaceLines(text, start, end, edit.content);
      case Append => r := Ok(text + "\n" + edit.content);
    }
  }

  /** A Unix path is absolute when it starts at the root. */
  predicate IsAbsolute(path: string) {
    StartsWith(path, "/")
  }

  /** `PathBuf::join` with a relative path: one '/' between the parts unless the directory is empty or already ends in '/'. */
  function PathJoin(dir: string, path: string): (r: string)
    ensures EndsWith(r, path)
  {
    if dir == [] then path
    else if EndsWith(dir, "/") then dir + path
    else dir + "/" + path
  }

  predicate NoDuplicates<T(==)>(s: seq<T>) {
    forall i, j :: 0 <= i < j < |s| ==> s[i] != s[j]
  }

  /** The working directories a file manager searches. */
  class FileSystemManager {
    var workingDirs: seq<string>

    constructor(dirs: seq<string>)
      ensures workingDirs == dirs
    {
      workingDirs := dirs;
    }

    /** `add_working_dir`: a directory already listed is not added again. */
    method AddWorkingDir(dir: string)
      modifies this
      ensures dir in old(workingDirs) ==> workingDirs == old(workingDirs)
      ensures dir !in old(workingDirs) ==> workingDirs == old(workingDirs) + [dir]
      ensures NoDuplicates(old(workingDirs)) ==> NoDuplicates(workingDirs)
      ensures dir in workingDirs
    {
      if dir !in workingDirs {
        workingDirs := workingDirs + [dir];
      }
    }

    method GetWorkingDirs() returns (dirs: seq<string>)
      ensures dirs == workingDirs
    {
      dirs := workingDirs;
    }

    /**
     * `resolve_path`: an absolute path is used as it is; a relative one is
     * joined to the first working directory under which it exists, else to
     * the first working directory, else to the current directory (whose
     * lookup may fail).
     */
    method ResolvePath(path: string, exists_: string -> bool, cwd: Result<string, ClaudeError>) returns (r: Result<string, ClaudeError>)
      ensures IsAbsolute(path) ==> r == Ok(path)
      ensures !IsAbsolute(path) && r.Ok? && (exists i :: 0 <= i < |workingDirs| && exists_(PathJoin(workingDirs[i], path))) ==>
        exists i :: 0 <= i < |workingDirs| && r.value == PathJoin(workingDirs[i], path) && exists_(r.value)
          && forall j :: 0 <= j < i ==> !exists_(PathJoin(workingDirs[j], path))
      ensures !IsAbsolute(path) && (forall i :: 0 <= i < |workingDirs| ==> !exists_(PathJoin(workingDirs[i], path))) ==>
        r == (if workingDirs != [] then Ok(PathJoin(workingDirs[0], path))
              else if cwd.Ok? then Ok(PathJoin(cwd.value, path)) else Err(cwd.error))
      ensures !IsAbsolute(path) && (exists i :: 0 <= i < |workingDirs| && exists_(PathJoin(workingDirs[i], path))) ==> r.Ok?
    {
      if IsAbsolute(path) {
        return Ok(path);
      }
      var i := 0;
      while i < |workingDirs|
        invariant i <= |workingDirs|
        invariant forall j :: 0 <= j < i ==> !exists_(PathJoin(workingDirs[j], path))
      {
        var full := PathJoin(workingDirs[i], path);
        if exists_(full) {
          return Ok(full);
        }
        i := i + 1;
      }
      if workingDirs != [] {
        r := Ok(PathJoin(workingDirs[0], path));
      } else if cwd.Ok? {
        r := Ok(PathJoin(cwd.value, path));
      } else {
        r := Err(cwd.error);
      }
    }
  }

  /** Deleting the line just inserted gives back the original lines. */
  lemma {:induction false} InsertThenDelete(lines: seq<string>, line: nat, text: string)
    requires line <= |lines|
    ensures DeletedLines(InsertedLines(lines, line, text), line, line) == lines
  {
    var ins := InsertedLines(lines, line, text);
    assert ins[..line] + ins[line + 1..] == lines[..line] + lines[line..];
    assert lines[..line] + lines[line..] == lines;
  }
}
