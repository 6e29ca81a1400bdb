/**
 * The file watcher: which paths it ignores (ignore patterns with at most
 * one '*' wildcard and an optional extension whitelist), the debounce
 * that drops repeated events on a path, the mapping from the
 * notification library's event kinds to file events, and the set of
 * watched paths with their configurations.
 *
 * The file system (whether a path exists, the files under it, a file's
 * size), the notification library's calls and the monotonic clock (`now`,
 * in milliseconds) are parameters; the background thread and the
 * broadcast channel are not modelled.
 */
module Watcher {
  import opened Wrappers
  import opened Errors
  import opened Text
  import ConfigStore

  datatype FileEventType = Created | Modified | Deleted | Renamed(from: string, to: string)

  datatype FileChangeEvent = FileChangeEvent(path: string, eventType: FileEventType, timestamp: nat, fileSize: Option<nat>)

  datatype WatchConfig = WatchConfig(
    recursive: bool,
    ignorePatterns: seq<string>,
    watchExtensions: Option<seq<string>>,
    debounceDelay: nat,
    maxFiles: Option<nat>)

  /** The kinds of event the notification library reports. */
  datatype NotifyKind = AnyKind | Access | Create | Modify | Remove | OtherKind

  /** The default configuration: recursive, the usual build and editor clutter ignored, 100 ms debounce, at most 10000 files. */
  function DefaultConfig(): (c: WatchConfig)
    ensures c.recursive && c.debounceDelay == 100 && c.ignorePatterns != []
    ensures c.watchExtensions.None? && c.maxFiles == Some(10000)
  {
    WatchConfig(true, [".git", ".DS_Store", "node_modules", "target", "*.tmp", "*.swp", "*.log"], None, 100, Some(10000))
  }

  /**
   * One ignore pattern: with a '*', it matches when it has exactly one and
   * the path starts with the part before it and ends with the part after
   * it; without one, it matches a path that contains it.
   */
  predicate PatternIgnores(path: string, pattern: string) {
    if '*' in pattern then
      var parts := Split(pattern, '*');
      |parts| == 2 && StartsWith(path, parts[0]) && EndsWith(path, parts[1])
    else Contains(path, pattern)
  }

  /** A pattern `prefix*suffix` matches exactly the paths with that prefix and suffix. */
  lemma StarPattern(path: string, prefix: string, suffix: string)
    requires '*' !in prefix && '*' !in suffix
    ensures PatternIgnores(path, prefix + "*" + suffix) <==> StartsWith(path, prefix) && EndsWith(path, suffix)
  {
    var pattern := prefix + "*" + suffix;
    assert pattern[|prefix|] == '*';
    assert Join([prefix, suffix], "*") == pattern;
    SplitJoin([prefix, suffix], '*');
  }

  /** A pattern with two or more '*' never matches. */
  lemma ManyStarsNeverMatch(path: string, a: string, b: string, c: string)
    requires '*' !in a && '*' !in b && '*' !in c
    ensures !PatternIgnores(path, a + "*" + b + "*" + c)
  {
    var pattern := a + "*" + b + "*" + c;
    assert pattern[|a|] == '*';
    assert Join([a, b, c], "*") == pattern;
    SplitJoin([a, b, c], '*');
  }

  /** With a whitelist, a path whose file name has an extension outside it is ignored. */
  predicate ExtensionRejected(path: string, config: WatchConfig) {
    var ext := ConfigStore.Extension(ConfigStore.FileName(path));
    config.watchExtensions.Some? && ext.Some? && ext.value !in config.watchExtensions.value
  }

  /** `should_ignore_path`: some ignore pattern matches, or the extension is not whitelisted. */
  predicate Ignored(path: string, config: WatchConfig) {
    (exists i :: 0 <= i < |config.ignorePatterns| && PatternIgnores(path, config.ignorePatterns[i]))
    || ExtensionRejected(path, config)
  }

  /** Paths without an extension pass the whitelist. */
  lemma NoExtensionPassesWhitelist(path: string, config: WatchConfig)
    requires ConfigStore.Extension(ConfigStore.FileName(path)).None?
    ensures Ignored(path, config) <==>
      exists i :: 0 <= i < |config.ignorePatterns| && PatternIgnores(path, config.ignorePatterns[i])
  {
  }

  /** The default configuration ignores temporary files ... */
  lemma DefaultIgnoresTemporaryFiles()
    ensures Ignored("src/a.tmp", DefaultConfig())
  {
    var config := DefaultConfig();
    StarPattern("src/a.tmp", "", ".tmp");
    assert config.ignorePatterns[4] == "" + "*" + ".tmp";
    assert PatternIgnores("src/a.tmp", config.ignorePatterns[4]);
  }

  /** ... and anything under node_modules. */
  lemma DefaultIgnoresNodeModules()
    ensures Ignored("web/node_modules/x.js", DefaultConfig())
  {
    var config := DefaultConfig();
    var path := "web/node_modules/x.js";
    assert path[4..16] == "node_modules";
    ContainsAt(path, "node_modules", 4);
    assert '*' !in config.ignorePatterns[2];
    assert PatternIgnores("web/node_modules/x.js", config.ignorePatterns[2]);
  }

  /** The file event an event kind maps to: only creation, modification and removal become events. */
  function EventTypeOf(kind: NotifyKind): (r: Option<FileEventType>)
    ensures r.Some? <==> kind in {Create, Modify, Remove}
    ensures kind == Create ==> r == Some(Created)
    ensures kind == Modify ==> r == Some(Modified)
    ensures kind == Remove ==> r == Some(Deleted)
  {
    match kind
    case Create => Some(Created)
    case Modify => Some(Modified)
    case Remove => Some(Deleted)
    case _ => None
  }

  /** Milliseconds from `last` to `now`, zero when `now` is earlier (as `Instant::duration_since` saturates). */
  function Since(now: nat, last: nat): nat {
    if now >= last then now - last else 0
  }

  /** An event on `path` at `now` is too close to the last one passed on it. */
  predicate Bounced(cache: map<string, nat>, path: string, now: nat, delay: nat) {
    path in cache && Since(now, cache[path]) < delay
  }

  /**
   * `process_notify_event` once a configuration is chosen: an ignored
   * path or a bounced event gives nothing; otherwise the path's time is
   * recorded and, for a creation, modification or removal, an event is
   * produced. Returns the event and the new debounce cache.
   */
  function ProcessEvent(cache: map<string, nat>, config: WatchConfig, kind: NotifyKind, path: string, now: nat, fileSize: Option<nat>)
    : (r: (Option<FileChangeEvent>, map<string, nat>))
    ensures Ignored(path, config) || Bounced(cache, path, now, config.debounceDelay) ==> r == (None, cache)
    ensures !Ignored(path, config) && !Bounced(cache, path, now, config.debounceDelay) ==>
      r.1 == cache[path := now]
      && (r.0.Some? <==> EventTypeOf(kind).Some?)
      && (r.0.Some? ==> r.0.value == FileChangeEvent(path, EventTypeOf(kind).value, now, fileSize))
  {
    if Ignored(path, config) || Bounced(cache, path, now, config.debounceDelay) then (None, cache)
    else
      var cache' := cache[path := now];
      match EventTypeOf(kind)
      case None => (None, cache')
      case Some(t) => (Some(FileChangeEvent(path, t, now, fileSize)), cache')
  }

  /** Two events on one path closer together than the delay: only the first gets through. */
  lemma SecondEventWithinDelayDropped(cache: map<string, nat>, config: WatchConfig, kind: NotifyKind, path: string, t: nat, d: nat, size: Option<nat>)
    requires !Ignored(path, config) && !Bounced(cache, path, t, config.debounceDelay)
    requires d < config.debounceDelay
    ensures var first := ProcessEvent(cache, config, kind, path, t, size);
      ProcessEvent(first.1, config, kind, path, t + d, size) == (None, first.1)
  {
  }

  /**
   * An event of a kind that is not reported (an access, say) still
   * refreshes the path's debounce time, so a modification right after it
   * is dropped.
   */
  lemma AccessDebouncesModify(cache: map<string, nat>, config: WatchConfig, path: string, t: nat, size: Option<nat>)
    requires !Ignored(path, config) && path !in cache && config.debounceDelay > 1
    ensures ProcessEvent(cache, config, Access, path, t, size).0.None?
    ensures ProcessEvent(ProcessEvent(cache, config, Access, path, t, size).1, config, Modify, path, t + 1, size).0.None?
    ensures ProcessEvent(cache, config, Modify, path, t + 1, size).0.Some?
  {
  }

  /** `should_ignore_path`: tries each pattern in turn, then the extension whitelist. */
  method ShouldIgnorePath(path: string, config: WatchConfig) returns (ignore: bool)
    ensures ignore == Ignored(path, config)
  {
    var patterns := config.ignorePatterns;
    for i := 0 to |patterns|
      invariant forall j :: 0 <= j < i ==> !PatternIgnores(path, patterns[j])
    {
      var pattern := patterns[i];
      if '*' in pattern {
        var parts := Split(pattern, '*');
        if |parts| == 2 && StartsWith(path, parts[0]) && EndsWith(path, parts[1]) {
          return true;
        }
      } else if Contains(path, pattern) {
        return true;
      }
    }
    if config.watchExtensions.Some? {
      var ext := ConfigStore.Extension(ConfigStore.FileName(path));
      if ext.Some? && ext.value !in config.watchExtensions.value {
        return true;
      }
    }
    return false;
  }

  /** The number of the given files that are not ignored. */
  function Watchable(files: seq<string>, config: WatchConfig): (n: nat)
    ensures n <= |files|
  {
    if files == [] then 0
    else Watchable(files[..|files| - 1], config) + (if Ignored(files[|files| - 1], config) then 0 else 1)
  }

  /** `count_files` over the files the walk finds: those not ignored. */
  method CountFiles(files: seq<string>, config: WatchConfig) returns (count: nat)
    ensures count == Watchable(files, config)
  {
    count := 0;
    for i := 0 to |files|
      invariant count == Watchable(files[..i], config)
    {
      var ignore := ShouldIgnorePath(files[i], config);
      if !ignore {
        count := count + 1;
      }
      assert files[..i + 1][..i] == files[..i];
    }
    assert files[..|files|] == files;
  }

  class FileWatcher {
    var watchedPaths: map<string, WatchConfig>
    var debounceCache: map<string, nat>
    var isRunning: bool
    var hasWatcher: bool

    constructor()
      ensures watchedPaths == map[] && debounceCache == map[] && !isRunning && !hasWatcher
    {
      watchedPaths := map[];
      debounceCache := map[];
      isRunning := false;
      hasWatcher := false;
    }

    /**
     * `watch_path`. `pathExists` says whether the path exists, `files` are the
     * files the walk under it finds, and `createError`/`watchError` are
     * the notification library's failures, if any. The first watch
     * creates the watcher and starts the event loop.
     */
    method WatchPath(path: string, config: WatchConfig, pathExists: bool, files: seq<string>,
                     createError: Option<string>, watchError: Option<string>)
      returns (r: Result<(), ClaudeError>)
      modifies this
      ensures !pathExists ==> r == Err(General("Path does not exist: " + path)) && watchedPaths == old(watchedPaths)
      ensures pathExists && config.maxFiles.Some? && Watchable(files, config) > config.maxFiles.value ==>
        r == Err(General("Too many files to watch: " + NatToString(Watchable(files, config))
          + " (max: " + NatToString(config.maxFiles.value) + ")"))
        && watchedPaths == old(watchedPaths)
      ensures r.Ok? <==>
        pathExists && (config.maxFiles.None? || Watchable(files, config) <= config.maxFiles.value)
        && (old(hasWatcher) || createError.None?) && watchError.None?
      ensures r.Ok? ==> watchedPaths == old(watchedPaths)[path := config] && hasWatcher
      ensures old(hasWatcher) ==> hasWatcher && isRunning == old(isRunning)
      ensures !old(hasWatcher) && hasWatcher ==> isRunning
      ensures r.Err? ==> watchedPaths == old(watchedPaths)
      ensures debounceCache == old(debounceCache)
    {
      if !pathExists {
        return Err(General("Path does not exist: " + path));
      }
      if config.maxFiles.Some? {
        var count := CountFiles(files, config);
        if count > config.maxFiles.value {
          return Err(General("Too many files to watch: " + NatToString(count) + " (max: " + NatToString(config.maxFiles.value) + ")"));
        }
      }
      if !hasWatcher {
        if createError.Some? {
          return Err(General("Failed to create watcher: " + createError.value));
        }
        hasWatcher := true;
        isRunning := true;
      }
      if watchError.Some? {
        return Err(General("Failed to watch path: " + watchError.value));
      }
      watchedPaths := watchedPaths[path := config];
      return Ok(());
    }

    /** `unwatch_path`: forgets the path unless the watcher refuses (`unwatchError`). */
    method UnwatchPath(path: string, unwatchError: Option<string>) returns (r: Result<(), ClaudeError>)
      modifies this
      ensures hasWatcher && unwatchError.Some? ==>
        r == Err(General("Failed to unwatch path: " + unwatchError.value)) && watchedPaths == old(watchedPaths)
      ensures !(hasWatcher && unwatchError.Some?) ==> r.Ok? && watchedPaths == old(watchedPaths) - {path}
      ensures hasWatcher == old(hasWatcher) && isRunning == old(isRunning) && debounceCache == old(debounceCache)
    {
      if hasWatcher && unwatchError.Some? {
        return Err(General("Failed to unwatch path: " + unwatchError.value));
      }
      watchedPaths := watchedPaths - {path};
      return Ok(());
    }

    /** `stop`: the loop ends, the watcher is dropped and no path is watched. */
    method Stop()
      modifies this
      ensures !isRunning && !hasWatcher && watchedPaths == map[]
      ensures debounceCache == old(debounceCache)
    {
      isRunning := false;
      hasWatcher := false;
      watchedPaths := map[];
    }

    /** `get_watched_paths` (in no particular order). */
    function GetWatchedPaths(): (r: set<string>)
      reads this
      ensures forall p :: p in r <==> p in watchedPaths
    {
      watchedPaths.Keys
    }

    /**
     * `process_notify_event`: the event's first path is judged by the
     * configuration of one of the watched paths (whichever the map yields
     * first); with no path or nothing watched there is no event.
     */
    method ProcessNotifyEvent(kind: NotifyKind, paths: seq<string>, now: nat, fileSize: Option<nat>)
      returns (r: Option<FileChangeEvent>)
      modifies this
      ensures paths == [] || watchedPaths == map[] ==> r.None? && debounceCache == old(debounceCache)
      ensures paths != [] && watchedPaths != map[] ==>
        exists c :: c in watchedPaths.Values && (r, debounceCache) == ProcessEvent(old(debounceCache), c, kind, paths[0], now, fileSize)
      ensures watchedPaths == old(watchedPaths) && isRunning == old(isRunning) && hasWatcher == old(hasWatcher)
    {
      if paths == [] || watchedPaths == map[] {
        return None;
      }
      var path := paths[0];
      var key :| key in watchedPaths;
      var config := watchedPaths[key];
      var ignore := ShouldIgnorePath(path, config);
      if ignore {
        r := None;
      } else if path in debounceCache && Since(now, debounceCache[path]) < config.debounceDelay {
        r := None;
      } else {
        debounceCache := debounceCache[path := now];
        var t := EventTypeOf(kind);
        r := if t.Some? then Some(FileChangeEvent(path, t.value, now, fileSize)) else None;
      }
      assert (r, debounceCache) == ProcessEvent(old(debounceCache), config, kind, path, now, fileSize);
    }
  }
}
