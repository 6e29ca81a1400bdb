/**
 * The plugin system: plugin instances with their lifecycle status and
 * configuration, and the manager that keeps them by name, activates and
 * deactivates them, runs their commands and lists what they offer.
 *
 * A plugin's own behaviour (its `initialize`, `shutdown`,
 * `validate_config` and `execute_command`) is supplied to each manager
 * operation as the outcome that call had; the example plugin, the only
 * implementation the manager creates, is modelled in full.
 */
module Plugins {
  import opened Wrappers
  import opened Errors
  import JsonValue

  datatype PluginStatus = Unloaded | Loaded | Active | Disabled | Error(message: string)

  datatype PluginMetadata = PluginMetadata(
    name: string,
    version: string,
    description: string,
    author: string,
    license: Option<string>,
    homepage: Option<string>,
    claudeVersion: string,
    dependencies: seq<string>,
    tags: seq<string>,
    entryPoint: string)

  datatype ParameterType = StringParam | IntegerParam | FloatParam | BooleanParam | PathParam | Choice(options: seq<string>)

  datatype CommandParameter = CommandParameter(
    name: string, paramType: ParameterType, required: bool, defaultValue: Option<string>, description: string)

  datatype PluginCommand = PluginCommand(
    name: string, description: string, parameters: seq<CommandParameter>, requiresConfirmation: bool)

  /**
   * A loaded plugin: its metadata, the commands its `get_commands`
   * returns, its lifecycle status, its configuration and its manifest path.
   */
  datatype PluginInstance = PluginInstance(
    metadata: PluginMetadata,
    commands: seq<PluginCommand>,
    status: PluginStatus,
    config: Option<JsonValue.Value>,
    path: string)

  /** `PluginInstance::new`: a fresh instance is unloaded and has no configuration. */
  function NewInstance(metadata: PluginMetadata, commands: seq<PluginCommand>, path: string): (r: PluginInstance)
    ensures r.status == Unloaded && r.config.None?
    ensures r.metadata == metadata && r.commands == commands && r.path == path
  {
    PluginInstance(metadata, commands, Unloaded, None, path)
  }

  /**
   * `set_config`: the configuration is stored only when the plugin's
   * validation (its outcome given as `rejection`) accepts it.
   */
  function SetConfig(inst: PluginInstance, config: JsonValue.Value, rejection: Option<ClaudeError>): (r: Result<PluginInstance, ClaudeError>)
    ensures rejection.Some? ==> r == Err(rejection.value)
    ensures rejection.None? ==>
      (r.Ok? && r.value.config == Some(config)
       && r.value.status == inst.status && r.value.metadata == inst.metadata && r.value.commands == inst.commands)
  {
    match rejection
    case Some(e) => Err(e)
    case None => Ok(inst.(config := Some(config)))
  }

  /** The status as `{:?}` prints it (the message of `Error` unescaped). */
  function StatusDebug(s: PluginStatus): string {
    match s
    case Unloaded => "Unloaded"
    case Loaded => "Loaded"
    case Active => "Active"
    case Disabled => "Disabled"
    case Error(m) => "Error(\"" + m + "\")"
  }

  function NotFound(name: string): ClaudeError {
    General("Plugin '" + name + "' not found")
  }

  /**
   * The status change `activate_plugin` makes: from Unloaded, Loaded or
   * Disabled the plugin is initialised (its outcome `init`) and becomes
   * Active; an Active plugin stays as it is; a plugin in the Error state
   * cannot be activated.
   */
  function ActivateStatus(name: string, s: PluginStatus, init: Option<ClaudeError>): (r: Result<PluginStatus, ClaudeError>)
    ensures r.Ok? ==> r.value == Active
    ensures r.Ok? <==> s.Active? || (!s.Error? && init.None?)
    ensures s.Error? ==> r == Err(General("Cannot activate plugin '" + name + "' in state " + StatusDebug(s)))
    ensures !s.Error? && !s.Active? && init.Some? ==> r == Err(init.value)
  {
    match s
    case Active => Ok(Active)
    case Error(_) => Err(General("Cannot activate plugin '" + name + "' in state " + StatusDebug(s)))
    case _ => if init.Some? then Err(init.value) else Ok(Active)
  }

  /**
   * The status change `deactivate_plugin` makes: only an Active plugin is
   * shut down (its outcome `shutdown`) and becomes Disabled; any other
   * status is left as it is.
   */
  function DeactivateStatus(s: PluginStatus, shutdown: Option<ClaudeError>): (r: Result<PluginStatus, ClaudeError>)
    ensures r.Err? <==> s.Active? && shutdown.Some?
    ensures s.Active? && shutdown.None? ==> r == Ok(Disabled)
    ensures !s.Active? ==> r == Ok(s)
  {
    if s.Active? then
      if shutdown.Some? then Err(shutdown.value) else Ok(Disabled)
    else Ok(s)
  }

  /** Activating, deactivating and activating again, with hooks that succeed, ends Active; in between the plugin is Disabled. */
  lemma ActivateDeactivateCycle(name: string, s: PluginStatus)
    requires !s.Error?
    ensures ActivateStatus(name, s, None) == Ok(Active)
    ensures DeactivateStatus(Active, None) == Ok(Disabled)
    ensures ActivateStatus(name, Disabled, None) == Ok(Active)
  {
  }

  /** A plugin in the Error state never leaves it through the manager. */
  lemma ErrorIsTerminal(name: string, m: string, init: Option<ClaudeError>, shutdown: Option<ClaudeError>)
    ensures ActivateStatus(name, Error(m), init).Err?
    ensures DeactivateStatus(Error(m), shutdown) == Ok(Error(m))
  {
  }

  /** The commands of every Active plugin that offers at least one, by plugin name. */
  function ActiveCommands(plugins: map<string, PluginInstance>): (r: map<string, seq<PluginCommand>>)
    ensures forall k :: k in r <==> k in plugins && plugins[k].status == Active && plugins[k].commands != []
    ensures forall k :: k in r ==> r[k] == plugins[k].commands
  {
    map k | k in plugins && plugins[k].status == Active && plugins[k].commands != [] :: plugins[k].commands
  }

  /** What the example plugin offers: one command, "hello". */
  function ExampleCommands(): seq<PluginCommand> {
    [PluginCommand("hello", "Say hello from the plugin", [], false)]
  }

  /**
   * The example plugin's `execute_command`: "hello" answers with a greeting
   * naming the plugin and echoes the arguments; anything else is unknown.
   */
  function ExampleExecute(metadata: PluginMetadata, command: string, args: seq<string>): (r: Result<JsonValue.Value, ClaudeError>)
    ensures r.Err? ==> r.error == General("Unknown command: " + command)
    ensures r.Ok? ==> JsonValue.Get(r.value, "message") == Some(JsonValue.Str("Hello from plugin " + metadata.name + "!"))
  {
    if command == "hello" then
      var greeting := ("message", JsonValue.Str("Hello from plugin " + metadata.name + "!"));
      var fields := [("args", JsonValue.Array(seq(|args|, i requires 0 <= i < |args| => JsonValue.Str(args[i])))), greeting];
      assert fields[0].0 != "message" by { assert fields[0].0[0] == 'a'; }
      assert fields[1..] == [greeting];
      assert JsonValue.Lookup(fields[1..], "message") == Some(greeting.1);
      assert JsonValue.Lookup(fields, "message") == Some(greeting.1);
      Ok(JsonValue.Object(fields))
    else Err(General("Unknown command: " + command))
  }

  /** The example plugin runs exactly the commands it lists. */
  lemma ExampleRunsWhatItLists(metadata: PluginMetadata, command: string, args: seq<string>)
    ensures ExampleExecute(metadata, command, args).Ok? <==>
      exists i :: 0 <= i < |ExampleCommands()| && ExampleCommands()[i].name == command
  {
    if command == "hello" {
      assert ExampleCommands()[0].name == command;
    }
  }

  class PluginManager {
    var plugins: map<string, PluginInstance>
    var pluginDirectories: seq<string>
    var globalConfig: JsonValue.Value

    constructor()
      ensures plugins == map[] && pluginDirectories == [] && globalConfig == JsonValue.Object([])
    {
      plugins := map[];
      pluginDirectories := [];
      globalConfig := JsonValue.Object([]);
    }

    method AddPluginDirectory(path: string)
      modifies this
      ensures pluginDirectories == old(pluginDirectories) + [path]
      ensures plugins == old(plugins) && globalConfig == old(globalConfig)
    {
      pluginDirectories := pluginDirectories + [path];
    }

    /**
     * The registration step of `load_plugin_from_manifest`, once the
     * manifest is read and parsed: an example plugin instance, unloaded,
     * replaces any plugin of the same name.
     */
    method LoadPlugin(metadata: PluginMetadata, manifestPath: string) returns (name: string)
      modifies this
      ensures name == metadata.name
      ensures plugins == old(plugins)[name := NewInstance(metadata, ExampleCommands(), manifestPath)]
      ensures pluginDirectories == old(pluginDirectories) && globalConfig == old(globalConfig)
    {
      name := metadata.name;
      plugins := plugins[name := NewInstance(metadata, ExampleCommands(), manifestPath)];
    }

    /** `activate_plugin`; `init` is the outcome of the plugin's `initialize`, if it is called. */
    method ActivatePlugin(name: string, init: Option<ClaudeError>) returns (r: Result<(), ClaudeError>)
      modifies this
      ensures name !in old(plugins) ==> r == Err(NotFound(name)) && plugins == old(plugins)
      ensures name in old(plugins) ==>
        var t := ActivateStatus(name, old(plugins)[name].status, init);
        (r.Ok? <==> t.Ok?) && (t.Err? ==> r == Err(t.error) && plugins == old(plugins))
        && (t.Ok? ==> plugins == old(plugins)[name := old(plugins)[name].(status := Active)])
      ensures r.Ok? ==>
        (name in plugins && plugins[name].status == Active
         && (name in ActiveCommands(plugins) <==> plugins[name].commands != []))
      ensures pluginDirectories == old(pluginDirectories) && globalConfig == old(globalConfig)
    {
      if name !in plugins {
        return Err(NotFound(name));
      }
      var inst := plugins[name];
      var t := ActivateStatus(name, inst.status, init);
      if t.Err? {
        return Err(t.error);
      }
      plugins := plugins[name := inst.(status := Active)];
      return Ok(());
    }

    /** `deactivate_plugin`; `shutdown` is the outcome of the plugin's `shutdown`, if it is called. */
    method DeactivatePlugin(name: string, shutdown: Option<ClaudeError>) returns (r: Result<(), ClaudeError>)
      modifies this
      ensures name !in old(plugins) ==> r == Err(NotFound(name)) && plugins == old(plugins)
      ensures name in old(plugins) ==>
        var t := DeactivateStatus(old(plugins)[name].status, shutdown);
        (r.Ok? <==> t.Ok?) && (t.Err? ==> r == Err(t.error) && plugins == old(plugins))
        && (t.Ok? ==> plugins == old(plugins)[name := old(plugins)[name].(status := t.value)])
      ensures r.Ok? ==> name in plugins && plugins[name].status != Active && name !in ActiveCommands(plugins)
      ensures pluginDirectories == old(pluginDirectories) && globalConfig == old(globalConfig)
    {
      if name !in plugins {
        return Err(NotFound(name));
      }
      var inst := plugins[name];
      var t := DeactivateStatus(inst.status, shutdown);
      if t.Err? {
        return Err(t.error);
      }
      plugins := plugins[name := inst.(status := t.value)];
      return Ok(());
    }

    /** `set_config` on a managed plugin, with the plugin's validation outcome. */
    method ConfigurePlugin(name: string, config: JsonValue.Value, rejection: Option<ClaudeError>) returns (r: Result<(), ClaudeError>)
      modifies this
      ensures name !in old(plugins) ==> r == Err(NotFound(name)) && plugins == old(plugins)
      ensures name in old(plugins) && rejection.Some? ==> r == Err(rejection.value) && plugins == old(plugins)
      ensures name in old(plugins) && rejection.None? ==>
        r.Ok? && plugins == old(plugins)[name := old(plugins)[name].(config := Some(config))]
      ensures pluginDirectories == old(pluginDirectories) && globalConfig == old(globalConfig)
    {
      if name !in plugins {
        return Err(NotFound(name));
      }
      var s := SetConfig(plugins[name], config, rejection);
      if s.Err? {
        return Err(s.error);
      }
      plugins := plugins[name := s.value];
      return Ok(());
    }

    /** The names, statuses and metadata of the managed plugins (in no particular order). */
    function ListPlugins(): (r: set<(string, PluginStatus, PluginMetadata)>)
      reads this
      ensures forall name, s, m :: (name, s, m) in r <==> name in plugins && plugins[name].status == s && plugins[name].metadata == m
    {
      set name | name in plugins :: (name, plugins[name].status, plugins[name].metadata)
    }

    /**
     * `execute_plugin_command`: only an Active plugin runs a command;
     * `outcome` is what its `execute_command` returns.
     */
    method ExecutePluginCommand(name: string, outcome: Result<JsonValue.Value, ClaudeError>) returns (r: Result<JsonValue.Value, ClaudeError>)
      ensures name !in plugins ==> r == Err(NotFound(name))
      ensures name in plugins && plugins[name].status != Active ==> r == Err(General("Plugin '" + name + "' is not active"))
      ensures name in plugins && plugins[name].status == Active ==> r == outcome
      ensures r.Ok? ==> name in plugins && plugins[name].status == Active
    {
      if name !in plugins {
        return Err(NotFound(name));
      }
      if plugins[name].status != Active {
        return Err(General("Plugin '" + name + "' is not active"));
      }
      return outcome;
    }

    /** `get_all_commands`: visits every plugin and keeps the Active ones' non-empty command lists. */
    method GetAllCommands() returns (all: map<string, seq<PluginCommand>>)
      ensures all == ActiveCommands(plugins)
    {
      all := map[];
      var remaining := plugins.Keys;
      while remaining != {}
        invariant remaining <= plugins.Keys
        invariant all == ActiveCommands(map k | k in plugins && k !in remaining :: plugins[k])
        decreases remaining
      {
        var k :| k in remaining;
        if plugins[k].status == Active && plugins[k].commands != [] {
          all := all[k := plugins[k].commands];
        }
        remaining := remaining - {k};
      }
      assert (map k | k in plugins && k !in remaining :: plugins[k]) == plugins;
    }
  }
}
