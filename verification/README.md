# qwcore in Dafny

A model of the core of qwcore, a small Python toolkit for command-line applications, with
proofs about it. qwcore does three things:

- **Plugin registry** (`get_plugins`, in `qwcore/plugin.py` and again in `qwcore/utils.py`).
  It loads the entry points of a group and builds a dict from plugin name to plugin class.
  It stops at the first entry point whose class has no `name`, whose `name` differs from
  the entry point's, or whose name is already registered. It also fails when nothing was
  found.
- **Command assembler** (`build_command`, in `qwcore/cli.py` with an older copy in
  `qwcore/utils.py`). It turns the registry into a click group that has a `--version`
  flag, a `--debug` flag and one subcommand per plugin. cli.py's group also records the
  project name in `ctx.meta` whenever a subcommand is looked up.
- **Config lookup** (`get_config` and `get_value`, in `qwcore/config.py`). It reads the
  per-application config file and looks a key up, optionally inside a section. A
  caller-supplied default stands in for a missing file, section or key.

Modules, one per source component:

| file | module | models |
|---|---|---|
| `wrappers.dfy` | `Wrappers` | `Option`, `Result` and Python truthiness of an optional string |
| `exceptions.dfy` | `Exceptions` | the five plugin exceptions, under the names `qwcore/exceptions.py` defines |
| `click.dfy` | `Click` | the part of click the assembler uses: options, flag callbacks, context state |
| `plugin.dfy` | `Plugin` | `get_plugins` of plugin.py, as a fold over the loaded entry points |
| `command_tree.dfy` | `CommandTree` | the group, subcommands, built-in flags and subcommand lookup |
| `cli.dfy` | `Cli` | `build_command` of cli.py |
| `utils.dfy` | `Utils` | `get_plugins` and `build_command` of utils.py |
| `config.dfy` | `Config` | `get_config` and `get_value` |

How the model represents the source:

- An entry point is already loaded: it carries its name and the class `load()` returns.
- A class without a `name` attribute has `name == None`.
- `pkg_resources.iter_entry_points(group, name)` is the sequence the provider yields. When
  a name filter is given, the provider yields only entry points of that name; the
  predicate `Plugin.FilteredBy` states this, and `Plugin.GetPlugins` requires it.
- plugin.py's `for` loop is the recursive fold `Plugin.Scan`. utils.py's copy of the same
  loop is the `while` loop `Utils.GetPlugins`, which is proved to return exactly what
  `Plugin.GetPlugins` returns.
- click's closures become data. The `Click.Callback` datatype says what a flag callback
  does, and `Click.Invoke` runs it against a `Click.Context`. The context holds the echoed
  output, the exit code, the logger levels and `ctx.meta`.
- The config file is a `Config.FileState`: missing, malformed (with the parser's message)
  or parsed. A parsed file maps keys to `Config.Value`s; a value is a string or a section.
  The errors of `get_value` are a `Config.ConfigError`. Its last constructor,
  `ScalarNotSubscriptable`, is the `TypeError` Python raises when the requested section
  is a plain string.
- plugin.py (lines 3-5) and utils.py (lines 9-11) import the plugin exceptions without
  the `Error` suffix (`PluginNameMismatch`, ...), but `qwcore/exceptions.py` (lines 2-19)
  defines them with it. The model uses the names `qwcore/exceptions.py` defines, as
  qwcore/tests/test_plugin.py:6-8 does; qwcore/tests/test_utils.py:8-10 imports the names
  without the suffix, like utils.py.
- The config exception classes live in `qwcore/exception.py`, which config.py imports.
  That file is not part of this model; its classes appear here by name only.

Facts about the code that the model follows:

- The mismatch check (plugin.py:13) runs before the missing-name check (plugin.py:16).
  The two conditions cannot both hold, so the order does not matter.
- The first offending entry point decides the exception: an earlier mismatch, missing
  name or duplicate wins over any later one (`Plugin.FirstOffenceDecides`).
- A parser error is never replaced by the default. config.py:44 catches only
  ConfigFileNotFoundError, as the docstring at config.py:40 says. Only "file not found",
  "section not found" and "key not found" fall back to the default
  (`Config.DefaultIsFallback`).
- The duplicate exception's message formats the lookup filter (`name`), not the colliding
  plugin name. `DuplicatePluginError` therefore carries the filter.

## Model

| member | source | states |
|---|---|---|
| `Click.Invoke` | qwcore/cli.py:31-39 | an unset flag changes nothing; `show_version` appends exactly the version to the output and exits with code 0; `set_debug` sets the named logger to DEBUG, gives no other logger a level and leaves the levels of the others, the output and the exit code alone; `ctx.meta` is never touched |
| `Plugin.Scan` | qwcore/plugin.py:11-21 | the loop finishes exactly when every remaining entry point is well named and its name is neither registered yet nor repeated later; it then returns the current map plus each remaining name bound to its class; every failure is a mismatch, a missing name or a duplicate |
| `Plugin.GetPlugins` | qwcore/plugin.py:8-26 | success exactly when the group is non-empty and clean, and then the registry binds each entry point's name to its class; an empty group raises `PluginNameNotFoundError(group, name)` when a name was asked for and `NoPluginsFoundError(group)` otherwise |
| `Plugin.RegistryShape` | qwcore/plugin.py:19-21 | a successful registry's keys are exactly the entry points' names; it has one key per entry point and is never empty; each name is bound to its entry point's class; every class is registered under its own `name` |
| `Plugin.ScanStopsAtFirstOffence` | qwcore/plugin.py:13-20 | after a clean stretch, the first offending entry point determines the loop's exception, whatever follows it |
| `Plugin.ScanFailureHasFirstOffence` | qwcore/plugin.py:13-20 | conversely, a failing loop failed at some entry point after a clean stretch, with that entry point's exception |
| `Plugin.FirstOffenceDecides` | qwcore/plugin.py:11-21 | `get_plugins` raises the exception of the first offending entry point, whatever follows it |
| `Plugin.FailureIsFirstOffence` | qwcore/plugin.py:11-21 | every failure of `get_plugins` on a non-empty group is the exception of some entry point whose predecessors are all clean |
| `Plugin.LaterEntriesIgnored` | qwcore/plugin.py:11-21 | once a prefix of the group fails, entry points yielded after it do not change the outcome |
| `Plugin.SameEntryTwiceIsDuplicate` | qwcore/plugin.py:19-20 | a well-named entry point alone gives a one-plugin registry; the same entry point yielded twice raises `DuplicatePluginError` |
| `Plugin.FilteredSuccessIsSingleton` | qwcore/plugin.py:8-26 | a successful lookup with a name filter found exactly one entry point and maps that name to its class |
| `CommandTree.VersionFlag` | qwcore/cli.py:41-42 | the `--version` option is a flag, eager, not passed to the command, and its callback echoes the given text and exits |
| `CommandTree.DebugFlag` | qwcore/cli.py:43-44 | the `--debug` option is a flag, not eager, not passed to the command, and its callback lowers the given logger to DEBUG |
| `CommandTree.Subcommand` | qwcore/cli.py:49-55 | a subcommand takes its name from the class's `name`, its short help from `help`, its long help from the docstring behind four spaces, its params from `params`, and runs the class |
| `CommandTree.Subcommands` | qwcore/cli.py:48-56 | the group's subcommands have exactly the registry's keys, and each name is bound to the subcommand built from the class registered under it |
| `CommandTree.GetCommand` | qwcore/cli.py:24-29 | looking up a subcommand returns it exactly when it is registered; `MyGroup` first records the project name in `ctx.meta` under `qwcore.project_name`, adds no other key and keeps every other entry; a plain group leaves the context alone |
| `Cli.ProjectName` | qwcore/cli.py:19-20 | a non-empty project name is kept; a missing or empty one is replaced by the command name |
| `Cli.BuildCommand` | qwcore/cli.py:10-58 | fails exactly when the registry fails, with the same exception; otherwise the group is named after the command group, described by the description, carries exactly the version and debug flags, records the project name, and has one subcommand per registry key with that plugin's help, params and class |
| `Cli.SubcommandsMatchEntryPoints` | qwcore/cli.py:22 | the built group's subcommand names are exactly the group's entry-point names, one per entry point, each running the class loaded from its entry point |
| `Cli.VersionFlagShowsVersion` | qwcore/cli.py:31-34 | setting `--version` on the built group echoes the configured version and exits 0; leaving it unset changes nothing |
| `Cli.DebugFlagSetsDebug` | qwcore/cli.py:36-39 | setting `--debug` on the built group lowers exactly the logger named after the command to DEBUG; leaving it unset changes nothing |
| `Cli.LookupRecordsProjectName` | qwcore/cli.py:24-29 | every lookup on the built group records the project name, whether or not the subcommand exists, and finds a subcommand exactly when an entry point has that name |
| `Cli.BuiltSubcommand` | qwcore/cli.py:48-56 | each subcommand of a built group is the one built from the class registered under its name |
| `Cli.TwoPluginRegistry` | qwcore/tests/test_cli.py:27-30 | two well-named entry points under different names give the registry holding exactly those two classes |
| `Cli.TwoPluginGroup` | qwcore/tests/test_cli.py:7-42 | two plugins under different names (the test's `Cmd1` with a `--yo` flag, and `Cmd2`) give a group with exactly those two subcommands; each keeps its params and its short help, and its long help is its docstring behind four spaces; the project name defaults to the command name |
| `Utils.GetPlugins` | qwcore/utils.py:71-89 | the loop of utils.py returns exactly what plugin.py's `get_plugins` returns, exceptions included |
| `Utils.VersionRepr` | qwcore/utils.py:110-112 | what `click.echo` prints for the nested function `version` is a function repr, which starts with `<` |
| `Utils.BuildCommand` | qwcore/utils.py:105-137 | fails exactly when the registry fails, with the same exception; otherwise it builds cli.py's tree as a plain group with no project name; its `--version` echoes the callback function's repr, so it never echoes a version that does not start with `<` |
| `Utils.VersionArgumentIgnored` | qwcore/utils.py:105-113 | utils.py's command is the same for every `version` argument, while cli.py's commands for two different versions differ in their `--version` flag |
| `Utils.ShadowedVersionCounterexample` | qwcore/utils.py:110-113 | for every group that builds, with version "1.0" the `--version` flag of utils.py's command does not print "1.0", while cli.py's does |
| `Config.GetConfig` | qwcore/config.py:12-31 | a missing file raises ConfigFileNotFoundError, an unparsable file raises ConfigFileParserError with the parser's message, and a parsed file yields its contents |
| `Config.LookupKey` | qwcore/config.py:60-68 | a present key yields its value; a missing key yields a truthy default, or else raises ConfigFileKeyNotFoundError |
| `Config.GetValue` | qwcore/config.py:34-68 | a missing file falls back to a truthy default; a parser error always propagates; a missing section falls back to the default or raises ConfigFileSectionNotFoundError; a string section raises a TypeError; a present key yields its value whatever the default |
| `Config.FalsyDefaultIsNoDefault` | qwcore/config.py:45 | `None`, "" and an empty section as default behave exactly like no default |
| `Config.DefaultIsFallback` | qwcore/config.py:42-68 | a truthy default replaces exactly the not-found failures (file, section, key) and changes no other outcome |
| `Config.NoDefaultFailsOnlyOnMissingPath` | qwcore/config.py:42-68 | without a default, `get_value` succeeds exactly when the file parses and the section, if asked for, is a section holding the key |
| `Config.ConfigTestCases` | tests/test_config.py:7-76 | the outcomes the config tests expect: ConfigFileNotFoundError for a missing file, ConfigFileParserError for an unparsable one, a plain lookup, and the section and key cases with and without a default |

## Left out

- `get_plugin` and `_get_plugins`: `qwcore/tests/test_plugin.py` imports them, but `qwcore/plugin.py` as modelled here does not define them.
- `pkg_resources` discovery and `EntryPoint.load()`: the loaded entry points are an input. The provider's name filtering is the precondition `Plugin.FilteredBy`.
- Exception messages: only the exception kind and the values the source formats into it are kept. config.py's key-not-found message formats the section instead of the key; this text is not modelled.
- click's argument parsing, dispatch and `main`: the assembler's output is the data it hands to click. Running `--version` before other arguments is click's eager handling and is modelled only as the `isEager` flag. So is the `run(yo=False)` call that the test's `cmd.main(['Cmd1'])` makes.
- `textwrap.dedent` of the help text: `helpText` keeps the four-space prefix added to the docstring. A class with no docstring, where Python raises a TypeError, is not modelled (`doc` is always a string).
- Cli.BuildCommand and Utils.BuildCommand: `callback=cls().run` instantiates every plugin class while the command is built. A constructor that raises makes `build_command` raise, but the model's `runner` is the class itself and building always succeeds once the registry does.
- A class whose `name` attribute exists but is `None` or not a string, for which plugin.py:13 raises the mismatch exception: `PluginClass.name` is either absent or a string.
- Classes without `help` or `params` attributes, where Python raises AttributeError: `PluginClass` always has both.
- utils.py's `subcommands.iteritems()` exists only on Python 2 dicts; the model iterates the registry as cli.py does.
- Logging: `configure_logging`, `ColoredStreamHandler`, `qwcore/log.py` and `qwcore/echo.py`. The `LOG.info` calls in `get_value` only report, so they are dropped.
- `qwcore/tasks.py`, `run_cmd` and the rest of utils.py: these are build tasks and subprocess helpers outside the core.
- `AppDirs` path resolution and `configobj` parsing: the state of the file at the config path is an input (`Config.FileState`).
- Config values and defaults other than strings and sections, such as numbers or lists, are not modelled. Their truthiness is Python's and not covered by `Config.TruthyValue`.

## Findings

| source | as written | input that shows it | evidently intended | confidence | as-written member | corrected member |
|---|---|---|---|---|---|---|
| qwcore/utils.py:110-112 | the nested `def version(ctx, param, value)` rebinds the name `version`, so `click.echo(version)` prints the callback function itself | `build_command("app", "d", "1.0", "grp")` run with `--version` prints something like `<function version at 0x...>` instead of `1.0` | print the version string passed in, as cli.py's renamed `show_version` does | not executed | `Utils.BuildCommand`, `Utils.VersionArgumentIgnored`, `Utils.ShadowedVersionCounterexample` | `Cli.BuildCommand`, `Cli.VersionFlagShowsVersion` |
