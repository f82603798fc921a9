/** The command tree `build_command` hands to click: a group carrying the two built-in
    flags and one subcommand per plugin class. */
module CommandTree {
  import opened Wrappers
  import opened Click
  import opened Plugin

  /** A `click.Command` built from a plugin class; `runner` is the class whose instance's
      `run` becomes the callback, and `helpText` is the text handed to `textwrap.dedent`. */
  datatype Command = Command(name: string, shortHelp: string, helpText: string, params: seq<Param>, runner: PluginClass)

  /** A `click.Group`. `projectName` is set for cli.py's `MyGroup`, which records the
      project name on every subcommand lookup, and unset for a plain `click.Group`. */
  datatype Group = Group(
    name: string,
    help: string,
    params: seq<Param>,
    commands: map<string, Command>,
    projectName: Option<string>)

  /** The `ctx.meta` key `MyGroup.get_command` writes. */
  const ProjectNameKey: string := "qwcore.project_name"

  /** The `--version` flag: eager, not passed to the command, echoing `text` and exiting. */
  function VersionFlag(text: string): (p: Param)
    ensures p.decls == ["--version"] && p.isFlag && p.isEager && !p.exposeValue
    ensures p.callback == EchoAndExit(text)
  {
    ClickOption(["--version"], true, false, true, "Show the version and exit.", EchoAndExit(text))
  }

  /** The `--debug` flag: not eager, not passed to the command, lowering logger `name` to DEBUG. */
  function DebugFlag(name: string): (p: Param)
    ensures p.decls == ["--debug"] && p.isFlag && !p.isEager && !p.exposeValue
    ensures p.callback == SetDebugLevel(name)
  {
    ClickOption(["--debug"], true, false, false, "Turn on debug logging.", SetDebugLevel(name))
  }

  /** Every class of the registry is registered under its own `name` attribute, which is
      what `get_plugins` guarantees. */
  ghost predicate KeyedByName(plugins: Registry)
  {
    forall k :: k in plugins ==> plugins[k].name == Some(k)
  }

  /** The `click.Command(cls.name, short_help=cls.help, help=..., params=cls.params,
      callback=cls().run)` built for one plugin class; its long help is the class's
      docstring behind four spaces of indentation. */
  function Subcommand(cls: PluginClass): (c: Command)
    requires cls.name.Some?
    ensures Some(c.name) == cls.name
    ensures c.shortHelp == cls.help && c.params == cls.params && c.runner == cls
    ensures c.helpText == "    " + cls.doc
  {
    Command(cls.name.value, cls.help, "    " + cls.doc, cls.params, cls)
  }

  /** The `add_command` loop: each subcommand is added under its own name. Since the
      registry is keyed by name, the group gets exactly the registry's keys, each bound to
      the subcommand of the class registered under it. */
  function Subcommands(plugins: Registry): (cmds: map<string, Command>)
    requires KeyedByName(plugins)
    ensures cmds.Keys == plugins.Keys
    ensures forall k :: k in cmds ==> cmds[k] == Subcommand(plugins[k]) && cmds[k].name == k
  {
    map k | k in plugins :: plugins[k].name.value := Subcommand(plugins[k])
  }

  /** Looking a subcommand up by name in a group: `MyGroup.get_command` first records the
      project name in `ctx.meta`, then defers to click's lookup; a plain group only looks up. */
  function GetCommand(g: Group, ctx: Context, cmdName: string): (r: (Context, Option<Command>))
    ensures cmdName in g.commands ==> r.1 == Some(g.commands[cmdName])
    ensures cmdName !in g.commands ==> r.1 == None
    ensures g.projectName.Some? ==>
      && r.0.meta.Keys == ctx.meta.Keys + {ProjectNameKey}
      && r.0.meta[ProjectNameKey] == g.projectName.value
      && forall key :: key in ctx.meta && key != ProjectNameKey ==> r.0.meta[key] == ctx.meta[key]
    ensures g.projectName.None? ==> r.0 == ctx
    ensures r.0.output == ctx.output && r.0.exitCode == ctx.exitCode && r.0.logLevels == ctx.logLevels
  {
    var ctx' := if g.projectName.Some? then ctx.(meta := ctx.meta[ProjectNameKey := g.projectName.value]) else ctx;
    (ctx', if cmdName in g.commands then Some(g.commands[cmdName]) else None)
  }
}
