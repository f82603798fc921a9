/** `build_command` of qwcore/cli.py: look up every plugin of a command group and assemble
    a click group with `--version` and `--debug` and one subcommand per plugin. */
module Cli {
  import opened Wrappers
  import opened Exceptions
  import opened Click
  import opened Plugin
  import opened CommandTree

  /** `if not project_name: project_name = name`. */
  function ProjectName(name: string, projectName: Option<string>): (pn: string)
    ensures Truthy(projectName) ==> pn == projectName.value
    ensures !Truthy(projectName) ==> pn == name
  {
    if Truthy(projectName) then projectName.value else name
  }

  /** `build_command(name, description, version, command_group, project_name)`. The
      registry's exceptions propagate unchanged and then no command exists; otherwise the
      group is named after the command group, described by `description`, carries exactly
      the two built-in flags, and has one subcommand per entry point of the group, under
      the entry point's name, with the plugin's help and params. */
  function BuildCommand(
    name: string, description: string, version: string, commandGroup: string,
    projectName: Option<string>, eps: seq<EntryPoint>): (r: Result<Group, PluginError>)
    ensures r.Failure? <==> GetPlugins(commandGroup, None, eps).Failure?
    ensures r.Failure? ==> r.error == GetPlugins(commandGroup, None, eps).error
    ensures r.Success? ==> r.value.name == commandGroup && r.value.help == description
    ensures r.Success? ==> r.value.params == [VersionFlag(version), DebugFlag(name)]
    ensures r.Success? ==> r.value.projectName == Some(ProjectName(name, projectName))
    ensures r.Success? ==>
      var plugins := GetPlugins(commandGroup, None, eps).value;
      && r.value.commands.Keys == plugins.Keys
      && forall k :: k in r.value.commands ==>
           && r.value.commands[k].name == k
           && r.value.commands[k].shortHelp == plugins[k].help
           && r.value.commands[k].params == plugins[k].params
           && r.value.commands[k].runner == plugins[k]
  {
    var pn := ProjectName(name, projectName);
    match GetPlugins(commandGroup, None, eps)
    case Failure(e) => Failure(e)
    case Success(subcommands) =>
      RegistryShape(commandGroup, None, eps);
      Success(Group(commandGroup, description, [VersionFlag(version), DebugFlag(name)], Subcommands(subcommands), Some(pn)))
  }

  /** The built group's subcommand names are exactly the names the group's entry points
      are registered under, and each subcommand runs the class loaded from its entry point. */
  lemma SubcommandsMatchEntryPoints(
    name: string, description: string, version: string, commandGroup: string,
    projectName: Option<string>, eps: seq<EntryPoint>)
    requires BuildCommand(name, description, version, commandGroup, projectName, eps).Success?
    ensures var g := BuildCommand(name, description, version, commandGroup, projectName, eps).value;
      && g.commands.Keys == Names(eps, 0, |eps|)
      && |g.commands| == |eps|
      && forall i :: 0 <= i < |eps| ==> g.commands[eps[i].name].runner == eps[i].plugin
  {
    RegistryShape(commandGroup, None, eps);
    var g := BuildCommand(name, description, version, commandGroup, projectName, eps).value;
    assert g.commands.Keys == GetPlugins(commandGroup, None, eps).value.Keys;
  }

  /** `show_version`: with `--version` set the configured version is echoed and the
      context exits with code 0; unset, nothing happens. */
  lemma VersionFlagShowsVersion(
    name: string, description: string, version: string, commandGroup: string,
    projectName: Option<string>, eps: seq<EntryPoint>, ctx: Context)
    requires BuildCommand(name, description, version, commandGroup, projectName, eps).Success?
    ensures var flag := BuildCommand(name, description, version, commandGroup, projectName, eps).value.params[0];
      && flag.decls == ["--version"] && flag.isEager
      && Invoke(flag.callback, true, ctx) == ctx.(output := ctx.output + [version], exitCode := Some(0))
      && Invoke(flag.callback, false, ctx) == ctx
  {
  }

  /** `set_debug`: with `--debug` set the logger named after the command goes to DEBUG and
      nothing else changes; unset, nothing happens. */
  lemma DebugFlagSetsDebug(
    name: string, description: string, version: string, commandGroup: string,
    projectName: Option<string>, eps: seq<EntryPoint>, ctx: Context)
    requires BuildCommand(name, description, version, commandGroup, projectName, eps).Success?
    ensures var flag := BuildCommand(name, description, version, commandGroup, projectName, eps).value.params[1];
      && flag.decls == ["--debug"] && !flag.isEager
      && Invoke(flag.callback, true, ctx) == ctx.(logLevels := ctx.logLevels[name := DEBUG])
      && Invoke(flag.callback, false, ctx) == ctx
  {
  }

  /** Every subcommand lookup on the built group records the project name in `ctx.meta`,
      whether or not the subcommand exists. */
  lemma LookupRecordsProjectName(
    name: string, description: string, version: string, commandGroup: string,
    projectName: Option<string>, eps: seq<EntryPoint>, ctx: Context, cmdName: string)
    requires BuildCommand(name, description, version, commandGroup, projectName, eps).Success?
    ensures var (ctx', cmd) := GetCommand(BuildCommand(name, description, version, commandGroup, projectName, eps).value, ctx, cmdName);
      && ctx'.meta == ctx.meta[ProjectNameKey := ProjectName(name, projectName)]
      && (cmd.Some? <==> cmdName in Names(eps, 0, |eps|))
  {
    SubcommandsMatchEntryPoints(name, description, version, commandGroup, projectName, eps);
  }

  /** Each subcommand of a built group is the one built from the plugin class registered
      under its name. */
  lemma BuiltSubcommand(
    name: string, description: string, version: string, commandGroup: string,
    projectName: Option<string>, eps: seq<EntryPoint>, k: string)
    requires GetPlugins(commandGroup, None, eps).Success?
    requires k in GetPlugins(commandGroup, None, eps).value
    ensures var plugins := GetPlugins(commandGroup, None, eps).value;
      && BuildCommand(name, description, version, commandGroup, projectName, eps).Success?
      && k in BuildCommand(name, description, version, commandGroup, projectName, eps).value.commands
      && BuildCommand(name, description, version, commandGroup, projectName, eps).value.commands[k]
           == Subcommand(plugins[k])
  {
    RegistryShape(commandGroup, None, eps);
  }

  /** The registry step of the scenario below: two well-named entry points under
      different names give the two-plugin registry. */
  lemma TwoPluginRegistry(n1: string, cmd1: PluginClass, n2: string, cmd2: PluginClass)
    requires n1 != n2 && cmd1.name == Some(n1) && cmd2.name == Some(n2)
    ensures GetPlugins("group", None, [EntryPoint(n1, cmd1), EntryPoint(n2, cmd2)])
      == Success(map[n1 := cmd1, n2 := cmd2])
  {
    var eps := [EntryPoint(n1, cmd1), EntryPoint(n2, cmd2)];
    var one := map[n1 := cmd1];
    var both := map[n1 := cmd1, n2 := cmd2];
    assert n2 !in one;
    assert Scan(eps, 2, both, None) == Success(both);
    assert Scan(eps, 1, one, None) == Success(both);
  }

  /** The scenario of qwcore/tests/test_cli.py, for any two plugin classes under different
      names (the test's `Cmd1`, with a `--yo` flag, and `Cmd2`): the group has exactly
      those two subcommands, each keeping its params, its short help and its docstring as
      long help, and the project name defaults to the command name. */
  lemma TwoPluginGroup(n1: string, cmd1: PluginClass, n2: string, cmd2: PluginClass)
    requires n1 != n2 && cmd1.name == Some(n1) && cmd2.name == Some(n2)
    ensures var r := BuildCommand("testname", "description", "1.0", "group", None,
                                  [EntryPoint(n1, cmd1), EntryPoint(n2, cmd2)]);
      && r.Success?
      && r.value.commands.Keys == {n1, n2}
      && r.value.commands[n1].params == cmd1.params
      && r.value.commands[n2].params == cmd2.params
      && r.value.commands[n1].shortHelp == cmd1.help
      && r.value.commands[n2].shortHelp == cmd2.help
      && r.value.commands[n1].helpText == "    " + cmd1.doc
      && r.value.commands[n2].helpText == "    " + cmd2.doc
      && r.value.projectName == Some("testname")
  {
    var eps := [EntryPoint(n1, cmd1), EntryPoint(n2, cmd2)];
    TwoPluginRegistry(n1, cmd1, n2, cmd2);
    BuiltSubcommand("testname", "description", "1.0", "group", None, eps, n1);
    BuiltSubcommand("testname", "description", "1.0", "group", None, eps, n2);
  }
}
