/** The older copies in qwcore/utils.py: `get_plugins`, written here as the loop it is,
    and `build_command`, whose version callback shadows the `version` parameter. */
module Utils {
  import opened Wrappers
  import opened Exceptions
  import opened Click
  import opened CommandTree
  import Plugin
  import Cli

  /** `get_plugins(group, name)` of utils.py, loop by loop. It performs the same checks in
      the same order as plugin.py and so returns what plugin.py returns. */
  method GetPlugins(group: string, filter: Option<string>, eps: seq<Plugin.EntryPoint>)
    returns (r: Result<Plugin.Registry, PluginError>)
    requires Plugin.FilteredBy(filter, eps)
    ensures r == Plugin.GetPlugins(group, filter, eps)
  {
    var plugins: Plugin.Registry := map[];
    var i := 0;
    while i < |eps|
      invariant i <= |eps|
      invariant Plugin.Scan(eps, 0, map[], filter) == Plugin.Scan(eps, i, plugins, filter)
      decreases |eps| - i
    {
      var ep := eps[i];
      if ep.plugin.name.Some? && ep.name != ep.plugin.name.value {
        return Failure(PluginNameMismatchError(ep.name, ep.plugin.name.value));
      } else if ep.plugin.name.None? {
        return Failure(PluginNoNameAttributeError(ep.name));
      }
      if ep.plugin.name.value in plugins {
        return Failure(DuplicatePluginError(filter));
      }
      plugins := plugins[ep.plugin.name.value := ep.plugin];
      i := i + 1;
    }
    assert Plugin.Scan(eps, i, plugins, filter) == Success(plugins);
    if Truthy(filter) && |plugins| == 0 {
      return Failure(PluginNameNotFoundError(group, filter.value));
    } else if |plugins| == 0 {
      return Failure(NoPluginsFoundError(group));
    }
    return Success(plugins);
  }

  /** What `click.echo` prints for the nested function `version` of utils.py: Python 2's
      repr of a function object, whose address the model cannot know. */
  function VersionRepr(address: string): (repr: string)
    ensures |repr| > 0 && repr[0] == '<'
  {
    "<function version at " + address + ">"
  }

  /** A flag that echoes `text` never shows anything else. */
  lemma EchoNeverShows(text: string, other: string)
    ensures text != other ==>
      forall ctx: Context :: Invoke(EchoAndExit(text), true, ctx).output != ctx.output + [other]
  {
    forall ctx: Context | text != other
      ensures Invoke(EchoAndExit(text), true, ctx).output != ctx.output + [other]
    {
      assert (ctx.output + [text])[|ctx.output|] == text;
    }
  }

  /** `build_command(name, description, version, command_group)` of utils.py, as written.
      Inside it `def version(...)` rebinds `version`, so the callback echoes the callback
      function itself, at `address`. The tree is cli.py's, except that the group is a plain
      `click.Group` (no project name) and `--version` echoes that repr whatever `version`
      is; in particular it never echoes a version that does not start with `<`. */
  function BuildCommand(
    name: string, description: string, version: string, commandGroup: string,
    address: string, eps: seq<Plugin.EntryPoint>): (r: Result<Group, PluginError>)
    ensures r.Failure? <==> Plugin.GetPlugins(commandGroup, None, eps).Failure?
    ensures r.Failure? ==> r.error == Plugin.GetPlugins(commandGroup, None, eps).error
    ensures r.Success? ==>
      r.value == Cli.BuildCommand(name, description, version, commandGroup, None, eps).value.(
        params := [VersionFlag(VersionRepr(address)), DebugFlag(name)], projectName := None)
    ensures r.Success? ==> forall ctx: Context ::
      Invoke(r.value.params[0].callback, true, ctx).output == ctx.output + [VersionRepr(address)]
    ensures r.Success? && (version == "" || version[0] != '<') ==> forall ctx: Context ::
      Invoke(r.value.params[0].callback, true, ctx).output != ctx.output + [version]
  {
    match Plugin.GetPlugins(commandGroup, None, eps)
    case Failure(e) => Failure(e)
    case Success(subcommands) =>
      Plugin.RegistryShape(commandGroup, None, eps);
      var repr := VersionRepr(address);
      EchoNeverShows(repr, version);
      Success(Group(commandGroup, description, [VersionFlag(repr), DebugFlag(name)], Subcommands(subcommands), None))
  }

  /** The `version` argument of utils.py's `build_command` is dead: any two versions give
      the same command, while cli.py's commands for two different versions differ in
      their `--version` flag. */
  lemma VersionArgumentIgnored(
    name: string, description: string, v1: string, v2: string, commandGroup: string,
    address: string, eps: seq<Plugin.EntryPoint>)
    ensures BuildCommand(name, description, v1, commandGroup, address, eps)
         == BuildCommand(name, description, v2, commandGroup, address, eps)
    ensures v1 != v2 && Cli.BuildCommand(name, description, v1, commandGroup, None, eps).Success? ==>
      Cli.BuildCommand(name, description, v1, commandGroup, None, eps).value.params[0]
        != Cli.BuildCommand(name, description, v2, commandGroup, None, eps).value.params[0]
  {
    if v1 != v2 && Cli.BuildCommand(name, description, v1, commandGroup, None, eps).Success? {
      assert EchoAndExit(v1) != EchoAndExit(v2);
    }
  }

  /** The shadowing, exhibited: for any group that builds, with version "1.0" the
      `--version` flag of utils.py's command does not print "1.0", while cli.py's does. */
  lemma ShadowedVersionCounterexample(
    name: string, description: string, commandGroup: string, address: string,
    eps: seq<Plugin.EntryPoint>, ctx: Context)
    requires Plugin.GetPlugins(commandGroup, None, eps).Success?
    ensures BuildCommand(name, description, "1.0", commandGroup, address, eps).Success?
    ensures Invoke(BuildCommand(name, description, "1.0", commandGroup, address, eps).value.params[0].callback,
                   true, ctx).output != ctx.output + ["1.0"]
    ensures Invoke(Cli.BuildCommand(name, description, "1.0", commandGroup, None, eps).value.params[0].callback,
                   true, ctx).output == ctx.output + ["1.0"]
  {
    assert "1.0"[0] != '<';
  }
}
