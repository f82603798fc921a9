/** The slice of click the command assembler relies on: option declarations, the
    callbacks attached to them, and the state those callbacks change. */
module Click {
  import opened Wrappers

  /** Python's `logging.DEBUG`. */
  const DEBUG: int := 10

  /** What a flag callback does when it runs; the closures of the source become data. */
  datatype Callback =
      /** No callback: click simply passes the value on. */
    | NoCallback
      /** `click.echo(text)` followed by `ctx.exit()`, when the flag is set. */
    | EchoAndExit(text: string)
      /** `logging.getLogger(logger).setLevel(logging.DEBUG)`, when the flag is set. */
    | SetDebugLevel(logger: string)

  /** A `click.Option`, restricted to the keyword arguments the source passes. */
  datatype Param = ClickOption(
    decls: seq<string>,
    isFlag: bool,
    exposeValue: bool,
    isEager: bool,
    help: string,
    callback: Callback)

  /** The state the callbacks touch: what was echoed, whether (and with which code) the
      context exited, the level of every named logger, and the context's `meta` dict. */
  datatype Context = Context(
    output: seq<string>,
    exitCode: Option<int>,
    logLevels: map<string, int>,
    meta: map<string, string>)

  /** Running a callback with the flag's parsed value. A false flag never has an effect;
      a set flag either echoes and exits with code 0, or lowers one logger to DEBUG. */
  function Invoke(cb: Callback, value: bool, ctx: Context): (r: Context)
    ensures !value || cb.NoCallback? ==> r == ctx
    ensures r.meta == ctx.meta
    ensures value && cb.EchoAndExit? ==>
      r.output == ctx.output + [cb.text] && r.exitCode == Some(0) && r.logLevels == ctx.logLevels
    ensures value && cb.SetDebugLevel? ==>
      r.output == ctx.output && r.exitCode == ctx.exitCode
      && cb.logger in r.logLevels && r.logLevels[cb.logger] == DEBUG
      && r.logLevels.Keys == ctx.logLevels.Keys + {cb.logger}
      && forall l :: l in ctx.logLevels && l != cb.logger ==> r.logLevels[l] == ctx.logLevels[l]
  {
    if !value then ctx
    else match cb
      case NoCallback => ctx
      case EchoAndExit(text) => ctx.(output := ctx.output + [text], exitCode := Some(0))
      case SetDebugLevel(logger) => ctx.(logLevels := ctx.logLevels[logger := DEBUG])
  }
}
