/** The plugin registry's five exception classes (qwcore/exceptions.py), as one datatype.
    Each constructor keeps the values the raising code puts into its message. */
module Exceptions {
  import opened Wrappers

  datatype PluginError =
      /** A name filter was given and no plugin was found under it. */
    | PluginNameNotFoundError(group: string, name: string)
      /** An entry point's name differs from the loaded class's `name` attribute. */
    | PluginNameMismatchError(entryPointName: string, pluginName: string)
      /** A name was already registered; the message formats the name FILTER, not the colliding name. */
    | DuplicatePluginError(filter: Option<string>)
      /** No name filter was given (or it was empty) and the group advertised nothing. */
    | NoPluginsFoundError(group: string)
      /** The loaded class has no `name` attribute. */
    | PluginNoNameAttributeError(entryPointName: string)
}
