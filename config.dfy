/** The plugin's configuration, once the host's JSON payload has been parsed. */
module Config {
  import opened Wrappers

  /** The module specifier used when the configuration names none. */
  const DefaultImportSource: string := "react"

  /** The one recognised option; unrecognised keys never reach this value. */
  datatype PluginConfig = PluginConfig(importSource: Option<string>)

  /** The import source the transform uses: the configured one when present,
      the default otherwise. */
  function ResolveImportSource(config: PluginConfig): (source: string)
    ensures config.importSource.Some? ==> source == config.importSource.value
    ensures config.importSource.None? ==> source == DefaultImportSource
  {
    match config.importSource
    case Some(s) => s
    case None => DefaultImportSource
  }
}
