/** The collector's options and the settings derived from them. */
module Options {
  import opened Wrappers
  import opened Severity
  import opened Wire

  /** Threshold used when no (recognised) `collectSeverity` is configured. */
  const DefaultThreshold: Level := ERROR
  /** Severity of an event that carries none and inherits none. */
  const DefaultSeverity: Level := INFO
  /** Sampler capacity used when no `samplerLimit` is configured. */
  const DefaultSamplerLimit: nat := 1000

  /** The options object handed to the collector. */
  datatype Config = Config(
    collectSeverity: Option<string>,
    serviceKey: Option<ServiceKey>,
    samplerLimit: Option<nat>,
    noStack: bool)

  /** What the collector keeps of its options. */
  datatype Settings = Settings(
    mustCollectSeverity: Level,
    defaultSeverity: Level,
    serviceKey: Option<ServiceKey>,
    noStack: bool)

  function SettingsOf(config: Config): (s: Settings)
    ensures config.collectSeverity == Some("DEBUG") ==> s.mustCollectSeverity == DEBUG
    ensures config.collectSeverity.None? ==> s.mustCollectSeverity == DefaultThreshold
    ensures s.serviceKey == config.serviceKey && s.noStack == config.noStack
  {
    var named := if config.collectSeverity.Some? then LevelNamed(config.collectSeverity.value) else None;
    Settings(named.GetOr(DefaultThreshold), DefaultSeverity, config.serviceKey, config.noStack)
  }
}
