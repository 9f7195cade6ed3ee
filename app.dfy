/** The two pieces of program start-up that carry logic: the built-in
    configuration used when no file can be loaded, and the registry
    bootstrap with its basic fallback. */
module App {
  import opened Config
  import opened Adapters
  import Registry

  /** `getDefaultConfig`. */
  function DefaultConfig(): (c: Config)
    ensures c.server == ServerConfig(DefaultPort, DefaultMetricsPort, DefaultLogLevel)
    ensures |c.processors| == 1
    ensures c.processors[0] == ProcessorConfig("basic", true, "default-basic", map[])
  {
    Config(
      ServerConfig(DefaultPort, DefaultMetricsPort, DefaultLogLevel),
      [ProcessorConfig("basic", true, "default-basic", map[])])
  }

  /** The built-in configuration needs no defaulting and loads exactly one
      basic adapter. */
  lemma DefaultConfigIsComplete()
    ensures WithDefaults(DefaultConfig().server) == DefaultConfig().server
    ensures Registry.Loaded(DefaultConfig().processors) == [Basic]
  {
  }

  /** The bootstrap fragment of `main`: load the configured adapters and,
      only when none was registered, register a basic one. */
  method Bootstrap(cfg: Config) returns (registry: Registry.Registry)
    ensures fresh(registry)
    ensures Registry.Loaded(cfg.processors) == [] ==> registry.processors == [Basic]
    ensures Registry.Loaded(cfg.processors) != [] ==> registry.processors == Registry.Loaded(cfg.processors)
    ensures |registry.processors| >= 1
  {
    registry := new Registry.Registry();
    var _ := registry.LoadFromConfig(cfg);
    var count := registry.GetProcessorCount();
    if count == 0 {
      registry.Register(Basic);
    }
  }
}
