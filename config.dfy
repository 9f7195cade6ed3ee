/** The parsed configuration, the defaults applied after parsing, and the
    environment lookup. YAML reading and parsing are not modelled: a
    `Config` value stands for what `yaml.Unmarshal` produced. */
module Config {
  import opened Wrappers

  /** A value of an untyped `map[string]interface{}` as YAML decodes it. */
  datatype CfgVal =
    | Str(s: string)
    | Int(i: int)
    | List(items: seq<CfgVal>)
    | Map(entries: map<string, CfgVal>)
    | Other

  type CfgMap = map<string, CfgVal>

  datatype ServerConfig = ServerConfig(port: int, metricsPort: int, logLevel: string)

  /** One destination descriptor; `kind` is the YAML `type` field. */
  datatype ProcessorConfig = ProcessorConfig(kind: string, enabled: bool, name: string, config: CfgMap)

  datatype Config = Config(server: ServerConfig, processors: seq<ProcessorConfig>)

  const DefaultPort := 8080
  const DefaultMetricsPort := 2112
  const DefaultLogLevel := "info"

  /** Go's `cfg[key].(string)` with its `ok` flag. */
  function StringAt(cfg: CfgMap, key: string): (r: Option<string>)
    ensures r.Some? <==> key in cfg && cfg[key].Str?
    ensures r.Some? ==> cfg[key] == Str(r.value)
  {
    if key in cfg && cfg[key].Str? then Some(cfg[key].s) else None
  }

  /** The shared required-key test: the key holds a string and it is not "". */
  predicate HasNonEmptyString(cfg: CfgMap, key: string)
  {
    key in cfg && cfg[key].Str? && cfg[key].s != ""
  }

  /** The server section after the defaulting step of `LoadConfig`. */
  function WithDefaults(s: ServerConfig): (r: ServerConfig)
    ensures r.port != 0 && r.metricsPort != 0 && r.logLevel != ""
    ensures s.port != 0 ==> r.port == s.port
    ensures s.port == 0 ==> r.port == DefaultPort
    ensures s.metricsPort != 0 ==> r.metricsPort == s.metricsPort
    ensures s.metricsPort == 0 ==> r.metricsPort == DefaultMetricsPort
    ensures s.logLevel != "" ==> r.logLevel == s.logLevel
    ensures s.logLevel == "" ==> r.logLevel == DefaultLogLevel
  {
    ServerConfig(
      if s.port == 0 then DefaultPort else s.port,
      if s.metricsPort == 0 then DefaultMetricsPort else s.metricsPort,
      if s.logLevel == "" then DefaultLogLevel else s.logLevel)
  }

  /** The defaulting step of `LoadConfig`, applied field by field to an
      already parsed configuration. */
  method ApplyDefaults(cfg: Config) returns (r: Config)
    ensures r.server == WithDefaults(cfg.server)
    ensures r.processors == cfg.processors
  {
    r := cfg;
    if r.server.port == 0 {
      r := r.(server := r.server.(port := DefaultPort));
    }
    if r.server.metricsPort == 0 {
      r := r.(server := r.server.(metricsPort := DefaultMetricsPort));
    }
    if r.server.logLevel == "" {
      r := r.(server := r.server.(logLevel := DefaultLogLevel));
    }
  }

  /** Defaulting twice is defaulting once; a server section without zero
      fields is a fixed point. */
  lemma WithDefaultsIdempotent(s: ServerConfig)
    ensures WithDefaults(WithDefaults(s)) == WithDefaults(s)
    ensures (s.port != 0 && s.metricsPort != 0 && s.logLevel != "") <==> WithDefaults(s) == s
  {
  }

  /** `GetEnv` over an environment given as a map: a set, non-empty value
      wins, anything else gives the default. */
  function GetEnv(env: map<string, string>, key: string, defaultValue: string): (r: string)
    ensures key in env && env[key] != "" ==> r == env[key]
    ensures !(key in env && env[key] != "") ==> r == defaultValue
  {
    if key in env && env[key] != "" then env[key] else defaultValue
  }

  /** A variable set to "" reads the same as an unset one. */
  lemma EmptyEnvIsUnset(env: map<string, string>, key: string, defaultValue: string)
    ensures GetEnv(env[key := ""], key, defaultValue) == GetEnv(env - {key}, key, defaultValue) == defaultValue
  {
  }
}
