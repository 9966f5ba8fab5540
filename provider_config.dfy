/** The solver's configuration (`technitiumDNSProviderConfig`) and its
    validation after decoding (`loadConfig`). */
module ProviderConfig {
  import opened Outcomes

  /** `cmmeta.SecretKeySelector`: a secret's name and a key inside it. */
  datatype SecretKeySelector = SecretKeySelector(name: string, key: string)

  /** The decoded configuration. `zone` is declared but never read by the
      solver; `ttl` is 0 when absent. */
  datatype Config = Config(serverUrl: string, authTokenSecretRef: SecretKeySelector, zone: string, ttl: int)

  /** What reaches `loadConfig`: no config at all (`nil`), a blob that
      `json.Unmarshal` rejects, or one that decodes to a `Config`. */
  datatype ConfigInput = NoConfig | Undecodable | Parsed(cfg: Config)

  datatype ConfigError =
    | NoConfigProvided
    | DecodeFailed
    | MissingServerUrl
    | MissingAuthTokenSecretRef

  /** The checks `loadConfig` makes, in its order. */
  function LoadConfig(input: ConfigInput): (r: Result<Config, ConfigError>)
    ensures r.Ok? <==> input.Parsed? && input.cfg.serverUrl != ""
                       && input.cfg.authTokenSecretRef.name != "" && input.cfg.authTokenSecretRef.key != ""
    ensures r.Ok? ==> r.value == input.cfg
    ensures input.NoConfig? ==> r == Err(NoConfigProvided)
    ensures input.Undecodable? ==> r == Err(DecodeFailed)
    ensures input.Parsed? && input.cfg.serverUrl == "" ==> r == Err(MissingServerUrl)
    ensures r == Err(MissingAuthTokenSecretRef) <==>
              input.Parsed? && input.cfg.serverUrl != ""
              && (input.cfg.authTokenSecretRef.name == "" || input.cfg.authTokenSecretRef.key == "")
  {
    match input
    case NoConfig => Err(NoConfigProvided)
    case Undecodable => Err(DecodeFailed)
    case Parsed(cfg) =>
      if cfg.serverUrl == "" then Err(MissingServerUrl)
      else if cfg.authTokenSecretRef.name == "" || cfg.authTokenSecretRef.key == "" then Err(MissingAuthTokenSecretRef)
      else Ok(cfg)
  }
}
