/** The challenge coordinator (`technitiumDNSProviderSolver`): for each
    challenge it loads the configuration, reads the API token from a secret,
    defaults the TTL, picks the zone (the caller's, or by discovery) and then
    creates (`Present`) or deletes (`CleanUp`) the TXT record holding the key. */
module Solver {
  import opened Outcomes
  import opened GoStrings
  import opened TechnitiumApi
  import opened ZoneSearch
  import opened RecordManager
  import opened ProviderConfig

  /** The solver's name, under which the webhook routes challenges to it. */
  function Name(): (name: string)
    ensures name == "technitium"
  {
    "technitium"
  }

  /** The parts of cert-manager's `ChallengeRequest` that the solver reads. */
  datatype ChallengeRequest = ChallengeRequest(
    resolvedFqdn: string,
    resolvedZone: string,
    key: string,
    resourceNamespace: string,
    config: ConfigInput)

  /** The Kubernetes secrets the solver can read: (namespace, name) to the
      secret's data. A pair that is absent stands for any failed fetch. */
  type SecretStore = map<(string, string), map<string, string>>

  datatype SecretError =
    | SecretNameOrKeyMissing
    | SecretFetchFailed(namespace: string, secretName: string)
    | KeyNotInSecret(missingKey: string, inSecret: string)

  /** `getTokenFromSecret`: the value under the configured key of the
      configured secret in `namespace`. */
  function GetTokenFromSecret(cfg: Config, namespace: string, secrets: SecretStore): (r: Result<string, SecretError>)
    ensures var name, key := cfg.authTokenSecretRef.name, cfg.authTokenSecretRef.key;
            && (r.Ok? <==> name != "" && key != "" && (namespace, name) in secrets && key in secrets[(namespace, name)])
            && (r.Ok? ==> r.value == secrets[(namespace, name)][key])
            && (name == "" || key == "" ==> r == Err(SecretNameOrKeyMissing))
            && (name != "" && key != "" && (namespace, name) !in secrets ==> r == Err(SecretFetchFailed(namespace, name)))
            && (name != "" && key != "" && (namespace, name) in secrets && key !in secrets[(namespace, name)]
                ==> r == Err(KeyNotInSecret(key, name)))
  {
    var name := cfg.authTokenSecretRef.name;
    var key := cfg.authTokenSecretRef.key;
    if name == "" || key == "" then Err(SecretNameOrKeyMissing)
    else if (namespace, name) !in secrets then Err(SecretFetchFailed(namespace, name))
    else if key !in secrets[(namespace, name)] then Err(KeyNotInSecret(key, name))
    else Ok(secrets[(namespace, name)][key])
  }

  /** A configuration that passed `loadConfig` never hits the "name or key
      not provided" check of `getTokenFromSecret`. */
  lemma LoadedConfigNamesSecret(input: ConfigInput, namespace: string, secrets: SecretStore)
    requires LoadConfig(input).Ok?
    ensures GetTokenFromSecret(LoadConfig(input).value, namespace, secrets) != Err(SecretNameOrKeyMissing)
  {
  }

  /** The TTL handed to record creation: the configured one when positive,
      60 otherwise. */
  function EffectiveTtl(configured: int): (ttl: int)
    ensures ttl >= 1
    ensures configured > 0 ==> ttl == configured
    ensures configured <= 0 ==> ttl == 60
  {
    if configured > 0 then configured else 60
  }

  /** What `createConnectorFromChallenge` hands back on success. */
  datatype Prepared = Prepared(connector: Connector, zone: string, ttl: int)

  datatype SolverError =
    | ConfigLoadFailed(configCause: ConfigError)
    | AuthTokenFailed(secretCause: SecretError)
    | ZoneLookupFailed(fqdn: string, zoneCause: ZoneError)
    | CreateRecordFailed(createCause: RecordError)
    | DeleteRecordFailed(deleteCause: RecordError)

  /** What `createConnectorFromChallenge(ch)` returns, against the secret
      store `secrets` and the zone-lookup server `lookup`. */
  function Prepare(ch: ChallengeRequest, secrets: SecretStore, lookup: (Connector, string) -> LookupOutcome)
    : (r: Result<Prepared, SolverError>)
    ensures r.Ok? ==> r.value.ttl >= 1
    ensures r.Ok? && ch.resolvedZone != "" ==> r.value.zone == ch.resolvedZone
  {
    match LoadConfig(ch.config)
    case Err(e) => Err(ConfigLoadFailed(e))
    case Ok(cfg) =>
      match GetTokenFromSecret(cfg, ch.resourceNamespace, secrets)
      case Err(e) => Err(AuthTokenFailed(e))
      case Ok(token) =>
        var connector := NewConnector(cfg.serverUrl, token);
        var ttl := EffectiveTtl(cfg.ttl);
        if ch.resolvedZone != "" then Ok(Prepared(connector, ch.resolvedZone, ttl))
        else match FindZone(connector, ch.resolvedFqdn, lookup)
          case Err(e) => Err(ZoneLookupFailed(ch.resolvedFqdn, e))
          case Ok(zone) => Ok(Prepared(connector, zone, ttl))
  }

  /** `createConnectorFromChallenge`: config, then token, then TTL default,
      then the zone, returning at the first failure. */
  method CreateConnectorFromChallenge(ch: ChallengeRequest, secrets: SecretStore,
                                      lookup: (Connector, string) -> LookupOutcome)
    returns (r: Result<Prepared, SolverError>)
    ensures r == Prepare(ch, secrets, lookup)
  {
    var loaded := LoadConfig(ch.config);
    if loaded.Err? {
      return Err(ConfigLoadFailed(loaded.error));
    }
    var cfg := loaded.value;
    var authToken := GetTokenFromSecret(cfg, ch.resourceNamespace, secrets);
    if authToken.Err? {
      return Err(AuthTokenFailed(authToken.error));
    }
    var ttl := 60;
    if cfg.ttl > 0 {
      ttl := cfg.ttl;
    }
    var connector := NewConnector(cfg.serverUrl, authToken.value);
    var zone := ch.resolvedZone;
    if zone == "" {
      var found := FindAuthoritativeZone(connector, ch.resolvedFqdn, lookup);
      if found.Err? {
        return Err(ZoneLookupFailed(ch.resolvedFqdn, found.error));
      }
      zone := found.value;
    }
    return Ok(Prepared(connector, zone, ttl));
  }

  /** Each step of the preparation, and the order in which their failures
      win: config, then secret, then zone discovery. */
  lemma PrepareSteps(ch: ChallengeRequest, secrets: SecretStore, lookup: (Connector, string) -> LookupOutcome)
    ensures LoadConfig(ch.config).Err? ==> Prepare(ch, secrets, lookup) == Err(ConfigLoadFailed(LoadConfig(ch.config).error))
    ensures LoadConfig(ch.config).Ok? ==>
              var cfg := LoadConfig(ch.config).value;
              var token := GetTokenFromSecret(cfg, ch.resourceNamespace, secrets);
              && (token.Err? ==> Prepare(ch, secrets, lookup) == Err(AuthTokenFailed(token.error)))
              && (token.Ok? ==>
                    var connector := Connector(cfg.serverUrl, token.value);
                    var ttl := if cfg.ttl <= 0 then 60 else cfg.ttl;
                    && (ch.resolvedZone != "" ==> Prepare(ch, secrets, lookup) == Ok(Prepared(connector, ch.resolvedZone, ttl)))
                    && (ch.resolvedZone == "" ==>
                          var found := FindZone(connector, ch.resolvedFqdn, lookup);
                          && (found.Err? ==> Prepare(ch, secrets, lookup) == Err(ZoneLookupFailed(ch.resolvedFqdn, NoAuthoritativeZone(ch.resolvedFqdn))))
                          && (found.Ok? ==> Prepare(ch, secrets, lookup) == Ok(Prepared(connector, found.value, ttl)))))
  {
  }

  /** A caller-supplied zone is used as it is: zone discovery is not consulted,
      so the zone-lookup server makes no difference. */
  lemma ResolvedZoneSkipsDiscovery(ch: ChallengeRequest, secrets: SecretStore,
                                   l1: (Connector, string) -> LookupOutcome,
                                   l2: (Connector, string) -> LookupOutcome)
    requires ch.resolvedZone != ""
    ensures Prepare(ch, secrets, l1) == Prepare(ch, secrets, l2)
  {
  }

  /** The configuration's own `zone` field plays no part in preparing a
      challenge. */
  lemma ConfigZoneIgnored(ch: ChallengeRequest, secrets: SecretStore, lookup: (Connector, string) -> LookupOutcome, zone: string)
    requires ch.config.Parsed?
    ensures Prepare(ch.(config := Parsed(ch.config.cfg.(zone := zone))), secrets, lookup) == Prepare(ch, secrets, lookup)
  {
  }

  /** `Present`: prepare, then create the TXT record holding the key under
      the challenge's FQDN. A preparation error is returned as it is; a
      creation error is wrapped. */
  function Present(ch: ChallengeRequest, secrets: SecretStore,
                   lookup: (Connector, string) -> LookupOutcome,
                   post: (Connector, RecordOp, Form) -> PostOutcome): (r: Outcome<SolverError>)
    ensures Prepare(ch, secrets, lookup).Err? ==> r == Fail(Prepare(ch, secrets, lookup).error)
    ensures r.Pass? <==>
              && Prepare(ch, secrets, lookup).Ok?
              && var p := Prepare(ch, secrets, lookup).value;
                 var response := post(p.connector, AddRecord, AddForm(p.connector, p.zone, ch.resolvedFqdn, ch.key, p.ttl));
                 response.Replied? && response.status == "ok"
  {
    match Prepare(ch, secrets, lookup)
    case Err(e) => Fail(e)
    case Ok(p) =>
      match CreateResult(p.connector, p.zone, ch.resolvedFqdn, ch.key, p.ttl, post)
      case Fail(e) => Fail(CreateRecordFailed(e))
      case Pass => Pass
  }

  /** `CleanUp`: prepare, then delete the TXT record holding the key; the
      prepared TTL is not used. */
  function CleanUp(ch: ChallengeRequest, secrets: SecretStore,
                   lookup: (Connector, string) -> LookupOutcome,
                   post: (Connector, RecordOp, Form) -> PostOutcome): (r: Outcome<SolverError>)
    ensures Prepare(ch, secrets, lookup).Err? ==> r == Fail(Prepare(ch, secrets, lookup).error)
    ensures r.Pass? <==>
              && Prepare(ch, secrets, lookup).Ok?
              && var p := Prepare(ch, secrets, lookup).value;
                 var response := post(p.connector, DeleteRecord, DeleteForm(p.connector, p.zone, ch.resolvedFqdn, ch.key));
                 response.Replied? && (response.status == "ok" || IsNotFoundMessage(response.errorMessage))
  {
    match Prepare(ch, secrets, lookup)
    case Err(e) => Fail(e)
    case Ok(p) =>
      match DeleteResult(p.connector, p.zone, ch.resolvedFqdn, ch.key, post)
      case Fail(e) => Fail(DeleteRecordFailed(e))
      case Pass => Pass
  }

  /** The record `Present` asks for: the challenge key as the unsplit TXT
      value, under the challenge's FQDN in the prepared zone (both without
      trailing dot), with the prepared TTL, which is at least 1. */
  lemma PresentPostsChallenge(ch: ChallengeRequest, secrets: SecretStore, lookup: (Connector, string) -> LookupOutcome)
    requires Prepare(ch, secrets, lookup).Ok?
    ensures var p := Prepare(ch, secrets, lookup).value;
            var f := AddForm(p.connector, p.zone, ch.resolvedFqdn, ch.key, p.ttl);
            && f["text"] == ch.key && f["type"] == "TXT" && f["splitText"] == "false"
            && f["domain"] == TrimDot(ch.resolvedFqdn) && f["zone"] == TrimDot(p.zone)
            && ParseInt(f["ttl"]) >= 1
  {
    var p := Prepare(ch, secrets, lookup).value;
    AddFormFields(p.connector, p.zone, ch.resolvedFqdn, ch.key, p.ttl);
  }

  /** A configuration without a positive TTL makes `Present` ask for TTL 60. */
  lemma PresentDefaultsTtlTo60(ch: ChallengeRequest, secrets: SecretStore, lookup: (Connector, string) -> LookupOutcome)
    requires Prepare(ch, secrets, lookup).Ok?
    requires ch.config.Parsed? && ch.config.cfg.ttl <= 0
    ensures var p := Prepare(ch, secrets, lookup).value;
            AddForm(p.connector, p.zone, ch.resolvedFqdn, ch.key, p.ttl)["ttl"] == "60"
  {
    assert FormatInt(60) == FormatNat(6) + [DigitChar(0)];
  }

  /** An earlier failure stops everything after it: once the configuration is
      rejected, neither the secrets, the zone lookups nor the record server
      make any difference. */
  lemma ConfigErrorStopsEverything(ch: ChallengeRequest,
                                   s1: SecretStore, l1: (Connector, string) -> LookupOutcome, p1: (Connector, RecordOp, Form) -> PostOutcome,
                                   s2: SecretStore, l2: (Connector, string) -> LookupOutcome, p2: (Connector, RecordOp, Form) -> PostOutcome)
    requires LoadConfig(ch.config).Err?
    ensures Present(ch, s1, l1, p1) == Present(ch, s2, l2, p2) == Fail(ConfigLoadFailed(LoadConfig(ch.config).error))
    ensures CleanUp(ch, s1, l1, p1) == CleanUp(ch, s2, l2, p2) == Fail(ConfigLoadFailed(LoadConfig(ch.config).error))
  {
  }

  /** Once the token cannot be read, neither the zone lookups nor the record
      server make any difference. */
  lemma SecretErrorStopsDiscoveryAndRecords(ch: ChallengeRequest, secrets: SecretStore,
                                            l1: (Connector, string) -> LookupOutcome, p1: (Connector, RecordOp, Form) -> PostOutcome,
                                            l2: (Connector, string) -> LookupOutcome, p2: (Connector, RecordOp, Form) -> PostOutcome)
    requires LoadConfig(ch.config).Ok?
    requires GetTokenFromSecret(LoadConfig(ch.config).value, ch.resourceNamespace, secrets).Err?
    ensures var e := AuthTokenFailed(GetTokenFromSecret(LoadConfig(ch.config).value, ch.resourceNamespace, secrets).error);
            Present(ch, secrets, l1, p1) == Present(ch, secrets, l2, p2) == Fail(e)
            && CleanUp(ch, secrets, l1, p1) == CleanUp(ch, secrets, l2, p2) == Fail(e)
  {
  }

  /** Once zone discovery fails, the record server makes no difference. */
  lemma ZoneErrorStopsRecords(ch: ChallengeRequest, secrets: SecretStore, lookup: (Connector, string) -> LookupOutcome,
                              p1: (Connector, RecordOp, Form) -> PostOutcome, p2: (Connector, RecordOp, Form) -> PostOutcome)
    requires Prepare(ch, secrets, lookup).Err? && Prepare(ch, secrets, lookup).error.ZoneLookupFailed?
    ensures Present(ch, secrets, lookup, p1) == Present(ch, secrets, lookup, p2) == Fail(Prepare(ch, secrets, lookup).error)
    ensures CleanUp(ch, secrets, lookup, p1) == CleanUp(ch, secrets, lookup, p2) == Fail(Prepare(ch, secrets, lookup).error)
    ensures Prepare(ch, secrets, lookup).error.fqdn == ch.resolvedFqdn
  {
  }

  /** `CleanUp` does not depend on the configured TTL. */
  lemma CleanUpIgnoresTtl(ch: ChallengeRequest, secrets: SecretStore, lookup: (Connector, string) -> LookupOutcome,
                          post: (Connector, RecordOp, Form) -> PostOutcome, ttl: int)
    requires ch.config.Parsed?
    ensures CleanUp(ch.(config := Parsed(ch.config.cfg.(ttl := ttl))), secrets, lookup, post) == CleanUp(ch, secrets, lookup, post)
  {
  }

  /** Deleting is idempotent: when the server answers the delete of an already
      absent record with a message saying "not found", in any case and
      whatever the status, `CleanUp` succeeds. */
  lemma CleanUpOfAbsentRecordSucceeds(ch: ChallengeRequest, secrets: SecretStore, lookup: (Connector, string) -> LookupOutcome,
                                      post: (Connector, RecordOp, Form) -> PostOutcome, i: nat, j: nat)
    requires Prepare(ch, secrets, lookup).Ok?
    requires var p := Prepare(ch, secrets, lookup).value;
             var response := post(p.connector, DeleteRecord, DeleteForm(p.connector, p.zone, ch.resolvedFqdn, ch.key));
             response.Replied? && i <= j <= |response.errorMessage| && ToLower(response.errorMessage[i..j]) == "not found"
    ensures CleanUp(ch, secrets, lookup, post) == Pass
  {
    var p := Prepare(ch, secrets, lookup).value;
    var response := post(p.connector, DeleteRecord, DeleteForm(p.connector, p.zone, ch.resolvedFqdn, ch.key));
    NotFoundAnyCase(response.errorMessage, i, j);
  }
}
