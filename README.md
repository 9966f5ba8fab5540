# Technitium DNS-01 webhook: decision layer

This project models the decision logic of a cert-manager DNS-01 webhook
that publishes ACME challenge tokens as TXT records on a Technitium DNS
server, and proves properties of it in Dafny. The model covers:

- **Zone discovery** (`findAuthoritativeZone`). The FQDN loses one trailing
  dot and is split into labels. Candidate zones drop left-most labels, most
  specific first. Each candidate is looked up, and the first one the server
  reports with status `"ok"` and not disabled wins. A failed lookup skips that
  candidate. When nothing qualifies, the error names the original FQDN.
- **TXT record create/delete** (`createTXTRecord`, `deleteTXTRecord`). Both
  build the form and post it, then classify the answer. Create succeeds only
  on `"ok"`. Delete also succeeds when the lower-cased error message contains
  `"not found"`, which makes deleting an absent record succeed.
- **Config validation** (`loadConfig`), applied to the decoded configuration.
- **Challenge coordination** (`createConnectorFromChallenge`,
  `getTokenFromSecret`, `Present`, `CleanUp`, `Name`). Errors are checked in
  a fixed order: config, then secret, then zone. The TTL defaults to 60. A
  zone supplied by the caller is used verbatim; otherwise the zone is
  discovered.

The DNS server is an abstract oracle. The zone lookup is a function
`(Connector, candidate) -> LookupOutcome`, where the outcome is a transport
error, a read error, a parse error, or a decoded `(status, disabled)`. The
record endpoints are a function `(Connector, RecordOp, Form) -> PostOutcome`,
where the outcome is one of the same three failures or a decoded
`(status, errorMessage)`. The Kubernetes secret store is a map from
`(namespace, name)` to the secret's data.

Files, one module each, leaves first:

- `outcomes.dfy` holds `Option`, `Result` and `Outcome`.
- `go_strings.dfy` holds the Go string operations the code uses:
  `TrimSuffix(s, ".")`, `Split` and `Join` on `"."`, `ToLower`, `Contains`,
  and `%d` formatting. Each comes with its partner: the split/join round
  trips, a reference definition of `Contains`, and a parser inverse of `%d`.
- `technitium_api.dfy` holds the connector value and the abstract server
  outcomes.
- `zone_search.dfy` models `findAuthoritativeZone` in two forms: a spec
  function, and an imperative `for` loop proved equal to it. The loop sits
  in its own method, `SearchCandidates`, which receives the label list.
- `record_manager.dfy` holds the forms, the response classification, and
  imperative create/delete methods that fill the form one field at a time.
- `provider_config.dfy` models `loadConfig`.
- `solver.dfy` models main.go's solver. Preparation appears both as a
  function and as an imperative method proved equal to it. `Present` and
  `CleanUp` are functions.

Where the source's own comments and its code disagree, the model follows the
code:

- The comment on `Zone` (main.go:46) describes it as the zone to put the TXT
  record in, with automatic discovery when it is unset. But
  `createConnectorFromChallenge` (main.go:110-142) never reads it, so it does
  not override zone discovery; only the challenge's `ResolvedZone` does.
  `Solver.ConfigZoneIgnored` states this.
- The zone lookup decodes the zone's `name`, `type` and `dnssecStatus`, but
  the code uses only `status` and `disabled`. It returns the candidate it
  asked about, not the zone name the server sent back. The model does the same.

## Model

| member | source | states |
|---|---|---|
| `GoStrings.TrimDot` | technitium_connector.go:44 | exactly one trailing dot is removed when present; otherwise the string is unchanged |
| `GoStrings.Split` | technitium_connector.go:47 | splitting on "." always gives at least one part, and no part contains a dot |
| `GoStrings.JoinSplit` | technitium_connector.go:47-51 | joining the parts of a split with "." gives back the split string |
| `GoStrings.Join` | technitium_connector.go:51 | joins labels with "."; its partners `JoinSplit` and `SplitJoin` make it the inverse of `Split` in both directions |
| `GoStrings.SplitJoin` | technitium_connector.go:47-51 | splitting a join of dot-free labels gives back the labels |
| `GoStrings.ToLower` | technitium_connector.go:204 | keeps the length and lower-cases each character on its own (ASCII letters; see Left out) |
| `GoStrings.Contains` | technitium_connector.go:204 | the left-to-right substring scan; its partner `ContainsIffOccurs` ties it to "occurs at some position" |
| `GoStrings.ContainsIffOccurs` | technitium_connector.go:204 | the substring test holds iff the substring occurs at some position |
| `GoStrings.FormatInt` | technitium_connector.go:115 | the `%d` rendering is non-empty, starts with '-' iff the number is negative, and is digits after that |
| `GoStrings.ParseFormatInt` | technitium_connector.go:115 | the decimal rendering of the TTL reads back as the same integer |
| `TechnitiumApi.NewConnector` | technitium_connector.go:34-39 | the connector holds exactly the given server URL and token |
| `ZoneSearch.Labels` | technitium_connector.go:44-47 | the labels of the FQDN without its trailing dot: at least one, none containing a dot, and joined with "." they give back the trimmed FQDN |
| `ZoneSearch.Candidates` | technitium_connector.go:44-51 | there are exactly as many candidates as labels |
| `ZoneSearch.FirstCandidateIsDomain` | technitium_connector.go:44-51 | the first candidate is the whole FQDN without its trailing dot |
| `ZoneSearch.CandidateStep` | technitium_connector.go:47-51 | candidate i is label i, a dot, and candidate i+1 |
| `ZoneSearch.LastCandidateIsLastLabel` | technitium_connector.go:47-51 | the last candidate is the right-most label alone |
| `ZoneSearch.CandidatesShrink` | technitium_connector.go:49-51 | each later candidate is a suffix of every earlier one and strictly shorter, so candidates run from most to least specific |
| `ZoneSearch.Qualifies` | technitium_connector.go:90 | a lookup qualifies when it decoded with status "ok" and the zone is not disabled; its partners `NeverDisabledOrNotOk` and `OnlyQualificationMatters` show it is the only test the search applies |
| `ZoneSearch.FirstMatch` | technitium_connector.go:49-93 | returns the index of a qualifying candidate with none qualifying before it, and returns none iff no candidate qualifies |
| `ZoneSearch.FindZone` | technitium_connector.go:42-96 | succeeds iff some candidate qualifies, returning the first qualifying one; otherwise the error names the original FQDN |
| `ZoneSearch.FindAuthoritativeZone` | technitium_connector.go:42-96 | stripping the dot, splitting into labels and searching gives exactly the specified search result |
| `ZoneSearch.SearchCandidates` | technitium_connector.go:49-95 | the indexed loop over the labels, with `continue` on each lookup failure and an early return on the first qualifying candidate, gives exactly the specified search result |
| `ZoneSearch.ErrorText` | technitium_connector.go:95 | the not-found error text ends with the FQDN it names |
| `ZoneSearch.NeverDisabledOrNotOk` | technitium_connector.go:90-92 | a returned zone was looked up, decoded with status "ok", and is not disabled |
| `ZoneSearch.MostSpecificWins` | technitium_connector.go:49-92 | any other qualifying candidate is a strictly shorter suffix of the returned zone |
| `ZoneSearch.OnlyQualificationMatters` | technitium_connector.go:58-92 | the search depends only on which candidates qualify, so a failed lookup counts the same as a non-qualifying answer |
| `ZoneSearch.FailedLookupSkipped` | technitium_connector.go:58-87 | a transport, read or parse failure on one candidate gives the same result as a non-ok answer there, so the search goes on |
| `ZoneSearch.ErrorTextNamesFqdn` | technitium_connector.go:95 | the not-found error text contains the FQDN it was given |
| `ZoneSearch.NothingQualifies` | technitium_connector.go:49-95 | when no candidate qualifies, the result is the not-found error naming the original FQDN, trailing dot included |
| `ZoneSearch.AllTransportErrors` | technitium_connector.go:58-95 | when every lookup fails at the transport level, the result is the not-found error for the FQDN, not a transport error |
| `ZoneSearch.FirstMatchIsResult` | technitium_connector.go:49-92 | a candidate that qualifies with none qualifying before it is exactly what the search returns |
| `ZoneSearch.FiveLabels` | technitium_connector.go:44-47 | a dot-terminated name made of five dot-free labels yields those five labels |
| `ZoneSearch.NestedZoneScenario` | technitium_connector.go:42-96 | with zones m.d.e and d.e both enabled, the search for a.b.m.d.e. returns m.d.e, not the broader d.e |
| `RecordManager.AddForm` | technitium_connector.go:110-117 | the add form; its partner `AddFormFields` gives its exact field set and values, with a ttl that reads back as the TTL |
| `RecordManager.DeleteForm` | technitium_connector.go:166-172 | the delete form; its partner `DeleteFormIsAddFormWithoutTtl` shows it is the add form without ttl |
| `RecordManager.AddFormFields` | technitium_connector.go:99-117 | the add form has exactly the fields token, domain, zone, type=TXT, ttl, text=value and splitText=false; domain and zone lose at most one trailing dot, and ttl reads back as the TTL |
| `RecordManager.DeleteFormIsAddFormWithoutTtl` | technitium_connector.go:155-172 | the delete form is the add form without its ttl field |
| `RecordManager.IsNotFoundMessage` | technitium_connector.go:204 | a message means "record absent" iff "not found" occurs somewhere in its lower-cased text |
| `RecordManager.NotFoundAnyCase` | technitium_connector.go:204 | any spelling of "not found", in any case and anywhere in the message, is recognised as an absent record |
| `RecordManager.ClassifyCreate` | technitium_connector.go:120-151 | create succeeds iff the answer decoded with status "ok"; each failure kind maps to its own error, and a non-ok status carries the server's message |
| `RecordManager.ClassifyDelete` | technitium_connector.go:176-212 | delete succeeds iff the answer decoded and either the status is "ok" or the message says "not found"; any other non-ok answer is an error carrying the message, and transport, read and parse failures are always errors |
| `RecordManager.DeleteIsCreateOrNotFound` | technitium_connector.go:201-209 | delete classifies an answer the same way as create, except that a decoded "not found" message is a success |
| `RecordManager.CreateResult` | technitium_connector.go:99-151 | posting the add form for (zone, fqdn, value, ttl) succeeds iff the server answers "ok"; any other decoded answer is an error carrying the server's message |
| `RecordManager.DeleteResult` | technitium_connector.go:155-212 | posting the delete form for (zone, fqdn, value) succeeds iff the server answers "ok" or with a "not found" message; any other decoded answer is an error carrying the message |
| `RecordManager.CreateTXTRecord` | technitium_connector.go:99-152 | filling the form one field at a time and returning at the first failure posts the add form and succeeds iff the server answers "ok" |
| `RecordManager.DeleteTXTRecord` | technitium_connector.go:155-213 | posts the delete form and succeeds iff the server answers "ok" or with a "not found" message |
| `ProviderConfig.LoadConfig` | technitium_connector.go:277-298 | succeeds with the decoded config iff a config was given, it decoded, and serverUrl, the secret's name and its key are all non-empty; each failure has its own error, in the code's order |
| `Solver.Name` | main.go:54-56 | the solver's name is always "technitium" |
| `Solver.GetTokenFromSecret` | main.go:145-165 | returns exactly the data under the configured key of the configured secret in the namespace; errors when the name or key is empty, the secret cannot be fetched, or the key is absent |
| `Solver.LoadedConfigNamesSecret` | main.go:145-151 | after a successful loadConfig, the empty name/key check of getTokenFromSecret never fires |
| `Solver.EffectiveTtl` | main.go:122-126 | the TTL is the configured one when positive and 60 otherwise, so it is always at least 1 |
| `Solver.Prepare` | main.go:110-142 | a prepared TTL is at least 1, and a caller-supplied zone is used verbatim |
| `Solver.CreateConnectorFromChallenge` | main.go:110-142 | updating ttl and zone step by step, with early returns, gives exactly the specified preparation |
| `Solver.PrepareSteps` | main.go:110-142 | config errors win over secret errors, which win over zone errors; on success the connector is (serverUrl, token), the TTL is defaulted, and the zone is the caller's or the discovered one |
| `Solver.ResolvedZoneSkipsDiscovery` | main.go:130-139 | with a caller-supplied zone, the zone-lookup server makes no difference to the result |
| `Solver.ConfigZoneIgnored` | main.go:110-142 | the configuration's zone field has no effect on preparation |
| `Solver.Present` | main.go:59-75 | a preparation error is returned as is; otherwise Present succeeds iff the add request for (zone, ResolvedFQDN, Key, ttl) is answered "ok" |
| `Solver.CleanUp` | main.go:78-94 | a preparation error is returned as is; otherwise CleanUp succeeds iff the delete request for (zone, ResolvedFQDN, Key) is answered "ok" or "not found" |
| `Solver.PresentPostsChallenge` | main.go:62-68 | the record Present asks for has the challenge key as its unsplit TXT text, the FQDN and zone without trailing dot, and a TTL of at least 1 |
| `Solver.PresentDefaultsTtlTo60` | main.go:122-126 | with no positive configured TTL, Present's form carries ttl "60" |
| `Solver.ConfigErrorStopsEverything` | main.go:111-114 | after a config error, the secrets, the zone lookups and the record server all make no difference to Present and CleanUp |
| `Solver.SecretErrorStopsDiscoveryAndRecords` | main.go:116-120 | after a secret error, the zone lookups and the record server make no difference |
| `Solver.ZoneErrorStopsRecords` | main.go:132-137 | after a zone-discovery error, the record server makes no difference to Present or CleanUp, and the error names the challenge's FQDN |
| `Solver.CleanUpIgnoresTtl` | main.go:81-87 | CleanUp does not depend on the configured TTL |
| `Solver.CleanUpOfAbsentRecordSucceeds` | main.go:78-94 | when the server answers the delete with a "not found" message (any case, any status), CleanUp succeeds, so a repeated CleanUp does not fail |

## Left out

- The shared HTTP client and its transport settings (timeouts, pool size, compression): network configuration, replaced by the server oracles.
- Issuing the GET/POST requests, `io.ReadAll` and `json.Unmarshal`: these are I/O and library decoding, so each appears only as its outcome.
- `url.QueryEscape` and endpoint URL formatting: library encoding. An endpoint is the connector plus a `RecordOp` (or the candidate, for lookups).
- All `klog` logging and the `fmt.Println` of the delete form: side-effecting output.
- The per-iteration `defer resp.Body.Close()`: resource management with no effect on the result.
- `getTXTRecords`: it is commented out in the source.
- `main`, the `GROUP_NAME` environment read and `RunWebhookServer`: process bootstrap.
- `Initialize` (building the Kubernetes clientset, setting `client` and `connectorCreator`): a foreign API. The model builds the connector with `NewConnector`, the factory that `Initialize` installs, and does not model calling an uninitialised solver.
- The Kubernetes `Secrets(...).Get` call: replaced by the map; an absent `(namespace, name)` stands for any fetch failure.
- `string(keyBytes)`: secret values are modelled as strings, with no byte-to-string conversion.
- Error message texts other than the zone-not-found one: errors are datatype values, and Go's `fmt.Errorf` wrapping text is not modelled.
- `loadConfig` also hands back the partly decoded config on error; every caller discards it, so the model returns only the error.
- The zone's `name`, `type` and `dnssecStatus` in the lookup answer: the code never reads them.
- Go's 64-bit `int` for the TTL: integers are unbounded. An out-of-range number would fail JSON decoding, which is outside the model.
- Concurrency and the shared transport's thread safety: the model is sequential.
- main_test.go: a conformance fixture that needs a live DNS server.
- GoStrings.ToLower: lower-cases only the ASCII letters A-Z, while Go's `strings.ToLower` also lower-cases other Unicode letters. Its one use, `IsNotFoundMessage`, is unaffected: in Go's case mappings only U+0130 (to 'i') and U+212A (to 'k') lower-case to ASCII from outside it, neither letter occurs in "not found", so the predicate agrees with `strings.Contains(strings.ToLower(m), "not found")` on every message.
