# Databox container manager: a Dafny model

Databox runs personal-data apps and drivers as Docker swarm services. The
container manager installs them from a service-level agreement (SLA). For
each SLA it builds the service spec, creates the secrets the service
mounts, launches the store the workload depends on, asks core-network to
wire the networks, and records the workload's permissions with the
arbiter. It also restarts and uninstalls what it launched, and replays
the saved SLAs when it starts again. An HTTPS API fronts it:
- an authentication middleware, a session state machine keyed by a
  password;
- a proxy registry that forwards `/<name>/…` to the named container;
- the list, install, restart and uninstall handlers.

The repository ships two generations of most of these pieces. Both are
modelled, and the differences between them are stated as lemmas.

The project's modules:

- `Base`, `Url`, `Http`, `DataboxTypes`: the Go `strings` functions used,
  the scheme and authority parsing of Go's `net/url`, the HTTP values
  (requests, responses, cookies) and the forwarding step, and the SLA and
  Hypercat catalogue values.
- `CoreStoreClient`: the dealer endpoint a store client derives, the
  encoding of a data source's metadata as a Hypercat item, the decoder
  that reverses it, and the store URL recovered from a data source's href.
- `CMStoreClient`: the `CMStore` class. It keeps one SLA per name and the
  manager's password in a key-value data source.
- `Swarm`, `Collaborators`: the swarm platform (services, secrets, the
  containers each listing shows, tasks, image pulls) and the arbiter and
  core-network clients, as classes whose methods log the calls made.
- `Grants`: the arbiter permissions an SLA implies, shared by both
  manager generations.
- `ContainerManager`: the current manager. `LegacyContainerManager`: the
  earlier one.
- `DataboxAuth`, `LegacyDataboxAuth`: the two authentication middlewares.
- `ProxyMiddleware`, `DataboxProxy`: the proxy registry with its rewrite,
  and the earlier `/ui/{appurl}` proxy.
- `SecureServer`, `LegacySecureServer`: the two sets of HTTPS handlers.

Certain inputs are parameters or constant function fields:
- the certificate and token generators, base64 and JSON encoding;
- what the swarm shows at each container listing;
- the sessions that are minted;
- core-network's answers.

A Go panic (a nil dereference after an ignored error) is an explicit
outcome of the operation that causes it.

## Model

The earlier `secureServer.go` serves `/api/installed/list` and
`/api/{type}/list` with the same code as the current one
(src/containerManager/secureServer.go:60-143). `SecureServer.InstalledList`
and `SecureServer.TypeList` model both.

| member | source | states |
|---|---|---|
| Base.Split | src/databoxProxyMiddleware/databoxProxyMiddleware.go:37 | strings.Split always yields at least one piece |
| Base.JoinSplit | src/databoxProxy/databoxProxy.go:29-30 | joining the pieces of a split with the same separator gives the string back |
| Base.SplitPiecesHaveNoSep | src/databoxAuthMiddleware/databoxAuthMiddleware.go:36 | no piece of a split contains the separator |
| Base.SplitNoSep | src/databoxProxy/databoxProxy.go:29 | a string without the separator splits into itself alone |
| Base.SplitAtSep | src/databoxProxyMiddleware/databoxProxyMiddleware.go:37 | a separator-free prefix followed by the separator is the first piece, and the rest splits on its own |
| Base.IndexOf | src/lib-go-databox/coreStoreClient/coreStoreClient.go:40 | strings.Index: the position found is an occurrence and no earlier position is one; none found means no occurrence at all |
| Base.ReplaceFirst | src/lib-go-databox/coreStoreClient/coreStoreClient.go:40 | strings.Replace(s, old, new, 1): at the first position where the pattern occurs (no earlier occurrence) the pattern is replaced and the text around it kept; when it occurs nowhere the string is unchanged |
| Base.ToUpper | src/containerManager/containerManager/containerManager.go:638-642 | strings.ToUpper on ASCII text: the length is kept and each letter a-z becomes its capital, every other character unchanged |
| Url.Cut | src/lib-go-databox/coreStoreClient/coreStoreClient.go:209 | the text before the first delimiter, which holds none, and the text after it; the whole string when there is none |
| Url.LastIndexOf | src/containerManager/containerManager/containerManager.go:401 | the position found holds the character and none follows; none found means it does not occur |
| Url.Hostname | src/containerManager/containerManager/containerManager.go:401 | URL.Hostname() is a part of the host, never longer than it |
| Url.HostnameOfBracketed | src/containerManager/containerManager/containerManager.go:401 | the hostname of "[addr]:port" and of "[addr]" is addr: a digit port is cut off after the last colon, then the brackets are stripped |
| Url.ParseAbsolute | src/lib-go-databox/coreStoreClient/coreStoreClient.go:209 | url.Parse of any scheme://host/path built from plain parts gives exactly those parts, the scheme lower-cased (sections 3.1-3.3 of RFC 3986) |
| Url.HostnameOfPlainHost | src/containerManager/containerManager/containerManager.go:494-495 | the hostname of "name:port" and of "name" is name |
| CoreStoreClient.DealerEndpoint | src/lib-go-databox/coreStoreClient/coreStoreClient.go:40 | the dealer endpoint has the request endpoint's length; it is the endpoint itself when ":5555" does not occur, and otherwise differs only at the last digit of the first ":5555" |
| CoreStoreClient.ReplacedPortDigit | src/lib-go-databox/coreStoreClient/coreStoreClient.go:40 | where ":5555" occurs, the dealer endpoint holds ":5556" at that position |
| CoreStoreClient.DealerEndpointOfStore | src/lib-go-databox/coreStoreClient/coreStoreClient.go:39-40 | for the endpoint a workload is given, "tcp://<store>:5555", the dealer endpoint is "tcp://<store>:5556" |
| CoreStoreClient.New | src/lib-go-databox/coreStoreClient/coreStoreClient.go:26-47 | the request endpoint is kept as given, the dealer endpoint is derived from it, and an unreadable key file falls back to the built-in public key |
| CoreStoreClient.DataSourceMetadataToHypercat | src/lib-go-databox/coreStoreClient/coreStoreClient.go:96-132 | fails with "Missing required metadata" exactly when one of the six required fields is empty; otherwise the item holds the encoded metadata and the href endpoint/storeType/dataSourceID |
| CoreStoreClient.EncodedMetadataShape | src/lib-go-databox/coreStoreClient/coreStoreClient.go:108-126 | the encoded list starts with the six fixed pairs in their fixed order and holds isActuator, location and unit only when set, unit last |
| CoreStoreClient.DecodeStoreType | src/lib-go-databox/coreStoreClient/coreStoreClient.go:167-185 | the result is always one of kv, ts, ts/blob, and equals the input exactly when the input is one of them (anything else becomes ts/blob) |
| CoreStoreClient.ApplyItem | src/lib-go-databox/coreStoreClient/coreStoreClient.go:145-198 | a step that does not panic had an object with a string rel, and changes no field other than the one its rel names |
| CoreStoreClient.ApplyItemFields | src/lib-go-databox/coreStoreClient/coreStoreClient.go:145-198 | for an object with a string rel: an unknown rel changes nothing; a known rel panics exactly when its val has the wrong type (a bool for isActuator, a string otherwise) and otherwise sets its field to the val, the store type through the decoder's switch |
| CoreStoreClient.HypercatToDataSourceMetadata | src/lib-go-databox/coreStoreClient/coreStoreClient.go:136-204 | the decoding loop's outcome is the reference decoder's: the JSON error, a panic, or the metadata with the store URL of the href |
| CoreStoreClient.PanicPersists | src/lib-go-databox/coreStoreClient/coreStoreClient.go:145-146 | once one element panics the whole decoding panics |
| CoreStoreClient.ApplyAllAppend | src/lib-go-databox/coreStoreClient/coreStoreClient.go:145-199 | decoding a concatenation decodes the first part and continues from its result |
| CoreStoreClient.ApplyStringPair | src/lib-go-databox/coreStoreClient/coreStoreClient.go:147-196 | decoding an encoded string pair sets the field its rel names to its value |
| CoreStoreClient.DecodeEncodedMetadata | src/lib-go-databox/coreStoreClient/coreStoreClient.go:108-199 | decoding the JSON form of the encoded metadata restores every field, with the store type normalised |
| CoreStoreClient.DecodeOptional | src/lib-go-databox/coreStoreClient/coreStoreClient.go:116-126 | decoding the optional pairs restores isActuator, location and unit |
| CoreStoreClient.StoreUrlOfHref | src/lib-go-databox/coreStoreClient/coreStoreClient.go:207-216 | for any href scheme://host/path the store URL is scheme://host (scheme lower-cased, as url.Parse does), with the path dropped |
| CoreStoreClient.CatalogueRoundTrip | src/lib-go-databox/coreStoreClient/coreStoreClient.go:96-216 | registering complete metadata and decoding the JSON of the item gives back the metadata (store type normalised) and the store's scheme://host |
| CMStoreClient.Unlisted | src/containerManager/containerManager/cmStoreClient.go:72-74 | the listing after a delete holds exactly the other keys |
| CMStoreClient.CMStore.constructor | src/containerManager/containerManager/cmStoreClient.go:15-31 | a new store over an empty slaStore namespace |
| CMStoreClient.CMStore.Write | src/containerManager/containerManager/cmStoreClient.go:40 | a reachable store maps the key to the value (new keys listed last); an unreachable one errs and keeps everything |
| CMStoreClient.CMStore.SaveSLA | src/containerManager/containerManager/cmStoreClient.go:33-42 | an encoding failure is returned and nothing is written; otherwise the encoding is stored under sla.name, replacing any earlier value, and the write's error is returned |
| CMStoreClient.CMStore.GetAllSLAs | src/containerManager/containerManager/cmStoreClient.go:44-70 | a listing failure returns no SLAs and the error; otherwise the error is nil and the SLAs are those of every key that reads and decodes, in listing order, the others skipped |
| CMStoreClient.CMStore.DeleteSLA | src/containerManager/containerManager/cmStoreClient.go:72-74 | removes exactly the key `name` |
| CMStoreClient.CMStore.ClearSLADatabase | src/containerManager/containerManager/cmStoreClient.go:76-78 | empties the namespace, password included |
| CMStoreClient.CMStore.SavePassword | src/containerManager/containerManager/cmStoreClient.go:80-82 | stores the password text under CMPassword in the same namespace |
| CMStoreClient.CMStore.LoadPassword | src/containerManager/containerManager/cmStoreClient.go:84-87 | returns the stored text unchanged, the read error otherwise |
| CMStoreClient.UnlistedDistinct | src/containerManager/containerManager/cmStoreClient.go:72-74 | deleting keeps the key listing free of duplicates |
| CMStoreClient.CollectedHas | src/containerManager/containerManager/cmStoreClient.go:53-66 | an SLA stored under a key that reads and decodes is listed |
| CMStoreClient.CollectedFromStore | src/containerManager/containerManager/cmStoreClient.go:53-66 | every listed SLA is the decoding of a stored, readable value |
| CMStoreClient.SaveThenList | src/containerManager/containerManager/cmStoreClient.go:33-70 | after SaveSLA(s), GetAllSLAs lists an SLA equal to s when decoding inverts encoding |
| CMStoreClient.DeleteThenList | src/containerManager/containerManager/cmStoreClient.go:53-74 | after DeleteSLA(name) no listed SLA comes from the key `name` |
| Grants.Urls | src/containerManager/containerManager/containerManager.go:679-680 | the whitelist URLs, one per entry, in order |
| Grants.ExportCaveatTrailingComma | src/containerManager/containerManager/containerManager.go:678-685 | the destination caveat lists the URLs joined by commas followed by one more comma, since the guard i < len is always true |
| Grants.ExportGrants | src/containerManager/containerManager/containerManager.go:677-693 | one POST /export/ grant on export-service carrying the destination caveat when the SLA whitelists anything, none otherwise |
| Grants.JsonItemNeverActuator | src/containerManager/containerManager/containerManager.go:722-731 | a catalogue item that went through JSON holds no typed boolean pair, so the type switch never finds an actuator in it |
| Grants.DatasourceGrants | src/containerManager/containerManager/containerManager.go:716-758 | a data source whose href parses gets grants on its host for the workload, without caveats: three GETs, plus a POST exactly when it is an actuator; an href that does not parse panics |
| Grants.ReadGrants | src/containerManager/containerManager/containerManager.go:741-757 | the three read grants are the workload's GETs on the data source host, without caveats |
| Grants.DatasourcesGrants | src/containerManager/containerManager/containerManager.go:714-761 | the data source loop panics exactly when some href does not parse |
| Grants.DatasourcesGrantsScoped | src/containerManager/containerManager/containerManager.go:716-758 | every data source grant is the workload's own and carries no caveat |
| Grants.StoreGrants | src/containerManager/containerManager/containerManager.go:764-790 | the grants on the dependent store: four with DELETE (current version), three without (legacy), all without caveats on the store |
| Grants.StoreGrantsOwners | src/containerManager/containerManager.go:438-458 | the store grants belong to the workload except container-manager's GET /cat, and the DELETE grant is there exactly in the current version |
| Grants.DatasourcesGrantsStops | src/containerManager/containerManager/containerManager.go:716-718 | once a data source href fails to parse, no later data source gets grants |
| Grants.DatasourcesGrantsStep | src/containerManager/containerManager/containerManager.go:716-758 | a data source whose href parses appends its grants after those of the earlier ones |
| Grants.GrantExport | src/containerManager/containerManager/containerManager.go:677-693 | the arbiter's grants gain exactly the export grants; tokens unchanged |
| Grants.DetectActuator | src/containerManager/containerManager/containerManager.go:721-732 | the loop's flag is set exactly when a typed isActuator pair with value true is present |
| Grants.GrantDatasource | src/containerManager/containerManager/containerManager.go:717-757 | the arbiter's grants gain exactly that data source's grants, in order |
| Grants.GrantDatasources | src/containerManager/containerManager/containerManager.go:714-761 | the arbiter's grants gain the loop's grants, and the loop panics exactly as the reference function says |
| Grants.GrantStore | src/containerManager/containerManager/containerManager.go:764-790 | the arbiter's grants gain exactly the store grants |
| DataboxAuth.Authorise | src/containerManager/databoxAuthMiddleware/databoxAuthMiddleware.go:51-94 | a connect request gets 200 "connected" with the session cookie exactly when the Authorization header is "Token <password>", minting the session only when it is empty, and otherwise 401 with the session kept; any other request passes exactly when its cookie of that name equals the session, and otherwise gets 401 |
| DataboxAuth.Decide | src/containerManager/databoxAuthMiddleware/databoxAuthMiddleware.go:35-95 | a path with no second segment panics at parts[1]; a first segment among css, js, icons, img, "" and cordova.js passes with the session unchanged; any other request is authorised with the "session" cookie |
| DataboxAuth.DataboxAuthMiddleware.constructor | src/containerManager/databoxAuthMiddleware/databoxAuthMiddleware.go:24-31 | starts with an empty session and the given password |
| DataboxAuth.DataboxAuthMiddleware.Auth | src/containerManager/databoxAuthMiddleware/databoxAuthMiddleware.go:33-97 | the answer and the new session are those of the decision function applied to the old session |
| DataboxAuth.ConnectThenAccess | src/containerManager/databoxAuthMiddleware/databoxAuthMiddleware_test.go:68-107 | after a connect with the password, the session is the old one or the minted one; a later guarded request carrying the issued cookie passes, and a later connect gets the same session back |
| DataboxAuth.EmptyCookieBeforeConnect | src/containerManager/databoxAuthMiddleware/databoxAuthMiddleware.go:18-29 | before any connect, a guarded request carrying an empty "session" cookie passes |
| DataboxAuth.WrongPasswordRefused | src/containerManager/databoxAuthMiddleware/databoxAuthMiddleware.go:74-77 | a connect with any other Authorization header gets 401 and leaves the session unchanged |
| LegacyDataboxAuth.Decide | src/databoxAuthMiddleware/databoxAuthMiddleware.go:32-94 | paths of at most two segments and paths whose first segment is not "api" pass unauthenticated with the session unchanged; only /api/ paths are ever answered by the middleware, with the databox_session cookie |
| LegacyDataboxAuth.LegacyAuthMiddleware.constructor | src/databoxAuthMiddleware/databoxAuthMiddleware.go:21-28 | starts with an empty session and the given password |
| LegacyDataboxAuth.LegacyAuthMiddleware.Auth | src/databoxAuthMiddleware/databoxAuthMiddleware.go:30-97 | the answer and the new session are those of the decision function applied to the old session |
| LegacyDataboxAuth.ConnectThenApi | src/databoxAuthMiddleware/databoxAuthMiddleware.go:55-88 | /api/connect with the password sets a databox_session cookie holding the session, minted only when none existed, and that cookie then opens every other /api/ path |
| LegacyDataboxAuth.ApiWithoutCookieRefused | src/databoxAuthMiddleware/databoxAuthMiddleware.go:80-93 | once a session exists, an /api/ request other than connect without a databox_session cookie gets 401 and the session is unchanged |
| Http.CookieNamed | src/containerManager/databoxAuthMiddleware/databoxAuthMiddleware.go:82 | the cookie found has the requested name and was sent; none found means no cookie of that name was sent |
| Http.FirstValues | src/databoxProxyMiddleware/databoxProxyMiddleware.go:52-54 | every header keeps only its first value; a header with no value makes the copy fail (the Go code indexes value[0]) |
| Http.Forward | src/databoxProxyMiddleware/databoxProxyMiddleware.go:51-69 | forwarding never falls through; it sends the first value of each request header, and panics exactly when the target does not parse (nil request) or a request or response header has no value; a transport error gives 500 with the message, otherwise the upstream status, body and the first value of each response header |
| ProxyMiddleware.UpstreamOfPath | src/databoxProxyMiddleware/databoxProxyMiddleware.go:37-47 | a path "/name/rest" selects name, and its upstream is "https://name:8080/rest" |
| ProxyMiddleware.DataboxProxyMiddleware.constructor | src/databoxProxyMiddleware/databoxProxyMiddleware.go:20-28 | starts with an empty registry |
| ProxyMiddleware.DataboxProxyMiddleware.Proxy | src/databoxProxyMiddleware/databoxProxyMiddleware.go:35-70 | a path without a second segment panics; the request goes to the next handler exactly when its first segment is not registered |
| ProxyMiddleware.DataboxProxyMiddleware.Add | src/databoxProxyMiddleware/databoxProxyMiddleware.go:72-77 | the name is registered afterwards and nothing else changes, so adding twice is adding once |
| ProxyMiddleware.DataboxProxyMiddleware.Del | src/databoxProxyMiddleware/databoxProxyMiddleware.go:79-86 | the name is not registered afterwards and every other entry is kept; deleting an absent name changes nothing |
| ProxyMiddleware.DataboxProxyMiddleware.Exists | src/databoxProxyMiddleware/databoxProxyMiddleware.go:88-95 | true exactly when the name is registered |
| ProxyMiddleware.ProxyRegistered | src/databoxProxyMiddleware/databoxProxyMiddleware.go:41-47 | "/name/rest" is forwarded to https://name:8080/rest when name is registered, and handed to the next handler otherwise |
| DataboxProxy.UpstreamOfAppUrl | src/databoxProxy/databoxProxy.go:29-30 | appurl "name/rest" is sent to https://name:8080/rest |
| DataboxProxy.UpstreamOfName | src/databoxProxy/databoxProxy.go:30 | a single-segment appurl "name" is sent to https://name:8080/ |
| DataboxProxy.Proxy | src/databoxProxy/databoxProxy.go:27-53 | the handler never falls through: it answers or panics |
| DataboxProxy.ProxyForwards | src/databoxProxy/databoxProxy.go:27-53 | appurl "name/rest" is forwarded like the middleware forwards: first header values, 500 on a transport error, upstream status and body otherwise |
| Swarm.ServicesMatching | src/containerManager/containerManager/containerManager.go:262-267 | the name filter lists exactly the services whose name it is a prefix of, each once |
| Swarm.ServicesMatchingSorted | src/containerManager/containerManager/containerManager.go:262-267 | the filtered listing comes in name order, as the swarm's name index answers it |
| Swarm.ExactNameListedFirst | src/containerManager/containerManager/containerManager.go:262-276 | when a service has exactly the filter's name, the listing is non-empty and that service is its first entry, so serList[0] is the named service |
| Swarm.WorkloadListedBeforeStore | src/containerManager/containerManager/containerManager.go:262-276 | a workload created after its "<name>-<store>" store service is still listed first by its own name's filter |
| Swarm.ServiceNames | src/containerManager/containerManager/secureServer.go:116-120 | the names of the services, position by position |
| Swarm.TasksOf | src/containerManager/containerManager/secureServer.go:162-166 | the service filter lists exactly that service's tasks |
| Swarm.WithoutService | src/containerManager/containerManager/containerManager.go:276 | removing a service keeps exactly the services with other names |
| Swarm.WithoutServiceKeepsUnique | src/containerManager/containerManager/containerManager.go:276 | removing a service keeps service names unique |
| Swarm.Platform.constructor | src/containerManager/containerManager/containerManager.go:56 | a fresh swarm holds no services, secrets, tasks or pulls |
| Swarm.Platform.ServiceList | src/containerManager/containerManager/containerManager.go:264-267 | ServiceList with a name filter answers ServicesMatching |
| Swarm.Platform.AllServices | src/containerManager/containerManager/secureServer.go:143 | ServiceList without a filter answers every service |
| Swarm.Platform.ServiceCreate | src/containerManager/containerManager/containerManager.go:186-189 | ServiceCreate succeeds exactly when the name is free and not refused, and then appends the spec; names stay unique |
| Swarm.Platform.ServiceRemove | src/containerManager/containerManager/containerManager.go:276 | ServiceRemove takes out the named service and nothing else |
| Swarm.Platform.SecretList | src/containerManager/containerManager/containerManager.go:571-573 | SecretList with a name filter answers the ids of the secrets whose name it is a prefix of |
| Swarm.Platform.SecretListEither | src/containerManager/containerManager.go:555-561 | two name filters together list a secret when either one matches |
| Swarm.Platform.SecretRemove | src/containerManager/containerManager/containerManager.go:577 | SecretRemove succeeds exactly for a known secret that no service uses, and then removes only it |
| Swarm.Platform.SecretCreate | src/containerManager/containerManager/containerManager.go:588-591 | SecretCreate is refused, with an empty id, exactly when the name is taken; otherwise it adds the secret under a new id |
| Swarm.Platform.ContainerList | src/containerManager/containerManager/containerManager.go:217-220 | each listing answers what the swarm shows at that moment, and counts one more listing |
| Swarm.Platform.ContainerRemove | src/containerManager/containerManager/containerManager.go:236 | ContainerRemove fails exactly for a container that cannot be removed |
| Swarm.Platform.TaskList | src/containerManager/containerManager/secureServer.go:162-166 | TaskList with the service filter answers TasksOf |
| Swarm.Platform.ImagePull | src/containerManager/containerManager/containerManager.go:205 | the pulled reference is recorded, and nothing else changes |
| Collaborators.Arbiter.GrantContainerPermissions | src/containerManager/containerManager/containerManager.go:794-808 | a permission is recorded after the earlier ones |
| Collaborators.Arbiter.UpdateArbiter | src/containerManager/containerManager/containerManager.go:646 | a container's token is recorded after the earlier ones |
| Collaborators.CoreNetwork.PreConfig | src/containerManager/containerManager/containerManager.go:151 | PreConfig is recorded and answers the service's network configuration |
| Collaborators.CoreNetwork.ConnectEndpoints | src/containerManager/containerManager/containerManager.go:182 | ConnectEndpoints is recorded with its targets |
| Collaborators.CoreNetwork.ServiceRestart | src/containerManager/containerManager/containerManager.go:256 | ServiceRestart is recorded with both addresses and answers core-network's error |
| Collaborators.CoreNetwork.NetworkOfService | src/containerManager/containerManager/containerManager.go:273 | NetworkOfService is recorded and answers the service's network configuration |
| Collaborators.CoreNetwork.PostUninstall | src/containerManager/containerManager/containerManager.go:292 | PostUninstall is recorded with the configuration |
| ContainerManager.RequiredStoreName | src/containerManager/containerManager/containerManager.go:143-148 | the store name is empty exactly when the SLA asks for no store, and otherwise starts with the workload's name and "-", so it is never the workload's own name |
| ContainerManager.RegistryUrl | src/containerManager/containerManager/containerManager.go:390-409 | the registry prefix is either empty or the default registry with "/", and it is the default when the store URL is empty or does not parse |
| ContainerManager.RegistryOfStoreUrl | src/containerManager/containerManager/containerManager.go:395-405 | for a store URL scheme://host/path, the prefix is empty exactly when the host without its port is 127.0.0.1 or localhost |
| ContainerManager.StoreEnvDealer | src/containerManager/containerManager/containerManager.go:165-173 | the dealer endpoint given to a workload with a store is the one the store client derives from the request endpoint it is given |
| ContainerManager.DatasourceEnv | src/containerManager/containerManager/containerManager.go:488-493 | there is one DATASOURCE_ variable per data source |
| ContainerManager.WorkloadEnv | src/containerManager/containerManager/containerManager.go:164-173 | the workload environment is the configuration's variables, followed by exactly the two store endpoints when there is a store |
| ContainerManager.DatasourceHosts | src/containerManager/containerManager/containerManager.go:494-496 | the data-source hosts are missing exactly when some href does not parse |
| ContainerManager.DatasourceHostsComplete | src/containerManager/containerManager/containerManager.go:488-497 | when the hosts exist, every data source's href parses and its host is among them |
| ContainerManager.AfterCreateKeepsOthers | src/containerManager/containerManager/containerManager.go:569-603 | createSecret leaves every secret whose name its filter does not list present and unchanged |
| ContainerManager.ClearedLeavesOnlyUsed | src/containerManager/containerManager/containerManager.go:571-579 | after the removal pass, a listed secret survives only while a service uses it; every other secret survives unchanged |
| ContainerManager.ReferencedSecretsInUse | src/containerManager/containerManager/containerManager.go:280-290 | every secret that a listed service references is in use, so the platform refuses its removal |
| ContainerManager.UninstallLeavesCertificate | src/containerManager/containerManager/containerManager.go:276-290 | for a removed app holding certificate secret "c1", nothing references "c1", and the corrected removal pass drops it |
| ContainerManager.GeneratedNamesApart | src/containerManager/containerManager/containerManager.go:638-642 | neither the certificate secret's name nor the token secret's name is listed by the other's filter |
| ContainerManager.WhitelistHosts | src/containerManager/containerManager/containerManager.go:700-707 | the whitelist hosts, when present, have one entry per URL |
| ContainerManager.WhitelistHostsFail | src/containerManager/containerManager/containerManager.go:700-707 | the hosts are missing exactly when some URL does not parse |
| ContainerManager.WhitelistHostsAt | src/containerManager/containerManager/containerManager.go:700-707 | each host is the hostname of the URL at the same position |
| ContainerManager.ExternalConnects | src/containerManager/containerManager/containerManager.go:696-711 | there is at most one ConnectEndpoints call per whitelist, each for the workload itself |
| ContainerManager.ExternalConnectsStops | src/containerManager/containerManager/containerManager.go:696-711 | a whitelist with an unparsable URL panics, and no later whitelist is reached |
| ContainerManager.PermissionsScoped | src/containerManager/containerManager/containerManager.go:670-791 | every grant is the workload's own, except container-manager's GET /cat on the store; a completed pass gives a store-backed workload DELETE on its store; only drivers cause core-network calls |
| ContainerManager.BundleIsGenerated | src/containerManager/containerManager/containerManager.go:606-667 | the secret list is the root CA, the ZMQ public key, the certificate and the token, plus the ZMQ private key for stores only |
| ContainerManager.StoreSpec | src/containerManager/containerManager/containerManager.go:521-555 | the store service is named after the store, labelled store, uses the default store image at the version, has the arbiter and local-name variables, core-network's DNS and network, and a /database volume |
| ContainerManager.StoreCreatedBy | src/containerManager/containerManager/containerManager.go:554-564 | creating that spec appends exactly one store service and leaves the earlier ones in place |
| ContainerManager.DriverSpecIsConfig | src/containerManager/containerManager/containerManager.go:411-447 | the driver service is named after the SLA, labelled driver, uses the registry image, has the arbiter and local-name variables, core-network's DNS and network, and no mounts |
| ContainerManager.OfType | src/containerManager/containerManager/containerManager.go:353-366 | the filtered list holds exactly the SLAs of the given type |
| ContainerManager.ReloadOrder | src/containerManager/containerManager/containerManager.go:347-368 | reloadApps launches exactly the saved drivers and apps |
| ContainerManager.ReloadOrderDriversFirst | src/containerManager/containerManager/containerManager.go:352-366 | in reload order, no driver comes after an app |
| ContainerManager.NoMatchNoService | src/containerManager/containerManager/containerManager.go:512-519 | when the name filter lists nothing, no service of that name exists, so launchStore's create cannot duplicate one |
| ContainerManager.StopOutcomeCases | src/containerManager/containerManager/containerManager.go:217-243 | Restart stops a container exactly when one is listed and removable; the wait then fails exactly when eleven polls in a row are empty |
| ContainerManager.WorkloadSpecOfConfig | src/containerManager/containerManager/containerManager.go:164-173 | a configuration spec with the store variables added, when there is a store, is the workload spec |
| ContainerManager.AppConfigured | src/containerManager/containerManager/containerManager.go:157-159 | getAppConfig's result, taken for an app, is a configured workload |
| ContainerManager.DriverConfigured | src/containerManager/containerManager/containerManager.go:160-161 | getDriverConfig's result, taken for a driver, is a configured workload on the arbiter network |
| ContainerManager.ConfiguredIsReady | src/containerManager/containerManager/containerManager.go:164-179 | after the store step, a configured workload is ready: its spec, its secrets and its networks are exactly those the SLA requires |
| ContainerManager.ReplayedStops | src/containerManager/containerManager/containerManager.go:352-358 | a panic among the drivers ends the whole replay, so no app is launched |
| ContainerManager.ReplayedThen | src/containerManager/containerManager/containerManager.go:352-366 | the driver loop followed by the app loop replays the drivers, then the apps |
| ContainerManager.IpOnNetwork | src/containerManager/containerManager/containerManager.go:226-233 | the address found is on a network whose name contains the service name, or empty when there is none |
| ContainerManager.DatasourceConfig | src/containerManager/containerManager/containerManager.go:488-497 | the loop yields the data-source variables and hosts, or reports the panic when an href does not parse |
| ContainerManager.NetworkList | src/containerManager/containerManager/containerManager.go:499-505 | the networks to connect are exactly the keys of the required-network map, each once |
| ContainerManager.Manager.constructor | src/containerManager/containerManager/containerManager.go:54-78 | the manager holds the collaborators, the options and the three shared secret ids it was given |
| ContainerManager.Manager.ClearSecrets | src/containerManager/containerManager/containerManager.go:571-579 | the removal pass removes every secret the filter lists, except those in use, and touches nothing else on the platform |
| ContainerManager.Manager.CreateSecret | src/containerManager/containerManager/containerManager.go:569-603 | createSecret returns a reference with the given name and file; the new secret is the only one with that name when no listed secret was in use; an empty id means the create failed |
| ContainerManager.Manager.ContainerSecrets | src/containerManager/containerManager/containerManager.go:632-642 | the certificate and token secrets hold the generated data under their own names |
| ContainerManager.Manager.GenerateSecrets | src/containerManager/containerManager/containerManager.go:606-667 | genorateSecrets returns the secret bundle and registers the base64 token with the arbiter for the container and its type |
| ContainerManager.Manager.PullImage | src/containerManager/containerManager/containerManager.go:202-210 | the image is pulled from the default registry host, and nothing else changes |
| ContainerManager.Manager.CreateStoreService | src/containerManager/containerManager/containerManager.go:521-564 | when no store service exists, the store image is pulled, the store token is registered, and unless the platform refuses, exactly one store service is appended |
| ContainerManager.Manager.LaunchStore | src/containerManager/containerManager/containerManager.go:510-567 | launchStore changes nothing when the filter lists a service; otherwise it pulls the image, registers the token and creates the store service |
| ContainerManager.Manager.WhitelistHostList | src/containerManager/containerManager/containerManager.go:700-707 | the loop over one whitelist's URLs yields exactly WhitelistHosts |
| ContainerManager.Manager.ConnectExternal | src/containerManager/containerManager/containerManager.go:696-711 | core-network receives exactly the ExternalConnects calls, and the method panics exactly when they do |
| ContainerManager.Manager.AddPermissionsFromSLA | src/containerManager/containerManager/containerManager.go:670-791 | the arbiter receives exactly the SLA's grants, core-network exactly its external connects, and the method panics exactly when PermissionsFromSLA does |
| ContainerManager.Manager.WaitForContainer | src/containerManager/containerManager/containerManager.go:302-336 | it polls until a container shows; it fails with the timeout message exactly when timeout + 1 polls are empty, and otherwise returns the first container of the last poll |
| ContainerManager.Manager.RemoveAndWait | src/containerManager/containerManager/containerManager.go:225-243 | Restart notes the old address, then either cannot remove the container or removes it and waits ten polls for its replacement |
| ContainerManager.Manager.StopAndWait | src/containerManager/containerManager/containerManager.go:214-243 | a service without a listed container reports "not running" after one poll; otherwise its first container is removed and the replacement awaited |
| ContainerManager.Manager.NotifyRestart | src/containerManager/containerManager/containerManager.go:245-256 | core-network is told the old and the new address of the service, and its answer is the result |
| ContainerManager.Manager.ConcludeRestart | src/containerManager/containerManager/containerManager.go:235-256 | the stop outcome decides Restart's effect: errors end it; otherwise core-network is notified |
| ContainerManager.Manager.Restart | src/containerManager/containerManager/containerManager.go:213-257 | the corrected Restart reports "not running", cannot-remove or the timeout without calling core-network, and otherwise reports the ServiceRestart call with the old and new addresses; services and secrets stay unchanged |
| ContainerManager.Manager.RestartAsWritten | src/containerManager/containerManager/containerManager.go:213-256 | Restart as written panics exactly when the container was removed and no replacement shows in eleven polls, without calling core-network; in every other case its effect is the corrected Restart's |
| ContainerManager.Manager.ConcludeAsWritten | src/containerManager/containerManager/containerManager.go:241-256 | after the stop, a failed wait panics; otherwise the outcome is the corrected conclusion's |
| ContainerManager.Manager.DetachService | src/containerManager/containerManager/containerManager.go:262-277 | when the filter lists nothing, nothing is removed; otherwise the first listed service is removed after core-network is asked for its configuration; when a service has exactly that name, it is the one removed |
| ContainerManager.Manager.FinishUninstall | src/containerManager/containerManager/containerManager.go:292-294 | PostUninstall is called with the configuration, and the SLA is deleted from a reachable store |
| ContainerManager.Manager.RemoveListedSecrets | src/containerManager/containerManager/containerManager.go:279-290 | as written, the secret pass removes no secret at all |
| ContainerManager.Manager.CompleteAsWritten | src/containerManager/containerManager/containerManager.go:279-297 | after the removal, Uninstall as written keeps every service and secret, calls PostUninstall with the configuration and deletes the SLA from a reachable store |
| ContainerManager.Manager.UninstallAsWritten | src/containerManager/containerManager/containerManager.go:260-297 | "not running" and no change when nothing is listed; otherwise the first listed service is removed (the service named exactly `name` whenever one exists, even beside its "<name>-<store>" store), core-network gets NetworkOfService then PostUninstall, the SLA is deleted from a reachable store, and every secret survives |
| ContainerManager.Manager.CompleteUninstall | src/containerManager/containerManager/containerManager.go:279-297 | after the removal, the corrected pass clears the removed service's certificate and token secrets that no remaining service uses, calls PostUninstall and deletes the SLA from a reachable store |
| ContainerManager.Manager.Uninstall | src/containerManager/containerManager/containerManager.go:260-297 | the corrected Uninstall removes the first listed service (the one named exactly `name` whenever it exists) and also clears that service's certificate and token secrets, as createSecret's removal pass does |
| ContainerManager.Manager.DriverConfig | src/containerManager/containerManager/containerManager.go:411-447 | getDriverConfig returns the driver's configuration spec with its secret bundle, and the networks ["arbiter"] |
| ContainerManager.Manager.AppConfig | src/containerManager/containerManager/containerManager.go:449-508 | getAppConfig panics exactly when an href does not parse; otherwise it returns the app's configuration spec with its secret bundle and networks without repeats: arbiter, export-service and each data-source host |
| ContainerManager.Manager.WorkloadConfig | src/containerManager/containerManager/containerManager.go:153-162 | the type switch gives no spec exactly for a type that is neither app nor driver, and panics exactly where getAppConfig does |
| ContainerManager.Manager.AttachStore | src/containerManager/containerManager/containerManager.go:164-179 | the store step appends the two store variables and the store's network, and keeps every existing service |
| ContainerManager.Manager.Submit | src/containerManager/containerManager/containerManager.go:181-189 | ConnectEndpoints is called with the networks, the image is pulled, and the service is added unless it exists or is refused |
| ContainerManager.Manager.Register | src/containerManager/containerManager/containerManager.go:191-195 | the SLA's permissions are granted and, unless they panic, the SLA is saved to a reachable store |
| ContainerManager.Manager.Deploy | src/containerManager/containerManager/containerManager.go:181-199 | the second half of LaunchFromSLA submits the spec, grants the permissions and saves the SLA |
| ContainerManager.Manager.Complete | src/containerManager/containerManager/containerManager.go:164-179 | a configured workload, after the store step, is ready for its SLA |
| ContainerManager.Manager.Build | src/containerManager/containerManager/containerManager.go:153-179 | for an app or a driver, the configuration is either a panic exactly when an href does not parse, or a ready spec named after the SLA |
| ContainerManager.Manager.Prepare | src/containerManager/containerManager/containerManager.go:150-184 | the first half of LaunchFromSLA panics exactly for an unknown type or a bad href; otherwise it yields a spec ready for the SLA |
| ContainerManager.Manager.LaunchFromSLA | src/containerManager/containerManager/containerManager.go:138-200 | LaunchFromSLA panics exactly when LaunchPanics. A launch that completes submits a ready spec, makes the core-network calls PreConfig, ConnectEndpoints and the external connects, grants the SLA's permissions, and saves the SLA |
| ContainerManager.Manager.LaunchOne | src/containerManager/containerManager/containerManager.go:353-357 | one reload pass launches the SLA and registers its name with the proxy unless the launch panicked |
| ContainerManager.Manager.LaunchAll | src/containerManager/containerManager/containerManager.go:353-358 | one reload loop replays the SLAs of one type in order, stopping at a panic |
| ContainerManager.Manager.ReloadApps | src/containerManager/containerManager/containerManager.go:347-368 | reloadApps replays the saved SLAs, drivers then apps, each launch starting with PreConfig; the proxy gains every name launched without a panic |
| LegacyContainerManager.ArchOf | src/containerManager/containerManager.go:61-65 | ARCH is "arm" exactly when GOARCH is arm, and empty otherwise |
| LegacyContainerManager.AppTargets | src/containerManager/containerManager.go:179-202 | launchApp's endpoints are missing exactly when a data-source href does not parse; otherwise they include every data-source host and, when there is one, the store |
| LegacyContainerManager.AppTargetsExact | src/containerManager/containerManager.go:179-202 | each data source's host is an endpoint, and the only other endpoint is the store |
| LegacyContainerManager.Permissions | src/containerManager/containerManager.go:361-459 | addPermissionsFromSla panics exactly for an app with an href that does not parse |
| LegacyContainerManager.DatasourcesGrantsReadOrWrite | src/containerManager/containerManager.go:388-435 | every data-source grant is a GET or a POST |
| LegacyContainerManager.PermissionsNeverDelete | src/containerManager/containerManager.go:361-459 | the earlier manager never grants DELETE, and every grant is the workload's own, except container-manager's GET /cat on the store |
| LegacyContainerManager.DriverStoreUngranted | src/containerManager/containerManager.go:86-138 | a driver whose SLA names no store still gets the store "<name>-" (plus ARCH), yet none of its grants concern that store |
| LegacyContainerManager.UninstallDropsCertificate | src/containerManager/containerManager.go:552-564 | once the service is gone, the earlier Uninstall removes the app's certificate secret "c1" |
| LegacyContainerManager.TokenNameStillFree | src/containerManager/containerManager.go:331-335 | creating the certificate secret does not take the token secret's name |
| LegacyContainerManager.GeneratedKeeps | src/containerManager/containerManager.go:276-359 | addSecrets removes nothing; the only new secrets are the certificate and the token, each holding its generated content |
| LegacyContainerManager.Manager.constructor | src/containerManager/containerManager.go:42-71 | the manager holds the collaborators, the version and the shared secret ids, with ARCH taken from GOARCH |
| LegacyContainerManager.Manager.CreateSecret | src/containerManager/containerManager.go:278-299 | createSecret is a plain SecretCreate: the id is empty exactly when the name is taken, and otherwise the new secret is added |
| LegacyContainerManager.Manager.AddSecrets | src/containerManager/containerManager.go:276-359 | addSecrets returns the secret bundle, creates the certificate and token secrets without removing any, and registers the token with the arbiter |
| LegacyContainerManager.Manager.Submit | src/containerManager/containerManager.go:130-133 | ServiceCreate adds the spec unless its name is taken or refused; the error is only logged |
| LegacyContainerManager.Manager.LaunchStore | src/containerManager/containerManager.go:223-274 | launchStore always submits the store service, whose image is databoxsystems/<store>:<version>, without looking for an existing one |
| LegacyContainerManager.Manager.AddPermissionsFromSla | src/containerManager/containerManager.go:361-459 | the arbiter receives exactly the SLA's grants, and the method panics exactly when Permissions does |
| LegacyContainerManager.Manager.SubmitDriver | src/containerManager/containerManager.go:119-133 | the driver service is submitted with the two store variables appended |
| LegacyContainerManager.Manager.WorkloadSecrets | src/containerManager/containerManager.go:90-108 | core-network is asked for the workload's configuration, then the workload's secrets are generated |
| LegacyContainerManager.Manager.StartDriver | src/containerManager/containerManager.go:90-123 | the driver's secrets are generated, then its store is launched |
| LegacyContainerManager.Manager.ConnectAndGrant | src/containerManager/containerManager.go:135-137 | ConnectEndpoints is called with the targets, then the permissions are granted |
| LegacyContainerManager.Manager.FinishDriver | src/containerManager/containerManager.go:125-137 | the driver service is submitted, connected to its store, and granted its permissions |
| LegacyContainerManager.Manager.LaunchDriver | src/containerManager/containerManager.go:86-138 | launchDriver always submits a store and then the driver. It makes the core-network calls PreConfig and ConnectEndpoints to the store, registers both tokens, and grants the SLA's permissions |
| LegacyContainerManager.Manager.StoreForApp | src/containerManager/containerManager.go:192-202 | when the SLA names a store, the app gets the store service, its two variables and its endpoint; otherwise nothing changes |
| LegacyContainerManager.Manager.SubmitApp | src/containerManager/containerManager.go:176-208 | the optional store is submitted, then the app service |
| LegacyContainerManager.Manager.WireApp | src/containerManager/containerManager.go:210-219 | ConnectEndpoints is called exactly when there are targets, each listed once; then the permissions are granted |
| LegacyContainerManager.Manager.FinishApp | src/containerManager/containerManager.go:192-219 | after the data-source loop, launchApp submits the store and the app, connects each endpoint once, and grants the permissions |
| LegacyContainerManager.Manager.LaunchApp | src/containerManager/containerManager.go:140-221 | launchApp panics exactly when an href does not parse, after PreConfig and the secrets and before any service is submitted. Otherwise it submits the optional store and the app, connects exactly AppTargets, and grants the permissions |
| LegacyContainerManager.Manager.LaunchFromSLA | src/containerManager/containerManager.go:73-84 | the earlier LaunchFromSLA panics only for an app with an unparsable href; a type that is neither app nor driver changes nothing |
| LegacyContainerManager.Manager.WaitForReplacement | src/containerManager/containerManager.go:505-524 | the wait returns the timeout error exactly when eleven polls in a row are empty |
| LegacyContainerManager.Manager.RemoveAndWait | src/containerManager/containerManager.go:490-524 | the container either cannot be removed, or its address is noted, it is removed and its replacement awaited |
| LegacyContainerManager.Manager.StopAndWait | src/containerManager/containerManager.go:478-524 | a service with no container reports "not running"; otherwise its first container is removed and the replacement awaited |
| LegacyContainerManager.Manager.ConcludeRestart | src/containerManager/containerManager.go:526-537 | errors are returned without a core-network call; otherwise core-network is told the old address and the replacement's address |
| LegacyContainerManager.Manager.Restart | src/containerManager/containerManager.go:477-538 | the earlier Restart reports "not running", cannot-remove or the timeout without calling core-network; otherwise it reports core-network's answer to the ServiceRestart call |
| LegacyContainerManager.Manager.RemoveListed | src/containerManager/containerManager.go:562-564 | every listed secret is removed unless a service still references it |
| LegacyContainerManager.Manager.Uninstall | src/containerManager/containerManager.go:540-567 | the earlier Uninstall removes the first listed service (the one named exactly `name` whenever it exists, ahead of its store), then every secret that starts with its certificate or token name and that no remaining service uses; "not running" when nothing is listed |
| SecureServer.FirstLatestUnique | src/containerManager/containerManager/secureServer.go:167-176 | at most one task is the first of those updated last |
| SecureServer.FirstLatestExists | src/containerManager/containerManager/secureServer.go:167-176 | whenever a service has tasks, one of them is the first of those updated last |
| SecureServer.LatestTask | src/containerManager/containerManager/secureServer.go:167-181 | the latest-task loop finds nothing exactly when there are no tasks, and otherwise the first task that no other task postdates |
| SecureServer.Listed | src/containerManager/containerManager/secureServer.go:146-156 | /api/{type}/list reports exactly the services whose databox.type label is present and equal to the type |
| SecureServer.Row | src/containerManager/containerManager/secureServer.go:157-181 | a row carries the service's name, the requested type and its latest task's states, or empty states when it has no task |
| SecureServer.TypeList | src/containerManager/containerManager/secureServer.go:138-192 | one row per listed service, in the platform's unfiltered listing order, each reporting that service; answered 200 with the JSON of the rows |
| SecureServer.InstalledList | src/containerManager/containerManager/secureServer.go:110-128 | every service's name in the platform's unfiltered listing order, answered 200 with their JSON |
| SecureServer.ServeSecure | src/containerManager/containerManager/secureServer.go:37-44 | the proxy starts out forwarding only to the arbiter, and the authentication middleware has the fixed password and no session |
| SecureServer.ArbiterForwarded | src/containerManager/containerManager/secureServer.go:37-39 | once set up, /arbiter/<rest> is forwarded to https://arbiter:8080/<rest> |
| SecureServer.Launch | src/containerManager/containerManager/secureServer.go:214-216 | install sees only a panic from LaunchFromSLA; its returned error is ignored |
| SecureServer.Install | src/containerManager/containerManager/secureServer.go:194-224 | a body that does not decode gets 400 with the decoder's message and changes nothing. Otherwise the name joins the proxy, the SLA is launched, and the answer is 200 Success unless the launch panicked |
| SecureServer.Restart | src/containerManager/containerManager/secureServer.go:226-262 | malformed JSON or an empty id gets its 400 body and restarts nothing; otherwise Restart as written runs: the handler panics exactly when Restart does, and otherwise Restart's effect holds, its error comes back as 400 with the message and success as 200 Success |
| SecureServer.Uninstall | src/containerManager/containerManager/secureServer.go:264-300 | malformed JSON or an empty id gets its 400 body and changes nothing. Otherwise the name leaves the proxy and Uninstall as written runs: 400 with "not running" exactly when nothing matches; otherwise the first match is removed, core-network gets NetworkOfService then PostUninstall, the SLA is deleted when the store is reachable, every secret stays, and nothing is written; when a service has exactly that name, it is the one removed and the answer is the empty 200 |
| SecureServer.RelayUninstall | src/containerManager/containerManager/secureServer.go:290-297 | relays Uninstall as written and answers its error as 400 with the message, or writes nothing on success |
| LegacySecureServer.Launch | src/containerManager/secureServer.go:159 | the earlier install's launch panics exactly for an app with an href that does not parse |
| LegacySecureServer.Install | src/containerManager/secureServer.go:145-165 | a body that does not decode gets an empty 200 and launches nothing; otherwise the SLA is launched and the answer is 200 Success unless the launch panicked |
| LegacySecureServer.Restart | src/containerManager/secureServer.go:167-169 | the earlier restart handler does nothing and answers an empty 200 |
| LegacySecureServer.Uninstall | src/containerManager/secureServer.go:171-173 | the earlier uninstall handler does nothing and answers an empty 200 |

## Left out

- Base.ToUpper: upper-cases ASCII letters only, where Go's strings.ToUpper also maps other Unicode letters; the secret names it builds come from container names, which Docker restricts to ASCII.
- Start, launchCMStore and genoratePassword (src/containerManager/containerManager/containerManager.go:80-135, 338-388) are left out. They bootstrap the manager against the daemon and draw a random password.
- The Docker daemon, the arbiter and core-network are not implemented here. They are classes that keep state and log calls. Swarm rescheduling is a function giving what each container listing shows.
- ContainerList, ServiceList and TaskList errors are ignored in the source, so the model's listings never fail.
- ContainerManager.Manager.Uninstall and ContainerManager.Manager.UninstallAsWritten: never return an error after the service is found. The source returns the second ServiceList's error, which the model's platform never produces.
- LegacyContainerManager.Manager.Uninstall: returns no error after the service is found. The source returns SecretList's error, which the model's platform never produces.
- The ImagePull failure, which exits the process through log.ChkErrFatal, is not modelled. Pulls always succeed and are logged.
- `time.Sleep` and the seconds in the timeout message are not modelled. A wait is counted in container listings.
- Go map iteration order is a nondeterministic choice. It decides Restart's address pick, the order of getAppConfig's network list and the order of launchApp's endpoints. The model constrains the set, not the order.
- JSON encoding and decoding are abstract functions. A handler receives what json.Unmarshal made of its body.
- URL parsing follows Go's scheme and authority rules without percent-decoding. Go's checks on the characters of a host and of an IPv6 zone are not modelled.
- Docker's `name` filter is modelled as a prefix match on the name. Its fuzzier matching on ids is left out.
- Swarm.ServicesMatching: matches and orders names byte by byte. The swarm's name index lower-cases names before it matches a prefix or orders them, so the two agree only where the names involved do not mix upper and lower case.
- Swarm.Platform.AllServices: the unfiltered listing is in the order the services were created. The daemon answers it in its own order (by service ID), so the row order of SecureServer.InstalledList and SecureServer.TypeList is the model's creation order, not the daemon's.
- ServiceRemove is modelled by name; the source removes by the listed service's ID, which names the same unique service.
- The ghost `requested` log on the platform records every spec submitted to ServiceCreate. It exists only to state what was submitted.
- The legacy NewContainerManager's RegisterPrivileged call (src/containerManager/containerManager.go:68) is a network call with no effect on the model's state and is left out.
- NewCMStore's RegisterDatasource call is a store-side registration and is left out.
- The HTTP handlers for /api/cmlogs, /api/datasource/list and /api/store/cat/{store} are left out. They read logs or query stores over the network. The same goes for the static file server and the ListenAndServeTLS call.
- gorilla/mux routing and the middleware chain are not modelled. Each handler and middleware is a separate member.
- net/http recovers from a handler's panic. The model reports the panic as the outcome and stops there.
- The mutexes that guard the middlewares' state are not modelled; the model is sequential.
- Cookie attributes other than name and value (Domain, Path, Expires) are not modelled.
- The current ServeSecure builds the authentication middleware with the fixed password "qwertyuiop" (src/containerManager/containerManager/secureServer.go:41). The password Start generates and saves is not used there, and the model follows the code.
- The earlier ServeSecure calls databoxProxy.New with a certificate path, while New takes no argument (src/databoxProxy/databoxProxy.go:18-25). The model follows New's definition.
- Two of the authentication middleware's tests expect 401 where the code lets the request through. Both send the real `session` cookie: src/containerManager/databoxAuthMiddleware/databoxAuthMiddleware_test.go:109-128 and 168-181. The model follows the code.
- ContainerManager.Manager.AttachStore: says only that existing services are kept. What launchStore creates is stated by ContainerManager.Manager.LaunchStore, and the store wait's outcome is ignored, as in the source.
- LegacyContainerManager.Manager.LaunchFromSLA: states the panic condition, that another type changes nothing, and the grants. The services, secrets and core-network calls of a launch are stated by LegacyContainerManager.Manager.LaunchApp and LegacyContainerManager.Manager.LaunchDriver.
- The earlier Restart's inline polling loop is modelled as the separate method LegacyContainerManager.Manager.WaitForReplacement.
- The ZeroMQ transport of the core-store client (write, read, observe) and the KV/TS store wrappers are not part of this model.
- The certificate generators are not part of this model; their output is a function of the container name.

## Findings

The /api/restart and /api/uninstall handlers (SecureServer.Restart, SecureServer.Uninstall) call Restart and Uninstall as written, so the panic and the surviving secrets below reach them; the corrected members are stated beside the as-written ones.

| source | as written | input that shows it | evidently intended | confidence | as-written member | corrected member |
|---|---|---|---|---|---|---|
| src/containerManager/containerManager/containerManager.go:241-254 | Restart only logs WaitForContainer's timeout error, then reads the network settings of the empty container it returned | a service whose container is removed and whose replacement does not show within eleven polls | return the timeout error, as the earlier Restart does | not executed | ContainerManager.Manager.RestartAsWritten | ContainerManager.Manager.Restart |
| src/containerManager/containerManager/containerManager.go:279-290 | Uninstall removes the secrets referenced by the services the name filter lists after the service was removed, so the removed service's secrets are never removed and those of any remaining match are refused | an app "app" holding its certificate secret "c1" (ContainerManager.UninstallLeavesCertificate) | remove the removed service's own certificate and token secrets, as the earlier Uninstall does by name | not executed | ContainerManager.Manager.UninstallAsWritten | ContainerManager.Manager.Uninstall |
