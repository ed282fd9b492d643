/** The container manager: it turns a databox SLA into swarm services (the
    app or driver, and the store it depends on), the secrets they mount, the
    network wiring core-network performs and the permissions the arbiter
    records, and it restarts and uninstalls what it launched. The platform,
    the arbiter, core-network and the SLA store are the collaborator objects
    it holds; certificate and token generation, base64 and JSON encoding are
    functions it is given. */
module ContainerManager {
  import opened Base
  import opened DataboxTypes
  import opened Swarm
  import opened Collaborators
  import opened CMStoreClient
  import opened Grants
  import ProxyMiddleware
  import CoreStoreClient
  import Url

  /** ContainerManagerOptions: the registry images come from, the host the
      pull prepends, the store image and the version tag. */
  datatype Options = Options(defaultRegistry: string, defaultRegistryHost: string,
                             defaultStoreImage: string, version: string)

  /** ARCH: multi-architecture support is switched off, so it is empty. */
  const Arch: string := ""

  // ---------------------------------------------------------------------
  // Names, registry and environment
  // ---------------------------------------------------------------------

  function LocalContainerName(sla: SLA): string
  {
    sla.name + Arch
  }

  /** The store's name is empty exactly when the SLA asks for no store;
      otherwise it extends the workload's name with "-", so Docker's name
      filter for the workload also lists its store. */
  function RequiredStoreName(sla: SLA): (n: string)
    ensures n == [] <==> sla.store == []
    ensures n != [] ==> HasPrefix(n, LocalContainerName(sla) + "-") && n != LocalContainerName(sla)
  {
    if sla.store == [] then [] else sla.name + "-" + sla.store + Arch
  }

  predicate IsLocalHost(h: string)
  {
    h == "127.0.0.1" || h == "localhost"
  }

  /** calculateRegistryUrlFromSLA: the default registry followed by "/",
      or nothing when the SLA came from a store on this machine. */
  function RegistryUrl(defaultRegistry: string, storeUrl: string): (r: string)
    ensures r == [] || r == defaultRegistry + "/"
    ensures storeUrl == [] || Url.Parse(storeUrl).Err? ==> r == defaultRegistry + "/"
  {
    if storeUrl == [] then defaultRegistry + "/"
    else
      match Url.Parse(storeUrl)
      case Err(_) => defaultRegistry + "/"
      case Ok(u) => if IsLocalHost(Url.Hostname(u)) then [] else defaultRegistry + "/"
  }

  /** For a store URL scheme://host/path the registry is empty exactly when
      the host, port removed, is 127.0.0.1 or localhost. */
  lemma RegistryOfStoreUrl(defaultRegistry: string, scheme: string, host: string, path: string)
    requires Url.ValidScheme(scheme) && Url.PlainHost(host) && Url.PlainPath(path)
    requires forall i :: 0 <= i < |scheme| ==> !Url.IsControl(scheme[i])
    ensures RegistryUrl(defaultRegistry, scheme + "://" + host + path) ==
      if IsLocalHost(Url.Hostname(Url.Url([], [], host, []))) then [] else defaultRegistry + "/"
  {
    Url.ParseAbsolute(scheme, host, path);
  }

  const ArbiterEnv: string := "DATABOX_ARBITER_ENDPOINT=https://arbiter:8080"
  const ExportServiceEnv: string := "DATABOX_EXPORT_SERVICE_ENDPOINT=https://export-service:8080"

  function StoreEndpoint(storeName: string): string
  {
    "tcp://" + storeName + ":5555"
  }

  /** The two variables a workload with a store is given. */
  function StoreEnv(storeName: string): seq<string>
  {
    ["DATABOX_ZMQ_ENDPOINT=tcp://" + storeName + ":5555",
     "DATABOX_ZMQ_DEALER_ENDPOINT=tcp://" + storeName + ":5556"]
  }

  /** The dealer endpoint a workload is given is the one the store client
      derives from the request endpoint it is given. */
  lemma StoreEnvDealer(storeName: string)
    requires ':' !in storeName
    ensures StoreEnv(storeName) == ["DATABOX_ZMQ_ENDPOINT=" + StoreEndpoint(storeName),
      "DATABOX_ZMQ_DEALER_ENDPOINT=" + CoreStoreClient.DealerEndpoint(StoreEndpoint(storeName))]
  {
    CoreStoreClient.DealerEndpointOfStore(storeName);
    StoreEnvSplit(storeName);
  }

  /** Each store variable is its name, '=' and an endpoint. */
  lemma StoreEnvSplit(storeName: string)
    ensures StoreEnv(storeName) == ["DATABOX_ZMQ_ENDPOINT=" + ("tcp://" + storeName + ":5555"),
      "DATABOX_ZMQ_DEALER_ENDPOINT=" + ("tcp://" + storeName + ":5556")]
  {
    assert "DATABOX_ZMQ_ENDPOINT=tcp://" + storeName + ":5555" ==
      "DATABOX_ZMQ_ENDPOINT=" + ("tcp://" + storeName + ":5555");
    assert "DATABOX_ZMQ_DEALER_ENDPOINT=tcp://" + storeName + ":5556" ==
      "DATABOX_ZMQ_DEALER_ENDPOINT=" + ("tcp://" + storeName + ":5556");
  }

  /** One DATASOURCE_<clientid> variable per data source, holding its
      catalogue item as JSON. */
  function DatasourceEnv(dss: seq<Datasource>, hypercatJson: HypercatItem -> string): (env: seq<string>)
    ensures |env| == |dss|
  {
    if dss == [] then []
    else
      var ds := dss[|dss| - 1];
      DatasourceEnv(dss[..|dss| - 1], hypercatJson) + ["DATASOURCE_" + ds.clientId + "=" + hypercatJson(ds.hypercat)]
  }

  /** The environment getAppConfig or getDriverConfig builds. */
  function ConfigEnv(sla: SLA, hypercatJson: HypercatItem -> string): seq<string>
  {
    [ArbiterEnv, "DATABOX_LOCAL_NAME=" + LocalContainerName(sla)] +
    (if sla.databoxType == DataboxTypeApp then [ExportServiceEnv] + DatasourceEnv(sla.datasources, hypercatJson) else [])
  }

  /** The workload's whole environment: the configuration's variables and,
      with a store, exactly the two store variables after them. */
  function WorkloadEnv(sla: SLA, hypercatJson: HypercatItem -> string): (env: seq<string>)
    ensures |env| == |ConfigEnv(sla, hypercatJson)| + (if sla.store == [] then 0 else 2)
    ensures env[..|ConfigEnv(sla, hypercatJson)|] == ConfigEnv(sla, hypercatJson)
    ensures sla.store != [] ==> env[|env| - 2..] == StoreEnv(RequiredStoreName(sla))
  {
    ConfigEnv(sla, hypercatJson) + (if sla.store == [] then [] else StoreEnv(RequiredStoreName(sla)))
  }

  /** The hosts of the data sources' hrefs; None when one does not parse. */
  function DatasourceHosts(dss: seq<Datasource>): (r: Option<set<string>>)
    ensures r.None? <==> exists i :: 0 <= i < |dss| && Url.Parse(dss[i].hypercat.href).Err?
  {
    if dss == [] then Some({})
    else
      var init := dss[..|dss| - 1];
      var prev := DatasourceHosts(init);
      UnparsableSplit(dss, init);
      var parsed := Url.Parse(dss[|dss| - 1].hypercat.href);
      if prev.None? || parsed.Err? then None
      else Some(prev.value + {Url.Hostname(parsed.value)})
  }

  /** Some data source's href does not parse exactly when one among all but
      the last does, or the last one does. */
  lemma UnparsableSplit(dss: seq<Datasource>, init: seq<Datasource>)
    requires dss != [] && init == dss[..|dss| - 1]
    ensures (exists i :: 0 <= i < |dss| && Url.Parse(dss[i].hypercat.href).Err?) <==>
      (exists i :: 0 <= i < |init| && Url.Parse(init[i].hypercat.href).Err?) ||
      Url.Parse(dss[|dss| - 1].hypercat.href).Err?
  {
    assert forall i :: 0 <= i < |init| ==> init[i] == dss[i];
  }

  /** The data-source loop's step: the first i + 1 data sources add the
      i-th one's host to those of the first i. */
  lemma DatasourceHostsNext(dss: seq<Datasource>, i: nat)
    requires i < |dss|
    ensures DatasourceHosts(dss[..i + 1]) ==
      if DatasourceHosts(dss[..i]).None? || Url.Parse(dss[i].hypercat.href).Err? then None
      else Some(DatasourceHosts(dss[..i]).value + {Url.Hostname(Url.Parse(dss[i].hypercat.href).value)})
  {
    assert dss[..i + 1][..i] == dss[..i];
  }

  /** The same step for the DATASOURCE_ variables. */
  lemma DatasourceEnvNext(dss: seq<Datasource>, i: nat, hypercatJson: HypercatItem -> string)
    requires i < |dss|
    ensures DatasourceEnv(dss[..i + 1], hypercatJson) ==
      DatasourceEnv(dss[..i], hypercatJson) + ["DATASOURCE_" + dss[i].clientId + "=" + hypercatJson(dss[i].hypercat)]
  {
    assert dss[..i + 1][..i] == dss[..i];
  }

  /** One href that does not parse leaves the data sources without hosts. */
  lemma DatasourceHostsFailAt(dss: seq<Datasource>, i: nat)
    requires i < |dss| && Url.Parse(dss[i].hypercat.href).Err?
    ensures DatasourceHosts(dss).None?
  {
  }

  /** Every data source's host is among the hosts collected. */
  lemma {:induction false} DatasourceHostsComplete(dss: seq<Datasource>, i: nat)
    requires i < |dss| && DatasourceHosts(dss).Some?
    ensures Url.Parse(dss[i].hypercat.href).Ok?
    ensures Url.Hostname(Url.Parse(dss[i].hypercat.href).value) in DatasourceHosts(dss).value
    decreases |dss|
  {
    if i < |dss| - 1 {
      DatasourceHostsComplete(dss[..|dss| - 1], i);
      assert dss[..|dss| - 1][i] == dss[i];
    }
  }

  /** The networks getAppConfig or getDriverConfig asks for: arbiter, plus
      export-service and every data source's host for an app. */
  function ConfigNetworks(sla: SLA, hosts: set<string>): set<string>
  {
    if sla.databoxType == DataboxTypeApp then {"arbiter", "export-service"} + hosts else {"arbiter"}
  }

  /** The networks the workload is connected to: the configuration's, plus
      the store. */
  function RequiredNetworks(sla: SLA, hosts: set<string>): set<string>
  {
    ConfigNetworks(sla, hosts) + (if sla.store == [] then {} else {RequiredStoreName(sla)})
  }

  // ---------------------------------------------------------------------
  // Secrets
  // ---------------------------------------------------------------------

  const RootCaSecret: string := "DATABOX_ROOT_CA"
  const ZmqPublicSecret: string := "ZMQ_PUBLIC_KEY"
  const ZmqPrivateSecret: string := "ZMQ_SECRET_KEY"

  function CertSecretName(containerName: string): string
  {
    ToUpper(containerName) + ".pem"
  }

  function TokenSecretName(containerName: string): string
  {
    ToUpper(containerName) + "_KEY"
  }

  /** The secrets left after createSecret's removal pass: every secret the
      name filter lists goes, except those a service still references. */
  function Cleared(secrets: map<string, Secret>, services: seq<ServiceSpec>, name: string): map<string, Secret>
  {
    secrets - (SecretsMatching(secrets, name) - UsedSecretIds(services))
  }

  predicate NameTaken(secrets: map<string, Secret>, name: string)
  {
    exists id :: id in secrets && secrets[id].name == name
  }

  /** `id` is the only secret called `name`. */
  predicate OnlyHolder(secrets: map<string, Secret>, name: string, id: string)
  {
    id in secrets && secrets[id].name == name &&
    forall k :: k in secrets && secrets[k].name == name ==> k == id
  }

  /** The secrets after createSecret: cleared, then the new one added under
      `id` unless the create failed (`id` empty). */
  function AfterCreate(secrets: map<string, Secret>, services: seq<ServiceSpec>, name: string,
                       id: string, data: Bytes): map<string, Secret>
  {
    var c := Cleared(secrets, services, name);
    if id == [] then c else c[id := Secret(name, data)]
  }

  /** createSecret touches no secret whose name its filter does not list. */
  lemma AfterCreateKeepsOthers(secrets: map<string, Secret>, services: seq<ServiceSpec>, name: string,
                               id: string, data: Bytes, k: string)
    requires id == [] || id !in Cleared(secrets, services, name)
    requires k in secrets && !NameMatches(name, secrets[k].name)
    ensures k in AfterCreate(secrets, services, name, id, data)
    ensures AfterCreate(secrets, services, name, id, data)[k] == secrets[k]
  {
    assert k !in SecretsMatching(secrets, name);
  }

  /** After a removal pass, a secret the filter lists survives only while a
      service references it, and every other secret survives unchanged. */
  lemma ClearedLeavesOnlyUsed(secrets: map<string, Secret>, services: seq<ServiceSpec>, filter: string, id: string)
    ensures id in Cleared(secrets, services, filter) && NameMatches(filter, secrets[id].name) ==>
      id in UsedSecretIds(services)
    ensures id in secrets && (!NameMatches(filter, secrets[id].name) || id in UsedSecretIds(services)) ==>
      id in Cleared(secrets, services, filter) && Cleared(secrets, services, filter)[id] == secrets[id]
  {
  }

  /** Every secret a service of the platform references is in use, so a
      removal of any of them is refused; this is why Uninstall as written,
      which takes its secrets from the services that remain, removes none. */
  lemma ReferencedSecretsInUse(services: seq<ServiceSpec>, filter: string, i: nat, j: nat)
    requires i < |ServicesMatching(services, filter)|
    requires j < |ServicesMatching(services, filter)[i].secrets|
    ensures ServicesMatching(services, filter)[i].secrets[j].secretId in UsedSecretIds(services)
  {
    var s := ServicesMatching(services, filter)[i];
    assert s in ServicesMatching(services, filter);
    assert s.secrets[j] in s.secrets;
  }

  /** An app "app" holding its certificate secret "c1": once the service is
      removed nothing references "c1", yet Uninstall as written keeps it,
      while the corrected removal pass on the certificate name drops it. */
  lemma UninstallLeavesCertificate(image: string, data: Bytes)
    ensures var svc := ServiceSpec("app", Some(DataboxTypeApp), image, [],
                                   [SecretRef("c1", CertSecretName("app"), "DATABOX.pem")], "", "", []);
            var secrets := map["c1" := Secret(CertSecretName("app"), data)];
            var remaining := WithoutService([svc], "app");
            && remaining == []
            && "c1" in secrets && "c1" !in UsedSecretIds(remaining)
            && "c1" !in Cleared(secrets, remaining, CertSecretName("app"))
  {
    var svc := ServiceSpec("app", Some(DataboxTypeApp), image, [],
                           [SecretRef("c1", CertSecretName("app"), "DATABOX.pem")], "", "", []);
    var secrets := map["c1" := Secret(CertSecretName("app"), data)];
    assert WithoutService([svc], "app") == [];
    assert NameMatches(CertSecretName("app"), secrets["c1"].name);
    assert "c1" in SecretsMatching(secrets, CertSecretName("app"));
  }

  /** Neither generated secret's name is listed by the other's filter. */
  lemma GeneratedNamesApart(containerName: string)
    ensures !NameMatches(TokenSecretName(containerName), CertSecretName(containerName))
    ensures !NameMatches(CertSecretName(containerName), TokenSecretName(containerName))
  {
    var x := ToUpper(containerName);
    assert CertSecretName(containerName)[|x|] == '.';
    assert TokenSecretName(containerName)[|x|] == '_';
  }

  // ---------------------------------------------------------------------
  // Permissions
  // ---------------------------------------------------------------------

  /** The core-network calls issued so far, and whether the loop panicked. */
  datatype Connects = Connects(calls: seq<NetCall>, panicked: bool)

  /** The hosts of a whitelist's URLs, in order; None when one does not
      parse (its nil URL is then dereferenced). */
  function WhitelistHosts(urls: seq<string>): (r: Option<seq<string>>)
    ensures r.Some? ==> |r.value| == |urls|
  {
    if urls == [] then Some([])
    else
      var prev := WhitelistHosts(urls[..|urls| - 1]);
      var last := Url.Parse(urls[|urls| - 1]);
      if prev.None? || last.Err? then None
      else Some(prev.value + [Url.Hostname(last.value)])
  }

  /** A URL that does not parse leaves the hosts missing. */
  lemma {:induction false} WhitelistHostsFailAt(urls: seq<string>, i: nat)
    requires i < |urls| && Url.Parse(urls[i]).Err?
    ensures WhitelistHosts(urls).None?
    decreases |urls|
  {
    if i < |urls| - 1 {
      var init := urls[..|urls| - 1];
      assert init[i] == urls[i];
      WhitelistHostsFailAt(init, i);
    }
  }

  /** Missing hosts point at a URL that does not parse. */
  lemma {:induction false} WhitelistHostsFailWitness(urls: seq<string>) returns (i: nat)
    requires WhitelistHosts(urls).None?
    ensures i < |urls| && Url.Parse(urls[i]).Err?
    decreases |urls|
  {
    var init := urls[..|urls| - 1];
    if WhitelistHosts(init).None? {
      i := WhitelistHostsFailWitness(init);
      assert init[i] == urls[i];
    } else {
      i := |urls| - 1;
    }
  }

  /** The hosts are missing exactly when some URL does not parse. */
  lemma WhitelistHostsFail(urls: seq<string>)
    ensures WhitelistHosts(urls).None? <==> exists i :: 0 <= i < |urls| && Url.Parse(urls[i]).Err?
  {
    if WhitelistHosts(urls).None? {
      var i := WhitelistHostsFailWitness(urls);
    }
    forall i | 0 <= i < |urls| && Url.Parse(urls[i]).Err?
      ensures WhitelistHosts(urls).None?
    {
      WhitelistHostsFailAt(urls, i);
    }
  }

  /** Hosts for a non-empty list are those of all but the last URL
      followed by the last URL's host. */
  lemma WhitelistHostsLast(urls: seq<string>)
    requires |urls| > 0 && WhitelistHosts(urls).Some?
    ensures WhitelistHosts(urls[..|urls| - 1]).Some? && Url.Parse(urls[|urls| - 1]).Ok?
    ensures WhitelistHosts(urls).value ==
      WhitelistHosts(urls[..|urls| - 1]).value + [Url.Hostname(Url.Parse(urls[|urls| - 1]).value)]
  {
  }

  /** Each host is the host of the URL at the same position. */
  lemma {:induction false} WhitelistHostsAt(urls: seq<string>, i: nat)
    requires i < |urls| && WhitelistHosts(urls).Some?
    ensures Url.Parse(urls[i]).Ok?
    ensures WhitelistHosts(urls).value[i] == Url.Hostname(Url.Parse(urls[i]).value)
    decreases |urls|
  {
    WhitelistHostsLast(urls);
    var init := urls[..|urls| - 1];
    if i < |urls| - 1 {
      WhitelistHostsAt(init, i);
      assert init[i] == urls[i];
    }
  }

  /** One more parsable URL adds its host at the end. */
  lemma WhitelistHostsStep(urls: seq<string>, j: nat)
    requires j < |urls| && WhitelistHosts(urls[..j]).Some? && Url.Parse(urls[j]).Ok?
    ensures WhitelistHosts(urls[..j + 1]) ==
      Some(WhitelistHosts(urls[..j]).value + [Url.Hostname(Url.Parse(urls[j]).value)])
  {
    assert urls[..j + 1][..j] == urls[..j];
  }

  /** A driver's external whitelists: one ConnectEndpoints call per
      whitelist, stopping at the first URL that does not parse. */
  function ExternalConnects(localName: string, wls: seq<ExternalWhitelist>): (r: Connects)
    ensures |r.calls| <= |wls|
    ensures forall c :: c in r.calls ==> c.ConnectEndpointsCall? && c.name == localName
  {
    if wls == [] then Connects([], false)
    else
      var prev := ExternalConnects(localName, wls[..|wls| - 1]);
      if prev.panicked then prev
      else
        match WhitelistHosts(wls[|wls| - 1].urls)
        case None => Connects(prev.calls, true)
        case Some(hs) => Connects(prev.calls + [ConnectEndpointsCall(localName, hs)], false)
  }

  /** Everything addPermissionsFromSLA does: the grants, the core-network
      calls for a driver's external whitelists, and whether it panics. */
  datatype Effects = Effects(grants: seq<Permission>, connects: seq<NetCall>, panicked: bool)

  function PermissionsFromSLA(sla: SLA): Effects
  {
    var local := LocalContainerName(sla);
    var exports := ExportGrants(local, sla.exportWhitelists);
    var ext := if sla.databoxType == DataboxTypeDriver then ExternalConnects(local, sla.externalWhitelist)
               else Connects([], false);
    if ext.panicked then Effects(exports, ext.calls, true)
    else
      var ds := if sla.databoxType == DataboxTypeApp then DatasourcesGrants(local, sla.datasources)
                else Issued([], false);
      if ds.panicked then Effects(exports + ds.grants, ext.calls, true)
      else
        Effects(exports + ds.grants +
                  (if sla.store == [] then [] else StoreGrants(local, RequiredStoreName(sla), true)),
                ext.calls, false)
  }

  /** Every permission an SLA yields is the workload's own, except the one
      that lets container-manager read its store's catalogue; a completed
      pass gives a store-backed workload DELETE on its store. */
  lemma PermissionsScoped(sla: SLA)
    ensures forall p :: p in PermissionsFromSLA(sla).grants ==>
      p.name == LocalContainerName(sla) ||
      p == Permission("container-manager", Route(RequiredStoreName(sla), "/cat", "GET"), [])
    ensures !PermissionsFromSLA(sla).panicked && sla.store != [] ==>
      Permission(LocalContainerName(sla), Route(RequiredStoreName(sla), "/*", "DELETE"), []) in PermissionsFromSLA(sla).grants
    ensures sla.databoxType != DataboxTypeDriver ==> PermissionsFromSLA(sla).connects == []
  {
    var local := LocalContainerName(sla);
    DatasourcesGrantsScoped(local, sla.datasources);
    if sla.store != [] {
      StoreGrantsOwners(local, RequiredStoreName(sla), true);
    }
  }

  // ---------------------------------------------------------------------
  // Specs the manager submits
  // ---------------------------------------------------------------------

  function GeneratedCount(databoxType: string): nat
  {
    if databoxType == DataboxTypeStore then 5 else 4
  }

  /** The secret references genorateSecrets returns, as far as they do not
      depend on the platform's ids. */
  predicate SecretBundle(refs: seq<SecretRef>, containerName: string, databoxType: string,
                         rootCaId: string, zmqPublicId: string, zmqPrivateId: string)
  {
    && |refs| == GeneratedCount(databoxType)
    && refs[0] == SecretRef(rootCaId, RootCaSecret, RootCaSecret)
    && refs[1] == SecretRef(zmqPublicId, ZmqPublicSecret, ZmqPublicSecret)
    && refs[2].secretName == CertSecretName(containerName) && refs[2].fileName == "DATABOX.pem"
    && refs[3].secretName == TokenSecretName(containerName) && refs[3].fileName == "ARBITER_TOKEN"
    && (databoxType == DataboxTypeStore ==> refs[4] == SecretRef(zmqPrivateId, ZmqPrivateSecret, ZmqPrivateSecret))
  }

  function Bundle(certRef: SecretRef, tokenRef: SecretRef, databoxType: string,
                  rootCaId: string, zmqPublicId: string, zmqPrivateId: string): seq<SecretRef>
  {
    [SecretRef(rootCaId, RootCaSecret, RootCaSecret), SecretRef(zmqPublicId, ZmqPublicSecret, ZmqPublicSecret),
     certRef, tokenRef] +
    (if databoxType == DataboxTypeStore then [SecretRef(zmqPrivateId, ZmqPrivateSecret, ZmqPrivateSecret)] else [])
  }

  lemma BundleIsGenerated(certRef: SecretRef, tokenRef: SecretRef, containerName: string, databoxType: string,
                          rootCaId: string, zmqPublicId: string, zmqPrivateId: string)
    requires certRef.secretName == CertSecretName(containerName) && certRef.fileName == "DATABOX.pem"
    requires tokenRef.secretName == TokenSecretName(containerName) && tokenRef.fileName == "ARBITER_TOKEN"
    ensures SecretBundle(Bundle(certRef, tokenRef, databoxType, rootCaId, zmqPublicId, zmqPrivateId),
                         containerName, databoxType, rootCaId, zmqPublicId, zmqPrivateId)
  {
  }

  function StoreImage(options: Options): string
  {
    options.defaultStoreImage + ":" + options.version
  }

  /** The store service launchStore submits. */
  predicate IsStoreSpec(spec: ServiceSpec, storeName: string, options: Options, netConf: NetworkConfig)
  {
    && spec.name == storeName
    && spec.typeLabel == Some(DataboxTypeStore)
    && spec.image == StoreImage(options)
    && spec.env == [ArbiterEnv, "DATABOX_LOCAL_NAME=" + storeName]
    && spec.dns == netConf.dns && spec.network == netConf.networkName
    && spec.mounts == [Mount(storeName, "/database")]
  }

  /** launchStore's service creation appended exactly one store service,
      built for the store and carrying the store's secrets. */
  ghost predicate StoreCreated(before: seq<ServiceSpec>, after: seq<ServiceSpec>, storeName: string,
                               options: Options, netConf: NetworkConfig,
                               rootCaId: string, zmqPublicId: string, zmqPrivateId: string)
  {
    && |after| == |before| + 1
    && after[..|before|] == before
    && IsStoreSpec(after[|before|], storeName, options, netConf)
    && SecretBundle(after[|before|].secrets, storeName, DataboxTypeStore, rootCaId, zmqPublicId, zmqPrivateId)
  }

  /** The service launchStore creates for a store. */
  function StoreSpec(storeName: string, options: Options, netConf: NetworkConfig, refs: seq<SecretRef>): (spec: ServiceSpec)
    ensures IsStoreSpec(spec, storeName, options, netConf) && spec.secrets == refs
  {
    ServiceSpec(storeName, Some(DataboxTypeStore), StoreImage(options),
                [ArbiterEnv, "DATABOX_LOCAL_NAME=" + storeName], refs,
                netConf.dns, netConf.networkName, [Mount(storeName, "/database")])
  }

  lemma StoreCreatedBy(before: seq<ServiceSpec>, spec: ServiceSpec, storeName: string,
                       options: Options, netConf: NetworkConfig,
                       rootCaId: string, zmqPublicId: string, zmqPrivateId: string)
    requires IsStoreSpec(spec, storeName, options, netConf)
    requires SecretBundle(spec.secrets, storeName, DataboxTypeStore, rootCaId, zmqPublicId, zmqPrivateId)
    ensures StoreCreated(before, before + [spec], storeName, options, netConf, rootCaId, zmqPublicId, zmqPrivateId)
    ensures before <= before + [spec]
  {
    assert (before + [spec])[..|before|] == before;
  }

  /** The app or driver service getAppConfig or getDriverConfig builds: named
      after the SLA, labelled with its type, the image from the registry the
      SLA's store URL selects, the configuration's environment, core-network's
      DNS server and network, and no mounts. */
  predicate IsConfigSpec(spec: ServiceSpec, sla: SLA, options: Options, netConf: NetworkConfig,
                         hypercatJson: HypercatItem -> string)
  {
    && spec.name == LocalContainerName(sla)
    && spec.typeLabel == Some(sla.databoxType)
    && spec.image == RegistryUrl(options.defaultRegistry, sla.storeUrl) + sla.name + ":" + options.version
    && spec.env == ConfigEnv(sla, hypercatJson)
    && spec.dns == netConf.dns && spec.network == netConf.networkName
    && spec.mounts == []
  }

  /** The spec getDriverConfig assembles is the configuration spec of the
      SLA taken as a driver. */
  lemma DriverSpecIsConfig(sla: SLA, options: Options, netConf: NetworkConfig,
                           hypercatJson: HypercatItem -> string, spec: ServiceSpec)
    requires spec.name == LocalContainerName(sla) && spec.typeLabel == Some(DataboxTypeDriver)
    requires spec.image == RegistryUrl(options.defaultRegistry, sla.storeUrl) + sla.name + ":" + options.version
    requires spec.env == [ArbiterEnv, "DATABOX_LOCAL_NAME=" + LocalContainerName(sla)]
    requires spec.dns == netConf.dns && spec.network == netConf.networkName && spec.mounts == []
    ensures IsConfigSpec(spec, sla.(databoxType := DataboxTypeDriver), options, netConf, hypercatJson)
  {
  }

  /** The service LaunchFromSLA submits: the configuration's spec with the
      store variables added when there is a store. */
  predicate IsWorkloadSpec(spec: ServiceSpec, sla: SLA, options: Options, netConf: NetworkConfig,
                           hypercatJson: HypercatItem -> string)
  {
    && IsConfigSpec(spec.(env := ConfigEnv(sla, hypercatJson)), sla, options, netConf, hypercatJson)
    && spec.env == WorkloadEnv(sla, hypercatJson)
  }

  /** What getAppConfig or getDriverConfig yields: a spec and the networks to
      connect, no container spec at all for any other type, or a panic. */
  datatype Config = Spec(spec: ServiceSpec, networks: seq<string>) | NoSpec | ConfigPanicked

  datatype Launch = Launched | LaunchPanicked

  datatype RestartOutcome = Restarted(err: Option<string>) | RestartPanicked

  function NotRunning(name: string): string
  {
    "Service " + name + " not running"
  }

  function TimeoutMessage(timeout: int): string
  {
    "Service has not restarted after " + Itoa(timeout) + " seconds !!"
  }

  function Bound(timeout: int): nat
  {
    if timeout < 0 then 0 else timeout
  }

  /** The SLAs of one type, in list order. */
  function OfType(slas: seq<SLA>, databoxType: string): (r: seq<SLA>)
    ensures forall s :: s in r <==> s in slas && s.databoxType == databoxType
    ensures |r| <= |slas|
  {
    if slas == [] then []
    else
      var last := slas[|slas| - 1];
      assert forall s :: s in slas <==> s in slas[..|slas| - 1] || s == last;
      OfType(slas[..|slas| - 1], databoxType) + (if last.databoxType == databoxType then [last] else [])
  }

  /** The order reloadApps launches saved SLAs in: every driver, then every
      app; SLAs of any other type are not launched. */
  function ReloadOrder(slas: seq<SLA>): (r: seq<SLA>)
    ensures forall s :: s in r <==> s in slas && (s.databoxType == DataboxTypeDriver || s.databoxType == DataboxTypeApp)
  {
    OfType(slas, DataboxTypeDriver) + OfType(slas, DataboxTypeApp)
  }

  /** In the reload order no driver comes after an app. */
  lemma ReloadOrderDriversFirst(slas: seq<SLA>, i: nat, j: nat)
    requires i <= j < |ReloadOrder(slas)|
    requires ReloadOrder(slas)[j].databoxType == DataboxTypeDriver
    ensures ReloadOrder(slas)[i].databoxType == DataboxTypeDriver
  {
    var drivers := OfType(slas, DataboxTypeDriver);
    var r := ReloadOrder(slas);
    assert r[i] == drivers[i] && r[i] in drivers;
  }

  /** A listing filtered by a name lists every service of that name. */
  lemma NoMatchNoService(services: seq<ServiceSpec>, name: string)
    ensures ServiceExists(services, name) ==> ServicesMatching(services, name) != []
  {
    if ServiceExists(services, name) {
      var i :| 0 <= i < |services| && services[i].name == name;
      assert NameMatches(name, services[i].name);
      assert services[i] in ServicesMatching(services, name);
    }
  }

  /** Once an external whitelist panics, the later ones are never reached. */
  lemma {:induction false} ExternalConnectsStops(localName: string, wls: seq<ExternalWhitelist>, k: nat)
    requires k < |wls| && !ExternalConnects(localName, wls[..k]).panicked
    requires WhitelistHosts(wls[k].urls).None?
    ensures ExternalConnects(localName, wls) == Connects(ExternalConnects(localName, wls[..k]).calls, true)
    decreases |wls|
  {
    assert wls[..k + 1][..k] == wls[..k];
    if k + 1 < |wls| {
      assert wls[..|wls| - 1][..k] == wls[..k];
      ExternalConnectsStops(localName, wls[..|wls| - 1], k);
    } else {
      assert wls[..k + 1] == wls;
    }
  }

  /** One more whitelist whose URLs all parse adds one ConnectEndpoints
      call with their hosts. */
  lemma ExternalConnectsStep(localName: string, wls: seq<ExternalWhitelist>, i: nat)
    requires i < |wls| && !ExternalConnects(localName, wls[..i]).panicked
    requires WhitelistHosts(wls[i].urls).Some?
    ensures ExternalConnects(localName, wls[..i + 1]) ==
      Connects(ExternalConnects(localName, wls[..i]).calls +
               [ConnectEndpointsCall(localName, WhitelistHosts(wls[i].urls).value)], false)
  {
    assert wls[..i + 1][..i] == wls[..i];
  }

  /** No container of the service shows in `count` listings from `from`. */
  predicate Quiet(world: (nat, string) -> seq<Container>, from: nat, count: nat, name: string)
  {
    forall k :: from <= k < from + count ==> Listing(world, k, name) == []
  }

  /** What the ten-poll wait after a removal saw, polls `from` to `to - 1`:
      it failed exactly when all eleven polls were empty, with the timeout
      message `timeoutError`, and otherwise returned the first container of
      the last poll. */
  predicate Replaced(world: (nat, string) -> seq<Container>, from: nat, to: nat, name: string,
                     timeoutError: string, next: Result<Container, string>)
  {
    && from < to
    && (next.Err? <==> Quiet(world, from, 11, name))
    && (next.Err? ==> next.error == timeoutError)
    && (next.Ok? ==> Listing(world, to - 1, name) != [] && next.value == Listing(world, to - 1, name)[0])
  }

  /** Restart's outcome for a service whose listing number `from` showed
      `first`, with listings up to `to - 1` made: a missing or unremovable
      container is reported without notifying core-network; when eleven polls
      after the removal come back empty the timeout is reported; otherwise
      core-network is told the address the old container had and the one
      the replacement (the first container of the last poll) has, on a
      network named after the service, and its answer is the result. */
  ghost predicate RestartEffect(name: string, first: seq<Container>, unremovable: set<string>,
                                world: (nat, string) -> seq<Container>, from: nat, to: nat,
                                calls0: seq<NetCall>, calls: seq<NetCall>,
                                restartError: (string, string, string) -> Option<string>, timeoutError: string,
                                err: Option<string>, oldIp: string, newIp: string)
  {
    && (first == [] ==> err == Some(NotRunning(name)) && calls == calls0)
    && (first != [] && first[0].id in unremovable ==> err == Some(CannotRemove(name)) && calls == calls0)
    && (first != [] && first[0].id !in unremovable && Quiet(world, from + 1, 11, name) ==>
          err == Some(timeoutError) && calls == calls0)
    && (first != [] && first[0].id !in unremovable && !Quiet(world, from + 1, 11, name) ==>
          && from + 1 < to
          && Listing(world, to - 1, name) != []
          && IpChoice(first[0].networks, ServiceOfStore(name), oldIp)
          && IpChoice(Listing(world, to - 1, name)[0].networks, ServiceOfStore(name), newIp)
          && calls == calls0 + [ServiceRestartCall(name, oldIp, newIp)]
          && err == restartError(name, oldIp, newIp))
  }

  lemma QuietExtend(world: (nat, string) -> seq<Container>, from: nat, count: nat, name: string)
    requires Quiet(world, from, count, name) && Listing(world, from + count, name) == []
    ensures Quiet(world, from, count + 1, name)
  {
  }

  lemma SeenNotQuiet(world: (nat, string) -> seq<Container>, from: nat, count: nat, k: nat, name: string)
    requires from <= k < from + count && Listing(world, k, name) != []
    ensures !Quiet(world, from, count, name)
  {
  }

  /** The name Restart looks for in network names: the store suffix
      "-core-store" taken out once. */
  function ServiceOfStore(name: string): string
  {
    ReplaceFirst(name, "-core-store", "")
  }

  function CannotRemove(name: string): string
  {
    "Cannot remove " + name + " " + ContainerRemoveError
  }

  /** How far Restart gets before its last step: stopped early with an
      error, or the old container removed and the wait for its replacement
      over, with the old address. */
  datatype Stop = NotStopped(err: string) | Stopped(oldIp: string, next: Result<Container, string>)

  /** How StopAndWait ends for a service whose first listing (number
      `from`) showed `first`: not running, a container that cannot be
      removed, or the first container removed, its address noted and the
      wait for the replacement over by listing `to`. */
  ghost predicate StopOutcome(name: string, first: seq<Container>, unremovable: set<string>,
                              world: (nat, string) -> seq<Container>, from: nat, to: nat,
                              timeoutError: string, st: Stop)
  {
    && (first == [] ==> st == NotStopped(NotRunning(name)))
    && (first != [] ==> RemoveOutcome(name, first[0], unremovable, world, from + 1, to, timeoutError, st))
  }

  /** StopAndWait stops the container exactly when one is listed and may
      be removed, and the wait then fails exactly when eleven polls after
      the removal are empty. */
  lemma StopOutcomeCases(name: string, first: seq<Container>, unremovable: set<string>,
                         world: (nat, string) -> seq<Container>, from: nat, to: nat,
                         timeoutError: string, st: Stop)
    requires StopOutcome(name, first, unremovable, world, from, to, timeoutError, st)
    ensures st.Stopped? <==> first != [] && first[0].id !in unremovable
    ensures st.Stopped? ==> (st.next.Err? <==> Quiet(world, from + 1, 11, name))
  {
  }

  /** How RemoveAndWait ends for container `c`: it cannot be removed, or
      its address is noted and the wait over polls `from` to `to - 1`
      decides the replacement. */
  ghost predicate RemoveOutcome(name: string, c: Container, unremovable: set<string>,
                                world: (nat, string) -> seq<Container>, from: nat, to: nat,
                                timeoutError: string, st: Stop)
  {
    && (c.id in unremovable ==> st == NotStopped(CannotRemove(name)))
    && (c.id !in unremovable ==>
          && st.Stopped?
          && IpChoice(c.networks, ServiceOfStore(name), st.oldIp)
          && Replaced(world, from, to, name, timeoutError, st.next))
  }

  /** What Restart's network loop may pick: the address on some network
      whose name contains the service name, or nothing when none does. */
  predicate IpChoice(networks: map<string, string>, serviceName: string, ip: string)
  {
    if exists k :: k in networks && Contains(k, serviceName)
    then exists k :: k in networks && Contains(k, serviceName) && ip == networks[k]
    else ip == []
  }

  /** Where LaunchFromSLA panics: on a type that is neither app nor driver
      (the missing container spec is dereferenced), on an app data source
      whose href does not parse, and where addPermissionsFromSLA panics. */
  predicate LaunchPanics(sla: SLA)
  {
    !KnownType(sla) || ConfigPanics(sla) || PermissionsFromSLA(sla).panicked
  }

  /** Where getAppConfig panics: an app data source whose href does not
      parse. */
  predicate ConfigPanics(sla: SLA)
  {
    sla.databoxType == DataboxTypeApp && DatasourceHosts(sla.datasources).None?
  }

  /** The hosts an SLA's workload is connected to beyond arbiter and the
      store: the data sources' hosts for an app, none for a driver. */
  function WorkloadHosts(sla: SLA): set<string>
  {
    if sla.databoxType == DataboxTypeApp && DatasourceHosts(sla.datasources).Some?
    then DatasourceHosts(sla.datasources).value else {}
  }

  /** What a prepared workload is: the service LaunchFromSLA submits, with
      the generated secrets, and networks that are exactly those the SLA
      requires. */
  ghost predicate ReadyFor(spec: ServiceSpec, networks: seq<string>, sla: SLA, options: Options, netConf: NetworkConfig,
                           hypercatJson: HypercatItem -> string, rootCaId: string, zmqPublicId: string, zmqPrivateId: string)
  {
    && IsWorkloadSpec(spec, sla, options, netConf, hypercatJson)
    && SecretBundle(spec.secrets, LocalContainerName(sla), sla.databoxType, rootCaId, zmqPublicId, zmqPrivateId)
    && forall n :: n in networks <==> n in RequiredNetworks(sla, WorkloadHosts(sla))
  }

  /** What building a configuration yields: never the missing spec, and a
      spec only when it is named after the SLA and ready for it. */
  ghost predicate Built(c: Config, sla: SLA, options: Options, netConf: NetworkConfig,
                        hypercatJson: HypercatItem -> string, rootCaId: string, zmqPublicId: string, zmqPrivateId: string)
  {
    && c != NoSpec
    && (c.Spec? ==> c.spec.name == LocalContainerName(sla)
                    && ReadyFor(c.spec, c.networks, sla, options, netConf, hypercatJson, rootCaId, zmqPublicId, zmqPrivateId))
  }

  /** A configuration's spec, with the store variables added when there is
      a store, is the workload's spec. */
  lemma WorkloadSpecOfConfig(spec: ServiceSpec, networks: seq<string>, sla: SLA, options: Options,
                             netConf: NetworkConfig, hypercatJson: HypercatItem -> string)
    requires IsConfigSpec(spec, sla, options, netConf, hypercatJson)
    ensures sla.store == [] ==> IsWorkloadSpec(spec, sla, options, netConf, hypercatJson)
    ensures sla.store != [] ==>
      IsWorkloadSpec(spec.(env := spec.env + StoreEnv(RequiredStoreName(sla))), sla, options, netConf, hypercatJson)
  {
    assert spec.(env := ConfigEnv(sla, hypercatJson)) == spec;
  }

  /** What the switch on the SLA's type yields, when it yields a spec: the
      configuration's spec with the generated secrets, and networks without
      repeats that are exactly those the configuration asks for. */
  ghost predicate Configured(c: Config, sla: SLA, options: Options, netConf: NetworkConfig,
                             hypercatJson: HypercatItem -> string, rootCaId: string, zmqPublicId: string,
                             zmqPrivateId: string)
  {
    c.Spec? ==>
      && IsConfigSpec(c.spec, sla, options, netConf, hypercatJson)
      && SecretBundle(c.spec.secrets, LocalContainerName(sla), sla.databoxType, rootCaId, zmqPublicId, zmqPrivateId)
      && Distinct(c.networks)
      && forall n :: n in c.networks <==> n in ConfigNetworks(sla, WorkloadHosts(sla))
  }

  /** What getAppConfig promises makes an app's configuration Configured. */
  lemma AppConfigured(c: Config, sla: SLA, options: Options, netConf: NetworkConfig,
                      hypercatJson: HypercatItem -> string, rootCaId: string, zmqPublicId: string,
                      zmqPrivateId: string)
    requires sla.databoxType == DataboxTypeApp
    requires c.Spec? ==> DatasourceHosts(sla.datasources).Some?
    requires c.Spec? ==>
      && IsConfigSpec(c.spec, sla.(databoxType := DataboxTypeApp), options, netConf, hypercatJson)
      && SecretBundle(c.spec.secrets, LocalContainerName(sla), sla.databoxType, rootCaId, zmqPublicId, zmqPrivateId)
      && Distinct(c.networks)
      && forall n :: n in c.networks <==> n in ConfigNetworks(sla.(databoxType := DataboxTypeApp),
                                                              DatasourceHosts(sla.datasources).value)
    ensures Configured(c, sla, options, netConf, hypercatJson, rootCaId, zmqPublicId, zmqPrivateId)
  {
    assert sla.(databoxType := DataboxTypeApp) == sla;
  }

  /** What getDriverConfig promises makes a driver's configuration
      Configured. */
  lemma DriverConfigured(spec: ServiceSpec, sla: SLA, options: Options, netConf: NetworkConfig,
                         hypercatJson: HypercatItem -> string, rootCaId: string, zmqPublicId: string,
                         zmqPrivateId: string)
    requires sla.databoxType == DataboxTypeDriver
    requires IsConfigSpec(spec, sla.(databoxType := DataboxTypeDriver), options, netConf, hypercatJson)
    requires SecretBundle(spec.secrets, LocalContainerName(sla), sla.databoxType, rootCaId, zmqPublicId, zmqPrivateId)
    ensures Configured(Spec(spec, ["arbiter"]), sla, options, netConf, hypercatJson, rootCaId, zmqPublicId, zmqPrivateId)
  {
    assert sla.(databoxType := DataboxTypeDriver) == sla;
  }

  /** A configured spec is ready once the store step, when there is a store,
      has added the store variables and the store's network. */
  lemma ConfiguredIsReady(c: Config, sla: SLA, options: Options, netConf: NetworkConfig,
                          hypercatJson: HypercatItem -> string, rootCaId: string, zmqPublicId: string,
                          zmqPrivateId: string)
    requires c.Spec? && Configured(c, sla, options, netConf, hypercatJson, rootCaId, zmqPublicId, zmqPrivateId)
    ensures sla.store == [] ==>
      ReadyFor(c.spec, c.networks, sla, options, netConf, hypercatJson, rootCaId, zmqPublicId, zmqPrivateId)
    ensures sla.store != [] ==>
      ReadyFor(c.spec.(env := c.spec.env + StoreEnv(RequiredStoreName(sla))), c.networks + [RequiredStoreName(sla)],
               sla, options, netConf, hypercatJson, rootCaId, zmqPublicId, zmqPrivateId)
  {
    WorkloadSpecOfConfig(c.spec, c.networks, sla, options, netConf, hypercatJson);
  }

  /** The core-network calls of LaunchFromSLA after the pre-configuration:
      the endpoints, then whatever addPermissionsFromSLA connects. */
  function DeployCalls(sla: SLA, networks: seq<string>): seq<NetCall>
  {
    [ConnectEndpointsCall(LocalContainerName(sla), networks)] + PermissionsFromSLA(sla).connects
  }

  /** The key-value namespace after SaveSLA. */
  function SavedKv(kv: map<string, Bytes>, sla: SLA, encoded: Option<Bytes>, reachable: bool): map<string, Bytes>
  {
    if encoded.Some? && reachable then kv[sla.name := encoded.value] else kv
  }

  predicate KnownType(sla: SLA)
  {
    sla.databoxType == DataboxTypeApp || sla.databoxType == DataboxTypeDriver
  }

  /** The core-network calls of LaunchFromSLA's first half: the
      pre-configuration, and for a type that is neither app nor driver and
      has no store, the endpoints connected to nothing. */
  function PrepareCalls(sla: SLA): seq<NetCall>
  {
    if !KnownType(sla) && sla.store == [] then
      [PreConfigCall(LocalContainerName(sla))] + [ConnectEndpointsCall(LocalContainerName(sla), [])]
    else [PreConfigCall(LocalContainerName(sla))]
  }

  /** Several launches' core-network calls, one launch after another. */
  function Concat(parts: seq<seq<NetCall>>): seq<NetCall>
  {
    if parts == [] then [] else Concat(parts[..|parts| - 1]) + parts[|parts| - 1]
  }

  /** The k-th launch's calls begin with the pre-configuration of the k-th
      SLA's container. */
  ghost predicate Preconfigures(launches: seq<seq<NetCall>>, slas: seq<SLA>)
  {
    && |launches| == |slas|
    && forall k :: 0 <= k < |slas| ==> launches[k] != [] && launches[k][0] == PreConfigCall(LocalContainerName(slas[k]))
  }

  lemma PreconfiguresAppend(launches: seq<seq<NetCall>>, slas: seq<SLA>, steps: seq<NetCall>, sla: SLA)
    requires Preconfigures(launches, slas)
    requires steps != [] && steps[0] == PreConfigCall(LocalContainerName(sla))
    ensures Preconfigures(launches + [steps], slas + [sla])
    ensures Concat(launches + [steps]) == Concat(launches) + steps
  {
    assert (launches + [steps])[..|launches|] == launches;
  }

  /** Launching the j-th SLA of a list extends the record by one launch. */
  lemma PreconfiguresNext(launches: seq<seq<NetCall>>, slas: seq<SLA>, j: nat, steps: seq<NetCall>)
    requires j < |slas| && Preconfigures(launches, slas[..j])
    requires steps != [] && steps[0] == PreConfigCall(LocalContainerName(slas[j]))
    ensures Preconfigures(launches + [steps], slas[..j + 1])
    ensures Concat(launches + [steps]) == Concat(launches) + steps
  {
    assert slas[..j + 1] == slas[..j] + [slas[j]];
    PreconfiguresAppend(launches, slas[..j], steps, slas[j]);
  }

  /** What a replay of the SLAs `todo` leaves behind: the launches made
      pre-configure a prefix of `todo` in order, the core network saw
      exactly their calls after `calls0`, and the proxy gained the names of
      every SLA launched without a panic. A panic ends the replay at the
      SLA that caused it, whose name is not registered. */
  ghost predicate Replayed(todo: seq<SLA>, launches: seq<seq<NetCall>>, calls0: seq<NetCall>, calls: seq<NetCall>,
                           registered0: set<string>, registered: set<string>, panicked: bool)
  {
    && |launches| <= |todo|
    && Preconfigures(launches, todo[..|launches|])
    && calls == calls0 + Concat(launches)
    && (!panicked ==> |launches| == |todo| && registered == registered0 + Names(todo))
    && (panicked ==> 0 < |launches| && registered == registered0 + Names(todo[..|launches| - 1]))
  }

  /** A replay that panicked part-way through `first` is also a panicked
      replay of any longer list that starts with `first`. */
  lemma ReplayedStops(first: seq<SLA>, more: seq<SLA>, launches: seq<seq<NetCall>>, calls0: seq<NetCall>,
                      calls: seq<NetCall>, registered0: set<string>, registered: set<string>)
    requires Replayed(first, launches, calls0, calls, registered0, registered, true)
    ensures Replayed(first + more, launches, calls0, calls, registered0, registered, true)
  {
    assert (first + more)[..|launches|] == first[..|launches|];
    assert (first + more)[..|launches| - 1] == first[..|launches| - 1];
  }

  /** A complete replay of `first` followed by a replay of `more` is a
      replay of `first + more`. */
  lemma ReplayedThen(first: seq<SLA>, more: seq<SLA>, launches1: seq<seq<NetCall>>, launches2: seq<seq<NetCall>>,
                     calls0: seq<NetCall>, calls1: seq<NetCall>, calls2: seq<NetCall>,
                     registered0: set<string>, registered1: set<string>, registered2: set<string>, panicked: bool)
    requires Replayed(first, launches1, calls0, calls1, registered0, registered1, false)
    requires Replayed(more, launches2, calls1, calls2, registered1, registered2, panicked)
    ensures Replayed(first + more, launches1 + launches2, calls0, calls2, registered0, registered2, panicked)
  {
    var todo := first + more;
    var launches := launches1 + launches2;
    assert first[..|launches1|] == first;
    PreconfiguresJoin(launches1, first, launches2, more[..|launches2|]);
    assert todo[..|launches|] == first + more[..|launches2|];
    ConcatJoin(launches1, launches2);
    AppendTwice(calls0, Concat(launches1), Concat(launches2));
    if panicked {
      assert todo[..|launches| - 1] == first + more[..|launches2| - 1];
      NamesJoin(first, more[..|launches2| - 1]);
      UnionTwice(registered0, Names(first), Names(more[..|launches2| - 1]));
    } else {
      assert more[..|launches2|] == more;
      NamesJoin(first, more);
      UnionTwice(registered0, Names(first), Names(more));
    }
  }

  /** Two runs of launches, one after the other. */
  lemma PreconfiguresJoin(first: seq<seq<NetCall>>, slas: seq<SLA>, second: seq<seq<NetCall>>, more: seq<SLA>)
    requires Preconfigures(first, slas) && Preconfigures(second, more)
    ensures Preconfigures(first + second, slas + more)
  {
  }

  lemma {:induction false} ConcatJoin(first: seq<seq<NetCall>>, second: seq<seq<NetCall>>)
    ensures Concat(first + second) == Concat(first) + Concat(second)
    decreases |second|
  {
    if second != [] {
      var init := second[..|second| - 1];
      assert (first + second)[..|first + second| - 1] == first + init;
      ConcatJoin(first, init);
    } else {
      assert first + second == first;
    }
  }

  /** The names of a list of SLAs. */
  function Names(slas: seq<SLA>): set<string>
  {
    if slas == [] then {} else Names(slas[..|slas| - 1]) + {slas[|slas| - 1].name}
  }

  /** The IP lookup in Restart: the loop visits the networks in map order
      and keeps the address of the last one whose name contains the
      service name. */
  method IpOnNetwork(networks: map<string, string>, serviceName: string) returns (ip: string)
    ensures IpChoice(networks, serviceName, ip)
  {
    ip := [];
    var keys := networks.Keys;
    ghost var seen: set<string> := {};
    while keys != {}
      invariant keys + seen == networks.Keys && keys !! seen
      invariant IpChoice(map k | k in seen :: networks[k], serviceName, ip)
      decreases keys
    {
      var netName :| netName in keys;
      if Contains(netName, serviceName) {
        ip := networks[netName];
      }
      keys := keys - {netName};
      seen := seen + {netName};
    }
    assert (map k | k in seen :: networks[k]) == networks;
  }

  /** The data-source loop of getAppConfig: one DATASOURCE_ variable per
      data source and the host of each href; a href that does not parse
      panics, since the nil URL's Hostname is called. */
  method DatasourceConfig(dss: seq<Datasource>, hypercatJson: HypercatItem -> string)
    returns (env: seq<string>, hosts: Option<set<string>>)
    ensures hosts == DatasourceHosts(dss)
    ensures hosts.Some? ==> env == DatasourceEnv(dss, hypercatJson)
  {
    env := [];
    var found: set<string> := {};
    var i := 0;
    while i < |dss|
      invariant 0 <= i <= |dss|
      invariant DatasourceHosts(dss[..i]) == Some(found)
      invariant env == DatasourceEnv(dss[..i], hypercatJson)
    {
      DatasourceHostsNext(dss, i);
      DatasourceEnvNext(dss, i, hypercatJson);
      env := env + ["DATASOURCE_" + dss[i].clientId + "=" + hypercatJson(dss[i].hypercat)];
      var parsed := Url.Parse(dss[i].hypercat.href);
      if parsed.Err? {
        DatasourceHostsFailAt(dss, i);
        return env, None;
      }
      found := found + {Url.Hostname(parsed.value)};
      i := i + 1;
    }
    assert dss[..i] == dss;
    hosts := Some(found);
  }

  /** The network list getAppConfig returns: the keys of its network map,
      each once, in the map's iteration order. */
  method NetworkList(names: set<string>) returns (list: seq<string>)
    ensures Distinct(list)
    ensures forall n :: n in list <==> n in names
  {
    list := [];
    var rest := names;
    while rest != {}
      invariant rest <= names
      invariant Distinct(list)
      invariant forall n :: n in list <==> n in names && n !in rest
      decreases rest
    {
      var n :| n in rest;
      list := list + [n];
      rest := rest - {n};
    }
  }

  /** Registering the j-th name of a list after the earlier ones. */
  lemma NamesNext(before: set<string>, slas: seq<SLA>, j: nat)
    requires j < |slas|
    ensures before + Names(slas[..j + 1]) == before + Names(slas[..j]) + {slas[j].name}
  {
    assert slas[..j + 1][..j] == slas[..j];
  }

  lemma {:induction false} NamesJoin(first: seq<SLA>, second: seq<SLA>)
    ensures Names(first + second) == Names(first) + Names(second)
    decreases |second|
  {
    if second == [] {
      assert first + second == first;
    } else {
      var init := second[..|second| - 1];
      assert (first + second)[..|first + second| - 1] == first + init;
      NamesJoin(first, init);
    }
  }

  class Manager {
    const platform: Platform
    const arbiter: Arbiter
    const network: CoreNetwork
    const store: CMStore
    const proxy: ProxyMiddleware.DataboxProxyMiddleware
    const options: Options
    const rootCaId: string
    const zmqPublicId: string
    const zmqPrivateId: string
    /** GenCert and GenerateArbiterToken for a container name. */
    const genCert: string -> Bytes
    const genToken: string -> Bytes
    /** base64.StdEncoding.EncodeToString. */
    const base64: Bytes -> string
    /** json.Marshal of a catalogue item. */
    const hypercatJson: HypercatItem -> string

    ghost predicate Valid()
      reads platform, store
    {
      platform.Valid() && store.Valid()
    }

    constructor (platform: Platform, arbiter: Arbiter, network: CoreNetwork, store: CMStore,
                 proxy: ProxyMiddleware.DataboxProxyMiddleware, options: Options,
                 rootCaId: string, zmqPublicId: string, zmqPrivateId: string,
                 genCert: string -> Bytes, genToken: string -> Bytes, base64: Bytes -> string,
                 hypercatJson: HypercatItem -> string)
      ensures this.platform == platform && this.arbiter == arbiter && this.network == network
      ensures this.store == store && this.proxy == proxy && this.options == options
      ensures this.rootCaId == rootCaId && this.zmqPublicId == zmqPublicId && this.zmqPrivateId == zmqPrivateId
      ensures this.genCert == genCert && this.genToken == genToken && this.base64 == base64
      ensures this.hypercatJson == hypercatJson
    {
      this.platform := platform;
      this.arbiter := arbiter;
      this.network := network;
      this.store := store;
      this.proxy := proxy;
      this.options := options;
      this.rootCaId := rootCaId;
      this.zmqPublicId := zmqPublicId;
      this.zmqPrivateId := zmqPrivateId;
      this.genCert := genCert;
      this.genToken := genToken;
      this.base64 := base64;
      this.hypercatJson := hypercatJson;
    }

    /** The removal pass of createSecret: every secret the name filter lists
        is removed, and the platform refuses those a service still uses. */
    method ClearSecrets(filter: string)
      requires Valid()
      modifies platform
      ensures Valid()
      ensures platform.secrets == Cleared(old(platform.secrets), old(platform.services), filter)
      ensures platform.services == old(platform.services) && platform.tasks == old(platform.tasks)
      ensures platform.listings == old(platform.listings) && platform.pulls == old(platform.pulls)
      ensures platform.removedContainers == old(platform.removedContainers)
    {
      var ids := platform.SecretList(filter);
      ghost var listed := ids;
      ghost var used := UsedSecretIds(platform.services);
      while ids != {}
        invariant platform.Valid()
        invariant ids <= listed
        invariant platform.secrets == old(platform.secrets) - ((listed - ids) - used)
        invariant platform.services == old(platform.services) && platform.tasks == old(platform.tasks)
        invariant platform.listings == old(platform.listings) && platform.pulls == old(platform.pulls)
        invariant platform.removedContainers == old(platform.removedContainers)
        decreases ids
      {
        var id :| id in ids;
        var _ := platform.SecretRemove(id);
        ids := ids - {id};
      }
      assert listed - {} == listed;
    }

    /** createSecret: removes every secret the name filter lists, then
        creates one with the given data. */
    method CreateSecret(name: string, data: Bytes, fileName: string) returns (ref: SecretRef)
      requires Valid()
      modifies platform
      ensures Valid()
      ensures ref.secretName == name && ref.fileName == fileName
      ensures ref.secretId == [] <==> NameTaken(Cleared(old(platform.secrets), old(platform.services), name), name)
      ensures ref.secretId != [] ==> ref.secretId !in Cleared(old(platform.secrets), old(platform.services), name)
      ensures platform.secrets == AfterCreate(old(platform.secrets), old(platform.services), name, ref.secretId, data)
      ensures SecretsMatching(old(platform.secrets), name) !! UsedSecretIds(old(platform.services)) ==>
        ref.secretId != [] && OnlyHolder(platform.secrets, name, ref.secretId)
      ensures platform.services == old(platform.services) && platform.tasks == old(platform.tasks)
      ensures platform.listings == old(platform.listings) && platform.pulls == old(platform.pulls)
      ensures platform.removedContainers == old(platform.removedContainers)
    {
      ClearSecrets(name);
      var newId := platform.SecretCreate(name, data);
      ref := SecretRef(newId, name, fileName);
      assert NameMatches(name, name);
    }

    /** The two per-container secrets genorateSecrets creates: the
        certificate and the arbiter token, each under its own name. */
    method ContainerSecrets(containerName: string) returns (certRef: SecretRef, tokenRef: SecretRef)
      requires Valid()
      modifies platform
      ensures Valid()
      ensures certRef.secretName == CertSecretName(containerName) && certRef.fileName == "DATABOX.pem"
      ensures tokenRef.secretName == TokenSecretName(containerName) && tokenRef.fileName == "ARBITER_TOKEN"
      ensures certRef.secretId != [] ==>
        certRef.secretId in platform.secrets &&
        platform.secrets[certRef.secretId] == Secret(CertSecretName(containerName), genCert(containerName))
      ensures tokenRef.secretId != [] ==>
        tokenRef.secretId in platform.secrets &&
        platform.secrets[tokenRef.secretId] == Secret(TokenSecretName(containerName), genToken(containerName))
      ensures platform.services == old(platform.services) && platform.tasks == old(platform.tasks)
      ensures platform.listings == old(platform.listings) && platform.pulls == old(platform.pulls)
      ensures platform.removedContainers == old(platform.removedContainers)
    {
      var cert := genCert(containerName);
      certRef := CreateSecret(CertSecretName(containerName), cert, "DATABOX.pem");
      var token := genToken(containerName);
      ghost var between := platform.secrets;
      tokenRef := CreateSecret(TokenSecretName(containerName), token, "ARBITER_TOKEN");
      if certRef.secretId != [] {
        GeneratedNamesApart(containerName);
        AfterCreateKeepsOthers(between, platform.services, TokenSecretName(containerName), tokenRef.secretId, token, certRef.secretId);
      }
    }

    /** genorateSecrets: the root CA and ZMQ public key, fresh certificate
        and arbiter-token secrets for the container, the token registered
        with the arbiter, and the ZMQ private key for stores only. */
    method GenerateSecrets(containerName: string, databoxType: string) returns (refs: seq<SecretRef>)
      requires Valid()
      modifies platform, arbiter
      ensures Valid()
      ensures SecretBundle(refs, containerName, databoxType, rootCaId, zmqPublicId, zmqPrivateId)
      ensures refs[2].secretId != [] ==>
        refs[2].secretId in platform.secrets &&
        platform.secrets[refs[2].secretId] == Secret(CertSecretName(containerName), genCert(containerName))
      ensures refs[3].secretId != [] ==>
        refs[3].secretId in platform.secrets &&
        platform.secrets[refs[3].secretId] == Secret(TokenSecretName(containerName), genToken(containerName))
      ensures arbiter.tokens == old(arbiter.tokens) + [TokenUpdate(containerName, base64(genToken(containerName)), databoxType)]
      ensures arbiter.grants == old(arbiter.grants)
      ensures platform.services == old(platform.services) && platform.tasks == old(platform.tasks)
      ensures platform.listings == old(platform.listings) && platform.pulls == old(platform.pulls)
      ensures platform.removedContainers == old(platform.removedContainers)
    {
      var certRef, tokenRef := ContainerSecrets(containerName);
      arbiter.UpdateArbiter(containerName, base64(genToken(containerName)), databoxType);
      refs := Bundle(certRef, tokenRef, databoxType, rootCaId, zmqPublicId, zmqPrivateId);
      BundleIsGenerated(certRef, tokenRef, containerName, databoxType, rootCaId, zmqPublicId, zmqPrivateId);
    }

    /** pullImage: the image is pulled from the default registry host. */
    method PullImage(image: string)
      requires Valid()
      modifies platform
      ensures Valid()
      ensures platform.pulls == old(platform.pulls) + [options.defaultRegistryHost + "/" + image]
      ensures platform.services == old(platform.services) && platform.secrets == old(platform.secrets)
      ensures platform.tasks == old(platform.tasks) && platform.listings == old(platform.listings)
      ensures platform.removedContainers == old(platform.removedContainers)
      ensures platform.requested == old(platform.requested)
    {
      platform.ImagePull(options.defaultRegistryHost + "/" + image);
    }

    /** The part of launchStore that runs when no store of that name
        exists: secrets, image pull and service creation. */
    method CreateStoreService(storeName: string, netConf: NetworkConfig)
      requires Valid()
      requires !ServiceExists(platform.services, storeName)
      modifies platform, arbiter
      ensures Valid()
      ensures platform.pulls == old(platform.pulls) + [options.defaultRegistryHost + "/" + StoreImage(options)]
      ensures arbiter.tokens == old(arbiter.tokens) + [TokenUpdate(storeName, base64(genToken(storeName)), DataboxTypeStore)]
      ensures storeName in platform.rejected ==> platform.services == old(platform.services)
      ensures storeName !in platform.rejected ==>
        && old(platform.services) <= platform.services
        && StoreCreated(old(platform.services), platform.services, storeName, options, netConf,
                        rootCaId, zmqPublicId, zmqPrivateId)
      ensures arbiter.grants == old(arbiter.grants)
      ensures platform.tasks == old(platform.tasks) && platform.listings == old(platform.listings)
      ensures platform.removedContainers == old(platform.removedContainers)
    {
      var refs := GenerateSecrets(storeName, DataboxTypeStore);
      var spec := StoreSpec(storeName, options, netConf, refs);
      SubmitStore(spec);
      StoreCreatedBy(old(platform.services), spec, storeName, options, netConf, rootCaId, zmqPublicId, zmqPrivateId);
    }

    /** The store's image pull and service creation. */
    method SubmitStore(spec: ServiceSpec)
      requires Valid()
      requires !ServiceExists(platform.services, spec.name)
      modifies platform
      ensures Valid()
      ensures platform.pulls == old(platform.pulls) + [options.defaultRegistryHost + "/" + spec.image]
      ensures platform.services == if spec.name in platform.rejected then old(platform.services)
                                   else old(platform.services) + [spec]
      ensures platform.tasks == old(platform.tasks) && platform.listings == old(platform.listings)
      ensures platform.removedContainers == old(platform.removedContainers)
    {
      PullImage(spec.image);
      var _ := platform.ServiceCreate(spec);
    }

    /** launchStore: nothing happens when a service the store's name filter
        lists already exists; otherwise the store's secrets are generated,
        its image pulled and its service created. */
    method LaunchStore(storeName: string, netConf: NetworkConfig) returns (name: string)
      requires Valid()
      modifies platform, arbiter
      ensures Valid()
      ensures name == storeName
      ensures ServicesMatching(old(platform.services), storeName) != [] ==>
        platform.services == old(platform.services) && platform.secrets == old(platform.secrets) &&
        platform.pulls == old(platform.pulls) && arbiter.tokens == old(arbiter.tokens)
      ensures ServicesMatching(old(platform.services), storeName) == [] ==>
        && platform.pulls == old(platform.pulls) + [options.defaultRegistryHost + "/" + StoreImage(options)]
        && arbiter.tokens == old(arbiter.tokens) + [TokenUpdate(storeName, base64(genToken(storeName)), DataboxTypeStore)]
        && (storeName in platform.rejected ==> platform.services == old(platform.services))
        && (storeName !in platform.rejected ==>
              && old(platform.services) <= platform.services
              && StoreCreated(old(platform.services), platform.services, storeName, options, netConf,
                              rootCaId, zmqPublicId, zmqPrivateId))
      ensures arbiter.grants == old(arbiter.grants)
      ensures platform.tasks == old(platform.tasks) && platform.listings == old(platform.listings)
      ensures platform.removedContainers == old(platform.removedContainers)
    {
      var stores := platform.ServiceList(storeName);
      if |stores| > 0 {
        return storeName;
      }
      NoMatchNoService(platform.services, storeName);
      CreateStoreService(storeName, netConf);
      name := storeName;
    }

    /** The export part of addPermissionsFromSLA. */
    /** The hosts of one whitelist's URLs, in order; None where the Go
        loop dereferences the nil URL of one that does not parse. */
    method WhitelistHostList(urls: seq<string>) returns (hosts: Option<seq<string>>)
      ensures hosts == WhitelistHosts(urls)
    {
      var externals: seq<string> := [];
      var j := 0;
      while j < |urls|
        invariant 0 <= j <= |urls|
        invariant WhitelistHosts(urls[..j]) == Some(externals)
      {
        var parsed := Url.Parse(urls[j]);
        if parsed.Err? {
          WhitelistHostsFail(urls);
          return None;
        }
        WhitelistHostsStep(urls, j);
        externals := externals + [Url.Hostname(parsed.value)];
        j := j + 1;
      }
      assert urls[..j] == urls;
      hosts := Some(externals);
    }

    /** The ExternalWhitelist part: one ConnectEndpoints call per whitelist
        with the hosts of its URLs; a URL that does not parse panics. */
    method ConnectExternal(localName: string, wls: seq<ExternalWhitelist>) returns (panicked: bool)
      modifies network
      ensures panicked == ExternalConnects(localName, wls).panicked
      ensures network.calls == old(network.calls) + ExternalConnects(localName, wls).calls
    {
      var i := 0;
      while i < |wls|
        invariant 0 <= i <= |wls|
        invariant !ExternalConnects(localName, wls[..i]).panicked
        invariant network.calls == old(network.calls) + ExternalConnects(localName, wls[..i]).calls
      {
        var externals := WhitelistHostList(wls[i].urls);
        if externals.None? {
          ExternalConnectsStops(localName, wls, i);
          return true;
        }
        ExternalConnectsStep(localName, wls, i);
        network.ConnectEndpoints(localName, externals.value);
        i := i + 1;
      }
      assert wls[..i] == wls;
      panicked := false;
    }

    /** addPermissionsFromSLA. */
    method AddPermissionsFromSLA(sla: SLA) returns (panicked: bool)
      modifies arbiter, network
      ensures panicked == PermissionsFromSLA(sla).panicked
      ensures arbiter.grants == old(arbiter.grants) + PermissionsFromSLA(sla).grants
      ensures network.calls == old(network.calls) + PermissionsFromSLA(sla).connects
      ensures arbiter.tokens == old(arbiter.tokens)
    {
      var localName := LocalContainerName(sla);
      ghost var g0 := arbiter.grants;
      ghost var exports := ExportGrants(localName, sla.exportWhitelists);
      ghost var ext := if sla.databoxType == DataboxTypeDriver then ExternalConnects(localName, sla.externalWhitelist)
                       else Connects([], false);
      ghost var ds := if sla.databoxType == DataboxTypeApp then DatasourcesGrants(localName, sla.datasources)
                      else Issued([], false);
      GrantExport(arbiter, localName, sla.exportWhitelists);
      if sla.databoxType == DataboxTypeDriver && |sla.externalWhitelist| > 0 {
        panicked := ConnectExternal(localName, sla.externalWhitelist);
        if panicked {
          return;
        }
      }
      assert !ext.panicked && network.calls == old(network.calls) + ext.calls;
      if sla.databoxType == DataboxTypeApp && |sla.datasources| > 0 {
        panicked := GrantDatasources(arbiter, localName, sla.datasources);
        if panicked {
          AppendTwice(g0, exports, ds.grants);
          return;
        }
      }
      assert !ds.panicked && arbiter.grants == g0 + exports + ds.grants;
      AppendTwice(g0, exports, ds.grants);
      var storeGrants := if sla.store == [] then [] else StoreGrants(localName, RequiredStoreName(sla), true);
      if sla.store != [] {
        GrantStore(arbiter, localName, RequiredStoreName(sla), true);
      }
      AppendTwice(g0, exports + ds.grants, storeGrants);
      panicked := false;
    }

    /** WaitForContainer: polls the service's containers until one shows or
        more than `timeout` polls have come back empty. */
    method WaitForContainer(name: string, timeout: int) returns (r: Result<Container, string>)
      requires Valid()
      modifies platform
      ensures Valid()
      ensures old(platform.listings) < platform.listings <= old(platform.listings) + Bound(timeout) + 1
      ensures Quiet(platform.world, old(platform.listings), platform.listings - old(platform.listings) - 1, name)
      ensures r.Ok? ==> Listing(platform.world, platform.listings - 1, name) != [] &&
                        r.value == Listing(platform.world, platform.listings - 1, name)[0]
      ensures r.Err? ==> platform.listings == old(platform.listings) + Bound(timeout) + 1 &&
                         r.error == TimeoutMessage(timeout)
      ensures r.Err? <==> Quiet(platform.world, old(platform.listings), Bound(timeout) + 1, name)
      ensures platform.services == old(platform.services) && platform.secrets == old(platform.secrets)
      ensures platform.tasks == old(platform.tasks) && platform.pulls == old(platform.pulls)
      ensures platform.removedContainers == old(platform.removedContainers)
    {
      var loopCount := 0;
      while true
        invariant platform.Valid()
        invariant 0 <= loopCount <= Bound(timeout)
        invariant platform.listings == old(platform.listings) + loopCount
        invariant Quiet(platform.world, old(platform.listings), loopCount, name)
        invariant platform.services == old(platform.services) && platform.secrets == old(platform.secrets)
        invariant platform.tasks == old(platform.tasks) && platform.pulls == old(platform.pulls)
        invariant platform.removedContainers == old(platform.removedContainers)
        decreases Bound(timeout) - loopCount
      {
        var contList := platform.ContainerList(name);
        if |contList| > 0 {
          SeenNotQuiet(platform.world, old(platform.listings), Bound(timeout) + 1, platform.listings - 1, name);
          return Ok(contList[0]);
        }
        QuietExtend(platform.world, old(platform.listings), loopCount, name);
        loopCount := loopCount + 1;
        if loopCount > timeout {
          return Err(TimeoutMessage(timeout));
        }
      }
    }

    /** The second half of the steps Restart takes: note the address of the
        container found, remove it, and wait up to ten polls for the
        replacement swarm starts. */
    method RemoveAndWait(name: string, c: Container) returns (st: Stop)
      requires Valid()
      modifies platform
      ensures Valid()
      ensures platform.listings >= old(platform.listings)
      ensures RemoveOutcome(name, c, platform.unremovable, platform.world, old(platform.listings), platform.listings,
                            TimeoutMessage(10), st)
      ensures platform.removedContainers ==
        if c.id in platform.unremovable then old(platform.removedContainers) else old(platform.removedContainers) + [c.id]
      ensures platform.services == old(platform.services) && platform.secrets == old(platform.secrets)
      ensures platform.tasks == old(platform.tasks) && platform.pulls == old(platform.pulls)
    {
      var oldIp := IpOnNetwork(c.networks, ServiceOfStore(name));
      var removed := platform.ContainerRemove(c.id);
      if !removed {
        return NotStopped(CannotRemove(name));
      }
      var next := WaitForContainer(name, 10);
      assert Bound(10) + 1 == 11;
      st := Stopped(oldIp, next);
    }

    /** The steps Restart takes before it notifies core-network: find the
        service's container, then remove it and wait for its replacement. */
    method StopAndWait(name: string) returns (st: Stop)
      requires Valid()
      modifies platform
      ensures Valid()
      ensures platform.listings > old(platform.listings)
      ensures StopOutcome(name, Listing(platform.world, old(platform.listings), name), platform.unremovable,
                          platform.world, old(platform.listings), platform.listings, TimeoutMessage(10), st)
      ensures var first := Listing(platform.world, old(platform.listings), name);
        && (first == [] ==> platform.listings == old(platform.listings) + 1)
        && (first != [] && first[0].id !in platform.unremovable ==>
              platform.removedContainers == old(platform.removedContainers) + [first[0].id])
      ensures st.NotStopped? ==> platform.removedContainers == old(platform.removedContainers)
      ensures platform.services == old(platform.services) && platform.secrets == old(platform.secrets)
      ensures platform.tasks == old(platform.tasks) && platform.pulls == old(platform.pulls)
    {
      var contList := platform.ContainerList(name);
      if |contList| < 1 {
        return NotStopped(NotRunning(name));
      }
      st := RemoveAndWait(name, contList[0]);
    }

    /** The last step of Restart: look up the replacement's address and
        tell core-network the service moved. */
    method NotifyRestart(name: string, oldIp: string, replacement: Container)
      returns (err: Option<string>, newIp: string)
      modifies network
      ensures IpChoice(replacement.networks, ServiceOfStore(name), newIp)
      ensures network.calls == old(network.calls) + [ServiceRestartCall(name, oldIp, newIp)]
      ensures err == network.restartError(name, oldIp, newIp)
    {
      newIp := IpOnNetwork(replacement.networks, ServiceOfStore(name));
      err := network.ServiceRestart(name, oldIp, newIp);
    }

    /** What Restart does once StopAndWait has answered, for a service whose
        first listing (number `from`) showed `first`. */
    method ConcludeRestart(name: string, st: Stop, ghost first: seq<Container>, ghost from: nat)
      returns (err: Option<string>, ghost oldIp: string, ghost newIp: string)
      requires StopOutcome(name, first, platform.unremovable, platform.world, from, platform.listings,
                           TimeoutMessage(10), st)
      modifies network
      ensures RestartEffect(name, first, platform.unremovable, platform.world, from, platform.listings,
                            old(network.calls), network.calls, network.restartError, TimeoutMessage(10), err, oldIp, newIp)
    {
      if st.NotStopped? {
        return Some(st.err), "", "";
      }
      if st.next.Err? {
        return Some(st.next.error), "", "";
      }
      oldIp := st.oldIp;
      err, newIp := NotifyRestart(name, st.oldIp, st.next.value);
    }

    /** Restart, as it should behave: the wait's timeout error is returned
        instead of reading the missing container's networks. On success the
        ghost outputs are the addresses core-network was told about. */
    method Restart(name: string) returns (err: Option<string>, ghost oldIp: string, ghost newIp: string)
      requires Valid()
      modifies platform, network
      ensures Valid()
      ensures platform.listings > old(platform.listings)
      ensures RestartEffect(name, Listing(platform.world, old(platform.listings), name), platform.unremovable,
                            platform.world, old(platform.listings), platform.listings,
                            old(network.calls), network.calls, network.restartError, TimeoutMessage(10), err, oldIp, newIp)
      ensures platform.services == old(platform.services) && platform.secrets == old(platform.secrets)
    {
      ghost var first := Listing(platform.world, platform.listings, name);
      ghost var from := platform.listings;
      var st := StopAndWait(name);
      err, oldIp, newIp := ConcludeRestart(name, st, first, from);
    }

    /** Restart as written: when no replacement container shows within the
        wait, the error is only logged and the empty container's network
        settings are dereferenced, so the call panics. */
    method RestartAsWritten(name: string) returns (out: RestartOutcome, ghost oldIp: string, ghost newIp: string)
      requires Valid()
      modifies platform, network
      ensures Valid()
      ensures platform.listings > old(platform.listings)
      ensures var first := Listing(platform.world, old(platform.listings), name);
        && (out == RestartPanicked <==>
              first != [] && first[0].id !in platform.unremovable &&
              Quiet(platform.world, old(platform.listings) + 1, 11, name))
        && (first == [] ==> out == Restarted(Some(NotRunning(name))))
        && (first != [] && first[0].id in platform.unremovable ==> out == Restarted(Some(CannotRemove(name))))
      ensures out == RestartPanicked ==> network.calls == old(network.calls)
      ensures out.Restarted? ==>
        RestartEffect(name, Listing(platform.world, old(platform.listings), name), platform.unremovable,
                      platform.world, old(platform.listings), platform.listings,
                      old(network.calls), network.calls, network.restartError, TimeoutMessage(10), out.err, oldIp, newIp)
      ensures platform.services == old(platform.services) && platform.secrets == old(platform.secrets)
    {
      ghost var first := Listing(platform.world, platform.listings, name);
      ghost var from := platform.listings;
      var st := StopAndWait(name);
      StopOutcomeCases(name, first, platform.unremovable, platform.world, from, platform.listings,
                       TimeoutMessage(10), st);
      out, oldIp, newIp := ConcludeAsWritten(name, st, first, from);
    }

    /** What Restart as written does once StopAndWait has answered: a failed
        wait is not returned, and the missing container is dereferenced. */
    method ConcludeAsWritten(name: string, st: Stop, ghost first: seq<Container>, ghost from: nat)
      returns (out: RestartOutcome, ghost oldIp: string, ghost newIp: string)
      requires StopOutcome(name, first, platform.unremovable, platform.world, from, platform.listings,
                           TimeoutMessage(10), st)
      modifies network
      ensures out == RestartPanicked <==> st.Stopped? && st.next.Err?
      ensures out == RestartPanicked ==> network.calls == old(network.calls)
      ensures st.NotStopped? ==> out == Restarted(Some(st.err))
      ensures out.Restarted? ==>
        RestartEffect(name, first, platform.unremovable, platform.world, from, platform.listings,
                      old(network.calls), network.calls, network.restartError, TimeoutMessage(10), out.err, oldIp, newIp)
    {
      if st.Stopped? && st.next.Err? {
        return RestartPanicked, "", "";
      }
      var err;
      err, oldIp, newIp := ConcludeRestart(name, st, first, from);
      out := Restarted(err);
    }

    /** The first steps of Uninstall: list the services the name filter
        matches, and for the first of them fetch its network configuration
        from core-network and remove the service. */
    method DetachService(name: string) returns (target: Option<ServiceSpec>, config: NetworkConfig)
      requires Valid()
      modifies platform, network
      ensures Valid()
      ensures ServicesMatching(old(platform.services), name) == [] ==>
        target.None? && platform.services == old(platform.services) && network.calls == old(network.calls)
      ensures ServicesMatching(old(platform.services), name) != [] ==>
        && target == Some(ServicesMatching(old(platform.services), name)[0])
        && config == network.configOf(target.value.name)
        && platform.services == WithoutService(old(platform.services), target.value.name)
        && network.calls == old(network.calls) + [NetworkOfServiceCall(target.value.name)]
      ensures platform.secrets == old(platform.secrets) && platform.tasks == old(platform.tasks)
      ensures platform.listings == old(platform.listings) && platform.pulls == old(platform.pulls)
      ensures platform.removedContainers == old(platform.removedContainers)
      ensures ServiceExists(old(platform.services), name) ==>
        target.Some? && target.value.name == name && platform.services == WithoutService(old(platform.services), name)
    {
      if ServiceExists(platform.services, name) {
        ExactNameListedFirst(platform.services, name);
      }
      var serList := platform.ServiceList(name);
      if |serList| < 1 {
        return None, NetworkConfig("", "");
      }
      config := network.NetworkOfService(serList[0].name);
      var _ := platform.ServiceRemove(serList[0].name);
      target := Some(serList[0]);
    }

    /** The last steps of Uninstall: tell core-network the service is gone
        and delete its SLA from the store; both errors are ignored. */
    method FinishUninstall(name: string, config: NetworkConfig)
      requires Valid()
      modifies network, store
      ensures Valid()
      ensures network.calls == old(network.calls) + [PostUninstallCall(name, config)]
      ensures store.reachable ==> store.kv == old(store.kv) - {name}
      ensures !store.reachable ==> store.kv == old(store.kv)
    {
      network.PostUninstall(name, config);
      var _ := store.DeleteSLA(name);
    }

    /** The secret pass of Uninstall as written: the services the name filter
        lists after the removal are still running, so every secret they
        reference is in use and the platform refuses each removal. */
    method RemoveListedSecrets(name: string)
      requires Valid()
      modifies platform
      ensures Valid()
      ensures platform.secrets == old(platform.secrets)
      ensures platform.services == old(platform.services) && platform.tasks == old(platform.tasks)
      ensures platform.listings == old(platform.listings) && platform.pulls == old(platform.pulls)
      ensures platform.removedContainers == old(platform.removedContainers)
    {
      var serviceList := platform.ServiceList(name);
      var i := 0;
      while i < |serviceList|
        invariant 0 <= i <= |serviceList|
        invariant platform.Valid()
        invariant platform.secrets == old(platform.secrets) && platform.services == old(platform.services)
        invariant platform.tasks == old(platform.tasks) && platform.listings == old(platform.listings)
        invariant platform.pulls == old(platform.pulls) && platform.removedContainers == old(platform.removedContainers)
      {
        var refs := serviceList[i].secrets;
        assert serviceList[i] in platform.services;
        var j := 0;
        while j < |refs|
          invariant 0 <= j <= |refs|
          invariant platform.Valid()
          invariant platform.secrets == old(platform.secrets) && platform.services == old(platform.services)
          invariant platform.tasks == old(platform.tasks) && platform.listings == old(platform.listings)
          invariant platform.pulls == old(platform.pulls) && platform.removedContainers == old(platform.removedContainers)
        {
          assert refs[j] in serviceList[i].secrets;
          assert refs[j].secretId in UsedSecretIds(platform.services);
          var _ := platform.SecretRemove(refs[j].secretId);
          j := j + 1;
        }
        i := i + 1;
      }
    }

    /** Uninstall as written: the secrets of the removed service are never
        removed, because the secret pass lists the services that remain. */
    method UninstallAsWritten(name: string) returns (err: Option<string>)
      requires Valid()
      modifies platform, network, store
      ensures Valid()
      ensures var listed := ServicesMatching(old(platform.services), name);
        && (listed == [] ==>
              && err == Some(NotRunning(name))
              && platform.services == old(platform.services)
              && network.calls == old(network.calls) && store.kv == old(store.kv))
        && (listed != [] ==>
              && err.None?
              && platform.services == WithoutService(old(platform.services), listed[0].name)
              && network.calls == old(network.calls) + [NetworkOfServiceCall(listed[0].name),
                                                        PostUninstallCall(name, network.configOf(listed[0].name))]
              && (store.reachable ==> store.kv == old(store.kv) - {name})
              && (!store.reachable ==> store.kv == old(store.kv)))
      ensures platform.secrets == old(platform.secrets)
      ensures ServiceExists(old(platform.services), name) ==>
        err.None? && platform.services == WithoutService(old(platform.services), name)
    {
      var target, config := DetachService(name);
      if target.None? {
        return Some(NotRunning(name));
      }
      CompleteAsWritten(name, config);
      err := None;
    }

    /** The steps of Uninstall as written after the service is removed: the
        secret pass, which removes nothing, then core-network and the store. */
    method CompleteAsWritten(name: string, config: NetworkConfig)
      requires Valid()
      modifies platform, network, store
      ensures Valid()
      ensures platform.services == old(platform.services) && platform.secrets == old(platform.secrets)
      ensures network.calls == old(network.calls) + [PostUninstallCall(name, config)]
      ensures store.reachable ==> store.kv == old(store.kv) - {name}
      ensures !store.reachable ==> store.kv == old(store.kv)
    {
      RemoveListedSecrets(name);
      FinishUninstall(name, config);
    }

    /** Uninstall, as it should behave: after the service is removed, its own
        certificate and arbiter-token secrets are removed as createSecret
        clears them (a secret another service still uses stays). */
    method Uninstall(name: string) returns (err: Option<string>)
      requires Valid()
      modifies platform, network, store
      ensures Valid()
      ensures var listed := ServicesMatching(old(platform.services), name);
        && (listed == [] ==>
              && err == Some(NotRunning(name))
              && platform.services == old(platform.services) && platform.secrets == old(platform.secrets)
              && network.calls == old(network.calls) && store.kv == old(store.kv))
        && (listed != [] ==>
              && err.None?
              && platform.services == WithoutService(old(platform.services), listed[0].name)
              && platform.secrets == Cleared(Cleared(old(platform.secrets), platform.services, CertSecretName(listed[0].name)),
                                             platform.services, TokenSecretName(listed[0].name))
              && network.calls == old(network.calls) + [NetworkOfServiceCall(listed[0].name),
                                                        PostUninstallCall(name, network.configOf(listed[0].name))]
              && (store.reachable ==> store.kv == old(store.kv) - {name})
              && (!store.reachable ==> store.kv == old(store.kv)))
      ensures ServiceExists(old(platform.services), name) ==>
        && err.None?
        && platform.services == WithoutService(old(platform.services), name)
        && platform.secrets == Cleared(Cleared(old(platform.secrets), platform.services, CertSecretName(name)),
                                       platform.services, TokenSecretName(name))
    {
      var target, config := DetachService(name);
      if target.None? {
        return Some(NotRunning(name));
      }
      CompleteUninstall(name, target.value.name, config);
      err := None;
    }

    /** The steps of Uninstall after the service `removed` is gone: its
        certificate and token secrets are cleared, then core-network and the
        store are told. */
    method CompleteUninstall(name: string, removed: string, config: NetworkConfig)
      requires Valid()
      modifies platform, network, store
      ensures Valid()
      ensures platform.services == old(platform.services)
      ensures platform.secrets == Cleared(Cleared(old(platform.secrets), platform.services, CertSecretName(removed)),
                                          platform.services, TokenSecretName(removed))
      ensures network.calls == old(network.calls) + [PostUninstallCall(name, config)]
      ensures store.reachable ==> store.kv == old(store.kv) - {name}
      ensures !store.reachable ==> store.kv == old(store.kv)
    {
      ClearSecrets(CertSecretName(removed));
      ClearSecrets(TokenSecretName(removed));
      FinishUninstall(name, config);
    }


    /** getDriverConfig: the driver's spec, after its secrets are generated,
        and the arbiter network. */
    method DriverConfig(sla: SLA, netConf: NetworkConfig) returns (spec: ServiceSpec, networks: seq<string>)
      requires Valid()
      modifies platform, arbiter
      ensures Valid()
      ensures arbiter.tokens == old(arbiter.tokens) + [TokenUpdate(LocalContainerName(sla),
                                                                   base64(genToken(LocalContainerName(sla))), sla.databoxType)]
      ensures IsConfigSpec(spec, sla.(databoxType := DataboxTypeDriver), options, netConf, hypercatJson)
      ensures SecretBundle(spec.secrets, LocalContainerName(sla), sla.databoxType, rootCaId, zmqPublicId, zmqPrivateId)
      ensures networks == ["arbiter"]
      ensures arbiter.grants == old(arbiter.grants)
      ensures platform.services == old(platform.services) && platform.tasks == old(platform.tasks)
      ensures platform.listings == old(platform.listings) && platform.pulls == old(platform.pulls)
      ensures platform.removedContainers == old(platform.removedContainers)
    {
      var localName := LocalContainerName(sla);
      var image := RegistryUrl(options.defaultRegistry, sla.storeUrl) + sla.name + ":" + options.version;
      var refs := GenerateSecrets(localName, sla.databoxType);
      spec := ServiceSpec(localName, Some(DataboxTypeDriver), image, [ArbiterEnv, "DATABOX_LOCAL_NAME=" + localName],
                          refs, netConf.dns, netConf.networkName, []);
      DriverSpecIsConfig(sla, options, netConf, hypercatJson, spec);
      networks := ["arbiter"];
    }

    /** getAppConfig: the app's spec, after its secrets are generated, with
        one variable per data source, and the networks of arbiter,
        export-service and every data source's host; panics when a data
        source's href does not parse. */
    method AppConfig(sla: SLA, netConf: NetworkConfig) returns (c: Config)
      requires Valid()
      modifies platform, arbiter
      ensures Valid()
      ensures c != NoSpec
      ensures arbiter.tokens == old(arbiter.tokens) + [TokenUpdate(LocalContainerName(sla),
                                                                   base64(genToken(LocalContainerName(sla))), sla.databoxType)]
      ensures c == ConfigPanicked <==> DatasourceHosts(sla.datasources).None?
      ensures c.Spec? ==>
        && IsConfigSpec(c.spec, sla.(databoxType := DataboxTypeApp), options, netConf, hypercatJson)
        && SecretBundle(c.spec.secrets, LocalContainerName(sla), sla.databoxType, rootCaId, zmqPublicId, zmqPrivateId)
        && Distinct(c.networks)
        && forall n :: n in c.networks <==> n in ConfigNetworks(sla.(databoxType := DataboxTypeApp),
                                                                DatasourceHosts(sla.datasources).value)
      ensures arbiter.grants == old(arbiter.grants)
      ensures platform.services == old(platform.services) && platform.tasks == old(platform.tasks)
      ensures platform.listings == old(platform.listings) && platform.pulls == old(platform.pulls)
      ensures platform.removedContainers == old(platform.removedContainers)
    {
      var localName := LocalContainerName(sla);
      var image := RegistryUrl(options.defaultRegistry, sla.storeUrl) + sla.name + ":" + options.version;
      var refs := GenerateSecrets(localName, sla.databoxType);
      var dsEnv, hosts := DatasourceConfig(sla.datasources, hypercatJson);
      if hosts.None? {
        return ConfigPanicked;
      }
      var networks := NetworkList({"arbiter", "export-service"} + hosts.value);
      var env := [ArbiterEnv, "DATABOX_LOCAL_NAME=" + localName] + ([ExportServiceEnv] + dsEnv);
      var spec := ServiceSpec(localName, Some(DataboxTypeApp), image, env, refs, netConf.dns, netConf.networkName, []);
      c := Spec(spec, networks);
    }

    /** The switch on the SLA's type in LaunchFromSLA: getAppConfig for an
        app, getDriverConfig for a driver, and no spec for any other type. */
    method WorkloadConfig(sla: SLA, netConf: NetworkConfig) returns (c: Config)
      requires Valid()
      modifies platform, arbiter
      ensures Valid()
      ensures c == NoSpec <==> !KnownType(sla)
      ensures !KnownType(sla) ==> platform.secrets == old(platform.secrets) && arbiter.tokens == old(arbiter.tokens)
      ensures KnownType(sla) ==>
        arbiter.tokens == old(arbiter.tokens) + [TokenUpdate(LocalContainerName(sla),
                                                             base64(genToken(LocalContainerName(sla))), sla.databoxType)]
      ensures c == ConfigPanicked <==> ConfigPanics(sla)
      ensures Configured(c, sla, options, netConf, hypercatJson, rootCaId, zmqPublicId, zmqPrivateId)
      ensures arbiter.grants == old(arbiter.grants)
      ensures platform.services == old(platform.services) && platform.tasks == old(platform.tasks)
      ensures platform.listings == old(platform.listings) && platform.pulls == old(platform.pulls)
      ensures platform.removedContainers == old(platform.removedContainers)
    {
      if sla.databoxType == DataboxTypeApp {
        c := AppConfig(sla, netConf);
        AppConfigured(c, sla, options, netConf, hypercatJson, rootCaId, zmqPublicId, zmqPrivateId);
      } else if sla.databoxType == DataboxTypeDriver {
        var spec, networks := DriverConfig(sla, netConf);
        DriverConfigured(spec, sla, options, netConf, hypercatJson, rootCaId, zmqPublicId, zmqPrivateId);
        c := Spec(spec, networks);
      } else {
        c := NoSpec;
      }
    }

    /** LaunchFromSLA's store step: the two store variables are added to the
        spec, the store is launched, its name is added to the networks to
        connect, and the manager waits for its container, ignoring the
        outcome. */
    method AttachStore(sla: SLA, spec: ServiceSpec, networks: seq<string>, netConf: NetworkConfig)
      returns (withStore: ServiceSpec, allNetworks: seq<string>)
      requires Valid() && sla.store != []
      modifies platform, arbiter
      ensures Valid()
      ensures withStore == spec.(env := spec.env + StoreEnv(RequiredStoreName(sla)))
      ensures allNetworks == networks + [RequiredStoreName(sla)]
      ensures old(platform.services) <= platform.services
      ensures arbiter.grants == old(arbiter.grants)
    {
      var storeName := RequiredStoreName(sla);
      withStore := spec.(env := spec.env + ["DATABOX_ZMQ_ENDPOINT=tcp://" + storeName + ":5555"]);
      withStore := withStore.(env := withStore.env + ["DATABOX_ZMQ_DEALER_ENDPOINT=tcp://" + storeName + ":5556"]);
      assert withStore.env == spec.env + StoreEnv(storeName);
      var _ := LaunchStore(storeName, netConf);
      allNetworks := networks + [storeName];
      var _ := WaitForContainer(storeName, 10);
    }

    /** Deploy's first steps: connect the networks, pull the image and
        create the service (a failure is only logged). */
    method Submit(sla: SLA, spec: ServiceSpec, networks: seq<string>)
      requires Valid()
      modifies platform, network
      ensures Valid()
      ensures platform.requested == old(platform.requested) + [spec]
      ensures network.calls == old(network.calls) + [ConnectEndpointsCall(LocalContainerName(sla), networks)]
      ensures spec.name !in platform.rejected ==> ServiceExists(platform.services, spec.name)
      ensures platform.pulls == old(platform.pulls) + [options.defaultRegistryHost + "/" + spec.image]
      ensures platform.services ==
        if ServiceExists(old(platform.services), spec.name) || spec.name in platform.rejected
        then old(platform.services) else old(platform.services) + [spec]
      ensures platform.secrets == old(platform.secrets)
    {
      network.ConnectEndpoints(LocalContainerName(sla), networks);
      PullImage(spec.image);
      var _ := platform.ServiceCreate(spec);
    }

    /** Deploy's last steps: grant the SLA's permissions and, unless that
        panics, save the SLA (a failure is only logged). */
    method Register(sla: SLA) returns (out: Launch)
      requires Valid()
      modifies arbiter, network, store
      ensures Valid()
      ensures out == LaunchPanicked <==> PermissionsFromSLA(sla).panicked
      ensures network.calls == old(network.calls) + PermissionsFromSLA(sla).connects
      ensures arbiter.grants == old(arbiter.grants) + PermissionsFromSLA(sla).grants
      ensures arbiter.tokens == old(arbiter.tokens)
      ensures store.kv == if out == Launched then SavedKv(old(store.kv), sla, store.encode(sla), store.reachable)
                          else old(store.kv)
    {
      var panicked := AddPermissionsFromSLA(sla);
      if panicked {
        return LaunchPanicked;
      }
      var _ := store.SaveSLA(sla);
      out := Launched;
    }

    /** The second half of LaunchFromSLA: connect the networks, pull the
        image, create the service, grant the SLA's permissions and save the
        SLA. */
    method Deploy(sla: SLA, spec: ServiceSpec, networks: seq<string>) returns (out: Launch)
      requires Valid()
      modifies platform, arbiter, network, store
      ensures Valid()
      ensures platform.requested == old(platform.requested) + [spec]
      ensures platform.requested != [] && platform.requested[|platform.requested| - 1] == spec
      ensures out == LaunchPanicked <==> PermissionsFromSLA(sla).panicked
      ensures network.calls == old(network.calls) + DeployCalls(sla, networks)
      ensures arbiter.grants == old(arbiter.grants) + PermissionsFromSLA(sla).grants
      ensures arbiter.tokens == old(arbiter.tokens)
      ensures spec.name !in platform.rejected ==> ServiceExists(platform.services, spec.name)
      ensures platform.pulls == old(platform.pulls) + [options.defaultRegistryHost + "/" + spec.image]
      ensures platform.services ==
        if ServiceExists(old(platform.services), spec.name) || spec.name in platform.rejected
        then old(platform.services) else old(platform.services) + [spec]
      ensures platform.secrets == old(platform.secrets)
      ensures store.kv == if out == Launched then SavedKv(old(store.kv), sla, store.encode(sla), store.reachable)
                          else old(store.kv)
    {
      Submit(sla, spec, networks);
      out := Register(sla);
      AppendTwice(old(network.calls), [ConnectEndpointsCall(LocalContainerName(sla), networks)],
                  PermissionsFromSLA(sla).connects);
    }

    /** A configured workload with the store step done when there is a
        store. */
    method Complete(sla: SLA, c: Config, netConf: NetworkConfig) returns (r: Config)
      requires Valid() && c.Spec?
      requires Configured(c, sla, options, netConf, hypercatJson, rootCaId, zmqPublicId, zmqPrivateId)
      modifies platform, arbiter
      ensures Valid()
      ensures r.Spec? && r.spec.name == LocalContainerName(sla)
      ensures ReadyFor(r.spec, r.networks, sla, options, netConf, hypercatJson, rootCaId, zmqPublicId, zmqPrivateId)
      ensures old(platform.services) <= platform.services
      ensures arbiter.grants == old(arbiter.grants)
    {
      ConfiguredIsReady(c, sla, options, netConf, hypercatJson, rootCaId, zmqPublicId, zmqPrivateId);
      r := c;
      if sla.store != [] {
        var spec, targets := AttachStore(sla, c.spec, c.networks, netConf);
        r := Spec(spec, targets);
      }
    }

    /** The configuration for a known type, with the store step done when
        there is a store. */
    method Build(sla: SLA, netConf: NetworkConfig) returns (c: Config)
      requires Valid() && KnownType(sla)
      modifies platform, arbiter
      ensures Valid()
      ensures c == ConfigPanicked <==> ConfigPanics(sla)
      ensures Built(c, sla, options, netConf, hypercatJson, rootCaId, zmqPublicId, zmqPrivateId)
      ensures old(platform.services) <= platform.services
      ensures arbiter.grants == old(arbiter.grants)
    {
      c := WorkloadConfig(sla, netConf);
      if c.Spec? {
        c := Complete(sla, c, netConf);
      }
    }

    /** The first half of LaunchFromSLA: core-network's configuration for
        the workload, the configuration for its type and, with a store, the
        store step. A type that is neither app nor driver leaves the
        container spec missing: with a store, adding the store variables
        dereferences it; without one, the endpoints are connected and pulling
        the image dereferences it. */
    method Prepare(sla: SLA) returns (c: Config)
      requires Valid()
      modifies platform, arbiter, network
      ensures Valid()
      ensures c != NoSpec
      ensures c == ConfigPanicked <==> !KnownType(sla) || ConfigPanics(sla)
      ensures network.calls == old(network.calls) + PrepareCalls(sla)
      ensures !KnownType(sla) ==> platform.services == old(platform.services)
      ensures c.Spec? ==>
        c.spec.name == LocalContainerName(sla) &&
        ReadyFor(c.spec, c.networks, sla, options, network.configOf(LocalContainerName(sla)), hypercatJson,
                 rootCaId, zmqPublicId, zmqPrivateId)
      ensures old(platform.services) <= platform.services
      ensures arbiter.grants == old(arbiter.grants)
    {
      var netConf := network.PreConfig(LocalContainerName(sla));
      if !KnownType(sla) {
        if sla.store == [] {
          network.ConnectEndpoints(LocalContainerName(sla), []);
          AppendTwice(old(network.calls), [PreConfigCall(LocalContainerName(sla))],
                      [ConnectEndpointsCall(LocalContainerName(sla), [])]);
        }
        return ConfigPanicked;
      }
      c := Build(sla, netConf);
    }

    /** LaunchFromSLA: the workload is prepared and deployed. It returns
        success whether or not the service could be created; the model's
        outcome only tells a panic apart. The ghost outputs are the prepared
        configuration and the core-network calls made. */
    method LaunchFromSLA(sla: SLA) returns (out: Launch, ghost prepared: Config, ghost steps: seq<NetCall>)
      requires Valid()
      modifies platform, arbiter, network, store
      ensures Valid()
      ensures out == LaunchPanicked <==> LaunchPanics(sla)
      ensures network.calls == old(network.calls) + steps
      ensures steps != [] && steps[0] == PreConfigCall(LocalContainerName(sla))
      ensures !KnownType(sla) ==>
        && steps == PrepareCalls(sla)
        && platform.services == old(platform.services) && arbiter.grants == old(arbiter.grants)
        && store.kv == old(store.kv)
      ensures out == Launched ==>
        && prepared.Spec?
        && ReadyFor(prepared.spec, prepared.networks, sla, options, network.configOf(LocalContainerName(sla)),
                    hypercatJson, rootCaId, zmqPublicId, zmqPrivateId)
        && platform.requested != [] && platform.requested[|platform.requested| - 1] == prepared.spec
        && steps == [PreConfigCall(LocalContainerName(sla))] + DeployCalls(sla, prepared.networks)
        && arbiter.grants == old(arbiter.grants) + PermissionsFromSLA(sla).grants
        && (LocalContainerName(sla) !in platform.rejected ==> ServiceExists(platform.services, LocalContainerName(sla)))
        && store.kv == SavedKv(old(store.kv), sla, store.encode(sla), store.reachable)
    {
      var c := Prepare(sla);
      prepared, steps := c, PrepareCalls(sla);
      if c == ConfigPanicked {
        return LaunchPanicked, prepared, steps;
      }
      out := Deploy(sla, c.spec, c.networks);
      AppendTwice(old(network.calls), [PreConfigCall(LocalContainerName(sla))], DeployCalls(sla, c.networks));
      steps := [PreConfigCall(LocalContainerName(sla))] + DeployCalls(sla, c.networks);
    }

    /** One pass of a reloadApps loop: launch the SLA and, unless the
        launch panicked, register its name with the proxy. */
    method LaunchOne(sla: SLA) returns (out: Launch, ghost steps: seq<NetCall>)
      requires Valid()
      modifies platform, arbiter, network, store, proxy
      ensures Valid()
      ensures out == LaunchPanicked <==> LaunchPanics(sla)
      ensures network.calls == old(network.calls) + steps
      ensures steps != [] && steps[0] == PreConfigCall(LocalContainerName(sla))
      ensures proxy.proxyList == if out == LaunchPanicked then old(proxy.proxyList) else old(proxy.proxyList) + {sla.name}
    {
      var launched, _, launchSteps := LaunchFromSLA(sla);
      out, steps := launched, launchSteps;
      if out == Launched {
        proxy.Add(sla.name);
      }
    }

    /** One loop of reloadApps: every SLA of the given type is launched and
        registered with the proxy, in list order; SLAs of other types are
        skipped, so the loop walks the list filtered by type. A panic stops
        the loop after the SLA that caused it, which is not registered. The
        ghost output holds each launch's core-network calls. */
    method LaunchAll(slaList: seq<SLA>, databoxType: string) returns (panicked: bool, ghost launches: seq<seq<NetCall>>)
      requires Valid()
      modifies platform, arbiter, network, store, proxy
      ensures Valid()
      ensures Replayed(OfType(slaList, databoxType), launches, old(network.calls), network.calls,
                       old(proxy.proxyList), proxy.proxyList, panicked)
    {
      var todo := OfType(slaList, databoxType);
      ghost var c0 := network.calls;
      ghost var p0 := proxy.proxyList;
      launches := [];
      var j := 0;
      while j < |todo|
        invariant 0 <= j <= |todo| && |launches| == j
        invariant Valid()
        invariant Preconfigures(launches, todo[..j])
        invariant network.calls == c0 + Concat(launches)
        invariant proxy.proxyList == p0 + Names(todo[..j])
      {
        var out, steps := LaunchOne(todo[j]);
        PreconfiguresNext(launches, todo, j, steps);
        AppendTwice(c0, Concat(launches), steps);
        launches := launches + [steps];
        if out == LaunchPanicked {
          return true, launches;
        }
        NamesNext(p0, todo, j);
        j := j + 1;
      }
      assert todo[..j] == todo;
      return false, launches;
    }

    /** reloadApps: the saved SLAs are read (none when the store cannot be
        listed); every driver is launched and registered with the proxy,
        then every app. A panic stops the replay. The ghost output holds
        each launch's core-network calls: each begins by pre-configuring the
        next SLA of the reload order. */
    method ReloadApps() returns (panicked: bool, ghost launches: seq<seq<NetCall>>)
      requires Valid()
      modifies platform, arbiter, network, store, proxy
      ensures Valid()
      ensures Replayed(ReloadOrder(if store.reachable then Collected(old(store.order), old(store.kv),
                                                                    store.unreadable, store.decode) else []),
                       launches, old(network.calls), network.calls, old(proxy.proxyList), proxy.proxyList, panicked)
    {
      var slaList, _ := store.GetAllSLAs();
      ghost var drivers := OfType(slaList, DataboxTypeDriver);
      ghost var apps := OfType(slaList, DataboxTypeApp);
      ghost var calls0, registered0 := network.calls, proxy.proxyList;
      ghost var first;
      panicked, first := LaunchAll(slaList, DataboxTypeDriver);
      if panicked {
        ReplayedStops(drivers, apps, first, calls0, network.calls, registered0, proxy.proxyList);
        return panicked, first;
      }
      ghost var calls1, registered1 := network.calls, proxy.proxyList;
      ghost var second;
      panicked, second := LaunchAll(slaList, DataboxTypeApp);
      ReplayedThen(drivers, apps, first, second, calls0, calls1, network.calls, registered0, registered1, proxy.proxyList, panicked);
      launches := first + second;
    }
  }
}
