/** The earlier container manager, still shipped beside the current one.
    It differs from the current manager in ways a caller can see: every
    driver gets a store (named "<name>-" when its SLA names none), the
    store service is created without looking for an existing one, images
    always come from databoxsystems/, certificate and token secrets are
    created without removing older ones of the same name, no workload is
    granted DELETE on its store, an unrecognised type launches nothing,
    Restart reports a timeout instead of panicking, and Uninstall removes
    the workload's secrets itself while core-network and the SLA store are
    not told. */
module LegacyContainerManager {
  import opened Base
  import opened DataboxTypes
  import opened Swarm
  import opened Collaborators
  import opened Grants
  import opened CMStoreClient
  import Url
  import CM = ContainerManager

  /** ARCH: "arm" when GOARCH is arm, empty otherwise. */
  function ArchOf(goarch: string): (arch: string)
    ensures arch == "arm" || arch == []
    ensures arch == "arm" <==> goarch == "arm"
  {
    if goarch == "arm" then "arm" else ""
  }

  const Registry: string := "databoxsystems/"

  function Image(name: string, version: string): string
  {
    Registry + name + ":" + version
  }

  function LocalName(sla: SLA, arch: string): string
  {
    sla.name + arch
  }

  /** The store's name: the workload's name, "-", the store type and ARCH,
      whether or not the SLA names a store type. */
  function StoreName(sla: SLA, arch: string): string
  {
    sla.name + "-" + sla.store + arch
  }

  /** A store-creating call's effect on the services: the platform adds the
      spec unless the name is taken or refused. */
  function Submitted(services: seq<ServiceSpec>, spec: ServiceSpec, rejected: set<string>): seq<ServiceSpec>
  {
    if ServiceExists(services, spec.name) || spec.name in rejected then services else services + [spec]
  }

  /** The store service launchStore submits. */
  function StoreSpec(sla: SLA, arch: string, version: string, netConf: NetworkConfig, refs: seq<SecretRef>): ServiceSpec
  {
    var name := StoreName(sla, arch);
    ServiceSpec(name, Some(DataboxTypeStore), Image(sla.store, version),
                [CM.ArbiterEnv, "DATABOX_LOCAL_NAME=" + name], refs,
                netConf.dns, netConf.networkName, [Mount(name, "/database")])
  }

  /** The driver service launchDriver submits: the store variables always
      follow the arbiter and name variables. */
  function DriverSpec(sla: SLA, arch: string, version: string, netConf: NetworkConfig, refs: seq<SecretRef>): ServiceSpec
  {
    var local := LocalName(sla, arch);
    ServiceSpec(local, Some(DataboxTypeDriver), Image(sla.name, version),
                [CM.ArbiterEnv, "DATABOX_LOCAL_NAME=" + local] + CM.StoreEnv(StoreName(sla, arch)), refs,
                netConf.dns, netConf.networkName, [])
  }

  /** The app's environment: arbiter, name and export-service, one variable
      per data source, then the store variables when there is a store. */
  function AppEnv(sla: SLA, arch: string, hypercatJson: HypercatItem -> string): seq<string>
  {
    var base := [CM.ArbiterEnv, "DATABOX_LOCAL_NAME=" + LocalName(sla, arch), CM.ExportServiceEnv] +
                CM.DatasourceEnv(sla.datasources, hypercatJson);
    if sla.store == [] then base else base + CM.StoreEnv(StoreName(sla, arch))
  }

  /** The app service launchApp submits. */
  function AppSpec(sla: SLA, arch: string, version: string, netConf: NetworkConfig, refs: seq<SecretRef>,
                   hypercatJson: HypercatItem -> string): ServiceSpec
  {
    ServiceSpec(LocalName(sla, arch), Some(DataboxTypeApp), Image(sla.name, version),
                AppEnv(sla, arch, hypercatJson), refs, netConf.dns, netConf.networkName, [])
  }

  /** The endpoints launchApp connects the app to: its data sources' hosts
      and, when there is one, its store; None when a href does not parse. */
  function AppTargets(sla: SLA, arch: string): (r: Option<set<string>>)
    ensures r.None? <==> CM.DatasourceHosts(sla.datasources).None?
    ensures r.Some? && sla.store != [] ==> StoreName(sla, arch) in r.value
    ensures r.Some? ==> CM.DatasourceHosts(sla.datasources).value <= r.value
  {
    match CM.DatasourceHosts(sla.datasources)
    case None => None
    case Some(hosts) => if sla.store == [] then Some(hosts) else Some(hosts + {StoreName(sla, arch)})
  }

  /** The endpoints of an app: a data source's host is connected once
      however many of its data sources live there, and nothing else but
      the store is. */
  lemma AppTargetsExact(sla: SLA, arch: string, i: nat, n: string)
    requires AppTargets(sla, arch).Some? && i < |sla.datasources|
    ensures Url.Parse(sla.datasources[i].hypercat.href).Ok?
    ensures Url.Hostname(Url.Parse(sla.datasources[i].hypercat.href).value) in AppTargets(sla, arch).value
    ensures n in AppTargets(sla, arch).value <==>
      n in CM.DatasourceHosts(sla.datasources).value || (sla.store != [] && n == StoreName(sla, arch))
  {
    CM.DatasourceHostsComplete(sla.datasources, i);
  }

  /** addPermissionsFromSla: the export grant, an app's data-source grants
      (stopping at a href that does not parse, which panics) and, with a
      store, the store grants without DELETE. */
  function Permissions(sla: SLA, arch: string): (r: Issued)
    ensures r.panicked <==> sla.databoxType == DataboxTypeApp && CM.DatasourceHosts(sla.datasources).None?
  {
    var local := LocalName(sla, arch);
    var exports := ExportGrants(local, sla.exportWhitelists);
    var ds := if sla.databoxType == DataboxTypeApp then DatasourcesGrants(local, sla.datasources)
              else Issued([], false);
    if ds.panicked then Issued(exports + ds.grants, true)
    else
      Issued(exports + ds.grants +
               (if sla.store == [] then [] else StoreGrants(local, StoreName(sla, arch), false)),
             false)
  }

  /** The data-source grants only read, or write to an actuator. */
  lemma {:induction false} DatasourcesGrantsReadOrWrite(localName: string, dss: seq<Datasource>)
    ensures forall p :: p in DatasourcesGrants(localName, dss).grants ==>
      p.route.verb == "GET" || p.route.verb == "POST"
    decreases |dss|
  {
    if dss != [] {
      DatasourcesGrantsReadOrWrite(localName, dss[..|dss| - 1]);
    }
  }

  /** No grant the earlier manager issues is a DELETE, and every one is
      the workload's own except container-manager's catalogue read. */
  lemma PermissionsNeverDelete(sla: SLA, arch: string)
    ensures forall p :: p in Permissions(sla, arch).grants ==> p.route.verb != "DELETE"
    ensures forall p :: p in Permissions(sla, arch).grants ==>
      p.name == LocalName(sla, arch) ||
      p == Permission("container-manager", Route(StoreName(sla, arch), "/cat", "GET"), [])
  {
    var local := LocalName(sla, arch);
    DatasourcesGrantsReadOrWrite(local, sla.datasources);
    DatasourcesGrantsScoped(local, sla.datasources);
    StoreGrantsOwners(local, StoreName(sla, arch), false);
  }

  /** A driver whose SLA names no store still gets the store "<name>-"
      (with ARCH), yet none of its grants concern that store. */
  lemma DriverStoreUngranted(sla: SLA, goarch: string)
    requires sla.databoxType == DataboxTypeDriver && sla.store == []
    ensures StoreName(sla, ArchOf(goarch)) == sla.name + "-" + ArchOf(goarch)
    ensures forall p :: p in Permissions(sla, ArchOf(goarch)).grants ==>
      p.route.target != StoreName(sla, ArchOf(goarch))
  {
    var arch := ArchOf(goarch);
    var name := StoreName(sla, arch);
    var g := Permissions(sla, arch).grants;
    assert g == ExportGrants(LocalName(sla, arch), sla.exportWhitelists);
    assert name[|name| - 1] != "export-service"[|"export-service"| - 1];
  }

  /** Every secret of `before` is still in `after`, unchanged. */
  ghost predicate Kept(before: map<string, Secret>, after: map<string, Secret>)
  {
    forall k :: k in before ==> k in after && after[k] == before[k]
  }

  /** The secrets Uninstall lists: either generated name as a prefix. */
  function OwnSecrets(secrets: map<string, Secret>, name: string): set<string>
  {
    SecretsMatching(secrets, CM.CertSecretName(name)) + SecretsMatching(secrets, CM.TokenSecretName(name))
  }

  /** An app "app" holding its certificate secret "c1": once its service is
      gone the earlier Uninstall removes "c1", which is what the current
      Uninstall misses. */
  lemma UninstallDropsCertificate(data: Bytes)
    ensures var secrets := map["c1" := Secret(CM.CertSecretName("app"), data)];
            "c1" !in secrets - (OwnSecrets(secrets, "app") - UsedSecretIds([]))
  {
    var secrets := map["c1" := Secret(CM.CertSecretName("app"), data)];
    assert NameMatches(CM.CertSecretName("app"), secrets["c1"].name);
    assert "c1" in OwnSecrets(secrets, "app");
  }

  /** The secrets after a plain SecretCreate that returned `id` (empty
      when the platform refused it). */
  function Created(secrets: map<string, Secret>, id: string, name: string, data: Bytes): map<string, Secret>
  {
    if id == [] then secrets else secrets[id := Secret(name, data)]
  }

  /** The secrets after addSecrets' two creates. */
  function Generated(secrets: map<string, Secret>, containerName: string, certId: string, tokenId: string,
                     cert: Bytes, token: Bytes): map<string, Secret>
  {
    Created(Created(secrets, certId, CM.CertSecretName(containerName), cert), tokenId, CM.TokenSecretName(containerName), token)
  }

  /** What the platform's answers to addSecrets' two creates mean: each id
      is empty exactly when its name was already taken, and otherwise new. */
  ghost predicate Fresh(secrets: map<string, Secret>, containerName: string, certId: string, tokenId: string)
  {
    && (certId == [] <==> CM.NameTaken(secrets, CM.CertSecretName(containerName)))
    && (tokenId == [] <==> CM.NameTaken(secrets, CM.TokenSecretName(containerName)))
    && (certId != [] ==> certId !in secrets)
    && (tokenId != [] ==> tokenId !in secrets && tokenId != certId)
  }

  /** Creating the certificate does not take the token's name. */
  lemma TokenNameStillFree(secrets: map<string, Secret>, containerName: string, certId: string, cert: Bytes)
    requires certId == [] || certId !in secrets
    ensures CM.NameTaken(Created(secrets, certId, CM.CertSecretName(containerName), cert), CM.TokenSecretName(containerName)) <==>
      CM.NameTaken(secrets, CM.TokenSecretName(containerName))
  {
    CM.GeneratedNamesApart(containerName);
    assert NameMatches(CM.CertSecretName(containerName), CM.CertSecretName(containerName));
    var after := Created(secrets, certId, CM.CertSecretName(containerName), cert);
    if CM.NameTaken(after, CM.TokenSecretName(containerName)) {
      var k :| k in after && after[k].name == CM.TokenSecretName(containerName);
      assert k in secrets && secrets[k] == after[k];
    }
    if CM.NameTaken(secrets, CM.TokenSecretName(containerName)) {
      var k :| k in secrets && secrets[k].name == CM.TokenSecretName(containerName);
      assert k in after && after[k] == secrets[k];
    }
  }

  /** addSecrets removes nothing: every earlier secret stays as it was,
      and the only new ones are the certificate and the token, each with
      its generated content. */
  lemma GeneratedKeeps(secrets: map<string, Secret>, containerName: string, certId: string, tokenId: string,
                       cert: Bytes, token: Bytes)
    requires Fresh(secrets, containerName, certId, tokenId)
    ensures Kept(secrets, Generated(secrets, containerName, certId, tokenId, cert, token))
    ensures forall k :: k in Generated(secrets, containerName, certId, tokenId, cert, token) ==>
      k in secrets || k == certId || k == tokenId
    ensures certId != [] ==>
      Generated(secrets, containerName, certId, tokenId, cert, token)[certId] == Secret(CM.CertSecretName(containerName), cert)
    ensures tokenId != [] ==>
      Generated(secrets, containerName, certId, tokenId, cert, token)[tokenId] == Secret(CM.TokenSecretName(containerName), token)
  {
  }

  const RestartTimeout: string := "Service has not restarted after 10 seconds !! Could not update corenetwork IP"

  class Manager {
    const platform: Platform
    const arbiter: Arbiter
    const network: CoreNetwork
    const arch: string
    const version: string
    const rootCaId: string
    const zmqPublicId: string
    const zmqPrivateId: string
    /** GenCert and GenerateArbiterToken for a container name. */
    const genCert: string -> Bytes
    const genToken: string -> Bytes
    /** base64.StdEncoding.EncodeToString. */
    const base64: Bytes -> string
    /** json.Marshal of a catalogue item. */
    const hypercatJson: HypercatItem -> string

    ghost predicate Valid()
      reads platform
    {
      platform.Valid()
    }

    /** NewContainerManager: ARCH is taken from GOARCH. */
    constructor (platform: Platform, arbiter: Arbiter, network: CoreNetwork, goarch: string, version: string,
                 rootCaId: string, zmqPublicId: string, zmqPrivateId: string,
                 genCert: string -> Bytes, genToken: string -> Bytes, base64: Bytes -> string,
                 hypercatJson: HypercatItem -> string)
      ensures this.platform == platform && this.arbiter == arbiter && this.network == network
      ensures arch == ArchOf(goarch) && this.version == version
      ensures this.rootCaId == rootCaId && this.zmqPublicId == zmqPublicId && this.zmqPrivateId == zmqPrivateId
      ensures this.genCert == genCert && this.genToken == genToken && this.base64 == base64
      ensures this.hypercatJson == hypercatJson
    {
      this.platform := platform;
      this.arbiter := arbiter;
      this.network := network;
      if goarch == "arm" {
        arch := "arm";
      } else {
        arch := "";
      }
      this.version := version;
      this.rootCaId := rootCaId;
      this.zmqPublicId := zmqPublicId;
      this.zmqPrivateId := zmqPrivateId;
      this.genCert := genCert;
      this.genToken := genToken;
      this.base64 := base64;
      this.hypercatJson := hypercatJson;
    }

    /** addSecrets' createSecret: a plain SecretCreate, so an existing
        secret of the same name is left alone and the reference gets an
        empty id. */
    method CreateSecret(name: string, data: Bytes, fileName: string) returns (ref: SecretRef)
      requires Valid()
      modifies platform
      ensures Valid()
      ensures ref.secretName == name && ref.fileName == fileName
      ensures ref.secretId == [] <==> CM.NameTaken(old(platform.secrets), name)
      ensures ref.secretId != [] ==> ref.secretId !in old(platform.secrets)
      ensures platform.secrets == Created(old(platform.secrets), ref.secretId, name, data)
      ensures platform.services == old(platform.services) && platform.tasks == old(platform.tasks)
      ensures platform.listings == old(platform.listings) && platform.pulls == old(platform.pulls)
      ensures platform.removedContainers == old(platform.removedContainers)
      ensures platform.requested == old(platform.requested)
    {
      var id := platform.SecretCreate(name, data);
      ref := SecretRef(id, name, fileName);
    }

    /** addSecrets: the root CA and ZMQ public key, the container's
        certificate and arbiter-token secrets, the token registered with the
        arbiter, and the ZMQ private key for stores only. No secret is
        removed, and a generated secret whose name is taken is not
        created. */
    method AddSecrets(containerName: string, databoxType: string) returns (refs: seq<SecretRef>)
      requires Valid()
      modifies platform, arbiter
      ensures Valid()
      ensures CM.SecretBundle(refs, containerName, databoxType, rootCaId, zmqPublicId, zmqPrivateId)
      ensures platform.secrets == Generated(old(platform.secrets), containerName, refs[2].secretId, refs[3].secretId,
                                            genCert(containerName), genToken(containerName))
      ensures Fresh(old(platform.secrets), containerName, refs[2].secretId, refs[3].secretId)
      ensures arbiter.tokens ==
        old(arbiter.tokens) + [TokenUpdate(containerName, base64(genToken(containerName)), databoxType)]
      ensures arbiter.grants == old(arbiter.grants)
      ensures platform.services == old(platform.services) && platform.tasks == old(platform.tasks)
      ensures platform.listings == old(platform.listings) && platform.pulls == old(platform.pulls)
      ensures platform.removedContainers == old(platform.removedContainers)
      ensures platform.requested == old(platform.requested)
    {
      var certRef := CreateSecret(CM.CertSecretName(containerName), genCert(containerName), "DATABOX.pem");
      var token := genToken(containerName);
      ghost var between := platform.secrets;
      var tokenRef := CreateSecret(CM.TokenSecretName(containerName), token, "ARBITER_TOKEN");
      TokenNameStillFree(old(platform.secrets), containerName, certRef.secretId, genCert(containerName));
      arbiter.UpdateArbiter(containerName, base64(token), databoxType);
      refs := CM.Bundle(certRef, tokenRef, databoxType, rootCaId, zmqPublicId, zmqPrivateId);
      CM.BundleIsGenerated(certRef, tokenRef, containerName, databoxType, rootCaId, zmqPublicId, zmqPrivateId);
    }

    /** ServiceCreate with its error only logged. */
    method Submit(spec: ServiceSpec)
      requires Valid()
      modifies platform
      ensures Valid()
      ensures platform.requested == old(platform.requested) + [spec]
      ensures platform.services == Submitted(old(platform.services), spec, platform.rejected)
      ensures platform.secrets == old(platform.secrets)
      ensures platform.listings == old(platform.listings) && platform.pulls == old(platform.pulls)
      ensures network.calls == old(network.calls)
      ensures arbiter.grants == old(arbiter.grants) && arbiter.tokens == old(arbiter.tokens)
    {
      var _ := platform.ServiceCreate(spec);
    }

    /** launchStore: the store service is created whether or not one of
        that name runs already; a refusal is only logged. */
    method LaunchStore(sla: SLA, netConf: NetworkConfig) returns (storeName: string, ghost refs: seq<SecretRef>)
      requires Valid()
      modifies platform, arbiter
      ensures Valid()
      ensures storeName == StoreName(sla, arch)
      ensures CM.SecretBundle(refs, storeName, DataboxTypeStore, rootCaId, zmqPublicId, zmqPrivateId)
      ensures platform.requested == old(platform.requested) + [StoreSpec(sla, arch, version, netConf, refs)]
      ensures platform.services ==
        Submitted(old(platform.services), StoreSpec(sla, arch, version, netConf, refs), platform.rejected)
      ensures platform.secrets == Generated(old(platform.secrets), storeName, refs[2].secretId, refs[3].secretId,
                                            genCert(storeName), genToken(storeName))
      ensures Fresh(old(platform.secrets), storeName, refs[2].secretId, refs[3].secretId)
      ensures arbiter.tokens ==
        old(arbiter.tokens) + [TokenUpdate(storeName, base64(genToken(storeName)), DataboxTypeStore)]
      ensures arbiter.grants == old(arbiter.grants)
      ensures platform.listings == old(platform.listings) && platform.pulls == old(platform.pulls)
      ensures network.calls == old(network.calls)
    {
      storeName := sla.name + "-" + sla.store + arch;
      var secrets := AddSecrets(storeName, DataboxTypeStore);
      refs := secrets;
      var spec := ServiceSpec(storeName, Some(DataboxTypeStore), Registry + sla.store + ":" + version,
                              [CM.ArbiterEnv, "DATABOX_LOCAL_NAME=" + storeName], secrets,
                              netConf.dns, netConf.networkName, [Mount(storeName, "/database")]);
      Submit(spec);
    }

    /** addPermissionsFromSla. */
    method AddPermissionsFromSla(sla: SLA) returns (panicked: bool)
      modifies arbiter
      ensures panicked == Permissions(sla, arch).panicked
      ensures arbiter.grants == old(arbiter.grants) + Permissions(sla, arch).grants
      ensures arbiter.tokens == old(arbiter.tokens)
    {
      var localName := sla.name + arch;
      ghost var g0 := arbiter.grants;
      ghost var exports := ExportGrants(localName, sla.exportWhitelists);
      ghost var ds := if sla.databoxType == DataboxTypeApp then DatasourcesGrants(localName, sla.datasources)
                      else Issued([], false);
      GrantExport(arbiter, localName, sla.exportWhitelists);
      if sla.databoxType == DataboxTypeApp && |sla.datasources| > 0 {
        panicked := GrantDatasources(arbiter, localName, sla.datasources);
        if panicked {
          AppendTwice(g0, exports, ds.grants);
          return;
        }
      }
      assert !ds.panicked && arbiter.grants == g0 + exports + ds.grants;
      AppendTwice(g0, exports, ds.grants);
      var storeGrants := if sla.store == [] then [] else StoreGrants(localName, StoreName(sla, arch), false);
      if sla.store != [] {
        GrantStore(arbiter, localName, sla.name + "-" + sla.store + arch, false);
      }
      AppendTwice(g0, exports + ds.grants, storeGrants);
      panicked := false;
    }

    /** The driver service of launchDriver: the store variables are
        appended to its environment before it is created. */
    method SubmitDriver(sla: SLA, netConf: NetworkConfig, refs: seq<SecretRef>, storeName: string)
      requires Valid() && storeName == StoreName(sla, arch)
      modifies platform
      ensures Valid()
      ensures platform.requested == old(platform.requested) + [DriverSpec(sla, arch, version, netConf, refs)]
      ensures platform.services ==
        Submitted(old(platform.services), DriverSpec(sla, arch, version, netConf, refs), platform.rejected)
      ensures platform.secrets == old(platform.secrets)
      ensures network.calls == old(network.calls)
      ensures arbiter.grants == old(arbiter.grants) && arbiter.tokens == old(arbiter.tokens)
    {
      var localName := sla.name + arch;
      var env := [CM.ArbiterEnv, "DATABOX_LOCAL_NAME=" + localName];
      var spec := ServiceSpec(localName, Some(DataboxTypeDriver), Registry + sla.name + ":" + version, env, refs,
                              netConf.dns, netConf.networkName, []);
      var zmq := "DATABOX_ZMQ_ENDPOINT=tcp://" + storeName + ":5555";
      var dealer := "DATABOX_ZMQ_DEALER_ENDPOINT=tcp://" + storeName + ":5556";
      spec := spec.(env := spec.env + [zmq]);
      spec := spec.(env := spec.env + [dealer]);
      AppendTwice(env, [zmq], [dealer]);
      assert [zmq] + [dealer] == CM.StoreEnv(storeName);
      assert spec == DriverSpec(sla, arch, version, netConf, refs);
      Submit(spec);
    }

    /** The start of launchDriver and launchApp: core-network's
        configuration for the workload, then the workload's secrets. */
    method WorkloadSecrets(sla: SLA) returns (netConf: NetworkConfig, refs: seq<SecretRef>)
      requires Valid()
      modifies platform, arbiter, network
      ensures Valid()
      ensures netConf == network.configOf(LocalName(sla, arch))
      ensures network.calls == old(network.calls) + [PreConfigCall(LocalName(sla, arch))]
      ensures CM.SecretBundle(refs, LocalName(sla, arch), sla.databoxType, rootCaId, zmqPublicId, zmqPrivateId)
      ensures arbiter.tokens == old(arbiter.tokens) +
        [TokenUpdate(LocalName(sla, arch), base64(genToken(LocalName(sla, arch))), sla.databoxType)]
      ensures arbiter.grants == old(arbiter.grants)
      ensures platform.services == old(platform.services) && platform.requested == old(platform.requested)
    {
      var localName := sla.name + arch;
      netConf := network.PreConfig(localName);
      refs := AddSecrets(localName, sla.databoxType);
    }

    /** The start of launchDriver: the driver's secrets, then its store. */
    method StartDriver(sla: SLA) returns (netConf: NetworkConfig, refs: seq<SecretRef>, storeName: string,
                                          ghost storeRefs: seq<SecretRef>)
      requires Valid()
      modifies platform, arbiter, network
      ensures Valid()
      ensures storeName == StoreName(sla, arch)
      ensures netConf == network.configOf(LocalName(sla, arch))
      ensures network.calls == old(network.calls) + [PreConfigCall(LocalName(sla, arch))]
      ensures CM.SecretBundle(refs, LocalName(sla, arch), sla.databoxType, rootCaId, zmqPublicId, zmqPrivateId)
      ensures CM.SecretBundle(storeRefs, storeName, DataboxTypeStore, rootCaId, zmqPublicId, zmqPrivateId)
      ensures platform.requested == old(platform.requested) + [StoreSpec(sla, arch, version, netConf, storeRefs)]
      ensures platform.services ==
        Submitted(old(platform.services), StoreSpec(sla, arch, version, netConf, storeRefs), platform.rejected)
      ensures arbiter.tokens == old(arbiter.tokens) +
        [TokenUpdate(LocalName(sla, arch), base64(genToken(LocalName(sla, arch))), sla.databoxType)] +
        [TokenUpdate(storeName, base64(genToken(storeName)), DataboxTypeStore)]
      ensures arbiter.grants == old(arbiter.grants)
    {
      netConf, refs := WorkloadSecrets(sla);
      storeName, storeRefs := LaunchStore(sla, netConf);
    }

    /** Connects the workload to `targets` on core-network, then grants its
        permissions. */
    method ConnectAndGrant(sla: SLA, targets: seq<string>) returns (out: CM.Launch)
      modifies arbiter, network
      ensures unchanged(platform)
      ensures out == CM.LaunchPanicked <==> Permissions(sla, arch).panicked
      ensures network.calls == old(network.calls) + [ConnectEndpointsCall(LocalName(sla, arch), targets)]
      ensures arbiter.grants == old(arbiter.grants) + Permissions(sla, arch).grants
      ensures arbiter.tokens == old(arbiter.tokens)
    {
      network.ConnectEndpoints(sla.name + arch, targets);
      var panicked := AddPermissionsFromSla(sla);
      out := if panicked then CM.LaunchPanicked else CM.Launched;
    }

    /** The end of launchDriver: the driver service, its connection to the
        store, and the permissions. */
    method FinishDriver(sla: SLA, netConf: NetworkConfig, refs: seq<SecretRef>, storeName: string)
      returns (out: CM.Launch)
      requires Valid() && storeName == StoreName(sla, arch)
      modifies platform, arbiter, network
      ensures Valid()
      ensures out == CM.LaunchPanicked <==> Permissions(sla, arch).panicked
      ensures platform.requested == old(platform.requested) + [DriverSpec(sla, arch, version, netConf, refs)]
      ensures platform.services ==
        Submitted(old(platform.services), DriverSpec(sla, arch, version, netConf, refs), platform.rejected)
      ensures network.calls == old(network.calls) + [ConnectEndpointsCall(LocalName(sla, arch), [storeName])]
      ensures arbiter.grants == old(arbiter.grants) + Permissions(sla, arch).grants
      ensures arbiter.tokens == old(arbiter.tokens)
    {
      SubmitDriver(sla, netConf, refs, storeName);
      out := ConnectAndGrant(sla, [storeName]);
    }

    /** launchDriver: the driver's secrets, then always a store, then the
        driver service with the store variables, connected to the store,
        then the permissions. The ghost outputs are core-network's
        configuration and the two services' secret references. */
    method LaunchDriver(sla: SLA) returns (out: CM.Launch, ghost netConf: NetworkConfig, ghost refs: seq<SecretRef>,
                                           ghost storeRefs: seq<SecretRef>)
      requires Valid()
      modifies platform, arbiter, network
      ensures Valid()
      ensures out == CM.LaunchPanicked <==> Permissions(sla, arch).panicked
      ensures netConf == network.configOf(LocalName(sla, arch))
      ensures platform.requested == old(platform.requested) +
        [StoreSpec(sla, arch, version, netConf, storeRefs)] + [DriverSpec(sla, arch, version, netConf, refs)]
      ensures CM.SecretBundle(refs, LocalName(sla, arch), sla.databoxType, rootCaId, zmqPublicId, zmqPrivateId)
      ensures CM.SecretBundle(storeRefs, StoreName(sla, arch), DataboxTypeStore, rootCaId, zmqPublicId, zmqPrivateId)
      ensures network.calls == old(network.calls) +
        [PreConfigCall(LocalName(sla, arch))] + [ConnectEndpointsCall(LocalName(sla, arch), [StoreName(sla, arch)])]
      ensures arbiter.tokens == old(arbiter.tokens) +
        [TokenUpdate(LocalName(sla, arch), base64(genToken(LocalName(sla, arch))), sla.databoxType)] +
        [TokenUpdate(StoreName(sla, arch), base64(genToken(StoreName(sla, arch))), DataboxTypeStore)]
      ensures arbiter.grants == old(arbiter.grants) + Permissions(sla, arch).grants
    {
      var config, secrets, storeName;
      config, secrets, storeName, storeRefs := StartDriver(sla);
      netConf, refs := config, secrets;
      out := FinishDriver(sla, config, secrets, storeName);
    }

    /** launchApp's store: when the SLA names one, the store service, its
        two variables after the app's others, and its name among the
        endpoints to connect. */
    method StoreForApp(sla: SLA, netConf: NetworkConfig, env: seq<string>, targets: set<string>)
      returns (env': seq<string>, targets': set<string>, ghost storeRefs: seq<SecretRef>)
      requires Valid()
      modifies platform, arbiter
      ensures Valid()
      ensures env' == if sla.store == [] then env else env + CM.StoreEnv(StoreName(sla, arch))
      ensures targets' == if sla.store == [] then targets else targets + {StoreName(sla, arch)}
      ensures sla.store != [] ==> CM.SecretBundle(storeRefs, StoreName(sla, arch), DataboxTypeStore, rootCaId,
                                                  zmqPublicId, zmqPrivateId)
      ensures platform.requested == old(platform.requested) + StoreSpecs(sla, netConf, storeRefs)
      ensures platform.services == StoreServices(old(platform.services), sla, netConf, storeRefs)
      ensures arbiter.tokens == old(arbiter.tokens) + StoreTokens(sla)
      ensures arbiter.grants == old(arbiter.grants)
      ensures network.calls == old(network.calls)
    {
      env', targets', storeRefs := env, targets, [];
      if sla.store != [] {
        var storeName;
        storeName, storeRefs := LaunchStore(sla, netConf);
        var zmq := "DATABOX_ZMQ_ENDPOINT=tcp://" + storeName + ":5555";
        var dealer := "DATABOX_ZMQ_DEALER_ENDPOINT=tcp://" + storeName + ":5556";
        env' := env' + [zmq];
        env' := env' + [dealer];
        AppendTwice(env, [zmq], [dealer]);
        assert [zmq] + [dealer] == CM.StoreEnv(storeName);
        targets' := targets' + {storeName};
      } else {
        assert platform.requested == platform.requested + [];
        assert arbiter.tokens == arbiter.tokens + [];
      }
    }

    /** The middle of launchApp: the optional store, then the app service.
        `targets` are the endpoints to connect: the data sources' hosts and
        the store. */
    method SubmitApp(sla: SLA, netConf: NetworkConfig, refs: seq<SecretRef>, dsEnv: seq<string>, hosts: set<string>)
      returns (targets: set<string>, ghost storeRefs: seq<SecretRef>)
      requires Valid()
      requires CM.DatasourceHosts(sla.datasources) == Some(hosts)
      requires dsEnv == CM.DatasourceEnv(sla.datasources, hypercatJson)
      modifies platform, arbiter
      ensures Valid()
      ensures Some(targets) == AppTargets(sla, arch)
      ensures sla.store != [] ==> CM.SecretBundle(storeRefs, StoreName(sla, arch), DataboxTypeStore, rootCaId,
                                                  zmqPublicId, zmqPrivateId)
      ensures platform.requested == old(platform.requested) + StoreSpecs(sla, netConf, storeRefs) +
        [AppSpec(sla, arch, version, netConf, refs, hypercatJson)]
      ensures platform.services ==
        Submitted(StoreServices(old(platform.services), sla, netConf, storeRefs),
                  AppSpec(sla, arch, version, netConf, refs, hypercatJson), platform.rejected)
      ensures arbiter.tokens == old(arbiter.tokens) + StoreTokens(sla)
      ensures arbiter.grants == old(arbiter.grants)
      ensures network.calls == old(network.calls)
    {
      var localName := sla.name + arch;
      var env;
      env, targets, storeRefs := StoreForApp(sla, netConf,
        [CM.ArbiterEnv, "DATABOX_LOCAL_NAME=" + localName, CM.ExportServiceEnv] + dsEnv, hosts);
      var spec := ServiceSpec(localName, Some(DataboxTypeApp), Registry + sla.name + ":" + version, env, refs,
                              netConf.dns, netConf.networkName, []);
      assert spec == AppSpec(sla, arch, version, netConf, refs, hypercatJson);
      Submit(spec);
    }

    /** The store launchApp submits first, when the SLA names one. */
    function StoreSpecs(sla: SLA, netConf: NetworkConfig, storeRefs: seq<SecretRef>): seq<ServiceSpec>
    {
      if sla.store == [] then [] else [StoreSpec(sla, arch, version, netConf, storeRefs)]
    }

    /** The services after that store's submission. */
    function StoreServices(services: seq<ServiceSpec>, sla: SLA, netConf: NetworkConfig,
                           storeRefs: seq<SecretRef>): seq<ServiceSpec>
      reads platform
    {
      if sla.store == [] then services
      else Submitted(services, StoreSpec(sla, arch, version, netConf, storeRefs), platform.rejected)
    }

    /** The store's arbiter token, when the SLA names a store. */
    function StoreTokens(sla: SLA): seq<TokenUpdate>
    {
      if sla.store == [] then []
      else [TokenUpdate(StoreName(sla, arch), base64(genToken(StoreName(sla, arch))), DataboxTypeStore)]
    }

    /** The end of launchApp: the connection to the targets when there are
        any, listed each once in map order, then the permissions. */
    method WireApp(sla: SLA, targets: set<string>) returns (out: CM.Launch, ghost list: seq<string>)
      modifies arbiter, network
      ensures unchanged(platform)
      ensures out == CM.LaunchPanicked <==> Permissions(sla, arch).panicked
      ensures Distinct(list) && forall n :: n in list <==> n in targets
      ensures network.calls == old(network.calls) + Connection(sla, list)
      ensures arbiter.grants == old(arbiter.grants) + Permissions(sla, arch).grants
      ensures arbiter.tokens == old(arbiter.tokens)
    {
      if targets != {} {
        var storesToConnect := CM.NetworkList(targets);
        list := storesToConnect;
        out := ConnectAndGrant(sla, storesToConnect);
      } else {
        list := [];
        var panicked := AddPermissionsFromSla(sla);
        out := if panicked then CM.LaunchPanicked else CM.Launched;
      }
    }

    /** The ConnectEndpoints call launchApp makes, none when there is
        nothing to connect to. */
    function Connection(sla: SLA, list: seq<string>): seq<NetCall>
    {
      if list == [] then [] else [ConnectEndpointsCall(LocalName(sla, arch), list)]
    }

    /** launchApp past its data-source loop. */
    method FinishApp(sla: SLA, netConf: NetworkConfig, refs: seq<SecretRef>, dsEnv: seq<string>, hosts: set<string>)
      returns (ghost storeRefs: seq<SecretRef>, ghost list: seq<string>)
      requires Valid()
      requires CM.DatasourceHosts(sla.datasources) == Some(hosts)
      requires dsEnv == CM.DatasourceEnv(sla.datasources, hypercatJson)
      modifies platform, arbiter, network
      ensures Valid()
      ensures sla.store != [] ==> CM.SecretBundle(storeRefs, StoreName(sla, arch), DataboxTypeStore, rootCaId,
                                                  zmqPublicId, zmqPrivateId)
      ensures Distinct(list) && forall n :: n in list <==> n in AppTargets(sla, arch).value
      ensures platform.requested == old(platform.requested) + StoreSpecs(sla, netConf, storeRefs) +
        [AppSpec(sla, arch, version, netConf, refs, hypercatJson)]
      ensures platform.services ==
        Submitted(StoreServices(old(platform.services), sla, netConf, storeRefs),
                  AppSpec(sla, arch, version, netConf, refs, hypercatJson), platform.rejected)
      ensures network.calls == old(network.calls) + Connection(sla, list)
      ensures arbiter.tokens == old(arbiter.tokens) + StoreTokens(sla)
      ensures arbiter.grants == old(arbiter.grants) + Permissions(sla, arch).grants
    {
      var targets;
      targets, storeRefs := SubmitApp(sla, netConf, refs, dsEnv, hosts);
      var _, connected := WireApp(sla, targets);
      list := connected;
    }

    /** launchApp: the app's secrets, its DATASOURCE_ variables and the
        hosts of its data sources (a href that does not parse panics there,
        after the secrets), the optional store, the app service, the
        connection to the hosts and the store, then the permissions. */
    method LaunchApp(sla: SLA)
      returns (out: CM.Launch, ghost netConf: NetworkConfig, ghost refs: seq<SecretRef>,
               ghost storeRefs: seq<SecretRef>, ghost targets: seq<string>)
      requires Valid()
      modifies platform, arbiter, network
      ensures Valid()
      ensures out == CM.LaunchPanicked <==> CM.DatasourceHosts(sla.datasources).None?
      ensures netConf == network.configOf(LocalName(sla, arch))
      ensures CM.SecretBundle(refs, LocalName(sla, arch), sla.databoxType, rootCaId, zmqPublicId, zmqPrivateId)
      ensures sla.store != [] && out.Launched? ==>
        CM.SecretBundle(storeRefs, StoreName(sla, arch), DataboxTypeStore, rootCaId, zmqPublicId, zmqPrivateId)
      ensures out.Launched? ==> Distinct(targets) && forall n :: n in targets <==> n in AppTargets(sla, arch).value
      ensures out.LaunchPanicked? ==>
        && network.calls == old(network.calls) + [PreConfigCall(LocalName(sla, arch))]
        && arbiter.tokens == old(arbiter.tokens) +
             [TokenUpdate(LocalName(sla, arch), base64(genToken(LocalName(sla, arch))), sla.databoxType)]
        && platform.requested == old(platform.requested)
        && platform.services == old(platform.services)
        && arbiter.grants == old(arbiter.grants)
      ensures out.Launched? ==>
        && network.calls == old(network.calls) + [PreConfigCall(LocalName(sla, arch))] + Connection(sla, targets)
        && arbiter.tokens == old(arbiter.tokens) +
             [TokenUpdate(LocalName(sla, arch), base64(genToken(LocalName(sla, arch))), sla.databoxType)] +
             StoreTokens(sla)
        && platform.requested == old(platform.requested) + StoreSpecs(sla, netConf, storeRefs) +
             [AppSpec(sla, arch, version, netConf, refs, hypercatJson)]
        && platform.services == Submitted(StoreServices(old(platform.services), sla, netConf, storeRefs),
                                          AppSpec(sla, arch, version, netConf, refs, hypercatJson), platform.rejected)
        && arbiter.grants == old(arbiter.grants) + Permissions(sla, arch).grants
    {
      var config, secrets := WorkloadSecrets(sla);
      netConf, refs := config, secrets;
      var dsEnv, hosts := CM.DatasourceConfig(sla.datasources, hypercatJson);
      if hosts.None? {
        return CM.LaunchPanicked, netConf, refs, [], [];
      }
      storeRefs, targets := FinishApp(sla, config, secrets, dsEnv, hosts.value);
      out := CM.Launched;
    }

    /** LaunchFromSLA: an app or a driver is launched, any other type is
        ignored; the error it returns is always nil, and the only failure is
        the panic on a data-source href that does not parse. */
    method LaunchFromSLA(sla: SLA) returns (out: CM.Launch)
      requires Valid()
      modifies platform, arbiter, network
      ensures Valid()
      ensures out == CM.LaunchPanicked <==>
        sla.databoxType == DataboxTypeApp && CM.DatasourceHosts(sla.datasources).None?
      ensures sla.databoxType != DataboxTypeApp && sla.databoxType != DataboxTypeDriver ==>
        unchanged(platform) && unchanged(arbiter) && unchanged(network)
      ensures out.Launched? && (sla.databoxType == DataboxTypeApp || sla.databoxType == DataboxTypeDriver) ==>
        arbiter.grants == old(arbiter.grants) + Permissions(sla, arch).grants
    {
      out := CM.Launched;
      if sla.databoxType == DataboxTypeApp {
        ghost var netConf, refs, storeRefs, targets;
        out, netConf, refs, storeRefs, targets := LaunchApp(sla);
      } else if sla.databoxType == DataboxTypeDriver {
        ghost var netConf, refs, storeRefs;
        out, netConf, refs, storeRefs := LaunchDriver(sla);
      }
    }

    /** Restart's wait for the replacement container: up to eleven polls,
        and after the eleventh empty one the timeout error. */
    method WaitForReplacement(name: string) returns (next: Result<Container, string>)
      requires Valid()
      modifies platform
      ensures Valid()
      ensures CM.Replaced(platform.world, old(platform.listings), platform.listings, name, RestartTimeout, next)
      ensures platform.services == old(platform.services) && platform.secrets == old(platform.secrets)
      ensures platform.removedContainers == old(platform.removedContainers)
    {
      var newContList: seq<Container>;
      var loopCount := 0;
      while true
        invariant platform.Valid()
        invariant 0 <= loopCount <= 10
        invariant platform.listings == old(platform.listings) + loopCount
        invariant CM.Quiet(platform.world, old(platform.listings), loopCount, name)
        invariant platform.services == old(platform.services) && platform.secrets == old(platform.secrets)
        invariant platform.removedContainers == old(platform.removedContainers)
        decreases 10 - loopCount
      {
        newContList := platform.ContainerList(name);
        if |newContList| < 1 {
          CM.QuietExtend(platform.world, old(platform.listings), loopCount, name);
          loopCount := loopCount + 1;
          if loopCount > 10 {
            return Err(RestartTimeout);
          }
          continue;
        }
        CM.SeenNotQuiet(platform.world, old(platform.listings), 11, platform.listings - 1, name);
        break;
      }
      next := Ok(newContList[0]);
    }

    /** Restart up to the wait: the address of the listed container, its
        removal, and the wait for the replacement. */
    method RemoveAndWait(name: string, c: Container) returns (st: CM.Stop)
      requires Valid()
      modifies platform
      ensures Valid()
      ensures platform.listings >= old(platform.listings)
      ensures CM.RemoveOutcome(name, c, platform.unremovable, platform.world, old(platform.listings), platform.listings,
                               RestartTimeout, st)
      ensures platform.services == old(platform.services) && platform.secrets == old(platform.secrets)
    {
      var oldIp := CM.IpOnNetwork(c.networks, CM.ServiceOfStore(name));
      var removed := platform.ContainerRemove(c.id);
      if !removed {
        return CM.NotStopped(CM.CannotRemove(name));
      }
      var next := WaitForReplacement(name);
      st := CM.Stopped(oldIp, next);
    }

    /** Restart: find the service's container, remove it, wait up to ten
        seconds for the replacement and tell core-network the old and the
        new address; a replacement that does not show is reported with the
        timeout error. */
    method Restart(name: string) returns (err: Option<string>, ghost oldIp: string, ghost newIp: string)
      requires Valid()
      modifies platform, network
      ensures Valid()
      ensures platform.listings > old(platform.listings)
      ensures CM.RestartEffect(name, Listing(platform.world, old(platform.listings), name), platform.unremovable,
                               platform.world, old(platform.listings), platform.listings,
                               old(network.calls), network.calls, network.restartError, RestartTimeout,
                               err, oldIp, newIp)
      ensures platform.services == old(platform.services) && platform.secrets == old(platform.secrets)
    {
      var st := StopAndWait(name);
      err, oldIp, newIp := ConcludeRestart(name, st);
    }

    /** Restart up to its last step: the service's container listed, then
        removed and waited for. */
    method StopAndWait(name: string) returns (st: CM.Stop)
      requires Valid()
      modifies platform
      ensures Valid()
      ensures platform.listings > old(platform.listings)
      ensures CM.StopOutcome(name, Listing(platform.world, old(platform.listings), name), platform.unremovable,
                             platform.world, old(platform.listings), platform.listings, RestartTimeout, st)
      ensures platform.services == old(platform.services) && platform.secrets == old(platform.secrets)
    {
      var contList := platform.ContainerList(name);
      if |contList| < 1 {
        return CM.NotStopped(CM.NotRunning(name));
      }
      st := RemoveAndWait(name, contList[0]);
    }

    /** Restart after the wait: the timeout or removal error, or the
        replacement's address and the call to core-network. */
    method ConcludeRestart(name: string, st: CM.Stop)
      returns (err: Option<string>, ghost oldIp: string, ghost newIp: string)
      modifies network
      ensures st.NotStopped? ==> err == Some(st.err) && network.calls == old(network.calls)
      ensures st.Stopped? && st.next.Err? ==> err == Some(st.next.error) && network.calls == old(network.calls)
      ensures st.Stopped? && st.next.Ok? ==>
        && oldIp == st.oldIp
        && CM.IpChoice(st.next.value.networks, CM.ServiceOfStore(name), newIp)
        && network.calls == old(network.calls) + [ServiceRestartCall(name, oldIp, newIp)]
        && err == network.restartError(name, oldIp, newIp)
    {
      if st.NotStopped? {
        return Some(st.err), "", "";
      }
      if st.next.Err? {
        return Some(st.next.error), "", "";
      }
      oldIp := st.oldIp;
      var ip := CM.IpOnNetwork(st.next.value.networks, CM.ServiceOfStore(name));
      newIp := ip;
      err := network.ServiceRestart(name, st.oldIp, ip);
    }

    /** Uninstall's secret loop: every listed secret is removed unless a
        service still references it. */
    method RemoveListed(ids: set<string>)
      requires Valid()
      modifies platform
      ensures Valid()
      ensures platform.secrets == old(platform.secrets) - (ids - UsedSecretIds(platform.services))
      ensures platform.services == old(platform.services)
    {
      var rest := ids;
      ghost var done: set<string> := {};
      while rest != {}
        invariant platform.Valid()
        invariant rest + done == ids && rest !! done
        invariant platform.services == old(platform.services)
        invariant platform.secrets == old(platform.secrets) - (done - UsedSecretIds(platform.services))
        decreases rest
      {
        var id :| id in rest;
        var _ := platform.SecretRemove(id);
        rest := rest - {id};
        done := done + {id};
      }
    }

    /** Uninstall: the first service the name filter lists is removed, then
        every secret whose name starts with the workload's certificate or
        token secret name and that no remaining service references. The
        error SecretList returns is always nil here. */
    method Uninstall(name: string) returns (err: Option<string>)
      requires Valid()
      modifies platform
      ensures Valid()
      ensures var listed := ServicesMatching(old(platform.services), name);
        && (listed == [] ==>
              err == Some(CM.NotRunning(name)) &&
              platform.services == old(platform.services) && platform.secrets == old(platform.secrets))
        && (listed != [] ==>
              && err.None?
              && platform.services == WithoutService(old(platform.services), listed[0].name)
              && platform.secrets ==
                   old(platform.secrets) - (OwnSecrets(old(platform.secrets), name) - UsedSecretIds(platform.services)))
      ensures ServiceExists(old(platform.services), name) ==>
        err.None? && platform.services == WithoutService(old(platform.services), name)
    {
      if ServiceExists(platform.services, name) {
        ExactNameListedFirst(platform.services, name);
      }
      var serList := platform.ServiceList(name);
      if |serList| < 1 {
        return Some(CM.NotRunning(name));
      }
      var _ := platform.ServiceRemove(serList[0].name);
      var secretList := platform.SecretListEither(CM.CertSecretName(name), CM.TokenSecretName(name));
      RemoveListed(secretList);
      err := None;
    }
  }
}
