/** The Docker swarm the container manager drives, reduced to what it reads
    and changes: services, secrets, the containers a listing shows, tasks
    and image pulls. Docker's rules that matter here are kept: service and
    secret names are unique, a `name` filter matches every name it is a
    prefix of and lists the matches in name order, a label filter on the
    service name matches exactly, and a secret that some service still
    references cannot be removed. */
module Swarm {
  import opened Base

  datatype SecretRef = SecretRef(secretId: string, secretName: string, fileName: string)

  /** A volume mount. */
  datatype Mount = Mount(source: string, target: string)

  /** The parts of a swarm service spec the container manager sets. The
      service's `databox.type` label, when present, is `typeLabel`. */
  datatype ServiceSpec = ServiceSpec(
    name: string,
    typeLabel: Option<string>,
    image: string,
    env: seq<string>,
    secrets: seq<SecretRef>,
    dns: string,
    network: string,
    mounts: seq<Mount>)

  datatype Secret = Secret(name: string, data: Bytes)

  /** A running container: its id, the service it belongs to and the IPv4
      address it has on each network it is attached to. */
  datatype Container = Container(id: string, networks: map<string, string>)

  datatype Task = Task(serviceName: string, updatedAt: int, desiredState: string, state: string)

  /** Docker's `name` filter: the filter text is a prefix of the name. */
  predicate NameMatches(filter: string, name: string)
  {
    HasPrefix(name, filter)
  }

  /** The services a `name` filter matches, in the order they were created. */
  function FilterByName(services: seq<ServiceSpec>, filter: string): (r: seq<ServiceSpec>)
    ensures forall s :: s in r <==> s in services && NameMatches(filter, s.name)
    ensures |r| <= |services|
  {
    if services == [] then []
    else
      var last := services[|services| - 1];
      FilterByName(services[..|services| - 1], filter) +
        (if NameMatches(filter, last.name) then [last] else [])
  }

  /** Byte-wise lexicographic order on names: `a` comes no later than `b`. */
  predicate NameLe(a: string, b: string)
    decreases |a|
  {
    a == [] || (b != [] && (a[0] < b[0] || (a[0] == b[0] && NameLe(a[1..], b[1..]))))
  }

  lemma {:induction false} NameLeTotal(a: string, b: string)
    ensures NameLe(a, b) || NameLe(b, a)
    decreases |a|
  {
    if a != [] && b != [] && a[0] == b[0] {
      NameLeTotal(a[1..], b[1..]);
    }
  }

  lemma {:induction false} NameLeAntisymmetric(a: string, b: string)
    requires NameLe(a, b) && NameLe(b, a)
    ensures a == b
    decreases |a|
  {
    if a != [] {
      NameLeAntisymmetric(a[1..], b[1..]);
      assert a == [a[0]] + a[1..] && b == [b[0]] + b[1..];
    }
  }

  lemma {:induction false} NameLeTransitive(a: string, b: string, c: string)
    requires NameLe(a, b) && NameLe(b, c)
    ensures NameLe(a, c)
    decreases |a|
  {
    if a != [] && a[0] == b[0] && b[0] == c[0] {
      NameLeTransitive(a[1..], b[1..], c[1..]);
    }
  }

  /** A name comes no later than every name it is a prefix of. */
  lemma {:induction false} PrefixNameLe(p: string, s: string)
    requires HasPrefix(s, p)
    ensures NameLe(p, s)
    decreases |p|
  {
    if p != [] {
      assert s[1..][..|p| - 1] == s[..|p|][1..];
      PrefixNameLe(p[1..], s[1..]);
    }
  }

  /** The services are in name order. */
  predicate SortedByName(services: seq<ServiceSpec>)
  {
    forall i, j :: 0 <= i < j < |services| ==> NameLe(services[i].name, services[j].name)
  }

  /** A service placed ahead of name-ordered services that all come no
      earlier keeps them in name order. */
  lemma ConsSorted(x: ServiceSpec, sorted: seq<ServiceSpec>)
    requires SortedByName(sorted)
    requires forall t :: t in sorted ==> NameLe(x.name, t.name)
    ensures SortedByName([x] + sorted)
  {
    var r := [x] + sorted;
    forall i, j | 0 <= i < j < |r| ensures NameLe(r[i].name, r[j].name) {
      assert r[j] == sorted[j - 1];
      if i > 0 {
        assert r[i] == sorted[i - 1];
      } else {
        assert r[j] in sorted;
      }
    }
  }

  /** `x` placed into name-ordered `sorted` before the first later name. */
  function InsertByName(x: ServiceSpec, sorted: seq<ServiceSpec>): (r: seq<ServiceSpec>)
    requires SortedByName(sorted)
    ensures SortedByName(r)
    ensures multiset(r) == multiset(sorted) + multiset{x}
  {
    if sorted == [] then [x]
    else if NameLe(x.name, sorted[0].name) then
      forall t | t in sorted ensures NameLe(x.name, t.name) {
        var j :| 0 <= j < |sorted| && sorted[j] == t;
        if j > 0 {
          NameLeTransitive(x.name, sorted[0].name, sorted[j].name);
        }
      }
      ConsSorted(x, sorted);
      [x] + sorted
    else
      var rest := InsertByName(x, sorted[1..]);
      NameLeTotal(x.name, sorted[0].name);
      assert sorted == [sorted[0]] + sorted[1..];
      forall t | t in rest ensures NameLe(sorted[0].name, t.name) {
        assert t in multiset(rest);
        if t != x {
          var j :| 0 <= j < |sorted[1..]| && sorted[1..][j] == t;
          assert sorted[j + 1] == t;
        }
      }
      ConsSorted(sorted[0], rest);
      [sorted[0]] + rest
  }

  /** An insertion sort by name. */
  function SortByName(services: seq<ServiceSpec>): (r: seq<ServiceSpec>)
    ensures SortedByName(r)
    ensures multiset(r) == multiset(services)
  {
    if services == [] then []
    else
      assert services == [services[0]] + services[1..];
      InsertByName(services[0], SortByName(services[1..]))
  }

  /** The services a `name` filter lists: the matches, in name order, as
      the swarm's name index answers them. */
  function ServicesMatching(services: seq<ServiceSpec>, filter: string): (r: seq<ServiceSpec>)
    ensures forall s :: s in r <==> s in services && NameMatches(filter, s.name)
    ensures |r| <= |services|
  {
    var matches := FilterByName(services, filter);
    var r := SortByName(matches);
    assert forall s :: s in r <==> s in multiset(matches);
    assert |r| == |multiset(r)| == |matches|;
    r
  }

  /** A filtered listing is in name order. */
  lemma ServicesMatchingSorted(services: seq<ServiceSpec>, filter: string)
    ensures SortedByName(ServicesMatching(services, filter))
  {
    assert ServicesMatching(services, filter) == SortByName(FilterByName(services, filter));
  }

  /** When a service carries exactly the filter's name, it is listed first,
      ahead of every service whose name merely starts with it. */
  lemma ExactNameListedFirst(services: seq<ServiceSpec>, name: string)
    requires ServiceExists(services, name)
    ensures ServicesMatching(services, name) != []
    ensures ServicesMatching(services, name)[0].name == name
  {
    var r := ServicesMatching(services, name);
    ServicesMatchingSorted(services, name);
    var i :| 0 <= i < |services| && services[i].name == name;
    assert NameMatches(name, services[i].name);
    assert services[i] in r;
    var k :| 0 <= k < |r| && r[k] == services[i];
    assert k == 0 || NameLe(r[0].name, r[k].name);
    if k != 0 {
      PrefixNameLe(name, r[0].name);
      NameLeAntisymmetric(r[0].name, name);
    }
  }

  /** A workload created after a service whose name extends its own (its
      store, "<name>-<store>"): the workload's name filter lists the
      workload first. */
  lemma WorkloadListedBeforeStore(store: ServiceSpec, workload: ServiceSpec)
    requires store.name != workload.name
    ensures ServicesMatching([store, workload], workload.name)[0] == workload
  {
    var services := [store, workload];
    assert services[1].name == workload.name;
    ExactNameListedFirst(services, workload.name);
    var r := ServicesMatching(services, workload.name);
    assert r[0] in services;
  }

  function ServiceNames(services: seq<ServiceSpec>): (r: seq<string>)
    ensures |r| == |services|
    ensures forall i :: 0 <= i < |services| ==> r[i] == services[i].name
  {
    if services == [] then [] else ServiceNames(services[..|services| - 1]) + [services[|services| - 1].name]
  }

  /** The containers the k-th listing with the label filter
      com.docker.swarm.service.name=<serviceName> answers. */
  function Listing(world: (nat, string) -> seq<Container>, k: nat, serviceName: string): seq<Container>
  {
    world(k, serviceName)
  }

  function TasksOf(tasks: seq<Task>, serviceName: string): (r: seq<Task>)
    ensures forall t :: t in r <==> t in tasks && t.serviceName == serviceName
  {
    if tasks == [] then []
    else
      var last := tasks[|tasks| - 1];
      TasksOf(tasks[..|tasks| - 1], serviceName) + (if last.serviceName == serviceName then [last] else [])
  }

  /** The ids of the secrets a `name` filter lists. */
  function SecretsMatching(secrets: map<string, Secret>, filter: string): set<string>
  {
    set id | id in secrets && NameMatches(filter, secrets[id].name)
  }

  /** The id the platform gives its n-th secret; ids differ in length, and
      the empty id is what a failed create returns. */
  function SecretIdOf(n: nat): (id: string)
    ensures |id| == n + 1
  {
    seq(n + 1, _ => 'x')
  }

  /** The ids of the secrets some service references. */
  function UsedSecretIds(services: seq<ServiceSpec>): set<string>
  {
    set s, r | s in services && r in s.secrets :: r.secretId
  }

  /** The text of the error ContainerRemove answers with. */
  const ContainerRemoveError: string := "container could not be removed"

  predicate UniqueNames(services: seq<ServiceSpec>)
  {
    forall i, j :: 0 <= i < j < |services| ==> services[i].name != services[j].name
  }

  predicate ServiceExists(services: seq<ServiceSpec>, name: string)
  {
    exists i :: 0 <= i < |services| && services[i].name == name
  }

  /** The service list with the named service taken out. */
  function WithoutService(services: seq<ServiceSpec>, name: string): (r: seq<ServiceSpec>)
    ensures forall s :: s in r <==> s in services && s.name != name
    ensures |r| <= |services|
  {
    if services == [] then []
    else
      var last := services[|services| - 1];
      WithoutService(services[..|services| - 1], name) + (if last.name == name then [] else [last])
  }

  class Platform {
    var services: seq<ServiceSpec>
    var secrets: map<string, Secret>
    var nextSecret: nat
    var tasks: seq<Task>
    /** How many container listings have been made. */
    var listings: nat
    var removedContainers: seq<string>
    var pulls: seq<string>
    /** Every spec submitted to ServiceCreate, accepted or not, in order. */
    ghost var requested: seq<ServiceSpec>
    /** Service names whose creation the platform refuses. */
    const rejected: set<string>
    /** What the n-th container listing answers for a service's label filter;
        swarm starts and stops containers on its own schedule, and the daemon
        applies the filter. */
    const world: (nat, string) -> seq<Container>
    /** Containers whose removal fails. */
    const unremovable: set<string>

    ghost predicate Valid()
      reads this
    {
      && UniqueNames(services)
      && (forall id :: id in secrets ==> 1 <= |id| <= nextSecret)
      && (forall a, b :: a in secrets && b in secrets && a != b ==> secrets[a].name != secrets[b].name)
    }

    constructor (rejected: set<string>, world: (nat, string) -> seq<Container>, unremovable: set<string>)
      ensures Valid()
      ensures services == [] && secrets == map[] && tasks == [] && listings == 0
      ensures removedContainers == [] && pulls == [] && requested == []
      ensures this.rejected == rejected && this.world == world && this.unremovable == unremovable
    {
      services := [];
      secrets := map[];
      nextSecret := 0;
      tasks := [];
      listings := 0;
      removedContainers := [];
      pulls := [];
      requested := [];
      this.rejected := rejected;
      this.world := world;
      this.unremovable := unremovable;
    }

    /** ServiceList with a `name` filter. */
    method ServiceList(filter: string) returns (list: seq<ServiceSpec>)
      ensures list == ServicesMatching(services, filter)
    {
      list := ServicesMatching(services, filter);
    }

    /** ServiceList without a filter. */
    method AllServices() returns (list: seq<ServiceSpec>)
      ensures list == services
    {
      list := services;
    }

    /** ServiceCreate: refused when the name is taken or rejected. */
    method ServiceCreate(spec: ServiceSpec) returns (ok: bool)
      requires Valid()
      modifies this
      ensures Valid()
      ensures ok <==> !ServiceExists(old(services), spec.name) && spec.name !in rejected
      ensures services == if ok then old(services) + [spec] else old(services)
      ensures secrets == old(secrets) && nextSecret == old(nextSecret) && tasks == old(tasks)
      ensures listings == old(listings) && removedContainers == old(removedContainers) && pulls == old(pulls)
      ensures requested == old(requested) + [spec]
      ensures spec.name !in rejected ==> ServiceExists(services, spec.name)
    {
      requested := requested + [spec];
      if ServiceExists(services, spec.name) || spec.name in rejected {
        return false;
      }
      services := services + [spec];
      assert services[|services| - 1] == spec;
      ok := true;
    }

    /** ServiceRemove by name (the name is unique, so it names one service). */
    method ServiceRemove(name: string) returns (ok: bool)
      requires Valid()
      modifies this
      ensures Valid()
      ensures ok <==> ServiceExists(old(services), name)
      ensures services == WithoutService(old(services), name)
      ensures secrets == old(secrets) && nextSecret == old(nextSecret) && tasks == old(tasks)
      ensures listings == old(listings) && removedContainers == old(removedContainers) && pulls == old(pulls)
      ensures requested == old(requested)
    {
      ok := ServiceExists(services, name);
      WithoutServiceKeepsUnique(services, name);
      services := WithoutService(services, name);
    }

    /** SecretList with a `name` filter. */
    method SecretList(filter: string) returns (ids: set<string>)
      ensures ids == SecretsMatching(secrets, filter)
    {
      ids := SecretsMatching(secrets, filter);
    }

    /** SecretList with two `name` filters, which Docker combines: a
        secret is listed when either filter matches its name. */
    method SecretListEither(first: string, second: string) returns (ids: set<string>)
      ensures ids == SecretsMatching(secrets, first) + SecretsMatching(secrets, second)
    {
      ids := SecretsMatching(secrets, first) + SecretsMatching(secrets, second);
    }

    /** SecretRemove: refused for an unknown id and for a secret a service
        still references. */
    method SecretRemove(id: string) returns (ok: bool)
      requires Valid()
      modifies this
      ensures Valid()
      ensures ok <==> id in old(secrets) && id !in UsedSecretIds(services)
      ensures secrets == if ok then old(secrets) - {id} else old(secrets)
      ensures services == old(services) && nextSecret == old(nextSecret) && tasks == old(tasks)
      ensures listings == old(listings) && removedContainers == old(removedContainers) && pulls == old(pulls)
      ensures requested == old(requested)
    {
      ok := id in secrets && id !in UsedSecretIds(services);
      if ok {
        secrets := secrets - {id};
      }
    }

    /** SecretCreate: refused (empty id) when a secret of that name exists. */
    method SecretCreate(name: string, data: Bytes) returns (id: string)
      requires Valid()
      modifies this
      ensures Valid()
      ensures id == [] <==> exists s :: s in old(secrets) && old(secrets)[s].name == name
      ensures id == [] ==> secrets == old(secrets) && nextSecret == old(nextSecret)
      ensures id != [] ==> id !in old(secrets) && secrets == old(secrets)[id := Secret(name, data)]
      ensures services == old(services) && tasks == old(tasks)
      ensures listings == old(listings) && removedContainers == old(removedContainers) && pulls == old(pulls)
      ensures requested == old(requested)
    {
      if exists s :: s in secrets && secrets[s].name == name {
        return [];
      }
      id := SecretIdOf(nextSecret);
      secrets := secrets[id := Secret(name, data)];
      nextSecret := nextSecret + 1;
    }

    /** ContainerList with the label filter com.docker.swarm.service.name. */
    method ContainerList(serviceName: string) returns (list: seq<Container>)
      requires Valid()
      modifies this
      ensures Valid()
      ensures list == Listing(world, old(listings), serviceName)
      ensures listings == old(listings) + 1
      ensures services == old(services) && secrets == old(secrets) && nextSecret == old(nextSecret)
      ensures tasks == old(tasks) && removedContainers == old(removedContainers) && pulls == old(pulls)
      ensures requested == old(requested)
    {
      list := Listing(world, listings, serviceName);
      listings := listings + 1;
    }

    /** ContainerRemove with Force. */
    method ContainerRemove(id: string) returns (ok: bool)
      requires Valid()
      modifies this
      ensures Valid()
      ensures ok <==> id !in unremovable
      ensures removedContainers == if ok then old(removedContainers) + [id] else old(removedContainers)
      ensures services == old(services) && secrets == old(secrets) && nextSecret == old(nextSecret)
      ensures tasks == old(tasks) && listings == old(listings) && pulls == old(pulls)
      ensures requested == old(requested)
    {
      ok := id !in unremovable;
      if ok {
        removedContainers := removedContainers + [id];
      }
    }

    /** TaskList with the `service` filter. */
    method TaskList(serviceName: string) returns (list: seq<Task>)
      ensures list == TasksOf(tasks, serviceName)
    {
      list := TasksOf(tasks, serviceName);
    }

    method ImagePull(ref: string)
      requires Valid()
      modifies this
      ensures Valid()
      ensures pulls == old(pulls) + [ref]
      ensures services == old(services) && secrets == old(secrets) && nextSecret == old(nextSecret)
      ensures tasks == old(tasks) && listings == old(listings) && removedContainers == old(removedContainers)
      ensures requested == old(requested)
    {
      pulls := pulls + [ref];
    }
  }

  lemma {:induction false} WithoutServiceKeepsUnique(services: seq<ServiceSpec>, name: string)
    requires UniqueNames(services)
    ensures UniqueNames(WithoutService(services, name))
    decreases |services|
  {
    if services != [] {
      var init := services[..|services| - 1];
      var last := services[|services| - 1];
      assert UniqueNames(init);
      WithoutServiceKeepsUnique(init, name);
      var r0 := WithoutService(init, name);
      if last.name != name {
        var r := r0 + [last];
        forall i, j | 0 <= i < j < |r| ensures r[i].name != r[j].name {
          if j < |r0| {
            assert r[i] == r0[i] && r[j] == r0[j];
          } else {
            assert r0[i] in init;
            var k :| 0 <= k < |init| && init[k] == r0[i];
            assert services[k] == r[i];
          }
        }
      }
    }
  }
}

/** The two services the container manager calls besides swarm: the arbiter,
    which records permissions and container tokens, and core-network, which
    wires containers to networks. Both are logged rather than simulated. */
module Collaborators {
  import opened Base

  datatype Route = Route(target: string, path: string, verb: string)

  /** A permission granted to a container: a route and its caveats. */
  datatype Permission = Permission(name: string, route: Route, caveats: seq<string>)

  datatype TokenUpdate = TokenUpdate(name: string, token: string, databoxType: string)

  class Arbiter {
    var grants: seq<Permission>
    var tokens: seq<TokenUpdate>

    constructor ()
      ensures grants == [] && tokens == []
    {
      grants := [];
      tokens := [];
    }

    method GrantContainerPermissions(p: Permission)
      modifies this
      ensures grants == old(grants) + [p] && tokens == old(tokens)
    {
      grants := grants + [p];
    }

    method UpdateArbiter(name: string, token: string, databoxType: string)
      modifies this
      ensures tokens == old(tokens) + [TokenUpdate(name, token, databoxType)] && grants == old(grants)
    {
      tokens := tokens + [TokenUpdate(name, token, databoxType)];
    }
  }

  datatype NetworkConfig = NetworkConfig(networkName: string, dns: string)

  datatype NetCall =
    | PreConfigCall(name: string)
    | ConnectEndpointsCall(name: string, targets: seq<string>)
    | ServiceRestartCall(name: string, oldIp: string, newIp: string)
    | NetworkOfServiceCall(name: string)
    | PostUninstallCall(name: string, config: NetworkConfig)

  class CoreNetwork {
    var calls: seq<NetCall>
    /** The network core-network prepares for a service. */
    const configOf: string -> NetworkConfig
    /** The error, if any, core-network answers a restart notice with. */
    const restartError: (string, string, string) -> Option<string>

    constructor (configOf: string -> NetworkConfig, restartError: (string, string, string) -> Option<string>)
      ensures calls == [] && this.configOf == configOf && this.restartError == restartError
    {
      calls := [];
      this.configOf := configOf;
      this.restartError := restartError;
    }

    method PreConfig(name: string) returns (c: NetworkConfig)
      modifies this
      ensures c == configOf(name) && calls == old(calls) + [PreConfigCall(name)]
    {
      calls := calls + [PreConfigCall(name)];
      c := configOf(name);
    }

    method ConnectEndpoints(name: string, targets: seq<string>)
      modifies this
      ensures calls == old(calls) + [ConnectEndpointsCall(name, targets)]
    {
      calls := calls + [ConnectEndpointsCall(name, targets)];
    }

    method ServiceRestart(name: string, oldIp: string, newIp: string) returns (err: Option<string>)
      modifies this
      ensures err == restartError(name, oldIp, newIp)
      ensures calls == old(calls) + [ServiceRestartCall(name, oldIp, newIp)]
    {
      calls := calls + [ServiceRestartCall(name, oldIp, newIp)];
      err := restartError(name, oldIp, newIp);
    }

    method NetworkOfService(name: string) returns (c: NetworkConfig)
      modifies this
      ensures c == configOf(name) && calls == old(calls) + [NetworkOfServiceCall(name)]
    {
      calls := calls + [NetworkOfServiceCall(name)];
      c := configOf(name);
    }

    method PostUninstall(name: string, config: NetworkConfig)
      modifies this
      ensures calls == old(calls) + [PostUninstallCall(name, config)]
    {
      calls := calls + [PostUninstallCall(name, config)];
    }
  }
}
