/** The container manager's HTTPS API: the listing handlers, which only
    read the swarm, and the install, restart and uninstall handlers, which
    validate the request body, keep the proxy registry in step and call
    the container manager. JSON decoding is abstract: a handler is given
    what json.Unmarshal made of the body, and the listings are given the
    encoder. */
module SecureServer {
  import opened Base
  import opened Http
  import opened Swarm
  import opened DataboxTypes
  import CM = ContainerManager
  import ProxyMiddleware
  import Collaborators
  import DataboxAuth

  const JsonHeaders: map<string, string> := map["Content-Type" := "application/json; charset=UTF-8"]

  const SuccessBody: Bytes := "{\"status\":200,\"msg\":\"Success\"}"

  /** The password the handlers' authentication middleware is built with. */
  const UiPassword: string := "qwertyuiop"

  /** The 400 bodies; restart's malformed-JSON text has a space the
      uninstall one lacks, and the missing-name text lacks a quote. */
  const RestartMalformedBody: Bytes := "{\"status\":400,\"msg\": \"Malformed JSON\"}"
  const UninstallMalformedBody: Bytes := "{\"status\":400,\"msg\":\"Malformed JSON\"}"
  const MissingNameBody: Bytes := "{\"status\":400,\"msg\":Missing container name\"}"

  /** install's 400 body: the decoder's message, unquoted. */
  function InstallErrorBody(err: string): Bytes
  {
    "{\"status\":400,\"msg\":" + err + "}"
  }

  /** restart's and uninstall's 400 body for the manager's error. */
  function FailureBody(err: string): Bytes
  {
    "{\"status\":400,\"msg\":\"" + err + "\"}"
  }

  function Json(status: int, body: Bytes): Response
  {
    Response(status, JsonHeaders, body, [])
  }

  /** One row of /api/{type}/list. */
  datatype ListResult = ListResult(name: string, serviceType: string, desiredState: string, state: string,
                                   status: string)

  /** Task `i` is the first of those updated last: none is newer, and every
      earlier one is strictly older. */
  predicate FirstLatest(tasks: seq<Task>, i: int)
  {
    && 0 <= i < |tasks|
    && (forall j :: 0 <= j < |tasks| ==> tasks[j].updatedAt <= tasks[i].updatedAt)
    && (forall j :: 0 <= j < i ==> tasks[j].updatedAt < tasks[i].updatedAt)
  }

  /** At most one task is the first latest one. */
  lemma FirstLatestUnique(tasks: seq<Task>, i: int, k: int)
    requires FirstLatest(tasks, i) && FirstLatest(tasks, k)
    ensures i == k
  {
    if i < k {
      EarlierOlder(tasks, i, k);
      assert false;
    } else if k < i {
      EarlierOlder(tasks, k, i);
      assert false;
    }
  }

  /** Every task listed before the first latest one is strictly older. */
  lemma EarlierOlder(tasks: seq<Task>, i: int, k: int)
    requires FirstLatest(tasks, k) && 0 <= i < k
    ensures tasks[i].updatedAt < tasks[k].updatedAt
  {
  }

  /** Some task is the first latest one whenever there are tasks. */
  lemma {:induction false} FirstLatestExists(tasks: seq<Task>)
    requires tasks != []
    ensures exists i :: FirstLatest(tasks, i)
    decreases |tasks|
  {
    if |tasks| == 1 {
      assert FirstLatest(tasks, 0);
    } else {
      var prefix := tasks[..|tasks| - 1];
      FirstLatestExists(prefix);
      var i :| FirstLatest(prefix, i);
      var last := |tasks| - 1;
      if tasks[last].updatedAt > tasks[i].updatedAt {
        assert FirstLatest(tasks, last);
      } else {
        assert FirstLatest(tasks, i);
      }
    }
  }

  /** The latest-task loop: it starts from the first task and moves on
      only to a task updated strictly later, so among equally recent tasks
      the first wins. No task leaves the states empty. */
  method LatestTask(tasks: seq<Task>) returns (latest: Option<Task>, ghost at: int)
    ensures latest.None? <==> tasks == []
    ensures latest.Some? ==> FirstLatest(tasks, at) && latest.value == tasks[at]
  {
    if |tasks| == 0 {
      return None, -1;
    }
    var latestTask := tasks[0];
    var latestTime := latestTask.updatedAt;
    at := 0;
    for k := 0 to |tasks|
      invariant 0 <= at < |tasks| && (at < k || at == 0)
      invariant latestTask == tasks[at] && latestTime == latestTask.updatedAt
      invariant forall j :: 0 <= j < k ==> tasks[j].updatedAt <= latestTime
      invariant forall j :: 0 <= j < at ==> tasks[j].updatedAt < latestTime
    {
      if tasks[k].updatedAt > latestTime {
        latestTask := tasks[k];
        latestTime := latestTask.updatedAt;
        at := k;
      }
    }
    latest := Some(latestTask);
  }

  /** The services /api/{type}/list reports: those whose databox.type
      label is present and equal to the type, in service-list order. */
  function Listed(services: seq<ServiceSpec>, serviceType: string): (r: seq<ServiceSpec>)
    ensures forall s :: s in r <==> s in services && s.typeLabel == Some(serviceType)
    ensures |r| <= |services|
  {
    if services == [] then []
    else
      var last := services[|services| - 1];
      assert forall s :: s in services <==> s in services[..|services| - 1] || s == last;
      Listed(services[..|services| - 1], serviceType) + (if last.typeLabel == Some(serviceType) then [last] else [])
  }

  /** A row reports service `s`: its name, the requested type, and the
      states of its first latest task, or empty states when it has none. */
  ghost predicate Reports(r: ListResult, s: ServiceSpec, serviceType: string, tasks: seq<Task>)
  {
    var own := TasksOf(tasks, s.name);
    && r.name == s.name && r.serviceType == serviceType && r.status == r.state
    && (own == [] ==> r.desiredState == "" && r.state == "")
    && (own != [] ==>
          exists i :: FirstLatest(own, i) && r.desiredState == own[i].desiredState && r.state == own[i].state)
  }

  lemma ListedNext(services: seq<ServiceSpec>, serviceType: string, i: nat)
    requires i < |services|
    ensures Listed(services[..i + 1], serviceType) ==
      Listed(services[..i], serviceType) + (if services[i].typeLabel == Some(serviceType) then [services[i]] else [])
  {
    assert services[..i + 1][..i] == services[..i];
  }

  /** Every row reports the service listed at the same position. */
  ghost predicate AllReport(rows: seq<ListResult>, listed: seq<ServiceSpec>, serviceType: string, tasks: seq<Task>)
  {
    |rows| == |listed| && forall k :: 0 <= k < |rows| ==> Reports(rows[k], listed[k], serviceType, tasks)
  }

  /** One more reported row keeps the rows in step with the services. */
  lemma ReportsAppend(rows: seq<ListResult>, listed: seq<ServiceSpec>, lr: ListResult, s: ServiceSpec,
                      serviceType: string, tasks: seq<Task>)
    requires AllReport(rows, listed, serviceType, tasks)
    requires Reports(lr, s, serviceType, tasks)
    ensures AllReport(rows + [lr], listed + [s], serviceType, tasks)
  {
    forall k | 0 <= k < |rows| + 1
      ensures Reports((rows + [lr])[k], (listed + [s])[k], serviceType, tasks)
    {
      if k < |rows| {
        assert (rows + [lr])[k] == rows[k] && (listed + [s])[k] == listed[k];
      }
    }
  }

  /** The row for one service. */
  method Row(platform: Platform, s: ServiceSpec, serviceType: string) returns (lr: ListResult)
    ensures Reports(lr, s, serviceType, platform.tasks)
  {
    var tasks := platform.TaskList(s.name);
    var latest, at := LatestTask(tasks);
    lr := ListResult(s.name, serviceType, "", "", "");
    if latest.Some? {
      lr := lr.(desiredState := latest.value.desiredState, state := latest.value.state,
                status := latest.value.state);
    }
  }

  /** /api/{type}/list: one row per service of that type, in service-list
      order, answered with 200 and the JSON of the rows. */
  method TypeList(platform: Platform, serviceType: string, encode: seq<ListResult> -> Bytes)
    returns (rows: seq<ListResult>, resp: Response)
    ensures |rows| == |Listed(platform.services, serviceType)|
    ensures forall k :: 0 <= k < |rows| ==>
      Reports(rows[k], Listed(platform.services, serviceType)[k], serviceType, platform.tasks)
    ensures resp == Json(StatusOK, encode(rows))
  {
    var services := platform.AllServices();
    rows := [];
    ghost var listed: seq<ServiceSpec> := [];
    ghost var tasks := platform.tasks;
    for i := 0 to |services|
      invariant listed == Listed(services[..i], serviceType)
      invariant AllReport(rows, listed, serviceType, tasks)
    {
      ListedNext(services, serviceType, i);
      if services[i].typeLabel.None? {
        continue;
      }
      if services[i].typeLabel.value != serviceType {
        continue;
      }
      var lr := Row(platform, services[i], serviceType);
      ReportsAppend(rows, listed, lr, services[i], serviceType, tasks);
      rows := rows + [lr];
      listed := listed + [services[i]];
    }
    assert services[..|services|] == services;
    resp := Json(StatusOK, encode(rows));
  }

  /** /api/installed/list: every service's name, in service-list order. */
  method InstalledList(platform: Platform, encode: seq<string> -> Bytes) returns (names: seq<string>, resp: Response)
    ensures |names| == |platform.services|
    ensures forall i :: 0 <= i < |names| ==> names[i] == platform.services[i].name
    ensures resp == Json(StatusOK, encode(names))
  {
    var services := platform.AllServices();
    names := [];
    for i := 0 to |services|
      invariant |names| == i
      invariant forall k :: 0 <= k < i ==> names[k] == services[k].name
    {
      names := names + [services[i].name];
    }
    resp := Json(StatusOK, encode(names));
  }

  /** ServeSecure's set-up: a proxy that already forwards to the arbiter,
      and the authentication middleware with its fixed password in front
      of it. */
  method ServeSecure(send: Outbound -> Result<Upstream, string>)
    returns (proxy: ProxyMiddleware.DataboxProxyMiddleware, auth: DataboxAuth.DataboxAuthMiddleware)
    ensures fresh(proxy) && fresh(auth)
    ensures proxy.proxyList == {"arbiter"} && proxy.send == send
    ensures auth.session == "" && auth.password == UiPassword
  {
    proxy := new ProxyMiddleware.DataboxProxyMiddleware(send);
    proxy.Add("arbiter");
    auth := new DataboxAuth.DataboxAuthMiddleware(UiPassword);
  }

  /** Once set up, "/arbiter/<rest>" is forwarded to the arbiter's UI. */
  lemma ArbiterForwarded(proxy: ProxyMiddleware.DataboxProxyMiddleware, r: Request, rest: string)
    requires "arbiter" in proxy.proxyList && r.path == "/arbiter/" + rest
    ensures proxy.Proxy(r) == Forward(r, "https://arbiter:8080/" + rest, proxy.send)
  {
    assert "/" + "arbiter" + "/" == "/arbiter/";
    assert r.path == "/" + "arbiter" + "/" + rest;
    assert "https://" + "arbiter" + ":8080/" == "https://arbiter:8080/";
    ProxyMiddleware.ProxyRegistered(proxy, r, "arbiter", rest);
  }

  /** install's call to LaunchFromSLA, whose error the handler ignores;
      only a panic is seen. */
  method Launch(cm: CM.Manager, sla: SLA) returns (panicked: bool)
    requires cm.Valid()
    modifies cm.platform, cm.arbiter, cm.network, cm.store
    ensures cm.Valid()
    ensures panicked <==> CM.LaunchPanics(sla)
  {
    var out, prepared, steps := cm.LaunchFromSLA(sla);
    panicked := out == CM.LaunchPanicked;
  }

  /** /api/install: a body that does not decode gets 400 and changes
      nothing; otherwise the name is registered with the proxy first and
      the SLA launched, and the answer is 200 "Success" whatever the launch
      did, unless the launch panicked. */
  method Install(cm: CM.Manager, proxy: ProxyMiddleware.DataboxProxyMiddleware, parsed: Result<SLA, string>)
    returns (h: Handled)
    requires cm.Valid()
    modifies cm.platform, cm.arbiter, cm.network, cm.store, proxy
    ensures cm.Valid()
    ensures parsed.Err? ==>
      && h == Reply(Json(StatusBadRequest, InstallErrorBody(parsed.error)))
      && proxy.proxyList == old(proxy.proxyList)
      && cm.platform.services == old(cm.platform.services) && cm.network.calls == old(cm.network.calls)
    ensures parsed.Ok? ==>
      && proxy.proxyList == old(proxy.proxyList) + {parsed.value.name}
      && (h == Panicked <==> CM.LaunchPanics(parsed.value))
      && (h != Panicked ==> h == Reply(Json(StatusOK, SuccessBody)))
  {
    if parsed.Err? {
      return Reply(Json(StatusBadRequest, InstallErrorBody(parsed.error)));
    }
    var sla := parsed.value;
    proxy.Add(sla.name);
    var panicked := Launch(cm, sla);
    if panicked {
      return Panicked;
    }
    h := Reply(Json(StatusOK, SuccessBody));
  }

  /** /api/restart: malformed JSON or an empty id gets 400 before anything
      happens; otherwise the container manager's Restart runs as written:
      its panic (no replacement container within the wait) ends the handler
      without an answer, its error comes back as 400 with the message, and
      its success as 200. The ghost `err` is the error Restart returned. */
  method Restart(cm: CM.Manager, parsed: Result<string, string>)
    returns (h: Handled, ghost err: Option<string>, ghost oldIp: string, ghost newIp: string)
    requires cm.Valid()
    modifies cm.platform, cm.network
    ensures cm.Valid()
    ensures parsed.Err? ==> h == Reply(Json(StatusBadRequest, RestartMalformedBody))
    ensures parsed == Ok("") ==> h == Reply(Json(StatusBadRequest, MissingNameBody))
    ensures parsed.Err? || parsed == Ok("") ==>
      cm.network.calls == old(cm.network.calls) &&
      cm.platform.listings == old(cm.platform.listings) &&
      cm.platform.removedContainers == old(cm.platform.removedContainers)
    ensures parsed.Ok? && parsed.value != "" ==>
      var first := Listing(cm.platform.world, old(cm.platform.listings), parsed.value);
      && (h == Panicked <==>
            first != [] && first[0].id !in cm.platform.unremovable &&
            CM.Quiet(cm.platform.world, old(cm.platform.listings) + 1, 11, parsed.value))
      && (h == Panicked ==> cm.network.calls == old(cm.network.calls))
      && (h != Panicked ==>
            && CM.RestartEffect(parsed.value, first, cm.platform.unremovable, cm.platform.world,
                                old(cm.platform.listings), cm.platform.listings, old(cm.network.calls), cm.network.calls,
                                cm.network.restartError, CM.TimeoutMessage(10), err, oldIp, newIp)
            && h == Reply(if err.None? then Json(StatusOK, SuccessBody) else Json(StatusBadRequest, FailureBody(err.value))))
  {
    if parsed.Err? {
      return Reply(Json(StatusBadRequest, RestartMalformedBody)), None, "", "";
    }
    if parsed.value == "" {
      return Reply(Json(StatusBadRequest, MissingNameBody)), None, "", "";
    }
    var out;
    out, oldIp, newIp := cm.RestartAsWritten(parsed.value);
    if out == CM.RestartPanicked {
      return Panicked, None, oldIp, newIp;
    }
    err := out.err;
    if out.err.Some? {
      return Reply(Json(StatusBadRequest, FailureBody(out.err.value))), err, oldIp, newIp;
    }
    h := Reply(Json(StatusOK, SuccessBody));
  }

  /** What a handler that returns without writing answers: 200 and an
      empty body. */
  const Unwritten: Response := Response(StatusOK, map[], [], [])

  /** /api/uninstall: malformed JSON or an empty id gets 400 before anything
      happens; otherwise the name leaves the proxy first, then the
      container manager's Uninstall runs as written: the first service the
      name filter lists is removed, core-network is told, the SLA is deleted
      and every secret stays. Its error comes back as 400 with the message,
      and on success nothing is written. */
  method Uninstall(cm: CM.Manager, proxy: ProxyMiddleware.DataboxProxyMiddleware, parsed: Result<string, string>)
    returns (resp: Response, err: Option<string>)
    requires cm.Valid()
    modifies cm.platform, cm.network, cm.store, proxy
    ensures cm.Valid()
    ensures parsed.Err? ==> resp == Json(StatusBadRequest, UninstallMalformedBody)
    ensures parsed == Ok("") ==> resp == Json(StatusBadRequest, MissingNameBody)
    ensures parsed.Err? || parsed == Ok("") ==>
      err.None? && proxy.proxyList == old(proxy.proxyList) &&
      cm.platform.services == old(cm.platform.services) && cm.network.calls == old(cm.network.calls) &&
      cm.store.kv == old(cm.store.kv)
    ensures cm.platform.secrets == old(cm.platform.secrets)
    ensures parsed.Ok? && parsed.value != "" ==>
      var name := parsed.value;
      var listed := ServicesMatching(old(cm.platform.services), name);
      && proxy.proxyList == old(proxy.proxyList) - {name}
      && (listed == [] ==>
            && err == Some(CM.NotRunning(name))
            && cm.platform.services == old(cm.platform.services)
            && cm.network.calls == old(cm.network.calls) && cm.store.kv == old(cm.store.kv))
      && (listed != [] ==>
            && err.None?
            && cm.platform.services == WithoutService(old(cm.platform.services), listed[0].name)
            && cm.network.calls == old(cm.network.calls) + [Collaborators.NetworkOfServiceCall(listed[0].name),
                                                            Collaborators.PostUninstallCall(name, cm.network.configOf(listed[0].name))]
            && (cm.store.reachable ==> cm.store.kv == old(cm.store.kv) - {name})
            && (!cm.store.reachable ==> cm.store.kv == old(cm.store.kv)))
      && resp == if err.None? then Unwritten else Json(StatusBadRequest, FailureBody(err.value))
    ensures parsed.Ok? && parsed.value != "" && ServiceExists(old(cm.platform.services), parsed.value) ==>
      resp == Unwritten && cm.platform.services == WithoutService(old(cm.platform.services), parsed.value)
  {
    if parsed.Err? {
      return Json(StatusBadRequest, UninstallMalformedBody), None;
    }
    if parsed.value == "" {
      return Json(StatusBadRequest, MissingNameBody), None;
    }
    proxy.Del(parsed.value);
    resp, err := RelayUninstall(cm, parsed.value);
  }

  /** The handler's call of Uninstall as written and the answer it makes of
      the error. */
  method RelayUninstall(cm: CM.Manager, name: string) returns (resp: Response, err: Option<string>)
    requires cm.Valid()
    modifies cm.platform, cm.network, cm.store
    ensures cm.Valid()
    ensures cm.platform.secrets == old(cm.platform.secrets)
    ensures var listed := ServicesMatching(old(cm.platform.services), name);
      && (listed == [] ==>
            && err == Some(CM.NotRunning(name))
            && cm.platform.services == old(cm.platform.services)
            && cm.network.calls == old(cm.network.calls) && cm.store.kv == old(cm.store.kv))
      && (listed != [] ==>
            && err.None?
            && cm.platform.services == WithoutService(old(cm.platform.services), listed[0].name)
            && cm.network.calls == old(cm.network.calls) + [Collaborators.NetworkOfServiceCall(listed[0].name),
                                                            Collaborators.PostUninstallCall(name, cm.network.configOf(listed[0].name))]
            && (cm.store.reachable ==> cm.store.kv == old(cm.store.kv) - {name})
            && (!cm.store.reachable ==> cm.store.kv == old(cm.store.kv)))
      && resp == if err.None? then Unwritten else Json(StatusBadRequest, FailureBody(err.value))
    ensures ServiceExists(old(cm.platform.services), name) ==>
      resp == Unwritten && cm.platform.services == WithoutService(old(cm.platform.services), name)
  {
    err := cm.UninstallAsWritten(name);
    if err.Some? {
      return Json(StatusBadRequest, FailureBody(err.value)), err;
    }
    resp := Unwritten;
  }
}
