/** The legacy container manager's HTTPS API. Its listing handlers are the
    same code as the current server's (SecureServer.TypeList and
    SecureServer.InstalledList model both); what differs is install, which
    neither answers a bad body nor looks at the launch's result, and
    restart and uninstall, which are registered but do nothing. */
module LegacySecureServer {
  import opened Base
  import opened Http
  import opened DataboxTypes
  import CM = ContainerManager
  import Legacy = LegacyContainerManager
  import SecureServer

  /** install's call to the legacy LaunchFromSLA, whose nil error the
      handler discards; only a panic is seen. */
  method Launch(cm: Legacy.Manager, sla: SLA) returns (panicked: bool)
    requires cm.Valid()
    modifies cm.platform, cm.arbiter, cm.network
    ensures cm.Valid()
    ensures panicked <==> sla.databoxType == DataboxTypeApp && CM.DatasourceHosts(sla.datasources).None?
  {
    var out := cm.LaunchFromSLA(sla);
    panicked := out == CM.LaunchPanicked;
  }

  /** /api/install: a body that does not decode is only logged, so the
      client gets 200 with an empty body and nothing changes; otherwise the
      SLA is launched and the answer is 200 "Success", unless the launch
      panicked. */
  method Install(cm: Legacy.Manager, parsed: Result<SLA, string>) returns (h: Handled)
    requires cm.Valid()
    modifies cm.platform, cm.arbiter, cm.network
    ensures cm.Valid()
    ensures parsed.Err? ==>
      h == Reply(SecureServer.Unwritten) && unchanged(cm.platform) && unchanged(cm.arbiter) && unchanged(cm.network)
    ensures parsed.Ok? ==>
      && (h == Panicked <==>
            parsed.value.databoxType == DataboxTypeApp && CM.DatasourceHosts(parsed.value.datasources).None?)
      && (h != Panicked ==> h == Reply(SecureServer.Json(StatusOK, SecureServer.SuccessBody)))
  {
    if parsed.Err? {
      return Reply(SecureServer.Unwritten);
    }
    var panicked := Launch(cm, parsed.value);
    if panicked {
      return Panicked;
    }
    h := Reply(SecureServer.Json(StatusOK, SecureServer.SuccessBody));
  }

  /** /api/restart: an empty handler. Whatever the body, the answer is 200
      with no body, and the manager is not touched (nothing is modified). */
  method Restart(cm: Legacy.Manager, body: Bytes) returns (resp: Response)
    ensures resp.status == StatusOK && resp.body == [] && resp.headers == map[]
  {
    resp := SecureServer.Unwritten;
  }

  /** /api/uninstall: an empty handler, like restart. */
  method Uninstall(cm: Legacy.Manager, body: Bytes) returns (resp: Response)
    ensures resp.status == StatusOK && resp.body == [] && resp.headers == map[]
  {
    resp := SecureServer.Unwritten;
  }
}
