/** The arbiter permissions an SLA implies, as both versions of the
    container manager issue them: the export grant with its destination
    caveat, the grants on each data source an app reads, and the grants on
    the workload's own store. */
module Grants {
  import opened Base
  import opened DataboxTypes
  import opened Collaborators
  import CoreStoreClient
  import Url

  /** The permissions issued so far, and whether the issuing loop panicked. */
  datatype Issued = Issued(grants: seq<Permission>, panicked: bool)

  function Urls(ws: seq<ExportWhitelist>): (r: seq<string>)
    ensures |r| == |ws| && forall i :: 0 <= i < |ws| ==> r[i] == ws[i].url
  {
    seq(|ws|, i requires 0 <= i < |ws| => ws[i].url)
  }

  /** The export caveat's list as the loop builds it: every URL is followed
      by a comma. */
  function WhitelistUrls(ws: seq<ExportWhitelist>): string
  {
    if ws == [] then [] else WhitelistUrls(ws[..|ws| - 1]) + ws[|ws| - 1].url + ","
  }

  function ExportCaveat(ws: seq<ExportWhitelist>): string
  {
    "destination = \"" + WhitelistUrls(ws) + "\""
  }

  /** The caveat lists the URLs joined by commas and then one more comma
      after the last. */
  lemma {:induction false} ExportCaveatTrailingComma(ws: seq<ExportWhitelist>)
    requires ws != []
    ensures WhitelistUrls(ws) == Join(Urls(ws), ',') + ","
    ensures ExportCaveat(ws) == "destination = \"" + Join(Urls(ws), ',') + ",\""
    decreases |ws|
  {
    var init := ws[..|ws| - 1];
    if init != [] {
      ExportCaveatTrailingComma(init);
      assert Urls(ws) == Urls(init) + [ws[|ws| - 1].url];
      JoinSnoc(Urls(init), ws[|ws| - 1].url, ',');
    } else {
      assert Urls(ws) == [ws[0].url];
    }
  }

  /** One POST /export/ grant on export-service when the SLA whitelists any
      export destination. */
  function ExportGrants(localName: string, ws: seq<ExportWhitelist>): (g: seq<Permission>)
    ensures |g| == (if ws == [] then 0 else 1)
    ensures g != [] ==> g[0].route == Route("export-service", "/export/", "POST") && g[0].caveats == [ExportCaveat(ws)]
  {
    if |ws| > 0 then [Permission(localName, Route("export-service", "/export/", "POST"), [ExportCaveat(ws)])] else []
  }

  /** A catalogue item marks an actuator only through a typed boolean pair;
      JSON-decoded items never do. */
  predicate IsActuator(items: seq<MetaItem>)
  {
    exists i :: 0 <= i < |items| && items[i].RelValPairBool? &&
      items[i].rel == CoreStoreClient.RelIsActuator && items[i].bval
  }

  /** An item that went through JSON carries no typed pair, so it is never
      taken for an actuator. */
  lemma JsonItemNeverActuator(hc: HypercatItem)
    ensures !IsActuator(ItemToJson(hc).itemMetadata)
  {
    var items := ItemToJson(hc).itemMetadata;
    forall i | 0 <= i < |items| ensures !items[i].RelValPairBool? {
      assert items[i] == ToJson(hc.itemMetadata[i]);
    }
  }

  // The grants for one data source of an app, on the host of its href: a
  // POST on "/" + path + "/*" for an actuator, then GET /status, GET path
  // and GET path + "/*". None when the href does not parse (the nil URL is
  // then dereferenced).
  function DatasourceGrants(localName: string, ds: Datasource): (g: Option<seq<Permission>>)
    ensures g.Some? <==> Url.Parse(ds.hypercat.href).Ok?
    ensures g.Some? ==> |g.value| == (if IsActuator(ds.hypercat.itemMetadata) then 4 else 3)
    ensures g.Some? ==> forall p :: p in g.value ==>
      p.name == localName && p.caveats == [] && p.route.target == Url.Hostname(Url.Parse(ds.hypercat.href).value)
    ensures g.Some? ==> ((exists p :: p in g.value && p.route.verb == "POST") <==> IsActuator(ds.hypercat.itemMetadata))
  {
    match Url.Parse(ds.hypercat.href)
    case Err(_) => None
    case Ok(u) =>
      var host := Url.Hostname(u);
      var readGrants := ReadGrants(localName, host, u.path);
      if IsActuator(ds.hypercat.itemMetadata) then
        var post := Permission(localName, Route(host, "/" + u.path + "/*", "POST"), []);
        assert post in [post] + readGrants;
        Some([post] + readGrants)
      else
        Some(readGrants)
  }

  /** The three read grants every data source gets. */
  function ReadGrants(localName: string, host: string, path: string): (g: seq<Permission>)
    ensures |g| == 3
    ensures forall p :: p in g ==> p.name == localName && p.caveats == [] && p.route.target == host && p.route.verb == "GET"
  {
    [Permission(localName, Route(host, "/status", "GET"), []),
     Permission(localName, Route(host, path, "GET"), []),
     Permission(localName, Route(host, path + "/*", "GET"), [])]
  }

  /** The datasource loop: the grants of each data source in turn, stopping
      at the first href that does not parse. */
  function DatasourcesGrants(localName: string, dss: seq<Datasource>): (r: Issued)
    ensures r.panicked <==> exists i :: 0 <= i < |dss| && Url.Parse(dss[i].hypercat.href).Err?
  {
    if dss == [] then Issued([], false)
    else
      var prev := DatasourcesGrants(localName, dss[..|dss| - 1]);
      if prev.panicked then
        assert forall i :: 0 <= i < |dss| - 1 ==> dss[..|dss| - 1][i] == dss[i];
        prev
      else
        assert forall i :: 0 <= i < |dss| - 1 ==> dss[..|dss| - 1][i] == dss[i];
        match DatasourceGrants(localName, dss[|dss| - 1])
        case None => Issued(prev.grants, true)
        case Some(g) => Issued(prev.grants + g, false)
  }

  /** Every datasource grant is one of the workload's and has no caveat. */
  lemma {:induction false} DatasourcesGrantsScoped(localName: string, dss: seq<Datasource>)
    ensures forall p :: p in DatasourcesGrants(localName, dss).grants ==> p.name == localName && p.caveats == []
    decreases |dss|
  {
    if dss != [] {
      DatasourcesGrantsScoped(localName, dss[..|dss| - 1]);
    }
  }

  /** The grants on the workload's store: container-manager may read its
      catalogue, and the workload may write, optionally delete, and read
      everything in it. */
  function StoreGrants(localName: string, storeName: string, withDelete: bool): (g: seq<Permission>)
    ensures |g| == (if withDelete then 4 else 3)
    ensures forall p :: p in g ==> p.route.target == storeName && p.caveats == []
    ensures (exists p :: p in g && p.route.verb == "DELETE") <==> withDelete
  {
    [Permission("container-manager", Route(storeName, "/cat", "GET"), []),
     Permission(localName, Route(storeName, "/*", "POST"), [])] +
    (if withDelete then [Permission(localName, Route(storeName, "/*", "DELETE"), [])] else []) +
    [Permission(localName, Route(storeName, "/*", "GET"), [])]
  }

  /** A store's grants belong to the workload, except container-manager's
      read of the catalogue; DELETE is there exactly when asked for. */
  lemma StoreGrantsOwners(localName: string, storeName: string, withDelete: bool)
    ensures forall p :: p in StoreGrants(localName, storeName, withDelete) ==>
      p.name == localName || p == Permission("container-manager", Route(storeName, "/cat", "GET"), [])
    ensures withDelete ==> Permission(localName, Route(storeName, "/*", "DELETE"), []) in StoreGrants(localName, storeName, withDelete)
  {
  }

  /** Once a data source's href fails to parse, the later ones are never
      reached. */
  lemma {:induction false} DatasourcesGrantsStops(localName: string, dss: seq<Datasource>, k: nat)
    requires k < |dss| && !DatasourcesGrants(localName, dss[..k]).panicked
    requires Url.Parse(dss[k].hypercat.href).Err?
    ensures DatasourcesGrants(localName, dss) == Issued(DatasourcesGrants(localName, dss[..k]).grants, true)
    decreases |dss|
  {
    assert dss[..k + 1][..k] == dss[..k];
    if k + 1 < |dss| {
      assert dss[..|dss| - 1][..k] == dss[..k];
      DatasourcesGrantsStops(localName, dss[..|dss| - 1], k);
    } else {
      assert dss[..k + 1] == dss;
    }
  }

  /** One more data source whose href parses adds its grants at the end. */
  lemma DatasourcesGrantsStep(localName: string, dss: seq<Datasource>, i: nat)
    requires i < |dss| && !DatasourcesGrants(localName, dss[..i]).panicked
    requires DatasourceGrants(localName, dss[i]).Some?
    ensures DatasourcesGrants(localName, dss[..i + 1]) ==
      Issued(DatasourcesGrants(localName, dss[..i]).grants + DatasourceGrants(localName, dss[i]).value, false)
  {
    assert dss[..i + 1][..i] == dss[..i];
  }

  /** The export loop: one POST /export/ grant whose caveat lists every
      whitelisted URL followed by a comma. */
  method GrantExport(arbiter: Arbiter, localName: string, ws: seq<ExportWhitelist>)
    modifies arbiter
    ensures arbiter.grants == old(arbiter.grants) + ExportGrants(localName, ws)
    ensures arbiter.tokens == old(arbiter.tokens)
  {
    if |ws| > 0 {
      var urls := "destination = \"";
      var i := 0;
      while i < |ws|
        invariant 0 <= i <= |ws|
        invariant urls == "destination = \"" + WhitelistUrls(ws[..i])
      {
        assert ws[..i + 1][..i] == ws[..i];
        urls := urls + ws[i].url;
        if i < |ws| {
          urls := urls + ",";
        }
        i := i + 1;
      }
      assert ws[..|ws|] == ws;
      urls := urls + "\"";
      arbiter.GrantContainerPermissions(Permission(localName, Route("export-service", "/export/", "POST"), [urls]));
    }
  }

  /** The isActuator loop: set by any typed boolean pair with the
      actuator relation and value true (its `break` leaves only the type
      switch, so the scan always runs to the end). */
  method DetectActuator(items: seq<MetaItem>) returns (b: bool)
    ensures b <==> IsActuator(items)
  {
    b := false;
    var i := 0;
    while i < |items|
      invariant 0 <= i <= |items|
      invariant b <==> exists k :: 0 <= k < i && items[k].RelValPairBool? &&
                                   items[k].rel == CoreStoreClient.RelIsActuator && items[k].bval
    {
      var item := items[i];
      if item.RelValPairBool? {
        if item.rel == CoreStoreClient.RelIsActuator && item.bval == true {
          b := true;
        }
      }
      i := i + 1;
    }
  }

  /** The grants for one data source whose href parsed to `endpoint`. */
  method GrantDatasource(arbiter: Arbiter, localName: string, ds: Datasource, endpoint: Url.Url)
    requires Url.Parse(ds.hypercat.href) == Ok(endpoint)
    modifies arbiter
    ensures arbiter.grants == old(arbiter.grants) + DatasourceGrants(localName, ds).value
    ensures arbiter.tokens == old(arbiter.tokens)
  {
    var host := Url.Hostname(endpoint);
    var path := endpoint.path;
    var isActuator := DetectActuator(ds.hypercat.itemMetadata);
    if isActuator {
      arbiter.GrantContainerPermissions(Permission(localName, Route(host, "/" + path + "/*", "POST"), []));
    }
    arbiter.GrantContainerPermissions(Permission(localName, Route(host, "/status", "GET"), []));
    arbiter.GrantContainerPermissions(Permission(localName, Route(host, path, "GET"), []));
    arbiter.GrantContainerPermissions(Permission(localName, Route(host, path + "/*", "GET"), []));
  }

  /** The data source part: the grants of each data source in turn; an
      href that does not parse panics. */
  method GrantDatasources(arbiter: Arbiter, localName: string, dss: seq<Datasource>) returns (panicked: bool)
    modifies arbiter
    ensures panicked == DatasourcesGrants(localName, dss).panicked
    ensures arbiter.grants == old(arbiter.grants) + DatasourcesGrants(localName, dss).grants
    ensures arbiter.tokens == old(arbiter.tokens)
  {
    var i := 0;
    while i < |dss|
      invariant 0 <= i <= |dss|
      invariant !DatasourcesGrants(localName, dss[..i]).panicked
      invariant arbiter.grants == old(arbiter.grants) + DatasourcesGrants(localName, dss[..i]).grants
      invariant arbiter.tokens == old(arbiter.tokens)
    {
      var parsed := Url.Parse(dss[i].hypercat.href);
      if parsed.Err? {
        DatasourcesGrantsStops(localName, dss, i);
        return true;
      }
      DatasourcesGrantsStep(localName, dss, i);
      GrantDatasource(arbiter, localName, dss[i], parsed.value);
      AppendTwice(old(arbiter.grants), DatasourcesGrants(localName, dss[..i]).grants,
                  DatasourceGrants(localName, dss[i]).value);
      i := i + 1;
    }
    assert dss[..i] == dss;
    panicked := false;
  }

  /** The dependent-store part: catalogue read for container-manager, and
      write, (when asked for) delete and read for the workload. */
  method GrantStore(arbiter: Arbiter, localName: string, storeName: string, withDelete: bool)
    modifies arbiter
    ensures arbiter.grants == old(arbiter.grants) + StoreGrants(localName, storeName, withDelete)
    ensures arbiter.tokens == old(arbiter.tokens)
  {
    arbiter.GrantContainerPermissions(Permission("container-manager", Route(storeName, "/cat", "GET"), []));
    arbiter.GrantContainerPermissions(Permission(localName, Route(storeName, "/*", "POST"), []));
    if withDelete {
      arbiter.GrantContainerPermissions(Permission(localName, Route(storeName, "/*", "DELETE"), []));
    }
    arbiter.GrantContainerPermissions(Permission(localName, Route(storeName, "/*", "GET"), []));
  }

}
