/** The proxy middleware in front of the container manager's HTTPS server:
    a registry of container names, and a handler that forwards a request
    whose first path segment is a registered name to that container on port
    8080 and hands every other request to the next handler. */
module ProxyMiddleware {
  import opened Base
  import opened Http

  /** The upstream address for a request path split at '/': the second
      segment becomes the host on port 8080 and the remaining segments
      follow as the path. */
  function UpstreamUri(parts: seq<string>): string
    requires |parts| >= 2
  {
    "https://" + parts[1] + ":8080/" + Join(parts[2..], '/')
  }

  /** A path "/<name>/<rest>" selects <name> and is sent upstream with <rest>
      unchanged. */
  lemma UpstreamOfPath(name: string, rest: string)
    requires '/' !in name
    ensures |Split("/" + name + "/" + rest, '/')| >= 2
    ensures Split("/" + name + "/" + rest, '/')[1] == name
    ensures UpstreamUri(Split("/" + name + "/" + rest, '/')) == "https://" + name + ":8080/" + rest
  {
    assert "/" + name + "/" + rest == [] + ['/'] + (name + ['/'] + rest);
    SplitAtSep([], '/', name + ['/'] + rest);
    SplitAtSep(name, '/', rest);
    var parts := Split("/" + name + "/" + rest, '/');
    assert parts == [[], name] + Split(rest, '/');
    assert parts[2..] == Split(rest, '/');
    JoinSplit(rest, '/');
  }

  class DataboxProxyMiddleware {
    /** The registered container names (a Go map whose values repeat its
        keys). */
    var proxyList: set<string>
    /** The HTTPS client that reaches the containers. */
    const send: Outbound -> Result<Upstream, string>

    constructor (send: Outbound -> Result<Upstream, string>)
      ensures proxyList == {} && this.send == send
    {
      proxyList := {};
      this.send := send;
    }

    /** The handler: a path without a second segment panics, an unregistered
        second segment goes to the next handler, and a registered one is
        forwarded upstream. */
    function Proxy(r: Request): (h: Handled)
      reads this
      ensures |Split(r.path, '/')| < 2 ==> h == Panicked
      ensures h.Next? <==> |Split(r.path, '/')| >= 2 && Split(r.path, '/')[1] !in proxyList
    {
      var parts := Split(r.path, '/');
      if |parts| < 2 then Panicked
      else if parts[1] !in proxyList then Next
      else Forward(r, UpstreamUri(parts), send)
    }

    method Add(containerName: string)
      modifies this
      ensures proxyList == old(proxyList) + {containerName}
    {
      proxyList := proxyList + {containerName};
    }

    method Del(containerName: string)
      modifies this
      ensures proxyList == old(proxyList) - {containerName}
    {
      if containerName in proxyList {
        proxyList := proxyList - {containerName};
      }
    }

    method Exists(containerName: string) returns (ok: bool)
      ensures ok <==> containerName in proxyList
    {
      ok := containerName in proxyList;
    }
  }

  /** A request for "/<name>/<rest>" with <name> registered is forwarded to
      https://<name>:8080/<rest>; once <name> is deleted it goes to the next
      handler instead. */
  lemma ProxyRegistered(d: DataboxProxyMiddleware, r: Request, name: string, rest: string)
    requires '/' !in name && r.path == "/" + name + "/" + rest
    ensures name in d.proxyList ==> d.Proxy(r) == Forward(r, "https://" + name + ":8080/" + rest, d.send)
    ensures name !in d.proxyList ==> d.Proxy(r) == Next
  {
    UpstreamOfPath(name, rest);
  }
}
