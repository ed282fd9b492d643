/** The earlier proxy used by the legacy HTTPS server's /ui/{appurl} route:
    the first segment of the matched application URL names the container,
    which is reached on port 8080 with the remaining segments as its path. */
module DataboxProxy {
  import opened Base
  import opened Http

  function UpstreamUri(appurl: string): string
  {
    var parts := Split(appurl, '/');
    "https://" + parts[0] + ":8080/" + Join(parts[1..], '/')
  }

  /** "<name>/<rest>" is sent to https://<name>:8080/<rest>. */
  lemma UpstreamOfAppUrl(name: string, rest: string)
    requires '/' !in name
    ensures UpstreamUri(name + "/" + rest) == "https://" + name + ":8080/" + rest
  {
    SplitAtSep(name, '/', rest);
    var parts := Split(name + "/" + rest, '/');
    assert parts[1..] == Split(rest, '/');
    JoinSplit(rest, '/');
  }

  /** A bare "<name>" is sent to the root of https://<name>:8080/. */
  lemma UpstreamOfName(name: string)
    requires '/' !in name
    ensures UpstreamUri(name) == "https://" + name + ":8080/"
  {
    SplitNoSep(name, '/');
    assert Split(name, '/')[1..] == [];
  }

  /** The handler: never falls through; it answers or panics. */
  function Proxy(r: Request, appurl: string, send: Outbound -> Result<Upstream, string>): (h: Handled)
    ensures h.Reply? || h.Panicked?
  {
    Forward(r, UpstreamUri(appurl), send)
  }

  /** /ui/<name>/<rest> is forwarded to https://<name>:8080/<rest>, with
      the first value of each request header. */
  lemma ProxyForwards(r: Request, name: string, rest: string, send: Outbound -> Result<Upstream, string>)
    requires '/' !in name
    ensures Proxy(r, name + "/" + rest, send) == Forward(r, "https://" + name + ":8080/" + rest, send)
  {
    UpstreamOfAppUrl(name, rest);
  }
}
