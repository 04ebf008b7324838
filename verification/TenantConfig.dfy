/** A tenant's frpc configuration: from the rows of the join to entries to the file. */
module TenantConfig {
  import opened Text
  import Model
  import Plugin
  import opened FrpcConfig
  import Generator

  function ParsePort(s: string): Option<int> {
    match Atoi(TrimSpace(s))
    case Some(port) => if Model.ValidPort(port) then Some(port) else None
    case None => None
  }

  /** The entry for one row; None when a stored port does not parse. */
  function EntryOf(c: Plugin.AuthContext): Option<ProxyEntry> {
    var entry := ProxyEntry(c.proxy.name, c.proxy.proxyType, c.proxy.localIP, c.proxy.localPort, "", 0);
    if UsesSubdomain(c.proxy.proxyType) then Some(entry.(subdomain := c.resource.value))
    else if UsesPort(c.proxy.proxyType) then
      match ParsePort(c.resource.value) { case Some(n) => Some(entry.(remotePort := n)) case None => None }
    else Some(entry)
  }

  function EntriesOf(cs: seq<Plugin.AuthContext>): Option<seq<ProxyEntry>> {
    if cs == [] then Some([])
    else
      var front, last := EntriesOf(cs[..|cs| - 1]), EntryOf(cs[|cs| - 1]);
      if front.Some? && last.Some? then Some(front.value + [last.value]) else None
  }

  datatype Server = Server(addr: string, port: int)

  const PLACEHOLDER := "请粘贴创建/重置时显示的一次性 token"

  function ConfigFor(server: Server, code: string, token: string, entries: seq<ProxyEntry>): Config {
    Config(server.addr, server.port, code, token, entries)
  }

  /** The file for these rows, when every entry can be built and written. */
  ghost function ConfigText(server: Server, code: string, token: string, cs: seq<Plugin.AuthContext>): Option<string> {
    match EntriesOf(cs)
    case None => None
    case Some(entries) =>
      var cfg := ConfigFor(server, code, token, entries);
      if Writable(cfg) then Some(FileOf(ConfigLines(cfg))) else None
  }

  lemma {:induction false} EntriesOfPrefix(cs: seq<Plugin.AuthContext>, n: nat)
    requires n <= |cs| && EntriesOf(cs[..n]).None?
    ensures EntriesOf(cs).None?
    decreases |cs|
  {
    if n == |cs| {
      assert cs[..n] == cs;
    } else {
      assert cs[..|cs| - 1][..n] == cs[..n];
      EntriesOfPrefix(cs[..|cs| - 1], n);
    }
  }

  /** generateFrpcConfigForTenant, from the contexts the store lists. */
  method GenerateForTenant(server: Server, code: string, plainToken: string, placeholder: bool,
                           cs: seq<Plugin.AuthContext>)
    returns (r: Option<string>)
    ensures r == ConfigText(server, code, if placeholder then PLACEHOLDER else plainToken, cs)
  {
    var token := plainToken;
    if placeholder {
      token := PLACEHOLDER;
    }
    var proxies: seq<ProxyEntry> := [];
    for i := 0 to |cs|
      invariant EntriesOf(cs[..i]) == Some(proxies)
    {
      var p := cs[i].proxy;
      var entry := ProxyEntry(p.name, p.proxyType, p.localIP, p.localPort, "", 0);
      assert cs[..i + 1][..i] == cs[..i];
      if entry.typ == Model.HTTP || entry.typ == Model.HTTPS {
        entry := entry.(subdomain := cs[i].resource.value);
      } else if entry.typ == Model.TCP || entry.typ == Model.UDP {
        var port := ParsePort(cs[i].resource.value);
        if port.None? {
          EntriesOfPrefix(cs, i + 1);
          return None;
        }
        entry := entry.(remotePort := port.value);
      }
      proxies := proxies + [entry];
    }
    assert cs[..|cs|] == cs;
    var out := Generator.Generate(ConfigFor(server, code, token, proxies));
    return if out.Ok? then Some(out.value) else None;
  }
}
