/** frpc.toml: generation from a structured configuration, and reading it back. */
module FrpcConfig {
  import opened Text
  import Model
  import opened Toml

  datatype ProxyEntry = ProxyEntry(name: string, typ: string, localIP: string, localPort: int,
                                   subdomain: string, remotePort: int)

  datatype Config = Config(serverAddr: string, serverPort: int, user: string, token: string,
                           proxies: seq<ProxyEntry>)

  datatype GenerateError =
    | MissingSubdomain(name: string)
    | RemotePortOutOfRange(typ: string, name: string, port: int)
    | UnsupportedType(typ: string)

  predicate UsesSubdomain(typ: string) {
    typ == Model.HTTP || typ == Model.HTTPS
  }

  predicate UsesPort(typ: string) {
    typ == Model.TCP || typ == Model.UDP
  }

  // ---- what the generated file must say ----

  /** Why this entry cannot be written, if it cannot. */
  function Fault(p: ProxyEntry): Option<GenerateError> {
    if UsesSubdomain(p.typ) then
      if p.subdomain == "" then Some(MissingSubdomain(p.name)) else None
    else if UsesPort(p.typ) then
      if Model.ValidPort(p.remotePort) then None else Some(RemotePortOutOfRange(p.typ, p.name, p.remotePort))
    else Some(UnsupportedType(p.typ))
  }

  /** The entries that can be written, spelled out. */
  predicate CanBeWritten(p: ProxyEntry) {
    || ((p.typ == "http" || p.typ == "https") && p.subdomain != "")
    || ((p.typ == "tcp" || p.typ == "udp") && 1 <= p.remotePort <= 65535)
  }

  /** The error is the right one for an entry that cannot be written. */
  predicate Explains(error: GenerateError, p: ProxyEntry) {
    match error
    case MissingSubdomain(name) => (p.typ == "http" || p.typ == "https") && p.subdomain == "" && name == p.name
    case RemotePortOutOfRange(typ, name, port) =>
      && (p.typ == "tcp" || p.typ == "udp") && (p.remotePort < 1 || p.remotePort > 65535)
      && typ == p.typ && name == p.name && port == p.remotePort
    case UnsupportedType(typ) =>
      typ == p.typ && typ != "http" && typ != "https" && typ != "tcp" && typ != "udp"
  }

  lemma FaultSpelled(p: ProxyEntry, error: GenerateError)
    ensures Fault(p).None? <==> CanBeWritten(p)
    ensures Fault(p).Some? && Fault(p).value == error <==> Explains(error, p)
  {
    Model.ConstantsDistinct();
  }

  const TITLE := "# frpc 客户端配置 —— 由 frp-warden 自动生成"
  const DOCS := "# 文档:https://github.com/fatedier/frp"
  const NO_PROXIES := "# 尚未配置映射(proxy)。请先在管理后台创建映射后再生成配置。"

  function ServerLines(cfg: Config): seq<string> {
    [TITLE, DOCS, "", FieldLine(Field("serverAddr", Str(cfg.serverAddr))),
     FieldLine(Field("serverPort", Int(cfg.serverPort)))]
  }

  function HeaderLines(cfg: Config): seq<string> {
    ServerLines(cfg) + ["", FieldLine(Field("user", Str(cfg.user))), "",
                        FieldLine(Field("metadatas.token", Str(cfg.token)))]
  }

  function EndpointField(p: ProxyEntry): Field {
    if UsesSubdomain(p.typ) then Field("subdomain", Str(p.subdomain))
    else Field("remotePort", Int(p.remotePort))
  }

  function EntryFields(p: ProxyEntry): seq<Field> {
    [Field("name", Str(p.name)), Field("type", Str(p.typ)), Field("localIP", Str(p.localIP)),
     Field("localPort", Int(p.localPort)), EndpointField(p)]
  }

  function EntryLines(p: ProxyEntry): seq<string> {
    ["", "[[proxies]]"] + FieldLines(EntryFields(p), 5)
  }

  /** The given lines followed by the blocks of the first n entries. */
  function WithEntries(before: seq<string>, ps: seq<ProxyEntry>, n: nat): seq<string>
    requires n <= |ps|
  {
    if n == 0 then before else WithEntries(before, ps, n - 1) + EntryLines(ps[n - 1])
  }

  function ConfigLines(cfg: Config): seq<string> {
    if cfg.proxies == [] then HeaderLines(cfg) + ["", NO_PROXIES]
    else WithEntries(HeaderLines(cfg), cfg.proxies, |cfg.proxies|)
  }

  lemma LineSpelled(f: Field, start: string)
    requires start == f.key + " = "
    ensures FieldLine(f) == start + PrintValue(f.value)
  {
  }

  lemma NextLine(fs: seq<Field>, n: nat, start: string)
    requires n < |fs| && start == fs[n].key + " = "
    ensures FieldLines(fs, n + 1) == FieldLines(fs, n) + [start + PrintValue(fs[n].value)]
  {
    LineSpelled(fs[n], start);
  }

  lemma OneByOne<T>(a: T, b: T, c: T, d: T, e: T)
    ensures [] + [a] + [b] + [c] + [d] + [e] == [a, b, c, d, e]
  {
  }

  /** The head of the file, line by line. */
  lemma HeaderSpelled(cfg: Config)
    ensures HeaderLines(cfg) ==
            [TITLE, DOCS, "", "serverAddr = " + Quote(cfg.serverAddr), "serverPort = " + Itoa(cfg.serverPort), "",
             "user = " + Quote(cfg.user), "", "metadatas.token = " + Quote(cfg.token)]
  {
    LineSpelled(Field("serverAddr", Str(cfg.serverAddr)), "serverAddr = ");
    LineSpelled(Field("serverPort", Int(cfg.serverPort)), "serverPort = ");
    LineSpelled(Field("user", Str(cfg.user)), "user = ");
    LineSpelled(Field("metadatas.token", Str(cfg.token)), "metadatas.token = ");
  }

  lemma LocalSpelled(p: ProxyEntry)
    ensures FieldLines(EntryFields(p), 4) ==
            [] + ["name = " + Quote(p.name)] + ["type = " + Quote(p.typ)] + ["localIP = " + Quote(p.localIP)]
            + ["localPort = " + Itoa(p.localPort)]
  {
    var fs := EntryFields(p);
    NextLine(fs, 0, "name = ");
    NextLine(fs, 1, "type = ");
    NextLine(fs, 2, "localIP = ");
    NextLine(fs, 3, "localPort = ");
  }

  /** And the block of an entry. */
  lemma EntrySpelled(p: ProxyEntry, endpoint: string)
    requires endpoint == if p.typ == "http" || p.typ == "https" then "subdomain = " + Quote(p.subdomain)
                         else "remotePort = " + Itoa(p.remotePort)
    ensures EntryLines(p) == ["", "[[proxies]]"] +
            ["name = " + Quote(p.name), "type = " + Quote(p.typ), "localIP = " + Quote(p.localIP),
             "localPort = " + Itoa(p.localPort), endpoint]
  {
    LocalSpelled(p);
    NextLine(EntryFields(p), 4, if p.typ == "http" || p.typ == "https" then "subdomain = " else "remotePort = ");
    OneByOne("name = " + Quote(p.name), "type = " + Quote(p.typ), "localIP = " + Quote(p.localIP),
             "localPort = " + Itoa(p.localPort), endpoint);
  }

  function FileOf(lines: seq<string>): string {
    Terminated(lines, '\n')
  }

  ghost predicate Writable(cfg: Config) {
    forall i :: 0 <= i < |cfg.proxies| ==> Fault(cfg.proxies[i]).None?
  }

  // ---- reading a configuration back ----

  function TextAt(t: Table, key: string): Option<string> {
    if key in t && t[key].Str? then Some(t[key].text) else None
  }

  function NumberAt(t: Table, key: string): Option<int> {
    if key in t && t[key].Int? then Some(t[key].number) else None
  }

  function ReadEntry(t: Table): Option<ProxyEntry> {
    var name, typ, ip, port := TextAt(t, "name"), TextAt(t, "type"), TextAt(t, "localIP"), NumberAt(t, "localPort");
    if name.None? || typ.None? || ip.None? || port.None? then None
    else
      var subdomain := if "subdomain" in t then TextAt(t, "subdomain") else Some("");
      var remotePort := if "remotePort" in t then NumberAt(t, "remotePort") else Some(0);
      if subdomain.None? || remotePort.None? then None
      else Some(ProxyEntry(name.value, typ.value, ip.value, port.value, subdomain.value, remotePort.value))
  }

  function ReadEntries(ts: seq<Table>): Option<seq<ProxyEntry>> {
    if ts == [] then Some([])
    else
      var front, last := ReadEntries(ts[..|ts| - 1]), ReadEntry(ts[|ts| - 1]);
      if front.Some? && last.Some? then Some(front.value + [last.value]) else None
  }

  function ConfigOf(doc: Document): Option<Config> {
    var addr, port := TextAt(doc.root, "serverAddr"), NumberAt(doc.root, "serverPort");
    var user, token := TextAt(doc.root, "user"), TextAt(doc.root, "metadatas.token");
    var entries := ReadEntries(doc.proxies);
    if addr.Some? && port.Some? && user.Some? && token.Some? && entries.Some?
    then Some(Config(addr.value, port.value, user.value, token.value, entries.value)) else None
  }

  function ReadConfig(text: string): Option<Config> {
    match ReadDocument(text)
    case None => None
    case Some(doc) => ConfigOf(doc)
  }

  // ---- the printer and the reader undo each other ----

  /** An entry with only the endpoint field its type uses. */
  function Essential(p: ProxyEntry): ProxyEntry {
    if UsesSubdomain(p.typ) then p.(remotePort := 0) else p.(subdomain := "")
  }

  function EssentialAll(ps: seq<ProxyEntry>): seq<ProxyEntry> {
    seq(|ps|, i requires 0 <= i < |ps| => Essential(ps[i]))
  }

  predicate PlainEntry(p: ProxyEntry) {
    Plain(p.name) && Plain(p.localIP) && (UsesSubdomain(p.typ) ==> Plain(p.subdomain))
  }

  ghost predicate PlainConfig(cfg: Config) {
    && Plain(cfg.serverAddr) && Plain(cfg.user) && Plain(cfg.token)
    && forall i :: 0 <= i < |cfg.proxies| ==> PlainEntry(cfg.proxies[i])
  }
}
