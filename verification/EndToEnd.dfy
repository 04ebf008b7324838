/** From a token reset to a running client: the file the reset returns, read back as TOML, carries an
    identity that logs in and proxies that are all allowed. */
module EndToEnd {
  import opened Text
  import opened Model
  import opened Tables
  import opened Plugin
  import opened Join
  import opened Toml
  import opened FrpcConfig
  import RoundTrip
  import opened TenantConfig
  import opened Agreement
  import opened FileRows
  import opened Machine
  import opened Safety
  import opened Trace
  import opened Sequential
  import opened Isolation
  import Interleaving

  /** The NewProxy request frps sends for one entry of a client's configuration. */
  function RequestOf(cfg: Config, e: ProxyEntry): NewProxyRequest {
    NewProxyRequest(cfg.user, cfg.token, e.name, e.typ, e.subdomain, [], e.remotePort)
  }

  /** Every name, local address and subdomain the tenant's configuration would print is plain. */
  ghost predicate PlainRows(db: Db, t: int) {
    forall c | c in JoinSet(db, t) ::
      && Plain(c.proxy.name) && Plain(c.proxy.localIP)
      && (UsesSubdomain(c.proxy.proxyType) ==> Plain(c.resource.value))
  }

  lemma PlainEntries(db: Db, t: int)
    requires Inv(db) && PlainRows(db, t)
    ensures forall e :: e in Entries(db, t) ==> PlainEntry(e)
  {
    forall e | e in Entries(db, t) ensures PlainEntry(e) {
      var c := EntryComesFromRow(db, t, e);
      EntryBuilds(db, t, c);
      assert e.localIP == c.proxy.localIP;
    }
  }

  /** Reading the configuration of any reachable state gives back its server, its identity and its entries. */
  lemma ConfigReadsBack(db: Db, t: int, server: Server, code: string, token: string)
    requires Inv(db) && PlainRows(db, t) && Plain(server.addr) && Plain(code) && Plain(token)
    ensures var text := ConfigText(server, code, token, JoinRows(db, t));
            && text.Some?
            && ReadConfig(text.value) == Some(ConfigFor(server, code, token, EssentialAll(Entries(db, t))))
  {
    PlainEntries(db, t);
    ConfigNeverFails(db, t, server, code, token);
    var cfg := ConfigFor(server, code, token, Entries(db, t));
    RoundTrip.ConfigRoundTrip(cfg);
  }

  /** What the file of a state says, row by row: the server, the identity, and for each proxy that qualifies, in
      the order of the names, its name, type, local address, local port and endpoint. */
  lemma FileShowsRows(db: Db, t: int, server: Server, code: string, token: string)
    returns (text: string, cfg: Config, ids: seq<int>)
    requires Inv(db) && PlainRows(db, t) && Plain(server.addr) && Plain(code) && Plain(token)
    ensures ConfigText(server, code, token, JoinRows(db, t)) == Some(text) && ReadConfig(text) == Some(cfg)
    ensures cfg.serverAddr == server.addr && cfg.serverPort == server.port && cfg.user == code && cfg.token == token
    ensures ShowsRows(db, t, cfg.proxies, ids)
  {
    ConfigReadsBack(db, t, server, code, token);
    text := ConfigText(server, code, token, JoinRows(db, t)).value;
    cfg := ConfigFor(server, code, token, EssentialAll(Entries(db, t)));
    ids := EntriesShowRows(db, t);
  }

  lemma EntryAllowed(verify: Verify, db: Db, t: int, cfg: Config, i: nat)
    requires Inv(db) && t in db.tenants && db.tenants[t].status == ENABLED && db.tenants[t].code == cfg.user
    requires cfg.token != "" && verify(db.tenants[t].tokenHash, cfg.token)
    requires cfg.proxies == EssentialAll(Entries(db, t)) && i < |cfg.proxies|
    ensures HandleNewProxy(verify, db, RequestOf(cfg, cfg.proxies[i])) == Allow
  {
    var e := Entries(db, t)[i];
    assert e in Entries(db, t);
    assert Lists(e, RequestOf(cfg, Essential(e)));
    ListedIsAllowed(verify, db, RequestOf(cfg, cfg.proxies[i]), t);
  }

  /** This configuration logs in, and everything it lists is allowed. */
  ghost predicate Works(verify: Verify, db: Db, cfg: Config) {
    && HandleLogin(verify, db, cfg.user, cfg.token) == Allow
    && forall i :: 0 <= i < |cfg.proxies| ==> HandleNewProxy(verify, db, RequestOf(cfg, cfg.proxies[i])) == Allow
  }

  lemma ConfigWorks(verify: Verify, db: Db, t: int, cfg: Config)
    requires Inv(db) && t in db.tenants && db.tenants[t].status == ENABLED && db.tenants[t].code == cfg.user
    requires cfg.token != "" && verify(db.tenants[t].tokenHash, cfg.token)
    requires cfg.proxies == EssentialAll(Entries(db, t))
    ensures Works(verify, db, cfg)
  {
    TenantLookup(db, t);
    forall i | 0 <= i < |cfg.proxies| ensures HandleNewProxy(verify, db, RequestOf(cfg, cfg.proxies[i])) == Allow {
      EntryAllowed(verify, db, t, cfg, i);
    }
  }

  lemma ResetKeepsRows(db: Db, id: int, hash: string, after: Db)
    requires Inv(db) && id in db.tenants && PlainRows(db, id)
    requires after == WithHash(db, id, hash)
    ensures Inv(after) && PlainRows(after, id)
  {
    UpdateTenantSafe(db, id, db.tenants[id].(tokenHash := hash));
    assert JoinSet(after, id) == JoinSet(db, id);
  }

  /** The whole way round: reset an enabled tenant's token in any state that satisfies the invariant and hand
      the returned text to a TOML reader; the user and token it carries log in, and every [[proxies]] entry is
      allowed. */
  lemma ResetConfigWorks(verify: Verify, db: Db, id: int, token: string, hash: string, server: Server)
    returns (text: string, cfg: Config, ids: seq<int>)
    requires Inv(db) && id in db.tenants && db.tenants[id].status == ENABLED
    requires token != "" && hash != "" && verify(hash, token)
    requires Plain(token) && Plain(server.addr) && Plain(db.tenants[id].code) && PlainRows(db, id)
    ensures var f := Serve(verify, db, ResetToken(id, token, hash, server));
            f.outcome == ConfigFile(token, Some(text)) && Works(verify, f.db, cfg)
            && ShowsRows(f.db, id, cfg.proxies, ids)
    ensures ReadConfig(text) == Some(cfg)
    ensures cfg.user == db.tenants[id].code && cfg.token == token
            && cfg.serverAddr == server.addr && cfg.serverPort == server.port
  {
    var after := WithHash(db, id, hash);
    ResetAlone(verify, db, id, token, hash, server);
    ResetKeepsRows(db, id, hash, after);
    ConfigReadsBack(after, id, server, db.tenants[id].code, token);
    cfg := ConfigFor(server, db.tenants[id].code, token, EssentialAll(Entries(after, id)));
    text := ConfigText(server, cfg.user, token, JoinRows(after, id)).value;
    ConfigWorks(verify, after, id, cfg);
    ids := EntriesShowRows(after, id);
  }

  lemma TemplateServed(verify: Verify, db: Db, id: int, server: Server, text: string)
    requires id in db.tenants
    requires ConfigText(server, db.tenants[id].code, PLACEHOLDER, JoinRows(db, id)) == Some(text)
    ensures Serve(verify, db, GetConfig(id, server)) == Finished(db, ConfigFile(PLACEHOLDER, Some(text)))
  {
    GetConfigAlone(verify, db, id, server);
  }

  /** The template an administrator downloads says the same, with the placeholder for the token. */
  lemma TemplateShowsRows(verify: Verify, db: Db, id: int, server: Server)
    returns (text: string, cfg: Config, ids: seq<int>)
    requires Inv(db) && id in db.tenants && Plain(server.addr) && Plain(db.tenants[id].code) && PlainRows(db, id)
    ensures Serve(verify, db, GetConfig(id, server)) == Finished(db, ConfigFile(PLACEHOLDER, Some(text)))
    ensures ReadConfig(text) == Some(cfg) && cfg.user == db.tenants[id].code && cfg.token == PLACEHOLDER
    ensures cfg.serverAddr == server.addr && cfg.serverPort == server.port && ShowsRows(db, id, cfg.proxies, ids)
  {
    text, cfg, ids := FileShowsRows(db, id, server, db.tenants[id].code, PLACEHOLDER);
    TemplateServed(verify, db, id, server, text);
  }

  // ---- files produced while anything else happens ----

  lemma BeforeFile(verify: Verify, db: Db, h: Handler, token: string, text: Option<string>)
    requires Inv(db) && HandlerOk(db, h) && !h.Done? && ExecOne(verify, db, h).next == Done(ConfigFile(token, text))
    ensures h.ConfigJoin? && h.token == token && text == ConfigText(h.server, h.code, token, JoinRows(db, h.id))
  {
  }

  lemma BeforeJoin(verify: Verify, db: Db, h: Handler, next: Handler)
    requires Inv(db) && HandlerOk(db, h) && !h.Done? && next.ConfigJoin? && ExecOne(verify, db, h).next == next
    ensures next.code != ""
  {
  }

  lemma EmptyCodeIsAborted(verify: Verify, run: Run, n: nat, k: nat, h: Handler)
    requires IsRun(verify, run) && At(run, n, k, h) && h.ConfigJoin? && h.code == ""
    ensures n <= |run.actions| && Interleaving.AbortedIn(run, 0, n, k)
  {
    var m, before := LastStep(verify, run, n, k, h);
    if run.actions[m] == Exec(k) {
      RunOk(verify, run, m);
      assert HandlerOk(run.worlds[m].db, before);
      BeforeJoin(verify, run.worlds[m].db, before, h);
    }
  }

  /** The step that ended a handler with this file. */
  lemma LastFileStep(verify: Verify, run: Run, n: nat, k: nat, token: string, text: Option<string>)
    returns (i: nat, h: Handler)
    requires IsRun(verify, run) && At(run, n, k, Done(ConfigFile(token, text)))
    ensures i < n && h.ConfigJoin? && h.token == token && HandlerOk(run.worlds[i].db, h)
    ensures || (Aborts(run, i, k, h) && text.None?)
            || (Executes(run, i, k, h)
                && text == ConfigText(h.server, h.code, token, JoinRows(run.worlds[i].db, h.id)))
  {
    i, h := LastStep(verify, run, n, k, Done(ConfigFile(token, text)));
    RunOk(verify, run, i);
    assert HandlerOk(run.worlds[i].db, h);
    if run.actions[i] == Exec(k) {
      BeforeFile(verify, run.worlds[i].db, h, token, text);
    }
  }

  /** The file an interleaved request returns is that of the state its join read, with the tenant's code;
      the file is missing only when the join failed, and the code only when the read before it did. */
  lemma FileReads(verify: Verify, run: Run, n: nat, k: nat, token: string, text: Option<string>)
    returns (i: nat, h: Handler)
    requires IsRun(verify, run) && At(run, n, k, Done(ConfigFile(token, text)))
    ensures i < n && h.ConfigJoin? && h.token == token && h.id in run.worlds[i].db.tenants
    ensures text.Some? ==> Executes(run, i, k, h)
                           && text == ConfigText(h.server, h.code, token, JoinRows(run.worlds[i].db, h.id))
    ensures text.None? ==> Aborts(run, i, k, h)
    ensures h.code == run.worlds[i].db.tenants[h.id].code || (h.code == "" && Interleaving.AbortedIn(run, 0, i, k))
  {
    i, h := LastFileStep(verify, run, n, k, token, text);
    RunOk(verify, run, i);
    ConfigNeverFails(run.worlds[i].db, h.id, h.server, h.code, token);
    if h.code == "" {
      EmptyCodeIsAborted(verify, run, i, k, h);
    }
  }

  lemma WorksIff(verify: Verify, db: Db, t: int, cfg: Config)
    requires Inv(db) && t in db.tenants && (cfg.user == "" || cfg.user == db.tenants[t].code)
    requires cfg.proxies == EssentialAll(Entries(db, t))
    ensures Works(verify, db, cfg) <==>
            cfg.user != "" && db.tenants[t].status == ENABLED
            && cfg.token != "" && verify(db.tenants[t].tokenHash, cfg.token)
  {
    LoginIff(verify, db, cfg.user, cfg.token);
    var row := db.tenants[t];
    if cfg.user != "" && row.status == ENABLED && cfg.token != "" && verify(row.tokenHash, cfg.token) {
      ConfigWorks(verify, db, t, cfg);
    }
  }

  /** Any file of any run, read as TOML: it shows the rows of the state its join read, and there it logs in and
      has every proxy it lists allowed if and only if it carries the tenant's code, the tenant is enabled and its
      hash matches the token. */
  lemma InterleavedFileWorks(verify: Verify, run: Run, n: nat, k: nat, token: string, text: string)
    returns (i: nat, h: Handler, cfg: Config, ids: seq<int>)
    requires IsRun(verify, run) && At(run, n, k, Done(ConfigFile(token, Some(text))))
    ensures i < n && Executes(run, i, k, h) && h.ConfigJoin? && h.id in run.worlds[i].db.tenants
    ensures var db := run.worlds[i].db; var row := db.tenants[h.id];
            PlainRows(db, h.id) && Plain(h.server.addr) && Plain(h.code) && Plain(token) ==>
              && ReadConfig(text) == Some(cfg) && cfg.user == h.code && cfg.token == token
              && ShowsRows(db, h.id, cfg.proxies, ids)
              && (Works(verify, db, cfg) <==>
                    h.code != "" && row.status == ENABLED && token != "" && verify(row.tokenHash, token))
  {
    i, h := FileReads(verify, run, n, k, token, Some(text));
    RunOk(verify, run, i);
    var db := run.worlds[i].db;
    cfg := ConfigFor(h.server, h.code, token, EssentialAll(Entries(db, h.id)));
    ids := EntriesShowRows(db, h.id);
    if PlainRows(db, h.id) && Plain(h.server.addr) && Plain(h.code) && Plain(token) {
      ConfigReadsBack(db, h.id, h.server, h.code, token);
      WorksIff(verify, db, h.id, cfg);
    }
  }

  // ---- from the stored hash to the answer ----

  predicate AfterHash(h: Handler) {
    h.ResetReadTenant? || h.RegisterReadTenant?
  }

  /** Position h of a reset or registration that found the tenant as in `base`. */
  ghost predicate Underway(base: Db, id: int, token: string, server: Server, h: Handler)
    requires id in base.tenants
  {
    match h
    case ResetReadTenant(i, t, s) => i == id && t == token && s == server
    case RegisterReadTenant(i, t, s) => i == id && t == token && s == server
    case ConfigJoin(i, code, t, s, tolerant) =>
      i == id && code == base.tenants[id].code && t == token && s == server && tolerant
    case Done(o) => o == ConfigFile(token, ConfigText(server, base.tenants[id].code, token, JoinRows(base, id)))
    case _ => false
  }

  lemma UnderwayStep(verify: Verify, base: Db, db: Db, id: int, token: string, server: Server, h: Handler)
    requires id in base.tenants && Underway(base, id, token, server, h) && !h.Done?
    requires id in db.tenants && db.tenants[id].code == base.tenants[id].code && JoinRows(base, id) == JoinRows(db, id)
    ensures Underway(base, id, token, server, ExecOne(verify, db, h).next)
  {
  }

  lemma SameRowsBetween(verify: Verify, run: Run, i: nat, n: nat, t: int)
    requires IsRun(verify, run) && i <= n < |run.worlds| && t in run.worlds[i].db.tenants
    requires forall m: nat :: i <= m < n ==> !TouchedAt(run, m, t)
    ensures var a, b := run.worlds[i].db, run.worlds[n].db;
            t in b.tenants && b.tenants[t].code == a.tenants[t].code && JoinRows(a, t) == JoinRows(b, t)
  {
    RunOk(verify, run, i);
    RunOk(verify, run, n);
    UntouchedView(verify, run, i, n, t);
    SameRowsListed(run.worlds[i].db, run.worlds[n].db, t);
  }

  lemma UnderwayNext(verify: Verify, run: Run, i: nat, n: nat, k: nat, h: Handler)
    requires IsRun(verify, run) && i <= n < |run.actions| && AfterHash(h)
    requires h.id in run.worlds[i].db.tenants && run.actions[n] != Abort(k)
    requires forall m: nat :: i <= m < n ==> !TouchedAt(run, m, h.id)
    requires k in run.worlds[n].handlers
    requires Underway(run.worlds[i].db, h.id, h.token, h.server, run.worlds[n].handlers[k])
    ensures k in run.worlds[n + 1].handlers
    ensures Underway(run.worlds[i].db, h.id, h.token, h.server, run.worlds[n + 1].handlers[k])
  {
    var base, w := run.worlds[i].db, run.worlds[n];
    assert Next(verify, w, run.actions[n], run.worlds[n + 1]);
    if run.actions[n] == Exec(k) {
      SameRowsBetween(verify, run, i, n, h.id);
      UnderwayStep(verify, base, w.db, h.id, h.token, h.server, w.handlers[k]);
    }
  }

  lemma {:induction false} UnderwayKept(verify: Verify, run: Run, i: nat, n: nat, k: nat, h: Handler)
    requires IsRun(verify, run) && At(run, i, k, h) && AfterHash(h) && i <= n < |run.worlds|
    requires h.id in run.worlds[i].db.tenants && !Interleaving.AbortedIn(run, i, n, k)
    requires forall m: nat :: i <= m < n ==> !TouchedAt(run, m, h.id)
    ensures k in run.worlds[n].handlers
    ensures Underway(run.worlds[i].db, h.id, h.token, h.server, run.worlds[n].handlers[k])
    decreases n
  {
    if i < n {
      Interleaving.AbortedNext(run, i, n - 1, k);
      UnderwayKept(verify, run, i, n - 1, k, h);
      UnderwayNext(verify, run, i, n - 1, k, h);
    }
  }

  lemma WorksLater(verify: Verify, a: Db, b: Db, t: int, cfg: Config)
    requires Inv(a) && Inv(b) && SameView(a, b, t) && cfg.user == a.tenants[t].code && Works(verify, a, cfg)
    ensures Works(verify, b, cfg)
  {
    SameAuth(verify, a, b, t, cfg.token);
    forall i | 0 <= i < |cfg.proxies| ensures HandleNewProxy(verify, b, RequestOf(cfg, cfg.proxies[i])) == Allow {
      SameAnswers(verify, a, b, t, RequestOf(cfg, cfg.proxies[i]));
    }
  }

  /** A reset or a registration that has stored its hash, whatever else happens as long as nothing touches
      its tenant and none of its own statements fails: the file it returns carries an identity that logs in
      and proxies that are all allowed, in the state in which it is answered. */
  lemma InterleavedConfigWorks(verify: Verify, run: Run, i: nat, n: nat, k: nat, h: Handler, o: Outcome)
    returns (text: string, cfg: Config)
    requires IsRun(verify, run) && At(run, i, k, h) && AfterHash(h) && i <= n && At(run, n, k, Done(o))
    requires !Interleaving.AbortedIn(run, i, n, k) && forall m: nat :: i <= m < n ==> !TouchedAt(run, m, h.id)
    requires var db := run.worlds[i].db;
             && h.id in db.tenants && db.tenants[h.id].status == ENABLED
             && h.token != "" && verify(db.tenants[h.id].tokenHash, h.token)
             && Plain(h.token) && Plain(h.server.addr) && Plain(db.tenants[h.id].code) && PlainRows(db, h.id)
    ensures o == ConfigFile(h.token, Some(text)) && ReadConfig(text) == Some(cfg)
    ensures cfg.user == run.worlds[i].db.tenants[h.id].code && cfg.token == h.token
    ensures Works(verify, run.worlds[n].db, cfg)
  {
    var db := run.worlds[i].db;
    var code := db.tenants[h.id].code;
    RunOk(verify, run, i);
    RunOk(verify, run, n);
    UnderwayKept(verify, run, i, n, k, h);
    ConfigReadsBack(db, h.id, h.server, code, h.token);
    text := ConfigText(h.server, code, h.token, JoinRows(db, h.id)).value;
    cfg := ConfigFor(h.server, code, h.token, EssentialAll(Entries(db, h.id)));
    ConfigWorks(verify, db, h.id, cfg);
    UntouchedView(verify, run, i, n, h.id);
    WorksLater(verify, db, run.worlds[n].db, h.id, cfg);
  }

  /** Where a reset stores its hash. */
  lemma ResetStoresHash(verify: Verify, run: Run, i: nat, k: nat, id: int, token: string, hash: string, server: Server)
    requires IsRun(verify, run) && Executes(run, i, k, Start(ResetToken(id, token, hash, server)))
    requires hash != "" && id in run.worlds[i].db.tenants
    ensures At(run, i + 1, k, ResetReadTenant(id, token, server))
    ensures run.worlds[i + 1].db == WithHash(run.worlds[i].db, id, hash)
  {
    After(verify, run, i, k, Start(ResetToken(id, token, hash, server)));
  }

  /** Where a registration does. */
  lemma RegistrationStoresHash(verify: Verify, run: Run, i: nat, k: nat, input: TenantInput, token: string,
                               server: Server)
    requires IsRun(verify, run) && Executes(run, i, k, Start(RegisterTenant(input, token, server)))
    requires Admissible(run.worlds[i].db, input)
    ensures var row := NewTenant(run.worlds[i].db, input);
            && At(run, i + 1, k, RegisterReadTenant(row.id, token, server))
            && run.worlds[i + 1].db == WithTenant(run.worlds[i].db, row)
  {
    After(verify, run, i, k, Start(RegisterTenant(input, token, server)));
  }
}
