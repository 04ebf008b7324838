/** A request served without interference: its answer is the decision of that one state, and a creating
    request succeeds under exactly the stated conditions. */
module Sequential {
  import opened Text
  import opened Model
  import opened Tables
  import opened Plugin
  import opened Join
  import opened TenantConfig
  import opened Machine
  import Safety

  /** One statement further. */
  lemma Advance(verify: Verify, db: Db, h: Handler) returns (e: Effect)
    requires !h.Done?
    ensures e == ExecOne(verify, db, h) && RunAlone(verify, db, h) == RunAlone(verify, e.db, e.next)
  {
    e := ExecOne(verify, db, h);
  }

  lemma {:induction false} RunAloneOk(verify: Verify, db: Db, h: Handler)
    requires Inv(db) && Safety.HandlerOk(db, h)
    ensures var f := RunAlone(verify, db, h); Safe(db, f.db) && Safety.OutcomeOk(f.db, f.outcome)
    decreases Rank(h)
  {
    if h.Done? {
      Safety.StayOk(db, h);
    } else {
      Safety.ExecOk(verify, db, h);
      ExecLowersRank(verify, db, h);
      var e := Advance(verify, db, h);
      RunAloneOk(verify, e.db, e.next);
      EvolvesTransitive(db, e.db, RunAlone(verify, e.db, e.next).db);
    }
  }

  lemma ServeOk(verify: Verify, db: Db, q: Request)
    requires Inv(db)
    ensures var f := Serve(verify, db, q); Safe(db, f.db) && Safety.OutcomeOk(f.db, f.outcome)
  {
    RunAloneOk(verify, db, Start(q));
  }

  lemma ServeKeepsInv(verify: Verify, db: Db, q: Request)
    requires Inv(db)
    ensures Inv(Serve(verify, db, q).db)
  {
    ServeOk(verify, db, q);
  }

  // ---- plugin requests ----

  lemma NewProxyAfterProxy(verify: Verify, db: Db, req: NewProxyRequest, t: Tenant, p: Proxy)
    ensures RunAlone(verify, db, NewProxyReadResource(req, t, p)) ==
            Finished(db, Decided(req, if p.resourceId !in db.resources then Reject(InternalError)
                                      else
                                        var r := db.resources[p.resourceId];
                                        Verdict(req, t, AuthContext(p, r, GrantByResource(db, r.id)))))
  {
    var e := Advance(verify, db, NewProxyReadResource(req, t, p));
    if e.next.NewProxyReadGrant? {
      e := Advance(verify, db, e.next);
    }
  }

  lemma NewProxyAfterLookup(verify: Verify, db: Db, req: NewProxyRequest, t: Tenant)
    ensures RunAlone(verify, db, NewProxyReadProxy(req, t)) ==
            Finished(db, Decided(req, match GetProxyAuthContext(db, t.id, req.name)
                                      case Err(e) => Reject(if e == ProxyNotFound then ProxyUnknown else InternalError)
                                      case Ok(ctx) => Verdict(req, t, ctx)))
  {
    var e := Advance(verify, db, NewProxyReadProxy(req, t));
    if e.next.NewProxyReadResource? {
      NewProxyAfterProxy(verify, db, req, t, e.next.proxy);
    }
  }

  /** With no interference the four reads see one state, and the answer is that state's decision. */
  lemma NewProxyAlone(verify: Verify, db: Db, req: NewProxyRequest)
    ensures Serve(verify, db, NewProxy(req)) == Finished(db, Decided(req, HandleNewProxy(verify, db, req)))
  {
    var e := Advance(verify, db, Start(NewProxy(req)));
    if e.next.NewProxyReadProxy? {
      NewProxyAfterLookup(verify, db, req, e.next.tenant);
    }
  }

  lemma LoginAlone(verify: Verify, db: Db, user: string, token: string)
    ensures Serve(verify, db, Login(user, token)) == Finished(db, Answered(HandleLogin(verify, db, user, token)))
  {
    var e := Advance(verify, db, Start(Login(user, token)));
  }

  /** Ping answers as Login would; only an allowed Ping writes, and only the time the tenant was last seen. */
  lemma PingAlone(verify: Verify, db: Db, user: string, token: string, now: int)
    requires Inv(db)
    ensures var f := Serve(verify, db, Ping(user, token, now));
            && f.outcome == Answered(HandleLogin(verify, db, user, token))
            && f.db == (match AuthTenant(verify, db, user, token)
                        case Ok(t) => db.(tenants := db.tenants[t.id := t.(lastSeen := Some(now))])
                        case Err(_) => db)
  {
    var e := Advance(verify, db, Start(Ping(user, token, now)));
    if e.next.PingTouch? {
      e := Advance(verify, e.db, e.next);
    }
  }

  // ---- configuration requests ----

  function WithHash(db: Db, id: int, hash: string): Db
    requires id in db.tenants
  {
    db.(tenants := db.tenants[id := db.tenants[id].(tokenHash := hash)])
  }

  lemma UpdateHashAlone(verify: Verify, db: Db, id: int, hash: string)
    ensures Serve(verify, db, UpdateTokenHash(id, hash)) ==
            if hash == "" then Finished(db, Failed(EmptyField))
            else if id !in db.tenants then Finished(db, Failed(TenantNotFound))
            else Finished(WithHash(db, id, hash), Updated)
  {
    var e := Advance(verify, db, Start(UpdateTokenHash(id, hash)));
  }

  lemma ConfigJoinAlone(verify: Verify, db: Db, id: int, code: string, token: string, server: Server, tolerant: bool)
    ensures RunAlone(verify, db, ConfigJoin(id, code, token, server, tolerant)) ==
            Finished(db, FileOutcome(token, ConfigText(server, code, token, JoinRows(db, id)), tolerant))
  {
    var e := Advance(verify, db, ConfigJoin(id, code, token, server, tolerant));
  }

  /** A reset stores the new hash and returns the file for the rows as they then are, with the plain token. */
  lemma ResetAlone(verify: Verify, db: Db, id: int, token: string, hash: string, server: Server)
    ensures Serve(verify, db, ResetToken(id, token, hash, server)) ==
            if hash == "" then Finished(db, Failed(EmptyField))
            else if id !in db.tenants then Finished(db, Failed(TenantNotFound))
            else
              var after := WithHash(db, id, hash);
              Finished(after, ConfigFile(token, ConfigText(server, db.tenants[id].code, token, JoinRows(after, id))))
  {
    var e := Advance(verify, db, Start(ResetToken(id, token, hash, server)));
    if e.next.ResetReadTenant? {
      var code := db.tenants[id].code;
      ConfigJoinAlone(verify, e.db, id, code, token, server, true);
      e := Advance(verify, e.db, e.next);
    }
  }

  lemma GetConfigAlone(verify: Verify, db: Db, id: int, server: Server)
    ensures Serve(verify, db, GetConfig(id, server)) ==
            if id !in db.tenants then Finished(db, Failed(TenantNotFound))
            else Finished(db, FileOutcome(PLACEHOLDER,
                                          ConfigText(server, db.tenants[id].code, PLACEHOLDER, JoinRows(db, id)),
                                          false))
  {
    var e := Advance(verify, db, Start(GetConfig(id, server)));
    if id in db.tenants {
      ConfigJoinAlone(verify, db, id, db.tenants[id].code, PLACEHOLDER, server, false);
    }
  }

  lemma QueryIgnoresTenants(db: Db, id: int, hash: string, rows: seq<AuthContext>)
    requires id in db.tenants && QueryResult(db, id, rows)
    ensures QueryResult(WithHash(db, id, hash), id, rows)
  {
    assert JoinSet(WithHash(db, id, hash), id) == JoinSet(db, id);
  }

  // ---- creating requests: when they succeed, and what they leave behind ----

  ghost predicate Admissible(db: Db, input: TenantInput) {
    && !Blank(input.code) && !Blank(input.name) && input.tokenHash != ""
    && forall t :: t in db.tenants ==> db.tenants[t].code != input.code
  }

  function NewTenant(db: Db, input: TenantInput): Tenant {
    Tenant(db.lastTenant + 1, input.code, input.name, input.tokenHash, ENABLED, input.description, None)
  }

  function WithTenant(db: Db, row: Tenant): Db {
    db.(tenants := db.tenants[row.id := row], lastTenant := row.id)
  }

  /** A tenant is created exactly when code, name and hash are given and the code is new. */
  lemma TenantAlone(verify: Verify, db: Db, input: TenantInput)
    ensures var f := Serve(verify, db, CreateTenant(input)); var row := NewTenant(db, input);
            if Admissible(db, input) then f == Finished(WithTenant(db, row), TenantRow(row))
            else f.db == db && f.outcome.Failed?
  {
    var e := Advance(verify, db, Start(CreateTenant(input)));
    if e.next.FetchTenant? {
      e := Advance(verify, e.db, e.next);
    }
  }

  /** A zone is created exactly when name and zone are given and the zone is new. */
  lemma ZoneAlone(verify: Verify, db: Db, name: string, zone: string)
    ensures var f := Serve(verify, db, CreateZone(name, zone)); var row := Zone(db.lastZone + 1, name, zone, ENABLED);
            if !Blank(name) && !Blank(zone) && forall z :: z in db.zones ==> db.zones[z].zone != zone
            then f == Finished(db.(zones := db.zones[row.id := row], lastZone := row.id), ZoneRow(row))
            else f.db == db && f.outcome.Failed?
  {
    var e := Advance(verify, db, Start(CreateZone(name, zone)));
    if e.next.FetchZone? {
      e := Advance(verify, e.db, e.next);
    }
  }

  lemma RegisterReadAlone(verify: Verify, db: Db, id: int, token: string, server: Server)
    requires id in db.tenants
    ensures RunAlone(verify, db, RegisterReadTenant(id, token, server)) ==
            Finished(db, ConfigFile(token, ConfigText(server, db.tenants[id].code, token, JoinRows(db, id))))
  {
    var e := Advance(verify, db, RegisterReadTenant(id, token, server));
    ConfigJoinAlone(verify, db, id, db.tenants[id].code, token, server, true);
  }

  /** Registering creates the tenant and returns the file for its rows, which carries the token. */
  lemma RegisterAlone(verify: Verify, db: Db, input: TenantInput, token: string, server: Server)
    ensures var f := Serve(verify, db, RegisterTenant(input, token, server)); var row := NewTenant(db, input);
            var after := WithTenant(db, row);
            if Admissible(db, input)
            then f == Finished(after, ConfigFile(token, ConfigText(server, input.code, token, JoinRows(after, row.id))))
            else f.db == db && f.outcome.Failed?
  {
    var e := Advance(verify, db, Start(RegisterTenant(input, token, server)));
    if e.next.RegisterReadTenant? {
      RegisterReadAlone(verify, e.db, e.next.id, token, server);
    }
  }

  lemma NewTenantHasNoRows(db: Db, input: TenantInput)
    requires Inv(db)
    ensures QueryResult(WithTenant(db, NewTenant(db, input)), db.lastTenant + 1, [])
  {
    var after, id := WithTenant(db, NewTenant(db, input)), db.lastTenant + 1;
    forall p | p in after.proxies ensures after.proxies[p].tenantId != id {
      var g := GrantOfProxy(db, p);
    }
    assert JoinSet(after, id) == {};
  }

  ghost predicate Grantable(db: Db, t: int, r: int) {
    && t in db.tenants && db.tenants[t].status == ENABLED
    && r in db.resources && db.resources[r].status == AVAILABLE
    && forall g :: g in db.grants ==> db.grants[g].resourceId != r
  }

  function WithGrant(db: Db, row: Grant): Db {
    db.(grants := db.grants[row.id := row], lastGrant := row.id)
  }

  lemma GrantInsertAlone(verify: Verify, db: Db, t: int, r: int)
    requires forall g :: g in db.grants ==> db.grants[g].resourceId != r
    ensures var row := Grant(db.lastGrant + 1, t, r, ENABLED);
            RunAlone(verify, db, GrantInsert(t, r)) == Finished(WithGrant(db, row), GrantRow(row))
  {
    var e := Advance(verify, db, GrantInsert(t, r));
    e := Advance(verify, e.db, e.next);
  }

  lemma GrantChecksAlone(verify: Verify, db: Db, t: int, r: int)
    ensures var f := RunAlone(verify, db, GrantReadResource(t, r));
            if r in db.resources && db.resources[r].status == AVAILABLE && GrantByResource(db, r).None?
            then f == RunAlone(verify, db, GrantInsert(t, r))
            else f.db == db && f.outcome.Failed?
  {
    var e := Advance(verify, db, GrantReadResource(t, r));
    if e.next.GrantReadGrant? {
      e := Advance(verify, db, e.next);
    }
  }

  /** A grant succeeds exactly when the tenant is enabled and the resource available and not granted yet. */
  lemma GrantAlone(verify: Verify, db: Db, t: int, r: int)
    ensures var f := Serve(verify, db, GrantResource(t, r));
            var row := Grant(db.lastGrant + 1, t, r, ENABLED);
            if Grantable(db, t, r) then f == Finished(WithGrant(db, row), GrantRow(row))
            else f.db == db && f.outcome.Failed?
  {
    var e := Advance(verify, db, Start(GrantResource(t, r)));
    if e.next.GrantReadResource? {
      GrantChecksAlone(verify, db, t, r);
      if Grantable(db, t, r) {
        GrantInsertAlone(verify, db, t, r);
      }
    }
  }

  ghost predicate Registrable(db: Db, input: ProxyInput) {
    && !Blank(input.name) && ValidProxyType(input.proxyType) && ValidPort(input.localPort)
    && input.resourceId in db.resources
    && ProxyTypeMatchesResource(input.proxyType, db.resources[input.resourceId].typ)
    && (exists g :: g in db.grants && db.grants[g].resourceId == input.resourceId
                    && db.grants[g].tenantId == input.tenantId && db.grants[g].status == ENABLED)
    && (forall p :: p in db.proxies && db.proxies[p].tenantId == input.tenantId ==> db.proxies[p].name != input.name)
  }

  function WithProxy(db: Db, row: Proxy): Db {
    db.(proxies := db.proxies[row.id := row], lastProxy := row.id)
  }

  function NewRow(db: Db, input: ProxyInput, localIP: string): Proxy {
    Proxy(db.lastProxy + 1, input.tenantId, input.resourceId, input.name, input.proxyType, localIP, input.localPort,
          ENABLED)
  }

  lemma ProxyInsertAlone(verify: Verify, db: Db, input: ProxyInput, localIP: string)
    ensures var row := NewRow(db, input, localIP); var f := RunAlone(verify, db, ProxyInsert(input, localIP));
            if forall p :: p in db.proxies && db.proxies[p].tenantId == input.tenantId ==>
                             db.proxies[p].name != input.name
            then f == Finished(WithProxy(db, row), ProxyRow(row))
            else f == Finished(db, Failed(DuplicateProxyName))
  {
    var e := Advance(verify, db, ProxyInsert(input, localIP));
    if e.next.FetchProxy? {
      e := Advance(verify, e.db, e.next);
    }
  }

  lemma ProxyGrantAlone(verify: Verify, db: Db, input: ProxyInput, localIP: string, res: Resource)
    requires Inv(db)
    ensures var f := RunAlone(verify, db, ProxyReadGrant(input, localIP, res));
            if ProxyTypeMatchesResource(input.proxyType, res.typ)
               && exists g :: g in db.grants && db.grants[g].resourceId == input.resourceId
                              && db.grants[g].tenantId == input.tenantId && db.grants[g].status == ENABLED
            then f == RunAlone(verify, db, ProxyInsert(input, localIP))
            else f.db == db && f.outcome.Failed?
  {
    var e := Advance(verify, db, ProxyReadGrant(input, localIP, res));
  }

  /** Registering succeeds exactly when the name is new for the tenant and its enabled grant fits the type. */
  lemma ProxyAlone(verify: Verify, db: Db, input: ProxyInput)
    requires Inv(db)
    ensures var f := Serve(verify, db, CreateProxy(input)); var row := NewRow(db, input, LocalIPOf(input));
            if Registrable(db, input) then f == Finished(WithProxy(db, row), ProxyRow(row))
            else f.db == db && f.outcome.Failed?
  {
    var e := Advance(verify, db, Start(CreateProxy(input)));
    if e.next.ProxyReadGrant? {
      ProxyGrantAlone(verify, db, input, LocalIPOf(input), db.resources[input.resourceId]);
      ProxyInsertAlone(verify, db, input, LocalIPOf(input));
    }
  }
}
