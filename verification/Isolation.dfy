/** Isolation: statements that do not touch a tenant's own rows change none of its answers and none of its
    configuration. */
module Isolation {
  import opened Text
  import opened Model
  import opened Tables
  import opened Plugin
  import opened Join
  import opened TenantConfig
  import opened Machine
  import opened Safety
  import Sequential
  import Revocation

  // ---- when two states look the same to one tenant ----

  ghost predicate SameProxies(a: Db, b: Db, t: int) {
    && (forall k :: k in a.proxies && a.proxies[k].tenantId == t ==> k in b.proxies && b.proxies[k] == a.proxies[k])
    && (forall k :: k in b.proxies && b.proxies[k].tenantId == t ==> k in a.proxies && a.proxies[k].tenantId == t)
  }

  ghost predicate SameGrants(a: Db, b: Db, t: int) {
    && (forall k :: k in a.grants && a.grants[k].tenantId == t ==> k in b.grants && b.grants[k] == a.grants[k])
    && (forall k :: k in b.grants && b.grants[k].tenantId == t ==> k in a.grants && a.grants[k].tenantId == t)
  }

  ghost predicate SameResources(a: Db, b: Db, t: int) {
    forall r | r in a.resources && OwnedBy(a.grants, r, t) :: r in b.resources && b.resources[r] == a.resources[r]
  }

  ghost predicate SameTenant(a: Db, b: Db, t: int) {
    t in a.tenants && t in b.tenants && b.tenants[t] == a.tenants[t].(lastSeen := b.tenants[t].lastSeen)
  }

  ghost predicate SameView(a: Db, b: Db, t: int) {
    SameTenant(a, b, t) && SameProxies(a, b, t) && SameGrants(a, b, t) && SameResources(a, b, t)
  }

  lemma SameOwnership(a: Db, b: Db, r: int, t: int)
    requires SameGrants(a, b, t) && OwnedBy(a.grants, r, t)
    ensures OwnedBy(b.grants, r, t)
  {
    var g :| g in a.grants && a.grants[g].resourceId == r && a.grants[g].tenantId == t;
    assert g in b.grants;
  }

  lemma SameViewTransitive(a: Db, b: Db, c: Db, t: int)
    requires Evolves(a, b) && Evolves(b, c) && SameView(a, b, t) && SameView(b, c, t)
    ensures SameView(a, c, t)
  {
    forall k | k in c.proxies && c.proxies[k].tenantId == t ensures k in a.proxies && a.proxies[k].tenantId == t {
      assert k in b.proxies;
    }
    forall k | k in c.grants && c.grants[k].tenantId == t ensures k in a.grants && a.grants[k].tenantId == t {
      assert k in b.grants;
    }
    forall r | r in a.resources && OwnedBy(a.grants, r, t)
      ensures r in c.resources && c.resources[r] == a.resources[r]
    {
      SameOwnership(a, b, r, t);
    }
  }

  // ---- same view, same answers ----

  lemma SameContextFound(a: Db, b: Db, t: int, p: int)
    requires Inv(a) && Inv(b) && SameView(a, b, t) && p in a.proxies && a.proxies[p].tenantId == t
    ensures GetProxyAuthContext(a, t, a.proxies[p].name) == GetProxyAuthContext(b, t, a.proxies[p].name)
  {
    var g := GrantOfProxy(a, p);
    assert OwnedBy(a.grants, a.proxies[p].resourceId, t);
    ContextLookup(a, p, g);
    ContextLookup(b, p, g);
  }

  ghost predicate NamesProxy(db: Db, t: int, name: string, p: int) {
    p in db.proxies && db.proxies[p].tenantId == t && db.proxies[p].name == name
  }

  lemma NoContext(db: Db, t: int, name: string)
    requires !exists p :: NamesProxy(db, t, name, p)
    ensures GetProxyAuthContext(db, t, name) == Err(ProxyNotFound)
  {
    if k :| k in db.proxies && db.proxies[k].tenantId == t && db.proxies[k].name == name {
      assert NamesProxy(db, t, name, k);
    }
  }

  lemma SameNames(a: Db, b: Db, t: int, name: string, p: int)
    requires SameProxies(a, b, t)
    ensures NamesProxy(a, t, name, p) <==> NamesProxy(b, t, name, p)
  {
  }

  lemma SameContext(a: Db, b: Db, t: int, name: string)
    requires Inv(a) && Inv(b) && SameView(a, b, t)
    ensures GetProxyAuthContext(a, t, name) == GetProxyAuthContext(b, t, name)
  {
    if p :| NamesProxy(a, t, name, p) {
      SameContextFound(a, b, t, p);
    } else {
      forall p ensures !NamesProxy(b, t, name, p) {
        SameNames(a, b, t, name, p);
      }
      NoContext(a, t, name);
      NoContext(b, t, name);
    }
  }

  lemma SameAuth(verify: Verify, a: Db, b: Db, t: int, token: string)
    requires Inv(a) && Inv(b) && SameTenant(a, b, t)
    ensures var code := a.tenants[t].code;
            var x, y := AuthTenant(verify, a, code, token), AuthTenant(verify, b, code, token);
            x.Ok? == y.Ok? && (x.Err? ==> x == y) && (x.Ok? ==> x.value.id == y.value.id == t)
  {
    TenantLookup(a, t);
    TenantLookup(b, t);
  }

  /** Every Login and NewProxy answer for the tenant's code is the same in both states. */
  lemma SameAnswers(verify: Verify, a: Db, b: Db, t: int, req: NewProxyRequest)
    requires Inv(a) && Inv(b) && SameView(a, b, t) && req.user == a.tenants[t].code
    ensures HandleNewProxy(verify, a, req) == HandleNewProxy(verify, b, req)
    ensures HandleLogin(verify, a, req.user, req.token) == HandleLogin(verify, b, req.user, req.token)
  {
    SameAuth(verify, a, b, t, req.token);
    SameContext(a, b, t, req.name);
  }

  lemma SamePing(verify: Verify, a: Db, b: Db, t: int, token: string, now: int)
    requires Inv(a) && Inv(b) && SameTenant(a, b, t)
    ensures var ping := Ping(a.tenants[t].code, token, now);
            Serve(verify, a, ping).outcome == Serve(verify, b, ping).outcome
  {
    SameAuth(verify, a, b, t, token);
    Sequential.PingAlone(verify, a, a.tenants[t].code, token, now);
    Sequential.PingAlone(verify, b, a.tenants[t].code, token, now);
  }

  lemma SameRowsListed(a: Db, b: Db, t: int)
    requires Inv(a) && Inv(b) && SameView(a, b, t)
    ensures JoinRows(a, t) == JoinRows(b, t)
  {
    forall c ensures c in JoinSet(a, t) <==> c in JoinSet(b, t) {
      JoinMatchesLookups(a, t, c);
      JoinMatchesLookups(b, t, c);
      SameContext(a, b, t, c.proxy.name);
    }
    QueryResultUnique(b, t, JoinRows(a, t));
  }

  lemma SameConfig(a: Db, b: Db, t: int, server: Server, token: string)
    requires Inv(a) && Inv(b) && SameView(a, b, t)
    ensures ConfigText(server, a.tenants[t].code, token, JoinRows(a, t)) ==
            ConfigText(server, b.tenants[t].code, token, JoinRows(b, t))
  {
    SameRowsListed(a, b, t);
  }

  // ---- statements that touch a tenant ----

  ghost predicate Touches(db: Db, h: Handler, t: int) {
    match h
    case Start(UpdateTenantStatus(id, _)) => id == t
    case Start(UpdateTokenHash(id, _)) => id == t
    case Start(ResetToken(id, _, _, _)) => id == t
    case Start(UpdateProxyStatus(id, _)) => id in db.proxies && db.proxies[id].tenantId == t
    case Start(UpdateGrantStatus(id, _)) => id in db.grants && db.grants[id].tenantId == t
    case Start(UpdateResourceStatus(id, _)) => OwnedBy(db.grants, id, t)
    case GrantInsert(tenantId, _) => tenantId == t
    case ProxyInsert(input, _) => input.tenantId == t
    case _ => false
  }

  lemma CreatingStepIsolated(db: Db, h: Handler, t: int)
    requires FreshIds(db) && t in db.tenants && IsCreate(h) && !Touches(db, h, t)
    ensures SameView(db, ExecCreate(db, h).db, t)
  {
    Revocation.CreatingStepsOnlyAdd(db, h);
  }

  lemma CreatingStartIsolated(db: Db, q: Request, t: int)
    requires FreshIds(db) && t in db.tenants && Creates(q)
    ensures SameView(db, StartCreate(db, q).db, t)
  {
    Revocation.CreatingStartsOnlyAdd(db, q);
  }

  lemma UnchangedView(db: Db, t: int)
    requires t in db.tenants
    ensures SameView(db, db, t)
  {
  }

  lemma OtherTenantIsolated(db: Db, id: int, row: Tenant, t: int)
    requires t in db.tenants && id != t
    ensures SameView(db, db.(tenants := db.tenants[id := row]), t)
  {
  }

  lemma WriteTenantIsolated(db: Db, q: Request, t: int)
    requires t in db.tenants && WritesTenant(q) && !Touches(db, Start(q), t)
    ensures SameView(db, StartOther(db, q).db, t)
  {
    UnchangedView(db, t);
    if q.id in db.tenants {
      var row := db.tenants[q.id];
      var row' := if q.UpdateTenantStatus? then row.(status := q.status) else row.(tokenHash := q.hash);
      OtherTenantIsolated(db, q.id, row', t);
    }
  }

  lemma ProxyStatusIsolated(db: Db, id: int, status: string, t: int)
    requires t in db.tenants && id in db.proxies && db.proxies[id].tenantId != t
    ensures SameView(db, SetProxyStatus(db, id, status).value, t)
  {
  }

  lemma GrantStatusIsolated(db: Db, id: int, status: string, t: int)
    requires t in db.tenants && id in db.grants && db.grants[id].tenantId != t
    ensures SameView(db, SetGrantStatus(db, id, status).value, t)
  {
  }

  lemma ResourceStatusIsolated(db: Db, id: int, status: string, t: int)
    requires t in db.tenants && id in db.resources && !OwnedBy(db.grants, id, t)
    ensures SameView(db, SetResourceStatus(db, id, status).value, t)
  {
  }

  lemma ZoneStatusIsolated(db: Db, id: int, status: string, t: int)
    requires t in db.tenants && id in db.zones
    ensures SameView(db, SetZoneStatus(db, id, status).value, t)
  {
  }

  lemma WriteStatusIsolated(db: Db, q: Request, t: int)
    requires t in db.tenants && WritesStatus(q) && !Touches(db, Start(q), t)
    ensures SameView(db, StartOther(db, q).db, t)
  {
    UnchangedView(db, t);
    match q
    case UpdateProxyStatus(id, s) => if id in db.proxies { ProxyStatusIsolated(db, id, s, t); }
    case UpdateGrantStatus(id, s) => if id in db.grants { GrantStatusIsolated(db, id, s, t); }
    case UpdateResourceStatus(id, s) => if id in db.resources { ResourceStatusIsolated(db, id, s, t); }
    case UpdateZoneStatus(id, s) => if id in db.zones { ZoneStatusIsolated(db, id, s, t); }
  }

  lemma LastSeenIsolated(db: Db, id: int, now: int, t: int)
    requires t in db.tenants && id in db.tenants
    ensures SameView(db, SetLastSeen(db, id, now).value, t)
  {
  }

  lemma PluginStepIsolated(db: Db, h: Handler, t: int)
    requires t in db.tenants
    ensures SameView(db, ExecPlugin(db, h).db, t)
  {
    PluginWrites(db, h);
    if h.PingTouch? && h.id in db.tenants {
      LastSeenIsolated(db, h.id, h.now, t);
    }
  }

  lemma StartIsolated(verify: Verify, db: Db, q: Request, t: int)
    requires FreshIds(db) && t in db.tenants && !Touches(db, Start(q), t)
    ensures SameView(db, ExecStart(verify, db, q).db, t)
  {
    if Creates(q) {
      CreatingStartIsolated(db, q, t);
    } else if !Asks(q) {
      if WritesTenant(q) {
        WriteTenantIsolated(db, q, t);
      } else if WritesStatus(q) {
        WriteStatusIsolated(db, q, t);
      } else {
        UnchangedView(db, t);
      }
    } else {
      UnchangedView(db, t);
    }
  }

  lemma StatementIsolated(verify: Verify, db: Db, h: Handler, t: int)
    requires FreshIds(db) && t in db.tenants && !h.Done? && !h.Start? && !Touches(db, h, t)
    ensures SameView(db, ExecOne(verify, db, h).db, t)
  {
    if IsCreate(h) {
      CreatingStepIsolated(db, h, t);
    } else if IsFetch(h) {
      UnchangedView(db, t);
    } else {
      PluginStepIsolated(db, h, t);
    }
  }

  lemma StepIsolated(verify: Verify, db: Db, h: Handler, t: int)
    requires Inv(db) && t in db.tenants && !h.Done? && !Touches(db, h, t)
    ensures SameView(db, ExecOne(verify, db, h).db, t)
  {
    InvGivesFreshIds(db);
    if h.Start? {
      StartIsolated(verify, db, h.request, t);
    } else {
      StatementIsolated(verify, db, h, t);
    }
  }

  ghost predicate TouchedAt(run: Run, n: nat, t: int)
    requires n < |run.actions| && n < |run.worlds|
  {
    && run.actions[n].Exec? && run.actions[n].k in run.worlds[n].handlers
    && Touches(run.worlds[n].db, run.worlds[n].handlers[run.actions[n].k], t)
  }

  lemma RunStepIsolated(verify: Verify, run: Run, n: nat, t: int)
    requires IsRun(verify, run) && n < |run.actions| && t in run.worlds[n].db.tenants && !TouchedAt(run, n, t)
    ensures SameView(run.worlds[n].db, run.worlds[n + 1].db, t)
  {
    RunOk(verify, run, n);
    var w, a := run.worlds[n], run.actions[n];
    assert Next(verify, w, a, run.worlds[n + 1]);
    if a.Exec? {
      StepIsolated(verify, w.db, w.handlers[a.k], t);
    }
  }

  lemma {:induction false} UntouchedView(verify: Verify, run: Run, i: nat, j: nat, t: int)
    requires IsRun(verify, run) && i <= j < |run.worlds| && t in run.worlds[i].db.tenants
    requires forall n :: i <= n < j ==> !TouchedAt(run, n, t)
    ensures SameView(run.worlds[i].db, run.worlds[j].db, t)
    decreases j - i
  {
    if i < j {
      UntouchedView(verify, run, i, j - 1, t);
      RunStepIsolated(verify, run, j - 1, t);
      RunEvolves(verify, run, i, j - 1);
      StepEvolves(verify, run, j - 1);
      SameViewTransitive(run.worlds[i].db, run.worlds[j - 1].db, run.worlds[j].db, t);
    }
  }

  /** Isolation over whole runs, whatever other tenants and administrators do in between. */
  lemma IsolationOverRuns(verify: Verify, run: Run, i: nat, j: nat, t: int, req: NewProxyRequest,
                          server: Server, token: string, now: int)
    requires IsRun(verify, run) && i <= j < |run.worlds| && t in run.worlds[i].db.tenants
    requires forall n :: i <= n < j ==> !TouchedAt(run, n, t)
    requires req.user == run.worlds[i].db.tenants[t].code
    ensures var a, b := run.worlds[i].db, run.worlds[j].db;
            && t in b.tenants
            && HandleNewProxy(verify, a, req) == HandleNewProxy(verify, b, req)
            && HandleLogin(verify, a, req.user, req.token) == HandleLogin(verify, b, req.user, req.token)
            && (var ping := Ping(req.user, req.token, now);
                Serve(verify, a, ping).outcome == Serve(verify, b, ping).outcome)
            && ConfigText(server, a.tenants[t].code, token, JoinRows(a, t)) ==
               ConfigText(server, b.tenants[t].code, token, JoinRows(b, t))
  {
    RunOk(verify, run, i);
    RunOk(verify, run, j);
    UntouchedView(verify, run, i, j, t);
    SameAnswers(verify, run.worlds[i].db, run.worlds[j].db, t, req);
    SamePing(verify, run.worlds[i].db, run.worlds[j].db, t, req.token, now);
    SameConfig(run.worlds[i].db, run.worlds[j].db, t, server, token);
  }
}
