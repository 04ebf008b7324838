/** Why an allowed request stops being allowed: only by disabling its tenant, proxy, grant or resource, or
    by giving its tenant a token hash that no longer matches. */
module Revocation {
  import Model
  import opened Tables
  import opened Plugin
  import opened Machine
  import Safety

  /** This statement takes away one of the conditions under which rows t, p, r and g entitle the request. */
  ghost predicate Revokes(verify: Verify, h: Handler, req: NewProxyRequest, t: int, p: int, r: int, g: int) {
    match h
    case Start(UpdateTenantStatus(id, s)) => id == t && s != Model.ENABLED
    case Start(UpdateTokenHash(id, hash)) => id == t && hash != "" && !verify(hash, req.token)
    case Start(ResetToken(id, _, hash, _)) => id == t && hash != "" && !verify(hash, req.token)
    case Start(UpdateProxyStatus(id, s)) => id == p && s != Model.ENABLED
    case Start(UpdateGrantStatus(id, s)) => id == g && s != Model.ENABLED
    case Start(UpdateResourceStatus(id, s)) => id == r && s != Model.AVAILABLE
    case _ => false
  }

  /** The entitling rows of a request never change while tables grow. */
  lemma SameRows(verify: Verify, a: Db, b: Db, req: NewProxyRequest, t: int, p: int, r: int, g: int,
                 t': int, p': int, r': int, g': int)
    requires Inv(b) && Evolves(a, b)
    requires EntitledBy(verify, a, req, t, p, r, g) && EntitledBy(verify, b, req, t', p', r', g')
    ensures t' == t && p' == p && r' == r && g' == g
  {
    assert b.tenants[t].code == b.tenants[t'].code;
    assert b.proxies[p].name == b.proxies[p'].name;
    assert b.grants[g].resourceId == b.grants[g'].resourceId;
  }

  /** The rows a statement leaves as they were. */
  ghost predicate SameAt(a: Db, b: Db, t: int, p: int, r: int, g: int) {
    && t in a.tenants && t in b.tenants && a.tenants[t] == b.tenants[t].(lastSeen := a.tenants[t].lastSeen)
    && p in a.proxies && p in b.proxies && a.proxies[p] == b.proxies[p]
    && r in a.resources && r in b.resources && a.resources[r] == b.resources[r]
    && g in a.grants && g in b.grants && a.grants[g] == b.grants[g]
  }

  lemma CreatingStepsOnlyAdd(db: Db, h: Handler)
    requires FreshIds(db) && IsCreate(h)
    ensures OnlyAdds(db, ExecCreate(db, h).db)
  {
  }

  lemma TenantStartsOnlyAdd(db: Db, q: Request)
    requires FreshIds(db) && (q.CreateTenant? || q.RegisterTenant?)
    ensures OnlyAdds(db, StartCreate(db, q).db)
  {
  }

  lemma CreatingStartsOnlyAdd(db: Db, q: Request)
    requires FreshIds(db) && Creates(q)
    ensures OnlyAdds(db, StartCreate(db, q).db)
  {
    if q.CreateTenant? || q.RegisterTenant? {
      TenantStartsOnlyAdd(db, q);
    } else if !q.CreateZone? {
      assert StartCreate(db, q).db == db;
    }
  }

  lemma PluginStepsKeep(db: Db, h: Handler, t: int, p: int, r: int, g: int)
    requires t in db.tenants && p in db.proxies && r in db.resources && g in db.grants
    ensures SameAt(db, ExecPlugin(db, h).db, t, p, r, g)
  {
    PluginWrites(db, h);
  }

  lemma UpdatesRevoke(verify: Verify, db: Db, q: Request, req: NewProxyRequest, t: int, p: int, r: int, g: int)
    requires Inv(db) && EntitledBy(verify, db, req, t, p, r, g) && !Creates(q) && !Asks(q)
    ensures EntitledBy(verify, StartOther(db, q).db, req, t, p, r, g) <==> !Revokes(verify, Start(q), req, t, p, r, g)
  {
  }

  lemma StartRevokes(verify: Verify, db: Db, q: Request, req: NewProxyRequest, t: int, p: int, r: int, g: int)
    requires Inv(db) && EntitledBy(verify, db, req, t, p, r, g)
    ensures EntitledBy(verify, ExecStart(verify, db, q).db, req, t, p, r, g) <==>
            !Revokes(verify, Start(q), req, t, p, r, g)
  {
    if Creates(q) {
      InvGivesFreshIds(db);
      CreatingStartsOnlyAdd(db, q);
    } else if !Asks(q) {
      UpdatesRevoke(verify, db, q, req, t, p, r, g);
    }
  }

  lemma StepRevokes(verify: Verify, db: Db, h: Handler, req: NewProxyRequest, t: int, p: int, r: int, g: int)
    requires Inv(db) && !h.Done? && EntitledBy(verify, db, req, t, p, r, g)
    ensures EntitledBy(verify, ExecOne(verify, db, h).db, req, t, p, r, g) <==> !Revokes(verify, h, req, t, p, r, g)
  {
    if h.Start? {
      StartRevokes(verify, db, h.request, req, t, p, r, g);
    } else if IsCreate(h) {
      InvGivesFreshIds(db);
      CreatingStepsOnlyAdd(db, h);
    } else if !IsFetch(h) {
      PluginStepsKeep(db, h, t, p, r, g);
    }
  }

  /** One step turns an allowed request into a rejected one exactly when it is a revoking statement. */
  lemma RevokedExactly(verify: Verify, db: Db, h: Handler, req: NewProxyRequest, t: int, p: int, r: int, g: int)
    requires Inv(db) && Safety.HandlerOk(db, h) && !h.Done? && EntitledBy(verify, db, req, t, p, r, g)
    ensures HandleNewProxy(verify, ExecOne(verify, db, h).db, req) != Allow <==> Revokes(verify, h, req, t, p, r, g)
  {
    Safety.ExecOk(verify, db, h);
    StepRevokes(verify, db, h, req, t, p, r, g);
    RevokedAfter(verify, db, ExecOne(verify, db, h).db, req, t, p, r, g);
  }

  lemma RevokedAfter(verify: Verify, db: Db, after: Db, req: NewProxyRequest, t: int, p: int, r: int, g: int)
    requires Inv(after) && Evolves(db, after) && EntitledBy(verify, db, req, t, p, r, g)
    ensures HandleNewProxy(verify, after, req) == Allow <==> EntitledBy(verify, after, req, t, p, r, g)
  {
    if EntitledBy(verify, after, req, t, p, r, g) {
      EntitledIsAllowed(verify, after, req, t, p, r, g);
    }
    if HandleNewProxy(verify, after, req) == Allow {
      var t', p', r', g' := AllowedIsEntitled(verify, after, req);
      SameRows(verify, db, after, req, t, p, r, g, t', p', r', g');
    }
  }

  ghost predicate RevokedAt(verify: Verify, run: Run, n: nat, req: NewProxyRequest, t: int, p: int, r: int, g: int)
    requires n < |run.actions| && n < |run.worlds|
  {
    && run.actions[n].Exec? && run.actions[n].k in run.worlds[n].handlers
    && Revokes(verify, run.worlds[n].handlers[run.actions[n].k], req, t, p, r, g)
  }

  lemma StepKeepsEntitled(verify: Verify, run: Run, n: nat, req: NewProxyRequest, t: int, p: int, r: int, g: int)
    requires IsRun(verify, run) && n < |run.actions|
    requires EntitledBy(verify, run.worlds[n].db, req, t, p, r, g)
    requires !EntitledBy(verify, run.worlds[n + 1].db, req, t, p, r, g)
    ensures RevokedAt(verify, run, n, req, t, p, r, g)
  {
    Safety.RunOk(verify, run, n);
    var w, a := run.worlds[n], run.actions[n];
    assert Next(verify, w, a, run.worlds[n + 1]);
    if a.Exec? {
      StepRevokes(verify, w.db, w.handlers[a.k], req, t, p, r, g);
    }
  }

  lemma {:induction false} FindRevocation(verify: Verify, run: Run, i: nat, j: nat, req: NewProxyRequest,
                                          t: int, p: int, r: int, g: int) returns (n: nat)
    requires IsRun(verify, run) && i < j < |run.worlds|
    requires EntitledBy(verify, run.worlds[i].db, req, t, p, r, g)
    requires !EntitledBy(verify, run.worlds[j].db, req, t, p, r, g)
    ensures i <= n < j && RevokedAt(verify, run, n, req, t, p, r, g)
    decreases j - i
  {
    if EntitledBy(verify, run.worlds[i + 1].db, req, t, p, r, g) {
      n := FindRevocation(verify, run, i + 1, j, req, t, p, r, g);
    } else {
      n := i;
      StepKeepsEntitled(verify, run, i, req, t, p, r, g);
    }
  }

  /** Revocation has a cause: between a state that allows a request and a later one that rejects it, some
      step revoked one of the very rows that entitled it. */
  lemma RevocationHasCause(verify: Verify, run: Run, i: nat, j: nat, req: NewProxyRequest)
    returns (n: nat, t: int, p: int, r: int, g: int)
    requires IsRun(verify, run) && i < j < |run.worlds|
    requires HandleNewProxy(verify, run.worlds[i].db, req) == Allow
    requires HandleNewProxy(verify, run.worlds[j].db, req) != Allow
    ensures EntitledBy(verify, run.worlds[i].db, req, t, p, r, g)
    ensures i <= n < j && RevokedAt(verify, run, n, req, t, p, r, g)
  {
    Safety.RunOk(verify, run, i);
    Safety.RunOk(verify, run, j);
    t, p, r, g := AllowedIsEntitled(verify, run.worlds[i].db, req);
    if EntitledBy(verify, run.worlds[j].db, req, t, p, r, g) {
      EntitledIsAllowed(verify, run.worlds[j].db, req, t, p, r, g);
    }
    n := FindRevocation(verify, run, i, j, req, t, p, r, g);
  }
}
